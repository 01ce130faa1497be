/** What a token bucket holds as time passes, and what taking or handing back a token does to that. */
module TokenLevels {
  import opened Common
  import opened AuthorityModel
  import opened GatewayInvariant

  /** What the bucket would hold at time `t` if nothing else happened. */
  ghost function Level(b: Bucket, t: int): real {
    MinReal(b.capacity as real, b.tokens + Refill(Max(t, b.updatedAt) - b.updatedAt, b.rate))
  }

  /** The rate is in tokens per second. */
  lemma RefillPerSecond(seconds: int, rate: real)
    ensures SECOND == 1_000_000 && Refill(seconds * SECOND, rate) == seconds as real * rate
  {
    assert Seconds(seconds * SECOND) == seconds as real;
  }

  lemma SecondsScale(a: int, b: int, rate: real)
    requires a <= b && rate > 0.0
    ensures Refill(a, rate) <= Refill(b, rate)
  {
    assert Seconds(a) <= Seconds(b);
  }

  lemma SecondsAdd(a: int, b: int, rate: real)
    ensures Refill(a + b, rate) == Refill(a, rate) + Refill(b, rate)
  {
    assert Seconds(a + b) == Seconds(a) + Seconds(b);
  }

  lemma LevelBounds(b: Bucket, t: int)
    requires BucketBounded(b)
    ensures 0.0 <= Level(b, t) <= b.capacity as real
  {
    SecondsScale(0, Max(t, b.updatedAt) - b.updatedAt, b.rate);
  }

  /** As time passes a bucket gains at most its refill. */
  lemma LevelRises(b: Bucket, t: int, t': int)
    requires BucketBounded(b) && t <= t'
    ensures Level(b, t') <= Level(b, t) + Refill(t' - t, b.rate)
  {
    var d, d' := Max(t, b.updatedAt) - b.updatedAt, Max(t', b.updatedAt) - b.updatedAt;
    SecondsScale(d', d + (t' - t), b.rate);
    SecondsAdd(d, t' - t, b.rate);
    SecondsScale(0, t' - t, b.rate);
  }

  /**
   * `n` tokens came back: from the later of `now` and the bucket's own time on, it holds `n` tokens
   * more than it would have, up to its capacity; that time is its own from then on. With none, it is untouched.
   */
  ghost predicate Restored(b: Bucket, b': Bucket, n: nat, now: int) {
    && b'.policy == b.policy && b'.rate == b.rate && b'.capacity == b.capacity
    && (n == 0 ==> b' == b)
    && (n > 0 ==> b'.updatedAt == Max(now, b.updatedAt))
    && (n > 0 ==> forall t {:trigger Level(b', t)} :: t >= Max(now, b.updatedAt) ==>
          Level(b', t) == MinReal(b.capacity as real, Level(b, Max(now, b.updatedAt)) + n as real + Refill(t - Max(now, b.updatedAt), b.rate)))
  }

  /** Released tokens come back. */
  lemma RefundMeaning(b: Bucket, n: nat, now: int)
    requires BucketBounded(b)
    ensures Restored(b, Refund(b, n, now), n, now)
  {
    if n > 0 {
      var b', at := Refund(b, n, now), Max(now, b.updatedAt);
      forall t | t >= at
        ensures Level(b', t) == MinReal(b.capacity as real, Level(b, at) + n as real + Refill(t - at, b.rate))
      {
        SecondsScale(0, t - at, b.rate);
      }
    }
  }
}
