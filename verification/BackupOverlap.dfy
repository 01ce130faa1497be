/**
 * Purges that overlap in time: each asks past the guard at one moment and unlinks at another, and
 * others may come in between. When the last restore-verified backup can be lost this way.
 */
module BackupOverlap {
  import opened Common
  import opened Backup

  /** The store, and the backups whose purge has passed the guard and not yet reached the unlink. */
  datatype Yard = Yard(store: Store, inFlight: set<nat>)

  datatype Act =
    | Ask(call: PurgeCall)
    | Unlink(id: nat)
    | Stop(id: nat)
    | Other(op: Backup.Op)

  function Next(y: Yard, act: Act): Yard {
    match act
    case Ask(call) =>
      Yard(Purge(y.store, call.(interruption := BeforeUnlink)).0, if Admitted(y.store, call) then y.inFlight + {call.id} else y.inFlight)
    case Unlink(id) =>
      if id !in y.inFlight then y
      else Yard(Complete(y.store.(files := y.store.files - {id}), id, Unlinked).0, y.inFlight - {id})
    case Stop(id) => y.(inFlight := y.inFlight - {id})
    case Other(op) => if op.DoPurge? then y else y.(store := Step(y.store, op))
  }

  /** Asking and unlinking in one go is the purge of one process. */
  lemma AskThenUnlink(y: Yard, c: PurgeCall)
    requires c.id !in y.inFlight && Admitted(y.store, c)
    ensures Next(Next(y, Ask(c)), Unlink(c.id)) == y.(store := Purge(y.store, c.(interruption := Uninterrupted)).0)
  {
    assert y.inFlight + {c.id} - {c.id} == y.inFlight;
  }

  /** A verified backup on disk that no purge is about to remove. */
  ghost predicate Spare(y: Yard, v: nat) { v in LiveVerified(y.store) && v !in y.inFlight }

  lemma SpareExists(y: Yard)
    requires !Doomed(y)
    ensures exists v :: Spare(y, v)
  {
    var v :| v in LiveVerified(y.store) && v !in y.inFlight;
    assert Spare(y, v);
  }

  /** Every verified backup on disk is about to be removed. */
  ghost predicate Doomed(y: Yard) { LiveVerified(y.store) <= y.inFlight }

  /** The purge asks for a verified backup while that of another one is still to reach its unlink. */
  ghost predicate Overlaps(y: Yard, act: Act) {
    act.Ask? && Admitted(y.store, act.call) && act.call.id in y.store.verified && LiveVerified(y.store) * y.inFlight != {}
  }

  lemma AskedStore(y: Yard, c: PurgeCall)
    ensures LiveVerified(Next(y, Ask(c)).store) == LiveVerified(y.store)
  {
    PurgeMeaning(y.store, c.(interruption := BeforeUnlink));
  }

  /** An admitted purge dooms what is left exactly when every other verified backup is in flight already. */
  lemma AskDoomsIff(y: Yard, c: PurgeCall)
    requires !Doomed(y)
    ensures Doomed(Next(y, Ask(c))) <==> Admitted(y.store, c) && LiveVerified(y.store) - y.inFlight == {c.id}
    ensures Doomed(Next(y, Ask(c))) ==> Overlaps(y, Ask(c))
  {
    AskedStore(y, c);
    var live, left := LiveVerified(y.store), LiveVerified(y.store) - y.inFlight;
    SpareExists(y);
    if Doomed(Next(y, Ask(c))) {
      assert left == {c.id};
      assert live * y.inFlight == {} ==> live == {c.id};
      assert |{c.id}| == 1;
    }
  }

  lemma NextSpares(y: Yard, act: Act)
    requires !Doomed(y) && !Overlaps(y, act)
    ensures !Doomed(Next(y, act))
  {
    SpareExists(y);
    var v :| Spare(y, v);
    match act {
      case Ask(c) => AskDoomsIff(y, c);
      case Unlink(id) => assert Spare(Next(y, act), v);
      case Stop(id) => assert Spare(Next(y, act), v);
      case Other(op) => assert Spare(Next(y, act), v);
    }
  }

  function RunAll(y: Yard, acts: seq<Act>): Yard
    decreases |acts|
  {
    if acts == [] then y else RunAll(Next(y, acts[0]), acts[1..])
  }

  ghost predicate NeverOverlaps(y: Yard, acts: seq<Act>)
    decreases |acts|
  {
    acts == [] || (!Overlaps(y, acts[0]) && NeverOverlaps(Next(y, acts[0]), acts[1..]))
  }

  /** However purges, crashes, drills and new backups interleave, a verified backup is left if no two purges of verified ones overlap. */
  lemma {:induction false} SerialPurgesKeepOne(y: Yard, acts: seq<Act>)
    requires !Doomed(y) && NeverOverlaps(y, acts)
    ensures LiveVerified(RunAll(y, acts).store) != {}
    decreases |acts|
  {
    if acts == [] {
      SpareExists(y);
      var v :| Spare(y, v);
      assert v in LiveVerified(y.store);
    } else {
      NextSpares(y, acts[0]);
      SerialPurgesKeepOne(Next(y, acts[0]), acts[1..]);
    }
  }

  /** The purges in flight reach their unlinks, in some order. */
  ghost predicate OnlyUnlinks(acts: seq<Act>) { forall i :: 0 <= i < |acts| ==> acts[i].Unlink? }

  lemma {:induction false} UnlinksSpare(y: Yard, acts: seq<Act>, v: nat)
    requires OnlyUnlinks(acts) && Spare(y, v)
    ensures Spare(RunAll(y, acts), v)
    decreases |acts|
  {
    if acts != [] {
      assert acts[0].Unlink?;
      assert Spare(Next(y, acts[0]), v);
      UnlinksSpare(Next(y, acts[0]), acts[1..], v);
    }
  }

  lemma {:induction false} UnlinksFinish(y: Yard) returns (acts: seq<Act>)
    requires Doomed(y)
    ensures OnlyUnlinks(acts) && LiveVerified(RunAll(y, acts).store) == {}
    decreases |y.inFlight|
  {
    if y.inFlight == {} {
      acts := [];
    } else {
      var id :| id in y.inFlight;
      var next := Next(y, Unlink(id));
      assert LiveVerified(next.store) == LiveVerified(y.store) - {id};
      var rest := UnlinksFinish(next);
      acts := [Unlink(id)] + rest;
      assert acts[1..] == rest;
    }
  }

  /** The purges in flight can lose the last verified backup exactly when every one on disk is in flight. */
  lemma LostIffDoomed(y: Yard)
    ensures (exists acts :: OnlyUnlinks(acts) && LiveVerified(RunAll(y, acts).store) == {}) <==> Doomed(y)
  {
    if Doomed(y) {
      var acts := UnlinksFinish(y);
    } else {
      SpareExists(y);
      var v :| Spare(y, v);
      forall acts | OnlyUnlinks(acts) ensures LiveVerified(RunAll(y, acts).store) != {} {
        UnlinksSpare(y, acts, v);
        assert v in LiveVerified(RunAll(y, acts).store);
      }
    }
  }

  /** Two overlapping purges of the last two verified backups both pass the guard, and lose both. */
  lemma OverlapLosesBoth(a: nat, b: nat, fa: File, fb: File, reason: string)
    requires a != b && ReasonFits(reason)
    ensures var y := Yard(Store(map[a := fa, b := fb], {a, b}, map[], map[]), {});
      var first, second := PurgeCall(a, fa.digest, reason, true, true, Uninterrupted), PurgeCall(b, fb.digest, reason, true, true, Uninterrupted);
      && !Doomed(y) && Overlaps(Next(y, Ask(first)), Ask(second))
      && LiveVerified(RunAll(y, [Ask(first), Ask(second), Unlink(a), Unlink(b)]).store) == {}
  {
    var y := Yard(Store(map[a := fa, b := fb], {a, b}, map[], map[]), {});
    var first, second := PurgeCall(a, fa.digest, reason, true, true, Uninterrupted), PurgeCall(b, fb.digest, reason, true, true, Uninterrupted);
    assert LiveVerified(y.store) == {a, b};
    var y1 := Next(y, Ask(first));
    AskedStore(y, first);
    assert a in LiveVerified(y1.store) * y1.inFlight;
    var y2 := Next(y1, Ask(second));
    AskedStore(y1, second);
    var y3 := Next(y2, Unlink(a));
    var y4 := Next(y3, Unlink(b));
    assert LiveVerified(y4.store) == {};
    var acts := [Ask(first), Ask(second), Unlink(a), Unlink(b)];
    assert acts[1..] == [Ask(second), Unlink(a), Unlink(b)] && acts[1..][1..] == [Unlink(a), Unlink(b)];
    assert [Unlink(a), Unlink(b)][1..] == [Unlink(b)] && [Unlink(b)][1..] == [];
    assert RunAll(y4, []) == y4;
    assert RunAll(y3, [Unlink(b)]) == y4;
    assert RunAll(y2, [Unlink(a), Unlink(b)]) == y4;
  }
}
