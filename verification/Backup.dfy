/** Backup retention: the rotation plan, confirmed purges that may be interrupted, and what they never remove. */
module Backup {
  import opened Common

  datatype File = File(createdAt: int, digest: nat)

  datatype Request = Request(digest: nat, reason: string)

  datatype Disposition = Unlinked | AlreadyAbsent

  /** Files on disk, and what the audit log says of drills and purges. */
  datatype Store = Store(files: map<nat, File>, verified: set<nat>, requested: map<nat, Request>, completed: map<nat, Disposition>)

  datatype Code =
    | ReasonInvalid | ConfirmationRequired | PurgeConflict | PurgeStateInvalid | InventoryInvalid | NotFound
    | DigestMismatch | LastVerifiedProtected | PurgeFailed | RetentionInvalid

  /** Where a purge is cut short: the unlink fails or the process stops on either side of it. */
  datatype Interruption = Uninterrupted | BeforeUnlink | AfterUnlink

  /** Restore-verified backups still on disk. */
  function LiveVerified(s: Store): set<nat> { set id | id in s.files && id in s.verified }

  function Complete(s: Store, id: nat, disposition: Disposition): (Store, Disposition) {
    if id in s.completed then (s, s.completed[id]) else (s.(completed := s.completed[id := disposition]), disposition)
  }

  /** The reason is the trimmed one; `readable` says that every backup of the inventory can be read. */
  datatype PurgeCall = PurgeCall(id: nat, digest: nat, reason: string, confirmed: bool, readable: bool, interruption: Interruption)

  predicate ReasonFits(reason: string) { 0 < |reason| <= 500 }

  function Purge(s: Store, c: PurgeCall): (Store, Result<Disposition, Code>) {
    if !ReasonFits(c.reason) then (s, Err(ReasonInvalid))
    else if !c.confirmed then (s, Err(ConfirmationRequired))
    else if c.id in s.requested then
      if s.requested[c.id] != Request(c.digest, c.reason) then (s, Err(PurgeConflict))
      else if c.id in s.files then (s, Err(PurgeStateInvalid))
      else var (s', disposition) := Complete(s, c.id, AlreadyAbsent); (s', Ok(disposition))
    else if !c.readable then (s, Err(InventoryInvalid))
    else if c.id !in s.files then (s, Err(NotFound))
    else if s.files[c.id].digest != c.digest then (s, Err(DigestMismatch))
    else if c.id in s.verified && |LiveVerified(s)| <= 1 then (s, Err(LastVerifiedProtected))
    else
      var asked := s.(requested := s.requested[c.id := Request(c.digest, c.reason)]);
      if c.interruption == BeforeUnlink then (asked, Err(PurgeFailed))
      else
        var gone := asked.(files := asked.files - {c.id});
        if c.interruption == AfterUnlink then (gone, Err(PurgeFailed))
        else var (s', disposition) := Complete(gone, c.id, Unlinked); (s', Ok(disposition))
  }

  // ---- Age ----

  /** Newer by creation time, then by identifier. */
  predicate Newer(files: map<nat, File>, a: nat, b: nat)
    requires a in files && b in files
  {
    files[a].createdAt > files[b].createdAt || (files[a].createdAt == files[b].createdAt && a > b)
  }

  predicate NewestFirst(files: map<nat, File>, ids: seq<nat>) {
    && (forall i :: 0 <= i < |ids| ==> ids[i] in files)
    && (forall i, j :: 0 <= i < j < |ids| ==> Newer(files, ids[i], ids[j]))
  }

  ghost function NewerThan(files: map<nat, File>, id: nat): set<nat>
    requires id in files
  {
    set x | x in files && Newer(files, x, id)
  }

  /** Among the newest `retain` backups, or the newest restore-verified one. */
  ghost predicate Protected(s: Store, retain: int, id: nat)
    requires id in s.files
  {
    |NewerThan(s.files, id)| < retain || (id in s.verified && forall x :: x in LiveVerified(s) ==> x == id || Newer(s.files, id, x))
  }

  ghost predicate IsPlan(s: Store, retain: int, ids: seq<nat>) {
    NewestFirst(s.files, ids) && forall id :: id in ids <==> id in s.files && !Protected(s, retain, id)
  }

  predicate IsNewest(files: map<nat, File>, ids: set<nat>, id: nat)
    requires ids <= files.Keys
  {
    id in ids && forall x :: x in ids ==> x == id || Newer(files, id, x)
  }

  lemma {:induction false} NewestExists(files: map<nat, File>, ids: set<nat>)
    requires ids <= files.Keys && ids != {}
    ensures exists id :: IsNewest(files, ids, id)
  {
    var a :| a in ids;
    var rest := ids - {a};
    if rest == {} {
      assert ids == {a};
      assert IsNewest(files, ids, a);
    } else {
      NewestExists(files, rest);
      var b :| IsNewest(files, rest, b);
      var best := if Newer(files, a, b) then a else b;
      forall x | x in ids ensures x == best || Newer(files, best, x) { assert x == a || x in rest; }
      assert IsNewest(files, ids, best);
    }
  }

  method SortNewest(files: map<nat, File>) returns (ids: seq<nat>)
    ensures NewestFirst(files, ids) && forall id :: id in ids <==> id in files
  {
    ids := [];
    var todo := files.Keys;
    while todo != {}
      invariant todo <= files.Keys && NewestFirst(files, ids)
      invariant forall id :: id in ids <==> id in files && id !in todo
      invariant forall i, x :: 0 <= i < |ids| && x in todo ==> Newer(files, ids[i], x)
      decreases todo
    {
      NewestExists(files, todo);
      var id :| id in todo && IsNewest(files, todo, id);
      ids, todo := ids + [id], todo - {id};
    }
  }

  lemma {:induction false} PrefixSize(files: map<nat, File>, ids: seq<nat>, n: nat)
    requires NewestFirst(files, ids) && n <= |ids|
    ensures |Members(ids[..n])| == n
  {
    if n > 0 {
      PrefixSize(files, ids, n - 1);
      assert Members(ids[..n]) == Members(ids[..n - 1]) + {ids[n - 1]};
      var head := ids[..n - 1];
      forall j | 0 <= j < |head| ensures head[j] != ids[n - 1] { assert Newer(files, ids[j], ids[n - 1]); }
    }
  }

  ghost function Members(ids: seq<nat>): set<nat> { set x | x in ids }

  /** In a list of everything, newest first, the position is the number of newer backups. */
  lemma PositionIsRank(files: map<nat, File>, ids: seq<nat>, i: nat)
    requires NewestFirst(files, ids) && (forall id :: id in ids <==> id in files) && i < |ids|
    ensures |NewerThan(files, ids[i])| == i
  {
    PrefixSize(files, ids, i);
    forall x ensures x in NewerThan(files, ids[i]) <==> x in Members(ids[..i]) {
      if x in files {
        var j :| 0 <= j < |ids| && ids[j] == x;
        assert j < i ==> ids[..i][j] == x && Newer(files, ids[j], ids[i]);
        assert i < j ==> Newer(files, ids[i], ids[j]);
        if x in ids[..i] {
          var k :| 0 <= k < i && ids[k] == x;
          assert Newer(files, ids[k], ids[i]);
        }
      }
    }
    assert NewerThan(files, ids[i]) == Members(ids[..i]);
  }

  lemma ProtectedMeaning(s: Store, retain: int, newest: seq<nat>, first: nat, k: nat)
    requires NewestFirst(s.files, newest) && (forall id :: id in newest <==> id in s.files) && k < |newest| && first <= |newest|
    requires (forall j :: 0 <= j < first ==> newest[j] !in s.verified) && (first < |newest| ==> newest[first] in s.verified)
    ensures Protected(s, retain, newest[k]) <==> k < retain || k == first
  {
    PositionIsRank(s.files, newest, k);
    if k == first {
      forall x | x in LiveVerified(s) ensures x == newest[k] || Newer(s.files, newest[k], x) {
        var j :| 0 <= j < |newest| && newest[j] == x;
        assert j >= first;
      }
    } else if newest[k] in s.verified {
      assert first < k && newest[first] in LiveVerified(s);
      assert Newer(s.files, newest[first], newest[k]);
    }
  }

  lemma DistinctPositions(files: map<nat, File>, ids: seq<nat>)
    requires NewestFirst(files, ids)
    ensures forall i, j :: 0 <= i < |ids| && 0 <= j < |ids| && ids[i] == ids[j] ==> i == j
  {
    forall i, j | 0 <= i < j < |ids| ensures ids[i] != ids[j] { assert Newer(files, ids[i], ids[j]); }
  }

  lemma ProtectedSet(s: Store, retain: int, newest: seq<nat>, first: nat, protected: set<nat>)
    requires NewestFirst(s.files, newest) && (forall id :: id in newest <==> id in s.files) && first <= |newest|
    requires (forall j :: 0 <= j < first ==> newest[j] !in s.verified) && (first < |newest| ==> newest[first] in s.verified)
    requires protected == set j | 0 <= j < |newest| && (j < retain || j == first) :: newest[j]
    ensures forall id :: id in s.files ==> (id in protected <==> Protected(s, retain, id))
  {
    DistinctPositions(s.files, newest);
    forall id | id in s.files ensures id in protected <==> Protected(s, retain, id) {
      var k :| 0 <= k < |newest| && newest[k] == id;
      ProtectedMeaning(s, retain, newest, first, k);
    }
  }

  lemma FilterStep(files: map<nat, File>, newest: seq<nat>, k: nat, candidates: seq<nat>)
    requires NewestFirst(files, newest) && k < |newest| && NewestFirst(files, candidates)
    requires forall id :: id in candidates ==> id in newest[..k]
    ensures NewestFirst(files, candidates + [newest[k]])
  {
    forall i | 0 <= i < |candidates| ensures Newer(files, candidates[i], newest[k]) {
      assert candidates[i] in candidates;
      var j :| 0 <= j < k && newest[..k][j] == candidates[i];
    }
  }

  method FirstVerified(newest: seq<nat>, verified: set<nat>) returns (first: nat)
    ensures first <= |newest| && (forall j :: 0 <= j < first ==> newest[j] !in verified) && (first < |newest| ==> newest[first] in verified)
  {
    first := 0;
    while first < |newest| && newest[first] !in verified
      invariant first <= |newest| && forall j :: 0 <= j < first ==> newest[j] !in verified
    {
      first := first + 1;
    }
  }

  method Unprotected(files: map<nat, File>, newest: seq<nat>, protected: set<nat>) returns (candidates: seq<nat>)
    requires NewestFirst(files, newest)
    ensures NewestFirst(files, candidates) && forall id :: id in candidates <==> id in newest && id !in protected
  {
    candidates := [];
    for k := 0 to |newest|
      invariant forall id :: id in candidates <==> id in newest[..k] && id !in protected
      invariant NewestFirst(files, candidates)
    {
      assert newest[..k + 1] == newest[..k] + [newest[k]];
      if newest[k] !in protected {
        FilterStep(files, newest, k, candidates);
        candidates := candidates + [newest[k]];
      }
    }
    assert newest[..|newest|] == newest;
  }

  // ---- What a purge does ----

  /** The call is confirmed, new, names a backup by its digest, and does not name the last verified one. */
  predicate Admitted(s: Store, c: PurgeCall) {
    && ReasonFits(c.reason) && c.confirmed && c.id !in s.requested && c.readable
    && c.id in s.files && s.files[c.id].digest == c.digest
    && (c.id in s.verified ==> |LiveVerified(s)| >= 2)
  }

  /**
   * The file of the named backup vanishes exactly when the call is admitted and the unlink is reached,
   * and no other file does; by then the request is on record. A reported success is a recorded one, of
   * a file that is gone.
   */
  ghost predicate PurgeEffect(s: Store, c: PurgeCall, s': Store, r: Result<Disposition, Code>) {
    && s'.files == (if Admitted(s, c) && c.interruption != BeforeUnlink then s.files - {c.id} else s.files)
    && s'.verified == s.verified
    && s'.requested == (if Admitted(s, c) then s.requested[c.id := Request(c.digest, c.reason)] else s.requested)
    && (r.Ok? ==> c.id !in s'.files && c.id in s'.requested && c.id in s'.completed && r.value == s'.completed[c.id])
    && (forall id :: id in s.completed ==> id in s'.completed && s'.completed[id] == s.completed[id])
    && (forall id :: id in s'.completed && id !in s.completed ==> id == c.id && r.Ok?)
  }

  lemma PurgeMeaning(s: Store, c: PurgeCall)
    ensures PurgeEffect(s, c, Purge(s, c).0, Purge(s, c).1)
  {
  }

  // ---- The service ----

  class BackupService {
    var files: map<nat, File>
    var verified: set<nat>
    var requested: map<nat, Request>
    var completed: map<nat, Disposition>

    ghost function Contents(): Store
      reads this
    {
      Store(files, verified, requested, completed)
    }

    constructor ()
      ensures Contents() == Store(map[], {}, map[], map[])
    {
      files, verified, requested, completed := map[], {}, map[], map[];
    }

    method CompletePurge(id: nat, disposition: Disposition) returns (reported: Disposition)
      modifies this
      ensures (Contents(), reported) == Complete(old(Contents()), id, disposition)
      ensures id in completed && completed[id] == reported && (id in old(completed) ==> Contents() == old(Contents()))
    {
      if id in completed { return completed[id]; }
      completed := completed[id := disposition];
      return disposition;
    }

    /** Each step is durable on its own: nothing is rolled back when a later one fails. */
    method PurgeBackup(c: PurgeCall) returns (r: Result<Disposition, Code>)
      modifies this
      ensures (Contents(), r) == Purge(old(Contents()), c)
      ensures PurgeEffect(old(Contents()), c, Contents(), r)
    {
      PurgeMeaning(Contents(), c);
      if !ReasonFits(c.reason) { return Err(ReasonInvalid); }
      if !c.confirmed { return Err(ConfirmationRequired); }
      if c.id in requested {
        if requested[c.id] != Request(c.digest, c.reason) { return Err(PurgeConflict); }
        if c.id in files { return Err(PurgeStateInvalid); }
        var earlier := CompletePurge(c.id, AlreadyAbsent);
        return Ok(earlier);
      }
      if !c.readable { return Err(InventoryInvalid); }
      if c.id !in files { return Err(NotFound); }
      if files[c.id].digest != c.digest { return Err(DigestMismatch); }
      var live := set id | id in files && id in verified;
      assert live == LiveVerified(Contents());
      if c.id in verified && |live| <= 1 { return Err(LastVerifiedProtected); }
      requested := requested[c.id := Request(c.digest, c.reason)];
      if c.interruption == BeforeUnlink { return Err(PurgeFailed); }
      files := files - {c.id};
      if c.interruption == AfterUnlink { return Err(PurgeFailed); }
      var disposition := CompletePurge(c.id, Unlinked);
      return Ok(disposition);
    }

    /** Candidates for deletion, newest first. */
    method RotationPlan(retain: int) returns (r: Result<seq<nat>, Code>)
      ensures r.Ok? <==> 2 <= retain <= 20
      ensures r.Ok? ==> IsPlan(Contents(), retain, r.value)
    {
      if !(2 <= retain <= 20) { return Err(RetentionInvalid); }
      var newest := SortNewest(files);
      var protected := set j | 0 <= j < |newest| && j < retain :: newest[j];
      var first := FirstVerified(newest, verified);
      if first < |newest| { protected := protected + {newest[first]}; }
      assert protected == set j | 0 <= j < |newest| && (j < retain || j == first) :: newest[j];
      ProtectedSet(Contents(), retain, newest, first, protected);
      var candidates := Unprotected(files, newest, protected);
      return Ok(candidates);
    }
  }

  // ---- Runs ----

  datatype Op = DoCreate(id: nat, file: File) | DoDrill(id: nat) | DoPurge(call: PurgeCall)

  function Step(s: Store, op: Op): Store {
    match op
    case DoCreate(id, file) => if id in s.files then s else s.(files := s.files[id := file])
    case DoDrill(id) => s.(verified := s.verified + {id})
    case DoPurge(call) => Purge(s, call).0
  }

  /** A purge removes no backup but the one it names, and that one only past the guard. */
  lemma PurgeRemoves(s: Store, c: PurgeCall)
    ensures var s' := Purge(s, c).0;
      && s'.verified == s.verified && s'.files.Keys <= s.files.Keys <= s'.files.Keys + {c.id}
      && (forall id :: id in s'.files ==> s'.files[id] == s.files[id])
      && (c.id in LiveVerified(s) && c.id !in s'.files ==> |LiveVerified(s)| > 1)
  {
    PurgeMeaning(s, c);
  }

  lemma SurvivorLeft(before: set<nat>, after: set<nat>, id: nat)
    requires |before| > 1 && before - {id} <= after
    ensures after != {}
  {
    assert |before - {id}| >= |before| - 1;
  }

  lemma StepKeepsVerified(s: Store, op: Op)
    requires LiveVerified(s) != {}
    ensures LiveVerified(Step(s, op)) != {}
  {
    match op {
      case DoPurge(c) =>
        PurgeRemoves(s, c);
        var s' := Purge(s, c).0;
        assert LiveVerified(s) - {c.id} <= LiveVerified(s');
        if c.id in LiveVerified(s) && c.id !in s'.files { SurvivorLeft(LiveVerified(s), LiveVerified(s'), c.id); }
        else {
          var id :| id in LiveVerified(s);
          assert id in LiveVerified(s');
        }
      case DoCreate(id, file) =>
        var k :| k in LiveVerified(s);
        assert k in LiveVerified(Step(s, op));
      case DoDrill(id) =>
        var k :| k in LiveVerified(s);
        assert k in LiveVerified(Step(s, op));
    }
  }

  function Run(s: Store, ops: seq<Op>): Store
    decreases |ops|
  {
    if ops == [] then s else Run(Step(s, ops[0]), ops[1..])
  }

  /** Once a restore-verified backup is on disk, one always is, whatever is created, drilled, purged or interrupted. */
  lemma {:induction false} VerifiedNeverLost(s: Store, ops: seq<Op>)
    requires LiveVerified(s) != {}
    ensures LiveVerified(Run(s, ops)) != {}
    decreases |ops|
  {
    if ops != [] {
      StepKeepsVerified(s, ops[0]);
      VerifiedNeverLost(Step(s, ops[0]), ops[1..]);
    }
  }

  /** The disposition first recorded for a purge is the one reported ever after. */
  lemma {:induction false} DispositionForever(s: Store, ops: seq<Op>, c: PurgeCall)
    requires c.id in s.completed
    ensures var end := Run(s, ops);
      c.id in end.completed && end.completed[c.id] == s.completed[c.id] && (Purge(end, c).1.Ok? ==> Purge(end, c).1.value == s.completed[c.id])
    decreases |ops|
  {
    if ops == [] {
      PurgeMeaning(s, c);
    } else {
      if ops[0].DoPurge? { PurgeMeaning(s, ops[0].call); }
      DispositionForever(Step(s, ops[0]), ops[1..], c);
    }
  }

  /** A backup whose purge stopped before the unlink is never removed by any later purge. */
  lemma {:induction false} StoppedPurgeKeepsFile(s: Store, ops: seq<Op>, id: nat)
    requires id in s.files && id in s.requested
    ensures id in Run(s, ops).files && Run(s, ops).files[id] == s.files[id]
    decreases |ops|
  {
    if ops != [] {
      if ops[0].DoPurge? { PurgeRemoves(s, ops[0].call); }
      StoppedPurgeKeepsFile(Step(s, ops[0]), ops[1..], id);
    }
  }

  /** A purge that stopped after the unlink is completed by repeating the call, which removes nothing more. */
  lemma RepeatCompletes(s: Store, c: PurgeCall)
    requires c.interruption == AfterUnlink && Purge(s, c).0.files != s.files && c.id !in s.completed
    ensures var stopped, again := Purge(s, c).0, Purge(Purge(s, c).0, c.(interruption := Uninterrupted));
      again.1 == Ok(AlreadyAbsent) && again.0 == stopped.(completed := stopped.completed[c.id := AlreadyAbsent])
  {
  }

  // ---- Carrying out a plan ----

  /** Purging these backups one after the other, each with its own digest. */
  function PurgeAll(s: Store, ids: seq<nat>, reason: string): (Store, bool)
    decreases |ids|
  {
    if ids == [] then (s, true)
    else if ids[0] !in s.files then (s, false)
    else
      var (s', r) := Purge(s, PurgeCall(ids[0], s.files[ids[0]].digest, reason, true, true, Uninterrupted));
      if r != Ok(Unlinked) then (s', false) else PurgeAll(s', ids[1..], reason)
  }

  /** Something other than the listed backups is restore-verified, unless none of them is. */
  ghost predicate Spared(s: Store, ids: seq<nat>) {
    (exists v :: v in LiveVerified(s) && v !in ids) || forall id :: id in ids ==> id !in s.verified
  }

  lemma GuardPasses(s: Store, ids: seq<nat>, id: nat)
    requires Spared(s, ids) && id in ids && id in s.files
    ensures id in s.verified ==> |LiveVerified(s)| > 1
  {
    if id in s.verified {
      var v :| v in LiveVerified(s) && v !in ids;
      assert {id, v} <= LiveVerified(s);
      assert LiveVerified(s) == {id, v} + (LiveVerified(s) - {id, v});
    }
  }

  ghost predicate Purgeable(s: Store, ids: seq<nat>) {
    && (forall i :: 0 <= i < |ids| ==> ids[i] in s.files && ids[i] !in s.requested && ids[i] !in s.completed)
    && (forall i, j :: 0 <= i < j < |ids| ==> ids[i] != ids[j])
  }

  /** Any list of distinct backups that spares a verified one can be purged, and nothing else goes. */
  lemma {:induction false} PurgeAllSucceeds(s: Store, ids: seq<nat>, reason: string)
    requires Purgeable(s, ids) && Spared(s, ids) && ReasonFits(reason)
    ensures PurgeAll(s, ids, reason).1 && PurgeAll(s, ids, reason).0.files == map id | id in s.files && id !in ids :: s.files[id]
    decreases |ids|
  {
    if ids == [] {
      assert (map id | id in s.files && id !in ids :: s.files[id]) == s.files;
    } else {
      var id, rest := ids[0], ids[1..];
      GuardPasses(s, ids, id);
      var s' := Purge(s, PurgeCall(id, s.files[id].digest, reason, true, true, Uninterrupted)).0;
      assert ids == [id] + rest;
      PurgedOne(s, s', ids);
      PurgeAllSucceeds(s', rest, reason);
      assert (map k | k in s.files && k !in ids :: s.files[k]) == map k | k in s'.files && k !in rest :: s'.files[k];
    }
  }

  lemma PurgedOne(s: Store, s': Store, ids: seq<nat>)
    requires ids != [] && Purgeable(s, ids) && Spared(s, ids) && s'.verified == s.verified && s'.files == s.files - {ids[0]}
    requires s'.requested.Keys == s.requested.Keys + {ids[0]} && s'.completed.Keys == s.completed.Keys + {ids[0]}
    ensures Purgeable(s', ids[1..]) && Spared(s', ids[1..])
  {
    assert forall i :: 0 <= i < |ids[1..]| ==> ids[1..][i] == ids[i + 1] != ids[0];
    if v :| v in LiveVerified(s) && v !in ids {
      assert ids[0] in ids;
      assert v in LiveVerified(s') && v !in ids[1..];
    }
  }

  /** The other backups that are at least as recent. */
  ghost function NoOlder(files: map<nat, File>, id: nat): set<nat>
    requires id in files
  {
    set x | x in files && x != id && files[x].createdAt >= files[id].createdAt
  }

  /** Every candidate of a plan has at least `retain` other backups no older than it. */
  lemma CandidatesAreOld(s: Store, retain: int, plan: seq<nat>, id: nat)
    requires IsPlan(s, retain, plan) && id in plan
    ensures id in s.files && |NoOlder(s.files, id)| >= retain
  {
    assert NewerThan(s.files, id) <= NoOlder(s.files, id);
    SmallerSet(NewerThan(s.files, id), NoOlder(s.files, id));
  }

  lemma SmallerSet(a: set<nat>, b: set<nat>)
    requires a <= b
    ensures |a| <= |b|
  {
    assert |b - a| == |b| - |a|;
  }

  lemma PlanSpares(s: Store, retain: int, plan: seq<nat>, ids: seq<nat>)
    requires IsPlan(s, retain, plan) && forall id :: id in ids ==> id in plan
    ensures Spared(s, ids)
  {
    if LiveVerified(s) != {} {
      assert LiveVerified(s) <= s.files.Keys;
      NewestExists(s.files, LiveVerified(s));
      var v :| IsNewest(s.files, LiveVerified(s), v);
      assert Protected(s, retain, v);
      assert v in LiveVerified(s) && v !in ids;
    } else {
      forall id | id in ids ensures id !in s.verified { assert id in s.files; assert id !in LiveVerified(s); }
    }
  }

  /**
   * The candidates of a plan, in any order and any selection, can all be purged if none was asked
   * for before; every protected backup stays: the newest `retain`, and the newest verified one.
   */
  lemma PlanIsSafe(s: Store, retain: int, plan: seq<nat>, ids: seq<nat>, reason: string)
    requires IsPlan(s, retain, plan) && (forall id :: id in ids ==> id in plan) && ReasonFits(reason)
    requires forall i, j :: 0 <= i < j < |ids| ==> ids[i] != ids[j]
    requires forall id :: id in ids ==> id !in s.requested && id !in s.completed
    ensures PurgeAll(s, ids, reason).1
    ensures forall id :: id in s.files && Protected(s, retain, id) ==>
      id in PurgeAll(s, ids, reason).0.files && PurgeAll(s, ids, reason).0.files[id] == s.files[id]
    ensures forall id :: id in ids ==> id !in PurgeAll(s, ids, reason).0.files
  {
    PlanSpares(s, retain, plan, ids);
    forall i | 0 <= i < |ids| ensures ids[i] in s.files && ids[i] !in s.requested && ids[i] !in s.completed { assert ids[i] in ids; }
    PurgeAllSucceeds(s, ids, reason);
  }
}
