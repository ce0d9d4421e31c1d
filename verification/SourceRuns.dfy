/** Runs of the source store: garbage collection is safe under every interleaving. */
module SourceRuns {
  import opened SourceStore

  function Empty(): State { State(map[], map[], map[], map[], {}, {}, map[], map[], Nobody) }

  ghost predicate IsRun(states: seq<State>, steps: seq<Step>) {
    |states| == |steps| + 1 && states[0] == Empty() &&
    forall i :: 0 <= i < |steps| ==> Enabled(states[i], steps[i]) && states[i + 1] == Apply(states[i], steps[i])
  }

  lemma {:induction false} ReachableInv(states: seq<State>, steps: seq<Step>, i: nat)
    requires IsRun(states, steps) && i < |states|
    ensures Inv(states[i])
  {
    hide Apply, Enabled;
    if i > 0 {
      ReachableInv(states, steps, i - 1);
      hide Inv;
      StepKeeps(states[i - 1], steps[i - 1]);
    }
  }

  /** Whatever the collector removes, no live upload, pin or current snapshot refers to it. */
  lemma CollectionSafe(states: seq<State>, steps: seq<Step>, i: nat, r: Ref)
    requires IsRun(states, steps) && i < |steps|
    requires r in states[i].blobs && r !in states[i + 1].blobs
    ensures steps[i].StepRemove? && !Referenced(states[i], r)
  {
    ReachableInv(states, steps, i);
    hide Inv, Referenced;
    if steps[i].StepRemove? {
      RemovalSafe(states[i], steps[i].g, steps[i].removed, r);
    } else {
      hide Apply, Enabled;
      BlobsStay(states[i], steps[i]);
    }
  }

  lemma BlobsStay(s: State, step: Step)
    requires Enabled(s, step) && !step.StepRemove?
    ensures s.blobs <= Apply(s, step).blobs
  {
    hide SessionRefs, PinRefs, SnapshotRefs;
    match step
    case StepCheck(c, d) =>
      var u := s.commits[c].upload;
      if Ref(s.issued[u].owner, d) in s.blobs {
      } else if u in s.sessions {
      } else {
      }
    case StepSave(c, ok) =>
      if ok {
      } else if s.commits[c].upload in s.sessions {
      } else {
      }
    case StepRelease(x) =>
      if x !in s.pins {
      } else if s.pins[x] <= 1 {
      } else {
      }
    case _ =>
  }

  lemma PreparedStays(s: State, step: Step, x: Source)
    requires Enabled(s, step) && x in s.prepared && x in Apply(s, step).pins
    ensures x in Apply(s, step).prepared
  {
    hide SessionRefs, PinRefs, SnapshotRefs, Check, Save, Release;
    match step
    case StepCheck(c, d) => CheckPrepared(s, c, d);
    case StepSave(c, ok) => SavePrepared(s, c, ok);
    case StepRelease(y) => ReleasePrepared(s, y, x);
    case _ =>
  }

  lemma CheckPrepared(s: State, c: TaskId, d: Digest)
    requires CanCheck(s, c, d)
    ensures Check(s, c, d).prepared == s.prepared
  {
    var u := s.commits[c].upload;
    if Ref(s.issued[u].owner, d) in s.blobs {
    } else if u in s.sessions {
    } else {
    }
  }

  lemma SavePrepared(s: State, c: TaskId, ok: bool)
    requires CanSave(s, c)
    ensures Save(s, c, ok).prepared == s.prepared
  {
    if ok {
    } else if s.commits[c].upload in s.sessions {
    } else {
    }
  }

  lemma ReleasePrepared(s: State, y: Source, x: Source)
    requires x in s.prepared && x in Release(s, y).pins
    ensures x in Release(s, y).prepared
  {
    if y !in s.pins {
    } else if s.pins[y] <= 1 {
    } else {
    }
  }

  // ----- Pins are counted -----

  /** The step takes a pin on the source. */
  predicate PinsOne(s: State, step: Step, x: Source) {
    (step.StepPrepare? && step.u in s.sessions && s.sessions[step.u].source == x) || step == StepPin(x)
  }

  /** The step gives one back that is held. */
  predicate GivesBack(s: State, step: Step, x: Source) { step == StepRelease(x) && x in s.pins }

  ghost function PinsTaken(states: seq<State>, steps: seq<Step>, k: nat, x: Source): nat
    requires k <= |steps| && |states| == |steps| + 1
  {
    if k == 0 then 0 else PinsTaken(states, steps, k - 1, x) + if PinsOne(states[k - 1], steps[k - 1], x) then 1 else 0
  }

  ghost function PinsGivenBack(states: seq<State>, steps: seq<Step>, k: nat, x: Source): nat
    requires k <= |steps| && |states| == |steps| + 1
  {
    if k == 0 then 0 else PinsGivenBack(states, steps, k - 1, x) + if GivesBack(states[k - 1], steps[k - 1], x) then 1 else 0
  }

  /** The table has no empty entries. */
  ghost predicate PinsPositive(s: State) { forall x :: x in s.pins ==> s.pins[x] > 0 }

  lemma StepPins(s: State, step: Step, x: Source)
    requires Enabled(s, step) && PinsPositive(s)
    ensures PinsPositive(Apply(s, step))
    ensures PinCount(Apply(s, step), x) + (if GivesBack(s, step, x) then 1 else 0) ==
            PinCount(s, x) + (if PinsOne(s, step, x) then 1 else 0)
  {
    hide SessionRefs, PinRefs, SnapshotRefs, Check, Save, Release;
    match step
    case StepCheck(c, d) => CheckPins(s, c, d);
    case StepSave(c, ok) => SavePins(s, c, ok);
    case StepRelease(y) => ReleasePins(s, y, x);
    case _ =>
  }

  lemma CheckPins(s: State, c: TaskId, d: Digest)
    requires CanCheck(s, c, d)
    ensures Check(s, c, d).pins == s.pins
  {
    var u := s.commits[c].upload;
    if Ref(s.issued[u].owner, d) in s.blobs {
    } else if u in s.sessions {
    } else {
    }
  }

  lemma SavePins(s: State, c: TaskId, ok: bool)
    requires CanSave(s, c)
    ensures Save(s, c, ok).pins == s.pins
  {
    if ok {
    } else if s.commits[c].upload in s.sessions {
    } else {
    }
  }

  lemma ReleasePins(s: State, y: Source, x: Source)
    requires PinsPositive(s)
    ensures PinsPositive(Release(s, y))
    ensures PinCount(Release(s, y), x) == PinCount(s, x) - if y == x && x in s.pins then 1 else 0
  {
    if y !in s.pins {
    } else if s.pins[y] <= 1 {
    } else {
    }
  }

  /**
   The pins of a source are those taken less those given back, so it leaves the
   table with its last release, however often it was pinned, and not before.
   */
  lemma {:induction false} PinsCounted(states: seq<State>, steps: seq<Step>, k: nat, x: Source)
    requires IsRun(states, steps) && k < |states|
    ensures PinCount(states[k], x) + PinsGivenBack(states, steps, k, x) == PinsTaken(states, steps, k, x)
    ensures x in states[k].pins <==> PinsTaken(states, steps, k, x) > PinsGivenBack(states, steps, k, x)
    ensures PinsPositive(states[k])
  {
    hide Apply, Enabled, PinsOne, GivesBack;
    if k > 0 {
      PinsCounted(states, steps, k - 1, x);
      StepPins(states[k - 1], steps[k - 1], x);
    }
  }

  /**
   A source pinned through PrepareUpload keeps every blob in every later state
   of the run up to its last release, whatever the collector and the other
   clients do in between.
   */
  lemma {:induction false} PreparedUntilReleased(states: seq<State>, steps: seq<Step>, i: nat, k: nat, x: Source)
    requires IsRun(states, steps) && i < k < |states|
    requires steps[i].StepPrepare? && steps[i].u in states[i].sessions && states[i].sessions[steps[i].u].source == x
    requires forall m :: i < m <= k ==> x in states[m].pins
    ensures x in states[k].prepared && Complete(states[k], x)
    decreases k - i
  {
    hide Apply, Enabled, Inv;
    if k > i + 1 {
      PreparedUntilReleased(states, steps, i, k - 1, x);
      assert states[k - 1 + 1] == Apply(states[k - 1], steps[k - 1]);
      PreparedStays(states[k - 1], steps[k - 1], x);
    } else {
      Prepares(states[i], steps[i].u);
    }
    ReachableInv(states, steps, k);
    PreparedComplete(states[k], x);
  }

  lemma Prepares(s: State, u: UploadId)
    requires Enabled(s, StepPrepare(u))
    ensures u in s.sessions && s.sessions[u].source in Apply(s, StepPrepare(u)).prepared
  {
  }

  lemma PreparedComplete(s: State, x: Source)
    requires Inv(s) && x in s.prepared
    ensures Complete(s, x)
  {
  }

  /**
   While nobody consumes an upload under a commit, commits in progress keep what
   they have checked, and current snapshots are complete; such a consumption at
   once deprives its commit.
   */
  lemma {:induction false} CommittedComplete(states: seq<State>, steps: seq<Step>, i: nat)
    requires IsRun(states, steps) && i < |states|
    requires forall m :: 0 <= m < i ==> !Robs(states[m], steps[m])
    ensures CommitsOk(states[i]) && CurrentOk(states[i])
    ensures i < |steps| ==> (CommitsOk(states[i + 1]) <==> !Robs(states[i], steps[i]))
  {
    hide Apply, Enabled, Robs;
    if i > 0 {
      hide CommitsOk, CurrentOk;
      CommittedComplete(states, steps, i - 1);
      ReachableInv(states, steps, i - 1);
      CommitStep(states[i - 1], steps[i - 1]);
    }
    ReachableInv(states, steps, i);
    hide Inv;
    if i < |steps| {
      CommitStep(states[i], steps[i]);
    }
  }

  /** Current snapshots are complete throughout a run exactly when no commit of it saves an incomplete one. */
  lemma CurrentExactly(states: seq<State>, steps: seq<Step>)
    requires IsRun(states, steps)
    ensures (forall i :: 0 <= i < |states| ==> CurrentOk(states[i])) <==>
            (forall k :: 0 <= k < |steps| ==> !SavesIncomplete(states[k], steps[k]))
  {
    hide Apply, Enabled, CurrentOk, SavesIncomplete, Inv;
    if forall k :: 0 <= k < |steps| ==> !SavesIncomplete(states[k], steps[k]) {
      forall i | 0 <= i < |states| ensures CurrentOk(states[i]) {
        CurrentUpTo(states, steps, i);
      }
    } else {
      var k :| 0 <= k < |steps| && SavesIncomplete(states[k], steps[k]);
      if CurrentOk(states[k]) {
        ReachableInv(states, steps, k);
        CurrentStep(states[k], steps[k]);
        assert !CurrentOk(states[k + 1]);
      }
    }
  }

  lemma {:induction false} CurrentUpTo(states: seq<State>, steps: seq<Step>, i: nat)
    requires IsRun(states, steps) && i < |states|
    requires forall k :: 0 <= k < i ==> !SavesIncomplete(states[k], steps[k])
    ensures CurrentOk(states[i])
  {
    hide Apply, Enabled, SavesIncomplete, Inv;
    if i > 0 {
      hide CurrentOk;
      CurrentUpTo(states, steps, i - 1);
      ReachableInv(states, steps, i - 1);
      CurrentStep(states[i - 1], steps[i - 1]);
    }
  }

  /** A commit in progress has lost its upload only because the upload was consumed under it. */
  lemma {:induction false} LostByConsuming(states: seq<State>, steps: seq<Step>, i: nat, c: TaskId, u: UploadId) returns (a: nat)
    requires IsRun(states, steps) && i < |states| && Underway(states[i], c, u) && !Live(states[i], u)
    ensures a < i && steps[a] == StepConsume(u) && Underway(states[a], c, u)
  {
    hide Apply, Enabled, Inv, Underway, Live;
    a := 0;
    if i == 0 {
      NothingUnderway(c, u);
    } else {
      ReachableInv(states, steps, i - 1);
      StaysLive(states[i - 1], steps[i - 1], c, u);
      if Live(states[i - 1], u) {
        a := i - 1;
      } else {
        a := LostByConsuming(states, steps, i - 1, c, u);
      }
    }
  }

  lemma NothingUnderway(c: TaskId, u: UploadId)
    ensures !Underway(Empty(), c, u)
  {
  }

  /** A commit misses a blob that it had found only because its upload was consumed and the blob then collected. */
  lemma {:induction false} MissingByCollecting(states: seq<State>, steps: seq<Step>, i: nat, c: TaskId, u: UploadId, d: Digest)
      returns (a: nat, b: nat)
    requires IsRun(states, steps) && i < |states| && Underway(states[i], c, u) && Found(states[i], c, d)
    requires Ref(states[i].issued[u].owner, d) !in states[i].blobs
    ensures a < b < i && steps[a] == StepConsume(u) && Underway(states[a], c, u)
    ensures steps[b].StepRemove? && Ref(states[i].issued[u].owner, d) in steps[b].removed
  {
    hide Apply, Enabled, Inv, Found, Live;
    a, b := 0, 0;
    if i == 0 {
      NothingUnderway(c, u);
    } else {
      ReachableInv(states, steps, i - 1);
      StaysFound(states[i - 1], steps[i - 1], c, u, d);
      if Ref(states[i - 1].issued[u].owner, d) in states[i - 1].blobs {
        b := i - 1;
        RemovedUnprotected(states[b], steps[b], c, u, d);
        a := LostByConsuming(states, steps, b, c, u);
      } else {
        a, b := MissingByCollecting(states, steps, i - 1, c, u, d);
      }
    }
  }

  lemma RemovedUnprotected(s: State, step: Step, c: TaskId, u: UploadId, d: Digest)
    requires Inv(s) && Enabled(s, step) && step.StepRemove? && Underway(s, c, u) && Found(s, c, d)
    requires Ref(s.issued[u].owner, d) in step.removed
    ensures !Live(s, u)
  {
    var r := Ref(s.issued[u].owner, d);
    RemovalSafe(s, step.g, step.removed, r);
    assert r in Refs(s.issued[u]);
  }

  /** So an incomplete snapshot is saved only by a commit whose upload was consumed, and a blob of it collected, before. */
  lemma IncompleteByConsuming(states: seq<State>, steps: seq<Step>, k: nat) returns (a: nat, b: nat)
    requires IsRun(states, steps) && k < |steps| && SavesIncomplete(states[k], steps[k])
    ensures var c := steps[k].c; var u := states[k].commits[c].upload;
      a < b < k && steps[a] == StepConsume(u) && Underway(states[a], c, u) &&
      steps[b].StepRemove? && steps[b].removed * Refs(states[k].issued[u]) != {}
  {
    hide Apply, Enabled;
    var s, c := states[k], steps[k].c;
    var u := s.commits[c].upload;
    var r :| r in Refs(s.issued[u]) && r !in s.blobs;
    a, b := MissingByCollecting(states, steps, k, c, u, r.digest);
    assert r in steps[b].removed * Refs(s.issued[u]);
  }

  // ----- A commit loses its upload -----

  const SOURCE := Source(0, 0, {0})
  const BLOB := Ref(0, 0)

  /** The upload was prepared for a session and is also under a commit that has found its blob. */
  function Shared(): State {
    State(map[0 := Upload(SOURCE, false, true)], map[0 := SOURCE], map[], map[SOURCE := 1], {SOURCE}, {BLOB},
          map[], map[0 := Checking(0, {})], Nobody)
  }

  lemma Then(states: seq<State>, steps: seq<Step>, step: Step, next: State) returns (states': seq<State>, steps': seq<Step>)
    requires IsRun(states, steps) && Enabled(states[|steps|], step) && next == Apply(states[|steps|], step)
    ensures IsRun(states', steps') && states'[|steps'|] == next
  {
    hide Apply, Enabled;
    states', steps' := states + [next], steps + [step];
    forall i | 0 <= i < |steps'| ensures Enabled(states'[i], steps'[i]) && states'[i + 1] == Apply(states'[i], steps'[i]) {
      assert i < |steps| ==> states'[i] == states[i] && states'[i + 1] == states[i + 1] && steps'[i] == steps[i];
    }
  }

  lemma Shares() returns (states: seq<State>, steps: seq<Step>)
    ensures IsRun(states, steps) && states[|steps|] == Shared()
  {
    hide IsRun;
    states, steps := [Empty()], [];
    assert IsRun(states, steps) by { Starts(); }
    var s1 := Plan(Empty(), 0, SOURCE);
    states, steps := Then(states, steps, StepPlan(0, SOURCE), s1);
    var s2 := PutBlob(s1, BLOB);
    states, steps := Then(states, steps, StepPut(BLOB), s2);
    assert Refs(SOURCE) == {BLOB};
    var s3 := Prepare(s2, 0);
    states, steps := Then(states, steps, StepPrepare(0), s3);
    var s4 := Begin(s3, 0, 0);
    assert s4 == Shared().(commits := map[0 := Checking(0, {0})]);
    states, steps := Then(states, steps, StepBegin(0, 0), s4);
    assert {0 as Digest} - {0} == {};
    var s5 := Check(s4, 0, 0);
    assert s5 == Shared();
    states, steps := Then(states, steps, StepCheck(0, 0), s5);
  }

  lemma Starts()
    ensures IsRun([Empty()], [])
  {
  }

  /** The session consumed the upload and its job ended; the collector has gathered no reference. */
  function Abandoned(): State {
    Shared().(sessions := map[], pins := map[], prepared := {}, collectors := map[1 := Locked({})], holder := Collecting(1))
  }

  lemma Abandons(states: seq<State>, steps: seq<Step>) returns (states': seq<State>, steps': seq<Step>)
    requires IsRun(states, steps) && states[|steps|] == Shared()
    ensures IsRun(states', steps') && states'[|steps'|] == Abandoned()
  {
    hide IsRun;
    var s1 := Consume(Shared(), 0);
    assert s1 == Shared().(sessions := map[]);
    states', steps' := Then(states, steps, StepConsume(0), s1);
    var s2 := Release(s1, SOURCE);
    assert s2 == s1.(pins := map[], prepared := {});
    states', steps' := Then(states', steps', StepRelease(SOURCE), s2);
    assert SessionRefs(s2) == {} && PinRefs(s2) == {};
    var s3 := Mark(s2, 1);
    states', steps' := Then(states', steps', StepMark(1), s3);
    assert SnapshotRefs(s3.(snapshots := s3.snapshots - {})) == {};
    var s4 := Visit(s3, 1, {});
    assert s4 == Abandoned();
    states', steps' := Then(states', steps', StepVisit(1, {}), s4);
  }

  /** Consuming an upload under a commit can leave a current snapshot whose blob was collected. */
  lemma ConsumedUnderCommit() returns (states: seq<State>, steps: seq<Step>)
    ensures IsRun(states, steps) && !CurrentOk(states[|steps|])
  {
    hide IsRun;
    states, steps := Shares();
    states, steps := Abandons(states, steps);
    assert SessionRefs(Abandoned()) == {} && PinRefs(Abandoned()) == {};
    var s1 := Remove(Abandoned(), 1, {BLOB});
    states, steps := Then(states, steps, StepRemove(1, {BLOB}), s1);
    var s2 := Lock(s1, 0);
    states, steps := Then(states, steps, StepLock(0), s2);
    var s3 := Save(s2, 0, true);
    states, steps := Then(states, steps, StepSave(0, true), s3);
    assert KeyOf(SOURCE) in s3.snapshots && s3.snapshots[KeyOf(SOURCE)] == SOURCE;
    assert BLOB in Refs(SOURCE) && BLOB !in s3.blobs;
  }
}
