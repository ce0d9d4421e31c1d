/**
 What the tables of the source store mean over a run: which uploads are live,
 which source is current, and that a collector spares only blobs to which
 something referred while it ran.
 */
module SourceHistory {
  import opened Options
  import opened SourceStore
  import opened SourceRuns

  // ----- Live uploads -----

  /** The upload expires, is consumed, or is committed. */
  predicate Ends(s: State, step: Step, u: UploadId) {
    step == StepExpire(u) || step == StepConsume(u) ||
    (step.StepForget? && step.c in s.commits && s.commits[step.c].upload == u)
  }

  predicate Announces(step: Step, u: UploadId) { step.StepPlan? && step.u == u }

  lemma StepLive(s: State, step: Step, u: UploadId)
    requires Enabled(s, step)
    ensures Live(Apply(s, step), u) <==> (Live(s, u) && !Ends(s, step, u)) || Announces(step, u)
  {
    hide SessionRefs, PinRefs, SnapshotRefs, Refs, Check, Save, Release, Mark, Visit, Remove, CanRemove, Delete, Lock, Pin;
    match step
    case StepCheck(c, d) => CheckLive(s, c, d, u);
    case StepSave(c, ok) => SaveLive(s, c, ok, u);
    case StepRelease(x) => ReleaseFrame(s, x);
    case StepPrepare(v) => assert Prepare(s, v).sessions == s.sessions by { PinFrame(s, s.sessions[v].source); }
    case StepPin(x) => PinFrame(s, x);
    case StepLock(c) => assert Lock(s, c).sessions == s.sessions by { LockFrame(s, c); }
    case StepDelete(_) => OtherFrame(s, step);
    case StepMark(_) => OtherFrame(s, step);
    case StepVisit(_, _) => OtherFrame(s, step);
    case StepRemove(_, _) => OtherFrame(s, step);
    case _ =>
  }

  lemma PinFrame(s: State, x: Source)
    ensures Pin(s, x).sessions == s.sessions
  {
  }

  lemma LockFrame(s: State, c: TaskId)
    requires CanLock(s, c)
    ensures Lock(s, c).sessions == s.sessions
  {
  }

  lemma OtherFrame(s: State, step: Step)
    requires Enabled(s, step) && (step.StepDelete? || step.StepMark? || step.StepVisit? || step.StepRemove?)
    ensures Apply(s, step).sessions == s.sessions
  {
    hide SessionRefs, PinRefs, SnapshotRefs;
  }

  lemma CheckLive(s: State, c: TaskId, d: Digest, u: UploadId)
    requires CanCheck(s, c, d)
    ensures Live(Check(s, c, d), u) <==> Live(s, u)
  {
    var v := s.commits[c].upload;
    if Ref(s.issued[v].owner, d) in s.blobs {
    } else if v in s.sessions {
    } else {
    }
  }

  lemma SaveLive(s: State, c: TaskId, ok: bool, u: UploadId)
    requires CanSave(s, c)
    ensures Live(Save(s, c, ok), u) <==> Live(s, u)
  {
    if ok {
    } else if s.commits[c].upload in s.sessions {
    } else {
    }
  }

  lemma ReleaseFrame(s: State, x: Source)
    ensures var s' := Release(s, x);
      s'.sessions == s.sessions && s'.issued == s.issued && s'.snapshots == s.snapshots && s'.collectors == s.collectors
  {
    if x !in s.pins {
    } else if s.pins[x] <= 1 {
    } else {
    }
  }

  /** An upload is live from its announcement until it expires, is consumed, or its commit is done. */
  ghost predicate LiveSince(states: seq<State>, steps: seq<Step>, k: nat, u: UploadId, i: nat)
    requires k <= |steps| && |states| == |steps| + 1
  {
    i < k && Announces(steps[i], u) && forall j :: i < j < k ==> !Ends(states[j], steps[j], u)
  }

  lemma {:induction false} LiveExactly(states: seq<State>, steps: seq<Step>, k: nat, u: UploadId)
    requires IsRun(states, steps) && k < |states|
    ensures Live(states[k], u) <==> exists i :: LiveSince(states, steps, k, u, i)
    decreases k
  {
    hide Apply, Enabled;
    if k > 0 {
      var n := k - 1;
      LiveExactly(states, steps, n, u);
      if exists i: nat :: LiveSince(states, steps, k, u, i) && i < n {
        var i: nat :| LiveSince(states, steps, k, u, i) && i < n;
        assert LiveSince(states, steps, n, u, i);
      }
      StepLive(states[n], steps[n], u);
      if Announces(steps[n], u) {
        assert LiveSince(states, steps, k, u, n);
      } else if Live(states[k], u) {
        var i :| LiveSince(states, steps, n, u, i);
        assert LiveSince(states, steps, k, u, i);
      }
    }
  }

  // ----- Current snapshots -----

  /** The source that the step makes current for the project. */
  function SavedAt(s: State, step: Step, key: Key): Option<Source> {
    if step.StepSave? && step.ok && CanSave(s, step.c) then
      var x := s.issued[s.commits[step.c].upload];
      if x.owner == key.owner && x.project == key.project then Some(x) else None
    else None
  }

  predicate Forgets(step: Step, key: Key) {
    step == StepDelete(key) || (step.StepVisit? && key in step.lapsed)
  }

  function CurrentAt(s: State, key: Key): Option<Source> { if key in s.snapshots then Some(s.snapshots[key]) else None }

  lemma StepCurrent(s: State, step: Step, key: Key)
    requires Enabled(s, step)
    ensures CurrentAt(Apply(s, step), key) ==
      if SavedAt(s, step, key).Some? then SavedAt(s, step, key) else if Forgets(step, key) then None else CurrentAt(s, key)
  {
    hide SessionRefs, PinRefs, SnapshotRefs, Check, Save, Release;
    match step
    case StepCheck(c, d) => CheckSnapshots(s, c, d);
    case StepSave(c, ok) => SaveSnapshots(s, c, ok, key);
    case StepRelease(x) => ReleaseFrame(s, x);
    case _ =>
  }

  lemma CheckSnapshots(s: State, c: TaskId, d: Digest)
    requires CanCheck(s, c, d)
    ensures Check(s, c, d).snapshots == s.snapshots
  {
    var v := s.commits[c].upload;
    if Ref(s.issued[v].owner, d) in s.blobs {
    } else if v in s.sessions {
    } else {
    }
  }

  lemma SaveSnapshots(s: State, c: TaskId, ok: bool, key: Key)
    requires CanSave(s, c)
    ensures var saved := SavedAt(s, StepSave(c, ok), key);
      CurrentAt(Save(s, c, ok), key) == if saved.Some? then saved else CurrentAt(s, key)
  {
    if ok {
    } else if s.commits[c].upload in s.sessions {
    } else {
    }
  }

  /** What was saved for the project last, unless it was forgotten since. */
  ghost function LastSaved(states: seq<State>, steps: seq<Step>, k: nat, key: Key): Option<Source>
    requires k <= |steps| && |states| == |steps| + 1
  {
    if k == 0 then None
    else if SavedAt(states[k - 1], steps[k - 1], key).Some? then SavedAt(states[k - 1], steps[k - 1], key)
    else if Forgets(steps[k - 1], key) then None
    else LastSaved(states, steps, k - 1, key)
  }

  lemma {:induction false} CurrentMeans(states: seq<State>, steps: seq<Step>, k: nat, key: Key)
    requires IsRun(states, steps) && k < |states|
    ensures CurrentAt(states[k], key) == LastSaved(states, steps, k, key)
    ensures LastSaved(states, steps, k, key).Some? ==>
      exists i, u :: 0 <= i < k && steps[i] == StepPlan(u, LastSaved(states, steps, k, key).value)
    decreases k
  {
    hide Apply, Enabled, SavedAt, Forgets, CurrentAt;
    if k == 0 {
      assert CurrentAt(states[0], key) == None by { NothingCurrent(key); }
    } else {
      CurrentMeans(states, steps, k - 1, key);
      StepCurrent(states[k - 1], steps[k - 1], key);
      if SavedAt(states[k - 1], steps[k - 1], key).Some? {
        var u := SavedIssued(states[k - 1], steps[k - 1], key);
        IssuedPlanned(states, steps, k - 1, u);
      }
    }
  }

  lemma NothingCurrent(key: Key)
    ensures CurrentAt(Empty(), key) == None
  {
  }

  lemma SavedIssued(s: State, step: Step, key: Key) returns (u: UploadId)
    requires SavedAt(s, step, key).Some?
    ensures u in s.issued && s.issued[u] == SavedAt(s, step, key).value
  {
    u := s.commits[step.c].upload;
  }

  lemma {:induction false} IssuedPlanned(states: seq<State>, steps: seq<Step>, k: nat, u: UploadId)
    requires IsRun(states, steps) && k < |states| && u in states[k].issued
    ensures exists i :: 0 <= i < k && steps[i] == StepPlan(u, states[k].issued[u])
    decreases k
  {
    hide Apply, Enabled;
    assert k > 0;
    StepIssued(states[k - 1], steps[k - 1], u);
    if !Announces(steps[k - 1], u) {
      IssuedPlanned(states, steps, k - 1, u);
    }
  }

  lemma StepIssued(s: State, step: Step, u: UploadId)
    requires Enabled(s, step)
    ensures if Announces(step, u) then u in Apply(s, step).issued && Apply(s, step).issued[u] == step.x
      else (u in Apply(s, step).issued <==> u in s.issued) && (u in s.issued ==> Apply(s, step).issued[u] == s.issued[u])
  {
    hide SessionRefs, PinRefs, SnapshotRefs, Check, Save, Release;
    match step
    case StepCheck(c, d) => CheckFrame(s, c, d);
    case StepSave(c, ok) => SaveFrame(s, c, ok);
    case StepRelease(x) => ReleaseFrame(s, x);
    case _ =>
  }

  // ----- Collectors -----

  ghost function RefsOf(s: State, g: TaskId): set<Ref> { if g in s.collectors then s.collectors[g].refs else {} }

  /** What a collector gathers in one step is referred to at that time. */
  lemma StepMarks(s: State, step: Step, g: TaskId, r: Ref)
    requires Enabled(s, step) && r in RefsOf(Apply(s, step), g)
    ensures Referenced(s, r) || (r in RefsOf(s, g) && g in s.collectors)
    ensures step != StepMark(g) ==> g in s.collectors
    ensures step == StepMark(g) ==> Referenced(s, r)
  {
    hide Referenced, SessionRefs, PinRefs, SnapshotRefs, Check, Save, Release, Refs;
    match step
    case StepMark(g') =>
      if g' == g {
        MarkedNow(s, r);
      }
    case StepVisit(g', lapsed) =>
      if r in SnapshotRefs(s.(snapshots := s.snapshots - lapsed)) {
        VisitedNow(s, lapsed, r);
      }
    case StepCheck(c, d) => CheckCollectors(s, c, d);
    case StepSave(c, ok) => SaveCollectors(s, c, ok);
    case StepRelease(x) => ReleaseFrame(s, x);
    case _ =>
  }

  lemma MarkedNow(s: State, r: Ref)
    requires r in SessionRefs(s) + PinRefs(s)
    ensures Referenced(s, r)
  {
    if r in SessionRefs(s) {
      var u :| u in s.sessions && !s.sessions[u].expired && r in Refs(s.sessions[u].source);
      assert Live(s, u);
    }
  }

  lemma VisitedNow(s: State, lapsed: set<Key>, r: Ref)
    requires r in SnapshotRefs(s.(snapshots := s.snapshots - lapsed))
    ensures Referenced(s, r)
  {
    var left := s.snapshots - lapsed;
    var k :| k in left && r in Refs(left[k]);
    assert k in s.snapshots;
  }

  lemma CheckCollectors(s: State, c: TaskId, d: Digest)
    requires CanCheck(s, c, d)
    ensures Check(s, c, d).collectors == s.collectors
  {
    var v := s.commits[c].upload;
    if Ref(s.issued[v].owner, d) in s.blobs {
    } else if v in s.sessions {
    } else {
    }
  }

  lemma SaveCollectors(s: State, c: TaskId, ok: bool)
    requires CanSave(s, c)
    ensures Save(s, c, ok).collectors == s.collectors
  {
    if ok {
    } else if s.commits[c].upload in s.sessions {
    } else {
    }
  }

  /** Nothing has referred to the blob since the collection began. */
  ghost predicate Garbage(states: seq<State>, steps: seq<Step>, i: nat, k: nat, g: TaskId, r: Ref)
    requires k <= |steps| && |states| == |steps| + 1
  {
    i < k && steps[i] == StepMark(g) && (forall j :: i < j < k ==> g in states[j].collectors) &&
    forall j :: i <= j <= k ==> !Referenced(states[j], r)
  }

  lemma {:induction false} GarbageUnmarked(states: seq<State>, steps: seq<Step>, i: nat, k: nat, g: TaskId, r: Ref)
    requires IsRun(states, steps) && k < |states| && Garbage(states, steps, i, k, g, r)
    ensures r !in RefsOf(states[k], g)
    decreases k
  {
    hide Apply, Enabled, RefsOf, Referenced;
    if r in RefsOf(states[k], g) {
      StepMarks(states[k - 1], steps[k - 1], g, r);
      if k - 1 > i {
        GarbageUnmarked(states, steps, i, k - 1, g, r);
      }
    }
  }

  /** A blob to which nothing has referred since the collection began can be removed by it. */
  lemma GarbageRemovable(states: seq<State>, steps: seq<Step>, i: nat, k: nat, g: TaskId, r: Ref)
    requires IsRun(states, steps) && k < |states| && Garbage(states, steps, i, k, g, r)
    requires g in states[k].collectors && states[k].collectors[g].Locked?
    ensures CanRemove(states[k], g, {r}) && r !in Remove(states[k], g, {r}).blobs
  {
    GarbageUnmarked(states, steps, i, k, g, r);
    ReachableInv(states, steps, k);
    var s := states[k];
    hide Apply, Enabled, IsRun, Inv;
    if r in SessionRefs(s) + PinRefs(s) {
      MarkedNow(s, r);
    }
    assert s.holder == Collecting(g) by { HolderOf(s, g); }
  }

  lemma HolderOf(s: State, g: TaskId)
    requires Inv(s) && g in s.collectors && s.collectors[g].Locked?
    ensures s.holder == Collecting(g)
  {
  }
}
