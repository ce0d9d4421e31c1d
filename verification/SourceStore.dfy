/**
 The content-addressed source store: upload sessions, current snapshots, pins
 and blobs, with a garbage collector that gathers its references in three lock
 phases.  One step is one critical section.
 */
module SourceStore {

  type Owner = nat
  type Digest = nat
  type UploadId = nat
  type TaskId = nat

  datatype Ref = Ref(owner: Owner, digest: Digest)

  /** A manifest.  Its identifier is derived from its content, so the manifest stands for it. */
  datatype Source = Source(owner: Owner, project: nat, digests: set<Digest>)

  datatype Upload = Upload(source: Source, expired: bool, committing: bool)

  datatype Key = Key(owner: Owner, project: nat)

  /** Prune and CollectUnreferencedBlobs, between their phases. */
  datatype Collector = Marked(refs: set<Ref>) | Locked(refs: set<Ref>)

  /** Commit, between its critical sections. */
  datatype Commit = Checking(upload: UploadId, left: set<Digest>) | Saving(upload: UploadId) | Forgetting(upload: UploadId)

  /** Who holds the snapshot lock. */
  datatype Holder = Nobody | Collecting(collector: TaskId) | Committing(commit: TaskId)

  datatype State = State(
    sessions: map<UploadId, Upload>,
    issued: map<UploadId, Source>,       // history: what every upload announced
    snapshots: map<Key, Source>,
    pins: map<Source, nat>,
    prepared: set<Source>,               // history: pinned through PrepareUpload and not released since
    blobs: set<Ref>,
    collectors: map<TaskId, Collector>,
    commits: map<TaskId, Commit>,
    holder: Holder)

  function Refs(x: Source): set<Ref> { set d | d in x.digests :: Ref(x.owner, d) }
  predicate Complete(s: State, x: Source) { Refs(x) <= s.blobs }
  function KeyOf(x: Source): Key { Key(x.owner, x.project) }

  predicate Live(s: State, u: UploadId) { u in s.sessions && !s.sessions[u].expired }

  /** A blob is referenced by a live upload, a pin or a current snapshot. */
  ghost predicate Referenced(s: State, r: Ref) {
    || (exists u :: Live(s, u) && r in Refs(s.sessions[u].source))
    || (exists x :: x in s.pins && r in Refs(x))
    || (exists k :: k in s.snapshots && r in Refs(s.snapshots[k]))
  }

  // ----- Uploads -----

  predicate CanPlan(s: State, u: UploadId) { u !in s.issued }
  function Plan(s: State, u: UploadId, x: Source): State {
    s.(sessions := s.sessions[u := Upload(x, false, false)], issued := s.issued[u := x])
  }

  /** A lease runs out, but not under a commit that has passed its check. */
  predicate CanExpire(s: State, u: UploadId) { u in s.sessions && !s.sessions[u].committing }
  function Expire(s: State, u: UploadId): State
    requires CanExpire(s, u)
  { s.(sessions := s.sessions[u := s.sessions[u].(expired := true)]) }

  predicate CanDrop(s: State, u: UploadId) { u in s.sessions && s.sessions[u].expired }
  function Drop(s: State, u: UploadId): State { s.(sessions := s.sessions - {u}) }

  function PutBlob(s: State, r: Ref): State { s.(blobs := s.blobs + {r}) }

  /** PrepareUpload: the pin is taken while the upload still protects its blobs. */
  predicate CanPrepare(s: State, u: UploadId) {
    Live(s, u) && !s.sessions[u].committing && Complete(s, s.sessions[u].source)
  }
  function Prepare(s: State, u: UploadId): State
    requires CanPrepare(s, u)
  { Pin(s, s.sessions[u].source).(prepared := s.prepared + {s.sessions[u].source}) }

  function Consume(s: State, u: UploadId): State { s.(sessions := s.sessions - {u}) }

  // ----- Pins -----

  function PinCount(s: State, x: Source): nat { if x in s.pins then s.pins[x] else 0 }

  function Pin(s: State, x: Source): State { s.(pins := s.pins[x := PinCount(s, x) + 1]) }

  function Release(s: State, x: Source): State {
    if x !in s.pins then s
    else if s.pins[x] <= 1 then s.(pins := s.pins - {x}, prepared := s.prepared - {x})
    else s.(pins := s.pins[x := s.pins[x] - 1])
  }

  // ----- Commit -----

  predicate CanBegin(s: State, c: TaskId, u: UploadId) { c !in s.commits && Live(s, u) && !s.sessions[u].committing }
  function Begin(s: State, c: TaskId, u: UploadId): State
    requires CanBegin(s, c, u)
  {
    s.(sessions := s.sessions[u := s.sessions[u].(committing := true)],
       commits := s.commits[c := Checking(u, s.sessions[u].source.digests)])
  }

  /** One digest is looked up, outside every lock. */
  predicate CanCheck(s: State, c: TaskId, d: Digest) {
    c in s.commits && s.commits[c].Checking? && d in s.commits[c].left && s.commits[c].upload in s.issued
  }
  function Check(s: State, c: TaskId, d: Digest): State
    requires CanCheck(s, c, d)
  {
    var u := s.commits[c].upload;
    if Ref(s.issued[u].owner, d) in s.blobs then s.(commits := s.commits[c := Checking(u, s.commits[c].left - {d})])
    else if u in s.sessions then
      s.(commits := s.commits - {c}, sessions := s.sessions[u := s.sessions[u].(committing := false)])
    else s.(commits := s.commits - {c})
  }

  predicate CanLock(s: State, c: TaskId) {
    c in s.commits && s.commits[c].Checking? && s.commits[c].left == {} && s.holder.Nobody?
  }
  function Lock(s: State, c: TaskId): State
    requires CanLock(s, c)
  { s.(holder := Committing(c), commits := s.commits[c := Saving(s.commits[c].upload)]) }

  predicate CanSave(s: State, c: TaskId) { c in s.commits && s.commits[c].Saving? && s.commits[c].upload in s.issued }
  /** The manifest becomes the project's current snapshot, or the store refuses it. */
  function Save(s: State, c: TaskId, ok: bool): State
    requires CanSave(s, c)
  {
    var u := s.commits[c].upload;
    var x := s.issued[u];
    if ok then s.(snapshots := s.snapshots[KeyOf(x) := x], commits := s.commits[c := Forgetting(u)])
    else if u in s.sessions then
      s.(commits := s.commits - {c}, sessions := s.sessions[u := s.sessions[u].(committing := false)], holder := Nobody)
    else s.(commits := s.commits - {c}, holder := Nobody)
  }

  predicate CanForget(s: State, c: TaskId) { c in s.commits && s.commits[c].Forgetting? }
  function Forget(s: State, c: TaskId): State
    requires CanForget(s, c)
  { s.(sessions := s.sessions - {s.commits[c].upload}, commits := s.commits - {c}, holder := Nobody) }

  predicate CanDelete(s: State) { s.holder.Nobody? }
  function Delete(s: State, k: Key): State { s.(snapshots := s.snapshots - {k}) }

  // ----- Garbage collection -----

  ghost function SessionRefs(s: State): set<Ref> {
    set u, r | u in s.sessions && !s.sessions[u].expired && r in Refs(s.sessions[u].source) :: r
  }
  ghost function PinRefs(s: State): set<Ref> { set x, r | x in s.pins && r in Refs(x) :: r }
  ghost function SnapshotRefs(s: State): set<Ref> { set k, r | k in s.snapshots && r in Refs(s.snapshots[k]) :: r }

  predicate CanMark(s: State, g: TaskId) { g !in s.collectors }
  /** The first phase, under the storage lock. */
  ghost function Mark(s: State, g: TaskId): State {
    s.(collectors := s.collectors[g := Marked(SessionRefs(s) + PinRefs(s))])
  }

  predicate CanVisit(s: State, g: TaskId, lapsed: set<Key>) {
    g in s.collectors && s.collectors[g].Marked? && s.holder.Nobody?
  }
  /** The second phase takes the snapshot lock, forgets snapshots past retention and marks the others. */
  ghost function Visit(s: State, g: TaskId, lapsed: set<Key>): State
    requires CanVisit(s, g, lapsed)
  {
    var s1 := s.(snapshots := s.snapshots - lapsed);
    s1.(holder := Collecting(g), collectors := s.collectors[g := Locked(s.collectors[g].refs + SnapshotRefs(s1))])
  }

  /** The third phase marks sessions and pins again and removes blobs that nothing marked. */
  ghost predicate CanRemove(s: State, g: TaskId, removed: set<Ref>) {
    g in s.collectors && s.collectors[g].Locked? && s.holder == Collecting(g) &&
    removed !! s.collectors[g].refs + SessionRefs(s) + PinRefs(s)
  }
  function Remove(s: State, g: TaskId, removed: set<Ref>): State {
    s.(blobs := s.blobs - removed, collectors := s.collectors - {g}, holder := Nobody)
  }

  // ----- The protocol -----

  datatype Step =
    | StepPlan(u: UploadId, x: Source)
    | StepExpire(u: UploadId)
    | StepDrop(u: UploadId)
    | StepPut(r: Ref)
    | StepPrepare(u: UploadId)
    | StepConsume(u: UploadId)
    | StepPin(x: Source)
    | StepRelease(x: Source)
    | StepBegin(c: TaskId, u: UploadId)
    | StepCheck(c: TaskId, d: Digest)
    | StepLock(c: TaskId)
    | StepSave(c: TaskId, ok: bool)
    | StepForget(c: TaskId)
    | StepDelete(k: Key)
    | StepMark(g: TaskId)
    | StepVisit(g: TaskId, lapsed: set<Key>)
    | StepRemove(g: TaskId, removed: set<Ref>)

  ghost predicate Enabled(s: State, step: Step) {
    match step
    case StepPlan(u, x) => CanPlan(s, u)
    case StepExpire(u) => CanExpire(s, u)
    case StepDrop(u) => CanDrop(s, u)
    case StepPut(r) => true
    case StepPrepare(u) => CanPrepare(s, u)
    case StepConsume(u) => true
    case StepPin(x) => true
    case StepRelease(x) => true
    case StepBegin(c, u) => CanBegin(s, c, u)
    case StepCheck(c, d) => CanCheck(s, c, d)
    case StepLock(c) => CanLock(s, c)
    case StepSave(c, ok) => CanSave(s, c)
    case StepForget(c) => CanForget(s, c)
    case StepDelete(k) => CanDelete(s)
    case StepMark(g) => CanMark(s, g)
    case StepVisit(g, lapsed) => CanVisit(s, g, lapsed)
    case StepRemove(g, removed) => CanRemove(s, g, removed)
  }

  ghost function Apply(s: State, step: Step): State
    requires Enabled(s, step)
  {
    match step
    case StepPlan(u, x) => Plan(s, u, x)
    case StepExpire(u) => Expire(s, u)
    case StepDrop(u) => Drop(s, u)
    case StepPut(r) => PutBlob(s, r)
    case StepPrepare(u) => Prepare(s, u)
    case StepConsume(u) => Consume(s, u)
    case StepPin(x) => Pin(s, x)
    case StepRelease(x) => Release(s, x)
    case StepBegin(c, u) => Begin(s, c, u)
    case StepCheck(c, d) => Check(s, c, d)
    case StepLock(c) => Lock(s, c)
    case StepSave(c, ok) => Save(s, c, ok)
    case StepForget(c) => Forget(s, c)
    case StepDelete(k) => Delete(s, k)
    case StepMark(g) => Mark(s, g)
    case StepVisit(g, lapsed) => Visit(s, g, lapsed)
    case StepRemove(g, removed) => Remove(s, g, removed)
  }

  // ----- What every step keeps -----

  ghost predicate LocksOk(s: State) {
    && (forall g :: g in s.collectors ==> (s.collectors[g].Locked? <==> s.holder == Collecting(g)))
    && (forall c :: c in s.commits ==> (!s.commits[c].Checking? <==> s.holder == Committing(c)))
    && (s.holder.Collecting? ==> s.holder.collector in s.collectors)
    && (s.holder.Committing? ==> s.holder.commit in s.commits)
  }

  /** A collector that holds the snapshot lock has marked every current snapshot. */
  ghost predicate MarksOk(s: State) {
    forall g, k :: g in s.collectors && s.collectors[g].Locked? && k in s.snapshots ==>
      Refs(s.snapshots[k]) <= s.collectors[g].refs
  }

  ghost predicate UploadsOk(s: State) {
    && (forall u :: u in s.sessions ==> u in s.issued && s.sessions[u].source == s.issued[u])
    && (forall c :: c in s.commits ==> s.commits[c].upload in s.issued)
  }

  /** Sources pinned through PrepareUpload are complete until their last release. */
  ghost predicate PreparedOk(s: State) {
    forall x :: x in s.prepared ==> x in s.pins && Complete(s, x)
  }

  /** An upload is committed by one task at a time, and marked while it is. */
  ghost predicate TasksOk(s: State) {
    && (forall c :: c in s.commits && s.commits[c].upload in s.sessions ==> s.sessions[s.commits[c].upload].committing)
    && (forall c, c' :: c in s.commits && c' in s.commits && s.commits[c].upload == s.commits[c'].upload ==> c == c')
  }

  ghost predicate Inv(s: State) { LocksOk(s) && MarksOk(s) && UploadsOk(s) && TasksOk(s) && PreparedOk(s) }

  /** The commits in progress still have their upload, and what they have checked is still there. */
  ghost predicate CommitsOk(s: State) {
    forall c :: c in s.commits && !s.commits[c].Forgetting? ==>
      var u := s.commits[c].upload;
      Live(s, u) && s.sessions[u].committing &&
      forall d :: d in s.sessions[u].source.digests && (s.commits[c].Checking? ==> d !in s.commits[c].left) ==>
        Ref(s.sessions[u].source.owner, d) in s.blobs
  }

  ghost predicate CurrentOk(s: State) { forall k :: k in s.snapshots ==> Complete(s, s.snapshots[k]) }

  /** The upload is under a commit that has not saved its snapshot yet. */
  predicate UnderCommit(s: State, u: UploadId) {
    exists c :: c in s.commits && s.commits[c].upload == u && !s.commits[c].Forgetting?
  }

  /** An upload is consumed while a commit of it is in progress. */
  predicate Robs(s: State, step: Step) { step.StepConsume? && UnderCommit(s, step.u) }

  /** The collector never removes a blob that a live upload, a pin or a current snapshot refers to. */
  lemma RemovalSafe(s: State, g: TaskId, removed: set<Ref>, r: Ref)
    requires Inv(s) && CanRemove(s, g, removed) && r in removed
    ensures !Referenced(s, r)
  {
    forall u | Live(s, u) ensures r !in Refs(s.sessions[u].source) {
      assert r in Refs(s.sessions[u].source) ==> r in SessionRefs(s);
    }
    forall x | x in s.pins ensures r !in Refs(x) {
      assert r in Refs(x) ==> r in PinRefs(s);
    }
  }

  lemma RemovalKeepsComplete(s: State, g: TaskId, removed: set<Ref>, x: Source)
    requires Inv(s) && CanRemove(s, g, removed) && Complete(s, x)
    requires forall r :: r in Refs(x) ==> Referenced(s, r)
    ensures Complete(Remove(s, g, removed), x)
  {
    forall r | r in Refs(x) ensures r !in removed {
      if r in removed { RemovalSafe(s, g, removed, r); }
    }
  }

  // ----- Uploads and pins -----

  lemma PlanKeeps(s: State, u: UploadId, x: Source)
    requires Inv(s) && CanPlan(s, u)
    ensures Inv(Plan(s, u, x)) && (CommitsOk(s) ==> CommitsOk(Plan(s, u, x)))
  {
  }

  lemma ExpireKeeps(s: State, u: UploadId)
    requires Inv(s) && CanExpire(s, u)
    ensures Inv(Expire(s, u)) && (CommitsOk(s) ==> CommitsOk(Expire(s, u)))
  {
  }

  lemma DropKeeps(s: State, u: UploadId)
    requires Inv(s) && CanDrop(s, u)
    ensures Inv(Drop(s, u)) && (CommitsOk(s) ==> CommitsOk(Drop(s, u)))
  {
  }

  lemma ConsumeKeeps(s: State, u: UploadId)
    requires Inv(s)
    ensures Inv(Consume(s, u))
    ensures CommitsOk(s) && !UnderCommit(s, u) ==> CommitsOk(Consume(s, u))
  {
  }

  lemma PutKeeps(s: State, r: Ref)
    requires Inv(s)
    ensures Inv(PutBlob(s, r)) && (CommitsOk(s) ==> CommitsOk(PutBlob(s, r)))
    ensures CurrentOk(s) ==> CurrentOk(PutBlob(s, r))
  {
  }

  lemma PrepareKeeps(s: State, u: UploadId)
    requires Inv(s) && CanPrepare(s, u)
    ensures Inv(Prepare(s, u))
  {
  }

  lemma ReleaseKeeps(s: State, x: Source)
    requires Inv(s)
    ensures Inv(Release(s, x)) && Release(s, x) == s.(pins := Release(s, x).pins, prepared := Release(s, x).prepared)
  {
    if x !in s.pins {
    } else if s.pins[x] <= 1 {
    } else {
    }
  }

  // ----- Commits -----

  /** Collectors, snapshots, pins and blobs are untouched. */
  lemma RestKept(s: State, s': State)
    requires MarksOk(s) && PreparedOk(s)
    requires s'.collectors == s.collectors && s'.snapshots == s.snapshots && s'.pins == s.pins
    requires s'.prepared == s.prepared && s'.blobs == s.blobs
    ensures MarksOk(s') && PreparedOk(s')
  {
  }

  lemma BeginKeeps(s: State, c: TaskId, u: UploadId)
    requires Inv(s) && CanBegin(s, c, u)
    ensures Inv(Begin(s, c, u))
  {
    hide MarksOk, PreparedOk;
    var s' := Begin(s, c, u);
    RestKept(s, s');
    assert forall c' :: c' in s.commits ==> s.commits[c'].upload != u;
  }

  lemma BeginCommits(s: State, c: TaskId, u: UploadId)
    requires Inv(s) && CanBegin(s, c, u) && CommitsOk(s)
    ensures CommitsOk(Begin(s, c, u))
  {
    hide LocksOk, MarksOk, PreparedOk;
    assert forall c' :: c' in s.commits ==> s.commits[c'].upload != u;
  }

  lemma CommitMoves(s: State, c: TaskId, next: Commit)
    requires Inv(s) && c in s.commits && next.upload == s.commits[c].upload && s.commits[c].Checking? && next.Checking?
    ensures Inv(s.(commits := s.commits[c := next]))
  {
    hide MarksOk, PreparedOk;
    RestKept(s, s.(commits := s.commits[c := next]));
  }

  lemma CommitEnds(s: State, c: TaskId)
    requires Inv(s) && c in s.commits && s.commits[c].Checking?
    ensures Inv(s.(commits := s.commits - {c}))
  {
    hide MarksOk, PreparedOk;
    RestKept(s, s.(commits := s.commits - {c}));
  }

  /** The upload of a commit that has ended may be used again. */
  lemma UploadFreed(s: State, u: UploadId)
    requires Inv(s) && u in s.sessions && forall c :: c in s.commits ==> s.commits[c].upload != u
    ensures Inv(s.(sessions := s.sessions[u := s.sessions[u].(committing := false)]))
  {
    hide MarksOk, PreparedOk;
    RestKept(s, s.(sessions := s.sessions[u := s.sessions[u].(committing := false)]));
  }

  lemma CheckKeeps(s: State, c: TaskId, d: Digest)
    requires Inv(s) && CanCheck(s, c, d)
    ensures Inv(Check(s, c, d))
  {
    var u := s.commits[c].upload;
    assert forall c' :: c' in s.commits && c' != c ==> s.commits[c'].upload != u;
    hide Inv;
    if Ref(s.issued[u].owner, d) in s.blobs {
      CommitMoves(s, c, Checking(u, s.commits[c].left - {d}));
    } else if u in s.sessions {
      CommitEnds(s, c);
      UploadFreed(s.(commits := s.commits - {c}), u);
    } else {
      CommitEnds(s, c);
    }
  }

  lemma CheckCommits(s: State, c: TaskId, d: Digest)
    requires Inv(s) && CanCheck(s, c, d) && CommitsOk(s)
    ensures CommitsOk(Check(s, c, d))
  {
    hide LocksOk, MarksOk, PreparedOk;
    var u := s.commits[c].upload;
    if Ref(s.issued[u].owner, d) in s.blobs {
    } else {
      assert forall c' :: c' in s.commits && c' != c ==> s.commits[c'].upload != u;
    }
  }

  lemma LockKeeps(s: State, c: TaskId)
    requires Inv(s) && CanLock(s, c)
    ensures Inv(Lock(s, c)) && (CommitsOk(s) ==> CommitsOk(Lock(s, c)))
  {
  }

  /** A commit that holds the snapshot lock gives both up. */
  lemma SaveEnds(s: State, c: TaskId)
    requires Inv(s) && c in s.commits && !s.commits[c].Checking?
    ensures Inv(s.(commits := s.commits - {c}, holder := Nobody))
  {
    hide MarksOk, PreparedOk;
    RestKept(s, s.(commits := s.commits - {c}, holder := Nobody));
  }

  lemma SaveKeeps(s: State, c: TaskId, ok: bool)
    requires Inv(s) && CanSave(s, c)
    ensures Inv(Save(s, c, ok))
  {
    var u := s.commits[c].upload;
    assert s.holder == Committing(c);
    assert forall c' :: c' in s.commits && c' != c ==> s.commits[c'].upload != u;
    if ok {
      SavedTasks(s, c);
      hide UploadsOk, TasksOk, PreparedOk;
    } else if u in s.sessions {
      hide Inv;
      SaveEnds(s, c);
      UploadFreed(s.(commits := s.commits - {c}, holder := Nobody), u);
    } else {
      hide Inv;
      SaveEnds(s, c);
    }
  }

  lemma SavedTasks(s: State, c: TaskId)
    requires UploadsOk(s) && TasksOk(s) && PreparedOk(s) && CanSave(s, c)
    ensures UploadsOk(Save(s, c, true)) && TasksOk(Save(s, c, true)) && PreparedOk(Save(s, c, true))
  {
  }

  lemma SaveCommits(s: State, c: TaskId, ok: bool)
    requires Inv(s) && CanSave(s, c) && CommitsOk(s) && CurrentOk(s)
    ensures CommitsOk(Save(s, c, ok)) && CurrentOk(Save(s, c, ok))
  {
    hide LocksOk, MarksOk, PreparedOk;
    var u := s.commits[c].upload;
    assert Complete(s, s.issued[u]);
    assert forall c' :: c' in s.commits && c' != c ==> s.commits[c'].upload != u;
    if ok {
    } else {
    }
  }

  lemma ForgetKeeps(s: State, c: TaskId)
    requires Inv(s) && CanForget(s, c)
    ensures Inv(Forget(s, c)) && (CommitsOk(s) ==> CommitsOk(Forget(s, c)))
  {
  }

  // ----- Garbage collection -----

  lemma MarkKeeps(s: State, g: TaskId)
    requires Inv(s) && CanMark(s, g)
    ensures Inv(Mark(s, g))
  {
    hide SessionRefs, PinRefs;
    assert !(s.holder.Collecting? && s.holder.collector == g);
  }

  lemma VisitKeeps(s: State, g: TaskId, lapsed: set<Key>)
    requires Inv(s) && CanVisit(s, g, lapsed)
    ensures Inv(Visit(s, g, lapsed)) && (CommitsOk(s) ==> CommitsOk(Visit(s, g, lapsed)))
  {
    var s' := Visit(s, g, lapsed);
    forall k | k in s'.snapshots ensures Refs(s'.snapshots[k]) <= s'.collectors[g].refs {
      assert forall r :: r in Refs(s'.snapshots[k]) ==> r in SnapshotRefs(s.(snapshots := s.snapshots - lapsed));
    }
    hide SnapshotRefs;
  }

  lemma RemoveKeeps(s: State, g: TaskId, removed: set<Ref>)
    requires Inv(s) && CanRemove(s, g, removed)
    ensures Inv(Remove(s, g, removed))
    ensures CommitsOk(s) ==> CommitsOk(Remove(s, g, removed))
    ensures CurrentOk(s) ==> CurrentOk(Remove(s, g, removed))
  {
    var s' := Remove(s, g, removed);
    forall x | x in s.prepared ensures Complete(s', x) {
      RemovalKeepsComplete(s, g, removed, x);
    }
    if CommitsOk(s) {
      forall c, d | c in s.commits && !s.commits[c].Forgetting? && d in s.sessions[s.commits[c].upload].source.digests
        ensures Ref(s.sessions[s.commits[c].upload].source.owner, d) !in removed
      {
        var u := s.commits[c].upload;
        var r := Ref(s.sessions[u].source.owner, d);
        assert Live(s, u) && r in Refs(s.sessions[u].source);
        if r in removed { RemovalSafe(s, g, removed, r); }
      }
    }
    if CurrentOk(s) {
      forall k | k in s.snapshots ensures Complete(s', s.snapshots[k]) {
        RemovalKeepsComplete(s, g, removed, s.snapshots[k]);
      }
    }
  }

  /** Every step keeps the invariant; prepared sources in particular stay complete until their last release. */
  lemma StepKeeps(s: State, step: Step)
    requires Inv(s) && Enabled(s, step)
    ensures Inv(Apply(s, step))
  {
    hide Inv, Plan, Expire, Drop, PutBlob, Prepare, Consume, Release, Begin, Check, Lock, Save, Forget, Mark, Visit, Remove;
    match step
    case StepPlan(u, x) => PlanKeeps(s, u, x);
    case StepExpire(u) => ExpireKeeps(s, u);
    case StepDrop(u) => DropKeeps(s, u);
    case StepPut(r) => PutKeeps(s, r);
    case StepPrepare(u) => PrepareKeeps(s, u);
    case StepConsume(u) => ConsumeKeeps(s, u);
    case StepPin(x) => PinKeeps(s, x);
    case StepRelease(x) => ReleaseKeeps(s, x);
    case StepBegin(c, u) => BeginKeeps(s, c, u);
    case StepCheck(c, d) => CheckKeeps(s, c, d);
    case StepLock(c) => LockKeeps(s, c);
    case StepSave(c, ok) => SaveKeeps(s, c, ok);
    case StepForget(c) => ForgetKeeps(s, c);
    case StepDelete(k) => DeleteKeeps(s, k);
    case StepMark(g) => MarkKeeps(s, g);
    case StepVisit(g, lapsed) => VisitKeeps(s, g, lapsed);
    case StepRemove(g, removed) => RemoveKeeps(s, g, removed);
  }

  lemma PinKeeps(s: State, x: Source)
    requires Inv(s)
    ensures Inv(Pin(s, x))
  {
  }

  lemma DeleteKeeps(s: State, k: Key)
    requires Inv(s) && CanDelete(s)
    ensures Inv(Delete(s, k))
  {
  }

  /**
   Commits in progress keep their upload and every digest they have checked,
   and current snapshots stay complete, exactly as long as nobody consumes an
   upload under a commit.
   */
  lemma CommitStep(s: State, step: Step)
    requires Inv(s) && CommitsOk(s) && CurrentOk(s) && Enabled(s, step)
    ensures CommitsOk(Apply(s, step)) <==> !Robs(s, step)
    ensures !Robs(s, step) ==> CurrentOk(Apply(s, step))
  {
    match step
    case StepConsume(u) => ConsumeRobs(s, u);
    case _ => CommitKeeps(s, step);
  }

  lemma ConsumeRobs(s: State, u: UploadId)
    requires Inv(s) && CommitsOk(s) && CurrentOk(s)
    ensures CommitsOk(Consume(s, u)) <==> !UnderCommit(s, u)
    ensures CurrentOk(Consume(s, u))
  {
    if UnderCommit(s, u) {
      var c :| c in s.commits && s.commits[c].upload == u && !s.commits[c].Forgetting?;
      assert !Live(Consume(s, u), u);
    } else {
      ConsumeKeeps(s, u);
    }
  }

  /** No snapshot appears and no blob goes. */
  lemma CurrentKept(s: State, s': State)
    requires CurrentOk(s) && s.blobs <= s'.blobs
    requires forall k :: k in s'.snapshots ==> k in s.snapshots && s'.snapshots[k] == s.snapshots[k]
    ensures CurrentOk(s')
  {
  }

  lemma CommitKeeps(s: State, step: Step)
    requires Inv(s) && CommitsOk(s) && CurrentOk(s) && Enabled(s, step) && !step.StepConsume?
    ensures CommitsOk(Apply(s, step)) && CurrentOk(Apply(s, step))
  {
    if step.StepCheck? || step.StepSave? || step.StepRemove? || step.StepRelease? {
      hide Inv, CommitsOk, CurrentOk, Check, Save, Remove, Release;
      match step
      case StepCheck(c, d) => CheckCommits(s, c, d); CheckCurrent(s, c, d);
      case StepSave(c, ok) => SaveCommits(s, c, ok);
      case StepRemove(g, removed) => RemoveKeeps(s, g, removed);
      case StepRelease(x) => ReleaseKeeps(s, x); SameCommits(s, Release(s, x)); CurrentKept(s, Release(s, x));
    } else {
      UploadSteps(s, step);
    }
  }

  lemma CheckCurrent(s: State, c: TaskId, d: Digest)
    requires CanCheck(s, c, d) && CurrentOk(s)
    ensures CurrentOk(Check(s, c, d))
  {
    var u := s.commits[c].upload;
    if Ref(s.issued[u].owner, d) in s.blobs {
    } else if u in s.sessions {
    } else {
    }
  }

  lemma SameCommits(s: State, s': State)
    requires CommitsOk(s) && s'.commits == s.commits && s'.sessions == s.sessions && s.blobs <= s'.blobs
    ensures CommitsOk(s')
  {
  }

  lemma UploadSteps(s: State, step: Step)
    requires Inv(s) && CommitsOk(s) && CurrentOk(s) && Enabled(s, step)
    requires !step.StepConsume? && !step.StepCheck? && !step.StepSave? && !step.StepRemove? && !step.StepRelease?
    ensures CommitsOk(Apply(s, step)) && CurrentOk(Apply(s, step))
  {
    hide Inv, CommitsOk, CurrentOk, SessionRefs, PinRefs, SnapshotRefs;
    CurrentKept(s, Apply(s, step));
    match step
    case StepPlan(u, x) => PlanKeeps(s, u, x);
    case StepExpire(u) => ExpireKeeps(s, u);
    case StepDrop(u) => DropKeeps(s, u);
    case StepPut(r) => PutKeeps(s, r);
    case StepPrepare(u) => SameCommits(s, Prepare(s, u));
    case StepPin(x) => SameCommits(s, Pin(s, x));
    case StepBegin(c, u) => BeginCommits(s, c, u);
    case StepLock(c) => LockKeeps(s, c);
    case StepForget(c) => ForgetKeeps(s, c);
    case StepDelete(k) => SameCommits(s, Delete(s, k));
    case StepMark(g) => SameCommits(s, Mark(s, g));
    case StepVisit(g, lapsed) => VisitKeeps(s, g, lapsed);
  }

  // ----- When a current snapshot is incomplete -----

  /** A commit makes a source current of which a blob is missing. */
  predicate SavesIncomplete(s: State, step: Step) {
    step.StepSave? && step.ok && CanSave(s, step.c) && !Complete(s, s.issued[s.commits[step.c].upload])
  }

  /** Current snapshots stay complete exactly through the steps that do not save an incomplete one. */
  lemma CurrentStep(s: State, step: Step)
    requires Inv(s) && CurrentOk(s) && Enabled(s, step)
    ensures CurrentOk(Apply(s, step)) <==> !SavesIncomplete(s, step)
  {
    hide Inv, CurrentOk, SessionRefs, PinRefs, SnapshotRefs, Check, Save, Remove, Release;
    match step
    case StepSave(c, ok) => SaveCurrent(s, c, ok);
    case StepCheck(c, d) => CheckCurrent(s, c, d);
    case StepRemove(g, removed) => RemoveKeeps(s, g, removed);
    case StepRelease(x) => ReleaseKeeps(s, x); CurrentKept(s, Release(s, x));
    case _ => CurrentKept(s, Apply(s, step));
  }

  lemma SaveCurrent(s: State, c: TaskId, ok: bool)
    requires CanSave(s, c) && CurrentOk(s)
    ensures CurrentOk(Save(s, c, ok)) <==> !(ok && !Complete(s, s.issued[s.commits[c].upload]))
  {
    var u := s.commits[c].upload;
    var x := s.issued[u];
    if ok {
      var s' := Save(s, c, ok);
      assert s'.snapshots[KeyOf(x)] == x;
      assert forall k :: k in s'.snapshots && k != KeyOf(x) ==> k in s.snapshots && s'.snapshots[k] == s.snapshots[k];
    } else if u in s.sessions {
    } else {
    }
  }

  /** The commit c of the upload u has not saved its snapshot yet. */
  predicate Underway(s: State, c: TaskId, u: UploadId) {
    c in s.commits && s.commits[c].upload == u && !s.commits[c].Forgetting? && u in s.issued
  }

  /** The commit has looked the digest up and found it. */
  predicate Found(s: State, c: TaskId, d: Digest) {
    c in s.commits && s.commits[c].upload in s.issued && d in s.issued[s.commits[c].upload].digests &&
    (s.commits[c].Checking? ==> d !in s.commits[c].left)
  }

  predicate Committal(step: Step) { step.StepBegin? || step.StepCheck? || step.StepLock? || step.StepSave? || step.StepForget? }

  /** What other steps leave alone. */
  lemma NotCommittal(s: State, step: Step)
    requires Inv(s) && Enabled(s, step) && !Committal(step)
    ensures var s' := Apply(s, step);
      s'.commits == s.commits && (forall u :: u in s.issued ==> u in s'.issued && s'.issued[u] == s.issued[u]) &&
      (forall u :: u in s.issued && Live(s, u) && !Live(s', u) ==> step == StepConsume(u) || !s.sessions[u].committing) &&
      (forall u :: u in s.issued && !Live(s, u) ==> !Live(s', u)) &&
      (!step.StepRemove? ==> s.blobs <= s'.blobs)
  {
    hide Inv, SessionRefs, PinRefs, SnapshotRefs, Release;
    match step
    case StepRelease(x) => ReleaseKeeps(s, x);
    case _ =>
  }

  /** The upload of a commit in progress is lost only by consuming it. */
  lemma StaysLive(s: State, step: Step, c: TaskId, u: UploadId)
    requires Inv(s) && Enabled(s, step) && Underway(Apply(s, step), c, u) && !Live(Apply(s, step), u)
    ensures Underway(s, c, u) && (Live(s, u) ==> step == StepConsume(u))
  {
    hide MarksOk, PreparedOk, Mark, Visit, Remove, CanRemove;
    if Committal(step) {
      CommittalLive(s, step, c, u);
    } else {
      NotCommittal(s, step);
      hide Apply;
    }
  }

  /** A lookup narrows its commit, or ends it and frees the upload. */
  lemma CheckFrame(s: State, c: TaskId, d: Digest)
    requires CanCheck(s, c, d)
    ensures var s', u := Check(s, c, d), s.commits[c].upload;
      s'.issued == s.issued && s'.blobs == s.blobs && (forall x :: Live(s, x) ==> Live(s', x)) &&
      s'.commits == if Ref(s.issued[u].owner, d) in s.blobs then s.commits[c := Checking(u, s.commits[c].left - {d})]
                    else s.commits - {c}
  {
    var u := s.commits[c].upload;
    if Ref(s.issued[u].owner, d) in s.blobs {
    } else if u in s.sessions {
    } else {
    }
  }

  lemma SaveFrame(s: State, c: TaskId, ok: bool)
    requires CanSave(s, c)
    ensures var s', u := Save(s, c, ok), s.commits[c].upload;
      s'.issued == s.issued && s'.blobs == s.blobs && (forall x :: Live(s, x) ==> Live(s', x)) &&
      s'.commits == if ok then s.commits[c := Forgetting(u)] else s.commits - {c}
  {
    if ok {
    } else if s.commits[c].upload in s.sessions {
    } else {
    }
  }

  lemma CommittalLive(s: State, step: Step, c: TaskId, u: UploadId)
    requires Inv(s) && Enabled(s, step) && Committal(step) && Underway(Apply(s, step), c, u) && !Live(Apply(s, step), u)
    ensures Underway(s, c, u) && !Live(s, u)
  {
    hide LocksOk, MarksOk, PreparedOk, Plan, Expire, Drop, PutBlob, Prepare, Consume, Release, Check, Save, Mark, Visit, Remove;
    match step
    case StepBegin(_, _) =>
    case StepCheck(c', d) => CheckFrame(s, c', d);
    case StepLock(_) =>
    case StepSave(c', ok) => SaveFrame(s, c', ok);
    case StepForget(_) =>
  }

  /** A digest that was found is lost only by a collection. */
  lemma StaysFound(s: State, step: Step, c: TaskId, u: UploadId, d: Digest)
    requires Inv(s) && Enabled(s, step) && Underway(Apply(s, step), c, u) && Found(Apply(s, step), c, d)
    requires Ref(Apply(s, step).issued[u].owner, d) !in Apply(s, step).blobs
    ensures Underway(s, c, u) && Found(s, c, d) && Apply(s, step).issued[u] == s.issued[u]
    ensures Ref(s.issued[u].owner, d) in s.blobs ==> step.StepRemove? && Ref(s.issued[u].owner, d) in step.removed
  {
    hide MarksOk, PreparedOk, Mark, Visit, CanRemove;
    if Committal(step) {
      CommittalFound(s, step, c, u, d);
    } else {
      NotCommittal(s, step);
      if !step.StepRemove? {
        hide Apply;
      }
    }
  }

  lemma CommittalFound(s: State, step: Step, c: TaskId, u: UploadId, d: Digest)
    requires Inv(s) && Enabled(s, step) && Committal(step) && Underway(Apply(s, step), c, u) && Found(Apply(s, step), c, d)
    requires Ref(Apply(s, step).issued[u].owner, d) !in Apply(s, step).blobs
    ensures Underway(s, c, u) && Found(s, c, d) && Apply(s, step).issued[u] == s.issued[u]
    ensures Ref(s.issued[u].owner, d) !in s.blobs
  {
    hide LocksOk, MarksOk, PreparedOk, Plan, Expire, Drop, PutBlob, Prepare, Consume, Release, Check, Save, Mark, Visit, Remove;
    match step
    case StepBegin(_, _) =>
    case StepCheck(c', d') => CheckFrame(s, c', d');
    case StepLock(_) =>
    case StepSave(c', ok) => SaveFrame(s, c', ok);
    case StepForget(_) =>
  }
}
