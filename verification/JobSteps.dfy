/**
 The transitions of the job and session engine.  One step is one critical
 section, or one store call with its outcome.  Parameters named `ok` and `w`
 are store outcomes; a native store never fails.
 */
module JobSteps {
  import opened Options
  import opened JobState

  // ----- Enqueue -----

  predicate CanPinSource(s: State, t: ThreadId, x: SnapshotId) { t.Caller? && t !in s.threads }
  function PinSource(s: State, t: ThreadId, x: SnapshotId): State { SetThread(Pin(s, x), t, Pinned(x)) }

  predicate CanAdmit(s: State, t: ThreadId, j: JobId, ok: bool) {
    t in s.threads && s.threads[t].Pinned? && s.admission.Free? && j !in s.born && (s.native ==> ok)
  }
  function Admit(s: State, t: ThreadId, j: JobId, ok: bool): State
    requires CanAdmit(s, t, j, ok)
  {
    var x := s.threads[t].snapshot;
    if PendingCount(s) >= s.limit || !ok then SetThread(s, t, Rejected(x))
    else
      var saved := Save(s, j, Birth(x, None, 0));
      if HasRoom(s) then EndThread(Push(saved, ForJob(j)), t) else SetThread(saved, t, Withdrawing(j))
  }

  predicate CanReject(s: State, t: ThreadId) { t in s.threads && s.threads[t].Rejected? }
  function Reject(s: State, t: ThreadId): State
    requires CanReject(s, t)
  { Release(EndThread(s, t), s.threads[t].snapshot) }

  predicate CanWithdraw(s: State, t: ThreadId, ok: bool) {
    t in s.threads && s.threads[t].Withdrawing? && (s.native ==> ok)
  }
  function Withdraw(s: State, t: ThreadId, ok: bool): State
    requires CanWithdraw(s, t, ok)
  { Cancel(EndThread(s, t), s.threads[t].id, ok) }

  // ----- Sessions and revisions -----

  predicate CanOpen(s: State, sid: SessionId) { s.admission.Free? && sid !in s.spent }
  function Open(s: State, sid: SessionId): State {
    s.(sessions := s.sessions[sid := Session(0, None, None, None, 0, None, false, false)],
       spent := s.spent + {sid})
  }

  predicate CanExpire(s: State, sid: SessionId) { s.admission.Free? && sid in s.sessions }
  function Expire(s: State, sid: SessionId): State
    requires CanExpire(s, sid)
  { s.(sessions := s.sessions[sid := s.sessions[sid].(expired := true)]) }

  predicate CanPrepare(s: State, sid: SessionId, x: SnapshotId) {
    s.admission.Free? && sid in s.sessions && !s.sessions[sid].expired
  }
  function Prepare(s: State, sid: SessionId, x: SnapshotId): State {
    Pin(s, x).(admission := Prepared(sid, x))
  }

  predicate CanRefuse(s: State) { s.admission.Prepared? }
  function Refuse(s: State): State
    requires CanRefuse(s)
  { Release(s.(admission := Free), s.admission.snapshot) }

  predicate CanSaveRevision(s: State, j: JobId) {
    s.admission.Prepared? && j !in s.born && s.admission.session in s.sessions &&
    var pending := s.sessions[s.admission.session].pending;
    (pending.Some? ==> pending.value in s.jobs) &&
    PendingCount(s) - (if pending.Some? && HasStatus(s, pending.value, Queued) then 1 else 0) < s.limit
  }
  function SaveRevision(s: State, j: JobId): State
    requires CanSaveRevision(s, j)
  {
    var sid, x := s.admission.session, s.admission.snapshot;
    Save(s, j, Birth(x, Some(sid), s.sessions[sid].revision + 1)).(admission := Saved(sid, x, j))
  }

  predicate CanSupersede(s: State, ok: bool) {
    s.admission.Saved? && s.admission.session in s.sessions && (s.native ==> ok)
  }
  function Supersede(s: State, ok: bool): State
    requires CanSupersede(s, ok)
  {
    var a := s.admission;
    var pending := s.sessions[a.session].pending;
    if pending.None? then s.(admission := Replaced(a.session, a.snapshot, a.id))
    else if !CancelSucceeds(s, pending.value, ok) then s.(admission := Aborting(a.id))
    else Cancel(s, pending.value, ok).(admission := Replaced(a.session, a.snapshot, a.id))
  }

  predicate CanAccept(s: State) { s.admission.Replaced? && s.admission.session in s.sessions }
  /** The second pin, the session's new source tree, and the wake-up token. */
  function Accept(s: State): State
    requires CanAccept(s)
  { Schedule(Advance(s), s.admission.session) }

  function Advance(s: State): State
    requires CanAccept(s)
  {
    var a := s.admission;
    var session := s.sessions[a.session];
    ReleaseAny(Pin(s, a.snapshot), session.snapshot).(
      admission := Free,
      sessions := s.sessions[a.session :=
        session.(revision := session.revision + 1, pending := Some(a.id), snapshot := Some(a.snapshot))])
  }

  predicate CanFailPin(s: State) { s.admission.Replaced? }
  function FailPin(s: State): State
    requires CanFailPin(s)
  { s.(admission := Aborting(s.admission.id)) }

  predicate CanAbort(s: State, ok: bool) { s.admission.Aborting? && (s.native ==> ok) }
  function Abort(s: State, ok: bool): State
    requires CanAbort(s, ok)
  { Cancel(s.(admission := Free), s.admission.id, ok) }

  predicate CanReschedule(s: State, sid: SessionId) { s.admission.Free? }
  function Reschedule(s: State, sid: SessionId): State { Schedule(s, sid) }

  // ----- Cancellation and closing -----

  predicate Interruptible(s: State, j: JobId) { j in s.active || j in s.completions }

  predicate CanUserCancel(s: State, j: JobId) {
    s.admission.Free? && (HasStatus(s, j, Queued) || (HasStatus(s, j, Running) && Interruptible(s, j)))
  }
  function UserCancel(s: State, j: JobId): State
    requires CanUserCancel(s, j)
  {
    if s.jobs[j].status.Queued? then Cancel(s, j, true)
    else Transition(s, j, Running, Cancelling(s.jobs[j]))
  }

  predicate CanClose(s: State, sid: SessionId, okPending: bool, okRunning: bool) {
    s.admission.Free? && sid in s.sessions && (s.native ==> okPending && okRunning) &&
    var pending := s.sessions[sid].pending;
    (pending.Some? ==> CancelSucceeds(s, pending.value, okPending))
  }
  function CancelPending(s: State, sid: SessionId): State
    requires sid in s.sessions
  { if s.sessions[sid].pending.Some? then Cancel(s, s.sessions[sid].pending.value, true) else s }

  function CancelRunning(s: State, sid: SessionId): State
    requires sid in s.sessions
  {
    var running := s.sessions[sid].running;
    if running.Some? && Interruptible(s, running.value) && HasStatus(s, running.value, Running)
    then Transition(s, running.value, Running, Cancelling(s.jobs[running.value])) else s
  }

  function Remove(s: State, sid: SessionId): State
    requires sid in s.sessions
  { ReleaseAny(s.(sessions := s.sessions - {sid}), s.sessions[sid].snapshot) }

  /** A failed write on the running job leaves the session, its pending job already cancelled. */
  function Close(s: State, sid: SessionId, okPending: bool, okRunning: bool): State
    requires CanClose(s, sid, okPending, okRunning)
  {
    var s1 := CancelPending(s, sid);
    var running := s.sessions[sid].running;
    if running.Some? && Interruptible(s, running.value) && !okRunning then s1
    else Remove(CancelRunning(s1, sid), sid)
  }

  // ----- Workers, before the start transition -----

  predicate CanReceive(s: State, t: ThreadId) { t.Worker? && t !in s.threads && s.queue != [] }
  function Receive(s: State, t: ThreadId): State
    requires CanReceive(s, t)
  {
    var token := s.queue[0];
    SetThread(s.(queue := s.queue[1..]), t,
              if token.ForJob? then Loading(token.job) else Taking(token.session))
  }

  predicate CanTake(s: State, t: ThreadId) { t in s.threads && s.threads[t].Taking? && s.admission.Free? }
  function Take(s: State, t: ThreadId): State
    requires CanTake(s, t)
  {
    var sid := s.threads[t].session;
    if sid !in s.sessions then EndThread(s, t)
    else
      var session := s.sessions[sid];
      if session.running.Some? || session.pending.None? then
        EndThread(s.(sessions := s.sessions[sid := session.(scheduled := false)]), t)
      else
        SetThread(s.(sessions := s.sessions[sid :=
          session.(scheduled := false, pending := None, running := session.pending)]), t, Loading(session.pending.value))
  }

  predicate CanLoad(s: State, t: ThreadId, ok: bool) {
    t in s.threads && s.threads[t].Loading? && (s.native ==> ok)
  }
  /** A missing record ends the attempt, except that the native store cannot tell it from an outage. */
  function Load(s: State, t: ThreadId, ok: bool): State
    requires CanLoad(s, t, ok)
  {
    var j := s.threads[t].id;
    if !ok then SetThread(s, t, Requeueing(j))
    else if j in s.jobs then SetThread(s, t, Loaded(j, s.jobs[j]))
    else if s.native then SetThread(s, t, Requeueing(j))
    else EndThread(s, t)
  }

  predicate CanRequeue(s: State, t: ThreadId) { t in s.threads && s.threads[t].Requeueing? && HasRoom(s) }
  function Requeue(s: State, t: ThreadId): State
    requires CanRequeue(s, t)
  { Push(EndThread(s, t), ForJob(s.threads[t].id)) }

  /** The session of a job, if any, still owns this attempt. */
  predicate OwnsAttempt(s: State, j: JobId, birth: Birth) {
    birth.session.Some? ==>
      var sid := birth.session.value;
      sid in s.sessions && !s.sessions[sid].expired && s.sessions[sid].running == Some(j)
  }

  predicate CanStart(s: State, t: ThreadId, ok: bool) {
    t in s.threads && s.threads[t].Loaded? && (s.native ==> ok) &&
    (s.threads[t].seen.status.Queued? ==> s.admission.Free?)
  }
  function Start(s: State, t: ThreadId, ok: bool): State
    requires CanStart(s, t, ok)
  {
    var j, seen := s.threads[t].id, s.threads[t].seen;
    if !seen.status.Queued? then
      SetThread(s, t, Ending(j, if seen.status.Terminal() then Some(seen.status) else None))
    else if !OwnsAttempt(s, j, seen.birth) then Cancel(SetThread(s, t, Ending(j, None)), j, ok)
    else if !ok then SetThread(s, t, Requeueing(j))
    else if !HasStatus(s, j, Queued) then SetThread(s, t, Deactivating(j, None))
    else
      var running := seen.(status := Running);
      SetThread(Transition(s, j, Queued, running).(active := s.active + {j}), t, Compiling(j, running))
  }

  // ----- Workers, from the start transition to the end of the attempt -----

  predicate CanCompile(s: State, t: ThreadId, outcome: Status) {
    t in s.threads && s.threads[t].Compiling? && (outcome.Succeeded? || outcome.Failed?)
  }
  function Compile(s: State, t: ThreadId, outcome: Status, result: nat): State
    requires CanCompile(s, t, outcome)
  {
    var pc := s.threads[t];
    SetThread(s, t, Finishing(pc.id, pc.job.(status := outcome, result := result)))
  }

  predicate CanFinish(s: State, t: ThreadId, w: Write) {
    t in s.threads && s.threads[t].Finishing? && (s.native ==> w.Applied?)
  }
  /** One attempt of the terminal write, and the reload that reconciles a lost race. */
  function Finish(s: State, t: ThreadId, w: Write): State
    requires CanFinish(s, t, w)
  {
    var j, done := s.threads[t].id, s.threads[t].done;
    if w.Lost? then s
    else if HasStatus(s, j, Running) then
      var written := Transition(s, j, Running, done);
      if w.Applied? then SetThread(written, t, Releasing(j, done)) else written
    else if j in s.jobs && s.jobs[j].status.Terminal() then
      SetThread(s, t, Releasing(j, done.(status := s.jobs[j].status, result := s.jobs[j].result)))
    else s
  }

  predicate CanDefer(s: State, t: ThreadId) { t in s.threads && s.threads[t].Finishing? && !s.native }
  function Defer(s: State, t: ThreadId): State
    requires CanDefer(s, t)
  {
    var j, done := s.threads[t].id, s.threads[t].done;
    SetThread(s.(completions := s.completions[j := Completion(j, Running, done)]), t,
              Deactivating(j, Some(done.status)))
  }

  predicate CanReleaseSource(s: State, t: ThreadId) { t in s.threads && s.threads[t].Releasing? }
  function ReleaseSource(s: State, t: ThreadId): State
    requires CanReleaseSource(s, t)
  {
    var pc := s.threads[t];
    Release(SetThread(s, t, if pc.job.status.Succeeded? then Accounting(pc.id, pc.job)
                            else Deactivating(pc.id, Some(pc.job.status))), pc.job.birth.snapshot)
  }

  predicate CanAccount(s: State, t: ThreadId, w: Write) {
    t in s.threads && s.threads[t].Accounting? && (s.native ==> w.Applied?)
  }
  /** Cache accounting rewrites the result of a succeeded record; a failure defers the rewrite. */
  function Account(s: State, t: ThreadId, cached: bool, result: nat, w: Write): State
    requires CanAccount(s, t, w)
  {
    var j, job := s.threads[t].id, s.threads[t].job;
    var moved := SetThread(s, t, Deactivating(j, Some(Succeeded)));
    if !cached then moved
    else
      var accounted := job.(result := result);
      var written := if w.Lost? then moved else Transition(moved, j, Succeeded, accounted);
      if w.Applied? then written
      else written.(completions := written.completions[j := Completion(j, Succeeded, accounted)])
  }

  // ----- The shared tail -----

  predicate CanDeactivate(s: State, t: ThreadId) {
    t in s.threads && s.threads[t].Deactivating? && s.admission.Free?
  }
  function Deactivate(s: State, t: ThreadId): State
    requires CanDeactivate(s, t)
  {
    var pc := s.threads[t];
    SetThread(s.(active := s.active - {pc.id}), t, Ending(pc.id, pc.known))
  }

  predicate CanCheck(s: State, t: ThreadId) { t in s.threads && s.threads[t].Ending? }
  /** finishSession leaves the slot alone while a completion is pending. */
  function Check(s: State, t: ThreadId): State
    requires CanCheck(s, t)
  {
    var pc := s.threads[t];
    SetThread(s, t, if pc.id in s.completions then Gating(pc.id) else Closing(pc.id, pc.known))
  }

  predicate CanReload(s: State, t: ThreadId) {
    t in s.threads && s.threads[t].Closing? && s.threads[t].known.None?
  }
  function Reload(s: State, t: ThreadId): State
    requires CanReload(s, t)
  {
    var j := s.threads[t].id;
    SetThread(s, t, if j in s.jobs && s.jobs[j].status.Terminal() then Closing(j, Some(s.jobs[j].status))
                    else Gating(j))
  }

  predicate CanFreeSlot(s: State, t: ThreadId) {
    t in s.threads && s.threads[t].Closing? && s.threads[t].known.Some? && s.admission.Free? &&
    s.threads[t].id in s.born
  }
  function Freed(session: Session, j: JobId, status: Status, revision: nat): Session {
    var open := session.(running := None);
    if status.Succeeded? then open.(lastSuccess := Some(j), lastRevision := revision) else open
  }
  function FreeSlot(s: State, t: ThreadId): State
    requires CanFreeSlot(s, t)
  {
    var j, status := s.threads[t].id, s.threads[t].known.value;
    var moved := SetThread(s, t, Gating(j));
    var birth := s.born[j];
    if birth.session.None? || birth.session.value !in s.sessions ||
       s.sessions[birth.session.value].running != Some(j) then moved
    else
      var sid := birth.session.value;
      Schedule(moved.(sessions := s.sessions[sid := Freed(s.sessions[sid], j, status, birth.revision)]), sid)
  }

  predicate CanEndGate(s: State, t: ThreadId) { t in s.threads && s.threads[t].Gating? }
  function EndGate(s: State, t: ThreadId): State
    requires CanEndGate(s, t)
  { CloseGate(EndThread(s, t), s.threads[t].id) }

  // ----- The recovery goroutine and the retention sweep -----

  predicate CanRetry(s: State, j: JobId, w: Write) {
    Recovery !in s.threads && j in s.completions && !s.native
  }
  function Retry(s: State, j: JobId, w: Write): State
    requires CanRetry(s, j, w)
  {
    var entry := s.completions[j];
    if w.Lost? then s
    else if HasStatus(s, j, entry.from) then
      var written := Transition(s, j, entry.from, entry.job);
      if w.Applied? then SetThread(written, Recovery, Confirmed(j, entry, entry.job.status)) else written
    else if j in s.jobs && s.jobs[j].status.Terminal() then
      SetThread(s, Recovery, Confirmed(j, entry, s.jobs[j].status))
    else s
  }

  predicate CanDrop(s: State) { Recovery in s.threads && s.threads[Recovery].Confirmed? }
  function Drop(s: State): State
    requires CanDrop(s)
  {
    var pc := s.threads[Recovery];
    SetThread(s.(completions := s.completions - {pc.id}), Recovery, Unpinning(pc.id, pc.entry, pc.status))
  }

  predicate CanUnpin(s: State) { Recovery in s.threads && s.threads[Recovery].Unpinning? }
  function Unpin(s: State): State
    requires CanUnpin(s)
  {
    var pc := s.threads[Recovery];
    var moved := SetThread(s, Recovery, Ending(pc.id, Some(pc.status)));
    if pc.entry.from.Running? then Release(moved, pc.entry.job.birth.snapshot) else moved
  }

  /**
   A worker whose start write failed drops the entry of its job only after it
   has put the job back, by when another worker may have started it.  The
   removal may come at any later time, so no more is asked than the lock.
   */
  predicate CanForget(s: State, j: JobId) { !s.native && s.admission.Free? }
  function Forget(s: State, j: JobId): State
    requires CanForget(s, j)
  { s.(active := s.active - {j}) }

  predicate CanSweep(s: State, swept: set<JobId>) {
    forall j :: j in swept ==> j in s.jobs && s.jobs[j].status.Terminal() && j !in s.gates
  }
  function Sweep(s: State, swept: set<JobId>): State { s.(jobs := s.jobs - swept) }

  // ----- The protocol -----

  datatype ClientStep =
    | StepPinSource(t: ThreadId, x: SnapshotId)
    | StepAdmit(t: ThreadId, j: JobId, ok: bool)
    | StepReject(t: ThreadId)
    | StepWithdraw(t: ThreadId, ok: bool)
    | StepUserCancel(j: JobId)
    | StepSweep(swept: set<JobId>)

  predicate ClientEnabled(s: State, step: ClientStep) {
    match step
    case StepPinSource(t, x) => CanPinSource(s, t, x)
    case StepAdmit(t, j, ok) => CanAdmit(s, t, j, ok)
    case StepReject(t) => CanReject(s, t)
    case StepWithdraw(t, ok) => CanWithdraw(s, t, ok)
    case StepUserCancel(j) => CanUserCancel(s, j)
    case StepSweep(swept) => CanSweep(s, swept)
  }

  function ClientApply(s: State, step: ClientStep): State
    requires ClientEnabled(s, step)
  {
    match step
    case StepPinSource(t, x) => PinSource(s, t, x)
    case StepAdmit(t, j, ok) => Admit(s, t, j, ok)
    case StepReject(t) => Reject(s, t)
    case StepWithdraw(t, ok) => Withdraw(s, t, ok)
    case StepUserCancel(j) => UserCancel(s, j)
    case StepSweep(swept) => Sweep(s, swept)
  }

  datatype SessionStep =
    | StepOpen(sid: SessionId)
    | StepExpire(sid: SessionId)
    | StepPrepare(sid: SessionId, x: SnapshotId)
    | StepRefuse
    | StepSaveRevision(j: JobId)
    | StepSupersede(ok: bool)
    | StepAccept
    | StepFailPin
    | StepAbort(ok: bool)
    | StepReschedule(sid: SessionId)
    | StepClose(sid: SessionId, okPending: bool, okRunning: bool)

  predicate SessionEnabled(s: State, step: SessionStep) {
    match step
    case StepOpen(sid) => CanOpen(s, sid)
    case StepExpire(sid) => CanExpire(s, sid)
    case StepPrepare(sid, x) => CanPrepare(s, sid, x)
    case StepRefuse => CanRefuse(s)
    case StepSaveRevision(j) => CanSaveRevision(s, j)
    case StepSupersede(ok) => CanSupersede(s, ok)
    case StepAccept => CanAccept(s)
    case StepFailPin => CanFailPin(s)
    case StepAbort(ok) => CanAbort(s, ok)
    case StepReschedule(sid) => CanReschedule(s, sid)
    case StepClose(sid, okPending, okRunning) => CanClose(s, sid, okPending, okRunning)
  }

  function SessionApply(s: State, step: SessionStep): State
    requires SessionEnabled(s, step)
  {
    match step
    case StepOpen(sid) => Open(s, sid)
    case StepExpire(sid) => Expire(s, sid)
    case StepPrepare(sid, x) => Prepare(s, sid, x)
    case StepRefuse => Refuse(s)
    case StepSaveRevision(j) => SaveRevision(s, j)
    case StepSupersede(ok) => Supersede(s, ok)
    case StepAccept => Accept(s)
    case StepFailPin => FailPin(s)
    case StepAbort(ok) => Abort(s, ok)
    case StepReschedule(sid) => Reschedule(s, sid)
    case StepClose(sid, okPending, okRunning) => Close(s, sid, okPending, okRunning)
  }

  datatype WorkerStep =
    | StepReceive(t: ThreadId)
    | StepTake(t: ThreadId)
    | StepLoad(t: ThreadId, ok: bool)
    | StepRequeue(t: ThreadId)
    | StepStart(t: ThreadId, ok: bool)
    | StepCompile(t: ThreadId, outcome: Status, result: nat)
    | StepFinish(t: ThreadId, w: Write)
    | StepDefer(t: ThreadId)
    | StepReleaseSource(t: ThreadId)
    | StepAccount(t: ThreadId, cached: bool, result: nat, w: Write)

  predicate WorkerEnabled(s: State, step: WorkerStep) {
    match step
    case StepReceive(t) => CanReceive(s, t)
    case StepTake(t) => CanTake(s, t)
    case StepLoad(t, ok) => CanLoad(s, t, ok)
    case StepRequeue(t) => CanRequeue(s, t)
    case StepStart(t, ok) => CanStart(s, t, ok)
    case StepCompile(t, outcome, _) => CanCompile(s, t, outcome)
    case StepFinish(t, w) => CanFinish(s, t, w)
    case StepDefer(t) => CanDefer(s, t)
    case StepReleaseSource(t) => CanReleaseSource(s, t)
    case StepAccount(t, _, _, w) => CanAccount(s, t, w)
  }

  function WorkerApply(s: State, step: WorkerStep): State
    requires WorkerEnabled(s, step)
  {
    match step
    case StepReceive(t) => Receive(s, t)
    case StepTake(t) => Take(s, t)
    case StepLoad(t, ok) => Load(s, t, ok)
    case StepRequeue(t) => Requeue(s, t)
    case StepStart(t, ok) => Start(s, t, ok)
    case StepCompile(t, outcome, result) => Compile(s, t, outcome, result)
    case StepFinish(t, w) => Finish(s, t, w)
    case StepDefer(t) => Defer(s, t)
    case StepReleaseSource(t) => ReleaseSource(s, t)
    case StepAccount(t, cached, result, w) => Account(s, t, cached, result, w)
  }

  datatype TailStep =
    | StepDeactivate(t: ThreadId)
    | StepCheck(t: ThreadId)
    | StepReload(t: ThreadId)
    | StepFreeSlot(t: ThreadId)
    | StepEndGate(t: ThreadId)
    | StepRetry(j: JobId, w: Write)
    | StepDrop
    | StepUnpin
    | StepForget(j: JobId)

  predicate TailEnabled(s: State, step: TailStep) {
    match step
    case StepDeactivate(t) => CanDeactivate(s, t)
    case StepCheck(t) => CanCheck(s, t)
    case StepReload(t) => CanReload(s, t)
    case StepFreeSlot(t) => CanFreeSlot(s, t)
    case StepEndGate(t) => CanEndGate(s, t)
    case StepRetry(j, w) => CanRetry(s, j, w)
    case StepDrop => CanDrop(s)
    case StepUnpin => CanUnpin(s)
    case StepForget(j) => CanForget(s, j)
  }

  function TailApply(s: State, step: TailStep): State
    requires TailEnabled(s, step)
  {
    match step
    case StepDeactivate(t) => Deactivate(s, t)
    case StepCheck(t) => Check(s, t)
    case StepReload(t) => Reload(s, t)
    case StepFreeSlot(t) => FreeSlot(s, t)
    case StepEndGate(t) => EndGate(s, t)
    case StepRetry(j, w) => Retry(s, j, w)
    case StepDrop => Drop(s)
    case StepUnpin => Unpin(s)
    case StepForget(j) => Forget(s, j)
  }

  datatype Step =
    | OfClient(stepClient: ClientStep)
    | OfSession(stepSession: SessionStep)
    | OfWorker(stepWorker: WorkerStep)
    | OfTail(stepTail: TailStep)

  predicate Enabled(s: State, step: Step) {
    match step
    case OfClient(x) => ClientEnabled(s, x)
    case OfSession(x) => SessionEnabled(s, x)
    case OfWorker(x) => WorkerEnabled(s, x)
    case OfTail(x) => TailEnabled(s, x)
  }

  function Apply(s: State, step: Step): State
    requires Enabled(s, step)
  {
    match step
    case OfClient(x) => ClientApply(s, x)
    case OfSession(x) => SessionApply(s, x)
    case OfWorker(x) => WorkerApply(s, x)
    case OfTail(x) => TailApply(s, x)
  }
}
