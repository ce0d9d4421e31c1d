/**
 Who can be stopped.  The table of active jobs, which cancelling and closing
 consult, lists exactly the jobs that a worker has in hand, as long as no worker
 removes an entry late.
 */
module JobActive {
  import opened Options
  import opened Counting
  import opened JobState
  import opened JobSteps
  import opened JobInvariant
  import opened JobEvolution
  import opened JobWorkers
  import opened JobResponsibility
  import opened JobTruth
  import opened JobResults
  import opened JobRuns

  /** The job that the worker has in hand, from the start transition until it has left the table. */
  function InWork(pc: Pc): Option<JobId> {
    match pc
    case Compiling(j, _) => Some(j)
    case Finishing(j, _) => Some(j)
    case Releasing(j, _) => Some(j)
    case Accounting(j, _) => Some(j)
    case Deactivating(j, known) => if known.Some? then Some(j) else None
    case _ => None
  }
  function WorkOf(s: State, t: ThreadId): Option<JobId> { if t in s.threads then InWork(s.threads[t]) else None }

  /** Whoever is in the table is in somebody's hands, and only workers leave it. */
  ghost predicate TableOk(s: State) {
    (forall j :: j in s.active ==> exists t :: WorkOf(s, t) == Some(j)) &&
    (forall t :: t in s.threads && s.threads[t].Deactivating? ==> t.Worker?)
  }

  /** Everybody in somebody's hands is in the table. */
  ghost predicate TableWhole(s: State) { forall t, j :: WorkOf(s, t) == Some(j) ==> j in s.active }

  // ----- One step -----

  /** The table stays, and the one goroutine that moves has the same in hand as before. */
  ghost predicate WorkKept(s: State, s': State, t: ThreadId) {
    s'.active == s.active && SameOff(s.threads, s'.threads, t) && WorkOf(s', t) == WorkOf(s, t) &&
    (t in s'.threads && s'.threads[t].Deactivating? ==> t.Worker? || s'.threads == s.threads)
  }

  lemma KeptTable(s: State, s': State, t: ThreadId)
    requires WorkKept(s, s', t)
    ensures TableOk(s) ==> TableOk(s')
    ensures TableWhole(s) ==> TableWhole(s')
  {
    forall u ensures WorkOf(s', u) == WorkOf(s, u) {}
  }

  lemma ReleaseActive(s: State, x: SnapshotId)
    ensures Release(s, x).active == s.active
  {
    if x !in s.pins {
    } else if s.pins[x] <= 1 {
    } else {
    }
  }

  lemma ScheduleActive(s: State, sid: SessionId)
    ensures Schedule(s, sid).active == s.active && Schedule(s, sid).threads == s.threads
  {
    if Schedulable(s, sid) {
    } else {
    }
  }

  lemma ClientWork(s: State, step: ClientStep) returns (t: ThreadId)
    requires ClientEnabled(s, step)
    ensures WorkKept(s, ClientApply(s, step), t)
  {
    hide Release, Cancel, Transition, Admit;
    match step
    case StepPinSource(u, x) => t := u;
    case StepAdmit(u, j, ok) => t := u; AdmitWork(s, t, j, ok);
    case StepReject(u) => t := u; ReleaseActive(EndThread(s, t), s.threads[t].snapshot); ReleaseUntouched(EndThread(s, t), s.threads[t].snapshot);
    case StepWithdraw(u, ok) => t := u; CancelFrame(EndThread(s, t), s.threads[t].id, ok);
    case StepUserCancel(j) =>
      t := Recovery;
      CancelFrame(s, j, true);
      TransitionFrame(s, j, Running, Cancelling(s.jobs[j]));
      SameWork(s, UserCancel(s, j));
    case StepSweep(swept) => t := Recovery; SameWork(s, Sweep(s, swept));
  }

  lemma SameWork(s: State, s': State)
    requires s'.active == s.active && s'.threads == s.threads
    ensures WorkKept(s, s', Recovery)
  {
  }

  lemma AdmitWork(s: State, t: ThreadId, j: JobId, ok: bool)
    requires CanAdmit(s, t, j, ok)
    ensures WorkKept(s, Admit(s, t, j, ok), t)
  {
    hide PendingCount, HasRoom, WorkKept, Save, Push, SetThread, EndThread;
    var x := s.threads[t].snapshot;
    var saved := Save(s, j, Birth(x, None, 0));
    SavedWork(s, j, Birth(x, None, 0));
    if PendingCount(s) >= s.limit || !ok {
      MovesWork(s, s, t, Rejected(x));
    } else if HasRoom(s) {
      EndsWork(s, Push(saved, ForJob(j)), t);
    } else {
      MovesWork(s, saved, t, Withdrawing(j));
    }
  }

  lemma SavedWork(s: State, j: JobId, birth: Birth)
    ensures Save(s, j, birth).active == s.active && Save(s, j, birth).threads == s.threads
    ensures Push(Save(s, j, birth), ForJob(j)).active == s.active && Push(Save(s, j, birth), ForJob(j)).threads == s.threads
  {
  }

  lemma MovesWork(s: State, s1: State, t: ThreadId, pc: Pc)
    requires s1.active == s.active && s1.threads == s.threads && t in s.threads && InWork(pc) == InWork(s.threads[t])
    requires pc.Deactivating? ==> t.Worker?
    ensures WorkKept(s, SetThread(s1, t, pc), t)
  {
  }

  lemma EndsWork(s: State, s1: State, t: ThreadId)
    requires s1.active == s.active && s1.threads == s.threads && t in s.threads && InWork(s.threads[t]) == None
    ensures WorkKept(s, EndThread(s1, t), t)
  {
  }

  // ----- Sessions -----

  lemma SessionActive(s: State, step: SessionStep)
    requires SessionEnabled(s, step)
    ensures SessionApply(s, step).active == s.active
  {
    hide Release, Cancel, Advance, Schedule, Close, Supersede;
    match step
    case StepOpen(sid) =>
    case StepExpire(sid) =>
    case StepPrepare(sid, x) =>
    case StepRefuse => ReleaseActive(s.(admission := Free), s.admission.snapshot);
    case StepSaveRevision(j) =>
    case StepSupersede(ok) => SupersedeActive(s, ok);
    case StepAccept => AcceptActive(s);
    case StepFailPin =>
    case StepAbort(ok) => CancelFrame(s.(admission := Free), s.admission.id, ok);
    case StepReschedule(sid) => ScheduleActive(s, sid);
    case StepClose(sid, okPending, okRunning) => CloseActive(s, sid, okPending, okRunning);
  }

  lemma SupersedeActive(s: State, ok: bool)
    requires CanSupersede(s, ok)
    ensures Supersede(s, ok).active == s.active
  {
    hide Cancel;
    var pending := s.sessions[s.admission.session].pending;
    if pending.None? {
    } else if !CancelSucceeds(s, pending.value, ok) {
    } else {
      CancelFrame(s, pending.value, ok);
    }
  }

  lemma AcceptActive(s: State)
    requires CanAccept(s)
    ensures Accept(s).active == s.active
  {
    hide Schedule, Release;
    ScheduleActive(Advance(s), s.admission.session);
    var session := s.sessions[s.admission.session];
    if session.snapshot.Some? {
      ReleaseActive(Pin(s, s.admission.snapshot), session.snapshot.value);
    } else {
    }
  }

  lemma CloseActive(s: State, sid: SessionId, okPending: bool, okRunning: bool)
    requires CanClose(s, sid, okPending, okRunning)
    ensures Close(s, sid, okPending, okRunning).active == s.active
  {
    hide Cancel, CancelRunning, Release;
    var s1 := CancelPending(s, sid);
    if s.sessions[sid].pending.Some? {
      CancelFrame(s, s.sessions[sid].pending.value, true);
    } else {
    }
    var running := s.sessions[sid].running;
    if running.Some? && Interruptible(s, running.value) && !okRunning {
    } else {
      CancelRunningActive(s1, sid);
      var s2 := CancelRunning(s1, sid);
      if s2.sessions[sid].snapshot.Some? {
        ReleaseActive(s2.(sessions := s2.sessions - {sid}), s2.sessions[sid].snapshot.value);
      } else {
      }
    }
  }

  lemma CancelRunningActive(s: State, sid: SessionId)
    requires sid in s.sessions
    ensures CancelRunning(s, sid).active == s.active && CancelRunning(s, sid).sessions == s.sessions
  {
    hide Transition;
    var running := s.sessions[sid].running;
    if running.Some? && Interruptible(s, running.value) && HasStatus(s, running.value, Running) {
      TransitionFrame(s, running.value, Running, Cancelling(s.jobs[running.value]));
    } else {
    }
  }

  lemma SessionWork(s: State, step: SessionStep)
    requires SessionEnabled(s, step)
    ensures WorkKept(s, SessionApply(s, step), Recovery)
  {
    SessionActive(s, step);
    SessionMute(s, step);
    hide SessionApply;
    SameWork(s, SessionApply(s, step));
  }

  // ----- Workers -----

  lemma TakeWork(s: State, t: ThreadId)
    requires CanTake(s, t)
    ensures WorkKept(s, Take(s, t), t)
  {
    hide WorkKept, SetThread, EndThread;
    var sid := s.threads[t].session;
    if sid !in s.sessions {
      EndsWork(s, s, t);
    } else {
      var session := s.sessions[sid];
      if session.running.Some? || session.pending.None? {
        EndsWork(s, s.(sessions := s.sessions[sid := session.(scheduled := false)]), t);
      } else {
        MovesWork(s, s.(sessions := s.sessions[sid := session.(scheduled := false, pending := None, running := session.pending)]),
                  t, Loading(session.pending.value));
      }
    }
  }

  lemma LoadWork(s: State, t: ThreadId, ok: bool)
    requires CanLoad(s, t, ok)
    ensures WorkKept(s, Load(s, t, ok), t)
  {
    hide WorkKept, SetThread, EndThread;
    var i := s.threads[t].id;
    if !ok {
      MovesWork(s, s, t, Requeueing(i));
    } else if i in s.jobs {
      MovesWork(s, s, t, Loaded(i, s.jobs[i]));
    } else if s.native {
      MovesWork(s, s, t, Requeueing(i));
    } else {
      EndsWork(s, s, t);
    }
  }

  lemma FinishWork(s: State, t: ThreadId, w: Write)
    requires CanFinish(s, t, w)
    ensures WorkKept(s, Finish(s, t, w), t)
  {
    hide WorkKept, SetThread, Transition;
    var j, done := s.threads[t].id, s.threads[t].done;
    TransitionFrame(s, j, Running, done);
    UnmovedWork(s, s, t);
    UnmovedWork(s, Transition(s, j, Running, done), t);
    if w.Lost? {
    } else if HasStatus(s, j, Running) {
      if w.Applied? {
        MovesWork(s, Transition(s, j, Running, done), t, Releasing(j, done));
      } else {
      }
    } else if j in s.jobs && s.jobs[j].status.Terminal() {
      MovesWork(s, s, t, Releasing(j, done.(status := s.jobs[j].status, result := s.jobs[j].result)));
    } else {
    }
  }

  lemma UnmovedWork(s: State, s': State, t: ThreadId)
    requires s'.active == s.active && s'.threads == s.threads
    ensures WorkKept(s, s', t)
  {
  }

  lemma ReleaseSourceWork(s: State, t: ThreadId)
    requires Inv(s) && CanReleaseSource(s, t)
    ensures WorkKept(s, ReleaseSource(s, t), t)
  {
    hide Inv, Release, WorkKept, SetThread;
    WorkerHas(s, t);
    var pc := s.threads[t];
    var next := if pc.job.status.Succeeded? then Accounting(pc.id, pc.job) else Deactivating(pc.id, Some(pc.job.status));
    MovesWork(s, s, t, next);
    ReleaseUntouched(SetThread(s, t, next), pc.job.birth.snapshot);
    ReleaseActive(SetThread(s, t, next), pc.job.birth.snapshot);
    SameTable(s, SetThread(s, t, next), ReleaseSource(s, t), t);
  }

  lemma WorkerHas(s: State, t: ThreadId)
    requires Inv(s) && t in s.threads
    requires var pc := s.threads[t]; pc.Loaded? || pc.Compiling? || pc.Finishing? || pc.Releasing? || pc.Accounting?
    ensures t.Worker?
  {
    hide Tally;
    assert PcOk(s, t, s.threads[t]);
  }

  lemma AccountWork(s: State, t: ThreadId, cached: bool, result: nat, w: Write)
    requires Inv(s) && CanAccount(s, t, w)
    ensures WorkKept(s, Account(s, t, cached, result, w), t)
  {
    hide Inv, WorkKept, SetThread, Transition;
    WorkerHas(s, t);
    var j, job := s.threads[t].id, s.threads[t].job;
    var moved := SetThread(s, t, Deactivating(j, Some(Succeeded)));
    MovesWork(s, s, t, Deactivating(j, Some(Succeeded)));
    var accounted := job.(result := result);
    TransitionFrame(moved, j, Succeeded, accounted);
    if !cached {
    } else {
      SameTable(s, moved, Transition(moved, j, Succeeded, accounted), t);
      if w.Lost? {
        SameTable(s, moved, moved.(completions := moved.completions[j := Completion(j, Succeeded, accounted)]), t);
      } else if w.Applied? {
      } else {
        var written := Transition(moved, j, Succeeded, accounted);
        SameTable(s, moved, written.(completions := written.completions[j := Completion(j, Succeeded, accounted)]), t);
      }
    }
  }

  lemma SameTable(s: State, s1: State, s2: State, t: ThreadId)
    requires WorkKept(s, s1, t) && s2.active == s1.active && s2.threads == s1.threads
    ensures WorkKept(s, s2, t)
  {
  }

  /** The attempt is started. */
  predicate Begins(s: State, t: ThreadId, ok: bool)
    requires CanStart(s, t, ok)
  {
    s.threads[t].seen.status.Queued? && OwnsAttempt(s, s.threads[t].id, s.threads[t].seen.birth) && ok &&
    HasStatus(s, s.threads[t].id, Queued)
  }

  lemma StartWork(s: State, t: ThreadId, ok: bool)
    requires Inv(s) && CanStart(s, t, ok) && !Begins(s, t, ok)
    ensures WorkKept(s, Start(s, t, ok), t)
  {
    hide Inv, WorkKept, SetThread, Cancel, Transition, OwnsAttempt;
    WorkerHas(s, t);
    var i, seen := s.threads[t].id, s.threads[t].seen;
    if !seen.status.Queued? {
      MovesWork(s, s, t, Ending(i, if seen.status.Terminal() then Some(seen.status) else None));
    } else if !OwnsAttempt(s, i, seen.birth) {
      MovesWork(s, s, t, Ending(i, None));
      CancelFrame(SetThread(s, t, Ending(i, None)), i, ok);
      SameTable(s, SetThread(s, t, Ending(i, None)), Start(s, t, ok), t);
    } else if !ok {
      MovesWork(s, s, t, Requeueing(i));
    } else {
      MovesWork(s, s, t, Deactivating(i, None));
    }
  }

  /** The start of an attempt enters the table with it. */
  lemma BeginsTable(s: State, t: ThreadId)
    requires t in s.threads && s.threads[t].Loaded? && HasStatus(s, s.threads[t].id, Queued)
    ensures TableOk(s) ==> TableOk(Started(s, t))
    ensures TableWhole(s) ==> TableWhole(Started(s, t))
  {
    var s', i := Started(s, t), s.threads[t].id;
    assert forall u :: WorkOf(s', u) == if u == t then Some(i) else WorkOf(s, u);
    if TableOk(s) {
      forall j | j in s'.active ensures exists u :: WorkOf(s', u) == Some(j) {
        if j == i {
          assert WorkOf(s', t) == Some(j);
        } else {
          var u :| WorkOf(s, u) == Some(j);
          assert WorkOf(s', u) == Some(j);
        }
      }
    }
  }

  lemma WorkerTable(s: State, step: WorkerStep)
    requires Inv(s) && WorkerEnabled(s, step)
    ensures TableOk(s) ==> TableOk(WorkerApply(s, step))
    ensures TableWhole(s) ==> TableWhole(WorkerApply(s, step))
  {
    hide Inv, TableOk, TableWhole, WorkKept, Take, Load, Start, Finish, ReleaseSource, Account, OwnsAttempt;
    match step
    case StepReceive(t) => ReceiveWork(s, t); KeptTable(s, Receive(s, t), t);
    case StepTake(t) => TakeWork(s, t); KeptTable(s, Take(s, t), t);
    case StepLoad(t, ok) => LoadWork(s, t, ok); KeptTable(s, Load(s, t, ok), t);
    case StepRequeue(t) => EndsWork(s, s, t); SameTable(s, EndThread(s, t), Requeue(s, t), t); KeptTable(s, Requeue(s, t), t);
    case StepStart(t, ok) =>
      if Begins(s, t, ok) {
        StartsAs(s, t, ok);
        BeginsTable(s, t);
      } else {
        StartWork(s, t, ok);
        KeptTable(s, Start(s, t, ok), t);
      }
    case StepCompile(t, outcome, result) =>
      MovesWork(s, s, t, Compile(s, t, outcome, result).threads[t]);
      KeptTable(s, Compile(s, t, outcome, result), t);
    case StepFinish(t, w) => FinishWork(s, t, w); KeptTable(s, Finish(s, t, w), t);
    case StepDefer(t) => DeferWork(s, t); KeptTable(s, Defer(s, t), t);
    case StepReleaseSource(t) => ReleaseSourceWork(s, t); KeptTable(s, ReleaseSource(s, t), t);
    case StepAccount(t, cached, result, w) =>
      AccountWork(s, t, cached, result, w);
      KeptTable(s, Account(s, t, cached, result, w), t);
  }

  lemma ReceiveWork(s: State, t: ThreadId)
    requires CanReceive(s, t)
    ensures WorkKept(s, Receive(s, t), t)
  {
  }

  lemma DeferWork(s: State, t: ThreadId)
    requires Inv(s) && CanDefer(s, t)
    ensures WorkKept(s, Defer(s, t), t)
  {
    hide Inv;
    WorkerHas(s, t);
  }

  // ----- The tail -----

  lemma FreeSlotActive(s: State, t: ThreadId)
    requires CanFreeSlot(s, t)
    ensures FreeSlot(s, t).active == s.active
  {
    hide Schedule;
    var j, status := s.threads[t].id, s.threads[t].known.value;
    var birth := s.born[j];
    if birth.session.None? || birth.session.value !in s.sessions || s.sessions[birth.session.value].running != Some(j) {
    } else {
      var sid := birth.session.value;
      ScheduleActive(SetThread(s, t, Gating(j)).(sessions := s.sessions[sid := Freed(s.sessions[sid], j, status, birth.revision)]), sid);
    }
  }

  lemma FreeSlotWork(s: State, t: ThreadId)
    requires CanFreeSlot(s, t)
    ensures WorkKept(s, FreeSlot(s, t), t)
  {
    FreeSlotActive(s, t);
    FreeSlotThreads(s, t);
    hide FreeSlot, WorkKept;
    MovesWork(s, s, t, Gating(s.threads[t].id));
    SameTable(s, SetThread(s, t, Gating(s.threads[t].id)), FreeSlot(s, t), t);
  }

  lemma RetryWork(s: State, j: JobId, w: Write)
    requires CanRetry(s, j, w)
    ensures WorkKept(s, Retry(s, j, w), Recovery)
  {
    hide Transition;
    var entry := s.completions[j];
    TransitionFrame(s, j, entry.from, entry.job);
    if w.Lost? {
    } else if HasStatus(s, j, entry.from) {
      if w.Applied? {
      } else {
      }
    } else if j in s.jobs && s.jobs[j].status.Terminal() {
    } else {
    }
  }

  lemma UnpinWork(s: State)
    requires CanUnpin(s)
    ensures WorkKept(s, Unpin(s), Recovery)
  {
    hide Release, WorkKept, SetThread;
    var pc := s.threads[Recovery];
    var next := Ending(pc.id, Some(pc.status));
    MovesWork(s, s, Recovery, next);
    if pc.entry.from.Running? {
      ReleaseUntouched(SetThread(s, Recovery, next), pc.entry.job.birth.snapshot);
      ReleaseActive(SetThread(s, Recovery, next), pc.entry.job.birth.snapshot);
    } else {
    }
    SameTable(s, SetThread(s, Recovery, next), Unpin(s), Recovery);
  }

  lemma EndGateWork(s: State, t: ThreadId)
    requires CanEndGate(s, t)
    ensures WorkKept(s, EndGate(s, t), t)
  {
    hide CloseGate, WorkKept;
    EndsWork(s, s, t);
    CloseGateFrame(EndThread(s, t), s.threads[t].id);
    SameTable(s, EndThread(s, t), EndGate(s, t), t);
  }

  /** Leaving the table ends the work of the one worker that had the job in hand. */
  lemma DeactivateTable(s: State, t: ThreadId)
    requires Inv(s) && CanDeactivate(s, t) && OneSettler(s) && TableOk(s)
    ensures TableOk(Deactivate(s, t))
    ensures TableWhole(s) ==> TableWhole(Deactivate(s, t))
  {
    hide Inv;
    var s', i := Deactivate(s, t), s.threads[t].id;
    assert forall u :: WorkOf(s', u) == if u == t then None else WorkOf(s, u);
    forall j | j in s'.active ensures exists u :: WorkOf(s', u) == Some(j) {
      var u :| WorkOf(s, u) == Some(j);
      assert WorkOf(s', u) == Some(j);
    }
    forall u | WorkOf(s, u) == Some(i) ensures u == t {
      OneHand(s, t, u, i);
    }
  }

  lemma OneHand(s: State, t: ThreadId, u: ThreadId, j: JobId)
    requires Inv(s) && OneSettler(s) && TableOk(s) && WorkOf(s, u) == Some(j)
    requires t in s.threads && s.threads[t].Deactivating? && s.threads[t].id == j
    ensures u == t
  {
    hide Inv;
    if !s.threads[u].Deactivating? {
      WorkerHas(s, u);
    }
    assert ByThread(s, t, j) && ByThread(s, u, j);
  }

  lemma TailTable(s: State, step: TailStep)
    requires Inv(s) && TailEnabled(s, step) && OneSettler(s) && TableOk(s)
    ensures TableOk(TailApply(s, step))
    ensures TableWhole(s) && !step.StepForget? ==> TableWhole(TailApply(s, step))
  {
    hide Inv, OneSettler, TableOk, TableWhole, WorkKept, Deactivate, FreeSlot, EndGate, Retry, Drop, Unpin;
    match step
    case StepDeactivate(t) => DeactivateTable(s, t);
    case StepCheck(t) => MovesWork(s, s, t, Check(s, t).threads[t]); KeptTable(s, Check(s, t), t);
    case StepReload(t) => MovesWork(s, s, t, Reload(s, t).threads[t]); KeptTable(s, Reload(s, t), t);
    case StepFreeSlot(t) => FreeSlotWork(s, t); KeptTable(s, FreeSlot(s, t), t);
    case StepEndGate(t) => EndGateWork(s, t); KeptTable(s, EndGate(s, t), t);
    case StepRetry(j, w) => RetryWork(s, j, w); KeptTable(s, Retry(s, j, w), Recovery);
    case StepDrop => DropWork(s); KeptTable(s, Drop(s), Recovery);
    case StepUnpin => UnpinWork(s); KeptTable(s, Unpin(s), Recovery);
    case StepForget(j) => ForgetTable(s, j);
  }

  lemma DropWork(s: State)
    requires CanDrop(s)
    ensures WorkKept(s, Drop(s), Recovery)
  {
  }

  lemma ForgetTable(s: State, j: JobId)
    requires TableOk(s)
    ensures TableOk(s.(active := s.active - {j}))
  {
    forall i | i in s.active - {j} ensures exists u :: WorkOf(s.(active := s.active - {j}), u) == Some(i) {
      var u :| WorkOf(s, u) == Some(i);
      assert WorkOf(s.(active := s.active - {j}), u) == Some(i);
    }
  }

  predicate Forgetful(step: Step) { step.OfTail? && step.stepTail.StepForget? }

  lemma StepTable(s: State, step: Step)
    requires Inv(s) && Enabled(s, step) && OneSettler(s) && TableOk(s)
    ensures TableOk(Apply(s, step))
    ensures TableWhole(s) && !Forgetful(step) ==> TableWhole(Apply(s, step))
  {
    hide Inv, OneSettler, TableOk, TableWhole, WorkKept, ClientApply, SessionApply, WorkerApply, TailApply;
    match step
    case OfClient(x) => var t := ClientWork(s, x); KeptTable(s, ClientApply(s, x), t);
    case OfSession(x) => SessionWork(s, x); KeptTable(s, SessionApply(s, x), Recovery);
    case OfWorker(x) => WorkerTable(s, x);
    case OfTail(x) => TailTable(s, x);
  }

  /**
   In every state of every run the table names only jobs that a worker has in
   hand, and all of them unless a worker has removed an entry late, which the
   native store gives no occasion for.
   */
  lemma {:induction false} ActiveMeans(native: bool, limit: nat, states: seq<State>, steps: seq<Step>, i: nat)
    requires IsRun(native, limit, states, steps) && i < |states|
    ensures TableOk(states[i])
    ensures (forall k :: 0 <= k < i ==> !Forgetful(steps[k])) ==> TableWhole(states[i])
    ensures native ==> TableWhole(states[i])
  {
    hide Inv, Apply, Enabled, TableOk, TableWhole, OneSettler;
    if i == 0 {
      EmptyTable(native, limit);
    } else {
      ActiveMeans(native, limit, states, steps, i - 1);
      ReachableInv(native, limit, states, steps, i - 1);
      SettlersUpTo(native, limit, states, steps, i - 1);
      StepTable(states[i - 1], steps[i - 1]);
      if native {
        ModeFixed(native, limit, states, steps, i - 1);
        NativeRemembers(states[i - 1], steps[i - 1]);
      }
    }
  }

  lemma EmptyTable(native: bool, limit: nat)
    ensures TableOk(Initial(native, limit)) && TableWhole(Initial(native, limit))
  {
  }

  lemma NativeRemembers(s: State, step: Step)
    requires s.native && Enabled(s, step)
    ensures !Forgetful(step)
  {
  }
}
