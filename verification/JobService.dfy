/**
 Which running attempts can still be settled.  A goroutine that lost the record
 before it saw an outcome retries or gives up, but it can never free the slot;
 every other attempt is freed by finitely many steps of workers and recovery.
 */
module JobService {
  import opened Options
  import opened Counting
  import opened JobState
  import opened JobSteps
  import opened JobInvariant
  import opened JobEvolution
  import opened JobWorkers
  import opened JobSlots
  import opened JobResponsibility
  import opened JobAdmission
  import opened JobTruth

  // ----- Who knows an outcome -----

  /** The job whose outcome this goroutine will report without looking at the record again. */
  function Knows(pc: Pc): Option<JobId> {
    match pc
    case Loaded(j, seen) => if seen.status.Terminal() then Some(j) else None
    case Deactivating(j, known) => if known.Some? then Some(j) else None
    case Ending(j, known) => if known.Some? then Some(j) else None
    case Closing(j, known) => if known.Some? then Some(j) else None
    case Unpinning(j, _, _) => Some(j)
    case _ => None
  }

  function KnowsAt(s: State, t: ThreadId): Option<JobId> { if t in s.threads then Knows(s.threads[t]) else None }
  ghost predicate Known(s: State, j: JobId) { exists t :: KnowsAt(s, t) == Some(j) }

  /** Somebody knows the outcome, or the record is stored and somebody will look at it. */
  ghost predicate Served(s: State, j: JobId) { Known(s, j) || (j in s.jobs && Responsible(s, j)) }

  ghost predicate SlotsServed(s: State) { forall sid, j: JobId :: Holds(s, sid, j) ==> Served(s, j) }

  /** An attempt begins without a record, or loses the record before anybody saw its outcome. */
  ghost predicate Strands(s: State, step: Step) {
    match step
    case OfWorker(StepTake(t)) =>
      t in s.threads && s.threads[t].Taking? && s.threads[t].session in s.sessions &&
      var session := s.sessions[s.threads[t].session];
      !session.expired && session.running.None? && session.pending.Some? && session.pending.value !in s.jobs
    case OfClient(StepSweep(swept)) => exists j :: j in swept && Owned(s, j) && !Known(s, j)
    case _ => false
  }

  lemma KnowsSettles(pc: Pc)
    requires Knows(pc).Some?
    ensures Settling(pc) == Knows(pc) && Reports(pc)
  {
  }

  lemma KnownResponsible(s: State, j: JobId)
    requires Known(s, j)
    ensures Responsible(s, j)
  {
    var t :| KnowsAt(s, t) == Some(j);
    KnowsSettles(s.threads[t]);
    assert ByThread(s, t, j);
  }

  // ----- Knowledge across one step -----

  /** Outcomes are learnt from stored records only, and kept until the slot is freed. */
  ghost predicate Learns(s: State, s': State, t: ThreadId, frees: bool) {
    SameOff(s.threads, s'.threads, t) &&
    (KnowsAt(s', t).Some? ==> KnowsAt(s', t) == KnowsAt(s, t) || KnowsAt(s', t).value in s.jobs) &&
    (!frees && KnowsAt(s, t).Some? && KnowsAt(s, t).value !in s.jobs ==> KnowsAt(s', t) == KnowsAt(s, t))
  }

  lemma MuteLearns(s: State, s': State, t: ThreadId)
    requires Mute(s, s', t) && (s'.threads == s.threads || !Reporting(s, t))
    ensures Learns(s, s', t, false)
  {
    if KnowsAt(s, t).Some? {
      KnowsSettles(s.threads[t]);
    }
    if KnowsAt(s', t).Some? {
      KnowsSettles(s'.threads[t]);
    }
  }

  lemma MoveLearns(s: State, s': State, t: ThreadId, pc: Pc)
    requires s'.threads == s.threads[t := pc]
    requires Knows(pc).Some? ==> Knows(pc) == KnowsAt(s, t) || Knows(pc).value in s.jobs
    requires KnowsAt(s, t).Some? && KnowsAt(s, t).value !in s.jobs ==> Knows(pc) == KnowsAt(s, t)
    ensures Learns(s, s', t, false)
  {
    hide Knows;
  }

  lemma LoadLearns(s: State, t: ThreadId, ok: bool)
    requires CanLoad(s, t, ok)
    ensures Learns(s, Load(s, t, ok), t, false)
  {
    hide Learns;
    var j := s.threads[t].id;
    if !ok {
      MoveLearns(s, SetThread(s, t, Requeueing(j)), t, Requeueing(j));
    } else if j in s.jobs {
      MoveLearns(s, SetThread(s, t, Loaded(j, s.jobs[j])), t, Loaded(j, s.jobs[j]));
    } else if s.native {
      MoveLearns(s, SetThread(s, t, Requeueing(j)), t, Requeueing(j));
    } else {
      MuteLearns(s, EndThread(s, t), t);
    }
  }

  lemma StartLearns(s: State, t: ThreadId, ok: bool)
    requires Inv(s) && CanStart(s, t, ok)
    ensures Learns(s, Start(s, t, ok), t, false)
  {
    hide Inv, Learns, Cancel, Transition, OwnsAttempt;
    LoadedFacts(s, t);
    var j, seen := s.threads[t].id, s.threads[t].seen;
    if !seen.status.Queued? {
      MoveLearns(s, SetThread(s, t, Ending(j, Some(seen.status))), t, Ending(j, Some(seen.status)));
    } else if !OwnsAttempt(s, j, seen.birth) {
      var moved := SetThread(s, t, Ending(j, None));
      CancelFrame(moved, j, ok);
      MoveLearns(s, Cancel(moved, j, ok), t, Ending(j, None));
    } else if !ok {
      MoveLearns(s, SetThread(s, t, Requeueing(j)), t, Requeueing(j));
    } else if !HasStatus(s, j, Queued) {
      MoveLearns(s, SetThread(s, t, Deactivating(j, None)), t, Deactivating(j, None));
    } else {
      StartsAs(s, t, ok);
      MoveLearns(s, Started(s, t), t, Compiling(j, seen.(status := Running)));
    }
  }

  /** A worker that owns its attempt has its record. */
  lemma OwnerStored(s: State, t: ThreadId)
    requires Inv(s) && t in s.threads
    requires s.threads[t].Finishing? || s.threads[t].Releasing? || s.threads[t].Accounting? || s.threads[t].Confirmed?
    ensures s.threads[t].id in s.jobs
    ensures s.threads[t].Accounting? ==> HasStatus(s, s.threads[t].id, Succeeded) && s.threads[t].job.status.Succeeded?
  {
    hide Tally;
    assert PcOk(s, t, s.threads[t]);
  }

  lemma ReleaseSourceLearns(s: State, t: ThreadId)
    requires Inv(s) && CanReleaseSource(s, t)
    ensures Learns(s, ReleaseSource(s, t), t, false)
  {
    hide Inv, Learns, Release;
    OwnerStored(s, t);
    var pc := s.threads[t];
    if pc.job.status.Succeeded? {
      var next := Accounting(pc.id, pc.job);
      ReleaseUntouched(SetThread(s, t, next), pc.job.birth.snapshot);
      MoveLearns(s, Release(SetThread(s, t, next), pc.job.birth.snapshot), t, next);
    } else {
      var next := Deactivating(pc.id, Some(pc.job.status));
      ReleaseUntouched(SetThread(s, t, next), pc.job.birth.snapshot);
      MoveLearns(s, Release(SetThread(s, t, next), pc.job.birth.snapshot), t, next);
    }
  }

  lemma WorkerLearns(s: State, step: WorkerStep)
    requires Inv(s) && WorkerEnabled(s, step)
    ensures Learns(s, WorkerApply(s, step), step.t, false)
  {
    hide Inv, Learns, Load, Start, ReleaseSource, Account, Take, Finish, Receive, Requeue;
    if SilentWorker(step) {
      WorkerMute(s, step);
      hide WorkerApply, Mute, Reporting;
      MuteLearns(s, WorkerApply(s, step), step.t);
    } else {
      match step
      case StepLoad(t, ok) => LoadLearns(s, t, ok);
      case StepStart(t, ok) => StartLearns(s, t, ok);
      case StepDefer(t) =>
        OwnerStored(s, t);
        MoveLearns(s, Defer(s, t), t, Deactivating(s.threads[t].id, Some(s.threads[t].done.status)));
      case StepReleaseSource(t) => ReleaseSourceLearns(s, t);
      case StepAccount(t, cached, result, w) =>
        OwnerStored(s, t);
        AccountTold(s, t, cached, result, w);
        MoveLearns(s, Account(s, t, cached, result, w), t, Deactivating(s.threads[t].id, Some(Succeeded)));
    }
  }

  lemma CheckLearns(s: State, t: ThreadId)
    requires Inv(s) && CanCheck(s, t)
    ensures Learns(s, Check(s, t), t, false)
  {
    hide Inv, Learns;
    var pc := s.threads[t];
    CompletionsStored(s);
    if pc.id in s.completions {
      MoveLearns(s, SetThread(s, t, Gating(pc.id)), t, Gating(pc.id));
    } else {
      MoveLearns(s, SetThread(s, t, Closing(pc.id, pc.known)), t, Closing(pc.id, pc.known));
    }
  }

  lemma CompletionsStored(s: State)
    requires Inv(s)
    ensures s.completions.Keys <= s.jobs.Keys
  {
    hide Tally;
    forall j | j in s.completions ensures j in s.jobs { assert CompletionOk(s, j); }
  }

  lemma ReloadLearns(s: State, t: ThreadId)
    requires CanReload(s, t)
    ensures Learns(s, Reload(s, t), t, false)
  {
    hide Learns;
    var j := s.threads[t].id;
    if j in s.jobs && s.jobs[j].status.Terminal() {
      MoveLearns(s, SetThread(s, t, Closing(j, Some(s.jobs[j].status))), t, Closing(j, Some(s.jobs[j].status)));
    } else {
      MoveLearns(s, SetThread(s, t, Gating(j)), t, Gating(j));
    }
  }

  lemma FreeSlotLearns(s: State, t: ThreadId)
    requires CanFreeSlot(s, t)
    ensures Learns(s, FreeSlot(s, t), t, true)
  {
    hide FreeSlot;
    FreeSlotOutcome(s, t);
  }

  lemma UnpinLearns(s: State)
    requires CanUnpin(s)
    ensures Learns(s, Unpin(s), Recovery, false)
  {
    hide Learns, Release;
    var pc := s.threads[Recovery];
    var next := Ending(pc.id, Some(pc.status));
    if pc.entry.from.Running? {
      ReleaseUntouched(SetThread(s, Recovery, next), pc.entry.job.birth.snapshot);
      MoveLearns(s, Release(SetThread(s, Recovery, next), pc.entry.job.birth.snapshot), Recovery, next);
    } else {
      MoveLearns(s, SetThread(s, Recovery, next), Recovery, next);
    }
  }

  lemma TailLearns(s: State, step: TailStep) returns (t: ThreadId)
    requires Inv(s) && TailEnabled(s, step)
    ensures Learns(s, TailApply(s, step), t, step.StepFreeSlot?)
    ensures step.StepFreeSlot? ==> t == step.t
  {
    hide Inv, Learns, Check, Reload, FreeSlot, CloseGate, Retry, Unpin;
    match step
    case StepDeactivate(u) =>
      t := u;
      MoveLearns(s, Deactivate(s, t), t, Ending(s.threads[t].id, s.threads[t].known));
    case StepCheck(u) => t := u; CheckLearns(s, t);
    case StepReload(u) => t := u; ReloadLearns(s, t);
    case StepFreeSlot(u) => t := u; FreeSlotLearns(s, t);
    case StepEndGate(u) =>
      t := u;
      EndGateMute(EndThread(s, t), s.threads[t].id);
      MuteLearns(s, EndGate(s, t), t);
    case StepRetry(j, w) =>
      t := Recovery;
      RetryMute(s, j, w);
      MuteLearns(s, Retry(s, j, w), t);
    case StepDrop =>
      t := Recovery;
      OwnerStored(s, t);
      var pc := s.threads[t];
      MoveLearns(s, Drop(s), t, Unpinning(pc.id, pc.entry, pc.status));
    case StepUnpin => t := Recovery; UnpinLearns(s);
    case StepForget(j) => t := Recovery; MuteLearns(s, Forget(s, j), t);
  }

  predicate Frees(step: Step) { step.OfTail? && step.stepTail.StepFreeSlot? }

  lemma StepLearns(s: State, step: Step) returns (t: ThreadId)
    requires Inv(s) && Enabled(s, step)
    ensures Learns(s, Apply(s, step), t, Frees(step))
    ensures Frees(step) ==> t == step.stepTail.t
  {
    hide Inv, Learns, Mute, Reporting, ClientApply, SessionApply, WorkerApply, TailApply;
    match step
    case OfClient(x) =>
      t := ClientMute(s, x);
      MuteLearns(s, ClientApply(s, x), t);
    case OfSession(x) =>
      t := Recovery;
      SessionMute(s, x);
      SameThreadsMute(s, SessionApply(s, x));
      MuteLearns(s, SessionApply(s, x), t);
    case OfWorker(x) => t := x.t; WorkerLearns(s, x);
    case OfTail(x) => t := TailLearns(s, x);
  }

  /** Without a record, nobody newly knows the outcome. */
  lemma NothingLearnt(s: State, s': State, t: ThreadId, j: JobId, frees: bool)
    requires Learns(s, s', t, frees) && j !in s.jobs && Known(s', j)
    ensures Known(s, j)
  {
    hide Knows;
    var u :| KnowsAt(s', u) == Some(j);
    assert KnowsAt(s, u) == Some(j);
  }

  /** The outcome stays known until the slot is freed by the one who knows it. */
  lemma StillKnown(s: State, s': State, t: ThreadId, j: JobId, frees: bool)
    requires Learns(s, s', t, frees) && j !in s.jobs && Known(s, j)
    ensures Known(s', j) || (frees && KnowsAt(s, t) == Some(j))
  {
    hide Knows;
    var u :| KnowsAt(s, u) == Some(j);
    assert KnowsAt(s', u) == Some(j) || (frees && u == t);
  }

  // ----- Records across one step -----

  /** Only the retention sweep removes records. */
  lemma StepKeepsRecords(s: State, step: Step)
    requires Enabled(s, step) && !(step.OfClient? && step.stepClient.StepSweep?)
    ensures s.jobs.Keys <= Apply(s, step).jobs.Keys
  {
    hide ClientApply, SessionApply, WorkerApply, TailApply;
    match step
    case OfClient(x) => ClientKeepsRecords(s, x);
    case OfSession(x) => SessionKeepsRecords(s, x);
    case OfWorker(x) => WorkerKeepsRecords(s, x);
    case OfTail(x) => TailKeepsRecords(s, x);
  }

  lemma TransitionRecords(s: State, j: JobId, expected: Status, next: Job)
    ensures Transition(s, j, expected, next).jobs.Keys == s.jobs.Keys
  {
    if HasStatus(s, j, expected) {
    } else {
    }
  }

  lemma ClientKeepsRecords(s: State, step: ClientStep)
    requires ClientEnabled(s, step) && !step.StepSweep?
    ensures s.jobs.Keys <= ClientApply(s, step).jobs.Keys
  {
    hide Release, Cancel, Transition, Admit;
    match step
    case StepPinSource(t, x) =>
    case StepAdmit(t, j, ok) => AdmitOutcome(s, t, j, ok);
    case StepReject(t) => ReleaseUntouched(EndThread(s, t), s.threads[t].snapshot);
    case StepWithdraw(t, ok) => CancelFrame(EndThread(s, t), s.threads[t].id, ok);
    case StepUserCancel(j) =>
      CancelFrame(s, j, true);
      TransitionRecords(s, j, Running, Cancelling(s.jobs[j]));
  }

  lemma SessionKeepsRecords(s: State, step: SessionStep)
    requires SessionEnabled(s, step)
    ensures s.jobs.Keys <= SessionApply(s, step).jobs.Keys
  {
    hide Release, Cancel, Schedule, Close, Supersede, Accept;
    match step
    case StepOpen(sid) =>
    case StepExpire(sid) =>
    case StepPrepare(sid, x) =>
    case StepRefuse => ReleaseUntouched(s.(admission := Free), s.admission.snapshot);
    case StepSaveRevision(j) =>
    case StepSupersede(ok) => SupersedeRecords(s, ok);
    case StepAccept => AcceptUntouched(s);
    case StepFailPin =>
    case StepAbort(ok) => CancelFrame(s.(admission := Free), s.admission.id, ok);
    case StepReschedule(sid) => ScheduleUntouched(s, sid);
    case StepClose(sid, okPending, okRunning) => CloseRecords(s, sid, okPending, okRunning);
  }

  lemma SupersedeRecords(s: State, ok: bool)
    requires CanSupersede(s, ok)
    ensures Supersede(s, ok).jobs.Keys == s.jobs.Keys
  {
    hide Cancel;
    var pending := s.sessions[s.admission.session].pending;
    if pending.None? {
    } else if !CancelSucceeds(s, pending.value, ok) {
    } else {
      CancelFrame(s, pending.value, ok);
    }
  }

  lemma CloseRecords(s: State, sid: SessionId, okPending: bool, okRunning: bool)
    requires CanClose(s, sid, okPending, okRunning)
    ensures Close(s, sid, okPending, okRunning).jobs.Keys == s.jobs.Keys
  {
    hide Cancel, CancelRunning, Remove;
    if s.sessions[sid].pending.Some? {
      CancelFrame(s, s.sessions[sid].pending.value, true);
    } else {
    }
    var s1 := CancelPending(s, sid);
    var running := s.sessions[sid].running;
    if running.Some? && Interruptible(s, running.value) && !okRunning {
    } else {
      CancelRunningFrame(s1, sid);
      CancelRunningRecords(s1, sid);
      RemoveRecords(CancelRunning(s1, sid), sid);
    }
  }

  lemma CancelRunningRecords(s: State, sid: SessionId)
    requires sid in s.sessions
    ensures CancelRunning(s, sid).jobs.Keys == s.jobs.Keys
  {
    hide Transition;
    var running := s.sessions[sid].running;
    if running.Some? && Interruptible(s, running.value) && HasStatus(s, running.value, Running) {
      TransitionRecords(s, running.value, Running, Cancelling(s.jobs[running.value]));
    } else {
    }
  }

  lemma RemoveRecords(s: State, sid: SessionId)
    requires sid in s.sessions
    ensures Remove(s, sid).jobs == s.jobs
  {
    hide Release;
    if s.sessions[sid].snapshot.Some? {
      ReleaseUntouched(s.(sessions := s.sessions - {sid}), s.sessions[sid].snapshot.value);
    } else {
    }
  }

  lemma WorkerKeepsRecords(s: State, step: WorkerStep)
    requires WorkerEnabled(s, step)
    ensures s.jobs.Keys <= WorkerApply(s, step).jobs.Keys
  {
    hide Take, Load, Start, Finish, ReleaseSource, Account;
    match step
    case StepReceive(t) =>
    case StepTake(t) => TakeUntouched(s, t);
    case StepLoad(t, ok) => LoadUntouched(s, t, ok);
    case StepRequeue(t) =>
    case StepStart(t, ok) => StartRecords(s, t, ok);
    case StepCompile(t, outcome, result) =>
    case StepFinish(t, w) => FinishRecords(s, t, w);
    case StepDefer(t) =>
    case StepReleaseSource(t) => ReleaseSourceUntouched(s, t);
    case StepAccount(t, cached, result, w) => AccountRecords(s, t, cached, result, w);
  }

  lemma StartRecords(s: State, t: ThreadId, ok: bool)
    requires CanStart(s, t, ok)
    ensures s.jobs.Keys <= Start(s, t, ok).jobs.Keys
  {
    hide Cancel, Transition, OwnsAttempt;
    var j, seen := s.threads[t].id, s.threads[t].seen;
    if !seen.status.Queued? {
    } else if !OwnsAttempt(s, j, seen.birth) {
      CancelFrame(SetThread(s, t, Ending(j, None)), j, ok);
    } else if !ok {
    } else if !HasStatus(s, j, Queued) {
    } else {
      TransitionRecords(s, j, Queued, seen.(status := Running));
    }
  }

  lemma FinishRecords(s: State, t: ThreadId, w: Write)
    requires CanFinish(s, t, w)
    ensures s.jobs.Keys <= Finish(s, t, w).jobs.Keys
  {
    hide Transition;
    var j, done := s.threads[t].id, s.threads[t].done;
    TransitionRecords(s, j, Running, done);
    if w.Lost? {
    } else if HasStatus(s, j, Running) {
    } else if j in s.jobs && s.jobs[j].status.Terminal() {
    } else {
    }
  }

  lemma AccountRecords(s: State, t: ThreadId, cached: bool, result: nat, w: Write)
    requires CanAccount(s, t, w)
    ensures s.jobs.Keys <= Account(s, t, cached, result, w).jobs.Keys
  {
    hide Transition;
    var j, job := s.threads[t].id, s.threads[t].job;
    TransitionRecords(SetThread(s, t, Deactivating(j, Some(Succeeded))), j, Succeeded, job.(result := result));
    if !cached {
    } else if w.Lost? {
    } else if w.Applied? {
    } else {
    }
  }

  lemma TailKeepsRecords(s: State, step: TailStep)
    requires TailEnabled(s, step)
    ensures s.jobs.Keys <= TailApply(s, step).jobs.Keys
  {
    hide FreeSlot, CloseGate, Retry, Unpin;
    match step
    case StepDeactivate(t) =>
    case StepCheck(t) =>
    case StepReload(t) =>
    case StepFreeSlot(t) => FreeSlotUntouched(s, t);
    case StepEndGate(t) => CloseGateRecords(EndThread(s, t), s.threads[t].id);
    case StepRetry(j, w) => RetryRecords(s, j, w);
    case StepDrop =>
    case StepUnpin => UnpinUntouched(s);
    case StepForget(j) =>
  }

  lemma CloseGateRecords(s: State, j: JobId)
    ensures CloseGate(s, j).jobs == s.jobs
  {
    if j in s.completions || j !in s.gates {
    } else {
    }
  }

  lemma RetryRecords(s: State, j: JobId, w: Write)
    requires CanRetry(s, j, w)
    ensures s.jobs.Keys <= Retry(s, j, w).jobs.Keys
  {
    hide Transition;
    var entry := s.completions[j];
    TransitionRecords(s, j, entry.from, entry.job);
    if w.Lost? {
    } else if HasStatus(s, j, entry.from) {
    } else if j in s.jobs && s.jobs[j].status.Terminal() {
    } else {
    }
  }

  // ----- Attempts stay served -----

  lemma HoldsBorn(s: State, sid: SessionId, j: JobId)
    requires Inv(s) && Holds(s, sid, j)
    ensures j in s.born && Owned(s, j) && Awaits(s, sid, j) && !Waiting(s, j)
  {
    hide Inv;
    RunningNotWaiting(s, sid, j);
  }

  /** While every attempt is served, no goroutine is about to forget one. */
  lemma ServedNeverForgets(s: State, step: Step)
    requires Inv(s) && SlotsServed(s) && Lone(s) && Enabled(s, step)
    ensures !Forgets(s, step)
  {
    hide Inv, Lone, SlotsServed;
    if Forgets(s, step) {
      match step
      case OfWorker(StepLoad(t, ok)) => LoadingUnserved(s, t); ServedMeans(s, s.threads[t].id);
      case OfTail(StepReload(t)) => ReloadingUnserved(s, t); ServedMeans(s, s.threads[t].id);
      case _ =>
    }
  }

  lemma ServedMeans(s: State, j: JobId)
    requires SlotsServed(s) && Owned(s, j)
    ensures Served(s, j)
  {
    hide Served;
  }

  lemma LoadingUnserved(s: State, t: ThreadId)
    requires Inv(s) && t in s.threads && s.threads[t].Loading? && s.threads[t].id !in s.jobs
    ensures !Served(s, s.threads[t].id)
  {
    hide Inv, Responsible;
    DriverAlone(s, t, s.threads[t].id);
    forall u ensures KnowsAt(s, u) != Some(s.threads[t].id) {
    }
  }

  lemma ReloadingUnserved(s: State, t: ThreadId)
    requires Lone(s) && CanReload(s, t) && s.threads[t].id !in s.jobs
    ensures !Served(s, s.threads[t].id)
  {
    hide Responsible;
    var j := s.threads[t].id;
    assert UnknownBy(s, t) == Some(j);
    forall u ensures KnowsAt(s, u) != Some(j) {
      assert ByThread(s, u, j) ==> u == t;
      if KnowsAt(s, u).Some? {
        KnowsSettles(s.threads[u]);
      }
    }
  }

  /** A running attempt was running before, unless its token has just been taken. */
  lemma HeldBefore(s: State, step: Step, sid: SessionId, j: JobId)
    requires Inv(s) && Enabled(s, step) && Holds(Apply(s, step), sid, j)
    ensures Holds(s, sid, j) || Begins(s, step, sid, j)
    ensures Begins(s, step, sid, j) ==> Apply(s, step).jobs == s.jobs
  {
    hide Inv, Take, FreeSlot, SlotsKept;
    match step
    case OfWorker(StepTake(t)) =>
      TakeSlots(s, t);
    case OfTail(StepFreeSlot(t)) =>
      FreeSlotOutcome(s, t);
    case _ =>
      StepKeepsSlots(s, step);
      hide Apply, Enabled;
      KeptHeld(s, Apply(s, step), sid, j);
  }

  lemma KeptHeld(s: State, s': State, sid: SessionId, j: JobId)
    requires SlotsKept(s, s') && Holds(s', sid, j)
    ensures Holds(s, sid, j)
  {
  }

  /** A token is taken, and the session's pending job becomes its running one. */
  predicate Begins(s: State, step: Step, sid: SessionId, j: JobId) {
    match step
    case OfWorker(StepTake(t)) =>
      t in s.threads && s.threads[t] == Taking(sid) && sid in s.sessions && !s.sessions[sid].expired &&
      s.sessions[sid].running.None? && s.sessions[sid].pending == Some(j)
    case _ => false
  }

  lemma BeginsStranded(s: State, step: Step, sid: SessionId, j: JobId)
    requires Begins(s, step, sid, j) && j !in s.jobs
    ensures Strands(s, step)
  {
  }

  lemma SweptStranded(s: State, step: Step, j: JobId)
    requires Enabled(s, step) && j in s.jobs && j !in Apply(s, step).jobs && Owned(s, j) && !Strands(s, step)
    ensures Known(s, j) && Known(Apply(s, step), j)
  {
    hide Known;
    StepsButSweep(s, step, j);
    match step
    case OfClient(StepSweep(swept)) =>
      assert j in swept;
      SameKnown(s, Sweep(s, swept), j);
    case _ =>
  }

  lemma StepsButSweep(s: State, step: Step, j: JobId)
    requires Enabled(s, step) && j in s.jobs && j !in Apply(s, step).jobs
    ensures step.OfClient? && step.stepClient.StepSweep?
  {
    hide Enabled, Apply;
    if !(step.OfClient? && step.stepClient.StepSweep?) {
      StepKeepsRecords(s, step);
    }
  }

  lemma SameKnown(s: State, s': State, j: JobId)
    requires s'.threads == s.threads
    ensures Known(s', j) <==> Known(s, j)
  {
    hide Knows;
    if t :| KnowsAt(s, t) == Some(j) {
      assert KnowsAt(s', t) == Some(j);
    }
    if t :| KnowsAt(s', t) == Some(j) {
      assert KnowsAt(s, t) == Some(j);
    }
  }

  /** Whoever frees the slot of an attempt he knows has freed it. */
  lemma FreedByKnower(s: State, step: Step, t: ThreadId, sid: SessionId, j: JobId)
    requires Inv(s) && Enabled(s, step) && Frees(step) && t == step.stepTail.t && KnowsAt(s, t) == Some(j) && Holds(s, sid, j)
    ensures !Holds(Apply(s, step), sid, j)
  {
    hide Inv, FreeSlot;
    HoldsBorn(s, sid, j);
    match step
    case OfTail(StepFreeSlot(u)) => FreeSlotOutcome(s, u);
  }

  lemma StaysServed(s: State, step: Step, sid: SessionId, j: JobId)
    requires Inv(s) && Enabled(s, step) && SlotsServed(s) && !Strands(s, step)
    requires SlotsHeld(Apply(s, step)) && Holds(Apply(s, step), sid, j)
    ensures Served(Apply(s, step), j)
  {
    hide Inv, Enabled, Apply, Strands, Begins, Known, Responsible, Holds, SlotsServed, SlotsHeld, Learns;
    var s' := Apply(s, step);
    if j in s'.jobs {
      HeldMeans(s', sid, j);
    } else {
      HeldBefore(s, step, sid, j);
      if !Holds(s, sid, j) {
        BeginsStranded(s, step, sid, j);
      } else {
        HoldsBorn(s, sid, j);
        ServedMeans(s, j);
        if j in s.jobs {
          SweptStranded(s, step, j);
        } else {
          var t := StepLearns(s, step);
          StillKnown(s, s', t, j, Frees(step));
          if !Known(s', j) {
            FreedByKnower(s, step, t, sid, j);
          }
        }
      }
    }
  }

  lemma HeldMeans(s: State, sid: SessionId, j: JobId)
    requires SlotsHeld(s) && Holds(s, sid, j)
    ensures Responsible(s, j)
  {
    hide Responsible, Holds;
  }

  /** Nobody knows the outcome of a job that is still pending. */
  lemma PendingUnknown(s: State, sid: SessionId, j: JobId)
    requires Inv(s) && sid in s.sessions && s.sessions[sid].pending == Some(j)
    ensures !Known(s, j)
  {
    hide Tally;
    PendingClaim(s, sid, j);
    forall u ensures KnowsAt(s, u) != Some(j) {
      if u in s.threads {
        assert PcOk(s, u, s.threads[u]);
      }
    }
  }

  lemma StrandsIndeed(s: State, step: Step)
    requires Inv(s) && Enabled(s, step) && Strands(s, step)
    ensures !SlotsServed(Apply(s, step))
  {
    hide Inv, Known, Learns;
    match step
    case OfWorker(StepTake(t)) => TakeStrands(s, t);
    case OfClient(StepSweep(swept)) =>
      var j :| j in swept && Owned(s, j) && !Known(s, j);
      SameKnown(s, Sweep(s, swept), j);
      SweepStrands(s, Sweep(s, swept), j);
    case _ =>
  }

  lemma SweepStrands(s: State, s': State, j: JobId)
    requires Owned(s, j) && s'.sessions == s.sessions && j !in s'.jobs && !Known(s', j)
    ensures !SlotsServed(s')
  {
    hide Known;
    assert Holds(s', s.born[j].session.value, j);
  }

  lemma TakeStrands(s: State, t: ThreadId)
    requires Inv(s) && CanTake(s, t) && Strands(s, OfWorker(StepTake(t)))
    ensures !SlotsServed(Take(s, t))
  {
    hide Inv, Known, Learns, Take;
    var sid := s.threads[t].session;
    var j := s.sessions[sid].pending.value;
    TakeSlots(s, t);
    PendingUnknown(s, sid, j);
    WorkerLearns(s, StepTake(t));
    if Known(Take(s, t), j) {
      NothingLearnt(s, Take(s, t), t, j, false);
    }
    assert Holds(Take(s, t), sid, j);
  }

  /** A step keeps every attempt served exactly when it does not strand one. */
  lemma ServedStep(s: State, step: Step)
    requires Inv(s) && SlotsServed(s) && Lone(s) && Enabled(s, step) && Inv(Apply(s, step))
    ensures SlotsServed(Apply(s, step)) <==> !Strands(s, step)
    ensures Lone(Apply(s, step))
  {
    hide Inv, SlotsServed, Lone, Apply, Enabled, SlotsHeld, Forgets, Strands;
    ServedNeverForgets(s, step);
    ServedHeld(s);
    SlotStep(s, step);
    if Strands(s, step) {
      StrandsIndeed(s, step);
    } else {
      forall sid, j: JobId | Holds(Apply(s, step), sid, j) ensures Served(Apply(s, step), j) {
        StaysServed(s, step, sid, j);
      }
      ServedAll(Apply(s, step));
    }
  }

  lemma ServedAll(s: State)
    requires forall sid, j: JobId :: Holds(s, sid, j) ==> Served(s, j)
    ensures SlotsServed(s)
  {
    hide Holds, Served;
  }

  lemma ServedHeld(s: State)
    requires SlotsServed(s)
    ensures SlotsHeld(s)
  {
    hide Known, Responsible, Holds;
    forall sid, j: JobId | Holds(s, sid, j) ensures Responsible(s, j) {
      assert Served(s, j);
      if Known(s, j) {
        KnownResponsible(s, j);
      }
    }
  }

  // ----- A stranded attempt stays stranded -----

  /** Once nobody can settle a running attempt, only closing or expiry ends the wait, in both modes. */
  lemma StrandedForever(s: State, step: Step, sid: SessionId, j: JobId)
    requires Inv(s) && Enabled(s, step) && Holds(s, sid, j) && !Served(s, j)
    ensures var s' := Apply(s, step); sid !in s'.sessions || s'.sessions[sid].expired || (Holds(s', sid, j) && !Served(s', j))
  {
    hide Inv, Enabled, Apply, Known, Responsible, LostSlot, Learns;
    var s' := Apply(s, step);
    if j in s.jobs {
      LostAs(s, sid, j);
      LostForever(s, step, sid, j);
      if LostSlot(s', sid, j) {
        LostUnserved(s', sid, j);
      }
    } else {
      HoldsBorn(s, sid, j);
      StepEvolves(s, step);
      NeverReborn(s, s', j);
      var t := StepLearns(s, step);
      if Known(s', j) {
        NothingLearnt(s, s', t, j, Frees(step));
      }
      StaysHeld(s, step, sid, j);
    }
  }

  lemma LostAs(s: State, sid: SessionId, j: JobId)
    requires Holds(s, sid, j) && !Responsible(s, j)
    ensures LostSlot(s, sid, j)
  {
  }

  lemma LostUnserved(s: State, sid: SessionId, j: JobId)
    requires LostSlot(s, sid, j)
    ensures Holds(s, sid, j) && !Served(s, j)
  {
    hide Known, Responsible;
    if Known(s, j) {
      KnownResponsible(s, j);
    }
  }

  lemma NeverReborn(s: State, s': State, j: JobId)
    requires Evolves(s, s') && j in s.born && j !in s.jobs
    ensures j !in s'.jobs
  {
    assert JobEvolves(s, s', j);
  }

  /** Only a goroutine that knows the outcome frees the slot. */
  lemma StaysHeld(s: State, step: Step, sid: SessionId, j: JobId)
    requires Inv(s) && Enabled(s, step) && Holds(s, sid, j) && !Known(s, j)
    ensures var s' := Apply(s, step); sid !in s'.sessions || s'.sessions[sid].expired || Holds(s', sid, j)
  {
    hide Inv, Take, FreeSlot, SlotsKept, Known;
    HoldsBorn(s, sid, j);
    match step
    case OfWorker(StepTake(t)) => TakeSlots(s, t);
    case OfTail(StepFreeSlot(t)) =>
      FreeSlotOutcome(s, t);
      if s.threads[t].id == j {
        KnownAt(s, t, j);
      }
    case _ =>
      StepKeepsSlots(s, step);
      hide Apply, Enabled;
      SlotStays(s, Apply(s, step), sid, j);
  }

  lemma KnownAt(s: State, t: ThreadId, j: JobId)
    requires KnowsAt(s, t) == Some(j)
    ensures Known(s, j)
  {
  }

  lemma SlotStays(s: State, s': State, sid: SessionId, j: JobId)
    requires SlotsKept(s, s') && Holds(s, sid, j)
    ensures sid !in s'.sessions || s'.sessions[sid].expired || Holds(s', sid, j)
  {
  }
}
