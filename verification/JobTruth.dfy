/**
 What an ending attempt reports to its session.  The worker reports the status
 it computed; that is the stored status exactly as long as no deferred outcome
 is cancelled, and none is deferred over a cancelled record, before the worker
 has ended its attempt.
 */
module JobTruth {
  import opened Options
  import opened Counting
  import opened JobState
  import opened JobSteps
  import opened JobInvariant
  import opened JobEvolution
  import opened JobWorkers
  import opened JobResponsibility
  import opened JobAdmission

  predicate Agrees(s: State, j: JobId, status: Status) { j in s.jobs ==> s.jobs[j].status == status }

  /** The stored status is the believed one, or a deferred write will make it so. */
  predicate Believable(s: State, j: JobId, status: Status) {
    j in s.jobs ==>
      s.jobs[j].status == status ||
      (s.jobs[j].status.Running? && j in s.completions && s.completions[j].job.status == status)
  }

  predicate Told(s: State, pc: Pc) {
    match pc
    case Loaded(j, seen) => seen.status.Cancelled? ==> Agrees(s, j, Cancelled)
    case Deactivating(j, known) => known.Some? ==> Believable(s, j, known.value)
    case Ending(j, known) => known.Some? ==> Believable(s, j, known.value)
    case Closing(j, known) => known.Some? ==> Agrees(s, j, known.value)
    case Unpinning(j, _, status) => Agrees(s, j, status)
    case _ => true
  }

  predicate Reports(pc: Pc) { pc.Loaded? || pc.Deactivating? || pc.Ending? || pc.Closing? || pc.Unpinning? }

  predicate Truthful(s: State) { forall t :: t in s.threads ==> Told(s, s.threads[t]) }

  predicate Ends(s: State, t: ThreadId) { t in s.threads && (s.threads[t].Deactivating? || s.threads[t].Ending?) }

  /** A worker that has not yet looked whether its completion is pending, and what it will report. */
  predicate Believes(s: State, t: ThreadId, j: JobId) {
    t in s.threads && (s.threads[t].Deactivating? || s.threads[t].Ending?) && s.threads[t].id == j && s.threads[t].known.Some?
  }

  /** A deferred outcome is cancelled while its worker still believes it. */
  ghost predicate Snatches(s: State, s': State) {
    exists t, j :: Believes(s, t, j) && j in s.completions && HasStatus(s, j, Running) && HasStatus(s', j, Cancelled)
  }

  /** An outcome is deferred although the record already has another one. */
  predicate DefersOver(s: State, step: Step) {
    match step
    case OfWorker(StepDefer(t)) =>
      t in s.threads && s.threads[t].Finishing? && s.threads[t].id in s.jobs &&
      !s.jobs[s.threads[t].id].status.Running? && s.jobs[s.threads[t].id].status != s.threads[t].done.status
    case _ => false
  }

  // ----- The goroutines that do not move -----

  ghost predicate EntriesKept(s: State, s': State) {
    forall j :: j in s.completions ==>
      (j in s'.completions && s'.completions[j] == s.completions[j]) || (j in s.jobs && s.jobs[j].status.Terminal())
  }

  lemma StillBelievable(s: State, s': State, j: JobId, status: Status)
    requires Evolves(s, s') && EntriesKept(s, s') && j in s.born && status.Terminal()
    requires Believable(s, j, status)
    requires !(j in s.completions && HasStatus(s, j, Running) && HasStatus(s', j, Cancelled))
    ensures Believable(s', j, status)
  {
    assert JobEvolves(s, s', j);
  }

  lemma StillAgrees(s: State, s': State, j: JobId, status: Status)
    requires Evolves(s, s') && j in s.born && status.Terminal() && Agrees(s, j, status)
    ensures Agrees(s', j, status)
  {
    assert JobEvolves(s, s', j);
  }

  /** A reporting program counter names a saved job, and the status it knows is terminal. */
  lemma TerminalKnown(s: State, t: ThreadId)
    requires Inv(s) && t in s.threads
    ensures Reports(s.threads[t]) ==> s.threads[t].id in s.born
    ensures (s.threads[t].Deactivating? || s.threads[t].Ending? || s.threads[t].Closing?) && s.threads[t].known.Some? ==>
              s.threads[t].known.value.Terminal()
    ensures s.threads[t].Unpinning? ==> s.threads[t].status.Terminal()
  {
    hide Tally;
    assert PcOk(s, t, s.threads[t]);
  }

  lemma StillTold(s: State, s': State, t: ThreadId)
    requires Inv(s) && Evolves(s, s') && EntriesKept(s, s') && t in s.threads && Told(s, s.threads[t]) && !Snatches(s, s')
    ensures Told(s', s.threads[t])
  {
    hide Inv, Evolves, EntriesKept, Agrees, Believable;
    TerminalKnown(s, t);
    match s.threads[t]
    case Loaded(j, seen) => if seen.status.Cancelled? { StillAgrees(s, s', j, Cancelled); }
    case Deactivating(_, known) => if known.Some? { BeliefStays(s, s', t); }
    case Ending(_, known) => if known.Some? { BeliefStays(s, s', t); }
    case Closing(j, known) => if known.Some? { StillAgrees(s, s', j, known.value); }
    case Unpinning(j, _, status) => StillAgrees(s, s', j, status);
    case _ =>
  }

  lemma BeliefStays(s: State, s': State, t: ThreadId)
    requires Evolves(s, s') && EntriesKept(s, s') && !Snatches(s, s') && t in s.threads
    requires Ends(s, t) && Believes(s, t, s.threads[t].id) && s.threads[t].id in s.born && s.threads[t].known.value.Terminal()
    requires Believable(s, s.threads[t].id, s.threads[t].known.value)
    ensures Believable(s', s.threads[t].id, s.threads[t].known.value)
  {
    hide Evolves, EntriesKept, Believable;
    StillBelievable(s, s', s.threads[t].id, s.threads[t].known.value);
  }

  // ----- The goroutine that moves -----

  predicate Reporting(s: State, t: ThreadId) { t in s.threads && Reports(s.threads[t]) }

  /** Only t moves, and it does not arrive where a status is reported. */
  predicate Mute(s: State, s': State, t: ThreadId) {
    s'.threads == s.threads || s'.threads == s.threads - {t} ||
    (t in s'.threads && s'.threads == s.threads[t := s'.threads[t]] && !Reports(s'.threads[t]))
  }

  lemma ClientMute(s: State, step: ClientStep) returns (t: ThreadId)
    requires ClientEnabled(s, step)
    ensures Mute(s, ClientApply(s, step), t) && ClientApply(s, step).completions == s.completions
    ensures ClientApply(s, step).threads == s.threads || !Reporting(s, t)
  {
    hide Release, Cancel, Transition, Admit;
    match step
    case StepPinSource(c, x) => t := c;
    case StepAdmit(c, j, ok) => t := c; AdmitMute(s, c, j, ok);
    case StepReject(c) => t := c; ReleaseUntouched(EndThread(s, t), s.threads[t].snapshot);
    case StepWithdraw(c, ok) => t := c; CancelFrame(EndThread(s, t), s.threads[t].id, ok);
    case StepUserCancel(j) =>
      t := Recovery;
      CancelFrame(s, j, true);
      TransitionFrame(s, j, Running, Cancelling(s.jobs[j]));
    case StepSweep(swept) => t := Recovery;
  }

  lemma AdmitMute(s: State, t: ThreadId, j: JobId, ok: bool)
    requires CanAdmit(s, t, j, ok)
    ensures Mute(s, Admit(s, t, j, ok), t) && Admit(s, t, j, ok).completions == s.completions
  {
    if PendingCount(s) >= s.limit || !ok {
    } else if HasRoom(s) {
    } else {
    }
  }

  lemma SessionMute(s: State, step: SessionStep)
    requires SessionEnabled(s, step)
    ensures SessionApply(s, step).threads == s.threads && SessionApply(s, step).completions == s.completions
  {
    hide Release, Cancel, Advance, Schedule, Close, Supersede;
    match step
    case StepOpen(sid) =>
    case StepExpire(sid) =>
    case StepPrepare(sid, x) =>
    case StepRefuse => ReleaseUntouched(s.(admission := Free), s.admission.snapshot);
    case StepSaveRevision(j) =>
    case StepSupersede(ok) => SupersedeMute(s, ok);
    case StepAccept => AcceptFrame(s); ScheduleKept(Advance(s), s.admission.session);
    case StepFailPin =>
    case StepAbort(ok) => CancelFrame(s.(admission := Free), s.admission.id, ok);
    case StepReschedule(sid) => ScheduleKept(s, sid);
    case StepClose(sid, okPending, okRunning) => CloseFrame(s, sid, okPending, okRunning);
  }

  lemma SupersedeMute(s: State, ok: bool)
    requires CanSupersede(s, ok)
    ensures Supersede(s, ok).threads == s.threads && Supersede(s, ok).completions == s.completions
  {
    hide Cancel;
    var pending := s.sessions[s.admission.session].pending;
    if pending.None? {
    } else if !CancelSucceeds(s, pending.value, ok) {
    } else {
      CancelFrame(s, pending.value, ok);
    }
  }

  /** Workers that arrive where no status is reported. */
  predicate SilentWorker(step: WorkerStep) {
    step.StepReceive? || step.StepTake? || step.StepRequeue? || step.StepCompile? || step.StepFinish?
  }

  lemma WorkerMute(s: State, step: WorkerStep)
    requires WorkerEnabled(s, step) && SilentWorker(step)
    ensures Mute(s, WorkerApply(s, step), step.t) && WorkerApply(s, step).completions == s.completions
    ensures !Reporting(s, step.t)
  {
    hide Take, Finish;
    match step
    case StepReceive(t) =>
    case StepTake(t) => TakeMute(s, t);
    case StepRequeue(t) =>
    case StepCompile(t, outcome, result) =>
    case StepFinish(t, w) => FinishMute(s, t, w);
  }

  lemma TakeMute(s: State, t: ThreadId)
    requires CanTake(s, t)
    ensures Mute(s, Take(s, t), t) && Take(s, t).completions == s.completions
  {
    var sid := s.threads[t].session;
    if sid !in s.sessions {
      assert Take(s, t) == EndThread(s, t);
    } else {
      var session := s.sessions[sid];
      if session.running.Some? || session.pending.None? {
        assert Take(s, t) == EndThread(s.(sessions := s.sessions[sid := session.(scheduled := false)]), t);
      } else {
        assert !Reports(Loading(session.pending.value));
      }
    }
  }

  lemma FinishMute(s: State, t: ThreadId, w: Write)
    requires CanFinish(s, t, w)
    ensures Mute(s, Finish(s, t, w), t) && Finish(s, t, w).completions == s.completions
  {
    hide Transition;
    var j, done := s.threads[t].id, s.threads[t].done;
    TransitionFrame(s, j, Running, done);
    if w.Lost? {
    } else if HasStatus(s, j, Running) {
      if w.Applied? {
      } else {
      }
    } else if j in s.jobs && s.jobs[j].status.Terminal() {
    } else {
    }
  }

  lemma TailMute(s: State, step: TailStep) returns (t: ThreadId)
    requires TailEnabled(s, step) && (step.StepFreeSlot? || step.StepEndGate? || step.StepRetry?)
    ensures Mute(s, TailApply(s, step), t) && TailApply(s, step).completions == s.completions
    ensures !Ends(s, t)
  {
    hide CloseGate, FreeSlot, Retry;
    match step
    case StepFreeSlot(u) => t := u; FreeSlotMute(s, t);
    case StepEndGate(u) => t := u; EndGateMute(EndThread(s, t), s.threads[t].id);
    case StepRetry(j, w) => t := Recovery; RetryMute(s, j, w);
  }

  lemma EndGateMute(s: State, j: JobId)
    ensures CloseGate(s, j).threads == s.threads && CloseGate(s, j).completions == s.completions
  {
    if j in s.completions || j !in s.gates {
    } else {
    }
  }

  lemma FreeSlotMute(s: State, t: ThreadId)
    requires CanFreeSlot(s, t)
    ensures Mute(s, FreeSlot(s, t), t) && FreeSlot(s, t).completions == s.completions
  {
    hide Schedule;
    var j, status := s.threads[t].id, s.threads[t].known.value;
    var moved := SetThread(s, t, Gating(j));
    var birth := s.born[j];
    if birth.session.None? || birth.session.value !in s.sessions ||
       s.sessions[birth.session.value].running != Some(j) {
    } else {
      var sid := birth.session.value;
      ScheduleKept(moved.(sessions := s.sessions[sid := Freed(s.sessions[sid], j, status, birth.revision)]), sid);
    }
  }

  lemma RetryMute(s: State, j: JobId, w: Write)
    requires CanRetry(s, j, w)
    ensures Mute(s, Retry(s, j, w), Recovery) && Retry(s, j, w).completions == s.completions
  {
    hide Transition;
    var entry := s.completions[j];
    TransitionFrame(s, j, entry.from, entry.job);
    if w.Lost? {
    } else if HasStatus(s, j, entry.from) {
      if w.Applied? {
      } else {
      }
    } else if j in s.jobs && s.jobs[j].status.Terminal() {
    } else {
    }
  }

  lemma MuteTruthful(s: State, s': State, t: ThreadId)
    requires Inv(s) && Truthful(s) && Evolves(s, s') && Mute(s, s', t) && s'.completions == s.completions && !Snatches(s, s')
    ensures Truthful(s')
  {
    hide Inv, Evolves, Snatches, Told;
    assert EntriesKept(s, s');
    forall u | u in s'.threads ensures Told(s', s'.threads[u]) {
      if u in s.threads && s'.threads[u] == s.threads[u] {
        StillTold(s, s', u);
      } else {
        MuteTold(s', s'.threads[u]);
      }
    }
  }

  lemma MuteTold(s: State, pc: Pc)
    requires !Reports(pc)
    ensures Told(s, pc)
  {
  }

  /** t arrives at a report that is true on arrival. */
  lemma ArrivesTruthful(s: State, s': State, t: ThreadId)
    requires Inv(s) && Truthful(s) && Evolves(s, s') && EntriesKept(s, s') && !Snatches(s, s')
    requires SameOff(s.threads, s'.threads, t) && (t in s'.threads ==> Told(s', s'.threads[t]))
    ensures Truthful(s')
  {
    hide Inv, Evolves, Snatches, Told, EntriesKept;
    forall u | u in s'.threads ensures Told(s', s'.threads[u]) {
      if u != t {
        StillTold(s, s', u);
      }
    }
  }

  lemma MuteSnatched(s: State, s': State, t: ThreadId)
    requires Inv(s) && Truthful(s) && Mute(s, s', t) && (s'.threads == s.threads || !Ends(s, t)) && Snatches(s, s')
    ensures !Truthful(s')
  {
    hide Tally;
    var u, j :| Believes(s, u, j) && j in s.completions && HasStatus(s, j, Running) && HasStatus(s', j, Cancelled);
    assert CompletionOk(s, j);
    hide Inv;
    assert Told(s, s.threads[u]);
    assert u in s'.threads && s'.threads[u] == s.threads[u];
  }

  lemma Unsnatched(s: State, s': State)
    requires forall j :: HasStatus(s, j, Running) ==> !HasStatus(s', j, Cancelled)
    ensures !Snatches(s, s')
  {
  }

  lemma LoadTruthful(s: State, t: ThreadId, ok: bool)
    requires Inv(s) && Truthful(s) && CanLoad(s, t, ok)
    ensures Truthful(Load(s, t, ok)) && !Snatches(s, Load(s, t, ok))
  {
    hide Inv;
    LoadUntouched(s, t, ok);
    UntouchedEvolves(s, Load(s, t, ok));
    Unsnatched(s, Load(s, t, ok));
    if !ok {
    } else if s.threads[t].id in s.jobs {
    } else if s.native {
    } else {
    }
    hide Truthful, Snatches, Evolves;
    ArrivesTruthful(s, Load(s, t, ok), t);
  }

  lemma StartDisownedTold(s: State, t: ThreadId, ok: bool)
    requires t in s.threads && s.threads[t].Loaded?
    ensures StartedInto(s, Cancel(SetThread(s, t, Ending(s.threads[t].id, None)), s.threads[t].id, ok), t)
  {
    hide Cancel;
    var j := s.threads[t].id;
    var moved := SetThread(s, t, Ending(j, None));
    CancelFrame(moved, j, ok);
    CancelsQueuedOnly(moved, j, ok);
    assert forall d :: HasStatus(s, d, Running) ==> HasStatus(moved, d, Running);
  }

  /** t moves, and no running record is cancelled; a report that t arrives at is true. */
  ghost predicate StartedInto(s: State, s': State, t: ThreadId) {
    t in s'.threads && s'.threads == s.threads[t := s'.threads[t]] && Told(s', s'.threads[t]) &&
    s'.completions == s.completions && forall j :: HasStatus(s, j, Running) ==> !HasStatus(s', j, Cancelled)
  }

  lemma MovedInto(s: State, t: ThreadId, pc: Pc)
    requires Told(s, pc)
    ensures StartedInto(s, SetThread(s, t, pc), t)
  {
    assert Told(SetThread(s, t, pc), pc);
  }

  lemma StartTold(s: State, t: ThreadId, ok: bool)
    requires Inv(s) && Truthful(s) && CanStart(s, t, ok)
    ensures StartedInto(s, Start(s, t, ok), t)
  {
    LoadedFacts(s, t);
    hide Inv, Cancel, Transition, OwnsAttempt, StartedInto;
    assert Told(s, s.threads[t]);
    var j, seen := s.threads[t].id, s.threads[t].seen;
    if !seen.status.Queued? {
      MovedInto(s, t, Ending(j, if seen.status.Terminal() then Some(seen.status) else None));
    } else if !OwnsAttempt(s, j, seen.birth) {
      StartDisownedTold(s, t, ok);
    } else if !ok {
      MovedInto(s, t, Requeueing(j));
    } else if !HasStatus(s, j, Queued) {
      MovedInto(s, t, Deactivating(j, None));
    } else {
      StartsAs(s, t, ok);
      StartedRunning(s, t);
    }
  }

  lemma StartedRunning(s: State, t: ThreadId)
    requires t in s.threads && s.threads[t].Loaded? && s.threads[t].id in s.jobs
    ensures StartedInto(s, Started(s, t), t)
  {
  }

  lemma CancelsQueuedOnly(s: State, j: JobId, ok: bool)
    ensures forall d :: HasStatus(s, d, Running) ==> HasStatus(Cancel(s, j, ok), d, Running)
  {
    if !ok || !HasStatus(s, j, Queued) {
    } else {
      CancelFrame(s, j, ok);
    }
  }

  lemma StartTruthful(s: State, t: ThreadId, ok: bool)
    requires Inv(s) && Truthful(s) && CanStart(s, t, ok)
    ensures Truthful(Start(s, t, ok)) && !Snatches(s, Start(s, t, ok))
  {
    hide Inv, Start, Truthful, Snatches, Evolves, Told;
    StartTold(s, t, ok);
    StartEvolves(s, t, ok);
    Unsnatched(s, Start(s, t, ok));
    ArrivesTruthful(s, Start(s, t, ok), t);
  }

  lemma DeferTruthful(s: State, t: ThreadId)
    requires Inv(s) && Truthful(s) && CanDefer(s, t)
    ensures !Snatches(s, Defer(s, t))
    ensures Truthful(Defer(s, t)) <==> !DefersOver(s, OfWorker(StepDefer(t)))
  {
    hide Tally, Inv;
    var s' := Defer(s, t);
    DriverAlone(s, t, s.threads[t].id);
    UntouchedEvolves(s, s');
    Unsnatched(s, s');
    hide Snatches, Evolves;
    assert Told(s', s'.threads[t]) <==> !DefersOver(s, OfWorker(StepDefer(t)));
    if !DefersOver(s, OfWorker(StepDefer(t))) {
      hide Truthful;
      ArrivesTruthful(s, s', t);
    }
  }

  /** What a worker that owns its attempt knows about the record. */
  lemma OwnerKnows(s: State, t: ThreadId)
    requires Inv(s) && t in s.threads && (s.threads[t].Releasing? || s.threads[t].Accounting?)
    ensures s.threads[t].id in s.jobs && s.jobs[s.threads[t].id].status == s.threads[t].job.status
    ensures s.threads[t].job.status.Terminal() && s.threads[t].id !in s.completions
    ensures s.threads[t].Accounting? ==> s.threads[t].job.status.Succeeded?
  {
    hide Tally;
    assert PcOk(s, t, s.threads[t]);
    DriverAlone(s, t, s.threads[t].id);
  }

  lemma ReleaseSourceTruthful(s: State, t: ThreadId)
    requires Inv(s) && Truthful(s) && CanReleaseSource(s, t)
    ensures Truthful(ReleaseSource(s, t)) && !Snatches(s, ReleaseSource(s, t))
  {
    hide Inv, Release;
    OwnerKnows(s, t);
    ReleaseSourceUntouched(s, t);
    var pc, s' := s.threads[t], ReleaseSource(s, t);
    if pc.job.status.Succeeded? {
      ReleaseUntouched(SetThread(s, t, Accounting(pc.id, pc.job)), pc.job.birth.snapshot);
    } else {
      ReleaseUntouched(SetThread(s, t, Deactivating(pc.id, Some(pc.job.status))), pc.job.birth.snapshot);
    }
    hide ReleaseSource;
    UntouchedEvolves(s, s');
    Unsnatched(s, s');
    hide Truthful, Snatches, Evolves;
    ArrivesTruthful(s, s', t);
  }

  lemma AccountTold(s: State, t: ThreadId, cached: bool, result: nat, w: Write)
    requires CanAccount(s, t, w) && HasStatus(s, s.threads[t].id, Succeeded) && s.threads[t].job.status.Succeeded?
    ensures var j, s' := s.threads[t].id, Account(s, t, cached, result, w);
      t in s'.threads && s'.threads == s.threads[t := Deactivating(j, Some(Succeeded))] && HasStatus(s', j, Succeeded) &&
      SameOff(s.jobs, s'.jobs, j) && SameOff(s.completions, s'.completions, j)
  {
    if !cached {
    } else if w.Lost? {
    } else if w.Applied? {
    } else {
    }
  }

  lemma AccountTruthful(s: State, t: ThreadId, cached: bool, result: nat, w: Write)
    requires Inv(s) && Truthful(s) && CanAccount(s, t, w)
    ensures Truthful(Account(s, t, cached, result, w)) && !Snatches(s, Account(s, t, cached, result, w))
  {
    hide Inv, Account, Truthful, Snatches, Evolves;
    OwnerKnows(s, t);
    AccountTold(s, t, cached, result, w);
    AccountEvolves(s, t, cached, result, w);
    Unsnatched(s, Account(s, t, cached, result, w));
    ArrivesTruthful(s, Account(s, t, cached, result, w), t);
  }

  lemma TailTold(s: State, step: TailStep)
    requires Inv(s) && Truthful(s) && TailEnabled(s, step)
    requires step.StepDeactivate? || step.StepCheck? || step.StepReload?
    ensures Truthful(TailApply(s, step)) && !Snatches(s, TailApply(s, step))
  {
    hide Inv;
    var t, s' := step.t, TailApply(s, step);
    assert Told(s, s.threads[t]);
    assert s'.jobs == s.jobs && s'.completions == s.completions && SameOff(s.threads, s'.threads, t);
    UntouchedEvolves(s, s');
    Unsnatched(s, s');
    hide Truthful, Snatches, Evolves;
    match step
    case StepDeactivate(_) => ArrivesTruthful(s, s', t);
    case StepCheck(_) => if s.threads[t].id in s.completions { ArrivesTruthful(s, s', t); } else { ArrivesTruthful(s, s', t); }
    case StepReload(_) => ArrivesTruthful(s, s', t);
  }

  lemma DropTruthful(s: State)
    requires Inv(s) && Truthful(s) && CanDrop(s)
    ensures Truthful(Drop(s)) && !Snatches(s, Drop(s))
  {
    hide Tally;
    assert PcOk(s, Recovery, s.threads[Recovery]);
    hide Inv;
    UntouchedEvolves(s, Drop(s));
    Unsnatched(s, Drop(s));
    hide Truthful, Snatches, Evolves;
    ArrivesTruthful(s, Drop(s), Recovery);
  }

  lemma UnpinTruthful(s: State)
    requires Inv(s) && Truthful(s) && CanUnpin(s)
    ensures Truthful(Unpin(s)) && !Snatches(s, Unpin(s))
  {
    hide Inv, Release;
    assert Told(s, s.threads[Recovery]);
    var pc, s' := s.threads[Recovery], Unpin(s);
    var moved := SetThread(s, Recovery, Ending(pc.id, Some(pc.status)));
    UnpinUntouched(s);
    if pc.entry.from.Running? {
      ReleaseUntouched(moved, pc.entry.job.birth.snapshot);
    } else {
    }
    hide Unpin;
    UntouchedEvolves(s, s');
    Unsnatched(s, s');
    hide Truthful, Snatches, Evolves;
    ArrivesTruthful(s, s', Recovery);
  }

  // ----- Every step -----

  lemma SilentEnds(s: State, t: ThreadId)
    requires !Reporting(s, t)
    ensures !Ends(s, t)
  {
  }

  lemma MuteStep(s: State, s': State, t: ThreadId)
    requires Inv(s) && Truthful(s) && Evolves(s, s') && Mute(s, s', t) && s'.completions == s.completions
    requires s'.threads == s.threads || !Ends(s, t)
    ensures Truthful(s') <==> !Snatches(s, s')
  {
    hide Inv, Evolves, Truthful, Snatches, Mute, Ends;
    if Snatches(s, s') {
      MuteSnatched(s, s', t);
    } else {
      MuteTruthful(s, s', t);
    }
  }

  lemma WorkerTruth(s: State, step: WorkerStep)
    requires Inv(s) && Truthful(s) && WorkerEnabled(s, step)
    ensures Truthful(WorkerApply(s, step)) <==> !Snatches(s, WorkerApply(s, step)) && !DefersOver(s, OfWorker(step))
  {
    hide Inv, Evolves, Truthful, Snatches, Mute, Ends, Reporting, Load, Start, Defer, ReleaseSource, Account;
    if SilentWorker(step) {
      WorkerMute(s, step);
      WorkerEvolves(s, step);
      SilentEnds(s, step.t);
      hide WorkerApply;
      MuteStep(s, WorkerApply(s, step), step.t);
    } else {
      match step
      case StepLoad(t, ok) => LoadTruthful(s, t, ok);
      case StepStart(t, ok) => StartTruthful(s, t, ok);
      case StepDefer(t) => DeferTruthful(s, t);
      case StepReleaseSource(t) => ReleaseSourceTruthful(s, t);
      case StepAccount(t, cached, result, w) => AccountTruthful(s, t, cached, result, w);
    }
  }

  lemma TailTruth(s: State, step: TailStep)
    requires Inv(s) && Truthful(s) && TailEnabled(s, step)
    ensures Truthful(TailApply(s, step)) <==> !Snatches(s, TailApply(s, step))
  {
    hide Inv, Evolves, Truthful, Snatches, Mute, Ends, Drop, Unpin;
    if step.StepFreeSlot? || step.StepEndGate? || step.StepRetry? {
      var t := TailMute(s, step);
      TailEvolves(s, step);
      hide TailApply;
      MuteStep(s, TailApply(s, step), t);
    } else if step.StepForget? {
      SameThreadsMute(s, Forget(s, step.j));
      TailEvolves(s, step);
      MuteStep(s, Forget(s, step.j), Recovery);
    } else if step.StepDrop? {
      DropTruthful(s);
    } else if step.StepUnpin? {
      UnpinTruthful(s);
    } else {
      TailTold(s, step);
    }
  }

  /** Reports stay true exactly through the steps that neither snatch a deferred outcome nor defer over another one. */
  lemma StepTruth(s: State, step: Step)
    requires Inv(s) && Truthful(s) && Enabled(s, step)
    ensures Truthful(Apply(s, step)) <==> !Snatches(s, Apply(s, step)) && !DefersOver(s, step)
  {
    hide Inv, Evolves, Truthful, Snatches, Mute, Ends, Reporting, ClientApply, SessionApply, WorkerApply, TailApply;
    match step
    case OfClient(x) =>
      var t := ClientMute(s, x);
      ClientEvolves(s, x);
      if !Reporting(s, t) {
        SilentEnds(s, t);
      }
      MuteStep(s, ClientApply(s, x), t);
    case OfSession(x) =>
      SessionMute(s, x);
      SessionEvolves(s, x);
      SameThreadsMute(s, SessionApply(s, x));
      MuteStep(s, SessionApply(s, x), Recovery);
    case OfWorker(x) => WorkerTruth(s, x);
    case OfTail(x) => TailTruth(s, x);
  }

  lemma SameThreadsMute(s: State, s': State)
    requires s'.threads == s.threads
    ensures Mute(s, s', Recovery)
  {
  }

  // ----- The last successful job -----

  /** The last successful job of every session has a succeeded record, unless retention removed it. */
  predicate SuccessesTrue(s: State) {
    forall sid :: sid in s.sessions && s.sessions[sid].lastSuccess.Some? ==> Agrees(s, s.sessions[sid].lastSuccess.value, Succeeded)
  }

  /** The slot is freed with a success that the record, still stored, does not have. */
  predicate Mislabels(s: State, step: Step) {
    match step
    case OfTail(StepFreeSlot(t)) =>
      t in s.threads && s.threads[t].Closing? && s.threads[t].known == Some(Succeeded) &&
      var j := s.threads[t].id;
      j in s.born && s.born[j].session.Some? && Awaits(s, s.born[j].session.value, j) &&
      j in s.jobs && !s.jobs[j].status.Succeeded?
    case _ => false
  }

  /** One step keeps the last successful jobs true exactly when it is not such a report. */
  lemma StepSuccesses(s: State, step: Step)
    requires Inv(s) && SuccessesTrue(s) && Enabled(s, step)
    ensures SuccessesTrue(Apply(s, step)) <==> !Mislabels(s, step)
  {
    StepEvolves(s, step);
    hide Inv, Evolves, SuccessesTrue, SlotsKept, Take, FreeSlot;
    match step
    case OfTail(StepFreeSlot(t)) => FreeSlotSuccesses(s, t);
    case OfWorker(StepTake(t)) =>
      TakeSlots(s, t);
      hide Take;
      OldSuccesses(s, Take(s, t));
    case _ =>
      StepKeepsSlots(s, step);
      hide Apply, Enabled, Mislabels;
      KeptSuccesses(s, Apply(s, step));
      Unlabelled(s, step);
  }

  lemma Unlabelled(s: State, step: Step)
    requires !SettlesSlot(step)
    ensures !Mislabels(s, step)
  {
  }

  lemma KeptSuccesses(s: State, s': State)
    requires Inv(s) && SuccessesTrue(s) && Evolves(s, s') && SlotsKept(s, s')
    ensures SuccessesTrue(s')
  {
    hide Inv, Evolves, SuccessesTrue;
    OldSuccesses(s, s');
  }

  /** A success that a session already had stays true. */
  lemma OldSuccesses(s: State, s': State)
    requires Inv(s) && SuccessesTrue(s) && Evolves(s, s')
    requires forall sid :: sid in s'.sessions && s'.sessions[sid].lastSuccess.Some? ==>
      sid in s.sessions && s.sessions[sid].lastSuccess == s'.sessions[sid].lastSuccess
    ensures SuccessesTrue(s')
  {
    hide Inv, Evolves, Agrees;
    forall sid | sid in s'.sessions && s'.sessions[sid].lastSuccess.Some?
      ensures Agrees(s', s'.sessions[sid].lastSuccess.value, Succeeded)
    {
      SuccessBorn(s, sid);
      StillAgrees(s, s', s'.sessions[sid].lastSuccess.value, Succeeded);
    }
  }

  lemma FreeSlotSuccesses(s: State, t: ThreadId)
    requires Inv(s) && SuccessesTrue(s) && CanFreeSlot(s, t)
    ensures SuccessesTrue(FreeSlot(s, t)) <==> !Mislabels(s, OfTail(StepFreeSlot(t)))
  {
    hide Inv, FreeSlot;
    FreeSlotOutcome(s, t);
    var s', j := FreeSlot(s, t), s.threads[t].id;
    if Mislabels(s, OfTail(StepFreeSlot(t))) {
      assert s'.sessions[s.born[j].session.value].lastSuccess == Some(j);
    } else {
      forall sid | sid in s'.sessions && s'.sessions[sid].lastSuccess.Some?
        ensures Agrees(s', s'.sessions[sid].lastSuccess.value, Succeeded)
      {
        assert Awaits(s, sid, j) || SlotKept(s.sessions[sid], s'.sessions[sid]);
      }
    }
  }

  /** While reports are true, no step mislabels an attempt. */
  lemma TruthfulLabels(s: State, step: Step)
    requires Truthful(s)
    ensures !Mislabels(s, step)
  {
    match step
    case OfTail(StepFreeSlot(t)) =>
      if t in s.threads {
        assert Told(s, s.threads[t]);
      }
    case _ =>
  }

  lemma SuccessBorn(s: State, sid: SessionId)
    requires Inv(s) && sid in s.sessions && s.sessions[sid].lastSuccess.Some?
    ensures s.sessions[sid].lastSuccess.value in s.born
  {
    hide Tally;
    assert SessionOk(s, sid);
  }
}
