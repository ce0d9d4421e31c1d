/**
 A running attempt that somebody can still settle is settled: finitely many
 steps of workers, recovery and the admission lock's holder free its slot.
 */
module JobProgress {
  import opened Options
  import opened Counting
  import opened JobState
  import opened JobSteps
  import opened JobInvariant
  import opened JobEvolution
  import opened JobWorkers
  import opened JobSessions
  import opened JobResponsibility
  import opened JobAdmission
  import opened JobTruth
  import opened JobService
  import opened JobRuns

  // ----- One step of a goroutine -----

  /** How many steps of its own a goroutine may still take before it has settled its job. */
  function Distance(pc: Pc): nat {
    match pc
    case Requeueing(_) => 11
    case Loading(_) => 10
    case Loaded(_, _) => 9
    case Compiling(_, _) => 8
    case Finishing(_, _) => 7
    case Releasing(_, _) => 6
    case Accounting(_, _) => 5
    case Confirmed(_, _, _) => 5
    case Deactivating(_, _) => 4
    case Unpinning(_, _, _) => 4
    case Ending(_, _) => 3
    case Closing(_, known) => if known.None? then 2 else 1
    case _ => 0
  }

  /** The next step of the goroutine when the store answers. */
  function Next(pc: Pc, t: ThreadId): Step {
    match pc
    case Loading(_) => OfWorker(StepLoad(t, true))
    case Loaded(_, _) => OfWorker(StepStart(t, true))
    case Requeueing(_) => OfWorker(StepRequeue(t))
    case Compiling(_, _) => OfWorker(StepCompile(t, Failed, 0))
    case Finishing(_, _) => OfWorker(StepFinish(t, Applied))
    case Releasing(_, _) => OfWorker(StepReleaseSource(t))
    case Accounting(_, _) => OfWorker(StepAccount(t, false, 0, Applied))
    case Deactivating(_, _) => OfTail(StepDeactivate(t))
    case Ending(_, _) => OfTail(StepCheck(t))
    case Closing(_, known) => if known.None? then OfTail(StepReload(t)) else OfTail(StepFreeSlot(t))
    case Gating(_) => OfTail(StepEndGate(t))
    case Confirmed(_, _, _) => OfTail(StepDrop)
    case _ => OfTail(StepUnpin)
  }

  /** The goroutine keeps its job and comes nearer to settling it. */
  predicate Onward(s: State, s': State, t: ThreadId) {
    t in s.threads && t in s'.threads && Ahead(s.threads[t], s'.threads[t]) && s'.completions.Keys <= s.completions.Keys
  }

  predicate Ahead(pc: Pc, pc': Pc) { Settling(pc') == Settling(pc) && Distance(pc') < Distance(pc) }

  lemma MovesOnward(s: State, s1: State, t: ThreadId, pc: Pc)
    requires t in s.threads && Ahead(s.threads[t], pc) && s1.completions.Keys <= s.completions.Keys
    ensures Onward(s, SetThread(s1, t, pc), t)
  {
  }

  lemma StartOnward(s: State, t: ThreadId)
    requires CanStart(s, t, true)
    ensures Onward(s, Start(s, t, true), t)
  {
    hide Cancel, Transition, OwnsAttempt, Onward;
    var j, seen := s.threads[t].id, s.threads[t].seen;
    if !seen.status.Queued? {
      MovesOnward(s, s, t, Ending(j, if seen.status.Terminal() then Some(seen.status) else None));
    } else if !OwnsAttempt(s, j, seen.birth) {
      CancelsOnward(s, t, Ending(j, None), j);
    } else if !HasStatus(s, j, Queued) {
      MovesOnward(s, s, t, Deactivating(j, None));
    } else {
      var running := seen.(status := Running);
      TransitionFrame(s, j, Queued, running);
      MovesOnward(s, Transition(s, j, Queued, running).(active := s.active + {j}), t, Compiling(j, running));
    }
  }

  lemma CancelsOnward(s: State, t: ThreadId, pc: Pc, j: JobId)
    requires t in s.threads && Ahead(s.threads[t], pc)
    ensures Onward(s, Cancel(SetThread(s, t, pc), j, true), t)
  {
    hide Cancel;
    CancelFrame(SetThread(s, t, pc), j, true);
  }

  lemma FinishOnward(s: State, t: ThreadId)
    requires Inv(s) && t in s.threads && s.threads[t].Finishing?
    ensures Onward(s, Finish(s, t, Applied), t)
  {
    hide Inv, Transition, Onward;
    var j, done := s.threads[t].id, s.threads[t].done;
    FinishingAttempted(s, t);
    if HasStatus(s, j, Running) {
      TransitionFrame(s, j, Running, done);
      MovesOnward(s, Transition(s, j, Running, done), t, Releasing(j, done));
    } else {
      MovesOnward(s, s, t, Releasing(j, done.(status := s.jobs[j].status, result := s.jobs[j].result)));
    }
  }

  lemma FinishingAttempted(s: State, t: ThreadId)
    requires Inv(s) && t in s.threads && s.threads[t].Finishing?
    ensures Attempted(s, s.threads[t].id)
  {
    hide Tally;
    assert PcOk(s, t, s.threads[t]);
  }

  lemma ReleasesOnward(s: State, t: ThreadId, pc: Pc, x: SnapshotId)
    requires t in s.threads && Ahead(s.threads[t], pc)
    ensures Onward(s, Release(SetThread(s, t, pc), x), t)
  {
    hide Release;
    ReleaseUntouched(SetThread(s, t, pc), x);
  }

  lemma ReleaseSourceOnward(s: State, t: ThreadId)
    requires CanReleaseSource(s, t)
    ensures Onward(s, ReleaseSource(s, t), t)
  {
    hide Release, Onward;
    var pc := s.threads[t];
    if pc.job.status.Succeeded? {
      ReleasesOnward(s, t, Accounting(pc.id, pc.job), pc.job.birth.snapshot);
    } else {
      ReleasesOnward(s, t, Deactivating(pc.id, Some(pc.job.status)), pc.job.birth.snapshot);
    }
  }

  lemma AccountOnward(s: State, t: ThreadId)
    requires CanAccount(s, t, Applied)
    ensures Onward(s, Account(s, t, false, 0, Applied), t)
  {
    hide Transition;
    MovesOnward(s, s, t, Deactivating(s.threads[t].id, Some(Succeeded)));
  }

  lemma UnpinOnward(s: State)
    requires CanUnpin(s)
    ensures Onward(s, Unpin(s), Recovery)
  {
    hide Release, Onward;
    var pc := s.threads[Recovery];
    if pc.entry.from.Running? {
      ReleasesOnward(s, Recovery, Ending(pc.id, Some(pc.status)), pc.entry.job.birth.snapshot);
    } else {
      MovesOnward(s, s, Recovery, Ending(pc.id, Some(pc.status)));
    }
  }

  /** The worker's steps up to its tail. */
  lemma WorkerOnward(s: State, t: ThreadId)
    requires Inv(s) && s.admission.Free? && t in s.threads
    requires var pc := s.threads[t];
      (pc.Loading? && pc.id in s.jobs) || pc.Loaded? || pc.Compiling? || pc.Finishing? || pc.Releasing? || pc.Accounting?
    ensures Enabled(s, Next(s.threads[t], t)) && Onward(s, Apply(s, Next(s.threads[t], t)), t)
  {
    hide Inv, Onward, Start, Receive, Take, Requeue, Finish, Defer, ReleaseSource, Account;
    match s.threads[t]
    case Loading(j) => MovesOnward(s, s, t, Loaded(j, s.jobs[j]));
    case Loaded(_, _) => StartOnward(s, t);
    case Compiling(j, job) => MovesOnward(s, s, t, Finishing(j, job.(status := Failed, result := 0)));
    case Finishing(_, _) => FinishOnward(s, t);
    case Releasing(_, _) => ReleaseSourceOnward(s, t);
    case Accounting(_, _) => AccountOnward(s, t);
  }

  /** The tail's steps up to the slot, and those of recovery before it. */
  lemma TailOnward(s: State, t: ThreadId)
    requires Inv(s) && s.admission.Free? && t in s.threads
    requires var pc := s.threads[t];
      pc.Deactivating? || (pc.Ending? && pc.id !in s.completions) || pc.Confirmed? || pc.Unpinning? ||
      (pc.Closing? && pc.known.None? && pc.id in s.jobs && s.jobs[pc.id].status.Terminal())
    ensures Enabled(s, Next(s.threads[t], t)) && Onward(s, Apply(s, Next(s.threads[t], t)), t)
    ensures s.threads[t].Confirmed? ==> s.threads[t].id !in Apply(s, Next(s.threads[t], t)).completions
  {
    hide Inv, Onward, Deactivate, Check, Reload, FreeSlot, EndGate, Retry, Drop, Unpin;
    RecoveryOnly(s, t);
    match s.threads[t]
    case Deactivating(j, known) => DeactivateOnward(s, t);
    case Ending(j, known) => CheckOnward(s, t);
    case Closing(j, known) => ReloadOnward(s, t);
    case Confirmed(j, entry, status) => DropOnward(s);
    case Unpinning(_, _, _) => UnpinOnward(s);
  }

  lemma DeactivateOnward(s: State, t: ThreadId)
    requires CanDeactivate(s, t)
    ensures Onward(s, Deactivate(s, t), t)
  {
    var pc := s.threads[t];
    MovesOnward(s, s.(active := s.active - {pc.id}), t, Ending(pc.id, pc.known));
  }

  lemma DropOnward(s: State)
    requires CanDrop(s)
    ensures Onward(s, Drop(s), Recovery) && s.threads[Recovery].id !in Drop(s).completions
  {
    var pc := s.threads[Recovery];
    MovesOnward(s, s.(completions := s.completions - {pc.id}), Recovery, Unpinning(pc.id, pc.entry, pc.status));
  }

  lemma CheckOnward(s: State, t: ThreadId)
    requires CanCheck(s, t) && s.threads[t].id !in s.completions
    ensures Onward(s, Check(s, t), t)
  {
    MovesOnward(s, s, t, Closing(s.threads[t].id, s.threads[t].known));
  }

  lemma ReloadOnward(s: State, t: ThreadId)
    requires CanReload(s, t) && s.threads[t].id in s.jobs && s.jobs[s.threads[t].id].status.Terminal()
    ensures Onward(s, Reload(s, t), t)
  {
    var j := s.threads[t].id;
    MovesOnward(s, s, t, Closing(j, Some(s.jobs[j].status)));
  }

  lemma RecoveryOnly(s: State, t: ThreadId)
    requires Inv(s) && t in s.threads
    ensures s.threads[t].Confirmed? || s.threads[t].Unpinning? ==> t == Recovery
  {
    hide Tally;
    assert PcOk(s, t, s.threads[t]);
  }

  // ----- A goroutine settles its job -----

  /** The goroutine can go on to settle the session's running attempt by its own steps alone. */
  ghost predicate Ready(s: State, t: ThreadId, sid: SessionId, j: JobId) {
    Inv(s) && s.admission.Free? && Holds(s, sid, j) && ByThread(s, t, j) && !s.threads[t].Requeueing? &&
    (j in s.completions ==> s.threads[t].Confirmed?) && (j in s.jobs || KnowsAt(s, t) == Some(j))
  }

  /** Its job's record is stored, and settled when only the record can tell the outcome. */
  lemma ReadyFacts(s: State, t: ThreadId, sid: SessionId, j: JobId)
    requires Ready(s, t, sid, j)
    ensures Inv(s) && s.admission.Free? && Holds(s, sid, j) && t in s.threads
    ensures Reaches(s, t, j)
  {
    hide Inv, Undriven;
    HoldsBorn(s, sid, j);
    if s.threads[t].Closing? {
      ClosingFacts(s, t);
    }
  }

  /** Where a goroutine that can go on may be. */
  predicate Reaches(s: State, t: ThreadId, j: JobId) {
    t in s.threads &&
    match s.threads[t]
    case Loading(id) => id == j && j in s.jobs
    case Ending(id, _) => id == j && j !in s.completions
    case Closing(id, known) => id == j && j in s.born && (known.None? ==> j in s.jobs && s.jobs[j].status.Terminal())
    case Confirmed(id, _, _) => id == j
    case Loaded(id, _) => id == j
    case Compiling(id, _) => id == j
    case Finishing(id, _) => id == j
    case Releasing(id, _) => id == j
    case Accounting(id, _) => id == j
    case Deactivating(id, _) => id == j
    case Unpinning(id, _, _) => id == j
    case _ => false
  }

  lemma ReadyNext(s: State, t: ThreadId, sid: SessionId, j: JobId)
    requires Ready(s, t, sid, j) && !(s.threads[t].Closing? && s.threads[t].known.Some?)
    ensures var step := Next(s.threads[t], t);
      Enabled(s, step) && !SettlesSlot(step) && Onward(s, Apply(s, step), t) &&
      (j in Apply(s, step).completions ==> j in s.completions && !s.threads[t].Confirmed?)
  {
    ReadyFacts(s, t, sid, j);
    hide Inv, Apply, Enabled, Ready, Onward, Next, Holds;
    var pc := s.threads[t];
    NextKinds(pc, t);
    if pc.Loading? || pc.Loaded? || pc.Compiling? || pc.Finishing? || pc.Releasing? || pc.Accounting? {
      WorkerOnward(s, t);
    } else {
      TailOnward(s, t);
    }
    OnwardCompletions(s, Apply(s, Next(pc, t)), t);
  }

  lemma OnwardCompletions(s: State, s': State, t: ThreadId)
    requires Onward(s, s', t)
    ensures s'.completions.Keys <= s.completions.Keys
  {
  }

  lemma NextKinds(pc: Pc, t: ThreadId)
    ensures var step := Next(pc, t);
      (step.OfWorker? && !step.stepWorker.StepTake?) ||
      (step.OfTail? && (step.stepTail.StepFreeSlot? <==> pc.Closing? && pc.known.Some?))
  {
  }

  /** Workers and the tail leave sessions and the lock alone, except where they free a slot. */
  lemma OwnStep(s: State, step: Step, sid: SessionId, j: JobId)
    requires Inv(s) && Enabled(s, step) && (step.OfWorker? || step.OfTail?) && !SettlesSlot(step)
    ensures var s' := Apply(s, step);
      Inv(s') && Bystanding(s, s') && s.jobs.Keys <= s'.jobs.Keys && (Holds(s, sid, j) ==> Holds(s', sid, j))
  {
    StepKeeps(s, step);
    StepKeepsRecords(s, step);
    hide Inv, WorkerApply, TailApply;
    if step.OfWorker? {
      WorkerBystands(s, step.stepWorker);
    } else {
      TailBystands(s, step.stepTail);
    }
  }

  lemma KnowsOn(s: State, step: Step, t: ThreadId, j: JobId)
    requires Inv(s) && Enabled(s, step) && !SettlesSlot(step) && KnowsAt(s, t) == Some(j) && j !in s.jobs
    ensures KnowsAt(Apply(s, step), t) == Some(j)
  {
    hide Inv, Apply, Enabled, Knows;
    var u := StepLearns(s, step);
    assert !Frees(step);
  }

  lemma ReadyOn(s: State, t: ThreadId, sid: SessionId, j: JobId)
    requires Ready(s, t, sid, j) && !(s.threads[t].Closing? && s.threads[t].known.Some?)
    ensures var step := Next(s.threads[t], t);
      Enabled(s, step) && !SettlesSlot(step) && Ready(Apply(s, step), t, sid, j) &&
      Distance(Apply(s, step).threads[t]) < Distance(s.threads[t])
  {
    ReadyNext(s, t, sid, j);
    hide Inv, Apply, Enabled, Knows, Settling, Next;
    var step := Next(s.threads[t], t);
    NextKinds(s.threads[t], t);
    OwnStep(s, step, sid, j);
    if j !in s.jobs {
      KnowsOn(s, step, t, j);
    }
    NearerNotRequeueing(s.threads[t], Apply(s, step).threads[t]);
  }

  lemma NearerNotRequeueing(pc: Pc, pc': Pc)
    requires Distance(pc') < Distance(pc)
    ensures !pc'.Requeueing?
  {
  }

  // ----- Continuations -----

  /** A finite continuation of s through which the session stays live, and after which the attempt has left its slot. */
  ghost predicate Recovers(states: seq<State>, steps: seq<Step>, s: State, sid: SessionId, j: JobId) {
    |states| == |steps| + 1 && states[0] == s &&
    (forall i :: 0 <= i < |steps| ==> Enabled(states[i], steps[i]) && states[i + 1] == Apply(states[i], steps[i])) &&
    (forall i :: 0 <= i < |states| ==> sid in states[i].sessions && !states[i].sessions[sid].expired) &&
    states[|steps|].sessions[sid].running != Some(j)
  }

  /** No step of a client, and no session is opened, submitted to, closed or expired. */
  predicate Internal(step: Step) {
    step.OfWorker? || step.OfTail? ||
    (step.OfSession? && (step.stepSession.StepRefuse? || step.stepSession.StepSupersede? || step.stepSession.StepAccept? ||
                         step.stepSession.StepAbort?))
  }

  ghost predicate RecoversAlone(states: seq<State>, steps: seq<Step>, s: State, sid: SessionId, j: JobId) {
    Recovers(states, steps, s, sid, j) && forall i :: 0 <= i < |steps| ==> Internal(steps[i])
  }

  lemma Precede(s: State, step: Step, sid: SessionId, j: JobId, states: seq<State>, steps: seq<Step>)
      returns (states': seq<State>, steps': seq<Step>)
    requires Enabled(s, step) && Internal(step) && sid in s.sessions && !s.sessions[sid].expired
    requires RecoversAlone(states, steps, Apply(s, step), sid, j)
    ensures RecoversAlone(states', steps', s, sid, j)
  {
    hide Enabled, Apply, Internal;
    states', steps' := [s] + states, [step] + steps;
    forall i | 0 <= i < |steps'| ensures PrecedesAt(s, step, states, steps, i) {
    }
    forall i | 0 <= i < |states'| ensures sid in states'[i].sessions && !states'[i].sessions[sid].expired {
      assert i > 0 ==> states'[i] == states[i - 1];
    }
    assert states'[|steps'|] == states[|steps|];
  }

  ghost predicate PrecedesAt(s: State, step: Step, states: seq<State>, steps: seq<Step>, i: nat)
    requires |states| == |steps| + 1 && i <= |steps|
  {
    var states', steps' := [s] + states, [step] + steps;
    Internal(steps'[i]) && Enabled(states'[i], steps'[i]) && states'[i + 1] == Apply(states'[i], steps'[i])
  }

  lemma FreesNow(s: State, t: ThreadId, sid: SessionId, j: JobId) returns (states: seq<State>, steps: seq<Step>)
    requires Ready(s, t, sid, j) && s.threads[t].Closing? && s.threads[t].known.Some?
    ensures RecoversAlone(states, steps, s, sid, j)
  {
    hide Inv, FreeSlot, Apply, Enabled;
    ReadyFacts(s, t, sid, j);
    HoldsBorn(s, sid, j);
    FreeSlotOutcome(s, t);
    FreeSlotStep(s, t);
    states, steps := LastStep(s, OfTail(StepFreeSlot(t)), sid, j);
  }

  lemma FreeSlotStep(s: State, t: ThreadId)
    requires CanFreeSlot(s, t)
    ensures Enabled(s, OfTail(StepFreeSlot(t))) && Apply(s, OfTail(StepFreeSlot(t))) == FreeSlot(s, t)
  {
    hide FreeSlot, Deactivate, Check, Reload, EndGate, Retry, Drop, Unpin;
  }

  lemma LastStep(s: State, step: Step, sid: SessionId, j: JobId) returns (states: seq<State>, steps: seq<Step>)
    requires Enabled(s, step) && Internal(step) && sid in s.sessions && !s.sessions[sid].expired
    requires var s' := Apply(s, step); sid in s'.sessions && !s'.sessions[sid].expired && s'.sessions[sid].running != Some(j)
    ensures RecoversAlone(states, steps, s, sid, j)
  {
    hide Enabled, Apply, Internal;
    states, steps := [s, Apply(s, step)], [step];
  }

  lemma {:induction false} ThreadRecovers(s: State, t: ThreadId, sid: SessionId, j: JobId)
      returns (states: seq<State>, steps: seq<Step>)
    requires Ready(s, t, sid, j)
    ensures RecoversAlone(states, steps, s, sid, j)
    decreases Distance(s.threads[t])
  {
    hide Inv, Apply, Enabled, RecoversAlone;
    if s.threads[t].Closing? && s.threads[t].known.Some? {
      states, steps := FreesNow(s, t, sid, j);
    } else {
      ReadyOn(s, t, sid, j);
      var step := Next(s.threads[t], t);
      NextKinds(s.threads[t], t);
      hide Next;
      states, steps := ThreadRecovers(Apply(s, step), t, sid, j);
      states, steps := Precede(s, step, sid, j, states, steps);
    }
  }

  // ----- A deferred completion settles its job -----

  /** How many steps of its own the recovery goroutine may still take with its present entry. */
  function Remaining(pc: Pc): nat { if pc.Gating? then 1 else Distance(pc) + 1 }

  ghost predicate Deferred(s: State, sid: SessionId, j: JobId) {
    Inv(s) && s.admission.Free? && Holds(s, sid, j) && j in s.completions
  }

  lemma RecoveryPcs(s: State)
    requires Inv(s) && Recovery in s.threads
    ensures var pc := s.threads[Recovery];
      pc.Deactivating? || pc.Ending? || pc.Closing? || pc.Gating? || pc.Confirmed? || pc.Unpinning?
    ensures s.threads[Recovery].Closing? ==> s.threads[Recovery].id in s.born
  {
    hide Tally;
    assert PcOk(s, Recovery, s.threads[Recovery]);
  }

  /** The goroutine ends, or has fewer steps left. */
  predicate Shrinks(s: State, s': State) {
    Recovery in s.threads && (Recovery in s'.threads ==> Remaining(s'.threads[Recovery]) < Remaining(s.threads[Recovery]))
  }

  /** One step of recovery with another entry, or before it reaches the slot, keeps this completion. */
  lemma RecoveryNext(s: State, sid: SessionId, j: JobId)
    requires Deferred(s, sid, j) && Recovery in s.threads
    requires !(s.threads[Recovery].Confirmed? && s.threads[Recovery].id == j)
    requires !(s.threads[Recovery].Closing? && s.threads[Recovery].known.Some?)
    ensures var step := Next(s.threads[Recovery], Recovery);
      Enabled(s, step) && !SettlesSlot(step) && Shrinks(s, Apply(s, step)) && j in Apply(s, step).completions
  {
    hide Shrinks, Inv, Deactivate, Check, Reload, FreeSlot, EndGate, Retry, Drop, Unpin, Holds;
    RecoveryPcs(s);
    match s.threads[Recovery]
    case Deactivating(_, _) => DeactivateShrinks(s);
    case Ending(_, _) => CheckShrinks(s);
    case Closing(_, _) => ReloadShrinks(s);
    case Gating(_) => EndGateShrinks(s);
    case Confirmed(_, _, _) => DropShrinks(s, j);
    case Unpinning(_, _, _) => UnpinShrinks(s);
  }

  lemma DeactivateShrinks(s: State)
    requires CanDeactivate(s, Recovery)
    ensures Shrinks(s, Deactivate(s, Recovery)) && Deactivate(s, Recovery).completions == s.completions
  {
  }

  lemma CheckShrinks(s: State)
    requires CanCheck(s, Recovery)
    ensures Shrinks(s, Check(s, Recovery)) && Check(s, Recovery).completions == s.completions
  {
    if s.threads[Recovery].id in s.completions {
    } else {
    }
  }

  lemma ReloadShrinks(s: State)
    requires CanReload(s, Recovery)
    ensures Shrinks(s, Reload(s, Recovery)) && Reload(s, Recovery).completions == s.completions
  {
    var j := s.threads[Recovery].id;
    if j in s.jobs && s.jobs[j].status.Terminal() {
    } else {
    }
  }

  lemma EndGateShrinks(s: State)
    requires CanEndGate(s, Recovery)
    ensures Shrinks(s, EndGate(s, Recovery)) && EndGate(s, Recovery).completions == s.completions
  {
    hide CloseGate;
    EndGateMute(EndThread(s, Recovery), s.threads[Recovery].id);
  }

  lemma DropShrinks(s: State, j: JobId)
    requires CanDrop(s) && s.threads[Recovery].id != j
    ensures Shrinks(s, Drop(s)) && (j in s.completions ==> j in Drop(s).completions)
  {
  }

  lemma UnpinShrinks(s: State)
    requires CanUnpin(s)
    ensures Shrinks(s, Unpin(s)) && Unpin(s).completions == s.completions
  {
    UnpinOnward(s);
    UnpinMute(s);
    hide Unpin;
  }

  lemma UnpinMute(s: State)
    requires CanUnpin(s)
    ensures Unpin(s).completions == s.completions
    ensures Recovery in Unpin(s).threads && Unpin(s).threads[Recovery].Ending?
  {
    hide Release;
    var pc := s.threads[Recovery];
    if pc.entry.from.Running? {
      ReleaseUntouched(SetThread(s, Recovery, Ending(pc.id, Some(pc.status))), pc.entry.job.birth.snapshot);
    } else {
    }
  }

  /** The idle recovery goroutine takes the entry up. */
  lemma RetryConfirms(s: State, j: JobId)
    requires Inv(s) && j in s.completions && Recovery !in s.threads
    ensures CanRetry(s, j, Applied)
    ensures var s' := Retry(s, j, Applied);
      Recovery in s'.threads && s'.threads[Recovery].Confirmed? && s'.threads[Recovery].id == j
  {
    hide Inv, Undriven, Transition;
    CompletionFacts(s, j);
    NativeKeepsNone(s);
    var entry := s.completions[j];
    TransitionFrame(s, j, entry.from, entry.job);
    if HasStatus(s, j, entry.from) {
    } else {
      assert s.jobs[j].status.Terminal();
    }
  }

  lemma NativeKeepsNone(s: State)
    requires Inv(s)
    ensures s.native ==> s.completions == map[]
  {
    hide Tally;
  }

  lemma RetryStep(s: State, j: JobId)
    requires CanRetry(s, j, Applied)
    ensures Enabled(s, OfTail(StepRetry(j, Applied))) && Apply(s, OfTail(StepRetry(j, Applied))) == Retry(s, j, Applied)
  {
    hide FreeSlot, Deactivate, Check, Reload, EndGate, Retry, Drop, Unpin;
  }

  lemma {:induction false} EntryRecovers(s: State, sid: SessionId, j: JobId) returns (states: seq<State>, steps: seq<Step>)
    requires Deferred(s, sid, j)
    ensures RecoversAlone(states, steps, s, sid, j)
    decreases if Recovery in s.threads then Remaining(s.threads[Recovery]) + 1 else 0
  {
    hide Inv, Apply, Enabled, RecoversAlone, Retry, Next, Remaining;
    CompletionsStored(s);
    if Recovery !in s.threads {
      RetryConfirms(s, j);
      RetryStep(s, j);
      var step := OfTail(StepRetry(j, Applied));
      OwnStep(s, step, sid, j);
      states, steps := ThreadRecovers(Apply(s, step), Recovery, sid, j);
      states, steps := Precede(s, step, sid, j, states, steps);
    } else if s.threads[Recovery].Confirmed? && s.threads[Recovery].id == j {
      states, steps := ThreadRecovers(s, Recovery, sid, j);
    } else if s.threads[Recovery].Closing? && s.threads[Recovery].known.Some? {
      states, steps := RecoveryFrees(s, sid, j);
    } else {
      RecoveryNext(s, sid, j);
      var step := Next(s.threads[Recovery], Recovery);
      NextKinds(s.threads[Recovery], Recovery);
      OwnStep(s, step, sid, j);
      states, steps := EntryRecovers(Apply(s, step), sid, j);
      states, steps := Precede(s, step, sid, j, states, steps);
    }
  }

  /** Recovery frees a slot: this one, or another before it takes the entry up. */
  lemma {:induction false} RecoveryFrees(s: State, sid: SessionId, j: JobId) returns (states: seq<State>, steps: seq<Step>)
    requires Deferred(s, sid, j) && Recovery in s.threads && s.threads[Recovery].Closing? && s.threads[Recovery].known.Some?
    ensures RecoversAlone(states, steps, s, sid, j)
    decreases Remaining(s.threads[Recovery]) + 1, 0
  {
    hide Inv, Apply, Enabled, RecoversAlone, FreeSlot;
    RecoveryPcs(s);
    HoldsBorn(s, sid, j);
    FreeSlotOutcome(s, Recovery);
    FreeSlotStep(s, Recovery);
    var step := OfTail(StepFreeSlot(Recovery));
    if s.threads[Recovery].id == j {
      states, steps := LastStep(s, step, sid, j);
    } else {
      StepKeeps(s, step);
      states, steps := EntryRecovers(Apply(s, step), sid, j);
      states, steps := Precede(s, step, sid, j, states, steps);
    }
  }

  // ----- A token, and a worker that wants to give the job back, settle it -----

  lemma ReceiveStep(s: State, t: ThreadId)
    requires CanReceive(s, t)
    ensures var step := OfWorker(StepReceive(t)); var s' := Receive(s, t);
      Enabled(s, step) && Apply(s, step) == s' && s'.jobs == s.jobs && s'.completions == s.completions &&
      s'.queue == s.queue[1..] && s'.limit == s.limit && SameOff(s.threads, s'.threads, t) &&
      (s.queue[0].ForJob? ==> t in s'.threads && s'.threads[t] == Loading(s.queue[0].job))
  {
    hide Take, Load, Requeue, Start, Compile, Finish, Defer, ReleaseSource, Account;
  }

  ghost predicate InChannel(s: State, sid: SessionId, j: JobId) {
    Inv(s) && s.admission.Free? && Holds(s, sid, j) && ByToken(s, j) && j in s.jobs
  }

  lemma {:induction false} TokenRecovers(s: State, sid: SessionId, j: JobId) returns (states: seq<State>, steps: seq<Step>)
    requires InChannel(s, sid, j)
    ensures RecoversAlone(states, steps, s, sid, j)
    decreases |s.queue|
  {
    hide Inv, Apply, Enabled, RecoversAlone, Receive, Next;
    var t := IdleThread(s);
    var step := OfWorker(StepReceive(t));
    ReceiveStep(s, t);
    OwnStep(s, step, sid, j);
    if s.queue[0] == ForJob(j) {
      DriverAlone(Apply(s, step), t, j);
      states, steps := ThreadRecovers(Apply(s, step), t, sid, j);
    } else {
      assert ForJob(j) in s.queue[1..];
      states, steps := TokenRecovers(Apply(s, step), sid, j);
    }
    states, steps := Precede(s, step, sid, j, states, steps);
  }

  lemma RequeueStep(s: State, t: ThreadId)
    requires CanRequeue(s, t)
    ensures var step := OfWorker(StepRequeue(t)); var s' := Requeue(s, t);
      Enabled(s, step) && Apply(s, step) == s' && s'.jobs == s.jobs && s'.queue == s.queue + [ForJob(s.threads[t].id)]
  {
    hide Take, Load, Receive, Start, Compile, Finish, Defer, ReleaseSource, Account;
  }

  ghost predicate GivingBack(s: State, t: ThreadId, sid: SessionId, j: JobId) {
    Inv(s) && s.admission.Free? && Holds(s, sid, j) && t in s.threads && s.threads[t] == Requeueing(j) && j in s.jobs &&
    s.limit > 0
  }

  /** A full channel is drained until there is room for the job. */
  lemma {:induction false} RequeueRecovers(s: State, t: ThreadId, sid: SessionId, j: JobId)
      returns (states: seq<State>, steps: seq<Step>)
    requires GivingBack(s, t, sid, j)
    ensures RecoversAlone(states, steps, s, sid, j)
    decreases |s.queue|
  {
    hide Inv, Apply, Enabled, RecoversAlone, Receive, Requeue;
    var step;
    if HasRoom(s) {
      step := OfWorker(StepRequeue(t));
      RequeueStep(s, t);
      OwnStep(s, step, sid, j);
      states, steps := TokenRecovers(Apply(s, step), sid, j);
    } else {
      var u := IdleThread(s);
      step := OfWorker(StepReceive(u));
      ReceiveStep(s, u);
      OwnStep(s, step, sid, j);
      states, steps := RequeueRecovers(Apply(s, step), t, sid, j);
    }
    states, steps := Precede(s, step, sid, j, states, steps);
  }

  // ----- Every served attempt leaves its slot -----

  lemma UnlockedRecovers(s: State, sid: SessionId, j: JobId) returns (states: seq<State>, steps: seq<Step>)
    requires Inv(s) && s.admission.Free? && s.limit > 0 && Holds(s, sid, j) && Served(s, j)
    ensures RecoversAlone(states, steps, s, sid, j)
  {
    hide Inv, RecoversAlone, Holds;
    if j in s.completions {
      states, steps := EntryRecovers(s, sid, j);
    } else if Known(s, j) {
      var t :| KnowsAt(s, t) == Some(j);
      KnowsSettles(s.threads[t]);
      states, steps := ThreadRecovers(s, t, sid, j);
    } else if ByToken(s, j) {
      states, steps := TokenRecovers(s, sid, j);
    } else {
      var t :| ByThread(s, t, j);
      if s.threads[t].Requeueing? {
        states, steps := RequeueRecovers(s, t, sid, j);
      } else {
        states, steps := ThreadRecovers(s, t, sid, j);
      }
    }
  }

  // ----- The admission lock is given back -----

  /** What the holder of the lock does next, when the store answers. */
  function Unlocking(a: Admission): SessionStep
    requires !a.Free?
  {
    match a
    case Prepared(_, _) => StepRefuse
    case Saved(_, _, _) => StepSupersede(true)
    case Replaced(_, _, _) => StepAccept
    case Aborting(_) => StepAbort(true)
  }

  function Pending(a: Admission): nat {
    match a
    case Free => 0
    case Prepared(_, _) => 1
    case Aborting(_) => 1
    case Replaced(_, _, _) => 1
    case Saved(_, _, _) => 2
  }

  lemma UnlockStep(s: State, sid: SessionId)
    requires Inv(s) && !s.admission.Free?
    ensures var step := OfSession(Unlocking(s.admission));
      Enabled(s, step) && Internal(step) && !SettlesSlot(step) && Pending(Apply(s, step).admission) < Pending(s.admission) &&
      (sid in s.sessions ==>
        sid in Apply(s, step).sessions && Apply(s, step).sessions[sid].expired == s.sessions[sid].expired)
  {
    hide Inv, Open, Expire, Prepare, Refuse, SaveRevision, Supersede, Accept, FailPin, Abort, Schedule, Close;
    LockSession(s);
    match s.admission
    case Prepared(_, _) => RefuseUnlocks(s);
    case Saved(_, _, _) => SupersedeUnlocks(s);
    case Replaced(_, _, _) => AcceptUnlocks(s);
    case Aborting(_) => AbortUnlocks(s);
  }

  lemma RefuseUnlocks(s: State)
    requires CanRefuse(s)
    ensures Refuse(s).admission.Free? && Refuse(s).sessions == s.sessions
  {
    hide Release;
    ReleaseBystands(s.(admission := Free), s.admission.snapshot);
  }

  lemma AbortUnlocks(s: State)
    requires CanAbort(s, true)
    ensures Abort(s, true).admission.Free? && Abort(s, true).sessions == s.sessions
  {
    hide Cancel;
    CancelBystands(s.(admission := Free), s.admission.id, true);
  }

  lemma AcceptUnlocks(s: State)
    requires CanAccept(s)
    ensures Accept(s).admission.Free? && Accept(s).sessions.Keys == s.sessions.Keys
    ensures forall x :: x in s.sessions ==> Accept(s).sessions[x].expired == s.sessions[x].expired
  {
    hide Advance, Schedule;
    AdvanceBystands(s);
    ScheduleBystands(Advance(s), s.admission.session);
  }

  lemma LockSession(s: State)
    requires Inv(s)
    ensures !s.admission.Free? && !s.admission.Aborting? ==> s.admission.session in s.sessions
  {
    hide Tally;
  }

  lemma SupersedeUnlocks(s: State)
    requires CanSupersede(s, true)
    ensures var s' := Supersede(s, true); (s'.admission.Replaced? || s'.admission.Aborting?) && s'.sessions == s.sessions
  {
    hide Cancel;
    var pending := s.sessions[s.admission.session].pending;
    if pending.None? {
    } else if !CancelSucceeds(s, pending.value, true) {
    } else {
      CancelBystands(s, pending.value, true);
    }
  }

  /** The lock holder's steps leave the attempt where it is. */
  lemma UnlockKeeps(s: State, sid: SessionId, j: JobId)
    requires Inv(s) && !s.admission.Free? && Holds(s, sid, j) && Served(s, j)
    ensures var step := OfSession(Unlocking(s.admission));
      Enabled(s, step) && Inv(Apply(s, step)) && Apply(s, step).limit == s.limit &&
      Holds(Apply(s, step), sid, j) && Served(Apply(s, step), j)
  {
    UnlockStep(s, sid);
    SessionsSpent(s);
    hide Inv, SessionApply, SessionEnabled, Unlocking, Served, Pending;
    var step := Unlocking(s.admission);
    StepKeeps(s, OfSession(step));
    StepMode(s, OfSession(step));
    StepKeepsSlots(s, OfSession(step));
    SessionMute(s, step);
    SessionDuties(s, step);
    SessionKeepsRecords(s, step);
    var s' := SessionApply(s, step);
    assert SlotKept(s.sessions[sid], s'.sessions[sid]);
    ServedThrough(s, s', j);
  }

  lemma ServedThrough(s: State, s': State, j: JobId)
    requires Served(s, j) && s'.threads == s.threads && s'.completions == s.completions && s.jobs.Keys <= s'.jobs.Keys
    requires Duties(s, s', Recovery)
    ensures Served(s', j)
  {
    hide Known, Settling;
    if Known(s, j) {
      SameKnown(s, s', j);
    } else {
      assert ByToken(s, j) ==> ByToken(s', j) || ByThread(s', Recovery, j);
      assert forall t :: ByThread(s, t, j) ==> ByThread(s', t, j);
    }
  }

  /** A running attempt that somebody can still settle leaves its slot by steps that the engine takes on its own. */
  lemma {:induction false} ServedRecovers(s: State, sid: SessionId, j: JobId) returns (states: seq<State>, steps: seq<Step>)
    requires Inv(s) && s.limit > 0 && Holds(s, sid, j) && Served(s, j)
    ensures RecoversAlone(states, steps, s, sid, j)
    decreases Pending(s.admission)
  {
    hide Inv, Apply, Enabled, RecoversAlone, Served, Unlocking;
    if s.admission.Free? {
      states, steps := UnlockedRecovers(s, sid, j);
    } else {
      UnlockStep(s, sid);
      UnlockKeeps(s, sid, j);
      var step := OfSession(Unlocking(s.admission));
      states, steps := ServedRecovers(Apply(s, step), sid, j);
      states, steps := Precede(s, step, sid, j, states, steps);
    }
  }

  lemma {:induction false} NeverRecovers(states: seq<State>, steps: seq<Step>, s: State, sid: SessionId, j: JobId, i: nat)
    requires Recovers(states, steps, s, sid, j) && i < |states|
    requires Inv(s) && Holds(s, sid, j) && !Served(s, j)
    ensures Inv(states[i]) && Holds(states[i], sid, j) && !Served(states[i], j)
  {
    hide Inv, Apply, Enabled, Served;
    if i > 0 {
      NeverRecovers(states, steps, s, sid, j, i - 1);
      StepKeeps(states[i - 1], steps[i - 1]);
      StrandedForever(states[i - 1], steps[i - 1], sid, j);
    }
  }

  /**
   In every state of every run, and in both modes: a live session's running
   attempt can leave its slot, other than by closing or expiry, exactly when it
   is served.
   */
  lemma RecoversExactly(native: bool, limit: nat, states: seq<State>, steps: seq<Step>, i: nat, sid: SessionId, j: JobId)
    requires IsRun(native, limit, states, steps) && i < |states| && limit > 0 && Holds(states[i], sid, j)
    ensures Served(states[i], j) <==>
            exists states': seq<State>, steps': seq<Step> :: Recovers(states', steps', states[i], sid, j)
  {
    ReachableInv(native, limit, states, steps, i);
    ModeFixed(native, limit, states, steps, i);
    hide Inv, IsRun, Served;
    var s := states[i];
    if Served(s, j) {
      var states', steps' := ServedRecovers(s, sid, j);
    } else if states': seq<State>, steps': seq<Step> :| Recovers(states', steps', s, sid, j) {
      NeverRecovers(states', steps', s, sid, j, |steps'|);
    }
  }
}
