/**
 The result of a success: what its compile produced, replaced by what cache
 accounting wrote, through every lost write, reload and deferred completion.
 */
module JobResults {
  import opened Options
  import opened Counting
  import opened JobState
  import opened JobSteps
  import opened JobInvariant
  import opened JobMoves
  import opened JobEvolution
  import opened JobWorkers
  import opened JobResponsibility
  import opened JobTruth
  import opened JobService
  import opened JobRuns
  import opened JobReads

  // ----- The value that a run gives a job -----

  /** How an attempt ended, and what it produced. */
  datatype Outcome = Outcome(status: Status, result: nat)

  type Value = Option<Outcome>

  function OutcomeOf(job: Job): Value { Some(Outcome(job.status, job.result)) }

  /** The worker of the job produces a result: by its compile, or by cache accounting. */
  function Valued(s: State, step: Step, j: JobId, value: Value): Value {
    match step
    case OfWorker(StepCompile(t, outcome, result)) =>
      if t in s.threads && s.threads[t].Compiling? && s.threads[t].id == j then Some(Outcome(outcome, result)) else value
    case OfWorker(StepAccount(t, cached, result, w)) =>
      if t in s.threads && s.threads[t].Accounting? && s.threads[t].id == j && cached then Some(Outcome(Succeeded, result))
      else value
    case _ => value
  }

  /** The last such result of the run up to state k. */
  function ValueAt(states: seq<State>, steps: seq<Step>, k: nat, j: JobId): Value
    requires k <= |steps| && |states| == |steps| + 1
  {
    if k == 0 then None else Valued(states[k - 1], steps[k - 1], j, ValueAt(states, steps, k - 1, j))
  }

  // ----- Who carries it -----

  /** A rewrite of the succeeded record is still to come. */
  predicate Rewriting(s: State, j: JobId) { j in s.completions && s.completions[j].from.Succeeded? }

  /** The attempt has ended by itself. */
  predicate Ended(s: State, j: JobId) { HasStatus(s, j, Succeeded) || HasStatus(s, j, Failed) }

  predicate RecordCarries(s: State, j: JobId, value: Value) {
    Ended(s, j) ==> value == OutcomeOf(s.jobs[j]) || (s.jobs[j].status.Succeeded? && Rewriting(s, j))
  }

  predicate EntryCarries(s: State, j: JobId, value: Value) {
    j in s.completions && !s.completions[j].job.status.Cancelled? ==> value == OutcomeOf(s.completions[j].job)
  }

  predicate PcCarries(s: State, pc: Pc, j: JobId, value: Value) {
    match pc
    case Compiling(i, _) => i == j ==> !Ended(s, j)
    case Finishing(i, job) => i == j ==> value == OutcomeOf(job)
    case Releasing(i, job) => i == j && !job.status.Cancelled? ==> value == OutcomeOf(job)
    case Accounting(i, job) => i == j ==> value == OutcomeOf(job)
    case Confirmed(i, _, _) => i == j && Ended(s, j) ==> value == OutcomeOf(s.jobs[j])
    case _ => true
  }

  predicate Carried(s: State, j: JobId, value: Value) {
    RecordCarries(s, j, value) && EntryCarries(s, j, value) &&
    forall t :: t in s.threads ==> PcCarries(s, s.threads[t], j, value)
  }

  // ----- Steps that do not touch it -----

  /** The program counter carries nothing of the job. */
  predicate Idle(s: State, pc: Pc, j: JobId) {
    match pc
    case Compiling(i, _) => i == j ==> !Ended(s, j)
    case Finishing(i, _) => i != j
    case Releasing(i, _) => i != j
    case Accounting(i, _) => i != j
    case Confirmed(i, _, _) => i != j
    case _ => true
  }

  predicate RecordQuiet(s: State, s': State, j: JobId) {
    Ended(s', j) ==> Ended(s, j) && s'.jobs[j] == s.jobs[j]
  }

  predicate EntryQuiet(s: State, s': State, j: JobId) {
    (j in s'.completions <==> j in s.completions) && (j in s.completions ==> s'.completions[j] == s.completions[j])
  }

  predicate Quiet(s: State, s': State, j: JobId) {
    RecordQuiet(s, s', j) && EntryQuiet(s, s', j) &&
    forall t :: t in s'.threads ==> (t in s.threads && s'.threads[t] == s.threads[t]) || Idle(s', s'.threads[t], j)
  }

  lemma QuietCarries(s: State, s': State, j: JobId, value: Value)
    requires Carried(s, j, value) && Quiet(s, s', j)
    ensures Carried(s', j, value)
  {
    forall t | t in s'.threads ensures PcCarries(s', s'.threads[t], j, value) {
      if t in s.threads && s'.threads[t] == s.threads[t] {
        assert PcCarries(s, s.threads[t], j, value);
      }
    }
  }

  /** Records as they were, threads that stay or are removed, or one that arrives with nothing. */
  lemma MoverQuiet(s: State, s': State, t: ThreadId, j: JobId)
    requires RecordQuiet(s, s', j) && EntryQuiet(s, s', j) && SameOff(s.threads, s'.threads, t)
    requires t in s'.threads ==> Idle(s', s'.threads[t], j)
    ensures Quiet(s, s', j)
  {
  }

  lemma SettledQuiet(s: State, s': State, j: JobId)
    requires RecordQuiet(s, s', j) && s'.completions == s.completions && s'.threads == s.threads
    ensures Quiet(s, s', j)
  {
  }

  lemma TransitionQuiet(s: State, i: JobId, expected: Status, next: Job, j: JobId)
    requires i == j && HasStatus(s, i, expected) ==> !next.status.Succeeded? && !next.status.Failed?
    ensures RecordQuiet(s, Transition(s, i, expected, next), j)
  {
    if HasStatus(s, i, expected) {
    } else {
    }
  }

  lemma CancelQuiet(s: State, i: JobId, ok: bool, j: JobId)
    ensures RecordQuiet(s, Cancel(s, i, ok), j)
    ensures Cancel(s, i, ok).threads == s.threads && Cancel(s, i, ok).completions == s.completions
  {
    CancelFrame(s, i, ok);
    hide Cancel;
  }

  lemma ClientQuiet(s: State, step: ClientStep, j: JobId)
    requires ClientEnabled(s, step)
    ensures Quiet(s, ClientApply(s, step), j)
  {
    hide Quiet, Release, Cancel, Transition, Admit;
    match step
    case StepPinSource(t, x) => MoverQuiet(s, PinSource(s, t, x), t, j);
    case StepAdmit(t, i, ok) => AdmitQuiet(s, t, i, ok, j);
    case StepReject(t) =>
      ReleaseUntouched(EndThread(s, t), s.threads[t].snapshot);
      MoverQuiet(s, Reject(s, t), t, j);
    case StepWithdraw(t, ok) =>
      CancelQuiet(EndThread(s, t), s.threads[t].id, ok, j);
      MoverQuiet(s, Withdraw(s, t, ok), t, j);
    case StepUserCancel(i) =>
      CancelQuiet(s, i, true, j);
      TransitionQuiet(s, i, Running, Cancelling(s.jobs[i]), j);
      TransitionFrame(s, i, Running, Cancelling(s.jobs[i]));
      SettledQuiet(s, UserCancel(s, i), j);
    case StepSweep(swept) => SettledQuiet(s, Sweep(s, swept), j);
  }

  lemma AdmitQuiet(s: State, t: ThreadId, i: JobId, ok: bool, j: JobId)
    requires CanAdmit(s, t, i, ok)
    ensures Quiet(s, Admit(s, t, i, ok), j)
  {
    hide Quiet, PendingCount, HasRoom, SetThread, EndThread, Save, Push;
    var x := s.threads[t].snapshot;
    var saved := Save(s, i, Birth(x, None, 0));
    SavedQuiet(s, i, Birth(x, None, 0), j);
    if PendingCount(s) >= s.limit || !ok {
      MovesQuiet(s, t, Rejected(x), j);
    } else if HasRoom(s) {
      EndsQuiet(Push(saved, ForJob(i)), t, j);
      SameQuiet(s, Push(saved, ForJob(i)), EndThread(Push(saved, ForJob(i)), t), j);
    } else {
      MovesQuiet(saved, t, Withdrawing(i), j);
      SameQuiet(s, saved, SetThread(saved, t, Withdrawing(i)), j);
    }
  }

  lemma SavedQuiet(s: State, i: JobId, birth: Birth, j: JobId)
    ensures var saved := Save(s, i, birth);
      RecordQuiet(s, saved, j) && saved.completions == s.completions && saved.threads == s.threads
    ensures var pushed := Push(Save(s, i, birth), ForJob(i));
      RecordQuiet(s, pushed, j) && pushed.completions == s.completions && pushed.threads == s.threads
  {
  }

  lemma SessionQuiet(s: State, step: SessionStep, j: JobId)
    requires SessionEnabled(s, step)
    ensures Quiet(s, SessionApply(s, step), j)
  {
    SessionMute(s, step);
    SessionRecordQuiet(s, step, j);
    hide Quiet, SessionApply;
    SettledQuiet(s, SessionApply(s, step), j);
  }

  lemma SessionRecordQuiet(s: State, step: SessionStep, j: JobId)
    requires SessionEnabled(s, step)
    ensures RecordQuiet(s, SessionApply(s, step), j)
  {
    hide Release, Cancel, Advance, Schedule, Close, Supersede;
    match step
    case StepOpen(sid) =>
    case StepExpire(sid) =>
    case StepPrepare(sid, x) =>
    case StepRefuse => ReleaseUntouched(s.(admission := Free), s.admission.snapshot);
    case StepSaveRevision(i) =>
    case StepSupersede(ok) => SupersedeQuiet(s, ok, j);
    case StepAccept => AcceptQuiet(s, j);
    case StepFailPin =>
    case StepAbort(ok) => CancelQuiet(s.(admission := Free), s.admission.id, ok, j);
    case StepReschedule(sid) => ScheduleUntouched(s, sid);
    case StepClose(sid, okPending, okRunning) => CloseQuiet(s, sid, okPending, okRunning, j);
  }

  lemma SupersedeQuiet(s: State, ok: bool, j: JobId)
    requires CanSupersede(s, ok)
    ensures RecordQuiet(s, Supersede(s, ok), j)
  {
    hide Cancel;
    var pending := s.sessions[s.admission.session].pending;
    if pending.None? {
    } else if !CancelSucceeds(s, pending.value, ok) {
    } else {
      CancelQuiet(s, pending.value, ok, j);
    }
  }

  lemma AcceptQuiet(s: State, j: JobId)
    requires CanAccept(s)
    ensures RecordQuiet(s, Accept(s), j)
  {
    hide Schedule, Release;
    ScheduleUntouched(Advance(s), s.admission.session);
    var session := s.sessions[s.admission.session];
    if session.snapshot.Some? {
      ReleaseUntouched(Pin(s, s.admission.snapshot), session.snapshot.value);
    } else {
    }
  }

  lemma CloseQuiet(s: State, sid: SessionId, okPending: bool, okRunning: bool, j: JobId)
    requires CanClose(s, sid, okPending, okRunning)
    ensures RecordQuiet(s, Close(s, sid, okPending, okRunning), j)
  {
    hide Cancel, Remove, CancelRunning;
    var s1 := CancelPending(s, sid);
    if s.sessions[sid].pending.Some? {
      CancelQuiet(s, s.sessions[sid].pending.value, true, j);
      CancelFrame(s, s.sessions[sid].pending.value, true);
    } else {
    }
    var running := s.sessions[sid].running;
    if running.Some? && Interruptible(s, running.value) && !okRunning {
    } else {
      CancelRunningQuiet(s1, sid, j);
      CancelRunningFrame(s1, sid);
      RemoveRecords(CancelRunning(s1, sid), sid);
    }
  }

  lemma CancelRunningQuiet(s: State, sid: SessionId, j: JobId)
    requires sid in s.sessions
    ensures RecordQuiet(s, CancelRunning(s, sid), j)
  {
    hide Transition;
    var running := s.sessions[sid].running;
    if running.Some? && Interruptible(s, running.value) && HasStatus(s, running.value, Running) {
      TransitionQuiet(s, running.value, Running, Cancelling(s.jobs[running.value]), j);
    } else {
    }
  }

  // ----- Workers -----

  lemma TakeQuiet(s: State, t: ThreadId, j: JobId)
    requires CanTake(s, t)
    ensures Quiet(s, Take(s, t), j)
  {
    hide Quiet, SetThread, EndThread;
    var sid := s.threads[t].session;
    if sid !in s.sessions {
      EndsQuiet(s, t, j);
    } else {
      var session := s.sessions[sid];
      if session.running.Some? || session.pending.None? {
        var s1 := s.(sessions := s.sessions[sid := session.(scheduled := false)]);
        EndsQuiet(s1, t, j);
        SameQuiet(s, s1, EndThread(s1, t), j);
      } else {
        var s1 := s.(sessions := s.sessions[sid := session.(scheduled := false, pending := None, running := session.pending)]);
        MovesQuiet(s1, t, Loading(session.pending.value), j);
        SameQuiet(s, s1, SetThread(s1, t, Loading(session.pending.value)), j);
      }
    }
  }

  lemma SameQuiet(s: State, s1: State, s': State, j: JobId)
    requires RecordQuiet(s, s1, j) && s1.completions == s.completions && s1.threads == s.threads && Quiet(s1, s', j)
    ensures Quiet(s, s', j)
  {
  }

  lemma LoadQuiet(s: State, t: ThreadId, ok: bool, j: JobId)
    requires CanLoad(s, t, ok)
    ensures Quiet(s, Load(s, t, ok), j)
  {
    hide Quiet, SetThread, EndThread;
    var i := s.threads[t].id;
    if !ok {
      MovesQuiet(s, t, Requeueing(i), j);
    } else if i in s.jobs {
      MovesQuiet(s, t, Loaded(i, s.jobs[i]), j);
    } else if s.native {
      MovesQuiet(s, t, Requeueing(i), j);
    } else {
      EndsQuiet(s, t, j);
    }
  }

  lemma MovesQuiet(s: State, t: ThreadId, pc: Pc, j: JobId)
    requires !pc.Compiling? && !pc.Finishing? && !pc.Releasing? && !pc.Accounting? && !pc.Confirmed?
    ensures Quiet(s, SetThread(s, t, pc), j)
  {
  }

  lemma EndsQuiet(s: State, t: ThreadId, j: JobId)
    ensures Quiet(s, EndThread(s, t), j)
  {
  }

  lemma DisownedQuiet(s: State, t: ThreadId, i: JobId, ok: bool, j: JobId)
    ensures Quiet(s, Cancel(SetThread(s, t, Ending(i, None)), i, ok), j)
  {
    hide Cancel;
    CancelQuiet(SetThread(s, t, Ending(i, None)), i, ok, j);
  }

  lemma StartQuiet(s: State, t: ThreadId, ok: bool, j: JobId)
    requires CanStart(s, t, ok)
    ensures Quiet(s, Start(s, t, ok), j)
  {
    hide Quiet, Cancel, Transition, OwnsAttempt, Started, SetThread;
    var i, seen := s.threads[t].id, s.threads[t].seen;
    if !seen.status.Queued? {
      MovesQuiet(s, t, Ending(i, if seen.status.Terminal() then Some(seen.status) else None), j);
    } else if !OwnsAttempt(s, i, seen.birth) {
      DisownedQuiet(s, t, i, ok, j);
    } else if !ok {
      MovesQuiet(s, t, Requeueing(i), j);
    } else if !HasStatus(s, i, Queued) {
      MovesQuiet(s, t, Deactivating(i, None), j);
    } else {
      StartsAs(s, t, ok);
      hide Start;
      StartedQuiet(s, t, j);
    }
  }

  lemma StartedQuiet(s: State, t: ThreadId, j: JobId)
    requires t in s.threads && s.threads[t].Loaded? && HasStatus(s, s.threads[t].id, Queued)
    ensures Quiet(s, Started(s, t), j)
  {
    hide Quiet;
    MoverQuiet(s, Started(s, t), t, j);
  }

  /** The worker's job is carried by this thread alone. */
  lemma DriverCarries(s: State, t: ThreadId, j: JobId, value: Value)
    requires Inv(s) && t in s.threads && Driven(s.threads[t]) == Some(j) && Carried(s, j, value)
    ensures Ended(s, j) ==> value == OutcomeOf(s.jobs[j])
    ensures j !in s.completions && Alone(s, t, j)
    ensures PcCarries(s, s.threads[t], j, value)
  {
    DriverAlone(s, t, j);
    hide Inv;
  }

  /** After a step of that worker, the record, the entry and its own program counter decide. */
  lemma WorkerCarries(s: State, s': State, t: ThreadId, j: JobId, value: Value)
    requires SameOff(s.threads, s'.threads, t) && Alone(s, t, j)
    requires RecordCarries(s', j, value) && EntryCarries(s', j, value)
    requires t in s'.threads ==> PcCarries(s', s'.threads[t], j, value)
    ensures Carried(s', j, value)
  {
  }

  lemma CompileCarries(s: State, t: ThreadId, outcome: Status, result: nat, j: JobId, value: Value)
    requires Inv(s) && CanCompile(s, t, outcome) && Carried(s, j, value)
    ensures Carried(Compile(s, t, outcome, result), j, Valued(s, OfWorker(StepCompile(t, outcome, result)), j, value))
  {
    hide Inv, Carried, Quiet;
    var s' := Compile(s, t, outcome, result);
    if s.threads[t].id == j {
      DriverCarries(s, t, j, value);
      WorkerCarries(s, s', t, j, Valued(s, OfWorker(StepCompile(t, outcome, result)), j, value));
    } else {
      MoverQuiet(s, s', t, j);
      QuietCarries(s, s', j, value);
    }
  }

  lemma FinishCarries(s: State, t: ThreadId, w: Write, j: JobId, value: Value)
    requires Inv(s) && CanFinish(s, t, w) && Carried(s, j, value)
    ensures Carried(Finish(s, t, w), j, value)
  {
    hide Inv, Carried, Quiet, Finish, RecordCarries, EntryCarries;
    if s.threads[t].id == j {
      DriverCarries(s, t, j, value);
      FinishOwn(s, t, w, value);
      WorkerCarries(s, Finish(s, t, w), t, j, value);
    } else {
      FinishOther(s, t, w, j);
      QuietCarries(s, Finish(s, t, w), j, value);
    }
  }

  /** What the worker of the job leaves after a step. */
  ghost predicate OwnCarries(s: State, s': State, t: ThreadId, j: JobId, value: Value) {
    RecordCarries(s', j, value) && EntryCarries(s', j, value) && SameOff(s.threads, s'.threads, t) &&
    t in s'.threads && PcCarries(s', s'.threads[t], j, value)
  }

  predicate Finishable(s: State, t: ThreadId, value: Value) {
    t in s.threads && s.threads[t].Finishing? &&
    var j := s.threads[t].id;
    (Ended(s, j) ==> value == OutcomeOf(s.jobs[j])) && j !in s.completions && PcCarries(s, s.threads[t], j, value)
  }

  lemma FinishOwn(s: State, t: ThreadId, w: Write, value: Value)
    requires CanFinish(s, t, w) && Finishable(s, t, value)
    ensures OwnCarries(s, Finish(s, t, w), t, s.threads[t].id, value)
  {
    hide OwnCarries, Finishable, Transition;
    var j, done := s.threads[t].id, s.threads[t].done;
    if w.Lost? {
      FinishNothing(s, t, value);
    } else if HasStatus(s, j, Running) {
      FinishWrites(s, t, value);
      if w.Applied? {
      } else {
      }
    } else if j in s.jobs && s.jobs[j].status.Terminal() {
      FinishReloads(s, t, value);
    } else {
      FinishNothing(s, t, value);
    }
  }

  lemma FinishNothing(s: State, t: ThreadId, value: Value)
    requires Finishable(s, t, value)
    ensures OwnCarries(s, s, t, s.threads[t].id, value)
  {
  }

  lemma FinishWrites(s: State, t: ThreadId, value: Value)
    requires Finishable(s, t, value) && HasStatus(s, s.threads[t].id, Running)
    ensures var j, done := s.threads[t].id, s.threads[t].done; var written := Transition(s, j, Running, done);
      OwnCarries(s, written, t, j, value) && OwnCarries(s, SetThread(written, t, Releasing(j, done)), t, j, value)
  {
  }

  lemma FinishReloads(s: State, t: ThreadId, value: Value)
    requires Finishable(s, t, value) && s.threads[t].id in s.jobs && s.jobs[s.threads[t].id].status.Terminal()
    ensures var j, done := s.threads[t].id, s.threads[t].done;
      OwnCarries(s, SetThread(s, t, Releasing(j, done.(status := s.jobs[j].status, result := s.jobs[j].result))), t, j, value)
  {
  }

  lemma SameRecords(s: State, s': State, j: JobId)
    requires s'.jobs == s.jobs
    ensures RecordQuiet(s, s', j)
  {
  }

  lemma WrittenOther(s: State, t: ThreadId, w: Write, j: JobId)
    requires CanFinish(s, t, w) && s.threads[t].id != j && !w.Lost? && HasStatus(s, s.threads[t].id, Running)
    ensures Quiet(s, Finish(s, t, w), j)
  {
    hide Quiet, Transition;
    var i, done := s.threads[t].id, s.threads[t].done;
    TransitionQuiet(s, i, Running, done, j);
    TransitionFrame(s, i, Running, done);
    if w.Applied? {
      MoverQuiet(s, Finish(s, t, w), t, j);
    } else {
      SettledQuiet(s, Finish(s, t, w), j);
    }
  }

  lemma FinishOther(s: State, t: ThreadId, w: Write, j: JobId)
    requires CanFinish(s, t, w) && s.threads[t].id != j
    ensures Quiet(s, Finish(s, t, w), j)
  {
    hide Quiet, Transition, RecordQuiet;
    var i, done := s.threads[t].id, s.threads[t].done;
    if w.Lost? {
      SameRecords(s, s, j);
      SettledQuiet(s, s, j);
    } else if HasStatus(s, i, Running) {
      WrittenOther(s, t, w, j);
    } else if i in s.jobs && s.jobs[i].status.Terminal() {
      SameRecords(s, Finish(s, t, w), j);
      MoverQuiet(s, Finish(s, t, w), t, j);
    } else {
      SameRecords(s, s, j);
      SettledQuiet(s, s, j);
    }
  }

  lemma DeferCarries(s: State, t: ThreadId, j: JobId, value: Value)
    requires Inv(s) && CanDefer(s, t) && Carried(s, j, value)
    ensures Carried(Defer(s, t), j, value)
  {
    hide Inv, Carried, Quiet;
    var s' := Defer(s, t);
    if s.threads[t].id == j {
      DriverCarries(s, t, j, value);
      WorkerCarries(s, s', t, j, value);
    } else {
      MoverQuiet(s, s', t, j);
      QuietCarries(s, s', j, value);
    }
  }

  lemma ReleaseSourceCarries(s: State, t: ThreadId, j: JobId, value: Value)
    requires Inv(s) && CanReleaseSource(s, t) && Carried(s, j, value)
    ensures Carried(ReleaseSource(s, t), j, value)
  {
    hide Inv, Carried, Quiet, Release;
    var pc, s' := s.threads[t], ReleaseSource(s, t);
    if pc.job.status.Succeeded? {
      ReleaseUntouched(SetThread(s, t, Accounting(pc.id, pc.job)), pc.job.birth.snapshot);
    } else {
      ReleaseUntouched(SetThread(s, t, Deactivating(pc.id, Some(pc.job.status))), pc.job.birth.snapshot);
    }
    if pc.id == j {
      DriverCarries(s, t, j, value);
      WorkerCarries(s, s', t, j, value);
    } else {
      MoverQuiet(s, s', t, j);
      QuietCarries(s, s', j, value);
    }
  }

  lemma AccountCarries(s: State, t: ThreadId, cached: bool, result: nat, w: Write, j: JobId, value: Value)
    requires Inv(s) && CanAccount(s, t, w) && Carried(s, j, value)
    ensures Carried(Account(s, t, cached, result, w), j, Valued(s, OfWorker(StepAccount(t, cached, result, w)), j, value))
  {
    hide Inv, Carried, Quiet, Account, RecordCarries, EntryCarries;
    OwnerKnows(s, t);
    if s.threads[t].id == j {
      DriverCarries(s, t, j, value);
      AccountOwn(s, t, cached, result, w, value);
      WorkerCarries(s, Account(s, t, cached, result, w), t, j, Valued(s, OfWorker(StepAccount(t, cached, result, w)), j, value));
    } else {
      AccountOther(s, t, cached, result, w, j);
      QuietCarries(s, Account(s, t, cached, result, w), j, value);
    }
  }

  lemma AccountOther(s: State, t: ThreadId, cached: bool, result: nat, w: Write, j: JobId)
    requires CanAccount(s, t, w) && HasStatus(s, s.threads[t].id, Succeeded) && s.threads[t].job.status.Succeeded?
    requires s.threads[t].id != j
    ensures Quiet(s, Account(s, t, cached, result, w), j)
  {
    hide Account, Quiet;
    AccountTold(s, t, cached, result, w);
    MoverQuiet(s, Account(s, t, cached, result, w), t, j);
  }

  lemma AccountOwn(s: State, t: ThreadId, cached: bool, result: nat, w: Write, value: Value)
    requires CanAccount(s, t, w) && s.threads[t].job.status.Succeeded?
    requires var j := s.threads[t].id;
      HasStatus(s, j, Succeeded) && value == OutcomeOf(s.jobs[j]) && j !in s.completions
    ensures var j, s' := s.threads[t].id, Account(s, t, cached, result, w); var value' := if cached then Some(Outcome(Succeeded, result)) else value;
      RecordCarries(s', j, value') && EntryCarries(s', j, value') && SameOff(s.threads, s'.threads, t) &&
      t in s'.threads && PcCarries(s', s'.threads[t], j, value')
  {
    if !cached {
    } else if w.Lost? {
    } else if w.Applied? {
    } else {
    }
  }

  lemma WorkerStepCarries(s: State, step: WorkerStep, j: JobId, value: Value)
    requires Inv(s) && WorkerEnabled(s, step) && Carried(s, j, value)
    ensures Carried(WorkerApply(s, step), j, Valued(s, OfWorker(step), j, value))
  {
    hide Inv, Carried, Quiet, Take, Load, Start, Finish, ReleaseSource, Account;
    match step
    case StepReceive(t) => MoverQuiet(s, Receive(s, t), t, j); QuietCarries(s, Receive(s, t), j, value);
    case StepTake(t) => TakeQuiet(s, t, j); QuietCarries(s, Take(s, t), j, value);
    case StepLoad(t, ok) => LoadQuiet(s, t, ok, j); QuietCarries(s, Load(s, t, ok), j, value);
    case StepRequeue(t) => MoverQuiet(s, Requeue(s, t), t, j); QuietCarries(s, Requeue(s, t), j, value);
    case StepStart(t, ok) => StartQuiet(s, t, ok, j); QuietCarries(s, Start(s, t, ok), j, value);
    case StepCompile(t, outcome, result) => CompileCarries(s, t, outcome, result, j, value);
    case StepFinish(t, w) => FinishCarries(s, t, w, j, value);
    case StepDefer(t) => DeferCarries(s, t, j, value);
    case StepReleaseSource(t) => ReleaseSourceCarries(s, t, j, value);
    case StepAccount(t, cached, result, w) => AccountCarries(s, t, cached, result, w, j, value);
  }

  // ----- The tail and recovery -----

  /** Nobody but recovery has any business with the job. */
  predicate Abandoned(s: State, j: JobId) {
    forall u :: u in s.threads ==> Driven(s.threads[u]) != Some(j) && !(s.threads[u].Confirmed? && s.threads[u].id == j)
  }

  lemma EntryAbandoned(s: State, j: JobId)
    requires Inv(s) && Recovery !in s.threads && j in s.completions
    ensures Abandoned(s, j) && CompletionOk(s, j)
  {
    hide Tally;
    CompletionFacts(s, j);
    UndrivenMeans(s, j);
    forall u | u in s.threads ensures !(s.threads[u].Confirmed? && s.threads[u].id == j) {
      assert PcOk(s, u, s.threads[u]);
    }
  }

  lemma RecoveryCarries(s: State, s': State, j: JobId, value: Value)
    requires Abandoned(s, j) && SameOff(s.threads, s'.threads, Recovery)
    requires RecordCarries(s', j, value) && EntryCarries(s', j, value)
    requires Recovery in s'.threads ==> PcCarries(s', s'.threads[Recovery], j, value)
    ensures Carried(s', j, value)
  {
  }

  /** Recovery writes the entry's job, or finds another outcome; either way the record has the value once it is confirmed. */
  lemma RetryCarries(s: State, i: JobId, w: Write, j: JobId, value: Value)
    requires Inv(s) && CanRetry(s, i, w) && Carried(s, j, value)
    ensures Carried(Retry(s, i, w), j, value)
  {
    hide Inv, CompletionOk, Carried, Quiet, Retry, Abandoned, RecordCarries, EntryCarries;
    if i == j {
      EntryAbandoned(s, j);
      CarriedParts(s, j, value);
      RetryOwn(s, j, w, value);
      RecoveryCarries(s, Retry(s, j, w), j, value);
    } else {
      RetryOther(s, i, w, j);
      QuietCarries(s, Retry(s, i, w), j, value);
    }
  }

  lemma CarriedParts(s: State, j: JobId, value: Value)
    requires Carried(s, j, value)
    ensures RecordCarries(s, j, value) && EntryCarries(s, j, value)
  {
  }

  lemma RetryOwn(s: State, j: JobId, w: Write, value: Value)
    requires CanRetry(s, j, w) && CompletionOk(s, j) && RecordCarries(s, j, value) && EntryCarries(s, j, value)
    ensures var s' := Retry(s, j, w);
      RecordCarries(s', j, value) && EntryCarries(s', j, value) && SameOff(s.threads, s'.threads, Recovery) &&
      (Recovery in s'.threads ==> PcCarries(s', s'.threads[Recovery], j, value))
  {
    hide Tally;
    var entry := s.completions[j];
    if w.Lost? {
    } else if HasStatus(s, j, entry.from) {
      if w.Applied? {
      } else {
      }
    } else if j in s.jobs && s.jobs[j].status.Terminal() {
    } else {
    }
  }

  lemma RetryOther(s: State, i: JobId, w: Write, j: JobId)
    requires CanRetry(s, i, w) && i != j
    ensures Quiet(s, Retry(s, i, w), j)
  {
    hide Quiet, Transition;
    var entry := s.completions[i];
    TransitionFrame(s, i, entry.from, entry.job);
    TransitionQuiet(s, i, entry.from, entry.job, j);
    if w.Lost? {
      SettledQuiet(s, s, j);
    } else if HasStatus(s, i, entry.from) {
      if w.Applied? {
        MoverQuiet(s, Retry(s, i, w), Recovery, j);
      } else {
        SettledQuiet(s, Retry(s, i, w), j);
      }
    } else if i in s.jobs && s.jobs[i].status.Terminal() {
      MoverQuiet(s, Retry(s, i, w), Recovery, j);
    } else {
      SettledQuiet(s, s, j);
    }
  }

  /** What recovery has confirmed is in the record. */
  lemma DropCarries(s: State, j: JobId, value: Value)
    requires Inv(s) && CanDrop(s) && Carried(s, j, value)
    ensures Carried(Drop(s), j, value)
  {
    hide Inv;
    var s' := Drop(s);
    assert PcCarries(s, s.threads[Recovery], j, value);
    forall u | u in s'.threads ensures PcCarries(s', s'.threads[u], j, value) {
      if u != Recovery {
        assert PcCarries(s, s.threads[u], j, value);
      }
    }
  }

  lemma UnpinQuiet(s: State, j: JobId)
    requires CanUnpin(s)
    ensures Quiet(s, Unpin(s), j)
  {
    hide Quiet, Release;
    var pc := s.threads[Recovery];
    if pc.entry.from.Running? {
      ReleaseUntouched(SetThread(s, Recovery, Ending(pc.id, Some(pc.status))), pc.entry.job.birth.snapshot);
    } else {
    }
    MoverQuiet(s, Unpin(s), Recovery, j);
  }

  lemma FreeSlotQuiet(s: State, t: ThreadId, j: JobId)
    requires CanFreeSlot(s, t)
    ensures Quiet(s, FreeSlot(s, t), j)
  {
    hide Quiet, FreeSlot;
    FreeSlotUntouched(s, t);
    FreeSlotThreads(s, t);
    MoverQuiet(s, FreeSlot(s, t), t, j);
  }

  lemma FreeSlotThreads(s: State, t: ThreadId)
    requires CanFreeSlot(s, t)
    ensures FreeSlot(s, t).threads == s.threads[t := Gating(s.threads[t].id)] && FreeSlot(s, t).completions == s.completions
  {
    hide Schedule;
    var j, status := s.threads[t].id, s.threads[t].known.value;
    var birth := s.born[j];
    if birth.session.None? || birth.session.value !in s.sessions || s.sessions[birth.session.value].running != Some(j) {
    } else {
      var sid := birth.session.value;
      ScheduleKept(SetThread(s, t, Gating(j)).(sessions := s.sessions[sid := Freed(s.sessions[sid], j, status, birth.revision)]), sid);
    }
  }

  lemma EndGateQuiet(s: State, t: ThreadId, j: JobId)
    requires CanEndGate(s, t)
    ensures Quiet(s, EndGate(s, t), j)
  {
    hide Quiet, CloseGate;
    CloseGateFrame(EndThread(s, t), s.threads[t].id);
    MoverQuiet(s, EndGate(s, t), t, j);
  }

  lemma TailStepCarries(s: State, step: TailStep, j: JobId, value: Value)
    requires Inv(s) && TailEnabled(s, step) && Carried(s, j, value)
    ensures Carried(TailApply(s, step), j, value)
  {
    hide Inv, Carried, Quiet, FreeSlot, EndGate, Retry, Drop, Unpin;
    match step
    case StepDeactivate(t) => MoverQuiet(s, Deactivate(s, t), t, j); QuietCarries(s, Deactivate(s, t), j, value);
    case StepCheck(t) => MoverQuiet(s, Check(s, t), t, j); QuietCarries(s, Check(s, t), j, value);
    case StepReload(t) => MoverQuiet(s, Reload(s, t), t, j); QuietCarries(s, Reload(s, t), j, value);
    case StepFreeSlot(t) => FreeSlotQuiet(s, t, j); QuietCarries(s, FreeSlot(s, t), j, value);
    case StepEndGate(t) => EndGateQuiet(s, t, j); QuietCarries(s, EndGate(s, t), j, value);
    case StepRetry(i, w) => RetryCarries(s, i, w, j, value);
    case StepDrop => DropCarries(s, j, value);
    case StepUnpin => UnpinQuiet(s, j); QuietCarries(s, Unpin(s), j, value);
    case StepForget(i) => SettledQuiet(s, Forget(s, i), j); QuietCarries(s, Forget(s, i), j, value);
  }

  /** Every step carries the value of every job on, or gives it a new one. */
  lemma StepCarries(s: State, step: Step, j: JobId, value: Value)
    requires Inv(s) && Enabled(s, step) && Carried(s, j, value)
    ensures Carried(Apply(s, step), j, Valued(s, step, j, value))
  {
    hide Inv, Carried, Quiet, ClientApply, SessionApply, WorkerApply, TailApply;
    match step
    case OfClient(x) => ClientQuiet(s, x, j); QuietCarries(s, ClientApply(s, x), j, value);
    case OfSession(x) => SessionQuiet(s, x, j); QuietCarries(s, SessionApply(s, x), j, value);
    case OfWorker(x) => WorkerStepCarries(s, x, j, value);
    case OfTail(x) => TailStepCarries(s, x, j, value);
  }

  // ----- Runs -----

  lemma NothingCarried(native: bool, limit: nat, j: JobId)
    ensures Carried(Initial(native, limit), j, None)
  {
  }

  lemma {:induction false} CarriedUpTo(native: bool, limit: nat, states: seq<State>, steps: seq<Step>, k: nat, j: JobId)
    requires IsRun(native, limit, states, steps) && k < |states|
    ensures Carried(states[k], j, ValueAt(states, steps, k, j))
  {
    hide Inv, Apply, Enabled, Carried, Valued;
    if k == 0 {
      NothingCarried(native, limit, j);
    } else {
      CarriedUpTo(native, limit, states, steps, k - 1, j);
      ReachableInv(native, limit, states, steps, k - 1);
      StepCarries(states[k - 1], steps[k - 1], j, ValueAt(states, steps, k - 1, j));
    }
  }

  /**
   A success whose gate is closed is one, and has the result that its worker produced last:
   what the compile reported, or what cache accounting put in its place.  Lost
   and unacknowledged writes, and deferred ones that recovery delivers, make no
   difference.
   */
  lemma FinalResult(native: bool, limit: nat, states: seq<State>, steps: seq<Step>, k: nat, j: JobId)
    requires IsRun(native, limit, states, steps) && k < |states| && Final(states[k], j)
    ensures ValueAt(states, steps, k, j) == Some(Outcome(Succeeded, states[k].jobs[j].result))
  {
    hide Inv, Apply, Enabled, IsRun;
    CarriedUpTo(native, limit, states, steps, k, j);
    ReachableInv(native, limit, states, steps, k);
    NothingOwed(states[k], j);
  }

  /** No record says that an attempt failed, or succeeded, unless its compile did; a failure has the result of it. */
  lemma StoredOutcome(native: bool, limit: nat, states: seq<State>, steps: seq<Step>, k: nat, j: JobId)
    requires IsRun(native, limit, states, steps) && k < |states| && Ended(states[k], j)
    ensures ValueAt(states, steps, k, j).Some? && ValueAt(states, steps, k, j).value.status == states[k].jobs[j].status
    ensures HasStatus(states[k], j, Failed) ==> ValueAt(states, steps, k, j).value.result == states[k].jobs[j].result
  {
    hide Inv, Apply, Enabled, IsRun;
    CarriedUpTo(native, limit, states, steps, k, j);
    ReachableInv(native, limit, states, steps, k);
    if Rewriting(states[k], j) {
      CompletionFacts(states[k], j);
    }
  }

  /** So a read that returns a success returns it with that result. */
  lemma ReadResult(native: bool, limit: nat, states: seq<State>, steps: seq<Step>, now: nat, j: JobId, job: Job)
    requires IsRun(native, limit, states, steps) && Read(states, now, j, job) && job.status.Succeeded?
    ensures exists m :: now <= m < |states| && ValueAt(states, steps, m, j) == Some(Outcome(Succeeded, job.result))
  {
    hide Inv, Apply, Enabled, IsRun;
    var m :| now <= m < |states| && j in states[m].jobs && states[m].jobs[j] == job && Final(states[m], j);
    FinalResult(native, limit, states, steps, m, j);
  }

  // ----- Once -----

  /** No worker has the attempt in hand. */
  predicate Silent(s: State, j: JobId) { forall t :: t in s.threads ==> !InHand(s.threads[t], j) }

  predicate InHand(pc: Pc, j: JobId) {
    (pc.Compiling? || pc.Finishing? || pc.Releasing? || pc.Accounting?) && pc.id == j
  }

  /** Only a worker that has it in hand, or one that starts it, comes to have it in hand. */
  lemma QuietSilent(s: State, s': State, j: JobId)
    requires Silent(s, j) && Quiet(s, s', j) && Inv(s') && (j in s'.jobs ==> Ended(s', j))
    ensures Silent(s', j)
  {
    hide Inv;
    forall t | t in s'.threads ensures !InHand(s'.threads[t], j) {
      if s'.threads[t].Compiling? && s'.threads[t].id == j {
        CompilingStored(s', t);
      }
    }
  }

  lemma CompilingStored(s: State, t: ThreadId)
    requires Inv(s) && t in s.threads && s.threads[t].Compiling?
    ensures s.threads[t].id in s.jobs
  {
    hide Tally;
    assert PcOk(s, t, s.threads[t]);
  }

  lemma SameThreadsSilent(s: State, s': State, j: JobId)
    requires Silent(s, j) && SameOff(s.threads, s'.threads, Recovery) && (Recovery in s'.threads ==> !InHand(s'.threads[Recovery], j))
    ensures Silent(s', j)
  {
  }

  lemma WorkerQuiet(s: State, step: WorkerStep, j: JobId)
    requires Inv(s) && WorkerEnabled(s, step) && Silent(s, j)
    ensures Quiet(s, WorkerApply(s, step), j)
  {
    hide Inv, Quiet, Take, Load, Start, Finish, ReleaseSource, Account;
    match step
    case StepReceive(t) => MoverQuiet(s, Receive(s, t), t, j);
    case StepTake(t) => TakeQuiet(s, t, j);
    case StepLoad(t, ok) => LoadQuiet(s, t, ok, j);
    case StepRequeue(t) => MoverQuiet(s, Requeue(s, t), t, j);
    case StepStart(t, ok) => StartQuiet(s, t, ok, j);
    case StepCompile(t, outcome, result) => MoverQuiet(s, Compile(s, t, outcome, result), t, j);
    case StepFinish(t, w) => FinishOther(s, t, w, j);
    case StepDefer(t) => MoverQuiet(s, Defer(s, t), t, j);
    case StepReleaseSource(t) => ReleaseSourceQuiet(s, t, j);
    case StepAccount(t, cached, result, w) => OwnerKnows(s, t); AccountOther(s, t, cached, result, w, j);
  }

  lemma ReleasedQuiet(s: State, t: ThreadId, pc: Pc, x: SnapshotId, j: JobId)
    requires pc.Accounting? || pc.Deactivating?
    requires pc.id != j
    ensures Quiet(s, Release(SetThread(s, t, pc), x), j)
  {
    hide Quiet, Release;
    ReleaseUntouched(SetThread(s, t, pc), x);
    MoverQuiet(s, Release(SetThread(s, t, pc), x), t, j);
  }

  lemma ReleaseSourceQuiet(s: State, t: ThreadId, j: JobId)
    requires CanReleaseSource(s, t) && s.threads[t].id != j
    ensures Quiet(s, ReleaseSource(s, t), j)
  {
    hide Quiet, Release;
    var pc := s.threads[t];
    if pc.job.status.Succeeded? {
      ReleasedQuiet(s, t, Accounting(pc.id, pc.job), pc.job.birth.snapshot, j);
    } else {
      ReleasedQuiet(s, t, Deactivating(pc.id, Some(pc.job.status)), pc.job.birth.snapshot, j);
    }
  }

  lemma RetryThreads(s: State, i: JobId, w: Write)
    requires CanRetry(s, i, w)
    ensures var s' := Retry(s, i, w);
      SameOff(s.threads, s'.threads, Recovery) && (Recovery in s'.threads ==> s'.threads[Recovery].Confirmed?)
  {
    hide Transition;
    var entry := s.completions[i];
    TransitionFrame(s, i, entry.from, entry.job);
    if w.Lost? {
    } else if HasStatus(s, i, entry.from) {
      if w.Applied? {
      } else {
      }
    } else if i in s.jobs && s.jobs[i].status.Terminal() {
    } else {
    }
  }

  lemma TailSilent(s: State, step: TailStep, j: JobId)
    requires Inv(s) && TailEnabled(s, step) && Silent(s, j) && Inv(TailApply(s, step))
    requires j in TailApply(s, step).jobs ==> Ended(TailApply(s, step), j)
    ensures Silent(TailApply(s, step), j)
  {
    hide Inv, Quiet, Silent, FreeSlot, EndGate, Retry, Drop, Unpin;
    match step
    case StepDeactivate(t) => MoverQuiet(s, Deactivate(s, t), t, j); QuietSilent(s, Deactivate(s, t), j);
    case StepCheck(t) => MoverQuiet(s, Check(s, t), t, j); QuietSilent(s, Check(s, t), j);
    case StepReload(t) => MoverQuiet(s, Reload(s, t), t, j); QuietSilent(s, Reload(s, t), j);
    case StepFreeSlot(t) => FreeSlotQuiet(s, t, j); QuietSilent(s, FreeSlot(s, t), j);
    case StepEndGate(t) => EndGateQuiet(s, t, j); QuietSilent(s, EndGate(s, t), j);
    case StepRetry(i, w) => RetryThreads(s, i, w); SameThreadsSilent(s, Retry(s, i, w), j);
    case StepDrop => DropSilent(s, j);
    case StepUnpin => UnpinQuiet(s, j); QuietSilent(s, Unpin(s), j);
    case StepForget(i) => SettledQuiet(s, Forget(s, i), j); QuietSilent(s, Forget(s, i), j);
  }

  lemma DropSilent(s: State, j: JobId)
    requires CanDrop(s) && Silent(s, j)
    ensures Silent(Drop(s), j)
  {
    hide Silent;
    SameThreadsSilent(s, Drop(s), j);
  }

  /** Once the attempt has ended, no worker has it in hand again. */
  lemma StaysSilent(s: State, step: Step, j: JobId)
    requires Inv(s) && Enabled(s, step) && Silent(s, j) && Inv(Apply(s, step)) && (j in Apply(s, step).jobs ==> Ended(Apply(s, step), j))
    ensures Silent(Apply(s, step), j)
  {
    hide Inv, Silent, Quiet, ClientApply, SessionApply, WorkerApply, TailApply;
    match step
    case OfClient(x) => ClientQuiet(s, x, j); QuietSilent(s, ClientApply(s, x), j);
    case OfSession(x) => SessionQuiet(s, x, j); QuietSilent(s, SessionApply(s, x), j);
    case OfWorker(x) => WorkerQuiet(s, x, j); QuietSilent(s, WorkerApply(s, x), j);
    case OfTail(x) => TailSilent(s, x, j);
  }

  /** The worker accounts for the job: cached results replace what the compile reported. */
  predicate AccountsAt(s: State, step: Step, t: ThreadId, j: JobId, result: nat, w: Write) {
    step == OfWorker(StepAccount(t, true, result, w)) && t in s.threads && s.threads[t].Accounting? && s.threads[t].id == j
  }

  lemma AccountSilent(s: State, step: Step, t: ThreadId, j: JobId, result: nat, w: Write)
    requires Inv(s) && Enabled(s, step) && AccountsAt(s, step, t, j, result, w)
    ensures Silent(Apply(s, step), j) && HasStatus(s, j, Succeeded)
  {
    hide Inv, Account;
    OwnerKnows(s, t);
    DriverAlone(s, t, j);
    AccountTold(s, t, true, result, w);
    assert forall u :: u in s.threads && u != t ==> Subject(s.threads[u]) != Some(j);
  }

  lemma ValueKept(s: State, step: Step, j: JobId, value: Value)
    requires Silent(s, j)
    ensures Valued(s, step, j, value) == value
  {
  }

  lemma {:induction false} SilentAfter(native: bool, limit: nat, states: seq<State>, steps: seq<Step>, i: nat, k: nat,
                                       t: ThreadId, j: JobId, result: nat, w: Write)
    requires IsRun(native, limit, states, steps) && i < k < |states| && AccountsAt(states[i], steps[i], t, j, result, w)
    ensures Silent(states[k], j) && ValueAt(states, steps, k, j) == Some(Outcome(Succeeded, result))
    decreases k - i
  {
    hide Inv, Apply, Enabled, Silent, Valued;
    ReachableInv(native, limit, states, steps, i);
    AccountSilent(states[i], steps[i], t, j, result, w);
    if k == i + 1 {
      assert Valued(states[i], steps[i], j, ValueAt(states, steps, i, j)) == Some(Outcome(Succeeded, result)) by {
        AccountValue(states[i], steps[i], t, j, result, w, ValueAt(states, steps, i, j));
      }
    } else {
      SilentAfter(native, limit, states, steps, i, k - 1, t, j, result, w);
      ReachableInv(native, limit, states, steps, k - 1);
      ReachableInv(native, limit, states, steps, k);
      Recorded(states[i]);
      RunLater(native, limit, states, steps, i, k, j);
      StaysSilent(states[k - 1], steps[k - 1], j);
      ValueKept(states[k - 1], steps[k - 1], j, ValueAt(states, steps, k - 1, j));
    }
  }

  lemma AccountValue(s: State, step: Step, t: ThreadId, j: JobId, result: nat, w: Write, value: Value)
    requires AccountsAt(s, step, t, j, result, w)
    ensures Valued(s, step, j, value) == Some(Outcome(Succeeded, result))
  {
  }

  /** What cache accounting produced is in the record when its gate has closed, whatever became of the write. */
  lemma AccountedResult(native: bool, limit: nat, states: seq<State>, steps: seq<Step>, i: nat, k: nat,
                        t: ThreadId, j: JobId, result: nat, w: Write)
    requires IsRun(native, limit, states, steps) && i < k < |states| && AccountsAt(states[i], steps[i], t, j, result, w)
    requires Final(states[k], j)
    ensures states[k].jobs[j].result == result
  {
    hide Inv, Apply, Enabled, IsRun, Final;
    SilentAfter(native, limit, states, steps, i, k, t, j, result, w);
    FinalResult(native, limit, states, steps, k, j);
  }
}
