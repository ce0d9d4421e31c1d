/** Runs of the engine: every reachable state satisfies the invariant. */
module JobRuns {
  import opened Options
  import opened Counting
  import opened JobState
  import opened JobSteps
  import opened JobInvariant
  import opened JobMoves
  import opened JobEvolution
  import opened JobWorkers
  import opened JobSessions
  import opened JobSlots
  import opened JobResponsibility
  import opened JobAdmission
  import opened JobTruth
  import opened JobService

  lemma ClientKeeps(s: State, step: ClientStep)
    requires Inv(s) && ClientEnabled(s, step)
    ensures Inv(ClientApply(s, step))
  {
    hide Inv, PinSource, Admit, Reject, Withdraw, UserCancel, Sweep;
    match step
    case StepPinSource(t, x) => KeepsPinSource(s, t, x);
    case StepAdmit(t, j, ok) => KeepsAdmit(s, t, j, ok);
    case StepReject(t) => KeepsReject(s, t);
    case StepWithdraw(t, ok) => KeepsWithdraw(s, t, ok);
    case StepUserCancel(j) => KeepsUserCancel(s, j);
    case StepSweep(swept) => KeepsSweep(s, swept);
  }

  lemma SessionKeeps(s: State, step: SessionStep)
    requires Inv(s) && SessionEnabled(s, step)
    ensures Inv(SessionApply(s, step))
  {
    hide Inv, Open, Expire, Prepare, Refuse, SaveRevision, Supersede, Accept, FailPin, Abort, Schedule, Close;
    match step
    case StepOpen(sid) => KeepsOpen(s, sid);
    case StepExpire(sid) => KeepsExpire(s, sid);
    case StepPrepare(sid, x) => KeepsPrepare(s, sid, x);
    case StepRefuse => KeepsRefuse(s);
    case StepSaveRevision(j) => KeepsSaveRevision(s, j);
    case StepSupersede(ok) => KeepsSupersede(s, ok);
    case StepAccept => KeepsAccept(s);
    case StepFailPin => KeepsFailPin(s);
    case StepAbort(ok) => KeepsAbort(s, ok);
    case StepReschedule(sid) => KeepsSchedule(s, sid);
    case StepClose(sid, okPending, okRunning) => KeepsClose(s, sid, okPending, okRunning);
  }

  lemma WorkerKeeps(s: State, step: WorkerStep)
    requires Inv(s) && WorkerEnabled(s, step)
    ensures Inv(WorkerApply(s, step))
  {
    hide Inv, Receive, Take, Load, Requeue, Start, Compile, Finish, Defer, ReleaseSource, Account;
    match step
    case StepReceive(t) => KeepsReceive(s, t);
    case StepTake(t) => KeepsTake(s, t);
    case StepLoad(t, ok) => KeepsLoad(s, t, ok);
    case StepRequeue(t) => KeepsRequeue(s, t);
    case StepStart(t, ok) => KeepsStart(s, t, ok);
    case StepCompile(t, outcome, result) => KeepsCompile(s, t, outcome, result);
    case StepFinish(t, w) => KeepsFinish(s, t, w);
    case StepDefer(t) => KeepsDefer(s, t);
    case StepReleaseSource(t) => KeepsReleaseSource(s, t);
    case StepAccount(t, cached, result, w) => KeepsAccount(s, t, cached, result, w);
  }

  lemma TailKeeps(s: State, step: TailStep)
    requires Inv(s) && TailEnabled(s, step)
    ensures Inv(TailApply(s, step))
  {
    hide Inv, Deactivate, Check, Reload, FreeSlot, EndGate, Retry, Drop, Unpin;
    match step
    case StepDeactivate(t) => KeepsDeactivate(s, t);
    case StepCheck(t) => KeepsCheck(s, t);
    case StepReload(t) => KeepsReload(s, t);
    case StepFreeSlot(t) => KeepsFreeSlot(s, t);
    case StepEndGate(t) => KeepsEndGate(s, t);
    case StepRetry(j, w) => KeepsRetry(s, j, w);
    case StepDrop => KeepsDrop(s);
    case StepUnpin => KeepsUnpin(s);
    case StepForget(j) => KeepsForget(s, j);
  }

  /** Every step of every goroutine keeps the whole invariant. */
  lemma StepKeeps(s: State, step: Step)
    requires Inv(s) && Enabled(s, step)
    ensures Inv(Apply(s, step))
  {
    hide Inv, ClientApply, SessionApply, WorkerApply, TailApply;
    match step
    case OfClient(x) => ClientKeeps(s, x);
    case OfSession(x) => SessionKeeps(s, x);
    case OfWorker(x) => WorkerKeeps(s, x);
    case OfTail(x) => TailKeeps(s, x);
  }

  // ----- Runs -----

  /** A run from the empty engine: every state follows from the one before by one enabled step. */
  ghost predicate IsRun(native: bool, limit: nat, states: seq<State>, steps: seq<Step>) {
    |states| == |steps| + 1 && states[0] == Initial(native, limit) &&
    forall i :: 0 <= i < |steps| ==> Enabled(states[i], steps[i]) && states[i + 1] == Apply(states[i], steps[i])
  }

  lemma InitialInv(native: bool, limit: nat)
    ensures Inv(Initial(native, limit)) && SlotsHeld(Initial(native, limit)) && Lone(Initial(native, limit))
    ensures Bounded(Initial(native, limit))
  {
    var s := Initial(native, limit);
    forall m: Meter ensures Tally(s, m) == 0 {
      CountSet(s.jobs, JobTest(m), {});
      CountSet(s.threads, ThreadTest(m), {});
      CountSet(s.completions, CompletionTest(m), {});
      CountSet(s.sessions, SessionTest(m), {});
    }
    hide Tally;
    assert QueuedSet(s) == {};
  }

  /** The invariant holds in every reachable state. */
  lemma {:induction false} ReachableInv(native: bool, limit: nat, states: seq<State>, steps: seq<Step>, i: nat)
    requires IsRun(native, limit, states, steps) && i < |states|
    ensures Inv(states[i])
  {
    hide Inv, Apply, Enabled;
    if i == 0 {
      InitialInv(native, limit);
    } else {
      ReachableInv(native, limit, states, steps, i - 1);
      StepKeeps(states[i - 1], steps[i - 1]);
    }
  }

  // ----- Reference counts -----

  ghost function QueuedOf(s: State, x: SnapshotId): set<JobId> {
    set j | j in s.jobs && s.jobs[j].status.Queued? && s.jobs[j].birth.snapshot == x
  }
  ghost function HoldersOf(s: State, x: SnapshotId): set<ThreadId> {
    set t | t in s.threads && HeldPin(s.threads[t]) == Some(x)
  }
  ghost function DeferredOf(s: State, x: SnapshotId): set<JobId> {
    set j | j in s.completions && s.completions[j].from.Running? && s.completions[j].job.birth.snapshot == x
  }
  ghost function CurrentOf(s: State, x: SnapshotId): set<SessionId> {
    set sid | sid in s.sessions && s.sessions[sid].snapshot == Some(x)
  }

  /**
   In every reachable state the pin count of a snapshot is the number of its
   queued jobs, of goroutines between taking and giving up a pin, of deferred
   first completions, of live sessions whose tree it is, and of the revision
   being admitted.
   */
  lemma PinConservation(native: bool, limit: nat, states: seq<State>, steps: seq<Step>, i: nat, x: SnapshotId)
    requires IsRun(native, limit, states, steps) && i < |states|
    ensures var s := states[i];
      PinCount(s, x) == |QueuedOf(s, x)| + |HoldersOf(s, x)| + |DeferredOf(s, x)| + |CurrentOf(s, x)| +
                        (if s.admission.Prepared? && s.admission.snapshot == x then 1 else 0)
  {
    ReachableInv(native, limit, states, steps, i);
    var s, m := states[i], PinOf(x);
    assert PinCount(s, x) == Tally(s, m);
    NoTokens(m, s.queue);
    CountSet(s.jobs, JobTest(m), QueuedOf(s, x));
    CountSet(s.threads, ThreadTest(m), HoldersOf(s, x));
    CountSet(s.completions, CompletionTest(m), DeferredOf(s, x));
    CountSet(s.sessions, SessionTest(m), CurrentOf(s, x));
  }

  /** So a snapshot that any of them still needs is in the pin table, and an unneeded one is not. */
  lemma PinnedWhileNeeded(native: bool, limit: nat, states: seq<State>, steps: seq<Step>, i: nat, x: SnapshotId)
    requires IsRun(native, limit, states, steps) && i < |states|
    ensures var s := states[i];
      x in s.pins <==> QueuedOf(s, x) != {} || HoldersOf(s, x) != {} || DeferredOf(s, x) != {} || CurrentOf(s, x) != {} ||
                       (s.admission.Prepared? && s.admission.snapshot == x)
  {
    ReachableInv(native, limit, states, steps, i);
    hide Tally;
    PinConservation(native, limit, states, steps, i, x);
  }

  // ----- Queue accounting -----

  /** A revision is admitted to a queue at its limit, because it is to replace a job that is queued. */
  predicate ReplacesAtLimit(s: State, step: Step) {
    step.OfSession? && step.stepSession.StepSaveRevision? && s.queued == s.limit && s.admission.Prepared? &&
    s.admission.session in s.sessions &&
    var pending := s.sessions[s.admission.session].pending;
    pending.Some? && HasStatus(s, pending.value, Queued)
  }

  /**
   The admission that begins so with step a ends with step b, and the queue does
   not get shorter in between: the cancellation of the replaced job does not take
   effect, that of its replacement fails, and no other job leaves the queue.
   */
  ghost predicate Overflow(states: seq<State>, steps: seq<Step>, a: nat, b: nat)
    requires |states| == |steps| + 1
  {
    a < b < |steps| && ReplacesAtLimit(states[a], steps[a]) &&
    (forall m :: a < m <= b ==> Submitting(states[m].admission) && states[m].queued == states[a + 1].queued) &&
    steps[b] == OfSession(StepAbort(false))
  }

  /**
   The native counter is exact; admission keeps the queue within its limit in
   every state of a run exactly when no admission of it overflows; and even then
   the excess is never more than one.
   */
  lemma {:induction false} QueueAccounting(native: bool, limit: nat, states: seq<State>, steps: seq<Step>)
    requires IsRun(native, limit, states, steps)
    ensures forall i :: 0 <= i < |states| ==> states[i].queued == |QueuedSet(states[i])| && states[i].queued <= limit + 1
    ensures (forall i :: 0 <= i < |states| ==> Bounded(states[i])) <==> !exists a: nat, b: nat :: Overflow(states, steps, a, b)
  {
    hide Inv, Apply, Enabled, Bounded, Exceeds, QueuedSet, Overflow;
    forall i | 0 <= i < |states| ensures states[i].queued == |QueuedSet(states[i])| && states[i].queued <= limit + 1 {
      ReachableInv(native, limit, states, steps, i);
      QueueCounter(states[i]);
      OneTooMany(native, limit, states, steps, i);
    }
    if k: nat :| k < |steps| && Exceeds(states[k], steps[k]) {
      var a := ExceedsOverflow(native, limit, states, steps, k);
      ReachableInv(native, limit, states, steps, k);
      ReachableInv(native, limit, states, steps, k + 1);
      if Bounded(states[k]) {
        StepBounded(states[k], steps[k]);
        assert !Bounded(states[k + 1]);
      }
    } else {
      forall a: nat, b: nat ensures !Overflow(states, steps, a, b) {
        if Overflow(states, steps, a, b) {
          OverflowExceeds(native, limit, states, steps, a, b);
        }
      }
      forall i | 0 <= i < |states| ensures Bounded(states[i]) {
        BoundedUpTo(native, limit, states, steps, i);
      }
    }
  }

  lemma {:induction false} OneTooMany(native: bool, limit: nat, states: seq<State>, steps: seq<Step>, i: nat)
    requires IsRun(native, limit, states, steps) && i < |states|
    ensures states[i].queued <= limit + 1
  {
    hide Inv, Apply, Enabled;
    if i > 0 {
      OneTooMany(native, limit, states, steps, i - 1);
      ModeFixed(native, limit, states, steps, i - 1);
      ReachableInv(native, limit, states, steps, i - 1);
      ReachableInv(native, limit, states, steps, i);
      StepQueued(states[i - 1], steps[i - 1]);
    }
  }

  lemma OverflowExceeds(native: bool, limit: nat, states: seq<State>, steps: seq<Step>, a: nat, b: nat)
    requires IsRun(native, limit, states, steps) && Overflow(states, steps, a, b)
    ensures b < |steps| && Exceeds(states[b], steps[b])
  {
    hide Inv, Apply, Enabled;
    ReachableInv(native, limit, states, steps, a);
    ReachableInv(native, limit, states, steps, a + 1);
    StepQueued(states[a], steps[a]);
    ModeFixed(native, limit, states, steps, a);
    ModeFixed(native, limit, states, steps, b);
  }

  /** An excess at the end of an admission goes back to its beginning. */
  lemma ExceedsOverflow(native: bool, limit: nat, states: seq<State>, steps: seq<Step>, k: nat) returns (a: nat)
    requires IsRun(native, limit, states, steps) && k < |steps| && Exceeds(states[k], steps[k])
    ensures Overflow(states, steps, a, k)
  {
    AbortSubmits(states[k], steps[k]);
    hide Inv, Apply, Enabled;
    ModeFixed(native, limit, states, steps, k);
    a := Admission(native, limit, states, steps, k);
    ModeFixed(native, limit, states, steps, a);
    OnlyReplacing(states[a], steps[a]);
  }

  lemma OnlyReplacing(s: State, step: Step)
    requires Enabled(s, step) && step.OfSession? && step.stepSession.StepSaveRevision? && s.queued == s.limit
    ensures ReplacesAtLimit(s, step)
  {
  }

  lemma AbortSubmits(s: State, step: Step)
    requires Enabled(s, step) && Exceeds(s, step)
    ensures Submitting(s.admission) && s.queued > s.limit && step == OfSession(StepAbort(false))
  {
  }

  /** Where the admission in progress saved its job; the queue is not longer since. */
  lemma {:induction false} Admission(native: bool, limit: nat, states: seq<State>, steps: seq<Step>, k: nat) returns (a: nat)
    requires IsRun(native, limit, states, steps) && k < |states| && Submitting(states[k].admission)
    ensures a < k && steps[a].OfSession? && steps[a].stepSession.StepSaveRevision? && states[a].queued <= limit
    ensures forall m :: a < m <= k ==> Submitting(states[m].admission) && states[k].queued <= states[m].queued
    ensures forall m :: a < m <= k ==> states[m].queued <= states[a].queued + 1
  {
    hide Inv, Apply, Enabled, Saves;
    a := 0;
    if k > 0 {
      ReachableInv(native, limit, states, steps, k - 1);
      ReachableInv(native, limit, states, steps, k);
      StepSubmitting(states[k - 1], steps[k - 1]);
      StepQueued(states[k - 1], steps[k - 1]);
      ModeFixed(native, limit, states, steps, k - 1);
      if Submitting(states[k - 1].admission) {
        a := Admission(native, limit, states, steps, k - 1);
      } else {
        SavesRevision(steps[k - 1]);
        a := k - 1;
      }
    }
  }

  lemma SavesRevision(step: Step)
    requires step.OfSession? && step.stepSession.StepSaveRevision?
    ensures Saves(step)
  {
  }

  lemma {:induction false} BoundedUpTo(native: bool, limit: nat, states: seq<State>, steps: seq<Step>, i: nat)
    requires IsRun(native, limit, states, steps) && i < |states|
    requires forall k :: 0 <= k < i ==> !Exceeds(states[k], steps[k])
    ensures Bounded(states[i])
  {
    hide Inv, Apply, Enabled, Bounded, Exceeds;
    if i == 0 {
      InitialInv(native, limit);
    } else {
      BoundedUpTo(native, limit, states, steps, i - 1);
      ReachableInv(native, limit, states, steps, i - 1);
      ReachableInv(native, limit, states, steps, i);
      StepBounded(states[i - 1], steps[i - 1]);
    }
  }

  lemma {:induction false} ModeFixed(native: bool, limit: nat, states: seq<State>, steps: seq<Step>, i: nat)
    requires IsRun(native, limit, states, steps) && i < |states|
    ensures states[i].native == native && states[i].limit == limit
  {
    hide Inv, Apply, Enabled;
    if i > 0 {
      ModeFixed(native, limit, states, steps, i - 1);
      ReachableInv(native, limit, states, steps, i - 1);
      StepMode(states[i - 1], steps[i - 1]);
    }
  }

  lemma BoundedMeans(s: State)
    requires Bounded(s)
    ensures |QueuedSet(s)| <= s.limit + 1
    ensures s.admission.Free? ==> |QueuedSet(s)| <= s.limit
  {
    hide QueuedSet;
    match s.admission
    case Saved(sid, _, _) =>
      if sid in s.sessions && s.sessions[sid].pending.Some? {
        Without(QueuedSet(s), s.sessions[sid].pending.value);
      } else {
        assert QueuedSet(s) - {} == QueuedSet(s);
      }
    case Aborting(j) => Without(QueuedSet(s), j);
    case _ =>
  }

  /**
   With the native store the limit holds whenever the admission lock is free,
   and is exceeded by one at most while it is held.
   */
  lemma NativeQueueBound(limit: nat, states: seq<State>, steps: seq<Step>, i: nat)
    requires IsRun(true, limit, states, steps) && i < |states|
    ensures states[i].queued <= limit + 1
    ensures states[i].admission.Free? ==> states[i].queued <= limit
  {
    forall k | 0 <= k < |steps| ensures !Exceeds(states[k], steps[k]) {
      ModeFixed(true, limit, states, steps, k);
    }
    hide Inv, Apply, Enabled, Bounded, Exceeds, QueuedSet;
    BoundedUpTo(true, limit, states, steps, i);
    ModeFixed(true, limit, states, steps, i);
    ReachableInv(true, limit, states, steps, i);
    QueueCounter(states[i]);
    BoundedMeans(states[i]);
  }

  /** A live session has one wake-up token in flight when it is scheduled, and none otherwise. */
  lemma OneTokenPerSession(native: bool, limit: nat, states: seq<State>, steps: seq<Step>, i: nat, sid: SessionId)
    requires IsRun(native, limit, states, steps) && i < |states| && sid in states[i].sessions
    ensures var s := states[i];
      multiset(s.queue)[ForSession(sid)] + |set t | t in s.threads && s.threads[t] == Taking(sid)| ==
      (if s.sessions[sid].scheduled then 1 else 0)
  {
    hide IsRun;
    ReachableInv(native, limit, states, steps, i);
    var s, m := states[i], TokenOf(sid);
    assert Tally(s, m) == if s.sessions[sid].scheduled then 1 else 0;
    hide Inv;
    CountSet(s.jobs, JobTest(m), {});
    CountSet(s.threads, ThreadTest(m), set t | t in s.threads && s.threads[t] == Taking(sid));
    CountSet(s.completions, CompletionTest(m), {});
    CountSet(s.sessions, SessionTest(m), {});
    TokensInQueue(sid, s.queue);
  }

  lemma {:induction false} TokensInQueue(sid: SessionId, queue: seq<Token>)
    ensures TokenCount(TokenOf(sid), queue) == multiset(queue)[ForSession(sid)]
  {
    if queue == [] {
    } else {
      TokensInQueue(sid, queue[1..]);
      assert queue == [queue[0]] + queue[1..];
    }
  }

  // ----- Session slots -----

  /**
   Every running attempt of a live session can still be settled, in every state
   of a run and in both modes, exactly when no step of it strands one: by taking
   the token of a pending job whose record is gone, or by sweeping the record of
   an attempt whose outcome nobody has seen.
   */
  lemma {:induction false} NoLostSlot(native: bool, limit: nat, states: seq<State>, steps: seq<Step>)
    requires IsRun(native, limit, states, steps)
    ensures (forall i :: 0 <= i < |states| ==> SlotsServed(states[i])) <==>
            (forall i :: 0 <= i < |steps| ==> !Strands(states[i], steps[i]))
  {
    hide Inv, Apply, Enabled, SlotsServed, Lone, Strands;
    if forall i :: 0 <= i < |steps| ==> !Strands(states[i], steps[i]) {
      forall i | 0 <= i < |states| ensures SlotsServed(states[i]) {
        ServedUpTo(native, limit, states, steps, i);
      }
    } else {
      var k :| 0 <= k < |steps| && Strands(states[k], steps[k]);
      ReachableInv(native, limit, states, steps, k);
      StrandsIndeed(states[k], steps[k]);
      assert !SlotsServed(states[k + 1]);
    }
  }

  lemma {:induction false} ServedUpTo(native: bool, limit: nat, states: seq<State>, steps: seq<Step>, i: nat)
    requires IsRun(native, limit, states, steps) && i < |states|
    requires forall k :: 0 <= k < i ==> !Strands(states[k], steps[k])
    ensures SlotsServed(states[i]) && Lone(states[i])
  {
    hide Inv, Apply, Enabled, SlotsServed, Lone, Strands;
    if i == 0 {
      InitialInv(native, limit);
      NothingHeld(native, limit);
    } else {
      ServedUpTo(native, limit, states, steps, i - 1);
      ReachableInv(native, limit, states, steps, i - 1);
      ReachableInv(native, limit, states, steps, i);
      ServedStep(states[i - 1], steps[i - 1]);
    }
  }

  lemma {:induction false} SettlersUpTo(native: bool, limit: nat, states: seq<State>, steps: seq<Step>, i: nat)
    requires IsRun(native, limit, states, steps) && i < |states|
    ensures OneSettler(states[i])
  {
    if i > 0 {
      hide Inv, Apply, Enabled, OneSettler;
      SettlersUpTo(native, limit, states, steps, i - 1);
      ReachableInv(native, limit, states, steps, i - 1);
      SettlerStep(states[i - 1], steps[i - 1]);
    }
  }

  /**
   Which parties may answer for the same job.  A token or a goroutine that has
   still to bring the job to its outcome is the only one; after that recovery,
   a deferred completion and one other goroutine in its tail may be left.
   */
  lemma WhoShares(native: bool, limit: nat, states: seq<State>, steps: seq<Step>, i: nat, j: JobId)
    requires IsRun(native, limit, states, steps) && i < |states|
    ensures var s := states[i];
      && (ByToken(s, j) ==> !ByEntry(s, j) && forall t :: !ByThread(s, t, j))
      && (forall t :: DrivesSlot(s, t, j) ==> !ByToken(s, j) && !ByEntry(s, j) && forall u :: ByThread(s, u, j) ==> u == t)
      && (forall t, u :: ByThread(s, t, j) && ByThread(s, u, j) && t != u ==> t == Recovery || u == Recovery)
  {
    hide Apply, Enabled, Inv;
    var s := states[i];
    ReachableInv(native, limit, states, steps, i);
    SettlersUpTo(native, limit, states, steps, i);
    if ByToken(s, j) {
      forall t ensures !ByThread(s, t, j) {
        if ByThread(s, t, j) { SettlerClaim(s, t, j); }
      }
      TokenNoEntry(s, j);
    }
    forall t | DrivesSlot(s, t, j)
      ensures !ByToken(s, j) && !ByEntry(s, j) && forall u :: ByThread(s, u, j) ==> u == t
    {
      SettlerClaim(s, t, j);
      DriverAlone(s, t, j);
      assert forall u :: ByThread(s, u, j) ==> Subject(s.threads[u]) == Some(j);
    }
  }

  lemma TokenNoEntry(s: State, j: JobId)
    requires Inv(s) && ByToken(s, j)
    ensures !ByEntry(s, j)
  {
    hide Tally;
    if ByEntry(s, j) {
      assert CompletionOk(s, j);
      UndrivenMeans(s, j);
      TokenAbsent(j, s.queue);
    }
  }

  lemma NothingHeld(native: bool, limit: nat)
    ensures SlotsServed(Initial(native, limit))
  {
  }

  /** No job is ever moved forward by two workers. */
  lemma OneWorkerPerJob(native: bool, limit: nat, states: seq<State>, steps: seq<Step>, i: nat, t: ThreadId, t': ThreadId)
    requires IsRun(native, limit, states, steps) && i < |states|
    requires t in states[i].threads && t' in states[i].threads
    requires Driven(states[i].threads[t]).Some? && Driven(states[i].threads[t]) == Driven(states[i].threads[t'])
    ensures t == t'
  {
    ReachableInv(native, limit, states, steps, i);
    hide Inv;
    DriverAlone(states[i], t, Driven(states[i].threads[t]).value);
  }

  // ----- Records over time -----

  /** Records only move forward along their life cycle, gates never reopen, and a closed gate is visible in the version. */
  predicate Later(s: State, s': State, j: JobId) {
    && (j in s.born ==> j in s'.born && s'.born[j] == s.born[j])
    && (j in s.born && j !in s.jobs ==> j !in s'.jobs)
    && (j in s.born && j !in s.gates ==> j !in s'.gates)
    && s.version <= s'.version
    && (j in s.gates && j !in s'.gates ==> s.version < s'.version)
    && (j in s.jobs && j in s'.jobs ==>
         && s'.jobs[j].birth == s.jobs[j].birth
         && (s.jobs[j].status.Terminal() ==> s'.jobs[j].status == s.jobs[j].status)
         && (!s.jobs[j].status.Queued? ==> !s'.jobs[j].status.Queued?)
         && (s.jobs[j].status.Succeeded? && j !in s.gates ==> s'.jobs[j] == s.jobs[j]))
    && (j in s.jobs && j !in s'.jobs ==> j in s.born)
  }

  lemma StepLater(s: State, s': State, j: JobId)
    requires Evolves(s, s') && s.jobs.Keys <= s.born.Keys
    ensures Later(s, s', j)
  {
    assert JobEvolves(s, s', j);
  }

  lemma LaterTrans(s: State, s1: State, s2: State, j: JobId)
    requires Later(s, s1, j) && Later(s1, s2, j) && (j in s.jobs ==> j in s.born)
    ensures Later(s, s2, j)
  {
  }

  lemma {:induction false} RunLater(native: bool, limit: nat, states: seq<State>, steps: seq<Step>, i: nat, k: nat, j: JobId)
    requires IsRun(native, limit, states, steps) && i <= k < |states|
    ensures Later(states[i], states[k], j)
  {
    hide Inv, Apply, Enabled, Evolves, Later;
    ReachableInv(native, limit, states, steps, i);
    Recorded(states[i]);
    if i == k {
      assert Later(states[i], states[i], j) by { LaterRefl(states[i], j); }
    } else {
      RunLater(native, limit, states, steps, i, k - 1, j);
      ReachableInv(native, limit, states, steps, k - 1);
      Recorded(states[k - 1]);
      StepEvolves(states[k - 1], steps[k - 1]);
      StepLater(states[k - 1], states[k], j);
      LaterTrans(states[i], states[k - 1], states[k], j);
    }
  }

  lemma LaterRefl(s: State, j: JobId)
    requires j in s.jobs ==> j in s.born
    ensures Later(s, s, j)
  {
  }

  /** A terminal status never changes, and a swept record never comes back. */
  lemma TerminalIsFinal(native: bool, limit: nat, states: seq<State>, steps: seq<Step>, i: nat, k: nat, j: JobId)
    requires IsRun(native, limit, states, steps) && i <= k < |states|
    requires j in states[i].jobs && states[i].jobs[j].status.Terminal()
    ensures j in states[k].jobs ==> states[k].jobs[j].status == states[i].jobs[j].status
    ensures j !in states[k].jobs ==> forall l :: k <= l < |states| ==> j !in states[l].jobs
  {
    RunLater(native, limit, states, steps, i, k, j);
    ReachableInv(native, limit, states, steps, i);
    Recorded(states[i]);
    hide Inv, Apply, Enabled;
    forall l | k <= l < |states| && j !in states[k].jobs ensures j !in states[l].jobs {
      RunLater(native, limit, states, steps, k, l, j);
    }
  }

  /** A queued job starts only while its session is live and waits for exactly this attempt. */
  lemma StartsOnlyWhileOwned(native: bool, limit: nat, states: seq<State>, steps: seq<Step>, i: nat, j: JobId)
    requires IsRun(native, limit, states, steps) && i < |steps|
    requires HasStatus(states[i + 1], j, Running) && !HasStatus(states[i], j, Running)
    ensures HasStatus(states[i], j, Queued)
    ensures var birth := states[i].jobs[j].birth;
      birth.session.Some? ==> Holds(states[i], birth.session.value, j)
  {
    hide Inv, Apply, Enabled;
    ReachableInv(native, limit, states, steps, i);
    StepEvolves(states[i], steps[i]);
    assert JobEvolves(states[i], states[i + 1], j);
  }

  // ----- The pipeline of one session -----

  /** The last success, the running attempt and the pending one are in strict revision order, the pending one latest. */
  predicate InOrder(s: State, session: Session) {
    && (session.lastSuccess.Some? ==>
         var l := session.lastSuccess.value; l in s.born && s.born[l].revision == session.lastRevision)
    && (session.running.Some? ==>
         var r := session.running.value;
         r in s.born && session.lastRevision < s.born[r].revision <= session.revision)
    && (session.pending.Some? ==>
         var p := session.pending.value;
         p in s.born && s.born[p].revision == session.revision && session.lastRevision < session.revision)
    && (session.running.Some? && session.pending.Some? ==>
         session.running.value in s.born && s.born[session.running.value].revision < session.revision)
  }

  lemma PipelineOrder(native: bool, limit: nat, states: seq<State>, steps: seq<Step>, i: nat, sid: SessionId)
    requires IsRun(native, limit, states, steps) && i < |states| && sid in states[i].sessions
    ensures InOrder(states[i], states[i].sessions[sid])
  {
    hide Tally;
    ReachableInv(native, limit, states, steps, i);
    assert SessionOk(states[i], sid);
  }

  /** While a session lives, neither its revision nor its last successful revision moves backwards. */
  lemma {:induction false} NeverBackwards(native: bool, limit: nat, states: seq<State>, steps: seq<Step>, i: nat, k: nat, sid: SessionId)
    requires IsRun(native, limit, states, steps) && i <= k < |states|
    requires sid in states[i].sessions && sid in states[k].sessions
    ensures states[i].sessions[sid].revision <= states[k].sessions[sid].revision
    ensures states[i].sessions[sid].lastRevision <= states[k].sessions[sid].lastRevision
    decreases k - i
  {
    hide Inv, Apply, Enabled;
    if i < k {
      ReachableInv(native, limit, states, steps, i);
      SessionsSpent(states[i]);
      SpentGrows(native, limit, states, steps, i, k - 1);
      ReachableInv(native, limit, states, steps, k - 1);
      StepClimbs(states[k - 1], steps[k - 1]);
      NeverBackwards(native, limit, states, steps, i, k - 1, sid);
    }
  }

  lemma {:induction false} SpentGrows(native: bool, limit: nat, states: seq<State>, steps: seq<Step>, i: nat, k: nat)
    requires IsRun(native, limit, states, steps) && i <= k < |states|
    ensures states[i].spent <= states[k].spent
  {
    hide Inv, Apply, Enabled;
    if i < k {
      SpentGrows(native, limit, states, steps, i, k - 1);
      ReachableInv(native, limit, states, steps, k - 1);
      StepClimbs(states[k - 1], steps[k - 1]);
    }
  }

  /** The session has reached the revision of the job: it runs the job or a later one, and a later one is pending if any. */
  predicate Reached(s: State, sid: SessionId, j: JobId) {
    sid in s.sessions && j in s.born &&
    var session, r := s.sessions[sid], s.born[j].revision;
    r <= session.revision && (session.pending.Some? ==> r < session.revision) &&
    (session.running.Some? && session.running != Some(j) ==>
      session.running.value in s.born && r < s.born[session.running.value].revision)
  }

  lemma SessionFacts(s: State, sid: SessionId)
    requires Inv(s) && sid in s.sessions
    ensures SessionOk(s, sid)
  {
    hide Tally, SessionOk;
  }

  lemma RunsReached(s: State, sid: SessionId, j: JobId)
    requires Inv(s) && sid in s.sessions && s.sessions[sid].running == Some(j)
    ensures Reached(s, sid, j)
  {
    SessionFacts(s, sid);
    hide Inv;
  }

  /** A session that lives again at the next state has lived all along. */
  lemma StaysLive(s: State, s': State, sid: SessionId, spent: set<SessionId>)
    requires SessionsClimb(s, s') && sid in s'.sessions && sid in spent && spent <= s.spent
    ensures sid in s.sessions
  {
  }

  lemma StaysReached(s: State, s': State, sid: SessionId, j: JobId)
    requires SessionOk(s, sid) && Reached(s, sid, j) && SessionsClimb(s, s') && sid in s'.sessions && Evolves(s, s')
    ensures Reached(s', sid, j)
  {
    assert Climbs(s.sessions[sid], s'.sessions[sid]);
  }

  lemma {:induction false} ReachedUpTo(native: bool, limit: nat, states: seq<State>, steps: seq<Step>, i: nat, k: nat,
                                       sid: SessionId, j: JobId)
    requires IsRun(native, limit, states, steps) && i <= k < |states|
    requires sid in states[i].sessions && states[i].sessions[sid].running == Some(j) && sid in states[k].sessions
    ensures Reached(states[k], sid, j)
    decreases k - i
  {
    hide Inv, Apply, Enabled, Evolves, SessionsClimb, SessionOk, Reached;
    ReachableInv(native, limit, states, steps, i);
    if i == k {
      RunsReached(states[i], sid, j);
    } else {
      SessionsSpent(states[i]);
      SpentGrows(native, limit, states, steps, i, k - 1);
      ReachableInv(native, limit, states, steps, k - 1);
      StepClimbs(states[k - 1], steps[k - 1]);
      StepEvolves(states[k - 1], steps[k - 1]);
      StaysLive(states[k - 1], states[k], sid, states[i].spent);
      ReachedUpTo(native, limit, states, steps, i, k - 1, sid, j);
      SessionFacts(states[k - 1], sid);
      StaysReached(states[k - 1], states[k], sid, j);
    }
  }

  /** A session runs its attempts in the strict order of their revisions, so a checkpoint is older than the attempt that reuses it. */
  lemma AttemptsInOrder(native: bool, limit: nat, states: seq<State>, steps: seq<Step>, i: nat, k: nat,
                        sid: SessionId, j: JobId, l: JobId)
    requires IsRun(native, limit, states, steps) && i <= k < |states|
    requires sid in states[i].sessions && states[i].sessions[sid].running == Some(j)
    requires sid in states[k].sessions && states[k].sessions[sid].running == Some(l)
    ensures j in states[k].born && l in states[k].born
    ensures l == j || states[k].born[j].revision < states[k].born[l].revision
  {
    hide Inv, Apply, Enabled, IsRun;
    ReachedUpTo(native, limit, states, steps, i, k, sid, j);
  }

  // ----- What sessions are told -----

  ghost predicate Misreports(s: State, step: Step, s': State) { Snatches(s, s') || DefersOver(s, step) }

  /**
   Every ending attempt reports the stored status, and every session's last
   successful job has a succeeded record, throughout a run in which no deferred
   outcome is cancelled and none is deferred over another before its worker has
   ended the attempt.  Without that the reports themselves become untrue.
   */
  lemma {:induction false} ReportsTrue(native: bool, limit: nat, states: seq<State>, steps: seq<Step>, i: nat)
    requires IsRun(native, limit, states, steps) && i < |states|
    requires forall k :: 0 <= k < i ==> !Misreports(states[k], steps[k], states[k + 1])
    ensures Truthful(states[i]) && SuccessesTrue(states[i])
    ensures i < |steps| ==> (Truthful(states[i + 1]) <==> !Misreports(states[i], steps[i], states[i + 1]))
  {
    hide Inv, Apply, Enabled, Truthful, SuccessesTrue, Snatches, DefersOver, Mislabels;
    if i == 0 {
      InitialTrue(native, limit);
    } else {
      ReportsTrue(native, limit, states, steps, i - 1);
      ReachableInv(native, limit, states, steps, i - 1);
      StepTruth(states[i - 1], steps[i - 1]);
      TruthfulLabels(states[i - 1], steps[i - 1]);
      StepSuccesses(states[i - 1], steps[i - 1]);
    }
    ReachableInv(native, limit, states, steps, i);
    if i < |steps| {
      StepTruth(states[i], steps[i]);
    }
  }

  /** So the reports of a whole run are true exactly when none of its steps is of that kind. */
  lemma ReportsTrueExactly(native: bool, limit: nat, states: seq<State>, steps: seq<Step>)
    requires IsRun(native, limit, states, steps)
    ensures (forall i :: 0 <= i < |states| ==> Truthful(states[i])) <==>
            (forall k :: 0 <= k < |steps| ==> !Misreports(states[k], steps[k], states[k + 1]))
  {
    hide Inv, Apply, Enabled, Truthful, SuccessesTrue, Misreports;
    if forall k :: 0 <= k < |steps| ==> !Misreports(states[k], steps[k], states[k + 1]) {
      forall i | 0 <= i < |states| ensures Truthful(states[i]) {
        ReportsTrue(native, limit, states, steps, i);
      }
    } else {
      var k := FirstMisreport(states, steps, 0);
      ReportsTrue(native, limit, states, steps, k);
      assert !Truthful(states[k + 1]);
    }
  }

  lemma {:induction false} FirstMisreport(states: seq<State>, steps: seq<Step>, from: nat) returns (k: nat)
    requires |states| == |steps| + 1
    requires exists i :: from <= i < |steps| && Misreports(states[i], steps[i], states[i + 1])
    ensures from <= k < |steps| && Misreports(states[k], steps[k], states[k + 1])
    ensures forall i :: from <= i < k ==> !Misreports(states[i], steps[i], states[i + 1])
    decreases |steps| - from
  {
    hide Misreports;
    if Misreports(states[from], steps[from], states[from + 1]) {
      k := from;
    } else {
      k := FirstMisreport(states, steps, from + 1);
    }
  }

  /**
   The last successful job of every session has a succeeded record, or one that
   retention removed, in every state of a run exactly when no attempt is ended
   as a success while its record says otherwise.
   */
  lemma LastSuccessesExactly(native: bool, limit: nat, states: seq<State>, steps: seq<Step>)
    requires IsRun(native, limit, states, steps)
    ensures (forall i :: 0 <= i < |states| ==> SuccessesTrue(states[i])) <==>
            (forall k :: 0 <= k < |steps| ==> !Mislabels(states[k], steps[k]))
  {
    hide Inv, Apply, Enabled, SuccessesTrue, Mislabels;
    if forall k :: 0 <= k < |steps| ==> !Mislabels(states[k], steps[k]) {
      forall i | 0 <= i < |states| ensures SuccessesTrue(states[i]) {
        SuccessesUpTo(native, limit, states, steps, i);
      }
    } else {
      var k :| 0 <= k < |steps| && Mislabels(states[k], steps[k]);
      if SuccessesTrue(states[k]) {
        ReachableInv(native, limit, states, steps, k);
        StepSuccesses(states[k], steps[k]);
        assert !SuccessesTrue(states[k + 1]);
      }
    }
  }

  lemma {:induction false} SuccessesUpTo(native: bool, limit: nat, states: seq<State>, steps: seq<Step>, i: nat)
    requires IsRun(native, limit, states, steps) && i < |states|
    requires forall k :: 0 <= k < i ==> !Mislabels(states[k], steps[k])
    ensures SuccessesTrue(states[i])
  {
    hide Inv, Apply, Enabled, SuccessesTrue, Mislabels;
    if i == 0 {
      InitialTrue(native, limit);
    } else {
      SuccessesUpTo(native, limit, states, steps, i - 1);
      ReachableInv(native, limit, states, steps, i - 1);
      StepSuccesses(states[i - 1], steps[i - 1]);
    }
  }

  lemma InitialTrue(native: bool, limit: nat)
    ensures Truthful(Initial(native, limit)) && SuccessesTrue(Initial(native, limit))
  {
  }
}
