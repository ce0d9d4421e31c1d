/** Every transition of a worker, and of the tail it shares with recovery, keeps the invariant. */
module JobWorkers {
  import opened Options
  import opened JobState
  import opened JobSteps
  import opened JobInvariant
  import opened JobMoves

  lemma KeepsLoad(s: State, t: ThreadId, ok: bool)
    requires Inv(s) && CanLoad(s, t, ok)
    ensures Inv(Load(s, t, ok))
  {
    hide Tally, Ledger;
    var j := s.threads[t].id;
    assert PcOk(s, t, s.threads[t]);
    assert j in s.jobs ==> BornAs(s, j, s.jobs[j]);
    hide Inv;
    if !ok {
      MoveTo(s, t, Requeueing(j));
    } else if j in s.jobs {
      MoveTo(s, t, Loaded(j, s.jobs[j]));
    } else if s.native {
      MoveTo(s, t, Requeueing(j));
    } else {
      Move(s, EndThread(s, t), t);
    }
  }

  lemma KeepsCompile(s: State, t: ThreadId, outcome: Status, result: nat)
    requires Inv(s) && CanCompile(s, t, outcome)
    ensures Inv(Compile(s, t, outcome, result))
  {
    hide Tally;
    var s' := Compile(s, t, outcome, result);
    assert PcOk(s, t, s.threads[t]);
    Move(s, s', t);
  }

  lemma KeepsFinish(s: State, t: ThreadId, w: Write)
    requires Inv(s) && CanFinish(s, t, w)
    ensures Inv(Finish(s, t, w))
  {
    hide Tally, Inv;
    var j := s.threads[t].id;
    if w.Lost? {
    } else if HasStatus(s, j, Running) {
      FinishWrites(s, t);
      if w.Applied? {
      } else {
      }
    } else if j in s.jobs && s.jobs[j].status.Terminal() {
      FinishReconciles(s, t);
    } else {
    }
  }

  lemma FinishWrites(s: State, t: ThreadId)
    requires Inv(s) && t in s.threads && s.threads[t].Finishing? && HasStatus(s, s.threads[t].id, Running)
    ensures var written := Transition(s, s.threads[t].id, Running, s.threads[t].done);
      Inv(written) && Inv(SetThread(written, t, Releasing(s.threads[t].id, s.threads[t].done)))
  {
    hide Tally;
    assert PcOk(s, t, s.threads[t]);
    var j, done := s.threads[t].id, s.threads[t].done;
    WriteJob(s, j, Running, done);
    var written := Transition(s, j, Running, done);
    Move(written, SetThread(written, t, Releasing(j, done)), t);
  }

  lemma FinishReconciles(s: State, t: ThreadId)
    requires Inv(s) && t in s.threads && s.threads[t].Finishing? && s.threads[t].id in s.jobs
    requires s.jobs[s.threads[t].id].status.Terminal()
    ensures var current := s.jobs[s.threads[t].id];
      Inv(SetThread(s, t, Releasing(s.threads[t].id, s.threads[t].done.(status := current.status, result := current.result))))
  {
    hide Tally;
    assert PcOk(s, t, s.threads[t]);
    var j, done := s.threads[t].id, s.threads[t].done;
    Move(s, SetThread(s, t, Releasing(j, done.(status := s.jobs[j].status, result := s.jobs[j].result))), t);
  }

  lemma KeepsReleaseSource(s: State, t: ThreadId)
    requires Inv(s) && CanReleaseSource(s, t)
    ensures Inv(ReleaseSource(s, t))
  {
    hide Tally, Release;
    var pc := s.threads[t];
    assert PcOk(s, t, pc);
    var x := pc.job.birth.snapshot;
    hide Ledger;
    if pc.job.status.Succeeded? {
      ReleaseMoved(s, ReleaseSource(s, t), t, Accounting(pc.id, pc.job), x);
    } else {
      ReleaseMoved(s, ReleaseSource(s, t), t, Deactivating(pc.id, Some(pc.job.status)), x);
    }
    ThreadShape(s, ReleaseSource(s, t), t);
  }

  /** The program counter gives up its pin as it moves on. */
  lemma ReleaseMoved(s: State, s': State, t: ThreadId, pc: Pc, x: SnapshotId)
    requires Inv(s) && s' == Release(SetThread(s, t, pc), x)
    requires t in s.threads && HeldPin(s.threads[t]) == Some(x) && HeldPin(pc) == None
    requires Driven(pc) == Driven(s.threads[t]) || Driven(pc) == None
    requires !pc.Taking?
    ensures OnlyThread(s, s', t) && Ledger(s')
    ensures forall d :: d in s.born ==> Tally(s', DriverOf(d)) <= Tally(s, DriverOf(d))
    ensures forall d :: Some(d) == DrivenBy(s, t) != DrivenBy(s', t) ==> Undriven(s', d)
    ensures s'.threads == s.threads[t := pc]
  {
    hide Tally, Release;
    var moved := SetThread(s, t, pc);
    HolderPinned(s, t);
    SpentSessions(s);
    assert PinCount(moved, x) >= 1;
    ReleaseCount(moved, x);
    ReleaseOnlyPins(moved, x);
    ThreadLedger(s, s', t);
  }

  lemma KeepsDeactivate(s: State, t: ThreadId)
    requires Inv(s) && CanDeactivate(s, t)
    ensures Inv(Deactivate(s, t))
  {
    hide Tally;
    assert PcOk(s, t, s.threads[t]);
    Move(s, Deactivate(s, t), t);
  }

  lemma KeepsCheck(s: State, t: ThreadId)
    requires Inv(s) && CanCheck(s, t)
    ensures Inv(Check(s, t))
  {
    hide Tally, Inv, TailOk;
    var pc := s.threads[t];
    EndingFacts(s, t);
    if pc.id in s.completions {
      TailGates(s, t, pc.id, pc.known);
      MoveTo(s, t, Gating(pc.id));
    } else {
      MoveTo(s, t, Closing(pc.id, pc.known));
    }
  }

  lemma EndingFacts(s: State, t: ThreadId)
    requires Inv(s) && t in s.threads && s.threads[t].Ending?
    ensures TailOk(s, s.threads[t].id, s.threads[t].known)
  {
    hide Tally;
    assert PcOk(s, t, s.threads[t]);
  }

  lemma TailGates(s: State, t: ThreadId, j: JobId, known: Option<Status>)
    requires TailOk(s, j, known)
    ensures PcOk(s, t, Gating(j))
  {
    hide Tally;
  }

  /** What a program counter waiting to end its attempt knows. */
  lemma ClosingFacts(s: State, t: ThreadId)
    requires Inv(s) && t in s.threads && s.threads[t].Closing?
    ensures TailOk(s, s.threads[t].id, s.threads[t].known)
  {
    hide Tally;
    assert PcOk(s, t, s.threads[t]);
  }

  lemma KeepsReload(s: State, t: ThreadId)
    requires Inv(s) && CanReload(s, t)
    ensures Inv(Reload(s, t))
  {
    hide Inv, Undriven, Settled;
    var j := s.threads[t].id;
    ClosingFacts(s, t);
    if j in s.jobs && s.jobs[j].status.Terminal() {
      MoveTo(s, t, Closing(j, Some(s.jobs[j].status)));
    } else {
      MoveTo(s, t, Gating(j));
    }
  }

  // ----- Tokens -----

  lemma KeepsReceive(s: State, t: ThreadId)
    requires Inv(s) && CanReceive(s, t)
    ensures Inv(Receive(s, t))
  {
    hide Tally;
    var s' := Receive(s, t);
    var token := s.queue[0];
    ReceivedKnown(s, token);
    if token.ForJob? {
      TokenLedger(s, s', t);
      TokenShape(s, s', t);
    } else {
      TokenLedger(s, s', t);
      TokenShape(s, s', t);
    }
  }

  /** A token at the head of the channel names a job that has not started, or a session that was opened. */
  lemma ReceivedKnown(s: State, token: Token)
    requires Inv(s) && s.queue != [] && token == s.queue[0]
    ensures token.ForJob? ==> Tally(s, DriverOf(token.job)) == 1 && token.job in s.born
    ensures token.ForSession? ==> token.session in s.spent
    ensures token.ForJob? ==> PreStart(s, token.job)
  {
  }

  lemma KeepsRequeue(s: State, t: ThreadId)
    requires Inv(s) && CanRequeue(s, t)
    ensures Inv(Requeue(s, t))
  {
    hide Tally, TokenCount;
    var s' := Requeue(s, t);
    forall m: Meter
      ensures TokenCount(m, s'.queue) == TokenCount(m, s.queue) + TokenWeight(m, ForJob(s.threads[t].id))
    {
      TokenCountAppend(m, s.queue, ForJob(s.threads[t].id));
    }
    assert PcOk(s, t, s.threads[t]);
    TokenLedger(s, s', t);
    TokenShape(s, s', t);
  }

  // ----- The start transition -----

  /** What the program counter at the start transition knows. */
  lemma LoadedFacts(s: State, t: ThreadId)
    requires Inv(s) && t in s.threads && s.threads[t].Loaded?
    ensures t.Worker? && PreStart(s, s.threads[t].id) && BornAs(s, s.threads[t].id, s.threads[t].seen)
    ensures s.threads[t].seen.status.Queued? || s.threads[t].seen.status.Cancelled?
    ensures AdmissionWeight(DriverOf(s.threads[t].id), s.admission) == 0
  {
    hide Tally;
    assert PcOk(s, t, s.threads[t]);
    DriverAlone(s, t, s.threads[t].id);
  }

  lemma KeepsStart(s: State, t: ThreadId, ok: bool)
    requires Inv(s) && CanStart(s, t, ok)
    ensures Inv(Start(s, t, ok))
  {
    hide Tally, Inv;
    var j, seen := s.threads[t].id, s.threads[t].seen;
    LoadedFacts(s, t);
    if !seen.status.Queued? {
      MoveTo(s, t, Ending(j, Some(seen.status)));
    } else if !OwnsAttempt(s, j, seen.birth) {
      StartDisowned(s, t, ok);
    } else if !ok {
      MoveTo(s, t, Requeueing(j));
    } else if !HasStatus(s, j, Queued) {
      MoveTo(s, t, Deactivating(j, None));
    } else {
      assert Start(s, t, ok) == Started(s, t);
      StartKeeps(s, t);
    }
  }

  lemma StartDisowned(s: State, t: ThreadId, ok: bool)
    requires Inv(s) && t in s.threads && s.threads[t].Loaded? && !OwnsAttempt(s, s.threads[t].id, s.threads[t].seen.birth)
    ensures Inv(Cancel(SetThread(s, t, Ending(s.threads[t].id, None)), s.threads[t].id, ok))
  {
    hide Tally, Inv;
    LoadedFacts(s, t);
    var j := s.threads[t].id;
    var s1 := SetThread(s, t, Ending(j, None));
    Move(s, s1, t);
    if ok && HasStatus(s1, j, Queued) {
      CancelJob(s1, j);
    } else {
    }
  }

  function Started(s: State, t: ThreadId): State
    requires t in s.threads && s.threads[t].Loaded? && s.threads[t].id in s.jobs
  {
    var j, running := s.threads[t].id, s.threads[t].seen.(status := Running);
    s.(jobs := s.jobs[j := running], queued := s.queued - 1, active := s.active + {j},
       threads := s.threads[t := Compiling(j, running)])
  }

  lemma StartKeeps(s: State, t: ThreadId)
    requires Inv(s) && t in s.threads && s.threads[t].Loaded? && HasStatus(s, s.threads[t].id, Queued)
    ensures Inv(Started(s, t))
  {
    hide Tally;
    LoadedFacts(s, t);
    SpentSessions(s);
    assert s.jobs[s.threads[t].id].birth == s.threads[t].seen.birth;
    StartPins(s, t);
    StartLedger(s, t);
    StartShape(s, t);
  }

  lemma StartPins(s: State, t: ThreadId)
    requires Ledger(s) && t in s.threads && s.threads[t].Loaded? && HasStatus(s, s.threads[t].id, Queued)
    requires s.jobs[s.threads[t].id].birth == s.threads[t].seen.birth
    ensures PinsConserved(Started(s, t)) && QueueCounted(Started(s, t))
  {
    hide Tally, TokenCount, AdmissionWeight, CompletionWeight, SessionWeight;
    var j := s.threads[t].id;
    PinsKept(s, Started(s, t), j, t, 0, 0);
    QueueKept(s, Started(s, t), j, t, 0, 0);
  }

  lemma StartLedger(s: State, t: ThreadId)
    requires Ledger(s) && t in s.threads && s.threads[t].Loaded? && HasStatus(s, s.threads[t].id, Queued)
    requires s.sessions.Keys <= s.spent
    ensures DriversUnique(Started(s, t)) && TokensUnique(Started(s, t))
    ensures forall d :: d in s.born ==> Tally(Started(s, t), DriverOf(d)) <= Tally(s, DriverOf(d))
  {
    hide Tally, TokenCount, AdmissionWeight, CompletionWeight, SessionWeight;
    var j := s.threads[t].id;
    DriversKept(s, Started(s, t), j, t, 0, 0);
    TokensKept(s, Started(s, t), j, t, 0, 0);
  }

  lemma StartShape(s: State, t: ThreadId)
    requires Inv(s) && t in s.threads && s.threads[t].Loaded? && HasStatus(s, s.threads[t].id, Queued)
    requires forall d :: d in s.born ==> Tally(Started(s, t), DriverOf(d)) <= Tally(s, DriverOf(d))
    ensures Shape(Started(s, t))
  {
    hide Tally, Ledger;
    LoadedFacts(s, t);
    DriverAlone(s, t, s.threads[t].id);
    assert s.jobs[s.threads[t].id].birth == s.threads[t].seen.birth;
    assert !Undriven(s, s.threads[t].id);
    StartRest(s, t);
    StartParties(s, t);
  }

  /** The attempt's record and gate, and what is still queued. */
  lemma StartRest(s: State, t: ThreadId)
    requires Shape(s) && t in s.threads && s.threads[t].Loaded? && HasStatus(s, s.threads[t].id, Queued)
    requires s.jobs[s.threads[t].id].birth == s.threads[t].seen.birth && !Undriven(s, s.threads[t].id)
    requires TokenCount(DriverOf(s.threads[t].id), s.queue) == 0 && AdmissionWeight(DriverOf(s.threads[t].id), s.admission) == 0
    requires forall d :: d in s.born ==> Tally(Started(s, t), DriverOf(d)) <= Tally(s, DriverOf(d))
    ensures JobsOk(Started(s, t)) && QueueOk(Started(s, t)) && AdmissionOk(Started(s, t))
    ensures s.threads[t].id in s.gates
  {
    hide Tally, TokenCount, ThreadsOk, CompletionsOk, SessionsOk;
    var s' := Started(s, t);
    var j := s.threads[t].id;
    TokenAbsent(j, s.queue);
    forall token | token in s.queue && token.ForJob? ensures PreStart(s', token.job) { assert token.job != j; }
    AdmissionElsewhere(s, s', j);
  }

  lemma StartParties(s: State, t: ThreadId)
    requires Shape(s) && t in s.threads && s.threads[t].Loaded? && HasStatus(s, s.threads[t].id, Queued)
    requires t.Worker? && s.jobs[s.threads[t].id].birth == s.threads[t].seen.birth && s.threads[t].id in s.gates
    requires Alone(s, t, s.threads[t].id) && s.threads[t].id !in s.completions
    requires forall sid :: sid in s.sessions ==> s.sessions[sid].pending != Some(s.threads[t].id)
    requires forall d :: d in s.born ==> Tally(Started(s, t), DriverOf(d)) <= Tally(s, DriverOf(d))
    ensures ThreadsOk(Started(s, t)) && CompletionsOk(Started(s, t)) && SessionsOk(Started(s, t))
  {
    hide Tally, QueueOk, AdmissionOk;
    var s' := Started(s, t);
    var j := s.threads[t].id;
    assert forall d :: d != j ==> Steady(s, s', d) && SteadyCompletion(s, s', d);
    hide Steady, SteadyCompletion;
    OtherThreads(s, s', t, j);
    OtherCompletions(s, s', j);
    AllSessions(s, s', j);
  }

  lemma AllSessions(s: State, s': State, j: JobId)
    requires SessionsOk(s) && s.spent <= s'.spent && s.sessions == s'.sessions && s.born == s'.born
    requires forall sid :: sid in s.sessions ==> s.sessions[sid].pending != Some(j)
    requires forall d :: d != j ==> Steady(s, s', d)
    ensures SessionsOk(s')
  {
    hide Tally;
    forall sid | sid in s.sessions ensures SessionOk(s', sid) {
      assert SessionOk(s, sid);
      assert s.sessions[sid].pending.Some? ==> Steady(s, s', s.sessions[sid].pending.value);
    }
  }

  lemma AdmissionElsewhere(s: State, s': State, j: JobId)
    requires AdmissionOk(s) && s.admission == s'.admission && s.sessions == s'.sessions
    requires AdmissionWeight(DriverOf(j), s.admission) == 0
    requires forall d :: d != j && d in s.jobs ==> d in s'.jobs && s'.jobs[d] == s.jobs[d]
    ensures AdmissionOk(s')
  {
  }

  // ----- Parked completions -----

  lemma KeepsDefer(s: State, t: ThreadId)
    requires Inv(s) && CanDefer(s, t)
    ensures Inv(Defer(s, t))
  {
    hide Tally;
    assert PcOk(s, t, s.threads[t]);
    ParkLedger(s, t, Completion(s.threads[t].id, Running, s.threads[t].done));
    ParkShape(s, t, Completion(s.threads[t].id, Running, s.threads[t].done));
  }

  function Parked(s: State, t: ThreadId, entry: Completion): State {
    s.(completions := s.completions[entry.id := entry],
       threads := s.threads[t := Deactivating(entry.id, Some(entry.job.status))])
  }

  /** The driver hands its attempt, and its pin if it still has it, to the completion table. */
  predicate Parkable(s: State, t: ThreadId, entry: Completion) {
    t in s.threads && Driven(s.threads[t]) == Some(entry.id) && BornAs(s, entry.id, entry.job) && !s.native &&
    ((s.threads[t].Finishing? && entry.from.Running? && (entry.job.status.Succeeded? || entry.job.status.Failed?)) ||
     (s.threads[t].Accounting? && entry.from.Succeeded? && entry.job.status.Succeeded?))
  }

  lemma ParkLedger(s: State, t: ThreadId, entry: Completion)
    requires Inv(s) && Parkable(s, t, entry)
    ensures Ledger(Parked(s, t, entry))
    ensures forall d :: d in s.born ==> Tally(Parked(s, t, entry), DriverOf(d)) <= Tally(s, DriverOf(d))
    ensures Undriven(Parked(s, t, entry), entry.id)
  {
    hide Tally;
    DriverAlone(s, t, entry.id);
    SpentSessions(s);
    assert BornAs(s, entry.id, if s.threads[t].Finishing? then s.threads[t].done else s.threads[t].job) by {
      assert PcOk(s, t, s.threads[t]);
    }
    hide Inv;
    ParkPins(s, t, entry);
    ParkDrivers(s, t, entry);
    ParkTokens(s, t, entry);
  }

  lemma ParkPins(s: State, t: ThreadId, entry: Completion)
    requires Ledger(s) && Parkable(s, t, entry) && entry.id !in s.completions
    requires BornAs(s, entry.id, if s.threads[t].Finishing? then s.threads[t].done else s.threads[t].job)
    ensures PinsConserved(Parked(s, t, entry)) && QueueCounted(Parked(s, t, entry))
  {
    hide Tally, TokenCount, AdmissionWeight, JobWeight, SessionWeight;
    PinsKept(s, Parked(s, t, entry), 0, t, entry.id, 0);
    QueueKept(s, Parked(s, t, entry), 0, t, entry.id, 0);
  }

  lemma ParkDrivers(s: State, t: ThreadId, entry: Completion)
    requires Ledger(s) && t in s.threads && Driven(s.threads[t]) == Some(entry.id)
    requires entry.id !in s.completions && s.sessions.Keys <= s.spent && Tally(s, DriverOf(entry.id)) == 1
    ensures DriversUnique(Parked(s, t, entry))
    ensures forall d :: d in s.born ==> Tally(Parked(s, t, entry), DriverOf(d)) <= Tally(s, DriverOf(d))
    ensures Undriven(Parked(s, t, entry), entry.id)
  {
    hide Tally, TokenCount, AdmissionWeight, JobWeight, SessionWeight, PinsConserved, QueueCounted, TokensUnique;
    var s' := Parked(s, t, entry);
    assert OneKey(s, s', 0, t, entry.id, 0);
    assert forall d: JobId :: ThreadWeight(s'.threads, t, DriverOf(d)) == 0 && CompletionWeight(s'.completions, entry.id, DriverOf(d)) == 0;
    DriversKept(s, s', 0, t, entry.id, 0);
  }

  lemma ParkTokens(s: State, t: ThreadId, entry: Completion)
    requires Ledger(s) && t in s.threads && Driven(s.threads[t]) == Some(entry.id) && s.sessions.Keys <= s.spent
    ensures TokensUnique(Parked(s, t, entry))
  {
    hide Tally, TokenCount, AdmissionWeight, JobWeight, SessionWeight;
    TokensKept(s, Parked(s, t, entry), 0, t, entry.id, 0);
  }

  lemma ParkShape(s: State, t: ThreadId, entry: Completion)
    requires Inv(s) && Parkable(s, t, entry)
    requires forall d :: d in s.born ==> Tally(Parked(s, t, entry), DriverOf(d)) <= Tally(s, DriverOf(d))
    requires Undriven(Parked(s, t, entry), entry.id)
    ensures Shape(Parked(s, t, entry))
  {
    hide Tally, Inv, Undriven, JobsOk, QueueOk, AdmissionOk, ThreadsOk, CompletionsOk, SessionsOk;
    var s' := Parked(s, t, entry);
    ParkSteady(s, t, entry);
    ParkThreads(s, t, entry);
    ParkCompletions(s, t, entry);
    ParkRest(s, t, entry);
  }

  lemma ParkThreads(s: State, t: ThreadId, entry: Completion)
    requires Inv(s) && Parkable(s, t, entry) && Undriven(Parked(s, t, entry), entry.id)
    requires forall d :: Steady(s, Parked(s, t, entry), d)
    requires forall d :: d != entry.id ==> SteadyCompletion(s, Parked(s, t, entry), d)
    ensures ThreadsOk(Parked(s, t, entry))
  {
    hide Tally, Steady, SteadyCompletion, Undriven, Ledger;
    DriverAlone(s, t, entry.id);
    OtherThreads(s, Parked(s, t, entry), t, entry.id);
  }

  lemma ParkCompletions(s: State, t: ThreadId, entry: Completion)
    requires Inv(s) && Parkable(s, t, entry) && Undriven(Parked(s, t, entry), entry.id)
    requires forall d :: Steady(s, Parked(s, t, entry), d)
    ensures CompletionsOk(Parked(s, t, entry))
  {
    hide Tally, Steady, Undriven, Ledger;
    assert PcOk(s, t, s.threads[t]);
    OtherCompletions(s, Parked(s, t, entry), entry.id);
  }

  lemma ParkRest(s: State, t: ThreadId, entry: Completion)
    requires Inv(s) && Parkable(s, t, entry)
    requires forall d :: Steady(s, Parked(s, t, entry), d)
    ensures JobsOk(Parked(s, t, entry)) && QueueOk(Parked(s, t, entry)) && AdmissionOk(Parked(s, t, entry))
    ensures SessionsOk(Parked(s, t, entry))
  {
    hide Tally, Ledger, ThreadsOk, CompletionsOk;
    DriverAlone(s, t, entry.id);
    hide DriversUnique;
    var s' := Parked(s, t, entry);
    AllSessions(s, s', entry.id);
    forall d | d in s.jobs ensures Undriven(s, d) ==> Undriven(s', d) { assert BornAs(s, d, s.jobs[d]) && Steady(s, s', d); }
  }

  lemma ParkSteady(s: State, t: ThreadId, entry: Completion)
    requires t in s.threads
    requires forall d :: d in s.born ==> Tally(Parked(s, t, entry), DriverOf(d)) <= Tally(s, DriverOf(d))
    ensures forall d :: Steady(s, Parked(s, t, entry), d)
    ensures forall d :: d != entry.id ==> SteadyCompletion(s, Parked(s, t, entry), d)
  {
    hide Tally;
  }

  lemma KeepsAccount(s: State, t: ThreadId, cached: bool, result: nat, w: Write)
    requires Inv(s) && CanAccount(s, t, w)
    ensures Inv(Account(s, t, cached, result, w))
  {
    hide Tally, Ledger;
    var s' := Account(s, t, cached, result, w);
    var j, job := s.threads[t].id, s.threads[t].job;
    var accounted := job.(result := result);
    assert PcOk(s, t, s.threads[t]);
    if !cached {
      Move(s, s', t);
    } else if w.Lost? {
      ParkLedger(s, t, Completion(j, Succeeded, accounted));
      ParkShape(s, t, Completion(j, Succeeded, accounted));
    } else {
      var written := Transition(s, j, Succeeded, accounted);
      WriteJob(s, j, Succeeded, accounted);
      if w.Applied? {
        assert s' == SetThread(written, t, Deactivating(j, Some(Succeeded)));
        Move(written, s', t);
      } else {
        assert s' == Parked(written, t, Completion(j, Succeeded, accounted));
        ParkLedger(written, t, Completion(j, Succeeded, accounted));
        ParkShape(written, t, Completion(j, Succeeded, accounted));
      }
    }
  }

  // ----- Recovery -----

  lemma KeepsRetry(s: State, j: JobId, w: Write)
    requires Inv(s) && CanRetry(s, j, w)
    ensures Inv(Retry(s, j, w))
  {
    hide Tally, Inv;
    var entry := s.completions[j];
    if w.Lost? {
    } else if HasStatus(s, j, entry.from) {
      RetryWrites(s, j);
      if w.Applied? {
      } else {
      }
    } else if j in s.jobs && s.jobs[j].status.Terminal() {
      RetryReconciles(s, j);
    } else {
    }
  }

  lemma CompletionFacts(s: State, j: JobId)
    requires Inv(s) && j in s.completions
    ensures CompletionOk(s, j)
  {
    hide Tally;
  }

  lemma RetryWrites(s: State, j: JobId)
    requires Inv(s) && Recovery !in s.threads && j in s.completions && HasStatus(s, j, s.completions[j].from)
    ensures var entry := s.completions[j]; var written := Transition(s, j, entry.from, entry.job);
      Inv(written) && Inv(SetThread(written, Recovery, Confirmed(j, entry, entry.job.status)))
  {
    hide Tally, Inv, Undriven;
    var entry := s.completions[j];
    CompletionFacts(s, j);
    WriteJob(s, j, entry.from, entry.job);
    var written := Transition(s, j, entry.from, entry.job);
    Move(written, SetThread(written, Recovery, Confirmed(j, entry, entry.job.status)), Recovery);
  }

  lemma RetryReconciles(s: State, j: JobId)
    requires Inv(s) && Recovery !in s.threads && j in s.completions && j in s.jobs && s.jobs[j].status.Terminal()
    ensures Inv(SetThread(s, Recovery, Confirmed(j, s.completions[j], s.jobs[j].status)))
  {
    hide Tally, Inv, Undriven;
    CompletionFacts(s, j);
    Move(s, SetThread(s, Recovery, Confirmed(j, s.completions[j], s.jobs[j].status)), Recovery);
  }

  lemma ConfirmedFacts(s: State)
    requires Inv(s) && CanDrop(s)
    ensures var pc := s.threads[Recovery];
      pc.id in s.completions && s.completions[pc.id] == pc.entry && BornAs(s, pc.id, pc.entry.job) &&
      Undriven(s, pc.id) && pc.status.Terminal()
  {
    hide Tally;
    assert PcOk(s, Recovery, s.threads[Recovery]);
    assert CompletionOk(s, s.threads[Recovery].id);
  }

  lemma KeepsDrop(s: State)
    requires Inv(s) && CanDrop(s)
    ensures Inv(Drop(s))
  {
    hide Tally, Shape, PinsConserved, DriversUnique, TokensUnique, QueueCounted, Undriven, BornAs, Drop;
    ConfirmedFacts(s);
    DropPins(s);
    DropDrivers(s);
    DropShape(s);
  }

  lemma DropShape(s: State)
    requires Shape(s) && CanDrop(s)
    requires forall d :: Tally(Drop(s), DriverOf(d)) == Tally(s, DriverOf(d))
    requires BornAs(s, s.threads[Recovery].id, s.threads[Recovery].entry.job) && Undriven(s, s.threads[Recovery].id)
    requires s.threads[Recovery].status.Terminal()
    ensures Shape(Drop(s))
  {
    hide Tally, Steady, JobsOk, QueueOk, AdmissionOk, ThreadsOk, CompletionsOk, SessionsOk, Undriven, BornAs, Drop;
    DropRest(s);
    DropParties(s);
    DropThreads(s);
  }

  lemma DropRest(s: State)
    requires Shape(s) && CanDrop(s)
    requires forall d :: Tally(Drop(s), DriverOf(d)) == Tally(s, DriverOf(d))
    ensures forall d :: Steady(s, Drop(s), d)
    ensures JobsOk(Drop(s)) && QueueOk(Drop(s)) && AdmissionOk(Drop(s))
  {
    hide Tally, ThreadsOk, CompletionsOk, SessionsOk;
  }

  lemma DropParties(s: State)
    requires Shape(s) && CanDrop(s)
    requires forall d :: Steady(s, Drop(s), d)
    ensures CompletionsOk(Drop(s)) && SessionsOk(Drop(s))
  {
    hide Tally, JobsOk, QueueOk, AdmissionOk, ThreadsOk, CompletionOk, Steady;
    OtherCompletions(s, Drop(s), s.threads[Recovery].id);
    forall sid | sid in s.sessions ensures SessionOk(Drop(s), sid) { SessionKept(s, Drop(s), sid); }
  }

  lemma SessionKept(s: State, s': State, sid: SessionId)
    requires SessionsOk(s) && sid in s.sessions
    requires s'.sessions == s.sessions && s'.jobs == s.jobs && s'.born == s.born && s'.spent == s.spent
    ensures SessionOk(s', sid)
  {
    assert SessionOk(s, sid);
  }

  lemma DropThreads(s: State)
    requires Shape(s) && CanDrop(s)
    requires forall d :: Steady(s, Drop(s), d)
    requires BornAs(s, s.threads[Recovery].id, s.threads[Recovery].entry.job) && Undriven(s, s.threads[Recovery].id)
    requires s.threads[Recovery].status.Terminal()
    ensures ThreadsOk(Drop(s))
  {
    hide Tally, JobsOk, QueueOk, AdmissionOk, CompletionsOk, SessionsOk, Undriven;
    var s', j := Drop(s), s.threads[Recovery].id;
    assert Steady(s, s', j) && s'.threads[Recovery] == Unpinning(j, s.threads[Recovery].entry, s.threads[Recovery].status);
    assert PcOk(s', Recovery, s'.threads[Recovery]);
    hide Steady, Drop, PcOk;
    OtherThreads(s, s', Recovery, j);
  }

  lemma DropPins(s: State)
    requires Ledger(s) && CanDrop(s)
    requires var pc := s.threads[Recovery]; pc.id in s.completions && s.completions[pc.id] == pc.entry
    ensures PinsConserved(Drop(s)) && QueueCounted(Drop(s))
  {
    hide Tally, TokenCount, AdmissionWeight, JobWeight, SessionWeight;
    PinsKept(s, Drop(s), 0, Recovery, s.threads[Recovery].id, 0);
    QueueKept(s, Drop(s), 0, Recovery, s.threads[Recovery].id, 0);
  }

  lemma DropDrivers(s: State)
    requires Ledger(s) && CanDrop(s)
    ensures DriversUnique(Drop(s)) && TokensUnique(Drop(s))
    ensures forall d :: Tally(Drop(s), DriverOf(d)) == Tally(s, DriverOf(d))
  {
    hide Tally;
    forall d: JobId ensures Tally(Drop(s), DriverOf(d)) == Tally(s, DriverOf(d)) { DropTally(s, DriverOf(d)); }
    forall x: SessionId ensures Tally(Drop(s), TokenOf(x)) == Tally(s, TokenOf(x)) { DropTally(s, TokenOf(x)); }
  }

  /** A dropped completion claims no job and no token. */
  lemma DropTally(s: State, m: Meter)
    requires CanDrop(s) && (m.DriverOf? || m.TokenOf?)
    ensures Tally(Drop(s), m) == Tally(s, m)
  {
    hide Tally, TokenCount, AdmissionWeight, JobWeight, SessionWeight;
    TallyChange(s, Drop(s), 0, Recovery, s.threads[Recovery].id, 0, m);
  }

  lemma KeepsUnpin(s: State)
    requires Inv(s) && CanUnpin(s)
    ensures Inv(Unpin(s))
  {
    hide Tally, Release, Ledger;
    var pc := s.threads[Recovery];
    assert PcOk(s, Recovery, pc);
    var ending := Ending(pc.id, Some(pc.status));
    if pc.entry.from.Running? {
      ReleaseMoved(s, Unpin(s), Recovery, ending, pc.entry.job.birth.snapshot);
      ThreadShape(s, Unpin(s), Recovery);
    } else {
      Move(s, Unpin(s), Recovery);
    }
  }

  lemma KeepsForget(s: State, j: JobId)
    requires Inv(s) && CanForget(s, j)
    ensures Inv(Forget(s, j))
  {
    hide Tally;
    Move(s, Forget(s, j), Recovery);
  }

  lemma KeepsEndGate(s: State, t: ThreadId)
    requires Inv(s) && CanEndGate(s, t)
    ensures Inv(EndGate(s, t))
  {
    hide Tally;
    assert PcOk(s, t, s.threads[t]);
    Move(s, EndThread(s, t), t);
    CloseGateKeeps(EndThread(s, t), s.threads[t].id);
  }
}
