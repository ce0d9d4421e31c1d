/** The elementary moves that transitions are made of keep the invariant. */
module JobMoves {
  import opened Options
  import opened Counting
  import opened JobState
  import opened JobInvariant

  // ----- A program counter moves -----

  /** Only the program counter of t, the pins and the cancel handles change. */
  ghost predicate OnlyThread(s: State, s': State, t: ThreadId) {
    s' == s.(threads := s'.threads, active := s'.active, pins := s'.pins) && SameOff(s.threads, s'.threads, t)
  }

  function DrivenBy(s: State, t: ThreadId): Option<JobId> { if t in s.threads then Driven(s.threads[t]) else None }
  function HeldBy(s: State, t: ThreadId): Option<SnapshotId> { if t in s.threads then HeldPin(s.threads[t]) else None }
  predicate TakingBy(s: State, t: ThreadId) { t in s.threads && s.threads[t].Taking? }

  /** The pin table moves exactly with the pin owned by t. */
  ghost predicate PinsFollow(s: State, s': State, t: ThreadId) {
    && (forall x: SnapshotId :: PinCount(s', x) + (if HeldBy(s, t) == Some(x) then 1 else 0) ==
                    PinCount(s, x) + (if HeldBy(s', t) == Some(x) then 1 else 0))
    && (forall x :: x in s'.pins ==> s'.pins[x] >= 1)
  }

  lemma ThreadPins(s: State, s': State, t: ThreadId)
    requires PinsConserved(s) && OnlyThread(s, s', t) && PinsFollow(s, s', t)
    ensures PinsConserved(s')
  {
    hide Tally;
    forall x: SnapshotId ensures PinCount(s', x) == Tally(s', PinOf(x)) { ThreadTally(s, s', t, PinOf(x)); }
  }

  lemma ThreadLedger(s: State, s': State, t: ThreadId)
    requires Ledger(s) && OnlyThread(s, s', t) && s.sessions.Keys <= s.spent
    requires PinsFollow(s, s', t)
    requires DrivenBy(s', t) == DrivenBy(s, t) || DrivenBy(s', t) == None
    requires !TakingBy(s, t) && !TakingBy(s', t)
    ensures Ledger(s')
    ensures forall d :: d in s.born ==> Tally(s', DriverOf(d)) <= Tally(s, DriverOf(d))
    ensures forall d :: Some(d) == DrivenBy(s, t) != DrivenBy(s', t) ==> Undriven(s', d)
  {
    hide Tally, PinsFollow;
    ThreadPins(s, s', t);
    forall d: JobId
      ensures Tally(s', DriverOf(d)) + (if DrivenBy(s, t) == Some(d) then 1 else 0) ==
              Tally(s, DriverOf(d)) + (if DrivenBy(s', t) == Some(d) then 1 else 0)
    {
      ThreadTally(s, s', t, DriverOf(d));
    }
    forall x: SessionId ensures Tally(s', TokenOf(x)) == Tally(s, TokenOf(x)) { ThreadTally(s, s', t, TokenOf(x)); }
    ThreadTally(s, s', t, QueuedJobs);
  }

  lemma ThreadTally(s: State, s': State, t: ThreadId, m: Meter)
    requires OnlyThread(s, s', t)
    ensures Tally(s', m) + ThreadWeight(s.threads, t, m) == Tally(s, m) + ThreadWeight(s'.threads, t, m)
  {
    hide Tally, TokenCount, AdmissionWeight, JobWeight, CompletionWeight, SessionWeight, ThreadWeight;
    TallyChange(s, s', 0, t, 0, 0, m);
  }

  lemma ThreadShape(s: State, s': State, t: ThreadId)
    requires Shape(s) && OnlyThread(s, s', t)
    requires forall d :: d in s.born ==> Tally(s', DriverOf(d)) <= Tally(s, DriverOf(d))
    requires t in s'.threads ==> PcOk(s', t, s'.threads[t])
    ensures Shape(s')
  {
    hide Tally;
    assert forall j :: Steady(s, s', j) && SteadyCompletion(s, s', j);
    hide Steady, SteadyCompletion;
    OtherThreads(s, s', t, 0);
    BystandersShape(s, s');
  }

  /** A program counter moves without touching any pin. */
  lemma MoveLedger(s: State, s': State, t: ThreadId)
    requires Inv(s) && OnlyThread(s, s', t) && s'.pins == s.pins && HeldBy(s', t) == HeldBy(s, t)
    requires DrivenBy(s', t) == DrivenBy(s, t) || DrivenBy(s', t) == None
    requires !TakingBy(s, t) && !TakingBy(s', t)
    ensures Ledger(s')
    ensures forall d :: d in s.born ==> Tally(s', DriverOf(d)) <= Tally(s, DriverOf(d))
    ensures forall d :: Some(d) == DrivenBy(s, t) != DrivenBy(s', t) ==> Undriven(s', d)
  {
    hide Tally;
    SpentSessions(s);
    ThreadLedger(s, s', t);
  }

  /** The driver of a job ends its attempt. */
  predicate EntersTail(s: State, t: ThreadId, pc: Pc) {
    (pc.Deactivating? || pc.Ending?) && DrivenBy(s, t) == Some(pc.id) && pc.id in s.born &&
    (if pc.known.Some? then pc.known.value.Terminal() else Settled(s, pc.id))
  }

  lemma Move(s: State, s': State, t: ThreadId)
    requires Inv(s) && OnlyThread(s, s', t) && s'.pins == s.pins && HeldBy(s', t) == HeldBy(s, t)
    requires DrivenBy(s', t) == DrivenBy(s, t) || DrivenBy(s', t) == None
    requires !TakingBy(s, t) && !TakingBy(s', t)
    requires t in s'.threads ==> PcOk(s, t, s'.threads[t]) || EntersTail(s, t, s'.threads[t])
    ensures Inv(s')
    ensures forall d :: d in s.born ==> Tally(s', DriverOf(d)) <= Tally(s, DriverOf(d))
  {
    hide Tally;
    MoveLedger(s, s', t);
    ThreadShape(s, s', t);
  }

  /** The same for a program counter that goes on. */
  lemma MoveTo(s: State, t: ThreadId, pc: Pc)
    requires Inv(s) && t in s.threads && HeldPin(pc) == HeldPin(s.threads[t])
    requires Driven(pc) == Driven(s.threads[t]) || Driven(pc) == None
    requires !s.threads[t].Taking? && !pc.Taking?
    requires PcOk(s, t, pc) || EntersTail(s, t, pc)
    ensures Inv(SetThread(s, t, pc))
  {
    hide Inv, PcOk, EntersTail, HeldPin, Driven;
    Move(s, SetThread(s, t, pc), t);
  }

  lemma SpentSessions(s: State)
    requires Shape(s)
    ensures s.sessions.Keys <= s.spent
  {
    hide Tally;
    forall sid | sid in s.sessions ensures sid in s.spent { assert SessionOk(s, sid); }
  }

  lemma UndrivenMeans(s: State, j: JobId)
    requires Undriven(s, j)
    ensures forall t :: t in s.threads ==> Driven(s.threads[t]) != Some(j)
    ensures forall sid :: sid in s.sessions ==> s.sessions[sid].pending != Some(j)
    ensures AdmissionWeight(DriverOf(j), s.admission) == 0 && TokenCount(DriverOf(j), s.queue) == 0
  {
    var m := DriverOf(j);
    forall t | t in s.threads ensures Driven(s.threads[t]) != Some(j) {
      if Driven(s.threads[t]) == Some(j) { CountWitness(s.threads, t, ThreadTest(m)); }
    }
    forall sid | sid in s.sessions ensures s.sessions[sid].pending != Some(j) {
      if s.sessions[sid].pending == Some(j) { CountWitness(s.sessions, sid, SessionTest(m)); }
    }
  }

  // ----- A started job's record is rewritten -----

  lemma WriteJob(s: State, j: JobId, expected: Status, next: Job)
    requires Inv(s) && HasStatus(s, j, expected) && BornAs(s, j, next)
    requires (expected.Running? && next.status.Terminal()) || (expected.Succeeded? && next.status.Succeeded?)
    ensures Inv(Transition(s, j, expected, next))
    ensures forall m: Meter :: Tally(Transition(s, j, expected, next), m) == Tally(s, m)
  {
    hide Tally;
    var s' := Transition(s, j, expected, next);
    forall m: Meter ensures Tally(s', m) == Tally(s, m) { WriteTally(s, s', j, m); }
    assert forall d :: Steady(s, s', d) && SteadyCompletion(s, s', d);
    hide Steady, SteadyCompletion, Ledger;
    WriteShape(s, s');
    WriteLedger(s, s');
  }

  lemma WriteTally(s: State, s': State, j: JobId, m: Meter)
    requires s' == s.(jobs := s'.jobs) && SameOff(s.jobs, s'.jobs, j) && j in s.jobs && j in s'.jobs
    requires !s.jobs[j].status.Queued? && !s'.jobs[j].status.Queued?
    ensures Tally(s', m) == Tally(s, m)
  {
    hide Tally, TokenCount, AdmissionWeight, ThreadWeight, CompletionWeight, SessionWeight;
    TallyChange(s, s', j, Recovery, 0, 0, m);
  }

  lemma WriteLedger(s: State, s': State)
    requires Ledger(s) && s' == s.(jobs := s'.jobs) && forall m: Meter :: Tally(s', m) == Tally(s, m)
    ensures Ledger(s')
  {
    hide Tally;
  }

  /** The shape only depends on the parts of the state that a steady step leaves alone. */
  lemma WriteShape(s: State, s': State)
    requires Shape(s) && s.threads == s'.threads && s.completions == s'.completions && s.sessions == s'.sessions
    requires s.spent <= s'.spent && s.admission == s'.admission && s.queue == s'.queue
    requires JobsOk(s') && AdmissionOk(s')
    requires forall d :: Steady(s, s', d) && SteadyCompletion(s, s', d)
    ensures Shape(s')
  {
    hide Tally;
    AllThreads(s, s');
    forall token | token in s.queue && token.ForJob? ensures PreStart(s', token.job) { assert Steady(s, s', token.job); }
    BystandersShape(s, s');
  }

  lemma BystandersShape(s: State, s': State)
    requires CompletionsOk(s) && SessionsOk(s) && s.completions == s'.completions && s.sessions == s'.sessions
    requires s.spent <= s'.spent && forall d :: Steady(s, s', d) && SteadyCompletion(s, s', d)
    ensures CompletionsOk(s') && SessionsOk(s')
  {
    hide Tally;
    forall d | d in s.completions ensures CompletionOk(s', d) { assert CompletionOk(s, d) && Steady(s, s', d); }
    forall d | d in s.born ensures d in s'.born && s'.born[d] == s.born[d] { assert Steady(s, s', d); }
    forall sid | sid in s.sessions ensures SessionOk(s', sid) {
      assert SessionOk(s, sid);
      assert s.sessions[sid].pending.Some? ==> Steady(s, s', s.sessions[sid].pending.value);
    }
  }

  // ----- Pins -----

  lemma ReleaseCount(s: State, x: SnapshotId)
    requires forall y :: y in s.pins ==> s.pins[y] >= 1
    requires PinCount(s, x) >= 1
    ensures forall y :: PinCount(Release(s, x), y) == PinCount(s, y) - (if y == x then 1 else 0)
    ensures forall y :: y in Release(s, x).pins ==> Release(s, x).pins[y] >= 1
  {
    if s.pins[x] <= 1 {
    } else {
    }
  }

  lemma ReleaseOnlyPins(s: State, x: SnapshotId)
    ensures Release(s, x) == s.(pins := Release(s, x).pins)
  {
    if x !in s.pins {
    } else if s.pins[x] <= 1 {
    } else {
    }
  }

  // ----- A queued job is cancelled -----

  /** What cancelling a queued job does, all at once. */
  function CancelledQueued(s: State, j: JobId): State
    requires j in s.jobs
  {
    s.(jobs := s.jobs[j := Cancelling(s.jobs[j])], queued := s.queued - 1,
       pins := Release(s, s.jobs[j].birth.snapshot).pins, gates := s.gates - {j},
       version := if j in s.gates then s.version + 1 else s.version)
  }

  lemma CancelInOneUpdate(s: State, j: JobId)
    requires HasStatus(s, j, Queued) && j !in s.completions
    ensures Cancel(s, j, true) == CancelledQueued(s, j)
  {
    var x := s.jobs[j].birth.snapshot;
    var s1 := Transition(s, j, Queued, Cancelling(s.jobs[j]));
    assert s1.pins == s.pins;
    ReleaseOnlyPins(s1, x);
    assert Release(s1, x).pins == Release(s, x).pins by {
      if x !in s.pins {
      } else if s.pins[x] <= 1 {
      } else {
      }
    }
    var s2 := Release(s1, x);
    if j in s2.gates {
    } else {
      assert s.gates - {j} == s.gates;
    }
  }

  lemma CancelLedger(s: State, j: JobId)
    requires Ledger(s) && HasStatus(s, j, Queued) && s.sessions.Keys <= s.spent
    ensures Ledger(CancelledQueued(s, j))
    ensures forall m: Meter :: Tally(CancelledQueued(s, j), m) == Tally(s, m) - (if JobCounts(m, s.jobs[j]) then 1 else 0)
  {
    hide Tally, Release;
    var s' := CancelledQueued(s, j);
    forall m: Meter
      ensures Tally(s', m) == Tally(s, m) - (if JobCounts(m, s.jobs[j]) then 1 else 0)
    {
      CancelTally(s, j, m);
    }
    QueuedPinned(s, j);
    ReleaseCount(s, s.jobs[j].birth.snapshot);
  }

  lemma CancelTally(s: State, j: JobId, m: Meter)
    requires HasStatus(s, j, Queued)
    ensures Tally(CancelledQueued(s, j), m) == Tally(s, m) - (if JobCounts(m, s.jobs[j]) then 1 else 0)
  {
    hide Tally, Release, TokenCount, ThreadWeight, CompletionWeight, SessionWeight;
    TallyChange(s, CancelledQueued(s, j), j, Recovery, 0, 0, m);
  }

  lemma CancelJob(s: State, j: JobId)
    requires Inv(s) && HasStatus(s, j, Queued) && AdmissionWeight(DriverOf(j), s.admission) == 0
    ensures Cancel(s, j, true) == CancelledQueued(s, j)
    ensures Inv(CancelledQueued(s, j))
    ensures forall m: Meter :: Tally(CancelledQueued(s, j), m) == Tally(s, m) - (if JobCounts(m, s.jobs[j]) then 1 else 0)
  {
    hide Tally, Release;
    assert j !in s.completions by {
      assert j in s.completions ==> CompletionOk(s, j);
    }
    CancelInOneUpdate(s, j);
    CancelLedger(s, j);
    CancelShape(s, CancelledQueued(s, j), j);
  }

  lemma QueuedPinned(s: State, j: JobId)
    requires PinsConserved(s) && HasStatus(s, j, Queued)
    ensures PinCount(s, s.jobs[j].birth.snapshot) >= 1
  {
    CountWitness(s.jobs, j, JobTest(PinOf(s.jobs[j].birth.snapshot)));
  }

  lemma CancelShape(s: State, s': State, j: JobId)
    requires Shape(s) && HasStatus(s, j, Queued) && AdmissionWeight(DriverOf(j), s.admission) == 0
    requires s' == s.(jobs := s.jobs[j := Cancelling(s.jobs[j])], pins := s'.pins, gates := s.gates - {j},
                      version := s'.version, queued := s'.queued)
    requires forall m: Meter :: Tally(s', m) <= Tally(s, m)
    ensures Shape(s')
  {
    hide Tally;
    assert forall d :: Steady(s, s', d) && SteadyCompletion(s, s', d);
    WriteShape(s, s');
  }

  // ----- A gate closes, a token moves -----

  lemma CloseGateKeeps(s: State, j: JobId)
    requires Inv(s) && Undriven(s, j)
    ensures Inv(CloseGate(s, j))
    ensures forall m: Meter :: Tally(CloseGate(s, j), m) == Tally(s, m)
  {
    hide Tally;
    var s' := CloseGate(s, j);
    UndrivenMeans(s, j);
    if j in s.completions || j !in s.gates {
    } else {
      GateTally(s, s');
      hide Ledger, CloseGate, Undriven;
      CloseGateShape(s, s', j);
      GateLedger(s, s');
    }
  }

  lemma GateTally(s: State, s': State)
    requires s' == s.(gates := s'.gates, version := s'.version)
    ensures forall m: Meter :: Tally(s', m) == Tally(s, m)
  {
  }

  lemma GateLedger(s: State, s': State)
    requires Ledger(s) && s' == s.(gates := s'.gates, version := s'.version) && forall m: Meter :: Tally(s', m) == Tally(s, m)
    ensures Ledger(s')
  {
    hide Tally;
  }

  lemma CloseGateShape(s: State, s': State, j: JobId)
    requires Shape(s) && s' == s.(gates := s.gates - {j}, version := s'.version) && j !in s.completions && Undriven(s, j)
    requires forall d :: Tally(s', DriverOf(d)) == Tally(s, DriverOf(d))
    ensures Shape(s')
  {
    hide Tally;
    UndrivenMeans(s, j);
    GateRest(s, s', j);
    forall d: JobId ensures Undriven(s', d) <==> Undriven(s, d) {}
    hide Undriven;
    forall t | t in s'.threads ensures PcOk(s', t, s'.threads[t]) { assert PcOk(s, t, s.threads[t]); }
    forall d | d in s'.completions ensures CompletionOk(s', d) { assert CompletionOk(s, d); }
    forall sid | sid in s'.sessions ensures SessionOk(s', sid) { assert SessionOk(s, sid); }
  }

  lemma GateRest(s: State, s': State, j: JobId)
    requires Shape(s) && s' == s.(gates := s.gates - {j}, version := s'.version) && Undriven(s, j)
    requires forall d :: Tally(s', DriverOf(d)) == Tally(s, DriverOf(d))
    ensures JobsOk(s') && QueueOk(s') && AdmissionOk(s')
  {
    hide Tally, ThreadsOk, CompletionsOk, SessionsOk;
  }

  /** One token enters or leaves the channel; its claim passes to or from t. */
  lemma TokenLedger(s: State, s': State, t: ThreadId)
    requires Inv(s) && s' == s.(threads := s'.threads, queue := s'.queue) && SameOff(s.threads, s'.threads, t)
    requires HeldBy(s, t) == HeldBy(s', t) == None
    requires forall d: JobId :: TokenCount(DriverOf(d), s'.queue) + (if DrivenBy(s', t) == Some(d) then 1 else 0) ==
                       TokenCount(DriverOf(d), s.queue) + (if DrivenBy(s, t) == Some(d) then 1 else 0)
    requires forall x: SessionId :: TokenCount(TokenOf(x), s'.queue) + (if t in s'.threads && s'.threads[t] == Taking(x) then 1 else 0) ==
                       TokenCount(TokenOf(x), s.queue) + (if t in s.threads && s.threads[t] == Taking(x) then 1 else 0)
    ensures Ledger(s')
    ensures forall d :: Tally(s', DriverOf(d)) == Tally(s, DriverOf(d))
  {
    hide Tally, TokenCount, HeldPin, Shape;
    TokenPins(s, s', t);
    forall d: JobId ensures Tally(s', DriverOf(d)) == Tally(s, DriverOf(d)) { TokenTally(s, s', t, DriverOf(d)); }
    forall x: SessionId ensures Tally(s', TokenOf(x)) == Tally(s, TokenOf(x)) { TokenTally(s, s', t, TokenOf(x)); }
  }

  lemma TokenTally(s: State, s': State, t: ThreadId, m: Meter)
    requires s' == s.(threads := s'.threads, queue := s'.queue) && SameOff(s.threads, s'.threads, t)
    requires TokenCount(m, s'.queue) + ThreadWeight(s'.threads, t, m) == TokenCount(m, s.queue) + ThreadWeight(s.threads, t, m)
    ensures Tally(s', m) == Tally(s, m)
  {
    hide Tally, TokenCount, AdmissionWeight, JobWeight, CompletionWeight, SessionWeight, ThreadWeight;
    TallyChange(s, s', 0, t, 0, 0, m);
  }

  lemma TokenPins(s: State, s': State, t: ThreadId)
    requires Ledger(s) && s' == s.(threads := s'.threads, queue := s'.queue) && SameOff(s.threads, s'.threads, t)
    requires HeldBy(s, t) == HeldBy(s', t) == None
    ensures PinsConserved(s') && QueueCounted(s')
  {
    hide Tally, TokenCount;
    forall x: SnapshotId ensures Tally(s', PinOf(x)) == Tally(s, PinOf(x)) {
      NoTokens(PinOf(x), s.queue);
      NoTokens(PinOf(x), s'.queue);
      TokenTally(s, s', t, PinOf(x));
    }
    NoTokens(QueuedJobs, s.queue);
    NoTokens(QueuedJobs, s'.queue);
    TokenTally(s, s', t, QueuedJobs);
  }

  lemma {:induction false} NoTokens(m: Meter, queue: seq<Token>)
    requires m.PinOf? || m.QueuedJobs?
    ensures TokenCount(m, queue) == 0
  {
    if queue != [] {
      NoTokens(m, queue[1..]);
    }
  }

  lemma TokenShape(s: State, s': State, t: ThreadId)
    requires Shape(s) && s' == s.(threads := s'.threads, queue := s'.queue) && SameOff(s.threads, s'.threads, t)
    requires forall d :: Tally(s', DriverOf(d)) == Tally(s, DriverOf(d))
    requires t in s'.threads ==> PcOk(s, t, s'.threads[t])
    requires forall token :: token in s'.queue && token.ForJob? ==> PreStart(s, token.job)
    ensures Shape(s')
  {
    hide Tally, PcOk, JobsOk, QueueOk, AdmissionOk;
    TokenRest(s, s', t);
    assert forall j :: Steady(s, s', j) && SteadyCompletion(s, s', j);
    hide Steady, SteadyCompletion;
    OtherThreads(s, s', t, 0);
    BystandersShape(s, s');
  }

  lemma TokenRest(s: State, s': State, t: ThreadId)
    requires Shape(s) && s' == s.(threads := s'.threads, queue := s'.queue)
    requires forall d :: Tally(s', DriverOf(d)) == Tally(s, DriverOf(d))
    requires t in s'.threads ==> PcOk(s, t, s'.threads[t])
    requires forall token :: token in s'.queue && token.ForJob? ==> PreStart(s, token.job)
    ensures JobsOk(s') && QueueOk(s') && AdmissionOk(s') && (t in s'.threads ==> PcOk(s', t, s'.threads[t]))
  {
    hide Tally, ThreadsOk, CompletionsOk, SessionsOk;
  }

  lemma {:induction false} TokenAbsent(d: JobId, queue: seq<Token>)
    requires TokenCount(DriverOf(d), queue) == 0
    ensures ForJob(d) !in queue
  {
    if queue != [] {
      TokenAbsent(d, queue[1..]);
    }
  }
}
