/** Every transition of admission, of sessions and of their slots keeps the invariant. */
module JobSessions {
  import opened Options
  import opened Counting
  import opened JobState
  import opened JobSteps
  import opened JobInvariant
  import opened JobMoves

  // ----- Pins taken and given back by callers -----

  lemma PinAdds(s: State, x: SnapshotId)
    requires forall y :: y in s.pins ==> s.pins[y] >= 1
    ensures forall y: SnapshotId :: PinCount(Pin(s, x), y) == PinCount(s, y) + (if y == x then 1 else 0)
    ensures forall y :: y in Pin(s, x).pins ==> Pin(s, x).pins[y] >= 1
  {
  }

  lemma KeepsPinSource(s: State, t: ThreadId, x: SnapshotId)
    requires Inv(s) && CanPinSource(s, t, x)
    ensures Inv(PinSource(s, t, x))
  {
    hide Tally;
    SpentSessions(s);
    PinAdds(s, x);
    ThreadLedger(s, PinSource(s, t, x), t);
    ThreadShape(s, PinSource(s, t, x), t);
  }

  lemma KeepsReject(s: State, t: ThreadId)
    requires Inv(s) && CanReject(s, t)
    ensures Inv(Reject(s, t))
  {
    hide Tally, Release;
    var x := s.threads[t].snapshot;
    HolderPinned(s, t);
    SpentSessions(s);
    var ended := EndThread(s, t);
    assert PinCount(ended, x) >= 1;
    ReleaseCount(ended, x);
    ReleaseOnlyPins(ended, x);
    ThreadLedger(s, Reject(s, t), t);
    ThreadShape(s, Reject(s, t), t);
  }

  // ----- New job records -----

  /** A fresh queued record; its claim and its pin pass from the caller. */
  ghost predicate Enters(s: State, s': State, j: JobId, birth: Birth, t: ThreadId) {
    && j !in s.born && s'.jobs == s.jobs[j := Job(birth, Queued, 0)] && s'.born == s.born[j := birth]
    && s'.queued == s.queued + 1 && s'.gates == s.gates + {j} && s'.pins == s.pins
    && s'.completions == s.completions && s'.sessions == s.sessions && s'.spent == s.spent
    && s'.native == s.native && SameOff(s.threads, s'.threads, t)
  }

  lemma EnterLedger(s: State, s': State, j: JobId, birth: Birth, t: ThreadId)
    requires Inv(s) && Enters(s, s', j, birth, t)
    requires forall x: SnapshotId ::
      (if HeldBy(s, t) == Some(x) then 1 else 0) + AdmissionWeight(PinOf(x), s.admission) ==
      (if HeldBy(s', t) == Some(x) then 1 else 0) + AdmissionWeight(PinOf(x), s'.admission) + (if birth.snapshot == x then 1 else 0)
    requires forall d: JobId ::
      (if DrivenBy(s', t) == Some(d) then 1 else 0) + TokenCount(DriverOf(d), s'.queue) + AdmissionWeight(DriverOf(d), s'.admission) ==
      (if DrivenBy(s, t) == Some(d) then 1 else 0) + TokenCount(DriverOf(d), s.queue) + AdmissionWeight(DriverOf(d), s.admission)
        + (if d == j then 1 else 0)
    requires !TakingBy(s, t) && !TakingBy(s', t)
    requires forall x: SessionId :: TokenCount(TokenOf(x), s'.queue) == TokenCount(TokenOf(x), s.queue)
    ensures Ledger(s')
    ensures forall d :: d in s.born ==> Tally(s', DriverOf(d)) <= Tally(s, DriverOf(d))
  {
    hide Tally;
    assert j !in s.jobs;
    hide Inv, Enters;
    EnterPins(s, s', j, birth, t);
    EnterDrivers(s, s', j, birth, t);
    EnterTokens(s, s', j, birth, t);
  }

  lemma EnterPins(s: State, s': State, j: JobId, birth: Birth, t: ThreadId)
    requires Ledger(s) && Enters(s, s', j, birth, t) && j !in s.jobs
    requires forall x: SnapshotId ::
      (if HeldBy(s, t) == Some(x) then 1 else 0) + AdmissionWeight(PinOf(x), s.admission) ==
      (if HeldBy(s', t) == Some(x) then 1 else 0) + AdmissionWeight(PinOf(x), s'.admission) + (if birth.snapshot == x then 1 else 0)
    ensures PinsConserved(s') && QueueCounted(s')
  {
    hide Tally, TokenCount, AdmissionWeight;
    forall x: SnapshotId ensures PinCount(s', x) == Tally(s', PinOf(x)) {
      NoTokens(PinOf(x), s.queue);
      NoTokens(PinOf(x), s'.queue);
      EnterTally(s, s', j, birth, t, PinOf(x));
    }
    EnterCounted(s, s', j, birth, t);
  }

  lemma EnterTally(s: State, s': State, j: JobId, birth: Birth, t: ThreadId, m: Meter)
    requires Enters(s, s', j, birth, t) && j !in s.jobs
    ensures Tally(s', m) + ThreadWeight(s.threads, t, m) + TokenCount(m, s.queue) + AdmissionWeight(m, s.admission) ==
            Tally(s, m) + ThreadWeight(s'.threads, t, m) + TokenCount(m, s'.queue) + AdmissionWeight(m, s'.admission)
              + (if JobCounts(m, Job(birth, Queued, 0)) then 1 else 0)
  {
    hide Tally, TokenCount, AdmissionWeight, CompletionWeight, SessionWeight, ThreadWeight;
    TallyChange(s, s', j, t, 0, 0, m);
  }

  lemma EnterCounted(s: State, s': State, j: JobId, birth: Birth, t: ThreadId)
    requires QueueCounted(s) && Enters(s, s', j, birth, t) && j !in s.jobs
    ensures QueueCounted(s')
  {
    hide Tally, TokenCount;
    NoTokens(QueuedJobs, s.queue);
    NoTokens(QueuedJobs, s'.queue);
    EnterTally(s, s', j, birth, t, QueuedJobs);
  }

  lemma EnterDrivers(s: State, s': State, j: JobId, birth: Birth, t: ThreadId)
    requires Ledger(s) && Enters(s, s', j, birth, t) && j !in s.jobs
    requires forall d: JobId ::
      (if DrivenBy(s', t) == Some(d) then 1 else 0) + TokenCount(DriverOf(d), s'.queue) + AdmissionWeight(DriverOf(d), s'.admission) ==
      (if DrivenBy(s, t) == Some(d) then 1 else 0) + TokenCount(DriverOf(d), s.queue) + AdmissionWeight(DriverOf(d), s.admission)
        + (if d == j then 1 else 0)
    ensures DriversUnique(s')
    ensures forall d :: d in s.born ==> Tally(s', DriverOf(d)) <= Tally(s, DriverOf(d))
  {
    hide Tally, TokenCount, AdmissionWeight;
    forall d: JobId ensures Tally(s', DriverOf(d)) == Tally(s, DriverOf(d)) + (if d == j then 1 else 0) {
      EnterTally(s, s', j, birth, t, DriverOf(d));
    }
  }

  lemma EnterTokens(s: State, s': State, j: JobId, birth: Birth, t: ThreadId)
    requires Ledger(s) && Enters(s, s', j, birth, t) && j !in s.jobs
    requires !TakingBy(s, t) && !TakingBy(s', t)
    requires forall x: SessionId :: TokenCount(TokenOf(x), s'.queue) == TokenCount(TokenOf(x), s.queue)
    ensures TokensUnique(s')
  {
    hide Tally, TokenCount;
    forall x: SessionId ensures Tally(s', TokenOf(x)) == Tally(s, TokenOf(x)) { EnterTally(s, s', j, birth, t, TokenOf(x)); }
  }

  lemma EnterShape(s: State, s': State, j: JobId, birth: Birth, t: ThreadId)
    requires Shape(s) && Enters(s, s', j, birth, t)
    requires forall d :: d in s.born ==> Tally(s', DriverOf(d)) <= Tally(s, DriverOf(d))
    requires birth.session.Some? ==> birth.session.value in s.spent
    requires t in s'.threads ==> PcOk(s', t, s'.threads[t])
    requires forall token :: token in s'.queue && token.ForJob? ==> token in s.queue || token.job == j
    requires AdmissionOk(s')
    ensures Shape(s')
  {
    hide Tally;
    EnterRest(s, s', j, birth, t);
    hide JobsOk, QueueOk, AdmissionOk;
    assert forall d :: Steady(s, s', d) && SteadyCompletion(s, s', d);
    hide Steady, SteadyCompletion, PcOk;
    OtherThreads(s, s', t, j);
    BystandersShape(s, s');
  }

  lemma EnterRest(s: State, s': State, j: JobId, birth: Birth, t: ThreadId)
    requires Shape(s) && Enters(s, s', j, birth, t)
    requires forall d :: d in s.born ==> Tally(s', DriverOf(d)) <= Tally(s, DriverOf(d))
    requires birth.session.Some? ==> birth.session.value in s.spent
    requires forall token :: token in s'.queue && token.ForJob? ==> token in s.queue || token.job == j
    ensures JobsOk(s') && QueueOk(s')
  {
    hide Tally, ThreadsOk, CompletionsOk, SessionsOk, AdmissionOk;
  }

  lemma KeepsAdmit(s: State, t: ThreadId, j: JobId, ok: bool)
    requires Inv(s) && CanAdmit(s, t, j, ok)
    ensures Inv(Admit(s, t, j, ok))
  {
    hide Tally, Inv;
    var x := s.threads[t].snapshot;
    if PendingCount(s) >= s.limit || !ok {
      CallerFact(s, t);
      Move(s, SetThread(s, t, Rejected(x)), t);
    } else if HasRoom(s) {
      AdmitPushes(s, t, j);
    } else {
      AdmitWithdraws(s, t, j);
    }
  }

  lemma CallerFact(s: State, t: ThreadId)
    requires Inv(s) && t in s.threads && s.threads[t].Pinned?
    ensures t.Caller?
  {
    hide Tally;
    assert PcOk(s, t, s.threads[t]);
  }

  lemma AdmitPushes(s: State, t: ThreadId, j: JobId)
    requires Inv(s) && t in s.threads && s.threads[t].Pinned? && j !in s.born && s.admission.Free?
    ensures Inv(EndThread(Push(Save(s, j, Birth(s.threads[t].snapshot, None, 0)), ForJob(j)), t))
  {
    hide Tally, TokenCount, Inv;
    var birth := Birth(s.threads[t].snapshot, None, 0);
    var s' := EndThread(Push(Save(s, j, birth), ForJob(j)), t);
    forall m: Meter
      ensures TokenCount(m, s'.queue) == TokenCount(m, s.queue) + TokenWeight(m, ForJob(j))
    { TokenCountAppend(m, s.queue, ForJob(j)); }
    EnterLedger(s, s', j, birth, t);
    ShapeOf(s);
    EnterShape(s, s', j, birth, t);
    InvOf(s');
  }

  lemma AdmitWithdraws(s: State, t: ThreadId, j: JobId)
    requires Inv(s) && t in s.threads && s.threads[t].Pinned? && j !in s.born && s.admission.Free?
    ensures Inv(SetThread(Save(s, j, Birth(s.threads[t].snapshot, None, 0)), t, Withdrawing(j)))
  {
    hide Tally, TokenCount, Inv;
    CallerFact(s, t);
    var birth := Birth(s.threads[t].snapshot, None, 0);
    var s' := SetThread(Save(s, j, birth), t, Withdrawing(j));
    EnterLedger(s, s', j, birth, t);
    ShapeOf(s);
    EnterShape(s, s', j, birth, t);
    InvOf(s');
  }

  lemma ShapeOf(s: State)
    requires Inv(s)
    ensures Shape(s) && Ledger(s)
  {
  }

  lemma InvOf(s: State)
    requires Shape(s) && Ledger(s)
    ensures Inv(s)
  {
  }

  lemma KeepsSaveRevision(s: State, j: JobId)
    requires Inv(s) && CanSaveRevision(s, j)
    ensures Inv(SaveRevision(s, j))
  {
    hide Tally, TokenCount, Inv, Shape;
    var sid, x := s.admission.session, s.admission.snapshot;
    var birth := Birth(x, Some(sid), s.sessions[sid].revision + 1);
    var s' := SaveRevision(s, j);
    ShapeOf(s);
    SpentSessions(s);
    var t := IdleThread(s);
    EnterLedger(s, s', j, birth, t);
    EnterShape(s, s', j, birth, t);
    InvOf(s');
  }

  lemma IdleThread(s: State) returns (t: ThreadId)
    ensures t !in s.threads && t.Worker?
  {
    var n := BoundWorkers(s.threads.Keys);
    t := ThreadId.Worker(n);
  }

  lemma {:induction false} BoundWorkers(ts: set<ThreadId>) returns (n: nat)
    ensures forall t :: t in ts && t.Worker? ==> t.n < n
  {
    if ts == {} {
      n := 0;
    } else {
      var t :| t in ts;
      var m := BoundWorkers(ts - {t});
      n := if t.Worker? && t.n >= m then t.n + 1 else m;
    }
  }

  // ----- Cancellation -----

  lemma KeepsWithdraw(s: State, t: ThreadId, ok: bool)
    requires Inv(s) && CanWithdraw(s, t, ok)
    ensures Inv(Withdraw(s, t, ok))
  {
    hide Tally, Inv;
    var j := s.threads[t].id;
    DriverAlone(s, t, j);
    var ended := EndThread(s, t);
    Move(s, ended, t);
    if ok && HasStatus(ended, j, Queued) {
      CancelJob(ended, j);
    } else {
    }
  }

  lemma KeepsUserCancel(s: State, j: JobId)
    requires Inv(s) && CanUserCancel(s, j)
    ensures Inv(UserCancel(s, j))
  {
    hide Tally;
    if s.jobs[j].status.Queued? {
      CancelJob(s, j);
    } else {
      WriteJob(s, j, Running, Cancelling(s.jobs[j]));
    }
  }

  lemma KeepsSweep(s: State, swept: set<JobId>)
    requires Inv(s) && CanSweep(s, swept)
    ensures Inv(Sweep(s, swept))
  {
    hide Tally;
    var s' := Sweep(s, swept);
    SweepTally(s, swept);
    LedgerSame(s, s');
    assert forall d :: Steady(s, s', d) && SteadyCompletion(s, s', d);
    hide Steady, SteadyCompletion, Ledger;
    WriteShape(s, s');
  }

  lemma SweepTally(s: State, swept: set<JobId>)
    requires CanSweep(s, swept)
    ensures forall m: Meter :: Tally(Sweep(s, swept), m) == Tally(s, m)
  {
    forall m: Meter ensures Tally(Sweep(s, swept), m) == Tally(s, m) {
      CountDrop(s.jobs, swept, JobTest(m));
    }
  }

  lemma LedgerSame(s: State, s': State)
    requires Ledger(s) && forall m: Meter :: Tally(s', m) == Tally(s, m)
    requires s.pins == s'.pins && s.queued == s'.queued && s.born == s'.born && s.spent == s'.spent
    requires forall x :: x in s'.sessions ==> x in s.sessions && s'.sessions[x].scheduled == s.sessions[x].scheduled
    ensures Ledger(s')
  {
    hide Tally;
  }

  // ----- Opening and expiry -----

  lemma KeepsOpen(s: State, sid: SessionId)
    requires Inv(s) && CanOpen(s, sid)
    ensures Inv(Open(s, sid))
  {
    hide Tally;
    var s' := Open(s, sid);
    SpentSessions(s);
    forall m: Meter ensures Tally(s', m) == Tally(s, m) { OpenTally(s, sid, m); }
    hide Ledger;
    OpenShape(s, sid);
    assert Ledger(s') by { OpenLedger(s, sid); }
  }

  lemma OpenTally(s: State, sid: SessionId, m: Meter)
    requires sid !in s.sessions
    ensures Tally(Open(s, sid), m) == Tally(s, m)
  {
    hide Tally, TokenCount, AdmissionWeight, JobWeight, CompletionWeight, ThreadWeight;
    TallyChange(s, Open(s, sid), 0, Recovery, 0, sid, m);
  }

  lemma OpenLedger(s: State, sid: SessionId)
    requires Ledger(s) && sid !in s.spent && s.sessions.Keys <= s.spent
    requires forall m: Meter :: Tally(Open(s, sid), m) == Tally(s, m)
    ensures Ledger(Open(s, sid))
  {
    hide Tally;
  }

  lemma OpenShape(s: State, sid: SessionId)
    requires Shape(s) && CanOpen(s, sid) && s.sessions.Keys <= s.spent
    requires forall m: Meter :: Tally(Open(s, sid), m) == Tally(s, m)
    ensures Shape(Open(s, sid))
  {
    hide Tally, ThreadsOk, CompletionsOk, QueueOk;
    SessionMoved(s, Open(s, sid), sid);
  }

  lemma KeepsExpire(s: State, sid: SessionId)
    requires Inv(s) && CanExpire(s, sid)
    ensures Inv(Expire(s, sid))
  {
    hide Tally, Part;
    var s' := Expire(s, sid);
    forall m: Meter ensures Tally(s', m) == Tally(s, m) {
      TallyChange(s, s', 0, Recovery, 0, sid, m);
      assert Part(s', 0, Recovery, 0, sid, m) == Part(s, 0, Recovery, 0, sid, m) by { ExpirePart(s, sid, m); }
    }
    LedgerSame(s, s');
    assert SessionOk(s, sid);
    SessionMoved(s, s', sid);
  }

  lemma ExpirePart(s: State, sid: SessionId, m: Meter)
    requires CanExpire(s, sid)
    ensures Part(Expire(s, sid), 0, Recovery, 0, sid, m) == Part(s, 0, Recovery, 0, sid, m)
  {
    hide TokenCount, AdmissionWeight, JobWeight, CompletionWeight, ThreadWeight;
  }

  /** One session changes under the admission lock; nothing else that the shape mentions does. */
  lemma SessionMoved(s: State, s': State, sid: SessionId)
    requires Shape(s) && s.jobs == s'.jobs && s.born == s'.born && s.threads == s'.threads
    requires s.completions == s'.completions && s.gates == s'.gates && s.native == s'.native
    requires SameOff(s.sessions, s'.sessions, sid) && s.spent <= s'.spent
    requires forall d :: d in s.born ==> Tally(s', DriverOf(d)) <= Tally(s, DriverOf(d))
    requires forall token :: token in s'.queue && token.ForJob? ==> token in s.queue
    requires forall d :: Settled(s, d) && Undriven(s, d) ==> Settled(s', d)
    requires sid in s'.sessions ==> SessionOk(s', sid)
    requires AdmissionOk(s')
    ensures Shape(s')
  {
    hide Tally;
    assert forall d :: Steady(s, s', d) && SteadyCompletion(s, s', d);
    AllThreads(s, s');
    forall d | d in s'.completions ensures CompletionOk(s', d) { assert CompletionOk(s, d) && Steady(s, s', d); }
    OtherSessions(s, s', sid);
  }
}
