/** Revision admission, session scheduling, slots and closing keep the invariant. */
module JobSlots {
  import opened Options
  import opened Counting
  import opened JobState
  import opened JobSteps
  import opened JobInvariant
  import opened JobMoves
  import opened JobSessions

  // ----- SubmitRevision advances while it holds the admission lock -----

  lemma AdmissionStep(s: State, s': State)
    requires Inv(s) && s' == s.(admission := s'.admission, pins := s'.pins)
    requires forall x: SnapshotId ::
      PinCount(s', x) + AdmissionWeight(PinOf(x), s.admission) == PinCount(s, x) + AdmissionWeight(PinOf(x), s'.admission)
    requires forall x :: x in s'.pins ==> s'.pins[x] >= 1
    requires forall d: JobId :: AdmissionWeight(DriverOf(d), s'.admission) <= AdmissionWeight(DriverOf(d), s.admission)
    requires AdmissionOk(s')
    ensures Inv(s')
    ensures forall d :: Tally(s', DriverOf(d)) <= Tally(s, DriverOf(d))
  {
    hide Tally;
    AdmissionLedger(s, s');
    AdmissionShape(s, s');
  }

  lemma AdmissionLedger(s: State, s': State)
    requires Ledger(s) && Shape(s) && s' == s.(admission := s'.admission, pins := s'.pins)
    requires forall x: SnapshotId ::
      PinCount(s', x) + AdmissionWeight(PinOf(x), s.admission) == PinCount(s, x) + AdmissionWeight(PinOf(x), s'.admission)
    requires forall x :: x in s'.pins ==> s'.pins[x] >= 1
    requires forall d: JobId :: AdmissionWeight(DriverOf(d), s'.admission) <= AdmissionWeight(DriverOf(d), s.admission)
    ensures Ledger(s')
    ensures forall d :: Tally(s', DriverOf(d)) <= Tally(s, DriverOf(d))
  {
    hide Tally, AdmissionWeight, Shape;
    forall m: Meter
      ensures Tally(s', m) + AdmissionWeight(m, s.admission) == Tally(s, m) + AdmissionWeight(m, s'.admission)
    {
      AdmissionTally(s, s', m);
    }
    assert forall x: SnapshotId :: PinCount(s, x) == Tally(s, PinOf(x));
    assert forall x: SnapshotId :: PinCount(s', x) == Tally(s', PinOf(x));
    hide PinCount;
    AdmissionCounts(s, s');
  }

  lemma AdmissionTally(s: State, s': State, m: Meter)
    requires s' == s.(admission := s'.admission, pins := s'.pins)
    ensures Tally(s', m) + AdmissionWeight(m, s.admission) == Tally(s, m) + AdmissionWeight(m, s'.admission)
  {
    hide AdmissionWeight, TokenCount;
  }

  lemma AdmissionCounts(s: State, s': State)
    requires Ledger(s) && s' == s.(admission := s'.admission, pins := s'.pins)
    requires forall m: Meter :: Tally(s', m) + AdmissionWeight(m, s.admission) == Tally(s, m) + AdmissionWeight(m, s'.admission)
    requires forall d: JobId :: Tally(s', DriverOf(d)) <= Tally(s, DriverOf(d))
    requires forall x: SnapshotId :: PinCount(s', x) == Tally(s', PinOf(x))
    requires forall x :: x in s'.pins ==> s'.pins[x] >= 1
    ensures Ledger(s')
  {
    hide Tally;
  }

  lemma AdmissionShape(s: State, s': State)
    requires Shape(s) && s' == s.(admission := s'.admission, pins := s'.pins)
    requires forall d :: Tally(s', DriverOf(d)) <= Tally(s, DriverOf(d))
    requires AdmissionOk(s')
    ensures Shape(s')
  {
    hide Tally;
    assert forall d :: Steady(s, s', d) && SteadyCompletion(s, s', d);
    hide Steady, SteadyCompletion;
    AllThreads(s, s');
    BystandersShape(s, s');
  }

  lemma AdmissionPinned(s: State)
    requires PinsConserved(s) && s.admission.Prepared?
    ensures PinCount(s, s.admission.snapshot) >= 1
  {
    assert AdmissionWeight(PinOf(s.admission.snapshot), s.admission) == 1;
    assert PinCount(s, s.admission.snapshot) == Tally(s, PinOf(s.admission.snapshot));
  }

  lemma KeepsPrepare(s: State, sid: SessionId, x: SnapshotId)
    requires Inv(s) && CanPrepare(s, sid, x)
    ensures Inv(Prepare(s, sid, x))
  {
    hide Tally;
    PinAdds(s, x);
    AdmissionStep(s, Prepare(s, sid, x));
  }

  lemma KeepsRefuse(s: State)
    requires Inv(s) && CanRefuse(s)
    ensures Inv(Refuse(s))
  {
    hide Tally, Release;
    AdmissionPinned(s);
    var x := s.admission.snapshot;
    var freed := s.(admission := Free);
    assert PinCount(freed, x) >= 1;
    ReleaseCount(freed, x);
    ReleaseOnlyPins(freed, x);
    AdmissionStep(s, Refuse(s));
  }

  /** A pending job is claimed by its session alone. */
  lemma PendingClaim(s: State, sid: SessionId, p: JobId)
    requires Inv(s) && sid in s.sessions && s.sessions[sid].pending == Some(p)
    ensures p in s.born && Tally(s, DriverOf(p)) == 1
    ensures AdmissionWeight(DriverOf(p), s.admission) == 0 && TokenCount(DriverOf(p), s.queue) == 0
    ensures forall t :: t in s.threads ==> Driven(s.threads[t]) != Some(p)
    ensures p !in s.completions
  {
    var m := DriverOf(p);
    CountWitness(s.sessions, sid, SessionTest(m));
    assert SessionOk(s, sid);
    forall t | t in s.threads ensures Driven(s.threads[t]) != Some(p) {
      if Driven(s.threads[t]) == Some(p) { CountWitness(s.threads, t, ThreadTest(m)); }
    }
    assert p in s.completions ==> CompletionOk(s, p);
  }

  lemma KeepsSupersede(s: State, ok: bool)
    requires Inv(s) && CanSupersede(s, ok)
    ensures Inv(Supersede(s, ok))
  {
    hide Tally, Inv, Cancel, AdmissionOk;
    var a := s.admission;
    var pending := s.sessions[a.session].pending;
    SubmittedFact(s);
    if pending.None? {
      ReplaceStep(s);
    } else if !CancelSucceeds(s, pending.value, ok) {
      AbortStep(s);
    } else {
      SupersedeCancels(s);
    }
  }

  lemma SubmittedFact(s: State)
    requires Inv(s) && (s.admission.Saved? || s.admission.Replaced?)
    ensures SubmittedOk(s, s.admission.session, s.admission.snapshot, s.admission.id)
  {
    hide Tally;
  }

  lemma ReplaceStep(s: State)
    requires Inv(s) && s.admission.Saved?
    ensures Inv(s.(admission := Replaced(s.admission.session, s.admission.snapshot, s.admission.id)))
  {
    hide Tally;
    AdmissionStep(s, s.(admission := Replaced(s.admission.session, s.admission.snapshot, s.admission.id)));
  }

  lemma AbortStep(s: State)
    requires Inv(s) && (s.admission.Saved? || s.admission.Replaced?)
    ensures Inv(s.(admission := Aborting(s.admission.id)))
  {
    hide Tally;
    SubmittedFact(s);
    AdmissionStep(s, s.(admission := Aborting(s.admission.id)));
  }

  lemma SupersedeCancels(s: State)
    requires Inv(s) && s.admission.Saved? && s.admission.session in s.sessions
    requires var pending := s.sessions[s.admission.session].pending; pending.Some? && CancelSucceeds(s, pending.value, true)
    ensures var p := s.sessions[s.admission.session].pending.value;
      Inv(Cancel(s, p, true).(admission := Replaced(s.admission.session, s.admission.snapshot, s.admission.id)))
  {
    hide Tally, Inv;
    var p := s.sessions[s.admission.session].pending.value;
    PendingClaim(s, s.admission.session, p);
    if HasStatus(s, p, Queued) {
      CancelJob(s, p);
      ReplaceStep(CancelledQueued(s, p));
    } else {
      ReplaceStep(s);
    }
  }

  lemma KeepsFailPin(s: State)
    requires Inv(s) && CanFailPin(s)
    ensures Inv(FailPin(s))
  {
    AbortStep(s);
  }

  lemma KeepsAbort(s: State, ok: bool)
    requires Inv(s) && CanAbort(s, ok)
    ensures Inv(Abort(s, ok))
  {
    hide Tally;
    var freed := s.(admission := Free);
    var j := s.admission.id;
    AdmissionStep(s, freed);
    if ok && HasStatus(freed, j, Queued) {
      CancelJob(freed, j);
    } else {
    }
  }

  // ----- The session adopts the new revision -----

  lemma SnapshotPinned(s: State, sid: SessionId)
    requires PinsConserved(s) && sid in s.sessions && s.sessions[sid].snapshot.Some?
    ensures PinCount(s, s.sessions[sid].snapshot.value) >= 1
  {
    CountWitness(s.sessions, sid, SessionTest(PinOf(s.sessions[sid].snapshot.value)));
  }

  /** Releasing a session's own pin from a table in which it is still counted. */
  lemma ReleaseAnyCount(s: State, x: Option<SnapshotId>)
    requires forall y :: y in s.pins ==> s.pins[y] >= 1
    requires x.Some? ==> PinCount(s, x.value) >= 1
    ensures ReleaseAny(s, x) == s.(pins := ReleaseAny(s, x).pins)
    ensures forall y: SnapshotId :: PinCount(ReleaseAny(s, x), y) + (if x == Some(y) then 1 else 0) == PinCount(s, y)
    ensures forall y :: y in ReleaseAny(s, x).pins ==> ReleaseAny(s, x).pins[y] >= 1
  {
    hide Release;
    if x.Some? {
      ReleaseCount(s, x.value);
      ReleaseOnlyPins(s, x.value);
    } else {
    }
  }

  lemma KeepsAdvance(s: State)
    requires Inv(s) && CanAccept(s)
    ensures Inv(Advance(s))
  {
    hide Tally, Inv;
    AdvancePinTable(s);
    SubmittedFact(s);
    AdvanceKeeps(s, Advance(s));
  }

  lemma AdvancePinTable(s: State)
    requires Inv(s) && CanAccept(s)
    ensures Advances(s, Advance(s))
    ensures forall y: SnapshotId ::
      PinCount(Advance(s), y) + (if s.sessions[s.admission.session].snapshot == Some(y) then 1 else 0) ==
      PinCount(s, y) + (if y == s.admission.snapshot then 1 else 0)
    ensures forall y :: y in Advance(s).pins ==> Advance(s).pins[y] >= 1
  {
    hide Tally, ReleaseAny, Shape;
    var session := s.sessions[s.admission.session];
    PinAdds(s, s.admission.snapshot);
    if session.snapshot.Some? {
      SnapshotPinned(s, s.admission.session);
    }
    hide Inv, Pin;
    ReleaseAnyCount(Pin(s, s.admission.snapshot), session.snapshot);
  }

  predicate Advances(s: State, s': State)
    requires CanAccept(s)
  {
    var session := s.sessions[s.admission.session];
    s' == s.(admission := Free, pins := s'.pins, sessions := s.sessions[s.admission.session :=
      session.(revision := session.revision + 1, pending := Some(s.admission.id), snapshot := Some(s.admission.snapshot))])
  }

  lemma AdvanceKeeps(s: State, s': State)
    requires Inv(s) && CanAccept(s) && Advances(s, s')
    requires forall y: SnapshotId ::
      PinCount(s', y) + (if s.sessions[s.admission.session].snapshot == Some(y) then 1 else 0) ==
      PinCount(s, y) + (if y == s.admission.snapshot then 1 else 0)
    requires forall y :: y in s'.pins ==> s'.pins[y] >= 1
    ensures Inv(s')
  {
    hide Tally;
    SubmittedFact(s);
    SpentSessions(s);
    AdvancePins(s, s');
    AdvanceDrivers(s, s');
    AdvanceTokens(s, s');
    assert SessionOk(s, s.admission.session);
    SessionMoved(s, s', s.admission.session);
  }

  lemma AdvancePins(s: State, s': State)
    requires Ledger(s) && CanAccept(s) && Advances(s, s')
    requires forall y: SnapshotId ::
      PinCount(s', y) + (if s.sessions[s.admission.session].snapshot == Some(y) then 1 else 0) ==
      PinCount(s, y) + (if y == s.admission.snapshot then 1 else 0)
    requires forall y :: y in s'.pins ==> s'.pins[y] >= 1
    ensures PinsConserved(s') && QueueCounted(s')
  {
    hide Tally, TokenCount, JobWeight, ThreadWeight, CompletionWeight;
    PinsKept(s, s', 0, Recovery, 0, s.admission.session);
    QueueKept(s, s', 0, Recovery, 0, s.admission.session);
  }

  lemma AdvanceDrivers(s: State, s': State)
    requires Ledger(s) && CanAccept(s) && Advances(s, s')
    ensures DriversUnique(s')
    ensures forall d :: d in s.born ==> Tally(s', DriverOf(d)) <= Tally(s, DriverOf(d))
  {
    hide Tally, TokenCount, JobWeight, ThreadWeight, CompletionWeight;
    DriversKept(s, s', 0, Recovery, 0, s.admission.session);
  }

  lemma AdvanceTokens(s: State, s': State)
    requires Ledger(s) && CanAccept(s) && Advances(s, s') && s.sessions.Keys <= s.spent
    ensures TokensUnique(s')
  {
    hide Tally, TokenCount, JobWeight, ThreadWeight, CompletionWeight;
    TokensKept(s, s', 0, Recovery, 0, s.admission.session);
  }

  // ----- Wake-up tokens -----

  lemma KeepsSchedule(s: State, sid: SessionId)
    requires Inv(s)
    ensures Inv(Schedule(s, sid))
  {
    hide Tally, TokenCount;
    if Schedulable(s, sid) {
      var s' := Schedule(s, sid);
      SpentSessions(s);
      ScheduleLedger(s, sid);
      assert SessionOk(s, sid);
      SessionMoved(s, s', sid);
    } else {
    }
  }

  lemma ScheduleLedger(s: State, sid: SessionId)
    requires Ledger(s) && Schedulable(s, sid) && sid in s.spent
    ensures Ledger(Schedule(s, sid))
    ensures forall d :: d in s.born ==> Tally(Schedule(s, sid), DriverOf(d)) <= Tally(s, DriverOf(d))
  {
    hide Tally;
    ScheduleTally(s, sid);
    WokenLedger(s, Schedule(s, sid), sid);
  }

  lemma WokenLedger(s: State, s': State, sid: SessionId)
    requires Ledger(s) && sid in s.sessions && !s.sessions[sid].scheduled && sid in s.spent
    requires s'.sessions == s.sessions[sid := s.sessions[sid].(scheduled := true)]
    requires s'.pins == s.pins && s'.queued == s.queued && s'.born == s.born && s'.spent == s.spent
    requires forall m: Meter :: Tally(s', m) == Tally(s, m) + TokenWeight(m, ForSession(sid))
    ensures Ledger(s')
  {
    hide Tally;
  }

  /** The flag changes no count; the new token counts for its session only. */
  lemma ScheduleTally(s: State, sid: SessionId)
    requires Schedulable(s, sid)
    ensures forall m: Meter :: Tally(Schedule(s, sid), m) == Tally(s, m) + TokenWeight(m, ForSession(sid))
  {
    hide Tally, TokenCount, JobWeight, ThreadWeight, CompletionWeight, AdmissionWeight;
    var s' := Schedule(s, sid);
    forall m: Meter
      ensures Tally(s', m) == Tally(s, m) + TokenWeight(m, ForSession(sid))
    {
      TokenCountAppend(m, s.queue, ForSession(sid));
      TallyChange(s, s', 0, Recovery, 0, sid, m);
    }
  }

  lemma KeepsAccept(s: State)
    requires Inv(s) && CanAccept(s)
    ensures Inv(Accept(s))
  {
    KeepsAdvance(s);
    KeepsSchedule(Advance(s), s.admission.session);
  }

  // ----- Taking and freeing the slot -----

  lemma KeepsTake(s: State, t: ThreadId)
    requires Inv(s) && CanTake(s, t)
    ensures Inv(Take(s, t))
  {
    hide Tally, Inv;
    var sid := s.threads[t].session;
    if sid !in s.sessions {
      TakeGone(s, t);
    } else if s.sessions[sid].running.Some? || s.sessions[sid].pending.None? {
      TakeNothing(s, t);
    } else {
      TakeJob(s, t);
    }
  }

  lemma TakeGone(s: State, t: ThreadId)
    requires Inv(s) && t in s.threads && s.threads[t].Taking? && s.threads[t].session !in s.sessions
    ensures Inv(EndThread(s, t))
  {
    SpentSessions(s);
    assert PcOk(s, t, s.threads[t]);
    var s' := EndThread(s, t);
    TakenLedger(s, s', t, s.threads[t].session);
    ThreadShape(s, s', t);
  }

  /** The wake-up token is consumed: the session's flag and the thread's claim fall together. */
  lemma TakenLedger(s: State, s': State, t: ThreadId, sid: SessionId)
    requires Ledger(s) && s.sessions.Keys <= s.spent && sid in s.spent
    requires s' == s.(threads := s'.threads, sessions := s'.sessions)
    requires SameOff(s.threads, s'.threads, t) && SameOff(s.sessions, s'.sessions, sid)
    requires t in s.threads && s.threads[t] == Taking(sid) && HeldBy(s', t) == None && !TakingBy(s', t)
    requires (sid in s.sessions <==> sid in s'.sessions)
    requires sid in s.sessions ==> s.sessions[sid].snapshot == s'.sessions[sid].snapshot && !s'.sessions[sid].scheduled
    requires (sid in s.sessions && s.sessions[sid].pending.Some? && s'.sessions[sid].pending.None? &&
                DrivenBy(s', t) == s.sessions[sid].pending) ||
             (DrivenBy(s', t) == None && (sid in s.sessions ==> s.sessions[sid].pending == s'.sessions[sid].pending))
    ensures Ledger(s')
    ensures forall d :: d in s.born ==> Tally(s', DriverOf(d)) <= Tally(s, DriverOf(d))
  {
    hide Tally, TokenCount, JobWeight, CompletionWeight, AdmissionWeight;
    TakenPins(s, s', t, sid);
    TakenDrivers(s, s', t, sid);
    TakenTokens(s, s', t, sid);
  }

  lemma TakenPins(s: State, s': State, t: ThreadId, sid: SessionId)
    requires Ledger(s) && s' == s.(threads := s'.threads, sessions := s'.sessions)
    requires SameOff(s.threads, s'.threads, t) && SameOff(s.sessions, s'.sessions, sid)
    requires HeldBy(s, t) == HeldBy(s', t) == None && (sid in s.sessions <==> sid in s'.sessions)
    requires sid in s.sessions ==> s.sessions[sid].snapshot == s'.sessions[sid].snapshot
    ensures PinsConserved(s') && QueueCounted(s')
  {
    hide Tally, TokenCount, JobWeight, CompletionWeight, AdmissionWeight;
    PinsKept(s, s', 0, t, 0, sid);
    QueueKept(s, s', 0, t, 0, sid);
  }

  lemma TakenDrivers(s: State, s': State, t: ThreadId, sid: SessionId)
    requires Ledger(s) && s' == s.(threads := s'.threads, sessions := s'.sessions)
    requires SameOff(s.threads, s'.threads, t) && SameOff(s.sessions, s'.sessions, sid)
    requires DrivenBy(s, t) == None && (sid in s.sessions <==> sid in s'.sessions)
    requires (sid in s.sessions && s.sessions[sid].pending.Some? && s'.sessions[sid].pending.None? &&
                DrivenBy(s', t) == s.sessions[sid].pending) ||
             (DrivenBy(s', t) == None && (sid in s.sessions ==> s.sessions[sid].pending == s'.sessions[sid].pending))
    ensures DriversUnique(s')
    ensures forall d :: d in s.born ==> Tally(s', DriverOf(d)) <= Tally(s, DriverOf(d))
  {
    hide Tally, TokenCount, JobWeight, CompletionWeight, AdmissionWeight;
    DriversKept(s, s', 0, t, 0, sid);
  }

  lemma TakenTokens(s: State, s': State, t: ThreadId, sid: SessionId)
    requires Ledger(s) && s.sessions.Keys <= s.spent && sid in s.spent
    requires s' == s.(threads := s'.threads, sessions := s'.sessions)
    requires SameOff(s.threads, s'.threads, t) && SameOff(s.sessions, s'.sessions, sid)
    requires t in s.threads && s.threads[t] == Taking(sid) && !TakingBy(s', t)
    requires (sid in s.sessions <==> sid in s'.sessions) && (sid in s'.sessions ==> !s'.sessions[sid].scheduled)
    ensures TokensUnique(s')
  {
    hide Tally, TokenCount, JobWeight, CompletionWeight, AdmissionWeight;
    if sid in s.sessions {
      TakingScheduled(s, t, sid);
    }
    TokensKept(s, s', 0, t, 0, sid);
  }

  lemma TakingScheduled(s: State, t: ThreadId, sid: SessionId)
    requires TokensUnique(s) && t in s.threads && s.threads[t] == Taking(sid) && sid in s.sessions
    ensures s.sessions[sid].scheduled
  {
    CountWitness(s.threads, t, ThreadTest(TokenOf(sid)));
  }

  lemma TakeNothing(s: State, t: ThreadId)
    requires Inv(s) && t in s.threads && s.threads[t].Taking? && s.threads[t].session in s.sessions
    ensures var sid := s.threads[t].session;
      Inv(EndThread(s.(sessions := s.sessions[sid := s.sessions[sid].(scheduled := false)]), t))
  {
    hide Tally;
    var sid := s.threads[t].session;
    var s' := EndThread(s.(sessions := s.sessions[sid := s.sessions[sid].(scheduled := false)]), t);
    SpentSessions(s);
    TakenLedger(s, s', t, sid);
    TakenShape(s, s', t, sid);
  }

  lemma TakeJob(s: State, t: ThreadId)
    requires Inv(s) && t in s.threads && s.threads[t].Taking? && s.threads[t].session in s.sessions
    requires s.sessions[s.threads[t].session].pending.Some? && s.sessions[s.threads[t].session].running.None?
    ensures var sid := s.threads[t].session; var session := s.sessions[sid];
      Inv(SetThread(s.(sessions := s.sessions[sid :=
        session.(scheduled := false, pending := None, running := session.pending)]), t, Loading(session.pending.value)))
  {
    hide Tally;
    var sid := s.threads[t].session;
    var session := s.sessions[sid];
    var s' := SetThread(s.(sessions := s.sessions[sid :=
      session.(scheduled := false, pending := None, running := session.pending)]), t, Loading(session.pending.value));
    SpentSessions(s);
    TakenLedger(s, s', t, sid);
    PendingClaim(s, sid, session.pending.value);
    assert t.Worker? by { assert PcOk(s, t, s.threads[t]); }
    assert SessionOk(s, sid);
    TakenShape(s, s', t, sid);
  }

  lemma TakenShape(s: State, s': State, t: ThreadId, sid: SessionId)
    requires Shape(s) && s' == s.(threads := s'.threads, sessions := s'.sessions)
    requires SameOff(s.threads, s'.threads, t) && SameOff(s.sessions, s'.sessions, sid)
    requires sid in s.sessions && sid in s'.sessions
    requires forall d :: d in s.born ==> Tally(s', DriverOf(d)) <= Tally(s, DriverOf(d))
    requires s.sessions[sid].expired == s'.sessions[sid].expired && s.sessions[sid].revision == s'.sessions[sid].revision
    requires s'.sessions[sid].running == s.sessions[sid].running ||
             (s'.sessions[sid].running == s.sessions[sid].pending && s.sessions[sid].pending.Some? &&
              !Undriven(s, s.sessions[sid].pending.value))
    requires t in s'.threads ==> PcOk(s', t, s'.threads[t])
    requires s.sessions[sid] == s'.sessions[sid].(scheduled := s.sessions[sid].scheduled) || SessionOk(s', sid)
    ensures Shape(s')
  {
    hide Tally, JobsOk, QueueOk, AdmissionOk, ThreadsOk, CompletionsOk, SessionsOk, PcOk, SessionOk, Undriven;
    TakenSteady(s, s', t, sid);
    TakenRest(s, s', t, sid);
    TakenParties(s, s', t, sid);
  }

  lemma TakenSteady(s: State, s': State, t: ThreadId, sid: SessionId)
    requires s' == s.(threads := s'.threads, sessions := s'.sessions) && SameOff(s.sessions, s'.sessions, sid)
    requires sid in s.sessions && sid in s'.sessions && s.sessions[sid].expired == s'.sessions[sid].expired
    requires forall d :: d in s.born ==> Tally(s', DriverOf(d)) <= Tally(s, DriverOf(d))
    requires s'.sessions[sid].running == s.sessions[sid].running ||
             (s'.sessions[sid].running == s.sessions[sid].pending && s.sessions[sid].pending.Some? &&
              !Undriven(s, s.sessions[sid].pending.value))
    ensures forall d :: Steady(s, s', d) && SteadyCompletion(s, s', d)
  {
    hide Tally;
  }

  lemma TakenRest(s: State, s': State, t: ThreadId, sid: SessionId)
    requires Shape(s) && s' == s.(threads := s'.threads, sessions := s'.sessions) && SameOff(s.sessions, s'.sessions, sid)
    requires sid in s.sessions && sid in s'.sessions && s.sessions[sid].revision == s'.sessions[sid].revision
    requires forall d :: d in s.born ==> Tally(s', DriverOf(d)) <= Tally(s, DriverOf(d))
    requires s.sessions[sid] == s'.sessions[sid].(scheduled := s.sessions[sid].scheduled) || SessionOk(s', sid)
    ensures JobsOk(s') && QueueOk(s') && AdmissionOk(s') && SessionOk(s', sid)
  {
    hide Tally, ThreadsOk, CompletionsOk;
    assert SessionOk(s, sid);
  }

  lemma TakenParties(s: State, s': State, t: ThreadId, sid: SessionId)
    requires Shape(s) && s' == s.(threads := s'.threads, sessions := s'.sessions)
    requires SameOff(s.threads, s'.threads, t) && SameOff(s.sessions, s'.sessions, sid)
    requires forall d :: Steady(s, s', d) && SteadyCompletion(s, s', d)
    requires SessionOk(s', sid) && (t in s'.threads ==> PcOk(s', t, s'.threads[t]))
    ensures ThreadsOk(s') && CompletionsOk(s') && SessionsOk(s')
  {
    hide Tally, Steady, SteadyCompletion, JobsOk, QueueOk, AdmissionOk, PcOk, SessionOk, CompletionOk;
    OtherThreads(s, s', t, 0);
    forall d | d in s'.completions ensures CompletionOk(s', d) { CompletionSteady(s, s', d); }
    OtherSessions(s, s', sid);
  }

  lemma CompletionSteady(s: State, s': State, d: JobId)
    requires d in s.completions && CompletionOk(s, d) && Steady(s, s', d) && SteadyCompletion(s, s', d)
    ensures CompletionOk(s', d)
  {
    hide Tally;
  }

  lemma KeepsFreeSlot(s: State, t: ThreadId)
    requires Inv(s) && CanFreeSlot(s, t)
    ensures Inv(FreeSlot(s, t))
  {
    hide Tally, Inv;
    var j, status := s.threads[t].id, s.threads[t].known.value;
    var moved := SetThread(s, t, Gating(j));
    ClosingFact(s, t);
    Move(s, moved, t);
    var birth := s.born[j];
    if birth.session.None? || birth.session.value !in s.sessions ||
       s.sessions[birth.session.value].running != Some(j) {
    } else {
      var sid := birth.session.value;
      FreedKeeps(moved, sid, j, status);
      KeepsSchedule(moved.(sessions := s.sessions[sid := Freed(s.sessions[sid], j, status, birth.revision)]), sid);
    }
  }

  lemma ClosingFact(s: State, t: ThreadId)
    requires Inv(s) && t in s.threads && s.threads[t].Closing?
    ensures s.threads[t].id in s.born && Undriven(s, s.threads[t].id)
  {
    hide Tally;
    assert PcOk(s, t, s.threads[t]);
  }

  lemma FreedKeeps(s: State, sid: SessionId, j: JobId, status: Status)
    requires Inv(s) && sid in s.sessions && j in s.born && s.born[j].session == Some(sid)
    requires s.sessions[sid].running == Some(j)
    ensures Inv(s.(sessions := s.sessions[sid := Freed(s.sessions[sid], j, status, s.born[j].revision)]))
  {
    hide Tally;
    var session' := Freed(s.sessions[sid], j, status, s.born[j].revision);
    var s' := s.(sessions := s.sessions[sid := session']);
    assert SessionOk(s, sid);
    if status.Succeeded? {
      FreedLedger(s, sid, session');
      SessionMoved(s, s', sid);
    } else {
      FreedLedger(s, sid, session');
      SessionMoved(s, s', sid);
    }
  }

  lemma FreedLedger(s: State, sid: SessionId, session': Session)
    requires Ledger(s) && sid in s.sessions
    requires session'.snapshot == s.sessions[sid].snapshot && session'.pending == s.sessions[sid].pending
    requires session'.scheduled == s.sessions[sid].scheduled
    ensures Ledger(s.(sessions := s.sessions[sid := session']))
    ensures forall m: Meter :: Tally(s.(sessions := s.sessions[sid := session']), m) == Tally(s, m)
  {
    hide Tally, TokenCount, JobWeight, ThreadWeight, CompletionWeight, AdmissionWeight;
    var s' := s.(sessions := s.sessions[sid := session']);
    forall m: Meter ensures Tally(s', m) == Tally(s, m) {
      TallyChange(s, s', 0, Recovery, 0, sid, m);
    }
    LedgerSame(s, s');
  }

  // ----- Closing -----

  lemma KeepsClose(s: State, sid: SessionId, okPending: bool, okRunning: bool)
    requires Inv(s) && CanClose(s, sid, okPending, okRunning)
    ensures Inv(Close(s, sid, okPending, okRunning))
  {
    hide Tally, Inv, Cancel, Remove, CancelRunning, CancelPending;
    var s1 := CancelPending(s, sid);
    var running := s.sessions[sid].running;
    CancelPendingKeeps(s, sid);
    if running.Some? && Interruptible(s, running.value) && !okRunning {
    } else {
      CancelRunningKeeps(s1, sid);
      RemoveKeeps(CancelRunning(s1, sid), sid);
    }
  }

  lemma CancelPendingKeeps(s: State, sid: SessionId)
    requires Inv(s) && sid in s.sessions && s.admission.Free?
    ensures Inv(CancelPending(s, sid)) && CancelPending(s, sid).sessions == s.sessions
    ensures CancelPending(s, sid).admission == s.admission
  {
    hide Tally;
    if s.sessions[sid].pending.Some? {
      var p := s.sessions[sid].pending.value;
      if HasStatus(s, p, Queued) {
        CancelJob(s, p);
      } else {
      }
    } else {
    }
  }

  lemma CancelRunningKeeps(s: State, sid: SessionId)
    requires Inv(s) && sid in s.sessions
    ensures Inv(CancelRunning(s, sid)) && CancelRunning(s, sid).sessions == s.sessions
    ensures CancelRunning(s, sid).admission == s.admission
  {
    hide Tally;
    var running := s.sessions[sid].running;
    if running.Some? && Interruptible(s, running.value) && HasStatus(s, running.value, Running) {
      WriteJob(s, running.value, Running, Cancelling(s.jobs[running.value]));
    } else {
    }
  }

  lemma RemoveKeeps(s: State, sid: SessionId)
    requires Inv(s) && sid in s.sessions && s.admission.Free?
    ensures Inv(Remove(s, sid))
  {
    hide Tally, ReleaseAny;
    var gone := s.(sessions := s.sessions - {sid});
    if s.sessions[sid].snapshot.Some? {
      SnapshotPinned(s, sid);
      assert PinCount(gone, s.sessions[sid].snapshot.value) >= 1;
    }
    ReleaseAnyCount(gone, s.sessions[sid].snapshot);
    SpentSessions(s);
    RemovePins(s, Remove(s, sid), sid);
    RemoveClaims(s, Remove(s, sid), sid);
    SessionMoved(s, Remove(s, sid), sid);
  }

  lemma RemovePins(s: State, s': State, sid: SessionId)
    requires Ledger(s) && sid in s.sessions && s' == s.(sessions := s.sessions - {sid}, pins := s'.pins)
    requires forall y: SnapshotId :: PinCount(s', y) + (if s.sessions[sid].snapshot == Some(y) then 1 else 0) == PinCount(s, y)
    requires forall y :: y in s'.pins ==> s'.pins[y] >= 1
    ensures PinsConserved(s') && QueueCounted(s')
  {
    hide Tally, TokenCount, JobWeight, ThreadWeight, CompletionWeight, AdmissionWeight;
    PinsKept(s, s', 0, Recovery, 0, sid);
    QueueKept(s, s', 0, Recovery, 0, sid);
  }

  lemma RemoveClaims(s: State, s': State, sid: SessionId)
    requires Ledger(s) && sid in s.sessions && s' == s.(sessions := s.sessions - {sid}, pins := s'.pins)
    requires s.sessions.Keys <= s.spent
    ensures DriversUnique(s') && TokensUnique(s')
    ensures forall d :: d in s.born ==> Tally(s', DriverOf(d)) <= Tally(s, DriverOf(d))
  {
    hide Tally, TokenCount, JobWeight, ThreadWeight, CompletionWeight, AdmissionWeight;
    DriversKept(s, s', 0, Recovery, 0, sid);
    TokensKept(s, s', 0, Recovery, 0, sid);
  }
}
