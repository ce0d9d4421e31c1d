/**
 What the calls of clients bring about, told across their critical sections: a
 job that is accepted is stored, pinned and on its way; one that is refused
 leaves nothing behind; and what is cancelled or closed says so.
 */
module JobEffects {
  import opened Options
  import opened JobState
  import opened JobSteps
  import opened JobInvariant
  import opened JobEvolution
  import opened JobResponsibility
  import opened JobService

  // ----- Enqueue -----

  /** The job is queued with its birth, behind an open gate. */
  predicate QueuedAs(s: State, j: JobId, birth: Birth) {
    HasStatus(s, j, Queued) && s.jobs[j].birth == birth && j in s.gates && j in s.born && s.born[j] == birth
  }

  /** While there is room, a job is accepted: stored, with a pin on its source, and its identifier in the channel. */
  lemma EnqueueDelivers(s: State, t: ThreadId, x: SnapshotId, j: JobId)
    requires s.admission.Free? && t.Caller? && t !in s.threads && j !in s.born
    requires s.queued + |s.completions| < s.limit && |s.queue| < 2 * s.limit
    ensures CanPinSource(s, t, x) && CanAdmit(PinSource(s, t, x), t, j, true)
    ensures var s' := Admit(PinSource(s, t, x), t, j, true);
      && QueuedAs(s', j, Birth(x, None, 0)) && s'.queue == s.queue + [ForJob(j)] && s'.queued == s.queued + 1
      && PinCount(s', x) == PinCount(s, x) + 1 && s'.threads == s.threads && s'.sessions == s.sessions
      && forall i :: i in s.jobs && i != j ==> i in s'.jobs && s'.jobs[i] == s.jobs[i]
  {
    var s1 := PinSource(s, t, x);
    AdmitStores(s1, t, j);
    hide Admit;
    assert s.threads[t := Pinned(x)] - {t} == s.threads;
  }

  lemma AdmitStores(s: State, t: ThreadId, j: JobId)
    requires CanAdmit(s, t, j, true) && s.queued + |s.completions| < s.limit
    ensures var saved := Save(s, j, Birth(s.threads[t].snapshot, None, 0));
      Admit(s, t, j, true) ==
        if |s.queue| < 2 * s.limit then EndThread(Push(saved, ForJob(j)), t) else SetThread(saved, t, Withdrawing(j))
  {
    var saved := Save(s, j, Birth(s.threads[t].snapshot, None, 0));
    assert HasRoom(saved) <==> |s.queue| < 2 * s.limit;
    hide Save;
    if |s.queue| < 2 * s.limit {
    } else {
    }
  }

  lemma PinTaken(s: State, x: SnapshotId)
    requires forall y :: y in s.pins ==> s.pins[y] >= 1
    ensures Release(Pin(s, x), x).pins == s.pins
    ensures Release(Pin(s, x), x) == s.(pins := s.pins)
  {
    if x in s.pins {
      assert s.pins[x := s.pins[x] + 1][x := s.pins[x]] == s.pins;
    } else {
      assert s.pins[x := 1] - {x} == s.pins;
    }
  }

  /** A refused job leaves records, pins, channel and threads as they were. */
  lemma EnqueueRefuses(s: State, t: ThreadId, x: SnapshotId, j: JobId, ok: bool)
    requires s.admission.Free? && t.Caller? && t !in s.threads && j !in s.born && (s.native ==> ok)
    requires forall y :: y in s.pins ==> s.pins[y] >= 1
    requires s.queued + |s.completions| >= s.limit || !ok
    ensures CanPinSource(s, t, x) && CanAdmit(PinSource(s, t, x), t, j, ok)
    ensures CanReject(Admit(PinSource(s, t, x), t, j, ok), t)
    ensures Reject(Admit(PinSource(s, t, x), t, j, ok), t) == s
  {
    var s1 := PinSource(s, t, x);
    assert Admit(s1, t, j, ok) == SetThread(s1, t, Rejected(x));
    var s2 := EndThread(Admit(s1, t, j, ok), t);
    assert s.threads[t := Pinned(x)][t := Rejected(x)] - {t} == s.threads;
    assert s2 == Pin(s, x);
    PinTaken(s, x);
  }

  /** A job that finds the channel full is withdrawn: cancelled, its gate closed, its pin given back. */
  lemma EnqueueWithdraws(s: State, t: ThreadId, x: SnapshotId, j: JobId)
    requires s.admission.Free? && t.Caller? && t !in s.threads && j !in s.born && j !in s.jobs && j !in s.gates && j !in s.completions
    requires forall y :: y in s.pins ==> s.pins[y] >= 1
    requires s.queued + |s.completions| < s.limit && |s.queue| >= 2 * s.limit
    ensures CanPinSource(s, t, x) && CanAdmit(PinSource(s, t, x), t, j, true)
    ensures CanWithdraw(Admit(PinSource(s, t, x), t, j, true), t, true)
    ensures var s' := Withdraw(Admit(PinSource(s, t, x), t, j, true), t, true);
      && HasStatus(s', j, Cancelled) && j !in s'.gates && s'.queued == s.queued && s'.pins == s.pins
      && s'.queue == s.queue && s'.threads == s.threads && s'.sessions == s.sessions
  {
    var s1 := PinSource(s, t, x);
    AdmitStores(s1, t, j);
    hide Admit, Cancel;
    WithdrawnFrom(s, t, x, j);
    CancelEffect(EndThread(SetThread(Save(s1, j, Birth(x, None, 0)), t, Withdrawing(j)), t), j, s.pins);
  }

  lemma WithdrawnFrom(s: State, t: ThreadId, x: SnapshotId, j: JobId)
    requires t !in s.threads && j !in s.completions && forall y :: y in s.pins ==> s.pins[y] >= 1
    ensures var s2 := EndThread(SetThread(Save(PinSource(s, t, x), j, Birth(x, None, 0)), t, Withdrawing(j)), t);
      && HasStatus(s2, j, Queued) && s2.jobs[j].birth.snapshot == x && OnePinMore(s2.pins, s.pins, x)
      && s2.threads == s.threads && s2.queue == s.queue && s2.sessions == s.sessions && s2.completions == s.completions
      && s2.queued == s.queued + 1
  {
    assert s.threads[t := Pinned(x)][t := Withdrawing(j)] - {t} == s.threads;
  }

  predicate OnePinMore(pins: map<SnapshotId, nat>, fewer: map<SnapshotId, nat>, x: SnapshotId) {
    pins == fewer[x := (if x in fewer then fewer[x] else 0) + 1] && forall y :: y in fewer ==> fewer[y] >= 1
  }

  lemma GivesBackPin(s: State, x: SnapshotId, fewer: map<SnapshotId, nat>)
    requires OnePinMore(s.pins, fewer, x)
    ensures Release(s, x).pins == fewer
  {
    if x in fewer {
      assert fewer[x := fewer[x] + 1][x := fewer[x]] == fewer;
    } else {
      assert fewer[x := 1] - {x} == fewer;
    }
  }

  /** Cancelling a queued job. */
  lemma CancelEffect(s: State, j: JobId, fewer: map<SnapshotId, nat>)
    requires HasStatus(s, j, Queued) && j !in s.completions && OnePinMore(s.pins, fewer, s.jobs[j].birth.snapshot)
    ensures var s' := Cancel(s, j, true);
      && HasStatus(s', j, Cancelled) && j !in s'.gates && s'.queued == s.queued - 1 && s'.pins == fewer
      && s'.queue == s.queue && s'.threads == s.threads && s'.sessions == s.sessions && s'.completions == s.completions
  {
    CancelFrame(s, j, true);
    var x := s.jobs[j].birth.snapshot;
    var s1 := Transition(s, j, Queued, Cancelling(s.jobs[j]));
    GivesBackPin(s1, x, fewer);
    ReleaseUntouched(s1, x);
    hide Release, OnePinMore;
    CloseGateFrame(Release(s1, x), j);
    if j in Release(s1, x).gates {
    } else {
    }
  }

  // ----- Cancelling and closing -----

  /** A cancelled job is stored as cancelled, and a running one is not left to go on. */
  lemma CancelCancels(s: State, j: JobId)
    requires CanUserCancel(s, j)
    ensures HasStatus(UserCancel(s, j), j, Cancelled)
    ensures forall i :: i in s.jobs && i != j ==> i in UserCancel(s, j).jobs && UserCancel(s, j).jobs[i] == s.jobs[i]
  {
    hide Cancel;
    if s.jobs[j].status.Queued? {
      CancelFrame(s, j, true);
      CancelStores(s, j);
    } else {
    }
  }

  lemma CancelStores(s: State, j: JobId)
    requires CancelSucceeds(s, j, true)
    ensures HasStatus(Cancel(s, j, true), j, Cancelled)
  {
    if HasStatus(s, j, Queued) {
      var s1 := Transition(s, j, Queued, Cancelling(s.jobs[j]));
      ReleaseUntouched(s1, s.jobs[j].birth.snapshot);
      CloseGateFrame(Release(s1, s.jobs[j].birth.snapshot), j);
      hide Release, CloseGate;
    } else {
    }
  }

  /** The session's running job, if a worker or a deferred completion can still be stopped. */
  predicate Stoppable(s: State, sid: SessionId) {
    sid in s.sessions && s.sessions[sid].running.Some? && Interruptible(s, s.sessions[sid].running.value)
  }

  /** A session that is closed is gone; its pending job is cancelled, and so is its running job while it can be stopped. */
  lemma CloseCancels(s: State, sid: SessionId, okPending: bool, okRunning: bool)
    requires Inv(s) && CanClose(s, sid, okPending, okRunning)
    ensures var s' := Close(s, sid, okPending, okRunning); var session := s.sessions[sid];
      && (sid in s'.sessions <==> Stoppable(s, sid) && !okRunning)
      && (session.pending.Some? ==> HasStatus(s', session.pending.value, Cancelled))
      && (Stoppable(s, sid) && okRunning && HasStatus(s, session.running.value, Running) ==>
           HasStatus(s', session.running.value, Cancelled))
  {
    SessionJobs(s, sid);
    CloseIs(s, sid, okPending, okRunning);
    hide Inv, Cancel, CancelRunning, Remove, Close, Interruptible;
    PendingCancelled(s, sid);
    if !Stoppable(s, sid) || okRunning {
      RunningStopped(CancelPending(s, sid), sid);
      hide CancelPending;
      CancelRunningFrame(CancelPending(s, sid), sid);
      RemoveFrame(CancelRunning(CancelPending(s, sid), sid), sid);
      RemoveRecords(CancelRunning(CancelPending(s, sid), sid), sid);
    }
  }

  lemma CloseIs(s: State, sid: SessionId, okPending: bool, okRunning: bool)
    requires CanClose(s, sid, okPending, okRunning)
    ensures CancelPending(s, sid).sessions == s.sessions
    ensures Close(s, sid, okPending, okRunning) ==
      if Stoppable(s, sid) && !okRunning then CancelPending(s, sid) else Remove(CancelRunning(CancelPending(s, sid), sid), sid)
  {
    hide Cancel, CancelRunning, Remove;
    if s.sessions[sid].pending.Some? {
      CancelFrame(s, s.sessions[sid].pending.value, true);
    } else {
    }
    if Stoppable(s, sid) && !okRunning {
    } else {
    }
  }

  /** Nothing but the pending job is cancelled first, and the running job can be stopped as before. */
  lemma PendingCancelled(s: State, sid: SessionId)
    requires sid in s.sessions
    requires s.sessions[sid].pending.Some? ==>
      CancelSucceeds(s, s.sessions[sid].pending.value, true) && s.sessions[sid].pending != s.sessions[sid].running
    ensures var s1 := CancelPending(s, sid); var session := s.sessions[sid];
      && s1.sessions == s.sessions && (Stoppable(s1, sid) <==> Stoppable(s, sid))
      && (session.pending.Some? ==> HasStatus(s1, session.pending.value, Cancelled))
      && (session.running.Some? && HasStatus(s, session.running.value, Running) ==> HasStatus(s1, session.running.value, Running))
  {
    hide Cancel;
    if s.sessions[sid].pending.Some? {
      CancelFrame(s, s.sessions[sid].pending.value, true);
      CancelStores(s, s.sessions[sid].pending.value);
    } else {
    }
  }

  /** A session's pending and running jobs are two. */
  lemma SessionJobs(s: State, sid: SessionId)
    requires Inv(s) && sid in s.sessions
    ensures s.sessions[sid].pending.Some? ==> s.sessions[sid].pending != s.sessions[sid].running
  {
    hide Tally;
    assert SessionOk(s, sid);
  }

  lemma RunningStopped(s: State, sid: SessionId)
    requires sid in s.sessions
    ensures var s' := CancelRunning(s, sid);
      && (Stoppable(s, sid) && HasStatus(s, s.sessions[sid].running.value, Running) ==>
           HasStatus(s', s.sessions[sid].running.value, Cancelled))
      && (forall i :: HasStatus(s, i, Cancelled) ==> HasStatus(s', i, Cancelled))
  {
    if Stoppable(s, sid) && HasStatus(s, s.sessions[sid].running.value, Running) {
    } else {
    }
  }

  /** At its end an attempt lets readers see a success, unless a completion of the job is pending; then nobody sees it yet. */
  lemma GateCloses(s: State, t: ThreadId)
    requires CanEndGate(s, t)
    ensures var s', j := EndGate(s, t), s.threads[t].id;
      && (j in s'.gates <==> j in s.gates && j in s.completions)
      && (forall i :: i != j ==> (i in s'.gates <==> i in s.gates))
      && s'.version == s.version + (if j in s.gates && j !in s.completions then 1 else 0)
      && s'.jobs == s.jobs && s'.sessions == s.sessions && s'.completions == s.completions && t !in s'.threads
  {
    var s1, j := EndThread(s, t), s.threads[t].id;
    CloseGateFrame(s1, j);
    if j in s1.completions || j !in s1.gates {
    } else {
    }
  }

  // ----- Submitting a revision -----

  /** The session may take a revision that was prepared: it lives, and there is room, a queued pending job not counted. */
  predicate Submittable(s: State, sid: SessionId, j: JobId) {
    s.admission.Free? && sid in s.sessions && !s.sessions[sid].expired && j !in s.born && j !in s.jobs &&
    var pending := s.sessions[sid].pending;
    (pending.Some? ==> CancelSucceeds(s, pending.value, true)) &&
    s.queued + |s.completions| - (if pending.Some? && HasStatus(s, pending.value, Queued) then 1 else 0) < s.limit
  }

  function Prepared1(s: State, sid: SessionId, x: SnapshotId, j: JobId): State
    requires Submittable(s, sid, j)
  { SaveRevision(Prepare(s, sid, x), j) }

  /** The new job is stored with the next revision of the session; nothing else has changed but the pin. */
  lemma SubmitSaves(s: State, sid: SessionId, x: SnapshotId, j: JobId)
    requires Submittable(s, sid, j)
    ensures var s' := Prepared1(s, sid, x, j);
      && s'.admission == Saved(sid, x, j) && QueuedAs(s', j, Birth(x, Some(sid), s.sessions[sid].revision + 1))
      && s'.sessions == s.sessions && s'.queue == s.queue && s'.threads == s.threads && s'.pins == Pin(s, x).pins
      && s'.limit == s.limit && s'.native == s.native && s'.completions == s.completions
      && (forall i :: i in s.jobs ==> i in s'.jobs && s'.jobs[i] == s.jobs[i])
    ensures CanSupersede(Prepared1(s, sid, x, j), true)
  {
  }

  /** The job it replaces is cancelled. */
  lemma SubmitReplaces(s: State, j: JobId)
    requires CanSupersede(s, true) && s.admission.id == j && HasStatus(s, j, Queued)
    requires var pending := s.sessions[s.admission.session].pending;
      pending.Some? ==> pending.value != j && CancelSucceeds(s, pending.value, true)
    ensures var s' := Supersede(s, true); var pending := s.sessions[s.admission.session].pending;
      && s'.admission == JobState.Replaced(s.admission.session, s.admission.snapshot, s.admission.id)
      && (pending.Some? ==> HasStatus(s', pending.value, Cancelled))
      && j in s'.jobs && s'.jobs[j] == s.jobs[j]
      && s'.sessions == s.sessions && s'.queue == s.queue && s'.threads == s.threads && s'.limit == s.limit
    ensures CanAccept(Supersede(s, true))
  {
    hide Cancel;
    var pending := s.sessions[s.admission.session].pending;
    if pending.None? {
    } else {
      CancelFrame(s, pending.value, true);
      CancelStores(s, pending.value);
      CancelLimit(s, pending.value);
    }
  }

  lemma CancelLimit(s: State, j: JobId)
    ensures Cancel(s, j, true).limit == s.limit
  {
    if HasStatus(s, j, Queued) {
      var s1 := Transition(s, j, Queued, Cancelling(s.jobs[j]));
      ReleaseUntouched(s1, s.jobs[j].birth.snapshot);
      CloseGateFrame(Release(s1, s.jobs[j].birth.snapshot), j);
      hide Release, CloseGate;
    } else {
    }
  }

  /** The session moves on to the new revision, its tree and its job, and is woken if it is idle and there is room. */
  lemma SubmitAccepts(s: State)
    requires CanAccept(s)
    ensures var a, s' := s.admission, Accept(s); var before := s.sessions[a.session];
      && s'.admission.Free? && a.session in s'.sessions
      && var after := s'.sessions[a.session];
      && after.revision == before.revision + 1 && after.pending == Some(a.id) && after.snapshot == Some(a.snapshot)
      && after.running == before.running && after.expired == before.expired
      && s'.jobs == s.jobs && s'.threads == s.threads
      && (if before.running.None? && !before.scheduled && |s.queue| < 2 * s.limit
          then after.scheduled && s'.queue == s.queue + [ForSession(a.session)]
          else after.scheduled == before.scheduled && s'.queue == s.queue)
  {
    hide Release;
    var a := s.admission;
    var session := s.sessions[a.session];
    if session.snapshot.Some? {
      ReleaseUntouched(Pin(s, a.snapshot), session.snapshot.value);
    } else {
    }
    ScheduleEffect(Advance(s), a.session);
    hide Schedule, Advance;
    ScheduleUntouched(Advance(s), a.session);
  }

  /** An idle session with a pending job is woken when there is room, once. */
  lemma ScheduleEffect(s: State, sid: SessionId)
    requires sid in s.sessions
    ensures var s', before := Schedule(s, sid), s.sessions[sid];
      && s'.admission == s.admission && s'.threads == s.threads && sid in s'.sessions
      && s'.sessions[sid] == before.(scheduled := s'.sessions[sid].scheduled)
      && (if before.running.None? && before.pending.Some? && !before.scheduled && |s.queue| < 2 * s.limit
          then s'.sessions[sid].scheduled && s'.queue == s.queue + [ForSession(sid)]
          else s'.sessions[sid].scheduled == before.scheduled && s'.queue == s.queue)
  {
    if Schedulable(s, sid) {
    } else {
    }
  }

  /**
   A revision that is admitted: its job is queued as the session's pending one, on
   its own source tree, with the next revision, in place of the one before.
   */
  lemma SubmitDelivers(s: State, sid: SessionId, x: SnapshotId, j: JobId)
    requires Inv(s) && Submittable(s, sid, j)
    ensures CanPrepare(s, sid, x) && CanSaveRevision(Prepare(s, sid, x), j)
    ensures CanSupersede(Prepared1(s, sid, x, j), true) && CanAccept(Supersede(Prepared1(s, sid, x, j), true))
    ensures var s' := Accept(Supersede(Prepared1(s, sid, x, j), true)); var before := s.sessions[sid];
      && s'.admission.Free? && HasStatus(s', j, Queued)
      && s'.jobs[j].birth == Birth(x, Some(sid), before.revision + 1)
      && (before.pending.Some? ==> HasStatus(s', before.pending.value, Cancelled))
      && sid in s'.sessions && var after := s'.sessions[sid];
      && after.revision == before.revision + 1 && after.pending == Some(j) && after.snapshot == Some(x)
      && after.running == before.running
      && (before.running.None? && |s.queue| < 2 * s.limit ==> after.scheduled)
  {
    hide Inv, Supersede, Accept, Prepared1, Prepare, SaveRevision, CanSaveRevision, CanSupersede, CanAccept;
    SessionBorn(s, sid);
    SubmitSaves(s, sid, x, j);
    SubmitMay(s, sid, x, j);
    var s2 := Prepared1(s, sid, x, j);
    SubmitReplaces(s2, j);
    SubmitAccepts(Supersede(s2, true));
  }

  lemma SubmitMay(s: State, sid: SessionId, x: SnapshotId, j: JobId)
    requires Submittable(s, sid, j)
    ensures CanPrepare(s, sid, x) && CanSaveRevision(Prepare(s, sid, x), j)
  {
  }

  lemma SessionBorn(s: State, sid: SessionId)
    requires Inv(s) && sid in s.sessions
    ensures s.sessions[sid].pending.Some? ==> s.sessions[sid].pending.value in s.born
  {
    hide Tally;
    assert SessionOk(s, sid);
  }
}
