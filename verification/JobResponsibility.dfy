/**
 No lost session slot: whoever is to finish the running attempt of a live
 session hands that duty on, and the one way to drop it is to load a record
 that the retention sweep has removed.
 */
module JobResponsibility {
  import opened Options
  import opened Counting
  import opened JobState
  import opened JobSteps
  import opened JobInvariant
  import opened JobMoves
  import opened JobEvolution
  import opened JobWorkers

  function SettledBy(s: State, t: ThreadId): Option<JobId> { if t in s.threads then Settling(s.threads[t]) else None }
  predicate ByThread(s: State, t: ThreadId, j: JobId) { SettledBy(s, t) == Some(j) }
  predicate ByToken(s: State, j: JobId) { ForJob(j) in s.queue }
  predicate ByEntry(s: State, j: JobId) { j in s.completions }

  /** Some goroutine, some token of the channel or some deferred completion will settle the job. */
  ghost predicate Responsible(s: State, j: JobId) {
    ByToken(s, j) || ByEntry(s, j) || exists t :: ByThread(s, t, j)
  }

  /** An unexpired live session whose running attempt is the job. */
  predicate Holds(s: State, sid: SessionId, j: JobId) {
    sid in s.sessions && !s.sessions[sid].expired && s.sessions[sid].running == Some(j)
  }

  predicate Owned(s: State, j: JobId) {
    j in s.born && s.born[j].session.Some? && Holds(s, s.born[j].session.value, j)
  }

  ghost predicate SlotsHeld(s: State) { forall sid, j: JobId :: Holds(s, sid, j) ==> Responsible(s, j) }

  /** A goroutine that lost the job before the start transition is the only party left. */
  ghost predicate Lone(s: State) {
    forall t, j: JobId :: UnknownBy(s, t) == Some(j) ==>
      !ByEntry(s, j) && !ByToken(s, j) && forall t' :: ByThread(s, t', j) ==> t' == t
  }

  /** The job whose outcome this goroutine's tail does not know. */
  function Unknown(pc: Pc): Option<JobId> {
    if (pc.Deactivating? || pc.Ending? || pc.Closing?) && pc.known.None? then Some(pc.id) else None
  }
  function UnknownBy(s: State, t: ThreadId): Option<JobId> { if t in s.threads then Unknown(s.threads[t]) else None }

  /** The step that forgets an attempt: the record it loads was swept while the session still waited for it. */
  predicate Forgets(s: State, step: Step) {
    match step
    case OfWorker(StepLoad(t, ok)) =>
      t in s.threads && s.threads[t].Loading? && ok && !s.native &&
      s.threads[t].id !in s.jobs && Owned(s, s.threads[t].id)
    case OfTail(StepReload(t)) =>
      t in s.threads && s.threads[t].Closing? && s.threads[t].id !in s.jobs && Owned(s, s.threads[t].id)
    case _ => false
  }

  // ----- The footprint of a step -----

  /** Duties change hands through the one goroutine that moves. */
  ghost predicate Hands(s: State, s': State, t: ThreadId) {
    && SameOff(s.threads, s'.threads, t)
    && (forall j: JobId :: ByToken(s, j) ==> ByToken(s', j) || ByThread(s', t, j))
    && (forall j: JobId :: ByEntry(s, j) ==> ByEntry(s', j) || ByThread(s', t, j))
    && (forall j: JobId :: ByThread(s, t, j) ==> ByThread(s', t, j) || ByToken(s', j) || ByEntry(s', j) || !Owned(s', j))
    && (forall sid, j: JobId :: Holds(s', sid, j) ==> Holds(s, sid, j) || ByThread(s', t, j))
    && (forall sid, j: JobId :: Holds(s, sid, j) && sid in s'.sessions && !s'.sessions[sid].expired ==>
         Holds(s', sid, j) || ByThread(s, t, j))
  }

  /** The goroutine that drives the job, before its tail. */
  predicate DrivesSlot(s: State, t: ThreadId, j: JobId) { SettledBy(s, t) == DrivenBy(s, t) == Some(j) }

  predicate Waiting(s: State, j: JobId) { exists sid :: sid in s.sessions && s.sessions[sid].pending == Some(j) }

  /** Duties only come from duties, from a driver laying down the job, or from a pending revision; only recovery takes up an entry. */
  ghost predicate NoNewParty(s: State, s': State, t: ThreadId) {
    && (forall j: JobId :: j in s.born && ByToken(s', j) ==> ByToken(s, j) || DrivesSlot(s, t, j))
    && (forall j: JobId :: j in s.born && ByEntry(s', j) ==> ByEntry(s, j) || DrivesSlot(s, t, j))
    && (forall j: JobId :: j in s.born && ByThread(s', t, j) ==>
         ByThread(s, t, j) || ByToken(s, j) || (ByEntry(s, j) && t == Recovery) || Waiting(s, j))
  }

  /** t loses sight of the outcome only by giving up the job it drove, channel and completions untouched. */
  predicate LosesSight(s: State, s': State, t: ThreadId) {
    UnknownBy(s', t).Some? ==>
      UnknownBy(s, t) == UnknownBy(s', t) ||
      (DrivenBy(s, t) == UnknownBy(s', t) && s'.queue == s.queue && s'.completions == s.completions)
  }

  ghost predicate Duties(s: State, s': State, t: ThreadId) {
    Hands(s, s', t) && NoNewParty(s, s', t) && LosesSight(s, s', t)
  }

  lemma HandsKeep(s: State, s': State, t: ThreadId)
    requires Inv(s) && Inv(s') && SlotsHeld(s) && Hands(s, s', t)
    ensures SlotsHeld(s')
  {
    hide Tally;
    forall sid, j: JobId | Holds(s', sid, j) ensures Responsible(s', j) {
      assert SessionOk(s', sid);
      assert Owned(s', j);
      if ByThread(s', t, j) {
      } else {
        assert Holds(s, sid, j) && Responsible(s, j);
        if t' :| ByThread(s, t', j) {
          assert ByThread(s', t', j) || t' == t;
        }
      }
    }
  }

  lemma LoneKeeps(s: State, s': State, t: ThreadId)
    requires Inv(s) && Lone(s) && Duties(s, s', t) && s.born.Keys <= s'.born.Keys
    ensures Lone(s')
  {
    hide Inv;
    forall t', j: JobId | UnknownBy(s', t') == Some(j)
      ensures !ByEntry(s', j) && !ByToken(s', j)
      ensures forall u :: ByThread(s', u, j) ==> u == t'
    {
      if UnknownBy(s, t') == Some(j) {
        LoneStays(s, s', t, t', j);
      } else {
        assert t' == t;
        LoneBegins(s, s', t, j);
      }
    }
  }

  lemma LoneStays(s: State, s': State, t: ThreadId, t': ThreadId, j: JobId)
    requires Inv(s) && Lone(s) && Duties(s, s', t) && UnknownBy(s, t') == Some(j)
    ensures !ByEntry(s', j) && !ByToken(s', j) && forall u :: ByThread(s', u, j) ==> u == t'
  {
    hide Inv, LosesSight, Owned, Holds, Settling;
    UnknownClaim(s, t', j);
    assert forall u :: ByThread(s', u, j) ==> ByThread(s, u, j) || ByToken(s, j) || ByEntry(s, j);
  }

  lemma UnknownClaim(s: State, t: ThreadId, j: JobId)
    requires Inv(s) && UnknownBy(s, t) == Some(j)
    ensures j in s.born && !Waiting(s, j) && forall u :: u in s.threads ==> Driven(s.threads[u]) != Some(j)
  {
    hide Tally;
    assert PcOk(s, t, s.threads[t]);
    UndrivenMeans(s, j);
  }

  lemma LoneBegins(s: State, s': State, t: ThreadId, j: JobId)
    requires Inv(s) && Duties(s, s', t) && UnknownBy(s', t) == Some(j) && UnknownBy(s, t) != Some(j)
    ensures !ByEntry(s', j) && !ByToken(s', j) && forall u :: ByThread(s', u, j) ==> u == t
  {
    hide Tally, Inv;
    DriverAlone(s, t, j);
    TokenAbsent(j, s.queue);
    assert forall u :: u != t && ByThread(s', u, j) ==> Subject(s.threads[u]) == Some(j);
  }

  // ----- Who may share a job -----

  /** At most one goroutine besides recovery will settle the job. */
  ghost predicate OneSettler(s: State) {
    forall t, u, j: JobId :: ByThread(s, t, j) && ByThread(s, u, j) && t != u ==> t == Recovery || u == Recovery
  }

  /** A goroutine that settles a job leaves no token of it, and no revision waiting for it. */
  lemma SettlerClaim(s: State, t: ThreadId, j: JobId)
    requires Inv(s) && ByThread(s, t, j)
    ensures j in s.born && !ByToken(s, j) && !Waiting(s, j)
  {
    hide Tally;
    assert PcOk(s, t, s.threads[t]);
    if Driven(s.threads[t]) == Some(j) {
      DriverAlone(s, t, j);
    } else {
      if s.threads[t].Confirmed? {
        assert CompletionOk(s, j);
      }
      UndrivenMeans(s, j);
    }
    TokenAbsent(j, s.queue);
  }

  lemma SettlerKeeps(s: State, s': State, t: ThreadId)
    requires Inv(s) && OneSettler(s) && SameOff(s.threads, s'.threads, t) && NoNewParty(s, s', t)
    ensures OneSettler(s')
  {
    hide Inv, OneSettler, NoNewParty, SettledBy;
    forall u, v, j: JobId | ByThread(s', v, j) && ByThread(s', u, j) && v != u ensures v == Recovery || u == Recovery {
      if v == t {
        SettlerBefore(s, s', t, u, j);
      } else if u == t {
        SettlerBefore(s, s', t, v, j);
      } else {
        SameSettler(s, s', t, u);
        SameSettler(s, s', t, v);
        OnlySettler(s, u, v, j);
      }
    }
    SettlerAll(s');
  }

  lemma SettlerAll(s: State)
    requires forall t, u, j: JobId :: ByThread(s, t, j) && ByThread(s, u, j) && t != u ==> t == Recovery || u == Recovery
    ensures OneSettler(s)
  {
  }

  lemma OnlySettler(s: State, t: ThreadId, u: ThreadId, j: JobId)
    requires OneSettler(s) && ByThread(s, t, j) && ByThread(s, u, j) && t != u
    ensures t == Recovery || u == Recovery
  {
  }

  lemma SameSettler(s: State, s': State, t: ThreadId, u: ThreadId)
    requires SameOff(s.threads, s'.threads, t) && u != t
    ensures SettledBy(s', u) == SettledBy(s, u)
  {
  }

  /** Whoever takes the job up beside a goroutine that settles it is recovery, or settled it before. */
  lemma SettlerBefore(s: State, s': State, t: ThreadId, u: ThreadId, j: JobId)
    requires Inv(s) && OneSettler(s) && SameOff(s.threads, s'.threads, t) && NoNewParty(s, s', t)
    requires ByThread(s', t, j) && ByThread(s', u, j) && t != u
    ensures t == Recovery || u == Recovery
  {
    hide Inv, OneSettler, SettledBy;
    SameSettler(s, s', t, u);
    SettlerClaim(s, u, j);
    if t != Recovery {
      assert ByThread(s, t, j);
      OnlySettler(s, t, u, j);
    }
  }

  /** At most a wake-up token was added to the channel. */
  predicate OnlyWoken(queue: seq<Token>, queue': seq<Token>) {
    |queue| <= |queue'| <= |queue| + 1 && queue'[..|queue|] == queue &&
    (|queue'| == |queue| + 1 ==> queue'[|queue|].ForSession?)
  }

  /** No session gained or lost an attempt. */
  predicate SameHolders(s: State, s': State) {
    forall sid :: sid in s'.sessions ==>
      if sid in s.sessions then
        s'.sessions[sid].running == s.sessions[sid].running && (s.sessions[sid].expired ==> s'.sessions[sid].expired)
      else s'.sessions[sid].running == None
  }

  lemma WokenToken(queue: seq<Token>, queue': seq<Token>)
    requires OnlyWoken(queue, queue')
    ensures forall j: JobId :: ForJob(j) in queue <==> ForJob(j) in queue'
  {
    forall j: JobId ensures ForJob(j) in queue <==> ForJob(j) in queue' {
      assert ForJob(j) in queue ==> ForJob(j) in queue'[..|queue|];
      if ForJob(j) in queue' {
        var i :| 0 <= i < |queue'| && queue'[i] == ForJob(j);
        assert i < |queue| && queue'[..|queue|][i] == ForJob(j);
      }
    }
  }

  /** Channel, completions and sessions' attempts stay; t keeps its duty. */
  lemma Kept(s: State, s': State, t: ThreadId)
    requires SameOff(s.threads, s'.threads, t) && s'.completions == s.completions
    requires OnlyWoken(s.queue, s'.queue) && SameHolders(s, s')
    requires SettledBy(s', t) == SettledBy(s, t)
    requires LosesSight(s, s', t)
    ensures Duties(s, s', t)
  {
    hide Tally;
    WokenToken(s.queue, s'.queue);
  }

  // ----- Clients and sessions -----

  lemma AdmitFrame(s: State, t: ThreadId, j: JobId, ok: bool)
    requires CanAdmit(s, t, j, ok)
    ensures var s' := Admit(s, t, j, ok);
      s'.completions == s.completions && s'.sessions == s.sessions && SameOff(s.threads, s'.threads, t) &&
      SettledBy(s', t) == None && UnknownBy(s', t) == None &&
      (s'.queue == s.queue || s'.queue == s.queue + [ForJob(j)])
  {
    hide PendingCount, HasRoom;
    var x := s.threads[t].snapshot;
    var saved := Save(s, j, Birth(x, None, 0));
    if PendingCount(s) >= s.limit || !ok {
      assert Admit(s, t, j, ok) == SetThread(s, t, Rejected(x));
    } else if HasRoom(s) {
      assert Admit(s, t, j, ok) == EndThread(Push(saved, ForJob(j)), t);
    } else {
      assert Admit(s, t, j, ok) == SetThread(saved, t, Withdrawing(j));
    }
  }

  lemma AdmitDuties(s: State, t: ThreadId, j: JobId, ok: bool)
    requires CanAdmit(s, t, j, ok)
    ensures Duties(s, Admit(s, t, j, ok), t)
  {
    hide Duties, Admit;
    AdmitFrame(s, t, j, ok);
    var s' := Admit(s, t, j, ok);
    if s'.queue == s.queue {
      Kept(s, s', t);
    } else {
      AdmittedDuties(s, s', t, j);
    }
  }

  lemma AdmittedDuties(s: State, s': State, t: ThreadId, j: JobId)
    requires s'.completions == s.completions && s'.sessions == s.sessions && SameOff(s.threads, s'.threads, t)
    requires SettledBy(s, t) == SettledBy(s', t) == None && UnknownBy(s', t) == None
    requires j !in s.born && s'.queue == s.queue + [ForJob(j)]
    ensures Duties(s, s', t)
  {
    hide Tally;
    assert forall d: JobId :: ByToken(s', d) ==> ByToken(s, d) || d == j;
    assert forall d: JobId :: ByToken(s, d) ==> ByToken(s', d);
  }

  lemma RejectDuties(s: State, t: ThreadId)
    requires CanReject(s, t)
    ensures Duties(s, Reject(s, t), t)
  {
    hide Duties, Release;
    ReleaseUntouched(EndThread(s, t), s.threads[t].snapshot);
    Kept(s, Reject(s, t), t);
  }

  lemma WithdrawDuties(s: State, t: ThreadId, ok: bool)
    requires CanWithdraw(s, t, ok)
    ensures Duties(s, Withdraw(s, t, ok), t)
  {
    hide Duties, Cancel;
    CancelFrame(EndThread(s, t), s.threads[t].id, ok);
    Kept(s, Withdraw(s, t, ok), t);
  }

  lemma UserCancelDuties(s: State, j: JobId)
    requires CanUserCancel(s, j)
    ensures Duties(s, UserCancel(s, j), Recovery)
  {
    hide Duties, Cancel, Transition;
    CancelFrame(s, j, true);
    TransitionFrame(s, j, Running, Cancelling(s.jobs[j]));
    Kept(s, UserCancel(s, j), Recovery);
  }

  lemma ClientDuties(s: State, step: ClientStep) returns (t: ThreadId)
    requires ClientEnabled(s, step)
    ensures Duties(s, ClientApply(s, step), t)
  {
    hide Duties, Admit, Reject, Withdraw, UserCancel;
    match step
    case StepPinSource(c, x) => t := c; Kept(s, PinSource(s, t, x), t);
    case StepAdmit(c, j, ok) => t := c; AdmitDuties(s, c, j, ok);
    case StepReject(c) => t := c; RejectDuties(s, t);
    case StepWithdraw(c, ok) => t := c; WithdrawDuties(s, t, ok);
    case StepUserCancel(j) => t := Recovery; UserCancelDuties(s, j);
    case StepSweep(swept) => t := Recovery; Kept(s, Sweep(s, swept), t);
  }

  lemma ScheduleKept(s: State, sid: SessionId)
    ensures var s' := Schedule(s, sid);
      s'.threads == s.threads && s'.completions == s.completions && OnlyWoken(s.queue, s'.queue) && SameHolders(s, s')
  {
    if Schedulable(s, sid) {
    } else {
    }
  }

  lemma AcceptFrame(s: State)
    requires CanAccept(s)
    ensures var s' := Advance(s);
      s'.completions == s.completions && s'.threads == s.threads && s'.queue == s.queue &&
      s'.sessions == s.sessions[s.admission.session := s'.sessions[s.admission.session]] &&
      s'.sessions[s.admission.session].running == s.sessions[s.admission.session].running &&
      s'.sessions[s.admission.session].expired == s.sessions[s.admission.session].expired
  {
    var a := s.admission;
    var session := s.sessions[a.session];
    if session.snapshot.Some? {
      ReleaseUntouched(Pin(s, a.snapshot), session.snapshot.value);
    } else {
    }
  }

  lemma AcceptDuties(s: State)
    requires CanAccept(s)
    ensures Duties(s, Accept(s), Recovery)
  {
    hide Duties, Advance, Schedule;
    AcceptFrame(s);
    ScheduleKept(Advance(s), s.admission.session);
    Kept(s, Accept(s), Recovery);
  }

  lemma SupersedeDuties(s: State, ok: bool)
    requires CanSupersede(s, ok)
    ensures Duties(s, Supersede(s, ok), Recovery)
  {
    hide Duties, Cancel;
    var pending := s.sessions[s.admission.session].pending;
    var a := s.admission;
    if pending.None? {
      LockMoves(s, s, Replaced(a.session, a.snapshot, a.id));
    } else if !CancelSucceeds(s, pending.value, ok) {
      LockMoves(s, s, Aborting(a.id));
    } else {
      CancelFrame(s, pending.value, ok);
      LockMoves(s, Cancel(s, pending.value, ok), Replaced(a.session, a.snapshot, a.id));
    }
  }

  lemma LockMoves(s: State, s1: State, a: Admission)
    requires s1.completions == s.completions && s1.threads == s.threads && s1.queue == s.queue && s1.sessions == s.sessions
    ensures Duties(s, s1.(admission := a), Recovery)
  {
    hide Duties;
    Kept(s, s1.(admission := a), Recovery);
  }

  lemma CancelRunningFrame(s: State, sid: SessionId)
    requires sid in s.sessions
    ensures var s' := CancelRunning(s, sid);
      s'.completions == s.completions && s'.threads == s.threads && s'.queue == s.queue && s'.sessions == s.sessions
  {
    var running := s.sessions[sid].running;
    if running.Some? && Interruptible(s, running.value) && HasStatus(s, running.value, Running) {
      TransitionFrame(s, running.value, Running, Cancelling(s.jobs[running.value]));
    } else {
    }
  }

  lemma RemoveFrame(s: State, sid: SessionId)
    requires sid in s.sessions
    ensures var s' := Remove(s, sid);
      s'.completions == s.completions && s'.threads == s.threads && s'.queue == s.queue && s'.sessions == s.sessions - {sid}
  {
    if s.sessions[sid].snapshot.Some? {
      ReleaseUntouched(s.(sessions := s.sessions - {sid}), s.sessions[sid].snapshot.value);
    } else {
    }
  }

  lemma CloseFrame(s: State, sid: SessionId, okPending: bool, okRunning: bool)
    requires CanClose(s, sid, okPending, okRunning)
    ensures var s' := Close(s, sid, okPending, okRunning);
      s'.completions == s.completions && s'.threads == s.threads && s'.queue == s.queue &&
      (s'.sessions == s.sessions || s'.sessions == s.sessions - {sid})
  {
    hide Cancel, Remove, CancelRunning;
    if s.sessions[sid].pending.Some? {
      CancelFrame(s, s.sessions[sid].pending.value, true);
    } else {
    }
    var s1 := CancelPending(s, sid);
    var running := s.sessions[sid].running;
    if running.Some? && Interruptible(s, running.value) && !okRunning {
    } else {
      CancelRunningFrame(s1, sid);
      RemoveFrame(CancelRunning(s1, sid), sid);
    }
  }

  lemma CloseDuties(s: State, sid: SessionId, okPending: bool, okRunning: bool)
    requires CanClose(s, sid, okPending, okRunning)
    ensures Duties(s, Close(s, sid, okPending, okRunning), Recovery)
  {
    hide Duties, Close;
    CloseFrame(s, sid, okPending, okRunning);
    Kept(s, Close(s, sid, okPending, okRunning), Recovery);
  }

  lemma SessionsSpent(s: State)
    requires Inv(s)
    ensures s.sessions.Keys <= s.spent
  {
    hide Tally;
    SpentSessions(s);
  }

  lemma OpenDuties(s: State, sid: SessionId)
    requires CanOpen(s, sid) && s.sessions.Keys <= s.spent
    ensures Duties(s, Open(s, sid), Recovery)
  {
    hide Duties;
    Kept(s, Open(s, sid), Recovery);
  }

  lemma RefuseDuties(s: State)
    requires CanRefuse(s)
    ensures Duties(s, Refuse(s), Recovery)
  {
    hide Duties, Release;
    ReleaseUntouched(s.(admission := Free), s.admission.snapshot);
    Kept(s, Refuse(s), Recovery);
  }

  lemma AbortDuties(s: State, ok: bool)
    requires CanAbort(s, ok)
    ensures Duties(s, Abort(s, ok), Recovery)
  {
    hide Duties, Cancel;
    CancelFrame(s.(admission := Free), s.admission.id, ok);
    Kept(s, Abort(s, ok), Recovery);
  }

  lemma ScheduleDuties(s: State, sid: SessionId)
    ensures Duties(s, Schedule(s, sid), Recovery)
  {
    hide Duties, Schedule;
    ScheduleKept(s, sid);
    Kept(s, Schedule(s, sid), Recovery);
  }

  lemma SessionDuties(s: State, step: SessionStep)
    requires SessionEnabled(s, step) && s.sessions.Keys <= s.spent
    ensures Duties(s, SessionApply(s, step), Recovery)
  {
    hide Duties, Open, Refuse, Supersede, Accept, Abort, Schedule, Close;
    match step
    case StepOpen(sid) => OpenDuties(s, sid);
    case StepExpire(sid) => Kept(s, Expire(s, sid), Recovery);
    case StepPrepare(sid, x) => Kept(s, Prepare(s, sid, x), Recovery);
    case StepRefuse => RefuseDuties(s);
    case StepSaveRevision(j) => Kept(s, SaveRevision(s, j), Recovery);
    case StepSupersede(ok) => SupersedeDuties(s, ok);
    case StepAccept => AcceptDuties(s);
    case StepFailPin => Kept(s, FailPin(s), Recovery);
    case StepAbort(ok) => AbortDuties(s, ok);
    case StepReschedule(sid) => ScheduleDuties(s, sid);
    case StepClose(sid, okPending, okRunning) => CloseDuties(s, sid, okPending, okRunning);
  }

  // ----- Workers -----

  lemma ReceiveDuties(s: State, t: ThreadId)
    requires CanReceive(s, t)
    ensures Duties(s, Receive(s, t), t)
  {
    hide Tally;
    var s' := Receive(s, t);
    var token := s.queue[0];
    assert s.queue == [token] + s.queue[1..];
    assert forall d: JobId :: ByToken(s, d) <==> ByToken(s', d) || token == ForJob(d);
    hide ByToken;
    if token.ForJob? {
    } else {
    }
  }

  lemma TakeDuties(s: State, t: ThreadId)
    requires CanTake(s, t)
    ensures Duties(s, Take(s, t), t)
  {
    hide Duties;
    var sid := s.threads[t].session;
    assert SettledBy(s, t) == None;
    if sid !in s.sessions {
      IdleEnds(s, t, s.sessions);
    } else {
      var session := s.sessions[sid];
      if session.running.Some? || session.pending.None? {
        IdleEnds(s, t, s.sessions[sid := session.(scheduled := false)]);
      } else {
        TakesPending(s, t, sid);
      }
    }
  }

  /** A goroutine without a duty ends; no session gained or lost an attempt. */
  lemma IdleEnds(s: State, t: ThreadId, sessions': map<SessionId, Session>)
    requires SettledBy(s, t) == None && sessions'.Keys == s.sessions.Keys
    requires forall x :: x in s.sessions ==>
      sessions'[x].running == s.sessions[x].running && sessions'[x].expired == s.sessions[x].expired
    ensures Duties(s, EndThread(s.(sessions := sessions'), t), t)
  {
    hide Duties;
    Kept(s, EndThread(s.(sessions := sessions'), t), t);
  }

  lemma TakesPending(s: State, t: ThreadId, sid: SessionId)
    requires t in s.threads && s.threads[t] == Taking(sid) && sid in s.sessions && s.sessions[sid].pending.Some?
    requires s.sessions[sid].running.None?
    ensures var session := s.sessions[sid];
      Duties(s, SetThread(s.(sessions := s.sessions[sid :=
        session.(scheduled := false, pending := None, running := session.pending)]), t, Loading(session.pending.value)), t)
  {
    var session := s.sessions[sid];
    var s' := SetThread(s.(sessions := s.sessions[sid :=
        session.(scheduled := false, pending := None, running := session.pending)]), t, Loading(session.pending.value));
    assert Waiting(s, session.pending.value);
    assert SettledBy(s', t) == Some(session.pending.value) && SettledBy(s, t) == None && UnknownBy(s', t) == None;
    assert forall x, j: JobId :: Holds(s', x, j) ==> Holds(s, x, j) || session.pending == Some(j);
    assert forall x, j: JobId :: Holds(s, x, j) ==> Holds(s', x, j) || s'.sessions[x].expired;
    hide SetThread, Settling, Holds;
  }

  lemma LoadDuties(s: State, t: ThreadId, ok: bool)
    requires Inv(s) && CanLoad(s, t, ok) && !Forgets(s, OfWorker(StepLoad(t, ok)))
    ensures Duties(s, Load(s, t, ok), t)
  {
    hide Inv, Duties, Owned;
    var j := s.threads[t].id;
    if !ok {
      MovesOn(s, t, Requeueing(j));
    } else if j in s.jobs {
      MovesOn(s, t, Loaded(j, s.jobs[j]));
    } else if s.native {
      MovesOn(s, t, Requeueing(j));
    } else {
      DutyDropped(s, t);
    }
  }

  lemma DutyDropped(s: State, t: ThreadId)
    requires SettledBy(s, t).Some? ==> !Owned(s, SettledBy(s, t).value)
    ensures Duties(s, EndThread(s, t), t)
  {
    hide Duties, Owned;
    assert SettledBy(s, t).Some? ==> !Owned(EndThread(s, t), SettledBy(s, t).value) by { SameOwner(s, EndThread(s, t)); }
    DutyEnds(s, EndThread(s, t), t);
  }

  lemma SameOwner(s: State, s': State)
    requires s'.sessions == s.sessions && s'.born == s.born
    ensures forall j :: Owned(s', j) <==> Owned(s, j)
  {
  }

  lemma RequeueDuties(s: State, t: ThreadId)
    requires Inv(s) && CanRequeue(s, t)
    ensures Duties(s, Requeue(s, t), t)
  {
    hide Tally;
    var s' := Requeue(s, t);
    DriverAlone(s, t, s.threads[t].id);
    assert forall d: JobId :: ByToken(s', d) <==> ByToken(s, d) || d == s.threads[t].id;
  }

  /** The goroutine moves on with the same duty. */
  lemma MovesOn(s: State, t: ThreadId, pc: Pc)
    requires t in s.threads && Settling(pc) == Settling(s.threads[t]) && Unknown(pc) in {None, Driven(s.threads[t])}
    ensures Duties(s, SetThread(s, t, pc), t)
  {
    hide Duties;
    Kept(s, SetThread(s, t, pc), t);
  }

  lemma StartsAs(s: State, t: ThreadId, ok: bool)
    requires CanStart(s, t, ok) && s.threads[t].seen.status.Queued? && ok
    requires OwnsAttempt(s, s.threads[t].id, s.threads[t].seen.birth) && HasStatus(s, s.threads[t].id, Queued)
    ensures Start(s, t, ok) == Started(s, t)
  {
    hide OwnsAttempt;
  }

  lemma DisownedDuties(s: State, t: ThreadId, ok: bool)
    requires t in s.threads && s.threads[t].Loaded?
    ensures Duties(s, Cancel(SetThread(s, t, Ending(s.threads[t].id, None)), s.threads[t].id, ok), t)
  {
    hide Duties, Cancel;
    var j := s.threads[t].id;
    var moved := SetThread(s, t, Ending(j, None));
    CancelFrame(moved, j, ok);
    Kept(s, Cancel(moved, j, ok), t);
  }

  lemma StartDuties(s: State, t: ThreadId, ok: bool)
    requires CanStart(s, t, ok)
    ensures Duties(s, Start(s, t, ok), t)
  {
    hide Duties, Cancel, Transition, OwnsAttempt;
    var j, seen := s.threads[t].id, s.threads[t].seen;
    if !seen.status.Queued? {
      MovesOn(s, t, Ending(j, if seen.status.Terminal() then Some(seen.status) else None));
    } else if !OwnsAttempt(s, j, seen.birth) {
      DisownedDuties(s, t, ok);
    } else if !ok {
      MovesOn(s, t, Requeueing(j));
    } else if !HasStatus(s, j, Queued) {
      MovesOn(s, t, Deactivating(j, None));
    } else {
      StartsAs(s, t, ok);
      Kept(s, Started(s, t), t);
    }
  }

  lemma FinishDuties(s: State, t: ThreadId, w: Write)
    requires CanFinish(s, t, w)
    ensures Duties(s, Finish(s, t, w), t)
  {
    hide Duties, Transition;
    var j, done := s.threads[t].id, s.threads[t].done;
    TransitionFrame(s, j, Running, done);
    if w.Lost? {
      Writes(s, s, t);
    } else if HasStatus(s, j, Running) {
      if w.Applied? {
        WritesOn(s, Transition(s, j, Running, done), t, Releasing(j, done));
      } else {
        Writes(s, Transition(s, j, Running, done), t);
      }
    } else if j in s.jobs && s.jobs[j].status.Terminal() {
      MovesOn(s, t, Releasing(j, done.(status := s.jobs[j].status, result := s.jobs[j].result)));
    } else {
      Writes(s, s, t);
    }
  }

  /** A record is rewritten and nobody moves. */
  lemma Writes(s: State, written: State, t: ThreadId)
    requires written == s.(jobs := written.jobs, queued := written.queued)
    ensures Duties(s, written, t)
  {
    hide Duties;
    Kept(s, written, t);
  }

  /** A record is rewritten and the goroutine moves on with the same duty. */
  lemma WritesOn(s: State, written: State, t: ThreadId, pc: Pc)
    requires written == s.(jobs := written.jobs, queued := written.queued, pins := written.pins)
    requires t in s.threads && Settling(pc) == Settling(s.threads[t]) && Unknown(pc) == None
    ensures Duties(s, SetThread(written, t, pc), t)
  {
    hide Duties;
    Kept(s, SetThread(written, t, pc), t);
  }

  lemma DeferDuties(s: State, t: ThreadId)
    requires Inv(s) && CanDefer(s, t)
    ensures Duties(s, Defer(s, t), t)
  {
    hide Inv;
    DriverAlone(s, t, s.threads[t].id);
    Parks(s, t, Completion(s.threads[t].id, Running, s.threads[t].done));
  }

  lemma Parks(s: State, t: ThreadId, entry: Completion)
    requires DrivesSlot(s, t, entry.id) && entry.id !in s.completions
    ensures Duties(s, Parked(s, t, entry), t)
  {
  }

  lemma AccountFrame(s: State, t: ThreadId, cached: bool, result: nat, w: Write)
    requires CanAccount(s, t, w)
    ensures var j, s' := s.threads[t].id, Account(s, t, cached, result, w);
      s'.queue == s.queue && s'.sessions == s.sessions && SameOff(s.threads, s'.threads, t) &&
      SettledBy(s', t) == SettledBy(s, t) == DrivenBy(s, t) == Some(j) && UnknownBy(s', t) == None &&
      SameOff(s.completions, s'.completions, j) && s.completions.Keys <= s'.completions.Keys
  {
    hide Transition;
    var j, job := s.threads[t].id, s.threads[t].job;
    var moved := SetThread(s, t, Deactivating(j, Some(Succeeded)));
    TransitionFrame(moved, j, Succeeded, job.(result := result));
    if !cached {
    } else if w.Lost? {
    } else if w.Applied? {
    } else {
    }
  }

  lemma TransitionFrame(s: State, j: JobId, expected: Status, next: Job)
    ensures var s' := Transition(s, j, expected, next);
      s'.queue == s.queue && s'.sessions == s.sessions && s'.threads == s.threads && s'.completions == s.completions &&
      s' == s.(jobs := s'.jobs, queued := s'.queued)
  {
    if HasStatus(s, j, expected) {
    } else {
    }
  }

  lemma AccountDuties(s: State, t: ThreadId, cached: bool, result: nat, w: Write)
    requires Inv(s) && CanAccount(s, t, w)
    ensures Duties(s, Account(s, t, cached, result, w), t)
  {
    hide Tally, Account;
    AccountFrame(s, t, cached, result, w);
    DriverAlone(s, t, s.threads[t].id);
    hide Inv;
  }

  lemma ReleaseSourceDuties(s: State, t: ThreadId)
    requires CanReleaseSource(s, t)
    ensures Duties(s, ReleaseSource(s, t), t)
  {
    hide Duties, Release;
    var pc := s.threads[t];
    if pc.job.status.Succeeded? {
      ReleasesOn(s, t, Accounting(pc.id, pc.job), pc.job.birth.snapshot);
    } else {
      ReleasesOn(s, t, Deactivating(pc.id, Some(pc.job.status)), pc.job.birth.snapshot);
    }
  }

  lemma ReleasesOn(s: State, t: ThreadId, pc: Pc, x: SnapshotId)
    requires t in s.threads && Settling(pc) == Settling(s.threads[t]) && Unknown(pc) == None
    ensures Duties(s, Release(SetThread(s, t, pc), x), t)
  {
    hide Duties, Release;
    ReleaseUntouched(SetThread(s, t, pc), x);
    Kept(s, Release(SetThread(s, t, pc), x), t);
  }

  lemma WorkerDuties(s: State, step: WorkerStep) returns (t: ThreadId)
    requires Inv(s) && WorkerEnabled(s, step) && !Forgets(s, OfWorker(step))
    ensures Duties(s, WorkerApply(s, step), t)
  {
    hide Inv, Duties, Receive, Take, Load, Requeue, Start, Finish, Defer, ReleaseSource, Account;
    match step
    case StepReceive(u) => t := u; ReceiveDuties(s, t);
    case StepTake(u) => t := u; TakeDuties(s, t);
    case StepLoad(u, ok) => t := u; LoadDuties(s, t, ok);
    case StepRequeue(u) => t := u; RequeueDuties(s, t);
    case StepStart(u, ok) => t := u; StartDuties(s, t, ok);
    case StepCompile(u, outcome, result) => t := u; Kept(s, Compile(s, t, outcome, result), t);
    case StepFinish(u, w) => t := u; FinishDuties(s, t, w);
    case StepDefer(u) => t := u; DeferDuties(s, t);
    case StepReleaseSource(u) => t := u; ReleaseSourceDuties(s, t);
    case StepAccount(u, cached, result, w) => t := u; AccountDuties(s, t, cached, result, w);
  }

  // ----- The tail and recovery -----

  lemma CheckDuties(s: State, t: ThreadId)
    requires CanCheck(s, t)
    ensures Duties(s, Check(s, t), t)
  {
    hide Tally, Duties;
    if s.threads[t].id in s.completions {
      EntryCovers(s, t, Gating(s.threads[t].id));
    } else {
      Kept(s, Check(s, t), t);
    }
  }

  /** The deferred completion keeps the duty that the goroutine lays down or takes up. */
  lemma EntryCovers(s: State, t: ThreadId, pc: Pc)
    requires Settling(pc).Some? ==> Settling(pc).value in s.completions && t == Recovery
    requires SettledBy(s, t).Some? ==> SettledBy(s, t).value in s.completions
    requires Unknown(pc) == None
    ensures Duties(s, SetThread(s, t, pc), t)
  {
    hide Tally;
  }

  /** The goroutine drops its duty toward a session that no longer waits for it. */
  lemma DutyEnds(s: State, s': State, t: ThreadId)
    requires SameOff(s.threads, s'.threads, t) && s'.completions == s.completions && s'.queue == s.queue
    requires s'.sessions == s.sessions && s'.born == s.born
    requires SettledBy(s', t) == None && UnknownBy(s', t) == None
    requires SettledBy(s, t).Some? ==> !Owned(s, SettledBy(s, t).value)
    ensures Duties(s, s', t)
  {
    hide Tally;
    assert forall j :: Owned(s', j) ==> Owned(s, j);
  }

  lemma ReloadDuties(s: State, t: ThreadId)
    requires Inv(s) && CanReload(s, t) && !Forgets(s, OfTail(StepReload(t)))
    ensures Duties(s, Reload(s, t), t)
  {
    hide Tally, Inv, Duties, Undriven;
    var j := s.threads[t].id;
    ClosingFacts(s, t);
    if j in s.jobs && s.jobs[j].status.Terminal() {
      MovesOn(s, t, Closing(j, Some(s.jobs[j].status)));
    } else {
      DutyEnds(s, SetThread(s, t, Gating(j)), t);
    }
  }

  predicate SlotKeptOrFreed(a: Session, b: Session, j: JobId) {
    b.expired == a.expired && (b.running == a.running || (a.running == Some(j) && b.running == None))
  }

  /** The goroutine gives its slot back, or finds that the session no longer waits for it. */
  lemma SlotGivenBack(s: State, s': State, t: ThreadId, j: JobId)
    requires SettledBy(s, t) == Some(j) && SettledBy(s', t) == None && UnknownBy(s', t) == None
    requires SameOff(s.threads, s'.threads, t) && s'.completions == s.completions && s'.born == s.born
    requires OnlyWoken(s.queue, s'.queue) && !Owned(s', j)
    requires forall sid :: sid in s'.sessions ==> sid in s.sessions && SlotKeptOrFreed(s.sessions[sid], s'.sessions[sid], j)
    ensures Duties(s, s', t)
  {
    hide Tally;
    WokenToken(s.queue, s'.queue);
  }

  lemma FreeSlotDuties(s: State, t: ThreadId)
    requires CanFreeSlot(s, t)
    ensures Duties(s, FreeSlot(s, t), t)
  {
    hide Duties, Schedule, Freed;
    var j, status := s.threads[t].id, s.threads[t].known.value;
    var moved := SetThread(s, t, Gating(j));
    var birth := s.born[j];
    if birth.session.None? || birth.session.value !in s.sessions ||
       s.sessions[birth.session.value].running != Some(j) {
      SlotGivenBack(s, moved, t, j);
    } else {
      var sid := birth.session.value;
      FreedSession(s.sessions[sid], j, status, birth.revision);
      GivesBack(s, t, sid, Freed(s.sessions[sid], j, status, birth.revision));
    }
  }

  lemma FreedSession(session: Session, j: JobId, status: Status, revision: nat)
    ensures Freed(session, j, status, revision).running == None
    ensures Freed(session, j, status, revision).expired == session.expired
  {
  }

  lemma GivesBack(s: State, t: ThreadId, sid: SessionId, session': Session)
    requires t in s.threads && s.threads[t].Closing? && s.threads[t].id in s.born
    requires s.born[s.threads[t].id].session == Some(sid) && sid in s.sessions
    requires s.sessions[sid].running == Some(s.threads[t].id)
    requires session'.running == None && session'.expired == s.sessions[sid].expired
    ensures Duties(s, Schedule(SetThread(s, t, Gating(s.threads[t].id)).(sessions := s.sessions[sid := session']), sid), t)
  {
    hide Duties, Schedule;
    var freed := SetThread(s, t, Gating(s.threads[t].id)).(sessions := s.sessions[sid := session']);
    ScheduleKept(freed, sid);
    ScheduleBorn(freed, sid);
    SlotGivenBack(s, Schedule(freed, sid), t, s.threads[t].id);
  }

  lemma ScheduleBorn(s: State, sid: SessionId)
    ensures Schedule(s, sid).born == s.born && Schedule(s, sid).sessions.Keys == s.sessions.Keys
    ensures forall x :: x in s.sessions ==> Schedule(s, sid).sessions[x] == s.sessions[x].(scheduled := Schedule(s, sid).sessions[x].scheduled)
  {
    if Schedulable(s, sid) {
    } else {
    }
  }

  lemma EndGateDuties(s: State, t: ThreadId)
    requires CanEndGate(s, t)
    ensures Duties(s, EndGate(s, t), t)
  {
    hide Duties, CloseGate;
    var ended := EndThread(s, t);
    CloseGateFrame(ended, s.threads[t].id);
    GateDuties(s, ended, CloseGate(ended, s.threads[t].id), t);
  }

  lemma GateDuties(s: State, ended: State, s': State, t: ThreadId)
    requires SettledBy(s, t) == None && ended == EndThread(s, t) && s' == ended.(gates := s'.gates, version := s'.version)
    ensures Duties(s, s', t)
  {
    hide Duties;
    Kept(s, s', t);
  }

  lemma RetryDuties(s: State, j: JobId, w: Write)
    requires CanRetry(s, j, w)
    ensures Duties(s, Retry(s, j, w), Recovery)
  {
    hide Duties, Transition;
    var entry := s.completions[j];
    var written := Transition(s, j, entry.from, entry.job);
    TransitionFrame(s, j, entry.from, entry.job);
    if w.Lost? {
      Kept(s, s, Recovery);
    } else if HasStatus(s, j, entry.from) {
      if w.Applied? {
        EntryCovers(s, Recovery, Confirmed(j, entry, entry.job.status));
        DutiesWritten(s, written, Confirmed(j, entry, entry.job.status));
      } else {
        Kept(s, written, Recovery);
      }
    } else if j in s.jobs && s.jobs[j].status.Terminal() {
      EntryCovers(s, Recovery, Confirmed(j, entry, s.jobs[j].status));
    } else {
      Kept(s, s, Recovery);
    }
  }

  lemma DutiesWritten(s: State, written: State, pc: Pc)
    requires Duties(s, SetThread(s, Recovery, pc), Recovery) && written == s.(jobs := written.jobs, queued := written.queued)
    ensures Duties(s, SetThread(written, Recovery, pc), Recovery)
  {
    hide Tally;
    var s1, s2 := SetThread(s, Recovery, pc), SetThread(written, Recovery, pc);
    assert forall j :: (ByToken(s1, j) <==> ByToken(s2, j)) && (ByEntry(s1, j) <==> ByEntry(s2, j));
    assert forall j: JobId :: Owned(s1, j) <==> Owned(s2, j);
    assert forall sid, j: JobId :: Holds(s1, sid, j) <==> Holds(s2, sid, j);
  }

  lemma UnpinDuties(s: State)
    requires CanUnpin(s)
    ensures Duties(s, Unpin(s), Recovery)
  {
    hide Release, Duties;
    var pc := s.threads[Recovery];
    var moved := SetThread(s, Recovery, Ending(pc.id, Some(pc.status)));
    Kept(s, moved, Recovery);
    if pc.entry.from.Running? {
      ReleaseUntouched(moved, pc.entry.job.birth.snapshot);
      Kept(s, Unpin(s), Recovery);
    } else {
    }
  }

  lemma TailDuties(s: State, step: TailStep) returns (t: ThreadId)
    requires Inv(s) && TailEnabled(s, step) && !Forgets(s, OfTail(step))
    ensures Duties(s, TailApply(s, step), t)
  {
    hide Inv, Duties, Check, Reload, FreeSlot, EndGate, Retry, Unpin;
    match step
    case StepDeactivate(u) => t := u; Kept(s, Deactivate(s, t), t);
    case StepCheck(u) => t := u; CheckDuties(s, t);
    case StepReload(u) => t := u; ReloadDuties(s, t);
    case StepFreeSlot(u) => t := u; FreeSlotDuties(s, t);
    case StepEndGate(u) => t := u; EndGateDuties(s, t);
    case StepRetry(j, w) => t := Recovery; RetryDuties(s, j, w);
    case StepDrop => t := Recovery; DropDuties(s);
    case StepUnpin => t := Recovery; UnpinDuties(s);
    case StepForget(j) => t := Recovery; Kept(s, Forget(s, j), t);
  }

  lemma DropDuties(s: State)
    requires CanDrop(s)
    ensures Duties(s, Drop(s), Recovery)
  {
    hide Tally;
  }

  lemma StepDuties(s: State, step: Step) returns (t: ThreadId)
    requires Inv(s) && Enabled(s, step) && !Forgets(s, step)
    ensures Duties(s, Apply(s, step), t)
  {
    hide Inv, Duties, ClientApply, SessionApply, WorkerApply, TailApply;
    SessionsSpent(s);
    match step
    case OfClient(x) => t := ClientDuties(s, x);
    case OfSession(x) => t := Recovery; SessionDuties(s, x);
    case OfWorker(x) => t := WorkerDuties(s, x);
    case OfTail(x) => t := TailDuties(s, x);
  }

  // ----- When a slot is lost -----

  /** The forgetting step leaves nobody to settle an attempt that its session still waits for. */
  lemma ForgottenByLoad(s: State, t: ThreadId)
    requires Inv(s) && CanLoad(s, t, true) && Forgets(s, OfWorker(StepLoad(t, true)))
    ensures !SlotsHeld(Load(s, t, true))
  {
    hide Tally;
    var j := s.threads[t].id;
    var s' := Load(s, t, true);
    DriverAlone(s, t, j);
    TokenAbsent(j, s.queue);
    hide Inv;
    forall u ensures !ByThread(s', u, j) {
      assert ByThread(s', u, j) ==> Subject(s.threads[u]) == Some(j);
    }
    assert Holds(s', s.born[j].session.value, j) && !Responsible(s', j);
  }

  lemma ForgottenByReload(s: State, t: ThreadId)
    requires Lone(s) && CanReload(s, t) && Forgets(s, OfTail(StepReload(t)))
    ensures !SlotsHeld(Reload(s, t))
  {
    hide Tally;
    var j := s.threads[t].id;
    var s' := Reload(s, t);
    assert UnknownBy(s, t) == Some(j);
    forall u ensures !ByThread(s', u, j) {
      assert ByThread(s, u, j) ==> u == t;
    }
    assert Holds(s', s.born[j].session.value, j) && !Responsible(s', j);
  }

  /** A step keeps every slot in somebody's care exactly when it is not the forgetting one. */
  lemma SlotStep(s: State, step: Step)
    requires Inv(s) && SlotsHeld(s) && Lone(s) && Enabled(s, step) && Inv(Apply(s, step))
    ensures SlotsHeld(Apply(s, step)) <==> !Forgets(s, step)
    ensures !Forgets(s, step) ==> Lone(Apply(s, step))
  {
    var s' := Apply(s, step);
    if Forgets(s, step) {
      hide Inv, SlotsHeld, Lone;
      match step
      case OfWorker(StepLoad(t, ok)) => ForgottenByLoad(s, t);
      case OfTail(StepReload(t)) => ForgottenByReload(s, t);
      case _ =>
    } else {
      StepEvolves(s, step);
      hide Inv, SlotsHeld, Lone, Apply, Enabled;
      var t := StepDuties(s, step);
      HandsKeep(s, s', t);
      LoneKeeps(s, s', t);
    }
  }

  lemma SettlerGone(s: State, s': State, t: ThreadId)
    requires OneSettler(s) && SameOff(s.threads, s'.threads, t) && SettledBy(s', t) == None
    ensures OneSettler(s')
  {
    hide OneSettler, SettledBy;
    forall u, v, j: JobId | ByThread(s', v, j) && ByThread(s', u, j) && v != u ensures v == Recovery || u == Recovery {
      SameSettler(s, s', t, u);
      SameSettler(s, s', t, v);
      OnlySettler(s, u, v, j);
    }
    SettlerAll(s');
  }

  lemma SettlerStep(s: State, step: Step)
    requires Inv(s) && OneSettler(s) && Enabled(s, step)
    ensures OneSettler(Apply(s, step))
  {
    hide Inv, OneSettler;
    if Forgets(s, step) {
      match step
      case OfWorker(StepLoad(t, ok)) => SettlerGone(s, Load(s, t, ok), t);
      case OfTail(StepReload(t)) => SettlerGone(s, Reload(s, t), t);
      case _ =>
    } else {
      hide Apply, Enabled, Hands, NoNewParty, LosesSight;
      var t := StepDuties(s, step);
      SettlerKeeps(s, Apply(s, step), t);
    }
  }

  // ----- A lost slot stays lost -----

  ghost predicate LostSlot(s: State, sid: SessionId, j: JobId) { Holds(s, sid, j) && !Responsible(s, j) }

  lemma RunningNotWaiting(s: State, sid: SessionId, j: JobId)
    requires Inv(s) && Holds(s, sid, j)
    ensures j in s.born && s.born[j].session == Some(sid) && !Waiting(s, j)
  {
    hide Tally;
    assert SessionOk(s, sid);
    forall sid' | sid' in s.sessions ensures s.sessions[sid'].pending != Some(j) {
      assert SessionOk(s, sid');
    }
  }

  /** Once nobody is responsible for a session's running attempt, only closing or expiry ends the wait. */
  lemma LostForever(s: State, step: Step, sid: SessionId, j: JobId)
    requires Inv(s) && Enabled(s, step) && LostSlot(s, sid, j)
    ensures var s' := Apply(s, step); sid !in s'.sessions || s'.sessions[sid].expired || LostSlot(s', sid, j)
  {
    hide Inv, LostSlot, Duties;
    if Forgets(s, step) {
      match step
      case OfWorker(StepLoad(t, ok)) => LosesElsewhere(s, Load(s, t, ok), t, sid, j);
      case OfTail(StepReload(t)) => LosesElsewhere(s, Reload(s, t), t, sid, j);
      case _ =>
    } else {
      hide Apply, Enabled;
      LostMeans(s, sid, j);
      RunningNotWaiting(s, sid, j);
      var t := StepDuties(s, step);
      LostKept(s, Apply(s, step), t, sid, j);
    }
  }

  lemma LostMeans(s: State, sid: SessionId, j: JobId)
    requires LostSlot(s, sid, j)
    ensures Holds(s, sid, j)
  {
  }

  lemma LostKept(s: State, s': State, t: ThreadId, sid: SessionId, j: JobId)
    requires LostSlot(s, sid, j) && Duties(s, s', t) && j in s.born && !Waiting(s, j)
    ensures sid !in s'.sessions || s'.sessions[sid].expired || LostSlot(s', sid, j)
  {
    assert forall u :: ByThread(s', u, j) ==> u == t || ByThread(s, u, j);
  }

  lemma LosesElsewhere(s: State, s': State, t: ThreadId, sid: SessionId, j: JobId)
    requires LostSlot(s, sid, j) && SameOff(s.threads, s'.threads, t) && SettledBy(s', t) == None
    requires s'.sessions == s.sessions && s'.queue == s.queue && s'.completions == s.completions
    ensures LostSlot(s', sid, j)
  {
    assert forall u :: ByThread(s', u, j) ==> ByThread(s, u, j);
  }
}
