/**
 Admission control: which steps admit jobs, how the number of queued jobs is
 bounded, and how a session's pipeline moves.
 */
module JobAdmission {
  import opened Options
  import opened Counting
  import opened JobState
  import opened JobSteps
  import opened JobInvariant
  import opened JobMoves
  import opened JobEvolution
  import opened JobResponsibility

  /** A session outside SubmitRevision: pending may start or be dropped, the running job may succeed or end. */
  predicate SessionAdvances(a: Session, b: Session) {
    && b.revision == a.revision && a.lastRevision <= b.lastRevision && (a.expired ==> b.expired)
    && (b.pending == a.pending || b.pending == None)
    && (b.running == a.running || b.running == None || (a.running == None && b.running == a.pending && b.pending == None))
    && (if b.lastSuccess == a.lastSuccess then b.lastRevision == a.lastRevision || (a.running == b.lastSuccess && b.running == None)
        else b.lastSuccess.Some? && b.lastSuccess == a.running && b.running == None)
  }

  predicate SessionsAdvance(s: State, s': State) {
    forall sid :: sid in s'.sessions ==>
      if sid in s.sessions then SessionAdvances(s.sessions[sid], s'.sessions[sid]) else sid !in s.spent
  }

  /** The attempt and the last success of a session stay; a session that was just opened has neither. */
  predicate SlotKept(a: Session, b: Session) {
    b.running == a.running && b.lastSuccess == a.lastSuccess && (a.expired ==> b.expired)
  }

  predicate SlotsKept(s: State, s': State) {
    forall sid :: sid in s'.sessions ==>
      if sid in s.sessions then SlotKept(s.sessions[sid], s'.sessions[sid])
      else s'.sessions[sid].running.None? && s'.sessions[sid].lastSuccess.None?
  }

  /** A step outside the admission path. */
  ghost predicate Calm(s: State, s': State) {
    s'.limit == s.limit && s'.native == s.native && s'.admission == s.admission && s'.born == s.born &&
    s.spent <= s'.spent && SessionsAdvance(s, s') && (!s.admission.Free? ==> s'.sessions == s.sessions)
  }

  /** Nothing but records, pins, gates, threads, channel and completions changed. */
  predicate Bystanding(s: State, s': State) {
    s'.limit == s.limit && s'.native == s.native && s'.admission == s.admission && s'.born == s.born &&
    s'.spent == s.spent && s'.sessions == s.sessions
  }

  lemma CancelBystands(s: State, j: JobId, ok: bool)
    ensures Bystanding(s, Cancel(s, j, ok))
  {
    if !ok || !HasStatus(s, j, Queued) {
    } else {
      var s1 := Transition(s, j, Queued, Cancelling(s.jobs[j]));
      ReleaseBystands(s1, s.jobs[j].birth.snapshot);
      CloseGateBystands(Release(s1, s.jobs[j].birth.snapshot), j);
    }
  }

  lemma ReleaseBystands(s: State, x: SnapshotId)
    ensures Bystanding(s, Release(s, x))
  {
    if x !in s.pins {
    } else if s.pins[x] <= 1 {
    } else {
    }
  }

  lemma CloseGateBystands(s: State, j: JobId)
    ensures Bystanding(s, CloseGate(s, j))
  {
    if j in s.completions || j !in s.gates {
    } else {
    }
  }

  lemma TransitionBystands(s: State, j: JobId, expected: Status, next: Job)
    ensures Bystanding(s, Transition(s, j, expected, next))
  {
    if HasStatus(s, j, expected) {
    } else {
    }
  }

  lemma ScheduleBystands(s: State, sid: SessionId)
    ensures var s' := Schedule(s, sid);
      Bystanding(s, s'.(sessions := s.sessions)) && s'.sessions.Keys == s.sessions.Keys &&
      forall x :: x in s.sessions ==> s'.sessions[x] == s.sessions[x].(scheduled := s'.sessions[x].scheduled)
  {
    if Schedulable(s, sid) {
    } else {
    }
  }

  // ----- Clients, workers and the tail never touch the admission lock holder -----

  predicate Admits(step: Step) {
    (step.OfClient? && step.stepClient.StepAdmit?) ||
    (step.OfSession? && !step.stepSession.StepOpen? && !step.stepSession.StepExpire? &&
     !step.stepSession.StepReschedule? && !step.stepSession.StepClose?)
  }

  lemma ClientCalm(s: State, step: ClientStep)
    requires ClientEnabled(s, step) && !step.StepAdmit?
    ensures Bystanding(s, ClientApply(s, step))
  {
    hide Release, Cancel, Transition;
    match step
    case StepPinSource(t, x) =>
    case StepReject(t) => ReleaseBystands(EndThread(s, t), s.threads[t].snapshot);
    case StepWithdraw(t, ok) => CancelBystands(EndThread(s, t), s.threads[t].id, ok);
    case StepUserCancel(j) =>
      CancelBystands(s, j, true);
      TransitionBystands(s, j, Running, Cancelling(s.jobs[j]));
    case StepSweep(swept) =>
  }

  lemma SessionCalm(s: State, step: SessionStep)
    requires SessionEnabled(s, step) && !Admits(OfSession(step)) && s.sessions.Keys <= s.spent
    ensures Calm(s, SessionApply(s, step))
  {
    hide Schedule, Close;
    match step
    case StepOpen(sid) =>
    case StepExpire(sid) =>
    case StepReschedule(sid) => ScheduleBystands(s, sid);
    case StepClose(sid, okPending, okRunning) => CloseCalm(s, sid, okPending, okRunning);
  }

  lemma CloseCalm(s: State, sid: SessionId, okPending: bool, okRunning: bool)
    requires CanClose(s, sid, okPending, okRunning)
    ensures Calm(s, Close(s, sid, okPending, okRunning))
  {
    hide Cancel, Release, Transition, Calm;
    var s1 := CancelPending(s, sid);
    if s.sessions[sid].pending.Some? {
      CancelBystands(s, s.sessions[sid].pending.value, true);
    } else {
    }
    var running := s.sessions[sid].running;
    if running.Some? && Interruptible(s, running.value) && !okRunning {
      BystandingCalm(s, s1);
    } else {
      var s2 := CancelRunning(s1, sid);
      if running.Some? && Interruptible(s1, running.value) && HasStatus(s1, running.value, Running) {
        TransitionBystands(s1, running.value, Running, Cancelling(s1.jobs[running.value]));
      } else {
      }
      RemoveCalm(s, s2, sid);
    }
  }

  lemma BystandingCalm(s: State, s': State)
    requires Bystanding(s, s')
    ensures Calm(s, s')
  {
  }

  lemma RemoveCalm(s: State, s2: State, sid: SessionId)
    requires Bystanding(s, s2) && sid in s.sessions && s.admission.Free?
    ensures Calm(s, Remove(s2, sid))
  {
    hide Release;
    if s2.sessions[sid].snapshot.Some? {
      ReleaseBystands(s2.(sessions := s2.sessions - {sid}), s2.sessions[sid].snapshot.value);
    } else {
    }
  }

  /** One session moves while nobody holds the admission lock. */
  lemma OneSessionCalm(s: State, s': State, sid: SessionId)
    requires s'.limit == s.limit && s'.native == s.native && s'.admission == s.admission && s'.born == s.born && s'.spent == s.spent
    requires s.admission.Free? && sid in s.sessions && sid in s'.sessions && s'.sessions == s.sessions[sid := s'.sessions[sid]]
    requires SessionAdvances(s.sessions[sid], s'.sessions[sid])
    ensures Calm(s, s')
  {
    hide SessionAdvances;
    SameAdvances(s, s', sid);
  }

  lemma SameAdvances(s: State, s': State, sid: SessionId)
    requires sid in s.sessions && sid in s'.sessions && s'.sessions == s.sessions[sid := s'.sessions[sid]]
    ensures forall x :: x in s.sessions && x != sid ==> x in s'.sessions && SessionAdvances(s.sessions[x], s'.sessions[x])
  {
  }

  lemma TakeCalm(s: State, t: ThreadId)
    requires CanTake(s, t)
    ensures Calm(s, Take(s, t))
  {
    hide Calm;
    var sid := s.threads[t].session;
    if sid !in s.sessions {
      BystandingCalm(s, Take(s, t));
    } else {
      var session := s.sessions[sid];
      if session.running.Some? || session.pending.None? {
        SessionAndThread(s, sid, session.(scheduled := false), s.threads - {t});
      } else {
        SessionAndThread(s, sid, session.(scheduled := false, pending := None, running := session.pending),
                         s.threads[t := Loading(session.pending.value)]);
      }
    }
  }

  lemma SessionAndThread(s: State, sid: SessionId, session': Session, threads': map<ThreadId, Pc>)
    requires s.admission.Free? && sid in s.sessions && SessionAdvances(s.sessions[sid], session')
    ensures Calm(s, s.(sessions := s.sessions[sid := session'], threads := threads'))
  {
    hide Calm, SessionAdvances;
    OneSessionCalm(s, s.(sessions := s.sessions[sid := session'], threads := threads'), sid);
  }

  lemma StartBystands(s: State, t: ThreadId, ok: bool)
    requires CanStart(s, t, ok)
    ensures Bystanding(s, Start(s, t, ok))
  {
    hide Cancel, Transition, OwnsAttempt;
    var j, seen := s.threads[t].id, s.threads[t].seen;
    if !seen.status.Queued? {
    } else if !OwnsAttempt(s, j, seen.birth) {
      CancelBystands(SetThread(s, t, Ending(j, None)), j, ok);
    } else if !ok {
    } else if !HasStatus(s, j, Queued) {
    } else {
      StartsAs(s, t, ok);
    }
  }

  lemma FinishBystands(s: State, t: ThreadId, w: Write)
    requires CanFinish(s, t, w)
    ensures Bystanding(s, Finish(s, t, w))
  {
    hide Transition;
    var j, done := s.threads[t].id, s.threads[t].done;
    TransitionBystands(s, j, Running, done);
    if w.Lost? {
    } else if HasStatus(s, j, Running) {
      if w.Applied? {
      } else {
      }
    } else if j in s.jobs && s.jobs[j].status.Terminal() {
    } else {
    }
  }

  lemma AccountBystands(s: State, t: ThreadId, cached: bool, result: nat, w: Write)
    requires CanAccount(s, t, w)
    ensures Bystanding(s, Account(s, t, cached, result, w))
  {
    hide Transition;
    var j, job := s.threads[t].id, s.threads[t].job;
    TransitionBystands(SetThread(s, t, Deactivating(j, Some(Succeeded))), j, Succeeded, job.(result := result));
    if !cached {
    } else if w.Lost? {
    } else if w.Applied? {
    } else {
    }
  }

  lemma LoadBystands(s: State, t: ThreadId, ok: bool)
    requires CanLoad(s, t, ok)
    ensures Bystanding(s, Load(s, t, ok))
  {
    if !ok {
    } else if s.threads[t].id in s.jobs {
    } else if s.native {
    } else {
    }
  }

  lemma ReleaseSourceBystands(s: State, t: ThreadId)
    requires CanReleaseSource(s, t)
    ensures Bystanding(s, ReleaseSource(s, t))
  {
    hide Release;
    var pc := s.threads[t];
    if pc.job.status.Succeeded? {
      ReleaseBystands(SetThread(s, t, Accounting(pc.id, pc.job)), pc.job.birth.snapshot);
    } else {
      ReleaseBystands(SetThread(s, t, Deactivating(pc.id, Some(pc.job.status))), pc.job.birth.snapshot);
    }
  }

  lemma WorkerBystands(s: State, step: WorkerStep)
    requires WorkerEnabled(s, step) && !step.StepTake?
    ensures Bystanding(s, WorkerApply(s, step))
  {
    hide Take, Load, Start, Finish, ReleaseSource, Account;
    match step
    case StepReceive(t) =>
    case StepLoad(t, ok) => LoadBystands(s, t, ok);
    case StepRequeue(t) =>
    case StepStart(t, ok) => StartBystands(s, t, ok);
    case StepCompile(t, outcome, result) =>
    case StepFinish(t, w) => FinishBystands(s, t, w);
    case StepDefer(t) =>
    case StepReleaseSource(t) => ReleaseSourceBystands(s, t);
    case StepAccount(t, cached, result, w) => AccountBystands(s, t, cached, result, w);
  }

  lemma WorkerCalm(s: State, step: WorkerStep)
    requires WorkerEnabled(s, step)
    ensures Calm(s, WorkerApply(s, step))
  {
    hide Calm, Bystanding, Take;
    if step.StepTake? {
      TakeCalm(s, step.t);
    } else {
      WorkerBystands(s, step);
      hide WorkerApply;
      BystandingCalm(s, WorkerApply(s, step));
    }
  }

  lemma FreeSlotCalm(s: State, t: ThreadId)
    requires Inv(s) && CanFreeSlot(s, t)
    ensures Calm(s, FreeSlot(s, t))
  {
    hide Tally, Inv, Calm, Schedule, Freed;
    var j, status := s.threads[t].id, s.threads[t].known.value;
    var moved := SetThread(s, t, Gating(j));
    var birth := s.born[j];
    if birth.session.None? || birth.session.value !in s.sessions ||
       s.sessions[birth.session.value].running != Some(j) {
      BystandingCalm(s, moved);
    } else {
      var sid := birth.session.value;
      var freed := moved.(sessions := s.sessions[sid := Freed(s.sessions[sid], j, status, birth.revision)]);
      FreedAdvances(s, t, sid);
      OneSessionCalm(s, freed, sid);
      ScheduleCalm(s, freed, sid);
    }
  }

  lemma FreedAdvances(s: State, t: ThreadId, sid: SessionId)
    requires Inv(s) && CanFreeSlot(s, t) && sid in s.sessions && s.sessions[sid].running == Some(s.threads[t].id)
    ensures var freed := Freed(s.sessions[sid], s.threads[t].id, s.threads[t].known.value, s.born[s.threads[t].id].revision);
      SessionAdvances(s.sessions[sid], freed)
  {
    hide Tally;
    assert SessionOk(s, sid);
    hide Inv;
    if s.threads[t].known.value.Succeeded? {
    } else {
    }
  }

  lemma ScheduleCalm(s: State, freed: State, sid: SessionId)
    requires Calm(s, freed) && freed.admission.Free?
    ensures Calm(s, Schedule(freed, sid))
  {
    hide Schedule;
    ScheduleBystands(freed, sid);
    ScheduleUntouched(freed, sid);
  }

  lemma RetryBystands(s: State, j: JobId, w: Write)
    requires CanRetry(s, j, w)
    ensures Bystanding(s, Retry(s, j, w))
  {
    hide Transition;
    var entry := s.completions[j];
    TransitionBystands(s, j, entry.from, entry.job);
    if w.Lost? {
    } else if HasStatus(s, j, entry.from) {
      if w.Applied? {
      } else {
      }
    } else if j in s.jobs && s.jobs[j].status.Terminal() {
    } else {
    }
  }

  lemma UnpinBystands(s: State)
    requires CanUnpin(s)
    ensures Bystanding(s, Unpin(s))
  {
    hide Release;
    var pc := s.threads[Recovery];
    var moved := SetThread(s, Recovery, Ending(pc.id, Some(pc.status)));
    if pc.entry.from.Running? {
      ReleaseBystands(moved, pc.entry.job.birth.snapshot);
    } else {
    }
  }

  lemma TailBystands(s: State, step: TailStep)
    requires TailEnabled(s, step) && !step.StepFreeSlot?
    ensures Bystanding(s, TailApply(s, step))
  {
    hide FreeSlot, CloseGate, Retry, Unpin;
    match step
    case StepDeactivate(t) =>
    case StepCheck(t) =>
    case StepReload(t) =>
    case StepEndGate(t) => CloseGateBystands(EndThread(s, t), s.threads[t].id);
    case StepRetry(j, w) => RetryBystands(s, j, w);
    case StepDrop =>
    case StepUnpin => UnpinBystands(s);
    case StepForget(j) =>
  }

  lemma TailCalm(s: State, step: TailStep)
    requires Inv(s) && TailEnabled(s, step)
    ensures Calm(s, TailApply(s, step))
  {
    hide Inv, Calm, Bystanding, FreeSlot;
    if step.StepFreeSlot? {
      FreeSlotCalm(s, step.t);
    } else {
      TailBystands(s, step);
      hide TailApply;
      BystandingCalm(s, TailApply(s, step));
    }
  }

  lemma StepCalm(s: State, step: Step)
    requires Inv(s) && Enabled(s, step) && !Admits(step)
    ensures Calm(s, Apply(s, step))
  {
    SessionsSpent(s);
    hide Inv, Calm, ClientApply, SessionApply, WorkerApply, TailApply;
    match step
    case OfClient(x) => ClientCalm(s, x); BystandingCalm(s, ClientApply(s, x));
    case OfSession(x) => SessionCalm(s, x);
    case OfWorker(x) => WorkerCalm(s, x);
    case OfTail(x) => TailCalm(s, x);
  }

  // ----- The bound on queued jobs -----

  ghost function QueuedSet(s: State): set<JobId> { set j | j in s.jobs && s.jobs[j].status.Queued? }

  /** The native counter is the number of records with status queued. */
  lemma QueueCounter(s: State)
    requires Inv(s)
    ensures s.queued == |QueuedSet(s)|
  {
    var m := QueuedJobs;
    assert Tally(s, m) == s.queued;
    NoTokens(m, s.queue);
    CountSet(s.jobs, JobTest(m), QueuedSet(s));
    CountSet(s.threads, ThreadTest(m), {});
    CountSet(s.completions, CompletionTest(m), {});
    CountSet(s.sessions, SessionTest(m), {});
  }

  function Replaceable(s: State, sid: SessionId): set<JobId> {
    if sid in s.sessions && s.sessions[sid].pending.Some? then {s.sessions[sid].pending.value} else {}
  }

  /** Within the limit, not counting the one job that the lock holder is about to replace or withdraw. */
  ghost predicate Bounded(s: State) {
    match s.admission
    case Saved(sid, _, _) => |QueuedSet(s) - Replaceable(s, sid)| <= s.limit
    case Aborting(j) => |QueuedSet(s) - {j}| <= s.limit
    case _ => |QueuedSet(s)| <= s.limit
  }

  /** The replacement stays queued although the queue is already longer than the limit. */
  predicate Exceeds(s: State, step: Step) {
    step == OfSession(StepAbort(false)) && s.queued > s.limit
  }

  lemma Without(a: set<JobId>, x: JobId)
    ensures |a - {x}| == |a| - (if x in a then 1 else 0)
  {
    if x in a {
      assert a == (a - {x}) + {x};
    } else {
      assert a - {x} == a;
    }
  }

  lemma CancelQueued(s: State, j: JobId, ok: bool)
    ensures QueuedSet(Cancel(s, j, ok)) == if ok then QueuedSet(s) - {j} else QueuedSet(s)
  {
    if !ok || !HasStatus(s, j, Queued) {
    } else {
      var s1 := Transition(s, j, Queued, Cancelling(s.jobs[j]));
      var x := s.jobs[j].birth.snapshot;
      ReleaseUntouched(s1, x);
      hide Release;
      if j in Release(s1, x).completions || j !in Release(s1, x).gates {
      } else {
      }
    }
  }

  lemma CalmQueued(s: State, s': State)
    requires Inv(s) && Inv(s') && Evolves(s, s') && s'.born == s.born
    ensures QueuedSet(s') <= QueuedSet(s)
  {
    hide Inv, Evolves, JobEvolves;
    Recorded(s');
    forall j | j in QueuedSet(s') ensures j in QueuedSet(s) { StillQueued(s, s', j); }
  }

  lemma StillQueued(s: State, s': State, j: JobId)
    requires Evolves(s, s') && s'.born == s.born && j in s.born && HasStatus(s', j, Queued)
    ensures HasStatus(s, j, Queued)
  {
    assert JobEvolves(s, s', j);
  }

  lemma CalmBounded(s: State, s': State)
    requires Inv(s) && Inv(s') && Evolves(s, s') && Calm(s, s') && Bounded(s)
    ensures Bounded(s')
  {
    CalmQueued(s, s');
    hide Inv, Evolves, QueuedSet, SessionsAdvance;
    BoundedShrinks(s, s');
  }

  lemma BoundedShrinks(s: State, s': State)
    requires Bounded(s) && QueuedSet(s') <= QueuedSet(s)
    requires s'.admission == s.admission && s'.limit == s.limit && (!s.admission.Free? ==> s'.sessions == s.sessions)
    ensures Bounded(s')
  {
    hide QueuedSet;
    match s.admission
    case Saved(sid, _, _) =>
      SubsetSize(QueuedSet(s') - Replaceable(s', sid), QueuedSet(s) - Replaceable(s, sid));
    case Aborting(j) => SubsetSize(QueuedSet(s') - {j}, QueuedSet(s) - {j});
    case Free => SubsetSize(QueuedSet(s'), QueuedSet(s));
    case Prepared(_, _) => SubsetSize(QueuedSet(s'), QueuedSet(s));
    case Replaced(_, _, _) => SubsetSize(QueuedSet(s'), QueuedSet(s));
  }

  lemma SavedQueued(s: State, s': State, j: JobId, birth: Birth)
    requires s'.jobs == s.jobs[j := Job(birth, Queued, 0)] && j !in s.jobs
    ensures QueuedSet(s') == QueuedSet(s) + {j} && j !in QueuedSet(s) && |QueuedSet(s')| == |QueuedSet(s)| + 1
  {
    assert QueuedSet(s') == QueuedSet(s) + {j};
  }

  lemma AdmitOutcome(s: State, t: ThreadId, j: JobId, ok: bool)
    requires CanAdmit(s, t, j, ok)
    ensures var s' := Admit(s, t, j, ok);
      s'.admission.Free? && s'.limit == s.limit && s'.spent == s.spent &&
      (s'.jobs == s.jobs ||
       (PendingCount(s) < s.limit && s'.jobs == s.jobs[j := Job(Birth(s.threads[t].snapshot, None, 0), Queued, 0)]))
  {
    if PendingCount(s) >= s.limit || !ok {
    } else if HasRoom(s) {
    } else {
    }
  }

  lemma AdmitBounded(s: State, t: ThreadId, j: JobId, ok: bool)
    requires Inv(s) && CanAdmit(s, t, j, ok) && Bounded(s)
    ensures Bounded(Admit(s, t, j, ok))
  {
    QueueCounter(s);
    Recorded(s);
    AdmitOutcome(s, t, j, ok);
    hide Inv, QueuedSet, Admit;
    var s' := Admit(s, t, j, ok);
    if s'.jobs == s.jobs {
      SameQueued(s, s');
    } else {
      SavedQueued(s, s', j, Birth(s.threads[t].snapshot, None, 0));
    }
  }

  lemma SameQueued(s: State, s': State)
    requires s'.jobs == s.jobs
    ensures QueuedSet(s') == QueuedSet(s)
  {
  }

  lemma SaveRevisionOutcome(s: State, j: JobId)
    requires CanSaveRevision(s, j)
    ensures var sid, s' := s.admission.session, SaveRevision(s, j);
      s'.sessions == s.sessions && s'.limit == s.limit && s'.admission == Saved(sid, s.admission.snapshot, j) &&
      s'.jobs == s.jobs[j := Job(Birth(s.admission.snapshot, Some(sid), s.sessions[sid].revision + 1), Queued, 0)]
  {
  }

  lemma SaveRevisionBounded(s: State, j: JobId)
    requires Inv(s) && CanSaveRevision(s, j) && Bounded(s)
    ensures Bounded(SaveRevision(s, j))
  {
    hide Inv, SaveRevision, Bounded, QueuedSet;
    QueueCounter(s);
    Recorded(s);
    SaveRevisionOutcome(s, j);
    var sid := s.admission.session;
    SavedQueued(s, SaveRevision(s, j), j, Birth(s.admission.snapshot, Some(sid), s.sessions[sid].revision + 1));
    RevisionFits(s, SaveRevision(s, j), sid, j);
  }

  /** Room was reserved for the new job, not counting the pending job it will replace. */
  lemma RevisionFits(s: State, s': State, sid: SessionId, j: JobId)
    requires s'.sessions == s.sessions && s'.limit == s.limit && sid in s.sessions
    requires s'.admission.Saved? && s'.admission.session == sid && j !in s.jobs
    requires QueuedSet(s') == QueuedSet(s) + {j} && |QueuedSet(s')| == |QueuedSet(s)| + 1
    requires s.sessions[sid].pending.Some? ==> s.sessions[sid].pending.value in s.jobs
    requires |QueuedSet(s)| - (if s.sessions[sid].pending.Some? && HasStatus(s, s.sessions[sid].pending.value, Queued) then 1 else 0) <
             s.limit
    ensures Bounded(s')
  {
    if s.sessions[sid].pending.Some? {
      var p := s.sessions[sid].pending.value;
      assert p in QueuedSet(s) <==> HasStatus(s, p, Queued);
      hide QueuedSet;
      Without(QueuedSet(s'), p);
    } else {
      assert QueuedSet(s') - {} == QueuedSet(s');
    }
  }

  lemma SupersedeOutcome(s: State, ok: bool)
    requires CanSupersede(s, ok)
    ensures var a, s', pending := s.admission, Supersede(s, ok), s.sessions[s.admission.session].pending;
      s'.limit == s.limit &&
      if pending.None? then s'.admission.Replaced? && QueuedSet(s') == QueuedSet(s)
      else if !CancelSucceeds(s, pending.value, ok) then s'.admission == Aborting(a.id) && QueuedSet(s') == QueuedSet(s)
      else s'.admission.Replaced? && QueuedSet(s') == QueuedSet(s) - {pending.value}
  {
    hide Cancel;
    var pending := s.sessions[s.admission.session].pending;
    if pending.None? {
    } else if !CancelSucceeds(s, pending.value, ok) {
    } else {
      CancelQueued(s, pending.value, ok);
      CancelBystands(s, pending.value, ok);
    }
  }

  lemma SubmittedQueued(s: State)
    requires Inv(s) && s.admission.Saved?
    ensures s.admission.id in QueuedSet(s)
  {
    hide Tally;
  }

  lemma SupersedeBounded(s: State, ok: bool)
    requires Inv(s) && CanSupersede(s, ok) && Bounded(s)
    ensures Bounded(Supersede(s, ok))
  {
    hide Inv, QueuedSet, Supersede, CancelSucceeds;
    SubmittedQueued(s);
    SupersedeOutcome(s, ok);
    var q, pending := QueuedSet(s), s.sessions[s.admission.session].pending;
    if pending.None? {
      assert q - {} == q;
    } else {
      Without(q, s.admission.id);
      Without(q, pending.value);
    }
  }

  lemma AbortBounded(s: State, ok: bool)
    requires Inv(s) && CanAbort(s, ok) && Bounded(s)
    ensures Bounded(Abort(s, ok)) <==> ok || s.queued <= s.limit
  {
    QueueCounter(s);
    hide Inv, Cancel;
    var freed := s.(admission := Free);
    CancelQueued(freed, s.admission.id, ok);
    CancelBystands(freed, s.admission.id, ok);
    assert QueuedSet(freed) == QueuedSet(s);
  }

  lemma AcceptQueued(s: State)
    requires CanAccept(s)
    ensures Accept(s).admission.Free? && Accept(s).limit == s.limit && QueuedSet(Accept(s)) == QueuedSet(s)
  {
    AcceptUntouched(s);
    AdvanceBystands(s);
    hide Advance;
    ScheduleBystands(Advance(s), s.admission.session);
    hide Schedule;
  }

  lemma AdvanceBystands(s: State)
    requires CanAccept(s)
    ensures var s' := Advance(s);
      s'.limit == s.limit && s'.native == s.native && s'.born == s.born && s'.spent == s.spent && s'.admission.Free? &&
      s'.sessions == s.sessions[s.admission.session :=
        s.sessions[s.admission.session].(revision := s.sessions[s.admission.session].revision + 1,
                                         pending := Some(s.admission.id), snapshot := Some(s.admission.snapshot))]
  {
    var a := s.admission;
    var session := s.sessions[a.session];
    if session.snapshot.Some? {
      ReleaseBystands(Pin(s, a.snapshot), session.snapshot.value);
    } else {
    }
  }

  /** Admission respects the limit at every step, except when both cancellations of one admission fail. */
  lemma StepBounded(s: State, step: Step)
    requires Inv(s) && Bounded(s) && Enabled(s, step) && Inv(Apply(s, step))
    ensures Bounded(Apply(s, step)) <==> !Exceeds(s, step)
  {
    if !Admits(step) {
      StepCalm(s, step);
      StepEvolves(s, step);
      CalmBounded(s, Apply(s, step));
    } else if step.OfClient? {
      AdmitBounded(s, step.stepClient.t, step.stepClient.j, step.stepClient.ok);
    } else {
      RevisionBounded(s, step.stepSession);
    }
  }

  lemma RevisionBounded(s: State, step: SessionStep)
    requires Inv(s) && Bounded(s) && SessionEnabled(s, step) && Admits(OfSession(step))
    ensures Bounded(SessionApply(s, step)) <==> !Exceeds(s, OfSession(step))
  {
    hide Inv, SaveRevision, Supersede, Accept, Abort, Release;
    var s' := SessionApply(s, step);
    match step
    case StepPrepare(sid, x) => assert QueuedSet(s') == QueuedSet(s);
    case StepRefuse =>
      ReleaseUntouched(s.(admission := Free), s.admission.snapshot);
      assert QueuedSet(s') == QueuedSet(s);
    case StepSaveRevision(j) => SaveRevisionBounded(s, j);
    case StepSupersede(ok) => SupersedeBounded(s, ok);
    case StepAccept => AcceptQueued(s);
    case StepFailPin =>
      assert QueuedSet(s') == QueuedSet(s);
      SubsetSize(QueuedSet(s) - {s.admission.id}, QueuedSet(s));
    case StepAbort(ok) => AbortBounded(s, ok);
  }

  /** The two steps that add a job. */
  predicate Saves(step: Step) {
    (step.OfClient? && step.stepClient.StepAdmit?) || (step.OfSession? && step.stepSession.StepSaveRevision?)
  }

  /** Only they lengthen the queue, by one, and only while it is within the limit. */
  lemma StepQueued(s: State, step: Step)
    requires Inv(s) && Enabled(s, step) && Inv(Apply(s, step))
    ensures Apply(s, step).queued <= s.queued ||
            (Saves(step) && s.queued <= s.limit && Apply(s, step).queued == s.queued + 1)
    ensures step.OfSession? && step.stepSession.StepSaveRevision? ==> Apply(s, step).queued == s.queued + 1
  {
    QueueCounter(s);
    QueueCounter(Apply(s, step));
    hide Inv, QueuedSet, ClientApply, SessionApply, Calm, Evolves;
    if !Admits(step) {
      StepCalm(s, step);
      StepEvolves(s, step);
      hide Apply;
      CalmKeepsBorn(s, Apply(s, step));
      CalmQueued(s, Apply(s, step));
      CardinalityOf(s, Apply(s, step));
    } else if step.OfClient? {
      AdmitLengthens(s, step.stepClient.t, step.stepClient.j, step.stepClient.ok);
    } else if step.stepSession.StepSaveRevision? {
      SaveLengthens(s, step.stepSession.j);
    } else {
      RevisionQueued(s, step.stepSession);
      CardinalityOf(s, SessionApply(s, step.stepSession));
    }
  }

  lemma CalmKeepsBorn(s: State, s': State)
    requires Calm(s, s')
    ensures s'.born == s.born
  {
  }

  lemma CardinalityOf(s: State, s': State)
    requires QueuedSet(s') <= QueuedSet(s)
    ensures |QueuedSet(s')| <= |QueuedSet(s)|
  {
    hide QueuedSet;
    SubsetSize(QueuedSet(s'), QueuedSet(s));
  }

  lemma AdmitLengthens(s: State, t: ThreadId, j: JobId, ok: bool)
    requires Inv(s) && CanAdmit(s, t, j, ok)
    ensures var s' := Admit(s, t, j, ok);
      QueuedSet(s') == QueuedSet(s) || (s.queued <= s.limit && |QueuedSet(s')| == |QueuedSet(s)| + 1)
  {
    hide Inv, QueuedSet, Admit;
    Recorded(s);
    AdmitOutcome(s, t, j, ok);
    var s' := Admit(s, t, j, ok);
    if s'.jobs == s.jobs {
      SameQueued(s, s');
    } else {
      SavedQueued(s, s', j, Birth(s.threads[t].snapshot, None, 0));
    }
  }

  lemma SaveLengthens(s: State, j: JobId)
    requires Inv(s) && CanSaveRevision(s, j)
    ensures s.queued <= s.limit && |QueuedSet(SaveRevision(s, j))| == |QueuedSet(s)| + 1
  {
    hide Inv, QueuedSet, SaveRevision;
    Recorded(s);
    SaveRevisionOutcome(s, j);
    var sid := s.admission.session;
    SavedQueued(s, SaveRevision(s, j), j, Birth(s.admission.snapshot, Some(sid), s.sessions[sid].revision + 1));
  }

  lemma RevisionQueued(s: State, step: SessionStep)
    requires SessionEnabled(s, step) && Admits(OfSession(step)) && !step.StepSaveRevision?
    ensures QueuedSet(SessionApply(s, step)) <= QueuedSet(s)
  {
    hide Supersede, Accept, Abort, Release, QueuedSet;
    match step
    case StepPrepare(sid, x) => SameQueued(s, Prepare(s, sid, x));
    case StepRefuse =>
      ReleaseUntouched(s.(admission := Free), s.admission.snapshot);
      SameQueued(s, Refuse(s));
    case StepSupersede(ok) => SupersedeOutcome(s, ok);
    case StepAccept => AcceptQueued(s);
    case StepFailPin => SameQueued(s, FailPin(s));
    case StepAbort(ok) => AbortQueued(s, ok);
  }

  lemma AbortQueued(s: State, ok: bool)
    requires CanAbort(s, ok)
    ensures QueuedSet(Abort(s, ok)) <= QueuedSet(s)
  {
    hide Cancel;
    var freed := s.(admission := Free);
    CancelQueued(freed, s.admission.id, ok);
    assert QueuedSet(freed) == QueuedSet(s);
  }

  /** SubmitRevision has saved its job and still holds the lock. */
  predicate Submitting(a: Admission) { a.Saved? || a.Replaced? || a.Aborting? }

  /** It begins by saving the job, and nobody else saves one before it ends. */
  lemma StepSubmitting(s: State, step: Step)
    requires Inv(s) && Enabled(s, step) && Submitting(Apply(s, step).admission)
    ensures Submitting(s.admission) || (step.OfSession? && step.stepSession.StepSaveRevision?)
    ensures Submitting(s.admission) ==> !Saves(step)
  {
    hide Inv, ClientApply, SessionApply, WorkerApply, TailApply;
    if !Admits(step) {
      StepCalm(s, step);
      hide Apply;
      CalmAdmission(s, Apply(s, step));
    } else if step.OfClient? {
      AdmitSubmits(s, step.stepClient);
    } else {
      RevisionSubmits(s, step.stepSession);
    }
  }

  lemma CalmAdmission(s: State, s': State)
    requires Calm(s, s')
    ensures s'.admission == s.admission
  {
  }

  lemma AdmitSubmits(s: State, step: ClientStep)
    requires ClientEnabled(s, step) && step.StepAdmit?
    ensures !Submitting(ClientApply(s, step).admission)
  {
    hide Admit;
    AdmitOutcome(s, step.t, step.j, step.ok);
  }

  lemma RevisionSubmits(s: State, step: SessionStep)
    requires SessionEnabled(s, step) && Admits(OfSession(step)) && Submitting(SessionApply(s, step).admission)
    ensures Submitting(s.admission) <==> !step.StepSaveRevision?
  {
    hide Cancel, Schedule, Advance, Release;
    match step
    case StepPrepare(sid, x) =>
    case StepRefuse => ReleaseBystands(s.(admission := Free), s.admission.snapshot);
    case StepSaveRevision(j) =>
    case StepSupersede(ok) =>
    case StepAccept =>
    case StepFailPin =>
    case StepAbort(ok) =>
  }

  // ----- Sessions over time -----

  /** Only a higher revision becomes pending, and only the pending job becomes the running one. */
  predicate Climbs(a: Session, b: Session) {
    a.revision <= b.revision && a.lastRevision <= b.lastRevision &&
    (b.pending == a.pending || b.pending == None || a.revision < b.revision) &&
    (b.running == a.running || b.running == None || (a.running == None && b.running == a.pending && b.pending == None))
  }

  /** Revisions of a live session only grow, and identifiers are never reused. */
  predicate SessionsClimb(s: State, s': State) {
    s.spent <= s'.spent &&
    forall sid :: sid in s'.sessions ==>
      if sid in s.sessions then Climbs(s.sessions[sid], s'.sessions[sid]) else sid !in s.spent
  }

  lemma StepClimbs(s: State, step: Step)
    requires Inv(s) && Enabled(s, step)
    ensures SessionsClimb(s, Apply(s, step))
  {
    if !Admits(step) {
      StepCalm(s, step);
    } else if step.OfClient? {
      hide Inv;
      AdmitFrame(s, step.stepClient.t, step.stepClient.j, step.stepClient.ok);
      AdmitOutcome(s, step.stepClient.t, step.stepClient.j, step.stepClient.ok);
    } else {
      hide Inv;
      RevisionClimbs(s, step.stepSession);
    }
  }

  lemma RevisionClimbs(s: State, step: SessionStep)
    requires SessionEnabled(s, step) && Admits(OfSession(step))
    ensures SessionsClimb(s, SessionApply(s, step))
  {
    hide Advance, Cancel, Release, Schedule;
    match step
    case StepPrepare(sid, x) =>
    case StepRefuse => ReleaseBystands(s.(admission := Free), s.admission.snapshot);
    case StepSaveRevision(j) =>
    case StepSupersede(ok) =>
      var pending := s.sessions[s.admission.session].pending;
      if pending.Some? && CancelSucceeds(s, pending.value, ok) {
        CancelBystands(s, pending.value, ok);
      } else {
      }
    case StepAccept =>
      AdvanceBystands(s);
      ScheduleBystands(Advance(s), s.admission.session);
    case StepFailPin =>
    case StepAbort(ok) => CancelBystands(s.(admission := Free), s.admission.id, ok);
  }

  lemma StepMode(s: State, step: Step)
    requires Inv(s) && Enabled(s, step)
    ensures Apply(s, step).native == s.native && Apply(s, step).limit == s.limit
  {
    if !Admits(step) {
      StepCalm(s, step);
    } else if step.OfClient? {
      hide Inv;
      AdmitMode(s, step.stepClient.t, step.stepClient.j, step.stepClient.ok);
    } else {
      hide Inv;
      RevisionMode(s, step.stepSession);
    }
  }

  lemma AdmitMode(s: State, t: ThreadId, j: JobId, ok: bool)
    requires CanAdmit(s, t, j, ok)
    ensures Admit(s, t, j, ok).native == s.native && Admit(s, t, j, ok).limit == s.limit
  {
    if PendingCount(s) >= s.limit || !ok {
    } else if HasRoom(s) {
    } else {
    }
  }

  lemma RevisionMode(s: State, step: SessionStep)
    requires SessionEnabled(s, step) && Admits(OfSession(step))
    ensures SessionApply(s, step).native == s.native && SessionApply(s, step).limit == s.limit
  {
    hide Advance, Cancel, Release, Schedule;
    match step
    case StepPrepare(sid, x) =>
    case StepRefuse => ReleaseBystands(s.(admission := Free), s.admission.snapshot);
    case StepSaveRevision(j) =>
    case StepSupersede(ok) =>
      var pending := s.sessions[s.admission.session].pending;
      if pending.Some? && CancelSucceeds(s, pending.value, ok) {
        CancelBystands(s, pending.value, ok);
      } else {
      }
    case StepAccept =>
      AdvanceBystands(s);
      ScheduleBystands(Advance(s), s.admission.session);
    case StepFailPin =>
    case StepAbort(ok) => CancelBystands(s.(admission := Free), s.admission.id, ok);
  }

  // ----- Attempts and last successes -----

  /** Attempts begin with a token and end with the slot; no other step touches them or the last success. */
  predicate SettlesSlot(step: Step) {
    (step.OfWorker? && step.stepWorker.StepTake?) || (step.OfTail? && step.stepTail.StepFreeSlot?)
  }

  lemma StepKeepsSlots(s: State, step: Step)
    requires Inv(s) && Enabled(s, step) && !SettlesSlot(step)
    ensures SlotsKept(s, Apply(s, step))
  {
    SessionsSpent(s);
    hide Inv, Bystanding, SlotsKept, ClientApply, SessionApply, WorkerApply, TailApply;
    match step
    case OfClient(x) => ClientKeepsSlots(s, x);
    case OfSession(x) => SessionKeepsSlots(s, x);
    case OfWorker(x) => WorkerBystands(s, x); BystandingSlots(s, WorkerApply(s, x));
    case OfTail(x) => TailBystands(s, x); BystandingSlots(s, TailApply(s, x));
  }

  lemma BystandingSlots(s: State, s': State)
    requires Bystanding(s, s')
    ensures SlotsKept(s, s')
  {
  }

  lemma ClientKeepsSlots(s: State, step: ClientStep)
    requires ClientEnabled(s, step)
    ensures SlotsKept(s, ClientApply(s, step))
  {
    hide Admit, SlotsKept, Bystanding;
    if step.StepAdmit? {
      AdmitFrame(s, step.t, step.j, step.ok);
      SameSlots(s, Admit(s, step.t, step.j, step.ok));
    } else {
      ClientCalm(s, step);
      hide ClientApply;
      BystandingSlots(s, ClientApply(s, step));
    }
  }

  lemma SameSlots(s: State, s': State)
    requires s'.sessions == s.sessions
    ensures SlotsKept(s, s')
  {
  }

  lemma SessionKeepsSlots(s: State, step: SessionStep)
    requires SessionEnabled(s, step) && s.sessions.Keys <= s.spent
    ensures SlotsKept(s, SessionApply(s, step))
  {
    hide SlotsKept, Advance, Cancel, Release, Schedule, Close, Supersede, Accept;
    match step
    case StepOpen(sid) => OpenSlots(s, sid);
    case StepExpire(sid) => ExpireSlots(s, sid);
    case StepPrepare(sid, x) => SameSlots(s, Prepare(s, sid, x));
    case StepRefuse =>
      ReleaseBystands(s.(admission := Free), s.admission.snapshot);
      SameSlots(s, Refuse(s));
    case StepSaveRevision(j) => SameSlots(s, SaveRevision(s, j));
    case StepSupersede(ok) => SupersedeSlots(s, ok);
    case StepAccept => AcceptSlots(s);
    case StepFailPin => SameSlots(s, FailPin(s));
    case StepAbort(ok) =>
      CancelBystands(s.(admission := Free), s.admission.id, ok);
      SameSlots(s, Abort(s, ok));
    case StepReschedule(sid) => ScheduleSlots(s, sid);
    case StepClose(sid, okPending, okRunning) => CloseSlots(s, sid, okPending, okRunning);
  }

  lemma OpenSlots(s: State, sid: SessionId)
    requires CanOpen(s, sid) && s.sessions.Keys <= s.spent
    ensures SlotsKept(s, Open(s, sid))
  {
  }

  lemma ExpireSlots(s: State, sid: SessionId)
    requires CanExpire(s, sid)
    ensures SlotsKept(s, Expire(s, sid))
  {
  }

  lemma SupersedeSlots(s: State, ok: bool)
    requires CanSupersede(s, ok)
    ensures SlotsKept(s, Supersede(s, ok))
  {
    hide Cancel, SlotsKept;
    var pending := s.sessions[s.admission.session].pending;
    if pending.None? {
    } else if !CancelSucceeds(s, pending.value, ok) {
    } else {
      CancelBystands(s, pending.value, ok);
    }
    SameSlots(s, Supersede(s, ok));
  }

  lemma ScheduleSlots(s: State, sid: SessionId)
    ensures SlotsKept(s, Schedule(s, sid))
  {
    hide Schedule;
    ScheduleBystands(s, sid);
  }

  lemma AcceptSlots(s: State)
    requires CanAccept(s)
    ensures SlotsKept(s, Accept(s))
  {
    hide Advance, Schedule;
    AdvanceBystands(s);
    ScheduleBystands(Advance(s), s.admission.session);
  }

  lemma CloseSlots(s: State, sid: SessionId, okPending: bool, okRunning: bool)
    requires CanClose(s, sid, okPending, okRunning)
    ensures SlotsKept(s, Close(s, sid, okPending, okRunning))
  {
    hide Close;
    CloseFrame(s, sid, okPending, okRunning);
  }

  predicate SlotTaken(a: Session, b: Session) {
    b.lastSuccess == a.lastSuccess && b.expired == a.expired &&
    b.running == if a.running.None? then a.pending else a.running
  }

  /** A taken token moves the pending job into a free slot and leaves every other session alone. */
  predicate SlotsTaken(s: State, s': State, sid: SessionId) {
    s'.jobs == s.jobs && s'.born == s.born && s'.sessions.Keys == s.sessions.Keys &&
    (forall x :: x in s.sessions && x != sid ==> s'.sessions[x] == s.sessions[x]) &&
    (sid in s.sessions ==> SlotTaken(s.sessions[sid], s'.sessions[sid]))
  }

  lemma TakeSlots(s: State, t: ThreadId)
    requires CanTake(s, t)
    ensures SlotsTaken(s, Take(s, t), s.threads[t].session)
  {
    hide SlotsTaken, SlotTaken;
    var sid := s.threads[t].session;
    if sid !in s.sessions {
      NoSlotTaken(s, s.threads - {t}, sid);
    } else {
      var session := s.sessions[sid];
      if session.running.Some? || session.pending.None? {
        OneSlotTaken(s, sid, session.(scheduled := false), s.threads - {t});
      } else {
        OneSlotTaken(s, sid, session.(scheduled := false, pending := None, running := session.pending),
                     s.threads[t := Loading(session.pending.value)]);
      }
    }
  }

  lemma NoSlotTaken(s: State, threads': map<ThreadId, Pc>, sid: SessionId)
    requires sid !in s.sessions
    ensures SlotsTaken(s, s.(threads := threads'), sid)
  {
  }

  lemma OneSlotTaken(s: State, sid: SessionId, session': Session, threads': map<ThreadId, Pc>)
    requires sid in s.sessions && s.sessions[sid].lastSuccess == session'.lastSuccess
    requires s.sessions[sid].expired == session'.expired
    requires session'.running == if s.sessions[sid].running.None? then s.sessions[sid].pending else s.sessions[sid].running
    ensures SlotsTaken(s, s.(sessions := s.sessions[sid := session'], threads := threads'), sid)
  {
  }

  /** The session that the goroutine's attempt belongs to, if it still waits for it. */
  predicate Awaits(s: State, sid: SessionId, j: JobId) {
    j in s.born && s.born[j].session == Some(sid) && sid in s.sessions && s.sessions[sid].running == Some(j)
  }

  lemma FreeSlotOutcome(s: State, t: ThreadId)
    requires CanFreeSlot(s, t)
    ensures var s', j, status := FreeSlot(s, t), s.threads[t].id, s.threads[t].known.value;
      s'.jobs == s.jobs && s'.born == s.born && s'.completions == s.completions && s'.sessions.Keys == s.sessions.Keys &&
      s'.threads == s.threads[t := Gating(j)] && s'.admission == s.admission &&
      (forall x :: x in s.sessions ==> s'.sessions[x].expired == s.sessions[x].expired) &&
      (forall x :: x in s.sessions && !Awaits(s, x, j) ==> SlotKept(s.sessions[x], s'.sessions[x])) &&
      (forall x :: x in s.sessions && Awaits(s, x, j) ==>
        s'.sessions[x].running.None? &&
        s'.sessions[x].lastSuccess == if status.Succeeded? then Some(j) else s.sessions[x].lastSuccess)
  {
    hide Schedule, Freed;
    var j, status := s.threads[t].id, s.threads[t].known.value;
    var moved := SetThread(s, t, Gating(j));
    var birth := s.born[j];
    if birth.session.None? || birth.session.value !in s.sessions ||
       s.sessions[birth.session.value].running != Some(j) {
    } else {
      var sid := birth.session.value;
      var freed := moved.(sessions := s.sessions[sid := Freed(s.sessions[sid], j, status, birth.revision)]);
      FreedOutcome(s.sessions[sid], j, status, birth.revision);
      ScheduleBystands(freed, sid);
      ScheduleUntouched(freed, sid);
      ScheduleKept(freed, sid);
    }
  }

  lemma FreedOutcome(session: Session, j: JobId, status: Status, revision: nat)
    ensures var freed := Freed(session, j, status, revision);
      freed.running.None? && freed.expired == session.expired &&
      freed.lastSuccess == if status.Succeeded? then Some(j) else session.lastSuccess
  {
  }
}
