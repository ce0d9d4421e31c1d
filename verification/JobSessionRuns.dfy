/**
 What the fields of a live session mean over a run: how many revisions it has
 accepted, which tree is its source, which success was recorded last, and
 whether it has expired.
 */
module JobSessionRuns {
  import opened Options
  import opened JobState
  import opened JobSteps
  import opened JobInvariant
  import opened JobEvolution
  import opened JobResponsibility
  import opened JobAdmission
  import opened JobRuns

  // ----- Events of a session -----

  predicate AcceptsFor(s: State, step: Step, sid: SessionId) {
    step == OfSession(StepAccept) && s.admission.Replaced? && s.admission.session == sid
  }

  /** The attempt that owns the slot gives it up. */
  predicate Frees(s: State, step: Step, sid: SessionId) {
    step.OfTail? && step.stepTail.StepFreeSlot? && step.stepTail.t in s.threads && s.threads[step.stepTail.t].Closing? &&
    sid in s.sessions && s.sessions[sid].running == Some(s.threads[step.stepTail.t].id)
  }

  /** It does so with a success. */
  function RecordedNow(s: State, step: Step, sid: SessionId): Option<JobId> {
    if Frees(s, step, sid) && s.threads[step.stepTail.t].known == Some(Succeeded) then s.sessions[sid].running else None
  }

  predicate Opens(step: Step, sid: SessionId) { step == OfSession(StepOpen(sid)) }
  predicate Expires(step: Step, sid: SessionId) { step == OfSession(StepExpire(sid)) }

  /** What a step does to a session that lives before and after it. */
  predicate Changes(s: State, step: Step, sid: SessionId, a: Session, b: Session) {
    && b.revision == a.revision + (if AcceptsFor(s, step, sid) then 1 else 0)
    && b.snapshot == (if AcceptsFor(s, step, sid) then Some(s.admission.snapshot) else a.snapshot)
    && b.expired == (a.expired || Expires(step, sid))
    && b.lastSuccess == (if RecordedNow(s, step, sid).Some? then RecordedNow(s, step, sid) else a.lastSuccess)
    && (a.running.Some? ==> b.running == if Frees(s, step, sid) then None else a.running)
  }

  predicate Begins(b: Session) {
    b.revision == 0 && b.snapshot == None && !b.expired && b.lastSuccess == None && b.running == None && b.pending == None
  }

  /** The session is new, or one that has changed in this way. */
  predicate SessionStepped(s: State, step: Step, s': State, sid: SessionId) {
    sid in s'.sessions ==>
      if sid in s.sessions then Changes(s, step, sid, s.sessions[sid], s'.sessions[sid])
      else Opens(step, sid) && sid !in s.spent && Begins(s'.sessions[sid])
  }

  predicate Eventful(s: State, step: Step, sid: SessionId) {
    AcceptsFor(s, step, sid) || Frees(s, step, sid) || Expires(step, sid)
  }

  lemma NothingHappens(s: State, step: Step, s': State, sid: SessionId)
    requires s'.sessions == s.sessions && !Eventful(s, step, sid)
    ensures SessionStepped(s, step, s', sid)
  {
  }

  // ----- Steps of clients -----

  lemma ClientSessions(s: State, step: ClientStep)
    requires ClientEnabled(s, step)
    ensures ClientApply(s, step).sessions == s.sessions
  {
    hide Cancel, Release, Admit, Transition;
    match step
    case StepPinSource(t, x) =>
    case StepAdmit(t, j, ok) => AdmitFrame(s, t, j, ok); AdmitOutcome(s, t, j, ok);
    case StepReject(t) => ReleaseFrame(EndThread(s, t), s.threads[t].snapshot);
    case StepWithdraw(t, ok) => CancelFrame(EndThread(s, t), s.threads[t].id, ok);
    case StepUserCancel(j) =>
      if s.jobs[j].status.Queued? {
        CancelFrame(s, j, true);
      } else {
        TransitionFrame(s, j, Running, Cancelling(s.jobs[j]));
      }
    case StepSweep(_) =>
  }

  // ----- Steps of sessions -----

  /** The steps that change the table of sessions. */
  predicate Writes(step: SessionStep) {
    step.StepOpen? || step.StepExpire? || step.StepAccept? || step.StepReschedule? || step.StepClose?
  }

  lemma SessionChanges(s: State, step: SessionStep, sid: SessionId)
    requires Inv(s) && SessionEnabled(s, step)
    ensures SessionStepped(s, OfSession(step), SessionApply(s, step), sid)
  {
    SessionsSpent(s);
    hide Inv;
    if Writes(step) {
      WritingChanges(s, step, sid);
    } else {
      QuietSessions(s, step);
      hide SessionEnabled, SessionApply;
      NothingHappens(s, OfSession(step), SessionApply(s, step), sid);
    }
  }

  lemma WritingChanges(s: State, step: SessionStep, sid: SessionId)
    requires SessionEnabled(s, step) && Writes(step) && s.sessions.Keys <= s.spent
    ensures SessionStepped(s, OfSession(step), SessionApply(s, step), sid)
  {
    hide SessionStepped, Open, Expire, Accept, Reschedule, Close, CanClose;
    match step
    case StepOpen(other) => OpenChanges(s, other, sid);
    case StepExpire(other) => ExpireChanges(s, other, sid);
    case StepAccept => AcceptChanges(s, sid);
    case StepReschedule(other) => RescheduleChanges(s, other, sid);
    case StepClose(other, okPending, okRunning) => CloseChanges(s, other, okPending, okRunning, sid);
  }

  lemma QuietSessions(s: State, step: SessionStep)
    requires SessionEnabled(s, step) && !Writes(step)
    ensures SessionApply(s, step).sessions == s.sessions
  {
    hide Cancel, Release, Supersede;
    match step
    case StepPrepare(_, _) =>
    case StepRefuse => ReleaseFrame(s.(admission := Free), s.admission.snapshot);
    case StepSaveRevision(_) =>
    case StepSupersede(ok) => SupersedeSessions(s, ok);
    case StepFailPin =>
    case StepAbort(ok) => CancelFrame(s.(admission := Free), s.admission.id, ok);
  }

  lemma OpenChanges(s: State, other: SessionId, sid: SessionId)
    requires CanOpen(s, other) && s.sessions.Keys <= s.spent
    ensures SessionStepped(s, OfSession(StepOpen(other)), Open(s, other), sid)
  {
  }

  lemma ExpireChanges(s: State, other: SessionId, sid: SessionId)
    requires CanExpire(s, other)
    ensures SessionStepped(s, OfSession(StepExpire(other)), Expire(s, other), sid)
  {
  }

  lemma SupersedeSessions(s: State, ok: bool)
    requires CanSupersede(s, ok)
    ensures Supersede(s, ok).sessions == s.sessions
  {
    hide Cancel;
    var pending := s.sessions[s.admission.session].pending;
    if pending.None? {
    } else if !CancelSucceeds(s, pending.value, ok) {
    } else {
      CancelFrame(s, pending.value, ok);
    }
  }

  /** Scheduling touches no field but the mark. */
  lemma ScheduleSessions(s: State, other: SessionId, sid: SessionId)
    ensures sid in Schedule(s, other).sessions <==> sid in s.sessions
    ensures sid in s.sessions ==>
      Schedule(s, other).sessions[sid] == s.sessions[sid].(scheduled := Schedule(s, other).sessions[sid].scheduled)
  {
    if Schedulable(s, other) {
    } else {
    }
  }

  lemma AcceptChanges(s: State, sid: SessionId)
    requires CanAccept(s)
    ensures SessionStepped(s, OfSession(StepAccept), Accept(s), sid)
  {
    hide Advance, Schedule;
    AdvanceBystands(s);
    ScheduleSessions(Advance(s), s.admission.session, sid);
  }

  lemma RescheduleChanges(s: State, other: SessionId, sid: SessionId)
    ensures SessionStepped(s, OfSession(StepReschedule(other)), Reschedule(s, other), sid)
  {
    hide Schedule;
    ScheduleSessions(s, other, sid);
  }

  lemma CloseChanges(s: State, other: SessionId, okPending: bool, okRunning: bool, sid: SessionId)
    requires CanClose(s, other, okPending, okRunning)
    ensures SessionStepped(s, OfSession(StepClose(other, okPending, okRunning)), Close(s, other, okPending, okRunning), sid)
  {
    hide Close;
    CloseFrame(s, other, okPending, okRunning);
  }

  // ----- Steps of workers -----

  lemma WorkerChanges(s: State, step: WorkerStep, sid: SessionId)
    requires WorkerEnabled(s, step)
    ensures SessionStepped(s, OfWorker(step), WorkerApply(s, step), sid)
  {
    hide Changes, Begins, Take;
    if step.StepTake? {
      TakeChanges(s, step.t, sid);
    } else {
      WorkerSessions(s, step);
      hide WorkerEnabled, WorkerApply;
      NothingHappens(s, OfWorker(step), WorkerApply(s, step), sid);
    }
  }

  lemma TakeChanges(s: State, t: ThreadId, sid: SessionId)
    requires CanTake(s, t)
    ensures SessionStepped(s, OfWorker(StepTake(t)), Take(s, t), sid)
  {
    TakenSession(s, t, sid);
    hide Take;
  }

  lemma TakenSession(s: State, t: ThreadId, sid: SessionId)
    requires CanTake(s, t)
    ensures var s' := Take(s, t);
      (sid in s'.sessions <==> sid in s.sessions) &&
      (sid in s.sessions ==>
        var a, b := s.sessions[sid], s'.sessions[sid];
        b == a.(scheduled := b.scheduled, pending := b.pending, running := b.running) && (a.running.Some? ==> b.running == a.running))
  {
    var taken := s.threads[t].session;
    TakeSessions(s, t);
    hide Take;
  }

  lemma TakeSessions(s: State, t: ThreadId)
    requires CanTake(s, t)
    ensures var taken := s.threads[t].session;
      Take(s, t).sessions ==
      if taken !in s.sessions then s.sessions
      else if s.sessions[taken].running.Some? || s.sessions[taken].pending.None? then
        s.sessions[taken := s.sessions[taken].(scheduled := false)]
      else s.sessions[taken := s.sessions[taken].(scheduled := false, pending := None, running := s.sessions[taken].pending)]
  {
    var taken := s.threads[t].session;
    if taken !in s.sessions {
    } else if s.sessions[taken].running.Some? || s.sessions[taken].pending.None? {
    } else {
    }
  }

  lemma WorkerSessions(s: State, step: WorkerStep)
    requires WorkerEnabled(s, step) && !step.StepTake?
    ensures WorkerApply(s, step).sessions == s.sessions
  {
    hide Cancel, Release, Transition, Start, Finish, Account, Load;
    match step
    case StepReceive(_) =>
    case StepLoad(t, ok) => LoadSessions(s, t, ok);
    case StepRequeue(_) =>
    case StepStart(t, ok) => StartSessions(s, t, ok);
    case StepCompile(_, _, _) =>
    case StepFinish(t, w) => FinishSessions(s, t, w);
    case StepDefer(_) =>
    case StepReleaseSource(t) =>
      var pc := s.threads[t];
      ReleaseFrame(SetThread(s, t, if pc.job.status.Succeeded? then Accounting(pc.id, pc.job)
                                   else Deactivating(pc.id, Some(pc.job.status))), pc.job.birth.snapshot);
    case StepAccount(t, cached, result, w) => AccountSessions(s, t, cached, result, w);
  }

  lemma LoadSessions(s: State, t: ThreadId, ok: bool)
    requires CanLoad(s, t, ok)
    ensures Load(s, t, ok).sessions == s.sessions
  {
    if !ok {
    } else if s.threads[t].id in s.jobs {
    } else if s.native {
    } else {
    }
  }

  lemma StartSessions(s: State, t: ThreadId, ok: bool)
    requires CanStart(s, t, ok)
    ensures Start(s, t, ok).sessions == s.sessions
  {
    hide Cancel, Transition, OwnsAttempt, HasStatus;
    var j, seen := s.threads[t].id, s.threads[t].seen;
    if !seen.status.Queued? {
    } else if !OwnsAttempt(s, j, seen.birth) {
      CancelFrame(SetThread(s, t, Ending(j, None)), j, ok);
    } else {
      OwnedSessions(s, t, ok);
    }
  }

  lemma OwnedSessions(s: State, t: ThreadId, ok: bool)
    requires CanStart(s, t, ok) && s.threads[t].seen.status.Queued? && OwnsAttempt(s, s.threads[t].id, s.threads[t].seen.birth)
    ensures Start(s, t, ok).sessions == s.sessions
  {
    hide Cancel, Transition, OwnsAttempt, HasStatus;
    var j, seen := s.threads[t].id, s.threads[t].seen;
    if !ok {
    } else if !HasStatus(s, j, Queued) {
    } else {
      TransitionFrame(s, j, Queued, seen.(status := Running));
    }
  }

  lemma FinishSessions(s: State, t: ThreadId, w: Write)
    requires CanFinish(s, t, w)
    ensures Finish(s, t, w).sessions == s.sessions
  {
    hide Transition;
    var j, done := s.threads[t].id, s.threads[t].done;
    if w.Lost? {
    } else if HasStatus(s, j, Running) {
      TransitionFrame(s, j, Running, done);
      if w.Applied? {
      } else {
      }
    } else if j in s.jobs && s.jobs[j].status.Terminal() {
    } else {
    }
  }

  lemma AccountSessions(s: State, t: ThreadId, cached: bool, result: nat, w: Write)
    requires CanAccount(s, t, w)
    ensures Account(s, t, cached, result, w).sessions == s.sessions
  {
    AccountFrame(s, t, cached, result, w);
  }

  // ----- Steps of the tail -----

  lemma TailChanges(s: State, step: TailStep, sid: SessionId)
    requires Inv(s) && TailEnabled(s, step)
    ensures SessionStepped(s, OfTail(step), TailApply(s, step), sid)
  {
    hide Changes, Begins, Inv;
    if step.StepFreeSlot? {
      FreeSlotChanges(s, step.t, sid);
    } else {
      TailSessions(s, step);
      hide TailEnabled, TailApply;
      NothingHappens(s, OfTail(step), TailApply(s, step), sid);
    }
  }

  lemma SlotOwner(s: State, sid: SessionId)
    requires Inv(s) && sid in s.sessions && s.sessions[sid].running.Some?
    ensures s.sessions[sid].running.value in s.born && s.born[s.sessions[sid].running.value].session == Some(sid)
  {
    hide Tally;
    assert SessionOk(s, sid);
  }

  lemma FreeSlotChanges(s: State, t: ThreadId, sid: SessionId)
    requires Inv(s) && CanFreeSlot(s, t)
    ensures SessionStepped(s, OfTail(StepFreeSlot(t)), FreeSlot(s, t), sid)
  {
    if sid in s.sessions && s.sessions[sid].running.Some? {
      SlotOwner(s, sid);
    }
    FreedSession(s, t, sid);
    hide Inv, FreeSlot, Schedule;
    if sid in s.sessions {
      FreedChanges(s, t, sid, FreeSlot(s, t).sessions[sid]);
      hide Changes;
    }
  }

  lemma FreedSession(s: State, t: ThreadId, sid: SessionId)
    requires CanFreeSlot(s, t)
    ensures var s', j := FreeSlot(s, t), s.threads[t].id;
      (sid in s'.sessions <==> sid in s.sessions) &&
      (sid in s.sessions ==>
        s'.sessions[sid].(scheduled := false) ==
        (if s.born[j].session == Some(sid) && s.sessions[sid].running == Some(j)
         then Freed(s.sessions[sid], j, s.threads[t].known.value, s.born[j].revision)
         else s.sessions[sid]).(scheduled := false))
  {
    hide Schedule, Freed;
    var j, status, birth := s.threads[t].id, s.threads[t].known.value, s.born[s.threads[t].id];
    var moved := SetThread(s, t, Gating(j));
    if birth.session.None? || birth.session.value !in s.sessions || s.sessions[birth.session.value].running != Some(j) {
    } else {
      var own := birth.session.value;
      var freed := moved.(sessions := s.sessions[own := Freed(s.sessions[own], j, status, birth.revision)]);
      ScheduleSessions(freed, own, sid);
      assert FreeSlot(s, t) == Schedule(freed, own);
    }
  }

  lemma FreedChanges(s: State, t: ThreadId, sid: SessionId, b: Session)
    requires CanFreeSlot(s, t) && sid in s.sessions
    requires s.sessions[sid].running == Some(s.threads[t].id) ==> s.born[s.threads[t].id].session == Some(sid)
    requires var j := s.threads[t].id;
      b.(scheduled := false) ==
        (if s.born[j].session == Some(sid) && s.sessions[sid].running == Some(j)
         then Freed(s.sessions[sid], j, s.threads[t].known.value, s.born[j].revision)
         else s.sessions[sid]).(scheduled := false)
    ensures Changes(s, OfTail(StepFreeSlot(t)), sid, s.sessions[sid], b)
  {
  }

  lemma TailSessions(s: State, step: TailStep)
    requires TailEnabled(s, step) && !step.StepFreeSlot?
    ensures TailApply(s, step).sessions == s.sessions
  {
    hide Release, Transition, CloseGate, Retry;
    match step
    case StepDeactivate(_) =>
    case StepCheck(_) =>
    case StepReload(_) =>
    case StepEndGate(t) => CloseGateFrame(EndThread(s, t), s.threads[t].id);
    case StepRetry(j, w) => RetrySessions(s, j, w);
    case StepDrop =>
    case StepUnpin =>
      var pc := s.threads[Recovery];
      ReleaseFrame(SetThread(s, Recovery, Ending(pc.id, Some(pc.status))), pc.entry.job.birth.snapshot);
    case StepForget(_) =>
  }

  lemma RetrySessions(s: State, j: JobId, w: Write)
    requires CanRetry(s, j, w)
    ensures Retry(s, j, w).sessions == s.sessions
  {
    hide Transition;
    var entry := s.completions[j];
    if w.Lost? {
    } else if HasStatus(s, j, entry.from) {
      TransitionFrame(s, j, entry.from, entry.job);
      if w.Applied? {
      } else {
      }
    } else if j in s.jobs && s.jobs[j].status.Terminal() {
    } else {
    }
  }

  lemma StepSession(s: State, step: Step, sid: SessionId)
    requires Inv(s) && Enabled(s, step)
    ensures SessionStepped(s, step, Apply(s, step), sid)
  {
    hide Inv, ClientEnabled, SessionEnabled, WorkerEnabled, TailEnabled, ClientApply, SessionApply, WorkerApply, TailApply, SessionStepped;
    match step
    case OfClient(x) => ClientSessions(s, x); NothingHappens(s, step, ClientApply(s, x), sid);
    case OfSession(x) => SessionChanges(s, x, sid);
    case OfWorker(x) => WorkerChanges(s, x, sid);
    case OfTail(x) => TailChanges(s, x, sid);
  }

  // ----- Runs -----

  ghost function AcceptedBefore(states: seq<State>, steps: seq<Step>, k: nat, sid: SessionId): nat
    requires k <= |steps| && |states| == |steps| + 1
  {
    if k == 0 then 0
    else AcceptedBefore(states, steps, k - 1, sid) + if AcceptsFor(states[k - 1], steps[k - 1], sid) then 1 else 0
  }

  ghost function LastTree(states: seq<State>, steps: seq<Step>, k: nat, sid: SessionId): Option<SnapshotId>
    requires k <= |steps| && |states| == |steps| + 1
  {
    if k == 0 then None
    else if AcceptsFor(states[k - 1], steps[k - 1], sid) then Some(states[k - 1].admission.snapshot)
    else LastTree(states, steps, k - 1, sid)
  }

  ghost function LastRecorded(states: seq<State>, steps: seq<Step>, k: nat, sid: SessionId): Option<JobId>
    requires k <= |steps| && |states| == |steps| + 1
  {
    if k == 0 then None
    else if RecordedNow(states[k - 1], steps[k - 1], sid).Some? then RecordedNow(states[k - 1], steps[k - 1], sid)
    else LastRecorded(states, steps, k - 1, sid)
  }

  predicate ExpiredBefore(steps: seq<Step>, k: nat, sid: SessionId)
    requires k <= |steps|
  {
    exists i :: 0 <= i < k && Expires(steps[i], sid)
  }

  /** Nothing of a session happens before it is opened. */
  lemma {:induction false} BeforeOpening(native: bool, limit: nat, states: seq<State>, steps: seq<Step>, k: nat, sid: SessionId)
    requires IsRun(native, limit, states, steps) && k < |states| && sid !in states[k].spent
    ensures AcceptedBefore(states, steps, k, sid) == 0 && LastTree(states, steps, k, sid) == None
    ensures LastRecorded(states, steps, k, sid) == None && !ExpiredBefore(steps, k, sid)
    decreases k
  {
    hide Enabled, Apply, Inv;
    if k > 0 {
      ReachableInv(native, limit, states, steps, k - 1);
      StepClimbs(states[k - 1], steps[k - 1]);
      BeforeOpening(native, limit, states, steps, k - 1, sid);
      SessionsSpent(states[k - 1]);
      assert sid !in states[k - 1].sessions;
      Unopened(states[k - 1], steps[k - 1], sid);
    }
  }

  lemma Unopened(s: State, step: Step, sid: SessionId)
    requires Enabled(s, step) && sid !in s.sessions
    ensures !Eventful(s, step, sid)
  {
  }

  /** What a live session says of itself is what has happened to it. */
  lemma {:induction false} SessionMeans(native: bool, limit: nat, states: seq<State>, steps: seq<Step>, k: nat, sid: SessionId)
    requires IsRun(native, limit, states, steps) && k < |states| && sid in states[k].sessions
    ensures var session := states[k].sessions[sid];
      && session.revision == AcceptedBefore(states, steps, k, sid)
      && session.snapshot == LastTree(states, steps, k, sid)
      && session.lastSuccess == LastRecorded(states, steps, k, sid)
      && (session.expired <==> ExpiredBefore(steps, k, sid))
    decreases k
  {
    hide Enabled, Apply, Inv, RecordedNow, AcceptsFor, Expires, Opens;
    if k > 0 {
      ReachableInv(native, limit, states, steps, k - 1);
      StepSession(states[k - 1], steps[k - 1], sid);
      if sid in states[k - 1].sessions {
        SessionMeans(native, limit, states, steps, k - 1, sid);
      } else {
        BeforeOpening(native, limit, states, steps, k - 1, sid);
        Opening(states[k - 1], steps[k - 1], sid);
      }
    }
  }

  lemma Opening(s: State, step: Step, sid: SessionId)
    requires Opens(step, sid)
    ensures !AcceptsFor(s, step, sid) && RecordedNow(s, step, sid) == None && !Expires(step, sid)
  {
  }

  /** An attempt keeps the slot of its session until it gives it up itself, or the session is closed. */
  lemma {:induction false} SlotKept(native: bool, limit: nat, states: seq<State>, steps: seq<Step>,
                                  i: nat, k: nat, sid: SessionId, j: JobId)
    requires IsRun(native, limit, states, steps) && i <= k < |states|
    requires sid in states[i].sessions && states[i].sessions[sid].running == Some(j) && sid in states[k].sessions
    ensures states[k].sessions[sid].running == Some(j) ||
            exists m :: i <= m < k && Frees(states[m], steps[m], sid) && states[m].sessions[sid].running == Some(j)
    decreases k
  {
    hide Enabled, Apply, Inv, Frees;
    if k > i {
      ReachableInv(native, limit, states, steps, k - 1);
      StepSession(states[k - 1], steps[k - 1], sid);
      Present(native, limit, states, steps, i, k - 1, sid);
      SlotKept(native, limit, states, steps, i, k - 1, sid, j);
      if states[k - 1].sessions[sid].running == Some(j) && Frees(states[k - 1], steps[k - 1], sid) {
        assert i <= k - 1 < k;
      }
    }
  }

  /** A session that was open and is open has been open in between. */
  lemma Present(native: bool, limit: nat, states: seq<State>, steps: seq<Step>, i: nat, k: nat, sid: SessionId)
    requires IsRun(native, limit, states, steps) && i <= k && k + 1 < |states|
    requires sid in states[i].sessions && sid in states[k + 1].sessions
    ensures sid in states[k].sessions
  {
    ReachableInv(native, limit, states, steps, i);
    SessionsSpent(states[i]);
    SpentGrows(native, limit, states, steps, i, k);
    ReachableInv(native, limit, states, steps, k);
    StepSession(states[k], steps[k], sid);
  }
}
