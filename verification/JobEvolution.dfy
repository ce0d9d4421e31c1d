/** What a single step may do to a job record and to its gate. */
module JobEvolution {
  import opened Options
  import opened JobState
  import opened JobSteps
  import opened JobInvariant

  /**
   The life cycle of one record: a start that its session owns, one terminal
   outcome, and cache accounting behind an open gate.
   */
  predicate JobEvolves(s: State, s': State, j: JobId) {
    if j !in s.jobs then j in s'.jobs ==> j !in s.born && s'.jobs[j].status.Queued?
    else if j !in s'.jobs then s.jobs[j].status.Terminal() && j !in s.gates
    else
      var before, after := s.jobs[j], s'.jobs[j];
      before.birth == after.birth &&
      (after == before
       || (before.status.Queued? && after.status.Running? && OwnsAttempt(s, j, before.birth))
       || (before.status.Queued? && after.status.Cancelled?)
       || (before.status.Running? && after.status.Terminal() &&
           (j in s.completions ==> after.status == s.completions[j].job.status || after.status.Cancelled?))
       || (before.status.Succeeded? && after.status.Succeeded? && j in s.gates))
  }

  ghost predicate Evolves(s: State, s': State) {
    && (forall j :: JobEvolves(s, s', j))
    && (forall j :: j in s.born ==> j in s'.born && s'.born[j] == s.born[j])
    && (forall j :: j in s'.gates && j !in s.gates ==> j !in s.born)
    && (if s.gates <= s'.gates then s.version <= s'.version else s.version < s'.version)
  }

  /** Record, gate and version untouched. */
  predicate Untouched(s: State, s': State) {
    s'.jobs == s.jobs && s'.born == s.born && s'.gates == s.gates && s'.version == s.version
  }

  lemma UntouchedEvolves(s: State, s': State)
    requires Untouched(s, s')
    ensures Evolves(s, s')
  {
  }

  lemma TransitionEvolves(s: State, j: JobId, expected: Status, next: Job)
    requires Shape(s) && BornAs(s, j, next)
    requires (expected.Running? && next.status.Terminal() &&
              (j in s.completions ==> next.status == s.completions[j].job.status || next.status.Cancelled?)) ||
             (expected.Succeeded? && next.status.Succeeded? && j in s.gates)
    ensures Evolves(s, Transition(s, j, expected, next))
  {
    hide Tally;
    if !HasStatus(s, j, expected) {
    } else {
      assert BornAs(s, j, s.jobs[j]);
    }
  }

  lemma CancelEvolves(s: State, j: JobId, ok: bool)
    requires s.jobs.Keys <= s.born.Keys
    ensures Evolves(s, Cancel(s, j, ok))
  {
    if !ok || !HasStatus(s, j, Queued) {
    } else {
      var x := s.jobs[j].birth.snapshot;
      var s1 := Transition(s, j, Queued, Cancelling(s.jobs[j]));
      ReleaseUntouched(s1, x);
      var s2 := Release(s1, x);
      if j in s2.completions || j !in s2.gates {
      } else {
      }
    }
  }

  lemma ReleaseUntouched(s: State, x: SnapshotId)
    ensures Untouched(s, Release(s, x)) && Release(s, x).completions == s.completions
    ensures Release(s, x).threads == s.threads && Release(s, x).queue == s.queue
    ensures Release(s, x).sessions == s.sessions && Release(s, x).native == s.native
    ensures Release(s, x).queued == s.queued && Release(s, x).admission == s.admission && Release(s, x).limit == s.limit
  {
    if x !in s.pins {
    } else if s.pins[x] <= 1 {
    } else {
    }
  }

  lemma ScheduleUntouched(s: State, sid: SessionId)
    ensures Untouched(s, Schedule(s, sid))
  {
    if Schedulable(s, sid) {
    } else {
    }
  }

  lemma CloseGateEvolves(s: State, j: JobId)
    ensures Evolves(s, CloseGate(s, j))
  {
    if j in s.completions || j !in s.gates {
    } else {
    }
  }

  /** Bookkeeping around an evolution does not show. */
  lemma EvolvesAround(s: State, s1: State, s2: State, s': State)
    requires Untouched(s, s1) && s1.sessions == s.sessions && s1.completions == s.completions && Evolves(s1, s2) && Untouched(s2, s')
    ensures Evolves(s, s')
  {
    assert forall j :: JobEvolves(s1, s2, j) ==> JobEvolves(s, s', j);
  }

  lemma Recorded(s: State)
    requires Inv(s)
    ensures s.jobs.Keys <= s.born.Keys && forall j :: j in s.jobs ==> BornAs(s, j, s.jobs[j])
  {
    hide Tally;
  }

  lemma SaveEvolves(s: State, s': State, j: JobId, birth: Birth)
    requires s.jobs.Keys <= s.born.Keys && j !in s.born
    requires s'.jobs == s.jobs[j := Job(birth, Queued, 0)] && s'.born == s.born[j := birth]
    requires s'.gates == s.gates + {j} && s'.version == s.version
    ensures Evolves(s, s')
  {
    assert forall d :: JobEvolves(s, s', d);
  }

  // ----- Clients -----

  lemma AdmitEvolves(s: State, t: ThreadId, j: JobId, ok: bool)
    requires Inv(s) && CanAdmit(s, t, j, ok)
    ensures Evolves(s, Admit(s, t, j, ok))
  {
    hide Inv;
    Recorded(s);
    if PendingCount(s) >= s.limit || !ok {
      UntouchedEvolves(s, Admit(s, t, j, ok));
    } else if HasRoom(s) {
      SaveEvolves(s, Admit(s, t, j, ok), j, Birth(s.threads[t].snapshot, None, 0));
    } else {
      SaveEvolves(s, Admit(s, t, j, ok), j, Birth(s.threads[t].snapshot, None, 0));
    }
  }

  lemma RejectEvolves(s: State, t: ThreadId)
    requires CanReject(s, t)
    ensures Evolves(s, Reject(s, t))
  {
    ReleaseUntouched(EndThread(s, t), s.threads[t].snapshot);
    hide Release;
    UntouchedEvolves(s, Reject(s, t));
  }

  lemma WithdrawEvolves(s: State, t: ThreadId, ok: bool)
    requires Inv(s) && CanWithdraw(s, t, ok)
    ensures Evolves(s, Withdraw(s, t, ok))
  {
    hide Inv, Cancel;
    Recorded(s);
    var ended := EndThread(s, t);
    CancelEvolves(ended, s.threads[t].id, ok);
    EvolvesAround(s, ended, Cancel(ended, s.threads[t].id, ok), Withdraw(s, t, ok));
  }

  lemma UserCancelEvolves(s: State, j: JobId)
    requires Inv(s) && CanUserCancel(s, j)
    ensures Evolves(s, UserCancel(s, j))
  {
    hide Tally, Cancel;
    Recorded(s);
    if s.jobs[j].status.Queued? {
      CancelEvolves(s, j, true);
    } else {
      TransitionEvolves(s, j, Running, Cancelling(s.jobs[j]));
    }
  }

  lemma SweepEvolves(s: State, swept: set<JobId>)
    requires CanSweep(s, swept)
    ensures Evolves(s, Sweep(s, swept))
  {
    assert forall j :: JobEvolves(s, Sweep(s, swept), j);
  }

  lemma ClientEvolves(s: State, step: ClientStep)
    requires Inv(s) && ClientEnabled(s, step)
    ensures Evolves(s, ClientApply(s, step))
  {
    hide Inv, Evolves, Admit, Reject, Withdraw, UserCancel, Sweep;
    match step
    case StepPinSource(t, x) => UntouchedEvolves(s, PinSource(s, t, x));
    case StepAdmit(t, j, ok) => AdmitEvolves(s, t, j, ok);
    case StepReject(t) => RejectEvolves(s, t);
    case StepWithdraw(t, ok) => WithdrawEvolves(s, t, ok);
    case StepUserCancel(j) => UserCancelEvolves(s, j);
    case StepSweep(swept) => SweepEvolves(s, swept);
  }

  // ----- Sessions -----

  lemma AcceptUntouched(s: State)
    requires CanAccept(s)
    ensures Untouched(s, Accept(s))
  {
    var a := s.admission;
    var session := s.sessions[a.session];
    if session.snapshot.Some? {
      ReleaseUntouched(Pin(s, a.snapshot), session.snapshot.value);
    } else {
    }
    hide Release;
    assert Untouched(s, Advance(s));
    ScheduleUntouched(Advance(s), a.session);
  }

  lemma SupersedeEvolves(s: State, ok: bool)
    requires Inv(s) && CanSupersede(s, ok)
    ensures Evolves(s, Supersede(s, ok))
  {
    hide Inv, Cancel;
    Recorded(s);
    var a := s.admission;
    var pending := s.sessions[a.session].pending;
    if pending.None? {
      UntouchedEvolves(s, Supersede(s, ok));
    } else if !CancelSucceeds(s, pending.value, ok) {
      UntouchedEvolves(s, Supersede(s, ok));
    } else {
      var s1 := Cancel(s, pending.value, ok);
      CancelEvolves(s, pending.value, ok);
      EvolvesAround(s, s, s1, Supersede(s, ok));
    }
  }

  lemma AbortEvolves(s: State, ok: bool)
    requires Inv(s) && CanAbort(s, ok)
    ensures Evolves(s, Abort(s, ok))
  {
    hide Inv, Cancel;
    Recorded(s);
    var freed := s.(admission := Free);
    CancelEvolves(freed, s.admission.id, ok);
    EvolvesAround(s, freed, Cancel(freed, s.admission.id, ok), Abort(s, ok));
  }

  lemma CancelFrame(s: State, j: JobId, ok: bool)
    ensures var s' := Cancel(s, j, ok);
      s'.sessions == s.sessions && s'.completions == s.completions && s'.threads == s.threads && s'.queue == s.queue &&
      s'.born == s.born && s'.jobs.Keys == s.jobs.Keys && s'.gates <= s.gates && s'.active == s.active &&
      (forall d :: d in s.jobs && d != j ==> s'.jobs[d] == s.jobs[d]) && s'.admission == s.admission &&
      (j in s.jobs && s'.jobs[j] != s.jobs[j] ==> s'.jobs[j].status.Cancelled?)
  {
    if !ok || !HasStatus(s, j, Queued) {
    } else {
      var x := s.jobs[j].birth.snapshot;
      var s1 := Transition(s, j, Queued, Cancelling(s.jobs[j]));
      ReleaseFrame(s1, x);
      CloseGateFrame(Release(s1, x), j);
      hide Release, CloseGate;
    }
  }

  lemma ReleaseFrame(s: State, x: SnapshotId)
    ensures Release(s, x) == s.(pins := Release(s, x).pins)
  {
    if x !in s.pins {
    } else if s.pins[x] <= 1 {
    } else {
    }
  }

  lemma CloseGateFrame(s: State, j: JobId)
    ensures CloseGate(s, j) == s.(gates := CloseGate(s, j).gates, version := CloseGate(s, j).version)
    ensures CloseGate(s, j).gates <= s.gates
  {
    if j in s.completions || j !in s.gates {
    } else {
    }
  }

  lemma CloseEvolves(s: State, sid: SessionId, okPending: bool, okRunning: bool)
    requires Inv(s) && CanClose(s, sid, okPending, okRunning)
    ensures Evolves(s, Close(s, sid, okPending, okRunning))
  {
    hide Inv, Cancel, Release, Evolves, CancelRunning;
    Recorded(s);
    var s1 := CancelPending(s, sid);
    var running := s.sessions[sid].running;
    if s.sessions[sid].pending.Some? {
      CancelEvolves(s, s.sessions[sid].pending.value, true);
      CancelFrame(s, s.sessions[sid].pending.value, true);
    } else {
      UntouchedEvolves(s, s);
    }
    if running.Some? && Interruptible(s, running.value) && !okRunning {
    } else {
      RunningEvolves(s, s1, sid);
      var s2 := CancelRunning(s1, sid);
      if s2.sessions[sid].snapshot.Some? {
        ReleaseUntouched(s2.(sessions := s2.sessions - {sid}), s2.sessions[sid].snapshot.value);
      } else {
      }
      EvolvesAround(s, s, s2, Close(s, sid, okPending, okRunning));
    }
  }

  lemma RunningEvolves(s: State, s1: State, sid: SessionId)
    requires Evolves(s, s1) && s1.jobs.Keys == s.jobs.Keys && s1.born == s.born && s1.gates <= s.gates
    requires sid in s1.sessions && s.jobs.Keys <= s.born.Keys
    requires forall j :: j in s.jobs && s1.jobs[j] != s.jobs[j] ==> !s1.jobs[j].status.Running?
    ensures Evolves(s, CancelRunning(s1, sid)) && CancelRunning(s1, sid).sessions == s1.sessions
  {
    var running := s1.sessions[sid].running;
    if running.Some? && Interruptible(s1, running.value) && HasStatus(s1, running.value, Running) {
      var s2 := CancelRunning(s1, sid);
      assert forall j :: JobEvolves(s, s1, j) ==> JobEvolves(s, s2, j);
    } else {
    }
  }

  lemma SessionEvolves(s: State, step: SessionStep)
    requires Inv(s) && SessionEnabled(s, step)
    ensures Evolves(s, SessionApply(s, step))
  {
    hide Inv, Evolves, SaveRevision, Supersede, Accept, Abort, Schedule, Close, Release;
    match step
    case StepOpen(sid) => UntouchedEvolves(s, Open(s, sid));
    case StepExpire(sid) => UntouchedEvolves(s, Expire(s, sid));
    case StepPrepare(sid, x) => UntouchedEvolves(s, Prepare(s, sid, x));
    case StepRefuse =>
      ReleaseUntouched(s.(admission := Free), s.admission.snapshot);
      UntouchedEvolves(s, Refuse(s));
    case StepSaveRevision(j) => SaveRevisionEvolves(s, j);
    case StepSupersede(ok) => SupersedeEvolves(s, ok);
    case StepAccept =>
      AcceptUntouched(s);
      UntouchedEvolves(s, Accept(s));
    case StepFailPin => UntouchedEvolves(s, FailPin(s));
    case StepAbort(ok) => AbortEvolves(s, ok);
    case StepReschedule(sid) =>
      ScheduleUntouched(s, sid);
      UntouchedEvolves(s, Schedule(s, sid));
    case StepClose(sid, okPending, okRunning) => CloseEvolves(s, sid, okPending, okRunning);
  }

  lemma SaveRevisionEvolves(s: State, j: JobId)
    requires Inv(s) && CanSaveRevision(s, j)
    ensures Evolves(s, SaveRevision(s, j))
  {
    hide Inv;
    Recorded(s);
    var sid := s.admission.session;
    SaveEvolves(s, SaveRevision(s, j), j, Birth(s.admission.snapshot, Some(sid), s.sessions[sid].revision + 1));
  }

  // ----- Workers -----

  lemma TakeUntouched(s: State, t: ThreadId)
    requires CanTake(s, t)
    ensures Untouched(s, Take(s, t))
  {
    var sid := s.threads[t].session;
    if sid !in s.sessions {
    } else if s.sessions[sid].running.Some? || s.sessions[sid].pending.None? {
    } else {
    }
  }

  lemma LoadUntouched(s: State, t: ThreadId, ok: bool)
    requires CanLoad(s, t, ok)
    ensures Untouched(s, Load(s, t, ok))
  {
    if !ok {
    } else if s.threads[t].id in s.jobs {
    } else if s.native {
    } else {
    }
  }

  lemma StartEvolves(s: State, t: ThreadId, ok: bool)
    requires Inv(s) && CanStart(s, t, ok)
    ensures Evolves(s, Start(s, t, ok))
  {
    hide Inv, Cancel, Evolves, OwnsAttempt, Transition;
    var j, seen := s.threads[t].id, s.threads[t].seen;
    SeenBorn(s, t);
    Recorded(s);
    if !seen.status.Queued? {
      UntouchedEvolves(s, SetThread(s, t, Ending(j, if seen.status.Terminal() then Some(seen.status) else None)));
    } else if !OwnsAttempt(s, j, seen.birth) {
      var s1 := SetThread(s, t, Ending(j, None));
      CancelEvolves(s1, j, ok);
      EvolvesAround(s, s1, Cancel(s1, j, ok), Cancel(s1, j, ok));
    } else if !ok {
      UntouchedEvolves(s, SetThread(s, t, Requeueing(j)));
    } else if !HasStatus(s, j, Queued) {
      UntouchedEvolves(s, SetThread(s, t, Deactivating(j, None)));
    } else {
      var running := seen.(status := Running);
      StartsEvolves(s, j, running);
      EvolvesAround(s, s, Transition(s, j, Queued, running),
                    SetThread(Transition(s, j, Queued, running).(active := s.active + {j}), t, Compiling(j, running)));
    }
  }

  lemma SeenBorn(s: State, t: ThreadId)
    requires Inv(s) && t in s.threads && s.threads[t].Loaded?
    ensures BornAs(s, s.threads[t].id, s.threads[t].seen)
  {
    hide Tally;
    assert PcOk(s, t, s.threads[t]);
  }

  lemma StartsEvolves(s: State, j: JobId, running: Job)
    requires HasStatus(s, j, Queued) && s.jobs[j].birth == running.birth && running.status.Running?
    requires OwnsAttempt(s, j, running.birth) && s.jobs.Keys <= s.born.Keys
    ensures Evolves(s, Transition(s, j, Queued, running))
  {
    assert forall d :: JobEvolves(s, Transition(s, j, Queued, running), d);
  }

  lemma FinishEvolves(s: State, t: ThreadId, w: Write)
    requires Inv(s) && CanFinish(s, t, w)
    ensures Evolves(s, Finish(s, t, w))
  {
    hide Tally;
    var j, done := s.threads[t].id, s.threads[t].done;
    assert BornAs(s, j, done) && done.status.Terminal() by { assert PcOk(s, t, s.threads[t]); }
    DriverAlone(s, t, j);
    if w.Lost? {
      UntouchedEvolves(s, s);
    } else if HasStatus(s, j, Running) {
      TransitionEvolves(s, j, Running, done);
      var written := Transition(s, j, Running, done);
      hide Inv, Transition;
      if w.Applied? {
        EvolvesAround(s, s, written, Finish(s, t, w));
      } else {
      }
    } else if j in s.jobs && s.jobs[j].status.Terminal() {
      UntouchedEvolves(s, Finish(s, t, w));
    } else {
      UntouchedEvolves(s, s);
    }
  }

  lemma AccountEvolves(s: State, t: ThreadId, cached: bool, result: nat, w: Write)
    requires Inv(s) && CanAccount(s, t, w)
    ensures Evolves(s, Account(s, t, cached, result, w))
  {
    hide Tally;
    var s' := Account(s, t, cached, result, w);
    var j, job := s.threads[t].id, s.threads[t].job;
    assert BornAs(s, j, job) && Attempted(s, j) && job.status.Succeeded? by { assert PcOk(s, t, s.threads[t]); }
    if !cached {
      UntouchedEvolves(s, s');
    } else if w.Lost? {
      UntouchedEvolves(s, s');
    } else {
      TransitionEvolves(s, j, Succeeded, job.(result := result));
      var written := Transition(s, j, Succeeded, job.(result := result));
      assert Untouched(written, s') by { hide Inv; }
      EvolvesAround(s, s, written, s');
    }
  }

  lemma ReleaseSourceUntouched(s: State, t: ThreadId)
    requires CanReleaseSource(s, t)
    ensures Untouched(s, ReleaseSource(s, t))
  {
    hide Release;
    var pc := s.threads[t];
    var moved := SetThread(s, t, if pc.job.status.Succeeded? then Accounting(pc.id, pc.job)
                                 else Deactivating(pc.id, Some(pc.job.status)));
    ReleaseUntouched(moved, pc.job.birth.snapshot);
  }

  lemma WorkerEvolves(s: State, step: WorkerStep)
    requires Inv(s) && WorkerEnabled(s, step)
    ensures Evolves(s, WorkerApply(s, step))
  {
    hide Inv, Evolves, Take, Load, Start, Finish, ReleaseSource, Account;
    match step
    case StepReceive(t) => UntouchedEvolves(s, Receive(s, t));
    case StepTake(t) => TakeUntouched(s, t); UntouchedEvolves(s, Take(s, t));
    case StepLoad(t, ok) => LoadUntouched(s, t, ok); UntouchedEvolves(s, Load(s, t, ok));
    case StepRequeue(t) => UntouchedEvolves(s, Requeue(s, t));
    case StepStart(t, ok) => StartEvolves(s, t, ok);
    case StepCompile(t, outcome, result) => UntouchedEvolves(s, Compile(s, t, outcome, result));
    case StepFinish(t, w) => FinishEvolves(s, t, w);
    case StepDefer(t) => UntouchedEvolves(s, Defer(s, t));
    case StepReleaseSource(t) => ReleaseSourceUntouched(s, t); UntouchedEvolves(s, ReleaseSource(s, t));
    case StepAccount(t, cached, result, w) => AccountEvolves(s, t, cached, result, w);
  }

  // ----- The tail and recovery -----

  lemma FreeSlotUntouched(s: State, t: ThreadId)
    requires CanFreeSlot(s, t)
    ensures Untouched(s, FreeSlot(s, t))
  {
    var j, status := s.threads[t].id, s.threads[t].known.value;
    var moved := SetThread(s, t, Gating(j));
    var birth := s.born[j];
    if birth.session.None? || birth.session.value !in s.sessions ||
       s.sessions[birth.session.value].running != Some(j) {
    } else {
      var sid := birth.session.value;
      ScheduleUntouched(moved.(sessions := s.sessions[sid := Freed(s.sessions[sid], j, status, birth.revision)]), sid);
      hide Schedule;
    }
  }

  lemma RetryEvolves(s: State, j: JobId, w: Write)
    requires Inv(s) && CanRetry(s, j, w)
    ensures Evolves(s, Retry(s, j, w))
  {
    hide Tally;
    var entry := s.completions[j];
    assert CompletionOk(s, j);
    if w.Lost? {
      UntouchedEvolves(s, s);
    } else if HasStatus(s, j, entry.from) {
      TransitionEvolves(s, j, entry.from, entry.job);
      var written := Transition(s, j, entry.from, entry.job);
      hide Inv, Transition;
      if w.Applied? {
        EvolvesAround(s, s, written, Retry(s, j, w));
      } else {
      }
    } else if j in s.jobs && s.jobs[j].status.Terminal() {
      UntouchedEvolves(s, Retry(s, j, w));
    } else {
      UntouchedEvolves(s, s);
    }
  }

  lemma UnpinUntouched(s: State)
    requires CanUnpin(s)
    ensures Untouched(s, Unpin(s))
  {
    hide Release;
    var pc := s.threads[Recovery];
    if pc.entry.from.Running? {
      ReleaseUntouched(SetThread(s, Recovery, Ending(pc.id, Some(pc.status))), pc.entry.job.birth.snapshot);
    } else {
    }
  }

  lemma EndGateEvolves(s: State, t: ThreadId)
    requires CanEndGate(s, t)
    ensures Evolves(s, EndGate(s, t))
  {
    CloseGateEvolves(EndThread(s, t), s.threads[t].id);
    hide CloseGate;
    EvolvesAround(s, EndThread(s, t), EndGate(s, t), EndGate(s, t));
  }

  lemma TailEvolves(s: State, step: TailStep)
    requires Inv(s) && TailEnabled(s, step)
    ensures Evolves(s, TailApply(s, step))
  {
    hide Inv, Evolves, FreeSlot, EndGate, Retry, Unpin;
    match step
    case StepDeactivate(t) => UntouchedEvolves(s, Deactivate(s, t));
    case StepCheck(t) => UntouchedEvolves(s, Check(s, t));
    case StepReload(t) => UntouchedEvolves(s, Reload(s, t));
    case StepFreeSlot(t) => FreeSlotUntouched(s, t); UntouchedEvolves(s, FreeSlot(s, t));
    case StepEndGate(t) => EndGateEvolves(s, t);
    case StepRetry(j, w) => RetryEvolves(s, j, w);
    case StepDrop => UntouchedEvolves(s, Drop(s));
    case StepUnpin => UnpinUntouched(s); UntouchedEvolves(s, Unpin(s));
    case StepForget(j) => UntouchedEvolves(s, Forget(s, j));
  }

  lemma StepEvolves(s: State, step: Step)
    requires Inv(s) && Enabled(s, step)
    ensures Evolves(s, Apply(s, step))
  {
    hide Inv, Evolves, ClientApply, SessionApply, WorkerApply, TailApply;
    match step
    case OfClient(x) => ClientEvolves(s, x);
    case OfSession(x) => SessionEvolves(s, x);
    case OfWorker(x) => WorkerEvolves(s, x);
    case OfTail(x) => TailEvolves(s, x);
  }
}
