/**
 The engine as the program keeps it: one object whose fields the critical
 sections update in place.  Every method is one critical section, or a store
 call inside one, and is proved against the transition it performs.
 */
module JobManager {
  import opened Options
  import opened JobState
  import opened JobSteps
  import opened JobInvariant
  import opened JobEvolution
  import opened JobResponsibility
  import opened JobRuns

  /** SubmitRevision from the prepared upload on, when nothing else runs in between. */
  function Revised(s: State, j: JobId, okCancel: bool, okPin: bool, okAbort: bool): State
    requires s.admission.Prepared? && s.admission.session in s.sessions && j !in s.born && (s.native ==> okCancel && okAbort)
  {
    if !CanSaveRevision(s, j) then Refuse(s)
    else Replacing(SaveRevision(s, j), okCancel, okPin, okAbort)
  }

  function Replacing(s: State, okCancel: bool, okPin: bool, okAbort: bool): State
    requires CanSupersede(s, okCancel) && (s.native ==> okAbort)
  {
    var pending := s.sessions[s.admission.session].pending;
    if pending.Some? && !CancelSucceeds(s, pending.value, okCancel) then Aborted(s, okAbort)
    else Pinning(if pending.Some? then Cancel(s, pending.value, okCancel) else s, okPin, okAbort)
  }

  function Aborted(s: State, ok: bool): State
    requires s.admission.Saved?
  { Cancel(s.(admission := Free), s.admission.id, ok) }

  function Pinning(s: State, okPin: bool, okAbort: bool): State
    requires s.admission.Saved?
  {
    var replaced := s.(admission := JobState.Replaced(s.admission.session, s.admission.snapshot, s.admission.id));
    if okPin && CanAccept(replaced) then Accept(replaced) else Aborted(s, okAbort)
  }

  lemma FailedCancel(s: State, j: JobId, ok: bool)
    requires !CancelSucceeds(s, j, ok)
    ensures Cancel(s, j, ok) == s
  {
  }

  class Manager {
    const native: bool
    const limit: nat
    var jobs: map<JobId, Job>
    var queued: int
    var completions: map<JobId, Completion>
    var publications: set<JobId>
    var publicationVersion: nat
    var queue: seq<Token>
    var sessions: map<SessionId, Session>
    var active: set<JobId>
    var pins: map<SnapshotId, nat>
    // identifiers issued so far, and where each goroutine stands
    ghost var born: map<JobId, Birth>
    ghost var spent: set<SessionId>
    ghost var threads: map<ThreadId, Pc>
    ghost var admission: Admission

    ghost function View(): State
      reads this
    {
      State(native, limit, jobs, born, queued, completions, publications, publicationVersion, queue,
            sessions, spent, active, pins, threads, admission)
    }

    constructor (native: bool, limit: nat)
      ensures View() == Initial(native, limit) && Inv(View())
    {
      this.native, this.limit := native, limit;
      jobs, queued, completions, publications, publicationVersion := map[], 0, map[], {}, 0;
      queue, sessions, active, pins := [], map[], {}, map[];
      born, spent, threads, admission := map[], {}, map[], Free;
      new;
      InitialInv(native, limit);
    }

    method ReleaseSnapshot(x: SnapshotId)
      modifies `pins
      ensures View() == Release(old(View()), x)
    {
      if x in pins {
        if pins[x] <= 1 {
          pins := pins - {x};
        } else {
          pins := pins[x := pins[x] - 1];
        }
      }
    }

    /** The conditional update of the native store; the counter follows the status. */
    method Transition(j: JobId, next: Job, expected: Status) returns (changed: bool)
      modifies `jobs, `queued
      ensures changed == HasStatus(old(View()), j, expected)
      ensures View() == JobState.Transition(old(View()), j, expected, next)
    {
      if j !in jobs || jobs[j].status != expected {
        return false;
      }
      if jobs[j].status.Queued? && !next.status.Queued? {
        queued := queued - 1;
      }
      if !jobs[j].status.Queued? && next.status.Queued? {
        queued := queued + 1;
      }
      jobs := jobs[j := next];
      return true;
    }

    method EndPublication(j: JobId)
      modifies `publications, `publicationVersion
      ensures View() == CloseGate(old(View()), j)
    {
      if j in completions {
        return;
      }
      if j in publications {
        publications := publications - {j};
        publicationVersion := publicationVersion + 1;
      }
    }

    /** Loads, conditionally updates, releases the pin and opens the gate; an error leaves everything as it was. */
    method Cancel(j: JobId, ok: bool) returns (cancelled: bool)
      modifies `jobs, `queued, `pins, `publications, `publicationVersion
      ensures cancelled == CancelSucceeds(old(View()), j, ok)
      ensures View() == JobState.Cancel(old(View()), j, ok)
    {
      if !ok || j !in jobs {
        return false;
      }
      var rec := jobs[j];
      if rec.status.Cancelled? {
        return true;
      }
      ghost var s0 := View();
      var changed := Transition(j, Cancelling(rec), Queued);
      if !changed {
        return false;
      }
      ReleaseSnapshot(rec.birth.snapshot);
      EndPublication(j);
      return true;
    }

    method Save(j: JobId, birth: Birth)
      modifies `jobs, `queued, `publications, `born
      ensures View() == JobState.Save(old(View()), j, birth)
    {
      jobs := jobs[j := Job(birth, Queued, 0)];
      queued := queued + 1;
      publications := publications + {j};
      born := born[j := birth];
    }

    /** The admission region of Enqueue: count, save, and hand over the identifier. */
    method Admit(ghost t: ThreadId, snapshot: SnapshotId, j: JobId, ok: bool) returns (accepted: bool)
      requires CanAdmit(View(), t, j, ok) && threads[t] == Pinned(snapshot)
      modifies this
      ensures View() == JobSteps.Admit(old(View()), t, j, ok)
      ensures queue == if accepted then old(queue) + [ForJob(j)] else old(queue)
    {
      if queued + |completions| >= limit || !ok {
        threads := threads[t := Rejected(snapshot)];
        return false;
      }
      Save(j, Birth(snapshot, None, 0));
      accepted := |queue| < 2 * limit;
      if accepted {
        queue := queue + [ForJob(j)];
        threads := threads - {t};
      } else {
        threads := threads[t := Withdrawing(j)];
      }
    }

    /** A non-blocking send of the session's token. */
    method ScheduleSession(sid: SessionId)
      modifies `sessions, `queue
      ensures View() == Schedule(old(View()), sid)
    {
      if sid !in sessions {
        return;
      }
      var session := sessions[sid];
      if session.scheduled || session.running.Some? || session.pending.None? {
        return;
      }
      if |queue| < 2 * limit {
        queue := queue + [ForSession(sid)];
        sessions := sessions[sid := session.(scheduled := true)];
      }
    }

    method TakeSession(ghost t: ThreadId, sid: SessionId) returns (job: Option<JobId>)
      requires CanTake(View(), t) && threads[t] == Taking(sid)
      modifies `sessions, `threads
      ensures View() == Take(old(View()), t)
      ensures job.Some? ==> sid in sessions && sessions[sid].running == job && sessions[sid].pending == None
    {
      if sid !in sessions {
        threads := threads - {t};
        return None;
      }
      var session := sessions[sid].(scheduled := false);
      if session.running.Some? || session.pending.None? {
        sessions := sessions[sid := session];
        threads := threads - {t};
        return None;
      }
      job := session.pending;
      sessions := sessions[sid := session.(pending := None, running := job)];
      threads := threads[t := Loading(job.value)];
    }

    /** The start region of a worker: the session must own the attempt, then the record is claimed. */
    method StartJob(ghost t: ThreadId, j: JobId, seen: Job, ok: bool)
      requires CanStart(View(), t, ok) && threads[t] == Loaded(j, seen) && seen.status.Queued?
      modifies this
      ensures View() == Start(old(View()), t, ok)
    {
      var owned := true;
      if seen.birth.session.Some? {
        var sid := seen.birth.session.value;
        owned := sid in sessions && !sessions[sid].expired && sessions[sid].running == Some(j);
      }
      if !owned {
        threads := threads[t := Ending(j, None)];
        var _ := Cancel(j, ok);
        return;
      }
      if !ok {
        threads := threads[t := Requeueing(j)];
        return;
      }
      var running := seen.(status := Running);
      var changed := Transition(j, running, Queued);
      if changed {
        active := active + {j};
        threads := threads[t := Compiling(j, running)];
      } else {
        threads := threads[t := Deactivating(j, None)];
      }
    }

    method DeferCompletion(ghost t: ThreadId, j: JobId, done: Job)
      requires CanDefer(View(), t) && threads[t] == Finishing(j, done)
      modifies `completions, `threads
      ensures View() == Defer(old(View()), t)
    {
      completions := completions[j := Completion(j, Running, done)];
      threads := threads[t := Deactivating(j, Some(done.status))];
    }

    /** The locked part of finishSession. */
    method FinishSession(ghost t: ThreadId, j: JobId, birth: Birth, status: Status)
      requires CanFreeSlot(View(), t) && threads[t] == Closing(j, Some(status)) && born[j] == birth
      modifies `sessions, `queue, `threads
      ensures View() == FreeSlot(old(View()), t)
    {
      threads := threads[t := Gating(j)];
      if birth.session.None? {
        return;
      }
      var sid := birth.session.value;
      if sid !in sessions || sessions[sid].running != Some(j) {
        return;
      }
      var session := sessions[sid].(running := None);
      if status.Succeeded? {
        session := session.(lastSuccess := Some(j), lastRevision := birth.revision);
      }
      sessions := sessions[sid := session];
      ScheduleSession(sid);
    }

    /** One pass of the recovery goroutine over one deferred outcome. */
    method RetryCompletion(j: JobId, w: Write) returns (confirmed: Option<Status>)
      requires CanRetry(View(), j, w)
      modifies `jobs, `queued, `threads
      ensures View() == Retry(old(View()), j, w)
      ensures confirmed.Some? ==> j in jobs && jobs[j].status == confirmed.value
    {
      var entry := completions[j];
      if w.Lost? {
        return None;
      }
      var changed := Transition(j, entry.job, entry.from);
      if changed {
        if w.Applied? {
          threads := threads[Recovery := Confirmed(j, entry, entry.job.status)];
          return Some(entry.job.status);
        }
        return None;
      }
      if j in jobs && jobs[j].status.Terminal() {
        threads := threads[Recovery := Confirmed(j, entry, jobs[j].status)];
        return Some(jobs[j].status);
      }
      return None;
    }

    /** The second pin, and the session's new tree, revision and pending job. */
    method AdvanceSession(sid: SessionId, snapshot: SnapshotId, j: JobId)
      requires CanAccept(View()) && admission == JobState.Replaced(sid, snapshot, j)
      modifies `pins, `sessions, `admission
      ensures View() == Advance(old(View()))
    {
      hide Release;
      var session := sessions[sid];
      pins := pins[snapshot := (if snapshot in pins then pins[snapshot] else 0) + 1];
      if session.snapshot.Some? {
        ReleaseSnapshot(session.snapshot.value);
      }
      sessions := sessions[sid := session.(revision := session.revision + 1, pending := Some(j), snapshot := Some(snapshot))];
      admission := Free;
    }

    method AbortRevision(j: JobId, ok: bool)
      requires admission.Saved? && admission.id == j
      modifies this
      ensures View() == Aborted(old(View()), ok)
    {
      admission := Free;
      var _ := Cancel(j, ok);
    }

    /** SubmitRevision after PrepareUpload: reserve room, save, replace the pending job, then move the session on. */
    method SubmitRevision(sid: SessionId, snapshot: SnapshotId, j: JobId, okCancel: bool, okPin: bool, okAbort: bool)
      returns (accepted: bool)
      requires admission == Prepared(sid, snapshot) && sid in sessions && j !in born && (native ==> okCancel && okAbort)
      modifies this
      ensures View() == Revised(old(View()), j, okCancel, okPin, okAbort)
    {
      var session := sessions[sid];
      var pending := queued + |completions|;
      if session.pending.Some? {
        if session.pending.value !in jobs {
          admission := Free;
          ReleaseSnapshot(snapshot);
          return false;
        }
        if jobs[session.pending.value].status.Queued? {
          pending := pending - 1;
        }
      }
      if pending >= limit {
        admission := Free;
        ReleaseSnapshot(snapshot);
        return false;
      }
      ghost var s0 := View();
      Save(j, Birth(snapshot, Some(sid), session.revision + 1));
      admission := Saved(sid, snapshot, j);
      assert View() == SaveRevision(s0, j);
      accepted := ReplacePending(sid, snapshot, j, okCancel, okPin, okAbort);
    }

    method ReplacePending(sid: SessionId, snapshot: SnapshotId, j: JobId, okCancel: bool, okPin: bool, okAbort: bool)
      returns (accepted: bool)
      requires admission == Saved(sid, snapshot, j) && sid in sessions && (native ==> okCancel && okAbort)
      modifies this
      ensures View() == Replacing(old(View()), okCancel, okPin, okAbort)
    {
      hide JobState.Cancel, Accept;
      var session := sessions[sid];
      if session.pending.Some? {
        ghost var s0 := View();
        CancelFrame(s0, session.pending.value, okCancel);
        var cancelled := Cancel(session.pending.value, okCancel);
        if !cancelled {
          assert View() == s0 by { FailedCancel(s0, session.pending.value, okCancel); }
          AbortRevision(j, okAbort);
          return false;
        }
      }
      accepted := PinAndAccept(sid, snapshot, j, okPin, okAbort);
    }

    method PinAndAccept(sid: SessionId, snapshot: SnapshotId, j: JobId, okPin: bool, okAbort: bool) returns (accepted: bool)
      requires admission == Saved(sid, snapshot, j) && sid in sessions
      modifies this
      ensures View() == Pinning(old(View()), okPin, okAbort)
    {
      hide JobState.Cancel, Advance, Schedule;
      if okPin {
        admission := JobState.Replaced(sid, snapshot, j);
        AdvanceSession(sid, snapshot, j);
        ScheduleSession(sid);
        return true;
      }
      AbortRevision(j, okAbort);
      return false;
    }

    /** Cancels the running attempt if it can still be interrupted. */
    method Interrupt(sid: SessionId)
      requires sid in sessions
      modifies `jobs, `queued
      ensures View() == CancelRunning(old(View()), sid)
    {
      var running := sessions[sid].running;
      if running.Some? && (running.value in active || running.value in completions) && running.value in jobs {
        var _ := Transition(running.value, Cancelling(jobs[running.value]), Running);
      }
    }

    method RemoveSession(sid: SessionId)
      requires sid in sessions
      modifies `sessions, `pins
      ensures View() == Remove(old(View()), sid)
    {
      var snapshot := sessions[sid].snapshot;
      sessions := sessions - {sid};
      if snapshot.Some? {
        ReleaseSnapshot(snapshot.value);
      }
    }

    /** closeSessionLocked: a pending job that cannot be cancelled leaves everything as it was. */
    method CloseSession(sid: SessionId, okPending: bool, okRunning: bool) returns (closed: bool)
      requires admission.Free? && sid in sessions && (native ==> okPending && okRunning)
      modifies this
      ensures View() == if CanClose(old(View()), sid, okPending, okRunning)
                        then Close(old(View()), sid, okPending, okRunning) else old(View())
      ensures closed <==> sid !in sessions
    {
      ghost var s0 := View();
      var session := sessions[sid];
      if session.pending.Some? {
        CancelFrame(s0, session.pending.value, okPending);
        var cancelled := Cancel(session.pending.value, okPending);
        if !cancelled {
          FailedCancel(s0, session.pending.value, okPending);
          return false;
        }
        assert okPending;
      }
      assert View() == CancelPending(s0, sid);
      hide JobState.Cancel, CancelRunning, Remove;
      if session.running.Some? && (session.running.value in active || session.running.value in completions) && !okRunning {
        return false;
      }
      CancelFrame(s0, if session.pending.Some? then session.pending.value else 0, true);
      Interrupt(sid);
      CancelRunningFrame(CancelPending(s0, sid), sid);
      RemoveSession(sid);
      RemoveFrame(CancelRunning(CancelPending(s0, sid), sid), sid);
      return true;
    }

    /** The native retention sweep: every terminal record that finished before the cutoff and has no gate. */
    method PruneTerminal(before: set<JobId>)
      modifies `jobs
      ensures View() == Sweep(old(View()), set j | j in old(jobs) && j in before && old(jobs)[j].status.Terminal() && j !in publications)
    {
      var left := jobs.Keys;
      ghost var swept: set<JobId> := {};
      while left != {}
        invariant left <= old(jobs).Keys
        invariant swept == set j | j in old(jobs) - left && j in before && old(jobs)[j].status.Terminal() && j !in publications
        invariant jobs == old(jobs) - swept
        decreases left
      {
        var j :| j in left;
        left := left - {j};
        if jobs[j].status.Terminal() && j !in publications && j in before {
          jobs := jobs - {j};
          swept := swept + {j};
        }
      }
    }
  }
}
