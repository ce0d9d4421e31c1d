/**
 A pending revision does not wait for ever: whenever its session is idle, the
 maintenance tick, the channel and finitely many workers get it started.
 */
module JobPending {
  import opened Options
  import opened Counting
  import opened JobState
  import opened JobSteps
  import opened JobInvariant
  import opened JobSessions
  import opened JobEffects
  import opened JobRuns

  /** The session is idle, and the job is its pending one. */
  predicate Waits(s: State, sid: SessionId, j: JobId) {
    s.admission.Free? && sid in s.sessions && s.sessions[sid].running.None? && s.sessions[sid].pending == Some(j)
  }

  /** Only the maintenance tick and workers that take tokens. */
  predicate Wakes(step: Step) {
    (step.OfSession? && step.stepSession.StepReschedule?) || (step.OfWorker? && (step.stepWorker.StepReceive? || step.stepWorker.StepTake?))
  }

  /** A finite continuation of s by such steps, after which the session runs the job. */
  ghost predicate Starts(states: seq<State>, steps: seq<Step>, s: State, sid: SessionId, j: JobId) {
    |states| == |steps| + 1 && states[0] == s &&
    (forall i :: 0 <= i < |steps| ==> Wakes(steps[i]) && Enabled(states[i], steps[i]) && states[i + 1] == Apply(states[i], steps[i])) &&
    sid in states[|steps|].sessions && states[|steps|].sessions[sid].running == Some(j)
  }

  lemma First(s: State, step: Step, sid: SessionId, j: JobId, states: seq<State>, steps: seq<Step>)
      returns (states': seq<State>, steps': seq<Step>)
    requires Enabled(s, step) && Wakes(step) && Starts(states, steps, Apply(s, step), sid, j)
    ensures Starts(states', steps', s, sid, j)
  {
    hide Enabled, Apply, Wakes;
    states', steps' := [s] + states, [step] + steps;
    forall i | 0 <= i < |steps'|
      ensures Wakes(steps'[i]) && Enabled(states'[i], steps'[i]) && states'[i + 1] == Apply(states'[i], steps'[i])
    {
      assert i > 0 ==> steps'[i] == steps[i - 1] && states'[i] == states[i - 1];
      assert states'[i + 1] == states[i];
    }
    assert states'[|steps'|] == states[|steps|];
  }

  lemma Last(s: State, step: Step, sid: SessionId, j: JobId) returns (states: seq<State>, steps: seq<Step>)
    requires Enabled(s, step) && Wakes(step)
    requires sid in Apply(s, step).sessions && Apply(s, step).sessions[sid].running == Some(j)
    ensures Starts(states, steps, s, sid, j)
  {
    hide Enabled, Apply, Wakes;
    states, steps := [s, Apply(s, step)], [step];
  }

  // ----- The steps -----

  lemma TakeStep(s: State, t: ThreadId, sid: SessionId, j: JobId)
    requires Waits(s, sid, j) && t in s.threads && s.threads[t] == Taking(sid)
    ensures var step := OfWorker(StepTake(t));
      Wakes(step) && Enabled(s, step) && sid in Apply(s, step).sessions && Apply(s, step).sessions[sid].running == Some(j)
  {
    hide Load, Requeue, Start, Compile, Finish, Defer, ReleaseSource, Account;
  }

  lemma ReceiveStep(s: State, t: ThreadId)
    requires CanReceive(s, t)
    ensures var step := OfWorker(StepReceive(t)); var s' := Apply(s, OfWorker(StepReceive(t)));
      Wakes(step) && Enabled(s, step) && s'.queue == s.queue[1..] && s'.sessions == s.sessions && s'.admission == s.admission &&
      s'.limit == s.limit && t in s'.threads && (s.queue[0].ForSession? ==> s'.threads[t] == Taking(s.queue[0].session))
  {
    hide Take, Load, Requeue, Start, Compile, Finish, Defer, ReleaseSource, Account;
  }

  lemma RescheduleStep(s: State, sid: SessionId, j: JobId)
    requires Waits(s, sid, j) && !s.sessions[sid].scheduled && |s.queue| < 2 * s.limit
    ensures var step := OfSession(StepReschedule(sid)); var s' := Apply(s, OfSession(StepReschedule(sid)));
      Wakes(step) && Enabled(s, step) && Waits(s', sid, j) && ForSession(sid) in s'.queue
  {
    ScheduleEffect(s, sid);
    hide Schedule, Refuse, Supersede, Accept, Abort, Close, SaveRevision;
  }

  // ----- From the token to the start -----

  lemma {:induction false} TokenStarts(s: State, sid: SessionId, j: JobId) returns (states: seq<State>, steps: seq<Step>)
    requires Waits(s, sid, j) && ForSession(sid) in s.queue
    ensures Starts(states, steps, s, sid, j)
    decreases |s.queue|
  {
    hide Apply, Enabled, Wakes, Starts;
    var t := IdleThread(s);
    var step := OfWorker(StepReceive(t));
    assert s.queue == [s.queue[0]] + s.queue[1..];
    ReceiveStep(s, t);
    var s' := Apply(s, step);
    if s.queue[0] == ForSession(sid) {
      TakeStep(s', t, sid, j);
      states, steps := Last(s', OfWorker(StepTake(t)), sid, j);
    } else {
      states, steps := TokenStarts(s', sid, j);
    }
    states, steps := First(s, step, sid, j, states, steps);
  }

  /** The token of a scheduled session is in the channel, or a worker has just taken it. */
  lemma TokenSomewhere(s: State, sid: SessionId)
    requires Inv(s) && sid in s.sessions && s.sessions[sid].scheduled
    ensures ForSession(sid) in s.queue || exists t :: t in s.threads && s.threads[t] == Taking(sid)
  {
    TokenCounted(s, sid);
    hide Inv, Count;
    TokensInQueue(sid, s.queue);
    var takers := set t | t in s.threads && s.threads[t] == Taking(sid);
    CountSet(s.threads, ThreadTest(TokenOf(sid)), takers);
    if takers != {} {
      var t :| t in takers;
    }
  }

  lemma TokenCounted(s: State, sid: SessionId)
    requires Inv(s) && sid in s.sessions && s.sessions[sid].scheduled
    ensures TokenCount(TokenOf(sid), s.queue) + Count(s.threads, ThreadTest(TokenOf(sid))) == 1
  {
    var m := TokenOf(sid);
    assert Tally(s, m) == 1;
    hide Inv;
    CountSet(s.jobs, JobTest(m), {});
    CountSet(s.completions, CompletionTest(m), {});
    CountSet(s.sessions, SessionTest(m), {});
    hide Count;
  }

  lemma UnscheduledStarts(s: State, sid: SessionId, j: JobId) returns (states: seq<State>, steps: seq<Step>)
    requires Waits(s, sid, j) && !s.sessions[sid].scheduled && |s.queue| < 2 * s.limit
    ensures Starts(states, steps, s, sid, j)
  {
    hide Apply, Enabled, Wakes, Starts;
    RescheduleStep(s, sid, j);
    states, steps := TokenStarts(Apply(s, OfSession(StepReschedule(sid))), sid, j);
    states, steps := First(s, OfSession(StepReschedule(sid)), sid, j, states, steps);
  }

  /** From every state of the invariant in which an idle session has a pending job, some continuation starts it. */
  lemma PendingStarts(s: State, sid: SessionId, j: JobId) returns (states: seq<State>, steps: seq<Step>)
    requires Inv(s) && s.limit > 0 && Waits(s, sid, j)
    ensures Starts(states, steps, s, sid, j)
  {
    hide Inv, Apply, Enabled, Wakes, Starts;
    if s.sessions[sid].scheduled {
      TokenSomewhere(s, sid);
      if ForSession(sid) in s.queue {
        states, steps := TokenStarts(s, sid, j);
      } else {
        var t :| t in s.threads && s.threads[t] == Taking(sid);
        TakeStep(s, t, sid, j);
        states, steps := Last(s, OfWorker(StepTake(t)), sid, j);
      }
    } else {
      states, steps := Drained(s, sid, j);
    }
  }

  /** A full channel has tokens to take first. */
  lemma {:induction false} Drained(s: State, sid: SessionId, j: JobId) returns (states: seq<State>, steps: seq<Step>)
    requires s.limit > 0 && Waits(s, sid, j) && !s.sessions[sid].scheduled
    ensures Starts(states, steps, s, sid, j)
    decreases |s.queue|
  {
    hide Apply, Enabled, Wakes, Starts;
    if |s.queue| < 2 * s.limit {
      states, steps := UnscheduledStarts(s, sid, j);
    } else {
      var t := IdleThread(s);
      ReceiveStep(s, t);
      states, steps := Drained(Apply(s, OfWorker(StepReceive(t))), sid, j);
      states, steps := First(s, OfWorker(StepReceive(t)), sid, j, states, steps);
    }
  }
}
