/** Short runs in which the engine misses what one would expect of it. */
module JobFindings {
  import opened Options
  import opened JobState
  import opened JobSteps
  import opened JobResponsibility
  import opened JobService
  import opened JobRuns

  const FIRST := Birth(0, Some(0), 1)
  const WORKER := ThreadId.Worker(0)

  lemma Then(native: bool, states: seq<State>, steps: seq<Step>, step: Step, next: State)
      returns (states': seq<State>, steps': seq<Step>)
    requires IsRun(native, 1, states, steps)
    requires Enabled(states[|steps|], step) && next == Apply(states[|steps|], step)
    ensures IsRun(native, 1, states', steps') && states'[|steps'|] == next && |steps'| == |steps| + 1
  {
    hide Enabled, Apply;
    states', steps' := states + [next], steps + [step];
    forall i | 0 <= i < |steps'| ensures Enabled(states'[i], steps'[i]) && states'[i + 1] == Apply(states'[i], steps'[i]) {
      assert i < |steps| ==> states'[i] == states[i] && states'[i + 1] == states[i + 1] && steps'[i] == steps[i];
    }
  }

  /** One session has submitted its first revision; job 0 is queued behind one wake-up token. */
  function Submitted(native: bool): State {
    State(native, 1, map[0 := Job(FIRST, Queued, 0)], map[0 := FIRST], 1, map[], {0}, 0, [ForSession(0)],
          map[0 := Session(1, Some(0), None, None, 0, Some(0), true, false)], {0}, {}, map[0 := 2], map[], Free)
  }

  /** The session has been opened and its first revision is being admitted. */
  function Admitting(native: bool): State {
    Initial(native, 1).(sessions := map[0 := Session(0, None, None, None, 0, None, false, false)], spent := {0},
                       pins := map[0 := 1], admission := Prepared(0, 0))
  }

  lemma Admits(native: bool) returns (states: seq<State>, steps: seq<Step>)
    ensures IsRun(native, 1, states, steps) && states[|steps|] == Admitting(native)
  {
    var s0 := Initial(native, 1);
    assert IsRun(native, 1, [s0], []);
    hide IsRun;
    var s1 := Open(s0, 0);
    states, steps := Then(native, [s0], [], OfSession(StepOpen(0)), s1);
    assert Prepare(s1, 0, 0) == Admitting(native);
    states, steps := Then(native, states, steps, OfSession(StepPrepare(0, 0)), Admitting(native));
  }

  function Recorded(native: bool): State {
    Admitting(native).(jobs := map[0 := Job(FIRST, Queued, 0)], born := map[0 := FIRST], queued := 1, gates := {0},
                 admission := Saved(0, 0, 0))
  }

  lemma Records(native: bool, states: seq<State>, steps: seq<Step>) returns (states': seq<State>, steps': seq<Step>)
    requires IsRun(native, 1, states, steps) && states[|steps|] == Admitting(native)
    ensures IsRun(native, 1, states', steps') && states'[|steps'|] == Recorded(native)
  {
    hide IsRun;
    assert SaveRevision(Admitting(native), 0) == Recorded(native);
    states', steps' := Then(native, states, steps, OfSession(StepSaveRevision(0)), Recorded(native));
  }

  lemma Accepts(native: bool, states: seq<State>, steps: seq<Step>) returns (states': seq<State>, steps': seq<Step>)
    requires IsRun(native, 1, states, steps) && states[|steps|] == Recorded(native)
    ensures IsRun(native, 1, states', steps') && states'[|steps'|] == Submitted(native)
  {
    hide IsRun;
    var s1 := Recorded(native).(admission := Replaced(0, 0, 0));
    assert Supersede(Recorded(native), true) == s1;
    states', steps' := Then(native, states, steps, OfSession(StepSupersede(true)), s1);
    assert Advance(s1) == Submitted(native).(queue := [], sessions :=
      map[0 := Session(1, Some(0), None, None, 0, Some(0), false, false)]);
    assert Accept(s1) == Submitted(native);
    states', steps' := Then(native, states', steps', OfSession(StepAccept), Submitted(native));
  }

  lemma SubmitsFirst(native: bool) returns (states: seq<State>, steps: seq<Step>)
    ensures IsRun(native, 1, states, steps) && states[|steps|] == Submitted(native)
  {
    hide IsRun, Submitted, Recorded, Admitting;
    states, steps := Admits(native);
    states, steps := Records(native, states, steps);
    states, steps := Accepts(native, states, steps);
  }

  // ----- A slot is lost -----

  function Swept(native: bool): State {
    Submitted(native).(jobs := map[], queued := 0, gates := {}, version := 1, pins := map[0 := 1])
  }

  lemma CancelsAndSweeps(native: bool, states: seq<State>, steps: seq<Step>)
      returns (states': seq<State>, steps': seq<Step>)
    requires IsRun(native, 1, states, steps) && states[|steps|] == Submitted(native)
    ensures IsRun(native, 1, states', steps') && states'[|steps'|] == Swept(native)
  {
    hide IsRun;
    var s0 := Submitted(native);
    var s1 := UserCancel(s0, 0);
    assert s1 == Swept(native).(jobs := map[0 := Job(FIRST, Cancelled, 0)]);
    states', steps' := Then(native, states, steps, OfClient(StepUserCancel(0)), s1);
    states', steps' := Then(native, states', steps', OfClient(StepSweep({0})), Swept(native));
  }

  function Taken(native: bool): State {
    Swept(native).(queue := [], sessions := map[0 := Session(1, None, Some(0), None, 0, Some(0), false, false)],
                   threads := map[WORKER := Loading(0)])
  }

  lemma Takes(native: bool, states: seq<State>, steps: seq<Step>) returns (states': seq<State>, steps': seq<Step>)
    requires IsRun(native, 1, states, steps) && states[|steps|] == Swept(native)
    ensures IsRun(native, 1, states', steps') && states'[|steps'|] == Taken(native)
  {
    hide IsRun;
    var s1 := Receive(Swept(native), WORKER);
    assert s1 == Swept(native).(queue := [], threads := map[WORKER := Taking(0)]);
    states', steps' := Then(native, states, steps, OfWorker(StepReceive(WORKER)), s1);
    assert Take(s1, WORKER) == Taken(native);
    states', steps' := Then(native, states', steps', OfWorker(StepTake(WORKER)), Taken(native));
  }

  /**
   The pending job is cancelled and swept before its wake-up token is taken: in
   either mode the session now waits for an attempt that nobody can settle.
   */
  lemma SweptBeforeTaken(native: bool) returns (states: seq<State>, steps: seq<Step>)
    ensures IsRun(native, 1, states, steps) && states[|steps|] == Taken(native)
    ensures Holds(states[|steps|], 0, 0) && !Served(states[|steps|], 0)
  {
    hide IsRun, Served, Holds, Submitted, Swept, Taken;
    states, steps := SubmitsFirst(native);
    states, steps := CancelsAndSweeps(native, states, steps);
    states, steps := Takes(native, states, steps);
    TakenUnserved(native);
  }

  lemma TakenUnserved(native: bool)
    ensures Holds(Taken(native), 0, 0) && !Served(Taken(native), 0)
  {
    hide Responsible;
  }

  /** With the database the worker gives up. */
  lemma DatabaseGivesUp() returns (states: seq<State>, steps: seq<Step>)
    ensures IsRun(false, 1, states, steps) && LostSlot(states[|steps|], 0, 0)
  {
    hide IsRun;
    states, steps := SweptBeforeTaken(false);
    var s := Taken(false).(threads := map[]);
    assert Load(Taken(false), WORKER, true) == s;
    states, steps := Then(false, states, steps, OfWorker(StepLoad(WORKER, true)), s);
  }

  /** With the native store it puts the job back and takes it again, any number of times. */
  lemma {:induction false} NativeRequeues(n: nat) returns (states: seq<State>, steps: seq<Step>)
    ensures IsRun(true, 1, states, steps) && |steps| >= 3 * n && states[|steps|] == Taken(true)
  {
    hide IsRun;
    if n == 0 {
      states, steps := SweptBeforeTaken(true);
    } else {
      states, steps := NativeRequeues(n - 1);
      states, steps := RequeuesOnce(states, steps);
    }
  }

  lemma RequeuesOnce(states: seq<State>, steps: seq<Step>) returns (states': seq<State>, steps': seq<Step>)
    requires IsRun(true, 1, states, steps) && states[|steps|] == Taken(true)
    ensures IsRun(true, 1, states', steps') && states'[|steps'|] == Taken(true) && |steps'| == |steps| + 3
  {
    hide IsRun;
    var s1 := Taken(true).(threads := map[WORKER := Requeueing(0)]);
    assert Load(Taken(true), WORKER, true) == s1;
    states', steps' := Then(true, states, steps, OfWorker(StepLoad(WORKER, true)), s1);
    var s2 := Taken(true).(queue := [ForJob(0)], threads := map[]);
    assert Requeue(s1, WORKER) == s2;
    states', steps' := Then(true, states', steps', OfWorker(StepRequeue(WORKER)), s2);
    assert Receive(s2, WORKER) == Taken(true);
    states', steps' := Then(true, states', steps', OfWorker(StepReceive(WORKER)), Taken(true));
  }

  // ----- The queue overflows -----

  function Doubled(): State {
    var s := Submitted(false);
    s.(jobs := s.jobs[1 := Job(Birth(1, Some(0), 2), Queued, 0)], born := s.born[1 := Birth(1, Some(0), 2)], queued := 2,
       gates := {0, 1}, pins := s.pins[1 := 1], admission := Aborting(1))
  }

  lemma Doubles(states: seq<State>, steps: seq<Step>) returns (states': seq<State>, steps': seq<Step>)
    requires IsRun(false, 1, states, steps) && states[|steps|] == Submitted(false)
    ensures IsRun(false, 1, states', steps') && states'[|steps'|] == Doubled()
  {
    hide IsRun;
    var s1 := Prepare(Submitted(false), 0, 1);
    states', steps' := Then(false, states, steps, OfSession(StepPrepare(0, 1)), s1);
    var s2 := SaveRevision(s1, 1);
    assert s2 == Doubled().(admission := Saved(0, 1, 1));
    states', steps' := Then(false, states', steps', OfSession(StepSaveRevision(1)), s2);
    assert Supersede(s2, false) == Doubled();
    states', steps' := Then(false, states', steps', OfSession(StepSupersede(false)), Doubled());
  }

  /** Two failed cancellations in one admission leave more jobs queued than the limit of one allows. */
  lemma BothCancellationsFail() returns (states: seq<State>, steps: seq<Step>)
    ensures IsRun(false, 1, states, steps)
    ensures states[|steps|].admission.Free? && states[|steps|].queued == 2
  {
    hide IsRun;
    states, steps := SubmitsFirst(false);
    states, steps := Doubles(states, steps);
    var s := Abort(Doubled(), false);
    states, steps := Then(false, states, steps, OfSession(StepAbort(false)), s);
  }

  // ----- A cancelled job is reported as the last successful one -----

  function Started(): State {
    Submitted(false).(jobs := map[0 := Job(FIRST, Running, 0)], queued := 0, queue := [], active := {0},
                 sessions := map[0 := Session(1, None, Some(0), None, 0, Some(0), false, false)],
                 threads := map[WORKER := Compiling(0, Job(FIRST, Running, 0))])
  }

  function Fetched(): State {
    Submitted(false).(queue := [], sessions := map[0 := Session(1, None, Some(0), None, 0, Some(0), false, false)],
                 threads := map[WORKER := Loading(0)])
  }

  lemma Fetches(states: seq<State>, steps: seq<Step>) returns (states': seq<State>, steps': seq<Step>)
    requires IsRun(false, 1, states, steps) && states[|steps|] == Submitted(false)
    ensures IsRun(false, 1, states', steps') && states'[|steps'|] == Fetched()
  {
    hide IsRun;
    var s1 := Receive(Submitted(false), WORKER);
    assert s1 == Submitted(false).(queue := [], threads := map[WORKER := Taking(0)]);
    states', steps' := Then(false, states, steps, OfWorker(StepReceive(WORKER)), s1);
    assert Take(s1, WORKER) == Fetched();
    states', steps' := Then(false, states', steps', OfWorker(StepTake(WORKER)), Fetched());
  }

  lemma Starts(states: seq<State>, steps: seq<Step>) returns (states': seq<State>, steps': seq<Step>)
    requires IsRun(false, 1, states, steps) && states[|steps|] == Fetched()
    ensures IsRun(false, 1, states', steps') && states'[|steps'|] == Started()
  {
    hide IsRun;
    var s1 := Load(Fetched(), WORKER, true);
    assert s1 == Fetched().(threads := map[WORKER := Loaded(0, Job(FIRST, Queued, 0))]);
    states', steps' := Then(false, states, steps, OfWorker(StepLoad(WORKER, true)), s1);
    assert Start(s1, WORKER, true) == Started();
    states', steps' := Then(false, states', steps', OfWorker(StepStart(WORKER, true)), Started());
  }

  const DONE := Job(FIRST, Succeeded, 7)
  const ENTRY := Completion(0, Running, DONE)

  /** The success could not be written and is deferred, then the user cancels the job. */
  function DeferredThenCancelled(): State {
    Started().(jobs := map[0 := Job(FIRST, Cancelled, 0)], completions := map[0 := ENTRY],
               threads := map[WORKER := Deactivating(0, Some(Succeeded))])
  }

  lemma Defers(states: seq<State>, steps: seq<Step>) returns (states': seq<State>, steps': seq<Step>)
    requires IsRun(false, 1, states, steps) && states[|steps|] == Started()
    ensures IsRun(false, 1, states', steps') && states'[|steps'|] == DeferredThenCancelled()
  {
    hide IsRun;
    var s1 := Compile(Started(), WORKER, Succeeded, 7);
    assert s1 == Started().(threads := map[WORKER := Finishing(0, DONE)]);
    states', steps' := Then(false, states, steps, OfWorker(StepCompile(WORKER, Succeeded, 7)), s1);
    var s2 := Defer(s1, WORKER);
    assert s2 == Started().(completions := map[0 := ENTRY], threads := map[WORKER := Deactivating(0, Some(Succeeded))]);
    states', steps' := Then(false, states', steps', OfWorker(StepDefer(WORKER)), s2);
    assert UserCancel(s2, 0) == DeferredThenCancelled();
    states', steps' := Then(false, states', steps', OfClient(StepUserCancel(0)), DeferredThenCancelled());
  }

  /** Recovery finds the cancellation and drops the entry while the worker has not ended its attempt. */
  function Dropped(): State {
    DeferredThenCancelled().(completions := map[],
      threads := map[WORKER := Deactivating(0, Some(Succeeded)), Recovery := Unpinning(0, ENTRY, Cancelled)])
  }

  lemma Drops(states: seq<State>, steps: seq<Step>) returns (states': seq<State>, steps': seq<Step>)
    requires IsRun(false, 1, states, steps) && states[|steps|] == DeferredThenCancelled()
    ensures IsRun(false, 1, states', steps') && states'[|steps'|] == Dropped()
  {
    hide IsRun;
    var s1 := Retry(DeferredThenCancelled(), 0, Applied);
    assert s1 == DeferredThenCancelled().(threads :=
      map[WORKER := Deactivating(0, Some(Succeeded)), Recovery := Confirmed(0, ENTRY, Cancelled)]);
    states', steps' := Then(false, states, steps, OfTail(StepRetry(0, Applied)), s1);
    assert Drop(s1) == Dropped();
    states', steps' := Then(false, states', steps', OfTail(StepDrop), Dropped());
  }

  /**
   A deferred success is cancelled, and recovery settles the cancellation before
   the worker ends its attempt: the session then reports a cancelled job as its
   last successful one.
   */
  lemma CancelledYetSuccessful() returns (states: seq<State>, steps: seq<Step>)
    ensures IsRun(false, 1, states, steps)
    ensures var s := states[|steps|];
      0 in s.sessions && s.sessions[0].lastSuccess == Some(0) && HasStatus(s, 0, Cancelled)
  {
    hide IsRun;
    states, steps := SubmitsFirst(false);
    states, steps := Fetches(states, steps);
    states, steps := Starts(states, steps);
    states, steps := Defers(states, steps);
    states, steps := Drops(states, steps);
    states, steps := Reports(states, steps);
  }

  lemma Reports(states: seq<State>, steps: seq<Step>) returns (states': seq<State>, steps': seq<Step>)
    requires IsRun(false, 1, states, steps) && states[|steps|] == Dropped()
    ensures IsRun(false, 1, states', steps')
    ensures var s := states'[|steps'|];
      0 in s.sessions && s.sessions[0].lastSuccess == Some(0) && HasStatus(s, 0, Cancelled)
  {
    hide IsRun;
    var threads := Dropped().threads;
    var s1 := Deactivate(Dropped(), WORKER);
    states', steps' := Then(false, states, steps, OfTail(StepDeactivate(WORKER)), s1);
    var s2 := Check(s1, WORKER);
    assert s2.threads[WORKER] == Closing(0, Some(Succeeded)) && s2.jobs == Dropped().jobs;
    states', steps' := Then(false, states', steps', OfTail(StepCheck(WORKER)), s2);
    var s3 := FreeSlot(s2, WORKER);
    states', steps' := Then(false, states', steps', OfTail(StepFreeSlot(WORKER)), s3);
  }
}
