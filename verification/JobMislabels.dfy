/**
 How a session comes to take an attempt that did not succeed for its last
 success: the chain of steps that every such label goes back to.
 */
module JobMislabels {
  import opened Options
  import opened Counting
  import opened JobState
  import opened JobSteps
  import opened JobInvariant
  import opened JobEvolution
  import opened JobWorkers
  import opened JobResponsibility
  import opened JobTruth
  import opened JobRuns

  /** The goroutine takes the job for a success, and has not yet looked for a deferred completion. */
  predicate Sure(pc: Pc, j: JobId) {
    match pc
    case Deactivating(i, known) => i == j && known == Some(Succeeded)
    case Ending(i, known) => i == j && known == Some(Succeeded)
    case Unpinning(i, _, status) => i == j && status.Succeeded?
    case _ => false
  }
  predicate SureAt(s: State, t: ThreadId, j: JobId) { t in s.threads && Sure(s.threads[t], j) }

  /** It is about to tell the session so. */
  predicate SaysAt(s: State, t: ThreadId, j: JobId) { t in s.threads && s.threads[t] == Closing(j, Some(Succeeded)) }

  predicate DefersAt(s: State, step: Step, t: ThreadId, j: JobId) {
    step == OfWorker(StepDefer(t)) && t in s.threads && s.threads[t].Finishing? && s.threads[t].id == j &&
    s.threads[t].done.status.Succeeded?
  }

  predicate ChecksAt(s: State, step: Step, t: ThreadId, j: JobId) {
    step == OfTail(StepCheck(t)) && t in s.threads && s.threads[t] == Ending(j, Some(Succeeded)) && j !in s.completions
  }

  predicate DropsAt(s: State, step: Step, j: JobId) {
    step == OfTail(StepDrop) && Recovery in s.threads && s.threads[Recovery].Confirmed? && s.threads[Recovery].id == j
  }

  // ----- One step -----

  /** A goroutine comes to take a job that is no success for one only by deferring it, and to say so only by its check. */
  predicate Arrives(s: State, s': State, step: Step, t: ThreadId, j: JobId) {
    (SureAt(s', t, j) ==> SureAt(s, t, j) || DefersAt(s, step, t, j)) &&
    (SaysAt(s', t, j) ==> SaysAt(s, t, j) || ChecksAt(s, step, t, j))
  }

  ghost predicate Grounded(s: State, s': State, step: Step) {
    (forall t, j :: !HasStatus(s, j, Succeeded) ==> Arrives(s, s', step, t, j)) &&
    (forall j :: j in s.completions ==>
      (j in s'.completions && s'.completions[j] == s.completions[j]) || DropsAt(s, step, j))
  }

  lemma MoverGrounded(s: State, s': State, step: Step, t: ThreadId)
    requires SameOff(s.threads, s'.threads, t) && s'.completions == s.completions
    requires forall j :: !HasStatus(s, j, Succeeded) ==> Arrives(s, s', step, t, j)
    ensures Grounded(s, s', step)
  {
  }

  /** A goroutine moves to where it takes nothing for a success. */
  predicate Claims(pc: Pc) {
    match pc
    case Deactivating(_, known) => known == Some(Succeeded)
    case Ending(_, known) => known == Some(Succeeded)
    case Closing(_, known) => known == Some(Succeeded)
    case Unpinning(_, _, status) => status.Succeeded?
    case _ => false
  }

  lemma ModestGrounded(s: State, s': State, step: Step, t: ThreadId, pc: Pc)
    requires s'.threads == s.threads[t := pc] && s'.completions == s.completions && !Claims(pc)
    ensures Grounded(s, s', step)
  {
  }

  /** The step also enters a deferred completion. */
  lemma EntryGrounded(s: State, s': State, step: Step, t: ThreadId, i: JobId)
    requires SameOff(s.threads, s'.threads, t) && SameOff(s.completions, s'.completions, i) && i !in s.completions
    requires forall j :: !HasStatus(s, j, Succeeded) ==> Arrives(s, s', step, t, j)
    ensures Grounded(s, s', step)
  {
  }

  lemma MuteGrounded(s: State, s': State, step: Step, t: ThreadId)
    requires Mute(s, s', t) && s'.completions == s.completions
    ensures Grounded(s, s', step)
  {
  }

  lemma StartGrounded(s: State, t: ThreadId, ok: bool)
    requires Inv(s) && CanStart(s, t, ok)
    ensures Grounded(s, Start(s, t, ok), OfWorker(StepStart(t, ok)))
  {
    hide Inv, Grounded, Cancel, Transition, OwnsAttempt, Started;
    LoadedFacts(s, t);
    var j, seen, step := s.threads[t].id, s.threads[t].seen, OfWorker(StepStart(t, ok));
    if !seen.status.Queued? {
      ModestGrounded(s, Start(s, t, ok), step, t, Ending(j, Some(Cancelled)));
    } else if !OwnsAttempt(s, j, seen.birth) {
      CancelFrame(SetThread(s, t, Ending(j, None)), j, ok);
      ModestGrounded(s, Start(s, t, ok), step, t, Ending(j, None));
    } else if !ok {
      ModestGrounded(s, Start(s, t, ok), step, t, Requeueing(j));
    } else if !HasStatus(s, j, Queued) {
      ModestGrounded(s, Start(s, t, ok), step, t, Deactivating(j, None));
    } else {
      StartsAs(s, t, ok);
      hide Start;
      StartedGrounded(s, t, step);
    }
  }

  lemma StartedGrounded(s: State, t: ThreadId, step: Step)
    requires t in s.threads && s.threads[t].Loaded? && s.threads[t].id in s.jobs
    ensures Grounded(s, Started(s, t), step)
  {
    hide Grounded;
    ModestGrounded(s, Started(s, t), step, t, Started(s, t).threads[t]);
  }

  lemma DeferGrounded(s: State, t: ThreadId)
    requires Inv(s) && CanDefer(s, t)
    ensures Grounded(s, Defer(s, t), OfWorker(StepDefer(t)))
  {
    hide Inv, Grounded;
    DriverAlone(s, t, s.threads[t].id);
    EntryGrounded(s, Defer(s, t), OfWorker(StepDefer(t)), t, s.threads[t].id);
  }

  lemma ReleaseSourceGrounded(s: State, t: ThreadId)
    requires CanReleaseSource(s, t)
    ensures Grounded(s, ReleaseSource(s, t), OfWorker(StepReleaseSource(t)))
  {
    hide Grounded, Release;
    var pc := s.threads[t];
    if pc.job.status.Succeeded? {
      ReleaseUntouched(SetThread(s, t, Accounting(pc.id, pc.job)), pc.job.birth.snapshot);
    } else {
      ReleaseUntouched(SetThread(s, t, Deactivating(pc.id, Some(pc.job.status))), pc.job.birth.snapshot);
    }
    MoverGrounded(s, ReleaseSource(s, t), OfWorker(StepReleaseSource(t)), t);
  }

  lemma AccountGrounded(s: State, t: ThreadId, cached: bool, result: nat, w: Write)
    requires Inv(s) && CanAccount(s, t, w)
    ensures Grounded(s, Account(s, t, cached, result, w), OfWorker(StepAccount(t, cached, result, w)))
  {
    hide Inv, Grounded, Account;
    OwnerKnows(s, t);
    AccountTold(s, t, cached, result, w);
    EntryGrounded(s, Account(s, t, cached, result, w), OfWorker(StepAccount(t, cached, result, w)), t, s.threads[t].id);
  }

  lemma WorkerGrounded(s: State, step: WorkerStep)
    requires Inv(s) && WorkerEnabled(s, step)
    ensures Grounded(s, WorkerApply(s, step), OfWorker(step))
  {
    hide Inv, Grounded, Start, Defer, ReleaseSource, Account, Mute;
    if SilentWorker(step) {
      WorkerMute(s, step);
      hide WorkerApply;
      MuteGrounded(s, WorkerApply(s, step), OfWorker(step), step.t);
    } else {
      match step
      case StepLoad(t, ok) => LoadGrounded(s, t, ok);
      case StepStart(t, ok) => StartGrounded(s, t, ok);
      case StepDefer(t) => DeferGrounded(s, t);
      case StepReleaseSource(t) => ReleaseSourceGrounded(s, t);
      case StepAccount(t, cached, result, w) => AccountGrounded(s, t, cached, result, w);
    }
  }

  lemma LoadGrounded(s: State, t: ThreadId, ok: bool)
    requires CanLoad(s, t, ok)
    ensures Grounded(s, Load(s, t, ok), OfWorker(StepLoad(t, ok)))
  {
    hide Grounded;
    MoverGrounded(s, Load(s, t, ok), OfWorker(StepLoad(t, ok)), t);
  }

  lemma DropGrounded(s: State)
    requires Inv(s) && CanDrop(s)
    ensures Grounded(s, Drop(s), OfTail(StepDrop))
  {
    hide Tally;
    assert PcOk(s, Recovery, s.threads[Recovery]);
    hide Inv, PcOk;
  }

  lemma UnpinGrounded(s: State)
    requires CanUnpin(s)
    ensures Grounded(s, Unpin(s), OfTail(StepUnpin))
  {
    hide Grounded, Release;
    var pc := s.threads[Recovery];
    if pc.entry.from.Running? {
      ReleaseUntouched(SetThread(s, Recovery, Ending(pc.id, Some(pc.status))), pc.entry.job.birth.snapshot);
    } else {
    }
    MoverGrounded(s, Unpin(s), OfTail(StepUnpin), Recovery);
  }

  lemma MovedGrounded(s: State, step: TailStep)
    requires TailEnabled(s, step) && (step.StepDeactivate? || step.StepCheck? || step.StepReload?)
    ensures Grounded(s, TailApply(s, step), OfTail(step))
  {
    hide Grounded;
    MoverGrounded(s, TailApply(s, step), OfTail(step), step.t);
  }

  lemma TailGrounded(s: State, step: TailStep)
    requires Inv(s) && TailEnabled(s, step)
    ensures Grounded(s, TailApply(s, step), OfTail(step))
  {
    hide Inv, Grounded, Drop, Unpin, Mute;
    if step.StepFreeSlot? || step.StepEndGate? || step.StepRetry? {
      var t := TailMute(s, step);
      hide TailApply;
      MuteGrounded(s, TailApply(s, step), OfTail(step), t);
    } else if step.StepForget? {
      SameThreadsMute(s, Forget(s, step.j));
      MuteGrounded(s, Forget(s, step.j), OfTail(step), Recovery);
    } else if step.StepDrop? {
      DropGrounded(s);
    } else if step.StepUnpin? {
      UnpinGrounded(s);
    } else {
      MovedGrounded(s, step);
    }
  }

  lemma StepGrounded(s: State, step: Step)
    requires Inv(s) && Enabled(s, step)
    ensures Grounded(s, Apply(s, step), step)
  {
    hide Inv, Grounded, Mute, ClientApply, SessionApply, WorkerApply, TailApply;
    match step
    case OfClient(x) =>
      var t := ClientMute(s, x);
      MuteGrounded(s, ClientApply(s, x), step, t);
    case OfSession(x) =>
      SessionMute(s, x);
      SameThreadsMute(s, SessionApply(s, x));
      MuteGrounded(s, SessionApply(s, x), step, Recovery);
    case OfWorker(x) => WorkerGrounded(s, x);
    case OfTail(x) => TailGrounded(s, x);
  }

  // ----- Runs -----

  /** A record that is no success at the end was none before. */
  lemma NeverWas(native: bool, limit: nat, states: seq<State>, steps: seq<Step>, i: nat, k: nat, j: JobId)
    requires IsRun(native, limit, states, steps) && i <= k < |states|
    requires j in states[k].jobs && !states[k].jobs[j].status.Succeeded?
    ensures !HasStatus(states[i], j, Succeeded)
  {
    hide Inv, Apply, Enabled, IsRun;
    ReachableInv(native, limit, states, steps, i);
    Recorded(states[i]);
    RunLater(native, limit, states, steps, i, k, j);
  }

  lemma InitialSilent(native: bool, limit: nat, t: ThreadId, j: JobId)
    ensures !SureAt(Initial(native, limit), t, j) && !SaysAt(Initial(native, limit), t, j)
  {
  }

  lemma {:induction false} TraceSays(native: bool, limit: nat, states: seq<State>, steps: seq<Step>, i: nat, k: nat,
                                     t: ThreadId, j: JobId) returns (e: nat)
    requires IsRun(native, limit, states, steps) && i <= k < |states| && SaysAt(states[i], t, j)
    requires j in states[k].jobs && !states[k].jobs[j].status.Succeeded?
    ensures e < i && ChecksAt(states[e], steps[e], t, j)
  {
    hide Inv, Apply, Enabled, Grounded, SaysAt, SureAt;
    InitialSilent(native, limit, t, j);
    var n: nat := i - 1;
    ReachableInv(native, limit, states, steps, n);
    NeverWas(native, limit, states, steps, n, k, j);
    StepGrounded(states[n], steps[n]);
    ArrivesBy(states[n], states[i], steps[n], t, j);
    if SaysAt(states[n], t, j) {
      e := TraceSays(native, limit, states, steps, n, k, t, j);
    } else {
      e := n;
    }
  }

  lemma ArrivesBy(s: State, s': State, step: Step, t: ThreadId, j: JobId)
    requires Grounded(s, s', step) && !HasStatus(s, j, Succeeded)
    ensures Arrives(s, s', step, t, j)
  {
    hide Arrives;
  }

  lemma {:induction false} TraceSure(native: bool, limit: nat, states: seq<State>, steps: seq<Step>, i: nat, k: nat,
                                     t: ThreadId, j: JobId) returns (d: nat)
    requires IsRun(native, limit, states, steps) && i <= k < |states| && SureAt(states[i], t, j)
    requires j in states[k].jobs && !states[k].jobs[j].status.Succeeded?
    ensures d < i && DefersAt(states[d], steps[d], t, j) && forall m :: d < m <= i ==> SureAt(states[m], t, j)
  {
    hide Inv, Apply, Enabled, Grounded, SaysAt, SureAt;
    InitialSilent(native, limit, t, j);
    var n: nat := i - 1;
    ReachableInv(native, limit, states, steps, n);
    NeverWas(native, limit, states, steps, n, k, j);
    StepGrounded(states[n], steps[n]);
    ArrivesBy(states[n], states[i], steps[n], t, j);
    if SureAt(states[n], t, j) {
      d := TraceSure(native, limit, states, steps, n, k, t, j);
    } else {
      d := n;
    }
  }

  predicate Entered(s: State, j: JobId, entry: Completion) { j in s.completions && s.completions[j] == entry }

  lemma EntryStays(s: State, s': State, step: Step, j: JobId, entry: Completion)
    requires Grounded(s, s', step) && Entered(s, j, entry)
    ensures Entered(s', j, entry) || DropsAt(s, step, j)
  {
    hide Arrives;
  }

  /** A deferred completion stays as it is until recovery drops it. */
  lemma {:induction false} TraceEntry(native: bool, limit: nat, states: seq<State>, steps: seq<Step>, a: nat, b: nat,
                                      j: JobId, entry: Completion) returns (r: nat)
    requires IsRun(native, limit, states, steps) && a <= b < |states|
    requires Entered(states[a], j, entry) && j !in states[b].completions
    ensures a <= r < b && DropsAt(states[r], steps[r], j) && forall m :: a <= m <= r ==> Entered(states[m], j, entry)
    decreases b - a
  {
    hide Inv, Apply, Enabled, Grounded;
    if DropsAt(states[a], steps[a], j) {
      r := a;
    } else {
      ReachableInv(native, limit, states, steps, a);
      StepGrounded(states[a], steps[a]);
      EntryStays(states[a], states[a + 1], steps[a], j, entry);
      r := TraceEntry(native, limit, states, steps, a + 1, b, j, entry);
    }
  }

  /** A running record stops running. */
  lemma {:induction false} TraceRunning(native: bool, limit: nat, states: seq<State>, steps: seq<Step>, a: nat, b: nat, j: JobId)
    returns (c: nat)
    requires IsRun(native, limit, states, steps) && a <= b < |states|
    requires HasStatus(states[a], j, Running) && !HasStatus(states[b], j, Running)
    ensures a <= c < b && HasStatus(states[c], j, Running) && !HasStatus(states[c + 1], j, Running)
    decreases b - a
  {
    hide IsRun;
    if HasStatus(states[a + 1], j, Running) {
      c := TraceRunning(native, limit, states, steps, a + 1, b, j);
    } else {
      c := a;
    }
  }

  /** What a running record with a deferred success can become, if not that. */
  lemma Overtaken(s: State, s': State, j: JobId, entry: Completion)
    requires Evolves(s, s') && Entered(s, j, entry) && entry.job.status.Succeeded?
    requires HasStatus(s, j, Running) && !HasStatus(s', j, Running) && !HasStatus(s', j, Succeeded)
    ensures HasStatus(s', j, Cancelled)
  {
    assert JobEvolves(s, s', j);
  }

  lemma DeferFacts(s: State, t: ThreadId, j: JobId)
    requires Inv(s) && Enabled(s, OfWorker(StepDefer(t))) && DefersAt(s, OfWorker(StepDefer(t)), t, j)
    ensures t.Worker? && j in s.jobs
    ensures var s' := Apply(s, OfWorker(StepDefer(t))); s'.jobs == s.jobs && Entered(s', j, Completion(j, Running, s.threads[t].done))
    ensures !s.native
  {
    hide Tally;
    assert PcOk(s, t, s.threads[t]);
  }

  lemma DropFacts(s: State, j: JobId)
    requires Inv(s) && DropsAt(s, OfTail(StepDrop), j)
    ensures j in s.jobs && s.jobs[j].status.Terminal()
  {
    hide Tally;
    assert PcOk(s, Recovery, s.threads[Recovery]);
  }

  lemma WorkerBelieves(s: State, t: ThreadId, j: JobId)
    requires Inv(s) && SureAt(s, t, j) && t.Worker?
    ensures Believes(s, t, j)
  {
    hide Tally;
    assert PcOk(s, t, s.threads[t]);
  }

  /** The deferred outcome is overtaken: the record had another one already, or is cancelled while the worker is sure of it. */
  predicate Overtakes(states: seq<State>, steps: seq<Step>, d: nat, c: nat, t: ThreadId, j: JobId)
    requires d <= c < |steps| && |states| == |steps| + 1
  {
    if c == d then DefersOver(states[d], steps[d])
    else
      Believes(states[c], t, j) && j in states[c].completions && HasStatus(states[c], j, Running) &&
      HasStatus(states[c + 1], j, Cancelled)
  }

  /**
   Every wrong label goes back to four steps, in this order: the worker defers
   its success; the record gets, or had, another outcome; recovery drops the
   entry that this settles; and only then does the worker look for one.
   */
  lemma MislabelCause(native: bool, limit: nat, states: seq<State>, steps: seq<Step>, k: nat)
    returns (t: ThreadId, j: JobId, d: nat, c: nat, r: nat, e: nat)
    requires IsRun(native, limit, states, steps) && k < |steps| && Mislabels(states[k], steps[k])
    ensures steps[k] == OfTail(StepFreeSlot(t)) && SaysAt(states[k], t, j)
    ensures d <= c < r < e < k
    ensures DefersAt(states[d], steps[d], t, j) && Overtakes(states, steps, d, c, t, j)
    ensures DropsAt(states[r], steps[r], j) && ChecksAt(states[e], steps[e], t, j)
  {
    hide Inv, Apply, Enabled, Grounded, DropsAt, SureAt, Evolves;
    t := steps[k].stepTail.t;
    j := states[k].threads[t].id;
    e := TraceSays(native, limit, states, steps, k, k, t, j);
    assert SureAt(states[e], t, j) by { CheckSure(states[e], steps[e], t, j); }
    d := TraceSure(native, limit, states, steps, e, k, t, j);
    ReachableInv(native, limit, states, steps, d);
    DeferFacts(states[d], t, j);
    var entry := Completion(j, Running, states[d].threads[t].done);
    r := TraceEntry(native, limit, states, steps, d + 1, e, j, entry);
    c := Overtaking(native, limit, states, steps, k, t, j, d, r, entry);
  }

  lemma CheckSure(s: State, step: Step, t: ThreadId, j: JobId)
    requires ChecksAt(s, step, t, j)
    ensures SureAt(s, t, j)
  {
  }

  lemma Overtaking(native: bool, limit: nat, states: seq<State>, steps: seq<Step>, k: nat, t: ThreadId, j: JobId,
                   d: nat, r: nat, entry: Completion) returns (c: nat)
    requires IsRun(native, limit, states, steps) && d < r < k < |steps|
    requires j in states[k].jobs && !states[k].jobs[j].status.Succeeded?
    requires DefersAt(states[d], steps[d], t, j) && DropsAt(states[r], steps[r], j)
    requires entry.job.status.Succeeded? && forall m :: d < m <= r ==> Entered(states[m], j, entry) && SureAt(states[m], t, j)
    ensures d <= c < r && Overtakes(states, steps, d, c, t, j)
  {
    hide Inv, Apply, Enabled, SureAt, Evolves;
    ReachableInv(native, limit, states, steps, d);
    ReachableInv(native, limit, states, steps, r);
    DeferFacts(states[d], t, j);
    DropFacts(states[r], j);
    NeverWas(native, limit, states, steps, d, k, j);
    if HasStatus(states[d], j, Running) {
      c := TraceRunning(native, limit, states, steps, d + 1, r, j);
      ReachableInv(native, limit, states, steps, c);
      StepEvolves(states[c], steps[c]);
      NeverWas(native, limit, states, steps, c + 1, k, j);
      Overtaken(states[c], states[c + 1], j, entry);
      WorkerBelieves(states[c], t, j);
    } else {
      c := d;
    }
  }

  /** The native store defers nothing, so its last successes are always true. */
  lemma NativeSuccesses(limit: nat, states: seq<State>, steps: seq<Step>)
    requires IsRun(true, limit, states, steps)
    ensures forall i :: 0 <= i < |states| ==> SuccessesTrue(states[i])
  {
    hide Inv, Apply, Enabled, SuccessesTrue, Mislabels;
    LastSuccessesExactly(true, limit, states, steps);
    forall k | 0 <= k < |steps| ensures !Mislabels(states[k], steps[k]) {
      if Mislabels(states[k], steps[k]) {
        var t, j, d, c, r, e := MislabelCause(true, limit, states, steps, k);
        ReachableInv(true, limit, states, steps, d);
        DeferFacts(states[d], t, j);
        ModeFixed(true, limit, states, steps, d);
      }
    }
  }
}
