/** The inductive invariant of the engine, and the frame lemmas its proof shares. */
module JobInvariant {
  import opened Options
  import opened Counting
  import opened JobState

  // ----- The ledger: everything that is counted -----

  ghost predicate PinsConserved(s: State) {
    && (forall x :: PinCount(s, x) == Tally(s, PinOf(x)))
    && (forall x :: x in s.pins ==> s.pins[x] >= 1)
  }

  ghost predicate Undriven(s: State, j: JobId) { Tally(s, DriverOf(j)) == 0 }

  ghost predicate DriversUnique(s: State) {
    forall j :: Tally(s, DriverOf(j)) <= (if j in s.born then 1 else 0)
  }

  ghost predicate TokensUnique(s: State) {
    && (forall sid :: sid !in s.spent ==> Tally(s, TokenOf(sid)) == 0)
    && (forall sid :: sid in s.sessions ==>
         Tally(s, TokenOf(sid)) == if s.sessions[sid].scheduled then 1 else 0)
  }

  ghost predicate QueueCounted(s: State) { s.queued == Tally(s, QueuedJobs) }

  ghost predicate Ledger(s: State) {
    PinsConserved(s) && DriversUnique(s) && TokensUnique(s) && QueueCounted(s)
  }

  // ----- The shape: what each party may rely on -----

  predicate PreStart(s: State, j: JobId) {
    j in s.born && (j in s.jobs ==> s.jobs[j].status.Queued? || s.jobs[j].status.Cancelled?)
  }

  /** An attempt was started and its gate is still open. */
  predicate Attempted(s: State, j: JobId) {
    j in s.born && j in s.jobs && j in s.gates && !s.jobs[j].status.Queued?
  }

  predicate Detached(s: State, j: JobId) {
    j in s.born &&
    (s.born[j].session.Some? ==>
      var sid := s.born[j].session.value;
      sid in s.sessions ==> s.sessions[sid].expired || s.sessions[sid].running != Some(j))
  }

  predicate Settled(s: State, j: JobId) {
    j in s.born && (j !in s.jobs || s.jobs[j].status.Terminal() || Detached(s, j))
  }

  predicate BornAs(s: State, j: JobId, job: Job) { j in s.born && job.birth == s.born[j] }

  function Subject(pc: Pc): Option<JobId> {
    match pc
    case Pinned(_) => None
    case Rejected(_) => None
    case Taking(_) => None
    case _ => Some(pc.id)
  }

  ghost predicate PcOk(s: State, t: ThreadId, pc: Pc) {
    match pc
    case Pinned(_) => t.Caller?
    case Rejected(_) => t.Caller?
    case Taking(sid) => t.Worker? && sid in s.spent
    case Withdrawing(j) => t.Caller? && PreStart(s, j)
    case Loading(j) => t.Worker? && PreStart(s, j)
    case Requeueing(j) => t.Worker? && PreStart(s, j)
    case Loaded(j, seen) =>
      t.Worker? && PreStart(s, j) && BornAs(s, j, seen) && (seen.status.Queued? || seen.status.Cancelled?)
    case Compiling(j, job) => t.Worker? && Attempted(s, j) && BornAs(s, j, job)
    case Finishing(j, done) =>
      t.Worker? && Attempted(s, j) && BornAs(s, j, done) && (done.status.Succeeded? || done.status.Failed?)
    case Releasing(j, job) =>
      t.Worker? && Attempted(s, j) && BornAs(s, j, job) && job.status.Terminal() && job.status == s.jobs[j].status
    case Accounting(j, job) =>
      t.Worker? && Attempted(s, j) && BornAs(s, j, job) && job.status.Succeeded? && s.jobs[j].status.Succeeded?
    case Deactivating(j, known) => TailOk(s, j, known)
    case Ending(j, known) => TailOk(s, j, known)
    case Closing(j, known) => TailOk(s, j, known)
    case Gating(j) => j in s.born && Undriven(s, j)
    case Confirmed(j, entry, status) =>
      t == Recovery && j in s.completions && s.completions[j] == entry && Attempted(s, j) &&
      status.Terminal() && s.jobs[j].status == status
    case Unpinning(j, entry, status) =>
      t == Recovery && Undriven(s, j) && BornAs(s, j, entry.job) && status.Terminal()
  }

  ghost predicate TailOk(s: State, j: JobId, known: Option<Status>) {
    && j in s.born && Undriven(s, j)
    && (known.Some? ==> known.value.Terminal())
    && (known.None? ==> Settled(s, j))
  }

  ghost predicate CompletionOk(s: State, j: JobId) {
    j in s.completions &&
    var c := s.completions[j];
    && c.id == j && Undriven(s, j) && Attempted(s, j) && BornAs(s, j, c.job)
    && (c.job.status.Succeeded? || c.job.status.Failed?)
    && (c.from.Running? || (c.from.Succeeded? && c.job.status.Succeeded? && s.jobs[j].status.Succeeded?))
  }

  ghost predicate SessionOk(s: State, sid: SessionId) {
    sid in s.sessions && sid in s.spent &&
    var session := s.sessions[sid];
    && session.lastRevision <= session.revision
    && (session.pending.Some? ==>
         var p := session.pending.value;
         PreStart(s, p) && s.born[p].session == Some(sid) && s.born[p].revision == session.revision &&
         session.lastRevision < session.revision)
    && (session.running.Some? ==>
         var r := session.running.value;
         r in s.born && s.born[r].session == Some(sid) && session.lastRevision < s.born[r].revision <= session.revision &&
         (session.pending.Some? ==> s.born[r].revision < session.revision))
    && (session.lastSuccess.Some? ==>
         var l := session.lastSuccess.value;
         l in s.born && s.born[l].session == Some(sid) && s.born[l].revision == session.lastRevision)
  }

  ghost predicate AdmissionOk(s: State) {
    match s.admission
    case Free => true
    case Prepared(sid, x) => sid in s.sessions
    case Saved(sid, x, j) => SubmittedOk(s, sid, x, j)
    case Replaced(sid, x, j) => SubmittedOk(s, sid, x, j)
    case Aborting(j) => HasStatus(s, j, Queued)
  }

  predicate SubmittedOk(s: State, sid: SessionId, x: SnapshotId, j: JobId) {
    sid in s.sessions && HasStatus(s, j, Queued) &&
    s.jobs[j].birth == Birth(x, Some(sid), s.sessions[sid].revision + 1)
  }

  ghost predicate JobsOk(s: State) {
    && (forall j :: j in s.jobs ==> BornAs(s, j, s.jobs[j]))
    && s.gates <= s.jobs.Keys
    && (forall j :: j in s.born && s.born[j].session.Some? ==> s.born[j].session.value in s.spent)
    && (forall j :: HasStatus(s, j, Queued) && !Undriven(s, j) ==> j in s.gates)
    && (s.native ==> s.completions == map[])
  }

  ghost predicate ThreadsOk(s: State) { forall t :: t in s.threads ==> PcOk(s, t, s.threads[t]) }
  ghost predicate CompletionsOk(s: State) { forall j :: j in s.completions ==> CompletionOk(s, j) }
  ghost predicate SessionsOk(s: State) { forall sid :: sid in s.sessions ==> SessionOk(s, sid) }

  ghost predicate QueueOk(s: State) {
    forall token :: token in s.queue && token.ForJob? ==> PreStart(s, token.job)
  }

  ghost predicate Shape(s: State) {
    JobsOk(s) && QueueOk(s) && ThreadsOk(s) && CompletionsOk(s) && SessionsOk(s) && AdmissionOk(s)
  }

  ghost predicate Inv(s: State) { Ledger(s) && Shape(s) }

  // ----- Frame -----

  /** What a party with business on job j, other than the one moving, may rely on across a step. */
  ghost predicate Steady(s: State, s': State, j: JobId) {
    j in s.born ==>
      && j in s'.born && s'.born[j] == s.born[j]
      && (Undriven(s, j) ==> Undriven(s', j))
      && (PreStart(s, j) ==> PreStart(s', j))
      && (Attempted(s, j) ==> Attempted(s', j) && (s.jobs[j].status.Terminal() ==> s'.jobs[j].status == s.jobs[j].status))
      && (Settled(s, j) && Undriven(s, j) ==> Settled(s', j))
  }

  ghost predicate SteadyCompletion(s: State, s': State, j: JobId) {
    j in s.completions ==> j in s'.completions && s'.completions[j] == s.completions[j]
  }

  /** No other thread has business on the job. */
  ghost predicate Alone(s: State, t: ThreadId, j: JobId) {
    forall t' :: t' in s.threads && t' != t ==> Subject(s.threads[t']) != Some(j)
  }

  lemma OtherThreads(s: State, s': State, t: ThreadId, j0: JobId)
    requires ThreadsOk(s)
    requires s.spent <= s'.spent
    requires forall t' :: t' in s'.threads && t' != t ==> t' in s.threads && s'.threads[t'] == s.threads[t']
    requires forall j :: j != j0 ==> Steady(s, s', j) && (SteadyCompletion(s, s', j) || t == Recovery)
    requires Alone(s, t, j0) || (Steady(s, s', j0) && (SteadyCompletion(s, s', j0) || t == Recovery))
    ensures forall t' :: t' in s'.threads && t' != t ==> PcOk(s', t', s'.threads[t'])
  {
    hide Tally;
    forall t' | t' in s'.threads && t' != t
      ensures PcOk(s', t', s'.threads[t'])
    {
      var pc := s.threads[t'];
      assert PcOk(s, t', pc);
      if Subject(pc).Some? {
        assert Steady(s, s', pc.id);
      }
    }
  }

  /** The driver of a job is the only party with business on it. */
  lemma DriverAlone(s: State, t: ThreadId, j: JobId)
    requires Inv(s) && t in s.threads && Driven(s.threads[t]) == Some(j)
    ensures Tally(s, DriverOf(j)) == 1 && j in s.born
    ensures Alone(s, t, j)
    ensures j !in s.completions
    ensures forall sid :: sid in s.sessions ==> s.sessions[sid].pending != Some(j)
    ensures AdmissionWeight(DriverOf(j), s.admission) == 0
    ensures TokenCount(DriverOf(j), s.queue) == 0
  {
    var m := DriverOf(j);
    CountWitness(s.threads, t, ThreadTest(m));
    forall t' | t' in s.threads && t' != t
      ensures Subject(s.threads[t']) != Some(j)
    {
      assert PcOk(s, t', s.threads[t']);
      if Driven(s.threads[t']) == Some(j) {
        CountUnique(s.threads, t, t', ThreadTest(m));
      }
    }
    assert j in s.completions ==> CompletionOk(s, j);
    forall sid | sid in s.sessions
      ensures s.sessions[sid].pending != Some(j)
    {
      if s.sessions[sid].pending == Some(j) {
        CountWitness(s.sessions, sid, SessionTest(m));
      }
    }
  }

  lemma AllThreads(s: State, s': State)
    requires ThreadsOk(s) && s.spent <= s'.spent && s'.threads == s.threads
    requires forall j :: Steady(s, s', j) && SteadyCompletion(s, s', j)
    ensures ThreadsOk(s')
  {
    hide Tally;
    forall t | t in s'.threads
      ensures PcOk(s', t, s'.threads[t])
    {
      var pc := s.threads[t];
      assert PcOk(s, t, pc);
      if Subject(pc).Some? {
        assert Steady(s, s', pc.id);
      }
    }
  }

  lemma OtherCompletions(s: State, s': State, c0: JobId)
    requires CompletionsOk(s)
    requires forall j :: j in s'.completions && j != c0 ==> j in s.completions && s'.completions[j] == s.completions[j]
    requires forall j :: j in s.completions && j != c0 ==> Steady(s, s', j)
    ensures forall j :: j in s'.completions && j != c0 ==> CompletionOk(s', j)
  {
    hide Tally;
    forall j | j in s'.completions && j != c0
      ensures CompletionOk(s', j)
    {
      assert CompletionOk(s, j) && Steady(s, s', j);
    }
  }

  lemma OtherSessions(s: State, s': State, sid0: SessionId)
    requires SessionsOk(s) && s.spent <= s'.spent
    requires forall sid :: sid in s'.sessions && sid != sid0 ==> sid in s.sessions && s'.sessions[sid] == s.sessions[sid]
    requires forall j :: j in s.born ==> j in s'.born && s'.born[j] == s.born[j]
    requires forall j, sid :: sid in s.sessions && sid != sid0 && s.sessions[sid].pending == Some(j) ==> Steady(s, s', j)
    ensures forall sid :: sid in s'.sessions && sid != sid0 ==> SessionOk(s', sid)
  {
    hide Tally;
    forall sid | sid in s'.sessions && sid != sid0
      ensures SessionOk(s', sid)
    {
      assert SessionOk(s, sid);
      if s.sessions[sid].pending.Some? {
        assert Steady(s, s', s.sessions[sid].pending.value);
      }
    }
  }

  // ----- The ledger across a step that touches one key of each map -----

  function ScheduledWeight(s: State, sid: SessionId): nat {
    if sid in s.sessions && s.sessions[sid].scheduled then 1 else 0
  }

  lemma PinsKept(s: State, s': State, j: JobId, t: ThreadId, c: JobId, sid: SessionId)
    requires PinsConserved(s) && OneKey(s, s', j, t, c, sid)
    requires forall x :: PinCount(s', x) + Part(s, j, t, c, sid, PinOf(x)) == PinCount(s, x) + Part(s', j, t, c, sid, PinOf(x))
    requires forall x :: x in s'.pins ==> s'.pins[x] >= 1
    ensures PinsConserved(s')
  {
    hide Tally, Part, OneKey;
    forall x ensures PinCount(s', x) == Tally(s', PinOf(x)) {
      TallyChange(s, s', j, t, c, sid, PinOf(x));
    }
  }

  lemma DriversKept(s: State, s': State, j: JobId, t: ThreadId, c: JobId, sid: SessionId)
    requires DriversUnique(s) && OneKey(s, s', j, t, c, sid)
    requires s.born.Keys <= s'.born.Keys
    requires forall d :: Part(s', j, t, c, sid, DriverOf(d)) <=
               Part(s, j, t, c, sid, DriverOf(d)) + (if d !in s.born && d in s'.born then 1 else 0)
    ensures DriversUnique(s')
    ensures forall d :: d in s.born ==> Tally(s', DriverOf(d)) <= Tally(s, DriverOf(d))
    ensures forall d :: Tally(s', DriverOf(d)) + Part(s, j, t, c, sid, DriverOf(d)) ==
                        Tally(s, DriverOf(d)) + Part(s', j, t, c, sid, DriverOf(d))
  {
    hide Tally, Part, OneKey;
    forall d
      ensures Tally(s', DriverOf(d)) + Part(s, j, t, c, sid, DriverOf(d)) ==
              Tally(s, DriverOf(d)) + Part(s', j, t, c, sid, DriverOf(d))
    {
      TallyChange(s, s', j, t, c, sid, DriverOf(d));
    }
  }

  lemma TokensKept(s: State, s': State, j: JobId, t: ThreadId, c: JobId, sid: SessionId)
    requires TokensUnique(s) && OneKey(s, s', j, t, c, sid)
    requires s.spent <= s'.spent && s.sessions.Keys <= s.spent && s'.sessions.Keys <= s'.spent
    requires forall x :: x in s'.sessions && x !in s.sessions ==> x !in s.spent
    requires forall x :: x in s'.sessions || x !in s'.spent ==>
      Part(s', j, t, c, sid, TokenOf(x)) + ScheduledWeight(s, x) == Part(s, j, t, c, sid, TokenOf(x)) + ScheduledWeight(s', x)
    ensures TokensUnique(s')
  {
    hide Tally, Part, OneKey;
    forall x
      ensures Tally(s', TokenOf(x)) + Part(s, j, t, c, sid, TokenOf(x)) ==
              Tally(s, TokenOf(x)) + Part(s', j, t, c, sid, TokenOf(x))
    {
      TallyChange(s, s', j, t, c, sid, TokenOf(x));
    }
  }

  lemma QueueKept(s: State, s': State, j: JobId, t: ThreadId, c: JobId, sid: SessionId)
    requires QueueCounted(s) && OneKey(s, s', j, t, c, sid)
    requires s'.queued + Part(s, j, t, c, sid, QueuedJobs) == s.queued + Part(s', j, t, c, sid, QueuedJobs)
    ensures QueueCounted(s')
  {
    hide Tally, Part, OneKey;
    TallyChange(s, s', j, t, c, sid, QueuedJobs);
  }

  /** A holder found anywhere in the state proves the pin is counted. */
  lemma HolderPinned(s: State, t: ThreadId)
    requires PinsConserved(s) && t in s.threads && HeldPin(s.threads[t]).Some?
    ensures PinCount(s, HeldPin(s.threads[t]).value) >= 1
  {
    CountWitness(s.threads, t, ThreadTest(PinOf(HeldPin(s.threads[t]).value)));
  }
}
