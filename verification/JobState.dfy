/**
 State of the job and session engine: job records behind a compare-and-set
 store, the bounded channel, live sessions, publication gates, deferred
 completions, snapshot pins, and one program counter per goroutine.
 */
module JobState {
  import opened Options
  import opened Counting

  type JobId = nat
  type SessionId = nat
  type SnapshotId = nat

  datatype Status = Queued | Running | Succeeded | Failed | Cancelled {
    predicate Terminal() { Succeeded? || Failed? || Cancelled? }
  }

  /** What a job is born with and never changes. */
  datatype Birth = Birth(snapshot: SnapshotId, session: Option<SessionId>, revision: nat)

  /** A stored record.  `result` stands for the persisted compile result, cache accounting included. */
  datatype Job = Job(birth: Birth, status: Status, result: nat)

  /** A terminal write that could not be confirmed, and the status it must replace. */
  datatype Completion = Completion(id: JobId, from: Status, job: Job)

  datatype Token = ForJob(job: JobId) | ForSession(session: SessionId)

  datatype Session = Session(
    revision: nat, pending: Option<JobId>, running: Option<JobId>,
    lastSuccess: Option<JobId>, lastRevision: nat,
    snapshot: Option<SnapshotId>, scheduled: bool, expired: bool)

  datatype ThreadId = Worker(n: nat) | Caller(n: nat) | Recovery

  datatype Pc =
    // an Enqueue caller
    | Pinned(snapshot: SnapshotId)
    | Rejected(snapshot: SnapshotId)
    | Withdrawing(id: JobId)
    // a worker, from the channel to the start transition
    | Taking(session: SessionId)
    | Loading(id: JobId)
    | Loaded(id: JobId, seen: Job)
    | Requeueing(id: JobId)
    // a worker that owns the attempt
    | Compiling(id: JobId, job: Job)
    | Finishing(id: JobId, done: Job)
    | Releasing(id: JobId, job: Job)
    | Accounting(id: JobId, job: Job)
    // the tail shared by workers and the recovery goroutine
    | Deactivating(id: JobId, known: Option<Status>)
    | Ending(id: JobId, known: Option<Status>)
    | Closing(id: JobId, known: Option<Status>)
    | Gating(id: JobId)
    // the recovery goroutine
    | Confirmed(id: JobId, entry: Completion, status: Status)
    | Unpinning(id: JobId, entry: Completion, status: Status)

  /** Progress of SubmitRevision, the one holder of the admission lock that several steps model. */
  datatype Admission =
    | Free
    | Prepared(session: SessionId, snapshot: SnapshotId)
    | Saved(session: SessionId, snapshot: SnapshotId, id: JobId)
    | Replaced(session: SessionId, snapshot: SnapshotId, id: JobId)
    | Aborting(id: JobId)

  /** A store write: applied, without effect, or applied although an error was reported. */
  datatype Write = Applied | Lost | Unacknowledged

  datatype State = State(
    native: bool,
    limit: nat,
    jobs: map<JobId, Job>,
    born: map<JobId, Birth>,      // history: every identifier ever saved
    queued: int,
    completions: map<JobId, Completion>,
    gates: set<JobId>,
    version: nat,
    queue: seq<Token>,
    sessions: map<SessionId, Session>,
    spent: set<SessionId>,        // history: every session identifier ever issued
    active: set<JobId>,
    pins: map<SnapshotId, nat>,
    threads: map<ThreadId, Pc>,
    admission: Admission)

  function Initial(native: bool, limit: nat): State {
    State(native, limit, map[], map[], 0, map[], {}, 0, [], map[], {}, {}, map[], map[], Free)
  }

  // ----- Primitive updates -----

  function SetThread(s: State, t: ThreadId, pc: Pc): State {
    s.(threads := s.threads[t := pc])
  }

  function EndThread(s: State, t: ThreadId): State {
    s.(threads := s.threads - {t})
  }

  function PinCount(s: State, x: SnapshotId): nat {
    if x in s.pins then s.pins[x] else 0
  }

  function Pin(s: State, x: SnapshotId): State {
    s.(pins := s.pins[x := PinCount(s, x) + 1])
  }

  function Release(s: State, x: SnapshotId): State {
    if x !in s.pins then s
    else if s.pins[x] <= 1 then s.(pins := s.pins - {x})
    else s.(pins := s.pins[x := s.pins[x] - 1])
  }

  function ReleaseAny(s: State, x: Option<SnapshotId>): State {
    if x.Some? then Release(s, x.value) else s
  }

  predicate HasStatus(s: State, j: JobId, status: Status) {
    j in s.jobs && s.jobs[j].status == status
  }

  /** The conditional status update, with the counter kept by the native store. */
  function Transition(s: State, j: JobId, expected: Status, next: Job): State {
    if !HasStatus(s, j, expected) then s
    else s.(jobs := s.jobs[j := next],
            queued := s.queued - (if expected.Queued? && !next.status.Queued? then 1 else 0)
                               + (if !expected.Queued? && next.status.Queued? then 1 else 0))
  }

  function CloseGate(s: State, j: JobId): State {
    if j in s.completions || j !in s.gates then s
    else s.(gates := s.gates - {j}, version := s.version + 1)
  }

  function Cancelling(job: Job): Job { job.(status := Cancelled) }

  predicate CancelSucceeds(s: State, j: JobId, ok: bool) {
    ok && j in s.jobs && (s.jobs[j].status.Cancelled? || s.jobs[j].status.Queued?)
  }

  /** Cancels a queued job: its record, then its pin, then its gate. */
  function Cancel(s: State, j: JobId, ok: bool): State {
    if !ok || !HasStatus(s, j, Queued) then s
    else CloseGate(Release(Transition(s, j, Queued, Cancelling(s.jobs[j])), s.jobs[j].birth.snapshot), j)
  }

  function Save(s: State, j: JobId, birth: Birth): State {
    s.(jobs := s.jobs[j := Job(birth, Queued, 0)], born := s.born[j := birth],
       queued := s.queued + 1, gates := s.gates + {j})
  }

  predicate HasRoom(s: State) { |s.queue| < 2 * s.limit }

  function Push(s: State, token: Token): State { s.(queue := s.queue + [token]) }

  predicate Schedulable(s: State, sid: SessionId) {
    sid in s.sessions && !s.sessions[sid].scheduled && s.sessions[sid].running.None? &&
    s.sessions[sid].pending.Some? && HasRoom(s)
  }

  function Schedule(s: State, sid: SessionId): State {
    if !Schedulable(s, sid) then s
    else Push(s.(sessions := s.sessions[sid := s.sessions[sid].(scheduled := true)]), ForSession(sid))
  }

  function PendingCount(s: State): int { s.queued + |s.completions| }

  // ----- What a goroutine or a lock holder is entitled to -----

  /** The snapshot whose pin this program counter owns. */
  function HeldPin(pc: Pc): Option<SnapshotId> {
    match pc
    case Pinned(x) => Some(x)
    case Rejected(x) => Some(x)
    case Compiling(_, job) => Some(job.birth.snapshot)
    case Finishing(_, job) => Some(job.birth.snapshot)
    case Releasing(_, job) => Some(job.birth.snapshot)
    case Unpinning(_, entry, _) => if entry.from.Running? then Some(entry.job.birth.snapshot) else None
    case _ => None
  }

  /** The job this program counter alone may move forward. */
  function Driven(pc: Pc): Option<JobId> {
    match pc
    case Withdrawing(j) => Some(j)
    case Loading(j) => Some(j)
    case Loaded(j, _) => Some(j)
    case Requeueing(j) => Some(j)
    case Compiling(j, _) => Some(j)
    case Finishing(j, _) => Some(j)
    case Releasing(j, _) => Some(j)
    case Accounting(j, _) => Some(j)
    case _ => None
  }

  /** The job whose session slot this program counter will still settle. */
  function Settling(pc: Pc): Option<JobId> {
    match pc
    case Withdrawing(_) => None
    case Deactivating(j, _) => Some(j)
    case Ending(j, _) => Some(j)
    case Closing(j, _) => Some(j)
    case Confirmed(j, _, _) => Some(j)
    case Unpinning(j, _, _) => Some(j)
    case _ => Driven(pc)
  }

  /** Quantities that the engine must conserve. */
  datatype Meter =
    | PinOf(snapshot: SnapshotId)
    | DriverOf(job: JobId)
    | SlotOf(job: JobId)
    | TokenOf(session: SessionId)
    | QueuedJobs

  predicate JobCounts(m: Meter, r: Job) {
    match m
    case PinOf(x) => r.status.Queued? && r.birth.snapshot == x
    case QueuedJobs => r.status.Queued?
    case _ => false
  }

  predicate ThreadCounts(m: Meter, pc: Pc) {
    match m
    case PinOf(x) => HeldPin(pc) == Some(x)
    case DriverOf(j) => Driven(pc) == Some(j)
    case SlotOf(j) => Settling(pc) == Some(j)
    case TokenOf(sid) => pc == Taking(sid)
    case QueuedJobs => false
  }

  predicate CompletionCounts(m: Meter, c: Completion) {
    match m
    case PinOf(x) => c.from.Running? && c.job.birth.snapshot == x
    case SlotOf(j) => c.id == j
    case _ => false
  }

  predicate SessionCounts(m: Meter, session: Session) {
    match m
    case PinOf(x) => session.snapshot == Some(x)
    case DriverOf(j) => session.pending == Some(j)
    case _ => false
  }

  function JobTest(m: Meter): Job -> bool { r => JobCounts(m, r) }
  function ThreadTest(m: Meter): Pc -> bool { pc => ThreadCounts(m, pc) }
  function CompletionTest(m: Meter): Completion -> bool { c => CompletionCounts(m, c) }
  function SessionTest(m: Meter): Session -> bool { session => SessionCounts(m, session) }

  function AdmissionWeight(m: Meter, a: Admission): nat {
    match m
    case PinOf(x) => if a.Prepared? && a.snapshot == x then 1 else 0
    case DriverOf(j) => if (a.Saved? || a.Replaced? || a.Aborting?) && a.id == j then 1 else 0
    case _ => 0
  }

  function TokenWeight(m: Meter, token: Token): nat {
    match m
    case DriverOf(j) => if token == ForJob(j) then 1 else 0
    case SlotOf(j) => if token == ForJob(j) then 1 else 0
    case TokenOf(sid) => if token == ForSession(sid) then 1 else 0
    case _ => 0
  }

  function TokenCount(m: Meter, queue: seq<Token>): nat {
    if queue == [] then 0 else TokenWeight(m, queue[0]) + TokenCount(m, queue[1..])
  }

  /** How many holders of the metered quantity there are in all. */
  ghost function Tally(s: State, m: Meter): nat {
    Count(s.jobs, JobTest(m)) + Count(s.threads, ThreadTest(m)) +
    Count(s.completions, CompletionTest(m)) + Count(s.sessions, SessionTest(m)) +
    TokenCount(m, s.queue) + AdmissionWeight(m, s.admission)
  }

  function JobWeight(jobs: map<JobId, Job>, j: JobId, m: Meter): (w: nat)
    ensures w == if j in jobs && JobCounts(m, jobs[j]) then 1 else 0
  { Weight(jobs, j, JobTest(m)) }

  function ThreadWeight(threads: map<ThreadId, Pc>, t: ThreadId, m: Meter): (w: nat)
    ensures w == if t in threads && ThreadCounts(m, threads[t]) then 1 else 0
  { Weight(threads, t, ThreadTest(m)) }

  function CompletionWeight(completions: map<JobId, Completion>, c: JobId, m: Meter): (w: nat)
    ensures w == if c in completions && CompletionCounts(m, completions[c]) then 1 else 0
  { Weight(completions, c, CompletionTest(m)) }

  function SessionWeight(sessions: map<SessionId, Session>, sid: SessionId, m: Meter): (w: nat)
    ensures w == if sid in sessions && SessionCounts(m, sessions[sid]) then 1 else 0
  { Weight(sessions, sid, SessionTest(m)) }

  /** The part of the tally contributed by one key of each map, by the channel and by the lock holder. */
  function Part(s: State, j: JobId, t: ThreadId, c: JobId, sid: SessionId, m: Meter): nat {
    JobWeight(s.jobs, j, m) + ThreadWeight(s.threads, t, m) + CompletionWeight(s.completions, c, m) +
    SessionWeight(s.sessions, sid, m) + TokenCount(m, s.queue) + AdmissionWeight(m, s.admission)
  }

  /** The two states agree off these keys of the four maps. */
  ghost predicate OneKey(s: State, s': State, j: JobId, t: ThreadId, c: JobId, sid: SessionId) {
    SameOff(s.jobs, s'.jobs, j) && SameOff(s.threads, s'.threads, t) &&
    SameOff(s.completions, s'.completions, c) && SameOff(s.sessions, s'.sessions, sid)
  }

  lemma {:induction false} TokenCountAppend(m: Meter, queue: seq<Token>, token: Token)
    ensures TokenCount(m, queue + [token]) == TokenCount(m, queue) + TokenWeight(m, token)
  {
    if queue == [] {
      assert queue + [token] == [token];
      assert TokenCount(m, [token]) == TokenWeight(m, token) + TokenCount(m, []);
    } else {
      assert (queue + [token])[1..] == queue[1..] + [token];
      TokenCountAppend(m, queue[1..], token);
    }
  }

  /** A step that touches at most one key of each map changes the tally by the local difference. */
  lemma TallyChange(s: State, s': State, j: JobId, t: ThreadId, c: JobId, sid: SessionId, m: Meter)
    requires OneKey(s, s', j, t, c, sid)
    ensures Tally(s', m) + Part(s, j, t, c, sid, m) == Tally(s, m) + Part(s', j, t, c, sid, m)
  {
    CountChange(s.jobs, s'.jobs, j, JobTest(m));
    CountChange(s.threads, s'.threads, t, ThreadTest(m));
    CountChange(s.completions, s'.completions, c, CompletionTest(m));
    CountChange(s.sessions, s'.sessions, sid, SessionTest(m));
  }
}
