/**
 Reads that race with the engine.  A read is a method over a whole run: each
 critical section or query of the reader happens at some later state of the
 run, chosen freely.
 */
module JobReads {
  import opened Options
  import opened JobState
  import opened JobSteps
  import opened JobInvariant
  import opened JobEvolution
  import opened JobRuns

  /** A succeeded record whose gate is closed. */
  predicate Final(s: State, j: JobId) { j in s.jobs && s.jobs[j].status.Succeeded? && j !in s.gates }

  /** Nothing still owes the record its accounting: no worker, no deferred write, no recovery. */
  lemma FinalIsAccounted(native: bool, limit: nat, states: seq<State>, steps: seq<Step>, i: nat, j: JobId)
    requires IsRun(native, limit, states, steps) && i < |states| && Final(states[i], j)
    ensures j !in states[i].completions
    ensures forall t :: t in states[i].threads ==>
      Driven(states[i].threads[t]) != Some(j) && !(states[i].threads[t].Confirmed? && states[i].threads[t].id == j)
  {
    hide Inv, IsRun, Final;
    ReachableInv(native, limit, states, steps, i);
    NothingOwed(states[i], j);
  }

  lemma NothingOwed(s: State, j: JobId)
    requires Inv(s) && Final(s, j)
    ensures j !in s.completions
    ensures forall t :: t in s.threads ==>
      Driven(s.threads[t]) != Some(j) && !(s.threads[t].Confirmed? && s.threads[t].id == j)
  {
    hide Tally;
    assert j in s.completions ==> CompletionOk(s, j);
    forall t | t in s.threads
      ensures Driven(s.threads[t]) != Some(j) && !(s.threads[t].Confirmed? && s.threads[t].id == j)
    {
      assert PcOk(s, t, s.threads[t]);
    }
  }

  /** A final record stays as it is until retention removes it. */
  lemma FinalStays(native: bool, limit: nat, states: seq<State>, steps: seq<Step>, i: nat, k: nat, j: JobId)
    requires IsRun(native, limit, states, steps) && i <= k < |states| && Final(states[i], j)
    ensures j in states[k].jobs ==> Final(states[k], j) && states[k].jobs[j] == states[i].jobs[j]
  {
    hide Inv, Apply, Enabled;
    ReachableInv(native, limit, states, steps, i);
    Recorded(states[i]);
    RunLater(native, limit, states, steps, i, k, j);
  }

  /** The value was read from the record at some state of the run, and a success was final there. */
  ghost predicate Read(states: seq<State>, now: nat, j: JobId, job: Job) {
    exists m :: now <= m < |states| && j in states[m].jobs && states[m].jobs[j] == job &&
                (job.status.Succeeded? ==> Final(states[m], j))
  }

  lemma ClosedStaysClosed(native: bool, limit: nat, states: seq<State>, steps: seq<Step>, i: nat, k: nat, j: JobId)
    requires IsRun(native, limit, states, steps) && i <= k < |states| && j in states[i].born && j !in states[i].gates
    ensures j in states[k].born && j !in states[k].gates
  {
    hide Inv, Apply, Enabled;
    RunLater(native, limit, states, steps, i, k, j);
  }

  /** An unchanged version means that no gate closed in between. */
  lemma VersionSeesGates(native: bool, limit: nat, states: seq<State>, steps: seq<Step>, a: nat, b: nat, c: nat, j: JobId)
    requires IsRun(native, limit, states, steps) && a <= b <= c < |states|
    requires states[a].version == states[c].version
    ensures j in states[b].gates ==> j in states[c].gates
  {
    hide Inv, Apply, Enabled;
    RunLater(native, limit, states, steps, a, b, j);
    RunLater(native, limit, states, steps, b, c, j);
  }

  /** What a read may answer instead of a job. */
  datatype Unread = Missing | GivenUp

  /** At some state of the run the record was not stored. */
  ghost predicate Gone(states: seq<State>, now: nat, j: JobId) {
    exists m :: now <= m < |states| && j !in states[m].jobs
  }

  /** The read found a success, and its gate open. */
  ghost predicate Held(states: seq<State>, now: nat, j: JobId) {
    exists a, b :: now <= a < |states| && now <= b < |states| && j in states[a].gates && HasStatus(states[b], j, Succeeded)
  }

  /** An answer read from the run; without one the record was missing, or the caller stopped waiting for a gate. */
  ghost predicate Answers(states: seq<State>, now: nat, j: JobId, answer: Result<Job, Unread>) {
    match answer
    case Ok(job) => Read(states, now, j, job)
    case Err(Missing) => Gone(states, now, j)
    case Err(GivenUp) => Held(states, now, j)
  }

  /** The gate first, then the record; a gated success is read again once its gate has closed. */
  method Get(native: bool, limit: nat, states: seq<State>, ghost steps: seq<Step>, j: JobId, now: nat)
    returns (answer: Result<Job, Unread>)
    requires IsRun(native, limit, states, steps) && now < |states| && j in states[now].born
    ensures Answers(states, now, j, answer)
  {
    hide Inv, Apply, Enabled, IsRun;
    assert now <= now < |states|;
    var gated: nat :| now <= gated < |states|;
    var publication := j in states[gated].gates;
    assert gated <= gated < |states|;
    var loaded: nat :| gated <= loaded < |states|;
    RunLater(native, limit, states, steps, now, gated, j);
    if j !in states[loaded].jobs {
      return Err(Missing);
    }
    var job := states[loaded].jobs[j];
    if job.status.Succeeded? && publication {
      // A wait that outlives the run stands for a cancelled request.
      assert loaded <= |states| <= |states|;
      var waited: nat :| loaded <= waited <= |states| && (waited < |states| ==> j !in states[waited].gates);
      if waited == |states| {
        return Err(GivenUp);
      }
      assert waited <= waited < |states|;
      var reloaded: nat :| waited <= reloaded < |states|;
      RunLater(native, limit, states, steps, now, waited, j);
      ClosedStaysClosed(native, limit, states, steps, waited, reloaded, j);
      if j !in states[reloaded].jobs {
        return Err(Missing);
      }
      job := states[reloaded].jobs[j];
    } else if job.status.Succeeded? {
      ClosedStaysClosed(native, limit, states, steps, gated, loaded, j);
    }
    return Ok(job);
  }

  /** The page that a query of the store returns at each state: identifiers of stored records. */
  ghost predicate Pages(states: seq<State>, page: nat -> seq<JobId>) {
    forall m, j :: 0 <= m < |states| && j in page(m) ==> j in states[m].jobs
  }

  /**
   The database page, read until no gate closed during the query or three times,
   then reconciled row by row; the native page is read with its gates at once.
   */
  method List(native: bool, limit: nat, states: seq<State>, ghost steps: seq<Step>, page: nat -> seq<JobId>, now: nat)
    returns (out: Result<seq<(JobId, Job)>, Unread>)
    requires IsRun(native, limit, states, steps) && Pages(states, page) && now < |states|
    ensures out.Ok? ==>
      (exists m :: now <= m < |states| && |page(m)| == |out.value| &&
                   forall i :: 0 <= i < |out.value| ==> out.value[i].0 == page(m)[i]) &&
      forall i :: 0 <= i < |out.value| ==> Read(states, now, out.value[i].0, out.value[i].1)
    ensures out.Err? ==> exists m, j :: now <= m < |states| && j in page(m) && Answers(states, now, j, Err(out.error))
  {
    hide Inv, Apply, Enabled, IsRun;
    var rows: seq<JobId>, gates, query, after := [], {}, now, now;
    var reload := false;
    if native {
      assert now <= now < |states|;
      query :| now <= query < |states|;
      rows, gates, after := page(query), states[query].gates, query;
    } else {
      var attempt, settled := 0, false;
      while !settled
        invariant now <= query <= after < |states| && attempt <= 3
        invariant settled ==> rows == page(query) && gates == states[after].gates
        invariant settled && !reload ==> GatesCover(states, query, after)
        invariant !settled ==> attempt < 3
        decreases 3 - attempt, !settled
      {
        assert after <= after < |states|;
        var before: nat :| after <= before < |states|;
        var version := states[before].version;
        assert before <= before < |states|;
        query :| before <= query < |states|;
        rows := page(query);
        assert query <= query < |states|;
        after :| query <= after < |states|;
        gates := states[after].gates;
        if version == states[after].version {
          forall j | j in states[query].gates ensures j in states[after].gates {
            VersionSeesGates(native, limit, states, steps, before, query, after, j);
          }
          settled := true;
        } else if attempt == 2 {
          reload, settled := true, true;
        }
        attempt := attempt + 1;
      }
    }
    out := Reconcile(native, limit, states, steps, now, rows, query, after, gates, reload);
  }

  /** Every gate that was open at the query is still open when the gates are copied. */
  predicate GatesCover(states: seq<State>, query: nat, after: nat)
    requires query < |states| && after < |states|
  {
    states[query].gates <= states[after].gates
  }

  /** Rows that may be unfinished successes are read again. */
  method Reconcile(native: bool, limit: nat, states: seq<State>, ghost steps: seq<Step>, ghost now: nat,
                   rows: seq<JobId>, query: nat, after: nat, gates: set<JobId>, reload: bool)
    returns (out: Result<seq<(JobId, Job)>, Unread>)
    requires IsRun(native, limit, states, steps) && now <= query <= after < |states|
    requires forall j :: j in rows ==> j in states[query].jobs
    requires gates == states[after].gates && (!reload ==> GatesCover(states, query, after))
    ensures out.Ok? ==> |out.value| == |rows| && forall i :: 0 <= i < |rows| ==>
      out.value[i].0 == rows[i] && Read(states, now, rows[i], out.value[i].1)
    ensures out.Err? ==> exists j :: j in rows && Answers(states, now, j, Err(out.error))
  {
    hide Inv, Apply, Enabled, IsRun;
    var jobs: seq<(JobId, Job)> := [];
    for i := 0 to |rows|
      invariant |jobs| == i
      invariant forall k :: 0 <= k < i ==> jobs[k].0 == rows[k] && Read(states, now, rows[k], jobs[k].1)
    {
      var j := rows[i];
      var job := states[query].jobs[j];
      Stored(native, limit, states, steps, query, after, j);
      if job.status.Succeeded? && j in gates {
        assert after <= |states| <= |states|;
        var waited: nat :| after <= waited <= |states| && (waited < |states| ==> j !in states[waited].gates);
        if waited == |states| {
          assert j in states[after].gates && HasStatus(states[query], j, Succeeded);
          assert Answers(states, now, j, Err(GivenUp));
          return Err(GivenUp);
        }
        Stored(native, limit, states, steps, query, waited, j);
        var read := Get(native, limit, states, steps, j, waited);
        AnswersSince(states, now, waited, j, read);
        if read.Err? {
          return Err(read.error);
        }
        job := read.value;
      } else if reload && job.status.Succeeded? {
        var read := Get(native, limit, states, steps, j, after);
        AnswersSince(states, now, after, j, read);
        if read.Err? {
          return Err(read.error);
        }
        job := read.value;
      } else {
        assert job.status.Succeeded? ==> Final(states[query], j);
      }
      jobs := jobs + [(j, job)];
    }
    out := Ok(jobs);
  }

  lemma AnswersSince(states: seq<State>, now: nat, later: nat, j: JobId, answer: Result<Job, Unread>)
    requires now <= later && Answers(states, later, j, answer)
    ensures Answers(states, now, j, answer)
  {
  }

  lemma Stored(native: bool, limit: nat, states: seq<State>, steps: seq<Step>, i: nat, k: nat, j: JobId)
    requires IsRun(native, limit, states, steps) && i <= k < |states| && j in states[i].jobs
    ensures j in states[k].born
  {
    hide Inv, Apply, Enabled;
    ReachableInv(native, limit, states, steps, i);
    Recorded(states[i]);
    RunLater(native, limit, states, steps, i, k, j);
  }
}
