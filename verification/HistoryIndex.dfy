/**
 The native store's index of each owner's jobs by creation time, kept sorted by
 binary insertion, so that a page of the newest jobs needs no sorting.
 */
module HistoryIndex {

  type Owner = nat
  type JobId = nat

  const DEFAULT_LIMIT := 50
  const MAX_LIMIT := 200

  datatype Record = Record(owner: Owner, created: nat, terminal: bool)

  type Jobs = map<JobId, Record>

  /** Older jobs come first; equal times are ordered by identifier. */
  predicate Before(jobs: Jobs, a: JobId, b: JobId) {
    a in jobs && b in jobs &&
    (jobs[a].created < jobs[b].created || (jobs[a].created == jobs[b].created && a < b))
  }

  predicate Sorted(jobs: Jobs, ids: seq<JobId>) {
    (forall i :: 0 <= i < |ids| ==> ids[i] in jobs) &&
    forall i, j :: 0 <= i < j < |ids| ==> Before(jobs, ids[i], ids[j])
  }

  ghost function IdsOf(jobs: Jobs, owner: Owner): set<JobId> { set j | j in jobs && jobs[j].owner == owner }

  ghost function Elements(ids: seq<JobId>): set<JobId> { set j | j in ids }

  /** The index of one owner: exactly that owner's jobs, oldest first. */
  ghost predicate Indexes(jobs: Jobs, owner: Owner, ids: seq<JobId>) {
    Sorted(jobs, ids) && Elements(ids) == IdsOf(jobs, owner)
  }

  lemma {:induction false} DistinctCount(jobs: Jobs, ids: seq<JobId>)
    requires Sorted(jobs, ids)
    ensures |Elements(ids)| == |ids|
  {
    if ids == [] {
      assert Elements(ids) == {};
    } else {
      TailElements(jobs, ids);
      DistinctCount(jobs, ids[1..]);
      assert ids[0] in Elements(ids);
      assert Elements(ids) == Elements(ids[1..]) + {ids[0]};
    }
  }

  /** There is one way to sort a set of jobs. */
  lemma {:induction false} SortedUnique(jobs: Jobs, a: seq<JobId>, b: seq<JobId>)
    requires Sorted(jobs, a) && Sorted(jobs, b) && Elements(a) == Elements(b)
    ensures a == b
  {
    DistinctCount(jobs, a);
    DistinctCount(jobs, b);
    if a != [] {
      assert a[0] in Elements(a) && b[0] in Elements(b);
      assert a[0] == b[0] by {
        var i :| 0 <= i < |b| && b[i] == a[0];
        var j :| 0 <= j < |a| && a[j] == b[0];
      }
      TailElements(jobs, a);
      TailElements(jobs, b);
      SortedUnique(jobs, a[1..], b[1..]);
      assert a == [a[0]] + a[1..] && b == [b[0]] + b[1..];
    }
  }

  lemma TailElements(jobs: Jobs, a: seq<JobId>)
    requires a != [] && Sorted(jobs, a)
    ensures Sorted(jobs, a[1..]) && Elements(a[1..]) == Elements(a) - {a[0]}
  {
    forall j | j in Elements(a) - {a[0]} ensures j in Elements(a[1..]) {
      var i :| 0 <= i < |a| && a[i] == j;
      assert a[1..][i - 1] == j;
    }
    forall j | j in Elements(a[1..]) ensures j in Elements(a) - {a[0]} {
      var i :| 0 <= i < |a[1..]| && a[1..][i] == j;
      assert a[i + 1] == j && Before(jobs, a[0], a[i + 1]);
    }
  }

  /** The newest jobs of a set, newest first. */
  ghost predicate Newest(jobs: Jobs, ids: set<JobId>, page: seq<JobId>, limit: nat) {
    && |page| == (if |ids| < limit then |ids| else limit)
    && (forall i :: 0 <= i < |page| ==> page[i] in ids)
    && (forall i, j :: 0 <= i < j < |page| ==> Before(jobs, page[j], page[i]))
    && (forall j, i :: j in ids && j !in page && 0 <= i < |page| ==> Before(jobs, j, page[i]))
  }

  /** There is one page of the newest jobs, so the index gives the same page as sorting all jobs of the owner. */
  lemma {:induction false} NewestUnique(jobs: Jobs, ids: set<JobId>, a: seq<JobId>, b: seq<JobId>, limit: nat)
    requires Newest(jobs, ids, a, limit) && Newest(jobs, ids, b, limit)
    ensures a == b
    decreases limit
  {
    if a != [] {
      if a[0] != b[0] {
        FirstIsNewest(jobs, ids, a, limit, b[0]);
        FirstIsNewest(jobs, ids, b, limit, a[0]);
        assert false;
      }
      NewestRest(jobs, ids, a, limit);
      NewestRest(jobs, ids, b, limit);
      NewestUnique(jobs, ids - {a[0]}, a[1..], b[1..], limit - 1);
      assert a == [a[0]] + a[1..] && b == [b[0]] + b[1..];
    }
  }

  lemma FirstIsNewest(jobs: Jobs, ids: set<JobId>, page: seq<JobId>, limit: nat, j: JobId)
    requires Newest(jobs, ids, page, limit) && page != [] && j in ids && j != page[0]
    ensures Before(jobs, j, page[0])
  {
    if j in page {
      var i :| 0 <= i < |page| && page[i] == j;
    }
  }

  lemma NewestRest(jobs: Jobs, ids: set<JobId>, page: seq<JobId>, limit: nat)
    requires Newest(jobs, ids, page, limit) && page != []
    ensures Newest(jobs, ids - {page[0]}, page[1..], limit - 1)
  {
    var rest := page[1..];
    assert |ids - {page[0]}| == |ids| - 1;
    forall i | 0 <= i < |rest| ensures rest[i] in ids - {page[0]} {
      assert Before(jobs, page[i + 1], page[0]);
    }
    assert page == [page[0]] + rest;
  }

  class Store {
    var jobs: Jobs
    var jobHistory: map<Owner, seq<JobId>>

    function HistoryOf(owner: Owner): seq<JobId>
      reads `jobHistory
    {
      if owner in jobHistory then jobHistory[owner] else []
    }

    ghost predicate Valid()
      reads this
    {
      forall owner :: Indexes(jobs, owner, HistoryOf(owner))
    }

    constructor ()
      ensures Valid() && jobs == map[]
    {
      jobs, jobHistory := map[], map[];
    }

    /** sort.Search: the first position whose job is newer than the given one. */
    method Search(ids: seq<JobId>, created: nat, id: JobId) returns (position: nat)
      requires Sorted(jobs, ids) && id !in ids
      ensures position <= |ids|
      ensures forall i :: 0 <= i < position ==> jobs[ids[i]].created < created || (jobs[ids[i]].created == created && ids[i] < id)
      ensures forall i :: position <= i < |ids| ==> jobs[ids[i]].created > created || (jobs[ids[i]].created == created && ids[i] > id)
    {
      var low, high := 0, |ids|;
      while low < high
        invariant 0 <= low <= high <= |ids|
        invariant forall i :: 0 <= i < low ==> jobs[ids[i]].created < created || (jobs[ids[i]].created == created && ids[i] < id)
        invariant forall i :: high <= i < |ids| ==> jobs[ids[i]].created > created || (jobs[ids[i]].created == created && ids[i] > id)
      {
        var middle := (low + high) / 2;
        var job := jobs[ids[middle]];
        assert ids[middle] != id;
        if job.created > created || (job.created == created && ids[middle] > id) {
          assert forall i :: middle < i < high ==> Before(jobs, ids[middle], ids[i]);
          high := middle;
        } else {
          assert forall i :: low <= i < middle ==> Before(jobs, ids[i], ids[middle]);
          low := middle + 1;
        }
      }
      return low;
    }

    /** save: the record, then its place in the owner's index. */
    method Save(id: JobId, owner: Owner, created: nat) returns (ok: bool)
      requires Valid()
      modifies this
      ensures Valid()
      ensures ok <==> id !in old(jobs)
      ensures jobs == if ok then old(jobs)[id := Record(owner, created, false)] else old(jobs)
    {
      if id in jobs {
        return false;
      }
      var history := HistoryOf(owner);
      assert Indexes(jobs, owner, history);
      assert id !in history by { assert id !in IdsOf(jobs, owner); assert id in history ==> id in Elements(history); }
      var position := Search(history, created, id);
      ghost var before := jobs;
      jobs := jobs[id := Record(owner, created, false)];
      var longer := history[..position] + [id] + history[position..];
      Inserted(before, jobs, owner, history, id, position);
      jobHistory := jobHistory[owner := longer];
      forall other | other != owner ensures Indexes(jobs, other, HistoryOf(other)) {
        assert HistoryOf(other) == old(HistoryOf(other)) && Indexes(before, other, old(HistoryOf(other)));
        Elsewhere(before, jobs, other, HistoryOf(other), id);
      }
      return true;
    }

    lemma Inserted(before: Jobs, after: Jobs, owner: Owner, ids: seq<JobId>, id: JobId, position: nat)
      requires Indexes(before, owner, ids) && id !in before && id in after && after == before[id := after[id]]
      requires after[id].owner == owner && position <= |ids|
      requires forall i :: 0 <= i < position ==> Before(after, ids[i], id)
      requires forall i :: position <= i < |ids| ==> Before(after, id, ids[i])
      ensures Indexes(after, owner, ids[..position] + [id] + ids[position..])
    {
      var longer := ids[..position] + [id] + ids[position..];
      forall i, j | 0 <= i < j < |longer| ensures Before(after, longer[i], longer[j]) {
        if i != position && j != position {
          var a, b := if i < position then i else i - 1, if j < position then j else j - 1;
          assert longer[i] == ids[a] && longer[j] == ids[b] && Before(before, ids[a], ids[b]);
        }
      }
      InsertedElements(ids, id, position);
      assert IdsOf(after, owner) == IdsOf(before, owner) + {id};
    }

    lemma InsertedElements(ids: seq<JobId>, id: JobId, position: nat)
      requires position <= |ids|
      ensures Elements(ids[..position] + [id] + ids[position..]) == Elements(ids) + {id}
    {
      assert ids == ids[..position] + ids[position..];
    }

    lemma Elsewhere(before: Jobs, after: Jobs, owner: Owner, ids: seq<JobId>, id: JobId)
      requires Indexes(before, owner, ids) && id !in before && id in after && after == before[id := after[id]]
      requires after[id].owner != owner
      ensures Indexes(after, owner, ids)
    {
      assert forall i, j :: 0 <= i < j < |ids| ==> Before(before, ids[i], ids[j]);
      assert IdsOf(after, owner) == IdsOf(before, owner);
    }

    /** A transition rewrites a record but neither its owner nor its creation time. */
    method Transition(id: JobId, terminal: bool)
      requires Valid() && id in jobs
      modifies `jobs
      ensures Valid() && jobs == old(jobs)[id := old(jobs)[id].(terminal := terminal)]
    {
      ghost var before := jobs;
      jobs := jobs[id := jobs[id].(terminal := terminal)];
      forall owner ensures Indexes(jobs, owner, HistoryOf(owner)) {
        assert Indexes(before, owner, HistoryOf(owner));
        assert IdsOf(jobs, owner) == IdsOf(before, owner);
        var ids := HistoryOf(owner);
        assert forall i, j :: 0 <= i < j < |ids| ==> Before(before, ids[i], ids[j]);
      }
    }

    /** Records are removed, then every owner that lost one has its index filtered. */
    method Prune(removed: set<JobId>)
      requires Valid()
      modifies this
      ensures Valid() && jobs == old(jobs) - removed
    {
      ghost var before := jobs;
      var owners := set j | j in jobs && j in removed :: jobs[j].owner;
      jobs := jobs - removed;
      forall owner | owner !in owners ensures Indexes(jobs, owner, HistoryOf(owner)) {
        assert Indexes(before, owner, HistoryOf(owner));
        NoneRemoved(before, jobs, owner, HistoryOf(owner), removed);
      }
      while owners != {}
        invariant jobs == before - removed
        invariant forall owner :: owner in owners ==> Indexes(before, owner, HistoryOf(owner))
        invariant forall owner :: owner !in owners ==> Indexes(jobs, owner, HistoryOf(owner))
        decreases owners
      {
        var owner :| owner in owners;
        owners := owners - {owner};
        PruneHistory(owner, before, removed);
      }
    }

    lemma NoneRemoved(before: Jobs, after: Jobs, owner: Owner, ids: seq<JobId>, removed: set<JobId>)
      requires Indexes(before, owner, ids) && after == before - removed
      requires forall j :: j in before && j in removed ==> before[j].owner != owner
      ensures Indexes(after, owner, ids)
    {
      assert IdsOf(after, owner) == IdsOf(before, owner);
      forall i | 0 <= i < |ids| ensures ids[i] in after {
        assert ids[i] in Elements(ids);
      }
      assert forall i, j :: 0 <= i < j < |ids| ==> Before(before, ids[i], ids[j]);
    }

    /** Drops the identifiers whose record is gone. */
    method PruneHistory(owner: Owner, ghost before: Jobs, ghost removed: set<JobId>)
      requires jobs == before - removed && Indexes(before, owner, HistoryOf(owner))
      modifies `jobHistory
      ensures Indexes(jobs, owner, HistoryOf(owner))
      ensures forall other :: other != owner ==> HistoryOf(other) == old(HistoryOf(other))
    {
      var history := HistoryOf(owner);
      var kept: seq<JobId> := [];
      for i := 0 to |history|
        invariant Sorted(jobs, kept)
        invariant forall j :: j in kept <==> j in history[..i] && j in jobs
        invariant forall k :: 0 <= k < |kept| ==> exists a :: 0 <= a < i && history[a] == kept[k]
      {
        assert history[..i + 1] == history[..i] + [history[i]];
        if history[i] in jobs {
          forall k | 0 <= k < |kept| ensures Before(jobs, kept[k], history[i]) {
            var a :| 0 <= a < i && history[a] == kept[k];
            assert Before(before, history[a], history[i]);
          }
          kept := kept + [history[i]];
        }
      }
      assert history[..|history|] == history;
      assert IdsOf(jobs, owner) == IdsOf(before, owner) - removed;
      assert Elements(kept) == IdsOf(jobs, owner) by {
        assert forall j :: j in Elements(kept) <==> j in Elements(history) && j in jobs;
      }
      if |kept| == 0 {
        jobHistory := jobHistory - {owner};
      } else {
        jobHistory := jobHistory[owner := kept];
      }
    }

    /** A page of the owner's newest jobs, read backwards from the index. */
    method List(owner: Owner, limit: int) returns (page: seq<JobId>)
      requires Valid()
      ensures Newest(jobs, IdsOf(jobs, owner), page, if limit < 1 || limit > MAX_LIMIT then DEFAULT_LIMIT else limit)
    {
      var wanted := if limit < 1 || limit > MAX_LIMIT then DEFAULT_LIMIT else limit;
      var history := HistoryOf(owner);
      assert Indexes(jobs, owner, history);
      page := [];
      var i := |history|;
      while i > 0 && |page| < wanted
        invariant 0 <= i <= |history| && |page| == |history| - i && |page| <= wanted
        invariant forall k :: 0 <= k < |page| ==> page[k] == history[|history| - 1 - k]
        decreases i
      {
        i := i - 1;
        page := page + [history[i]];
      }
      DistinctCount(jobs, history);
      forall k | i <= k < |history| ensures history[k] in page { assert page[|history| - 1 - k] == history[k]; }
      forall k | 0 <= k < |page| ensures page[k] in IdsOf(jobs, owner) { assert page[k] in Elements(history); }
      forall j, k | j in IdsOf(jobs, owner) && j !in page && 0 <= k < |page| ensures Before(jobs, j, page[k]) {
        assert j in Elements(history);
        var a :| 0 <= a < |history| && history[a] == j;
      }
    }
  }
}
