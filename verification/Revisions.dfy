/**
 Exactly-once admission of revisions: receipts answer retries, and once a
 receipt is evicted the base revision refuses them.
 */
module Revisions {
  import opened Options

  const MAX_RECEIPTS := 128
  const MAX_REVISION := 0x8000_0000

  type Key = string
  type JobId = nat

  datatype Request = Request(upload: nat, base: nat, key: Key)
  datatype Receipt = Receipt(request: Request, job: JobId)

  type Receipts = map<Key, Receipt>

  datatype Reply = Accepted(job: JobId) | Replayed(job: JobId) | KeyReused | Conflict | Failed

  function Recent(accepted: seq<Receipt>): seq<Receipt> {
    if |accepted| > MAX_RECEIPTS then accepted[|accepted| - MAX_RECEIPTS..] else accepted
  }

  /** An unknown request on another revision than the last, or after the last one possible. */
  predicate Outdated(revision: nat, receipts: Receipts, req: Request) {
    req.key !in receipts && (req.base != revision || revision >= MAX_REVISION)
  }

  predicate DistinctKeys(rs: seq<Receipt>) {
    forall i, j :: 0 <= i < j < |rs| ==> rs[i].request.key != rs[j].request.key
  }

  /** The receipts are those of the last accepted revisions, oldest first. */
  ghost predicate Indexed(recent: seq<Receipt>, receipts: Receipts, order: seq<Key>) {
    && DistinctKeys(recent) && |order| == |recent|
    && (forall i :: 0 <= i < |order| ==>
         order[i] == recent[i].request.key && order[i] in receipts && receipts[order[i]] == recent[i])
    && (forall k :: k in receipts ==> k in order)
  }

  lemma IndexedKeys(recent: seq<Receipt>, receipts: Receipts, order: seq<Key>, k: Key)
    requires Indexed(recent, receipts, order)
    ensures k in receipts ==> receipts[k] in recent && receipts[k].request.key == k
    ensures forall i :: 0 <= i < |recent| && recent[i].request.key == k ==> k in receipts && receipts[k] == recent[i]
  {
    if k in receipts {
      var i :| 0 <= i < |order| && order[i] == k;
      assert recent[i].request.key == k;
    }
    forall i | 0 <= i < |recent| && recent[i].request.key == k ensures k in receipts && receipts[k] == recent[i] {
      assert order[i] == k;
    }
  }

  lemma IndexedAppend(recent: seq<Receipt>, receipts: Receipts, order: seq<Key>, r: Receipt)
    requires Indexed(recent, receipts, order) && r.request.key !in receipts
    ensures Indexed(recent + [r], receipts[r.request.key := r], order + [r.request.key])
  {
    IndexedKeys(recent, receipts, order, r.request.key);
    var order', receipts' := order + [r.request.key], receipts[r.request.key := r];
    forall k | k in receipts' ensures k in order' {
      assert k in receipts || k == order'[|order|];
    }
  }

  lemma IndexedDrop(recent: seq<Receipt>, receipts: Receipts, order: seq<Key>)
    requires Indexed(recent, receipts, order) && order != []
    ensures Indexed(recent[1..], receipts - {order[0]}, order[1..])
  {
    assert forall i :: 0 < i < |order| ==> order[i] == recent[i].request.key != recent[0].request.key == order[0];
    forall k | k in receipts - {order[0]} ensures k in order[1..] {
      var i :| 0 <= i < |order| && order[i] == k;
      assert order[1..][i - 1] == k;
    }
  }

  lemma IndexedSize(recent: seq<Receipt>, receipts: Receipts, order: seq<Key>)
    requires Indexed(recent, receipts, order)
    ensures |order| == |recent|
  {
  }

  lemma RecentAppend(accepted: seq<Receipt>, r: Receipt)
    ensures Recent(accepted + [r]) ==
      if |Recent(accepted)| + 1 > MAX_RECEIPTS then (Recent(accepted) + [r])[1..] else Recent(accepted) + [r]
  {
  }

  class Session {
    var revision: nat
    var receipts: Receipts
    var receiptOrder: seq<Key>
    ghost var accepted: seq<Receipt>   // every revision accepted so far, in order

    ghost predicate Valid()
      reads this
    {
      revision == |accepted| && (forall i :: 0 <= i < |accepted| ==> accepted[i].request.base == i) &&
      Indexed(Recent(accepted), receipts, receiptOrder)
    }

    constructor ()
      ensures Valid() && accepted == []
    {
      revision, receipts, receiptOrder, accepted := 0, map[], [], [];
    }

    /** One submission.  `admitted` says whether upload, rate, capacity and store let it through. */
    method Submit(req: Request, job: JobId, admitted: bool) returns (reply: Reply)
      requires Valid()
      modifies this
      ensures Valid()
      ensures reply.Accepted? <==>
        req.key !in old(receipts) && req.base == old(revision) && old(revision) < MAX_REVISION && admitted
      ensures accepted == if reply.Accepted? then old(accepted) + [Receipt(req, job)] else old(accepted)
      ensures reply.Accepted? ==> reply.job == job && revision == old(revision) + 1
      ensures !reply.Accepted? ==> revision == old(revision) && receipts == old(receipts)
      ensures reply.Replayed? ==> Receipt(req, reply.job) in old(accepted)
      ensures reply.Replayed? || reply.KeyReused? <==> req.key in old(receipts)
      ensures reply.Conflict? <==> Outdated(old(revision), old(receipts), req)
      ensures forall i :: 0 <= i < |old(accepted)| && old(accepted)[i].request == req ==>
        reply == Retried(i, |old(accepted)|, old(accepted)[i].job, req.key in old(receipts))
    {
      Answers(req);
      if req.key in receipts {
        var receipt := receipts[req.key];
        if receipt.request != req {
          return KeyReused;
        }
        return Replayed(receipt.job);
      }
      if req.base != revision || revision >= MAX_REVISION {
        return Conflict;
      }
      if !admitted {
        return Failed;
      }
      Accept(req, job);
      return Accepted(job);
    }

    /** What a retry of the i-th accepted request is told: its own job, or that its time has passed. */
    function Retried(i: nat, n: nat, job: JobId, known: bool): Reply {
      if i + MAX_RECEIPTS >= n then Replayed(job) else if known then KeyReused else Conflict
    }

    /** An accepted request is answered by its own receipt while that is among the last; then its base is outdated. */
    lemma Answers(req: Request)
      requires Valid()
      ensures req.key in receipts && receipts[req.key].request == req ==> receipts[req.key] in accepted
      ensures forall i :: 0 <= i < |accepted| && accepted[i].request == req ==>
        req.base != revision &&
        (i + MAX_RECEIPTS >= |accepted| ==> req.key in receipts && receipts[req.key] == accepted[i]) &&
        (i + MAX_RECEIPTS < |accepted| && req.key in receipts ==> receipts[req.key].request != req)
    {
      hide Indexed;
      var recent := Recent(accepted);
      var skipped := |accepted| - |recent|;
      IndexedKeys(recent, receipts, receiptOrder, req.key);
      if req.key in receipts {
        var k :| 0 <= k < |recent| && recent[k] == receipts[req.key];
        assert accepted[skipped + k] == recent[k];
      }
      forall i | 0 <= i < |accepted| && accepted[i].request == req && i >= skipped
        ensures req.key in receipts && receipts[req.key] == accepted[i]
      {
        assert recent[i - skipped] == accepted[i];
      }
    }

    method Accept(req: Request, job: JobId)
      requires Valid() && req.key !in receipts && req.base == revision
      modifies this
      ensures Valid() && accepted == old(accepted) + [Receipt(req, job)] && revision == old(revision) + 1
    {
      hide Indexed, Recent;
      ghost var r := Receipt(req, job);
      RecentAppend(accepted, r);
      IndexedAppend(Recent(accepted), receipts, receiptOrder, r);
      IndexedSize(Recent(accepted) + [r], receipts[req.key := r], receiptOrder + [req.key]);
      revision := revision + 1;
      receipts := receipts[req.key := Receipt(req, job)];
      receiptOrder := receiptOrder + [req.key];
      if |receiptOrder| > MAX_RECEIPTS {
        IndexedDrop(Recent(accepted) + [r], receipts, receiptOrder);
        receipts := receipts - {receiptOrder[0]};
        receiptOrder := receiptOrder[1..];
      }
      accepted := accepted + [r];
    }

    /** One request value is accepted at most once over the whole life of the session. */
    lemma AcceptedOnce(i: nat, j: nat)
      requires Valid() && i < |accepted| && j < |accepted| && accepted[i].request == accepted[j].request
      ensures i == j
    {
      assert accepted[i].request.base == i && accepted[j].request.base == j;
    }

    lemma AllOnce(req: Request)
      requires Valid()
      ensures AtMostOnce(accepted, req)
    {
      forall i, k | 0 <= i < k < |accepted| ensures !(accepted[i].request == req == accepted[k].request) {
        if accepted[i].request == req == accepted[k].request { AcceptedOnce(i, k); }
      }
    }
  }

  // ----- The client's retry loop -----

  /** What the client sees of one exchange: the server's reply, or nothing. */
  datatype Seen = Told(job: JobId) | Refused | Lost

  class Client {
    var pending: Option<Request>
    ghost var prepared: seq<Request>      // every revision prepared so far

    constructor ()
      ensures pending == None && prepared == []
    {
      pending, prepared := None, [];
    }

    /** A new revision on top of the revision that the server reported. */
    method Prepare(upload: nat, revision: nat, key: Key)
      requires pending == None
      modifies this
      ensures pending == Some(Request(upload, revision, key)) && prepared == old(prepared) + [pending.value]
    {
      pending := Some(Request(upload, revision, key));
      prepared := prepared + [pending.value];
    }

    /**
     One attempt to get the pending revision accepted.  A lost reply leaves it
     pending, whether or not the server accepted it; a conflict drops it.
     */
    method AcceptPending(session: Session, job: JobId, admitted: bool, lost: bool) returns (seen: Seen)
      requires session.Valid() && pending.Some?
      modifies this, session
      ensures session.Valid() && prepared == old(prepared)
      ensures session.accepted == old(session.accepted) ||
              (session.accepted == old(session.accepted) + [Receipt(old(pending).value, job)] &&
               forall r :: r in old(session.accepted) ==> r.request != old(pending).value)
      ensures seen.Told? ==> pending == None && Receipt(old(pending).value, seen.job) in session.accepted
      ensures pending == None || pending == old(pending)
      ensures seen.Lost? ==> pending == old(pending)
      ensures seen.Refused? ==> session.accepted == old(session.accepted)
      ensures seen.Lost? <==> lost
      ensures seen.Refused? ==> (pending == None <==> Outdated(old(session.revision), old(session.receipts), old(pending).value))
      ensures Acceptable(old(session.revision), old(session.receipts), old(pending).value) && admitted ==>
        session.accepted == old(session.accepted) + [Receipt(old(pending).value, job)] && (lost || seen.Told?)
      ensures Kept(old(session.accepted), old(pending).value, 0) ==>
        session.accepted == old(session.accepted) && (lost || seen.Told?)
    {
      hide Session.Valid;
      ghost var before := session.accepted;
      var req := pending.value;
      ghost var receipts := session.receipts;
      var reply := session.Submit(req, job, admitted);
      if Kept(before, req, 0) {
        var k :| 0 <= k < |before| && before[k].request == req && |before| <= k + MAX_RECEIPTS;
        assert reply == session.Retried(k, |before|, before[k].job, req.key in receipts);
        assert reply.Replayed?;
      }
      forall r | r in before && r.request == req ensures !reply.Accepted? {
        var i :| 0 <= i < |before| && before[i] == r;
      }
      if lost {
        return Lost;
      }
      match reply
      case Accepted(id) =>
        assert session.accepted[|before|] == Receipt(req, id);
        pending := None;
        return Told(id);
      case Replayed(id) =>
        pending := None;
        return Told(id);
      case Conflict =>
        pending := None;
        return Refused;
      case _ =>
        return Refused;
    }

    /**
     Whatever replies are lost, and whatever other clients submit between the
     attempts, the retries of one prepared revision lead to at most one accepted
     job, and the job that the client is told is the one.
     */
    method Retry(session: Session, others: seq<seq<Submission>>, jobs: seq<JobId>, admitted: seq<bool>, lost: seq<bool>)
      returns (seen: Seen)
      requires session.Valid() && pending.Some? && |others| == |jobs| == |admitted| == |lost|
      modifies this, session
      ensures session.Valid() && Extends(old(session.accepted), session.accepted, old(pending).value, others)
      ensures AtMostOnce(session.accepted, old(pending).value)
      ensures seen.Told? ==> Receipt(old(pending).value, seen.job) in session.accepted
      ensures old(Answerable(session.revision, session.receipts, session.accepted, pending.value, others, admitted)) ==>
        seen.Told? || forall n :: 0 <= n < |lost| ==> lost[n]
    {
      hide Extends, Among, AtMostOnce, Session.Valid, Kept, Acceptable;
      ghost var answerable := Answerable(session.revision, session.receipts, session.accepted, pending.value, others, admitted);
      seen := Lost;
      assert Extends(session.accepted, session.accepted, pending.value, others[..0]) by { NoneAdded(session.accepted, pending.value, others); }
      ghost var before, req := session.accepted, pending.value;
      for n := 0 to |jobs|
        invariant session.Valid() && pending == Some(req) && !seen.Told?
        invariant Extends(before, session.accepted, req, others[..n])
        invariant answerable ==> forall m :: 0 <= m < n ==> lost[m]
        invariant answerable ==>
          Kept(session.accepted, req, Count(others[n..])) ||
          (n == 0 && others != [] && others[0] == [] && admitted[0] && Acceptable(session.revision, session.receipts, req) &&
           Count(others[n..]) < MAX_RECEIPTS)
      {
        ghost var now := session.accepted;
        assert others[n..][1..] == others[n + 1..];
        SubmitAll(session, others[n]);
        KeptOn(now, session.accepted, req, Count(others[n..]), |others[n]|);
        KeptEnough(session.accepted, req, Count(others[n + 1..]));
        JustKept(session.accepted, Receipt(req, jobs[n]), Count(others[n + 1..]));
        ghost var held := session.accepted;
        seen := AcceptPending(session, jobs[n], admitted[n], lost[n]);
        OthersAdded(before, now, held, session.accepted, req, others, n);
        if pending.None? {
          MoreOthers(before, session.accepted, req, others, n + 1);
          break;
        }
      }
      assert others[..|others|] == others;
      session.AllOnce(req);
    }
  }

  predicate AtMostOnce(accepted: seq<Receipt>, req: Request) {
    forall i, k :: 0 <= i < k < |accepted| ==> !(accepted[i].request == req == accepted[k].request)
  }

  // ----- When the client is told -----

  /** A first submission of the request would be accepted, capacity and store permitting. */
  predicate Acceptable(revision: nat, receipts: Receipts, req: Request) {
    req.key !in receipts && req.base == revision < MAX_REVISION
  }

  /** The request was accepted, and its receipt outlives that many further acceptances. */
  predicate Kept(accepted: seq<Receipt>, req: Request, further: nat) {
    exists k :: 0 <= k < |accepted| && accepted[k].request == req && |accepted| + further <= k + MAX_RECEIPTS
  }

  function Count(others: seq<seq<Submission>>): nat {
    if others == [] then 0 else |others[0]| + Count(others[1..])
  }

  /**
   The request has been accepted, or its first attempt is on a current base and
   admitted, and the others are too few to push its receipt out.
   */
  predicate Answerable(revision: nat, receipts: Receipts, accepted: seq<Receipt>, req: Request,
                       others: seq<seq<Submission>>, admitted: seq<bool>)
    requires |others| == |admitted|
  {
    Kept(accepted, req, Count(others)) ||
    (others != [] && others[0] == [] && admitted[0] && Acceptable(revision, receipts, req) && Count(others) < MAX_RECEIPTS)
  }

  lemma KeptOn(accepted: seq<Receipt>, later: seq<Receipt>, req: Request, further: nat, n: nat)
    requires accepted <= later && |later| <= |accepted| + n && n <= further
    ensures Kept(accepted, req, further) ==> Kept(later, req, further - n)
  {
    if Kept(accepted, req, further) {
      var k :| 0 <= k < |accepted| && accepted[k].request == req && |accepted| + further <= k + MAX_RECEIPTS;
      assert later[k] == accepted[k];
    }
  }

  lemma KeptEnough(accepted: seq<Receipt>, req: Request, further: nat)
    ensures Kept(accepted, req, further) ==> Kept(accepted, req, 0)
  {
  }

  lemma JustKept(accepted: seq<Receipt>, r: Receipt, further: nat)
    ensures further < MAX_RECEIPTS ==> Kept(accepted + [r], r.request, further)
  {
    assert (accepted + [r])[|accepted|] == r;
  }

  // ----- Other clients -----

  /** A submission by another client, or by another run of this one. */
  datatype Submission = Submission(request: Request, job: JobId, admitted: bool)

  method SubmitAll(session: Session, submissions: seq<Submission>)
    requires session.Valid()
    modifies session
    ensures session.Valid() && old(session.accepted) <= session.accepted
    ensures |session.accepted| <= |old(session.accepted)| + |submissions|
    ensures submissions == [] ==> session.revision == old(session.revision) && session.receipts == old(session.receipts)
    ensures forall i :: |old(session.accepted)| <= i < |session.accepted| ==> Among(session.accepted[i].request, submissions)
  {
    for n := 0 to |submissions|
      invariant session.Valid() && old(session.accepted) <= session.accepted
      invariant |session.accepted| <= |old(session.accepted)| + n
      invariant submissions == [] ==> session.revision == old(session.revision) && session.receipts == old(session.receipts)
      invariant forall i :: |old(session.accepted)| <= i < |session.accepted| ==> Among(session.accepted[i].request, submissions)
    {
      var _ := session.Submit(submissions[n].request, submissions[n].job, submissions[n].admitted);
      assert Among(submissions[n].request, submissions);
    }
  }

  predicate Among(req: Request, submissions: seq<Submission>) {
    exists n :: 0 <= n < |submissions| && submissions[n].request == req
  }

  predicate AmongAny(req: Request, others: seq<seq<Submission>>) {
    exists n :: 0 <= n < |others| && Among(req, others[n])
  }

  /** Accepted revisions stay; those added are the one request and requests of the others. */
  predicate Extends(before: seq<Receipt>, now: seq<Receipt>, req: Request, others: seq<seq<Submission>>) {
    before <= now && forall i :: |before| <= i < |now| ==> now[i].request == req || AmongAny(now[i].request, others)
  }

  lemma NoneAdded(before: seq<Receipt>, req: Request, others: seq<seq<Submission>>)
    ensures Extends(before, before, req, others[..0])
  {
  }

  lemma MoreOthers(before: seq<Receipt>, now: seq<Receipt>, req: Request, others: seq<seq<Submission>>, n: nat)
    requires n <= |others| && Extends(before, now, req, others[..n])
    ensures Extends(before, now, req, others)
  {
    forall i | |before| <= i < |now| ensures now[i].request == req || AmongAny(now[i].request, others) {
      if AmongAny(now[i].request, others[..n]) {
        var m :| 0 <= m < n && Among(now[i].request, others[..n][m]);
        assert Among(now[i].request, others[m]);
      }
    }
  }

  lemma OthersAdded(before: seq<Receipt>, now: seq<Receipt>, held: seq<Receipt>, later: seq<Receipt>, req: Request,
                    others: seq<seq<Submission>>, n: nat)
    requires n < |others| && Extends(before, now, req, others[..n]) && now <= held
    requires forall i :: |now| <= i < |held| ==> Among(held[i].request, others[n])
    requires later == held || exists r :: later == held + [r] && r.request == req
    ensures Extends(before, later, req, others[..n + 1])
  {
    forall i | |before| <= i < |later| ensures later[i].request == req || AmongAny(later[i].request, others[..n + 1]) {
      if i < |now| {
        if AmongAny(now[i].request, others[..n]) {
          var m :| 0 <= m < n && Among(now[i].request, others[..n][m]);
          assert others[..n + 1][m] == others[..n][m];
        }
      } else if i < |held| {
        assert others[..n + 1][n] == others[n];
      }
    }
  }
}
