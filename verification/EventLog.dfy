/**
 The bounded replay log of a session's events, and a reader that reconnects
 with the last sequence number it has seen.
 */
module EventLog {
  const MAX_EVENTS := 64

  /** Payloads are opaque; a resync carries the current sequence number instead of the events that are gone. */
  datatype Event = Event(sequence: nat, resync: bool, payload: nat)

  function LastOf(history: seq<Event>): seq<Event> {
    if |history| > MAX_EVENTS then history[|history| - MAX_EVENTS..] else history
  }

  /** Events are numbered from one without gaps. */
  predicate Numbered(history: seq<Event>) {
    forall i :: 0 <= i < |history| ==> history[i].sequence == i + 1 && !history[i].resync
  }

  /** What a reader that has seen everything up to `after` is answered. */
  function Answer(history: seq<Event>, after: nat): seq<Event> {
    if after > |history| || after + MAX_EVENTS < |history| then [Event(|history|, true, 0)] else history[after..]
  }

  lemma AnswerAt(history: seq<Event>, after: nat, i: nat)
    requires Numbered(history) && i < |Answer(history, after)|
    ensures var e := Answer(history, after)[i];
      if e.resync then |Answer(history, after)| == 1
      else after + i < |history| && e == history[after + i] && e.sequence == after + i + 1
  {
  }

  class Log {
    var sequence: nat
    var events: seq<Event>
    ghost var history: seq<Event>   // every event ever published

    ghost predicate Valid()
      reads this
    {
      sequence == |history| && Numbered(history) && events == LastOf(history)
    }

    constructor ()
      ensures Valid() && history == []
    {
      sequence, events, history := 0, [], [];
    }

    method Publish(payload: nat)
      requires Valid()
      modifies this
      ensures Valid() && history == old(history) + [Event(old(sequence) + 1, false, payload)]
    {
      sequence := sequence + 1;
      events := events + [Event(sequence, false, payload)];
      if |events| > MAX_EVENTS {
        events := events[|events| - MAX_EVENTS..];
      }
      history := history + [Event(sequence, false, payload)];
    }

    /** The events after a sequence number, or a resync when they are gone or the number is ahead of the log. */
    method SessionEvents(after: nat) returns (batch: seq<Event>)
      requires Valid()
      ensures batch == Answer(history, after)
      ensures batch == [Event(sequence, true, 0)] || (batch == history[|history| - |batch|..] && |batch| == sequence - after)
      ensures batch == [Event(sequence, true, 0)] <==> after > sequence || sequence - after > MAX_EVENTS
    {
      if after > sequence || (|events| > 0 && after + 1 < events[0].sequence) {
        return [Event(sequence, true, 0)];
      }
      batch := [];
      ghost var skipped := |history| - |events|;
      for i := 0 to |events|
        invariant batch == if skipped + i <= after then [] else history[after..skipped + i]
      {
        assert events[i] == history[skipped + i];
        if events[i].sequence > after {
          batch := batch + [events[i]];
        }
      }
    }
  }

  /** One item follows another: the next event, or an explicit resync. */
  predicate Follows(after: nat, e: Event) { e.resync || e.sequence == after + 1 }

  function Seen(items: seq<Event>): nat { if items == [] then 0 else items[|items| - 1].sequence }

  /** Every item is the event after the one before it, or a resync. */
  predicate Gapless(items: seq<Event>) { forall i :: 0 <= i < |items| ==> Follows(Seen(items[..i]), items[i]) }

  /** Events are those that were published. */
  predicate Genuine(items: seq<Event>, history: seq<Event>) {
    forall e :: e in items && !e.resync ==> e.sequence >= 1 && e.sequence <= |history| && history[e.sequence - 1] == e
  }

  class Reader {
    var after: nat
    var received: seq<Event>

    constructor ()
      ensures after == 0 && received == []
    {
      after, received := 0, [];
    }

    /** The client's filter: an event that is not newer is dropped, a resync is always taken. */
    method Receive(e: Event)
      modifies this
      ensures received == if e.resync || e.sequence > old(after) then old(received) + [e] else old(received)
      ensures after == if e.resync || e.sequence > old(after) then e.sequence else old(after)
    {
      if e.resync || e.sequence > after {
        after := e.sequence;
        received := received + [e];
      }
    }

    /** What the reader has received is gapless and genuine, and ends with the number it remembers. */
    ghost predicate Sound(history: seq<Event>)
      reads this
    {
      Gapless(received) && Genuine(received, history) && after == Seen(received)
    }

    /** An item that follows passes the filter. */
    method ReceiveNext(e: Event, ghost history: seq<Event>)
      requires Sound(history) && Follows(after, e)
      requires !e.resync ==> 1 <= e.sequence <= |history| && history[e.sequence - 1] == e
      modifies this
      ensures Sound(history) && received == old(received) + [e] && after == e.sequence
    {
      hide Gapless, Genuine, Seen;
      Extended(received, e, history);
      Receive(e);
    }

    /** The first `count` events of a batch that answers the number the reader gave. */
    method ReceiveBatch(batch: seq<Event>, count: nat, ghost history: seq<Event>)
      requires Numbered(history) && batch == Answer(history, after) && count <= |batch| && Sound(history)
      modifies this
      ensures Sound(history) && received == old(received) + batch[..count]
      ensures after == if count == 0 then old(after) else batch[count - 1].sequence
    {
      hide Sound, Numbered, Answer;
      ghost var before, start := received, after;
      assert before + batch[..0] == before;
      for i := 0 to count
        invariant received == before + batch[..i] && Sound(history)
        invariant after == if i == 0 then start else batch[i - 1].sequence
      {
        AnswerAt(history, start, i);
        if i > 0 {
          AnswerAt(history, start, i - 1);
        }
        ReceiveNext(batch[i], history);
        assert before + batch[..i] + [batch[i]] == before + batch[..i + 1];
      }
    }
  }

  lemma Extended(items: seq<Event>, e: Event, history: seq<Event>)
    requires Gapless(items) && Genuine(items, history) && Follows(Seen(items), e)
    requires !e.resync ==> 1 <= e.sequence <= |history| && history[e.sequence - 1] == e
    ensures Gapless(items + [e]) && Genuine(items + [e], history) && Seen(items + [e]) == e.sequence
  {
    forall i | 0 <= i < |items + [e]| ensures Follows(Seen((items + [e])[..i]), (items + [e])[i]) {
      assert (items + [e])[..i] == items[..i];
      assert i == |items| ==> items[..i] == items;
    }
  }

  lemma GenuineLater(items: seq<Event>, history: seq<Event>, e: Event)
    requires Genuine(items, history)
    ensures Genuine(items, history + [e])
  {
  }

  /** What happens around a reader: an event is published, or a batch is fetched and cut off after some events. */
  datatype Turn = Publishes(payload: nat) | Reads(count: nat)

  /** The payloads published in the given turns, in order. */
  function Published(turns: seq<Turn>): seq<nat> {
    if turns == [] then []
    else
      var last := turns[|turns| - 1];
      Published(turns[..|turns| - 1]) + (if last.Publishes? then [last.payload] else [])
  }

  /** The log as it has been published: numbered from one, payloads in order. */
  function Numbering(payloads: seq<nat>): seq<Event> {
    seq(|payloads|, i requires 0 <= i < |payloads| => Event(i + 1, false, payloads[i]))
  }

  /** The events after the position are gone, and the read gets as far as its first item. */
  predicate Passes(published: nat, after: nat, count: nat) { count > 0 && after + MAX_EVENTS < published }

  /** How far one read brings the reader: to the end of the log by a resync, else by as many events as it gets. */
  function Reached(published: nat, after: nat, count: nat): nat {
    if count == 0 then after
    else if Passes(published, after, count) || after + count > published then published
    else after + count
  }

  /** How far the turns bring a reader: a resync to the end of the log, other reads by as many events as they get. */
  function Position(turns: seq<Turn>): (position: nat)
    ensures position <= |Published(turns)|
  {
    if turns == [] then 0
    else
      var before, last := turns[..|turns| - 1], turns[|turns| - 1];
      if last.Publishes? then Position(before)
      else Reached(|Published(before)|, Position(before), last.count)
  }

  /** What the turns deliver: of the answer to each read, as many items as it gets. */
  function Delivered(turns: seq<Turn>): seq<Event> {
    if turns == [] then []
    else
      var before, last := turns[..|turns| - 1], turns[|turns| - 1];
      Delivered(before) +
      if last.Publishes? then [] else Cut(Answer(Numbering(Published(before)), Position(before)), last.count)
  }

  function Cut(batch: seq<Event>, count: nat): seq<Event> { batch[..if count <= |batch| then count else |batch|] }

  /** The turn reads something when the events after the reader's position are gone. */
  predicate Skips(turns: seq<Turn>, i: nat)
    requires i < |turns|
  {
    turns[i].Reads? && Passes(|Published(turns[..i])|, Position(turns[..i]), turns[i].count)
  }

  predicate EverSkips(turns: seq<Turn>) { exists i :: 0 <= i < |turns| && Skips(turns, i) }

  predicate Resynced(items: seq<Event>) { exists i :: 0 <= i < |items| && items[i].resync }

  lemma SkipsOneMore(turns: seq<Turn>, i: nat)
    requires i < |turns|
    ensures EverSkips(turns[..i + 1]) <==> EverSkips(turns[..i]) || Skips(turns, i)
  {
    assert forall k :: 0 <= k <= i ==> turns[..i + 1][..k] == turns[..k];
    assert forall k :: 0 <= k < i ==> turns[..i][..k] == turns[..k];
    if EverSkips(turns[..i]) {
      var k :| 0 <= k < i && Skips(turns[..i], k);
      assert Skips(turns[..i + 1], k);
    }
    if Skips(turns, i) {
      assert Skips(turns[..i + 1], i);
    }
    if EverSkips(turns[..i + 1]) {
      var k :| 0 <= k <= i && Skips(turns[..i + 1], k);
      assert k < i ==> Skips(turns[..i], k);
    }
  }

  /** Without a resync, gapless and genuine items are the beginning of the log. */
  lemma {:induction false} UnbrokenPrefix(items: seq<Event>, history: seq<Event>)
    requires Gapless(items) && Genuine(items, history) && !Resynced(items)
    ensures |items| == Seen(items) <= |history| && items == history[..|items|]
  {
    if items != [] {
      var n := |items| - 1;
      assert Seen(items) == items[n].sequence;
      hide Gapless, Genuine, Resynced, Seen;
      Shorter(items, history);
      UnbrokenPrefix(items[..n], history);
      assert items == items[..n] + [items[n]];
      assert history[..n + 1] == history[..n] + [history[n]];
    }
  }

  lemma Shorter(items: seq<Event>, history: seq<Event>)
    requires Gapless(items) && Genuine(items, history) && !Resynced(items) && items != []
    ensures var n := |items| - 1; var front, last := items[..n], items[n];
      Gapless(front) && Genuine(front, history) && !Resynced(front) &&
      last.sequence == Seen(front) + 1 <= |history| && history[last.sequence - 1] == last
  {
    hide Seen;
    var n := |items| - 1;
    var front, last := items[..n], items[n];
    forall i | 0 <= i < n ensures Follows(Seen(front[..i]), front[i]) {
      assert front[..i] == items[..i];
      assert Follows(Seen(items[..i]), items[i]);
    }
    assert last in items && Follows(Seen(front), last);
  }

  /** What one read adds: a resync exactly when the events are gone, and the position it reaches. */
  lemma ReadEnds(history: seq<Event>, after: nat, count: nat)
    requires Numbered(history) && after <= |history|
    ensures var batch := Answer(history, after);
      var got := Cut(batch, count);
      (Resynced(got) <==> Passes(|history|, after, count)) &&
      (if got == [] then after else got[|got| - 1].sequence) == Reached(|history|, after, count)
  {
    var batch := Answer(history, after);
    if count > 0 && after + MAX_EVENTS < |history| {
      assert batch[..1][0].resync;
    }
  }

  lemma ResyncedAppend(items: seq<Event>, more: seq<Event>)
    ensures Resynced(items + more) <==> Resynced(items) || Resynced(more)
  {
    if Resynced(more) {
      var i :| 0 <= i < |more| && more[i].resync;
      assert (items + more)[|items| + i].resync;
    }
    if Resynced(items) {
      var i :| 0 <= i < |items| && items[i].resync;
      assert (items + more)[i].resync;
    }
  }

  lemma NumberingSize(payloads: seq<nat>)
    ensures |Numbering(payloads)| == |payloads|
  {
  }

  lemma NumberingAppend(payloads: seq<nat>, payload: nat)
    ensures Numbering(payloads + [payload]) == Numbering(payloads) + [Event(|payloads| + 1, false, payload)]
  {
  }

  /** One more turn. */
  lemma OneTurn(turns: seq<Turn>, i: nat)
    requires i < |turns|
    ensures var before, after := turns[..i], turns[..i + 1];
      match turns[i]
      case Publishes(payload) =>
        Published(after) == Published(before) + [payload] && Position(after) == Position(before) &&
        Delivered(after) == Delivered(before) &&
        (EverSkips(after) <==> EverSkips(before))
      case Reads(count) =>
        Published(after) == Published(before) && Position(after) == Reached(|Published(before)|, Position(before), count) &&
        Delivered(after) == Delivered(before) + Cut(Answer(Numbering(Published(before)), Position(before)), count) &&
        (EverSkips(after) <==> EverSkips(before) || Passes(|Published(before)|, Position(before), count))
  {
    hide EverSkips;
    assert turns[..i + 1][..i] == turns[..i];
    SkipsOneMore(turns, i);
  }

  /**
   The log holds what was published, in order.  Whatever is published in
   between, and wherever connections break, the reader sees every event once and
   in order up to the position that its reads bring it to, or an explicit resync;
   and it sees a resync exactly if it read when the log had moved on too far.
   */
  method Follow(turns: seq<Turn>) returns (log: Log, reader: Reader)
    ensures fresh(log) && fresh(reader) && log.Valid()
    ensures log.history == Numbering(Published(turns)) && reader.received == Delivered(turns)
    ensures Gapless(reader.received) && Genuine(reader.received, log.history)
    ensures reader.after == Seen(reader.received) == Position(turns)
    ensures Resynced(reader.received) <==> EverSkips(turns)
    ensures !EverSkips(turns) ==> reader.received == log.history[..Position(turns)]
  {
    hide Gapless, Genuine, Seen, Resynced, EverSkips, Numbered, Answer, Numbering, Published, Position, Delivered, Reached, Passes, LastOf;
    log := new Log();
    reader := new Reader();
    NothingReceived();
    for i := 0 to |turns|
      invariant fresh(log) && fresh(reader) && log.Valid()
      invariant log.history == Numbering(Published(turns[..i])) && reader.received == Delivered(turns[..i])
      invariant reader.Sound(log.history) && reader.after == Position(turns[..i])
      invariant Resynced(reader.received) <==> EverSkips(turns[..i])
    {
      OneTurn(turns, i);
      NumberingSize(Published(turns[..i]));
      match turns[i]
      case Publishes(payload) =>
        ghost var history := log.history;
        log.Publish(payload);
        NumberingAppend(Published(turns[..i]), payload);
        GenuineLater(reader.received, history, log.history[|history|]);
      case Reads(count) =>
        var batch := log.SessionEvents(reader.after);
        ReadEnds(log.history, reader.after, count);
        var taken := if count <= |batch| then count else |batch|;
        ResyncedAppend(reader.received, batch[..taken]);
        reader.ReceiveBatch(batch, taken, log.history);
    }
    assert turns[..|turns|] == turns;
    if !EverSkips(turns) {
      UnbrokenPrefix(reader.received, log.history);
    }
  }

  lemma NothingReceived()
    ensures Gapless([]) && Genuine([], []) && Seen([]) == 0 && !Resynced([]) && !EverSkips([])
    ensures Published([]) == [] && Numbering([]) == [] && Position([]) == 0 && Delivered([]) == []
  {
  }

  /** A reader that reads whatever the log can answer, with nothing published since, has caught up. */
  lemma CaughtUp(turns: seq<Turn>)
    requires turns != [] && turns[|turns| - 1].Reads? && turns[|turns| - 1].count >= MAX_EVENTS
    ensures Position(turns) == |Published(turns)|
  {
  }
}
