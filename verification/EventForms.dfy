/**
 The forms an event stream may take (WHATWG HTML, section 9.2.5): lines ended by
 LF, CR or CRLF in any mixture, and events of any fields, in which all data
 fields together make up one payload.
 */
module EventForms {
  import opened EventLines

  // ----- Line ends -----

  predicate Mark(s: string) { s == "\n" || s == "\r" || s == "\r\n" }

  /** Lines with a mark each; a CR is not followed by an empty line that a lone LF ends, for that would be a CRLF. */
  predicate Marked(lines: seq<string>, marks: seq<string>) {
    |lines| == |marks| &&
    (forall i :: 0 <= i < |lines| ==> OneLine(lines[i]) && Mark(marks[i])) &&
    (forall i :: 0 <= i < |lines| - 1 && marks[i] == "\r" && lines[i + 1] == "" ==> marks[i + 1] != "\n")
  }

  function Joined(lines: seq<string>, marks: seq<string>): string
    requires |lines| == |marks|
  {
    if lines == [] then "" else lines[0] + marks[0] + Joined(lines[1..], marks[1..])
  }

  /** What comes after a CR does not begin with an LF. */
  lemma NoFeed(lines: seq<string>, marks: seq<string>, tail: string)
    requires Marked(lines, marks) && OneLine(tail)
    requires lines != [] && lines[0] == "" ==> marks[0] != "\n"
    ensures var s := Joined(lines, marks) + tail; s != "" ==> s[0] != '\n'
  {
    if lines != [] && lines[0] != "" {
      assert Joined(lines, marks)[0] == lines[0][0];
    }
  }

  lemma MarkedRest(lines: seq<string>, marks: seq<string>)
    requires Marked(lines, marks) && lines != []
    ensures Marked(lines[1..], marks[1..])
  {
    var ls, ms := lines[1..], marks[1..];
    forall i | 0 <= i < |ls| - 1 && ms[i] == "\r" && ls[i + 1] == "" ensures ms[i + 1] != "\n" {
      assert marks[i + 1] == "\r" && lines[i + 2] == "";
    }
  }

  lemma FirstMark(line: string, mark: string, rest: string)
    requires OneLine(line) && Mark(mark) && (mark == "\r" && rest != "" ==> rest[0] != '\n')
    ensures Lines(line + mark + rest) == [line] + Lines(rest)
  {
    var s := line + mark + rest;
    assert forall k :: 0 <= k < |line| ==> s[k] == line[k];
    assert forall k :: 0 <= k < |mark| ==> s[|line| + k] == mark[k];
    LineEndAt(s, 0, |line|);
    assert s[..|line|] == line && s[|line| + |mark|..] == rest;
    assert mark == "\r" && rest != "" ==> s[|line| + 1] == rest[0];
  }

  /** Whatever marks end them, the lines are read back as they are, an unterminated last one included. */
  lemma {:induction false} MarkedLines(lines: seq<string>, marks: seq<string>, tail: string)
    requires Marked(lines, marks) && OneLine(tail)
    ensures Lines(Joined(lines, marks) + tail) == lines + if tail == "" then [] else [tail]
    decreases |lines|
  {
    hide Lines, OneLine, Mark;
    if lines == [] {
      TailLine(tail);
      assert Joined(lines, marks) + tail == tail;
    } else {
      MarkedRest(lines, marks);
      MarkedLines(lines[1..], marks[1..], tail);
      FirstParts(lines, marks, tail);
      FirstMark(lines[0], marks[0], Joined(lines[1..], marks[1..]) + tail);
      assert Joined(lines, marks) + tail == lines[0] + marks[0] + (Joined(lines[1..], marks[1..]) + tail);
      assert lines == [lines[0]] + lines[1..];
    }
  }

  lemma FirstParts(lines: seq<string>, marks: seq<string>, tail: string)
    requires Marked(lines, marks) && lines != [] && OneLine(tail)
    ensures OneLine(lines[0]) && Mark(marks[0])
    ensures var rest := Joined(lines[1..], marks[1..]) + tail; marks[0] == "\r" && rest != "" ==> rest[0] != '\n'
  {
    if marks[0] == "\r" {
      MarkedRest(lines, marks);
      NoFeed(lines[1..], marks[1..], tail);
    }
  }

  lemma TailLine(tail: string)
    requires OneLine(tail)
    ensures Lines(tail) == if tail == "" then [] else [tail]
  {
    if tail != "" && LineEnd(tail, 0) < |tail| {
      assert false;
    }
  }

  // ----- Events -----

  /** A field of an event, written with or without the one blank that is not part of its value. */
  datatype Entry = Entry(field: string, value: string, blank: bool)

  predicate Proper(e: Entry) {
    ':' !in e.field && (e.value != "" && e.value[0] == ' ' ==> e.blank)
  }

  function Line(e: Entry): string { e.field + ":" + (if e.blank then " " else "") + e.value }

  /** The fields of one event, and the empty line that ends it. */
  function EventText(event: seq<Entry>): seq<string> {
    if event == [] then [""] else [Line(event[0])] + EventText(event[1..])
  }

  function Text(events: seq<seq<Entry>>): seq<string> {
    if events == [] then [] else EventText(events[0]) + Text(events[1..])
  }

  /** Its data fields, each on a line of its own. */
  function DataOf(event: seq<Entry>): string {
    if event == [] then ""
    else (if event[0].field == "data" then event[0].value + "\n" else "") + DataOf(event[1..])
  }

  /** The payloads of the events that have data, without the last line feed. */
  function Payloads(events: seq<seq<Entry>>): seq<string> {
    if events == [] then []
    else
      var data := DataOf(events[0]);
      (if data == "" then [] else [data[..|data| - 1]]) + Payloads(events[1..])
  }

  lemma {:induction false} ColonAt(line: string, i: nat, k: nat)
    requires i <= k < |line| && line[k] == ':' && forall m :: i <= m < k ==> line[m] != ':'
    ensures Colon(line, i) == k
    decreases k - i
  {
    if i < k {
      ColonAt(line, i + 1, k);
    }
  }

  lemma LineReads(e: Entry)
    requires Proper(e)
    ensures Line(e) != "" && Field(Line(e)) == e.field && Value(Line(e)) == e.value
  {
    var line := Line(e);
    assert forall m :: 0 <= m < |e.field| ==> line[m] == e.field[m];
    ColonAt(line, 0, |e.field|);
    assert line[|e.field|] == ':';
    if e.blank {
      assert line[|e.field| + 2..] == e.value;
    } else {
      assert line[|e.field| + 1..] == e.value;
    }
  }

  lemma EntryReads(e: Entry, lines: seq<string>, data: string, max: nat)
    requires Proper(e) && (e.field == "data" ==> |data| + |e.value| + 1 <= max)
    ensures Dispatch([Line(e)] + lines, data, max) == Dispatch(lines, if e.field == "data" then data + e.value + "\n" else data, max)
  {
    LineReads(e);
    hide Line, Field, Value;
    assert ([Line(e)] + lines)[1..] == lines;
  }

  lemma EventParts(event: seq<Entry>)
    ensures event == [] ==> EventText(event) == [""] && DataOf(event) == ""
    ensures event != [] ==> EventText(event) == [Line(event[0])] + EventText(event[1..])
    ensures event != [] ==> DataOf(event) == (if event[0].field == "data" then event[0].value + "\n" else "") + DataOf(event[1..])
  {
  }

  lemma {:induction false} EventReads(event: seq<Entry>, rest: seq<string>, data: string, max: nat)
    requires forall e :: e in event ==> Proper(e)
    requires |data| + |DataOf(event)| <= max
    ensures Dispatch(EventText(event) + rest, data, max) == Dispatch([""] + rest, data + DataOf(event), max)
    decreases |event|
  {
    hide Dispatch, Proper, Line, DataOf, EventText;
    EventParts(event);
    if event == [] {
      assert data + "" == data;
    } else {
      var e := event[0];
      EntryReads(e, EventText(event[1..]) + rest, data, max);
      assert EventText(event) + rest == [Line(e)] + (EventText(event[1..]) + rest);
      if e.field == "data" {
        EventReads(event[1..], rest, data + e.value + "\n", max);
        assert data + e.value + "\n" + DataOf(event[1..]) == data + DataOf(event);
      } else {
        EventReads(event[1..], rest, data, max);
        assert DataOf(event) == DataOf(event[1..]);
      }
    }
  }

  /** All events are dispatched, each with all its data fields and nothing else, while their data stays within the limit. */
  lemma {:induction false} EventsRead(events: seq<seq<Entry>>, max: nat)
    requires forall event :: event in events ==> |DataOf(event)| <= max && forall e :: e in event ==> Proper(e)
    ensures Dispatch(Text(events), "", max) == Received(Payloads(events), true)
    decreases |events|
  {
    hide Dispatch;
    if events == [] {
      NothingReads(max);
    } else {
      assert events[0] in events && forall event :: event in events[1..] ==> event in events;
      EventReads(events[0], Text(events[1..]), "", max);
      EventsRead(events[1..], max);
      assert "" + DataOf(events[0]) == DataOf(events[0]);
      EndReads(Text(events[1..]), DataOf(events[0]), max);
    }
  }

  lemma NothingReads(max: nat)
    ensures Dispatch([], "", max) == Received([], true)
  {
  }

  /** An empty line dispatches what there is. */
  lemma EndReads(rest: seq<string>, data: string, max: nat)
    ensures var r := Dispatch(rest, "", max);
      Dispatch([""] + rest, data, max) == Received((if data == "" then [] else [data[..|data| - 1]]) + r.payloads, r.ok)
  {
    assert ([""] + rest)[1..] == rest;
  }

  /** Data that would not fit is refused, and nothing after it is read. */
  lemma TooMuch(e: Entry, rest: seq<string>, data: string, max: nat)
    requires Proper(e) && e.field == "data" && |data| + |e.value| + 1 > max
    ensures Dispatch([Line(e)] + rest, data, max) == Received([], false)
  {
    LineReads(e);
  }

  /** A byte order mark at the start of the stream belongs to no field. */
  lemma MarkDropped(line: string, rest: seq<string>)
    ensures Unmarked([[BOM] + line] + rest) == [line] + rest
    ensures (line != "" ==> line[0] != BOM) ==> Unmarked([line] + rest) == [line] + rest
  {
  }
}
