/**
 Lines of a server-sent event stream (WHATWG HTML, sections 9.2.5 and 9.2.6).
 The splitter sees the stream in arbitrary pieces; the lines it yields are those
 of the stream as a whole.
 */
module EventLines {
  import opened Options

  predicate Ends(c: char) { c == '\r' || c == '\n' }

  /** The first line end at or after i, or the length. */
  function LineEnd(s: string, i: nat): (end: nat)
    requires i <= |s|
    ensures i <= end <= |s|
    ensures forall k :: i <= k < end ==> !Ends(s[k])
    ensures end < |s| ==> Ends(s[end])
    decreases |s| - i
  {
    if i == |s| || Ends(s[i]) then i else LineEnd(s, i + 1)
  }

  /** What follows a line end: a CR and an LF together end one line. */
  function After(s: string, end: nat): (rest: nat)
    requires end < |s|
    ensures end < rest <= |s|
  {
    if s[end] == '\r' && end + 1 < |s| && s[end + 1] == '\n' then end + 2 else end + 1
  }

  /** The lines of a stream that ends here; an unterminated last line counts when it is not empty. */
  function Lines(s: string): seq<string>
    decreases |s|
  {
    if s == "" then []
    else
      var end := LineEnd(s, 0);
      if end == |s| then [s] else [s[..end]] + Lines(s[After(s, end)..])
  }

  /** The stream after a CR that has already ended its line. */
  function Unskipped(s: string, skip: bool): string {
    if skip && s != "" && s[0] == '\n' then s[1..] else s
  }

  /** The lines up to the first that does not fit into the buffer together with its end. */
  function Fitting(lines: seq<string>, max: nat): seq<string> {
    if lines == [] || |lines[0]| >= max then [] else [lines[0]] + Fitting(lines[1..], max)
  }

  predicate AllFit(lines: seq<string>, max: nat) { forall k :: 0 <= k < |lines| ==> |lines[k]| < max }

  lemma {:induction false} FittingAll(lines: seq<string>, max: nat)
    ensures Fitting(lines, max) == lines <==> AllFit(lines, max)
  {
    if lines != [] && |lines[0]| < max {
      FittingAll(lines[1..], max);
      assert lines == [lines[0]] + lines[1..];
    }
  }

  /** What one call of the splitter promises. */
  ghost predicate Splits(data: string, atEOF: bool, skip: bool, advance: nat, token: Option<string>, skip': bool) {
    var rest := Unskipped(data, skip);
    var end := LineEnd(rest, 0);
    && advance <= |data|
    && (if end < |rest| then
          token == Some(rest[..end]) && advance == |data| - |rest| + end + 1 && skip' == (rest[end] == '\r')
        else if atEOF && rest != "" then token == Some(rest) && advance == |data| && !skip'
        else token == None && advance == |data| - |rest| && skip' == (skip && data == ""))
  }

  class Splitter {
    var skipLF: bool

    constructor ()
      ensures !skipLF
    {
      skipLF := false;
    }

    /** One call by the scanner on the bytes it has buffered. */
    method Split(data: string, atEOF: bool) returns (advance: nat, token: Option<string>)
      modifies this
      ensures Splits(data, atEOF, old(skipLF), advance, token, skipLF)
    {
      var offset := 0;
      var rest := data;
      if skipLF && |data| > 0 {
        skipLF := false;
        if data[0] == '\n' {
          rest := data[1..];
          offset := 1;
        }
      }
      var i := 0;
      while i < |rest| && !Ends(rest[i])
        invariant i <= |rest| && LineEnd(rest, 0) == LineEnd(rest, i)
      {
        i := i + 1;
      }
      if i < |rest| {
        skipLF := rest[i] == '\r';
        return offset + i + 1, Some(rest[..i]);
      }
      if atEOF && |rest| > 0 {
        return offset + |rest|, Some(rest);
      }
      return offset, None;
    }
  }

  // ----- The stream as a whole -----

  /** A line at the front of the buffer is the first line of the whole rest of the stream. */
  lemma FirstLine(buffer: string, unread: string)
    requires LineEnd(buffer, 0) < |buffer|
    ensures var end := LineEnd(buffer, 0);
      Lines(buffer + unread) == [buffer[..end]] + Lines(Unskipped(buffer[end + 1..] + unread, buffer[end] == '\r'))
  {
    var end, whole := LineEnd(buffer, 0), buffer + unread;
    SameLineEnd(buffer, unread, 0);
    assert whole[..end] == buffer[..end];
    assert whole[end + 1..] == buffer[end + 1..] + unread;
    if whole[end] == '\r' && end + 1 < |whole| && whole[end + 1] == '\n' {
      assert whole[end + 1..][1..] == whole[end + 2..];
    }
  }

  lemma {:induction false} SameLineEnd(buffer: string, unread: string, i: nat)
    requires i <= LineEnd(buffer, 0) < |buffer| && forall k :: 0 <= k < i ==> !Ends(buffer[k])
    ensures LineEnd(buffer + unread, i) == LineEnd(buffer, 0)
    decreases |buffer| - i
  {
    if !Ends(buffer[i]) {
      SameLineEnd(buffer, unread, i + 1);
    }
  }

  /** The lines still to come: buffered and unread bytes, without a line feed that was already accounted for. */
  function Coming(buffer: string, unread: string, skip: bool): seq<string> { Lines(Unskipped(buffer + unread, skip)) }

  lemma TokenIsFirst(buffer: string, unread: string, atEOF: bool, skip: bool, advance: nat, token: Option<string>, skip': bool)
    requires Splits(buffer, atEOF, skip, advance, token, skip') && token.Some? && (atEOF ==> unread == "")
    ensures Coming(buffer, unread, skip) == [token.value] + Coming(buffer[advance..], unread, skip')
    ensures |token.value| <= |buffer| && (|token.value| == |buffer| ==> atEOF) && 0 < advance <= |buffer|
  {
    var rest := Unskipped(buffer, skip);
    assert Unskipped(buffer + unread, skip) == rest + unread;
    if LineEnd(rest, 0) < |rest| {
      FirstLine(rest, unread);
      hide Lines;
      assert buffer[advance..] == rest[LineEnd(rest, 0) + 1..];
    } else {
      LastLine(rest);
      hide Lines;
      assert rest + unread == rest;
      assert buffer[advance..] + unread == "";
    }
  }

  lemma LastLine(rest: string)
    requires rest != "" && LineEnd(rest, 0) == |rest|
    ensures Lines(rest) == [rest] + Lines("")
  {
  }

  lemma NothingYet(buffer: string, unread: string, atEOF: bool, skip: bool, advance: nat, skip': bool)
    requires Splits(buffer, atEOF, skip, advance, None, skip') && buffer != ""
    ensures Coming(buffer, unread, skip) == Coming(buffer[advance..], unread, skip')
    ensures forall k :: advance <= k < |buffer| ==> !Ends(buffer[k])
    ensures atEOF ==> buffer[advance..] == ""
  {
    hide Lines;
    var rest := Unskipped(buffer, skip);
    assert rest == buffer[advance..] && LineEnd(rest, 0) == |rest| && !skip';
    hide Splits;
    SkippedOnce(buffer, unread, skip);
    assert Unskipped(rest + unread, false) == rest + unread;
    forall k | advance <= k < |buffer| ensures !Ends(buffer[k]) { assert buffer[k] == rest[k - advance]; }
  }

  lemma SkippedOnce(buffer: string, unread: string, skip: bool)
    requires buffer != ""
    ensures Unskipped(buffer + unread, skip) == Unskipped(buffer, skip) + unread
  {
  }

  /** A full buffer without a line end holds the front of a line that does not fit. */
  lemma FullBuffer(buffer: string, unread: string, max: nat)
    requires |buffer| >= max > 0 && forall k :: 0 <= k < |buffer| ==> !Ends(buffer[k])
    ensures Fitting(Coming(buffer, unread, false), max) == [] && !AllFit(Coming(buffer, unread, false), max)
  {
    var whole := buffer + unread;
    assert forall k :: 0 <= k < |buffer| ==> !Ends(whole[k]);
    assert LineEnd(whole, 0) >= |buffer|;
    var lines := Lines(whole);
    assert |lines[0]| >= max;
  }

  lemma FittingFirst(line: string, rest: seq<string>, max: nat)
    requires |line| < max
    ensures Fitting([line] + rest, max) == [line] + Fitting(rest, max)
    ensures AllFit([line] + rest, max) <==> AllFit(rest, max)
  {
    assert ([line] + rest)[1..] == rest;
    if !AllFit(rest, max) {
      var k :| 0 <= k < |rest| && |rest[k]| >= max;
      assert ([line] + rest)[k + 1] == rest[k];
    }
  }

  /** What has been read so far, and what is still to come, make up the lines of the input. */
  ghost predicate Reading(lines: seq<string>, buffer: string, unread: string, skip: bool, input: string, max: nat) {
    lines + Fitting(Coming(buffer, unread, skip), max) == Fitting(Lines(input), max) &&
    (AllFit(Coming(buffer, unread, skip), max) <==> AllFit(Lines(input), max))
  }

  lemma TokenRead(lines: seq<string>, buffer: string, unread: string, atEOF: bool, skip: bool, advance: nat,
                  token: Option<string>, skip': bool, input: string, max: nat)
    requires Reading(lines, buffer, unread, skip, input, max) && |buffer| <= max && (atEOF ==> unread == "" && |buffer| < max)
    requires Splits(buffer, atEOF, skip, advance, token, skip') && token.Some?
    ensures 0 < advance <= |buffer| && Reading(lines + [token.value], buffer[advance..], unread, skip', input, max)
  {
    SplitAdvances(buffer, atEOF, skip, advance, token, skip');
    hide Splits, Coming, Lines, Fitting, AllFit;
    TokenIsFirst(buffer, unread, atEOF, skip, advance, token, skip');
    var rest := Coming(buffer[advance..], unread, skip');
    FittingFirst(token.value, rest, max);
    assert lines + ([token.value] + Fitting(rest, max)) == (lines + [token.value]) + Fitting(rest, max);
  }

  lemma NothingRead(lines: seq<string>, buffer: string, unread: string, atEOF: bool, skip: bool, advance: nat, skip': bool,
                    input: string, max: nat)
    requires Reading(lines, buffer, unread, skip, input, max) && buffer != ""
    requires Splits(buffer, atEOF, skip, advance, None, skip')
    ensures advance <= |buffer| && !skip' && Reading(lines, buffer[advance..], unread, false, input, max)
    ensures forall k :: advance <= k < |buffer| ==> !Ends(buffer[k])
    ensures atEOF ==> advance == |buffer|
  {
    NothingYet(buffer, unread, atEOF, skip, advance, skip');
    assert atEOF ==> |buffer[advance..]| == 0;
  }

  lemma MoreRead(lines: seq<string>, buffer: string, unread: string, skip: bool, n: nat, input: string, max: nat)
    requires Reading(lines, buffer, unread, skip, input, max) && n <= |unread|
    ensures Reading(lines, buffer + unread[..n], unread[n..], skip, input, max)
  {
    assert (buffer + unread[..n]) + unread[n..] == buffer + unread;
  }

  lemma AllRead(lines: seq<string>, skip: bool, input: string, max: nat)
    requires Reading(lines, "", "", skip, input, max)
    ensures lines == Fitting(Lines(input), max) && AllFit(Lines(input), max)
  {
    assert Coming("", "", skip) == [];
  }

  lemma TooLong(lines: seq<string>, buffer: string, unread: string, input: string, max: nat)
    requires Reading(lines, buffer, unread, false, input, max) && |buffer| >= max > 0
    requires forall k :: 0 <= k < |buffer| ==> !Ends(buffer[k])
    ensures lines == Fitting(Lines(input), max) && !AllFit(Lines(input), max)
  {
    FullBuffer(buffer, unread, max);
  }

  /** One attempt to take a line, or a skipped line feed, from the front of the buffer. */
  method TakeLine(splitter: Splitter, lines: seq<string>, buffer: string, unread: string, atEOF: bool, ghost input: string, max: nat)
    returns (lines': seq<string>, buffer': string)
    requires buffer != "" && |buffer| <= max && (atEOF ==> unread == "" && |buffer| < max)
    requires Reading(lines, buffer, unread, splitter.skipLF, input, max)
    modifies splitter
    ensures Reading(lines', buffer', unread, splitter.skipLF, input, max)
    ensures |buffer'| <= |buffer| && (atEOF ==> |buffer'| < |buffer|)
    ensures |buffer'| == |buffer| ==> !splitter.skipLF && forall k :: 0 <= k < |buffer'| ==> !Ends(buffer'[k])
  {
    hide Splits, Reading;
    ghost var skip := splitter.skipLF;
    var advance, token := splitter.Split(buffer, atEOF);
    SplitAdvances(buffer, atEOF, skip, advance, token, splitter.skipLF);
    buffer' := buffer[advance..];
    if token.Some? {
      TokenRead(lines, buffer, unread, atEOF, skip, advance, token, splitter.skipLF, input, max);
      lines' := lines + [token.value];
    } else {
      NothingRead(lines, buffer, unread, atEOF, skip, advance, splitter.skipLF, input, max);
      lines' := lines;
    }
  }

  /**
   The scanner's loop: split what is buffered, otherwise read more, at most as
   many bytes as the buffer has room for.  The sizes of the reads are arbitrary,
   and the result does not depend on them.
   */
  method ReadLines(input: string, sizes: nat -> nat, max: nat) returns (lines: seq<string>, tooLong: bool)
    requires max > 0
    ensures lines == Fitting(Lines(input), max) && (tooLong <==> !AllFit(Lines(input), max))
  {
    var splitter := new Splitter();
    var buffer, unread, calls, atEOF := "", input, 0, false;
    lines, tooLong := [], false;
    assert Reading(lines, buffer, unread, false, input, max) by { assert buffer + unread == input; }
    hide *;
    while true
      invariant |buffer| <= max && (atEOF ==> unread == "" && |buffer| < max)
      invariant Reading(lines, buffer, unread, splitter.skipLF, input, max)
      decreases |unread| + |buffer|, |unread|, !atEOF
    {
      if buffer != "" {
        var length := |buffer|;
        lines, buffer := TakeLine(splitter, lines, buffer, unread, atEOF, input, max);
        if |buffer| < length {
          continue;
        }
        if |buffer| >= max {
          TooLong(lines, buffer, unread, input, max);
          return lines, true;
        }
      } else if atEOF {
        AllRead(lines, splitter.skipLF, input, max);
        return;
      }
      if unread == "" {
        atEOF := true;
      } else {
        var n := ReadSize(sizes(calls), max - |buffer|, |unread|);
        MoreRead(lines, buffer, unread, splitter.skipLF, n, input, max);
        buffer, unread, calls := buffer + unread[..n], unread[n..], calls + 1;
      }
    }
  }

  /** How many bytes one read delivers: at least one, at most what fits and what is left. */
  function ReadSize(wanted: nat, room: nat, left: nat): (n: nat)
    requires room > 0 && left > 0
    ensures 0 < n <= room && n <= left
  {
    var n := if wanted == 0 then 1 else if wanted > room then room else wanted;
    if n > left then left else n
  }

  lemma SplitAdvances(buffer: string, atEOF: bool, skip: bool, advance: nat, token: Option<string>, skip': bool)
    requires Splits(buffer, atEOF, skip, advance, token, skip')
    ensures advance <= |buffer|
  {
  }

  // ----- Events -----

  const BOM := '\U{FEFF}'

  function Colon(line: string, i: nat): (k: nat)
    requires i <= |line|
    ensures i <= k <= |line|
    decreases |line| - i
  {
    if i == |line| || line[i] == ':' then i else Colon(line, i + 1)
  }

  function Field(line: string): string { line[..Colon(line, 0)] }

  /** The value after the colon, without one leading space. */
  function Value(line: string): string {
    var k := Colon(line, 0);
    if k == |line| then ""
    else if k + 1 < |line| && line[k + 1] == ' ' then line[k + 2..] else line[k + 1..]
  }

  /** The payloads that were dispatched, and whether the data of every event stayed within the limit. */
  datatype Received = Received(payloads: seq<string>, ok: bool)

  function Add(payload: string, r: Received): Received { Received([payload] + r.payloads, r.ok) }

  /** Lines are dispatched at empty lines; `data` is what the fields so far have added up to. */
  function Dispatch(lines: seq<string>, data: string, max: nat): Received
    decreases |lines|
  {
    if lines == [] then Received([], true)
    else if lines[0] == "" then
      if data == "" then Dispatch(lines[1..], "", max)
      else Add(data[..|data| - 1], Dispatch(lines[1..], "", max))
    else if Field(lines[0]) != "data" then Dispatch(lines[1..], data, max)
    else if |Value(lines[0])| + 1 + |data| > max then Received([], false)
    else Dispatch(lines[1..], data + Value(lines[0]) + "\n", max)
  }

  function Unmarked(lines: seq<string>): seq<string> {
    if lines != [] && lines[0] != "" && lines[0][0] == BOM then [lines[0][1..]] + lines[1..] else lines
  }

  /** The reader's loop over the scanner's lines. */
  method ReadEvents(lines: seq<string>, max: nat) returns (payloads: seq<string>, ok: bool)
    ensures Received(payloads, ok) == Dispatch(Unmarked(lines), "", max)
  {
    payloads, ok := [], true;
    var data, first := "", true;
    ghost var all := Unmarked(lines);
    var i := 0;
    while i < |lines|
      invariant 0 <= i <= |lines| == |all| && ok && (first <==> i == 0)
      invariant forall k :: 0 < k < |lines| ==> all[k] == lines[k]
      invariant var rest := Dispatch(all[i..], data, max);
        Received(payloads + rest.payloads, rest.ok) == Dispatch(all, "", max)
    {
      var line := lines[i];
      if first {
        if line != "" && line[0] == BOM {
          line := line[1..];
        }
        first := false;
      }
      assert line == all[i] && all[i..][1..] == all[i + 1..];
      i := i + 1;
      if line == "" {
        if data != "" {
          ghost var rest := Dispatch(all[i..], "", max);
          assert payloads + ([data[..|data| - 1]] + rest.payloads) == (payloads + [data[..|data| - 1]]) + rest.payloads;
          payloads := payloads + [data[..|data| - 1]];
          data := "";
        }
        continue;
      }
      if Field(line) != "data" {
        continue;
      }
      var value := Value(line);
      if |value| + 1 > max - |data| {
        assert payloads + [] == payloads;
        return payloads, false;
      }
      data := data + value + "\n";
    }
  }

  // ----- The server's side -----

  datatype Message = Event(id: string, payload: string) | Heartbeat

  function Encode(m: Message): string {
    match m
    case Event(id, payload) => "id: " + id + "\n" + "event: session\n" + "data: " + payload + "\n\n"
    case Heartbeat => ": heartbeat\n\n"
  }

  predicate OneLine(s: string) { forall k :: 0 <= k < |s| ==> !Ends(s[k]) }

  /** What the server writes: decimal identifiers, and JSON that never contains a line end. */
  predicate Plain(m: Message) { m.Event? ==> OneLine(m.id) && OneLine(m.payload) }

  /** Each line of the message fits into the client's buffer together with its end. */
  predicate Fits(m: Message, max: nat) { m.Event? ==> |"id: " + m.id| < max && |"data: " + m.payload| < max }

  function Stream(messages: seq<Message>): string {
    if messages == [] then "" else Encode(messages[0]) + Stream(messages[1..])
  }

  function Sent(messages: seq<Message>): seq<string> {
    if messages == [] then []
    else if messages[0].Event? then [messages[0].payload] + Sent(messages[1..]) else Sent(messages[1..])
  }

  lemma LinesCons(line: string, rest: string)
    requires OneLine(line)
    ensures Lines(line + "\n" + rest) == [line] + Lines(rest)
  {
    var s := line + "\n" + rest;
    assert forall k :: 0 <= k < |line| ==> !Ends(s[k]);
    LineEndAt(s, 0, |line|);
    assert s[..|line|] == line && s[|line| + 1..] == rest;
  }

  lemma {:induction false} LineEndAt(s: string, i: nat, end: nat)
    requires i <= end < |s| && Ends(s[end]) && forall k :: i <= k < end ==> !Ends(s[k])
    ensures LineEnd(s, i) == end
    decreases end - i
  {
    if i < end {
      LineEndAt(s, i + 1, end);
    }
  }

  function MessageLines(m: Message): seq<string> {
    match m
    case Event(id, payload) => ["id: " + id, "event: session", "data: " + payload, ""]
    case Heartbeat => [": heartbeat", ""]
  }

  lemma EncodedLines(m: Message, rest: string)
    requires Plain(m)
    ensures Lines(Encode(m) + rest) == MessageLines(m) + Lines(rest)
  {
    hide Lines;
    match m
    case Event(id, payload) =>
      var a, b, c := "id: " + id, "event: session", "data: " + payload;
      LinesCons("", rest);
      LinesCons(c, "" + "\n" + rest);
      LinesCons(b, c + "\n" + ("" + "\n" + rest));
      LinesCons(a, b + "\n" + (c + "\n" + ("" + "\n" + rest)));
      assert Encode(m) + rest == a + "\n" + (b + "\n" + (c + "\n" + ("" + "\n" + rest)));
    case Heartbeat =>
      LinesCons("", rest);
      LinesCons(": heartbeat", "" + "\n" + rest);
      assert Encode(m) + rest == ": heartbeat" + "\n" + ("" + "\n" + rest);
  }

  lemma DataLine(payload: string)
    ensures Field("data: " + payload) == "data" && Value("data: " + payload) == payload
  {
    var line := "data: " + payload;
    assert line == "data" + ":" + (" " + payload);
    FieldOf("data", " " + payload);
    assert line[6..] == payload;
  }

  lemma OtherLines(id: string)
    ensures Field("id: " + id) != "data" && Field("event: session") != "data" && Field(": heartbeat") != "data"
  {
    assert "id: " + id == "id" + ":" + (" " + id);
    FieldOf("id", " " + id);
    assert "event: session" == "event" + ":" + " session";
    FieldOf("event", " session");
    assert ": heartbeat" == "" + ":" + " heartbeat";
    FieldOf("", " heartbeat");
  }

  lemma DispatchEmpty(data: string, rest: seq<string>, max: nat)
    requires data != ""
    ensures Dispatch([""] + rest, data, max) == Add(data[..|data| - 1], Dispatch(rest, "", max))
  {
    assert ([""] + rest)[1..] == rest;
  }

  lemma DispatchOther(line: string, rest: seq<string>, data: string, max: nat)
    requires line != "" && Field(line) != "data"
    ensures Dispatch([line] + rest, data, max) == Dispatch(rest, data, max)
  {
    assert ([line] + rest)[1..] == rest;
  }

  lemma DispatchData(line: string, rest: seq<string>, max: nat)
    requires line != "" && Field(line) == "data" && |Value(line)| + 1 <= max
    ensures Dispatch([line] + rest, "", max) == Dispatch(rest, Value(line) + "\n", max)
  {
    assert ([line] + rest)[1..] == rest && "" + Value(line) + "\n" == Value(line) + "\n";
  }

  lemma DispatchMessage(m: Message, rest: seq<string>, max: nat)
    requires Plain(m) && Fits(m, max)
    ensures Dispatch(MessageLines(m) + rest, "", max) ==
      if m.Event? then Add(m.payload, Dispatch(rest, "", max)) else Dispatch(rest, "", max)
  {
    hide Dispatch, Field, Value;
    match m
    case Event(id, payload) =>
      var a, b, c := "id: " + id, "event: session", "data: " + payload;
      OtherLines(id);
      DataLine(payload);
      assert MessageLines(m) + rest == [a] + ([b] + ([c] + ([""] + rest)));
      DispatchOther(a, [b] + ([c] + ([""] + rest)), "", max);
      DispatchOther(b, [c] + ([""] + rest), "", max);
      DispatchData(c, [""] + rest, max);
      DispatchEmpty(payload + "\n", rest, max);
      assert (payload + "\n")[..|payload|] == payload;
    case Heartbeat =>
      OtherLines("");
      assert MessageLines(m) + rest == [": heartbeat"] + ([""] + rest);
      DispatchOther(": heartbeat", [""] + rest, "", max);
      DispatchQuiet(rest, max);
  }

  lemma DispatchQuiet(rest: seq<string>, max: nat)
    ensures Dispatch([""] + rest, "", max) == Dispatch(rest, "", max)
  {
    assert ([""] + rest)[1..] == rest;
  }

  lemma FieldOf(name: string, rest: string)
    requires ':' !in name
    ensures Field(name + ":" + rest) == name && Colon(name + ":" + rest, 0) == |name|
  {
    ColonAt(name + ":" + rest, 0, |name|);
  }

  lemma {:induction false} ColonAt(line: string, i: nat, k: nat)
    requires i <= k < |line| && line[k] == ':' && forall j :: i <= j < k ==> line[j] != ':'
    ensures Colon(line, i) == k
    decreases k - i
  {
    if i < k {
      ColonAt(line, i + 1, k);
    }
  }

  lemma {:induction false} StreamDispatched(messages: seq<Message>, max: nat)
    requires forall m :: m in messages ==> Plain(m) && Fits(m, max)
    ensures Dispatch(Lines(Stream(messages)), "", max) == Received(Sent(messages), true)
  {
    if messages == [] {
    } else {
      StreamDispatched(messages[1..], max);
      EncodedLines(messages[0], Stream(messages[1..]));
      DispatchMessage(messages[0], Lines(Stream(messages[1..])), max);
    }
  }

  lemma MessageFits(m: Message, max: nat)
    requires |"event: session"| < max
    ensures AllFit(MessageLines(m), max) <==> Fits(m, max)
  {
    var lines := MessageLines(m);
    match m
    case Event(id, payload) =>
      assert lines[0] == "id: " + id && lines[1] == "event: session" && lines[2] == "data: " + payload && lines[3] == "";
      assert AllFit(lines, max) <==> |lines[0]| < max && |lines[1]| < max && |lines[2]| < max && |lines[3]| < max;
    case Heartbeat =>
      assert lines[0] == ": heartbeat" && lines[1] == "";
  }

  lemma FitTogether(a: seq<string>, b: seq<string>, max: nat)
    ensures AllFit(a + b, max) <==> AllFit(a, max) && AllFit(b, max)
  {
    if AllFit(a + b, max) {
      assert forall k :: 0 <= k < |a| ==> (a + b)[k] == a[k];
      assert forall k :: 0 <= k < |b| ==> (a + b)[|a| + k] == b[k];
    }
  }

  /** The lines of the stream fit exactly when every message does. */
  lemma {:induction false} StreamFits(messages: seq<Message>, max: nat)
    requires |"event: session"| < max && forall m :: m in messages ==> Plain(m)
    ensures AllFit(Lines(Stream(messages)), max) <==> forall m :: m in messages ==> Fits(m, max)
  {
    if messages == [] {
    } else {
      hide Lines, Encode, AllFit, Fits;
      StreamFits(messages[1..], max);
      EncodedLines(messages[0], Stream(messages[1..]));
      MessageFits(messages[0], max);
      FitTogether(MessageLines(messages[0]), Lines(Stream(messages[1..])), max);
      assert forall m :: m in messages <==> m == messages[0] || m in messages[1..];
    }
  }

  lemma StreamUnmarked(messages: seq<Message>)
    requires forall m :: m in messages ==> Plain(m)
    ensures Unmarked(Lines(Stream(messages))) == Lines(Stream(messages))
  {
    if messages != [] {
      hide Lines;
      EncodedLines(messages[0], Stream(messages[1..]));
      assert MessageLines(messages[0])[0] != "" && MessageLines(messages[0])[0][0] != BOM;
    }
  }

  /** The scanner feeds the reader, in reads of any sizes. */
  method ReadStream(input: string, sizes: nat -> nat, max: nat) returns (payloads: seq<string>, ok: bool)
    requires max > 0
    ensures var r := Dispatch(Unmarked(Fitting(Lines(input), max)), "", max);
      payloads == r.payloads && ok == (r.ok && AllFit(Lines(input), max))
  {
    hide *;
    var lines, tooLong := ReadLines(input, sizes, max);
    payloads, ok := ReadEvents(lines, max);
    ok := ok && !tooLong;
  }

  /**
   The client reads back exactly the payloads that the server sent, heartbeats
   dropped, in reads of any sizes and exactly when every line of the messages
   fits into its buffer; otherwise it reports an error.
   */
  method StreamRoundTrip(messages: seq<Message>, sizes: nat -> nat, max: nat) returns (payloads: seq<string>, ok: bool)
    requires |"event: session"| < max && forall m :: m in messages ==> Plain(m)
    ensures ok <==> forall m :: m in messages ==> Fits(m, max)
    ensures ok ==> payloads == Sent(messages)
  {
    hide *;
    payloads, ok := ReadStream(Stream(messages), sizes, max);
    StreamFits(messages, max);
    FittingAll(Lines(Stream(messages)), max);
    StreamUnmarked(messages);
    if forall m :: m in messages ==> Fits(m, max) {
      StreamDispatched(messages, max);
    }
  }
}
