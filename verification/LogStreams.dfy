/** Compiler logs read as a stream: bounded lines for diagnostics, and a bounded tail. */
module LogStreams {

  // ----- Lines of a stream read so far -----

  /** The bytes after the last line feed. */
  function Rest(s: string): string {
    if s == "" then ""
    else if s[|s| - 1] == '\n' then ""
    else Rest(s[..|s| - 1]) + [s[|s| - 1]]
  }

  /** The lines that a line feed has ended. */
  function Complete(s: string): seq<string> {
    if s == "" then []
    else if s[|s| - 1] == '\n' then Complete(s[..|s| - 1]) + [Rest(s[..|s| - 1])]
    else Complete(s[..|s| - 1])
  }

  lemma {:induction false} Fragment(s: string, fragment: string)
    requires '\n' !in fragment
    ensures Rest(s + fragment) == Rest(s) + fragment && Complete(s + fragment) == Complete(s)
  {
    if fragment == "" {
      assert s + fragment == s;
    } else {
      var n := |fragment| - 1;
      Fragment(s, fragment[..n]);
      assert (s + fragment)[..|s + fragment| - 1] == s + fragment[..n];
      assert fragment[n] in fragment;
    }
  }

  lemma EndOfLine(s: string)
    ensures Rest(s + "\n") == "" && Complete(s + "\n") == Complete(s) + [Rest(s)]
  {
    assert (s + "\n")[..|s + "\n"| - 1] == s;
  }

  function Unlines(lines: seq<string>): string {
    if lines == [] then "" else Unlines(lines[..|lines| - 1]) + lines[|lines| - 1] + "\n"
  }

  /** Ended lines and the rest make up the stream, and no line feed stands inside them: there is one such reading. */
  lemma {:induction false} LinesExactly(s: string, lines: seq<string>, rest: string)
    ensures Complete(s) == lines && Rest(s) == rest <==>
      s == Unlines(lines) + rest && '\n' !in rest && forall i :: 0 <= i < |lines| ==> '\n' !in lines[i]
  {
    LinesJoined(s);
    if s == Unlines(lines) + rest && '\n' !in rest && forall i :: 0 <= i < |lines| ==> '\n' !in lines[i] {
      LinesOf(lines);
      Fragment(Unlines(lines), rest);
      assert "" + rest == rest;
    }
  }

  lemma UnlinesOne(lines: seq<string>, line: string)
    ensures Unlines(lines + [line]) == Unlines(lines) + line + "\n"
  {
    assert (lines + [line])[..|lines + [line]| - 1] == lines;
  }

  lemma {:induction false} LinesJoined(s: string)
    ensures s == Unlines(Complete(s)) + Rest(s) && '\n' !in Rest(s)
    ensures forall i :: 0 <= i < |Complete(s)| ==> '\n' !in Complete(s)[i]
  {
    if s != "" {
      var n := |s| - 1;
      var front, lines, rest := s[..n], Complete(s[..n]), Rest(s[..n]);
      LinesJoined(front);
      hide Unlines, Complete, Rest;
      if s[n] == '\n' {
        assert s == front + "\n";
        EndOfLine(front);
        UnlinesOne(lines, rest);
        assert Unlines(lines + [rest]) + "" == Unlines(lines + [rest]);
      } else {
        assert s == front + [s[n]];
        Fragment(front, [s[n]]);
        assert (Unlines(lines) + rest) + [s[n]] == Unlines(lines) + (rest + [s[n]]);
      }
    }
  }

  lemma {:induction false} LinesOf(lines: seq<string>)
    requires forall i :: 0 <= i < |lines| ==> '\n' !in lines[i]
    ensures Complete(Unlines(lines)) == lines && Rest(Unlines(lines)) == ""
  {
    if lines != [] {
      var n := |lines| - 1;
      var front, last := lines[..n], lines[n];
      assert forall i :: 0 <= i < n ==> front[i] == lines[i];
      LinesOf(front);
      Fragment(Unlines(front), last);
      EndOfLine(Unlines(front) + last);
      assert "" + last == last && front + [last] == lines;
    }
  }

  function Cut(line: string, max: nat): string { if |line| > max then line[..max] else line }

  function TrimCR(line: string): string { if line != "" && line[|line| - 1] == '\r' then line[..|line| - 1] else line }

  /** What the parser is given: every line cut at the limit, then without a final carriage return. */
  function Parsed(lines: seq<string>, max: nat): seq<string> {
    if lines == [] then [] else Parsed(lines[..|lines| - 1], max) + [TrimCR(Cut(lines[|lines| - 1], max))]
  }

  function Oversized(lines: seq<string>, max: nat): nat {
    if lines == [] then 0 else Oversized(lines[..|lines| - 1], max) + (if |lines[|lines| - 1]| > max then 1 else 0)
  }

  /** The line as it is parsed: its first `max` bytes, but for a carriage return at their end. */
  predicate ReadAs(line: string, p: string, max: nat) {
    var kept := line[..if |line| < max then |line| else max];
    p + "\r" == kept || (p == kept && (p == "" || p[|p| - 1] != '\r'))
  }

  lemma {:induction false} ParsedExactly(lines: seq<string>, max: nat)
    ensures |Parsed(lines, max)| == |lines|
    ensures forall i :: 0 <= i < |lines| ==> ReadAs(lines[i], Parsed(lines, max)[i], max)
  {
    if lines != [] {
      var n := |lines| - 1;
      var front, last := lines[..n], lines[n];
      ParsedExactly(front, max);
      OneRead(last, max);
      OneMoreLine(front, last, max);
      assert front + [last] == lines;
      hide ReadAs, Cut, TrimCR, Parsed;
      forall i | 0 <= i <= n ensures ReadAs(lines[i], Parsed(lines, max)[i], max) {
        if i < n {
          assert ReadAs(front[i], Parsed(front, max)[i], max);
        }
      }
    }
  }

  /** The lines above the limit are counted. */
  lemma {:induction false} OversizedExactly(lines: seq<string>, max: nat)
    ensures Oversized(lines, max) == |set i | 0 <= i < |lines| && |lines[i]| > max|
  {
    var over := set i | 0 <= i < |lines| && |lines[i]| > max;
    if lines == [] {
      assert over == {};
    } else {
      var n := |lines| - 1;
      var before := set i | 0 <= i < n && |lines[..n][i]| > max;
      OversizedExactly(lines[..n], max);
      assert over == if |lines[n]| > max then before + {n} else before;
    }
  }

  lemma OneRead(line: string, max: nat)
    ensures ReadAs(line, TrimCR(Cut(line, max)), max)
  {
    var cut := line[..if |line| < max then |line| else max];
    var p := TrimCR(Cut(line, max));
    assert Cut(line, max) == cut;
    assert p == cut || p + [cut[|p|]] == cut;
  }

  lemma OneMoreLine(lines: seq<string>, line: string, max: nat)
    ensures Parsed(lines + [line], max) == Parsed(lines, max) + [TrimCR(Cut(line, max))]
    ensures Oversized(lines + [line], max) == Oversized(lines, max) + (if |line| > max then 1 else 0)
  {
    assert (lines + [line])[..|lines + [line]| - 1] == lines;
  }

  class DiagnosticStream {
    const max: nat
    var pendingLine: string
    var lineTooLong: bool
    var lineNumber: nat
    var oversizedLines: nat
    var incomplete: bool
    var parsed: seq<string>    // the lines handed to the parser
    ghost var written: string  // everything written so far

    /** The state is a function of all bytes written, however they were cut into writes. */
    ghost predicate Valid()
      reads this
    {
      Seen(Complete(written), Rest(written))
    }

    /** These lines are complete, and this much of the next one has been written. */
    ghost predicate Seen(lines: seq<string>, rest: string)
      reads this
    {
      && parsed == Parsed(lines, max) && lineNumber == |lines|
      && oversizedLines == Oversized(lines, max) && incomplete == (oversizedLines > 0)
      && pendingLine == Cut(rest, max) && lineTooLong == (|rest| > max)
    }

    constructor (max: nat)
      ensures Valid() && written == "" && this.max == max
    {
      this.max := max;
      pendingLine, lineTooLong, lineNumber, oversizedLines, incomplete, parsed, written := "", false, 0, 0, false, [], "";
    }

    method Write(data: string)
      requires Valid()
      modifies this
      ensures Valid() && written == old(written) + data
    {
      hide Valid;
      ghost var before, at := written, 0;
      var left := data;
      while |left| > 0
        invariant Valid() && at <= |data| && left == data[at..] && written == before + data[..at]
        invariant at < |data| ==> |left| > 0
        decreases |left|
      {
        var newline := NewlineAt(left);
        Advance(before, data, at, at + newline);
        Append(left[..newline]);
        at := at + newline;
        if newline == |left| {
          break;
        }
        Advance(before, data, at, at + 1);
        EndLine();
        at := at + 1;
        left := left[newline + 1..];
      }
      assert data[..at] == data;
    }

    lemma Advance(before: string, data: string, i: nat, j: nat)
      requires i <= j <= |data|
      ensures before + data[..i] + data[i..][..j - i] == before + data[..j]
      ensures data[i..][..j - i] == data[i..j] && data[i..][j - i..] == data[j..]
    {
      assert data[..j] == data[..i] + data[i..j];
    }

    method NewlineAt(s: string) returns (newline: nat)
      ensures newline <= |s| && '\n' !in s[..newline] && (newline < |s| ==> s[newline] == '\n')
    {
      newline := 0;
      while newline < |s| && s[newline] != '\n'
        invariant newline <= |s| && '\n' !in s[..newline]
      {
        newline := newline + 1;
      }
    }

    method Append(fragment: string)
      requires Valid() && '\n' !in fragment
      modifies this
      ensures Valid() && written == old(written) + fragment
    {
      Fragment(written, fragment);
      AppendLine(fragment, Complete(written), Rest(written));
      written := written + fragment;
    }

    method EndLine()
      requires Valid()
      modifies this
      ensures Valid() && written == old(written) + "\n"
    {
      EndOfLine(written);
      ConsumeLine(Complete(written), Rest(written));
      written := written + "\n";
    }

    method AppendLine(fragment: string, ghost lines: seq<string>, ghost rest: string)
      requires Seen(lines, rest)
      modifies `pendingLine, `lineTooLong
      ensures Seen(lines, rest + fragment)
    {
      var remaining := max - |pendingLine|;
      if remaining > 0 {
        if |fragment| < remaining {
          remaining := |fragment|;
        }
        pendingLine := pendingLine + fragment[..remaining];
      }
      if |fragment| > remaining {
        lineTooLong := true;
      }
    }

    method ConsumeLine(ghost lines: seq<string>, ghost rest: string)
      requires Seen(lines, rest)
      modifies `pendingLine, `lineTooLong, `lineNumber, `oversizedLines, `incomplete, `parsed
      ensures Seen(lines + [rest], "")
    {
      OneMoreLine(lines, rest, max);
      lineNumber := lineNumber + 1;
      if lineTooLong {
        oversizedLines := oversizedLines + 1;
        incomplete := true;
      }
      parsed := parsed + [TrimCR(pendingLine)];
      pendingLine := "";
      lineTooLong := false;
    }

    /** At the end of the log an unterminated last line is parsed as well. */
    method Finish()
      requires Valid()
      modifies this
      ensures var lines := Complete(written) + (if Rest(written) == "" then [] else [Rest(written)]);
        written == old(written) && parsed == Parsed(lines, max) && lineNumber == |lines| && oversizedLines == Oversized(lines, max)
    {
      if max == 0 && Rest(written) != "" {
        assert lineTooLong;
      }
      if |pendingLine| > 0 || lineTooLong {
        ConsumeLine(Complete(written), Rest(written));
      } else {
        assert Complete(written) + [] == Complete(written);
      }
    }
  }

  /** Two streams that were written the same bytes have parsed the same lines, whatever the writes were. */
  lemma ChunkIndependent(a: DiagnosticStream, b: DiagnosticStream)
    requires a.Valid() && b.Valid() && a.max == b.max && a.written == b.written
    ensures a.parsed == b.parsed && a.lineNumber == b.lineNumber && a.oversizedLines == b.oversizedLines
    ensures a.incomplete == b.incomplete && a.pendingLine == b.pendingLine && a.lineTooLong == b.lineTooLong
  {
  }

  // ----- The tail of a stream -----

  function Last(s: string, limit: nat): string { if |s| > limit then s[|s| - limit..] else s }

  lemma LastOfBoth(s: string, p: string, limit: nat)
    ensures |p| >= limit ==> Last(s + p, limit) == p[|p| - limit..]
    ensures var held := Last(s, limit);
      |held| <= limit && (|p| < limit ==> Last(s + p, limit) == Spared(held, |p|, limit) + p)
  {
  }

  lemma LastSuffix(s: string, limit: nat)
    ensures var n := if |s| < limit then |s| else limit; Last(s, limit) == s[|s| - n..]
  {
  }

  /** What stays of the held bytes when n more arrive. */
  function Spared(held: string, n: nat, limit: nat): string
    requires |held| <= limit && n < limit
  {
    if |held| + n > limit then held[|held| + n - limit..] else held
  }

  class TailBuffer {
    const limit: nat
    const buffer: array<char>
    var length: nat
    ghost var written: string

    ghost predicate Valid()
      reads this, buffer
    {
      buffer.Length == limit && length <= limit && buffer[..length] == Last(written, limit)
    }

    constructor (limit: nat)
      ensures Valid() && written == "" && this.limit == limit && fresh(buffer)
    {
      this.limit := limit;
      buffer := new char[limit](_ => '\0');
      length, written := 0, "";
    }

    /** The buffer always holds the last bytes of everything written. */
    method Write(p: string)
      requires Valid()
      modifies this, buffer
      ensures Valid() && written == old(written) + p
      ensures buffer[..length] == Last(old(written) + p, limit)
      ensures length == (if |written| < limit then |written| else limit) && buffer[..length] == written[|written| - length..]
    {
      LastOfBoth(written, p, limit);
      ghost var whole := written + p;
      hide Last;
      if limit == 0 {
        assert buffer[..length] == "";
      } else if |p| >= limit {
        Store(p[|p| - limit..], 0);
        length := limit;
      } else {
        Append(p);
      }
      written := whole;
      LastSuffix(whole, limit);
    }

    /** A write that is shorter than the buffer: the oldest bytes make room. */
    method Append(p: string)
      requires buffer.Length == limit && length <= limit && |p| < limit
      modifies `length, buffer
      ensures length <= limit
      ensures buffer[..length] == Spared(old(buffer[..length]), |p|, limit) + p
    {
      ghost var held := buffer[..length];
      var overflow := length + |p| - limit;
      if overflow > 0 {
        Shift(overflow);
        length := length - overflow;
      }
      ghost var kept := buffer[..length];
      assert kept == Spared(held, |p|, limit);
      hide Spared;
      Store(p, length);
      length := length + |p|;
      assert buffer[..length] == kept + p;
    }

    /** Moves the kept bytes to the front. */
    method Shift(n: nat)
      requires length <= buffer.Length && 0 < n <= length
      modifies buffer
      ensures buffer[..length - n] == old(buffer[n..length])
    {
      for i := 0 to length - n
        invariant forall k :: 0 <= k < i ==> buffer[k] == old(buffer[k + n])
        invariant forall k :: i <= k < buffer.Length ==> buffer[k] == old(buffer[k])
      {
        buffer[i] := buffer[i + n];
      }
    }

    method Store(p: string, at: nat)
      requires at + |p| <= buffer.Length
      modifies buffer
      ensures buffer[..at] == old(buffer[..at]) && buffer[at..at + |p|] == p
    {
      for i := 0 to |p|
        invariant forall k :: 0 <= k < at ==> buffer[k] == old(buffer[k])
        invariant forall k :: 0 <= k < i ==> buffer[at + k] == p[k]
      {
        buffer[at + i] := p[i];
      }
    }
  }

  // ----- The last lines -----

  /** The number of lines, an unterminated last line included. */
  function LineCount(s: string): nat { |Complete(s)| + (if Rest(s) == "" then 0 else 1) }

  /** How many line feeds the string contains. */
  function Feeds(s: string): nat { |Complete(s)| }

  lemma {:induction false} FeedsAppend(a: string, b: string)
    ensures Feeds(a + b) == Feeds(a) + Feeds(b)
    ensures Rest(a + b) == if Feeds(b) == 0 then Rest(a) + b else Rest(b)
    decreases |b|
  {
    if b == "" {
      assert a + b == a;
    } else {
      var n := |b| - 1;
      FeedsAppend(a, b[..n]);
      assert (a + b)[..|a + b| - 1] == a + b[..n];
      if b[n] != '\n' && Feeds(b) == 0 {
        assert Rest(a) + b[..n] + [b[n]] == Rest(a) + b;
      }
    }
  }

  /** Where the search for line starts begins: before a final line feed. */
  predicate LastLineEnd(data: string, end: nat) {
    data != "" && end == if data[|data| - 1] == '\n' then |data| - 1 else |data|
  }

  lemma TailCount(data: string, start: nat, end: nat)
    requires LastLineEnd(data, end) && start <= end && start < |data|
    ensures LineCount(data[start..]) == Feeds(data[start..end]) + 1
  {
    if end < |data| {
      assert data[start..] == data[start..end] + "\n";
      EndOfLine(data[start..end]);
    } else {
      assert data[start..] == data[start..end];
    }
  }

  /**
   The last lines of a log: a suffix that starts at the beginning of a line and
   has as many lines as were asked for, or the whole log when it has no more.
   */
  method TailLines(data: string, lines: int) returns (start: nat)
    ensures start <= |data|
    ensures lines < 1 || data == "" ==> start == |data|
    ensures lines >= 1 && data != "" ==>
      (start == 0 || data[start - 1] == '\n') &&
      LineCount(data[start..]) == if LineCount(data) <= lines then LineCount(data) else lines
    ensures lines >= 1 && LineCount(data) <= lines ==> start == 0 || data == ""
  {
    if lines < 1 || |data| == 0 {
      return |data|;
    }
    var end := |data|;
    if data[end - 1] == '\n' {
      end := end - 1;
    }
    var count := 0;
    var i := end;
    hide Feeds, LineCount;
    NoFeeds(data, end);
    while i > 0
      invariant 0 <= i <= end && count < lines && LastLineEnd(data, end)
      invariant count == Feeds(data[i..end])
      decreases i
    {
      i := i - 1;
      FeedsStep(data, i, end);
      if data[i] == '\n' {
        count := count + 1;
        if count == lines {
          EnoughLines(data, i, end, count);
          return i + 1;
        }
      }
    }
    AllLines(data, end);
    return 0;
  }

  lemma NoFeeds(data: string, end: nat)
    requires end <= |data|
    ensures Feeds(data[end..end]) == 0
  {
  }

  lemma FeedsStep(data: string, i: nat, end: nat)
    requires i < end <= |data|
    ensures Feeds(data[i..end]) == Feeds(data[i + 1..end]) + (if data[i] == '\n' then 1 else 0)
  {
    assert data[i..end] == [data[i]] + data[i + 1..end];
    FeedsAppend([data[i]], data[i + 1..end]);
    var one := [data[i]];
    assert one[..|one| - 1] == "" && Complete("") == [];
  }

  lemma EnoughLines(data: string, i: nat, end: nat, lines: nat)
    requires LastLineEnd(data, end) && i < end && data[i] == '\n' && Feeds(data[i..end]) == lines
    ensures i + 1 <= |data| && LineCount(data[i + 1..]) == lines && LineCount(data) > lines
  {
    FeedsStep(data, i, end);
    if i + 1 < |data| {
      TailCount(data, i + 1, end);
    }
    TailCount(data, 0, end);
    assert data[0..end] == data[..i] + data[i..end] && data[0..] == data;
    FeedsAppend(data[..i], data[i..end]);
  }

  lemma AllLines(data: string, end: nat)
    requires LastLineEnd(data, end)
    ensures LineCount(data[0..]) == LineCount(data) == Feeds(data[0..end]) + 1
  {
    TailCount(data, 0, end);
    assert data[0..] == data;
  }
}
