/**
 Masking of TeX comments and inline literals.  The masked text has the length
 and the line structure of the source, and scanning it finds exactly the
 control sequences that are neither masked nor in a comment, at their offsets
 in the source.
 */
module TexMask {
  import opened Options

  const NUL := '\0'

  predicate Letter(c: char) { 'a' <= c <= 'z' || 'A' <= c <= 'Z' }
  predicate NameChar(c: char) { Letter(c) || c == '@' }
  predicate Digit(c: char) { '0' <= c <= '9' }
  predicate Newline(c: char) { c == '\n' || c == '\r' }
  predicate Blank(c: char) { c == ' ' || c == '\t' }

  // ----- Control sequences -----

  /** The end of the run of name characters that starts at i. */
  function NameEnd(text: string, i: nat): (end: nat)
    requires i <= |text|
    ensures i <= end <= |text|
    ensures forall k :: i <= k < end ==> NameChar(text[k])
    ensures end < |text| ==> !NameChar(text[end])
    decreases |text| - i
  {
    if i < |text| && NameChar(text[i]) then NameEnd(text, i + 1) else i
  }

  /** Where the control sequence at `start` ends; registered names may take one digit. */
  function ControlEnd(text: string, start: nat, registry: set<string>): (next: nat)
    requires start < |text|
    ensures start < next <= |text|
  {
    if start + 1 == |text| then start + 1
    else if !NameChar(text[start + 1]) then start + 2
    else
      var end := NameEnd(text, start + 1);
      if end < |text| && Digit(text[end]) && text[start + 1..end + 1] in registry then end + 1 else end
  }

  function ControlName(text: string, start: nat, registry: set<string>): string
    requires start < |text|
  {
    text[start + 1..ControlEnd(text, start, registry)]
  }

  /**
   What a control sequence is: a backslash at the end of the text, or with one
   byte that is no name character, or with a whole run of name characters and
   one digit more if that makes a registered name.
   */
  predicate ControlShape(text: string, start: nat, next: nat, registry: set<string>)
    requires start < |text|
  {
    if start + 1 == |text| then next == |text|
    else if !NameChar(text[start + 1]) then next == start + 2
    else exists end :: start + 1 < end <= |text| && Named(text, start, end, next, registry)
  }

  predicate Named(text: string, start: nat, end: nat, next: nat, registry: set<string>)
    requires start + 1 < end <= |text|
  {
    WholeName(text, start + 1, end) &&
    next == if end < |text| && Digit(text[end]) && text[start + 1..end + 1] in registry then end + 1 else end
  }

  predicate WholeName(text: string, i: nat, end: nat)
    requires i <= end <= |text|
  {
    (forall k :: i <= k < end ==> NameChar(text[k])) && (end < |text| ==> !NameChar(text[end]))
  }

  lemma OneWholeName(text: string, i: nat, end: nat)
    requires i <= end <= |text| && WholeName(text, i, end)
    ensures end == NameEnd(text, i)
  {
    if end < NameEnd(text, i) {
      assert false;
    }
  }

  lemma ControlExactly(text: string, start: nat, next: nat, registry: set<string>)
    requires start < |text|
    ensures ControlShape(text, start, next, registry) <==> next == ControlEnd(text, start, registry)
  {
    if start + 1 < |text| && NameChar(text[start + 1]) {
      var end := NameEnd(text, start + 1);
      assert Named(text, start, end, ControlEnd(text, start, registry), registry);
      if ControlShape(text, start, next, registry) {
        var e :| start + 1 < e <= |text| && Named(text, start, e, next, registry);
        OneWholeName(text, start + 1, e);
      }
    }
  }

  // ----- Groups -----

  /** Where the group ends whose opening delimiter was counted in `depth`; braces nest inside brackets. */
  function GroupEnd(text: string, i: nat, depth: int, open: char, close: char): (next: Option<nat>)
    ensures next.Some? ==> i < next.value <= |text|
    decreases |text| - i
  {
    if i >= |text| then None
    else if text[i] == '\\' then GroupEnd(text, i + 2, depth, open, close)
    else if open == '[' && text[i] == '{' then
      var inner := GroupEnd(text, i + 1, 1, '{', '}');
      if inner.None? then None else GroupEnd(text, inner.value, depth, open, close)
    else if text[i] == open then GroupEnd(text, i + 1, depth + 1, open, close)
    else if text[i] == close then
      if depth == 1 then Some(i + 1) else GroupEnd(text, i + 1, depth - 1, open, close)
    else GroupEnd(text, i + 1, depth, open, close)
  }

  method Balanced(text: string, start: nat, open: char, close: char) returns (next: Option<nat>)
    requires start < |text| && text[start] == open && open != close && open != '\\' && close != '\\'
    requires open == '{' || (open == '[' && close != '{')
    ensures next == GroupEnd(text, start + 1, 1, open, close)
    decreases |text| - start
  {
    var depth, i := 0, start;
    while i < |text|
      invariant start <= i
      invariant i == start ==> depth == 0
      invariant i > start ==> GroupEnd(text, start + 1, 1, open, close) == GroupEnd(text, i, depth, open, close)
      decreases |text| - i
    {
      if text[i] == '\\' {
        i := i + 2;
      } else if open == '[' && text[i] == '{' {
        var inner := Balanced(text, i, '{', '}');
        if inner.None? {
          return None;
        }
        i := inner.value;
      } else {
        if text[i] == open {
          depth := depth + 1;
        } else if text[i] == close {
          depth := depth - 1;
          if depth == 0 {
            return Some(i + 1);
          }
        }
        i := i + 1;
      }
    }
    return None;
  }

  // ----- Inline literals -----

  /** The first position at or after i that holds a character of the set, or the length. */
  function IndexAny(text: string, i: nat, wanted: set<char>): (k: nat)
    requires i <= |text|
    ensures i <= k <= |text|
    ensures forall j :: i <= j < k ==> text[j] !in wanted
    ensures k < |text| ==> text[k] in wanted
    decreases |text| - i
  {
    if i == |text| || text[i] in wanted then i else IndexAny(text, i + 1, wanted)
  }

  /** The end of an inline literal whose command name ends at `cursor`; it never leaves its source line after the options. */
  function VerbEnd(text: string, cursor: nat, listings: bool): (end: nat)
    requires cursor <= |text|
    ensures cursor <= end <= |text|
  {
    var c := if cursor < |text| && text[cursor] == '*' then cursor + 1 else cursor;
    if listings && c < |text| && text[c] == '[' then
      var next := GroupEnd(text, c + 1, 1, '[', ']');
      if next.None? then c else LiteralEnd(text, next.value)
    else LiteralEnd(text, c)
  }

  function LiteralEnd(text: string, c: nat): (end: nat)
    requires c <= |text|
    ensures c <= end <= |text|
  {
    if c == |text| || Newline(text[c]) then c
    else
      var line := IndexAny(text, c, {'\n', '\r'});
      var close := IndexAny(text[..line], c + 1, {text[c]});
      if close < line then close + 1 else line
  }

  /**
   What a literal is: nothing at the end of a line; else a delimiter and all
   bytes up to its next occurrence on the line, or up to the end of the line.
   */
  predicate Delimited(text: string, c: nat, end: nat)
    requires c <= |text|
  {
    if c == |text| || Newline(text[c]) then end == c
    else
      && c < end <= |text|
      && (forall k :: c <= k < end ==> !Newline(text[k]))
      && (forall k :: c < k < end - 1 ==> text[k] != text[c])
      && ((c < end - 1 && text[end - 1] == text[c]) || end == |text| || Newline(text[end]))
  }

  /** It ends behind the first delimiter on its line, or with the line. */
  lemma LiteralEnds(text: string, c: nat, end: nat, line: nat, close: nat)
    requires c < |text| && !Newline(text[c]) && Delimited(text, c, end)
    requires line == IndexAny(text, c, {'\n', '\r'}) && c < line && close == IndexAny(text[..line], c + 1, {text[c]})
    ensures end == if close < line then close + 1 else line
  {
    assert end <= line;
    if close < line {
      assert text[..line][close] == text[close];
      assert end <= close + 1;
    }
    if c < end - 1 < line {
      assert text[..line][end - 1] == text[end - 1];
    }
  }

  lemma DelimitedExactly(text: string, c: nat, end: nat)
    requires c <= |text|
    ensures Delimited(text, c, end) <==> end == LiteralEnd(text, c)
  {
    if c < |text| && !Newline(text[c]) {
      var line := IndexAny(text, c, {'\n', '\r'});
      var close := IndexAny(text[..line], c + 1, {text[c]});
      if Delimited(text, c, end) {
        LiteralEnds(text, c, end, line, close);
      }
    }
  }

  /** An inline literal behind its command name: a star, for listings an option group, and the delimited part. */
  predicate LiteralShape(text: string, cursor: nat, end: nat, listings: bool)
    requires cursor <= |text|
  {
    var c := if cursor < |text| && text[cursor] == '*' then cursor + 1 else cursor;
    if listings && c < |text| && text[c] == '[' then
      var next := GroupEnd(text, c + 1, 1, '[', ']');
      if next.None? then end == c else Delimited(text, next.value, end)
    else Delimited(text, c, end)
  }

  lemma LiteralExactly(text: string, cursor: nat, end: nat, listings: bool)
    requires cursor <= |text|
    ensures LiteralShape(text, cursor, end, listings) <==> end == VerbEnd(text, cursor, listings)
  {
    hide Delimited, LiteralEnd;
    var c := if cursor < |text| && text[cursor] == '*' then cursor + 1 else cursor;
    if listings && c < |text| && text[c] == '[' {
      var next := GroupEnd(text, c + 1, 1, '[', ']');
      if next.Some? {
        DelimitedExactly(text, next.value, end);
      }
    } else {
      DelimitedExactly(text, c, end);
    }
  }

  // ----- The mask -----

  predicate Verbatim(name: string) { name == "verb" || name == "lstinline" }

  function HiddenByte(c: char): char { if Newline(c) then c else ' ' }

  /** A hidden stretch: spaces, with its newlines left in place. */
  function Hidden(text: string, i: nat, end: nat): (hidden: string)
    requires i <= end <= |text|
    ensures |hidden| == end - i
    ensures forall k :: 0 <= k < end - i ==> hidden[k] == HiddenByte(text[i + k])
    decreases end - i
  {
    if i == end then "" else [HiddenByte(text[i])] + Hidden(text, i + 1, end)
  }

  function Nulls(n: nat): string { seq(n, _ => NUL) }

  function BlankEnd(text: string, i: nat): (end: nat)
    requires i <= |text|
    ensures i <= end <= |text| && forall k :: i <= k < end ==> Blank(text[k])
    decreases |text| - i
  {
    if i < |text| && Blank(text[i]) then BlankEnd(text, i + 1) else i
  }

  /** The mask of the text from a position that lies between tokens. */
  function Mask(text: string, i: nat, registry: set<string>): (masked: string)
    requires i <= |text|
    ensures |masked| == |text| - i
    decreases |text| - i
  {
    if i == |text| then ""
    else if text[i] == '\\' then
      var next := ControlEnd(text, i, registry);
      if Verbatim(ControlName(text, i, registry)) then
        var end := VerbEnd(text, next, ControlName(text, i, registry) == "lstinline");
        Hidden(text, i, end) + Mask(text, end, registry)
      else text[i..next] + Mask(text, next, registry)
    else if text[i] == '%' then
      var line := IndexAny(text, i, {'\n'});
      if line == |text| then Nulls(line - i)
      else
        var rest := BlankEnd(text, line + 1);
        Nulls(line - i) + "\n" + Nulls(rest - (line + 1)) + Mask(text, rest, registry)
    else [text[i]] + Mask(text, i + 1, registry)
  }

  // ----- Line structure -----

  predicate Masks(from: char, to: char) { to == from || (from != '\n' && (to == ' ' || to == NUL)) }

  /** Every byte is kept or hidden, and newlines are kept. */
  predicate MasksAll(source: string, masked: string) {
    |source| == |masked| && forall k :: 0 <= k < |source| ==> Masks(source[k], masked[k])
  }

  lemma MasksAppend(text: string, i: nat, j: nat, front: string, back: string)
    requires i <= j <= |text| && MasksAll(text[i..j], front) && MasksAll(text[j..], back)
    ensures MasksAll(text[i..], front + back)
  {
    assert text[i..] == text[i..j] + text[j..];
  }

  lemma NullsMask(text: string, i: nat, j: nat)
    requires i <= j <= |text| && forall k :: i <= k < j ==> text[k] != '\n'
    ensures MasksAll(text[i..j], Nulls(j - i))
  {
  }

  lemma {:induction false} MaskBytes(text: string, i: nat, registry: set<string>)
    requires i <= |text|
    ensures MasksAll(text[i..], Mask(text, i, registry))
    decreases |text| - i, 1
  {
    hide MasksAll;
    if i == |text| {
      assert MasksAll(text[i..], "") by { MasksNothing(text); }
    } else if text[i] == '\\' {
      var next := ControlEnd(text, i, registry);
      var name := ControlName(text, i, registry);
      if Verbatim(name) {
        var end := VerbEnd(text, next, name == "lstinline");
        MaskBytes(text, end, registry);
        HiddenMasks(text, i, end);
        MasksAppend(text, i, end, Hidden(text, i, end), Mask(text, end, registry));
      } else {
        MaskBytes(text, next, registry);
        MasksSame(text[i..next]);
        MasksAppend(text, i, next, text[i..next], Mask(text, next, registry));
      }
    } else if text[i] == '%' {
      CommentMasks(text, i, registry);
    } else {
      MaskBytes(text, i + 1, registry);
      MasksSame(text[i..i + 1]);
      assert text[i..i + 1] == [text[i]];
      MasksAppend(text, i, i + 1, [text[i]], Mask(text, i + 1, registry));
    }
  }

  lemma {:induction false} CommentMasks(text: string, i: nat, registry: set<string>)
    requires i < |text| && text[i] == '%'
    ensures MasksAll(text[i..], Mask(text, i, registry))
    decreases |text| - i, 0
  {
    hide MasksAll;
    var line := IndexAny(text, i, {'\n'});
    NullsMask(text, i, line);
    if line == |text| {
      assert text[i..line] == text[i..];
    } else {
      var rest := BlankEnd(text, line + 1);
      var back := Mask(text, rest, registry);
      MaskBytes(text, rest, registry);
      LineMasks(text, line, rest, back);
      MasksAppend(text, i, line, Nulls(line - i), "\n" + Nulls(rest - (line + 1)) + back);
      CommentParts(text, i, line, rest, registry);
    }
  }

  lemma LineMasks(text: string, line: nat, rest: nat, back: string)
    requires line < |text| && text[line] == '\n' && line < rest <= |text|
    requires forall k :: line < k < rest ==> text[k] != '\n'
    requires MasksAll(text[rest..], back)
    ensures MasksAll(text[line..], "\n" + Nulls(rest - (line + 1)) + back)
  {
    hide MasksAll;
    var front := "\n" + Nulls(rest - (line + 1));
    assert MasksAll(text[line..rest], front) by { LineFront(text, line, rest); }
    MasksAppend(text, line, rest, front, back);
  }

  lemma LineFront(text: string, line: nat, rest: nat)
    requires line < |text| && text[line] == '\n' && line < rest <= |text|
    requires forall k :: line < k < rest ==> text[k] != '\n'
    ensures MasksAll(text[line..rest], "\n" + Nulls(rest - (line + 1)))
  {
  }

  lemma CommentParts(text: string, i: nat, line: nat, rest: nat, registry: set<string>)
    requires i < |text| && text[i] == '%' && line == IndexAny(text, i, {'\n'}) < |text| && rest == BlankEnd(text, line + 1)
    ensures Mask(text, i, registry) == Nulls(line - i) + ("\n" + Nulls(rest - (line + 1)) + Mask(text, rest, registry))
  {
    hide Nulls, IndexAny, BlankEnd;
    Associate(Nulls(line - i), "\n", Nulls(rest - (line + 1)), Mask(text, rest, registry));
  }

  lemma Associate(a: string, b: string, c: string, d: string)
    ensures a + b + c + d == a + (b + c + d)
  {
    assert a + b + c + d == a + (b + c + d);
  }

  lemma MasksNothing(text: string)
    ensures MasksAll(text[|text|..], "")
  {
  }

  lemma MasksSame(s: string)
    ensures MasksAll(s, s)
  {
  }

  lemma HiddenMasks(text: string, i: nat, j: nat)
    requires i <= j <= |text|
    ensures MasksAll(text[i..j], Hidden(text, i, j))
    ensures forall k :: 0 <= k < j - i ==> Plain(Hidden(text, i, j)[k])
  {
    forall k | 0 <= k < j - i ensures Masks(text[i..j][k], Hidden(text, i, j)[k]) && Plain(Hidden(text, i, j)[k]) {
      assert text[i..j][k] == text[i + k];
    }
  }

  /** The masked text has its line feeds exactly where the source has them, and every other byte kept or hidden. */
  lemma LinesKept(text: string, registry: set<string>)
    ensures var masked := Mask(text, 0, registry);
      |masked| == |text| && forall k :: 0 <= k < |text| ==> Masks(text[k], masked[k]) && (text[k] == '\n' <==> masked[k] == '\n')
  {
    MaskBytes(text, 0, registry);
    assert text[0..] == text;
  }

  // ----- Scanning the masked text -----

  datatype Control = Control(start: nat, next: nat, name: string)

  /** The control sequences of the source outside comments and inline literals. */
  function Visible(text: string, i: nat, registry: set<string>): seq<Control>
    requires i <= |text|
    decreases |text| - i
  {
    if i == |text| then []
    else if text[i] == '\\' then
      var next, name := ControlEnd(text, i, registry), ControlName(text, i, registry);
      if Verbatim(name) then Visible(text, VerbEnd(text, next, name == "lstinline"), registry)
      else [Control(i, next, name)] + Visible(text, next, registry)
    else if text[i] == '%' then
      var line := IndexAny(text, i, {'\n'});
      if line == |text| then [] else Visible(text, BlankEnd(text, line + 1), registry)
    else Visible(text, i + 1, registry)
  }

  /** What a scan that knows neither comments nor literals finds. */
  function Scanned(text: string, i: nat, registry: set<string>): seq<Control>
    requires i <= |text|
    decreases |text| - i
  {
    if i == |text| then []
    else if text[i] == '\\' then
      [Control(i, ControlEnd(text, i, registry), ControlName(text, i, registry))] +
      Scanned(text, ControlEnd(text, i, registry), registry)
    else Scanned(text, i + 1, registry)
  }

  predicate Plain(c: char) { c != '\\' && c != '%' }

  /** A run of plain bytes is kept by another mask and skipped by the scan. */
  lemma PlainByte(text: string, i: nat, registry: set<string>)
    requires i < |text| && Plain(text[i])
    ensures Mask(text, i, registry) == [text[i]] + Mask(text, i + 1, registry)
    ensures Scanned(text, i, registry) == Scanned(text, i + 1, registry)
  {
  }

  lemma {:induction false} PlainRun(text: string, i: nat, j: nat, registry: set<string>)
    requires i <= j <= |text| && forall k :: i <= k < j ==> Plain(text[k])
    ensures Mask(text, i, registry) == text[i..j] + Mask(text, j, registry)
    ensures Scanned(text, i, registry) == Scanned(text, j, registry)
    decreases j - i
  {
    hide Mask, Scanned, Plain;
    if i == j {
      assert text[i..j] + Mask(text, j, registry) == Mask(text, j, registry);
    } else {
      PlainByte(text, i, registry);
      PlainRun(text, i + 1, j, registry);
      assert text[i..j] == [text[i]] + text[i + 1..j];
      assert [text[i]] + (text[i + 1..j] + Mask(text, j, registry)) == text[i..j] + Mask(text, j, registry);
    }
  }

  /** At a token boundary the mask shows the byte itself, unless a literal or a comment starts there. */
  lemma BoundaryByte(text: string, i: nat, registry: set<string>)
    requires i < |text|
    ensures Mask(text, i, registry)[0] == text[i] || (!Plain(text[i]) && Mask(text, i, registry)[0] in {' ', NUL})
  {
    if text[i] == '%' {
      var line := IndexAny(text, i, {'\n'});
      if line < |text| {
        var rest := BlankEnd(text, line + 1);
        assert Mask(text, i, registry)[0] == Nulls(line - i)[0];
      }
    } else if text[i] == '\\' {
      var name := ControlName(text, i, registry);
      if Verbatim(name) {
        var end := VerbEnd(text, ControlEnd(text, i, registry), name == "lstinline");
        assert Mask(text, i, registry)[0] == Hidden(text, i, end)[0];
      }
    }
  }

  /** The name run only depends on the bytes up to and including its terminator. */
  lemma {:induction false} SameNameEnd(text: string, masked: string, i: nat)
    requires i <= |text| == |masked|
    requires forall k :: i <= k < NameEnd(text, i) ==> masked[k] == text[k]
    requires NameEnd(text, i) < |text| ==> !NameChar(masked[NameEnd(text, i)])
    ensures NameEnd(masked, i) == NameEnd(text, i)
    decreases |text| - i
  {
    if i < |text| && NameChar(text[i]) {
      SameNameEnd(text, masked, i + 1);
    }
  }

  /** A visible control sequence reads the same in the masked text. */
  lemma SameControl(text: string, masked: string, i: nat, registry: set<string>)
    requires i < |text| == |masked| && text[i] == '\\'
    requires var next := ControlEnd(text, i, registry);
      masked[i..next] == text[i..next] &&
      (next < |text| ==> masked[next] == text[next] || (!Plain(text[next]) && masked[next] in {' ', NUL}))
    ensures ControlEnd(masked, i, registry) == ControlEnd(text, i, registry)
    ensures ControlName(masked, i, registry) == ControlName(text, i, registry)
  {
    var next := ControlEnd(text, i, registry);
    assert forall k :: i <= k < next ==> masked[k] == masked[i..next][k - i] == text[i..next][k - i] == text[k];
    if i + 1 < |text| && NameChar(text[i + 1]) {
      var end := NameEnd(text, i + 1);
      SameNameEnd(text, masked, i + 1);
      assert masked[i + 1..end] == text[i + 1..end];
      if end < |text| && masked[end] == text[end] {
        assert masked[i + 1..end + 1] == text[i + 1..end + 1];
        hide NameEnd, Plain, NameChar;
      } else {
        assert end < |text| ==> !Digit(masked[end]);
        hide NameEnd, Plain, NameChar;
      }
    }
  }

  /**
   From any boundary: masking the masked text changes nothing, and a scan of it
   that knows neither comments nor literals finds exactly the visible control
   sequences of the source.
   */
  lemma {:induction false} MaskedFrom(text: string, masked: string, i: nat, registry: set<string>)
    requires i <= |text| == |masked| && masked[i..] == Mask(text, i, registry)
    ensures Mask(masked, i, registry) == masked[i..]
    ensures Scanned(masked, i, registry) == Visible(text, i, registry)
    decreases |text| - i, 1
  {
    if i == |text| {
    } else if text[i] == '\\' {
      var next, name := ControlEnd(text, i, registry), ControlName(text, i, registry);
      if Verbatim(name) {
        var end := VerbEnd(text, next, name == "lstinline");
        Parts(masked, i, end, Hidden(text, i, end), Mask(text, end, registry));
        HiddenMasks(text, i, end);
        PlainRun(masked, i, end, registry);
        MaskedFrom(text, masked, end, registry);
      } else {
        Parts(masked, i, next, text[i..next], Mask(text, next, registry));
        if next < |text| {
          BoundaryByte(text, next, registry);
          assert masked[next] == masked[next..][0];
        }
        SameControl(text, masked, i, registry);
        MaskedFrom(text, masked, next, registry);
      }
    } else if text[i] == '%' {
      MaskedComment(text, masked, i, registry);
    } else {
      Parts(masked, i, i + 1, [text[i]], Mask(text, i + 1, registry));
      MaskedFrom(text, masked, i + 1, registry);
    }
  }

  lemma {:induction false} MaskedComment(text: string, masked: string, i: nat, registry: set<string>)
    requires i < |text| == |masked| && text[i] == '%' && masked[i..] == Mask(text, i, registry)
    ensures Mask(masked, i, registry) == masked[i..]
    ensures Scanned(masked, i, registry) == Visible(text, i, registry)
    decreases |text| - i, 0
  {
    var line := IndexAny(text, i, {'\n'});
    if line == |text| {
      LastComment(text, masked, i, registry);
    } else {
      var rest := BlankEnd(text, line + 1);
      VisibleAfterComment(text, i, line, rest, registry);
      CommentParts(text, i, line, rest, registry);
      hide Mask, Scanned, Visible, IndexAny, BlankEnd;
      var front, back := Nulls(line - i) + ("\n" + Nulls(rest - (line + 1))), Mask(text, rest, registry);
      assert masked[i..] == front + back;
      Parts(masked, i, rest, front, back);
      PlainRun(masked, i, rest, registry);
      MaskedFrom(text, masked, rest, registry);
      assert masked[i..rest] + masked[rest..] == masked[i..];
    }
  }

  lemma LastComment(text: string, masked: string, i: nat, registry: set<string>)
    requires i < |text| == |masked| && text[i] == '%' && IndexAny(text, i, {'\n'}) == |text|
    requires masked[i..] == Mask(text, i, registry)
    ensures Mask(masked, i, registry) == masked[i..]
    ensures Scanned(masked, i, registry) == Visible(text, i, registry)
  {
    assert masked[i..] == Nulls(|text| - i);
    assert Visible(text, i, registry) == [] == Scanned(masked, |masked|, registry);
    assert Mask(masked, |masked|, registry) == "";
    hide Mask, Scanned, Visible, IndexAny;
    forall k | i <= k < |masked| ensures Plain(masked[k]) { assert masked[k] == masked[i..][k - i]; }
    PlainRun(masked, i, |masked|, registry);
    assert masked[i..|masked|] + "" == masked[i..];
  }

  lemma VisibleAfterComment(text: string, i: nat, line: nat, rest: nat, registry: set<string>)
    requires i < |text| && text[i] == '%' && line == IndexAny(text, i, {'\n'}) < |text| && rest == BlankEnd(text, line + 1)
    ensures Visible(text, i, registry) == Visible(text, rest, registry)
  {
  }

  lemma Parts(masked: string, i: nat, j: nat, front: string, back: string)
    requires i <= j <= |masked| && masked[i..] == front + back && |front| == j - i
    ensures masked[i..j] == front && masked[j..] == back
    ensures forall k :: i <= k < j ==> masked[k] == front[k - i]
  {
    assert masked[i..j] == masked[i..][..j - i];
    assert masked[j..] == masked[i..][j - i..];
    assert forall k :: i <= k < j ==> masked[k] == masked[i..][k - i];
  }

  /** Masking is idempotent, and offsets of control sequences found in the masked text are offsets in the source. */
  lemma MaskCorrect(text: string, registry: set<string>)
    ensures var masked := Mask(text, 0, registry);
      Mask(masked, 0, registry) == masked && Scanned(masked, 0, registry) == Visible(text, 0, registry)
  {
    var masked := Mask(text, 0, registry);
    assert masked[0..] == masked;
    MaskedFrom(text, masked, 0, registry);
  }

  // ----- The program's own loops -----

  method ControlSequence(text: string, start: nat, registry: set<string>) returns (name: string, next: nat)
    requires start < |text|
    ensures next == ControlEnd(text, start, registry) && name == ControlName(text, start, registry)
    ensures ControlShape(text, start, next, registry) && name == text[start + 1..next]
  {
    ControlExactly(text, start, ControlEnd(text, start, registry), registry);
    hide ControlShape;
    var end := start + 1;
    if end >= |text| {
      return text[start + 1..end], end;
    }
    if !NameChar(text[end]) {
      return text[end..end + 1], end + 1;
    }
    while end < |text| && NameChar(text[end])
      invariant start + 1 <= end <= |text| && NameEnd(text, start + 1) == NameEnd(text, end)
    {
      end := end + 1;
    }
    if end < |text| && Digit(text[end]) && text[start + 1..end + 1] in registry {
      end := end + 1;
    }
    return text[start + 1..end], end;
  }

  method Find(text: string, from: nat, wanted: set<char>) returns (k: nat)
    requires from <= |text|
    ensures k == IndexAny(text, from, wanted)
  {
    k := from;
    while k < |text| && text[k] !in wanted
      invariant from <= k <= |text| && IndexAny(text, from, wanted) == IndexAny(text, k, wanted)
    {
      k := k + 1;
    }
  }

  method InlineVerbEnd(text: string, cursor: nat, listings: bool) returns (end: nat)
    requires cursor <= |text|
    ensures end == VerbEnd(text, cursor, listings) && LiteralShape(text, cursor, end, listings)
  {
    LiteralExactly(text, cursor, VerbEnd(text, cursor, listings), listings);
    hide LiteralShape;
    end := cursor;
    if end < |text| && text[end] == '*' {
      end := end + 1;
    }
    if listings && end < |text| && text[end] == '[' {
      var next := Balanced(text, end, '[', ']');
      if next.None? {
        return;
      }
      end := next.value;
    }
    if end >= |text| || Newline(text[end]) {
      return;
    }
    var line := Find(text, end, {'\n', '\r'});
    var close := Find(text[..line], end + 1, {text[end]});
    end := if close < line then close + 1 else line;
  }

  /** Hides a literal in place, newlines excepted. */
  method HideRange(masked: array<char>, text: string, i: nat, end: nat)
    requires i <= end <= |text| == masked.Length && masked[i..] == text[i..]
    modifies masked
    ensures masked[..i] == old(masked[..i]) && masked[i..end] == Hidden(text, i, end) && masked[end..] == text[end..]
  {
    assert forall k :: i <= k < |text| ==> masked[k] == masked[i..][k - i] == text[i..][k - i] == text[k];
    for cursor := i to end
      invariant forall k :: 0 <= k < i ==> masked[k] == old(masked[k])
      invariant forall k :: i <= k < cursor ==> masked[k] == HiddenByte(text[k])
      invariant forall k :: cursor <= k < |text| ==> masked[k] == text[k]
    {
      if masked[cursor] != '\n' && masked[cursor] != '\r' {
        masked[cursor] := ' ';
      }
    }
  }

  /** Hides a comment up to its line feed. */
  method HideLine(masked: array<char>, text: string, from: nat) returns (i: nat)
    requires from < |text| == masked.Length && masked[from..] == text[from..]
    modifies masked
    ensures i == IndexAny(text, from, {'\n'})
    ensures masked[..from] == old(masked[..from]) && masked[from..i] == Nulls(i - from) && masked[i..] == text[i..]
  {
    assert forall k :: from <= k < |text| ==> masked[k] == masked[from..][k - from] == text[from..][k - from] == text[k];
    i := from;
    while i < masked.Length && masked[i] != '\n'
      invariant from <= i <= |text| && IndexAny(text, from, {'\n'}) == IndexAny(text, i, {'\n'})
      invariant forall k :: 0 <= k < from ==> masked[k] == old(masked[k])
      invariant forall k :: from <= k < i ==> masked[k] == NUL
      invariant forall k :: i <= k < |text| ==> masked[k] == text[k]
    {
      masked[i] := NUL;
      i := i + 1;
    }
  }

  /** Hides the blanks that start a line. */
  method HideBlanks(masked: array<char>, text: string, from: nat) returns (ghost clear: nat)
    requires from <= |text| == masked.Length && masked[from..] == text[from..]
    modifies masked
    ensures clear == BlankEnd(text, from)
    ensures masked[..from] == old(masked[..from]) && masked[from..clear] == Nulls(clear - from) && masked[clear..] == text[clear..]
  {
    assert forall k :: from <= k < |text| ==> masked[k] == masked[from..][k - from] == text[from..][k - from] == text[k];
    var cursor := from;
    while cursor < masked.Length && (masked[cursor] == ' ' || masked[cursor] == '\t')
      invariant from <= cursor <= |text| && BlankEnd(text, from) == BlankEnd(text, cursor)
      invariant forall k :: 0 <= k < from ==> masked[k] == old(masked[k])
      invariant forall k :: from <= k < cursor ==> masked[k] == NUL
      invariant forall k :: cursor <= k < |text| ==> masked[k] == text[k]
    {
      masked[cursor] := NUL;
      cursor := cursor + 1;
    }
    clear := cursor;
  }

  method HideComment(masked: array<char>, text: string, start: nat, registry: set<string>) returns (i: nat, ghost clear: nat)
    requires start < |text| == masked.Length && text[start] == '%' && masked[start..] == text[start..]
    modifies masked
    ensures start < i <= clear <= |text| && masked[clear..] == text[clear..]
    ensures forall k :: i <= k < clear ==> Blank(text[k])
    ensures masked[..clear] + Mask(text, clear, registry) == old(masked[..start]) + Mask(text, start, registry)
  {
    ghost var front := masked[..start];
    var line := HideLine(masked, text, start);
    i, clear := line, line;
    if line < |text| {
      ghost var before := masked[..];
      Copied(before, text, line, line + 1);
      clear := HideBlanks(masked, text, line + 1);
      i := line + 1;
      assert masked[..line + 1] == before[..line + 1];
      assert masked[..start] == before[..start] && masked[start..line] == before[start..line];
      assert masked[line] == before[line] == before[line..line + 1][0];
      assert masked[line..clear] == [masked[line]] + masked[line + 1..clear];
    }
    CommentExtends(text, masked[..], start, line, clear, front, registry);
  }

  method HideControl(masked: array<char>, text: string, start: nat, registry: set<string>) returns (end: nat)
    requires start < |text| == masked.Length && text[start] == '\\' && masked[start..] == text[start..]
    modifies masked
    ensures start < end <= |text| && masked[end..] == text[end..]
    ensures masked[..end] + Mask(text, end, registry) == old(masked[..start]) + Mask(text, start, registry)
  {
    ghost var front := masked[..start];
    var name, next := ControlSequence(text, start, registry);
    if Verbatim(name) {
      end := InlineVerbEnd(text, next, name == "lstinline");
      HideRange(masked, text, start, end);
      Extends(masked[..], start, end, front, Hidden(text, start, end), Mask(text, end, registry));
    } else {
      end := next;
      Copied(masked[..], text, start, next);
      Extends(masked[..], start, next, front, text[start..next], Mask(text, next, registry));
    }
  }

  /** One pass over a mutable copy of the text. */
  method Sanitize(text: string, registry: set<string>) returns (masked: array<char>)
    ensures fresh(masked) && masked[..] == Mask(text, 0, registry)
  {
    masked := new char[|text|](k requires 0 <= k < |text| => text[k]);
    var i := 0;
    ghost var clear := 0; // blanks up to here were hidden together with the comment before them
    while i < |text|
      invariant i <= clear <= |text| && masked.Length == |text|
      invariant forall k :: i <= k < clear ==> Blank(text[k])
      invariant masked[clear..] == text[clear..]
      invariant masked[..clear] + Mask(text, clear, registry) == Mask(text, 0, registry)
      decreases |text| - i
    {
      if text[i] == '\\' {
        i := HideControl(masked, text, i, registry);
        clear := i;
      } else if text[i] == '%' {
        i, clear := HideComment(masked, text, i, registry);
      } else {
        if i == clear {
          Copied(masked[..], text, i, i + 1);
          Extends(masked[..], i, i + 1, masked[..i], [text[i]], Mask(text, i + 1, registry));
          clear := i + 1;
        }
        i := i + 1;
      }
    }
    assert masked[..clear] == masked[..];
  }

  /** Bytes that were not touched are those of the text. */
  lemma Copied(masked: string, text: string, i: nat, j: nat)
    requires i <= j <= |text| == |masked| && masked[i..] == text[i..]
    ensures masked[i..j] == text[i..j] && masked[j..] == text[j..]
    ensures j == i + 1 ==> text[i..j] == [text[i]]
  {
    assert masked[i..j] == masked[i..][..j - i] && text[i..j] == text[i..][..j - i];
    assert masked[j..] == masked[i..][j - i..] && text[j..] == text[i..][j - i..];
  }

  lemma Extends(masked: string, i: nat, j: nat, front: string, part: string, back: string)
    requires i <= j <= |masked| && masked[..i] == front && masked[i..j] == part
    ensures masked[..j] + back == front + (part + back)
  {
    assert masked[..j] == masked[..i] + masked[i..j];
    assert front + part + back == front + (part + back);
  }

  lemma CommentExtends(text: string, masked: string, start: nat, line: nat, clear: nat, front: string, registry: set<string>)
    requires start < |text| == |masked| && text[start] == '%' && line == IndexAny(text, start, {'\n'})
    requires clear == if line == |text| then line else BlankEnd(text, line + 1)
    requires masked[..start] == front && masked[start..line] == Nulls(line - start)
    requires line < |text| ==> masked[line..clear] == "\n" + Nulls(clear - (line + 1))
    ensures masked[..clear] + Mask(text, clear, registry) == front + Mask(text, start, registry)
  {
    if line == |text| {
      Extends(masked, start, line, front, Nulls(line - start), "");
    } else {
      var back := Mask(text, clear, registry);
      CommentParts(text, start, line, clear, registry);
      Extends(masked, start, line, front, Nulls(line - start), "\n" + Nulls(clear - (line + 1)) + back);
      Extends(masked, line, clear, masked[..line], "\n" + Nulls(clear - (line + 1)), back);
    }
  }
}
