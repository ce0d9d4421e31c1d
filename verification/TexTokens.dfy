/**
 The mask and the visible control sequences, told from the tokens of the text
 alone: what a comment, a literal and a control sequence are, where each ends,
 and what the mask shows of them.
 */
module TexTokens {
  import opened TexMask

  /** A comment goes up to its line feed and takes the blanks behind that. */
  predicate CommentShape(text: string, i: nat, end: nat)
    requires i < |text|
  {
    exists line :: i <= line <= |text| && CommentLine(text, i, line, end)
  }

  predicate CommentLine(text: string, i: nat, line: nat, end: nat)
    requires i <= line <= |text|
  {
    (forall k :: i <= k < line ==> text[k] != '\n') &&
    if line == |text| then end == |text|
    else
      text[line] == '\n' && line < end <= |text| &&
      (forall k :: line < k < end ==> Blank(text[k])) && (end < |text| ==> !Blank(text[end]))
  }

  /** A control sequence, an inline literal with its command, a comment, or any other byte. */
  predicate Token(text: string, i: nat, end: nat, registry: set<string>)
    requires i < |text|
  {
    if text[i] == '\\' then exists next :: i < next <= |text| && CommandTo(text, i, next, end, registry)
    else if text[i] == '%' then CommentShape(text, i, end)
    else end == i + 1
  }

  predicate CommandTo(text: string, i: nat, next: nat, end: nat, registry: set<string>)
    requires i < next <= |text|
  {
    ControlShape(text, i, next, registry) &&
    var name := text[i + 1..next];
    if Verbatim(name) then LiteralShape(text, next, end, name == "lstinline") else end == next
  }

  /** The text from position i on, cut into tokens. */
  predicate Cut(text: string, i: nat, ends: seq<nat>, registry: set<string>)
    decreases |ends|
  {
    if ends == [] then i == |text|
    else i < |text| && Token(text, i, ends[0], registry) && Cut(text, ends[0], ends[1..], registry)
  }

  /** The end of the token that starts at i. */
  function TokenEnd(text: string, i: nat, registry: set<string>): (end: nat)
    requires i < |text|
    ensures i < end <= |text|
  {
    if text[i] == '\\' then
      var next, name := ControlEnd(text, i, registry), ControlName(text, i, registry);
      if Verbatim(name) then VerbEnd(text, next, name == "lstinline") else next
    else if text[i] == '%' then
      var line := IndexAny(text, i, {'\n'});
      if line == |text| then line else BlankEnd(text, line + 1)
    else i + 1
  }

  lemma {:induction false} BlankEndStops(text: string, i: nat, end: nat)
    requires i <= end <= |text| && (forall k :: i <= k < end ==> Blank(text[k])) && (end < |text| ==> !Blank(text[end]))
    ensures end == BlankEnd(text, i)
    decreases |text| - i
  {
    if i < end {
      BlankEndStops(text, i + 1, end);
    }
  }

  lemma {:induction false} BlankEndWhole(text: string, i: nat)
    requires i <= |text|
    ensures BlankEnd(text, i) < |text| ==> !Blank(text[BlankEnd(text, i)])
    decreases |text| - i
  {
    if i < |text| && Blank(text[i]) {
      BlankEndWhole(text, i + 1);
    }
  }

  lemma CommentExactly(text: string, i: nat, end: nat)
    requires i < |text| && text[i] == '%'
    ensures CommentShape(text, i, end) <==>
      end == var line := IndexAny(text, i, {'\n'}); if line == |text| then line else BlankEnd(text, line + 1)
  {
    var line := IndexAny(text, i, {'\n'});
    if line < |text| {
      BlankEndWhole(text, line + 1);
    }
    assert CommentLine(text, i, line, if line == |text| then line else BlankEnd(text, line + 1));
    if CommentShape(text, i, end) {
      var l :| i <= l <= |text| && CommentLine(text, i, l, end);
      assert l <= line && line <= l;
      if l < |text| {
        BlankEndStops(text, l + 1, end);
      }
    }
  }

  lemma CommandExactly(text: string, i: nat, end: nat, registry: set<string>)
    requires i < |text| && text[i] == '\\'
    ensures (exists next :: i < next <= |text| && CommandTo(text, i, next, end, registry)) <==> end == TokenEnd(text, i, registry)
  {
    hide ControlShape, LiteralShape, ControlEnd, VerbEnd;
    var next, name := ControlEnd(text, i, registry), ControlName(text, i, registry);
    ControlExactly(text, i, next, registry);
    LiteralExactly(text, next, end, name == "lstinline");
    if end == TokenEnd(text, i, registry) {
      assert CommandTo(text, i, next, end, registry);
    }
    forall n | i < n <= |text| && CommandTo(text, i, n, end, registry) ensures end == TokenEnd(text, i, registry) {
      ControlExactly(text, i, n, registry);
    }
  }

  /** Every token has one end. */
  lemma TokenExactly(text: string, i: nat, end: nat, registry: set<string>)
    requires i < |text|
    ensures Token(text, i, end, registry) <==> end == TokenEnd(text, i, registry)
  {
    hide CommandTo, CommentShape, ControlEnd, VerbEnd, IndexAny, BlankEnd;
    if text[i] == '\\' {
      CommandExactly(text, i, end, registry);
    } else if text[i] == '%' {
      CommentExactly(text, i, end);
    }
  }

  /** The one way to cut a text. */
  function Ends(text: string, i: nat, registry: set<string>): seq<nat>
    requires i <= |text|
    decreases |text| - i
  {
    if i == |text| then [] else [TokenEnd(text, i, registry)] + Ends(text, TokenEnd(text, i, registry), registry)
  }

  lemma {:induction false} CutExactly(text: string, i: nat, ends: seq<nat>, registry: set<string>)
    requires i <= |text|
    ensures Cut(text, i, ends, registry) <==> ends == Ends(text, i, registry)
    decreases |text| - i
  {
    hide Token, TokenEnd;
    if i < |text| && ends != [] {
      TokenExactly(text, i, ends[0], registry);
      if ends[0] == TokenEnd(text, i, registry) {
        CutExactly(text, ends[0], ends[1..], registry);
      }
      assert ends == [ends[0]] + ends[1..];
    }
  }

  /** The token at i is an inline literal. */
  predicate OpensLiteral(text: string, i: nat, registry: set<string>)
    requires i < |text|
  {
    text[i] == '\\' && exists next :: i < next <= |text| && ControlShape(text, i, next, registry) && Verbatim(text[i + 1..next])
  }

  lemma LiteralNamed(text: string, i: nat, registry: set<string>)
    requires i < |text|
    ensures OpensLiteral(text, i, registry) <==> text[i] == '\\' && Verbatim(ControlName(text, i, registry))
  {
    hide ControlShape, ControlEnd;
    ControlExactly(text, i, ControlEnd(text, i, registry), registry);
    forall n | i < n <= |text| && ControlShape(text, i, n, registry) ensures n == ControlEnd(text, i, registry) {
      ControlExactly(text, i, n, registry);
    }
  }

  /** What the mask shows of a byte of the token that starts at i. */
  function Shown(text: string, i: nat, k: nat, registry: set<string>): char
    requires i <= k < |text|
  {
    if text[i] == '%' then (if text[k] == '\n' then '\n' else NUL)
    else if OpensLiteral(text, i, registry) && !Newline(text[k]) then ' '
    else text[k]
  }

  /** The command of a token that is a control sequence but no literal. */
  predicate Command(text: string, i: nat, end: nat, registry: set<string>, c: Control)
    requires i < end <= |text|
  {
    text[i] == '\\' && ControlShape(text, i, end, registry) && !Verbatim(text[i + 1..end]) && c == Control(i, end, text[i + 1..end])
  }

  lemma CommandsAt(text: string, i: nat, registry: set<string>)
    requires i < |text|
    ensures var end := TokenEnd(text, i, registry);
      Visible(text, i, registry) ==
        (if text[i] == '\\' && !Verbatim(ControlName(text, i, registry)) then [Control(i, end, ControlName(text, i, registry))] else []) +
        Visible(text, end, registry)
  {
  }

  lemma CommandMeans(text: string, i: nat, registry: set<string>, c: Control)
    requires i < |text|
    ensures Command(text, i, TokenEnd(text, i, registry), registry, c) <==>
      text[i] == '\\' && !Verbatim(ControlName(text, i, registry)) &&
      c == Control(i, TokenEnd(text, i, registry), ControlName(text, i, registry))
  {
    hide ControlShape, ControlEnd, VerbEnd;
    if text[i] == '\\' {
      ControlExactly(text, i, TokenEnd(text, i, registry), registry);
    }
  }

  /** The mask of the first token, and the rest. */
  ghost predicate Fronts(text: string, i: nat, end: nat, front: string, registry: set<string>)
    requires i < end <= |text|
  {
    Mask(text, i, registry) == front + Mask(text, end, registry) && |front| == end - i &&
    forall k :: i <= k < end ==> front[k - i] == Shown(text, i, k, registry)
  }

  lemma CommentFronts(text: string, i: nat, registry: set<string>) returns (front: string)
    requires i < |text| && text[i] == '%'
    ensures Fronts(text, i, TokenEnd(text, i, registry), front, registry)
  {
    hide Mask, Nulls, IndexAny, BlankEnd;
    var line := IndexAny(text, i, {'\n'});
    CommentMask(text, i, registry);
    if line == |text| {
      front := Nulls(line - i);
      NullsShow(text, i, line);
      MaskNothing(text, registry);
      assert front + "" == front;
    } else {
      front := CommentShows(text, i, line, BlankEnd(text, line + 1));
    }
  }

  /** A comment up to its line feed, and the blanks behind it. */
  lemma CommentShows(text: string, i: nat, line: nat, rest: nat) returns (front: string)
    requires i <= line < rest <= |text| && text[line] == '\n'
    requires forall k :: i <= k < rest && k != line ==> text[k] != '\n'
    ensures front == Nulls(line - i) + "\n" + Nulls(rest - (line + 1)) && |front| == rest - i
    ensures forall k :: i <= k < rest ==> front[k - i] == (if text[k] == '\n' then '\n' else NUL)
  {
    NullsShow(text, i, line);
    NullsShow(text, line + 1, rest);
    hide Nulls;
    front := Nulls(line - i) + "\n" + Nulls(rest - (line + 1));
    forall k | i <= k < rest ensures front[k - i] == (if text[k] == '\n' then '\n' else NUL) {
      if k < line {
        assert front[k - i] == Nulls(line - i)[k - i];
      } else if k > line {
        assert front[k - i] == Nulls(rest - (line + 1))[k - (line + 1)];
      }
    }
  }

  lemma NullsShow(text: string, i: nat, end: nat)
    requires i <= end <= |text| && forall k :: i <= k < end ==> text[k] != '\n'
    ensures |Nulls(end - i)| == end - i && forall k :: i <= k < end ==> Nulls(end - i)[k - i] == (if text[k] == '\n' then '\n' else NUL)
  {
  }

  lemma CommentMask(text: string, i: nat, registry: set<string>)
    requires i < |text| && text[i] == '%'
    ensures var line := IndexAny(text, i, {'\n'});
      Mask(text, i, registry) ==
      if line == |text| then Nulls(line - i)
      else
        var rest := BlankEnd(text, line + 1);
        Nulls(line - i) + "\n" + Nulls(rest - (line + 1)) + Mask(text, rest, registry)
  {
    hide IndexAny, BlankEnd;
  }

  lemma MaskNothing(text: string, registry: set<string>)
    ensures Mask(text, |text|, registry) == ""
  {
  }

  lemma MaskFronts(text: string, i: nat, registry: set<string>) returns (front: string)
    requires i < |text|
    ensures Fronts(text, i, TokenEnd(text, i, registry), front, registry)
  {
    LiteralNamed(text, i, registry);
    hide OpensLiteral, ControlEnd, VerbEnd, IndexAny, BlankEnd;
    var end := TokenEnd(text, i, registry);
    if text[i] == '%' {
      front := CommentFronts(text, i, registry);
    } else if OpensLiteral(text, i, registry) {
      front := Hidden(text, i, end);
    } else {
      front := text[i..end];
    }
  }

  function StartOf(i: nat, ends: seq<nat>, m: nat): nat
    requires m < |ends|
  {
    if m == 0 then i else ends[m - 1]
  }

  lemma {:induction false} CutRises(text: string, i: nat, ends: seq<nat>, registry: set<string>, m: nat)
    requires Cut(text, i, ends, registry) && m < |ends|
    ensures i <= StartOf(i, ends, m) < ends[m] <= |text|
    decreases m
  {
    hide Token, TokenEnd;
    TokenExactly(text, i, ends[0], registry);
    if m > 0 {
      CutRises(text, ends[0], ends[1..], registry, m - 1);
    }
  }

  lemma {:induction false} MaskByToken(text: string, i: nat, ends: seq<nat>, registry: set<string>, m: nat, k: nat)
    requires i <= |text| && Cut(text, i, ends, registry) && m < |ends| && StartOf(i, ends, m) <= k < ends[m]
    ensures i <= k < |text| && Mask(text, i, registry)[k - i] == Shown(text, StartOf(i, ends, m), k, registry)
    decreases m
  {
    hide Token, TokenEnd, Mask, Shown, Fronts;
    CutRises(text, i, ends, registry, m);
    TokenExactly(text, i, ends[0], registry);
    var front := MaskFronts(text, i, registry);
    FrontAt(text, i, ends[0], front, registry, k);
    if m > 0 {
      CutRises(text, ends[0], ends[1..], registry, m - 1);
      MaskByToken(text, ends[0], ends[1..], registry, m - 1, k);
      assert StartOf(ends[0], ends[1..], m - 1) == StartOf(i, ends, m);
    }
  }

  lemma FrontAt(text: string, i: nat, end: nat, front: string, registry: set<string>, k: nat)
    requires i < end <= |text| && Fronts(text, i, end, front, registry) && i <= k < |text|
    ensures Mask(text, i, registry)[k - i] ==
      if k < end then Shown(text, i, k, registry) else Mask(text, end, registry)[k - end]
  {
    hide Mask, Shown;
  }

  lemma {:induction false} VisibleByToken(text: string, i: nat, ends: seq<nat>, registry: set<string>, c: Control)
    requires i <= |text| && Cut(text, i, ends, registry)
    ensures forall m :: 0 <= m < |ends| ==> StartOf(i, ends, m) < ends[m] <= |text|
    ensures c in Visible(text, i, registry) <==>
      exists m :: 0 <= m < |ends| && Command(text, StartOf(i, ends, m), ends[m], registry, c)
    decreases |ends|
  {
    forall m | 0 <= m < |ends| ensures StartOf(i, ends, m) < ends[m] <= |text| {
      CutRises(text, i, ends, registry, m);
    }
    hide Token, TokenEnd, Visible, Command;
    if ends == [] {
      assert Visible(text, i, registry) == [] by { NothingVisible(text, i, registry); }
    } else {
      TokenExactly(text, i, ends[0], registry);
      CommandsAt(text, i, registry);
      CommandMeans(text, i, registry, c);
      VisibleByToken(text, ends[0], ends[1..], registry, c);
      var rest := ends[1..];
      assert forall m :: 0 <= m < |rest| ==> StartOf(ends[0], rest, m) == StartOf(i, ends, m + 1) && rest[m] == ends[m + 1];
      if m :| 0 <= m < |rest| && Command(text, StartOf(ends[0], rest, m), rest[m], registry, c) {
        assert Command(text, StartOf(i, ends, m + 1), ends[m + 1], registry, c);
      }
      if m :| 0 <= m < |ends| && Command(text, StartOf(i, ends, m), ends[m], registry, c) {
        if m > 0 {
          assert Command(text, StartOf(ends[0], rest, m - 1), rest[m - 1], registry, c);
        }
      }
    }
  }

  lemma NothingVisible(text: string, i: nat, registry: set<string>)
    requires i == |text|
    ensures Visible(text, i, registry) == []
  {
  }

  /**
   A text can be cut into tokens in one way.  The mask shows of every token what
   its kind says, and visible are exactly its control sequences that are neither
   in a comment nor in a literal nor open one.
   */
  lemma MaskByTokens(text: string, registry: set<string>) returns (ends: seq<nat>)
    ensures Cut(text, 0, ends, registry)
    ensures forall other :: Cut(text, 0, other, registry) ==> other == ends
    ensures forall m, k :: 0 <= m < |ends| && StartOf(0, ends, m) <= k < ends[m] ==>
      k < |text| && Mask(text, 0, registry)[k] == Shown(text, StartOf(0, ends, m), k, registry)
    ensures forall m :: 0 <= m < |ends| ==> StartOf(0, ends, m) < ends[m] <= |text|
    ensures forall c :: c in Visible(text, 0, registry) <==>
      exists m :: 0 <= m < |ends| && Command(text, StartOf(0, ends, m), ends[m], registry, c)
  {
    hide Cut, Mask, Visible, Shown, Command, StartOf;
    ends := Ends(text, 0, registry);
    CutExactly(text, 0, ends, registry);
    forall other | Cut(text, 0, other, registry) ensures other == ends {
      CutExactly(text, 0, other, registry);
    }
    forall m, k | 0 <= m < |ends| && StartOf(0, ends, m) <= k < ends[m]
      ensures k < |text| && Mask(text, 0, registry)[k] == Shown(text, StartOf(0, ends, m), k, registry)
    {
      MaskByToken(text, 0, ends, registry, m, k);
      assert Mask(text, 0, registry)[k - 0] == Mask(text, 0, registry)[k];
    }
    forall m | 0 <= m < |ends| ensures StartOf(0, ends, m) < ends[m] <= |text| {
      CutRises(text, 0, ends, registry, m);
    }
    forall c
      ensures c in Visible(text, 0, registry) <==>
        exists m :: 0 <= m < |ends| && Command(text, StartOf(0, ends, m), ends[m], registry, c)
    {
      VisibleByToken(text, 0, ends, registry, c);
    }
  }

  /** A command directly behind a closed literal is visible. */
  lemma BehindLiteral(text: string, i: nat, next: nat, k: nat, registry: set<string>)
    requires i < next < k && k + 1 < |text| && text[i] == '\\'
    requires ControlShape(text, i, next, registry) && text[i + 1..next] == "verb" && text[next] != '*'
    requires text[k] == text[next] && forall m :: next <= m < k ==> !Newline(text[m]) && (m > next ==> text[m] != text[next])
    requires text[k + 1] == '\\' && !Verbatim(ControlName(text, k + 1, registry))
    ensures Control(k + 1, ControlEnd(text, k + 1, registry), ControlName(text, k + 1, registry)) in Visible(text, i, registry)
  {
    hide ControlShape, VerbEnd, ControlEnd;
    ControlExactly(text, i, next, registry);
    LiteralExactly(text, next, k + 1, false);
    assert Visible(text, i, registry) == Visible(text, k + 1, registry);
  }
}
