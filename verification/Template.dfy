/**
 The placeholder language: a template is compiled to a string with NUL-delimited
 tags, and a tag engine splits that string again when it renders.
 */
module Template {
  import opened Options

  const MAX_BYTES := 65536
  const NUL := '\0'
  const START := "\0{"
  const END := "}\0"

  /** What a template consists of: a literal byte, or a placeholder. */
  datatype Token = Byte(c: char) | Field(name: string, spec: string)

  // ----- The grammar -----

  function IndexOf(s: string, i: nat, c: char): (k: nat)
    requires i <= |s|
    ensures i <= k <= |s| && (forall j :: i <= j < k ==> s[j] != c) && (k < |s| ==> s[k] == c)
    decreases |s| - i
  {
    if i == |s| || s[i] == c then i else IndexOf(s, i + 1, c)
  }

  predicate NameStart(c: char) { c == '_' || 'a' <= c <= 'z' || 'A' <= c <= 'Z' }

  /** Dot-separated parts, each a letter or underscore followed by letters, digits and underscores. */
  predicate NameFrom(name: string, i: nat, first: bool)
    requires i <= |name|
    decreases |name| - i
  {
    if i == |name| then !first
    else if name[i] == '.' then !first && NameFrom(name, i + 1, true)
    else (NameStart(name[i]) || (!first && '0' <= name[i] <= '9')) && NameFrom(name, i + 1, false)
  }

  predicate ValidName(name: string) { NameFrom(name, 0, true) }

  /** The body of a placeholder: a name, and a format after the first colon. */
  function FieldOf(body: string): Option<Token> {
    var colon := IndexOf(body, 0, ':');
    var name := body[..colon];
    var spec := if colon < |body| then body[colon + 1..] else "";
    if !ValidName(name) || '{' in spec || (colon < |body| && spec == "") then None else Some(Field(name, spec))
  }

  function Prepend(t: Option<Token>, rest: Option<seq<Token>>): Option<seq<Token>> {
    if t.None? || rest.None? then None else Some([t.value] + rest.value)
  }

  function Tokens(source: string, i: nat): (tokens: Option<seq<Token>>)
    requires i <= |source|
    decreases |source| - i
  {
    if i == |source| then Some([])
    else if source[i] == '{' then
      if i + 1 < |source| && source[i + 1] == '{' then Prepend(Some(Byte('{')), Tokens(source, i + 2))
      else
        var end := IndexOf(source, i + 1, '}');
        if end == |source| then None else Prepend(FieldOf(source[i + 1..end]), Tokens(source, end + 1))
    else if source[i] == '}' then
      if i + 1 < |source| && source[i + 1] == '}' then Prepend(Some(Byte('}')), Tokens(source, i + 2)) else None
    else Prepend(Some(Byte(source[i])), Tokens(source, i + 1))
  }

  predicate Acceptable(source: string) { |source| <= MAX_BYTES && NUL !in source }

  // ----- Decimal indices -----

  function Digit(d: nat): char
    requires d < 10
  { (d + '0' as int) as char }

  function Itoa(n: nat): (s: string)
    ensures s != "" && forall k :: 0 <= k < |s| ==> '0' <= s[k] <= '9'
  {
    if n < 10 then [Digit(n)] else Itoa(n / 10) + [Digit(n % 10)]
  }

  function Atoi(s: string): Option<nat> {
    if s == "" then None
    else
      var c := s[|s| - 1];
      if !('0' <= c <= '9') then None
      else if |s| == 1 then Some(c as int - '0' as int)
      else
        var front := Atoi(s[..|s| - 1]);
        if front.None? then None else Some(front.value * 10 + (c as int - '0' as int))
  }

  lemma {:induction false} AtoiItoa(n: nat)
    ensures Atoi(Itoa(n)) == Some(n)
  {
    if n >= 10 {
      AtoiItoa(n / 10);
      var s := Itoa(n);
      assert s[..|s| - 1] == Itoa(n / 10);
    }
  }

  // ----- Compilation -----

  function Tag(k: nat): string { START + Itoa(k) + END }

  /** The compiled form of tokens when k fields precede them. */
  function Compiled(tokens: seq<Token>, k: nat): string {
    if tokens == [] then ""
    else if tokens[0].Byte? then [tokens[0].c] + Compiled(tokens[1..], k)
    else Tag(k) + Compiled(tokens[1..], k + 1)
  }

  function Fields(tokens: seq<Token>): seq<Token> {
    if tokens == [] then []
    else if tokens[0].Byte? then Fields(tokens[1..])
    else [tokens[0]] + Fields(tokens[1..])
  }

  /** Every variable once, in the order of first use. */
  function Names(fields: seq<Token>): seq<string> {
    if fields == [] then []
    else
      var before, f := Names(fields[..|fields| - 1]), fields[|fields| - 1];
      if f.Byte? || f.name in before then before else before + [f.name]
  }

  datatype Parsed = Parsed(compiled: string, fields: seq<Token>, names: seq<string>)

  /** The token that starts at a position, or an error. */
  method NextToken(source: string, i: nat) returns (token: Option<Token>, next: nat)
    requires i < |source|
    ensures i < next <= |source| && Tokens(source, i) == Prepend(token, Tokens(source, next))
  {
    next := |source|;
    if source[i] == '{' && !(i + 1 < |source| && source[i + 1] == '{') {
      var end := IndexOf(source, i + 1, '}');
      if end == |source| {
        return None, next;
      }
      return FieldOf(source[i + 1..end]), end + 1;
    }
    if source[i] == '{' || source[i] == '}' {
      if !(i + 1 < |source| && source[i + 1] == source[i]) {
        return None, next;
      }
      return Some(Byte(source[i])), i + 2;
    }
    return Some(Byte(source[i])), i + 1;
  }

  /** One pass over the source that writes the compiled string. */
  method Parse(source: string) returns (r: Option<Parsed>)
    ensures r.Some? <==> Acceptable(source) && Tokens(source, 0).Some?
    ensures r.Some? ==> var tokens := Tokens(source, 0).value;
      r.value == Parsed(Compiled(tokens, 0), Fields(tokens), Names(Fields(tokens)))
  {
    if |source| > MAX_BYTES || NUL in source {
      return None;
    }
    var compiled, fields, names := "", [], [];
    ghost var done: seq<Token> := [];
    var i := 0;
    AppendedNothing(Tokens(source, 0));
    while i < |source|
      invariant 0 <= i <= |source|
      invariant Tokens(source, 0) == Appended(done, Tokens(source, i))
      invariant compiled == Compiled(done, 0) && fields == Fields(done) && names == Names(fields)
      decreases |source| - i
    {
      hide Tokens, Compiled, Fields, Names, Itoa;
      ghost var from := i;
      var token, next := NextToken(source, i);
      if token.None? {
        return None;
      }
      i := next;
      AppendedOne(done, token.value, Tokens(source, i));
      if token.value.Byte? {
        ByteAppended(done, 0, token.value.c);
        compiled := compiled + [token.value.c];
      } else {
        FieldAppended(done, 0, token.value);
        NamesAppend(fields, token.value);
        compiled := compiled + (START + Itoa(|fields|) + END);
        fields := fields + [token.value];
        if token.value.name !in names {
          names := names + [token.value.name];
        }
      }
      done := done + [token.value];
    }
    assert done + [] == done;
    return Some(Parsed(compiled, fields, names));
  }

  function Appended(done: seq<Token>, rest: Option<seq<Token>>): Option<seq<Token>> {
    if rest.None? then None else Some(done + rest.value)
  }

  lemma AppendedNothing(rest: Option<seq<Token>>)
    ensures Appended([], rest) == rest
  {
    if rest.Some? {
      assert [] + rest.value == rest.value;
    }
  }

  lemma AppendedOne(done: seq<Token>, token: Token, rest: Option<seq<Token>>)
    ensures Appended(done, Prepend(Some(token), rest)) == Appended(done + [token], rest)
  {
    if rest.Some? {
      assert done + ([token] + rest.value) == (done + [token]) + rest.value;
    }
  }

  lemma {:induction false} ByteAppended(tokens: seq<Token>, k: nat, c: char)
    ensures Compiled(tokens + [Byte(c)], k) == Compiled(tokens, k) + [c]
    ensures Fields(tokens + [Byte(c)]) == Fields(tokens)
    decreases |tokens|
  {
    hide Itoa, Tag;
    var all := tokens + [Byte(c)];
    if tokens == [] {
      assert all == [Byte(c)] && all[1..] == [];
    } else {
      assert all[0] == tokens[0] && all[1..] == tokens[1..] + [Byte(c)];
      ByteAppended(tokens[1..], if tokens[0].Byte? then k else k + 1, c);
    }
  }

  lemma {:induction false} FieldAppended(tokens: seq<Token>, k: nat, f: Token)
    requires f.Field?
    ensures Compiled(tokens + [f], k) == Compiled(tokens, k) + Tag(k + |Fields(tokens)|)
    ensures Fields(tokens + [f]) == Fields(tokens) + [f]
    decreases |tokens|
  {
    hide Itoa, Tag;
    var all := tokens + [f];
    if tokens == [] {
      assert all == [f] && all[1..] == [];
    } else {
      assert all[0] == tokens[0] && all[1..] == tokens[1..] + [f];
      FieldAppended(tokens[1..], if tokens[0].Byte? then k else k + 1, f);
    }
  }

  lemma NamesAppend(fields: seq<Token>, f: Token)
    requires f.Field?
    ensures Names(fields + [f]) == if f.name in Names(fields) then Names(fields) else Names(fields) + [f.name]
  {
    assert (fields + [f])[..|fields + [f]| - 1] == fields;
  }

  // ----- The tag engine -----

  /** The first occurrence of a two-byte mark. */
  function Find(s: string, mark: string): (at: Option<nat>)
    requires |mark| == 2
    ensures at.Some? ==> at.value + 2 <= |s|
    decreases |s|
  {
    if |s| < 2 then None
    else if s[..2] == mark then Some(0)
    else
      var rest := Find(s[1..], mark);
      if rest.None? then None else Some(rest.value + 1)
  }

  datatype Split = Split(texts: seq<string>, tags: seq<string>)

  function Joined(text: string, tag: string, more: Option<Split>): Option<Split> {
    if more.None? then None else Some(Split([text] + more.value.texts, [tag] + more.value.tags))
  }

  /** Texts and tags alternate; a start mark without an end mark is an error. */
  function SplitTags(s: string): Option<Split>
    decreases |s|
  {
    var start := Find(s, START);
    if start.None? then Some(Split([s], []))
    else
      var rest := s[start.value + 2..];
      var end := Find(rest, END);
      if end.None? then None else Joined(s[..start.value], rest[..end.value], SplitTags(rest[end.value + 2..]))
  }

  /** The literal text before, between and after the placeholders. */
  function Texts(tokens: seq<Token>): (texts: seq<string>)
    ensures |texts| == |Fields(tokens)| + 1
  {
    if tokens == [] then [""]
    else
      var rest := Texts(tokens[1..]);
      if tokens[0].Byte? then [[tokens[0].c] + rest[0]] + rest[1..] else [""] + rest
  }

  function Numbers(k: nat, n: nat): seq<string>
    decreases n
  {
    if n == 0 then [] else [Itoa(k)] + Numbers(k + 1, n - 1)
  }

  predicate Literal(tokens: seq<Token>) { forall t :: t in tokens && t.Byte? ==> t.c != NUL }

  lemma FindLater(c: char, s: string, mark: string)
    requires |mark| == 2 && c != mark[0]
    ensures Find([c] + s, mark) == if Find(s, mark).None? then None else Some(Find(s, mark).value + 1)
  {
    assert ([c] + s)[1..] == s;
    if |[c] + s| >= 2 {
      assert ([c] + s)[..2][0] == c;
    }
  }

  lemma {:induction false} FindAfter(front: string, s: string, mark: string)
    requires |mark| == 2 && |s| >= 2 && s[..2] == mark && forall k :: 0 <= k < |front| ==> front[k] != mark[0]
    ensures Find(front + s, mark) == Some(|front|)
  {
    if front == "" {
      assert front + s == s;
    } else {
      FindAfter(front[1..], s, mark);
      assert front + s == [front[0]] + (front[1..] + s);
      FindLater(front[0], front[1..] + s, mark);
    }
  }

  lemma SplitAt(s: string, text: string, after: string, end: nat)
    requires Find(s, START) == Some(|text|) && s[..|text|] == text && s[|text| + 2..] == after
    requires Find(after, END) == Some(end)
    ensures SplitTags(s) == Joined(text, after[..end], SplitTags(after[end + 2..]))
  {
    hide Find, Joined;
  }

  lemma SplitTag(k: nat, rest: string)
    ensures SplitTags(Tag(k) + rest) == Joined("", Itoa(k), SplitTags(rest))
  {
    var number := Itoa(k);
    var after := number + (END + rest);
    TagParts(number, rest);
    assert Tag(k) + rest == START + after;
    hide SplitTags, Find, Joined, Itoa, Tag;
    FindAfter("", START + after, START);
    assert "" + (START + after) == START + after;
    FindAfter(number, END + rest, END);
    SplitAt(START + after, "", after, |number|);
  }

  lemma TagParts(number: string, rest: string)
    ensures var after := number + (END + rest);
      (START + after)[..0] == "" && (START + after)[..2] == START && (START + after)[2..] == after &&
      (END + rest)[..2] == END && after[..|number|] == number && after[|number| + 2..] == rest &&
      START + number + END + rest == START + after
  {
  }

  /** A byte in front belongs to the first text. */
  function Fronted(c: char, r: Option<Split>): Option<Split> {
    if r.None? || r.value.texts == [] then r
    else Some(Split([[c] + r.value.texts[0]] + r.value.texts[1..], r.value.tags))
  }

  lemma SplitByte(c: char, rest: string)
    requires c != NUL
    ensures SplitTags([c] + rest) == Fronted(c, SplitTags(rest))
  {
    FindLater(c, rest, START);
    hide Find, SplitTags, Fronted;
    if Find(rest, START).None? {
      ByteAlone(c, rest);
    } else {
      ByteBeforeTag(c, rest, Find(rest, START).value);
    }
  }

  lemma ByteAlone(c: char, rest: string)
    requires Find(rest, START) == None && Find([c] + rest, START) == None
    ensures SplitTags([c] + rest) == Fronted(c, SplitTags(rest))
  {
    NoTag(rest);
    NoTag([c] + rest);
    assert [[c] + rest] + [rest][1..] == [[c] + rest];
  }

  lemma NoTag(s: string)
    requires Find(s, START) == None
    ensures SplitTags(s) == Some(Split([s], []))
  {
  }

  lemma ByteBeforeTag(c: char, rest: string, n: nat)
    requires Find(rest, START) == Some(n) && Find([c] + rest, START) == Some(n + 1)
    ensures SplitTags([c] + rest) == Fronted(c, SplitTags(rest))
  {
    hide Find, SplitTags, Fronted;
    var s, text, after := [c] + rest, rest[..n], rest[n + 2..];
    ConsSlices(c, rest, n);
    var end := Find(after, END);
    if end.Some? {
      SplitAt(s, [c] + text, after, end.value);
      SplitAt(rest, text, after, end.value);
      hide *;
      FrontedJoined(c, text, after[..end.value], SplitTags(after[end.value + 2..]));
    } else {
      SplitFails(s, n + 1);
      SplitFails(rest, n);
      FrontedNone(c);
    }
  }

  lemma ConsSlices(c: char, rest: string, n: nat)
    requires n + 2 <= |rest|
    ensures ([c] + rest)[..n + 1] == [c] + rest[..n] && ([c] + rest)[n + 1 + 2..] == rest[n + 2..]
  {
  }

  lemma FrontedNone(c: char)
    ensures Fronted(c, None) == None
  {
  }

  lemma SplitFails(s: string, start: nat)
    requires Find(s, START) == Some(start) && Find(s[start + 2..], END) == None
    ensures SplitTags(s) == None
  {
  }

  lemma FrontedJoined(c: char, text: string, tag: string, more: Option<Split>)
    ensures Joined([c] + text, tag, more) == Fronted(c, Joined(text, tag, more))
  {
    if more.Some? {
      assert ([text] + more.value.texts)[1..] == more.value.texts;
    }
  }

  /** Splitting the compiled string gives back exactly the literals and placeholders that were parsed. */
  lemma {:induction false} SplitCompiled(tokens: seq<Token>, k: nat)
    requires Literal(tokens)
    ensures SplitTags(Compiled(tokens, k)) == Some(Split(Texts(tokens), Numbers(k, |Fields(tokens)|)))
    decreases |tokens|
  {
    hide SplitTags, Itoa, Tag;
    if tokens == [] {
      assert SplitTags("") == Some(Split([""], [])) by { SplitEmpty(); }
    } else if tokens[0].Byte? {
      SplitCompiled(tokens[1..], k);
      SplitByte(tokens[0].c, Compiled(tokens[1..], k));
    } else {
      SplitCompiled(tokens[1..], k + 1);
      SplitTag(k, Compiled(tokens[1..], k + 1));
    }
  }

  lemma SplitEmpty()
    ensures SplitTags("") == Some(Split([""], []))
  {
  }

  // ----- Rendering -----

  /** A value formats itself, or refuses the format. */
  type Values = map<string, string -> Option<string>>

  function Format(values: Values, f: Token): Option<string> {
    if f.Byte? || f.name !in values then None else values[f.name](f.spec)
  }

  /** Direct substitution into the source. */
  function Substituted(tokens: seq<Token>, values: Values): Option<string> {
    if tokens == [] then Some("")
    else
      var first := if tokens[0].Byte? then Some([tokens[0].c]) else Format(values, tokens[0]);
      var rest := Substituted(tokens[1..], values);
      if first.None? || rest.None? then None else Some(first.value + rest.value)
  }

  /** What the engine still writes after `output`, if nothing is refused. */
  function Woven(output: string, texts: seq<string>, fields: seq<Token>, values: Values): Option<string>
    requires |texts| == |fields| + 1
    decreases |fields|
  {
    if fields == [] then Some(output + texts[0])
    else
      var first := Format(values, fields[0]);
      if first.None? then None else Woven(output + texts[0] + first.value, texts[1..], fields[1..], values)
  }

  lemma {:induction false} WovenGrows(output: string, texts: seq<string>, fields: seq<Token>, values: Values)
    requires |texts| == |fields| + 1
    ensures Woven(output, texts, fields, values).Some? ==>
      |Woven(output, texts, fields, values).value| >= |output| + |texts[0]|
    ensures Woven(output, texts, fields, values).Some? && fields != [] && Format(values, fields[0]).Some? ==>
      |Woven(output, texts, fields, values).value| >= |output| + |texts[0]| + |Format(values, fields[0]).value|
    decreases |fields|
  {
    if fields != [] && Format(values, fields[0]).Some? {
      WovenGrows(output + texts[0] + Format(values, fields[0]).value, texts[1..], fields[1..], values);
    }
  }

  lemma {:induction false} WovenOutput(output: string, texts: seq<string>, fields: seq<Token>, values: Values)
    requires |texts| == |fields| + 1
    ensures Woven(output, texts, fields, values) ==
      if Woven("", texts, fields, values).None? then None else Some(output + Woven("", texts, fields, values).value)
    decreases |fields|
  {
    if fields == [] {
      assert "" + texts[0] == texts[0];
    } else if Format(values, fields[0]).Some? {
      var piece := Format(values, fields[0]).value;
      WovenOutput(output + texts[0] + piece, texts[1..], fields[1..], values);
      WovenOutput("" + texts[0] + piece, texts[1..], fields[1..], values);
      if Woven("", texts[1..], fields[1..], values).Some? {
        var rest := Woven("", texts[1..], fields[1..], values).value;
        assert (output + texts[0] + piece) + rest == output + (("" + texts[0] + piece) + rest);
      }
    }
  }

  /** Weaving the texts with the formatted fields is direct substitution. */
  lemma {:induction false} WovenIsSubstituted(tokens: seq<Token>, values: Values)
    ensures Woven("", Texts(tokens), Fields(tokens), values) == Substituted(tokens, values)
    decreases |tokens|
  {
    if tokens == [] {
    } else if tokens[0].Byte? {
      var c, rest, fields := tokens[0].c, Texts(tokens[1..]), Fields(tokens);
      WovenIsSubstituted(tokens[1..], values);
      WovenFront([c], rest, fields, values);
    } else {
      WovenIsSubstituted(tokens[1..], values);
      var first := Format(values, tokens[0]);
      if first.Some? {
        WovenOutput(first.value, Texts(tokens[1..]), Fields(tokens[1..]), values);
        assert "" + "" + first.value == first.value;
      }
    }
  }

  lemma WovenFront(front: string, texts: seq<string>, fields: seq<Token>, values: Values)
    requires |texts| == |fields| + 1
    ensures Woven("", [front + texts[0]] + texts[1..], fields, values) ==
      if Woven("", texts, fields, values).None? then None else Some(front + Woven("", texts, fields, values).value)
  {
    WovenOutput(front, texts, fields, values);
    var joined := [front + texts[0]] + texts[1..];
    assert "" + (front + texts[0]) == front + texts[0];
    if fields != [] {
      assert joined[1..] == texts[1..];
    }
  }

  /** A writer that refuses to exceed the limit. */
  class BoundedWriter {
    var output: string

    constructor ()
      ensures output == ""
    {
      output := "";
    }

    method Write(s: string) returns (ok: bool)
      modifies this
      ensures ok <==> |old(output)| + |s| <= MAX_BYTES
      ensures output == if ok then old(output) + s else old(output)
    {
      if |s| > MAX_BYTES - |output| {
        return false;
      }
      output := output + s;
      return true;
    }
  }

  /** What Render returns: the substitution, unless a field is refused or the result is too long. */
  function Rendered(tokens: seq<Token>, values: Values): Option<string> {
    var s := Substituted(tokens, values);
    if s.Some? && |s.value| <= MAX_BYTES then s else None
  }

  /** The engine's loop over the split template. */
  method Render(parsed: Parsed, values: Values, ghost tokens: seq<Token>) returns (r: Option<string>)
    requires Literal(tokens) && parsed.compiled == Compiled(tokens, 0) && parsed.fields == Fields(tokens)
    ensures r == Rendered(tokens, values)
  {
    var split := SplitTags(parsed.compiled);
    SplitCompiled(tokens, 0);
    WovenIsSubstituted(tokens, values);
    NumbersLength(0, |parsed.fields|);
    var texts, tags := split.value.texts, split.value.tags;
    hide *;
    var writer := new BoundedWriter();
    assert texts[0..] == texts && parsed.fields[0..] == parsed.fields;
    for i := 0 to |tags|
      invariant |writer.output| <= MAX_BYTES && |tags| == |parsed.fields| && |texts| == |tags| + 1
      invariant Woven(writer.output, texts[i..], parsed.fields[i..], values) == Substituted(tokens, values)
    {
      ghost var before := writer.output;
      WovenStep(before, texts, parsed.fields, values, i);
      var written := writer.Write(texts[i]);
      if !written {
        RenderedNothing(tokens, values);
        return None;
      }
      NumberAt(0, |tags|, i);
      AtoiItoa(i);
      var index := Atoi(tags[i]);
      var formatted := Format(values, parsed.fields[index.value]);
      if formatted.None? {
        RenderedNothing(tokens, values);
        return None;
      }
      written := writer.Write(formatted.value);
      if !written {
        RenderedNothing(tokens, values);
        return None;
      }
    }
    WovenEnd(writer.output, texts, parsed.fields, values);
    var finished := writer.Write(texts[|tags|]);
    if !finished {
      RenderedNothing(tokens, values);
      return None;
    }
    RenderedAll(tokens, values);
    return Some(writer.output);
  }

  lemma RenderedNothing(tokens: seq<Token>, values: Values)
    requires Substituted(tokens, values).Some? ==> |Substituted(tokens, values).value| > MAX_BYTES
    ensures Rendered(tokens, values) == None
  {
  }

  lemma RenderedAll(tokens: seq<Token>, values: Values)
    requires Substituted(tokens, values).Some? && |Substituted(tokens, values).value| <= MAX_BYTES
    ensures Rendered(tokens, values) == Substituted(tokens, values)
  {
  }

  lemma WovenStep(output: string, texts: seq<string>, fields: seq<Token>, values: Values, i: nat)
    requires |texts| == |fields| + 1 && i < |fields|
    ensures var woven := Woven(output, texts[i..], fields[i..], values);
      var first := Format(values, fields[i]);
      && (first.None? ==> woven == None)
      && (first.Some? ==> woven == Woven(output + texts[i] + first.value, texts[i + 1..], fields[i + 1..], values))
      && (woven.Some? ==> |woven.value| >= |output| + |texts[i]|)
      && (woven.Some? && first.Some? ==> |woven.value| >= |output| + |texts[i]| + |first.value|)
  {
    assert texts[i..][1..] == texts[i + 1..] && fields[i..][1..] == fields[i + 1..];
    WovenGrows(output, texts[i..], fields[i..], values);
  }

  lemma WovenEnd(output: string, texts: seq<string>, fields: seq<Token>, values: Values)
    requires |texts| == |fields| + 1
    ensures Woven(output, texts[|fields|..], fields[|fields|..], values) == Some(output + texts[|fields|])
  {
  }

  lemma {:induction false} NumbersLength(k: nat, n: nat)
    ensures |Numbers(k, n)| == n
    decreases n
  {
    if n > 0 {
      NumbersLength(k + 1, n - 1);
    }
  }

  lemma {:induction false} NumberAt(k: nat, n: nat, i: nat)
    requires i < n
    ensures |Numbers(k, n)| == n && Numbers(k, n)[i] == Itoa(k + i)
    decreases n
  {
    NumbersLength(k, n);
    if i > 0 {
      NumberAt(k + 1, n - 1, i - 1);
    }
  }

  // ----- Escaping -----

  function Escaped(text: string): string {
    if text == "" then ""
    else (if text[0] == '{' || text[0] == '}' then [text[0], text[0]] else [text[0]]) + Escaped(text[1..])
  }

  function Bytes(text: string): seq<Token> {
    if text == "" then [] else [Byte(text[0])] + Bytes(text[1..])
  }

  lemma {:induction false} EscapedTokens(source: string, i: nat, text: string)
    requires i <= |source| && source[i..] == Escaped(text)
    ensures Tokens(source, i) == Some(Bytes(text))
    decreases |text|
  {
    if text != "" {
      var c := text[0];
      var n := if c == '{' || c == '}' then 2 else 1;
      assert source[i] == source[i..][0] == c;
      if n == 2 {
        assert source[i + 1] == source[i..][1] == c;
      }
      assert source[i + n..] == source[i..][n..] == Escaped(text[1..]);
      EscapedTokens(source, i + n, text[1..]);
    } else {
      assert |source[i..]| == 0;
    }
  }

  lemma {:induction false} BytesSubstituted(text: string, values: Values)
    ensures Substituted(Bytes(text), values) == Some(text)
  {
    if text != "" {
      BytesSubstituted(text[1..], values);
      assert Bytes(text)[1..] == Bytes(text[1..]);
      assert [text[0]] + text[1..] == text;
    }
  }

  lemma {:induction false} EscapedLonger(text: string)
    ensures |text| <= |Escaped(text)|
    decreases |text|
  {
    if text != "" {
      EscapedLonger(text[1..]);
    }
  }

  /** Tokens of an acceptable source hold no tag delimiter. */
  lemma {:induction false} SourceLiteral(source: string, i: nat)
    requires i <= |source| && NUL !in source && Tokens(source, i).Some?
    ensures Literal(Tokens(source, i).value)
    decreases |source| - i
  {
    if i < |source| {
      if source[i] == '{' && !(i + 1 < |source| && source[i + 1] == '{') {
        SourceLiteral(source, IndexOf(source, i + 1, '}') + 1);
      } else if source[i] == '{' || source[i] == '}' {
        SourceLiteral(source, i + 2);
      } else {
        assert source[i] in source;
        SourceLiteral(source, i + 1);
      }
    }
  }

  // ----- Parse, then Render -----

  datatype Expansion = Refused | Expanded(output: Option<string>)

  /** What the program makes of a source: an accepted one renders as direct substitution, any other is refused. */
  method Expand(source: string, values: Values) returns (r: Expansion)
    ensures r == if Acceptable(source) && Tokens(source, 0).Some? then Expanded(Rendered(Tokens(source, 0).value, values))
                 else Refused
  {
    hide Rendered, Literal, Tokens;
    var parsed := Parse(source);
    if parsed.None? {
      return Refused;
    }
    SourceLiteral(source, 0);
    var output := Render(parsed.value, values, Tokens(source, 0).value);
    return Expanded(output);
  }

  /** Literal text survives: with its braces doubled it is expanded to itself, unless the doubled form is not acceptable. */
  method EscapedRenders(text: string, values: Values) returns (r: Expansion)
    ensures r == if Acceptable(Escaped(text)) then Expanded(Some(text)) else Refused
  {
    assert Escaped(text)[0..] == Escaped(text);
    EscapedTokens(Escaped(text), 0, text);
    BytesSubstituted(text, values);
    EscapedLonger(text);
    r := Expand(Escaped(text), values);
  }
}
