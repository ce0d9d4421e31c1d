/**
 How templates are written: names, placeholders and doubled braces. A source is
 accepted exactly when it is the written form of tokens, and these are then the
 tokens it is read as.
 */
module TemplateForms {
  import opened Options
  import opened Template

  // ----- Names -----

  predicate Letters(part: string) { forall c :: c in part ==> NameStart(c) || '0' <= c <= '9' }

  predicate Identifier(part: string) { part != "" && NameStart(part[0]) && Letters(part) }

  function Dotted(parts: seq<string>): string
    requires parts != []
  {
    if |parts| == 1 then parts[0] else parts[0] + "." + Dotted(parts[1..])
  }

  /** The first part may be the end of an identifier that has begun. */
  predicate Parts(parts: seq<string>, first: bool) {
    parts != [] && (if first then Identifier(parts[0]) else Letters(parts[0])) && forall k :: 1 <= k < |parts| ==> Identifier(parts[k])
  }

  /** A name is valid exactly when it consists of identifiers with dots between them. */
  lemma NameExactly(name: string)
    ensures ValidName(name) <==> exists parts: seq<string> :: Parts(parts, true) && Dotted(parts) == name
  {
    assert name[0..] == name;
    if ValidName(name) {
      var parts := NameSplit(name, 0, true);
      assert Dotted(parts) == name;
    }
    if exists parts: seq<string> :: Parts(parts, true) && Dotted(parts) == name {
      var parts: seq<string> :| Parts(parts, true) && Dotted(parts) == name;
      NameJoined(name, 0, true, parts);
    }
  }

  lemma {:induction false} NameSplit(name: string, i: nat, first: bool) returns (parts: seq<string>)
    requires i <= |name| && NameFrom(name, i, first)
    ensures Parts(parts, first) && Dotted(parts) == name[i..]
    decreases |name| - i
  {
    if i == |name| {
      parts := [""];
    } else {
      var c := name[i];
      var more := NameSplit(name, i + 1, c == '.');
      assert name[i..] == [c] + name[i + 1..];
      if c == '.' {
        parts := [""] + more;
        assert parts[1..] == more && "" + "." + Dotted(more) == "." + Dotted(more);
      } else {
        parts := [[c] + more[0]] + more[1..];
        PartGrows(c, more);
      }
    }
  }

  lemma PartGrows(c: char, parts: seq<string>)
    requires parts != []
    ensures Dotted([[c] + parts[0]] + parts[1..]) == [c] + Dotted(parts)
  {
    var grown := [[c] + parts[0]] + parts[1..];
    assert grown[1..] == parts[1..];
    if |parts| > 1 {
      assert ([c] + parts[0]) + "." + Dotted(parts[1..]) == [c] + (parts[0] + "." + Dotted(parts[1..]));
    }
  }

  lemma {:induction false} NameJoined(name: string, i: nat, first: bool, parts: seq<string>)
    requires i <= |name| && Parts(parts, first) && Dotted(parts) == name[i..]
    ensures NameFrom(name, i, first)
    decreases |name| - i
  {
    if parts[0] == "" {
      if |parts| > 1 {
        assert name[i..][0] == '.' && name[i..][1..] == Dotted(parts[1..]) == name[i + 1..];
        NameJoined(name, i + 1, true, parts[1..]);
      }
    } else {
      var c := parts[0][0];
      var more := [parts[0][1..]] + parts[1..];
      assert [[c] + more[0]] + more[1..] == parts by {
        assert [c] + more[0] == parts[0] && more[1..] == parts[1..];
      }
      PartGrows(c, more);
      assert name[i..][0] == c && name[i..][1..] == Dotted(more) == name[i + 1..];
      assert c in parts[0] && forall x :: x in parts[0][1..] ==> x in parts[0];
      NameJoined(name, i + 1, false, more);
    }
  }

  lemma {:induction false} NamePlain(name: string, i: nat, first: bool)
    requires i <= |name| && NameFrom(name, i, first)
    ensures forall k :: i <= k < |name| ==> name[k] !in {'{', '}', ':'}
    decreases |name| - i
  {
    if i < |name| {
      NamePlain(name, i + 1, name[i] == '.');
    }
  }

  // ----- Placeholders -----

  predicate Proper(t: Token) { t.Byte? || (ValidName(t.name) && '{' !in t.spec && '}' !in t.spec) }

  function Inside(name: string, spec: string): string { if spec == "" then name else name + ":" + spec }

  /** What stands between the braces determines the placeholder, and the other way round. */
  lemma FieldExactly(body: string, t: Token)
    requires '}' !in body
    ensures FieldOf(body) == Some(t) <==> t.Field? && Proper(t) && body == Inside(t.name, t.spec)
  {
    hide ValidName;
    var colon := IndexOf(body, 0, ':');
    if FieldOf(body) == Some(t) {
      assert body == if colon < |body| then body[..colon] + ":" + body[colon + 1..] else body[..colon];
      assert forall c :: c in t.spec ==> c in body;
    }
    if t.Field? && Proper(t) && body == Inside(t.name, t.spec) {
      ColonAt(t.name, t.spec);
      assert body[..colon] == t.name;
      if t.spec != "" {
        assert body[colon + 1..] == t.spec;
      }
    }
  }

  lemma ColonAt(name: string, spec: string)
    requires ValidName(name)
    ensures IndexOf(Inside(name, spec), 0, ':') == |name|
  {
    NamePlain(name, 0, true);
    var body, k := Inside(name, spec), IndexOf(Inside(name, spec), 0, ':');
    assert forall j :: 0 <= j < |name| ==> body[j] == name[j];
    if spec != "" {
      assert body[|name|] == ':';
    }
  }

  // ----- Sources -----

  function Written(t: Token): string {
    if t.Field? then "{" + Inside(t.name, t.spec) + "}"
    else if t.c == '{' || t.c == '}' then [t.c, t.c]
    else [t.c]
  }

  function Source(tokens: seq<Token>): string {
    if tokens == [] then "" else Written(tokens[0]) + Source(tokens[1..])
  }

  predicate AllProper(tokens: seq<Token>) { forall t :: t in tokens ==> Proper(t) }

  /** A source is read as tokens exactly when it is their written form: no other source has them, and it has no others. */
  lemma TokensExactly(source: string, tokens: seq<Token>)
    ensures Tokens(source, 0) == Some(tokens) <==> AllProper(tokens) && source == Source(tokens)
  {
    hide *;
    assert source[0..] == source;
    if Tokens(source, 0) == Some(tokens) {
      ReadWritten(source, 0, tokens);
    }
    if AllProper(tokens) && source == Source(tokens) {
      WrittenRead(source, 0, tokens);
    }
  }

  lemma {:induction false} WrittenRead(source: string, i: nat, tokens: seq<Token>)
    requires i <= |source| && AllProper(tokens) && source[i..] == Source(tokens)
    ensures Tokens(source, i) == Some(tokens)
    decreases |tokens|
  {
    hide Tokens, Proper, Written;
    if tokens == [] {
      assert i == |source|;
      TokensEnd(source, i);
    } else {
      var t, n := tokens[0], i + |Written(tokens[0])|;
      var rest := Source(tokens[1..]);
      assert |source[i..]| == |Written(t)| + |rest|;
      assert source[i..n] == source[i..][..n - i] == Written(t);
      assert source[n..] == source[i..][n - i..] == rest;
      assert forall x :: x in tokens[1..] ==> x in tokens;
      WrittenRead(source, n, tokens[1..]);
      OneRead(source, i, n, t);
      assert [t] + tokens[1..] == tokens;
    }
  }

  lemma TokensEnd(source: string, i: nat)
    requires i == |source|
    ensures Tokens(source, i) == Some([])
  {
  }

  lemma OneRead(source: string, i: nat, n: nat, t: Token)
    requires i <= n <= |source| && Proper(t) && source[i..n] == Written(t)
    ensures Tokens(source, i) == Prepend(Some(t), Tokens(source, n))
  {
    hide Prepend, ValidName, FieldOf;
    if t.Byte? {
      assert source[i..n][0] == source[i];
      assert n - i == 2 ==> source[i..n][1] == source[i + 1];
    } else {
      FieldAt(source, i, n, t);
      hide Proper, Written;
    }
  }

  lemma FieldAt(source: string, i: nat, n: nat, t: Token)
    requires i <= n <= |source| && t.Field? && Proper(t) && source[i..n] == Written(t)
    ensures n >= i + 3 && source[i] == '{' && source[i + 1] != '{'
    ensures IndexOf(source, i + 1, '}') == n - 1 && FieldOf(source[i + 1..n - 1]) == Some(t)
  {
    hide FieldOf, ValidName, Inside;
    var body := Inside(t.name, t.spec);
    InsidePlain(t.name, t.spec);
    Enclosed(source, i, n, body);
    FieldExactly(body, t);
    hide Proper, Written;
    assert forall k :: i + 1 <= k < n - 1 ==> source[k] in source[i + 1..n - 1];
  }

  lemma InsidePlain(name: string, spec: string)
    requires ValidName(name) && '{' !in spec && '}' !in spec
    ensures Inside(name, spec) != "" && '{' !in Inside(name, spec) && '}' !in Inside(name, spec)
  {
    NamePlain(name, 0, true);
    assert forall c :: c in Inside(name, spec) ==> c in name || c == ':' || c in spec;
  }

  lemma Enclosed(source: string, i: nat, n: nat, body: string)
    requires i <= n <= |source| && body != "" && '{' !in body && source[i..n] == "{" + body + "}"
    ensures n == i + |body| + 2 && source[i] == '{' && source[i + 1] != '{' && source[n - 1] == '}' && source[i + 1..n - 1] == body
  {
    var written := source[i..n];
    assert written[0] == source[i] && written[n - 1 - i] == source[n - 1];
    assert |written| == |body| + 2 && written[1..|body| + 1] == body;
    assert forall k :: 0 <= k < |body| ==> source[i + 1..n - 1][k] == source[i + 1 + k] == written[1 + k] == body[k];
    assert source[i + 1..n - 1] == body;
    assert body[0] in body && source[i + 1] == source[i + 1..n - 1][0];
  }

  lemma {:induction false} ReadWritten(source: string, i: nat, tokens: seq<Token>)
    requires i <= |source| && Tokens(source, i) == Some(tokens)
    ensures AllProper(tokens) && source[i..] == Source(tokens)
    decreases |source| - i
  {
    hide Tokens, Proper, Written;
    if i == |source| {
      TokensEnd(source, i);
    } else {
      var t, n := OneWritten(source, i);
      ReadWritten(source, n, tokens[1..]);
      assert source[i..] == source[i..n] + source[n..];
      assert tokens == [t] + tokens[1..];
    }
  }

  lemma OneWritten(source: string, i: nat) returns (t: Token, n: nat)
    requires i < |source| && Tokens(source, i).Some?
    ensures i < n <= |source| && Proper(t) && source[i..n] == Written(t) && Tokens(source, n).Some?
    ensures Tokens(source, i).value == [t] + Tokens(source, n).value
  {
    hide FieldOf, ValidName;
    if source[i] == '{' && !(i + 1 < |source| && source[i + 1] == '{') {
      var end := IndexOf(source, i + 1, '}');
      var body := source[i + 1..end];
      t, n := FieldOf(body).value, end + 1;
      FieldExactly(body, t);
      assert source[i..n] == "{" + body + "}";
    } else if source[i] == '{' || source[i] == '}' {
      t, n := Byte(source[i]), i + 2;
      assert source[i..n] == [source[i], source[i + 1]];
    } else {
      t, n := Byte(source[i]), i + 1;
      assert source[i..n] == [source[i]];
    }
  }

  // ----- Variables -----

  predicate Distinct(names: seq<string>) { forall i, j :: 0 <= i < j < |names| ==> names[i] != names[j] }

  /** The names are those of the placeholders, each once; of the placeholders up to some point they are the first ones. */
  lemma {:induction false} NamesExactly(fields: seq<Token>, m: nat)
    requires m <= |fields| && forall f :: f in fields ==> f.Field?
    ensures Distinct(Names(fields)) && forall x :: x in Names(fields) <==> exists k :: 0 <= k < |fields| && fields[k].name == x
    ensures Names(fields[..m]) <= Names(fields)
    decreases |fields|
  {
    if fields == [] {
      assert fields[..m] == [];
    } else {
      var n := |fields| - 1;
      var front, last := fields[..n], fields[n];
      assert fields == front + [last] && last in fields;
      NamesAppend(front, last);
      NamesExactly(front, if m < |fields| then m else n);
      if m < |fields| {
        assert front[..m] == fields[..m];
      } else {
        assert fields[..m] == fields;
      }
    }
  }
}
