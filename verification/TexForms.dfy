/**
 How option lists may be written: padded keys and values, values with and
 without braces, fields without a value, several groups, and bracket groups in
 which whole brace groups stand.
 */
module TexForms {
  import opened Options
  import opened TexMask
  import opened TexOptions

  // ----- White space -----

  predicate Spaces(s: string) { forall c :: c in s ==> Space(c) }

  lemma {:induction false} LeftPadding(front: string, s: string)
    requires Spaces(front) && (s == "" || !Space(s[0]))
    ensures TrimLeft(front + s) == s
    decreases |front|
  {
    if front == "" {
      assert front + s == s;
    } else {
      assert front[0] in front && forall c :: c in front[1..] ==> c in front;
      assert (front + s)[1..] == front[1..] + s;
      LeftPadding(front[1..], s);
    }
  }

  lemma {:induction false} RightPadding(s: string, back: string)
    requires Spaces(back) && (s == "" || !Space(s[|s| - 1]))
    ensures TrimRight(s + back) == s
    decreases |back|
  {
    if back == "" {
      assert s + back == s;
    } else {
      var n := |back| - 1;
      assert back[n] in back && forall c :: c in back[..n] ==> c in back;
      assert (s + back)[..|s + back| - 1] == s + back[..n];
      RightPadding(s, back[..n]);
    }
  }

  /** White space around a text without any at its ends is trimmed, and nothing else. */
  lemma PaddingTrimmed(front: string, s: string, back: string)
    requires Spaces(front) && Spaces(back) && Trimmed(s)
    ensures Trim(front + s + back) == s
  {
    if s == "" {
      assert front + s + back == (front + back) + "";
      assert forall c :: c in front + back ==> c in front || c in back;
      LeftPadding(front + back, "");
    } else {
      assert front + s + back == front + (s + back);
      LeftPadding(front, s + back);
      RightPadding(s, back);
    }
  }

  // ----- Values -----

  predicate Wrapped(v: string) { |v| >= 2 && v[0] == '{' && v[|v| - 1] == '}' && Closed(v[1..|v| - 1], 0) }

  /** A value that is not all in one pair of braces is read as it stands, braces inside included. */
  lemma UnwrapPlain(front: string, v: string, back: string)
    requires Spaces(front) && Spaces(back) && Trimmed(v)
    ensures Unwrap(front + v + back) == if Wrapped(v) then Trim(v[1..|v| - 1]) else v
  {
    PaddingTrimmed(front, v, back);
    hide Trim, Closed;
    if v != "" && v[0] == '{' {
      GroupExact(v, 1, 1, |v|);
      assert Wrapped(v) <==> |v| >= 2 && v[|v| - 1] == '}' && Closed(v[1..|v| - 1], 0);
    }
  }

  lemma CutAt(key: string, rest: string)
    requires '=' !in key
    ensures IndexAny(key + "=" + rest, 0, {'='}) == |key|
    ensures IndexAny(key, 0, {'='}) == |key|
  {
    var field := key + "=" + rest;
    assert field[|key|] == '=';
    assert forall k :: 0 <= k < |key| ==> field[k] == key[k] && key[k] in key;
    assert forall k :: 0 <= k < |key| ==> key[k] in key;
  }

  /** A field is read as its key and its value, the white space around both left out. */
  lemma FieldRead(a: string, key: string, b: string, c: string, v: string, d: string)
    requires Spaces(a) && Spaces(b) && Spaces(c) && Spaces(d) && Trimmed(key) && Trimmed(v)
    requires key != "" && '=' !in key
    ensures ParseField(a + key + b + "=" + (c + v + d)) == Some(Setting(key, if Wrapped(v) then Trim(v[1..|v| - 1]) else v))
    ensures ParseField(a + key + b) == Some(Setting(key, ""))
  {
    assert '=' !in a + key + b by {
      assert forall x :: x in a + key + b ==> x in a || x in key || x in b;
    }
    CutAt(a + key + b, c + v + d);
    PaddingTrimmed(a, key, b);
    UnwrapPlain(c, v, d);
    hide Trim, Unwrap, IndexAny, Wrapped;
    var field := a + key + b + "=" + (c + v + d);
    assert field[..|a + key + b|] == a + key + b && field[|a + key + b| + 1..] == c + v + d;
    assert (a + key + b)[..|a + key + b|] == a + key + b;
    assert Unwrap("") == "" by { UnwrapNothing(); }
  }

  lemma UnwrapNothing()
    ensures Unwrap("") == ""
  {
  }

  /** A field without a key is no setting. */
  lemma NoKey(a: string, rest: string)
    requires Spaces(a)
    ensures ParseField(a + "=" + rest) == None && ParseField(a) == None
  {
    assert '=' !in a;
    CutAt(a, rest);
    PaddingTrimmed(a, "", "");
    hide Trim, Unwrap, IndexAny;
    assert a + "" + "" == a;
    assert (a + "=" + rest)[..|a|] == a && a[..|a|] == a;
  }

  // ----- Lists and groups -----

  lemma {:induction false} FieldsTogether(first: seq<string>, second: seq<string>)
    ensures ParseFields(first + second) == ParseFields(first) + ParseFields(second)
    decreases |first|
  {
    hide ParseFields, Heads;
    FieldsCons(first);
    FieldsCons(first + second);
    if first == [] {
      assert first + second == second;
    } else {
      TailTogether(first, second);
      FieldsTogether(first[1..], second);
      Associates(Heads(first[0]), ParseFields(first[1..]), ParseFields(second));
    }
  }

  lemma TailTogether(first: seq<string>, second: seq<string>)
    requires first != []
    ensures first + second != [] && (first + second)[0] == first[0] && (first + second)[1..] == first[1..] + second
  {
  }

  lemma Associates(a: seq<Setting>, b: seq<Setting>, c: seq<Setting>)
    ensures a + (b + c) == a + b + c
  {
  }

  function Heads(field: string): seq<Setting> { if ParseField(field).Some? then [ParseField(field).value] else [] }

  lemma FieldsCons(fields: seq<string>)
    ensures ParseFields(fields) == if fields == [] then [] else Heads(fields[0]) + ParseFields(fields[1..])
  {
    hide ParseField;
  }

  /** The settings of several groups are those of each, in order. */
  lemma {:induction false} GroupsTogether(first: seq<string>, second: seq<string>)
    ensures ParseGroups(first + second) == ParseGroups(first) + ParseGroups(second)
    decreases |first|
  {
    hide ParseFields, Split, Trim, Kept;
    if first == [] {
      assert first + second == second;
    } else {
      assert (first + second)[1..] == first[1..] + second;
      GroupsTogether(first[1..], second);
    }
  }

  // ----- Bracket groups -----

  /** The text closes the d bracket groups around it, where whole brace groups may stand, whatever brackets they hold. */
  predicate Bracketed(s: string, d: nat)
    decreases |s|
  {
    if s == "" then d == 0
    else if s[0] == '\\' then |s| > 1 && Bracketed(s[2..], d)
    else if s[0] == '{' then exists k :: 1 <= k < |s| && s[k] == '}' && Closed(s[1..k], 0) && Bracketed(s[k + 1..], d)
    else if s[0] == '[' then Bracketed(s[1..], d + 1)
    else if s[0] == ']' then d > 0 && Bracketed(s[1..], d - 1)
    else Bracketed(s[1..], d)
  }

  /** The scan finds the end of a bracket group exactly when the text up to its bracket is closed in that sense. */
  lemma {:induction false} BracketExact(text: string, i: nat, d: nat, n: nat)
    requires i <= |text| && d > 0
    ensures GroupEnd(text, i, d, '[', ']') == Some(n) <==> i < n <= |text| && text[n - 1] == ']' && Bracketed(text[i..n - 1], d - 1)
    decreases |text| - i
  {
    if i == |text| {
    } else if text[i] == '\\' {
      if i < n <= |text| && text[n - 1] == ']' {
        BracketEscape(text, i, d, n);
      }
      if i + 2 <= |text| {
        BracketExact(text, i + 2, d, n);
      }
    } else if text[i] == '{' {
      var inner := GroupEnd(text, i + 1, 1, '{', '}');
      if inner.Some? {
        BracketExact(text, inner.value, d, n);
      }
      if i < n <= |text| && text[n - 1] == ']' {
        BracketGroup(text, i, d, n, inner);
      }
    } else if text[i] == ']' && d == 1 {
      if i + 1 < n <= |text| {
        assert text[i..n - 1][0] == ']';
      }
    } else {
      BracketExact(text, i + 1, if text[i] == '[' then d + 1 else if text[i] == ']' then d - 1 else d, n);
      if i + 1 < n <= |text| {
        assert text[i..n - 1][1..] == text[i + 1..n - 1];
      }
    }
  }

  lemma BracketEscape(text: string, i: nat, d: nat, n: nat)
    requires i < n <= |text| && d > 0 && text[i] == '\\' && text[n - 1] == ']'
    ensures Bracketed(text[i..n - 1], d - 1) <==> i + 2 < n && Bracketed(text[i + 2..n - 1], d - 1)
  {
    if i + 2 < n {
      assert text[i..n - 1][2..] == text[i + 2..n - 1];
    }
  }

  /** A brace group inside is skipped as a whole. */
  lemma BracketGroup(text: string, i: nat, d: nat, n: nat, inner: Option<nat>)
    requires i < n <= |text| && d > 0 && text[i] == '{' && text[n - 1] == ']' && inner == GroupEnd(text, i + 1, 1, '{', '}')
    ensures Bracketed(text[i..n - 1], d - 1) <==> inner.Some? && inner.value < n && Bracketed(text[inner.value..n - 1], d - 1)
  {
    hide *;
    if Bracketed(text[i..n - 1], d - 1) {
      GroupIn(text, i, d, n, inner);
    }
    if inner.Some? && inner.value < n && Bracketed(text[inner.value..n - 1], d - 1) {
      GroupOut(text, i, d, n, inner.value);
    }
  }

  lemma GroupIn(text: string, i: nat, d: nat, n: nat, inner: Option<nat>)
    requires i < n <= |text| && d > 0 && text[i] == '{' && text[n - 1] == ']' && inner == GroupEnd(text, i + 1, 1, '{', '}')
    requires Bracketed(text[i..n - 1], d - 1)
    ensures inner.Some? && inner.value < n && Bracketed(text[inner.value..n - 1], d - 1)
  {
    hide *;
    var s := text[i..n - 1];
    assert s != "" && s[0] == '{' by {
      assert text[i] != text[n - 1];
    }
    var k := BracketOpens(s, d - 1);
    InnerAt(text, i, n, k);
  }

  lemma GroupOut(text: string, i: nat, d: nat, n: nat, end: nat)
    requires i < n <= |text| && d > 0 && text[i] == '{' && text[n - 1] == ']' && GroupEnd(text, i + 1, 1, '{', '}') == Some(end)
    requires end < n && Bracketed(text[end..n - 1], d - 1)
    ensures Bracketed(text[i..n - 1], d - 1)
  {
    hide *;
    assert i + 1 < end by { GroupPast(text, i + 1, end); }
    InnerAt(text, i, n, end - 1 - i);
    BracketCloses(text[i..n - 1], d - 1, end - 1 - i);
  }

  lemma GroupPast(text: string, i: nat, end: nat)
    requires i <= |text| && GroupEnd(text, i, 1, '{', '}') == Some(end)
    ensures i < end
  {
    GroupExact(text, i, 1, end);
  }

  predicate Closes(s: string, k: nat)
    requires 1 <= k < |s|
  {
    s[k] == '}' && Closed(s[1..k], 0)
  }

  lemma BracketOpens(s: string, d: nat) returns (k: nat)
    requires s != "" && s[0] == '{' && Bracketed(s, d)
    ensures 1 <= k < |s| && Closes(s, k) && Bracketed(s[k + 1..], d)
  {
    hide Closed;
    k :| 1 <= k < |s| && s[k] == '}' && Closed(s[1..k], 0) && Bracketed(s[k + 1..], d);
  }

  lemma BracketCloses(s: string, d: nat, k: nat)
    requires s != "" && s[0] == '{' && 1 <= k < |s| && Closes(s, k) && Bracketed(s[k + 1..], d)
    ensures Bracketed(s, d)
  {
    hide Closed;
  }

  lemma InnerAt(text: string, i: nat, n: nat, k: nat)
    requires i < n <= |text| && 1 <= k < n - 1 - i
    ensures var s := text[i..n - 1];
      (Closes(s, k) <==> GroupEnd(text, i + 1, 1, '{', '}') == Some(i + k + 1)) && s[k + 1..] == text[i + k + 1..n - 1]
  {
    var s := text[i..n - 1];
    assert s[k] == text[i + k] && |s[1..k]| == |text[i + 1..i + k]|;
    assert forall m :: 0 <= m < k - 1 ==> s[1..k][m] == text[i + 1 + m];
    assert s[1..k] == text[i + 1..i + k];
    GroupExact(text, i + 1, 1, i + k + 1);
  }
}
