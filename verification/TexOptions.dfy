/**
 Option lists of TeX commands: splitting at the commas outside braces, key and
 value parsing, and the end of an inline plot.  What counts as outside braces is
 defined by the nesting depth of a prefix, apart from the scanning loops.
 */
module TexOptions {
  import opened Options
  import opened TexMask

  // ----- Nesting -----

  /** The brace depth after the text; escaped characters and stray closing braces do not count.  None inside an escape. */
  function Depth(s: string, d: nat): Option<nat>
    decreases |s|
  {
    if s == "" then Some(d)
    else if s[0] == '\\' then if |s| == 1 then None else Depth(s[2..], d)
    else if s[0] == '{' then Depth(s[1..], d + 1)
    else if s[0] == '}' then Depth(s[1..], if d == 0 then 0 else d - 1)
    else Depth(s[1..], d)
  }

  /** The text closes the d groups around it and no other, and every brace it opens. */
  predicate Closed(s: string, d: nat)
    decreases |s|
  {
    if s == "" then d == 0
    else if s[0] == '\\' then |s| > 1 && Closed(s[2..], d)
    else if s[0] == '{' then Closed(s[1..], d + 1)
    else if s[0] == '}' then d > 0 && Closed(s[1..], d - 1)
    else Closed(s[1..], d)
  }

  predicate TopLevel(s: string, k: nat, mark: char) { k < |s| && s[k] == mark && Depth(s[..k], 0) == Some(0) }

  predicate Mark(c: char) { c == ',' || c == ';' }

  lemma {:induction false} DepthAppend(a: string, b: string, d: nat)
    requires Depth(a, d).Some?
    ensures Depth(a + b, d) == Depth(b, Depth(a, d).value)
    decreases |a|
  {
    if a == "" {
      assert a + b == b;
    } else if a[0] == '\\' {
      assert (a + b)[2..] == a[2..] + b;
      DepthAppend(a[2..], b, d);
    } else {
      assert (a + b)[1..] == a[1..] + b;
      DepthAppend(a[1..], b, if a[0] == '{' then d + 1 else if a[0] == '}' && d > 0 then d - 1 else d);
    }
  }

  lemma {:induction false} ClosedDepth(s: string, d: nat, around: nat)
    requires Closed(s, d)
    ensures Depth(s, d + around) == Some(around)
    decreases |s|
  {
    if s == "" {
    } else if s[0] == '\\' {
      ClosedDepth(s[2..], d, around);
    } else {
      ClosedDepth(s[1..], if s[0] == '{' then d + 1 else if s[0] == '}' then d - 1 else d, around);
    }
  }

  /** Inside a closed text, everything is at least as deep as the text around it. */
  lemma {:induction false} ClosedInside(s: string, d: nat, around: nat, k: nat)
    requires Closed(s, d) && k <= |s|
    ensures var depth := Depth(s[..k], d + around); depth.Some? ==> depth.value >= around
    decreases |s|
  {
    if k == 0 {
    } else if s[0] == '\\' {
      if k >= 2 {
        assert s[..k][2..] == s[2..][..k - 2];
        ClosedInside(s[2..], d, around, k - 2);
      } else {
        assert |s[..k]| == 1;
      }
    } else {
      assert s[..k][1..] == s[1..][..k - 1];
      ClosedInside(s[1..], if s[0] == '{' then d + 1 else if s[0] == '}' then d - 1 else d, around, k - 1);
    }
  }

  /** The scan finds the end of a group exactly when the text up to the closing brace is closed. */
  lemma {:induction false} GroupExact(text: string, i: nat, d: nat, n: nat)
    requires i <= |text| && d > 0
    ensures GroupEnd(text, i, d, '{', '}') == Some(n) <==> i < n <= |text| && text[n - 1] == '}' && Closed(text[i..n - 1], d - 1)
    decreases |text| - i
  {
    if i == |text| {
    } else if text[i] == '\\' {
      if i + 2 <= |text| {
        GroupExact(text, i + 2, d, n);
      }
      if i + 2 < n <= |text| {
        assert text[i..n - 1][2..] == text[i + 2..n - 1];
      } else if i + 2 == n <= |text| {
        assert |text[i..n - 1]| == 1;
      }
    } else if text[i] == '}' && d == 1 {
      if i + 1 < n <= |text| {
        assert text[i..n - 1][0] == '}';
      }
    } else {
      GroupExact(text, i + 1, if text[i] == '{' then d + 1 else if text[i] == '}' then d - 1 else d, n);
      if i + 1 < n <= |text| {
        assert text[i..n - 1][1..] == text[i + 1..n - 1];
      }
    }
  }

  // ----- The next mark outside braces -----

  function Seek(s: string, i: nat, d: nat, mark: char): (k: nat)
    ensures k <= |s| && (k < |s| ==> i <= k)
    decreases |s| - i
  {
    if i >= |s| then |s|
    else if s[i] == '\\' then Seek(s, i + 2, d, mark)
    else if s[i] == '{' then Seek(s, i + 1, d + 1, mark)
    else if s[i] == '}' then Seek(s, i + 1, if d == 0 then 0 else d - 1, mark)
    else if s[i] == mark && d == 0 then i
    else Seek(s, i + 1, d, mark)
  }

  /** It is the first one at depth zero. */
  lemma {:induction false} SeekFirst(s: string, i: nat, d: nat, mark: char)
    requires i <= |s| && Depth(s[..i], 0) == Some(d) && Mark(mark)
    ensures var k := Seek(s, i, d, mark);
      (k < |s| ==> TopLevel(s, k, mark)) && forall j :: i <= j < k ==> !TopLevel(s, j, mark)
    decreases |s| - i
  {
    if i == |s| {
    } else {
      assert s[..i + 1] == s[..i] + [s[i]];
      DepthAppend(s[..i], [s[i]], 0);
      if s[i] == '\\' {
        if i + 2 <= |s| {
          assert s[..i + 2] == s[..i] + s[i..i + 2];
          DepthAppend(s[..i], s[i..i + 2], 0);
          SeekFirst(s, i + 2, d, mark);
        }
      } else if s[i] == mark && d == 0 {
      } else {
        assert [s[i]][1..] == "";
        SeekFirst(s, i + 1, if s[i] == '{' then d + 1 else if s[i] == '}' && d > 0 then d - 1 else d, mark);
      }
    }
  }

  /** A whole group may be skipped, and after an open one there is no further mark. */
  lemma {:induction false} SeekGroup(s: string, i: nat, d: nat, mark: char)
    requires d > 0
    ensures var n := GroupEnd(s, i, d, '{', '}'); Seek(s, i, d, mark) == if n.Some? then Seek(s, n.value, 0, mark) else |s|
    decreases |s| - i
  {
    if i >= |s| {
    } else if s[i] == '\\' {
      SeekGroup(s, i + 2, d, mark);
    } else if s[i] == '}' && d == 1 {
    } else {
      SeekGroup(s, i + 1, if s[i] == '{' then d + 1 else if s[i] == '}' then d - 1 else d, mark);
    }
  }

  lemma {:induction false} SeekShift(front: string, s: string, i: nat, d: nat, mark: char)
    requires Mark(mark)
    ensures Seek(front + s, |front| + i, d, mark) == |front| + Seek(s, i, d, mark)
    decreases |s| - i
  {
    assert i < |s| ==> (front + s)[|front| + i] == s[i];
    if i >= |s| {
    } else if s[i] == '\\' {
      SeekShift(front, s, i + 2, d, mark);
    } else if s[i] == mark && d == 0 {
    } else {
      SeekShift(front, s, i + 1, if s[i] == '{' then d + 1 else if s[i] == '}' && d > 0 then d - 1 else d, mark);
    }
  }

  /** The plot ends behind the first semicolon outside braces. */
  method PlotEnd(text: string, start: nat) returns (end: nat)
    requires start <= |text|
    ensures var k := Seek(text, start, 0, ';'); end == if k < |text| then k + 1 else |text|
  {
    var cursor := start;
    while cursor < |text|
      invariant Seek(text, start, 0, ';') == Seek(text, cursor, 0, ';')
      decreases |text| - cursor
    {
      if text[cursor] == ';' {
        return cursor + 1;
      }
      if text[cursor] == '\\' {
        cursor := cursor + 2;
      } else if text[cursor] == '{' {
        SeekGroup(text, cursor + 1, 1, ';');
        var next := Balanced(text, cursor, '{', '}');
        if next.None? {
          return |text|;
        }
        cursor := next.value;
      } else {
        cursor := cursor + 1;
      }
    }
    return |text|;
  }

  lemma PlotExactly(text: string, start: nat)
    requires start <= |text|
    ensures var k := Seek(text, start, 0, ';'); var plot := text[start..];
      (k < |text| ==> TopLevel(plot, k - start, ';')) && forall j :: 0 <= j < k - start ==> !TopLevel(plot, j, ';')
  {
    var front, plot := text[..start], text[start..];
    assert text == front + plot && plot[..0] == "";
    SeekShift(front, plot, 0, 0, ';');
    SeekFirst(plot, 0, 0, ';');
  }

  // ----- Splitting -----

  function Split(value: string): (fields: seq<string>)
    ensures |fields| > 0
    decreases |value|
  {
    var k := Seek(value, 0, 0, ',');
    if k == |value| then [value] else [value[..k]] + Split(value[k + 1..])
  }

  /** What is still to come when the current field began at `start` and the scan has reached i. */
  ghost function Rest(value: string, start: nat, i: nat): seq<string>
    requires start <= |value| && start <= i
  {
    var k := Seek(value, i, 0, ',');
    if k == |value| then [value[start..]] else [value[start..k]] + Split(value[k + 1..])
  }

  lemma RestIsSplit(value: string, start: nat)
    requires start <= |value|
    ensures Rest(value, start, start) == Split(value[start..])
  {
    var front, back := value[..start], value[start..];
    assert value == front + back;
    SeekShift(front, back, 0, 0, ',');
    var k := Seek(back, 0, 0, ',');
    if k < |back| {
      assert value[start..start + k] == back[..k] && value[start + k + 1..] == back[k + 1..];
    }
  }

  lemma RestSame(value: string, start: nat, i: nat, i': nat)
    requires start <= |value| && start <= i <= i' && Seek(value, i, 0, ',') == Seek(value, i', 0, ',')
    ensures Rest(value, start, i) == Rest(value, start, i')
  {
    hide Split, Seek;
  }

  lemma RestComma(value: string, start: nat, i: nat)
    requires start <= i < |value| && value[i] == ','
    ensures Rest(value, start, i) == [value[start..i]] + Rest(value, i + 1, i + 1)
  {
    hide Split;
    RestIsSplit(value, i + 1);
    assert Seek(value, i, 0, ',') == i;
  }

  lemma RestEnds(value: string, start: nat, i: nat)
    requires start <= |value| && start <= i && Seek(value, i, 0, ',') == |value|
    ensures Rest(value, start, i) == [value[start..]]
  {
    hide Split, Seek;
  }

  method SplitOptions(value: string) returns (options: seq<string>)
    ensures options == Split(value)
  {
    hide Rest, Split;
    options := [];
    var start, i := 0, 0;
    assert value[0..] == value;
    RestIsSplit(value, 0);
    while i < |value|
      invariant start <= i && start <= |value| && options + Rest(value, start, i) == Split(value)
      decreases |value| - i
    {
      if value[i] == '\\' {
        RestSame(value, start, i, i + 2);
        i := i + 2;
      } else if value[i] == '{' {
        SeekGroup(value, i + 1, 1, ',');
        var next := Balanced(value, i, '{', '}');
        if next.None? {
          RestEnds(value, start, i);
          return options + [value[start..]];
        }
        RestSame(value, start, i, next.value);
        i := next.value;
      } else if value[i] == ',' {
        RestComma(value, start, i);
        options := options + [value[start..i]];
        start, i := i + 1, i + 1;
      } else {
        RestSame(value, start, i, i + 1);
        i := i + 1;
      }
    }
    RestEnds(value, start, i);
    options := options + [value[start..]];
  }

  function Join(fields: seq<string>): string
    requires |fields| > 0
  {
    if |fields| == 1 then fields[0] else fields[0] + "," + Join(fields[1..])
  }

  /** No comma of the field is outside braces. */
  predicate Whole(field: string) { forall k :: 0 <= k < |field| ==> !TopLevel(field, k, ',') }

  /** Fields that commas keep apart: each is whole, and all but the last leave no brace or escape open. */
  predicate Separable(fields: seq<string>) {
    |fields| > 0 && (forall i :: 0 <= i < |fields| ==> Whole(fields[i])) &&
    forall i :: 0 <= i < |fields| - 1 ==> Depth(fields[i], 0) == Some(0)
  }

  lemma {:induction false} JoinSplit(value: string)
    ensures Join(Split(value)) == value
    decreases |value|
  {
    var k := Seek(value, 0, 0, ',');
    if k < |value| {
      JoinSplit(value[k + 1..]);
      SeekMark(value);
      var fields := Split(value);
      assert fields[1..] == Split(value[k + 1..]);
      assert value == value[..k] + [value[k]] + value[k + 1..];
    }
  }

  lemma SeekMark(value: string)
    ensures var k := Seek(value, 0, 0, ',');
      Whole(value[..k]) && (k < |value| ==> value[k] == ',' && Depth(value[..k], 0) == Some(0))
  {
    var k := Seek(value, 0, 0, ',');
    assert value[..0] == "";
    SeekFirst(value, 0, 0, ',');
    forall j | 0 <= j < k ensures !TopLevel(value[..k], j, ',') {
      assert value[..k][..j] == value[..j];
      assert !TopLevel(value, j, ',');
    }
  }

  lemma {:induction false} SplitSeparable(value: string)
    ensures Separable(Split(value))
    decreases |value|
  {
    SeekMark(value);
    var k := Seek(value, 0, 0, ',');
    if k < |value| {
      SplitSeparable(value[k + 1..]);
      var fields, rest := Split(value), Split(value[k + 1..]);
      assert fields == [value[..k]] + rest;
    } else {
      assert value[..k] == value;
    }
  }

  lemma {:induction false} SplitJoin(fields: seq<string>)
    requires Separable(fields)
    ensures Split(Join(fields)) == fields
    decreases |fields|
  {
    var value, first := Join(fields), fields[0];
    if |fields| == 1 {
      FirstSeek(value, value);
      assert fields == [value];
    } else {
      var rest := fields[1..];
      SplitJoin(rest);
      assert value[..|first|] == first && value[|first|] == ',' && value[|first| + 1..] == Join(rest);
      FirstSeek(value, first);
      assert fields == [first] + rest;
    }
  }

  /** A whole field is passed over up to the comma behind it. */
  lemma FirstSeek(value: string, first: string)
    requires Whole(first) && |first| <= |value| && value[..|first|] == first
    requires |first| < |value| ==> value[|first|] == ',' && Depth(first, 0) == Some(0)
    ensures Seek(value, 0, 0, ',') == |first|
  {
    var k := Seek(value, 0, 0, ',');
    assert value[..0] == "";
    SeekFirst(value, 0, 0, ',');
    if k < |first| {
      assert first[..k] == value[..k];
      assert TopLevel(first, k, ',');
    }
    if |first| < k {
      assert TopLevel(value, |first|, ',');
    }
  }

  /** Splitting gives the one way to read the text as fields that commas keep apart. */
  lemma SplitExactly(value: string, fields: seq<string>)
    requires |fields| > 0
    ensures fields == Split(value) <==> Join(fields) == value && Separable(fields)
  {
    JoinSplit(value);
    SplitSeparable(value);
    if Separable(fields) {
      SplitJoin(fields);
    }
  }

  // ----- Keys and values -----

  /** The white space of Unicode. */
  predicate Space(c: char) {
    c == ' ' || '\t' <= c <= '\r' || c == '\U{85}' || c == '\U{A0}' || c == '\U{1680}' || '\U{2000}' <= c <= '\U{200A}' ||
    c == '\U{2028}' || c == '\U{2029}' || c == '\U{202F}' || c == '\U{205F}' || c == '\U{3000}'
  }

  function TrimLeft(s: string): string { if s != "" && Space(s[0]) then TrimLeft(s[1..]) else s }
  function TrimRight(s: string): string { if s != "" && Space(s[|s| - 1]) then TrimRight(s[..|s| - 1]) else s }
  function Trim(s: string): string { TrimRight(TrimLeft(s)) }

  predicate Trimmed(s: string) { s == "" || (!Space(s[0]) && !Space(s[|s| - 1])) }

  function Unwrap(value: string): string {
    var v := Trim(value);
    if v != "" && v[0] == '{' && GroupEnd(v, 1, 1, '{', '}') == Some(|v|) then Trim(v[1..|v| - 1]) else v
  }

  /** Braces come off exactly when they enclose the whole value. */
  lemma UnwrapExactly(inner: string)
    ensures Unwrap("{" + inner + "}") == if Closed(inner, 0) then Trim(inner) else "{" + inner + "}"
  {
    var v := "{" + inner + "}";
    assert Trim(v) == v;
    GroupExact(v, 1, 1, |v|);
    assert v[1..|v| - 1] == inner;
  }

  /** A comment continuation leaves no trace in an argument. */
  function Continued(s: string, comment: bool): string {
    if s == "" then ""
    else if s[0] == NUL then Continued(s[1..], true)
    else if s[0] == '\n' && comment then Continued(s[1..], true)
    else [s[0]] + Continued(s[1..], false)
  }

  /** A hidden byte, or a line end with nothing but hidden bytes and line ends between it and a hidden byte before it. */
  predicate Dropped(s: string, k: nat)
    requires k < |s|
  {
    s[k] == NUL || (s[k] == '\n' && exists j :: 0 <= j < k && s[j] == NUL && HiddenRun(s, j, k))
  }

  predicate HiddenRun(s: string, j: nat, k: nat)
    requires j <= k <= |s|
  {
    forall m :: j <= m < k ==> s[m] == NUL || s[m] == '\n'
  }

  /** What is left from position i on. */
  function Kept(s: string, i: nat): string
    requires i <= |s|
    decreases |s| - i
  {
    if i == |s| then "" else (if Dropped(s, i) then "" else [s[i]]) + Kept(s, i + 1)
  }

  /** Exactly those bytes are dropped. */
  lemma ContinuedKeeps(s: string)
    ensures Continued(s, false) == Kept(s, 0)
  {
    assert s[0..] == s;
    KeepsFrom(s, 0, false);
  }

  lemma {:induction false} KeepsFrom(s: string, i: nat, comment: bool)
    requires i <= |s|
    requires comment <==> exists j :: 0 <= j < i && s[j] == NUL && HiddenRun(s, j, i)
    ensures Continued(s[i..], comment) == Kept(s, i)
    decreases |s| - i
  {
    if i < |s| {
      assert s[i..][1..] == s[i + 1..] && s[i..][0] == s[i];
      if s[i] == NUL {
        assert HiddenRun(s, i, i + 1);
        KeepsFrom(s, i + 1, true);
      } else if s[i] == '\n' && comment {
        var j :| 0 <= j < i && s[j] == NUL && HiddenRun(s, j, i);
        assert HiddenRun(s, j, i + 1);
        KeepsFrom(s, i + 1, true);
      } else {
        forall j | 0 <= j < i + 1 && s[j] == NUL ensures !HiddenRun(s, j, i + 1) {
          assert HiddenRun(s, j, i + 1) ==> j < i && HiddenRun(s, j, i);
        }
        KeepsFrom(s, i + 1, false);
      }
    }
  }

  /**
   An argument cut out of the masked text: what normalizing keeps is the source
   at the same offset, or the blank that stands for a byte of a literal; what it
   drops is a byte of a comment or of the indent behind it, or a line end that
   only such bytes separate from it.  A NUL of the source itself, unless a literal
   blanks it, passes for such a byte, and the line ends behind it go with it.
   */
  lemma ArgumentOfMask(text: string, registry: set<string>, a: nat, b: nat, k: nat)
    requires a <= b <= |text| && k < b - a
    ensures |Mask(text, 0, registry)| == |text|
    ensures var argument := Mask(text, 0, registry)[a..b];
      if Dropped(argument, k) then
        (argument[k] == NUL && text[a + k] != '\n') ||
        (text[a + k] == '\n' && exists j :: 0 <= j < k && argument[j] == NUL && text[a + j] != '\n' && HiddenRun(argument, j, k))
      else argument[k] == text[a + k] || (argument[k] == ' ' && text[a + k] != '\n')
    ensures var argument := Mask(text, 0, registry)[a..b];
      text[a + k] == NUL ==> argument[k] == ' ' || Dropped(argument, k)
  {
    LinesKept(text, registry);
    var masked := Mask(text, 0, registry);
    var argument := masked[a..b];
    assert forall m :: 0 <= m < b - a ==> argument[m] == masked[a + m];
  }

  method NormalizeArgument(value: string) returns (out: string)
    ensures out == Trim(Kept(value, 0))
  {
    out := "";
    var comment := false;
    for i := 0 to |value|
      invariant out + Continued(value[i..], comment) == Continued(value, false)
    {
      assert value[i..][1..] == value[i + 1..];
      if value[i] == NUL {
        comment := true;
      } else if value[i] == '\n' && comment {
      } else {
        comment := false;
        assert out + ([value[i]] + Continued(value[i + 1..], false)) == out + [value[i]] + Continued(value[i + 1..], false);
        out := out + [value[i]];
      }
    }
    assert value[|value|..] == "" && out + "" == out;
    ContinuedKeeps(value);
    return Trim(out);
  }

  datatype Setting = Setting(key: string, value: string)

  function ParseField(field: string): Option<Setting> {
    var cut := IndexAny(field, 0, {'='});
    var key := Trim(field[..cut]);
    if key == "" then None else Some(Setting(key, Unwrap(if cut < |field| then field[cut + 1..] else "")))
  }

  function ParseFields(fields: seq<string>): seq<Setting> {
    if fields == [] then []
    else (if ParseField(fields[0]).Some? then [ParseField(fields[0]).value] else []) + ParseFields(fields[1..])
  }

  function ParseGroups(groups: seq<string>): seq<Setting> {
    if groups == [] then [] else ParseFields(Split(Trim(Kept(groups[0], 0)))) + ParseGroups(groups[1..])
  }

  method ParseOptions(groups: seq<string>) returns (result: seq<Setting>)
    ensures result == ParseGroups(groups)
  {
    hide ParseFields, Split, Trim, Kept;
    result := [];
    for i := 0 to |groups|
      invariant result + ParseGroups(groups[i..]) == ParseGroups(groups)
    {
      var argument := NormalizeArgument(groups[i]);
      var fields := SplitOptions(argument);
      var parsed := Settings(fields);
      ghost var rest := ParseGroups(groups[i + 1..]);
      assert groups[i..][0] == groups[i] && groups[i..][1..] == groups[i + 1..];
      assert ParseGroups(groups[i..]) == parsed + rest;
      assert result + (parsed + rest) == result + parsed + rest;
      result := result + parsed;
    }
    assert result + [] == result;
  }

  lemma NextField(result: seq<Setting>, fields: seq<string>, k: nat)
    requires k < |fields|
    ensures var field := ParseField(fields[k]);
      result + ParseFields(fields[k..]) ==
      (if field.Some? then result + [field.value] else result) + ParseFields(fields[k + 1..])
  {
    hide ParseField;
    assert fields[k..][1..] == fields[k + 1..];
    var field, rest := ParseField(fields[k]), ParseFields(fields[k + 1..]);
    if field.Some? {
      assert result + ([field.value] + rest) == result + [field.value] + rest;
    } else {
      assert [] + rest == rest;
    }
  }

  method Settings(fields: seq<string>) returns (result: seq<Setting>)
    ensures result == ParseFields(fields)
  {
    hide Unwrap, Trim, ParseFields;
    result := [];
    assert fields[0..] == fields && result + ParseFields(fields) == ParseFields(fields);
    for k := 0 to |fields|
      invariant result + ParseFields(fields[k..]) == ParseFields(fields)
    {
      NextField(result, fields, k);
      var cut := Find(fields[k], 0, {'='});
      var key := Trim(fields[k][..cut]);
      if key != "" {
        var value := if cut < |fields[k]| then fields[k][cut + 1..] else "";
        assert ParseField(fields[k]) == Some(Setting(key, Unwrap(value)));
        result := result + [Setting(key, Unwrap(value))];
      }
    }
    NoFields(fields[|fields|..]);
    assert result + [] == result;
  }

  lemma NoFields(fields: seq<string>)
    requires |fields| == 0
    ensures ParseFields(fields) == []
  {
  }

  /** A key without structure and a value whose braces match. */
  predicate Writable(setting: Setting) {
    setting.key != "" && Trimmed(setting.key) && Trimmed(setting.value) && Closed(setting.value, 0) && NUL !in setting.value &&
    forall c :: c in setting.key ==> c !in {'=', ',', '\\', '{', '}', NUL}
  }

  function Written(setting: Setting): string { setting.key + "={" + setting.value + "}" }

  function AllWritten(settings: seq<Setting>): seq<string> {
    if settings == [] then [] else [Written(settings[0])] + AllWritten(settings[1..])
  }

  lemma {:induction false} PlainDepth(s: string, d: nat)
    requires forall c :: c in s ==> c !in {'\\', '{', '}'}
    ensures Depth(s, d) == Some(d)
    decreases |s|
  {
    if s != "" {
      assert s[0] in s && forall c :: c in s[1..] ==> c in s;
      PlainDepth(s[1..], d);
    }
  }

  /** A written setting is one field that leaves nothing open. */
  lemma WrittenWhole(setting: Setting)
    requires Writable(setting)
    ensures Whole(Written(setting)) && Depth(Written(setting), 0) == Some(0)
  {
    var key, value, field := setting.key, setting.value, Written(setting);
    var front, back := key + "={", value + "}";
    assert field == front + back;
    PlainDepth(key, 0);
    DepthAppend(key, "={", 0);
    assert "={"[1..] == "{" && "{"[1..] == "";
    assert Depth("={", 0) == Depth("{", 0) == Depth("", 1) == Some(1);
    assert Depth(front, 0) == Some(1);
    ClosedDepth(value, 0, 1);
    DepthAppend(value, "}", 1);
    assert "}"[1..] == "";
    assert Depth("}", 1) == Some(0);
    DepthAppend(front, back, 0);
    forall k | 0 <= k < |field| ensures !TopLevel(field, k, ',') {
      if k < |front| {
        assert field[k] == front[k] && (k < |key| ==> front[k] == key[k] && key[k] in key);
      } else if k < |front| + |value| {
        assert field[..k] == front + value[..k - |front|];
        DepthAppend(front, value[..k - |front|], 0);
        ClosedInside(value, 0, 1, k - |front|);
      }
    }
  }

  lemma WrittenParsed(setting: Setting)
    requires Writable(setting)
    ensures ParseField(Written(setting)) == Some(setting)
  {
    hide Trim, Unwrap, Closed;
    WrittenCut(setting);
    TrimmedSame(setting.key);
    TrimmedSame(setting.value);
    UnwrapExactly(setting.value);
  }

  lemma WrittenCut(setting: Setting)
    requires Writable(setting)
    ensures var field := Written(setting); var cut := IndexAny(field, 0, {'='});
      cut < |field| && field[..cut] == setting.key && field[cut + 1..] == "{" + setting.value + "}"
  {
    hide Closed;
    var key, field := setting.key, Written(setting);
    assert field[..|key|] == key && field[|key|] == '=';
    assert forall k :: 0 <= k < |key| ==> field[k] == key[k] && key[k] in key;
    assert IndexAny(field, 0, {'='}) == |key|;
    assert field[|key| + 1..] == "{" + setting.value + "}";
  }

  lemma TrimmedSame(s: string)
    requires Trimmed(s)
    ensures Trim(s) == s
  {
  }

  lemma {:induction false} AllWrittenSeparable(settings: seq<Setting>)
    requires settings != [] && forall i :: 0 <= i < |settings| ==> Writable(settings[i])
    ensures Separable(AllWritten(settings)) && ParseFields(AllWritten(settings)) == settings
    decreases |settings|
  {
    var first, rest := Written(settings[0]), settings[1..];
    WrittenWhole(settings[0]);
    WrittenParsed(settings[0]);
    if rest == [] {
      assert AllWritten(settings) == [first] && [first][1..] == [];
    } else {
      AllWrittenSeparable(rest);
      assert AllWritten(settings) == [first] + AllWritten(rest);
      assert AllWritten(settings)[1..] == AllWritten(rest);
    }
  }

  /** Nothing is normalized away: the text starts with a key, ends with a brace and holds no comment. */
  lemma {:induction false} JoinedPlain(settings: seq<Setting>)
    requires settings != [] && forall i :: 0 <= i < |settings| ==> Writable(settings[i])
    ensures var s := Join(AllWritten(settings)); s != "" && Trimmed(s) && NUL !in s
    decreases |settings|
  {
    var first, rest := Written(settings[0]), settings[1..];
    assert first[0] == settings[0].key[0] && first[|first| - 1] == '}';
    assert NUL !in first;
    if rest != [] {
      JoinedPlain(rest);
      assert AllWritten(settings)[1..] == AllWritten(rest);
    }
  }

  lemma {:induction false} NothingDropped(s: string, i: nat)
    requires i <= |s| && NUL !in s
    ensures Kept(s, i) == s[i..]
    decreases |s| - i
  {
    if i < |s| {
      NothingDropped(s, i + 1);
      assert s[i..] == [s[i]] + s[i + 1..];
    }
  }

  /** Whatever commas, brackets and nested braces the values hold, a written option list is read back as it was. */
  lemma OptionsRoundTrip(settings: seq<Setting>)
    requires settings != [] && forall i :: 0 <= i < |settings| ==> Writable(settings[i])
    ensures ParseGroups([Join(AllWritten(settings))]) == settings
  {
    hide Writable, Split, Trim, Kept, Separable, AllWritten, Join, ParseFields, ParseGroups;
    AllWrittenSeparable(settings);
    SplitJoin(AllWritten(settings));
    JoinedPlain(settings);
    NothingDropped(Join(AllWritten(settings)), 0);
    TrimmedSame(Join(AllWritten(settings)));
    OneGroup(Join(AllWritten(settings)));
  }

  lemma OneGroup(s: string)
    ensures ParseGroups([s]) == ParseFields(Split(Trim(Kept(s, 0))))
  {
    hide ParseFields, Split, Trim, Kept;
    assert [s][1..] == [];
    assert ParseGroups([]) == [];
  }

  /** Later settings of a key override earlier ones. */
  method OptionValues(options: seq<Setting>) returns (values: map<string, string>)
    ensures forall key :: key in values <==> exists i :: 0 <= i < |options| && options[i].key == key
    ensures forall i :: 0 <= i < |options| && (forall j :: i < j < |options| ==> options[j].key != options[i].key) ==>
              options[i].key in values && values[options[i].key] == options[i].value
  {
    values := map[];
    for n := 0 to |options|
      invariant forall key :: key in values <==> exists i :: 0 <= i < n && options[i].key == key
      invariant forall i :: 0 <= i < n && (forall j :: i < j < n ==> options[j].key != options[i].key) ==>
                  options[i].key in values && values[options[i].key] == options[i].value
    {
      values := values[options[n].key := options[n].value];
    }
  }
}
