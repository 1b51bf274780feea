/** Python's view of a decoded JSON document, and the few Python operations the
    agent applies to such values: indexing with a string key, indexing with 0,
    the `in` operator, `int(...)`, truthiness, hashability and `'%s' %` rendering.
    Every operation that can raise returns a Result carrying the exception kind. */
module PyJson {

  /** A value produced by `json.loads` (floating-point numbers are not modelled). */
  datatype Json =
    | JNull
    | JBool(b: bool)
    | JNum(n: int)
    | JStr(s: string)
    | JArr(items: seq<Json>)
    | JObj(fields: map<string, Json>)

  /** The Python exception kinds the agent's code can raise or catch. */
  datatype PyError =
    | KeyError
    | IndexError
    | TypeError
    | ValueError
    | AssertionError
    | AttributeError
    | CalledProcessError
    | OsError
    | DockerNotFound  // docker.errors.NotFound
    | DockerApiError  // docker.errors.APIError

  datatype Option<+T> = None | Some(value: T)

  datatype Result<+T> = Ok(value: T) | Err(error: PyError) {
    predicate IsFailure() { Err? }
    function PropagateFailure<U>(): Result<U> requires Err? { Err(error) }
    function Extract(): T requires Ok? { value }
  }

  /** `v[key]` for a string key. */
  function Field(v: Json, key: string): (r: Result<Json>)
    ensures r.Ok? <==> v.JObj? && key in v.fields
    ensures r.Ok? ==> r.value == v.fields[key]
    ensures r.Err? ==> r.error == (if v.JObj? then KeyError else TypeError)
  {
    match v
    case JObj(f) => if key in f then Ok(f[key]) else Err(KeyError)
    case _ => Err(TypeError)
  }

  /** `v[0]`: a list or a string yields its first element (IndexError when empty);
      a dict has no key 0 (JSON object keys are strings), so it raises KeyError. */
  function Item0(v: Json): (r: Result<Json>)
    ensures v.JArr? ==> r == if v.items == [] then Err(IndexError) else Ok(v.items[0])
    ensures v.JObj? ==> r == Err(KeyError)
    ensures r.Ok? ==> v.JArr? || v.JStr?
  {
    match v
    case JArr(items) => if items == [] then Err(IndexError) else Ok(items[0])
    case JStr(s) => if s == [] then Err(IndexError) else Ok(JStr([s[0]]))
    case JObj(_) => Err(KeyError)
    case _ => Err(TypeError)
  }

  /** `p` occurs as a contiguous part of `s` (Python's `p in s` on strings). */
  predicate Occurs(p: string, s: string)
    decreases |s|
  {
    |p| <= |s| && (s[..|p|] == p || Occurs(p, s[1..]))
  }

  /** `p` sits at index `i` of `s`. */
  predicate MatchesAt(p: string, s: string, i: int) {
    0 <= i <= |s| - |p| && s[i..i + |p|] == p
  }

  lemma {:induction false} OccursAt(p: string, s: string)
    ensures Occurs(p, s) <==> exists i :: MatchesAt(p, s, i)
    decreases |s|
  {
    if |p| < |s| {
      assert MatchesAt(p, s, 0) <==> s[..|p|] == p;
      OccursAt(p, s[1..]);
      if Occurs(p, s[1..]) {
        var i :| MatchesAt(p, s[1..], i);
        assert s[i + 1..i + 1 + |p|] == s[1..][i..i + |p|];
        assert MatchesAt(p, s, i + 1);
      }
      forall i | MatchesAt(p, s, i) && i >= 1
        ensures Occurs(p, s[1..])
      {
        assert s[1..][i - 1..i - 1 + |p|] == s[i..i + |p|];
        assert MatchesAt(p, s[1..], i - 1);
      }
    } else if |p| == |s| {
      if s != [] {
        assert !Occurs(p, s[1..]);
      }
      assert MatchesAt(p, s, 0) <==> s[..|p|] == p;
    }
  }

  /** `key in v`: membership of a key in a dict, of an element in a list,
      of a substring in a string; anything else is not iterable. */
  function Contains(v: Json, key: string): (r: Result<bool>)
    ensures v.JObj? ==> r == Ok(key in v.fields)
    ensures v.JArr? ==> r == Ok(JStr(key) in v.items)
    ensures r.Err? <==> !(v.JObj? || v.JArr? || v.JStr?)
  {
    match v
    case JObj(f) => Ok(key in f)
    case JArr(items) => Ok(JStr(key) in items)
    case JStr(s) => Ok(Occurs(key, s))
    case _ => Err(TypeError)
  }

  /** Python truthiness of a JSON value. */
  predicate Truthy(v: Json) {
    match v
    case JNull => false
    case JBool(b) => b
    case JNum(n) => n != 0
    case JStr(s) => s != []
    case JArr(items) => items != []
    case JObj(f) => f != map[]
  }

  /** Lists and dicts cannot be dict keys. */
  predicate Hashable(v: Json) {
    !(v.JArr? || v.JObj?)
  }

  predicate IsDigit(c: char) { '0' <= c <= '9' }

  predicate AllDigits(s: string) { forall i :: 0 <= i < |s| ==> IsDigit(s[i]) }

  /** Value of a string of decimal digits. */
  function DigitsValue(s: string): (n: nat)
    requires AllDigits(s)
  {
    if s == [] then 0 else DigitsValue(s[..|s| - 1]) * 10 + (s[|s| - 1] as int - '0' as int)
  }

  /** The whitespace `int()` strips from both ends of its argument: the ASCII
      space and `\t` to `\r`, and the non-ASCII `str.isspace` characters,
      which it turns into spaces first. The ASCII separators `\x1c` to `\x1f`
      count as `str.isspace` but are not stripped. */
  predicate IsSpace(c: char) {
    || '\t' <= c <= '\r'
    || c == ' '
    || c == '\U{85}' || c == '\U{A0}' || c == '\U{1680}'
    || '\U{2000}' <= c <= '\U{200A}'
    || c == '\U{2028}' || c == '\U{2029}' || c == '\U{202F}' || c == '\U{205F}' || c == '\U{3000}'
  }

  predicate AllSpace(s: string) { forall i :: 0 <= i < |s| ==> IsSpace(s[i]) }

  /** `s` without its leading whitespace. */
  function StripLeft(s: string): (r: string)
    ensures |r| <= |s|
  {
    if s != [] && IsSpace(s[0]) then
      StripLeft(s[1..])
    else s
  }

  /** `s` without its trailing whitespace. */
  function StripRight(s: string): (r: string)
    ensures |r| <= |s|
  {
    if s != [] && IsSpace(s[|s| - 1]) then
      StripRight(s[..|s| - 1])
    else s
  }

  predicate DigitsOrUnderscores(s: string) { forall i :: 0 <= i < |s| ==> IsDigit(s[i]) || s[i] == '_' }

  /** Decimal digits with single underscores between digits, as in `1_000`. */
  predicate Grouped(s: string)
    ensures Grouped(s) ==> DigitsOrUnderscores(s)
    decreases |s|
  {
    && s != [] && IsDigit(s[0])
    && (|s| == 1 || Grouped(if s[1] == '_' then s[2..] else s[1..]))
  }

  /** The digits of a grouped string, its underscores dropped. */
  function Ungrouped(s: string): (r: string)
    requires DigitsOrUnderscores(s)
    ensures AllDigits(r)
    ensures AllDigits(s) ==> r == s
  {
    if s == [] then []
    else (if s[0] == '_' then [] else [s[0]]) + Ungrouped(s[1..])
  }

  /** `int(v)` for the forms a timestamp takes: a number, a boolean, or a string
      holding an optionally signed run of decimal digits, single underscores
      allowed between digits, surrounded by any whitespace. */
  function IntOf(v: Json): (r: Result<int>)
    ensures v.JNum? ==> r == Ok(v.n)
    ensures r.Err? ==> r.error == ValueError || r.error == TypeError
    ensures v.JStr? && r.Ok? ==> 0 < |v.s|
  {
    match v
    case JNum(n) => Ok(n)
    case JBool(b) => Ok(if b then 1 else 0)
    case JStr(s) => IntText(StripRight(StripLeft(s)))
    case _ => Err(TypeError)
  }

  /** `int()` of a string with its surrounding whitespace stripped. */
  function IntText(t: string): (r: Result<int>)
    ensures r.Err? ==> r.error == ValueError
    ensures r.Ok? ==> 0 < |t|
  {
    if Grouped(t) then Ok(DigitsValue(Ungrouped(t)))
    else if |t| > 1 && (t[0] == '-' || t[0] == '+') && Grouped(t[1..]) then
      var m: int := DigitsValue(Ungrouped(t[1..]));
      Ok(if t[0] == '-' then -m else m)
    else Err(ValueError)
  }

  /** Decimal text of a natural number. */
  function NatText(n: nat): (s: string)
    ensures s != [] && AllDigits(s)
    ensures DigitsValue(s) == n
  {
    var last := ['0' + (n % 10) as char];
    if n < 10 then last else
      var prefix := NatText(n / 10);
      assert (prefix + last)[..|prefix + last| - 1] == prefix;
      prefix + last
  }

  /** `'%s' % v`, i.e. `str(v)`, for scalars; lists and dicts get a fixed rendering. */
  function Str(v: Json): string {
    match v
    case JNull => "None"
    case JBool(b) => if b then "True" else "False"
    case JNum(n) => if n < 0 then "-" + NatText(-n) else NatText(n)
    case JStr(s) => s
    case JArr(_) => "[...]"
    case JObj(_) => "{...}"
  }

  /** Stripping removes exactly a leading run of whitespace. */
  lemma {:induction false} StripLeftSound(s: string)
    ensures var r := StripLeft(s);
      && r == s[|s| - |r|..] && AllSpace(s[..|s| - |r|]) && (r == [] || !IsSpace(r[0]))
  {
    if s != [] && IsSpace(s[0]) {
      StripLeftSound(s[1..]);
      var r := StripLeft(s[1..]);
      assert s[..|s| - |r|] == [s[0]] + s[1..][..|s| - 1 - |r|];
    }
  }

  /** Stripping removes exactly a trailing run of whitespace. */
  lemma {:induction false} StripRightSound(s: string)
    ensures var r := StripRight(s);
      && r == s[..|r|] && AllSpace(s[|r|..]) && (r == [] || !IsSpace(r[|r| - 1]))
  {
    if s != [] && IsSpace(s[|s| - 1]) {
      StripRightSound(s[..|s| - 1]);
      var r := StripRight(s[..|s| - 1]);
      assert s[|r|..] == s[..|s| - 1][|r|..] + [s[|s| - 1]];
    }
  }

  lemma {:induction false} StripLeftSpaces(pad: string, rest: string)
    requires AllSpace(pad)
    requires rest == [] || !IsSpace(rest[0])
    ensures StripLeft(pad + rest) == rest
  {
    if pad != [] {
      assert (pad + rest)[1..] == pad[1..] + rest;
      StripLeftSpaces(pad[1..], rest);
    }
  }

  lemma {:induction false} StripRightSpaces(rest: string, pad: string)
    requires AllSpace(pad)
    requires rest == [] || !IsSpace(rest[|rest| - 1])
    ensures StripRight(rest + pad) == rest
  {
    if pad != [] {
      assert (rest + pad)[..|rest + pad| - 1] == rest + pad[..|pad| - 1];
      StripRightSpaces(rest, pad[..|pad| - 1]);
    }
  }

  /** A plain run of digits is a grouped string too. */
  lemma {:induction false} DigitsGrouped(s: string)
    requires s != [] && AllDigits(s)
    ensures Grouped(s)
  {
    if |s| > 1 {
      assert AllDigits(s[1..]);
      DigitsGrouped(s[1..]);
    }
  }

  lemma IntOfGrouped(s: string, t: string)
    requires StripRight(StripLeft(s)) == t && Grouped(t)
    ensures IntOf(JStr(s)) == Ok(DigitsValue(Ungrouped(t)))
  {
  }

  /** `int()` reads back the decimal text of any natural number, whatever
      whitespace surrounds it: a timestamp sent as `" 1000"` is 1000. */
  lemma IntOfPadded(n: nat, lead: string, trail: string)
    requires AllSpace(lead) && AllSpace(trail)
    ensures IntOf(JStr(lead + NatText(n) + trail)) == Ok(n)
  {
    var d := NatText(n);
    StripPadding(lead, d, trail);
    DigitsGrouped(d);
    IntOfGrouped(lead + d + trail, d);
  }

  lemma StripPadding(lead: string, d: string, trail: string)
    requires AllSpace(lead) && AllSpace(trail)
    requires d != [] && AllDigits(d)
    ensures StripRight(StripLeft(lead + d + trail)) == d
  {
    assert IsDigit(d[0]) && IsDigit(d[|d| - 1]);
    assert lead + d + trail == lead + (d + trail);
    StripLeftSpaces(lead, d + trail);
    StripRightSpaces(d, trail);
  }

  lemma Unpadded(s: string)
    requires s != [] && !IsSpace(s[0]) && !IsSpace(s[|s| - 1])
    ensures StripRight(StripLeft(s)) == s
  {
  }

  /** A sign before a grouped digit string gives its value or its negation. */
  lemma IntOfSigned(t: string)
    requires Grouped(t)
    ensures IntOf(JStr("-" + t)) == Ok(0 - DigitsValue(Ungrouped(t)) as int)
    ensures IntOf(JStr("+" + t)) == Ok(DigitsValue(Ungrouped(t)))
  {
    SignedText("-", t);
    IntOfSignedText("-" + t, t);
    SignedText("+", t);
    IntOfSignedText("+" + t, t);
  }

  lemma IntOfSignedText(s: string, t: string)
    requires StripRight(StripLeft(s)) == s && !Grouped(s)
    requires |s| > 1 && (s[0] == '-' || s[0] == '+') && s[1..] == t && Grouped(t)
    ensures IntOf(JStr(s)) == Ok(if s[0] == '-' then 0 - DigitsValue(Ungrouped(t)) as int else DigitsValue(Ungrouped(t)))
  {
    assert IntOf(JStr(s)) == IntText(s);
  }

  lemma SignedText(sign: string, t: string)
    requires sign == "-" || sign == "+"
    requires Grouped(t)
    ensures StripRight(StripLeft(sign + t)) == sign + t
    ensures (sign + t)[1..] == t && !Grouped(sign + t)
  {
    assert (sign + t)[0] == sign[0];
    assert (sign + t)[|sign + t| - 1] == t[|t| - 1];
    assert IsDigit(t[|t| - 1]) by { GroupedEnds(t); }
    Unpadded(sign + t);
  }

  /** A grouped string ends with a digit. */
  lemma {:induction false} GroupedEnds(t: string)
    requires Grouped(t)
    ensures IsDigit(t[|t| - 1])
    decreases |t|
  {
    if |t| > 1 {
      var rest := if t[1] == '_' then t[2..] else t[1..];
      GroupedEnds(rest);
      assert t[|t| - 1] == rest[|rest| - 1];
    }
  }

  /** Single underscores between digits are accepted. */
  lemma IntOfUnderscores()
    ensures IntOf(JStr("1_000")) == Ok(1000)
  {
    Unpadded("1_000");
    ThousandGrouped();
    ThousandValue();
    IntOfGrouped("1_000", "1_000");
  }

  lemma ThousandGrouped()
    ensures Grouped("1_000")
  {
    assert "1_000"[2..] == "000";
    DigitsGrouped("000");
  }

  lemma ThousandValue()
    ensures DigitsValue(Ungrouped("1_000")) == 1000
  {
    assert Ungrouped("1_000") == "1000";
    ThousandDigits();
  }

  lemma ThousandDigits()
    ensures DigitsValue("1000") == 1000
  {
    assert "1000"[..3] == "100" && "100"[..2] == "10" && "10"[..1] == "1";
  }

  /** Doubled, leading and trailing underscores are a `ValueError`. */
  lemma IntOfMisplacedUnderscores()
    ensures IntOf(JStr("1__000")) == Err(ValueError)
    ensures IntOf(JStr("_1")) == Err(ValueError)
    ensures IntOf(JStr("1_")) == Err(ValueError)
  {
    Unpadded("1__000");
    assert !Grouped("1__000") by { assert "1__000"[2..] == "_000"; }
    Unpadded("_1");
    Unpadded("1_");
    assert !Grouped("1_") by { assert "1_"[2..] == []; }
  }

  /** The ASCII separators `\x1c` to `\x1f` are not stripped: `"\x1c1"` is a
      `ValueError`. */
  lemma IntOfSeparatorKept()
    ensures IntOf(JStr("\U{1C}1")) == Err(ValueError)
  {
    Unpadded("\U{1C}1");
    assert !Grouped("\U{1C}1");
  }
}
