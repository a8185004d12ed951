/**
 * The Python built-ins the scripts apply to parsed JSON: subscripting,
 * iteration, `dict.get`, `str.strip`, `int(...)`, `str(int)`, hash
 * equality of dict keys, and the exceptions they raise.
 */
module PyOps {
  import opened Wrappers
  import opened Json

  /** The exceptions the modelled code can raise. */
  datatype PyError =
    | AttributeError(typeName: string, attribute: string)
    | KeyError(key: string)
    | TypeError(message: string)
    | ValueError(literal: string)

  /** `str(e)` */
  function Message(e: PyError): string {
    match e
    case AttributeError(t, a) => "'" + t + "' object has no attribute '" + a + "'"
    case KeyError(k) => "'" + k + "'"
    case TypeError(m) => m
    case ValueError(s) => "invalid literal for int() with base 10: '" + s + "'"
  }

  /** `x[key]` with a string key. */
  function Subscript(x: Json, key: string): (r: Result<Json, PyError>)
    ensures r.Success? <==> x.JObj? && key in Keys(x.fields)
    ensures r.Success? ==> Some(r.value) == Get(x.fields, key)
    ensures x.JObj? && key !in Keys(x.fields) ==> r == Failure(KeyError(key))
    ensures !x.JObj? ==> r.Failure? && r.error.TypeError?
  {
    match x
    case JObj(f) => if key in Keys(f) then Success(Get(f, key).value) else Failure(KeyError(key))
    case JList(_) => Failure(TypeError("list indices must be integers or slices, not str"))
    case JStr(_) => Failure(TypeError("string indices must be integers, not 'str'"))
    case _ => Failure(TypeError("'" + TypeName(x) + "' object is not subscriptable"))
  }

  /** `x.get(key)`: only a dict has the method. */
  function MethodGet(x: Json, key: string): (r: Result<Option<Json>, PyError>)
    ensures r.Success? <==> x.JObj?
    ensures x.JObj? ==> r.value == Get(x.fields, key)
    ensures !x.JObj? ==> r == Failure(AttributeError(TypeName(x), "get"))
  {
    if x.JObj? then Success(Get(x.fields, key)) else Failure(AttributeError(TypeName(x), "get"))
  }

  /** The keys of a dict, as iteration yields them. */
  function KeyValues(f: Fields): (r: seq<Json>)
    ensures |r| == |f| && forall i :: 0 <= i < |f| ==> r[i] == JStr(f[i].0)
  {
    seq(|f|, i requires 0 <= i < |f| => JStr(f[i].0))
  }

  /** `for item in x`: a list yields its items, a dict its keys, a string its characters. */
  function Iterate(x: Json): (r: Result<seq<Json>, PyError>)
    ensures x.JList? ==> r == Success(x.items)
    ensures r.Success? <==> x.JList? || x.JObj? || x.JStr?
  {
    match x
    case JList(items) => Success(items)
    case JObj(f) => Success(KeyValues(Items(f)))
    case JStr(s) => Success(seq(|s|, i requires 0 <= i < |s| => JStr([s[i]])))
    case _ => Failure(TypeError("'" + TypeName(x) + "' object is not iterable"))
  }

  /** Lists and dicts cannot be dict keys. */
  predicate Hashable(v: Json) {
    !v.JList? && !v.JObj?
  }

  function Unhashable(v: Json): PyError {
    TypeError("unhashable type: '" + TypeName(v) + "'")
  }

  /**
   * The representative of a value's class under dict-key equality: Python
   * hashes and compares True as 1 and False as 0.
   */
  function KeyOf(v: Json): (r: Json)
    ensures !r.JBool?
    ensures v.JBool? ==> r == JInt(if v.b then 1 else 0)
    ensures !v.JBool? ==> r == v
    ensures Hashable(v) ==> Hashable(r)
  {
    match v
    case JBool(b) => JInt(if b then 1 else 0)
    case _ => v
  }

  /** The number a boolean or an integer stands for in Python arithmetic and comparison. */
  function NumberOf(v: Json): Option<int> {
    match v
    case JBool(b) => Some(if b then 1 else 0)
    case JInt(n) => Some(n)
    case _ => None
  }

  /**
   * Python's `a == b` on the values a dict key can hold: booleans and
   * integers compare as numbers, every other value only with an equal value
   * of its own type.
   */
  predicate PyEquals(a: Json, b: Json) {
    if NumberOf(a).Some? || NumberOf(b).Some? then NumberOf(a) == NumberOf(b) else a == b
  }

  /** Two hashable values find the same dict entry exactly when Python deems them equal. */
  lemma KeyEquality(a: Json, b: Json)
    requires Hashable(a) && Hashable(b)
    ensures KeyOf(a) == KeyOf(b) <==> PyEquals(a, b)
  {
    if KeyOf(a) == KeyOf(b) && (NumberOf(a).Some? || NumberOf(b).Some?) {
      assert NumberOf(a) == NumberOf(KeyOf(a));
    }
  }

  /** The characters `str.isspace` accepts, which `strip` and `int` remove. */
  predicate IsSpace(c: char) {
    || c == ' '
    || '\t' <= c <= '\r'
    || '\U{1c}' <= c <= '\U{1f}'
    || c == '\U{85}' || c == '\U{a0}' || c == '\U{1680}'
    || '\U{2000}' <= c <= '\U{200a}'
    || c == '\U{2028}' || c == '\U{2029}' || c == '\U{202f}' || c == '\U{205f}' || c == '\U{3000}'
  }

  /** The position of the first non-whitespace character at or after `i`, or `|s|`. */
  function SkipSpace(s: string, i: nat): (r: nat)
    requires i <= |s|
    ensures i <= r <= |s|
    ensures forall j :: i <= j < r ==> IsSpace(s[j])
    ensures r == |s| || !IsSpace(s[r])
    decreases |s| - i
  {
    if i == |s| || !IsSpace(s[i]) then i else SkipSpace(s, i + 1)
  }

  /** The end of `s[lo..e]` once the whitespace before `e` is dropped. */
  function DropSpace(s: string, lo: nat, e: nat): (r: nat)
    requires lo <= e <= |s|
    ensures lo <= r <= e
    ensures forall j :: r <= j < e ==> IsSpace(s[j])
    ensures r == lo || !IsSpace(s[r - 1])
    decreases e
  {
    if e == lo || !IsSpace(s[e - 1]) then e else DropSpace(s, lo, e - 1)
  }

  /**
   * `s.strip()`: the part of `s` between its leading and its trailing
   * whitespace; everything outside it is whitespace, and it neither starts
   * nor ends with whitespace.
   */
  function Strip(s: string): (r: string)
    ensures r == [] || (!IsSpace(r[0]) && !IsSpace(r[|r| - 1]))
    ensures var i := SkipSpace(s, 0);
            && i + |r| <= |s| && r == s[i..i + |r|]
            && (forall j :: 0 <= j < i ==> IsSpace(s[j]))
            && (forall j :: i + |r| <= j < |s| ==> IsSpace(s[j]))
  {
    var i := SkipSpace(s, 0);
    s[i..DropSpace(s, i, |s|)]
  }

  predicate IsDigit(c: char) {
    '0' <= c <= '9'
  }

  /**
   * What `int` accepts after the sign: ASCII digits, with single
   * underscores allowed between two digits.
   */
  predicate DigitGroups(s: string) {
    && |s| > 0
    && IsDigit(s[0])
    && IsDigit(s[|s| - 1])
    && (forall i :: 0 <= i < |s| ==> IsDigit(s[i]) || s[i] == '_')
    && (forall i :: 0 <= i < |s| - 1 && s[i] == '_' ==> s[i + 1] != '_')
  }

  /** The number a digit string denotes, underscores skipped. */
  function DigitsValue(s: string): nat
    decreases |s|
  {
    if s == [] then 0
    else
      var n := |s| - 1;
      if s[n] == '_' then DigitsValue(s[..n])
      else if IsDigit(s[n]) then DigitsValue(s[..n]) * 10 + (s[n] as int - '0' as int)
      else DigitsValue(s[..n]) * 10
  }

  /**
   * The four ASCII separators U+001C..U+001F: `str.isspace` accepts them, but
   * `int` does not skip them, as it skips only the ASCII whitespace
   * " \t\n\v\f\r" and the non-ASCII characters `str.isspace` accepts.
   */
  predicate IsSeparator(c: char) {
    '\U{1c}' <= c <= '\U{1f}'
  }

  /**
   * `int(s)` for a string: surrounding whitespace, an optional sign, then
   * digits. A separator character is neither skipped nor a digit, so a
   * string holding one is rejected wherever it stands.
   */
  function ParseIntLiteral(s: string): Option<int> {
    if exists i :: 0 <= i < |s| && IsSeparator(s[i]) then None
    else SignedDigits(Strip(s))
  }

  /** What `int` makes of the text between the whitespace: an optional sign, then digits. */
  function SignedDigits(t: string): Option<int> {
    if |t| > 0 && (t[0] == '-' || t[0] == '+') then
      if DigitGroups(t[1..]) then
        var v: int := DigitsValue(t[1..]);
        Some(if t[0] == '-' then -v else v)
      else None
    else if DigitGroups(t) then Some(DigitsValue(t))
    else None
  }

  /** `int(v)` for a JSON value; only a failed string conversion is a ValueError. */
  function PyInt(v: Json): (r: Result<int, PyError>)
    ensures v.JInt? ==> r == Success(v.n)
    ensures v.JBool? ==> r == Success(if v.b then 1 else 0)
    ensures (v.JNull? || v.JList? || v.JObj?) ==> r.Failure? && r.error.TypeError?
    ensures r.Failure? && r.error.ValueError? <==> v.JStr? && ParseIntLiteral(v.s).None?
  {
    match v
    case JInt(n) => Success(n)
    case JBool(b) => Success(if b then 1 else 0)
    case JStr(s) =>
      (match ParseIntLiteral(s)
       case Some(n) => Success(n)
       case None => Failure(ValueError(s)))
    case _ =>
      Failure(TypeError("int() argument must be a string, a bytes-like object or a real number, not '"
                        + TypeName(v) + "'"))
  }

  function DigitChar(d: nat): (c: char)
    requires d < 10
    ensures IsDigit(c) && c as int - '0' as int == d
  {
    ('0' as int + d) as char
  }

  /** The decimal digits of `n`, without leading zeros. */
  function DigitsOf(n: nat): (r: string)
    ensures |r| > 0 && (forall i :: 0 <= i < |r| ==> IsDigit(r[i]))
    ensures r[0] != '0' || r == "0"
    ensures DigitsValue(r) == n
    decreases n
  {
    if n < 10 then [DigitChar(n)]
    else
      var r := DigitsOf(n / 10) + [DigitChar(n % 10)];
      assert r[..|r| - 1] == DigitsOf(n / 10);
      r
  }

  /** `str(n)` for an int. */
  function IntToString(n: int): (r: string)
    ensures |r| > 0
    ensures n < 0 <==> r[0] == '-'
    ensures forall i :: 0 <= i < |r| ==> IsDigit(r[i]) || r[i] == '-'
    ensures var d := if n < 0 then r[1..] else r;
            && |d| > 0 && (forall i :: 0 <= i < |d| ==> IsDigit(d[i]))
            && (d[0] != '0' || d == "0")
  {
    if n < 0 then "-" + DigitsOf(-n) else DigitsOf(n)
  }

  lemma StripUnpadded(s: string)
    requires s == [] || (!IsSpace(s[0]) && !IsSpace(s[|s| - 1]))
    ensures Strip(s) == s
  {
    assert SkipSpace(s, 0) == 0;
    assert DropSpace(s, 0, |s|) == |s|;
  }

  /** A string holding a separator character makes `int` raise ValueError. */
  lemma SeparatorRejected(s: string, i: nat)
    requires i < |s| && IsSeparator(s[i])
    ensures PyInt(JStr(s)) == Failure(ValueError(s))
  {
  }

  /** `int(str(n)) == n`. */
  lemma IntStringRoundTrip(n: int)
    ensures ParseIntLiteral(IntToString(n)) == Some(n)
  {
    var s := IntToString(n);
    assert !exists i :: 0 <= i < |s| && IsSeparator(s[i]);
    assert IsDigit(s[|s| - 1]);
    StripUnpadded(s);
    SignedDigitsOf(n);
  }

  lemma SignedDigitsOf(n: int)
    ensures SignedDigits(IntToString(n)) == Some(n)
  {
    var s := IntToString(n);
    var d := DigitsOf(if n < 0 then -n else n);
    assert IsDigit(d[0]) && IsDigit(d[|d| - 1]);
    if n < 0 {
      assert s[1..] == d;
      assert DigitGroups(d);
    } else {
      assert s == d;
      assert DigitGroups(d);
    }
  }
}
