/**
 * The dynamically typed values the web application handles (decoded JSON
 * payloads, queue entries, settings), with Python's truthiness, `str()` and
 * `int()` on them.
 */
module Values {
  import opened Common
  import opened Assoc

  /** A Python value as decoded from JSON; `VDict` keeps insertion order. */
  datatype Value =
    | VNone
    | VBool(b: bool)
    | VInt(i: int)
    | VStr(s: string)
    | VList(items: seq<Value>)
    | VDict(fields: seq<(string, Value)>)

  type Dict = seq<(string, Value)>

  /** `bool(v)`. */
  predicate Truthy(v: Value) {
    match v
    case VNone => false
    case VBool(b) => b
    case VInt(i) => i != 0
    case VStr(s) => s != ""
    case VList(items) => items != []
    case VDict(fields) => fields != []
  }

  /** `d.get(k)`: `None` when the key is absent. */
  function Lookup(d: Dict, k: string): Value {
    GetOr(d, k, VNone)
  }

  /** `a or b`: the first operand when it is truthy, else the second. */
  function Or(a: Value, b: Value): (r: Value)
    ensures Truthy(r) <==> Truthy(a) || Truthy(b)
  {
    if Truthy(a) then a else b
  }

  predicate IsDigit(c: char) {
    '0' as int <= c as int <= '9' as int
  }

  function DigitChar(d: int): (c: char)
    requires 0 <= d < 10
    ensures IsDigit(c) && (c as int) - ('0' as int) == d
  {
    ('0' as int + d) as char
  }

  /** Decimal digits of `n`, most significant first, without leading zeros. */
  function NatToDecimal(n: nat): (s: string)
    ensures |s| >= 1 && forall c :: c in s ==> IsDigit(c)
  {
    if n < 10 then [DigitChar(n)] else NatToDecimal(n / 10) + [DigitChar(n % 10)]
  }

  /** `str(i)` for an integer. */
  function IntToDecimal(i: int): string {
    if i < 0 then "-" + NatToDecimal(-i) else NatToDecimal(i)
  }

  /** The number a string of decimal digits denotes. */
  function DigitsValue(s: string): nat
    requires forall c :: c in s ==> IsDigit(c)
  {
    if |s| == 0 then 0
    else
      var last := s[|s| - 1];
      assert last in s && IsDigit(last);
      DigitsValue(s[..|s| - 1]) * 10 + ((last as int) - ('0' as int))
  }

  function Join(parts: seq<string>, sep: string): string {
    if |parts| == 0 then ""
    else if |parts| == 1 then parts[0]
    else parts[0] + sep + Join(parts[1..], sep)
  }

  /** `repr(v)`; quotes inside strings are not escaped in this model. */
  function Repr(v: Value): string {
    match v
    case VNone => "None"
    case VBool(b) => if b then "True" else "False"
    case VInt(i) => IntToDecimal(i)
    case VStr(s) => "'" + s + "'"
    case VList(items) =>
      "[" + Join(seq(|items|, i requires 0 <= i < |items| => Repr(items[i])), ", ") + "]"
    case VDict(fields) =>
      "{" + Join(seq(|fields|, i requires 0 <= i < |fields| =>
                   assert fields[i] < v;
                   "'" + fields[i].0 + "': " + Repr(fields[i].1)), ", ") + "}"
  }

  /** `str(v)`: a string is itself, anything else its `repr`. */
  function Str(v: Value): string {
    if v.VStr? then v.s else Repr(v)
  }

  /** `s[:n]`. */
  function Prefix(s: string, n: nat): (r: string)
    ensures |r| <= n && r <= s
    ensures |s| <= n ==> r == s
  {
    if |s| <= n then s else s[..n]
  }

  /** The ASCII characters Python's `str.strip()` and `int()` treat as whitespace. */
  predicate IsSpace(c: char) {
    c == ' ' || c == '\t' || c == '\n' || c == '\r' || c as int == 11 || c as int == 12 || 28 <= c as int <= 31
  }

  function StripLeft(s: string): (r: string)
    ensures |r| <= |s| && r == s[|s| - |r|..]
    ensures |r| > 0 ==> !IsSpace(r[0])
  {
    if |s| > 0 && IsSpace(s[0]) then StripLeft(s[1..]) else s
  }

  function StripRight(s: string): (r: string)
    ensures |r| <= |s| && r == s[..|r|]
    ensures |r| > 0 ==> !IsSpace(r[|r| - 1])
  {
    if |s| > 0 && IsSpace(s[|s| - 1]) then StripRight(s[..|s| - 1]) else s
  }

  /** Digits with single underscores between them, as `int()` accepts. */
  predicate DigitGroups(s: string) {
    && |s| > 0
    && IsDigit(s[0]) && IsDigit(s[|s| - 1])
    && (forall i :: 0 <= i < |s| ==> IsDigit(s[i]) || s[i] == '_')
    && (forall i :: 0 <= i < |s| - 1 ==> s[i] == '_' ==> s[i + 1] != '_')
  }

  function DropUnderscores(s: string): (r: string)
    ensures forall c :: c in r ==> c in s && c != '_'
    ensures (forall i :: 0 <= i < |s| ==> IsDigit(s[i]) || s[i] == '_') ==> forall c :: c in r ==> IsDigit(c)
  {
    if |s| == 0 then []
    else
      assert forall i :: 0 <= i < |s| - 1 ==> s[1..][i] == s[i + 1];
      (if s[0] == '_' then [] else [s[0]]) + DropUnderscores(s[1..])
  }

  /** `int(s)` for a string: `None` where Python raises `ValueError`. */
  function ParseInt(s: string): Option<int> {
    ParseSigned(StripRight(StripLeft(s)))
  }

  /** `int()` skips leading whitespace, the ASCII separators U+001C to U+001F included. */
  lemma ParseIntIgnoresLeadingSpace(c: char, s: string)
    requires IsSpace(c)
    ensures ParseInt([c] + s) == ParseInt(s)
  {
    assert ([c] + s)[1..] == s;
  }

  /** An optional sign followed by digit groups. */
  function ParseSigned(t: string): Option<int> {
    if |t| > 0 && t[0] == '-' then
      match ParseDigits(t[1..])
      case Some(n) => Some(-n)
      case None => None
    else if |t| > 0 && t[0] == '+' then ParseDigits(t[1..])
    else ParseDigits(t)
  }

  function ParseDigits(body: string): Option<int> {
    if DigitGroups(body) then Some(DigitsValue(DropUnderscores(body))) else None
  }

  /** `int(v)`: `None` where Python raises (`TypeError` or `ValueError`). */
  function PyInt(v: Value): Option<int> {
    match v
    case VBool(b) => Some(if b then 1 else 0)
    case VInt(i) => Some(i)
    case VStr(s) => ParseInt(s)
    case _ => None
  }

  lemma {:induction false} DigitsOfDecimal(n: nat)
    ensures DigitsValue(NatToDecimal(n)) == n
  {
    if n >= 10 {
      var s := NatToDecimal(n);
      assert s[..|s| - 1] == NatToDecimal(n / 10);
      DigitsOfDecimal(n / 10);
    }
  }

  lemma {:induction false} DropUnderscoresOfDigits(s: string)
    requires forall c :: c in s ==> IsDigit(c)
    ensures DropUnderscores(s) == s
  {
    if |s| > 0 {
      assert s[0] in s;
      DropUnderscoresOfDigits(s[1..]);
    }
  }

  lemma StripNoSpace(s: string)
    requires |s| > 0 && !IsSpace(s[0]) && !IsSpace(s[|s| - 1])
    ensures StripRight(StripLeft(s)) == s
  {
    assert StripLeft(s) == s;
  }

  lemma DigitGroupsOfDigits(d: string)
    requires |d| > 0 && forall c :: c in d ==> IsDigit(c)
    ensures DigitGroups(d)
  {
    assert d[0] in d && d[|d| - 1] in d;
    assert forall i :: 0 <= i < |d| ==> d[i] in d;
  }

  lemma ParseDigitsOfDecimal(n: nat)
    ensures ParseDigits(NatToDecimal(n)) == Some(n)
  {
    var d := NatToDecimal(n);
    DigitGroupsOfDigits(d);
    DropUnderscoresOfDigits(d);
    DigitsOfDecimal(n);
  }

  lemma DecimalEnds(n: nat)
    ensures IsDigit(NatToDecimal(n)[0]) && IsDigit(NatToDecimal(n)[|NatToDecimal(n)| - 1])
  {
    var d := NatToDecimal(n);
    assert d[0] in d && d[|d| - 1] in d;
  }

  lemma ParseNonNegative(i: int)
    requires i >= 0
    ensures ParseInt(IntToDecimal(i)) == Some(i)
  {
    var d := NatToDecimal(i);
    assert IntToDecimal(i) == d;
    DecimalEnds(i);
    StripNoSpace(d);
    assert d[0] != '-' && d[0] != '+';
    assert ParseSigned(d) == ParseDigits(d);
    ParseDigitsOfDecimal(i);
  }

  lemma ParseNegative(i: int)
    requires i < 0
    ensures ParseInt(IntToDecimal(i)) == Some(i)
  {
    var n: nat := -i;
    var d := NatToDecimal(n);
    var s := "-" + d;
    assert IntToDecimal(i) == s;
    DecimalEnds(n);
    assert s[0] == '-' && s[|s| - 1] == d[|d| - 1];
    StripNoSpace(s);
    ParseDigitsOfDecimal(n);
    assert s[1..] == d;
    assert ParseSigned(s) == Some(i);
  }

  /** `int(str(i)) == i`. */
  lemma ParseIntOfDecimal(i: int)
    ensures ParseInt(IntToDecimal(i)) == Some(i)
  {
    if i < 0 {
      ParseNegative(i);
    } else {
      ParseNonNegative(i);
    }
  }

  /** Distinct integers have distinct decimal strings. */
  lemma DecimalInjective(i: int, j: int)
    requires IntToDecimal(i) == IntToDecimal(j)
    ensures i == j
  {
    ParseIntOfDecimal(i);
    ParseIntOfDecimal(j);
  }
}
