/**
 * Plain dictionary values as the editor stores them (the `Dict[str, Any]`
 * documents of the project file, the config file and the export settings), with
 * the handful of Python conversions the editor applies to them: truthiness,
 * `x or default`, `dict.get`, `str()`, `int()`, `float()`, `str.strip()` and
 * `str.lower()`.
 */
module PyValues {
  import opened Results

  datatype Json =
    | JNull
    | JBool(b: bool)
    | JInt(i: int)
    | JNum(r: real)
    | JStr(s: string)
    | JArr(items: seq<Json>)
    | JObj(fields: map<string, Json>)

  /** Python truthiness: None, False, zero, and empty strings, lists and dicts are false. */
  predicate Truthy(j: Json) {
    match j
    case JNull => false
    case JBool(b) => b
    case JInt(i) => i != 0
    case JNum(r) => r != 0.0
    case JStr(s) => s != []
    case JArr(xs) => xs != []
    case JObj(m) => m != map[]
  }

  /** `j or default` */
  function Or(j: Json, default: Json): Json {
    if Truthy(j) then j else default
  }

  /** `d.get(key, default)` */
  function Get(d: map<string, Json>, key: string, default: Json): Json {
    if key in d then d[key] else default
  }

  // ---------------------------------------------------------------------------
  // Characters and text

  /** The characters for which Python's `str.isspace()` holds. */
  const PySpaces: set<char> := {
    ' ', '\t', '\n', '\r', '\U{000B}', '\U{000C}', '\U{001C}', '\U{001D}', '\U{001E}',
    '\U{001F}', '\U{0085}', '\U{00A0}', '\U{1680}', '\U{2000}', '\U{2001}', '\U{2002}',
    '\U{2003}', '\U{2004}', '\U{2005}', '\U{2006}', '\U{2007}', '\U{2008}', '\U{2009}',
    '\U{200A}', '\U{2028}', '\U{2029}', '\U{202F}', '\U{205F}', '\U{3000}'
  }

  predicate IsSpace(c: char) {
    c in PySpaces
  }

  function LeadingSpaces(s: string): (n: nat)
    ensures n <= |s|
    ensures forall k :: 0 <= k < n ==> IsSpace(s[k])
    ensures n == |s| || !IsSpace(s[n])
  {
    if s == [] || !IsSpace(s[0]) then 0 else 1 + LeadingSpaces(s[1..])
  }

  function TrailingSpaces(s: string): (n: nat)
    ensures n <= |s|
    ensures forall k :: |s| - n <= k < |s| ==> IsSpace(s[k])
    ensures n == |s| || !IsSpace(s[|s| - 1 - n])
  {
    if s == [] || !IsSpace(s[|s| - 1]) then 0 else 1 + TrailingSpaces(s[..|s| - 1])
  }

  /** `s.strip()`: the text between the leading and the trailing white space. */
  function Strip(s: string): (r: string)
    ensures |r| <= |s|
    ensures r == [] || (!IsSpace(r[0]) && !IsSpace(r[|r| - 1]))
    ensures r == [] <==> forall k :: 0 <= k < |s| ==> IsSpace(s[k])
    ensures (|s| > 0 && !IsSpace(s[0]) && !IsSpace(s[|s| - 1])) ==> r == s
  {
    var a := LeadingSpaces(s);
    var rest := s[a..];
    assert forall k :: 0 <= k < |rest| ==> rest[k] == s[a + k];
    rest[..|rest| - TrailingSpaces(rest)]
  }

  function LowerChar(c: char): (d: char)
    ensures !('A' <= d <= 'Z')
  {
    if 'A' <= c <= 'Z' then (c as int + 32) as char else c
  }

  /** `s.lower()` on the ASCII letters. */
  function Lower(s: string): (r: string)
    ensures |r| == |s|
    ensures forall k :: 0 <= k < |s| ==> r[k] == LowerChar(s[k])
  {
    seq(|s|, k requires 0 <= k < |s| => LowerChar(s[k]))
  }

  lemma LowerIdentity(s: string)
    requires forall k :: 0 <= k < |s| ==> !('A' <= s[k] <= 'Z')
    ensures Lower(s) == s
  {
  }

  // ---------------------------------------------------------------------------
  // Decimal digits

  predicate IsDigit(c: char) {
    '0' <= c <= '9'
  }

  predicate AllDigits(s: string) {
    forall k :: 0 <= k < |s| ==> IsDigit(s[k])
  }

  function DigitValue(c: char): nat
    requires IsDigit(c)
  {
    c as int - '0' as int
  }

  /** The number a run of decimal digits denotes. */
  function DigitsValue(s: string): nat
    requires AllDigits(s)
  {
    if s == [] then 0 else 10 * DigitsValue(s[..|s| - 1]) + DigitValue(s[|s| - 1])
  }

  function Pow10(n: nat): (p: nat)
    ensures p >= 1
  {
    if n == 0 then 1 else 10 * Pow10(n - 1)
  }

  function DigitChar(d: nat): (c: char)
    requires d < 10
    ensures IsDigit(c) && DigitValue(c) == d
  {
    ('0' as int + d) as char
  }

  /** The decimal text of a natural number, without leading zeros. */
  function NatToDecimal(n: nat): (s: string)
    ensures |s| > 0 && AllDigits(s)
    ensures DigitsValue(s) == n
  {
    if n < 10 then [DigitChar(n)]
    else
      var prefix := NatToDecimal(n / 10);
      var s := prefix + [DigitChar(n % 10)];
      assert s[..|s| - 1] == prefix;
      s
  }

  /** `str(i)` for an integer. */
  function IntToDecimal(i: int): (s: string)
    ensures |s| > 0
  {
    if i < 0 then "-" + NatToDecimal(-i) else NatToDecimal(i)
  }

  // ---------------------------------------------------------------------------
  // Python conversions

  /**
   * `str(j)`. Strings, None, booleans and integers are rendered as Python renders
   * them; floats, lists and dicts by a fixed non-empty placeholder.
   */
  function PyStr(j: Json): (r: string)
    ensures j.JStr? ==> r == j.s
    ensures r == [] <==> j == JStr([])
  {
    match j
    case JNull => "None"
    case JBool(b) => if b then "True" else "False"
    case JInt(i) => IntToDecimal(i)
    case JNum(_) => "<float>"
    case JStr(s) => s
    case JArr(_) => "[...]"
    case JObj(_) => "{...}"
  }

  /** `int(r)` for a float: truncation toward zero. */
  function TruncToInt(r: real): (i: int)
    ensures r >= 0.0 ==> 0 <= i && i as real <= r < i as real + 1.0
    ensures r < 0.0 ==> i <= 0 && i as real - 1.0 < r <= i as real
  {
    if r >= 0.0 then r.Floor else -((-r).Floor)
  }

  /** An optional sign followed by at least one ASCII digit. */
  predicate IntText(t: string) {
    if |t| > 0 && (t[0] == '+' || t[0] == '-') then t[1..] != [] && AllDigits(t[1..])
    else t != [] && AllDigits(t)
  }

  /** `int(t)` for a text already stripped: an optional sign and ASCII digits. */
  function ParseIntText(t: string): (r: Option<int>)
    ensures r.Some? <==> IntText(t)
    ensures AllDigits(t) && t != [] ==> r == Some(DigitsValue(t))
    ensures |t| > 1 && t[0] == '-' && AllDigits(t[1..]) ==> r == Some(0 - DigitsValue(t[1..]) as int)
    ensures |t| > 1 && t[0] == '+' && AllDigits(t[1..]) ==> r == Some(DigitsValue(t[1..]))
  {
    if |t| > 0 && (t[0] == '+' || t[0] == '-') then
      var ds := t[1..];
      if ds != [] && AllDigits(ds) then
        Some(if t[0] == '-' then 0 - DigitsValue(ds) as int else DigitsValue(ds) as int)
      else None
    else if t != [] && AllDigits(t) then Some(DigitsValue(t))
    else None
  }

  /** `int(j)`; None where Python raises. */
  function PyInt(j: Json): (r: Option<int>)
    ensures j.JInt? ==> r == Some(j.i)
    ensures j.JBool? ==> r == Some(if j.b then 1 else 0)
    ensures j.JNum? ==> r == Some(TruncToInt(j.r))
    ensures j.JStr? ==> (r.Some? <==> IntText(Strip(j.s)))
    ensures j.JStr? && Strip(j.s) != [] && AllDigits(Strip(j.s)) ==> r == Some(DigitsValue(Strip(j.s)))
    ensures j.JNull? || j.JArr? || j.JObj? ==> r == None
  {
    match j
    case JBool(b) => Some(if b then 1 else 0)
    case JInt(i) => Some(i)
    case JNum(x) => Some(TruncToInt(x))
    case JStr(s) => ParseIntText(Strip(s))
    case _ => None
  }

  /** The position of the first `c` in `s`, or `|s|`. */
  function IndexOfChar(s: string, c: char): (k: nat)
    ensures k <= |s|
    ensures k < |s| ==> s[k] == c
    ensures forall j :: 0 <= j < k ==> s[j] != c
  {
    if s == [] then 0 else if s[0] == c then 0 else 1 + IndexOfChar(s[1..], c)
  }

  /** Unsigned decimal text `d+`, `d+.d*` or `.d+`. */
  function ParseUnsignedDecimal(u: string): (r: Option<real>)
    ensures u != [] && AllDigits(u) ==> r == Some(DigitsValue(u) as real)
    ensures r.Some? ==> u != []
  {
    var k := IndexOfChar(u, '.');
    if k == |u| then
      if u != [] && AllDigits(u) then Some(DigitsValue(u) as real) else None
    else
      var whole := u[..k];
      var frac := u[k + 1..];
      if AllDigits(whole) && AllDigits(frac) && |whole| + |frac| > 0 then
        Some(DigitsValue(whole) as real + DigitsValue(frac) as real / Pow10(|frac|) as real)
      else None
  }

  /** `float(t)` for a text already stripped, in plain decimal notation. */
  function ParseDecimalText(t: string): (r: Option<real>)
    ensures t != [] && AllDigits(t) ==> r == Some(DigitsValue(t) as real)
    ensures t == [] ==> r == None
    ensures |t| > 1 && t[0] == '-' && AllDigits(t[1..]) ==> r == Some(-(DigitsValue(t[1..]) as real))
  {
    if |t| > 0 && (t[0] == '+' || t[0] == '-') then
      match ParseUnsignedDecimal(t[1..])
      case Some(x) => Some(if t[0] == '-' then -x else x)
      case None => None
    else ParseUnsignedDecimal(t)
  }

  /** `float(j)`; None where Python raises. */
  function PyFloat(j: Json): (r: Option<real>)
    ensures j.JNum? ==> r == Some(j.r)
    ensures j.JInt? ==> r == Some(j.i as real)
    ensures j.JBool? ==> r == Some(if j.b then 1.0 else 0.0)
    ensures j.JStr? && Strip(j.s) == [] ==> r == None
    ensures j.JStr? && Strip(j.s) != [] && AllDigits(Strip(j.s)) ==> r == Some(DigitsValue(Strip(j.s)) as real)
    ensures j.JNull? || j.JArr? || j.JObj? ==> r == None
  {
    match j
    case JBool(b) => Some(if b then 1.0 else 0.0)
    case JInt(i) => Some(i as real)
    case JNum(x) => Some(x)
    case JStr(s) => ParseDecimalText(Strip(s))
    case _ => None
  }

  // ---------------------------------------------------------------------------
  // Paths, as POSIX `pathlib.PurePath` splits them

  /** The position of the last `c` in `s`, or -1. */
  function LastIndexOfChar(s: string, c: char): (k: int)
    ensures -1 <= k < |s|
    ensures k >= 0 ==> s[k] == c
    ensures forall j :: k < j < |s| ==> s[j] != c
  {
    if s == [] then -1
    else if s[|s| - 1] == c then |s| - 1
    else LastIndexOfChar(s[..|s| - 1], c)
  }

  /** `s` without its trailing `/` characters. */
  function DropTrailingSlashes(s: string): (r: string)
    ensures r <= s
    ensures r == [] || r[|r| - 1] != '/'
  {
    if s != [] && s[|s| - 1] == '/' then DropTrailingSlashes(s[..|s| - 1]) else s
  }

  /** `Path(p).name`: the last component of the path. */
  function Basename(p: string): (name: string)
    ensures '/' !in name
    ensures exists k :: 0 <= k <= |p| && name <= p[k..]
  {
    var q := DropTrailingSlashes(p);
    var k := LastIndexOfChar(q, '/');
    TailOfPrefix(q, p, k + 1);
    q[k + 1..]
  }

  /** Dropping the same number of leading items keeps a prefix a prefix. */
  lemma TailOfPrefix<T>(q: seq<T>, p: seq<T>, i: nat)
    requires q <= p && i <= |q|
    ensures i <= |p| && q[i..] <= p[i..]
  {
    assert forall j :: 0 <= j < |q| - i ==> q[i..][j] == q[i + j] == p[i + j] == p[i..][j];
  }

  /** `Path(p).stem`: the last component without its final suffix. */
  function Stem(p: string): (stem: string)
    ensures stem <= Basename(p)
    ensures stem != Basename(p) ==>
      (0 < |stem| && Basename(p)[|stem|] == '.'
       && forall j :: |stem| < j < |Basename(p)| ==> Basename(p)[j] != '.')
  {
    var name := Basename(p);
    var i := LastIndexOfChar(name, '.');
    if 0 < i < |name| - 1 then name[..i] else name
  }
}
