/**
 * Stand-ins for the two number parsers the rules call: `strconv.Atoi` and
 * `strconv.ParseFloat`. Only plain decimal notation is understood (an
 * optional sign, digits, and for floats one optional decimal point).
 */
module Numbers {

  datatype Option<T> = None | Some(value: T)

  /** Bounds of Go's `int` on a 64-bit platform, which `strconv.Atoi` enforces. */
  const MinInt64: int := -0x8000_0000_0000_0000
  const MaxInt64: int := 0x7FFF_FFFF_FFFF_FFFF

  predicate IsDigit(c: char) {
    '0' <= c <= '9'
  }

  predicate AllDigits(s: string) {
    forall i :: 0 <= i < |s| ==> IsDigit(s[i])
  }

  /** The natural number a string of decimal digits denotes. */
  function DigitsValue(s: string): nat
    requires AllDigits(s)
  {
    if s == [] then 0
    else DigitsValue(s[..|s| - 1]) * 10 + (s[|s| - 1] as int - '0' as int)
  }

  function Pow10(n: nat): (p: nat)
    ensures p >= 1
  {
    if n == 0 then 1 else 10 * Pow10(n - 1)
  }

  /** The index of the first `c` in `s`, or `|s|` when there is none. */
  function IndexOf(s: string, c: char): (k: nat)
    ensures k <= |s|
    ensures k < |s| ==> s[k] == c
    ensures forall j :: 0 <= j < k ==> s[j] != c
  {
    if s == [] then 0
    else if s[0] == c then 0
    else 1 + IndexOf(s[1..], c)
  }

  /** A leading `+` or `-`, as a factor, and the rest of the string. */
  function SplitSign(s: string): (r: (int, string))
    ensures r.0 == 1 || r.0 == -1
    ensures |r.1| <= |s|
  {
    if |s| > 0 && s[0] == '-' then (-1, s[1..])
    else if |s| > 0 && s[0] == '+' then (1, s[1..])
    else (1, s)
  }

  /** `strconv.Atoi`: a signed decimal integer within 64 bits, or nothing. */
  function ParseInt(s: string): (r: Option<int>)
    ensures r.Some? ==> MinInt64 <= r.value <= MaxInt64
    ensures r.Some? ==> s != []
  {
    var (sign, digits) := SplitSign(s);
    if digits != [] && AllDigits(digits) && MinInt64 <= sign * DigitsValue(digits) <= MaxInt64
    then Some(sign * DigitsValue(digits))
    else None
  }

  /** `strconv.ParseFloat(s, 64)` on plain decimals: an optional sign, then
      digits with at most one decimal point and at least one digit. */
  function ParseFloat(s: string): (r: Option<real>)
    ensures r.Some? ==> s != []
  {
    var (sign, body) := SplitSign(s);
    var k := IndexOf(body, '.');
    var whole := body[..k];
    var frac := if k < |body| then body[k + 1..] else "";
    if AllDigits(whole) && AllDigits(frac) && |whole| + |frac| > 0
    then Some(sign as real * (DigitsValue(whole) as real + DigitsValue(frac) as real / Pow10(|frac|) as real))
    else None
  }

  /** Every string `Atoi` accepts, `ParseFloat` accepts too, with the same value. */
  lemma ParseIntIsParseFloat(s: string)
    requires ParseInt(s).Some?
    ensures ParseFloat(s) == Some(ParseInt(s).value as real)
  {
    var (sign, body) := SplitSign(s);
    var k := IndexOf(body, '.');
    assert k == |body|;
    assert body[..k] == body;
    assert DigitsValue("") == 0;
  }
}
