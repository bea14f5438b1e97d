/** JavaScript string values as the adapter sees them.

    A JavaScript string is a sequence of UTF-16 code units, and the regular
    expression `\W` (without the `u` flag) tests one code unit at a time, so
    strings are modelled as sequences of code units rather than Dafny chars.
    The module also holds the two JavaScript conversions the adapter relies on
    implicitly: `'' + value` for a value that may be `undefined`, and the
    decimal rendering of a non-negative integer (`Date.now()` in a `+`).
 */
module JsText {

  /** One UTF-16 code unit. */
  newtype CodeUnit = u: int | 0 <= u < 0x1_0000

  type JsString = seq<CodeUnit>

  /** A configuration or request field that may be `undefined`. */
  datatype Option<+T> = None | Some(value: T)

  const Slash: CodeUnit := 0x2F
  const Dot: CodeUnit := 0x2E
  const Hyphen: CodeUnit := 0x2D
  const Underscore: CodeUnit := 0x5F
  const ZeroDigit: CodeUnit := 0x30

  /** The code units of a literal. Every literal of the model is ASCII, so each
      of its characters is one code unit. */
  function Lit(s: string): (r: JsString)
    ensures |r| == |s|
  {
    seq(|s|, i requires 0 <= i < |s| => if s[i] as int < 0x1_0000 then s[i] as int as CodeUnit else 0xFFFD)
  }

  /** Literals join as their code units do. */
  lemma LitConcat(a: string, b: string)
    ensures Lit(a + b) == Lit(a) + Lit(b)
  {
  }

  /** The index of the first occurrence of `u` in `s`, or -1 when there is none. */
  function IndexOf(s: JsString, u: CodeUnit): (k: int)
    ensures -1 <= k < |s|
    ensures k >= 0 ==> s[k] == u
    ensures forall i :: 0 <= i < |s| && (k < 0 || i < k) ==> s[i] != u
  {
    if s == [] then -1
    else if s[0] == u then 0
    else
      var k := IndexOf(s[1..], u);
      if k < 0 then -1 else k + 1
  }

  /** The index of the last occurrence of `u` in `s`, or -1 when there is none. */
  function LastIndexOf(s: JsString, u: CodeUnit): (k: int)
    ensures -1 <= k < |s|
    ensures k >= 0 ==> s[k] == u
    ensures forall i :: k < i < |s| ==> s[i] != u
  {
    if s == [] then -1
    else if s[|s| - 1] == u then |s| - 1
    else LastIndexOf(s[..|s| - 1], u)
  }

  /** JavaScript truthiness of a field that is a string or `undefined`:
      `undefined` and the empty string are falsy. */
  predicate Truthy(v: Option<JsString>) {
    v.Some? && v.value != []
  }

  /** The string that `+` produces from a string or `undefined` operand. */
  function ToJsString(v: Option<JsString>): JsString {
    match v
    case Some(s) => s
    case None => Lit("undefined")
  }

  /** Membership in the class `[A-Za-z0-9_]`, the complement of `\W`. */
  predicate IsWordUnit(u: CodeUnit) {
    (0x30 <= u <= 0x39) || (0x41 <= u <= 0x5A) || (0x61 <= u <= 0x7A) || u == Underscore
  }

  predicate IsDigit(u: CodeUnit) {
    0x30 <= u <= 0x39
  }

  predicate AllDigits(s: JsString) {
    forall i :: 0 <= i < |s| ==> IsDigit(s[i])
  }

  /** A decimal numeral as JavaScript writes an integer: at least one digit and
      no leading zero unless the numeral is "0". */
  predicate IsCanonicalNumeral(s: JsString) {
    s != [] && AllDigits(s) && (s[0] == ZeroDigit ==> |s| == 1)
  }

  /** The numeral of a non-negative integer, as `String(n)` renders it. */
  function Decimal(n: nat): (r: JsString)
    ensures IsCanonicalNumeral(r)
  {
    if n < 10 then [(0x30 + n) as CodeUnit]
    else Decimal(n / 10) + [(0x30 + n % 10) as CodeUnit]
  }

  /** Appending a digit to a positive number appends it to the numeral. */
  lemma DecimalDigit(n: nat, d: nat)
    requires n >= 1 && d < 10
    ensures Decimal(10 * n + d) == Decimal(n) + [(0x30 + d) as CodeUnit]
  {
    assert (10 * n + d) / 10 == n && (10 * n + d) % 10 == d;
  }

  /** The value a string of digits denotes (an independent reading of a numeral). */
  function NumeralValue(s: JsString): nat
    requires AllDigits(s)
  {
    if s == [] then 0
    else NumeralValue(s[..|s| - 1]) * 10 + (s[|s| - 1] - ZeroDigit) as int
  }

  /** Reading back the numeral of `n` gives `n`. */
  lemma {:induction false} DecimalRoundTrip(n: nat)
    ensures NumeralValue(Decimal(n)) == n
  {
    if n >= 10 {
      DecimalRoundTrip(n / 10);
      var s := Decimal(n);
      assert s[..|s| - 1] == Decimal(n / 10);
    }
  }

  /** Every canonical numeral is the rendering of the value it denotes. */
  lemma {:induction false} CanonicalNumeralRoundTrip(s: JsString)
    requires IsCanonicalNumeral(s)
    ensures Decimal(NumeralValue(s)) == s
  {
    if |s| > 1 {
      var init := s[..|s| - 1];
      assert init[0] == s[0];
      LeadingDigitBound(init);
      CanonicalNumeralRoundTrip(init);
      assert init + [s[|s| - 1]] == s;
    }
  }

  /** A numeral whose first digit is not zero denotes a positive number. */
  lemma {:induction false} LeadingDigitBound(s: JsString)
    requires s != [] && AllDigits(s) && s[0] != ZeroDigit
    ensures NumeralValue(s) >= 1
  {
    if |s| > 1 {
      var init := s[..|s| - 1];
      assert init[0] == s[0];
      LeadingDigitBound(init);
    }
  }

  /** Distinct integers have distinct numerals. */
  lemma DecimalInjective(m: nat, n: nat)
    requires Decimal(m) == Decimal(n)
    ensures m == n
  {
    DecimalRoundTrip(m);
    DecimalRoundTrip(n);
  }
}
