/** The slice of PHP value semantics the socket relies on: the dynamic value
    type, truthiness (`if ($x)`, `empty`), `is_numeric`, the `(int)` cast,
    integer-to-string conversion and substring search. */
module Php {

  /** A PHP value. Arrays and objects never reach the socket's checks and are not modelled;
      a stream resource is identified by its handle number. */
  datatype Value =
    | PNull
    | PBool(b: bool)
    | PInt(i: int)
    | PFloat(f: real)
    | PStr(s: string)
    | PResource(id: nat)

  /** PHP's conversion to boolean; `empty($v)` is its negation. */
  predicate Truthy(v: Value) {
    match v
    case PNull => false
    case PBool(b) => b
    case PInt(i) => i != 0
    case PFloat(f) => f != 0.0
    case PStr(s) => s != "" && s != "0"
    case PResource(_) => true
  }

  predicate IsDigit(c: char) { '0' <= c <= '9' }

  /** The characters C's `isspace` skips in front of a number. */
  predicate IsSpace(c: char) {
    c == ' ' || c == '\t' || c == '\n' || c == '\r' || c as int == 11 || c as int == 12
  }

  predicate IsSign(c: char) { c == '+' || c == '-' }

  /** The end of the run of digits that starts at `i`. */
  function DigitRun(s: string, i: nat): (j: nat)
    requires i <= |s|
    ensures i <= j <= |s|
    ensures forall k :: i <= k < j ==> IsDigit(s[k])
    ensures j < |s| ==> !IsDigit(s[j])
    decreases |s| - i
  {
    if i < |s| && IsDigit(s[i]) then DigitRun(s, i + 1) else i
  }

  /** The end of the run of white space that starts at `i`. */
  function SpaceRun(s: string, i: nat): (j: nat)
    requires i <= |s|
    ensures i <= j <= |s|
    ensures forall k :: i <= k < j ==> IsSpace(s[k])
    ensures j < |s| ==> !IsSpace(s[j])
    decreases |s| - i
  {
    if i < |s| && IsSpace(s[i]) then SpaceRun(s, i + 1) else i
  }

  /** The position after an optional sign at `i`. */
  function AfterSign(s: string, i: nat): (j: nat)
    requires i <= |s|
    ensures i <= j <= |s| && j <= i + 1
  {
    if i < |s| && IsSign(s[i]) then i + 1 else i
  }

  /** The number a string of decimal digits denotes. */
  function DigitsValue(d: string): (n: nat)
    requires forall k :: 0 <= k < |d| ==> IsDigit(d[k])
  {
    if d == [] then 0 else
      var last := d[|d| - 1];
      assert IsDigit(last);
      10 * DigitsValue(d[..|d| - 1]) + (last as int - '0' as int)
  }

  /** An exponent `e`/`E`, an optional sign and at least one digit, running to the end of `s`. */
  predicate IsExponentTail(s: string, q: nat)
    requires q <= |s|
  {
    q < |s| && (s[q] == 'e' || s[q] == 'E') &&
    var e := AfterSign(s, q + 1);
    e < |s| && DigitRun(s, e) == |s|
  }

  /** PHP 5's numeric strings: leading white space, an optional sign, digits with an optional
      fraction (at least one digit in all), an optional exponent, and nothing after it. */
  predicate IsNumericString(s: string) {
    var j := AfterSign(s, SpaceRun(s, 0));
    var p := DigitRun(s, j);
    var q := if p < |s| && s[p] == '.' then DigitRun(s, p + 1) else p;
    var digits := (p - j) + (if q > p then q - p - 1 else 0);
    digits >= 1 && (q == |s| || IsExponentTail(s, q))
  }

  /** `is_numeric`. */
  predicate IsNumeric(v: Value) {
    match v
    case PInt(_) => true
    case PFloat(_) => true
    case PStr(s) => IsNumericString(s)
    case _ => false
  }

  /** What C's `strtol(s, NULL, 10)` returns, without its saturation at the long range:
      white space, an optional sign, then as many digits as follow. */
  function StrToLong(s: string): (n: int) {
    var j := AfterSign(s, SpaceRun(s, 0));
    var magnitude: int := DigitsValue(s[j..DigitRun(s, j)]);
    if j > 0 && s[j - 1] == '-' then -magnitude else magnitude
  }

  /** Truncation toward zero, as PHP casts a float to an integer. */
  function Truncate(f: real): (i: int) {
    if f >= 0.0 then f.Floor else -((-f).Floor)
  }

  /** The `(int)` cast of PHP 5. */
  function IntCast(v: Value): (i: int) {
    match v
    case PNull => 0
    case PBool(b) => if b then 1 else 0
    case PInt(i) => i
    case PFloat(f) => Truncate(f)
    case PStr(s) => StrToLong(s)
    case PResource(id) => id
  }

  function DigitChar(d: nat): (c: char)
    requires d < 10
    ensures IsDigit(c) && c as int - '0' as int == d
  {
    ('0' as int + d) as char
  }

  /** The decimal digits of a natural number, without leading zeros. */
  function Decimal(n: nat): (s: string)
    ensures |s| >= 1
    ensures forall k :: 0 <= k < |s| ==> IsDigit(s[k])
  {
    if n < 10 then [DigitChar(n)] else Decimal(n / 10) + [DigitChar(n % 10)]
  }

  /** PHP's conversion of an integer to a string, as in `'...' . $n . '...'`. */
  function IntToString(i: int): (s: string)
    ensures |s| >= 1
  {
    if i < 0 then "-" + Decimal(-i) else Decimal(i)
  }

  lemma {:induction false} DecimalValue(n: nat)
    ensures DigitsValue(Decimal(n)) == n
  {
    if n >= 10 {
      var d := Decimal(n);
      assert d[..|d| - 1] == Decimal(n / 10);
      DecimalValue(n / 10);
    }
  }

  /** An integer written out as a string is numeric and casts back to the same integer, so a
      port given as `"8080"` is stored as 8080. */
  lemma IntToStringRoundTrip(i: int)
    ensures IsNumeric(PStr(IntToString(i)))
    ensures IntCast(PStr(IntToString(i))) == i
  {
    var s := IntToString(i);
    var d := if i < 0 then Decimal(-i) else Decimal(i);
    var j := if i < 0 then 1 else 0;
    assert s[j..] == d;
    assert SpaceRun(s, 0) == 0;
    assert AfterSign(s, 0) == j;
    assert DigitRun(s, j) == |s|;
    assert s[j..DigitRun(s, j)] == d;
    DecimalValue(if i < 0 then -i else i);
  }

  /** `needle` occurs in `hay` at position `i`. */
  predicate OccursAt(hay: string, needle: string, i: nat) {
    i + |needle| <= |hay| && hay[i..i + |needle|] == needle
  }

  /** `strpos($hay, $needle) !== FALSE`. */
  predicate Contains(hay: string, needle: string) {
    exists i: nat :: i <= |hay| && OccursAt(hay, needle, i)
  }

  function LowerChar(c: char): (lower: char) {
    if 'A' <= c <= 'Z' then (c as int + 32) as char else c
  }

  function Lower(s: string): (r: string)
    ensures |r| == |s|
    ensures forall k :: 0 <= k < |s| ==> r[k] == LowerChar(s[k])
  {
    seq(|s|, k requires 0 <= k < |s| => LowerChar(s[k]))
  }

  /** A match of the case-insensitive pattern `#needle#i` for a literal needle. */
  predicate ContainsIgnoringCase(hay: string, needle: string) {
    Contains(Lower(hay), Lower(needle))
  }
}
