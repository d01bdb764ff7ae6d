/**
 * The two Swift standard-library conversions the import applies to the text fields of an
 * export record: `Int(_ text: String)` and `Bool(_ description: String)`.
 *
 * `ParseInt` follows the library's algorithm (read an optional sign, then fold in one decimal
 * digit at a time, giving up on a non-digit or on the first step that overflows `Int`); its
 * contract ties it to a reference reading of the text (literal syntax, mathematical value,
 * 64-bit range), and `FormatInt` is its inverse on every `Int`.
 */
module SwiftConversions {
  import opened Optional

  /** Bounds of Swift's `Int`, 64 bits wide on the devices the app runs on. */
  const IntMin: int := -0x8000_0000_0000_0000
  const IntMax: int := 0x7FFF_FFFF_FFFF_FFFF

  predicate InIntRange(n: int) {
    IntMin <= n <= IntMax
  }

  predicate IsDigit(c: char) {
    '0' <= c <= '9'
  }

  predicate AllDigits(s: string) {
    forall i :: 0 <= i < |s| ==> IsDigit(s[i])
  }

  function DigitValue(c: char): (d: nat)
    requires IsDigit(c)
    ensures d < 10
  {
    c as int - '0' as int
  }

  /** The number a run of decimal digits denotes, most significant digit first. */
  function DecimalValue(ds: string): nat
    requires AllDigits(ds)
  {
    if ds == [] then 0 else DecimalValue(ds[..|ds| - 1]) * 10 + DigitValue(ds[|ds| - 1])
  }

  function Signed(negative: bool, n: nat): int {
    if negative then -(n as int) else n
  }

  // ---------------------------------------------------------------------------
  // Reference reading of an integer literal

  predicate HasSign(s: string) {
    |s| > 0 && (s[0] == '+' || s[0] == '-')
  }

  predicate IsNegative(s: string) {
    |s| > 0 && s[0] == '-'
  }

  /** The text after the optional sign. */
  function Magnitude(s: string): string {
    if HasSign(s) then s[1..] else s
  }

  /** The texts `Int(_:)` can read: an optional `+` or `-`, then one or more ASCII digits, nothing else. */
  predicate IsIntLiteral(s: string) {
    |Magnitude(s)| > 0 && AllDigits(Magnitude(s))
  }

  function LiteralValue(s: string): int
    requires IsIntLiteral(s)
  {
    Signed(IsNegative(s), DecimalValue(Magnitude(s)))
  }

  // ---------------------------------------------------------------------------
  // Swift's parser

  /**
   * The digit loop of `Int(_:)`: `acc` holds the value of `ds[..i]` (negated for a negative
   * literal); each step multiplies by ten and adds or subtracts the next digit, and fails if
   * either operation overflows `Int`.
   */
  function AccumulateDigits(ds: string, negative: bool, i: nat, acc: int): Option<int>
    requires i <= |ds|
    decreases |ds| - i
  {
    if i == |ds| then Some(acc)
    else if !IsDigit(ds[i]) then None
    else
      var scaled := acc * 10;
      if !InIntRange(scaled) then None
      else
        var next := if negative then scaled - DigitValue(ds[i]) else scaled + DigitValue(ds[i]);
        if !InIntRange(next) then None
        else AccumulateDigits(ds, negative, i + 1, next)
  }

  /** `Int(text)`: nil unless `text` is a decimal literal whose value fits in `Int`. */
  function ParseInt(s: string): (r: Option<int>)
    ensures r.Some? <==> IsIntLiteral(s) && InIntRange(LiteralValue(s))
    ensures r.Some? ==> r.value == LiteralValue(s)
  {
    var digits := Magnitude(s);
    if digits == [] then None
    else
      assert digits[..0] == [];
      AccumulateCorrect(digits, IsNegative(s), 0, 0);
      AccumulateDigits(digits, IsNegative(s), 0, 0)
  }

  /** A prefix of a digit run never denotes more than the whole run. */
  lemma {:induction false} DecimalValuePrefix(ds: string, j: nat)
    requires AllDigits(ds) && j <= |ds|
    ensures AllDigits(ds[..j]) && DecimalValue(ds[..j]) <= DecimalValue(ds)
    decreases |ds|
  {
    if j < |ds| {
      var front := ds[..|ds| - 1];
      assert front[..j] == ds[..j];
      DecimalValuePrefix(front, j);
    } else {
      assert ds[..j] == ds;
    }
  }

  /** From any point of the digit loop, the parser ends with the reference value, or fails exactly when that is out of range or a non-digit follows. */
  lemma {:induction false} AccumulateCorrect(ds: string, negative: bool, i: nat, acc: int)
    requires i <= |ds| && AllDigits(ds[..i])
    requires acc == Signed(negative, DecimalValue(ds[..i])) && InIntRange(acc)
    ensures AccumulateDigits(ds, negative, i, acc) ==
      if AllDigits(ds) && InIntRange(Signed(negative, DecimalValue(ds)))
      then Some(Signed(negative, DecimalValue(ds)))
      else None
    decreases |ds| - i
  {
    if i == |ds| {
      assert ds[..i] == ds;
    } else if !IsDigit(ds[i]) {
      assert !AllDigits(ds);
    } else {
      var p := ds[..i + 1];
      assert p[..i] == ds[..i];
      assert AllDigits(p);
      assert DecimalValue(p) == DecimalValue(ds[..i]) * 10 + DigitValue(ds[i]);
      var scaled := acc * 10;
      var next := if negative then scaled - DigitValue(ds[i]) else scaled + DigitValue(ds[i]);
      assert next == Signed(negative, DecimalValue(p));
      if !InIntRange(scaled) || !InIntRange(next) {
        assert !InIntRange(Signed(negative, DecimalValue(p)));
        if AllDigits(ds) {
          DecimalValuePrefix(ds, i + 1);
        }
      } else {
        AccumulateCorrect(ds, negative, i + 1, next);
      }
    }
  }

  // ---------------------------------------------------------------------------
  // Inverse: the decimal text of an Int

  function DigitChar(d: nat): (c: char)
    requires d < 10
    ensures IsDigit(c) && DigitValue(c) == d
  {
    ('0' as int + d) as char
  }

  function FormatNat(n: nat): string
    decreases n
  {
    if n < 10 then [DigitChar(n)] else FormatNat(n / 10) + [DigitChar(n % 10)]
  }

  /** `String(n)` for an `Int`: a minus sign for negatives, then the digits without leading zeros. */
  function FormatInt(n: int): string {
    if n < 0 then "-" + FormatNat(-n) else FormatNat(n)
  }

  lemma {:induction false} FormatNatValue(n: nat)
    ensures |FormatNat(n)| > 0 && AllDigits(FormatNat(n)) && DecimalValue(FormatNat(n)) == n
    decreases n
  {
    var s := FormatNat(n);
    if n >= 10 {
      FormatNatValue(n / 10);
      assert s[..|s| - 1] == FormatNat(n / 10);
    }
  }

  /** `Int(String(n)) == n` for every `Int` value `n`. */
  lemma ParseFormatRoundTrip(n: int)
    requires InIntRange(n)
    ensures ParseInt(FormatInt(n)) == Some(n)
  {
    var s := FormatInt(n);
    if n < 0 {
      FormatNatValue(-n);
      assert Magnitude(s) == FormatNat(-n);
    } else {
      FormatNatValue(n);
      assert Magnitude(s) == FormatNat(n);
    }
  }

  /** Sample readings: a plain number, signs, and texts that are not literals. */
  lemma ParseIntExamples()
    ensures ParseInt("6") == Some(6)
    ensures ParseInt("30") == Some(30)
    ensures ParseInt("+7") == Some(7)
    ensures ParseInt("-42") == Some(-42)
    ensures ParseInt("abc") == None
    ensures ParseInt("") == None
    ensures ParseInt("-") == None
    ensures ParseInt(" 6") == None
    ensures ParseInt("6.0") == None
  {
    assert Magnitude("30") == "30";
    assert "30"[..1] == "3";
    assert Magnitude("-42") == "42";
    assert "42"[..1] == "4";
    assert Magnitude("+7") == "7";
    assert !IsDigit("abc"[0]);
    assert !IsDigit(" 6"[0]);
    assert !IsDigit("6.0"[1]);
  }

  // ---------------------------------------------------------------------------
  // Bool

  /** `Bool(text)`: only the exact texts "true" and "false" are read. */
  function ParseBool(s: string): (r: Option<bool>)
    ensures r.Some? <==> s == "true" || s == "false"
    ensures r.Some? ==> (r.value <==> s == "true")
  {
    if s == "true" then Some(true) else if s == "false" then Some(false) else None
  }

  /** `String(b)` for a `Bool`. */
  function FormatBool(b: bool): string {
    if b then "true" else "false"
  }

  lemma ParseBoolRoundTrip(b: bool)
    ensures ParseBool(FormatBool(b)) == Some(b)
  {
  }
}
