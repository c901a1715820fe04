/**
 * The parts of Go's `strconv` package the configuration resolver relies on:
 * `Atoi` (with Go's 64-bit `int`), `ParseBool`, and the decimal rendering that
 * `fmt`'s `%d` verb produces.  `Atoi` is written after the standard library's
 * own algorithm (a sign, then a left-to-right scan of decimal digits into an
 * unsigned 64-bit accumulator, then a signed range check), and the lemmas
 * relate it to the plain decimal reading of its input.
 */
module Strconv {
  import opened Errors

  const MaxUint64: int := 0xFFFF_FFFF_FFFF_FFFF
  const MaxInt64: int := 0x7FFF_FFFF_FFFF_FFFF
  const MinInt64: int := -0x8000_0000_0000_0000

  predicate InInt64(x: int) { MinInt64 <= x <= MaxInt64 }

  predicate IsDigit(c: char) { '0' <= c <= '9' }

  function DigitValue(c: char): (d: nat)
    requires IsDigit(c)
    ensures d < 10
  {
    (c as int) - ('0' as int)
  }

  function DigitChar(d: nat): (c: char)
    requires d < 10
    ensures IsDigit(c) && DigitValue(c) == d
  {
    (('0' as int) + d) as char
  }

  predicate AllDigits(s: string) {
    forall i :: 0 <= i < |s| ==> IsDigit(s[i])
  }

  function Pow10(k: nat): (p: nat)
    ensures p >= 1
  {
    if k == 0 then 1 else 10 * Pow10(k - 1)
  }

  /** The positional value of a string of decimal digits (the empty string reads as 0). */
  function DecimalValue(s: string): nat
    requires AllDigits(s)
  {
    if s == [] then 0 else DigitValue(s[0]) * Pow10(|s| - 1) + DecimalValue(s[1..])
  }

  predicate HasSign(s: string) {
    |s| > 0 && (s[0] == '+' || s[0] == '-')
  }

  /** The input with a leading sign, if any, taken off. */
  function Unsigned(s: string): (u: string)
    ensures |u| <= |s|
  {
    if HasSign(s) then s[1..] else s
  }

  /** The syntax `Atoi` accepts: an optional `+` or `-`, then one or more decimal digits. */
  predicate IsIntLiteral(s: string) {
    Unsigned(s) != [] && AllDigits(Unsigned(s))
  }

  /** The integer a literal denotes, without any bound. */
  function LiteralValue(s: string): int
    requires IsIntLiteral(s)
  {
    var magnitude: int := DecimalValue(Unsigned(s));
    if s[0] == '-' then -magnitude else magnitude
  }

  /** How `ParseUint`'s loop ends on base 10. */
  datatype Scan = Digits(value: nat) | BadDigit | Overflow

  /**
   * `ParseUint`'s loop: each character must be a decimal digit (else invalid
   * syntax); a digit that would take the accumulator past 2^64 - 1 stops the
   * scan with a range error even if a bad character follows.
   */
  function ScanUint(s: string, acc: nat): Scan
    requires acc <= MaxUint64
  {
    if s == [] then Digits(acc)
    else if !IsDigit(s[0]) then BadDigit
    else if acc * 10 + DigitValue(s[0]) > MaxUint64 then Overflow
    else ScanUint(s[1..], acc * 10 + DigitValue(s[0]))
  }

  /**
   * `strconv.Atoi` for a 64-bit `int`, including the error it returns: a
   * `NumError` whose `Func` is "Atoi" and whose `Num` is the whole input.
   */
  function Atoi(s: string): (r: Result<int>)
    ensures r.Ok? ==> InInt64(r.value)
    ensures r.Err? ==> r.error.NumError? && r.error.fn == "Atoi" && r.error.num == s
  {
    var neg := HasSign(s) && s[0] == '-';
    var body := Unsigned(s);
    if body == [] then Err(NumError("Atoi", s, ErrSyntax))
    else
      match ScanUint(body, 0)
      case BadDigit => Err(NumError("Atoi", s, ErrSyntax))
      case Overflow => Err(NumError("Atoi", s, ErrRange))
      case Digits(n) =>
        if !neg && n > MaxInt64 then Err(NumError("Atoi", s, ErrRange))
        else if neg && n > -MinInt64 then Err(NumError("Atoi", s, ErrRange))
        else Ok(if neg then -(n as int) else n)
  }

  /** On digits only, the scan computes the decimal value, or overflows exactly when that value passes 2^64 - 1. */
  lemma {:induction false} ScanAllDigits(s: string, acc: nat)
    requires AllDigits(s) && acc <= MaxUint64
    ensures var v := acc * Pow10(|s|) + DecimalValue(s);
      ScanUint(s, acc) == if v > MaxUint64 then Overflow else Digits(v)
  {
    if s != [] {
      var d := DigitValue(s[0]);
      var n := acc * 10 + d;
      var p := Pow10(|s| - 1);
      assert AllDigits(s[1..]);
      assert DecimalValue(s) == d * p + DecimalValue(s[1..]);
      assert Pow10(|s|) == 10 * p;
      ShiftDigit(acc, d, p);
      if n <= MaxUint64 {
        ScanAllDigits(s[1..], n);
      }
    }
  }

  /** Putting one more digit in front of p's worth of positions. */
  lemma ShiftDigit(acc: nat, d: nat, p: nat)
    requires p >= 1
    ensures acc * (10 * p) + d * p == (acc * 10 + d) * p
    ensures (acc * 10 + d) * p >= acc * 10 + d
  {
  }

  /** A string with a non-digit never scans to a value. */
  lemma {:induction false} ScanRejects(s: string, acc: nat)
    requires !AllDigits(s) && acc <= MaxUint64
    ensures !ScanUint(s, acc).Digits?
  {
    if IsDigit(s[0]) && acc * 10 + DigitValue(s[0]) <= MaxUint64 {
      var i :| 0 <= i < |s| && !IsDigit(s[i]);
      assert !IsDigit(s[1..][i - 1]);
      ScanRejects(s[1..], acc * 10 + DigitValue(s[0]));
    }
  }

  /** The scan does not overflow while the accumulator followed by |s| digits cannot pass 2^64 - 1. */
  lemma {:induction false} ScanNoOverflow(s: string, acc: nat)
    requires (acc + 1) * Pow10(|s|) <= MaxUint64 + 1
    ensures acc <= MaxUint64 && ScanUint(s, acc) != Overflow
  {
    ShiftDigit(acc + 1, 0, Pow10(|s|));
    if s != [] && IsDigit(s[0]) {
      var n := acc * 10 + DigitValue(s[0]);
      var p := Pow10(|s| - 1);
      assert Pow10(|s|) == 10 * p;
      NextDigitBound(acc, n, p);
      ScanNoOverflow(s[1..], n);
    }
  }

  lemma NextDigitBound(acc: nat, n: nat, p: nat)
    requires p >= 1 && n < acc * 10 + 10
    ensures (n + 1) * p <= (acc + 1) * (10 * p)
  {
    var m := (acc + 1) * 10;
    assert n + 1 <= m;
    MulMonotone(n + 1, m, p);
    assert m * p == (acc + 1) * (10 * p);
  }

  lemma MulMonotone(a: nat, b: nat, p: nat)
    requires a <= b
    ensures a * p <= b * p
  {
  }

  /**
   * Atoi succeeds exactly on the literals whose value fits a 64-bit `int`, and
   * then returns that value; an in-syntax literal outside the range is a range
   * error, and everything that is not a literal fails.
   */
  lemma AtoiAccepts(s: string)
    ensures Atoi(s).Ok? <==> IsIntLiteral(s) && InInt64(LiteralValue(s))
    ensures Atoi(s).Ok? ==> Atoi(s).value == LiteralValue(s)
    ensures IsIntLiteral(s) && !InInt64(LiteralValue(s)) ==> Atoi(s) == Err(NumError("Atoi", s, ErrRange))
  {
    var body := Unsigned(s);
    if body != [] {
      if AllDigits(body) {
        ScanAllDigits(body, 0);
      } else {
        ScanRejects(body, 0);
      }
    }
  }

  /**
   * Go's fast path: an input shorter than 19 bytes can never be out of range,
   * so every error it gets is invalid syntax.
   */
  lemma AtoiShortInput(s: string)
    requires |s| < 19
    ensures Atoi(s).Err? ==> Atoi(s).error.kind == ErrSyntax
  {
    var body := Unsigned(s);
    if body != [] {
      Pow10Monotone(|body|, 18);
      Pow10Value18();
      assert (0 + 1) * Pow10(|body|) == Pow10(|body|);
      ScanNoOverflow(body, 0);
      if AllDigits(body) {
        ScanAllDigits(body, 0);
        DecimalValueBound(body);
        assert 0 * Pow10(|body|) + DecimalValue(body) == DecimalValue(body);
        assert ScanUint(body, 0) == Digits(DecimalValue(body));
      } else {
        ScanRejects(body, 0);
        assert ScanUint(body, 0) == BadDigit;
      }
    }
  }

  lemma {:induction false} Pow10Monotone(i: nat, j: nat)
    requires i <= j
    ensures Pow10(i) <= Pow10(j)
  {
    if i < j { Pow10Monotone(i, j - 1); }
  }

  lemma Pow10Value18()
    ensures Pow10(18) == 1_000_000_000_000_000_000
  {
    assert Pow10(2) == 100;
    assert Pow10(4) == 10_000;
    assert Pow10(6) == 1_000_000;
    assert Pow10(8) == 100_000_000;
    assert Pow10(10) == 10_000_000_000;
    assert Pow10(12) == 1_000_000_000_000;
    assert Pow10(14) == 100_000_000_000_000;
    assert Pow10(16) == 10_000_000_000_000_000;
  }

  /** A string of k digits denotes a value below 10^k. */
  lemma {:induction false} DecimalValueBound(s: string)
    requires AllDigits(s)
    ensures DecimalValue(s) < Pow10(|s|)
  {
    if s != [] {
      assert AllDigits(s[1..]);
      DecimalValueBound(s[1..]);
      LeadingDigitBound(DigitValue(s[0]), Pow10(|s| - 1), DecimalValue(s[1..]));
    }
  }

  lemma LeadingDigitBound(d: nat, p: nat, rest: nat)
    requires d < 10 && rest < p
    ensures d * p + rest < 10 * p
  {
    assert (9 - d) * p >= 0;
  }

  /** Appending a digit multiplies the value by ten and adds the digit. */
  lemma {:induction false} DecimalValueSnoc(s: string, c: char)
    requires AllDigits(s) && IsDigit(c)
    ensures AllDigits(s + [c]) && DecimalValue(s + [c]) == DecimalValue(s) * 10 + DigitValue(c)
  {
    assert AllDigits(s + [c]);
    if s != [] {
      assert (s + [c])[1..] == s[1..] + [c];
      assert AllDigits(s[1..]);
      DecimalValueSnoc(s[1..], c);
      var d := DigitValue(s[0]);
      var p := Pow10(|s| - 1);
      assert DecimalValue(s + [c]) == d * Pow10(|s|) + DecimalValue(s[1..] + [c]);
      assert Pow10(|s|) == 10 * p;
      SnocArith(d, p, DecimalValue(s[1..]));
    }
  }

  lemma SnocArith(d: nat, p: nat, rest: nat)
    ensures d * (10 * p) + rest * 10 == (d * p + rest) * 10
  {
  }

  /** `%d` of a natural number: its decimal digits, most significant first, without leading zeros. */
  function FormatNat(n: nat): (s: string)
    ensures |s| >= 1 && AllDigits(s)
    ensures s[0] == '0' ==> n == 0
  {
    if n < 10 then [DigitChar(n)] else FormatNat(n / 10) + [DigitChar(n % 10)]
  }

  /** `%d` of an integer (also `strconv.Itoa`). */
  function FormatInt(x: int): string {
    if x < 0 then "-" + FormatNat(-x) else FormatNat(x)
  }

  lemma {:induction false} FormatNatValue(n: nat)
    ensures DecimalValue(FormatNat(n)) == n
  {
    if n >= 10 {
      FormatNatValue(n / 10);
      DecimalValueSnoc(FormatNat(n / 10), DigitChar(n % 10));
    }
  }

  /** `Atoi` reads back every 64-bit integer that `%d` writes. */
  lemma AtoiFormatInt(x: int)
    requires InInt64(x)
    ensures Atoi(FormatInt(x)) == Ok(x)
  {
    var s := FormatInt(x);
    var digits := if x < 0 then FormatNat(-x) else FormatNat(x);
    FormatNatValue(if x < 0 then -x else x);
    assert Unsigned(s) == digits;
    assert IsIntLiteral(s) && LiteralValue(s) == x;
    AtoiAccepts(s);
  }

  const TrueLiterals: set<string> := {"1", "t", "T", "TRUE", "true", "True"}
  const FalseLiterals: set<string> := {"0", "f", "F", "FALSE", "false", "False"}

  /** `strconv.ParseBool`. */
  function ParseBool(str: string): (r: Result<bool>)
    ensures r == Ok(true) <==> str in TrueLiterals
    ensures r == Ok(false) <==> str in FalseLiterals
    ensures r.Err? ==> r.error == NumError("ParseBool", str, ErrSyntax)
  {
    match str
    case "1" | "t" | "T" | "TRUE" | "true" | "True" => Ok(true)
    case "0" | "f" | "F" | "FALSE" | "false" | "False" => Ok(false)
    case _ => Err(NumError("ParseBool", str, ErrSyntax))
  }

  /** The empty string is not a boolean, which is why an unset DEBUG is tested for before it is parsed. */
  lemma ParseBoolRejectsEmpty()
    ensures ParseBool("").Err?
  {
  }
}
