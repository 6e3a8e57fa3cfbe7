/** The part of Go's `strconv` package that the command engine relies on:
    `strconv.Atoi` to read a task id and `strconv.Itoa` to print one. Go's
    `int` is taken to be 64 bits wide. */
module StrConv {
  import opened Wrappers

  const MinInt64: int := -0x8000_0000_0000_0000
  const MaxInt64: int := 0x7fff_ffff_ffff_ffff
  const MaxUint64: int := 0xffff_ffff_ffff_ffff

  /** The two ways `strconv.Atoi` can fail. */
  datatype NumError = ErrSyntax | ErrRange

  predicate IsDigit(c: char) {
    '0' <= c <= '9'
  }

  predicate AllDigits(s: string) {
    forall i :: 0 <= i < |s| ==> IsDigit(s[i])
  }

  function DigitValue(c: char): nat
    requires IsDigit(c)
  {
    c as int - '0' as int
  }

  function DigitChar(d: nat): (c: char)
    requires d < 10
    ensures IsDigit(c) && DigitValue(c) == d
  {
    (d + '0' as int) as char
  }

  /** The value of a run of decimal digits, read left to right as
      `n = n*10 + digit`. */
  function DigitsValue(s: string): nat
    requires AllDigits(s)
    decreases |s|
  {
    if |s| == 0 then 0 else DigitsValue(s[..|s| - 1]) * 10 + DigitValue(s[|s| - 1])
  }

  /** The digit loop of `strconv.ParseUint` in base 10, which `strconv.Atoi`
      runs on the digits after the sign: starting from `acc`, a byte that is
      not a digit is a syntax error, and a digit that takes the running value
      `acc * 10 + digit` past 64 unsigned bits is a range error, reported at
      that digit, before any later byte is read. For input shorter than 19
      bytes, where `strconv.Atoi` takes its own fast loop, no value can get
      that large, so both loops give the same result. */
  function ScanDigits(s: string, acc: nat): (r: Result<nat, NumError>)
    requires acc <= MaxUint64
    ensures r.Ok? ==> AllDigits(s) && r.value <= MaxUint64
    decreases |s|
  {
    if |s| == 0 then Ok(acc)
    else if !IsDigit(s[0]) then Err(ErrSyntax)
    else
      var n := acc * 10 + DigitValue(s[0]);
      if n > MaxUint64 then Err(ErrRange)
      else
        var r := ScanDigits(s[1..], n);
        assert r.Ok? ==> forall i :: 0 <= i < |s| ==> IsDigit(s[i]) by {
          if r.Ok? {
            forall i | 0 <= i < |s| ensures IsDigit(s[i]) {
              if i > 0 { assert s[i] == s[1..][i - 1]; }
            }
          }
        }
        r
  }

  /** `strconv.Atoi`: an optional `+` or `-`, then one or more ASCII digits
      (leading zeros allowed). A numeral whose value is outside the 64-bit
      range is a range error; so is any text whose leading digits already
      exceed 64 unsigned bits before its first non-digit; other text is a
      syntax error. */
  function Atoi(s: string): (r: Result<int, NumError>)
    ensures r.Ok? ==> MinInt64 <= r.value <= MaxInt64
    ensures r.Ok? ==> IsNumeral(s)
    ensures IsNumeral(s) ==> r == InRange(NumeralValue(s))
    ensures !IsNumeral(s) ==> r == Err(if LeadingValue(s) > MaxUint64 then ErrRange else ErrSyntax)
  {
    if |s| == 0 then Err(ErrSyntax)
    else
      var body := Unsigned(s);
      if |body| == 0 then Err(ErrSyntax)
      else
        AtoiScan(s);
        match ScanDigits(body, 0)
        case Err(e) => Err(e)
        case Ok(n) =>
          var v: int := if s[0] == '-' then -(n as int) else n;
          if v < MinInt64 || v > MaxInt64 then Err(ErrRange) else Ok(v)
  }

  /** The digit loop over the text after the sign, in terms of the grammar. */
  lemma AtoiScan(s: string)
    requires |Unsigned(s)| > 0
    ensures IsNumeral(s) ==>
      ScanDigits(Unsigned(s), 0)
        == (if DigitsValue(Unsigned(s)) > MaxUint64 then Err(ErrRange) else Ok(DigitsValue(Unsigned(s))))
    ensures !IsNumeral(s) ==>
      ScanDigits(Unsigned(s), 0) == Err(if LeadingValue(s) > MaxUint64 then ErrRange else ErrSyntax)
  {
    var body := Unsigned(s);
    ScanDigitsMeaning(body, 0);
    var run := DigitRun(body);
    assert 0 * Pow10(|run|) == 0;
    if AllDigits(body) {
      assert run == body;
    }
  }

  /** A value in the 64-bit range, or a range error. */
  function InRange(v: int): Result<int, NumError> {
    if MinInt64 <= v <= MaxInt64 then Ok(v) else Err(ErrRange)
  }

  /** The longest run of digits at the front of `s`. */
  function DigitRun(s: string): (run: string)
    ensures run <= s && AllDigits(run)
    ensures |run| < |s| ==> !IsDigit(s[|run|])
    decreases |s|
  {
    if |s| == 0 || !IsDigit(s[0]) then "" else [s[0]] + DigitRun(s[1..])
  }

  /** The value of the digits after the sign, up to the first non-digit. */
  function LeadingValue(s: string): nat {
    DigitsValue(DigitRun(Unsigned(s)))
  }

  /** The result of the digit loop, stated without the loop: it depends on
      the value `v` of the leading digit run. Past 64 unsigned bits it is a
      range error; otherwise it is a syntax error if a non-digit follows the
      run, and `v` if not. */
  lemma {:induction false} ScanDigitsMeaning(s: string, acc: nat)
    requires acc <= MaxUint64
    ensures var run := DigitRun(s);
      var v := acc * Pow10(|run|) + DigitsValue(run);
      ScanDigits(s, acc)
        == if v > MaxUint64 then Err(ErrRange) else if |run| < |s| then Err(ErrSyntax) else Ok(v)
    decreases |s|
  {
    var run := DigitRun(s);
    if |s| > 0 && IsDigit(s[0]) {
      var n := acc * 10 + DigitValue(s[0]);
      assert run[1..] == DigitRun(s[1..]);
      RunValueStep(acc, run);
      if n <= MaxUint64 {
        ScanDigitsMeaning(s[1..], n);
      }
    }
  }

  /** Taking the first digit of a run into the accumulator keeps the value,
      and the value is at least the new accumulator. */
  lemma RunValueStep(acc: nat, run: string)
    requires |run| > 0 && AllDigits(run)
    ensures acc * Pow10(|run|) + DigitsValue(run)
         == (acc * 10 + DigitValue(run[0])) * Pow10(|run| - 1) + DigitsValue(run[1..])
    ensures acc * 10 + DigitValue(run[0]) <= acc * Pow10(|run|) + DigitsValue(run)
  {
    var d, p := DigitValue(run[0]), Pow10(|run| - 1);
    assert Pow10(|run|) == 10 * p;
    DigitsValueCons(run);
    MulShift(acc, d, p, Pow10(|run|), acc * 10 + d);
  }

  lemma MulShift(acc: nat, d: nat, p: nat, q: nat, n: nat)
    requires q == 10 * p && n == acc * 10 + d && p >= 1
    ensures acc * q + d * p == n * p && n <= n * p
  {
    ShiftDigit(acc, d, p);
    AtLeastOnce(n, p);
  }

  lemma AtLeastOnce(n: nat, p: nat)
    requires p >= 1
    ensures n <= n * p
  {
  }

  /** Reading the first digit off the front of a numeral. */
  lemma {:induction false} DigitsValueCons(s: string)
    requires |s| > 0 && AllDigits(s)
    ensures DigitsValue(s) == DigitValue(s[0]) * Pow10(|s| - 1) + DigitsValue(s[1..])
    decreases |s|
  {
    if |s| > 1 {
      var p := s[..|s| - 1];
      DigitsValueCons(p);
      assert p[1..] == s[1..][..|s| - 2];
      assert s[1..][|s| - 2] == s[|s| - 1];
      var d0, dl, q := DigitValue(s[0]), DigitValue(s[|s| - 1]), Pow10(|s| - 2);
      var rest := DigitsValue(p[1..]);
      assert DigitsValue(s) == (d0 * q + rest) * 10 + dl;
      assert DigitsValue(s[1..]) == rest * 10 + dl;
      TenTimes(d0, q, rest);
    }
  }

  lemma TenTimes(a: nat, q: nat, r: nat)
    ensures (a * q + r) * 10 == a * (10 * q) + r * 10
  {
  }

  lemma ShiftDigit(acc: nat, d: nat, p: nat)
    ensures (acc * 10 + d) * p == acc * (10 * p) + d * p
  {
  }

  function Pow10(k: nat): (p: nat)
    ensures p >= 1
  {
    if k == 0 then 1 else 10 * Pow10(k - 1)
  }

  /** The digits after an optional leading sign. */
  function Unsigned(s: string): string {
    if |s| > 0 && (s[0] == '+' || s[0] == '-') then s[1..] else s
  }

  /** The grammar `[+-]?[0-9]+`. */
  predicate IsNumeral(s: string) {
    var d := Unsigned(s);
    |d| > 0 && AllDigits(d)
  }

  /** The mathematical value of a numeral. */
  function NumeralValue(s: string): int
    requires IsNumeral(s)
  {
    var n: int := DigitsValue(Unsigned(s));
    if s[0] == '-' then -n else n
  }

  /** Decimal digits of a natural number, without leading zeros. */
  function NatDigits(n: nat): (s: string)
    ensures |s| > 0 && AllDigits(s)
    decreases n
  {
    if n < 10 then [DigitChar(n)] else NatDigits(n / 10) + [DigitChar(n % 10)]
  }

  /** `strconv.Itoa`: a `-` for negative numbers, then the decimal digits. */
  function Itoa(n: int): (s: string)
    ensures |s| > 0
  {
    if n < 0 then "-" + NatDigits(-n) else NatDigits(n)
  }

  lemma {:induction false} DigitsValueOfNatDigits(n: nat)
    ensures DigitsValue(NatDigits(n)) == n
    decreases n
  {
    var s := NatDigits(n);
    if n >= 10 {
      DigitsValueOfNatDigits(n / 10);
      assert s[..|s| - 1] == NatDigits(n / 10);
    }
  }

  /** Printing a 64-bit integer and reading it back gives the integer. */
  lemma AtoiItoa(n: int)
    requires MinInt64 <= n <= MaxInt64
    ensures Atoi(Itoa(n)) == Ok(n)
  {
    var s := Itoa(n);
    if n < 0 {
      DigitsValueOfNatDigits(-n);
      assert Unsigned(s) == NatDigits(-n);
    } else {
      DigitsValueOfNatDigits(n);
      var d := NatDigits(n);
      assert IsDigit(d[0]);
      assert Unsigned(s) == d;
    }
  }

  /** A printed integer holds only digits and perhaps a leading minus sign. */
  lemma ItoaChars(n: int)
    ensures forall i :: 0 <= i < |Itoa(n)| ==> IsDigit(Itoa(n)[i]) || (i == 0 && Itoa(n)[i] == '-')
  {
  }

  /** Leading digits past 64 unsigned bits are a range error even when a
      non-digit follows them. */
  lemma AtoiRangeFirst(s: string)
    requires s == "99999999999999999999x"
    ensures Atoi(s) == Err(ErrRange)
  {
    assert s[..20] == "99999999999999999999";
    NinesValue();
    AtoiStopsAt(s, 20);
  }

  /** A non-digit reached first is a syntax error, however many digits
      follow it. */
  lemma AtoiSyntaxFirst(s: string)
    requires s == "12x99999999999999999999"
    ensures Atoi(s) == Err(ErrSyntax)
  {
    assert s[..2] == "12";
    assert DigitsValue("12") == 12 by { assert "12"[..1] == "1"; }
    AtoiStopsAt(s, 2);
  }

  /** An unsigned text whose digits stop at position `k`. */
  lemma AtoiStopsAt(s: string, k: nat)
    requires 0 < k < |s| && AllDigits(s[..k]) && !IsDigit(s[k])
    ensures Atoi(s) == Err(if DigitsValue(s[..k]) > MaxUint64 then ErrRange else ErrSyntax)
  {
    assert IsDigit(s[..k][0]);
    assert Unsigned(s) == s;
    DigitRunBefore(s, k);
  }

  lemma NinesValue()
    ensures DigitsValue("99999999999999999999") > MaxUint64
  {
    var nines := "99999999999999999999";
    DigitsValueCons(nines);
    assert Pow10(19) == 10_000_000_000_000_000_000 by { Pow10Value(); }
  }

  lemma Pow10Value()
    ensures Pow10(19) == 10_000_000_000_000_000_000
  {
    Pow10Add(9, 10);
    assert Pow10(9) == 1_000_000_000;
    assert Pow10(10) == 10_000_000_000;
  }

  lemma {:induction false} Pow10Add(a: nat, b: nat)
    ensures Pow10(a + b) == Pow10(a) * Pow10(b)
    decreases a
  {
    if a > 0 {
      Pow10Add(a - 1, b);
    }
  }

  /** The digit run ends at the first non-digit. */
  lemma {:induction false} DigitRunBefore(s: string, k: nat)
    requires k < |s| && AllDigits(s[..k]) && !IsDigit(s[k])
    ensures DigitRun(s) == s[..k]
    decreases k
  {
    if k > 0 {
      assert IsDigit(s[..k][0]);
      DigitRunBefore(s[1..], k - 1);
      assert s[1..][..k - 1] == s[..k][1..];
      forall i | 0 <= i < k - 1 ensures IsDigit(s[..k][1..][i]) {
        assert s[..k][1..][i] == s[..k][i + 1];
      }
    }
  }
}
