/**
 * Go's `strconv.Atoi` on a 64-bit platform, and the `%d` formatting of `fmt`.
 *
 * `Atoi` is modelled by the path through `strconv.ParseInt(s, 10, 0)`, which
 * scans the digits left to right and clamps on overflow. (Go also has a fast
 * path for strings shorter than 19 bytes; it gives the same results on them.)
 */
module Strconv {
  import opened Wrappers

  const MaxInt64: int := 0x7fff_ffff_ffff_ffff
  const MinInt64: int := -0x8000_0000_0000_0000
  const MaxUint64: int := 0xffff_ffff_ffff_ffff
  /** `maxUint64/10 + 1`: a running value at or above it overflows on the next digit. */
  const Cutoff: int := MaxUint64 / 10 + 1

  /** Go's `int` on a 64-bit platform. */
  type Int64 = x: int | -0x8000_0000_0000_0000 <= x <= 0x7fff_ffff_ffff_ffff

  /** The `Err` field of a `*strconv.NumError`. */
  datatype NumError = ErrSyntax | ErrRange

  /** A parse result: the value Go returns next to the error (0 or the clamped bound on failure). */
  datatype Parsed = Parsed(n: int, err: Option<NumError>)

  predicate IsDigit(c: char)
  {
    '0' <= c <= '9'
  }

  predicate AllDigits(s: string)
  {
    forall i :: 0 <= i < |s| ==> IsDigit(s[i])
  }

  function DigitValue(c: char): nat
    requires IsDigit(c)
  {
    c as int - '0' as int
  }

  function DigitChar(d: nat): char
    requires d < 10
  {
    (d + '0' as int) as char
  }

  /** The value of a string of decimal digits, most significant first. */
  function DigitsValue(s: string): nat
    requires AllDigits(s)
  {
    if s == [] then 0 else 10 * DigitsValue(s[..|s| - 1]) + DigitValue(s[|s| - 1])
  }

  /** The digits of a decimal number after its optional sign. */
  function Unsigned(s: string): string
  {
    if |s| > 0 && (s[0] == '+' || s[0] == '-') then s[1..] else s
  }

  /** An optional sign followed by at least one decimal digit. */
  predicate IsDecimal(s: string)
  {
    |Unsigned(s)| >= 1 && AllDigits(Unsigned(s))
  }

  function DecimalValue(s: string): int
    requires IsDecimal(s)
  {
    if s[0] == '-' then -(DigitsValue(Unsigned(s)) as int) else DigitsValue(Unsigned(s))
  }

  /** `ParseUint(s, 10, 64)` from index `i` on, with running value `n`. */
  function ScanUint(s: string, i: nat, n: nat): (r: Parsed)
    requires i <= |s| && n <= MaxUint64
    ensures 0 <= r.n <= MaxUint64
    ensures r.err == Some(ErrRange) ==> r.n == MaxUint64
    decreases |s| - i
  {
    if i == |s| then Parsed(n, None)
    else if !IsDigit(s[i]) then Parsed(0, Some(ErrSyntax))
    else if n >= Cutoff then Parsed(MaxUint64, Some(ErrRange))
    else
      var n1 := n * 10 + DigitValue(s[i]);
      if n1 > MaxUint64 then Parsed(MaxUint64, Some(ErrRange))
      else ScanUint(s, i + 1, n1)
  }

  function ParseUint(s: string): (r: Parsed)
    ensures 0 <= r.n <= MaxUint64
    ensures r.err == Some(ErrRange) ==> r.n == MaxUint64
  {
    if s == "" then Parsed(0, Some(ErrSyntax)) else ScanUint(s, 0, 0)
  }

  /**
   * `strconv.Atoi(s)`. It succeeds exactly on an optional sign followed by
   * decimal digits whose value fits in 64 bits, and then returns that value;
   * a syntax error comes with 0, a range error with the bound that was crossed.
   */
  function Atoi(s: string): (r: Parsed)
    ensures r.err.None? <==> IsDecimal(s) && MinInt64 <= DecimalValue(s) <= MaxInt64
    ensures r.err.None? ==> r.n == DecimalValue(s)
    ensures r.err == Some(ErrSyntax) ==> r.n == 0
    ensures r.err == Some(ErrRange) ==> r.n == MaxInt64 || r.n == MinInt64
    ensures MinInt64 <= r.n <= MaxInt64
  {
    if s == "" then Parsed(0, Some(ErrSyntax))
    else
      var neg := s[0] == '-';
      var u := ParseUint(Unsigned(s));
      ParseUintSpec(Unsigned(s));
      if u.err.Some? && u.err.value.ErrSyntax? then Parsed(0, Some(ErrSyntax))
      else if !neg && u.n > MaxInt64 then Parsed(MaxInt64, Some(ErrRange))
      else if neg && u.n > -MinInt64 then Parsed(MinInt64, Some(ErrRange))
      else
        Parsed(if neg then -u.n else u.n, None)
  }

  /** `ParseUint` succeeds exactly on non-empty digit strings whose value fits in 64 bits. */
  lemma ParseUintSpec(s: string)
    ensures ParseUint(s).err.None? <==> |s| >= 1 && AllDigits(s) && DigitsValue(s) <= MaxUint64
    ensures ParseUint(s).err.None? ==> ParseUint(s).n == DigitsValue(s)
  {
    if s != "" {
      assert s[..0] == [];
      ScanUintSpec(s, 0, 0);
    }
  }

  lemma {:induction false} ScanUintSpec(s: string, i: nat, n: nat)
    requires i <= |s| && AllDigits(s[..i]) && n == DigitsValue(s[..i]) && n <= MaxUint64
    ensures ScanUint(s, i, n).err.None? <==> AllDigits(s) && DigitsValue(s) <= MaxUint64
    ensures ScanUint(s, i, n).err.None? ==> ScanUint(s, i, n).n == DigitsValue(s)
    decreases |s| - i
  {
    if i == |s| {
      assert s[..i] == s;
    } else if IsDigit(s[i]) {
      var next := s[..i + 1];
      assert next[..i] == s[..i];
      assert AllDigits(next);
      assert DigitsValue(next) == 10 * n + DigitValue(s[i]);
      if AllDigits(s) {
        PrefixValue(s, i + 1);
      }
      if n < Cutoff && 10 * n + DigitValue(s[i]) <= MaxUint64 {
        ScanUintSpec(s, i + 1, 10 * n + DigitValue(s[i]));
      }
    }
  }

  /** A prefix of a digit string is worth no more than the whole string. */
  lemma {:induction false} PrefixValue(s: string, j: nat)
    requires AllDigits(s) && j <= |s|
    ensures AllDigits(s[..j]) && DigitsValue(s[..j]) <= DigitsValue(s)
    decreases |s|
  {
    if j < |s| {
      var init := s[..|s| - 1];
      assert init[..j] == s[..j];
      PrefixValue(init, j);
    } else {
      assert s[..j] == s;
    }
  }

  /** The decimal digits of a natural number, most significant first, without leading zeros. */
  function Digits(n: nat): (s: string)
    ensures |s| >= 1 && AllDigits(s)
  {
    if n < 10 then [DigitChar(n)] else Digits(n / 10) + [DigitChar(n % 10)]
  }

  /** `fmt.Sprintf("%d", n)`. */
  function Itoa(n: int): string
  {
    if n < 0 then "-" + Digits(-n) else Digits(n)
  }

  lemma {:induction false} DigitsValueOfDigits(n: nat)
    ensures DigitsValue(Digits(n)) == n
  {
    if n >= 10 {
      DigitsValueOfDigits(n / 10);
      var s := Digits(n);
      assert s[..|s| - 1] == Digits(n / 10);
    }
  }

  /** Parsing what `%d` printed gives back the number, for every 64-bit integer. */
  lemma AtoiOfItoa(n: Int64)
    ensures Atoi(Itoa(n)) == Parsed(n, None)
  {
    ItoaIsDecimal(n);
  }

  lemma ItoaIsDecimal(n: int)
    ensures IsDecimal(Itoa(n)) && DecimalValue(Itoa(n)) == n
  {
    var m: nat := if n < 0 then -n else n;
    var d := Digits(m);
    DigitsValueOfDigits(m);
    if n < 0 {
      assert ("-" + d)[0] == '-' && ("-" + d)[1..] == d;
    } else {
      assert d[0] != '-' && d[0] != '+';
    }
  }
}
