/** Decimal rendering and parsing of Go integers, as `strconv.Itoa` and
    `strconv.Atoi` do them for a 64-bit `int`. */
module Strconv {
  import opened Wrappers

  const MinInt: int := -0x8000_0000_0000_0000
  const MaxInt: int := 0x7fff_ffff_ffff_ffff

  /** Go's `int` on a 64-bit platform. */
  type GoInt = x: int | MinInt <= x <= MaxInt

  predicate IsDigit(c: char) {
    '0' <= c <= '9'
  }

  predicate AllDigits(s: string) {
    forall i :: 0 <= i < |s| ==> IsDigit(s[i])
  }

  function DigitChar(d: int): (c: char)
    requires 0 <= d < 10
    ensures IsDigit(c) && c as int - '0' as int == d
  {
    ('0' as int + d) as char
  }

  /** The decimal digits of `n`, most significant first, without leading zeros. */
  function Decimal(n: nat): (s: string)
    ensures |s| > 0 && AllDigits(s)
    ensures |s| > 1 ==> s[0] != '0'
  {
    if n < 10 then [DigitChar(n)] else Decimal(n / 10) + [DigitChar(n % 10)]
  }

  /** The number a string of decimal digits denotes. */
  function DigitsValue(s: string): nat
    requires AllDigits(s)
  {
    if s == [] then 0
    else DigitsValue(s[..|s| - 1]) * 10 + (s[|s| - 1] as int - '0' as int)
  }

  /** `strconv.Itoa`: a minus sign for negative numbers, then the digits. */
  function Itoa(n: int): (s: string)
    ensures |s| > 0
    ensures s[0] == '-' <==> n < 0
    ensures AllDigits(if n < 0 then s[1..] else s)
  {
    if n < 0 then "-" + Decimal(-n) else Decimal(n)
  }

  function SyntaxError(s: string): string {
    "strconv.Atoi: parsing \"" + s + "\": invalid syntax"
  }

  function RangeError(s: string): string {
    "strconv.Atoi: parsing \"" + s + "\": value out of range"
  }

  /** The largest unsigned 64-bit value, the bound `ParseUint` scans against. */
  const MaxUint: int := 0xffff_ffff_ffff_ffff

  datatype NumError = InvalidSyntax | OutOfRange

  /** `ParseUint`'s loop from position `i` with `acc` accumulated so far: a
      non-digit is a syntax error, and a value passing the unsigned bound is a
      range error as soon as the digit that causes it is read, before any
      later character is looked at. */
  function ScanDigits(s: string, i: nat, acc: nat): (r: Result<nat, NumError>)
    requires i <= |s|
    ensures r.Ok? ==> AllDigits(s[i..]) && acc <= r.value && (acc <= MaxUint ==> r.value <= MaxUint)
    decreases |s| - i
  {
    if i == |s| then Ok(acc)
    else if !IsDigit(s[i]) then Err(InvalidSyntax)
    else
      var next := acc * 10 + (s[i] as int - '0' as int);
      if next > MaxUint then Err(OutOfRange) else ScanDigits(s, i + 1, next)
  }

  /** `strconv.Atoi`: an optional sign, then at least one character, scanned
      as `ParseUint` does; an unsigned value beyond the signed range is a
      range error too. */
  function Atoi(s: string): (r: Result<GoInt, string>)
    ensures r.Err? ==> r.error == SyntaxError(s) || r.error == RangeError(s)
    ensures r.Ok? ==>
      && |s| > (if |s| > 0 && (s[0] == '-' || s[0] == '+') then 1 else 0)
      && AllDigits(if s[0] == '-' || s[0] == '+' then s[1..] else s)
    ensures r.Ok? && |s| > 0 && s[0] == '-' ==> r.value <= 0
    ensures r.Ok? && (|s| == 0 || s[0] != '-') ==> r.value >= 0
  {
    var signed := |s| > 0 && (s[0] == '-' || s[0] == '+');
    var body := if signed then s[1..] else s;
    if |body| == 0 then Err(SyntaxError(s))
    else
      match ScanDigits(body, 0, 0)
      case Err(InvalidSyntax) => Err(SyntaxError(s))
      case Err(OutOfRange) => Err(RangeError(s))
      case Ok(u) =>
        assert body[0..] == body;
        var v: int := if signed && s[0] == '-' then -(u as int) else u;
        if v < MinInt || v > MaxInt then Err(RangeError(s)) else Ok(v)
  }

  /** Extending a digit prefix by one digit multiplies by ten and adds it. */
  lemma PrefixStep(s: string, i: nat)
    requires i < |s| && AllDigits(s[..i + 1])
    ensures AllDigits(s[..i])
    ensures DigitsValue(s[..i + 1]) == DigitsValue(s[..i]) * 10 + (s[i] as int - '0' as int)
  {
    assert s[..i + 1][..i] == s[..i];
  }

  /** A prefix of a digit string denotes at most the whole. */
  lemma {:induction false} PrefixValueBound(s: string, k: nat)
    requires AllDigits(s) && k <= |s|
    ensures AllDigits(s[..k]) && DigitsValue(s[..k]) <= DigitsValue(s)
    decreases |s|
  {
    if k < |s| {
      var t := s[..|s| - 1];
      assert t[..k] == s[..k];
      PrefixValueBound(t, k);
    } else {
      assert s[..k] == s;
    }
  }

  /** Scanning a digit string whose value fits the unsigned bound yields that value. */
  lemma {:induction false} ScanValue(s: string, i: nat)
    requires AllDigits(s) && i <= |s| && DigitsValue(s) <= MaxUint
    ensures AllDigits(s[..i])
    ensures ScanDigits(s, i, DigitsValue(s[..i])) == Ok(DigitsValue(s))
    decreases |s| - i
  {
    PrefixValueBound(s, i);
    if i == |s| {
      assert s[..i] == s;
    } else {
      PrefixValueBound(s, i + 1);
      PrefixStep(s, i);
      ScanValue(s, i + 1);
    }
  }

  /** Once the digits read so far will pass the unsigned bound by position
      `k`, scanning from `i` ends in a range error, whatever follows `k`. */
  lemma {:induction false} ScanOverflow(s: string, i: nat, k: nat)
    requires i <= k <= |s| && AllDigits(s[..k]) && DigitsValue(s[..k]) > MaxUint
    requires AllDigits(s[..i]) && DigitsValue(s[..i]) <= MaxUint
    ensures ScanDigits(s, i, DigitsValue(s[..i])) == Err(OutOfRange)
    decreases k - i
  {
    assert i < k;
    assert s[..k][i] == s[i];
    assert s[..k][..i + 1] == s[..i + 1];
    PrefixStep(s, i);
    if DigitsValue(s[..i + 1]) <= MaxUint {
      ScanOverflow(s, i + 1, k);
    }
  }

  /** Digits whose value passes the unsigned bound give a range error even
      when a non-digit follows them. */
  lemma AtoiOverflowBeforeBadChar(d: string, rest: string)
    requires |d| > 0 && AllDigits(d) && DigitsValue(d) > MaxUint
    ensures Atoi(d + rest) == Err(RangeError(d + rest))
  {
    var s := d + rest;
    assert s[..|d|] == d;
    assert s[..0] == [];
    assert IsDigit(s[0]);
    ScanOverflow(s, 0, |d|);
  }

  lemma {:induction false} DecimalValue(n: nat)
    ensures DigitsValue(Decimal(n)) == n
  {
    if n >= 10 {
      var s := Decimal(n);
      assert s[..|s| - 1] == Decimal(n / 10);
      DecimalValue(n / 10);
    }
  }

  /** Scanning the decimal text of a value within the unsigned bound gives
      the value back. */
  lemma ScanDecimal(m: nat)
    requires m <= MaxUint
    ensures ScanDigits(Decimal(m), 0, 0) == Ok(m)
  {
    var s := Decimal(m);
    DecimalValue(m);
    assert s[..0] == [];
    ScanValue(s, 0);
  }

  /** Parsing what `Itoa` printed gives the number back, so the error branch
      after such a round trip can never be taken. */
  lemma AtoiItoa(n: GoInt)
    ensures Atoi(Itoa(n)) == Ok(n)
  {
    var s := Itoa(n);
    if n < 0 {
      var m: nat := -(n as int);
      assert s[1..] == Decimal(m);
      ScanDecimal(m);
    } else {
      assert s == Decimal(n);
      ScanDecimal(n);
    }
  }
}
