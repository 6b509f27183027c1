/** Exact parsing of CNY amounts into micro-yuan (server/billing/money.go). */
module Money {
  import opened Prelude
  import opened GoText

  const MAX_INT64: int := 0x7FFF_FFFF_FFFF_FFFF

  /** Every arithmetic result below is checked against Go's int64 range. */
  newtype int64 = x: int | -0x8000_0000_0000_0000 <= x <= 0x7FFF_FFFF_FFFF_FFFF

  const MICRO: int64 := 1_000_000

  datatype Reason = Empty | Negative | Precision | Syntax | Overflow

  // ----- the meaning of an amount; a char is one byte of the Go string -----

  /** input is `whole`, or `whole.fraction` with one to six fraction digits. */
  predicate Amount(input: string, whole: string, fraction: string) {
    && whole != [] && Digits(whole) && Digits(fraction) && |fraction| <= 6
    && input == if fraction == [] then whole else whole + "." + fraction
  }

  /** whole.fraction yuan, in millionths. */
  function Micro(whole: string, fraction: string): nat
    requires Digits(whole) && Digits(fraction) && |fraction| <= 6
  {
    1_000_000 * Value(whole) + Value(fraction) * Pow10(6 - |fraction|)
  }

  ghost predicate Denotes(input: string, n: int) {
    exists whole, fraction :: Amount(input, whole, fraction) && n == Micro(whole, fraction)
  }

  lemma AmountUnique(input: string, w: string, f: string, w': string, f': string)
    requires Amount(input, w, f) && Amount(input, w', f')
    ensures w == w' && f == f'
  {
    AmountCut(input, w, f);
    AmountCut(input, w', f');
  }

  lemma AmountCut(input: string, w: string, f: string)
    requires Amount(input, w, f)
    ensures Cut(input, '.') == (w, f, f != []) && Count(input, '.') <= 1 && input[0] != '-'
  {
    assert Free(w, '.') && Free(f, '.');
    if f == [] {
      assert Free(input, '.');
      assert Count(input, '.') == 0;
    } else {
      CutUnique(w, f, '.');
      assert input[|w|] == '.';
      CountSplit(input, '.', |w|);
      assert input[..|w|] == w && input[|w| + 1..] == f;
    }
  }

  // ----- digits -----

  lemma {:induction false} ValueBound(s: string)
    requires Digits(s)
    ensures Value(s) < Pow10(|s|)
  {
    if s != [] { ValueBound(s[..|s| - 1]); }
  }

  lemma ValueSnoc(s: string, i: nat)
    requires Digits(s) && i < |s|
    ensures Value(s[..i + 1]) == 10 * Value(s[..i]) + (s[i] - '0') as nat
  {
    assert s[..i + 1][..i] == s[..i];
  }

  lemma {:induction false} ValueGrows(s: string, i: nat)
    requires Digits(s) && i <= |s|
    ensures Value(s[..i]) <= Value(s)
    decreases |s| - i
  {
    if i < |s| {
      ValueSnoc(s, i);
      ValueGrows(s, i + 1);
    } else {
      assert s[..i] == s;
    }
  }

  method DecimalDigits(value: string) returns (ok: bool)
    ensures ok <==> Digits(value)
  {
    for i := 0 to |value|
      invariant Digits(value[..i])
    {
      if value[i] < '0' || value[i] > '9' { return false; }
    }
    return true;
  }

  method ParseDigits(value: string, max: int64) returns (result: int64, ok: bool)
    requires Digits(value) && 9 <= max
    ensures ok <==> Value(value) <= max as int
    ensures ok ==> result as int == Value(value)
  {
    result := 0;
    for i := 0 to |value|
      invariant 0 <= result <= max && result as int == Value(value[..i])
    {
      var digit := (value[i] - '0') as int64;
      ValueSnoc(value, i);
      if result > (max - digit) / 10 {
        ValueGrows(value, i + 1);
        return 0, false;
      }
      result := result * 10 + digit;
    }
    assert value[..|value|] == value;
    return result, true;
  }

  // ----- the parser -----

  /** No "-", at most one ".", nothing missing around it, and more than six bytes after it. */
  predicate TooPrecise(input: string) {
    && input != [] && input[0] != '-' && Count(input, '.') <= 1
    && Cut(input, '.').0 != [] && |Cut(input, '.').1| > 6
  }

  /**
   ParseMicroCNY succeeds exactly on amounts that fit, with the exact value, reports overflow
   exactly on the other amounts, and names the remaining errors in this order of precedence.
   */
  method ParseMicroCNY(input: string) returns (r: Result<int64, Reason>)
    ensures forall v: int64 :: r == Ok(v) <==> Denotes(input, v as int)
    ensures r == Err(Overflow) <==> exists n :: n > MAX_INT64 && Denotes(input, n)
    ensures r == Err(Empty) <==> input == []
    ensures r == Err(Negative) <==> input != [] && input[0] == '-'
    ensures r == Err(Precision) <==> TooPrecise(input)
  {
    NotAmount(input);
    if input == "" { return Err(Empty); }
    if input[0] == '-' { return Err(Negative); }
    if Count(input, '.') > 1 { return Err(Syntax); }
    var (whole, fraction, hasFraction) := Cut(input, '.');
    if whole == "" || (hasFraction && fraction == "") { return Err(Syntax); }
    if |fraction| > 6 { return Err(Precision); }
    var wholeOk := DecimalDigits(whole);
    var fractionOk := DecimalDigits(fraction);
    if !wholeOk || !fractionOk { return Err(Syntax); }
    assert Amount(input, whole, fraction);
    r := ParseAmount(input, whole, fraction);
  }

  /** A string that is an amount passes every syntactic check. */
  lemma NotAmount(input: string)
    ensures var (w, f, dot) := Cut(input, '.');
      (exists n :: Denotes(input, n)) ==>
        && input != [] && input[0] != '-' && Count(input, '.') <= 1
        && !(dot && f == []) && Amount(input, w, f)
  {
    if n :| Denotes(input, n) {
      var w, f :| Amount(input, w, f) && n == Micro(w, f);
      AmountCut(input, w, f);
    }
  }

  /** The arithmetic half. */
  method ParseAmount(ghost input: string, whole: string, fraction: string) returns (r: Result<int64, Reason>)
    requires Amount(input, whole, fraction)
    ensures forall v: int64 :: r == Ok(v) <==> Denotes(input, v as int)
    ensures r == Err(Overflow) <==> exists n :: n > MAX_INT64 && Denotes(input, n)
    ensures r.Err? ==> r.error == Overflow
  {
    ghost var micro := Micro(whole, fraction);
    DenotesOnly(input, whole, fraction);
    assert Denotes(input, micro);
    var wholeValue, ok := ParseDigits(whole, 0x7FFF_FFFF_FFFF_FFFF / MICRO);
    if !ok {
      assert micro > MAX_INT64;
      return Err(Overflow);
    }
    var fractionValue := ScaledFraction(fraction);
    if wholeValue > (0x7FFF_FFFF_FFFF_FFFF - fractionValue) / MICRO {
      assert micro > MAX_INT64;
      return Err(Overflow);
    }
    return Ok(wholeValue * MICRO + fractionValue);
  }

  lemma DenotesOnly(input: string, w: string, f: string)
    requires Amount(input, w, f)
    ensures forall n :: Denotes(input, n) <==> n == Micro(w, f)
  {
    forall n | Denotes(input, n) ensures n == Micro(w, f) {
      var w', f' :| Amount(input, w', f') && n == Micro(w', f');
      AmountUnique(input, w, f, w', f');
    }
  }

  method ScaledFraction(fraction: string) returns (v: int64)
    requires Digits(fraction) && |fraction| <= 6
    ensures 0 <= v < MICRO && v as int == Value(fraction) * Pow10(6 - |fraction|)
  {
    ValueBound(fraction);
    PowerBound(|fraction|);
    var ok;
    v, ok := ParseDigits(fraction, MICRO - 1);
    for i := |fraction| to 6
      invariant 0 <= v as int < Pow10(i)
      invariant v as int == Value(fraction) * Pow10(i - |fraction|)
    {
      PowerBound(i + 1);
      ScaleStep(Value(fraction), i - |fraction|);
      v := v * 10;
    }
  }

  lemma ScaleStep(v: nat, n: nat)
    ensures v * Pow10(n + 1) == v * Pow10(n) * 10
  {
  }

  lemma PowerBound(n: nat)
    requires n <= 6
    ensures Pow10(n) <= 1_000_000 && Pow10(6) == 1_000_000
  {
    assert Pow10(6) == 10 * Pow10(5) && Pow10(5) == 10 * Pow10(4) && Pow10(4) == 10 * Pow10(3) && Pow10(3) == 1000;
  }
}
