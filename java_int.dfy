/** Java integer semantics the plugin depends on: the 32- and 64-bit ranges,
    `Integer.parseInt` (radix 10), `Integer.toString`, and the truncating `long`
    division behind `TimeUnit.NANOSECONDS.toMillis`. */
module JavaInt {
  import opened Wrappers

  const MIN_INT: int := -0x8000_0000
  const MAX_INT: int := 0x7FFF_FFFF

  /** Java `int`. */
  type int32 = x: int | MIN_INT <= x <= MAX_INT

  /** Java `long`. */
  type int64 = x: int | -0x8000_0000_0000_0000 <= x < 0x8000_0000_0000_0000

  predicate IsDigit(c: char) {
    '0' <= c <= '9'
  }

  predicate AllDigits(s: string) {
    forall k :: 0 <= k < |s| ==> IsDigit(s[k])
  }

  function DigitValue(c: char): (d: nat)
    requires IsDigit(c)
    ensures d < 10
  {
    (c as int) - ('0' as int)
  }

  function DigitChar(d: nat): (c: char)
    requires d < 10
    ensures IsDigit(c) && DigitValue(c) == d
  {
    (('0' as int) + d) as char
  }

  /** The value of a string of decimal digits, most significant first. */
  function DigitsValue(ds: string): nat
    requires AllDigits(ds)
  {
    if ds == [] then 0 else DigitsValue(ds[..|ds| - 1]) * 10 + DigitValue(ds[|ds| - 1])
  }

  /** Thrown by `Integer.parseInt`; carries the rejected input. */
  datatype NumberFormatException = NumberFormatException(input: Option<string>)

  /** `Integer.parseInt(s)`: an optional '+' or '-' followed by at least one
      decimal digit, whose value lies in the `int` range; anything else, null
      included, throws `NumberFormatException`. */
  function ParseInt(s: Option<string>): (r: Result<int32, NumberFormatException>)
    ensures s.None? ==> r.Failure?
    ensures r.Success? ==> s.Some? && s.value != []
    ensures r.Success? && IsDigit(s.value[0]) ==> AllDigits(s.value) && r.value == DigitsValue(s.value)
    ensures r.Success? && !IsDigit(s.value[0]) ==>
              && |s.value| > 1 && AllDigits(s.value[1..])
              && (s.value[0] == '+' ==> r.value == DigitsValue(s.value[1..]))
              && (s.value[0] == '-' ==> r.value == -(DigitsValue(s.value[1..]) as int))
              && (s.value[0] == '+' || s.value[0] == '-')
    ensures s.Some? && s.value != [] && AllDigits(s.value) ==>
              (r.Success? <==> DigitsValue(s.value) <= MAX_INT)
    ensures s.Some? && |s.value| > 1 && s.value[0] == '+' && AllDigits(s.value[1..]) ==>
              (r.Success? <==> DigitsValue(s.value[1..]) <= MAX_INT)
    ensures s.Some? && |s.value| > 1 && s.value[0] == '-' && AllDigits(s.value[1..]) ==>
              (r.Success? <==> DigitsValue(s.value[1..]) <= -MIN_INT)
  {
    match s
    case None => Failure(NumberFormatException(s))
    case Some(text) =>
      if text == [] then Failure(NumberFormatException(s))
      // a first character below '0' may only be a lone sign, followed by digits
      else if text[0] < '0' && ((text[0] != '-' && text[0] != '+') || |text| == 1) then
        Failure(NumberFormatException(s))
      else
        var negative := text[0] == '-';
        var digits := if text[0] < '0' then text[1..] else text;
        if !AllDigits(digits) then Failure(NumberFormatException(s))
        else
          var magnitude: int := DigitsValue(digits);
          var value := if negative then -magnitude else magnitude;
          if MIN_INT <= value <= MAX_INT then Success(value) else Failure(NumberFormatException(s))
  }

  /** The shortest decimal rendering of `n`, without leading zeros. */
  function NatToDigits(n: nat): (r: string)
    ensures r != [] && AllDigits(r)
    ensures r[0] == '0' ==> n == 0
  {
    if n < 10 then [DigitChar(n)] else NatToDigits(n / 10) + [DigitChar(n % 10)]
  }

  /** `Integer.toString(n)`. */
  function FormatInt(n: int32): (r: string)
    ensures r != []
    ensures r[0] == '-' <==> n < 0
  {
    var m: int := n;
    if m < 0 then "-" + NatToDigits(-m) else NatToDigits(m)
  }

  lemma {:induction false} DigitsValueOfNatToDigits(n: nat)
    ensures DigitsValue(NatToDigits(n)) == n
  {
    if n >= 10 {
      var ds := NatToDigits(n);
      assert ds[..|ds| - 1] == NatToDigits(n / 10);
      DigitsValueOfNatToDigits(n / 10);
    }
  }

  /** `Integer.parseInt` reads back every value `Integer.toString` writes. */
  lemma ParseFormatRoundTrip(n: int32)
    ensures ParseInt(Some(FormatInt(n))) == Success(n)
  {
    if n < 0 {
      var m: int := n;
      var ds := NatToDigits(-m);
      assert FormatInt(n)[1..] == ds;
      DigitsValueOfNatToDigits(-m);
    } else {
      DigitsValueOfNatToDigits(n);
    }
  }

  /** A decimal literal whose value exceeds `Integer.MAX_VALUE` is rejected as
      malformed, not clamped. */
  lemma ParseRejectsOverflow(n: nat)
    requires n > MAX_INT
    ensures ParseInt(Some(NatToDigits(n))).Failure?
  {
    DigitsValueOfNatToDigits(n);
  }

  lemma {:induction false} DigitsValueLeadingZero(ds: string)
    requires AllDigits(ds)
    ensures AllDigits("0" + ds) && DigitsValue("0" + ds) == DigitsValue(ds)
  {
    if ds != [] {
      var zs := "0" + ds;
      assert zs[..|zs| - 1] == "0" + ds[..|ds| - 1];
      DigitsValueLeadingZero(ds[..|ds| - 1]);
    }
  }

  /** Leading zeros and a leading '+' do not change what `Integer.parseInt` reads. */
  lemma ParseIgnoresLeadingZeroAndPlus(ds: string)
    requires ds != [] && AllDigits(ds)
    ensures ParseInt(Some("0" + ds)).Success? == ParseInt(Some(ds)).Success?
    ensures ParseInt(Some("+" + ds)).Success? == ParseInt(Some(ds)).Success?
    ensures ParseInt(Some(ds)).Success? ==>
              && ParseInt(Some("0" + ds)).value == ParseInt(Some(ds)).value
              && ParseInt(Some("+" + ds)).value == ParseInt(Some(ds)).value
  {
    DigitsValueLeadingZero(ds);
    assert ("+" + ds)[1..] == ds;
  }

  const NANOS_PER_MILLI: int := 1_000_000

  /** `TimeUnit.NANOSECONDS.toMillis`: Java `long` division by 10^6, which
      truncates toward zero. */
  function NanosToMillis(nanos: int64): (ms: int64)
    ensures 0 <= nanos ==> 0 <= ms * NANOS_PER_MILLI <= nanos < (ms + 1) * NANOS_PER_MILLI
    ensures nanos < 0 ==> (ms - 1) * NANOS_PER_MILLI < nanos <= ms * NANOS_PER_MILLI <= 0
  {
    if nanos >= 0 then nanos / NANOS_PER_MILLI else -((-(nanos as int)) / NANOS_PER_MILLI)
  }

  /** Truncation differs from Dafny's Euclidean division on negative durations. */
  lemma NanosToMillisOfNegative()
    ensures NanosToMillis(-1) == 0 && -1 / NANOS_PER_MILLI == -1
    ensures NanosToMillis(-1_500_000) == -1 && -1_500_000 / NANOS_PER_MILLI == -2
  {
  }
}
