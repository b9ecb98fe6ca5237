/** The fixed tables of supported output rates and scale ranges, and the
    rounding of a requested rate to a supported one. Rates are `real`s: the
    table entries are compared by plain ordering and equality. */
module Rates {
  import opened Bus
  import opened Registers

  datatype Option<T> = None | Some(value: T)

  predicate StrictlyDescending(s: seq<real>)
  {
    forall i, j :: 0 <= i < j < |s| ==> s[i] > s[j]
  }

  /** The supported output rates in Hz, fastest first (`available_output_rates`). */
  function OutputRates(): (rates: seq<real>)
    ensures |rates| == NumOutputRates
  {
    [800.0, 400.0, 200.0, 100.0, 50.0, 12.5, 6.25, 1.56]
  }

  /** The rate table is ordered fastest first, with no repeats, and holds only positive rates. */
  lemma OutputRatesDescending()
    ensures StrictlyDescending(OutputRates())
    ensures forall i :: 0 <= i < NumOutputRates ==> OutputRates()[i] > 0.0
  {
  }

  /** The supported scale ranges in G (`available_scale_ranges`). */
  function ScaleRanges(): (ranges: seq<Byte>)
    ensures |ranges| == NumScaleRanges
    ensures forall i :: 0 <= i < |ranges| ==> ScaleEncoding(ranges[i]) == i as Byte
  {
    [2, 4, 8]
  }

  /** The defaults the driver starts with are supported values. */
  lemma DefaultsSupported()
    ensures DefaultOutputRate in OutputRates()
    ensures DefaultScaleRange in ScaleRanges()
  {
    assert OutputRates()[5] == DefaultOutputRate;
    assert ScaleRanges()[0] == DefaultScaleRange;
  }

  /** The first entry of a descending table that is at most `x`, or its last
      entry when there is none. */
  function RoundDown(rates: seq<real>, x: real): (r: real)
    requires |rates| > 0 && StrictlyDescending(rates)
    ensures r in rates
    ensures rates[|rates| - 1] <= x ==> r <= x
    ensures forall i :: 0 <= i < |rates| && rates[i] <= x ==> rates[i] <= r
    ensures x < rates[|rates| - 1] ==> r == rates[|rates| - 1]
    decreases |rates|
  {
    if |rates| == 1 || rates[0] <= x then rates[0] else RoundDown(rates[1..], x)
  }

  /** `get_closest_output_rate` as a value. */
  function ClosestOutputRate(requested: real): real
  {
    if requested <= 0.0 then 0.0 else OutputRatesDescending(); RoundDown(OutputRates(), requested)
  }

  /** The closest rate is 0 for a request of at most 0 Hz; otherwise it is the
      largest supported rate not above the request, or the slowest supported
      rate when the request is below all of them. */
  lemma ClosestOutputRateRoundsDown(requested: real)
    ensures requested <= 0.0 ==> ClosestOutputRate(requested) == 0.0
    ensures requested > 0.0 ==> ClosestOutputRate(requested) in OutputRates()
    ensures requested >= 1.56 ==> ClosestOutputRate(requested) <= requested
    ensures forall i :: 0 <= i < NumOutputRates && OutputRates()[i] <= requested ==> OutputRates()[i] <= ClosestOutputRate(requested)
    ensures 0.0 < requested < 1.56 ==> ClosestOutputRate(requested) == 1.56
  {
    OutputRatesDescending();
  }

  /** Rounding down is monotone: a faster request never gets a slower rate. */
  lemma ClosestOutputRateMonotone(a: real, b: real)
    requires a <= b
    ensures ClosestOutputRate(a) <= ClosestOutputRate(b)
  {
    ClosestOutputRateRoundsDown(a);
    ClosestOutputRateRoundsDown(b);
    if a > 0.0 {
      var ra, rb := ClosestOutputRate(a), ClosestOutputRate(b);
      var i :| 0 <= i < NumOutputRates && OutputRates()[i] == ra;
      if a >= 1.56 {
        assert OutputRates()[i] <= b;
      } else {
        assert OutputRates()[7] == 1.56;
      }
    }
  }

  /** Every entry of a descending table rounds down to itself. */
  lemma RoundDownFixes(rates: seq<real>, i: nat)
    requires i < |rates| && StrictlyDescending(rates)
    ensures RoundDown(rates, rates[i]) == rates[i]
  {
    var r := RoundDown(rates, rates[i]);
    var j :| 0 <= j < |rates| && rates[j] == r;
    assert rates[i] <= r;
  }

  /** A supported rate is its own closest rate. */
  lemma ClosestOutputRateFixesTable(i: nat)
    requires i < NumOutputRates
    ensures ClosestOutputRate(OutputRates()[i]) == OutputRates()[i]
  {
    OutputRatesDescending();
    RoundDownFixes(OutputRates(), i);
  }

  /** Index of the first occurrence of `x` (Rust's `iter().position`). */
  function Position(s: seq<real>, x: real): (r: Option<nat>)
    ensures r.Some? ==> r.value < |s| && s[r.value] == x && forall j :: 0 <= j < r.value ==> s[j] != x
    ensures r.None? <==> x !in s
  {
    if |s| == 0 then None
    else if s[0] == x then Some(0)
    else match Position(s[1..], x)
      case None => None
      case Some(i) => Some(i + 1)
  }

  /** The `unwrap` after `position` in `set_output_rate` succeeds exactly for positive requests. */
  lemma ClosestOutputRateHasIndex(requested: real)
    ensures Position(OutputRates(), ClosestOutputRate(requested)).Some? <==> requested > 0.0
  {
    ClosestOutputRateRoundsDown(requested);
    OutputRatesDescending();
  }

  /** Requests at or below zero, above the fastest rate, between two rates and
      below the slowest rate. */
  lemma ClosestOutputRateExamples()
    ensures ClosestOutputRate(0.0) == 0.0 && ClosestOutputRate(-3.0) == 0.0
    ensures ClosestOutputRate(1000.0) == 800.0 && ClosestOutputRate(800.0) == 800.0
    ensures ClosestOutputRate(10.0) == 6.25 && ClosestOutputRate(0.5) == 1.56
  {
    var rates := OutputRates();
    OutputRatesDescending();
    RoundDownFixes(rates, 0);
    assert RoundDown(rates, 10.0) == 6.25 by {
      assert rates[6..] == [6.25, 1.56];
      RoundDownFixes(rates[6..], 0);
      RoundDownSkips(rates, 10.0, 6);
    }
  }

  /** Rounding down skips a prefix of entries that are all above the request. */
  lemma {:induction false} RoundDownSkips(rates: seq<real>, x: real, k: nat)
    requires k < |rates| && StrictlyDescending(rates)
    requires forall i :: 0 <= i < k ==> rates[i] > x
    ensures RoundDown(rates, x) == RoundDown(rates[k..], x)
    decreases k
  {
    if k > 0 {
      assert rates[1..][k - 1..] == rates[k..];
      RoundDownSkips(rates[1..], x, k - 1);
    }
  }

  /** 6.25 Hz sits at index 6 of the table, so its rate field is 0b110. */
  lemma PositionOfSixPointTwoFive()
    ensures Position(OutputRates(), 6.25) == Some(6)
  {
    OutputRatesDescending();
    assert OutputRates()[6] == 6.25;
    var p := Position(OutputRates(), 6.25);
    assert p.Some? && OutputRates()[p.value] == OutputRates()[6];
  }
}
