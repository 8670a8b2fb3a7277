/** The indicator library: an exponential moving average over a series of
    closes and the average true range over a series of candles. Both are array
    loops whose results are stated against the pure definitions of `Series`. */
module Indicators {
  import opened Series
  import opened Types

  /** The EMA weight 2/(period+1). */
  function Multiplier(period: int): real
    requires period >= 1
  {
    2.0 / ((period + 1) as real)
  }

  /** One EMA step: move the previous average towards the new value by the
      weight `Multiplier(period)`. */
  function EmaNext(prev: real, x: real, period: int): real
    requires period >= 1
  {
    (x - prev) * Multiplier(period) + prev
  }

  /** EMA of `values`: `null` (Go's nil) when the input is shorter than
      `period` or the period is not positive. Otherwise entry `period-1` holds
      the mean of the first `period` values, each later entry follows the EMA
      recurrence from its predecessor, and the entries before `period-1` are
      back-filled with the seed instead of being left at zero. */
  method EMA(values: seq<real>, period: int) returns (result: array?<real>)
    ensures result == null <==> (|values| < period || period <= 0)
    ensures result != null ==> fresh(result) && result.Length == |values|
    ensures result != null ==> result[period - 1] == Mean(values[..period])
    ensures result != null ==>
              forall i | period <= i < result.Length ::
                result[i] == EmaNext(result[i - 1], values[i], period)
    ensures result != null ==> forall i | 0 <= i < period - 1 :: result[i] == result[period - 1]
  {
    var n := |values|;
    if n < period || period <= 0 {
      return null;
    }
    result := new real[n];
    var sum := 0.0;
    for i := 0 to period
      invariant sum == Sum(values[..i])
    {
      SumSliceStep(values, 0, i);
      sum := sum + values[i];
    }
    result[period - 1] := sum / (period as real);
    for i := period to n
      invariant result[period - 1] == Mean(values[..period])
      invariant forall j | period <= j < i :: result[j] == EmaNext(result[j - 1], values[j], period)
    {
      result[i] := EmaNext(result[i - 1], values[i], period);
    }
    for i := 0 to period - 1
      invariant result[period - 1] == Mean(values[..period])
      invariant forall j | period <= j < n :: result[j] == EmaNext(result[j - 1], values[j], period)
      invariant forall j | 0 <= j < i :: result[j] == result[period - 1]
    {
      result[i] := result[period - 1];
    }
  }

  function Abs(x: real): real
  {
    if x < 0.0 then -x else x
  }

  function Max(a: real, b: real): real
  {
    if a < b then b else a
  }

  /** The true range of candle `cur` after candle `prev`: the largest of its own
      high-low span and its distances from the previous close. */
  function TrueRange(prev: Kline, cur: Kline): (tr: real)
    ensures tr >= cur.High - cur.Low
    ensures tr >= Abs(cur.High - prev.Close) && tr >= Abs(cur.Low - prev.Close)
    ensures tr >= 0.0
  {
    Max(cur.High - cur.Low, Max(Abs(cur.High - prev.Close), Abs(cur.Low - prev.Close)))
  }

  /** The true range is attained: it is one of the three distances it bounds. */
  lemma TrueRangeAttained(prev: Kline, cur: Kline)
    ensures var tr := TrueRange(prev, cur);
            tr == cur.High - cur.Low || tr == Abs(cur.High - prev.Close) || tr == Abs(cur.Low - prev.Close)
  {
  }

  /** The true ranges of every candle after the first. */
  function TrueRanges(klines: seq<Kline>): (trs: seq<real>)
    ensures |trs| == if |klines| == 0 then 0 else |klines| - 1
    ensures forall i | 0 <= i < |trs| :: trs[i] == TrueRange(klines[i], klines[i + 1])
  {
    if |klines| <= 1 then []
    else seq(|klines| - 1, i requires 0 <= i < |klines| - 1 => TrueRange(klines[i], klines[i + 1]))
  }

  /** Dividing the sum of the last `period` entries by `period` gives the mean
      of that window, and a window of non-negative entries has a non-negative mean. */
  lemma WindowMean(trs: seq<real>, period: int, sum: real)
    requires 1 <= period <= |trs|
    requires sum == Sum(trs[|trs| - period..])
    requires forall i | 0 <= i < |trs| :: trs[i] >= 0.0
    ensures sum / (period as real) == Mean(LastN(trs, period))
    ensures sum / (period as real) >= 0.0
  {
    var window := LastN(trs, period);
    assert window == trs[|trs| - period..];
    MeanNonNegative(window);
  }

  /** ATR: 0 ("not enough data") with fewer than `period+1` candles, otherwise
      the mean of the last `period` true ranges, which is never negative. */
  method ATR(klines: seq<Kline>, period: int) returns (atr: real)
    requires period >= 1
    ensures |klines| < period + 1 ==> atr == 0.0
    ensures |klines| >= period + 1 ==> atr == Mean(LastN(TrueRanges(klines), period))
    ensures atr >= 0.0
  {
    if |klines| < period + 1 {
      return 0.0;
    }
    var trs: seq<real> := [];
    for i := 1 to |klines|
      invariant |trs| == i - 1
      invariant forall j | 0 <= j < i - 1 :: trs[j] == TrueRange(klines[j], klines[j + 1])
    {
      trs := trs + [TrueRange(klines[i - 1], klines[i])];
    }
    assert trs == TrueRanges(klines);
    // The early return above leaves at least `period` true ranges, so the
    // second "too few true ranges" test of the Go code can never fire.
    assert |trs| >= period;
    var start := |trs| - period;
    var sum := SumFrom(trs, start);
    atr := sum / (period as real);
    WindowMean(trs, period, sum);
  }
}
