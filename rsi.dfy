/** The relative-strength-index generator. It seeds itself with the first
    `Period` price changes, split into gains and losses, then smooths both
    averages with Wilder's rule on every later price, and signals buy below an
    RSI of 30 and sell above 70. */
module Rsi {
  import opened Series

  /** The buy signal, "买入" in the Go code. */
  const Buy: string := "\U{4E70}\U{5165}"
  /** The sell signal, "卖出" in the Go code. */
  const Sell: string := "\U{5356}\U{51FA}"

  /** What the generator keeps between prices. */
  datatype RsiState = RsiState(Period: int, Gains: seq<real>, Losses: seq<real>,
                               AvgGain: real, AvgLoss: real, PrevClose: real, Initialized: bool)

  /** A price change split into its gain and its loss: both at least zero, at
      most one of them non-zero, and their difference is the change. */
  function GainLoss(change: real): (split: (real, real))
    ensures split.0 >= 0.0 && split.1 >= 0.0
    ensures split.0 == 0.0 || split.1 == 0.0
    ensures split.0 - split.1 == change
  {
    if change > 0.0 then (change, 0.0) else (0.0, -change)
  }

  /** Gains and losses as recorded: paired, at least zero, never both non-zero. */
  predicate WellSplit(gains: seq<real>, losses: seq<real>)
  {
    && |gains| == |losses|
    && forall i | 0 <= i < |gains| :: gains[i] >= 0.0 && losses[i] >= 0.0 && (gains[i] == 0.0 || losses[i] == 0.0)
  }

  /** The invariant of the generator: the seeding phase ends exactly when
      `Period` changes have been recorded, and both averages stay non-negative. */
  predicate ValidRsi(s: RsiState)
  {
    && s.Period >= 1
    && WellSplit(s.Gains, s.Losses)
    && (s.Initialized <==> |s.Gains| == s.Period)
    && |s.Gains| <= s.Period
    && s.AvgGain >= 0.0 && s.AvgLoss >= 0.0
  }

  /** The state of a freshly made generator. */
  function InitialRsi(period: int): (s: RsiState)
    requires period >= 1
    ensures ValidRsi(s) && !s.Initialized && s.PrevClose == 0.0
  {
    RsiState(period, [], [], 0.0, 0.0, 0.0, false)
  }

  lemma SmoothExpand(avg: real, x: real, p: real)
    requires p >= 1.0
    ensures (avg * (p - 1.0) + x) / p == avg + (x - avg) / p
  {
    assert avg * (p - 1.0) + x == avg * p + (x - avg);
  }

  /** One `p`-th of a distance has its sign and is no longer than it. */
  lemma FractionBounds(d: real, p: real)
    requires p >= 1.0
    ensures d >= 0.0 ==> 0.0 <= d / p <= d
    ensures d <= 0.0 ==> d <= d / p <= 0.0
  {
    var q := d / p;
    assert q * p == d;
    assert d - q == q * (p - 1.0);
    if d >= 0.0 {
      assert q >= 0.0;
    } else {
      assert q <= 0.0;
    }
  }

  /** Wilder's smoothing: the new average moves from the old one towards the
      new value by one `period`-th of the distance, so it stays between them. */
  function Smooth(avg: real, x: real, period: int): (r: real)
    requires period >= 1
    ensures avg <= x ==> avg <= r <= x
    ensures x <= avg ==> x <= r <= avg
  {
    SmoothExpand(avg, x, period as real);
    FractionBounds(x - avg, period as real);
    (avg * ((period - 1) as real) + x) / (period as real)
  }

  lemma QuotientBounds(rs: real)
    requires rs >= 0.0
    ensures 0.0 < 100.0 / (1.0 + rs) <= 100.0
  {
  }

  /** The relative strength index of the two averages: 100 when there is no
      loss, and within 0 to 100 whenever both averages are non-negative. */
  function RsiValue(avgGain: real, avgLoss: real): (rsi: real)
    requires avgGain >= 0.0 && avgLoss >= 0.0
    ensures avgLoss == 0.0 ==> rsi == 100.0
    ensures 0.0 <= rsi <= 100.0
    ensures avgLoss > 0.0 ==> rsi < 100.0
  {
    if avgLoss == 0.0 then 100.0
    else
      var rs := avgGain / avgLoss;
      QuotientBounds(rs);
      100.0 - (100.0 / (1.0 + rs))
  }

  /** The thresholds: buy below 30, sell above 70, silent in between. */
  function RsiSignal(rsi: real): (signal: string)
    ensures signal == Buy <==> rsi < 30.0
    ensures signal == Sell <==> rsi > 70.0
    ensures signal == "" <==> 30.0 <= rsi <= 70.0
  {
    if rsi < 30.0 then Buy
    else if rsi > 70.0 then Sell
    else ""
  }

  /** The state after one more price. While seeding, a price after a non-zero
      previous close records one gain and one loss, and the call that brings
      the count to `Period` sets both averages to the means of what was
      recorded. After seeding, both averages are smoothed with the new change.
      The price always becomes the previous close. */
  function RsiNext(s: RsiState, price: real): (r: RsiState)
    requires ValidRsi(s)
    ensures ValidRsi(r) && r.Period == s.Period && r.PrevClose == price
    ensures !s.Initialized && s.PrevClose == 0.0 ==> r.Gains == s.Gains && r.Losses == s.Losses
    ensures !s.Initialized && s.PrevClose != 0.0 ==>
              var split := GainLoss(price - s.PrevClose);
              r.Gains == s.Gains + [split.0] && r.Losses == s.Losses + [split.1]
    ensures !s.Initialized && r.Initialized ==> r.AvgGain == Mean(r.Gains) && r.AvgLoss == Mean(r.Losses)
    ensures !s.Initialized && !r.Initialized ==> r.AvgGain == s.AvgGain && r.AvgLoss == s.AvgLoss
    ensures s.Initialized ==>
              && r.Initialized && r.Gains == s.Gains && r.Losses == s.Losses
              && var split := GainLoss(price - s.PrevClose);
                 r.AvgGain == Smooth(s.AvgGain, split.0, s.Period) && r.AvgLoss == Smooth(s.AvgLoss, split.1, s.Period)
  {
    if !s.Initialized then SeedStep(s, price) else SmoothStep(s, price)
  }

  /** The first half of a seeding step: the change since a non-zero previous
      close is recorded as a gain and a loss, and the price becomes the
      previous close. */
  function ChangeRecorded(s: RsiState, price: real): (r: RsiState)
    ensures r.Period == s.Period && r.Initialized == s.Initialized && r.PrevClose == price
    ensures r.AvgGain == s.AvgGain && r.AvgLoss == s.AvgLoss
    ensures WellSplit(s.Gains, s.Losses) ==> WellSplit(r.Gains, r.Losses)
    ensures s.PrevClose == 0.0 ==> r.Gains == s.Gains && r.Losses == s.Losses
    ensures s.PrevClose != 0.0 ==>
              && |r.Gains| == |s.Gains| + 1 && |r.Losses| == |s.Losses| + 1
              && r.Gains[..|s.Gains|] == s.Gains && r.Losses[..|s.Losses|] == s.Losses
              && r.Gains[|s.Gains|] - r.Losses[|s.Losses|] == price - s.PrevClose
  {
    var split := GainLoss(price - s.PrevClose);
    if s.PrevClose != 0.0 then s.(Gains := s.Gains + [split.0], Losses := s.Losses + [split.1], PrevClose := price)
    else s.(PrevClose := price)
  }

  /** The second half, once `Period` changes are recorded: both averages are
      set to the means of the first `Period` changes and seeding ends. */
  function SeedAveraged(s: RsiState): (r: RsiState)
    requires 1 <= s.Period <= |s.Gains| && s.Period <= |s.Losses|
    ensures r.Initialized && r.Period == s.Period && r.PrevClose == s.PrevClose
    ensures r.Gains == s.Gains && r.Losses == s.Losses
    ensures r.AvgGain * (s.Period as real) == Sum(s.Gains[..s.Period])
    ensures r.AvgLoss * (s.Period as real) == Sum(s.Losses[..s.Period])
    ensures WellSplit(s.Gains, s.Losses) ==> r.AvgGain >= 0.0 && r.AvgLoss >= 0.0
  {
    assert WellSplit(s.Gains, s.Losses) ==> Mean(s.Gains[..s.Period]) >= 0.0 && Mean(s.Losses[..s.Period]) >= 0.0 by {
      if WellSplit(s.Gains, s.Losses) {
        MeanNonNegative(s.Gains[..s.Period]);
        MeanNonNegative(s.Losses[..s.Period]);
      }
    }
    s.(Initialized := true, AvgGain := Mean(s.Gains[..s.Period]), AvgLoss := Mean(s.Losses[..s.Period]))
  }

  /** The seeding branch of `RsiNext`. */
  function SeedStep(s: RsiState, price: real): (r: RsiState)
    requires ValidRsi(s) && !s.Initialized
    ensures ValidRsi(r) && r.Period == s.Period && r.PrevClose == price
    ensures s.PrevClose == 0.0 ==> r.Gains == s.Gains && r.Losses == s.Losses
    ensures s.PrevClose != 0.0 ==>
              var split := GainLoss(price - s.PrevClose);
              r.Gains == s.Gains + [split.0] && r.Losses == s.Losses + [split.1]
    ensures r.Initialized ==> r.AvgGain == Mean(r.Gains) && r.AvgLoss == Mean(r.Losses)
    ensures !r.Initialized ==> r.AvgGain == s.AvgGain && r.AvgLoss == s.AvgLoss
  {
    var t := ChangeRecorded(s, price);
    assert WellSplit(t.Gains, t.Losses);
    if |t.Gains| < s.Period then t
    else
      assert t.Gains[..s.Period] == t.Gains && t.Losses[..s.Period] == t.Losses;
      MeanNonNegative(t.Gains);
      MeanNonNegative(t.Losses);
      SeedAveraged(t)
  }

  /** The smoothing branch of `RsiNext`: both averages follow Wilder's rule
      with the new change. */
  function SmoothStep(s: RsiState, price: real): (r: RsiState)
    requires ValidRsi(s) && s.Initialized
    ensures ValidRsi(r) && r.Period == s.Period && r.PrevClose == price
    ensures r.Initialized && r.Gains == s.Gains && r.Losses == s.Losses
    ensures var split := GainLoss(price - s.PrevClose);
            r.AvgGain == Smooth(s.AvgGain, split.0, s.Period) && r.AvgLoss == Smooth(s.AvgLoss, split.1, s.Period)
  {
    var split := GainLoss(price - s.PrevClose);
    s.(AvgGain := Smooth(s.AvgGain, split.0, s.Period), AvgLoss := Smooth(s.AvgLoss, split.1, s.Period), PrevClose := price)
  }

  /** The output for one more price: silent while seeding (including the call
      that completes the seed), then the threshold rule on the RSI of the
      smoothed averages. A smoothed loss of zero always signals sell. */
  function RsiOutput(s: RsiState, price: real): (signal: string)
    requires ValidRsi(s)
    ensures !s.Initialized ==> signal == ""
    ensures signal == "" || signal == Buy || signal == Sell
    ensures s.Initialized && RsiNext(s, price).AvgLoss == 0.0 ==> signal == Sell
  {
    if !s.Initialized then ""
    else
      var r := RsiNext(s, price);
      RsiSignal(RsiValue(r.AvgGain, r.AvgLoss))
  }

  /** The state after feeding the prices of `history` one by one. */
  function FeedRsi(s: RsiState, history: seq<real>): (r: RsiState)
    requires ValidRsi(s)
    ensures ValidRsi(r) && r.Period == s.Period
    decreases |history|
  {
    if history == [] then s
    else RsiNext(FeedRsi(s, history[..|history| - 1]), history[|history| - 1])
  }

  /** With positive prices, a fresh generator records one change per price
      after the first, stays in its seeding phase for the first `Period` prices
      (so the first `Period + 1` calls are silent), and the price numbered
      `Period + 1` completes the seed with the means of the recorded changes. */
  lemma {:induction false} WarmUp(period: int, history: seq<real>)
    requires period >= 1 && |history| <= period + 1
    requires forall i | 0 <= i < |history| :: history[i] > 0.0
    ensures var r := FeedRsi(InitialRsi(period), history);
            && |r.Gains| == (if history == [] then 0 else |history| - 1)
            && (history == [] ==> r.PrevClose == 0.0)
            && (history != [] ==> r.PrevClose == history[|history| - 1])
            && (|history| <= period ==> !r.Initialized)
            && (|history| == period + 1 ==> r.Initialized && r.AvgGain == Mean(r.Gains) && r.AvgLoss == Mean(r.Losses))
    decreases |history|
  {
    if history != [] {
      WarmUp(period, history[..|history| - 1]);
    }
  }

  /** The first `Period + 1` outputs of a fresh generator fed positive prices are silent. */
  lemma WarmUpSilent(period: int, history: seq<real>, price: real)
    requires period >= 1 && |history| <= period
    requires forall i | 0 <= i < |history| :: history[i] > 0.0
    ensures RsiOutput(FeedRsi(InitialRsi(period), history), price) == ""
  {
    WarmUp(period, history);
  }

  /** The seeding loop of the Go code: the sums of the first `n` gains and
      losses, side by side, each divided by `n`. */
  method SeedAverages(gains: seq<real>, losses: seq<real>, n: nat) returns (avgGain: real, avgLoss: real)
    requires 1 <= n <= |gains| && n <= |losses|
    ensures avgGain == Mean(gains[..n]) && avgLoss == Mean(losses[..n])
  {
    var sumGain, sumLoss := 0.0, 0.0;
    for i := 0 to n
      invariant sumGain == Sum(gains[..i]) && sumLoss == Sum(losses[..i])
    {
      SumSliceStep(gains, 0, i);
      SumSliceStep(losses, 0, i);
      sumGain := sumGain + gains[i];
      sumLoss := sumLoss + losses[i];
    }
    avgGain := sumGain / (n as real);
    avgLoss := sumLoss / (n as real);
  }

  class RSIStrategy {
    const period: int
    var gains: seq<real>
    var losses: seq<real>
    var avgGain: real
    var avgLoss: real
    var prevClose: real
    var initialized: bool

    function State(): RsiState
      reads this
    {
      RsiState(period, gains, losses, avgGain, avgLoss, prevClose, initialized)
    }

    ghost predicate Valid()
      reads this
    {
      ValidRsi(State())
    }

    constructor (p: int)
      requires p >= 1
      ensures Valid() && State() == InitialRsi(p)
    {
      period := p;
      gains := [];
      losses := [];
      avgGain := 0.0;
      avgLoss := 0.0;
      prevClose := 0.0;
      initialized := false;
    }

    /** Takes one closing price and returns Buy, Sell or "" (no signal). */
    method OnNewPrice(price: real) returns (signal: string)
      requires Valid()
      modifies this
      ensures Valid()
      ensures State() == RsiNext(old(State()), price)
      ensures signal == RsiOutput(old(State()), price)
    {
      if !initialized {
        signal := Collect(price);
      } else {
        signal := Advance(price);
      }
    }

    /** The seeding phase: records the change since the previous close and,
        once `period` changes are recorded, sets both averages to their means. */
    method Collect(price: real) returns (signal: string)
      requires Valid() && !initialized
      modifies this
      ensures Valid()
      ensures State() == SeedStep(old(State()), price)
      ensures signal == ""
    {
      ghost var next := SeedStep(State(), price);
      RecordChange(price);
      if |gains| >= period {
        SeedFromChanges();
      }
      signal := "";
    }

    /** Records the change since a non-zero previous close, then the price as
        the previous close. */
    method RecordChange(price: real)
      modifies this
      ensures State() == ChangeRecorded(old(State()), price)
    {
      if prevClose != 0.0 {
        var change := price - prevClose;
        if change > 0.0 {
          gains, losses := gains + [change], losses + [0.0];
        } else {
          gains, losses := gains + [0.0], losses + [-change];
        }
      }
      prevClose := price;
    }

    /** Sets both averages to the means of the first `period` changes and ends seeding. */
    method SeedFromChanges()
      requires 1 <= period <= |gains| && period <= |losses|
      modifies this
      ensures State() == SeedAveraged(old(State()))
    {
      avgGain, avgLoss := SeedAverages(gains, losses, period);
      initialized := true;
    }

    /** The smoothing phase: updates both averages with the new change and
        applies the thresholds to the resulting RSI. */
    method Advance(price: real) returns (signal: string)
      requires Valid() && initialized
      modifies this
      ensures Valid()
      ensures State() == RsiNext(old(State()), price)
      ensures signal == RsiOutput(old(State()), price)
    {
      ghost var before := State();
      var change := price - prevClose;
      var gain, loss;
      if change > 0.0 {
        gain, loss := change, 0.0;
      } else {
        gain, loss := 0.0, -change;
      }
      assert (gain, loss) == GainLoss(price - before.PrevClose);
      var ag := Smooth(avgGain, gain, period);
      var al := Smooth(avgLoss, loss, period);
      avgGain, avgLoss, prevClose := ag, al, price;
      var rsi;
      if al == 0.0 {
        rsi := 100.0;
      } else {
        var rs := ag / al;
        rsi := 100.0 - (100.0 / (1.0 + rs));
      }
      assert rsi == RsiValue(ag, al);
      if rsi < 30.0 {
        return Buy;
      } else if rsi > 70.0 {
        return Sell;
      }
      return "";
    }
  }
}
