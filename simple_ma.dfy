/** The moving-average crossover generator: a buffer of at most `LongPeriod`
    recent prices; once the buffer is full, "buy" when the short average is
    above the long one, "sell" when it is below, and no signal otherwise. */
module SimpleMovingAverage {
  import opened Series

  /** What the generator keeps between prices. */
  datatype MaState = MaState(ShortPeriod: int, LongPeriod: int, Prices: seq<real>)

  /** The periods the crossover needs, and the buffer bound it keeps. */
  predicate ValidMa(s: MaState)
  {
    1 <= s.ShortPeriod <= s.LongPeriod && |s.Prices| <= s.LongPeriod
  }

  /** The state of a freshly made generator. */
  function InitialMa(shortPeriod: int, longPeriod: int): (s: MaState)
    requires 1 <= shortPeriod <= longPeriod
    ensures ValidMa(s) && s.Prices == []
  {
    MaState(shortPeriod, longPeriod, [])
  }

  /** The crossover rule: exactly one of the three outputs, by comparing the averages. */
  function CrossSignal(shortMA: real, longMA: real): (sig: string)
    ensures sig == "buy" <==> shortMA > longMA
    ensures sig == "sell" <==> shortMA < longMA
    ensures sig == "" <==> shortMA == longMA
  {
    if shortMA > longMA then "buy"
    else if shortMA < longMA then "sell"
    else ""
  }

  /** The buffer after one more price: the last `LongPeriod` prices received. */
  function MaNext(s: MaState, price: real): (r: MaState)
    requires ValidMa(s)
    ensures ValidMa(r) && r.ShortPeriod == s.ShortPeriod && r.LongPeriod == s.LongPeriod
    ensures r.Prices == LastN(s.Prices + [price], s.LongPeriod)
  {
    var received := s.Prices + [price];
    if |received| > s.LongPeriod then s.(Prices := received[|received| - s.LongPeriod..])
    else s.(Prices := received)
  }

  /** The output for one more price, stated over everything received so far:
      silent until `LongPeriod` prices have arrived, then the crossover of the
      mean of the last `ShortPeriod` prices against the mean of the last
      `LongPeriod`. */
  function MaSignal(s: MaState, price: real): string
    requires ValidMa(s)
  {
    var received := s.Prices + [price];
    if |received| < s.LongPeriod then ""
    else CrossSignal(Mean(LastN(received, s.ShortPeriod)), Mean(LastN(received, s.LongPeriod)))
  }

  /** The state after feeding the prices of `history` one by one. */
  function Feed(s: MaState, history: seq<real>): (r: MaState)
    requires ValidMa(s)
    ensures ValidMa(r) && r.ShortPeriod == s.ShortPeriod && r.LongPeriod == s.LongPeriod
    decreases |history|
  {
    if history == [] then s
    else MaNext(Feed(s, history[..|history| - 1]), history[|history| - 1])
  }

  /** However many prices have been fed, the buffer holds exactly the most recent
      `LongPeriod` of them (all of them while fewer have arrived), in order. */
  lemma {:induction false} FeedWindow(s: MaState, history: seq<real>)
    requires ValidMa(s)
    ensures Feed(s, history).Prices == LastN(s.Prices + history, s.LongPeriod)
    decreases |history|
  {
    if history != [] {
      var front, x := history[..|history| - 1], history[|history| - 1];
      FeedWindow(s, front);
      LastNAppend(s.Prices + front, x, s.LongPeriod);
      assert s.Prices + front + [x] == s.Prices + history;
    }
  }

  /** A fresh generator stays silent on each of its first `LongPeriod - 1` prices. */
  lemma WarmUpSilent(shortPeriod: int, longPeriod: int, history: seq<real>, price: real)
    requires 1 <= shortPeriod <= longPeriod
    requires |history| + 1 < longPeriod
    ensures MaSignal(Feed(InitialMa(shortPeriod, longPeriod), history), price) == ""
  {
    FeedWindow(InitialMa(shortPeriod, longPeriod), history);
  }

  /** Once `LongPeriod` prices have arrived, the signal depends only on the most
      recent `LongPeriod` prices, whatever came before them and whatever was
      signalled earlier. */
  lemma SignalFromWindow(s: MaState, t: MaState, history: seq<real>, other: seq<real>, price: real)
    requires ValidMa(s) && ValidMa(t) && s.ShortPeriod == t.ShortPeriod && s.LongPeriod == t.LongPeriod
    requires |history| >= s.LongPeriod && |other| >= s.LongPeriod
    requires LastN(history, s.LongPeriod) == LastN(other, s.LongPeriod)
    ensures MaSignal(Feed(s, history), price) == MaSignal(Feed(t, other), price)
  {
    FeedWindow(s, history);
    FeedWindow(t, other);
    LastNSuffix(s.Prices, history, s.LongPeriod);
    LastNSuffix(t.Prices, other, s.LongPeriod);
  }

  /** The last `n` prices of the buffer are the last `n` prices received. */
  lemma ShortWindow(received: seq<real>, m: nat, n: nat)
    requires n <= m <= |received|
    ensures LastN(received, m)[m - n..] == LastN(received, n)
  {
  }

  /** The mean computed by the Go code's summing loop. */
  method Average(data: seq<real>) returns (avg: real)
    requires |data| > 0
    ensures avg == Mean(data)
  {
    var sum := SumFrom(data, 0);
    assert data[0..] == data;
    avg := sum / (|data| as real);
  }

  class SimpleMA {
    const shortPeriod: int
    const longPeriod: int
    var prices: seq<real>

    function State(): MaState
      reads this
    {
      MaState(shortPeriod, longPeriod, prices)
    }

    ghost predicate Valid()
      reads this
    {
      ValidMa(State())
    }

    constructor (short: int, long: int)
      requires 1 <= short <= long
      ensures Valid() && State() == InitialMa(short, long)
    {
      shortPeriod := short;
      longPeriod := long;
      prices := [];
    }

    /** Takes one price and returns "buy", "sell" or "" (no signal). */
    method OnNewPrice(price: real) returns (signal: string)
      requires Valid()
      modifies this
      ensures Valid()
      ensures State() == MaNext(old(State()), price) && signal == MaSignal(old(State()), price)
    {
      ghost var before := State();
      var buffer := prices + [price];
      ghost var received := buffer;
      if |buffer| > longPeriod {
        buffer := buffer[|buffer| - longPeriod..];
      }
      prices := buffer;
      assert buffer == LastN(received, longPeriod);
      if |buffer| < longPeriod {
        return "";
      }
      ShortWindow(received, longPeriod, shortPeriod);
      var recent := buffer[|buffer| - shortPeriod..];
      var shortMA := Average(recent);
      var longMA := Average(buffer);
      assert MaSignal(before, price) == CrossSignal(shortMA, longMA);
      if shortMA > longMA {
        return "buy";
      } else if shortMA < longMA {
        return "sell";
      }
      return "";
    }
  }
}
