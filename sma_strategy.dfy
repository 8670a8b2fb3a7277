/** The per-market SMA5/SMA20 strategy. For each symbol and interval it keeps
    the last 100 closes, a bar counter, and a long position of one unit or
    none; it opens when the 5-bar average crosses above the 20-bar one and
    closes when it crosses below, reporting each decision to an order
    handler. */
module SmaStrategy {
  import opened Series
  import opened Types

  /** The buffer bound on closes kept per market. */
  const MaxCloses: nat := 100

  /** A held position: one unit long, or the zero position when flat. */
  datatype Position = Position(EntryPrice: real, Size: real)

  /** One call of the order handler, with the market key it was made for. */
  datatype OrderCall = OrderCall(Key: string, Symbol: string, Side: string, Price: real)

  /** What one candle makes the strategy do. */
  datatype Action = Hold | Open | Close

  /** A market is identified by its symbol and interval joined with "_". */
  function KeyOf(symbol: string, interval: string): (key: string)
  {
    symbol + "_" + interval
  }

  /** The number of bars since the position was entered: always 0, since the
      entry bar is not recorded. */
  function EntryTimeBar(p: Position): int
  {
    0
  }

  /** The position held for `key`; a market never traded is flat. */
  function PositionOf(positions: map<string, Position>, key: string): Position
  {
    if key in positions then positions[key] else Position(0.0, 0.0)
  }

  /** The closes kept for `key`; none for a market never seen. */
  function ClosesOf(priceData: map<string, seq<real>>, key: string): seq<real>
  {
    if key in priceData then priceData[key] else []
  }

  function BarsOf(barCount: map<string, int>, key: string): int
  {
    if key in barCount then barCount[key] else 0
  }

  /** Appending a close and dropping the oldest once there are more than 100. */
  function Window(closes: seq<real>): (kept: seq<real>)
    ensures |closes| <= MaxCloses + 1 ==> |kept| <= MaxCloses
  {
    if |closes| > MaxCloses then closes[1..] else closes
  }

  /** A bounded buffer that drops its oldest entry on overflow always holds
      the most recent 100 closes. */
  lemma WindowKeepsRecent(history: seq<real>, close: real)
    ensures Window(LastN(history, MaxCloses) + [close]) == LastN(history + [close], MaxCloses)
  {
    LastNAppend(history, close, MaxCloses);
  }

  /** The simple moving average of the last `period` values, or 0 when there
      are fewer than `period`. */
  function SmaValue(data: seq<real>, period: int): (avg: real)
    requires period >= 1
    ensures (forall i | 0 <= i < |data| :: data[i] >= 0.0) ==> avg >= 0.0
  {
    if |data| < period then 0.0
    else
      var window := LastN(data, period);
      assert (forall i | 0 <= i < |data| :: data[i] >= 0.0) ==> Mean(window) >= 0.0 by {
        if forall i | 0 <= i < |data| :: data[i] >= 0.0 {
          MeanNonNegative(window);
        }
      }
      Mean(window)
  }

  /** The Go code's average: a summing loop over the last `period` values. */
  method Sma(data: seq<real>, period: int) returns (avg: real)
    requires period >= 1
    ensures |data| < period ==> avg == 0.0
    ensures |data| >= period ==> avg == Mean(data[|data| - period..])
    ensures avg == SmaValue(data, period)
  {
    if |data| < period {
      return 0.0;
    }
    var sum := SumFrom(data, |data| - period);
    avg := sum / (period as real);
  }

  /** The decision for one candle, given the closes kept after it, the
      position held and the bar counter. Missing data (either average 0)
      holds; a held position younger than `minHoldBars` holds; otherwise a
      cross above opens a flat position and a cross below closes a long one. */
  function Decide(closes: seq<real>, pos: Position, bars: int, minHoldBars: int): Action
  {
    var sma5, sma20 := SmaValue(closes, 5), SmaValue(closes, 20);
    if sma5 == 0.0 || sma20 == 0.0 then Hold
    else if pos.Size != 0.0 && bars - EntryTimeBar(pos) < minHoldBars then Hold
    else if sma5 > sma20 && pos.Size <= 0.0 then Open
    else if sma5 < sma20 && pos.Size > 0.0 then Close
    else Hold
  }

  /** Missing data (an average of 0, as with fewer than 20 closes), or a position held for fewer than `minHoldBars`
      bars, hold; an open needs the short average above the long one and no
      long position, a close the short average below and a long position. */
  lemma DecideSound(closes: seq<real>, pos: Position, bars: int, minHoldBars: int)
    ensures var a := Decide(closes, pos, bars, minHoldBars);
            && (SmaValue(closes, 5) == 0.0 || SmaValue(closes, 20) == 0.0 ==> a == Hold)
            && (|closes| < 20 ==> a == Hold)
            && (pos.Size != 0.0 && bars < minHoldBars ==> a == Hold)
            && (a == Open ==> SmaValue(closes, 5) > SmaValue(closes, 20) && pos.Size <= 0.0)
            && (a == Close ==> SmaValue(closes, 5) < SmaValue(closes, 20) && pos.Size > 0.0)
  {
  }

  /** Past the filters, the crossover decides: above opens a flat position,
      below closes a long one, and nothing else happens. */
  lemma CrossoverDecides(closes: seq<real>, pos: Position, bars: int, minHoldBars: int)
    requires |closes| >= 20 && SmaValue(closes, 5) != 0.0 && SmaValue(closes, 20) != 0.0
    requires pos.Size == 0.0 || bars >= minHoldBars
    ensures Decide(closes, pos, bars, minHoldBars) == Open <==> SmaValue(closes, 5) > SmaValue(closes, 20) && pos.Size <= 0.0
    ensures Decide(closes, pos, bars, minHoldBars) == Close <==> SmaValue(closes, 5) < SmaValue(closes, 20) && pos.Size > 0.0
  {
  }

  /** The handler sides recorded for market `key`, in order. */
  function SidesFor(orders: seq<OrderCall>, key: string): seq<string>
  {
    if orders == [] then []
    else
      var last := orders[|orders| - 1];
      SidesFor(orders[..|orders| - 1], key) + (if last.Key == key then [last.Side] else [])
  }

  lemma SidesForAppend(orders: seq<OrderCall>, o: OrderCall, key: string)
    ensures SidesFor(orders + [o], key) == SidesFor(orders, key) + (if o.Key == key then [o.Side] else [])
  {
    assert (orders + [o])[..|orders|] == orders;
  }

  /** Buy, sell, buy, ... starting with buy. */
  predicate Alternating(sides: seq<string>)
  {
    forall i | 0 <= i < |sides| :: sides[i] == (if i % 2 == 0 then "buy" else "sell")
  }

  /** At most 100 closes are kept per market. */
  predicate BoundedCloses(priceData: map<string, seq<real>>)
  {
    forall key | key in priceData :: |priceData[key]| <= MaxCloses
  }

  /** Positions have size 0 or 1, and for each market the handler calls
      alternate buy, sell, ... with a long position held exactly after an odd
      number of them. */
  ghost predicate OrderBook(positions: map<string, Position>, orders: seq<OrderCall>)
  {
    && (forall key | key in positions :: positions[key].Size == 0.0 || positions[key].Size == 1.0)
    && (forall key :: Alternating(SidesFor(orders, key)) && (|SidesFor(orders, key)| % 2 == 1 <==> PositionOf(positions, key).Size == 1.0))
  }

  /** Recording one more close keeps the buffer bound. */
  lemma RecordClose(priceData: map<string, seq<real>>, key: string, close: real)
    requires BoundedCloses(priceData)
    ensures BoundedCloses(priceData[key := Window(ClosesOf(priceData, key) + [close])])
  {
  }

  /** Opening a flat market with one buy call, or closing a long one with one
      sell call, keeps the invariant. */
  lemma OrderStep(positions: map<string, Position>, orders: seq<OrderCall>,
                  key: string, symbol: string, side: string, price: real, p: Position)
    requires OrderBook(positions, orders)
    requires (side == "buy" && PositionOf(positions, key).Size <= 0.0 && p.Size == 1.0)
          || (side == "sell" && PositionOf(positions, key).Size > 0.0 && p.Size == 0.0)
    ensures OrderBook(positions[key := p], orders + [OrderCall(key, symbol, side, price)])
  {
    var o := OrderCall(key, symbol, side, price);
    forall k
      ensures Alternating(SidesFor(orders + [o], k))
      ensures |SidesFor(orders + [o], k)| % 2 == 1 <==> PositionOf(positions[key := p], k).Size == 1.0
    {
      SidesForAppend(orders, o, k);
    }
  }

  /** Everything the strategy keeps, with the handler calls made so far. */
  datatype Markets = Markets(PriceData: map<string, seq<real>>, Positions: map<string, Position>,
                             BarCount: map<string, int>, Orders: seq<OrderCall>)

  ghost predicate ValidMarkets(m: Markets)
  {
    BoundedCloses(m.PriceData) && OrderBook(m.Positions, m.Orders)
  }

  /** A decision carried out on the positions and the handler calls: opening
      buys one unit at `close` and reports a buy, closing flattens the
      position and reports a sell, holding changes nothing. */
  function Trade(m: Markets, key: string, symbol: string, close: real, action: Action): (r: Markets)
    ensures r.PriceData == m.PriceData && r.BarCount == m.BarCount
    ensures forall k | k != key :: PositionOf(r.Positions, k) == PositionOf(m.Positions, k)
    ensures |r.Orders| == |m.Orders| + (if action == Hold then 0 else 1) && r.Orders[..|m.Orders|] == m.Orders
    ensures action == Open ==> PositionOf(r.Positions, key) == Position(close, 1.0) && r.Orders[|m.Orders|].Side == "buy"
    ensures action == Close ==> PositionOf(r.Positions, key).Size == 0.0 && r.Orders[|m.Orders|].Side == "sell"
  {
    match action
    case Hold => m
    case Open => m.(Positions := m.Positions[key := Position(close, 1.0)],
                    Orders := m.Orders + [OrderCall(key, symbol, "buy", close)])
    case Close => m.(Positions := m.Positions[key := Position(0.0, 0.0)],
                     Orders := m.Orders + [OrderCall(key, symbol, "sell", close)])
  }

  /** The close appended to the market's bounded buffer, and its bar counted. */
  function Record(m: Markets, key: string, close: real): (r: Markets)
    ensures r.Positions == m.Positions && r.Orders == m.Orders
    ensures BarsOf(r.BarCount, key) == BarsOf(m.BarCount, key) + 1
    ensures |ClosesOf(m.PriceData, key)| <= MaxCloses ==>
              ClosesOf(r.PriceData, key) == LastN(ClosesOf(m.PriceData, key) + [close], MaxCloses)
    ensures forall k | k != key :: ClosesOf(r.PriceData, k) == ClosesOf(m.PriceData, k) && BarsOf(r.BarCount, k) == BarsOf(m.BarCount, k)
  {
    m.(PriceData := m.PriceData[key := Window(ClosesOf(m.PriceData, key) + [close])],
       BarCount := m.BarCount[key := BarsOf(m.BarCount, key) + 1])
  }

  /** One candle of market (`symbol`, `interval`): its close is recorded in
      the bounded buffer, its bar is counted, and the decision on the new
      buffer is carried out. */
  function KlineStep(m: Markets, symbol: string, interval: string, close: real, minHoldBars: int): Markets
  {
    var key := KeyOf(symbol, interval);
    var recorded := Record(m, key, close);
    Trade(recorded, key, symbol, close, Decide(recorded.PriceData[key], PositionOf(m.Positions, key), recorded.BarCount[key], minHoldBars))
  }

  /** Every candle keeps the invariant: at most 100 closes per market, and
      buy and sell calls alternating per market with the position. */
  lemma {:induction false} KlineStepValid(m: Markets, symbol: string, interval: string, close: real, minHoldBars: int)
    requires ValidMarkets(m)
    ensures ValidMarkets(KlineStep(m, symbol, interval, close, minHoldBars))
  {
    var key := KeyOf(symbol, interval);
    var closes := Window(ClosesOf(m.PriceData, key) + [close]);
    var bars := BarsOf(m.BarCount, key) + 1;
    var pos := PositionOf(m.Positions, key);
    RecordClose(m.PriceData, key, close);
    match Decide(closes, pos, bars, minHoldBars)
    case Hold =>
    case Open => OrderStep(m.Positions, m.Orders, key, symbol, "buy", close, Position(close, 1.0));
    case Close => OrderStep(m.Positions, m.Orders, key, symbol, "sell", close, Position(0.0, 0.0));
  }

  /** A decision for market `key` leaves every other market's position and
      handler calls as they were, and touches no closes or bar counts. */
  lemma TradeOthers(m: Markets, key: string, symbol: string, close: real, action: Action, other: string)
    requires other != key
    ensures var n := Trade(m, key, symbol, close, action);
            && n.PriceData == m.PriceData && n.BarCount == m.BarCount
            && PositionOf(n.Positions, other) == PositionOf(m.Positions, other)
            && SidesFor(n.Orders, other) == SidesFor(m.Orders, other)
  {
    match action
    case Hold =>
    case Open => SidesForAppend(m.Orders, OrderCall(key, symbol, "buy", close), other);
    case Close => SidesForAppend(m.Orders, OrderCall(key, symbol, "sell", close), other);
  }

  /** A candle of one market leaves every other market's closes, bar count,
      position and handler calls as they were. */
  lemma OtherMarketsUntouched(m: Markets, symbol: string, interval: string, close: real, minHoldBars: int, other: string)
    requires other != KeyOf(symbol, interval)
    ensures var n := KlineStep(m, symbol, interval, close, minHoldBars);
            && ClosesOf(n.PriceData, other) == ClosesOf(m.PriceData, other)
            && BarsOf(n.BarCount, other) == BarsOf(m.BarCount, other)
            && PositionOf(n.Positions, other) == PositionOf(m.Positions, other)
            && SidesFor(n.Orders, other) == SidesFor(m.Orders, other)
  {
    var key := KeyOf(symbol, interval);
    var recorded := Record(m, key, close);
    TradeOthers(recorded, key, symbol, close,
                Decide(recorded.PriceData[key], PositionOf(m.Positions, key), recorded.BarCount[key], minHoldBars), other);
  }

  /** The closes after a candle, the bar count, and the effect of the
      decision on them: a buy of one unit at the close, a sell to flat, or
      nothing. */
  lemma KlineStepEffect(m: Markets, symbol: string, interval: string, close: real, minHoldBars: int)
    ensures var key := KeyOf(symbol, interval);
            var n := KlineStep(m, symbol, interval, close, minHoldBars);
            var action := Decide(n.PriceData[key], PositionOf(m.Positions, key), n.BarCount[key], minHoldBars);
            && n.PriceData[key] == Window(ClosesOf(m.PriceData, key) + [close])
            && n.BarCount[key] == BarsOf(m.BarCount, key) + 1
            && (action == Hold <==> n.Orders == m.Orders)
            && (action == Hold ==> n.Positions == m.Positions)
            && (action == Open ==> PositionOf(n.Positions, key) == Position(close, 1.0)
                                   && n.Orders == m.Orders + [OrderCall(key, symbol, "buy", close)])
            && (action == Close ==> PositionOf(n.Positions, key) == Position(0.0, 0.0)
                                    && n.Orders == m.Orders + [OrderCall(key, symbol, "sell", close)])
  {
  }

  /** The buffer of a market fed the closes of `history` one candle at a
      time holds the most recent 100 of them. */
  lemma {:induction false} BufferHoldsRecent(m: Markets, symbol: string, interval: string, history: seq<real>, close: real, minHoldBars: int)
    requires ClosesOf(m.PriceData, KeyOf(symbol, interval)) == LastN(history, MaxCloses)
    ensures var key := KeyOf(symbol, interval);
            ClosesOf(KlineStep(m, symbol, interval, close, minHoldBars).PriceData, key) == LastN(history + [close], MaxCloses)
  {
    WindowKeepsRecent(history, close);
  }

  class SMAStrategy {
    var priceData: map<string, seq<real>>
    var positions: map<string, Position>
    const minHoldBars: int
    var barCount: map<string, int>
    /** The calls made to the order handler, oldest first. */
    ghost var orders: seq<OrderCall>

    ghost function State(): Markets
      reads this
    {
      Markets(priceData, positions, barCount, orders)
    }

    ghost predicate Valid()
      reads this
    {
      ValidMarkets(State())
    }

    constructor (minHold: int)
      ensures Valid()
      ensures minHoldBars == minHold && State() == Markets(map[], map[], map[], [])
    {
      priceData := map[];
      positions := map[];
      minHoldBars := minHold;
      barCount := map[];
      orders := [];
    }

    /** The Go code's filters and crossover test on the closes kept, in order. */
    method Choose(closes: seq<real>, pos: Position, bars: int) returns (action: Action)
      ensures action == Decide(closes, pos, bars, minHoldBars)
    {
      var sma5 := Sma(closes, 5);
      var sma20 := Sma(closes, 20);
      if sma5 == 0.0 || sma20 == 0.0 {
        return Hold;
      }
      if pos.Size != 0.0 && bars - EntryTimeBar(pos) < minHoldBars {
        return Hold;
      }
      if sma5 > sma20 && pos.Size <= 0.0 {
        return Open;
      }
      if sma5 < sma20 && pos.Size > 0.0 {
        return Close;
      }
      return Hold;
    }

    /** Records the close of a candle for `key` and counts its bar; returns
        the closes kept and the bar count. */
    method RecordKline(key: string, close: real) returns (closes: seq<real>, bars: int)
      modifies this
      ensures State() == Record(old(State()), key, close)
      ensures closes == priceData[key] && bars == barCount[key]
    {
      closes := if key in priceData then priceData[key] else [];
      closes := closes + [close];
      if |closes| > 100 {
        closes := closes[1..];
      }
      priceData := priceData[key := closes];
      bars := (if key in barCount then barCount[key] else 0) + 1;
      barCount := barCount[key := bars];
    }

    /** Carries out a decision: sets the market's position and calls the handler. */
    method Act(key: string, symbol: string, close: real, action: Action)
      modifies this
      ensures State() == Trade(old(State()), key, symbol, close, action)
    {
      match action {
        case Hold =>
        case Open =>
          positions := positions[key := Position(close, 1.0)];
          orders := orders + [OrderCall(key, symbol, "buy", close)];
        case Close =>
          positions := positions[key := Position(0.0, 0.0)];
          orders := orders + [OrderCall(key, symbol, "sell", close)];
      }
    }

    /** Takes one candle of market (`symbol`, `interval`): records its close,
        counts the bar, and opens or closes the market's position as `Decide`
        says, calling the handler once for each. */
    method OnNewKline(symbol: string, interval: string, k: Kline)
      requires Valid()
      modifies this
      ensures Valid()
      ensures State() == KlineStep(old(State()), symbol, interval, k.Close, minHoldBars)
    {
      KlineStepValid(State(), symbol, interval, k.Close, minHoldBars);
      var key := KeyOf(symbol, interval);
      var closes, bars := RecordKline(key, k.Close);
      var pos := if key in positions then positions[key] else Position(0.0, 0.0);
      var action := Choose(closes, pos, bars);
      Act(key, symbol, k.Close, action);
    }
  }
}
