/** The position engine of the paper-trading account: cash, at most one open
    position per symbol, the last seen price per symbol, stop-loss closing on
    every tick, and the trade and equity audit logs as ghost sequences of
    records (without time stamps or number formatting). */
module Simulator {
  import opened Types

  /** An open position; `Direction` is 1 for long and -1 for short. */
  datatype Position = Position(Symbol: string, Size: real, EntryPrice: real, StopLoss: real, Direction: int, OpenedAt: int)

  /** One row of the trade log: event kind, symbol, "LONG"/"SHORT", price, size,
      realized profit or loss and the cash balance after the event. */
  datatype TradeRecord = TradeRecord(Event: string, Symbol: string, Direction: string, Price: real, Size: real, Pl: real, CashAfter: real)

  /** One row of the equity log. */
  datatype EquitySnapshot = EquitySnapshot(Equity: real, Cash: real, Unrealized: real)

  /** The direction column of a trade record. */
  function DirectionLabel(direction: int): (column: string)
    ensures column == "SHORT" <==> direction < 0
    ensures column == "LONG" <==> direction >= 0
  {
    if direction < 0 then "SHORT" else "LONG"
  }

  /** The cash an order for `sig` needs. */
  function Cost(sig: Signal): real
  {
    sig.EntryPrice * sig.Size
  }

  /** The position an accepted signal opens. */
  function Opened(sig: Signal): Position
  {
    Position(sig.Symbol, sig.Size, sig.EntryPrice, sig.StopLoss, sig.Direction, sig.Time)
  }

  /** Profit or loss of `pos` valued at `price`. */
  function PositionPnl(pos: Position, price: real): real
  {
    (price - pos.EntryPrice) * pos.Size * (pos.Direction as real)
  }

  /** The sum of the values of `m`, taken in no particular order. */
  ghost function Total(m: map<string, real>): real
    decreases |m|
  {
    if m == map[] then 0.0
    else
      var k :| k in m;
      m[k] + Total(m - {k})
  }

  /** Any entry can be taken out of a total first: the total does not depend
      on the order in which the entries are visited. */
  lemma {:induction false} TotalRemove(m: map<string, real>, k: string)
    requires k in m
    ensures Total(m) == m[k] + Total(m - {k})
    decreases |m|
  {
    var j :| j in m && Total(m) == m[j] + Total(m - {j});
    if j != k {
      TotalRemove(m - {j}, k);
      TotalRemove(m - {k}, j);
      assert m - {j} - {k} == m - {k} - {j};
    }
  }

  lemma TotalInsert(m: map<string, real>, k: string, v: real)
    requires k !in m
    ensures Total(m[k := v]) == Total(m) + v
  {
    TotalRemove(m[k := v], k);
    assert m[k := v] - {k} == m;
  }

  lemma TotalSingleton(k: string, v: real)
    ensures Total(map[k := v]) == v
  {
    TotalInsert(map[], k, v);
  }

  /** The unrealized profit or loss of each position among `keys` whose symbol
      has a recorded, non-zero last price; the others contribute nothing. */
  function PnlTerms(positions: map<string, Position>, lastPrices: map<string, real>, keys: set<string>): map<string, real>
  {
    map k | k in keys && k in positions && k in lastPrices && lastPrices[k] != 0.0 :: PositionPnl(positions[k], lastPrices[k])
  }

  /** Whether symbol `k` has a last price that counts for valuation. */
  predicate Priced(lastPrices: map<string, real>, k: string)
  {
    k in lastPrices && lastPrices[k] != 0.0
  }

  ghost function Unrealized(positions: map<string, Position>, lastPrices: map<string, real>): real
  {
    Total(PnlTerms(positions, lastPrices, positions.Keys))
  }

  /** Visiting one more position adds its valuation, or nothing when it has no price. */
  lemma PnlTermsAdd(positions: map<string, Position>, lastPrices: map<string, real>, done: set<string>, k: string)
    requires k !in done && k in positions
    ensures Priced(lastPrices, k) ==>
              Total(PnlTerms(positions, lastPrices, done + {k}))
              == Total(PnlTerms(positions, lastPrices, done)) + PositionPnl(positions[k], lastPrices[k])
    ensures !Priced(lastPrices, k) ==> PnlTerms(positions, lastPrices, done + {k}) == PnlTerms(positions, lastPrices, done)
  {
    if Priced(lastPrices, k) {
      assert PnlTerms(positions, lastPrices, done + {k})
             == PnlTerms(positions, lastPrices, done)[k := PositionPnl(positions[k], lastPrices[k])];
      TotalInsert(PnlTerms(positions, lastPrices, done), k, PositionPnl(positions[k], lastPrices[k]));
    }
  }

  /** Opening a position on symbol `k` adds its valuation to the unrealized
      total; with no recorded price for `k` the total does not move. */
  lemma UnrealizedOpen(positions: map<string, Position>, lastPrices: map<string, real>, k: string, p: Position)
    requires k !in positions
    ensures Unrealized(positions[k := p], lastPrices)
            == Unrealized(positions, lastPrices) + (if Priced(lastPrices, k) then PositionPnl(p, lastPrices[k]) else 0.0)
  {
    var after := positions[k := p];
    assert PnlTerms(after, lastPrices, positions.Keys) == PnlTerms(positions, lastPrices, positions.Keys);
    assert after.Keys == positions.Keys + {k};
    PnlTermsAdd(after, lastPrices, positions.Keys, k);
  }

  /** Equity is cash plus unrealized profit or loss; the notional of open
      positions is not part of it. */
  ghost function EquityOf(cash: real, positions: map<string, Position>, lastPrices: map<string, real>): real
  {
    cash + Unrealized(positions, lastPrices)
  }

  /** Right after an accepted open on a symbol with no recorded price, equity
      has dropped by the cost of the order. */
  lemma EquityAfterOpen(cash: real, positions: map<string, Position>, lastPrices: map<string, real>, sig: Signal)
    requires sig.Symbol !in positions && !Priced(lastPrices, sig.Symbol)
    ensures EquityOf(cash - Cost(sig), positions[sig.Symbol := Opened(sig)], lastPrices)
            == EquityOf(cash, positions, lastPrices) - Cost(sig)
  {
    UnrealizedOpen(positions, lastPrices, sig.Symbol, Opened(sig));
  }

  /** The stop-loss rule: a long closes at or below its stop, a short at or above
      it; any other direction value never closes. */
  predicate StopTriggered(pos: Position, price: real)
    ensures StopTriggered(pos, price) <==> !Survives(pos, price)
  {
    (pos.Direction == 1 && price <= pos.StopLoss) || (pos.Direction == -1 && price >= pos.StopLoss)
  }

  /** The three states a position can be in after a tick at `price`. */
  predicate Survives(pos: Position, price: real)
  {
    || (pos.Direction == 1 && price > pos.StopLoss)
    || (pos.Direction == -1 && price < pos.StopLoss)
    || (pos.Direction != 1 && pos.Direction != -1)
  }

  /** The symbols whose positions a tick at `price` stops out, whatever symbol the tick is for. */
  function StoppedKeys(positions: map<string, Position>, price: real): (stopped: set<string>)
    ensures stopped <= positions.Keys
    ensures forall k | k in stopped :: !Survives(positions[k], price)
    ensures forall k | k in positions && k !in stopped :: Survives(positions[k], price)
  {
    set k | k in positions && StopTriggered(positions[k], price)
  }

  /** The cash a close of `pos` at `price` credits: its exit notional. */
  function ExitValue(pos: Position, price: real): real
  {
    price * pos.Size
  }

  /** The exit notional of each position among `keys`. */
  function ExitTerms(positions: map<string, Position>, keys: set<string>, price: real): map<string, real>
  {
    map k | k in keys && k in positions :: ExitValue(positions[k], price)
  }

  lemma ExitTermsAdd(positions: map<string, Position>, keys: set<string>, k: string, price: real)
    requires k !in keys && k in positions
    ensures Total(ExitTerms(positions, keys + {k}, price)) == Total(ExitTerms(positions, keys, price)) + ExitValue(positions[k], price)
  {
    var before, after := ExitTerms(positions, keys, price), ExitTerms(positions, keys + {k}, price);
    assert after.Keys == before.Keys + {k};
    assert after == before[k := ExitValue(positions[k], price)];
    TotalInsert(ExitTerms(positions, keys, price), k, ExitValue(positions[k], price));
  }

  predicate Distinct(order: seq<string>)
  {
    forall i, j | 0 <= i < j < |order| :: order[i] != order[j]
  }

  predicate AllIn(order: seq<string>, positions: map<string, Position>)
  {
    forall i | 0 <= i < |order| :: order[i] in positions
  }

  /** The trade record of closing `pos` (held under `symbol`) at `exitPrice`. */
  function CloseRecord(symbol: string, pos: Position, exitPrice: real, reason: string, cashAfter: real): TradeRecord
  {
    TradeRecord("close_" + reason, symbol, DirectionLabel(pos.Direction), exitPrice, pos.Size, PositionPnl(pos, exitPrice), cashAfter)
  }

  /** The exit notional of closing the positions of `order` one after another. */
  function ExitSum(order: seq<string>, positions: map<string, Position>, price: real): real
    requires AllIn(order, positions)
  {
    if order == [] then 0.0
    else ExitSum(order[..|order| - 1], positions, price) + ExitValue(positions[order[|order| - 1]], price)
  }

  /** The symbols listed in `order`. */
  function Members(order: seq<string>): set<string>
  {
    set i | 0 <= i < |order| :: order[i]
  }

  /** Closing the positions of `order` one after another credits their total
      exit notional, whatever the order. */
  lemma {:induction false} ExitSumIsTotal(order: seq<string>, positions: map<string, Position>, price: real)
    requires Distinct(order) && AllIn(order, positions)
    ensures ExitSum(order, positions, price) == Total(ExitTerms(positions, Members(order), price))
    decreases |order|
  {
    if order == [] {
      assert ExitTerms(positions, Members(order), price) == map[];
    } else {
      var front, k := order[..|order| - 1], order[|order| - 1];
      assert Distinct(front) && AllIn(front, positions);
      ExitSumIsTotal(front, positions, price);
      assert Members(order) == Members(front) + {k} by {
        forall x | x in Members(order) ensures x in Members(front) + {k} {
          var i :| 0 <= i < |order| && order[i] == x;
          if i < |front| { assert front[i] == x; }
        }
        forall x | x in Members(front) ensures x in Members(order) {
          var i :| 0 <= i < |front| && front[i] == x;
          assert order[i] == x;
        }
      }
      assert k !in Members(front);
      ExitTermsAdd(positions, Members(front), k, price);
    }
  }

  /** Two closing orders over the same positions credit the same cash. */
  lemma ExitSumOrderFree(order: seq<string>, other: seq<string>, positions: map<string, Position>, price: real)
    requires Distinct(order) && AllIn(order, positions)
    requires Distinct(other) && AllIn(other, positions)
    requires forall k :: k in order <==> k in other
    ensures ExitSum(order, positions, price) == ExitSum(other, positions, price)
  {
    ExitSumIsTotal(order, positions, price);
    ExitSumIsTotal(other, positions, price);
    assert Members(order) == Members(other) by {
      forall x ensures x in Members(order) <==> x in order {
        if x in order {
          var i :| 0 <= i < |order| && order[i] == x;
        }
      }
      forall x ensures x in Members(other) <==> x in other {
        if x in other {
          var i :| 0 <= i < |other| && other[i] == x;
        }
      }
    }
  }

  /** The trade records of stop-loss closes of the positions of `order`, in that
      order, starting from cash balance `cash`. */
  function StopLossLog(order: seq<string>, positions: map<string, Position>, price: real, cash: real): (log: seq<TradeRecord>)
    requires AllIn(order, positions)
    ensures |log| == |order|
    ensures forall i | 0 <= i < |log| :: log[i].Event == "close_stop_loss" && log[i].Symbol == order[i]
  {
    if order == [] then []
    else
      var k := order[|order| - 1];
      StopLossLog(order[..|order| - 1], positions, price, cash)
      + [CloseRecord(k, positions[k], price, "stop_loss", cash + ExitSum(order, positions, price))]
  }

  lemma OrderStep(order: seq<string>, positions: map<string, Position>, price: real, cash: real, k: string)
    requires AllIn(order, positions) && k in positions
    ensures AllIn(order + [k], positions)
    ensures ExitSum(order + [k], positions, price) == ExitSum(order, positions, price) + ExitValue(positions[k], price)
    ensures StopLossLog(order + [k], positions, price, cash)
            == StopLossLog(order, positions, price, cash)
               + [CloseRecord(k, positions[k], price, "stop_loss", cash + ExitSum(order + [k], positions, price))]
  {
    assert (order + [k])[..|order|] == order;
  }

  /** The keys side of a stop-loss pass over the positions `start` at `price`
      that has visited every key but those in `todo`: `closed` are the keys it
      stopped out, `order` lists them once each in closing order, and
      `positions` is what is left open. */
  ghost predicate StopVisit(start: map<string, Position>, todo: set<string>, closed: set<string>, order: seq<string>,
                            price: real, positions: map<string, Position>)
  {
    && todo <= start.Keys
    && (forall k :: k in closed <==> k in start && k !in todo && StopTriggered(start[k], price))
    && positions == start - closed
    && Distinct(order) && AllIn(order, start)
    && (forall k :: k in order <==> k in closed)
  }

  /** The money side of the same pass: the cash and the trade log are what the
      closes of `order` produce from `cash0` and `log0`. */
  ghost predicate StopBooks(start: map<string, Position>, closed: set<string>, order: seq<string>,
                            price: real, cash0: real, log0: seq<TradeRecord>, cash: real, log: seq<TradeRecord>)
  {
    && AllIn(order, start)
    && cash == cash0 + ExitSum(order, start, price)
    && cash == cash0 + Total(ExitTerms(start, closed, price))
    && log == log0 + StopLossLog(order, start, price, cash0)
  }

  ghost predicate StopProgress(start: map<string, Position>, todo: set<string>, closed: set<string>, order: seq<string>,
                               price: real, cash0: real, log0: seq<TradeRecord>,
                               cash: real, positions: map<string, Position>, log: seq<TradeRecord>)
  {
    StopVisit(start, todo, closed, order, price, positions) && StopBooks(start, closed, order, price, cash0, log0, cash, log)
  }

  lemma StopVisitClose(start: map<string, Position>, todo: set<string>, closed: set<string>, order: seq<string>,
                       price: real, positions: map<string, Position>, k: string)
    requires StopVisit(start, todo, closed, order, price, positions)
    requires k in todo && StopTriggered(start[k], price)
    ensures k !in closed && k in positions && positions[k] == start[k]
    ensures StopVisit(start, todo - {k}, closed + {k}, order + [k], price, positions - {k})
  {
    var order' := order + [k];
    assert k !in order;
    assert forall i | 0 <= i < |order| :: order'[i] == order[i];
    assert Distinct(order');
    assert start - closed - {k} == start - (closed + {k});
  }

  lemma StopBooksClose(start: map<string, Position>, closed: set<string>, order: seq<string>,
                       price: real, cash0: real, log0: seq<TradeRecord>, cash: real, log: seq<TradeRecord>, k: string,
                       cash': real, log': seq<TradeRecord>)
    requires StopBooks(start, closed, order, price, cash0, log0, cash, log)
    requires k in start && k !in closed
    requires cash' == cash + ExitValue(start[k], price)
    requires log' == log + [CloseRecord(k, start[k], price, "stop_loss", cash')]
    ensures StopBooks(start, closed + {k}, order + [k], price, cash0, log0, cash', log')
  {
    ExitTermsAdd(start, closed, k, price);
    OrderStep(order, start, price, cash0, k);
    var prior := StopLossLog(order, start, price, cash0);
    var r := CloseRecord(k, start[k], price, "stop_loss", cash');
    assert log0 + prior + [r] == log0 + (prior + [r]);
  }

  /** Visiting a position that the price stops out closes it: the cash, the
      positions and the log after the close continue the pass. */
  lemma StopProgressClose(start: map<string, Position>, todo: set<string>, closed: set<string>, order: seq<string>,
                          price: real, cash0: real, log0: seq<TradeRecord>,
                          cash: real, positions: map<string, Position>, log: seq<TradeRecord>, k: string,
                          cash': real, positions': map<string, Position>, log': seq<TradeRecord>)
    requires StopProgress(start, todo, closed, order, price, cash0, log0, cash, positions, log)
    requires k in todo && StopTriggered(start[k], price)
    requires k in positions && cash' == cash + ExitValue(positions[k], price) && positions' == positions - {k}
    requires log' == log + [CloseRecord(k, positions[k], price, "stop_loss", cash')]
    ensures StopProgress(start, todo - {k}, closed + {k}, order + [k], price, cash0, log0, cash', positions', log')
  {
    StopVisitClose(start, todo, closed, order, price, positions, k);
    StopBooksClose(start, closed, order, price, cash0, log0, cash, log, k, cash', log');
  }

  /** Visiting a position that the price does not stop out changes nothing. */
  lemma StopProgressKeep(start: map<string, Position>, todo: set<string>, closed: set<string>, order: seq<string>,
                         price: real, cash0: real, log0: seq<TradeRecord>,
                         cash: real, positions: map<string, Position>, log: seq<TradeRecord>, k: string)
    requires StopProgress(start, todo, closed, order, price, cash0, log0, cash, positions, log)
    requires k in todo && !StopTriggered(start[k], price)
    ensures k in positions && positions[k] == start[k]
    ensures StopProgress(start, todo - {k}, closed, order, price, cash0, log0, cash, positions, log)
  {
  }

  class Account {
    const Initial: real
    var Cash: real
    var Positions: map<string, Position>
    var LastPrices: map<string, real>
    ghost var TradeLog: seq<TradeRecord>
    ghost var EquityLog: seq<EquitySnapshot>

    /** Every position is stored under its own symbol. */
    ghost predicate Valid()
      reads this
    {
      forall k | k in Positions :: Positions[k].Symbol == k
    }

    /** Non-negative cash and position sizes; kept whenever orders have
        non-negative sizes and ticks non-negative prices. */
    ghost predicate Solvent()
      reads this
    {
      Cash >= 0.0 && forall k | k in Positions :: Positions[k].Size >= 0.0
    }

    ghost function Equity(): real
      reads this
    {
      EquityOf(Cash, Positions, LastPrices)
    }

    ghost function Snapshot(): EquitySnapshot
      reads this
    {
      var u := Unrealized(Positions, LastPrices);
      EquitySnapshot(Cash + u, Cash, u)
    }

    constructor (initEquity: real)
      ensures Valid()
      ensures Initial == initEquity && Cash == initEquity
      ensures Positions == map[] && LastPrices == map[]
      ensures TradeLog == [] && EquityLog == []
      ensures initEquity >= 0.0 ==> Solvent()
    {
      Initial := initEquity;
      Cash := initEquity;
      Positions := map[];
      LastPrices := map[];
      TradeLog := [];
      EquityLog := [];
    }

    /** Appends a trade record carrying the current cash balance. */
    ghost method WriteTradeLog(event: string, symbol: string, direction: int, price: real, size: real, pl: real)
      modifies this`TradeLog
      ensures TradeLog == old(TradeLog) + [TradeRecord(event, symbol, DirectionLabel(direction), price, size, pl, Cash)]
    {
      TradeLog := TradeLog + [TradeRecord(event, symbol, DirectionLabel(direction), price, size, pl, Cash)];
    }

    /** Appends a snapshot of the current equity, cash and unrealized profit or loss. */
    ghost method WriteEquityLog()
      modifies this`EquityLog
      ensures EquityLog == old(EquityLog) + [Snapshot()]
    {
      EquityLog := EquityLog + [Snapshot()];
    }

    /** Opens a position for `sig`. A missing signal, or a symbol that already
        has a position, changes nothing. An order costing more than the cash is
        rejected with one log record; one costing at most the cash is accepted. */
    method Execute(sig: Option<Signal>)
      requires Valid()
      modifies this
      ensures Valid()
      ensures LastPrices == old(LastPrices)
      ensures sig.None? || sig.value.Symbol in old(Positions) ==>
                && Cash == old(Cash) && Positions == old(Positions)
                && TradeLog == old(TradeLog) && EquityLog == old(EquityLog)
      ensures sig.Some? && sig.value.Symbol !in old(Positions) && Cost(sig.value) > old(Cash) ==>
                var s := sig.value;
                && Cash == old(Cash) && Positions == old(Positions) && EquityLog == old(EquityLog)
                && TradeLog == old(TradeLog)
                   + [TradeRecord("reject_insufficient_cash", s.Symbol, DirectionLabel(s.Direction), s.EntryPrice, s.Size, 0.0, old(Cash))]
      ensures sig.Some? && sig.value.Symbol !in old(Positions) && Cost(sig.value) <= old(Cash) ==>
                var s := sig.value;
                && Cash == old(Cash) - Cost(s)
                && Positions == old(Positions)[s.Symbol := Opened(s)]
                && TradeLog == old(TradeLog)
                   + [TradeRecord("open", s.Symbol, DirectionLabel(s.Direction), s.EntryPrice, s.Size, 0.0, Cash)]
                && EquityLog == old(EquityLog) + [Snapshot()]
                && Unrealized(Positions, LastPrices) == old(Unrealized(Positions, LastPrices))
                   + (if Priced(LastPrices, s.Symbol) then PositionPnl(Opened(s), LastPrices[s.Symbol]) else 0.0)
      ensures old(Solvent()) && (sig.Some? ==> sig.value.Size >= 0.0) ==> Solvent()
    {
      if sig.None? {
        return;
      }
      var s := sig.value;
      if s.Symbol in Positions {
        return;
      }
      var requiredUSD := s.EntryPrice * s.Size;
      if requiredUSD > Cash {
        WriteTradeLog("reject_insufficient_cash", s.Symbol, s.Direction, s.EntryPrice, s.Size, 0.0);
        return;
      }
      Cash := Cash - requiredUSD;
      var pos := Position(s.Symbol, s.Size, s.EntryPrice, s.StopLoss, s.Direction, s.Time);
      UnrealizedOpen(Positions, LastPrices, s.Symbol, pos);
      Positions := Positions[s.Symbol := pos];
      WriteTradeLog("open", s.Symbol, s.Direction, s.EntryPrice, s.Size, 0.0);
      WriteEquityLog();
    }

    /** Records `price` for `symbol`, then closes every position, of any
        symbol, that the price stops out. The closes happen in an unspecified
        order, returned as `closedOrder`; the final state does not depend on it. */
    method OnPriceUpdate(symbol: string, price: real) returns (ghost closedOrder: seq<string>)
      requires Valid()
      modifies this
      ensures Valid()
      ensures LastPrices == old(LastPrices)[symbol := price]
      ensures Positions == old(Positions) - StoppedKeys(old(Positions), price)
      ensures forall k | k in Positions :: Survives(Positions[k], price)
      ensures Cash == old(Cash) + Total(ExitTerms(old(Positions), StoppedKeys(old(Positions), price), price))
      ensures Distinct(closedOrder) && forall k :: k in closedOrder <==> k in StoppedKeys(old(Positions), price)
      ensures AllIn(closedOrder, old(Positions))
      ensures TradeLog == old(TradeLog) + StopLossLog(closedOrder, old(Positions), price, old(Cash))
      ensures EquityLog == old(EquityLog) + [Snapshot()]
      ensures old(Solvent()) && price >= 0.0 ==> Solvent()
    {
      ghost var solventStart := Solvent() && price >= 0.0;
      LastPrices := LastPrices[symbol := price];
      ghost var start := Positions;
      ghost var closed: set<string> := {};
      closedOrder := [];
      var todo := Positions.Keys;
      assert Positions == start - closed;
      while todo != {}
        invariant Valid()
        invariant LastPrices == old(LastPrices)[symbol := price] && EquityLog == old(EquityLog)
        invariant StopProgress(start, todo, closed, closedOrder, price, old(Cash), old(TradeLog), Cash, Positions, TradeLog)
        decreases todo
      {
        var sym :| sym in todo;
        var pos := Positions[sym];
        if (pos.Direction == 1 && price <= pos.StopLoss) || (pos.Direction == -1 && price >= pos.StopLoss) {
          ghost var cashBefore, positionsBefore, logBefore := Cash, Positions, TradeLog;
          assert pos == start[sym];
          ClosePosition(sym, price, "stop_loss");
          StopProgressClose(start, todo, closed, closedOrder, price, old(Cash), old(TradeLog),
                            cashBefore, positionsBefore, logBefore, sym, Cash, Positions, TradeLog);
          closed := closed + {sym};
          closedOrder := closedOrder + [sym];
        } else {
          StopProgressKeep(start, todo, closed, closedOrder, price, old(Cash), old(TradeLog), Cash, Positions, TradeLog, sym);
        }
        todo := todo - {sym};
      }
      assert closed == StoppedKeys(start, price);
      if solventStart {
        ExitSumNonNegative(closedOrder, start, price);
      }
      WriteEquityLog();
    }

    /** Closes the position on `symbol` at `exitPrice`: credits the exit
        notional, removes only that position and logs the realized profit or
        loss. A symbol without a position is left alone. */
    method ClosePosition(symbol: string, exitPrice: real, reason: string)
      requires Valid()
      modifies this
      ensures Valid()
      ensures LastPrices == old(LastPrices) && EquityLog == old(EquityLog)
      ensures symbol !in old(Positions) ==>
                Cash == old(Cash) && Positions == old(Positions) && TradeLog == old(TradeLog)
      ensures symbol in old(Positions) ==>
                var pos := old(Positions)[symbol];
                && Cash == old(Cash) + ExitValue(pos, exitPrice)
                && Positions == old(Positions) - {symbol}
                && TradeLog == old(TradeLog) + [CloseRecord(symbol, pos, exitPrice, reason, Cash)]
    {
      if symbol !in Positions {
        return;
      }
      var pos := Positions[symbol];
      var pl := (exitPrice - pos.EntryPrice) * pos.Size * (pos.Direction as real);
      Cash := Cash + exitPrice * pos.Size;
      Positions := Positions - {symbol};
      assert pl == PositionPnl(pos, exitPrice);
      WriteTradeLog("close_" + reason, symbol, pos.Direction, exitPrice, pos.Size, pl);
    }

    /** Sums the unrealized profit or loss over the positions whose symbol has
        a recorded, non-zero last price. */
    method ComputeUnrealized() returns (unreal: real)
      ensures unreal == Unrealized(Positions, LastPrices)
    {
      unreal := 0.0;
      var todo := Positions.Keys;
      ghost var done: set<string> := {};
      while todo != {}
        invariant todo <= Positions.Keys && done !! todo && done + todo == Positions.Keys
        invariant unreal == Total(PnlTerms(Positions, LastPrices, done))
        decreases todo
      {
        var sym :| sym in todo;
        var pos := Positions[sym];
        PnlTermsAdd(Positions, LastPrices, done, sym);
        if sym in LastPrices && LastPrices[sym] != 0.0 {
          assert (LastPrices[sym] - pos.EntryPrice) * pos.Size * (pos.Direction as real) == PositionPnl(pos, LastPrices[sym]);
          unreal := unreal + (LastPrices[sym] - pos.EntryPrice) * pos.Size * (pos.Direction as real);
        }
        assert unreal == Total(PnlTerms(Positions, LastPrices, done + {sym}));
        todo := todo - {sym};
        done := done + {sym};
      }
    }

    /** Total equity: cash plus unrealized profit or loss. Position notional is
        not part of it. */
    method GetEquity() returns (equity: real)
      ensures equity == Equity()
    {
      var unreal := ComputeUnrealized();
      equity := Cash + unreal;
    }
  }

  /** An open followed by a close of the same position: closing at the entry
      price gives back exactly the cost; for a long the net cash change is
      the logged profit or loss, for a short it is its negation. */
  lemma OpenCloseCash(sig: Signal, exitPrice: real)
    ensures ExitValue(Opened(sig), sig.EntryPrice) == Cost(sig)
    ensures sig.Direction == 1 ==> ExitValue(Opened(sig), exitPrice) - Cost(sig) == PositionPnl(Opened(sig), exitPrice)
    ensures sig.Direction == -1 ==> ExitValue(Opened(sig), exitPrice) - Cost(sig) == -PositionPnl(Opened(sig), exitPrice)
  {
  }

  /** At a non-negative price, closing positions of non-negative size never takes cash away. */
  lemma {:induction false} ExitSumNonNegative(order: seq<string>, positions: map<string, Position>, price: real)
    requires AllIn(order, positions) && price >= 0.0
    requires forall k | k in positions :: positions[k].Size >= 0.0
    ensures ExitSum(order, positions, price) >= 0.0
    decreases |order|
  {
    if order != [] {
      var k := order[|order| - 1];
      ExitSumNonNegative(order[..|order| - 1], positions, price);
      assert ExitValue(positions[k], price) >= 0.0;
    }
  }
}
