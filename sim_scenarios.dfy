/** Scenarios of the position engine that pin its arithmetic down on
    concrete numbers: an open, a stop-out, and a rejected order. */
module SimScenarios {
  import opened Types
  import opened Simulator

  /** A long of 5 at 100 with its stop at 90 on a 1000 account: the open
      leaves 500 cash and, with no tick yet, 500 equity (the notional is not
      counted), and logs one open record and one equity snapshot; a tick at 90
      stops it out, crediting 90 * 5 and logging a `close_stop_loss` record
      with a realized loss of 50, which leaves 950 cash, 950 equity, no
      position, two trade records and two equity snapshots. */
  method OpenThenStop() returns (cashAfterOpen: real, equityAfterOpen: real, cashAfterStop: real, equityAfterStop: real,
                                 flat: bool, ghost openRecord: TradeRecord, ghost closeRecord: TradeRecord,
                                 ghost records: nat, ghost snapshots: nat)
    ensures cashAfterOpen == 500.0 && equityAfterOpen == 500.0
    ensures openRecord == TradeRecord("open", "BTCUSDT", "LONG", 100.0, 5.0, 0.0, 500.0)
    ensures cashAfterStop == 950.0 && equityAfterStop == 950.0 && flat
    ensures closeRecord == TradeRecord("close_stop_loss", "BTCUSDT", "LONG", 90.0, 5.0, -50.0, 950.0)
    ensures records == 2 && snapshots == 2
  {
    var a := OpenLong();
    cashAfterOpen := a.Cash;
    assert PnlTerms(a.Positions, a.LastPrices, a.Positions.Keys) == map[];
    equityAfterOpen := a.GetEquity();
    openRecord := a.TradeLog[0];
    StopLong(a);
    cashAfterStop := a.Cash;
    assert PnlTerms(a.Positions, a.LastPrices, a.Positions.Keys) == map[];
    equityAfterStop := a.GetEquity();
    flat := |a.Positions| == 0;
    closeRecord := a.TradeLog[|a.TradeLog| - 1];
    records, snapshots := |a.TradeLog|, |a.EquityLog|;
  }

  /** The scenario's long of 5 at 100, stop 90, the account's one
      position, as an accepted signal stores it. */
  function ScenarioLong(): Position
  {
    Position("BTCUSDT", 5.0, 100.0, 90.0, 1, 0)
  }

  /** The opening half of the scenario: a fresh 1000 account takes the long. */
  method OpenLong() returns (a: Account)
    ensures fresh(a) && a.Valid()
    ensures a.Cash == 500.0 && a.Positions == map["BTCUSDT" := ScenarioLong()] && a.LastPrices == map[]
    ensures a.TradeLog == [TradeRecord("open", "BTCUSDT", "LONG", 100.0, 5.0, 0.0, 500.0)]
    ensures |a.EquityLog| == 1
  {
    a := new Account(1000.0);
    a.Execute(Some(Signal("BTCUSDT", 1, 100.0, 90.0, 5.0, 0)));
  }

  /** The closing half: a tick at 90 stops the long out. */
  method StopLong(a: Account)
    requires a.Valid()
    requires a.Cash == 500.0 && a.Positions == map["BTCUSDT" := ScenarioLong()]
    requires |a.TradeLog| == 1 && |a.EquityLog| == 1
    modifies a
    ensures a.Cash == 950.0 && a.Positions == map[]
    ensures a.TradeLog == old(a.TradeLog) + [TradeRecord("close_stop_loss", "BTCUSDT", "LONG", 90.0, 5.0, -50.0, 950.0)]
    ensures |a.EquityLog| == 2
  {
    ghost var p0 := a.Positions;
    assert StoppedKeys(p0, 90.0) == {"BTCUSDT"};
    assert ExitTerms(p0, {"BTCUSDT"}, 90.0) == map["BTCUSDT" := 450.0];
    TotalSingleton("BTCUSDT", 450.0);
    ghost var closedOrder := a.OnPriceUpdate("BTCUSDT", 90.0);
    assert "BTCUSDT" in closedOrder;
    assert closedOrder == ["BTCUSDT"];
    StopLossRecord(p0);
  }

  /** The trade record that the stop-out of the scenario's long appends. */
  lemma StopLossRecord(p0: map<string, Position>)
    requires p0 == map["BTCUSDT" := ScenarioLong()]
    ensures StopLossLog(["BTCUSDT"], p0, 90.0, 500.0)
            == [TradeRecord("close_stop_loss", "BTCUSDT", "LONG", 90.0, 5.0, -50.0, 950.0)]
  {
    var order := ["BTCUSDT"];
    assert order[..0] == [];
    assert ExitSum(order, p0, 90.0) == 450.0;
    assert "close_" + "stop_loss" == "close_stop_loss";
  }

  /** An order needing 1200 against 1000 cash opens nothing, keeps the cash
      and logs one rejection with a zero profit or loss. */
  method RejectedOrder() returns (cash: real, flat: bool, ghost record: TradeRecord, ghost records: nat, ghost snapshots: nat)
    ensures cash == 1000.0 && flat
    ensures record == TradeRecord("reject_insufficient_cash", "BTCUSDT", "LONG", 120.0, 10.0, 0.0, 1000.0)
    ensures records == 1 && snapshots == 0
  {
    var a := new Account(1000.0);
    a.Execute(Some(Signal("BTCUSDT", 1, 120.0, 100.0, 10.0, 0)));
    cash := a.Cash;
    flat := |a.Positions| == 0;
    record := a.TradeLog[0];
    records, snapshots := |a.TradeLog|, |a.EquityLog|;
  }

  /** An order costing exactly the cash is accepted and leaves no cash. */
  method ExactCashAccepted() returns (cash: real, isOpen: bool)
    ensures cash == 0.0 && isOpen
  {
    var a := new Account(1000.0);
    a.Execute(Some(Signal("ETHUSDT", 1, 250.0, 200.0, 4.0, 0)));
    cash := a.Cash;
    isOpen := "ETHUSDT" in a.Positions;
  }
}
