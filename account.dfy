/** The older unit-lot account: every buy adds one unit of a symbol and pays
    its price, every sell of a held symbol removes one unit and receives its
    price. It lives in its own module because it shares its type name with
    the position engine. */
module UnitAccount {

  /** One order as the account receives it. */
  datatype Order = Order(Symbol: string, Side: string, Price: real)

  /** The balance and the units held per symbol. */
  datatype Book = Book(Balance: real, Positions: map<string, real>)

  /** The units held of `symbol`; a symbol never traded holds none. */
  function Held(positions: map<string, real>, symbol: string): real
  {
    if symbol in positions then positions[symbol] else 0.0
  }

  /** Every unit count is a whole number of at least zero. */
  predicate WholeUnits(positions: map<string, real>)
  {
    forall k | k in positions :: positions[k] >= 0.0 && positions[k].Floor as real == positions[k]
  }

  /** Adding a unit, or taking one from a positive count, keeps whole counts whole. */
  lemma UnitsAfter(positions: map<string, real>, symbol: string, d: int)
    requires d == 1 || (d == -1 && Held(positions, symbol) > 0.0)
    ensures WholeUnits(positions) ==> WholeUnits(positions[symbol := Held(positions, symbol) + d as real])
  {
    if WholeUnits(positions) {
      var n := Held(positions, symbol).Floor;
      assert Held(positions, symbol) == n as real;
      assert Held(positions, symbol) + d as real == (n + d) as real;
    }
  }

  /** The effect of one order. "buy" never checks the balance, so the balance
      may go negative; "sell" needs at least one held unit; any other side is
      ignored. Only the symbol of the order can change, and whole unit counts
      stay whole. */
  function Step(b: Book, o: Order): (r: Book)
    ensures o.Side != "buy" && o.Side != "sell" ==> r == b
    ensures o.Side == "sell" && Held(b.Positions, o.Symbol) <= 0.0 ==> r == b
    ensures o.Side == "buy" ==> Held(r.Positions, o.Symbol) == Held(b.Positions, o.Symbol) + 1.0 && r.Balance == b.Balance - o.Price
    ensures o.Side == "sell" && Held(b.Positions, o.Symbol) > 0.0 ==>
              Held(r.Positions, o.Symbol) == Held(b.Positions, o.Symbol) - 1.0 && r.Balance == b.Balance + o.Price
    ensures forall k | k != o.Symbol :: Held(r.Positions, k) == Held(b.Positions, k)
    ensures r.Positions.Keys <= b.Positions.Keys + {o.Symbol}
    ensures WholeUnits(b.Positions) ==> WholeUnits(r.Positions)
  {
    var held := Held(b.Positions, o.Symbol);
    if o.Side == "buy" then
      UnitsAfter(b.Positions, o.Symbol, 1);
      Book(b.Balance - o.Price, b.Positions[o.Symbol := held + 1.0])
    else if o.Side == "sell" && held > 0.0 then
      UnitsAfter(b.Positions, o.Symbol, -1);
      Book(b.Balance + o.Price, b.Positions[o.Symbol := held - 1.0])
    else
      b
  }

  /** The book after a run of orders, applied in sequence. Whole unit counts
      stay whole, and a symbol no order names keeps its count. */
  function Replay(b: Book, orders: seq<Order>): (r: Book)
    ensures WholeUnits(b.Positions) ==> WholeUnits(r.Positions)
    ensures forall k | (forall i | 0 <= i < |orders| :: orders[i].Symbol != k) :: Held(r.Positions, k) == Held(b.Positions, k)
    decreases |orders|
  {
    if orders == [] then b
    else Step(Replay(b, orders[..|orders| - 1]), orders[|orders| - 1])
  }

  class Account {
    var Balance: real
    var Positions: map<string, real>

    function Snapshot(): Book
      reads this
    {
      Book(Balance, Positions)
    }

    constructor (balance: real)
      ensures Balance == balance && Positions == map[]
      ensures WholeUnits(Positions)
    {
      Balance := balance;
      Positions := map[];
    }

    /** Applies one order to the account. */
    method OnOrder(symbol: string, side: string, price: real)
      modifies this
      ensures Snapshot() == Step(old(Snapshot()), Order(symbol, side, price))
    {
      match side {
        case "buy" =>
          Positions := Positions[symbol := Held(Positions, symbol) + 1.0];
          Balance := Balance - price;
        case "sell" =>
          if Held(Positions, symbol) > 0.0 {
            Positions := Positions[symbol := Held(Positions, symbol) - 1.0];
            Balance := Balance + price;
          }
        case _ =>
      }
    }
  }

  /** A buy followed by a sell of the same symbol at the same price restores
      the balance and the unit count. */
  lemma BuyThenSell(b: Book, symbol: string, price: real)
    requires Held(b.Positions, symbol) >= 0.0
    ensures var r := Step(Step(b, Order(symbol, "buy", price)), Order(symbol, "sell", price));
            r.Balance == b.Balance && Held(r.Positions, symbol) == Held(b.Positions, symbol)
  {
  }
}
