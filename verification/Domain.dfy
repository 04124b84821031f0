/** Trading primitives: order sides, fills and the average-cost position. */
module Domain {

  datatype Side = Buy | Sell

  function Sign(side: Side): real {
    if side == Buy then 1.0 else -1.0
  }

  type Units = n: int | 0 < n witness 1

  datatype OrderType = Market | Limit | Stop | StopLoss | TakeProfit

  /** What a client order id is derived from. The router hashes these fields; equal ids mean equal fields
      as long as the hash does not collide. */
  datatype OrderId = OrderId(intentId: string, symbol: string, side: Side, units: int, orderType: OrderType, slice: nat)

  datatype Fill = Fill(id: string, orderId: OrderId, symbol: string, side: Side, price: real, units: Units,
                       commission: real, timestamp: nat)

  /** A position as a value. */
  datatype Pos = Pos(symbol: string, side: Side, units: int, averageEntry: real, current: real, realized: real,
                     unrealized: real, commission: real, swap: real, isOpen: bool)

  /** Price gain per unit of a position on `side` between two prices. */
  function Gain(side: Side, entry: real, exit: real): real {
    if side == Buy then exit - entry else entry - exit
  }

  function Opened(f: Fill): Pos {
    Pos(f.symbol, f.side, f.units, f.price, f.price, 0.0, 0.0, f.commission, 0.0, true)
  }

  function Closable(p: Pos, f: Fill): int {
    if p.units <= f.units then p.units else f.units
  }

  /** A fill on the position's own side averages the entry price; an opposite fill realizes the part
      it can close. */
  function AfterFill(p: Pos, f: Fill, rate: real): Pos
    requires 0 <= p.units
  {
    var paid := p.(commission := p.commission + f.commission);
    if f.side == p.side then
      var total := p.units + f.units;
      paid.(units := total,
            averageEntry := (p.units as real * p.averageEntry + f.units as real * f.price) / total as real)
    else
      var closed := Closable(p, f);
      var left := p.units - closed;
      paid.(units := left, realized := p.realized + closed as real * Gain(p.side, p.averageEntry, f.price) * rate,
            isOpen := p.isOpen && left != 0, unrealized := if left == 0 then 0.0 else p.unrealized)
  }

  function Marked(p: Pos, price: real, rate: real): Pos {
    p.(current := price, unrealized := p.units as real * Gain(p.side, p.averageEntry, price) * rate)
  }

  class Position {
    const symbol: string
    const side: Side
    var units: int
    var averageEntry: real
    var current: real
    var realized: real
    var unrealized: real
    var commission: real
    var swap: real
    var isOpen: bool

    function Value(): Pos
      reads this
    {
      Pos(symbol, side, units, averageEntry, current, realized, unrealized, commission, swap, isOpen)
    }

    /** The position a first fill opens. */
    constructor (f: Fill)
      ensures Value() == Opened(f)
    {
      symbol, side, units, averageEntry, current := f.symbol, f.side, f.units, f.price, f.price;
      realized, unrealized, commission, swap, isOpen := 0.0, 0.0, f.commission, 0.0, true;
    }

    /** Revalue the position at a new price. */
    method UpdateMarketPrice(price: real, rate: real)
      modifies this`current, this`unrealized
      ensures Value() == Marked(old(Value()), price, rate)
    {
      current := price;
      var difference := if side == Buy then current - averageEntry else averageEntry - current;
      unrealized := units as real * difference * rate;
    }

    /** Apply one more fill; a fill on another symbol is refused and changes nothing. */
    method ApplyFill(f: Fill, rate: real) returns (ok: bool)
      requires 0 <= units
      modifies this
      ensures ok <==> f.symbol == symbol
      ensures Value() == if ok then AfterFill(old(Value()), f, rate) else old(Value())
      ensures 0 <= units
    {
      if f.symbol != symbol {
        return false;
      }
      commission := commission + f.commission;
      if f.side == side {
        var total := units + f.units;
        var cost := units as real * averageEntry + f.units as real * f.price;
        averageEntry := cost / total as real;
        units := total;
      } else {
        var closed := if units <= f.units then units else f.units;
        var difference := if side == Buy then f.price - averageEntry else averageEntry - f.price;
        realized := realized + closed as real * difference * rate;
        var left := units - closed;
        units := left;
        if left == 0 {
          isOpen := false;
          unrealized := 0.0;
        }
      }
      ok := true;
    }

    method ApplySwap(amount: real)
      modifies this`swap
      ensures Value() == old(Value()).(swap := old(swap) + amount)
    {
      swap := swap + amount;
    }
  }

  // ---------------------------------------------------------------- the cash-flow view of one position

  /** What holding the position is worth at a mark price: realized and still open gain. */
  function Worth(p: Pos, mark: real, rate: real): real {
    p.realized + Sign(p.side) * p.units as real * (mark - p.averageEntry) * rate
  }

  /** What `units` of the fill are worth at a mark price, taken on their own. */
  function Flow(f: Fill, units: int, mark: real, rate: real): real {
    Sign(f.side) * units as real * (mark - f.price) * rate
  }

  /** The part of a fill the position takes up: all of it, unless it closes more than there is. */
  function Taken(p: Pos, f: Fill): int {
    if f.side == p.side then f.units else Closable(p, f)
  }

  lemma AverageCost(a: real, x: real, b: real, y: real)
    requires 0.0 < a + b
    ensures (a * x + b * y) / (a + b) * (a + b) == a * x + b * y
  {
  }

  lemma Regroup(s: real, u: real, v: real, total: real, avg: real, next: real, price: real, mark: real, rate: real)
    requires total == u + v && next * total == u * avg + v * price
    ensures s * total * (mark - next) * rate == s * u * (mark - avg) * rate + s * v * (mark - price) * rate
  {
    calc {
      s * total * (mark - next) * rate;
      s * (total * mark - next * total) * rate;
      s * (u * (mark - avg) + v * (mark - price)) * rate;
      s * u * (mark - avg) * rate + s * v * (mark - price) * rate;
    }
  }

  lemma Closing(s: real, u: real, c: real, avg: real, price: real, mark: real, rate: real)
    ensures c * (s * (price - avg)) * rate + s * (u - c) * (mark - avg) * rate ==
            s * u * (mark - avg) * rate + -s * c * (mark - price) * rate
  {
    calc {
      c * (s * (price - avg)) * rate + s * (u - c) * (mark - avg) * rate;
      s * (c * (price - avg) + (u - c) * (mark - avg)) * rate;
      s * (u * (mark - avg) - c * (mark - price)) * rate;
      s * u * (mark - avg) * rate + -s * c * (mark - price) * rate;
    }
  }

  lemma OpeningWorth(f: Fill, mark: real, rate: real)
    ensures Worth(Opened(f), mark, rate) == Flow(f, f.units, mark, rate)
  {
  }

  lemma AverageWorth(p: Pos, f: Fill, mark: real, rate: real)
    requires 0 <= p.units && f.side == p.side
    ensures Worth(AfterFill(p, f, rate), mark, rate) == Worth(p, mark, rate) + Flow(f, f.units, mark, rate)
  {
    var (u, v) := (p.units as real, f.units as real);
    AverageCost(u, p.averageEntry, v, f.price);
    Regroup(Sign(p.side), u, v, u + v, p.averageEntry, AfterFill(p, f, rate).averageEntry, f.price, mark, rate);
  }

  lemma ClosingWorth(p: Pos, f: Fill, mark: real, rate: real)
    requires 0 <= p.units && f.side != p.side
    ensures Worth(AfterFill(p, f, rate), mark, rate) == Worth(p, mark, rate) + Flow(f, Closable(p, f), mark, rate)
  {
    var s, u, c := Sign(p.side), p.units as real, Closable(p, f) as real;
    assert Gain(p.side, p.averageEntry, f.price) == s * (f.price - p.averageEntry);
    assert Sign(f.side) == -s;
    Closing(s, u, c, p.averageEntry, f.price, mark, rate);
  }

  /** Applying a fill adds exactly the cash flow of the part taken, at every mark price. */
  lemma FillWorth(p: Pos, f: Fill, mark: real, rate: real)
    requires 0 <= p.units
    ensures Worth(AfterFill(p, f, rate), mark, rate) == Worth(p, mark, rate) + Flow(f, Taken(p, f), mark, rate)
  {
    if f.side == p.side {
      AverageWorth(p, f, mark, rate);
    } else {
      ClosingWorth(p, f, mark, rate);
    }
  }

  /** Once marked, the reported realized and unrealized gain are that worth. */
  lemma MarkedWorth(p: Pos, mark: real, rate: real)
    ensures Marked(p, mark, rate).realized + Marked(p, mark, rate).unrealized == Worth(p, mark, rate)
    ensures Worth(Marked(p, mark, rate), mark, rate) == Worth(p, mark, rate)
  {
    assert Gain(p.side, p.averageEntry, mark) == Sign(p.side) * (mark - p.averageEntry);
  }
}
