/** Target-position allocation: strategy targets become bounded order intents. */
module TargetAllocator {
  import opened Common
  import opened Domain
  import opened Symbols

  datatype Regime = Trending | Ranging | HighVolatility | LowVolatility | UnknownRegime

  datatype Target = Target(symbol: string, units: int, strategy: string)

  datatype Order = Order(symbol: string, side: Side, units: Units, strategy: string)

  datatype Reason = RegimeNotTradable | UnsupportedSymbol(symbol: string) | SymbolCap(symbol: string)
                  | GrossCap(symbol: string) | CurrencyCap(symbol: string)

  datatype Limits = Limits(gross: int, symbol: int, currency: int)

  const SYMBOLS: set<string> :=
    {"EURUSD", "GBPUSD", "USDJPY", "USDCHF", "AUDUSD", "USDCAD", "NZDUSD",
     "EURGBP", "EURJPY", "EURCHF", "EURAUD", "EURNZD", "EURCAD",
     "GBPJPY", "GBPCHF", "GBPAUD", "GBPNZD", "GBPCAD",
     "AUDJPY", "AUDCHF", "AUDNZD", "AUDCAD",
     "NZDJPY", "NZDCHF", "NZDCAD",
     "CADJPY", "CADCHF", "CHFJPY"}

  predicate Supported(symbol: string) {
    Normalize(symbol) in SYMBOLS
  }

  function UnitsOf(m: map<string, int>, symbol: string): int {
    if symbol in m then m[symbol] else 0
  }

  function Size(units: int): real {
    if units < 0 then (-units) as real else units as real
  }

  /** Absolute units over all symbols. */
  ghost function Gross(m: map<string, int>): real {
    Total(m, Size)
  }

  /** Units on the USD leg of a pair. */
  predicate WithinCurrencyCap(symbol: string, delta: int, cap: int) {
    var pair := PairOf(symbol);
    pair.Some? ==> Size(if pair.value.0 == "USD" || pair.value.1 == "USD" then delta else 0) <= cap as real
  }

  datatype Outcome = Unchanged | Rejected(reason: Reason) | Accepted(order: Order)

  function OrderFor(symbol: string, delta: int, strategy: string): Order
    requires delta != 0
  {
    Order(symbol, if delta > 0 then Buy else Sell, if delta > 0 then delta else -delta, strategy)
  }

  /** What one target leads to, given the units projected so far. */
  ghost function Decide(l: Limits, projected: map<string, int>, t: Target): Outcome {
    var symbol := Normalize(t.symbol);
    var delta := t.units - UnitsOf(projected, symbol);
    if !Supported(symbol) then Rejected(UnsupportedSymbol(t.symbol))
    else if delta == 0 then Unchanged
    else if Size(t.units) > l.symbol as real then Rejected(SymbolCap(symbol))
    else if Gross(projected) + Size(delta) > l.gross as real then Rejected(GrossCap(symbol))
    else if !WithinCurrencyCap(symbol, delta, l.currency) then Rejected(CurrencyCap(symbol))
    else Accepted(OrderFor(symbol, delta, t.strategy))
  }

  datatype Book = Book(projected: map<string, int>, orders: seq<Order>, rejected: seq<Reason>)

  ghost function Apply(l: Limits, b: Book, t: Target): Book {
    match Decide(l, b.projected, t)
    case Unchanged => b
    case Rejected(reason) => b.(rejected := b.rejected + [reason])
    case Accepted(order) =>
      b.(projected := b.projected[Normalize(t.symbol) := t.units], orders := b.orders + [order])
  }

  ghost function Run(l: Limits, current: map<string, int>, targets: seq<Target>): Book {
    if targets == [] then Book(current, [], [])
    else Apply(l, Run(l, current, targets[..|targets| - 1]), targets[|targets| - 1])
  }

  function Normalized(units: seq<(string, int)>): map<string, int> {
    if units == [] then map[]
    else Normalized(units[..|units| - 1])[Normalize(units[|units| - 1].0) := units[|units| - 1].1]
  }

  datatype Decision = Decision(approved: bool, orders: seq<Order>, rejected: seq<Reason>, gross: real)

  class TargetPositionAllocator {
    const limits: Limits
    const allowed: set<Regime>

    constructor (limits: Limits, allowed: set<Regime>)
      ensures this.limits == limits && this.allowed == allowed
    {
      this.limits, this.allowed := limits, allowed;
    }

    /** Check one target against the caps, in the order symbol, gross, currency. */
    method Consider(t: Target, projected: map<string, int>) returns (r: Outcome)
      ensures r == Decide(limits, projected, t)
    {
      hide Normalize, WithinCurrencyCap;
      var symbol := Normalize(t.symbol);
      if !Supported(symbol) {
        return Rejected(UnsupportedSymbol(t.symbol));
      }
      var delta := t.units - UnitsOf(projected, symbol);
      if delta == 0 {
        return Unchanged;
      }
      if Size(UnitsOf(projected, symbol) + delta) > limits.symbol as real {
        return Rejected(SymbolCap(symbol));
      }
      var gross := TotalOf(projected, Size);
      if gross + Size(delta) > limits.gross as real {
        return Rejected(GrossCap(symbol));
      }
      if !WithinCurrencyCap(symbol, delta, limits.currency) {
        return Rejected(CurrencyCap(symbol));
      }
      r := Accepted(OrderFor(symbol, delta, t.strategy));
    }

    /** Translate targets into order intents, in order, each against the units projected so far. */
    method Allocate(targets: seq<Target>, currentUnits: seq<(string, int)>, regime: Regime) returns (d: Decision)
      ensures regime !in allowed ==> d == Decision(false, [], [RegimeNotTradable], 0.0)
      ensures regime in allowed ==>
                var b := Run(limits, Normalized(currentUnits), targets);
                d == Decision(b.rejected == [], b.orders, b.rejected, Gross(b.projected))
    {
      hide Decide, Normalize, Normalized;
      if regime !in allowed {
        return Decision(false, [], [RegimeNotTradable], 0.0);
      }
      var projected := Normalized(currentUnits);
      var orders: seq<Order>, rejected: seq<Reason> := [], [];
      for i := 0 to |targets|
        invariant Book(projected, orders, rejected) == Run(limits, Normalized(currentUnits), targets[..i])
      {
        assert targets[..i + 1][..i] == targets[..i];
        var outcome := Consider(targets[i], projected);
        match outcome {
          case Unchanged =>
          case Rejected(reason) =>
            rejected := rejected + [reason];
          case Accepted(order) =>
            orders := orders + [order];
            projected := projected[Normalize(targets[i].symbol) := targets[i].units];
        }
      }
      assert targets[..|targets|] == targets;
      var gross := TotalOf(projected, Size);
      d := Decision(rejected == [], orders, rejected, gross);
    }
  }

  // ---------------------------------------------------------------- what the orders add up to

  function Signed(o: Order): int {
    if o.side == Buy then o.units as int else -(o.units as int)
  }

  function Traded(orders: seq<Order>, symbol: string): int {
    if orders == [] then 0
    else
      var last := orders[|orders| - 1];
      Traded(orders[..|orders| - 1], symbol) + if last.symbol == symbol then Signed(last) else 0
  }

  lemma TradedAppend(orders: seq<Order>, o: Order, symbol: string)
    ensures Traded(orders + [o], symbol) == Traded(orders, symbol) + if o.symbol == symbol then Signed(o) else 0
  {
    assert (orders + [o])[..|orders|] == orders;
  }

  /** The units of the last target for a symbol that was not rejected, if there was one. */
  ghost function LastAccepted(l: Limits, current: map<string, int>, targets: seq<Target>, symbol: string): Option<int> {
    if targets == [] then None
    else
      var (front, last) := (targets[..|targets| - 1], targets[|targets| - 1]);
      if Normalize(last.symbol) == symbol && !Decide(l, Run(l, current, front).projected, last).Rejected?
      then Some(last.units)
      else LastAccepted(l, current, front, symbol)
  }

  lemma NothingTraded(symbol: string)
    ensures Traded([], symbol) == 0
  {
  }

  /** One target trades exactly the difference; unless rejected, its own symbol ends on its units, and
      nothing else moves. */
  lemma StepReaches(l: Limits, b: Book, t: Target, symbol: string)
    ensures var next := Apply(l, b, t);
            Traded(next.orders, symbol) - Traded(b.orders, symbol) ==
            UnitsOf(next.projected, symbol) - UnitsOf(b.projected, symbol) &&
            UnitsOf(next.projected, symbol) ==
            if Normalize(t.symbol) == symbol && !Decide(l, b.projected, t).Rejected? then t.units
            else UnitsOf(b.projected, symbol)
  {
    hide Normalize, Supported, WithinCurrencyCap, Gross, Traded;
    var outcome := Decide(l, b.projected, t);
    if outcome.Accepted? {
      TradedAppend(b.orders, outcome.order, symbol);
    }
  }

  /** Trading the intents takes every symbol from its current units to its last accepted target, or
      leaves it where it is; repeats of a symbol included. */
  lemma {:induction false} OrdersReachTargets(l: Limits, current: map<string, int>, targets: seq<Target>,
                                              symbol: string)
    ensures var b := Run(l, current, targets);
            UnitsOf(b.projected, symbol) == UnitsOf(current, symbol) + Traded(b.orders, symbol) &&
            var last := LastAccepted(l, current, targets, symbol);
            UnitsOf(b.projected, symbol) == if last.Some? then last.value else UnitsOf(current, symbol)
  {
    hide Normalize, Decide, Apply, Traded;
    if targets != [] {
      var front, t := targets[..|targets| - 1], targets[|targets| - 1];
      OrdersReachTargets(l, current, front, symbol);
      StepReaches(l, Run(l, current, front), t, symbol);
    } else {
      NothingTraded(symbol);
    }
  }

  // ---------------------------------------------------------------- caps

  lemma SizeTriangle(a: int, b: int)
    ensures Size(b) <= Size(a) + Size(b - a)
  {
  }

  /** Changing one symbol changes the gross by at most the size of the change. */
  lemma GrossStep(m: map<string, int>, symbol: string, units: int)
    ensures Gross(m[symbol := units]) <= Gross(m) + Size(units - UnitsOf(m, symbol))
  {
    hide Total;
    TotalPut(m, symbol, units, Size);
    if symbol in m {
      TotalSplit(m, symbol, Size);
    } else {
      TotalMissing(m, symbol);
    }
    SizeTriangle(UnitsOf(m, symbol), units);
  }

  /** The projected gross never exceeds the larger of where it started and the cap; every intent's
      target is within the symbol cap and its USD leg within the currency cap. */
  lemma {:induction false} CapsHold(l: Limits, current: map<string, int>, targets: seq<Target>)
    ensures var b := Run(l, current, targets);
            Gross(b.projected) <= (if Gross(current) < l.gross as real then l.gross as real else Gross(current)) &&
            (forall s :: s in b.projected ==>
               (s in current && b.projected[s] == current[s]) || Size(b.projected[s]) <= l.symbol as real) &&
            (forall o :: o in b.orders ==> Supported(o.symbol) && WithinCurrencyCap(o.symbol, Signed(o), l.currency))
  {
    hide Normalize, Supported, WithinCurrencyCap, Gross, Size;
    if targets != [] {
      var front, t := targets[..|targets| - 1], targets[|targets| - 1];
      CapsHold(l, current, front);
      GrossStep(Run(l, current, front).projected, Normalize(t.symbol), t.units);
    }
  }

  predicate Between(units: int, cap: int) {
    -cap <= units <= cap
  }

  predicate DollarPair(symbol: string) {
    symbol in {"EURUSD", "GBPUSD", "AUDUSD", "NZDUSD", "USDJPY", "USDCHF", "USDCAD"}
  }

  lemma SizeWithin(units: int, cap: int)
    ensures Size(units) <= cap as real <==> Between(units, cap)
  {
  }

  lemma DollarLegs(symbol: string)
    requires symbol in SYMBOLS
    ensures |symbol| == 6 && ((symbol[..3] == "USD" || symbol[3..] == "USD") <==> DollarPair(symbol))
  {
    assert symbol[..3] == "USD" ==> symbol[0] == 'U' && symbol[1] == 'S';
    assert symbol[3..] == "USD" ==> symbol[3] == 'U' && symbol[4] == 'S';
  }

  /** The currency cap bounds the change of the seven dollar pairs; the others only refuse a negative cap. */
  lemma CurrencyCapMeans(symbol: string, delta: int, cap: int)
    requires Supported(symbol)
    ensures WithinCurrencyCap(symbol, delta, cap) <==> Between(if DollarPair(Normalize(symbol)) then delta else 0, cap)
  {
    hide Normalize, Size;
    DollarLegs(Normalize(symbol));
    SizeWithin(delta, cap);
    SizeWithin(0, cap);
  }

  /** Which target is accepted, and the intent it becomes: the signed change that takes its symbol there. */
  lemma AcceptedExact(l: Limits, m: map<string, int>, t: Target)
    ensures var s := Normalize(t.symbol);
            var delta := t.units - if s in m then m[s] else 0;
            (Decide(l, m, t).Accepted? <==>
             && Normalize(s) in SYMBOLS && delta != 0
             && -l.symbol <= t.units <= l.symbol
             && Gross(m) <= (if delta < 0 then l.gross + delta else l.gross - delta) as real
             && Between(if DollarPair(Normalize(s)) then delta else 0, l.currency)) &&
            (Decide(l, m, t).Accepted? ==>
               var o := Decide(l, m, t).order;
               o.symbol == s && o.strategy == t.strategy &&
               (o.side == Buy ==> o.units == delta) && (o.side == Sell ==> o.units == -delta))
  {
    hide Normalize, Gross, WithinCurrencyCap;
    var s := Normalize(t.symbol);
    if Supported(s) {
      CurrencyCapMeans(s, t.units - UnitsOf(m, s), l.currency);
    }
  }

  /** Why a target is refused: the first of the four tests it fails. */
  lemma RefusedExact(l: Limits, m: map<string, int>, t: Target)
    ensures var s := Normalize(t.symbol);
            var delta := t.units - if s in m then m[s] else 0;
            match Decide(l, m, t)
            case Unchanged => Normalize(s) in SYMBOLS && delta == 0
            case Accepted(_) => true
            case Rejected(UnsupportedSymbol(name)) => name == t.symbol && Normalize(s) !in SYMBOLS
            case Rejected(SymbolCap(name)) => name == s && !Between(t.units, l.symbol)
            case Rejected(GrossCap(name)) =>
              name == s && Between(t.units, l.symbol) &&
              Gross(m) > (if delta < 0 then l.gross + delta else l.gross - delta) as real
            case Rejected(CurrencyCap(name)) =>
              name == s && Between(t.units, l.symbol) &&
              Gross(m) <= (if delta < 0 then l.gross + delta else l.gross - delta) as real &&
              !Between(if DollarPair(Normalize(s)) then delta else 0, l.currency)
            case Rejected(RegimeNotTradable) => false
  {
    hide Normalize, Gross, WithinCurrencyCap;
    var s := Normalize(t.symbol);
    if Supported(s) {
      CurrencyCapMeans(s, t.units - UnitsOf(m, s), l.currency);
    }
  }

  /** Units after the targets if nothing were ever rejected. */
  ghost function Planned(current: map<string, int>, targets: seq<Target>): map<string, int> {
    if targets == [] then current
    else
      var (m, last) := (Planned(current, targets[..|targets| - 1]), targets[|targets| - 1]);
      if UnitsOf(m, Normalize(last.symbol)) == last.units then m else m[Normalize(last.symbol) := last.units]
  }

  /** From the units `m`, the target moves nothing or stays within all three caps. */
  ghost predicate WithinCaps(l: Limits, m: map<string, int>, t: Target) {
    var symbol := Normalize(t.symbol);
    var delta := t.units - UnitsOf(m, symbol);
    Supported(symbol) &&
    (delta == 0 ||
     (Size(t.units) <= l.symbol as real && Gross(m) + Size(delta) <= l.gross as real &&
      WithinCurrencyCap(symbol, delta, l.currency)))
  }

  ghost predicate PlanWithinCaps(l: Limits, current: map<string, int>, targets: seq<Target>) {
    forall i :: 0 <= i < |targets| ==> WithinCaps(l, Planned(current, targets[..i]), targets[i])
  }

  lemma PlanFront(l: Limits, current: map<string, int>, targets: seq<Target>)
    requires targets != []
    ensures var (front, last) := (targets[..|targets| - 1], targets[|targets| - 1]);
            PlanWithinCaps(l, current, targets) <==>
            PlanWithinCaps(l, current, front) && WithinCaps(l, Planned(current, front), last)
  {
    hide WithinCaps, Planned;
    var front := targets[..|targets| - 1];
    assert forall i :: 0 <= i < |front| ==> front[..i] == targets[..i] && front[i] == targets[i];
  }

  /** One target is not rejected exactly when it is within the caps, and then the plan goes on. */
  lemma DecidedByCaps(l: Limits, b: Book, t: Target)
    ensures Decide(l, b.projected, t).Rejected? <==> !WithinCaps(l, b.projected, t)
    ensures var s := Normalize(t.symbol);
            WithinCaps(l, b.projected, t) ==>
              Apply(l, b, t).projected ==
              if UnitsOf(b.projected, s) == t.units then b.projected else b.projected[s := t.units]
  {
    hide Normalize, Supported, WithinCurrencyCap, Gross, Size;
  }

  lemma EmptyPlan(l: Limits, current: map<string, int>)
    ensures PlanWithinCaps(l, current, [])
  {
  }

  /** The whole list is approved exactly when every target of the unrestricted plan is within the caps;
      and then the plan is what is projected. */
  lemma {:induction false} ApprovedIff(l: Limits, current: map<string, int>, targets: seq<Target>)
    ensures Run(l, current, targets).rejected == [] <==> PlanWithinCaps(l, current, targets)
    ensures PlanWithinCaps(l, current, targets) ==> Run(l, current, targets).projected == Planned(current, targets)
  {
    hide Decide, Normalize, WithinCaps, PlanWithinCaps;
    if targets != [] {
      var front, last := targets[..|targets| - 1], targets[|targets| - 1];
      ApprovedIff(l, current, front);
      PlanFront(l, current, targets);
      DecidedByCaps(l, Run(l, current, front), last);
    } else {
      EmptyPlan(l, current);
    }
  }

  // ---------------------------------------------------------------- reductions

  /** The target is strictly nearer to zero than `from`, on the same side or flat. */
  predicate Reduces(from: int, to: int) {
    0 <= to < from || from < to <= 0
  }

  lemma SizeReduced(from: int, to: int)
    requires Reduces(from, to)
    ensures Size(to) < Size(from) && Size(from) == Size(to) + Size(to - from)
  {
  }

  /** A reduction lowers the gross by its own size. */
  lemma ReducedGross(m: map<string, int>, symbol: string, units: int)
    requires Reduces(UnitsOf(m, symbol), units)
    ensures Gross(m[symbol := units]) == Gross(m) - Size(units - UnitsOf(m, symbol))
  {
    hide Total, Size;
    TotalPut(m, symbol, units, Size);
    TotalSplit(m, symbol, Size);
    SizeReduced(UnitsOf(m, symbol), units);
  }

  /** A reduction takes its own size off the symbol and off the gross, and yet it is accepted exactly when
      the gross with that size added, not taken away, stays under the cap, and its USD leg under the
      currency cap (and what is left under the symbol cap, which a position within it stays). */
  lemma ReductionAcceptedIff(l: Limits, m: map<string, int>, t: Target)
    requires Supported(Normalize(t.symbol)) && Reduces(UnitsOf(m, Normalize(t.symbol)), t.units)
    ensures var s := Normalize(t.symbol);
            var delta := t.units - UnitsOf(m, s);
            (Decide(l, m, t).Accepted? <==>
             && Gross(m) + Size(delta) <= l.gross as real
             && WithinCurrencyCap(s, delta, l.currency)
             && (Size(UnitsOf(m, s)) <= l.symbol as real || Size(t.units) <= l.symbol as real)) &&
            Gross(m[s := t.units]) == Gross(m) - Size(delta) &&
            Size(t.units) == Size(UnitsOf(m, s)) - Size(delta)
  {
    hide Normalize, Gross, Size, WithinCurrencyCap;
    SizeReduced(UnitsOf(m, Normalize(t.symbol)), t.units);
    ReducedGross(m, Normalize(t.symbol), t.units);
  }

  /** The gross test counts the size of the change, not the resulting gross: closing a position of
      600,000 units under a cap of 1,000,000 is rejected. */
  lemma ReductionCanBeRejected(t: Target)
    requires Normalize(t.symbol) == "EURUSD" && t.units == 0
    ensures var l := Limits(1_000_000, 500_000, 750_000);
            Decide(l, map["EURUSD" := 600_000], t) == Rejected(GrossCap("EURUSD")) && Size(0) <= 1_000_000.0
  {
    hide Total;
    var m := map["EURUSD" := 600_000];
    TotalSplit(m, "EURUSD", Size);
    assert m - {"EURUSD"} == map[];
    TotalNone(m - {"EURUSD"}, Size);
    EurusdIsNormal();
  }
}
