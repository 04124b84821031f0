/** The trading ledger: positions per symbol, balance and equity over runs of fills, quotes and swaps. */
module Ledgers {
  import opened Common
  import opened Domain
  import opened Symbols

  datatype Quote = Quote(bid: real, ask: real, rate: real)

  datatype Ledger = Ledger(initial: real, balance: real, open: map<string, Pos>, closed: seq<Pos>,
                           quotes: map<string, Quote>)

  function RateFor(l: Ledger, symbol: string): real {
    if Clean(symbol) in l.quotes then l.quotes[Clean(symbol)].rate else 1.0
  }

  function Net(p: Pos): real {
    p.realized - p.commission
  }

  function Sum(ps: seq<Pos>, f: Pos -> real): real {
    if ps == [] then 0.0 else Sum(ps[..|ps| - 1], f) + f(ps[|ps| - 1])
  }

  lemma SumAppend(ps: seq<Pos>, p: Pos, f: Pos -> real)
    ensures Sum(ps + [p], f) == Sum(ps, f) + f(p)
  {
    assert (ps + [p])[..|ps|] == ps;
  }

  /** Open positions hold units under their own symbol, closed ones hold nothing and have no
      unrealized gain, and the balance moved by exactly the net gain of the closed ones. */
  ghost predicate Sound(l: Ledger) {
    && (forall s :: s in l.open ==> l.open[s].symbol == s && l.open[s].isOpen && 0 < l.open[s].units)
    && (forall p :: p in l.closed ==> !p.isOpen && p.units == 0 && p.unrealized == 0.0)
    && l.balance == l.initial + Sum(l.closed, Net)
  }

  // ---------------------------------------------------------------- steps

  /** The position of the fill's symbol right after the fill. */
  function FilledPosition(l: Ledger, f: Fill): Pos
    requires f.symbol in l.open ==> 0 <= l.open[f.symbol].units
  {
    if f.symbol in l.open then AfterFill(l.open[f.symbol], f, RateFor(l, f.symbol)) else Opened(f)
  }

  function Post(l: Ledger, f: Fill): Ledger
    requires f.symbol in l.open ==> 0 <= l.open[f.symbol].units
  {
    if f.symbol !in l.open then l.(open := l.open[f.symbol := Opened(f)])
    else
      var p := AfterFill(l.open[f.symbol], f, RateFor(l, f.symbol));
      if p.isOpen then l.(open := l.open[f.symbol := p])
      else l.(balance := l.balance + Net(p), closed := l.closed + [p], open := l.open - {f.symbol})
  }

  /** Longs are valued at the bid, shorts at the ask. */
  function MarkPrice(side: Side, q: Quote): real {
    if side == Buy then q.bid else q.ask
  }

  /** A quote revalues the position stored under the clean symbol: longs at the bid, shorts at the ask. */
  function Requote(l: Ledger, symbol: string, q: Quote): Ledger {
    var key := Clean(symbol);
    var quoted := l.(quotes := l.quotes[key := q]);
    if key !in l.open then quoted
    else quoted.(open := l.open[key := Marked(l.open[key], MarkPrice(l.open[key].side, q), q.rate)])
  }

  function Finance(l: Ledger, symbol: string, amount: real): Ledger {
    if symbol !in l.open then l
    else l.(open := l.open[symbol := l.open[symbol].(swap := l.open[symbol].swap + amount)])
  }

  datatype Step = Trade(fill: Fill) | Reprice(symbol: string, quote: Quote) | Swap(symbol: string, amount: real)

  function Apply(l: Ledger, step: Step): Ledger
    requires Sound(l)
  {
    match step
    case Trade(f) => Post(l, f)
    case Reprice(symbol, q) => Requote(l, symbol, q)
    case Swap(symbol, amount) => Finance(l, symbol, amount)
  }

  lemma PostSound(l: Ledger, f: Fill)
    requires Sound(l)
    ensures Sound(Post(l, f))
  {
    hide Sum, Clean;
    if f.symbol in l.open {
      var p := AfterFill(l.open[f.symbol], f, RateFor(l, f.symbol));
      SumAppend(l.closed, p, Net);
    }
  }

  lemma ApplySound(l: Ledger, step: Step)
    requires Sound(l)
    ensures Sound(Apply(l, step)) && Apply(l, step).initial == l.initial
  {
    hide Sum, Clean;
    match step
    case Trade(f) => PostSound(l, f);
    case _ =>
  }

  /** The ledger after any run of fills, quotes and swaps. */
  ghost function Run(initial: real, steps: seq<Step>): (l: Ledger)
    ensures Sound(l) && l.initial == initial
  {
    if steps == [] then Ledger(initial, initial, map[], [], map[])
    else
      var before := Run(initial, steps[..|steps| - 1]);
      ApplySound(before, steps[|steps| - 1]);
      Apply(before, steps[|steps| - 1])
  }

  // ---------------------------------------------------------------- totals over positions

  function RealizedOf(p: Pos): real { p.realized }

  function UnrealizedOf(p: Pos): real { p.unrealized }

  function CommissionOf(p: Pos): real { p.commission }

  function SwapOf(p: Pos): real { p.swap }

  /** What a position contributes to equity. */
  function Contribution(p: Pos): real {
    p.realized + p.unrealized - p.commission + p.swap
  }

  lemma {:induction false} TotalContribution(m: map<string, Pos>)
    ensures Total(m, Contribution) ==
            Total(m, RealizedOf) + Total(m, UnrealizedOf) - Total(m, CommissionOf) + Total(m, SwapOf)
    decreases |m|
  {
    if m != map[] {
      var k :| k in m;
      TotalContribution(m - {k});
      TotalSplit(m, k, Contribution);
      TotalSplit(m, k, RealizedOf);
      TotalSplit(m, k, UnrealizedOf);
      TotalSplit(m, k, CommissionOf);
      TotalSplit(m, k, SwapOf);
    }
  }

  lemma {:induction false} SumNet(ps: seq<Pos>)
    ensures Sum(ps, Net) == Sum(ps, RealizedOf) - Sum(ps, CommissionOf)
  {
    if ps != [] {
      SumNet(ps[..|ps| - 1]);
    }
  }

  ghost function TotalRealized(l: Ledger): real { Total(l.open, RealizedOf) + Sum(l.closed, RealizedOf) }

  ghost function TotalUnrealized(l: Ledger): real { Total(l.open, UnrealizedOf) }

  ghost function TotalCommission(l: Ledger): real { Total(l.open, CommissionOf) + Sum(l.closed, CommissionOf) }

  ghost function TotalSwap(l: Ledger): real { Total(l.open, SwapOf) + Sum(l.closed, SwapOf) }

  /** Equity as it is reported. */
  ghost function Equity(l: Ledger): real {
    l.initial + TotalRealized(l) + TotalUnrealized(l) - TotalCommission(l) + TotalSwap(l)
  }

  /** Reported equity is the balance, what the open positions contribute, and the swap of the closed
      positions, which the balance never saw. */
  lemma EquityExact(l: Ledger)
    requires Sound(l)
    ensures Equity(l) == l.balance + Total(l.open, Contribution) + Sum(l.closed, SwapOf)
  {
    hide Total, Sum;
    TotalContribution(l.open);
    SumNet(l.closed);
  }

  // ---------------------------------------------------------------- conservation over runs

  function Commissions(steps: seq<Step>): real {
    if steps == [] then 0.0
    else
      var last := steps[|steps| - 1];
      Commissions(steps[..|steps| - 1]) + if last.Trade? then last.fill.commission else 0.0
  }

  lemma PostCommission(l: Ledger, f: Fill)
    requires Sound(l)
    ensures TotalCommission(Post(l, f)) == TotalCommission(l) + f.commission
  {
    hide Total, Sum, Clean;
    if f.symbol in l.open {
      var p := AfterFill(l.open[f.symbol], f, RateFor(l, f.symbol));
      TotalSplit(l.open, f.symbol, CommissionOf);
      TotalPut(l.open, f.symbol, p, CommissionOf);
      SumAppend(l.closed, p, CommissionOf);
    } else {
      TotalPut(l.open, f.symbol, Opened(f), CommissionOf);
      TotalMissing(l.open, f.symbol);
    }
  }

  lemma UpdateKeeps(l: Ledger, k: string, p: Pos, f: Pos -> real)
    requires k in l.open && f(p) == f(l.open[k])
    ensures Total(l.open[k := p], f) == Total(l.open, f)
  {
    hide Total;
    TotalSplit(l.open, k, f);
    TotalPut(l.open, k, p, f);
  }

  lemma MarkedKeeps(p: Pos, price: real, rate: real)
    ensures Marked(p, price, rate).commission == p.commission && Marked(p, price, rate).swap == p.swap
  {
  }

  lemma OtherStepsCommission(l: Ledger, step: Step)
    requires Sound(l) && !step.Trade?
    ensures TotalCommission(Apply(l, step)) == TotalCommission(l)
  {
    hide Total, Sum, Clean, Marked;
    var next := Apply(l, step);
    var key := if step.Reprice? then Clean(step.symbol) else step.symbol;
    if key in l.open {
      if step.Reprice? {
        MarkedKeeps(l.open[key], MarkPrice(l.open[key].side, step.quote), step.quote.rate);
      }
      UpdateKeeps(l, key, next.open[key], CommissionOf);
    }
  }

  lemma TradeIsPost(l: Ledger, f: Fill)
    requires Sound(l)
    ensures Apply(l, Trade(f)) == Post(l, f)
  {
  }

  lemma NothingYet(initial: real)
    ensures TotalCommission(Run(initial, [])) == 0.0
  {
  }

  /** Over every run the total commission is the sum of the commissions of the fills. */
  lemma {:induction false} CommissionConserved(initial: real, steps: seq<Step>)
    ensures TotalCommission(Run(initial, steps)) == Commissions(steps)
  {
    hide TotalCommission, Apply, Post;
    if steps == [] {
      NothingYet(initial);
    } else {
      var before, last := Run(initial, steps[..|steps| - 1]), steps[|steps| - 1];
      CommissionConserved(initial, steps[..|steps| - 1]);
      if last.Trade? {
        PostCommission(before, last.fill);
        TradeIsPost(before, last.fill);
      } else {
        OtherStepsCommission(before, last);
      }
    }
  }

  /** The financing of positions that were open when it was charged. */
  ghost function Charges(initial: real, steps: seq<Step>): real {
    if steps == [] then 0.0
    else
      var (front, last) := (steps[..|steps| - 1], steps[|steps| - 1]);
      Charges(initial, front) + if last.Swap? && last.symbol in Run(initial, front).open then last.amount else 0.0
  }

  lemma FillKeepsSwap(p: Pos, f: Fill, rate: real)
    requires 0 <= p.units
    ensures AfterFill(p, f, rate).swap == p.swap
  {
  }

  lemma OpenedSwap(f: Fill)
    ensures Opened(f).swap == 0.0
  {
  }

  lemma PostSwap(l: Ledger, f: Fill)
    requires Sound(l)
    ensures TotalSwap(Post(l, f)) == TotalSwap(l)
  {
    hide Total, Sum, Clean, AfterFill, Opened;
    if f.symbol in l.open {
      var was := l.open[f.symbol];
      var p := AfterFill(was, f, RateFor(l, f.symbol));
      FillKeepsSwap(was, f, RateFor(l, f.symbol));
      TotalSplit(l.open, f.symbol, SwapOf);
      TotalPut(l.open, f.symbol, p, SwapOf);
      SumAppend(l.closed, p, SwapOf);
    } else {
      OpenedSwap(f);
      TotalPut(l.open, f.symbol, Opened(f), SwapOf);
      TotalMissing(l.open, f.symbol);
    }
  }

  lemma OtherStepsSwap(l: Ledger, step: Step)
    requires Sound(l) && !step.Trade?
    ensures TotalSwap(Apply(l, step)) ==
            TotalSwap(l) + if step.Swap? && step.symbol in l.open then step.amount else 0.0
  {
    hide Total, Sum, Clean, Marked;
    var next := Apply(l, step);
    var key := if step.Reprice? then Clean(step.symbol) else step.symbol;
    if key in l.open {
      if step.Reprice? {
        MarkedKeeps(l.open[key], MarkPrice(l.open[key].side, step.quote), step.quote.rate);
      }
      TotalSplit(l.open, key, SwapOf);
      TotalPut(l.open, key, next.open[key], SwapOf);
    }
  }

  lemma NoSwapYet(initial: real)
    ensures TotalSwap(Run(initial, [])) == 0.0
  {
  }

  /** Over every run the total swap is what was charged to positions open at the time. */
  lemma {:induction false} SwapConserved(initial: real, steps: seq<Step>)
    ensures TotalSwap(Run(initial, steps)) == Charges(initial, steps)
  {
    hide TotalSwap, Apply, Post;
    if steps == [] {
      NoSwapYet(initial);
    } else {
      var before, last := Run(initial, steps[..|steps| - 1]), steps[|steps| - 1];
      SwapConserved(initial, steps[..|steps| - 1]);
      if last.Trade? {
        PostSwap(before, last.fill);
        TradeIsPost(before, last.fill);
      } else {
        OtherStepsSwap(before, last);
      }
    }
  }

  predicate Quotes(step: Step, symbol: string) {
    step.Reprice? && Clean(step.symbol) == Clean(symbol)
  }

  /** Step `k` quotes the symbol, in some spelling, for the last time. */
  ghost predicate LastQuoted(steps: seq<Step>, k: nat, symbol: string) {
    && k < |steps| && Quotes(steps[k], symbol)
    && forall j :: k < j < |steps| ==> !Quotes(steps[j], symbol)
  }

  lemma StepRate(l: Ledger, step: Step, symbol: string)
    requires Sound(l)
    ensures RateFor(Apply(l, step), symbol) == if Quotes(step, symbol) then step.quote.rate else RateFor(l, symbol)
  {
    hide Clean, Marked;
  }

  lemma NoRateYet(initial: real, symbol: string)
    ensures RateFor(Run(initial, []), symbol) == 1.0
  {
    hide Clean;
  }

  /** Over every run gains are converted at the rate of the last quote of the symbol, and at 1 before any. */
  lemma {:induction false} RateOfRun(initial: real, steps: seq<Step>, symbol: string)
    ensures forall k: nat :: LastQuoted(steps, k, symbol) ==>
              RateFor(Run(initial, steps), symbol) == steps[k].quote.rate
    ensures (forall k :: 0 <= k < |steps| ==> !Quotes(steps[k], symbol)) ==>
              RateFor(Run(initial, steps), symbol) == 1.0
  {
    hide RateFor, Apply, Quotes;
    if steps == [] {
      NoRateYet(initial, symbol);
    } else {
      var (front, last) := (steps[..|steps| - 1], steps[|steps| - 1]);
      RateOfRun(initial, front, symbol);
      StepRate(Run(initial, front), last, symbol);
      if !Quotes(last, symbol) {
        assert forall k: nat :: LastQuoted(steps, k, symbol) <==> LastQuoted(front, k, symbol);
      }
    }
  }

  // ---------------------------------------------------------------- the cash-flow view of a run

  function ClosedGain(closed: seq<Pos>, s: string): real {
    if closed == [] then 0.0
    else
      var last := closed[|closed| - 1];
      ClosedGain(closed[..|closed| - 1], s) + if last.symbol == s then last.realized else 0.0
  }

  lemma ClosedGainAppend(closed: seq<Pos>, p: Pos, s: string)
    ensures ClosedGain(closed + [p], s) == ClosedGain(closed, s) + if p.symbol == s then p.realized else 0.0
  {
    assert (closed + [p])[..|closed|] == closed;
  }

  /** The average-cost book of a symbol at a mark price, across every close and reopening. */
  function Book(l: Ledger, s: string, mark: real, rate: real): real {
    ClosedGain(l.closed, s) + if s in l.open then Worth(l.open[s], mark, rate) else 0.0
  }

  /** The same from the fills alone. */
  function CashFlow(steps: seq<Step>, s: string, mark: real, rate: real): real {
    if steps == [] then 0.0
    else
      var last := steps[|steps| - 1];
      CashFlow(steps[..|steps| - 1], s, mark, rate) +
      if last.Trade? && last.fill.symbol == s then Flow(last.fill, last.fill.units, mark, rate) else 0.0
  }

  /** Units of a fill beyond what the open position can close. */
  function Excess(l: Ledger, f: Fill): int {
    if f.symbol in l.open then f.units - Taken(l.open[f.symbol], f) else 0
  }

  ghost function DroppedFlow(initial: real, steps: seq<Step>, s: string, mark: real, rate: real): real {
    if steps == [] then 0.0
    else
      var (front, last) := (steps[..|steps| - 1], steps[|steps| - 1]);
      DroppedFlow(initial, front, s, mark, rate) +
      if last.Trade? && last.fill.symbol == s
      then Flow(last.fill, Excess(Run(initial, front), last.fill), mark, rate) else 0.0
  }

  /** The fill closes some of an open position, at the conversion rate of that moment. */
  predicate Realizes(l: Ledger, f: Fill) {
    f.symbol in l.open && l.open[f.symbol].side != f.side
  }

  /** Every fill on `s` that realizes a gain meets the same conversion rate; the others use none. */
  ghost predicate SteadyRate(initial: real, steps: seq<Step>, s: string, rate: real) {
    forall k :: 0 <= k < |steps| && steps[k].Trade? && steps[k].fill.symbol == s &&
                Realizes(Run(initial, steps[..k]), steps[k].fill) ==>
                  RateFor(Run(initial, steps[..k]), s) == rate
  }

  /** No fill on `s` closes more than is open. */
  ghost predicate NoOverClose(initial: real, steps: seq<Step>, s: string) {
    forall k :: 0 <= k < |steps| && steps[k].Trade? && steps[k].fill.symbol == s ==>
                  Excess(Run(initial, steps[..k]), steps[k].fill) == 0
  }

  lemma FlowAdds(f: Fill, a: int, b: int, mark: real, rate: real)
    ensures Flow(f, a, mark, rate) + Flow(f, b, mark, rate) == Flow(f, a + b, mark, rate)
  {
  }

  lemma ClosedWorth(p: Pos, mark: real, rate: real)
    requires p.units == 0
    ensures Worth(p, mark, rate) == p.realized
  {
  }

  lemma RateUnused(p: Pos, f: Fill, a: real, b: real)
    requires 0 <= p.units && (p.side == f.side || a == b)
    ensures AfterFill(p, f, a) == AfterFill(p, f, b)
  {
  }

  lemma FilledShape(p: Pos, f: Fill, rate: real)
    requires p.isOpen && 0 < p.units
    ensures AfterFill(p, f, rate).symbol == p.symbol
    ensures !AfterFill(p, f, rate).isOpen ==> AfterFill(p, f, rate).units == 0
  {
  }

  lemma PostBook(l: Ledger, f: Fill, mark: real, rate: real)
    requires Sound(l) && (Realizes(l, f) ==> RateFor(l, f.symbol) == rate)
    ensures Book(Post(l, f), f.symbol, mark, rate) + Flow(f, Excess(l, f), mark, rate) ==
            Book(l, f.symbol, mark, rate) + Flow(f, f.units, mark, rate)
  {
    hide Worth, Sum, Clean, ClosedGain, Flow, AfterFill, RateFor;
    var s := f.symbol;
    if s in l.open {
      var p := AfterFill(l.open[s], f, rate);
      RateUnused(l.open[s], f, RateFor(l, s), rate);
      FillWorth(l.open[s], f, mark, rate);
      FlowAdds(f, Taken(l.open[s], f), Excess(l, f), mark, rate);
      ClosedGainAppend(l.closed, p, s);
      FilledShape(l.open[s], f, rate);
      if !p.isOpen {
        ClosedWorth(p, mark, rate);
      }
    } else {
      OpeningWorth(f, mark, rate);
      FlowAdds(f, 0, f.units, mark, rate);
      FlowAdds(f, 0, 0, mark, rate);
    }
  }

  lemma PostOther(l: Ledger, f: Fill, s: string, mark: real, rate: real)
    requires Sound(l) && f.symbol != s
    ensures Book(Post(l, f), s, mark, rate) == Book(l, s, mark, rate)
  {
    hide Worth, Sum, Clean, ClosedGain, AfterFill;
    if f.symbol in l.open {
      var p := AfterFill(l.open[f.symbol], f, RateFor(l, f.symbol));
      FilledShape(l.open[f.symbol], f, RateFor(l, f.symbol));
      ClosedGainAppend(l.closed, p, s);
    }
  }

  lemma RepriceBook(l: Ledger, step: Step, s: string, mark: real, rate: real)
    requires Sound(l) && !step.Trade?
    ensures Book(Apply(l, step), s, mark, rate) == Book(l, s, mark, rate)
  {
    hide Sum, Clean, ClosedGain;
  }

  lemma EmptyBook(initial: real, s: string, mark: real, rate: real)
    ensures Book(Run(initial, []), s, mark, rate) == 0.0
  {
  }

  lemma SteadyFront(initial: real, steps: seq<Step>, s: string, rate: real)
    requires SteadyRate(initial, steps, s, rate) && steps != []
    ensures SteadyRate(initial, steps[..|steps| - 1], s, rate)
    ensures var (l, last) := (Run(initial, steps[..|steps| - 1]), steps[|steps| - 1]);
            last.Trade? && last.fill.symbol == s && Realizes(l, last.fill) ==> RateFor(l, s) == rate
  {
    hide RateFor, Realizes, Run;
    var front := steps[..|steps| - 1];
    forall k | 0 <= k < |front| && front[k].Trade? && front[k].fill.symbol == s &&
               Realizes(Run(initial, front[..k]), front[k].fill)
      ensures RateFor(Run(initial, front[..k]), s) == rate
    {
      assert front[..k] == steps[..k] && front[k] == steps[k];
    }
  }

  /** Average-cost bookkeeping is cash-flow bookkeeping: over every run that realizes gains at one rate, at every
      mark price, the book and the dropped excess together are the cash flow of all fills. */
  lemma {:induction false} BookIsCashFlow(initial: real, steps: seq<Step>, s: string, mark: real, rate: real)
    requires SteadyRate(initial, steps, s, rate)
    ensures Book(Run(initial, steps), s, mark, rate) + DroppedFlow(initial, steps, s, mark, rate) ==
            CashFlow(steps, s, mark, rate)
  {
    hide Book, Flow, Sound, Post, RateFor, Realizes, Excess, Apply;
    if steps == [] {
      EmptyBook(initial, s, mark, rate);
    } else {
      var front, last := steps[..|steps| - 1], steps[|steps| - 1];
      SteadyFront(initial, steps, s, rate);
      BookIsCashFlow(initial, front, s, mark, rate);
      var l := Run(initial, front);
      if last.Trade? {
        TradeIsPost(l, last.fill);
        if last.fill.symbol == s {
          PostBook(l, last.fill, mark, rate);
        } else {
          PostOther(l, last.fill, s, mark, rate);
        }
      } else {
        RepriceBook(l, last, s, mark, rate);
      }
    }
  }

  lemma {:induction false} NothingDropped(initial: real, steps: seq<Step>, s: string, mark: real, rate: real)
    requires NoOverClose(initial, steps, s)
    ensures DroppedFlow(initial, steps, s, mark, rate) == 0.0
  {
    hide Excess, Run;
    if steps != [] {
      var front := steps[..|steps| - 1];
      forall k | 0 <= k < |front| && front[k].Trade? && front[k].fill.symbol == s
        ensures Excess(Run(initial, front[..k]), front[k].fill) == 0
      {
        assert front[..k] == steps[..k] && front[k] == steps[k];
      }
      NothingDropped(initial, front, s, mark, rate);
    }
  }

  lemma FlowZero(f: Fill, units: int, mark: real, rate: real)
    requires rate != 0.0 && mark != f.price
    ensures Flow(f, units, mark, rate) == 0.0 <==> units == 0
  {
    var u := Sign(f.side) * units as real;
    if units != 0 {
      assert u != 0.0;
      assert u * (mark - f.price) != 0.0;
    }
  }

  /** With no over-close the two views agree at every mark price. A first over-close breaks the
      agreement at every mark price other than the fill's own, so it holds exactly without it. */
  lemma BookIsCashFlowIff(initial: real, steps: seq<Step>, f: Fill, mark: real, rate: real)
    requires NoOverClose(initial, steps, f.symbol) && SteadyRate(initial, steps + [Trade(f)], f.symbol, rate)
    requires rate != 0.0 && mark != f.price
    ensures Book(Run(initial, steps), f.symbol, mark, rate) == CashFlow(steps, f.symbol, mark, rate)
    ensures Book(Run(initial, steps + [Trade(f)]), f.symbol, mark, rate) ==
            CashFlow(steps + [Trade(f)], f.symbol, mark, rate)
            <==> Excess(Run(initial, steps), f) == 0
  {
    hide Book, RateFor, Realizes, Run, Excess;
    var (s, all) := (f.symbol, steps + [Trade(f)]);
    assert all[..|steps|] == steps;
    SteadyFront(initial, all, s, rate);
    BookIsCashFlow(initial, steps, s, mark, rate);
    BookIsCashFlow(initial, all, s, mark, rate);
    NothingDropped(initial, steps, s, mark, rate);
    FlowZero(f, Excess(Run(initial, steps), f), mark, rate);
  }

  /** What is reported for a symbol: realized gain, and unrealized gain as of its last quote. */
  function Reported(l: Ledger, s: string): real {
    ClosedGain(l.closed, s) + if s in l.open then l.open[s].realized + l.open[s].unrealized else 0.0
  }

  /** Right after a quote on an open symbol, the reported gain is the cash flow of its fills valued at
      the quoted bid or ask. */
  lemma ReportedIsCashFlow(initial: real, steps: seq<Step>, symbol: string, q: Quote)
    requires SteadyRate(initial, steps, Clean(symbol), q.rate) && NoOverClose(initial, steps, Clean(symbol))
    requires Clean(symbol) in Run(initial, steps).open
    ensures var (l, s) := (Run(initial, steps), Clean(symbol));
            Reported(Requote(l, symbol, q), s) ==
            CashFlow(steps, s, if l.open[s].side == Buy then q.bid else q.ask, q.rate)
  {
    hide Run, Clean, ClosedGain, Worth, Marked;
    var (l, s) := (Run(initial, steps), Clean(symbol));
    var mark := MarkPrice(l.open[s].side, q);
    BookIsCashFlow(initial, steps, s, mark, q.rate);
    NothingDropped(initial, steps, s, mark, q.rate);
    MarkedWorth(l.open[s], mark, q.rate);
  }

  // ---------------------------------------------------------------- symbols that are not clean

  ghost predicate OnlyCleanMarked(l: Ledger) {
    forall s :: s in l.open && Clean(s) != s ==> l.open[s].unrealized == 0.0
  }

  lemma StepOnlyCleanMarked(l: Ledger, step: Step)
    requires Sound(l) && OnlyCleanMarked(l)
    requires step.Reprice? ==> Clean(Clean(step.symbol)) == Clean(step.symbol)
    ensures OnlyCleanMarked(Apply(l, step))
  {
    hide Clean, Sum;
  }

  /** Positions are stored under the symbol of the fill, quotes look under the clean symbol: a position
      whose symbol is not clean is never revalued, so its unrealized gain stays zero over every run. */
  lemma {:induction false} UncleanNeverMarked(initial: real, steps: seq<Step>)
    ensures OnlyCleanMarked(Run(initial, steps))
  {
    hide Clean;
    if steps != [] {
      var front, last := steps[..|steps| - 1], steps[|steps| - 1];
      UncleanNeverMarked(initial, front);
      if last.Reprice? {
        CleanTwice(last.symbol);
      }
      StepOnlyCleanMarked(Run(initial, front), last);
    }
  }

  lemma RequoteAt(l: Ledger, s: string, symbol: string, q: Quote)
    requires s in l.open
    ensures s in Requote(l, symbol, q).open
    ensures Requote(l, symbol, q).open[s] ==
            if Clean(symbol) == s then Marked(l.open[s], MarkPrice(l.open[s].side, q), q.rate) else l.open[s]
  {
    hide Clean, Marked;
  }

  /** A quote on `symbol` revalues the position stored under `s`. */
  ghost predicate Revalues(l: Ledger, s: string, symbol: string, q: Quote)
    requires s in l.open
  {
    Get(Requote(l, symbol, q).open, s) == Some(Marked(l.open[s], MarkPrice(l.open[s].side, q), q.rate))
  }

  /** A position stored under a symbol that is not clean is touched by no quote at all. */
  lemma UncleanUntouched(l: Ledger, s: string, symbol: string, q: Quote)
    requires s in l.open && Clean(s) != s
    ensures Get(Requote(l, symbol, q).open, s) == Some(l.open[s])
  {
    hide Clean, Requote, Marked;
    RequoteAt(l, s, symbol, q);
    CleanTwice(symbol);
  }

  lemma CleanRevalued(l: Ledger, s: string, symbol: string, q: Quote)
    requires s in l.open && Clean(symbol) == s
    ensures Revalues(l, s, symbol, q)
  {
    hide Clean, Requote, Marked;
    RequoteAt(l, s, symbol, q);
  }

  lemma UncleanMissed(l: Ledger, s: string)
    requires s in l.open && Clean(s) != s
    ensures !Revalues(l, s, s, Quote(l.open[s].current + 1.0, l.open[s].current + 1.0, 1.0))
  {
    hide Clean, Requote;
    UncleanUntouched(l, s, s, Quote(l.open[s].current + 1.0, l.open[s].current + 1.0, 1.0));
  }

  /** All quotes for the instrument of a position, however they spell it, revalue the position exactly
      when it is stored under its clean symbol. */
  lemma RevaluedIffClean(l: Ledger, s: string)
    requires Sound(l) && s in l.open
    ensures (forall symbol, q :: Clean(symbol) == Clean(s) ==> Revalues(l, s, symbol, q)) <==> Clean(s) == s
  {
    hide Clean, Revalues, Sound;
    if Clean(s) == s {
      forall symbol, q | Clean(symbol) == Clean(s) ensures Revalues(l, s, symbol, q) {
        CleanRevalued(l, s, symbol, q);
      }
    } else {
      UncleanMissed(l, s);
    }
  }

  lemma RequoteKeepsClosed(l: Ledger, symbol: string, q: Quote)
    ensures Requote(l, symbol, q).closed == l.closed
  {
    hide Clean, Marked;
  }

  lemma OneFill(initial: real, f: Fill)
    ensures Run(initial, [Trade(f)]).open == map[f.symbol := Opened(f)] && Run(initial, [Trade(f)]).closed == []
  {
    hide Clean, Sound;
    assert [Trade(f)][..0] == [];
    assert Run(initial, []) == Ledger(initial, initial, map[], [], map[]);
  }

  lemma OneFlow(steps: seq<Step>, f: Fill, mark: real, rate: real)
    requires |steps| == 2 && steps[0] == Trade(f) && steps[1].Reprice?
    ensures CashFlow(steps, f.symbol, mark, rate) == Flow(f, f.units, mark, rate)
  {
    hide Flow;
    assert steps[..1] == [Trade(f)] && [Trade(f)][..0] == [];
    assert CashFlow([Trade(f)], f.symbol, mark, rate) == 0.0 + Flow(f, f.units, mark, rate);
  }

  /** A fill and then a quote that moves the price: what is reported is the cash flow of the fill exactly
      when its symbol is clean. Otherwise nothing is reported although the position is open. */
  lemma FirstQuoteReports(initial: real, f: Fill, q: Quote)
    requires MarkPrice(f.side, q) != f.price && q.rate != 0.0
    ensures var (s, steps) := (f.symbol, [Trade(f), Reprice(f.symbol, q)]);
            var l := Run(initial, steps);
            s in l.open &&
            (Reported(l, s) == CashFlow(steps, s, MarkPrice(f.side, q), q.rate) <==> Clean(s) == s) &&
            (Clean(s) != s ==> Reported(l, s) == 0.0)
  {
    hide Clean, Worth, Flow, Sound, Requote, Marked;
    var (s, steps, mark) := (f.symbol, [Trade(f), Reprice(f.symbol, q)], MarkPrice(f.side, q));
    OneFill(initial, f);
    assert steps[..1] == [Trade(f)];
    var l := Run(initial, [Trade(f)]);
    RequoteAt(l, s, s, q);
    RequoteKeepsClosed(l, s, q);
    OneFlow(steps, f, mark, q.rate);
    MarkedWorth(Opened(f), mark, q.rate);
    OpeningWorth(f, mark, q.rate);
    FlowZero(f, f.units, mark, q.rate);
  }

  lemma {:induction false} CleanHasNoSlash(symbol: string)
    ensures '/' !in Clean(symbol)
  {
    if symbol != [] {
      CleanHasNoSlash(symbol[1..]);
      var head := if symbol[0] == '/' || symbol[0] == '_' || symbol[0] == '-' then [] else [UpperChar(symbol[0])];
      assert Clean(symbol) == head + Clean(symbol[1..]) && '/' !in head;
    }
  }

  lemma SlashIsNotClean()
    ensures Clean("EUR/USD") != "EUR/USD"
  {
    CleanHasNoSlash("EUR/USD");
    assert "EUR/USD"[3] == '/';
  }

  /** The fill of 10,000 "EUR/USD" at 1.1 is worth 100 at a bid of 1.11, and 0 is reported. */
  lemma SlashedReportsNothing(initial: real, f: Fill)
    requires f.symbol == "EUR/USD" && f.side == Buy && f.units == 10_000 && f.price == 1.1
    ensures var (q, steps) := (Quote(1.11, 1.12, 1.0), [Trade(f), Reprice("EUR/USD", Quote(1.11, 1.12, 1.0))]);
            var l := Run(initial, steps);
            "EUR/USD" in l.open && Reported(l, "EUR/USD") == 0.0 && CashFlow(steps, "EUR/USD", q.bid, q.rate) == 100.0
  {
    hide Clean, Run, CashFlow, Reported;
    var (q, steps) := (Quote(1.11, 1.12, 1.0), [Trade(f), Reprice("EUR/USD", Quote(1.11, 1.12, 1.0))]);
    SlashIsNotClean();
    FirstQuoteReports(initial, f, q);
    OneFlow(steps, f, q.bid, q.rate);
    assert Flow(f, 10_000, 1.11, 1.0) == 1.0 * 10_000.0 * (1.11 - 1.1) * 1.0;
  }
}
