/** The precomputed paper strategy: when it enters, how it sizes, and when it gives up a trade. */
module PaperStrategy {
  import opened Common
  import opened Domain
  import opened Symbols
  import opened Rounding

  // Market phases of the precomputed data.
  const TB := 1
  const TRB := 2
  const PB := 3
  const PRB := 4
  const CB := 5
  const CRB := 6
  const TR := 8

  const MAX_BARS_IN_TRADE: nat := 500

  /** One precomputed row: minute of the day, phases, mid-timeframe zone, close and volatility. */
  datatype Row = Row(timestamp: nat, minuteOfDay: nat, htfPhase: int, mtfPhase: int, mtfZone: Option<real>,
                     ltfPhase: int, close: real, atr: Option<real>)

  /** The bar event: its symbol, time and spread in tenths of a pip. */
  datatype Bar = Bar(symbol: string, timestamp: nat, spread: real)

  datatype Config = Config(equity: real, riskFraction: real, minimumReward: real, sessionFilter: bool)

  datatype Reason = StopLossHit | TargetHit | MtfTrail | TimeStop

  datatype Action = Enter(stopLoss: real, takeProfit: real) | Exit(reason: Reason)

  datatype Intent = Intent(symbol: string, side: Side, units: int, action: Action, timestamp: nat)

  datatype Trade = Trade(symbol: string, side: Side, units: int, entry: real, stop: real, target: real, barsHeld: nat)

  /** The strategy's memory. `byKey` is the table of open trades by symbol. */
  datatype State = State(next: nat, bias: Option<Side>, setup: bool, active: Option<Trade>, byKey: map<string, Trade>,
                         previousTrend: Option<int>)

  const FRESH := State(0, None, false, None, map[], None)

  predicate Bullish(phase: int) {
    phase == TB || phase == CB || phase == PB
  }

  predicate Bearish(phase: int) {
    phase == TRB || phase == CRB || phase == PRB
  }

  function Trend(phase: int): int {
    if Bullish(phase) then 1 else if Bearish(phase) then -1 else 0
  }

  function Opposite(side: Side): Side {
    if side == Buy then Sell else Buy
  }

  // ---------------------------------------------------------------- exits

  /** Why the trade ends on this row, if it does: stop, target, trailing phase, then time. */
  function ExitReason(t: Trade, row: Row): Option<Reason> {
    if row.close <= 0.0 then None
    else if (if t.side == Buy then row.close <= t.stop else row.close >= t.stop) then Some(StopLossHit)
    else if (if t.side == Buy then row.close >= t.target else row.close <= t.target) then Some(TargetHit)
    else if (row.mtfPhase == TR || row.mtfPhase == if t.side == Buy then PRB else PB) && t.barsHeld > 20
    then Some(MtfTrail)
    else if t.barsHeld >= MAX_BARS_IN_TRADE then Some(TimeStop)
    else None
  }

  function ExitIntent(t: Trade, reason: Reason, now: nat): Intent {
    Intent(t.symbol, Opposite(t.side), t.units, Exit(reason), now)
  }

  /** Count the row for the active trade and close it if there is a reason to. */
  function Manage(s: State, row: Row): (State, Option<Intent>) {
    if s.active.None? then (s, None)
    else
      var t := s.active.value.(barsHeld := s.active.value.barsHeld + 1);
      var reason := ExitReason(t, row);
      if reason.None? then (s.(active := Some(t), byKey := s.byKey[t.symbol := t]), None)
      else (s.(bias := None, setup := false, active := None, byKey := s.byKey - {t.symbol}),
            Some(ExitIntent(t, reason.value, row.timestamp)))
  }

  // ---------------------------------------------------------------- entries

  datatype Attempt = BadSymbol | Refused | Entered(trade: Trade, intent: Intent)

  function PipSize(pair: (string, string)): real {
    if pair.1 == "JPY" then 0.01 else 0.0001
  }

  function PriceScale(pair: (string, string)): real {
    if pair.1 == "JPY" then 1000.0 else 100000.0
  }

  /** Account value of one unit of the quote currency, 1 when it is not known. */
  function QuoteRate(pair: (string, string), price: real): (r: real)
    ensures 0.0 < r
  {
    if pair.1 == "USD" then 1.0
    else if (pair.0 == "USD" || pair.1 == "JPY") && price > 0.0 then 1.0 / price
    else 1.0
  }

  lemma PositiveProduct(x: real, y: real)
    requires 0.0 < x && 0.0 < y
    ensures 0.0 < x * y
  {
  }

  function PipValuePerLot(pair: (string, string), price: real): (r: real)
    ensures 0.0 < r
  {
    PositiveProduct(100000.0 * PipSize(pair), QuoteRate(pair, price));
    100000.0 * PipSize(pair) * QuoteRate(pair, price)
  }

  function StopPrice(side: Side, entry: real, distance: real): real {
    if side == Buy then entry - distance else entry + distance
  }

  function StopPips(pair: (string, string), entry: real, stop: real): real {
    Abs(entry - stop) / PipSize(pair)
  }

  /** What one trade may lose. */
  function Allowance(c: Config): real {
    c.equity * c.riskFraction
  }

  /** Hundredths of a lot that risk no more than the allowance, rounded toward zero. */
  function LotSteps(risk: real, stopPips: real, perLot: real): int
    requires 0.0 < stopPips && 0.0 < perLot
  {
    PositiveProduct(stopPips, perLot);
    Truncate(risk / (stopPips * perLot) / 0.01)
  }

  /** A stop at 1.5 ATR and a target at four times that distance. */
  function TryEntry(c: Config, bias: Side, byKey: map<string, Trade>, bar: Bar, price: real, atr: real): Attempt {
    var pair := PairOf(bar.symbol);
    if pair.None? then BadSymbol
    else
      var (distance, p) := (atr * 1.5, pair.value);
      var (stop, target) := (StopPrice(bias, price, distance), StopPrice(Opposite(bias), price, distance * 4.0));
      var (stopPips, perLot) := (StopPips(p, price, stop), PipValuePerLot(p, price));
      if !(5.0 <= stopPips <= 50.0) || bar.spread / 10.0 > 3.0
         || Abs(target - price) / PipSize(p) / stopPips < c.minimumReward then Refused
      else
        var steps := LotSteps(Allowance(c), stopPips, perLot);
        if steps < 1 || bar.symbol in byKey then Refused
        else Entered(Trade(bar.symbol, bias, 1_000 * steps, price, stop, target, 0),
                     Intent(bar.symbol, bias, 1_000 * steps,
                            Enter(RoundHalfUp(stop, PriceScale(p)), RoundHalfUp(target, PriceScale(p))), bar.timestamp))
  }

  // ---------------------------------------------------------------- one bar

  datatype Result = Quiet | Emits(intent: Intent) | Fails

  predicate InSession(c: Config, row: Row) {
    !c.sessionFilter || 390 <= row.minuteOfDay <= 1020
  }

  /** A change to another directional trend forgets bias and setup. */
  function SeeTrend(s: State, row: Row): State {
    var trend := Trend(row.htfPhase);
    var changed := s.previousTrend.Some? && trend != s.previousTrend.value && trend != 0;
    s.(bias := if changed then None else s.bias, setup := if changed then false else s.setup,
       previousTrend := Some(trend))
  }

  function FindBias(s: State, row: Row): State {
    if s.bias.Some? then s
    else if Bullish(row.htfPhase) then s.(bias := Some(Buy))
    else if Bearish(row.htfPhase) then s.(bias := Some(Sell))
    else s
  }

  function FindSetup(s: State, row: Row): State {
    if s.setup || s.bias.None? then s
    else if s.bias.value == Buy then
      s.(setup := Bullish(row.mtfPhase) && (row.mtfZone.None? || row.mtfZone.value >= -0.7))
    else
      s.(setup := Bearish(row.mtfPhase) && (row.mtfZone.None? || row.mtfZone.value <= 0.7))
  }

  predicate Triggered(s: State, row: Row) {
    s.bias.Some? && s.setup && if s.bias.value == Buy then Bullish(row.ltfPhase) else Bearish(row.ltfPhase)
  }

  /** No trade is active: look for bias, setup and trigger, and try to enter. */
  function Seek(s: State, c: Config, row: Row, bar: Bar, atr: real): (State, Result) {
    var ready := FindSetup(FindBias(s, row), row);
    if !Triggered(ready, row) then (ready, Quiet)
    else match TryEntry(c, ready.bias.value, ready.byKey, bar, row.close, atr)
      case BadSymbol => (ready, Fails)
      case Refused => (ready, Quiet)
      case Entered(trade, intent) =>
        (ready.(active := Some(trade), byKey := ready.byKey[bar.symbol := trade]), Emits(intent))
  }

  /** One bar. The active trade is managed before anything else, and once more on an in-session bar
      with a valid ATR. */
  function OnBar(s: State, c: Config, rows: seq<Row>, bar: Bar): (State, Result) {
    if s.next >= |rows| then (s, Quiet)
    else
      var row := rows[s.next];
      var (managed, exit) := Manage(s.(next := s.next + 1), row);
      if exit.Some? then (managed, Emits(exit.value))
      else if !InSession(c, row) then (managed, Quiet)
      else
        var seen := SeeTrend(managed, row);
        if row.atr.None? || row.atr.value <= 0.0 then (seen, Quiet)
        else if seen.active.Some? then
          var (again, late) := Manage(seen, row);
          (again, if late.Some? then Emits(late.value) else Quiet)
        else Seek(seen, c, row, bar, row.atr.value)
  }

  datatype Trace = Trace(state: State, log: seq<Intent>)

  function Run(c: Config, rows: seq<Row>, bars: seq<Bar>): Trace {
    if bars == [] then Trace(FRESH, [])
    else
      var before := Run(c, rows, bars[..|bars| - 1]);
      var (state, result) := OnBar(before.state, c, rows, bars[|bars| - 1]);
      Trace(state, if result.Emits? then before.log + [result.intent] else before.log)
  }

  // ---------------------------------------------------------------- entries and exits alternate

  /** The table of open trades holds exactly the active trade. */
  ghost predicate Sound(s: State) {
    && s.byKey == (if s.active.Some? then map[s.active.value.symbol := s.active.value] else map[])
    && (s.active.Some? ==> 0 < s.active.value.units)
  }

  /** An exit undoes the entry before it. */
  predicate Undoes(entry: Intent, exit: Intent) {
    && entry.action.Enter? && exit.action.Exit?
    && exit.symbol == entry.symbol && exit.side == Opposite(entry.side) && exit.units == entry.units
  }

  predicate Opens(i: Intent, t: Trade) {
    i.action.Enter? && i.symbol == t.symbol && i.side == t.side && i.units == t.units
  }

  /** Entries and exits alternate, each exit undoing the entry before it; the last entry is still open
      exactly when a trade is active, and is that trade. */
  ghost predicate Alternates(log: seq<Intent>, active: Option<Trade>) {
    && |log| % 2 == (if active.Some? then 1 else 0)
    && (forall i :: 0 < i < |log| && i % 2 == 1 ==> Undoes(log[i - 1], log[i]))
    && (active.Some? ==> Opens(log[|log| - 1], active.value))
  }

  lemma ManageSound(s: State, row: Row)
    requires Sound(s)
    ensures Sound(Manage(s, row).0)
    ensures Manage(s, row).1.Some? ==> s.active.Some? && Manage(s, row).0.active.None?
    ensures Manage(s, row).1.None? ==> Manage(s, row).0.active.Some? == s.active.Some?
  {
    hide ExitReason;
  }

  lemma ManageAlternates(s: State, row: Row, log: seq<Intent>)
    requires Sound(s) && Alternates(log, s.active)
    ensures var (next, exit) := Manage(s, row);
            Alternates(if exit.Some? then log + [exit.value] else log, next.active)
  {
    hide ExitReason;
  }

  lemma SeekAlternates(s: State, c: Config, row: Row, bar: Bar, atr: real, log: seq<Intent>)
    requires Sound(s) && s.active.None? && Alternates(log, s.active)
    ensures var (next, result) := Seek(s, c, row, bar, atr);
            Sound(next) && Alternates(if result.Emits? then log + [result.intent] else log, next.active)
  {
    hide Triggered, Bullish, Bearish, StopPips, PipValuePerLot, LotSteps, RoundHalfUp, Abs, PairOf;
  }

  lemma FreshSound()
    ensures Sound(FRESH) && Alternates([], FRESH.active)
  {
  }

  lemma SeenSame(s: State, row: Row)
    ensures SeeTrend(s, row).active == s.active && SeeTrend(s, row).byKey == s.byKey
  {
  }

  lemma SoundReads(s: State, t: State)
    requires Sound(s) && t.active == s.active && t.byKey == s.byKey
    ensures Sound(t)
  {
  }

  lemma BarAlternates(s: State, c: Config, rows: seq<Row>, bar: Bar, log: seq<Intent>)
    requires Sound(s) && Alternates(log, s.active)
    ensures var (next, result) := OnBar(s, c, rows, bar);
            Sound(next) && Alternates(if result.Emits? then log + [result.intent] else log, next.active)
  {
    hide Manage, Seek, SeeTrend, Sound, Alternates, InSession;
    if s.next < |rows| {
      var row, start := rows[s.next], s.(next := s.next + 1);
      SoundReads(s, start);
      ManageSound(start, row);
      ManageAlternates(start, row, log);
      var (managed, exit) := Manage(start, row);
      var seen := SeeTrend(managed, row);
      SeenSame(managed, row);
      SoundReads(managed, seen);
      if exit.None? {
        if seen.active.Some? {
          ManageSound(seen, row);
          ManageAlternates(seen, row, log);
        } else if row.atr.Some? {
          SeekAlternates(seen, c, row, bar, row.atr.value, log);
        }
      }
    }
  }

  /** After any run: the table holds exactly the active trade and the emitted intents alternate. */
  lemma {:induction false} RunAlternates(c: Config, rows: seq<Row>, bars: seq<Bar>)
    ensures var t := Run(c, rows, bars); Sound(t.state) && Alternates(t.log, t.state.active)
  {
    hide Manage, Seek, SeeTrend, Sound, Alternates, InSession;
    if bars == [] {
      FreshSound();
    } else {
      var before, bar := Run(c, rows, bars[..|bars| - 1]), bars[|bars| - 1];
      RunAlternates(c, rows, bars[..|bars| - 1]);
      BarAlternates(before.state, c, rows, bar, before.log);
    }
  }

  function Signed(i: Intent): int {
    if i.side == Buy then i.units else -i.units
  }

  function NetUnits(log: seq<Intent>, symbol: string): int {
    if log == [] then 0
    else
      var last := log[|log| - 1];
      NetUnits(log[..|log| - 1], symbol) + if last.symbol == symbol then Signed(last) else 0
  }

  /** Net exposure is always zero or exactly the active trade. */
  lemma {:induction false} NetIsActiveTrade(log: seq<Intent>, active: Option<Trade>, symbol: string)
    requires Alternates(log, active)
    ensures NetUnits(log, symbol) ==
            if active.Some? && active.value.symbol == symbol
            then (if active.value.side == Buy then active.value.units else -active.value.units) else 0
  {
    if active.Some? {
      var front := log[..|log| - 1];
      assert Alternates(front, None);
      NetIsActiveTrade(front, None, symbol);
    } else if log != [] {
      var n := |log| - 2;
      assert Undoes(log[n], log[n + 1]);
      assert Alternates(log[..n], None);
      NetIsActiveTrade(log[..n], None, symbol);
      assert log[..n + 1][..n] == log[..n];
    }
  }

  /** With no active trade no key can conflict, so an entry is never refused for one. */
  lemma NoConflict(c: Config, rows: seq<Row>, bars: seq<Bar>, symbol: string)
    requires Run(c, rows, bars).state.active.None?
    ensures symbol !in Run(c, rows, bars).state.byKey
  {
    hide Run;
    RunAlternates(c, rows, bars);
  }

  // ---------------------------------------------------------------- risk

  function LossAtStop(units: int, pips: real, perLot: real): real {
    units as real / 100000.0 * pips * perLot
  }

  /** An entry keeps its stop within 5 to 50 pips, its target at four times the stop, and loses no more
      at the stop than the allowance. */
  ghost predicate RiskBounded(t: Trade, c: Config) {
    var pair := PairOf(t.symbol);
    pair.Some? &&
    var (pips, perLot) := (StopPips(pair.value, t.entry, t.stop), PipValuePerLot(pair.value, t.entry));
    && 5.0 <= pips <= 50.0
    && 0 < t.units && t.units % 1_000 == 0
    && LossAtStop(t.units, pips, perLot) <= Allowance(c)
    && (if t.side == Buy then t.stop < t.entry < t.target else t.target < t.entry < t.stop)
    && t.target - t.entry == 4.0 * (t.entry - t.stop)
  }

  lemma LotsWithinRisk(risk: real, pips: real, perLot: real)
    requires 0.0 < pips && 0.0 < perLot && 1 <= LotSteps(risk, pips, perLot)
    ensures LossAtStop(1_000 * LotSteps(risk, pips, perLot), pips, perLot) <= risk
  {
    PositiveProduct(pips, perLot);
    var d := pips * perLot;
    var steps := LotSteps(risk, pips, perLot);
    var lots := risk / d;
    assert lots * d == risk;
    assert steps as real <= lots / 0.01;
    assert steps as real * 0.01 <= lots;
    TimesMonotone(steps as real * 0.01, lots, d);
    assert (1_000 * steps) as real / 100000.0 == steps as real * 0.01;
    assert steps as real * 0.01 * d == steps as real * 0.01 * pips * perLot;
  }

  lemma EntrySymbol(c: Config, bias: Side, byKey: map<string, Trade>, bar: Bar, price: real, atr: real)
    ensures var a := TryEntry(c, bias, byKey, bar, price, atr); a.Entered? ==> a.trade.symbol == bar.symbol
  {
    hide RoundHalfUp, PairOf, PipValuePerLot, LotSteps, StopPips, Abs;
  }

  lemma EntryBounded(c: Config, bias: Side, byKey: map<string, Trade>, bar: Bar, price: real, atr: real)
    requires 0.0 < atr
    ensures var a := TryEntry(c, bias, byKey, bar, price, atr);
            a.Entered? ==> RiskBounded(a.trade, c) && Opens(a.intent, a.trade) && bar.spread <= 30.0
  {
    hide RoundHalfUp, PairOf, PipValuePerLot, LotSteps, StopPips, LossAtStop, Allowance;
    var a := TryEntry(c, bias, byKey, bar, price, atr);
    if a.Entered? {
      var p := PairOf(bar.symbol).value;
      LotsWithinRisk(Allowance(c), StopPips(p, price, a.trade.stop), PipValuePerLot(p, price));
    }
  }

  lemma SameTerms(t: Trade, held: nat, c: Config)
    ensures RiskBounded(t.(barsHeld := held), c) <==> RiskBounded(t, c)
  {
  }

  lemma ManageKeepsTerms(s: State, row: Row, c: Config)
    requires s.active.Some? ==> RiskBounded(s.active.value, c)
    ensures Manage(s, row).0.active.Some? ==> RiskBounded(Manage(s, row).0.active.value, c)
  {
    hide RiskBounded, ExitReason;
    if s.active.Some? {
      SameTerms(s.active.value, s.active.value.barsHeld + 1, c);
    }
  }

  lemma SeekBounded(s: State, c: Config, row: Row, bar: Bar, atr: real)
    requires 0.0 < atr && s.active.None?
    ensures Seek(s, c, row, bar, atr).0.active.Some? ==> RiskBounded(Seek(s, c, row, bar, atr).0.active.value, c)
  {
    hide RiskBounded, TryEntry, Bullish, Bearish;
    var ready := FindSetup(FindBias(s, row), row);
    if ready.bias.Some? {
      EntryBounded(c, ready.bias.value, ready.byKey, bar, row.close, atr);
    }
  }

  lemma BarRiskBounded(s: State, c: Config, rows: seq<Row>, bar: Bar)
    requires s.active.Some? ==> RiskBounded(s.active.value, c)
    ensures OnBar(s, c, rows, bar).0.active.Some? ==> RiskBounded(OnBar(s, c, rows, bar).0.active.value, c)
  {
    hide RiskBounded, Manage, Seek, SeeTrend, InSession;
    if s.next < |rows| {
      var row, start := rows[s.next], s.(next := s.next + 1);
      ManageKeepsTerms(start, row, c);
      var managed := Manage(start, row).0;
      var seen := SeeTrend(managed, row);
      SeenSame(managed, row);
      ManageKeepsTerms(seen, row, c);
      if seen.active.None? && row.atr.Some? && row.atr.value > 0.0 {
        SeekBounded(seen, c, row, bar, row.atr.value);
      }
    }
  }

  /** Whatever trade is active after a run is risk bounded: sizing is fixed at entry. */
  lemma {:induction false} ActiveRiskBounded(c: Config, rows: seq<Row>, bars: seq<Bar>)
    ensures var active := Run(c, rows, bars).state.active; active.Some? ==> RiskBounded(active.value, c)
  {
    hide RiskBounded, TryEntry, ExitReason, InSession, Bullish, Bearish;
    if bars != [] {
      var before, bar := Run(c, rows, bars[..|bars| - 1]), bars[|bars| - 1];
      ActiveRiskBounded(c, rows, bars[..|bars| - 1]);
      BarRiskBounded(before.state, c, rows, bar);
    }
  }

  // ---------------------------------------------------------------- how long a trade lasts

  /** A trade that survives a row with a positive close has been held for less than the limit. */
  lemma SurvivorIsYoung(s: State, row: Row)
    requires row.close > 0.0
    ensures Manage(s, row).0.active.Some? ==> Manage(s, row).0.active.value.barsHeld < MAX_BARS_IN_TRADE
  {
  }

  /** A surviving trade ages by two on an in-session bar with a valid ATR, by one on any other. */
  lemma AgesByTwo(s: State, c: Config, rows: seq<Row>, bar: Bar)
    requires s.active.Some? && s.next < |rows|
    ensures var (next, row) := (OnBar(s, c, rows, bar).0, rows[s.next]);
            next.active.Some? ==>
              next.active.value.barsHeld - s.active.value.barsHeld ==
              if InSession(c, row) && row.atr.Some? && row.atr.value > 0.0 then 2 else 1
  {
    hide ExitReason, Seek, InSession;
  }

  // ---------------------------------------------------------------- the strategy object

  /** An open trade; the table of open trades and the active trade share it. */
  class OpenTrade {
    const symbol: string
    const side: Side
    const units: int
    const entry: real
    const stop: real
    const target: real
    var barsHeld: nat

    function Value(): Trade
      reads this
    {
      Trade(symbol, side, units, entry, stop, target, barsHeld)
    }

    constructor (t: Trade)
      ensures Value() == t
    {
      symbol, side, units, entry := t.symbol, t.side, t.units, t.entry;
      stop, target, barsHeld := t.stop, t.target, t.barsHeld;
    }
  }

  class PrecomputedPerSetStrategyPaper {
    const config: Config
    var rows: seq<Row>
    var next: nat
    var bias: Option<Side>
    var setup: bool
    var active: Option<OpenTrade>
    var byKey: map<string, OpenTrade>
    var previousTrend: Option<int>

    /** The table shares the active trade and holds nothing else. */
    ghost predicate Valid()
      reads this`active, this`byKey
    {
      byKey == if active.Some? then map[active.value.symbol := active.value] else map[]
    }

    ghost function Open(): set<OpenTrade>
      reads this`active
    {
      if active.Some? then {active.value} else {}
    }

    ghost function Listed(): set<OpenTrade>
      reads this`byKey
    {
      set s | s in byKey :: byKey[s]
    }

    ghost function Value(): State
      reads this`next, this`bias, this`setup, this`active, this`byKey, this`previousTrend, Open(), Listed()
    {
      State(next, bias, setup, if active.Some? then Some(active.value.Value()) else None, Table(), previousTrend)
    }

    function Table(): map<string, Trade>
      reads this`byKey, Listed()
    {
      map s | s in byKey :: byKey[s].Value()
    }

    lemma TableIs()
      requires Valid()
      ensures Table() == if active.Some? then map[active.value.symbol := active.value.Value()] else map[]
    {
    }

    constructor (config: Config, rows: seq<Row>)
      ensures Valid() && Value() == FRESH && this.config == config && this.rows == rows
    {
      this.config, this.rows := config, rows;
      next, bias, setup, active, byKey, previousTrend := 0, None, false, None, map[], None;
    }

    /** Close the active trade, forget bias and setup, and give out the opposite order. */
    method CloseTrade(reason: Reason, now: nat) returns (exit: Intent)
      requires Valid() && active.Some?
      modifies this`active, this`byKey, this`bias, this`setup
      ensures Valid() && Value() == old(Value()).(active := None, byKey := map[], bias := None, setup := false)
      ensures exit == ExitIntent(old(Value()).active.value, reason, now)
    {
      var trade := active.value;
      exit := Intent(trade.symbol, if trade.side == Buy then Sell else Buy, trade.units, Exit(reason), now);
      byKey := byKey - {trade.symbol};
      active, bias, setup := None, None, false;
    }

    /** Count the row for the active trade, and close it on stop, target, trail or time. */
    method ManageActiveTrade(row: Row) returns (exit: Option<Intent>)
      requires Valid()
      modifies this`active, this`byKey, this`bias, this`setup, Open()
      ensures Valid() && (Value(), exit) == Manage(old(Value()), row)
      ensures active.Some? ==> active == old(active)
    {
      if active.None? {
        return None;
      }
      var trade := active.value;
      TableIs();
      trade.barsHeld := trade.barsHeld + 1;
      TableIs();
      assert Value() == old(Value()).(active := Some(trade.Value()),
                                      byKey := old(Value()).byKey[trade.symbol := trade.Value()]);
      if row.close <= 0.0 {
        return None;
      }
      var reason;
      if (if trade.side == Buy then row.close <= trade.stop else row.close >= trade.stop) {
        reason := StopLossHit;
      } else if (if trade.side == Buy then row.close >= trade.target else row.close <= trade.target) {
        reason := TargetHit;
      } else if (row.mtfPhase == TR || row.mtfPhase == if trade.side == Buy then PRB else PB) && trade.barsHeld > 20 {
        reason := MtfTrail;
      } else if trade.barsHeld >= MAX_BARS_IN_TRADE {
        reason := TimeStop;
      } else {
        return None;
      }
      var intent := CloseTrade(reason, row.timestamp);
      exit := Some(intent);
    }

    /** Try to enter in the direction of the bias: stop distance, spread, reward, size, then conflicts. */
    method BuildEntry(bar: Bar, price: real, atr: real) returns (r: Result)
      requires Valid() && active.None? && bias.Some? && 0.0 < atr
      modifies this`active, this`byKey
      ensures Valid() && (active.Some? ==> fresh(active.value))
      ensures match TryEntry(config, bias.value, old(Table()), bar, price, atr)
              case BadSymbol => r == Fails && Value() == old(Value())
              case Refused => r == Quiet && Value() == old(Value())
              case Entered(trade, intent) =>
                r == Emits(intent) &&
                Value() == old(Value()).(active := Some(trade), byKey := map[trade.symbol := trade])
    {
      hide RoundHalfUp, PairOf, PipValuePerLot, LotSteps, StopPips, Allowance, Abs;
      var known := PairOf(bar.symbol);
      if known.None? {
        return Fails;
      }
      var pair, side, distance := known.value, bias.value, atr * 1.5;
      var stop, target := StopPrice(side, price, distance), StopPrice(Opposite(side), price, distance * 4.0);
      var stopPips := StopPips(pair, price, stop);
      if !(5.0 <= stopPips <= 50.0) {
        return Quiet;
      }
      if bar.spread / 10.0 > 3.0 {
        return Quiet;
      }
      if Abs(target - price) / PipSize(pair) / stopPips < config.minimumReward {
        return Quiet;
      }
      var steps := LotSteps(Allowance(config), stopPips, PipValuePerLot(pair, price));
      if steps < 1 {
        return Quiet;
      }
      if bar.symbol in byKey {
        return Quiet;
      }
      var plan := Trade(bar.symbol, side, 1_000 * steps, price, stop, target, 0);
      var trade := new OpenTrade(plan);
      active := Some(trade);
      byKey := byKey[bar.symbol := trade];
      r := Emits(Intent(bar.symbol, side, 1_000 * steps,
                        Enter(RoundHalfUp(stop, PriceScale(pair)), RoundHalfUp(target, PriceScale(pair))),
                        bar.timestamp));
    }

    /** Forget bias and setup when the higher timeframe turns to another direction. */
    method NoteTrend(row: Row)
      modifies this`bias, this`setup, this`previousTrend
      ensures Value() == SeeTrend(old(Value()), row)
    {
      var trend := Trend(row.htfPhase);
      if previousTrend.Some? && trend != previousTrend.value && trend != 0 {
        bias, setup := None, false;
      }
      previousTrend := Some(trend);
    }

    /** Look for bias, setup and trigger in turn. */
    method SeekEntry(row: Row, bar: Bar, atr: real) returns (r: Result)
      requires Valid() && active.None? && 0.0 < atr
      modifies this`active, this`byKey, this`bias, this`setup
      ensures Valid() && (Value(), r) == Seek(old(Value()), config, row, bar, atr)
    {
      hide TryEntry, Bullish, Bearish;
      if bias.None? {
        bias := if Bullish(row.htfPhase) then Some(Buy) else if Bearish(row.htfPhase) then Some(Sell) else None;
      }
      if bias.None? {
        return Quiet;
      }
      if !setup {
        if bias.value == Buy {
          setup := Bullish(row.mtfPhase) && (row.mtfZone.None? || row.mtfZone.value >= -0.7);
        } else {
          setup := Bearish(row.mtfPhase) && (row.mtfZone.None? || row.mtfZone.value <= 0.7);
        }
      }
      if !setup {
        return Quiet;
      }
      if !(if bias.value == Buy then Bullish(row.ltfPhase) else Bearish(row.ltfPhase)) {
        return Quiet;
      }
      ghost var ready := Value();
      assert ready == FindSetup(FindBias(old(Value()), row), row);
      TableIs();
      EntrySymbol(config, bias.value, Table(), bar, row.close, atr);
      r := BuildEntry(bar, row.close, atr);
    }

    /** Process the next row. */
    method OnBarEvent(bar: Bar) returns (r: Result)
      requires Valid()
      modifies this, Open()
      ensures Valid() && rows == old(rows) && (Value(), r) == OnBar(old(Value()), config, rows, bar)
    {
      hide Manage, Seek, SeeTrend, TryEntry, Bullish, Bearish;
      if next >= |rows| {
        return Quiet;
      }
      var row := rows[next];
      next := next + 1;
      assert Value() == old(Value()).(next := next);
      var exit := ManageActiveTrade(row);
      if exit.Some? {
        return Emits(exit.value);
      }
      if !InSession(config, row) {
        return Quiet;
      }
      NoteTrend(row);
      if row.atr.None? || row.atr.value <= 0.0 {
        return Quiet;
      }
      if active.Some? {
        exit := ManageActiveTrade(row);
        return if exit.Some? then Emits(exit.value) else Quiet;
      }
      r := SeekEntry(row, bar, row.atr.value);
    }
  }
}
