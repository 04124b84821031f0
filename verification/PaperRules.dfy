/** The paper strategy's rules in prices, phases and minutes: when a trade ends and why, when one is entered and
    how large, and what an entry rests on over every run. */
module PaperRules {
  import opened Common
  import opened Domain
  import opened Symbols
  import opened Rounding
  import opened PaperStrategy

  // ---------------------------------------------------------------- one row

  predicate Up(phase: int) {
    phase == 1 || phase == 3 || phase == 5
  }

  predicate Down(phase: int) {
    phase == 2 || phase == 4 || phase == 6
  }

  /** The phase is on the trade's side. */
  predicate With(phase: int, side: Side) {
    if side == Buy then Up(phase) else Down(phase)
  }

  /** Within 06:30 to 17:00, or the session filter is off. */
  predicate Trading(c: Config, row: Row) {
    c.sessionFilter ==> 6 * 60 + 30 <= row.minuteOfDay <= 17 * 60
  }

  predicate Volatile(row: Row) {
    row.atr.Some? && 0.0 < row.atr.value
  }

  // ---------------------------------------------------------------- how a trade ends

  predicate AtStop(t: Trade, close: real) {
    if t.side == Buy then close <= t.stop else t.stop <= close
  }

  predicate AtTarget(t: Trade, close: real) {
    if t.side == Buy then t.target <= close else close <= t.target
  }

  /** The mid timeframe is in transition (8) or in the pullback against the trade. */
  predicate Against(t: Trade, phase: int) {
    phase == 8 || phase == if t.side == Buy then 4 else 3
  }

  /** The rows a trade is counted for on this bar: an in-session one with a valid ATR counts twice. */
  function Counts(c: Config, row: Row): nat {
    if Trading(c, row) && Volatile(row) then 2 else 1
  }

  /** Why the trade ends on this row when it has been counted `held` times, if it does. */
  predicate EndsAt(t: Trade, row: Row, reason: Reason, held: nat) {
    var open := !AtStop(t, row.close) && !AtTarget(t, row.close);
    0.0 < row.close &&
    match reason
    case StopLossHit => AtStop(t, row.close)
    case TargetHit => !AtStop(t, row.close) && AtTarget(t, row.close)
    case MtfTrail => open && Against(t, row.mtfPhase) && 20 < held
    case TimeStop => open && !Against(t, row.mtfPhase) && 500 <= held
  }

  predicate EndsFor(t: Trade, c: Config, row: Row, reason: Reason) {
    EndsAt(t, row, reason, t.barsHeld + Counts(c, row))
  }

  /** The order that ends the trade. */
  function ExitOrder(t: Trade, reason: Reason, now: nat): PaperStrategy.Intent {
    PaperStrategy.Intent(t.symbol, if t.side == Buy then Sell else Buy, t.units, Exit(reason), now)
  }

  lemma OneReason(t: Trade, row: Row, held: nat)
    ensures forall a, b :: EndsAt(t, row, a, held) && EndsAt(t, row, b, held) ==> a == b
    ensures forall a :: EndsAt(t, row, a, held) ==> EndsAt(t, row, a, held + 1)
  {
  }

  lemma ReasonIs(t: Trade, row: Row)
    ensures ExitReason(t, row).Some? ==> EndsAt(t, row, ExitReason(t, row).value, t.barsHeld)
    ensures ExitReason(t, row).None? ==> forall reason :: !EndsAt(t, row, reason, t.barsHeld)
  {
  }

  lemma SameEnds(t: Trade, row: Row, held: nat, other: nat)
    ensures forall reason :: EndsAt(t.(barsHeld := other), row, reason, held) <==> EndsAt(t, row, reason, held)
  {
  }

  lemma ManageMeans(s: State, row: Row) returns (reason: Option<Reason>)
    requires Sound(s) && s.active.Some?
    ensures var (t, held, next) := (s.active.value, s.active.value.barsHeld + 1, Manage(s, row).0);
            match reason
            case Some(why) =>
              EndsAt(t, row, why, held) && Manage(s, row).1 == Some(ExitOrder(t, why, row.timestamp)) &&
              next == s.(active := None, byKey := map[], bias := None, setup := false)
            case None =>
              (forall why :: !EndsAt(t, row, why, held)) && Manage(s, row).1 == None &&
              next == s.(active := Some(t.(barsHeld := held)), byKey := map[t.symbol := t.(barsHeld := held)])
  {
    hide ExitReason, EndsAt;
    var t, held := s.active.value, s.active.value.barsHeld + 1;
    var older := t.(barsHeld := held);
    ReasonIs(older, row);
    SameEnds(t, row, held, held);
    assert s.byKey - {t.symbol} == map[] && s.byKey[t.symbol := older] == map[t.symbol := older];
    reason := ExitReason(older, row);
  }

  /** The bar ends the trade for this reason, by the opposite order for its units, and forgets bias and setup. */
  predicate Ended(t: Trade, row: Row, reason: Reason, next: State, result: Result) {
    && result == Emits(ExitOrder(t, reason, row.timestamp))
    && next.active == None && next.byKey == map[] && next.bias == None && !next.setup
  }

  /** A bar ends the active trade for exactly the reason that applies; without one the trade stays as it was,
      only older. */
  lemma ExitsMean(s: State, c: Config, rows: seq<Row>, bar: Bar)
    requires Sound(s) && s.active.Some? && s.next < |rows|
    ensures var (t, row) := (s.active.value, rows[s.next]);
            var (next, result) := OnBar(s, c, rows, bar);
            (forall reason :: EndsFor(t, c, row, reason) <==> Ended(t, row, reason, next, result)) &&
            ((forall reason :: !EndsFor(t, c, row, reason)) ==>
               result == Quiet && next.active == Some(t.(barsHeld := t.barsHeld + Counts(c, row))))
  {
    hide Seek, Manage, EndsAt;
    var t, row, start := s.active.value, rows[s.next], s.(next := s.next + 1);
    OneReason(t, row, t.barsHeld + 1);
    OneReason(t, row, t.barsHeld + Counts(c, row));
    var reason := ManageMeans(start, row);
    var managed := Manage(start, row).0;
    var seen := SeeTrend(managed, row);
    if reason.None? && Counts(c, row) == 2 {
      reason := ManageMeans(seen, row);
      SameEnds(t, row, t.barsHeld + 2, t.barsHeld + 1);
    }
    if reason.Some? {
      assert EndsFor(t, c, row, reason.value);
    }
  }

  /** After any row with a positive close a surviving long lies strictly between its stop and its target, and so
      does a surviving short, the other way round. */
  lemma SurvivorBetween(s: State, c: Config, rows: seq<Row>, bar: Bar)
    requires Sound(s) && s.active.Some? && s.next < |rows| && 0.0 < rows[s.next].close
    ensures var (t, close) := (OnBar(s, c, rows, bar).0.active, rows[s.next].close);
            t.Some? ==> if t.value.side == Buy then t.value.stop < close < t.value.target
                        else t.value.target < close < t.value.stop
  {
    hide OnBar;
    ExitsMean(s, c, rows, bar);
    var (t, row) := (s.active.value, rows[s.next]);
    assert EndsFor(t, c, row, StopLossHit) <==> AtStop(t, row.close);
    assert EndsFor(t, c, row, TargetHit) <==> !AtStop(t, row.close) && AtTarget(t, row.close);
  }

  // ---------------------------------------------------------------- bias, setup and trigger

  predicate Zoned(row: Row, side: Side) {
    With(row.mtfPhase, side) &&
    (row.mtfZone.None? || if side == Buy then -0.7 <= row.mtfZone.value else row.mtfZone.value <= 0.7)
  }

  function TrendOf(phase: int): int {
    if Up(phase) then 1 else if Down(phase) then -1 else 0
  }

  /** The higher timeframe has turned to a direction it was not in on the last row seen. */
  predicate Turned(s: State, row: Row) {
    s.previousTrend.Some? && TrendOf(row.htfPhase) != s.previousTrend.value && TrendOf(row.htfPhase) != 0
  }

  /** Bias after a row seen: kept unless the trend turned, or else taken from the row. */
  function BiasOn(s: State, row: Row): Option<Side> {
    if s.bias.Some? && !Turned(s, row) then s.bias
    else if Up(row.htfPhase) then Some(Buy)
    else if Down(row.htfPhase) then Some(Sell)
    else None
  }

  /** Setup after a row seen: kept with the bias, or found on the row. */
  predicate SetupOn(s: State, row: Row) {
    (s.setup && !Turned(s, row)) || (BiasOn(s, row).Some? && Zoned(row, BiasOn(s, row).value))
  }

  predicate TriggeredOn(s: State, row: Row) {
    BiasOn(s, row).Some? && SetupOn(s, row) && With(row.ltfPhase, BiasOn(s, row).value)
  }

  lemma PhasesAre(phase: int)
    ensures Bullish(phase) <==> Up(phase)
    ensures Bearish(phase) <==> Down(phase)
    ensures Trend(phase) == TrendOf(phase)
  {
  }

  lemma NotBoth(phase: int)
    ensures !(Up(phase) && Down(phase))
  {
  }

  /** With no active trade, a row outside the session changes nothing; an in-session one updates the trend seen,
      and with a valid ATR bias and setup; an entry is tried exactly when all three timeframes agree. */
  lemma SeekMeans(s: State, c: Config, rows: seq<Row>, bar: Bar)
    requires Sound(s) && s.active.None? && s.next < |rows|
    ensures var (row, start) := (rows[s.next], s.(next := s.next + 1));
            var (next, result) := OnBar(s, c, rows, bar);
            if !Trading(c, row) then next == start && result == Quiet
            else
              next.previousTrend == Some(TrendOf(row.htfPhase)) && next.next == s.next + 1 &&
              if !Volatile(row)
              then next.bias == (if Turned(s, row) then None else s.bias) &&
                   next.setup == (s.setup && !Turned(s, row)) && next.active == None && result == Quiet
              else
                next.bias == BiasOn(s, row) && next.setup == SetupOn(s, row) &&
                (!TriggeredOn(s, row) ==> next.active == None && result == Quiet) &&
                (TriggeredOn(s, row) ==>
                   match TryEntry(c, BiasOn(s, row).value, map[], bar, row.close, row.atr.value)
                   case BadSymbol => next.active == None && result == Fails
                   case Refused => next.active == None && result == Quiet
                   case Entered(trade, intent) => next.active == Some(trade) && result == Emits(intent))
  {
    hide TryEntry, Bullish, Bearish, Up, Down;
    var row := rows[s.next];
    PhasesAre(row.htfPhase);
    PhasesAre(row.mtfPhase);
    PhasesAre(row.ltfPhase);
    NotBoth(row.htfPhase);
  }

  // ---------------------------------------------------------------- sizing

  function Pip(pair: (string, string)): real {
    if pair.1 == "JPY" then 0.01 else 0.0001
  }

  /** What a unit of the quote currency is taken to be worth. */
  function UnitWorth(pair: (string, string), price: real): real {
    if pair.1 != "USD" && 0.0 < price && (pair.0 == "USD" || pair.1 == "JPY") then 1.0 / price else 1.0
  }

  /** The account loses this much if `units` are stopped out at a distance. */
  function Loss(units: int, distance: real, worth: real): real {
    units as real * distance * worth
  }

  /** The attempt is made: the stop is 5 to 50 pips away, the spread at most 3 pips, the reward of four times the
      risk suffices, and the loss of 1,000 units is allowed. */
  predicate Enterable(c: Config, bar: Bar, pair: (string, string), price: real, atr: real) {
    var distance := 1.5 * atr;
    && 5.0 * Pip(pair) <= distance <= 50.0 * Pip(pair) && bar.spread <= 30.0 && c.minimumReward <= 4.0
    && Loss(1_000, distance, UnitWorth(pair, price)) <= c.equity * c.riskFraction
  }

  /** The trade: entered at the close, stopped 1.5 ATR away, its target 6 ATR the other way, and as many thousand
      units as the loss at the stop allows. */
  predicate EnteredAs(t: Trade, c: Config, side: Side, bar: Bar, pair: (string, string), price: real, atr: real) {
    && t.symbol == bar.symbol && t.side == side && t.entry == price && t.barsHeld == 0 && t.units % 1_000 == 0
    && (if side == Buy then t.stop == price - 1.5 * atr && t.target == price + 6.0 * atr
        else t.stop == price + 1.5 * atr && t.target == price - 6.0 * atr)
    && Loss(t.units, 1.5 * atr, UnitWorth(pair, price)) <= c.equity * c.riskFraction
    && c.equity * c.riskFraction < Loss(t.units + 1_000, 1.5 * atr, UnitWorth(pair, price))
  }

  /** The order: the trade's side and units, its stop and target to three decimals for yen and five otherwise. */
  predicate OrderedAs(i: PaperStrategy.Intent, t: Trade, bar: Bar, pair: (string, string)) {
    var scale := if pair.1 == "JPY" then 1000.0 else 100000.0;
    i == PaperStrategy.Intent(t.symbol, t.side, t.units,
                              Enter(RoundHalfUp(t.stop, scale), RoundHalfUp(t.target, scale)), bar.timestamp)
  }

  lemma PipsOf(pair: (string, string), price: real, stop: real, distance: real)
    requires 0.0 < distance && (stop == price - distance || stop == price + distance)
    ensures StopPips(pair, price, stop) * Pip(pair) == distance
    ensures 5.0 <= StopPips(pair, price, stop) <= 50.0 <==> 5.0 * Pip(pair) <= distance <= 50.0 * Pip(pair)
  {
    var pips := StopPips(pair, price, stop);
    assert pips * Pip(pair) == distance;
  }

  lemma Ratio(distance: real, pip: real)
    requires 0.0 < distance && 0.0 < pip
    ensures 0.0 < distance / pip && 4.0 * distance / pip / (distance / pip) == 4.0
  {
    var q := distance / pip;
    assert q * pip == distance;
    assert q <= 0.0 ==> q * pip <= 0.0;
    assert 4.0 * distance / pip == 4.0 * q;
  }

  /** The target is always four times as far as the stop. */
  lemma RewardIsFour(pair: (string, string), price: real, stop: real, target: real, distance: real)
    requires 0.0 < distance
    requires (stop == price - distance && target == price + distance * 4.0) ||
             (stop == price + distance && target == price - distance * 4.0)
    ensures StopPips(pair, price, stop) > 0.0
    ensures Abs(target - price) / PipSize(pair) / StopPips(pair, price, stop) == 4.0
  {
    var pip := PipSize(pair);
    assert Abs(target - price) == 4.0 * distance && Abs(price - stop) == distance;
    Ratio(distance, pip);
  }

  lemma WorthIs(pair: (string, string), price: real)
    ensures QuoteRate(pair, price) == UnitWorth(pair, price) && 0.0 < UnitWorth(pair, price)
    ensures PipSize(pair) == Pip(pair)
  {
  }

  /** A lot of 100,000 units loses, over the stop's pips, what it loses over the stop's distance. */
  lemma LotLoss(pair: (string, string), price: real, pips: real, distance: real)
    requires pips * Pip(pair) == distance
    ensures pips * PipValuePerLot(pair, price) == 100000.0 * (distance * UnitWorth(pair, price))
  {
    hide UnitWorth, QuoteRate, PipSize, Pip;
    WorthIs(pair, price);
    var (pip, worth) := (Pip(pair), UnitWorth(pair, price));
    calc {
      pips * PipValuePerLot(pair, price);
      pips * (100000.0 * pip * worth);
      100000.0 * (pips * pip * worth);
      100000.0 * (distance * worth);
    }
  }

  lemma LossIs(units: int, distance: real, worth: real)
    ensures Loss(units, distance, worth) == units as real * (distance * worth)
  {
  }

  lemma Quotient(risk: real, perThousand: real, lot: real)
    requires 0.0 < perThousand && lot == 100.0 * perThousand
    ensures risk / lot / 0.01 * perThousand == risk
  {
    var x := risk / lot;
    var q := x / 0.01;
    assert x * lot == risk && q * 0.01 == x;
    assert q * perThousand == x * lot;
  }

  lemma Strict(x: real, y: real, d: real)
    requires 0.0 < d
    ensures x < y <==> x * d < y * d
  {
    if x < y {
      assert (y - x) * d > 0.0;
    } else {
      TimesMonotone(y, x, d);
    }
  }

  lemma TruncateBounds(q: real)
    ensures 1 <= Truncate(q) <==> 1.0 <= q
    ensures 1 <= Truncate(q) ==> Truncate(q) as real <= q < Truncate(q) as real + 1.0
  {
  }
  lemma FitsBetween(below: real, q: real, above: real, d: real, risk: real)
    requires 0.0 < d && q * d == risk && below <= q < above
    ensures below * d <= risk < above * d
  {
    TimesMonotone(below, q, d);
    Strict(q, above, d);
  }
  lemma FitsOne(q: real, d: real, risk: real)
    requires 0.0 < d && q * d == risk
    ensures 1.0 <= q <==> d <= risk
  {
    Strict(q, 1.0, d);
  }
  /** Rounding the quotient toward zero gives the whole number of thousands whose loss is allowed. */
  lemma StepsFit(risk: real, perThousand: real, q: real)
    requires 0.0 < perThousand && q * perThousand == risk
    ensures var n := Truncate(q);
            (1 <= n <==> perThousand <= risk) &&
            (1 <= n ==> n as real * perThousand <= risk < (n as real + 1.0) * perThousand)
  {
    hide Truncate;
    TruncateBounds(q);
    FitsOne(q, perThousand, risk);
    if 1 <= Truncate(q) {
      FitsBetween(Truncate(q) as real, q, Truncate(q) as real + 1.0, perThousand, risk);
    }
  }

  lemma Scaled(n: int, x: real)
    ensures (1_000 * n) as real * x == n as real * (1000.0 * x)
  {
    assert (1_000 * n) as real == n as real * 1000.0;
  }

  lemma Thousands(n: int, distance: real, worth: real)
    ensures Loss(1_000 * n, distance, worth) == n as real * (1000.0 * (distance * worth))
    ensures Loss(1_000 * n + 1_000, distance, worth) == (n as real + 1.0) * (1000.0 * (distance * worth))
    ensures Loss(1_000, distance, worth) == 1000.0 * (distance * worth)
  {
    LossIs(1_000 * n, distance, worth);
    LossIs(1_000 * n + 1_000, distance, worth);
    LossIs(1_000, distance, worth);
    Scaled(n, distance * worth);
    Scaled(n + 1, distance * worth);
    Scaled(1, distance * worth);
    assert 1_000 * n + 1_000 == 1_000 * (n + 1) && (n + 1) as real == n as real + 1.0;
    assert 1.0 * (1000.0 * (distance * worth)) == 1000.0 * (distance * worth);
  }

  /** The lot steps: at least one exactly when the loss of 1,000 units is allowed, and then as many as fit. */
  lemma SizeIs(pair: (string, string), price: real, stopPips: real, distance: real, risk: real)
    requires 0.0 < distance && 0.0 < stopPips && stopPips * Pip(pair) == distance
    ensures var (n, worth) := (LotSteps(risk, stopPips, PipValuePerLot(pair, price)), UnitWorth(pair, price));
            (1 <= n <==> Loss(1_000, distance, worth) <= risk) &&
            (1 <= n ==> Loss(1_000 * n, distance, worth) <= risk < Loss(1_000 * n + 1_000, distance, worth))
  {
    hide UnitWorth, PipValuePerLot, Pip, Loss, Truncate;
    var worth := UnitWorth(pair, price);
    WorthIs(pair, price);
    LotLoss(pair, price, stopPips, distance);
    PositiveProduct(distance, worth);
    var perThousand, lot := 1000.0 * (distance * worth), stopPips * PipValuePerLot(pair, price);
    PositiveProduct(stopPips, PipValuePerLot(pair, price));
    Quotient(risk, perThousand, lot);
    StepsFit(risk, perThousand, risk / lot / 0.01);
    Thousands(LotSteps(risk, stopPips, PipValuePerLot(pair, price)), distance, worth);
  }

  /** An entry attempt on a pair is made exactly when the market allows it, and then is this trade and order. */
  lemma EntryMeans(c: Config, side: Side, bar: Bar, pair: (string, string), price: real, atr: real)
    requires 0.0 < atr && PairOf(bar.symbol) == Some(pair)
    ensures var a := TryEntry(c, side, map[], bar, price, atr);
            (a.Entered? <==> Enterable(c, bar, pair, price, atr)) && (a.Refused? <==> !a.Entered?) &&
            (a.Entered? ==>
               EnteredAs(a.trade, c, side, bar, pair, price, atr) && OrderedAs(a.intent, a.trade, bar, pair))
  {
    hide PairOf, UnitWorth, PipValuePerLot, Loss, RoundHalfUp, LotSteps, StopPips, Abs, PipSize, Pip;
    var distance := atr * 1.5;
    var stop, target := StopPrice(side, price, distance), StopPrice(Opposite(side), price, distance * 4.0);
    PipsOf(pair, price, stop, distance);
    RewardIsFour(pair, price, stop, target, distance);
    SizeIs(pair, price, StopPips(pair, price, stop), distance, Allowance(c));
  }

  lemma TriggeredBias(s: State, row: Row)
    requires TriggeredOn(s, row)
    ensures BiasOn(s, row).Some?
  {
  }

  lemma NotAPair(c: Config, side: Side, bar: Bar, price: real, atr: real)
    requires PairOf(bar.symbol).None?
    ensures TryEntry(c, side, map[], bar, price, atr) == BadSymbol
  {
    hide PairOf;
  }

  /** What an in-session row with a valid ATR leads to once all three timeframes agree: an order exactly when the
      market allows the entry, and a failure when the symbol is not a pair. */
  lemma EntriesMean(s: State, c: Config, rows: seq<Row>, bar: Bar)
    requires Sound(s) && s.active.None? && s.next < |rows|
    ensures var (row, pair, result) := (rows[s.next], PairOf(bar.symbol), OnBar(s, c, rows, bar).1);
            var ready := Trading(c, row) && Volatile(row) && TriggeredOn(s, row);
            (result == Fails <==> ready && pair.None?) &&
            (result.Emits? <==> ready && pair.Some? && Enterable(c, bar, pair.value, row.close, row.atr.value)) &&
            (result.Emits? ==>
               var trade := OnBar(s, c, rows, bar).0.active;
               trade.Some? && OrderedAs(result.intent, trade.value, bar, pair.value) &&
               EnteredAs(trade.value, c, BiasOn(s, row).value, bar, pair.value, row.close, row.atr.value))
  {
    hide OnBar, TryEntry, PairOf, Enterable, EnteredAs, OrderedAs, Trading, TriggeredOn, BiasOn, SetupOn, Turned;
    var row, pair := rows[s.next], PairOf(bar.symbol);
    SeekMeans(s, c, rows, bar);
    if TriggeredOn(s, row) && Volatile(row) {
      TriggeredBias(s, row);
      if pair.Some? {
        EntryMeans(c, BiasOn(s, row).value, bar, pair.value, row.close, row.atr.value);
      } else {
        NotAPair(c, BiasOn(s, row).value, bar, row.close, row.atr.value);
      }
    }
  }

  lemma VolatileAtr(row: Row)
    requires Volatile(row)
    ensures row.atr.Some?
  {
  }

  // ---------------------------------------------------------------- what an entry rests on

  lemma SeenSound(s: State, row: Row)
    requires Sound(s)
    ensures Sound(SeeTrend(s, row))
  {
    SeenSame(s, row);
    SoundReads(s, SeeTrend(s, row));
  }

  /** While a trade survives, an in-session row only moves the trend seen and what hangs on it. */
  lemma HeldMeans(s: State, c: Config, rows: seq<Row>, bar: Bar)
    requires Sound(s) && s.active.Some? && s.next < |rows| && OnBar(s, c, rows, bar).0.active.Some?
    ensures var (row, next) := (rows[s.next], OnBar(s, c, rows, bar).0);
            next.next == s.next + 1 &&
            if Trading(c, row)
            then next.previousTrend == Some(TrendOf(row.htfPhase)) &&
                 next.bias == (if Turned(s, row) then None else s.bias) && next.setup == (s.setup && !Turned(s, row))
            else next.previousTrend == s.previousTrend && next.bias == s.bias && next.setup == s.setup
  {
    hide Seek, Manage, EndsAt, Trend, TrendOf;
    var row, start := rows[s.next], s.(next := s.next + 1);
    PhasesAre(row.htfPhase);
    var reason := ManageMeans(start, row);
    if reason.None? {
      SeenSound(Manage(start, row).0, row);
      reason := ManageMeans(SeeTrend(Manage(start, row).0, row), row);
    }
  }

  function Turn(side: Side): int {
    if side == Buy then 1 else -1
  }

  /** Some in-session row before `n` had the higher timeframe on this side. */
  ghost predicate BiasSeen(c: Config, rows: seq<Row>, n: nat, side: Side) {
    exists k :: 0 <= k < n && k < |rows| && Trading(c, rows[k]) && With(rows[k].htfPhase, side)
  }

  /** Some in-session row before `n` had the mid timeframe on this side, its zone not too far the other way. */
  ghost predicate SetupSeen(c: Config, rows: seq<Row>, n: nat, side: Side) {
    exists k :: 0 <= k < n && k < |rows| && Trading(c, rows[k]) && Zoned(rows[k], side)
  }

  /** Bias and setup rest on rows that showed them, and the trend last seen is not against the bias. */
  ghost predicate Grounded(s: State, c: Config, rows: seq<Row>) {
    && (s.bias.Some? ==> BiasSeen(c, rows, s.next, s.bias.value) &&
                         (s.previousTrend == Some(0) || s.previousTrend == Some(Turn(s.bias.value))))
    && (s.setup ==> s.bias.Some? && SetupSeen(c, rows, s.next, s.bias.value))
  }

  lemma SeenLonger(c: Config, rows: seq<Row>, n: nat, m: nat, side: Side)
    requires n <= m
    ensures BiasSeen(c, rows, n, side) ==> BiasSeen(c, rows, m, side)
    ensures SetupSeen(c, rows, n, side) ==> SetupSeen(c, rows, m, side)
  {
  }

  lemma SeenNow(c: Config, rows: seq<Row>, n: nat, side: Side)
    requires n < |rows| && Trading(c, rows[n])
    ensures With(rows[n].htfPhase, side) ==> BiasSeen(c, rows, n + 1, side)
    ensures Zoned(rows[n], side) ==> SetupSeen(c, rows, n + 1, side)
  {
  }

  lemma SeenSince(c: Config, rows: seq<Row>, n: nat)
    requires n < |rows|
    ensures forall side :: BiasSeen(c, rows, n, side) ==> BiasSeen(c, rows, n + 1, side)
    ensures forall side :: SetupSeen(c, rows, n, side) ==> SetupSeen(c, rows, n + 1, side)
    ensures Trading(c, rows[n]) ==> forall side :: With(rows[n].htfPhase, side) ==> BiasSeen(c, rows, n + 1, side)
    ensures Trading(c, rows[n]) ==> forall side :: Zoned(rows[n], side) ==> SetupSeen(c, rows, n + 1, side)
  {
    hide BiasSeen, SetupSeen, Trading, Zoned, With;
    forall side
      ensures BiasSeen(c, rows, n, side) ==> BiasSeen(c, rows, n + 1, side)
      ensures SetupSeen(c, rows, n, side) ==> SetupSeen(c, rows, n + 1, side)
      ensures Trading(c, rows[n]) && With(rows[n].htfPhase, side) ==> BiasSeen(c, rows, n + 1, side)
      ensures Trading(c, rows[n]) && Zoned(rows[n], side) ==> SetupSeen(c, rows, n + 1, side)
    {
      SeenLonger(c, rows, n, n + 1, side);
      if Trading(c, rows[n]) {
        SeenNow(c, rows, n, side);
      }
    }
  }

  /** Keeping bias and setup unless the trend turned, or taking them from the row, rests on rows seen. */
  lemma TrendSeen(s: State, c: Config, rows: seq<Row>)
    requires Grounded(s, c, rows) && s.next < |rows| && Trading(c, rows[s.next])
    ensures var (row, bias) := (rows[s.next], BiasOn(s, rows[s.next]));
            bias.Some? ==>
              BiasSeen(c, rows, s.next + 1, bias.value) &&
              (TrendOf(row.htfPhase) == 0 || TrendOf(row.htfPhase) == Turn(bias.value))
    ensures var (row, bias) := (rows[s.next], BiasOn(s, rows[s.next]));
            SetupOn(s, row) ==> bias.Some? && SetupSeen(c, rows, s.next + 1, bias.value)
    ensures var (row, n) := (rows[s.next], s.next + 1);
            (s.bias.Some? && !Turned(s, row) ==>
               BiasOn(s, row) == s.bias && (s.setup ==> SetupSeen(c, rows, n, s.bias.value)))
  {
    hide BiasSeen, SetupSeen, Trading, Zoned;
    SeenSince(c, rows, s.next);
    var row := rows[s.next];
    assert BiasOn(s, row).Some? && (s.bias.None? || Turned(s, row)) ==> With(row.htfPhase, BiasOn(s, row).value);
  }

  lemma EndedForgets(t: Trade, c: Config, row: Row, next: State, result: Result)
    requires forall reason :: EndsFor(t, c, row, reason) <==> Ended(t, row, reason, next, result)
    requires (forall reason :: !EndsFor(t, c, row, reason)) ==> next.active.Some?
    requires next.active.None?
    ensures next.bias.None? && !next.setup
  {
    hide EndsFor;
    if reason :| EndsFor(t, c, row, reason) {
      assert Ended(t, row, reason, next, result);
    }
  }

  lemma BarGrounded(s: State, c: Config, rows: seq<Row>, bar: Bar)
    requires Sound(s) && Grounded(s, c, rows) && s.next < |rows|
    ensures Grounded(OnBar(s, c, rows, bar).0, c, rows)
  {
    hide OnBar, BiasSeen, SetupSeen, TryEntry, Trading, Volatile, Zoned, EndsAt, Ended, PairOf;
    var row := rows[s.next];
    SeenSince(c, rows, s.next);
    if s.active.None? {
      SeekMeans(s, c, rows, bar);
      if Trading(c, row) {
        TrendSeen(s, c, rows);
      }
    } else {
      ExitsMean(s, c, rows, bar);
      if OnBar(s, c, rows, bar).0.active.Some? {
        HeldMeans(s, c, rows, bar);
      } else {
        EndedForgets(s.active.value, c, row, OnBar(s, c, rows, bar).0, OnBar(s, c, rows, bar).1);
      }
    }
  }

  lemma NothingLeft(s: State, c: Config, rows: seq<Row>, bar: Bar)
    requires |rows| <= s.next
    ensures OnBar(s, c, rows, bar) == (s, Quiet)
  {
  }

  lemma {:induction false} RunGrounded(c: Config, rows: seq<Row>, bars: seq<Bar>)
    ensures Grounded(Run(c, rows, bars).state, c, rows)
  {
    hide OnBar, Sound, BiasSeen, SetupSeen;
    if bars != [] {
      var before := Run(c, rows, bars[..|bars| - 1]).state;
      RunGrounded(c, rows, bars[..|bars| - 1]);
      RunAlternates(c, rows, bars[..|bars| - 1]);
      if before.next < |rows| {
        BarGrounded(before, c, rows, bars[|bars| - 1]);
      } else {
        NothingLeft(before, c, rows, bars[|bars| - 1]);
      }
    }
  }

  lemma EntrySide(c: Config, s: State, row: Row, bar: Bar, pair: (string, string), t: Trade, i: PaperStrategy.Intent)
    requires TriggeredOn(s, row) && row.atr.Some? && OrderedAs(i, t, bar, pair)
    requires EnteredAs(t, c, BiasOn(s, row).value, bar, pair, row.close, row.atr.value)
    ensures i.side == BiasOn(s, row).value
  {
    hide Loss, UnitWorth, RoundHalfUp;
  }

  lemma TriggerGrounded(s: State, c: Config, rows: seq<Row>)
    requires Grounded(s, c, rows) && s.next < |rows| && Trading(c, rows[s.next]) && TriggeredOn(s, rows[s.next])
    ensures var (row, side) := (rows[s.next], BiasOn(s, rows[s.next]).value);
            With(row.ltfPhase, side) && !With(row.htfPhase, if side == Buy then Sell else Buy) &&
            BiasSeen(c, rows, s.next + 1, side) && SetupSeen(c, rows, s.next + 1, side)
  {
    hide BiasSeen, SetupSeen, Trading, Zoned;
    TrendSeen(s, c, rows);
    NotBoth(rows[s.next].htfPhase);
  }

  lemma HandledIsExit(t: Trade, c: Config, row: Row, next: State, result: Result)
    requires forall reason :: EndsFor(t, c, row, reason) <==> Ended(t, row, reason, next, result)
    requires (forall reason :: !EndsFor(t, c, row, reason)) ==> result == Quiet
    ensures result.Emits? ==> result.intent.action.Exit?
  {
    hide EndsFor;
    if reason :| EndsFor(t, c, row, reason) {
      assert Ended(t, row, reason, next, result);
    }
  }

  lemma EntryHere(s: State, c: Config, rows: seq<Row>, bar: Bar)
    requires Sound(s) && Grounded(s, c, rows) && s.next < |rows|
    requires OnBar(s, c, rows, bar).1.Emits? && OnBar(s, c, rows, bar).1.intent.action.Enter?
    ensures var (row, side) := (rows[s.next], OnBar(s, c, rows, bar).1.intent.side);
            Trading(c, row) && Volatile(row) && With(row.ltfPhase, side) &&
            !With(row.htfPhase, if side == Buy then Sell else Buy) &&
            BiasSeen(c, rows, s.next + 1, side) && SetupSeen(c, rows, s.next + 1, side)
  {
    hide OnBar, Sound, Grounded, BiasSeen, SetupSeen, Trading, Volatile, EndsFor, Ended, PairOf, Enterable, EnteredAs,
         OrderedAs, With, TriggeredOn, BiasOn;
    var row := rows[s.next];
    if s.active.None? {
      EntriesMean(s, c, rows, bar);
      TriggeredBias(s, row);
      VolatileAtr(row);
      EntrySide(c, s, row, bar, PairOf(bar.symbol).value, OnBar(s, c, rows, bar).0.active.value,
                OnBar(s, c, rows, bar).1.intent);
      TriggerGrounded(s, c, rows);
    } else {
      ExitsMean(s, c, rows, bar);
      HandledIsExit(s.active.value, c, row, OnBar(s, c, rows, bar).0, OnBar(s, c, rows, bar).1);
    }
  }

  /** Over every run an entry comes on an in-session row with a valid ATR whose low timeframe is on its side and
      whose high timeframe is not against it; some in-session row so far had the high timeframe on its side, and
      some had the mid timeframe there. */
  lemma EntryGrounds(c: Config, rows: seq<Row>, bars: seq<Bar>, bar: Bar)
    requires var result := OnBar(Run(c, rows, bars).state, c, rows, bar).1;
             result.Emits? && result.intent.action.Enter?
    ensures var s := Run(c, rows, bars).state;
            var (n, side) := (s.next, OnBar(s, c, rows, bar).1.intent.side);
            n < |rows| && Trading(c, rows[n]) && Volatile(rows[n]) && With(rows[n].ltfPhase, side) &&
            !With(rows[n].htfPhase, if side == Buy then Sell else Buy) &&
            BiasSeen(c, rows, n + 1, side) && SetupSeen(c, rows, n + 1, side)
  {
    hide OnBar, Run, Sound, BiasSeen, SetupSeen, Trading, Volatile, EndsAt, Zoned, PairOf, Enterable;
    var s := Run(c, rows, bars).state;
    RunAlternates(c, rows, bars);
    RunGrounded(c, rows, bars);
    if s.next >= |rows| {
      NothingLeft(s, c, rows, bar);
      assert false;
    } else {
      EntryHere(s, c, rows, bar);
    }
  }
}
