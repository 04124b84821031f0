/** The currency exposure matrix: what a portfolio holds in each currency, as a share of equity. */
module Exposure {
  import opened Common
  import opened Domain
  import opened Router
  import opened Symbols
  import opened Rounding

  // ---------------------------------------------------------------- rates

  /** The account currency, the stored pair rates, and the caller's current prices in their order. */
  datatype Market = Market(account: string, rates: map<string, real>, prices: seq<(string, real)>)

  function RateKey(symbol: string): string {
    Without(Upper(Strip(symbol)), "/_")
  }

  /** The key under which a caller's current price of a symbol is looked up. */
  function PriceKey(symbol: string): string {
    Without(Upper(symbol), "/_")
  }

  function PriceAt(prices: seq<(string, real)>, key: string): Option<real> {
    if prices == [] then None
    else if prices[|prices| - 1].0 == key then Some(prices[|prices| - 1].1)
    else PriceAt(prices[..|prices| - 1], key)
  }

  function Merged(rates: map<string, real>, prices: seq<(string, real)>): map<string, real> {
    if prices == [] then rates
    else Merged(rates, prices[..|prices| - 1])[RateKey(prices[|prices| - 1].0) := prices[|prices| - 1].1]
  }

  /** The stored rate of a pair, or the inverse of the opposite pair's positive rate, or 1. */
  function StoredRate(rates: map<string, real>, symbol: string): real {
    var key := RateKey(symbol);
    if key in rates then rates[key]
    else if |key| == 6 && key[3..] + key[..3] in rates && rates[key[3..] + key[..3]] > 0.0
    then 1.0 / rates[key[3..] + key[..3]]
    else 1.0
  }

  function RateBetween(rates: map<string, real>, from: string, to: string): real {
    if from == to then 1.0
    else if from + to in rates then rates[from + to]
    else if to + from in rates && rates[to + from] > 0.0 then 1.0 / rates[to + from]
    else 1.0
  }

  /** What one unit of a currency is worth in the account currency; crosses go through USD. */
  function RateToAccount(m: Market, currency: string): real {
    var (c, rates) := (Upper(Strip(currency)), Merged(m.rates, m.prices));
    if c == m.account then 1.0
    else if c + m.account in rates then rates[c + m.account]
    else if m.account + c in rates && rates[m.account + c] > 0.0 then 1.0 / rates[m.account + c]
    else if m.account != "USD" then RateBetween(rates, c, "USD") * RateBetween(rates, "USD", m.account)
    else 1.0
  }

  // ---------------------------------------------------------------- what one holding adds

  /** The two currency legs of a holding, or nothing. */
  datatype Legs = Nothing | Legs(base: string, baseUnits: real, quote: string, quoteUnits: real)

  /** An amount at a price or rate, rounded to cents. */
  function Converted(raw: real, rate: real): real {
    RoundHalfUp(raw * rate, 100.0)
  }

  /** The quote amount of a trade. */
  function QuoteUnits(units: int, price: real): real {
    Converted(units as real, price)
  }

  /** Long base against short quote, or the other way round. */
  function Split(pair: (string, string), side: Side, units: int, price: real): Legs {
    var quote := QuoteUnits(units, price);
    if side == Buy then Legs(pair.0, units as real, pair.1, -quote)
    else Legs(pair.0, -(units as real), pair.1, quote)
  }

  function PositionPrice(m: Market, p: Pos, pair: (string, string)): real {
    var quoted := PriceAt(m.prices, PriceKey(p.symbol));
    var price := if quoted.Some? then quoted.value else p.current;
    if price > 0.0 then price
    else if p.averageEntry > 0.0 then p.averageEntry
    else StoredRate(m.rates, pair.0 + pair.1)
  }

  /** `None` when the symbol is not a currency pair. */
  function DecomposePosition(m: Market, p: Pos): Option<Legs> {
    if !p.isOpen || p.units <= 0 then Some(Nothing)
    else
      var pair := PairOf(p.symbol);
      if pair.None? then None else Some(Split(pair.value, p.side, p.units, PositionPrice(m, p, pair.value)))
  }

  function IntentPrice(m: Market, i: Intent, pair: (string, string)): real {
    var quoted := PriceAt(m.prices, PriceKey(i.symbol));
    var stored := StoredRate(m.rates, pair.0 + pair.1);
    var price := if quoted.Some? then quoted.value
                 else if i.limit.Some? && i.limit.value != 0.0 then i.limit.value else stored;
    if price <= 0.0 then stored else price
  }

  function DecomposeIntent(m: Market, i: Intent): Option<Legs> {
    if i.units <= 0 then Some(Nothing)
    else
      var pair := PairOf(i.symbol);
      if pair.None? then None else Some(Split(pair.value, i.side, i.units, IntentPrice(m, i, pair.value)))
  }

  // ---------------------------------------------------------------- totals

  const SUPPORTED: set<string> := {"USD", "EUR", "GBP", "JPY", "AUD", "CAD", "CHF", "NZD"}

  function At(totals: map<string, real>, c: string): real {
    if c in totals then totals[c] else 0.0
  }

  function Add(totals: map<string, real>, c: string, amount: real): map<string, real> {
    totals[c := At(totals, c) + amount]
  }

  /** A pair of one currency with itself keeps its quote leg only. */
  function Accumulate(totals: map<string, real>, legs: Legs): map<string, real> {
    match legs
    case Nothing => totals
    case Legs(b, x, q, y) => if b == q then Add(totals, q, y) else Add(Add(totals, b, x), q, y)
  }

  function Empty(): map<string, real> {
    map c | c in SUPPORTED :: 0.0
  }

  function PositionTotals(m: Market, positions: seq<Pos>): Option<map<string, real>> {
    if positions == [] then Some(Empty())
    else
      var (before, last) := (PositionTotals(m, positions[..|positions| - 1]), positions[|positions| - 1]);
      if before.None? || !last.isOpen then before
      else
        var legs := DecomposePosition(m, last);
        if legs.None? then None else Some(Accumulate(before.value, legs.value))
  }

  function WithIntents(m: Market, totals: map<string, real>, intents: seq<Intent>): Option<map<string, real>> {
    if intents == [] then Some(totals)
    else
      var before := WithIntents(m, totals, intents[..|intents| - 1]);
      if before.None? then None
      else
        var legs := DecomposeIntent(m, intents[|intents| - 1]);
        if legs.None? then None else Some(Accumulate(before.value, legs.value))
  }

  function Totals(m: Market, positions: seq<Pos>, intents: seq<Intent>): Option<map<string, real>> {
    var held := PositionTotals(m, positions);
    if held.None? then None else WithIntents(m, held.value, intents)
  }

  // ---------------------------------------------------------------- exposure

  /** Exposure of a raw amount: converted, then rounded to four places as a share of equity. */
  function Percent(raw: real, rate: real, equity: real): real
    requires 0.0 < equity
  {
    RoundHalfUp(Converted(raw, rate) / equity, 10_000.0)
  }

  function ExposureOf(m: Market, totals: map<string, real>, equity: real, c: string): real
    requires 0.0 < equity
  {
    Percent(At(totals, c), RateToAccount(m, c), equity)
  }

  ghost predicate WithinCap(m: Market, totals: map<string, real>, equity: real, cap: real)
    requires 0.0 < equity
  {
    forall c :: c in totals ==> Abs(ExposureOf(m, totals, equity, c)) <= cap
  }

  /** `y` lies between `x` and `z`, whichever is larger. */
  predicate Between(x: real, y: real, z: real) {
    x <= y <= z || z <= y <= x
  }

  lemma RoundBetween(x: real, y: real, z: real, scale: real)
    requires 0.0 < scale && Between(x, y, z)
    ensures Between(RoundHalfUp(x, scale), RoundHalfUp(y, scale), RoundHalfUp(z, scale))
  {
    hide RoundHalfUp;
    if x <= y <= z {
      RoundMonotone(x, y, scale);
      RoundMonotone(y, z, scale);
    } else {
      RoundMonotone(z, y, scale);
      RoundMonotone(y, x, scale);
    }
  }

  lemma TimesBetween(x: real, y: real, z: real, k: real)
    requires Between(x, y, z)
    ensures Between(x * k, y * k, z * k)
  {
    if 0.0 <= k {
      if x <= y <= z { TimesMonotone(x, y, k); TimesMonotone(y, z, k); }
      else { TimesMonotone(z, y, k); TimesMonotone(y, x, k); }
    } else {
      if x <= y <= z { TimesMonotone(x, y, -k); TimesMonotone(y, z, -k); }
      else { TimesMonotone(z, y, -k); TimesMonotone(y, x, -k); }
    }
  }

  /** However the rounding steps fall, the exposure of an amount in between is in between. */
  lemma PercentBetween(x: real, y: real, z: real, rate: real, equity: real)
    requires 0.0 < equity && Between(x, y, z)
    ensures Between(Percent(x, rate, equity), Percent(y, rate, equity), Percent(z, rate, equity))
  {
    hide RoundHalfUp;
    TimesBetween(x, y, z, rate);
    RoundBetween(x * rate, y * rate, z * rate, 100.0);
    var (a, b, c) := (RoundHalfUp(x * rate, 100.0), RoundHalfUp(y * rate, 100.0), RoundHalfUp(z * rate, 100.0));
    if a <= b <= c { DivideMonotone(a, b, equity); DivideMonotone(b, c, equity); }
    else { DivideMonotone(c, b, equity); DivideMonotone(b, a, equity); }
    RoundBetween(a / equity, b / equity, c / equity, 10_000.0);
  }

  /** The totals once the intent is sized to `units`. */
  function Sized(totals: map<string, real>, pair: (string, string), side: Side, price: real, units: int)
    : map<string, real>
  {
    Accumulate(totals, Split(pair, side, units, price))
  }

  lemma AccumulateAt(totals: map<string, real>, b: string, x: real, q: string, y: real, c: string)
    ensures At(Accumulate(totals, Legs(b, x, q, y)), c) ==
            At(totals, c) + if c == q then y else if c == b then x else 0.0
  {
  }

  /** What sizing the intent adds in a currency. */
  function LegIn(pair: (string, string), side: Side, price: real, units: int, c: string): real {
    var quote := QuoteUnits(units, price);
    if c == pair.1 then (if side == Buy then -quote else quote)
    else if c == pair.0 then (if side == Buy then units as real else -(units as real))
    else 0.0
  }

  lemma SizedAt(totals: map<string, real>, pair: (string, string), side: Side, price: real, units: int, c: string)
    ensures At(Sized(totals, pair, side, price, units), c) == At(totals, c) + LegIn(pair, side, price, units, c)
  {
    hide QuoteUnits, Accumulate, At;
    var quote := QuoteUnits(units, price);
    if side == Buy {
      AccumulateAt(totals, pair.0, units as real, pair.1, -quote, c);
    } else {
      AccumulateAt(totals, pair.0, -(units as real), pair.1, quote, c);
    }
  }

  /** What the open positions add in one currency, each on its own. */
  function LegSum(m: Market, positions: seq<Pos>, c: string): real {
    if positions == [] then 0.0
    else
      var p := positions[|positions| - 1];
      var pair := PairOf(p.symbol);
      LegSum(m, positions[..|positions| - 1], c) +
      if p.isOpen && 0 < p.units && pair.Some?
      then LegIn(pair.value, p.side, PositionPrice(m, p, pair.value), p.units, c) else 0.0
  }

  lemma AccumulateNothing(totals: map<string, real>)
    ensures Accumulate(totals, Nothing) == totals
  {
  }

  /** The raw total of a currency is the sum of the positions' legs in it, so their order is
      immaterial and opposite legs cancel. */
  lemma {:induction false} TotalsAreSums(m: Market, positions: seq<Pos>, c: string)
    requires PositionTotals(m, positions).Some?
    ensures At(PositionTotals(m, positions).value, c) == LegSum(m, positions, c)
  {
    hide PairOf, PositionPrice, LegIn, Accumulate, Split;
    if positions != [] {
      var front, p := positions[..|positions| - 1], positions[|positions| - 1];
      TotalsAreSums(m, front, c);
      if p.isOpen && 0 < p.units {
        var pair := PairOf(p.symbol).value;
        SizedAt(PositionTotals(m, front).value, pair, p.side, PositionPrice(m, p, pair), p.units, c);
      } else if p.isOpen {
        AccumulateNothing(PositionTotals(m, front).value);
      }
    }
  }

  lemma QuoteIs(units: int, price: real) returns (x: real)
    ensures x == units as real * price && QuoteUnits(units, price) == RoundHalfUp(x, 100.0)
  {
    hide RoundHalfUp;
    x := units as real * price;
    assert Converted(units as real, price) == RoundHalfUp(x, 100.0);
  }

  lemma QuoteBetween(u: int, v: int, w: int, price: real)
    requires u <= v <= w
    ensures Between(QuoteUnits(u, price), QuoteUnits(v, price), QuoteUnits(w, price))
  {
    hide RoundHalfUp, QuoteUnits;
    var x := QuoteIs(u, price);
    var y := QuoteIs(v, price);
    var z := QuoteIs(w, price);
    TimesBetween(u as real, v as real, w as real, price);
    RoundBetween(x, y, z, 100.0);
  }

  lemma LegBetween(pair: (string, string), side: Side, price: real, u: int, v: int, w: int, c: string)
    requires u <= v <= w
    ensures Between(LegIn(pair, side, price, u, c), LegIn(pair, side, price, v, c), LegIn(pair, side, price, w, c))
  {
    hide QuoteUnits;
    QuoteBetween(u, v, w, price);
  }

  /** In every currency, the amount held at a size in between is in between. */
  lemma SizedBetween(totals: map<string, real>, pair: (string, string), side: Side, price: real, u: int, v: int, w: int,
                     c: string)
    requires u <= v <= w
    ensures Between(At(Sized(totals, pair, side, price, u), c), At(Sized(totals, pair, side, price, v), c),
                    At(Sized(totals, pair, side, price, w), c))
  {
    hide RoundHalfUp, Sized, At, LegIn;
    SizedAt(totals, pair, side, price, u, c);
    SizedAt(totals, pair, side, price, v, c);
    SizedAt(totals, pair, side, price, w, c);
    LegBetween(pair, side, price, u, v, w, c);
  }

  lemma SizedKeys(totals: map<string, real>, pair: (string, string), side: Side, price: real, u: int)
    ensures Sized(totals, pair, side, price, u).Keys ==
            totals.Keys + if pair.0 == pair.1 then {pair.1} else {pair.0, pair.1}
  {
    hide RoundHalfUp;
  }

  lemma NoQuoteUnits(price: real)
    ensures QuoteUnits(0, price) == 0.0
  {
    hide RoundHalfUp;
    RoundZero(100.0);
    assert 0 as real * price == 0.0;
  }

  lemma SizedToNothing(totals: map<string, real>, pair: (string, string), side: Side, price: real, c: string)
    ensures At(Sized(totals, pair, side, price, 0), c) == At(totals, c)
  {
    hide QuoteUnits, Sized, At;
    SizedAt(totals, pair, side, price, 0, c);
    NoQuoteUnits(price);
  }

  /** Sizes that keep the portfolio within the cap form an interval. */
  lemma CapConvex(m: Market, totals: map<string, real>, pair: (string, string), side: Side, price: real,
                  equity: real, cap: real, u: int, v: int, w: int)
    requires 0.0 < equity && u <= v <= w
    requires WithinCap(m, Sized(totals, pair, side, price, u), equity, cap)
    requires WithinCap(m, Sized(totals, pair, side, price, w), equity, cap)
    ensures WithinCap(m, Sized(totals, pair, side, price, v), equity, cap)
  {
    hide Sized, Percent, RateToAccount;
    SizedKeys(totals, pair, side, price, u);
    SizedKeys(totals, pair, side, price, v);
    SizedKeys(totals, pair, side, price, w);
    var (a, b) := (Sized(totals, pair, side, price, u), Sized(totals, pair, side, price, v));
    var c := Sized(totals, pair, side, price, w);
    forall x | x in b ensures Abs(ExposureOf(m, b, equity, x)) <= cap {
      SizedBetween(totals, pair, side, price, u, v, w, x);
      PercentBetween(At(a, x), At(b, x), At(c, x), RateToAccount(m, x), equity);
      assert x in a && x in c;
    }
  }

  lemma PercentZero(rate: real, equity: real)
    requires 0.0 < equity
    ensures Percent(0.0, rate, equity) == 0.0
  {
    hide RoundHalfUp;
    RoundZero(100.0);
    RoundZero(10_000.0);
    assert 0.0 * rate == 0.0 && 0.0 / equity == 0.0;
  }

  /** If the portfolio is within the cap before the order, every size below one that is within the cap
      is within it too. */
  lemma CapDownward(m: Market, totals: map<string, real>, pair: (string, string), side: Side, price: real,
                    equity: real, cap: real, v: int, w: int)
    requires 0.0 < equity && 0 <= v <= w && totals.Keys >= SUPPORTED
    requires WithinCap(m, totals, equity, cap) && WithinCap(m, Sized(totals, pair, side, price, w), equity, cap)
    ensures WithinCap(m, Sized(totals, pair, side, price, v), equity, cap)
  {
    hide Sized, Percent, RateToAccount;
    var start := Sized(totals, pair, side, price, 0);
    assert "USD" in totals && 0.0 <= Abs(ExposureOf(m, totals, equity, "USD")) <= cap;
    forall c | c in start ensures Abs(ExposureOf(m, start, equity, c)) <= cap {
      SizedToNothing(totals, pair, side, price, c);
      if c !in totals {
        PercentZero(RateToAccount(m, c), equity);
      }
    }
    CapConvex(m, totals, pair, side, price, equity, cap, 0, v, w);
  }

  // ---------------------------------------------------------------- the matrix object

  datatype Delta = Delta(raw: real, rate: real, base: real, percent: real)

  datatype Snapshot = Snapshot(equity: real, deltas: map<string, Delta>, maxPercent: real, balanced: bool)

  function DeltaOf(m: Market, totals: map<string, real>, equity: real, c: string): Delta
    requires 0.0 < equity
  {
    var rate := RateToAccount(m, c);
    Delta(At(totals, c), rate, Converted(At(totals, c), rate), ExposureOf(m, totals, equity, c))
  }

  /** The snapshot reports every currency of the totals, the largest share, and whether all shares are
      within the cap. */
  ghost predicate Describes(s: Snapshot, m: Market, totals: map<string, real>, equity: real, cap: real)
    requires 0.0 < equity
  {
    && s.equity == equity && s.deltas.Keys == totals.Keys
    && (forall c :: c in totals ==> s.deltas[c] == DeltaOf(m, totals, equity, c))
    && (s.balanced <==> WithinCap(m, totals, equity, cap))
    && 0.0 <= s.maxPercent && (forall c :: c in totals ==> Abs(ExposureOf(m, totals, equity, c)) <= s.maxPercent)
    && (s.maxPercent == 0.0 || exists c :: c in totals && Abs(ExposureOf(m, totals, equity, c)) == s.maxPercent)
  }

  const DEFAULT_RATES: map<string, real> :=
    map["EURUSD" := 1.08, "GBPUSD" := 1.28, "USDJPY" := 155.0, "AUDUSD" := 0.65, "USDCAD" := 1.38, "USDCHF" := 0.9,
        "NZDUSD" := 0.6, "EURGBP" := 0.8437, "EURJPY" := 167.4, "GBPJPY" := 198.4]

  lemma {:induction false} PositionFails(m: Market, positions: seq<Pos>, k: nat)
    requires k <= |positions| && PositionTotals(m, positions[..k]).None?
    ensures PositionTotals(m, positions).None?
  {
    hide DecomposePosition, Accumulate;
    if k == |positions| {
      assert positions[..k] == positions;
    } else {
      var front := positions[..|positions| - 1];
      assert front[..k] == positions[..k];
      PositionFails(m, front, k);
    }
  }

  method AddPositions(m: Market, positions: seq<Pos>) returns (totals: Option<map<string, real>>)
    ensures totals == PositionTotals(m, positions)
  {
    hide DecomposePosition, Accumulate;
    totals := Some(Empty());
    for i := 0 to |positions|
      invariant totals.Some? && totals == PositionTotals(m, positions[..i])
    {
      assert positions[..i + 1][..i] == positions[..i];
      if positions[i].isOpen {
        var legs := DecomposePosition(m, positions[i]);
        if legs.None? {
          PositionFails(m, positions, i + 1);
          return None;
        }
        totals := Some(Accumulate(totals.value, legs.value));
      }
    }
    assert positions[..|positions|] == positions;
  }

  lemma {:induction false} IntentFails(m: Market, held: map<string, real>, intents: seq<Intent>, k: nat)
    requires k <= |intents| && WithIntents(m, held, intents[..k]).None?
    ensures WithIntents(m, held, intents).None?
  {
    hide DecomposeIntent, Accumulate;
    if k == |intents| {
      assert intents[..k] == intents;
    } else {
      var front := intents[..|intents| - 1];
      assert front[..k] == intents[..k];
      IntentFails(m, held, front, k);
    }
  }

  method AddIntents(m: Market, held: map<string, real>, intents: seq<Intent>)
    returns (totals: Option<map<string, real>>)
    ensures totals == WithIntents(m, held, intents)
  {
    hide DecomposeIntent, Accumulate;
    totals := Some(held);
    for i := 0 to |intents|
      invariant totals.Some? && totals == WithIntents(m, held, intents[..i])
    {
      assert intents[..i + 1][..i] == intents[..i];
      var legs := DecomposeIntent(m, intents[i]);
      if legs.None? {
        IntentFails(m, held, intents, i + 1);
        return None;
      }
      totals := Some(Accumulate(totals.value, legs.value));
    }
    assert intents[..|intents|] == intents;
  }

  /** `maxPercent` is the largest share among the deltas (0 if there is none), and `balanced` says
      whether all shares are within the cap. */
  ghost predicate Summarizes(deltas: map<string, Delta>, maxPercent: real, balanced: bool, cap: real) {
    && (balanced <==> forall c :: c in deltas ==> Abs(deltas[c].percent) <= cap)
    && 0.0 <= maxPercent && (forall c :: c in deltas ==> Abs(deltas[c].percent) <= maxPercent)
    && (maxPercent == 0.0 || exists c :: c in deltas && Abs(deltas[c].percent) == maxPercent)
  }

  lemma AbsPositive(x: real)
    ensures 0.0 <= Abs(x)
  {
  }

  lemma SummaryStep(deltas: map<string, Delta>, maxPercent: real, balanced: bool, cap: real, c: string, d: Delta)
    requires Summarizes(deltas, maxPercent, balanced, cap) && c !in deltas
    ensures var share := Abs(d.percent);
            Summarizes(deltas[c := d], if share > maxPercent then share else maxPercent, balanced && share <= cap, cap)
  {
    hide Abs;
    var (share, next) := (Abs(d.percent), deltas[c := d]);
    assert next[c] == d && forall x :: x in deltas ==> x in next && next[x] == deltas[x];
    AbsPositive(d.percent);
    if share <= maxPercent && maxPercent != 0.0 {
      var x :| x in deltas && Abs(deltas[x].percent) == maxPercent;
      assert x in next && Abs(next[x].percent) == maxPercent;
    }
  }

  lemma SummaryDescribes(s: Snapshot, m: Market, totals: map<string, real>, equity: real, cap: real)
    requires 0.0 < equity && s.equity == equity && Summarizes(s.deltas, s.maxPercent, s.balanced, cap)
    requires s.deltas.Keys == totals.Keys && forall c :: c in totals ==> s.deltas[c] == DeltaOf(m, totals, equity, c)
    ensures Describes(s, m, totals, equity, cap)
  {
    hide Abs, ExposureOf, RateToAccount, RoundHalfUp;
    assert forall c :: c in totals ==> s.deltas[c].percent == ExposureOf(m, totals, equity, c);
  }

  lemma NothingSummarized(cap: real)
    ensures Summarizes(map[], 0.0, true, cap)
  {
  }

  /** Convert every raw total to the account currency, tracking the largest share and any breach. */
  method Convert(m: Market, totals: map<string, real>, equity: real, cap: real) returns (s: Snapshot)
    requires 0.0 < equity
    ensures Describes(s, m, totals, equity, cap)
  {
    hide DeltaOf, Abs, Summarizes, Describes;
    var deltas: map<string, Delta>, maxPercent, balanced := map[], 0.0, true;
    var left := totals.Keys;
    NothingSummarized(cap);
    while left != {}
      invariant left <= totals.Keys && deltas.Keys == totals.Keys - left
      invariant forall c :: c in deltas ==> deltas[c] == DeltaOf(m, totals, equity, c)
      invariant Summarizes(deltas, maxPercent, balanced, cap)
      decreases |left|
    {
      var c :| c in left;
      left := left - {c};
      var delta := DeltaOf(m, totals, equity, c);
      SummaryStep(deltas, maxPercent, balanced, cap, c, delta);
      deltas := deltas[c := delta];
      var share := Abs(delta.percent);
      if share > maxPercent {
        maxPercent := share;
      }
      if share > cap {
        balanced := false;
      }
    }
    s := Snapshot(equity, deltas, maxPercent, balanced);
    SummaryDescribes(s, m, totals, equity, cap);
  }

  class CurrencyExposureMatrix {
    const account: string
    var rates: map<string, real>

    constructor (account: string, defaults: seq<(string, real)>)
      ensures this.account == Upper(account) && rates == Merged(DEFAULT_RATES, defaults)
    {
      this.account := Upper(account);
      rates := Merged(DEFAULT_RATES, defaults);
    }

    method UpdateRate(symbol: string, rate: real)
      modifies this`rates
      ensures rates == old(rates)[RateKey(symbol) := rate]
    {
      rates := rates[RateKey(symbol) := rate];
    }

    function Now(prices: seq<(string, real)>): Market
      reads this`rates
    {
      Market.Market(account, rates, prices)
    }

    /** Exposure of the open positions and pending intents; `None` when a symbol is not a pair. */
    method CalculatePortfolioExposure(positions: seq<Pos>, accountEquity: real, intents: seq<Intent>,
                                      prices: seq<(string, real)>, cap: real) returns (r: Option<Snapshot>)
      ensures r.None? <==> Totals(Now(prices), positions, intents).None?
      ensures r.Some? ==> Describes(r.value, Now(prices), Totals(Now(prices), positions, intents).value,
                                    if accountEquity <= 0.0 then 1.0 else accountEquity, cap)
    {
      hide DecomposePosition, DecomposeIntent, Accumulate, Describes;
      var equity := if accountEquity <= 0.0 then 1.0 else accountEquity;
      var m := Now(prices);
      var held := AddPositions(m, positions);
      if held.None? {
        return None;
      }
      var totals := AddIntents(m, held.value, intents);
      if totals.None? {
        return None;
      }
      var snapshot := Convert(m, totals.value, equity, cap);
      r := Some(snapshot);
    }
  }
}
