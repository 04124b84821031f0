/** The currency exposure governor: approve, downsize or reject an order by its projected exposure. */
module Allocator {
  import opened Common
  import opened Domain
  import opened Router
  import opened Exposure
  import opened Symbols
  import opened Rounding

  const MINIMUM_TRADE_UNITS: int := 1_000

  const STEP: int := 1_000

  /** Everything about an order that does not depend on its size. */
  datatype Sizing = Sizing(market: Market, held: map<string, real>, pair: (string, string), side: Side, price: real,
                           equity: real, cap: real)

  /** The portfolio with the order sized to `units` is within the cap. */
  ghost predicate Fits(z: Sizing, units: int)
    requires 0.0 < z.equity
  {
    WithinCap(z.market, Sized(z.held, z.pair, z.side, z.price, units), z.equity, z.cap)
  }

  /** The portfolio without the order is within the cap. */
  ghost predicate StartsWithin(z: Sizing)
    requires 0.0 < z.equity
  {
    z.held.Keys >= SUPPORTED && WithinCap(z.market, z.held, z.equity, z.cap)
  }

  lemma FitsConvex(z: Sizing, u: int, v: int, w: int)
    requires 0.0 < z.equity && u <= v <= w && Fits(z, u) && Fits(z, w)
    ensures Fits(z, v)
  {
    hide WithinCap, Sized;
    CapConvex(z.market, z.held, z.pair, z.side, z.price, z.equity, z.cap, u, v, w);
  }

  lemma FitsDownward(z: Sizing, v: int, w: int)
    requires 0.0 < z.equity && 0 <= v <= w && StartsWithin(z) && Fits(z, w)
    ensures Fits(z, v)
  {
    hide WithinCap, Sized;
    CapDownward(z.market, z.held, z.pair, z.side, z.price, z.equity, z.cap, v, w);
  }

  // ---------------------------------------------------------------- the search

  /** The size probed between two bounds, rounded down to a whole step. */
  function Midpoint(low: int, high: int): int {
    (low + high) / (2 * STEP) * STEP
  }

  lemma MidpointBounds(low: int, high: int)
    requires MINIMUM_TRADE_UNITS <= low <= high && low % STEP == 0
    ensures low <= Midpoint(low, high) <= high && Midpoint(low, high) % STEP == 0
  {
    var n := low / STEP;
    assert low == n * STEP;
    assert (low + high) / (2 * STEP) >= n;
  }

  /** Some probe fits while the search keeps halving from `high` without having found any size. */
  ghost predicate ProbeFits(z: Sizing, high: int)
    requires 0.0 < z.equity
    decreases high
  {
    if high < MINIMUM_TRADE_UNITS then false
    else
      MidpointBounds(MINIMUM_TRADE_UNITS, high);
      Fits(z, Midpoint(MINIMUM_TRADE_UNITS, high)) || ProbeFits(z, Midpoint(MINIMUM_TRADE_UNITS, high) - STEP)
  }

  /** `units` is a whole step that fits, and no larger whole step up to `limit` does. */
  ghost predicate Best(z: Sizing, units: int, limit: int)
    requires 0.0 < z.equity
  {
    && MINIMUM_TRADE_UNITS <= units <= limit && units % STEP == 0 && Fits(z, units)
    && forall u :: units < u <= limit && u % STEP == 0 ==> !Fits(z, u)
  }

  lemma NextStep(a: int, b: int)
    requires a % STEP == 0 && b % STEP == 0 && a < b
    ensures a + STEP <= b
  {
  }

  /** Once a size fits, nothing from an earlier failed probe upwards can. */
  lemma NoneFrom(z: Sizing, fit: int, failed: int, limit: int)
    requires 0.0 < z.equity && fit <= failed && failed % STEP == 0 && Fits(z, fit) && !Fits(z, failed)
    ensures forall u :: failed - STEP < u <= limit && u % STEP == 0 ==> !Fits(z, u)
  {
    hide Fits;
    forall u | failed - STEP < u <= limit && u % STEP == 0 ensures !Fits(z, u) {
      NextStep(failed - STEP, u);
      if Fits(z, u) {
        FitsConvex(z, fit, failed, u);
      }
    }
  }

  /** When the portfolio starts within the cap, some probe fits exactly when the smallest size does. */
  lemma {:induction false} ProbeReachesMinimum(z: Sizing, high: int)
    requires 0.0 < z.equity && MINIMUM_TRADE_UNITS <= high && StartsWithin(z)
    ensures ProbeFits(z, high) <==> Fits(z, MINIMUM_TRADE_UNITS)
    decreases high
  {
    hide Fits, StartsWithin;
    MidpointBounds(MINIMUM_TRADE_UNITS, high);
    var mid := Midpoint(MINIMUM_TRADE_UNITS, high);
    if Fits(z, mid) {
      FitsDownward(z, MINIMUM_TRADE_UNITS, mid);
    } else if mid - STEP >= MINIMUM_TRADE_UNITS {
      ProbeReachesMinimum(z, mid - STEP);
    } else {
      assert mid == MINIMUM_TRADE_UNITS;
    }
  }

  /** Downsizing is optimal: from a portfolio within the cap, for an order that would break it, the
      search finds a size exactly when the smallest size fits, and then any size that fits exists
      below it. */
  lemma DownsizingOptimal(z: Sizing, original: int)
    requires 0.0 < z.equity && MINIMUM_TRADE_UNITS < original && StartsWithin(z)
    ensures ProbeFits(z, original) <==> Fits(z, MINIMUM_TRADE_UNITS)
    ensures ProbeFits(z, original) <==>
            exists u :: MINIMUM_TRADE_UNITS <= u <= original && u % STEP == 0 && Fits(z, u)
  {
    hide Fits, StartsWithin, ProbeFits;
    ProbeReachesMinimum(z, original);
    if exists u :: MINIMUM_TRADE_UNITS <= u <= original && u % STEP == 0 && Fits(z, u) {
      var u :| MINIMUM_TRADE_UNITS <= u <= original && u % STEP == 0 && Fits(z, u);
      FitsDownward(z, MINIMUM_TRADE_UNITS, u);
    }
  }

  // ---------------------------------------------------------------- the governor

  /** The order, the positions and the prices that a sizing problem is made of. */
  ghost predicate Poses(z: Sizing, m: Market, positions: seq<Pos>, intent: Intent) {
    && z.market == m && 0.0 < z.equity
    && PositionTotals(m, positions) == Some(z.held) && PairOf(intent.symbol) == Some(z.pair)
    && z.side == intent.side && z.price == IntentPrice(m, intent, z.pair)
  }

  lemma {:induction false} HeldCovers(m: Market, positions: seq<Pos>)
    ensures PositionTotals(m, positions).Some? ==> PositionTotals(m, positions).value.Keys >= SUPPORTED
  {
    hide DecomposePosition;
    if positions != [] {
      HeldCovers(m, positions[..|positions| - 1]);
    }
  }

  lemma ProjectedTotals(z: Sizing, m: Market, positions: seq<Pos>, intent: Intent, units: int)
    requires Poses(z, m, positions, intent) && 0 < units
    ensures Totals(m, positions, [intent.(units := units)]) == Some(Sized(z.held, z.pair, z.side, z.price, units))
  {
    hide PairOf, Accumulate, Split, PositionTotals;
    var sized := intent.(units := units);
    assert [sized][..0] == [] && WithIntents(m, z.held, []) == Some(z.held);
    assert IntentPrice(m, sized, z.pair) == z.price;
  }

  datatype Verdict = BadSymbol | NoEquity | Approved | Downsized(units: int) | Rejected

  /** A currency ends over the cap without the order having reduced its share. */
  predicate Breaches(base: map<string, Delta>, c: string, share: real, cap: real) {
    share > cap && !(share < if c in base then Abs(base[c].percent) else 0.0)
  }

  /** No currency ends over the cap without the order having reduced its share. */
  ghost predicate Harmless(m: Market, before: map<string, real>, after: map<string, real>, equity: real, cap: real)
    requires 0.0 < equity
  {
    forall c :: c in after && Abs(ExposureOf(m, after, equity, c)) > cap ==>
                  c in before && Abs(ExposureOf(m, after, equity, c)) < Abs(ExposureOf(m, before, equity, c))
  }

  ghost predicate OrderHarmless(m: Market, positions: seq<Pos>, intent: Intent, equity: real, cap: real)
    requires 0.0 < equity
  {
    && PositionTotals(m, positions).Some? && Totals(m, positions, [intent]).Some?
    && Harmless(m, PositionTotals(m, positions).value, Totals(m, positions, [intent]).value, equity, cap)
  }

  /** The sizing problem of an order on a currency pair. */
  ghost function SizingOf(m: Market, positions: seq<Pos>, intent: Intent, equity: real, cap: real): Sizing
    requires PositionTotals(m, positions).Some? && PairOf(intent.symbol).Some?
  {
    var pair := PairOf(intent.symbol).value;
    Sizing(m, PositionTotals(m, positions).value, pair, intent.side, IntentPrice(m, intent, pair), equity, cap)
  }

  /** The downsizing search finds a size for the order. */
  ghost predicate Sizeable(m: Market, positions: seq<Pos>, intent: Intent, equity: real, cap: real)
    requires 0.0 < equity
  {
    && MINIMUM_TRADE_UNITS < intent.units && PositionTotals(m, positions).Some? && PairOf(intent.symbol).Some?
    && ProbeFits(SizingOf(m, positions, intent, equity, cap), intent.units)
  }

  /** `units` is the largest whole step below the order's own size that fits. */
  ghost predicate SizedTo(m: Market, positions: seq<Pos>, intent: Intent, equity: real, cap: real, units: int)
    requires 0.0 < equity
  {
    && PositionTotals(m, positions).Some? && PairOf(intent.symbol).Some? && units < intent.units
    && Best(SizingOf(m, positions, intent, equity, cap), units, intent.units)
  }

  /** Collect the breached currencies of a projected snapshot. */
  method Breached(base: Snapshot, projected: Snapshot, cap: real) returns (breached: set<string>)
    ensures breached == set c | c in projected.deltas && Breaches(base.deltas, c, Abs(projected.deltas[c].percent), cap)
  {
    hide Breaches, Abs;
    breached := {};
    var left := projected.deltas.Keys;
    while left != {}
      invariant left <= projected.deltas.Keys
      invariant breached == set c | c in projected.deltas && c !in left &&
                                    Breaches(base.deltas, c, Abs(projected.deltas[c].percent), cap)
      decreases |left|
    {
      var c :| c in left;
      left := left - {c};
      if Breaches(base.deltas, c, Abs(projected.deltas[c].percent), cap) {
        breached := breached + {c};
      }
    }
  }

  lemma BreachedIffHarmful(m: Market, base: Snapshot, projected: Snapshot, before: map<string, real>,
                           after: map<string, real>, equity: real, cap: real)
    requires 0.0 < equity && Describes(base, m, before, equity, cap) && Describes(projected, m, after, equity, cap)
    ensures (set c | c in projected.deltas &&
                     Breaches(base.deltas, c, Abs(projected.deltas[c].percent), cap)) == {} <==>
            Harmless(m, before, after, equity, cap)
  {
    hide ExposureOf, WithinCap;
    assert forall c :: c in after ==> projected.deltas[c].percent == ExposureOf(m, after, equity, c);
    assert forall c :: c in before ==> base.deltas[c].percent == ExposureOf(m, before, equity, c);
    var breached := set c | c in projected.deltas && Breaches(base.deltas, c, Abs(projected.deltas[c].percent), cap);
    if breached != {} {
      var c :| c in breached;
      assert c in after && Breaches(base.deltas, c, Abs(projected.deltas[c].percent), cap);
    } else {
      forall c | c in after && Abs(ExposureOf(m, after, equity, c)) > cap
        ensures c in before && Abs(ExposureOf(m, after, equity, c)) < Abs(ExposureOf(m, before, equity, c))
      {
        assert c in projected.deltas && c !in breached;
      }
    }
  }

  lemma NoIntents(m: Market, positions: seq<Pos>, intent: Intent)
    ensures Totals(m, positions, []) == PositionTotals(m, positions)
    ensures PositionTotals(m, positions).None? ==> Totals(m, positions, [intent]).None?
  {
  }

  /** The order's sizing problem, whenever its symbol is a pair. */
  lemma AnySizing(m: Market, positions: seq<Pos>, intent: Intent, equity: real, cap: real) returns (z: Sizing)
    requires Totals(m, positions, [intent]).Some? && 0.0 < equity
    ensures z.equity == equity && z.cap == cap
    ensures MINIMUM_TRADE_UNITS < intent.units ==>
              PositionTotals(m, positions).Some? && PairOf(intent.symbol).Some? &&
              z == SizingOf(m, positions, intent, equity, cap) && Poses(z, m, positions, intent)
  {
    hide PairOf, PositionTotals, IntentPrice;
    assert [intent][..0] == [];
    if PairOf(intent.symbol).Some? {
      z := SizingOf(m, positions, intent, equity, cap);
    } else {
      z := Sizing(m, map[], ("", ""), Buy, 0.0, equity, cap);
    }
  }

  lemma WithinIsHarmless(m: Market, before: map<string, real>, after: map<string, real>, equity: real, cap: real)
    requires 0.0 < equity && WithinCap(m, after, equity, cap)
    ensures Harmless(m, before, after, equity, cap)
  {
    hide ExposureOf, Abs;
  }

  /** A harmful order does not fit at its own size. */
  lemma NotTheOriginal(z: Sizing, m: Market, positions: seq<Pos>, intent: Intent, before: map<string, real>,
                       after: map<string, real>)
    requires MINIMUM_TRADE_UNITS < intent.units ==> Poses(z, m, positions, intent)
    requires 0.0 < z.equity && Totals(m, positions, [intent]) == Some(after) &&
             !Harmless(m, before, after, z.equity, z.cap)
    ensures MINIMUM_TRADE_UNITS < intent.units ==> !Best(z, intent.units, intent.units)
  {
    hide Harmless, Sized, WithinCap, Totals;
    if MINIMUM_TRADE_UNITS < intent.units {
      ProjectedTotals(z, m, positions, intent, intent.units);
      assert intent.(units := intent.units) == intent;
      if Fits(z, intent.units) {
        WithinIsHarmless(m, before, after, z.equity, z.cap);
      }
    }
  }

  lemma PosesEquity(z: Sizing, m: Market, positions: seq<Pos>, intent: Intent)
    requires Poses(z, m, positions, intent)
    ensures z.market == m && 0.0 < z.equity
  {
  }

  lemma Largest(z: Sizing, best: int, low: int, high: int, limit: int)
    requires 0.0 < z.equity && MINIMUM_TRADE_UNITS <= best <= limit && low == best + STEP && high < low &&
             low % STEP == 0
    requires Fits(z, best) && forall u :: high < u <= limit && u % STEP == 0 ==> !Fits(z, u)
    ensures Best(z, best, limit) && (Best(z, limit, limit) <==> best == limit)
  {
    hide Fits;
    forall u | best < u <= limit && u % STEP == 0 ensures !Fits(z, u) {
      NextStep(best, u);
    }
  }

  class CurrencyExposureGovernor {
    const cap: real
    const allowDownsizing: bool
    const matrix: CurrencyExposureMatrix

    constructor (cap: real, allowDownsizing: bool, matrix: CurrencyExposureMatrix)
      ensures this.cap == cap && this.allowDownsizing == allowDownsizing && this.matrix == matrix
    {
      this.cap, this.allowDownsizing, this.matrix := cap, allowDownsizing, matrix;
    }

    /** Simulate the order at one size. */
    method Simulate(intent: Intent, units: int, positions: seq<Pos>, equity: real, prices: seq<(string, real)>,
                    ghost z: Sizing) returns (s: Snapshot)
      requires 0 < units && Poses(z, matrix.Now(prices), positions, intent) && z.equity == equity && z.cap == cap
      ensures s.balanced <==> Fits(z, units)
    {
      hide Sized, WithinCap, Totals, Poses;
      ProjectedTotals(z, matrix.Now(prices), positions, intent, units);
      PosesEquity(z, matrix.Now(prices), positions, intent);
      var snapshot := matrix.CalculatePortfolioExposure(positions, equity, [intent.(units := units)], prices, cap);
      s := snapshot.value;
    }

    /** Binary search for the largest size that keeps every currency within the cap. A size comes back
        exactly when some probe of the halving phase fits, unless the order itself is already the
        largest size that fits; it is then the largest whole step below the order that fits. */
    method AttemptDownsize(intent: Intent, positions: seq<Pos>, equity: real, prices: seq<(string, real)>,
                           ghost z: Sizing)
      returns (r: Option<int>)
      requires 0.0 < equity && z.equity == equity && z.cap == cap
      requires MINIMUM_TRADE_UNITS < intent.units ==> Poses(z, matrix.Now(prices), positions, intent)
      ensures r.Some? <==>
              MINIMUM_TRADE_UNITS < intent.units && ProbeFits(z, intent.units) && !Best(z, intent.units, intent.units)
      ensures r.Some? ==> Best(z, r.value, intent.units) && r.value < intent.units
    {
      hide Fits, Poses, Midpoint;
      var original := intent.units;
      if original <= MINIMUM_TRADE_UNITS {
        return None;
      }
      var low, high, best := MINIMUM_TRADE_UNITS, original, 0;
      while low <= high
        invariant MINIMUM_TRADE_UNITS <= low && low % STEP == 0 && high <= original
        invariant best == 0 ==> low == MINIMUM_TRADE_UNITS && (ProbeFits(z, original) <==> ProbeFits(z, high))
        invariant high == original || ((high + STEP) % STEP == 0 && !Fits(z, high + STEP))
        invariant best != 0 ==> ProbeFits(z, original) && MINIMUM_TRADE_UNITS <= best <= original && low == best + STEP
        invariant best != 0 ==> Fits(z, best) && best <= high
        invariant best != 0 ==> forall u :: high < u <= original && u % STEP == 0 ==> !Fits(z, u)
        decreases high - low
      {
        var mid := Midpoint(low, high);
        MidpointBounds(low, high);
        var snapshot := Simulate(intent, mid, positions, equity, prices, z);
        if snapshot.balanced {
          if best == 0 && high != original {
            NoneFrom(z, mid, high + STEP, original);
          }
          best := mid;
          low := mid + STEP;
        } else {
          if best != 0 {
            NoneFrom(z, best, mid, original);
          }
          high := mid - STEP;
        }
      }
      if best != 0 {
        Largest(z, best, low, high, original);
      }
      if best >= MINIMUM_TRADE_UNITS && best < original {
        return Some(best);
      }
      r := None;
    }

    /** The governor's verdict. An order on a symbol that is not a pair is refused by the matrix. */
    method EvaluateIntent(intent: Intent, positions: seq<Pos>, equity: real, prices: seq<(string, real)>)
      returns (v: Verdict)
      ensures v.NoEquity? <==> equity <= 0.0
      ensures 0.0 < equity ==> (v.BadSymbol? <==> Totals(matrix.Now(prices), positions, [intent]).None?)
      ensures 0.0 < equity && !v.BadSymbol? ==>
                (v.Approved? <==> OrderHarmless(matrix.Now(prices), positions, intent, equity, cap))
      ensures 0.0 < equity && !v.BadSymbol? && !v.Approved? ==>
                (v.Downsized? <==> allowDownsizing && Sizeable(matrix.Now(prices), positions, intent, equity, cap))
      ensures v.Downsized? ==> 0.0 < equity && SizedTo(matrix.Now(prices), positions, intent, equity, cap, v.units)
    {
      hide Describes, Harmless, Poses, Fits, PositionTotals, PairOf, Breaches, Best, ProbeFits,
           DecomposeIntent, WithinCap;
      if equity <= 0.0 {
        return NoEquity;
      }
      ghost var m := matrix.Now(prices);
      NoIntents(m, positions, intent);
      var base := matrix.CalculatePortfolioExposure(positions, equity, [], prices, cap);
      if base.None? {
        return BadSymbol;
      }
      var projected := matrix.CalculatePortfolioExposure(positions, equity, [intent], prices, cap);
      if projected.None? {
        return BadSymbol;
      }
      ghost var before, after := PositionTotals(m, positions).value, Totals(m, positions, [intent]).value;
      var breached := Breached(base.value, projected.value, cap);
      BreachedIffHarmful(m, base.value, projected.value, before, after, equity, cap);
      if breached == {} {
        return Approved;
      }
      ghost var z := AnySizing(m, positions, intent, equity, cap);
      if allowDownsizing {
        NotTheOriginal(z, m, positions, intent, before, after);
        var size := AttemptDownsize(intent, positions, equity, prices, z);
        if size.Some? {
          return Downsized(size.value);
        }
      }
      v := Rejected;
    }
  }

  /** From a portfolio within the cap, an order is harmless exactly when the result is within it. */
  lemma HarmlessIsWithin(m: Market, before: map<string, real>, after: map<string, real>, equity: real, cap: real)
    requires 0.0 < equity && WithinCap(m, before, equity, cap)
    ensures Harmless(m, before, after, equity, cap) <==> WithinCap(m, after, equity, cap)
  {
    hide ExposureOf, Abs;
  }

  /** From a portfolio within the cap the verdict is exact: the order is approved as it is when it fits
      at its own size; otherwise a size is found exactly when some whole step from 1,000 units up to
      the order's size fits. */
  lemma VerdictExact(m: Market, positions: seq<Pos>, intent: Intent, equity: real, cap: real)
    requires 0.0 < equity && PositionTotals(m, positions).Some? && PairOf(intent.symbol).Some? && 0 < intent.units
    requires WithinCap(m, PositionTotals(m, positions).value, equity, cap)
    ensures var z := SizingOf(m, positions, intent, equity, cap);
            (OrderHarmless(m, positions, intent, equity, cap) <==> Fits(z, intent.units)) &&
            (MINIMUM_TRADE_UNITS < intent.units ==>
               (Sizeable(m, positions, intent, equity, cap) <==>
                exists u :: MINIMUM_TRADE_UNITS <= u <= intent.units && u % STEP == 0 && Fits(z, u)))
  {
    hide WithinCap, Sized, PositionTotals, PairOf, IntentPrice, Totals, ProbeFits, Harmless;
    var z := SizingOf(m, positions, intent, equity, cap);
    HeldCovers(m, positions);
    ProjectedTotals(z, m, positions, intent, intent.units);
    assert intent.(units := intent.units) == intent;
    HarmlessIsWithin(m, z.held, Sized(z.held, z.pair, z.side, z.price, intent.units), equity, cap);
    if MINIMUM_TRADE_UNITS < intent.units {
      DownsizingOptimal(z, intent.units);
    }
  }

  // ---------------------------------------------------------------- from a portfolio already over the cap

  const OVER: Sizing :=
    Sizing(Market.Market("USD", map["EURUSD" := 1.0], []), Empty()["EUR" := 30000.0]["USD" := -30000.0],
           ("EUR", "USD"), Sell, 1.0, 100000.0, 0.05)

  lemma OverRates()
    ensures RateToAccount(OVER.market, "EUR") == 1.0 && RateToAccount(OVER.market, "USD") == 1.0
  {
    assert Strip("EUR") == "EUR" && Strip("USD") == "USD";
    assert Upper("EUR") == "EUR" && Upper("USD") == "USD";
    assert "EUR" + "USD" == "EURUSD";
  }

  lemma RoundWhole(n: int)
    ensures RoundHalfUp(n as real, 100.0) == n as real
  {
    var y := if n >= 0 then n else -n;
    assert HalfUp((100 * y) as real) == 100 * y;
    assert y as real * 100.0 == (100 * y) as real;
    assert (100 * y) as real / 100.0 == y as real;
  }

  lemma RoundHundredth(k: int)
    ensures RoundHalfUp(k as real / 100.0, 10_000.0) == k as real / 100.0
  {
    var y := if k >= 0 then k else -k;
    assert HalfUp((100 * y) as real) == 100 * y;
    assert y as real / 100.0 * 10_000.0 == (100 * y) as real;
  }

  /** A whole number of thousands is exposed by exactly that many percent. */
  lemma WholePercent(k: int)
    ensures Percent((1_000 * k) as real, 1.0, 100000.0) == k as real / 100.0
  {
    RoundWhole(1_000 * k);
    assert (1_000 * k) as real * 1.0 == (1_000 * k) as real;
    assert (1_000 * k) as real / 100000.0 == k as real / 100.0;
    RoundHundredth(k);
  }

  lemma OverTotals(k: int)
    requires 0 < k
    ensures var totals := Sized(OVER.held, OVER.pair, OVER.side, OVER.price, 1_000 * k);
            At(totals, "EUR") == (1_000 * (30 - k)) as real && At(totals, "USD") == (1_000 * (k - 30)) as real
  {
    hide Sized, QuoteUnits, RoundHalfUp;
    SizedAt(OVER.held, OVER.pair, OVER.side, OVER.price, 1_000 * k, "EUR");
    SizedAt(OVER.held, OVER.pair, OVER.side, OVER.price, 1_000 * k, "USD");
    var x := QuoteIs(1_000 * k, 1.0);
    RoundWhole(1_000 * k);
  }

  lemma OverOther(k: int, c: string)
    requires c != "EUR" && c != "USD"
    ensures At(Sized(OVER.held, OVER.pair, OVER.side, OVER.price, 1_000 * k), c) == 0.0
  {
    hide Sized, QuoteUnits;
    SizedAt(OVER.held, OVER.pair, OVER.side, OVER.price, 1_000 * k, c);
  }

  /** Selling `k` thousand leaves 30 - k thousand EUR against as many USD the other way. */
  lemma OverFits(k: int)
    requires 0 < k
    ensures Fits(OVER, 1_000 * k) <==> -5 <= 30 - k <= 5
  {
    hide Percent, RateToAccount, Sized, At, SUPPORTED;
    var totals := Sized(OVER.held, OVER.pair, OVER.side, OVER.price, 1_000 * k);
    SizedKeys(OVER.held, OVER.pair, OVER.side, OVER.price, 1_000 * k);
    OverRates();
    OverTotals(k);
    WholePercent(30 - k);
    WholePercent(k - 30);
    assert "EUR" in totals && "USD" in totals;
    forall c | c in totals && c != "EUR" && c != "USD"
      ensures Abs(ExposureOf(OVER.market, totals, OVER.equity, c)) == 0.0
    {
      OverOther(k, c);
      PercentZero(RateToAccount(OVER.market, c), OVER.equity);
    }
  }

  lemma OverStarts()
    ensures !StartsWithin(OVER)
  {
    hide Percent, RateToAccount;
    OverRates();
    WholePercent(30);
    assert "EUR" in OVER.held && ExposureOf(OVER.market, OVER.held, OVER.equity, "EUR") == 30.0 / 100.0;
  }

  /** A long position of 30,000 EURUSD at 1 and an order to sell 90,000. */
  ghost predicate OverOrder(p: Pos, intent: Intent) {
    && p.symbol == "EURUSD" && p.side == Buy && p.units == 30_000 && p.isOpen && p.current == 1.0
    && intent.symbol == "EURUSD" && intent.side == Sell && intent.units == 90_000 && intent.limit == None
  }

  lemma EurusdPair()
    ensures PairOf("EURUSD") == Some(("EUR", "USD"))
  {
    hide Normalize;
    EurusdIsNormal();
    assert "EURUSD"[..3] == "EUR" && "EURUSD"[3..] == "USD";
  }

  lemma EurusdKey()
    ensures RateKey("EURUSD") == "EURUSD"
  {
    hide Strip, Upper, Normalize, Without;
    EurusdIsNormal();
    WithoutNone("EURUSD", "/_");
  }

  lemma EurusdRate()
    ensures StoredRate(OVER.market.rates, "EUR" + "USD") == 1.0
  {
    hide RateKey;
    EurusdKey();
    assert "EUR" + "USD" == "EURUSD";
  }

  lemma EmptyAt(c: string)
    ensures At(Empty(), c) == 0.0
  {
    hide SUPPORTED;
  }

  lemma OverHeld(p: Pos, intent: Intent)
    requires OverOrder(p, intent)
    ensures PositionTotals(OVER.market, [p]) == Some(OVER.held)
  {
    hide PairOf, RoundHalfUp, SUPPORTED;
    EurusdPair();
    RoundWhole(30_000);
    assert 30_000 as real * 1.0 == 30_000 as real;
    assert [p][..0] == [];
    assert QuoteUnits(30_000, 1.0) == 30000.0;
    EmptyAt("EUR");
    EmptyAt("USD");
  }

  /** Position and order pose the sizing problem `OVER`. */
  lemma OverPosed(p: Pos, intent: Intent)
    requires OverOrder(p, intent)
    ensures Poses(OVER, OVER.market, [p], intent)
    ensures PairOf(intent.symbol).Some? && SizingOf(OVER.market, [p], intent, OVER.equity, OVER.cap) == OVER
  {
    hide PairOf, PositionTotals, StoredRate;
    OverHeld(p, intent);
    EurusdPair();
    EurusdRate();
  }

  lemma OverAt()
    ensures At(OVER.held, "EUR") == 30000.0
  {
  }

  /** At its own size the order turns 30 percent long into 60 percent short. */
  lemma OverHarms()
    ensures !Harmless(OVER.market, OVER.held, Sized(OVER.held, OVER.pair, OVER.side, OVER.price, 90_000),
                      OVER.equity, OVER.cap)
  {
    hide Percent, RateToAccount, Sized, At, SUPPORTED;
    var totals := Sized(OVER.held, OVER.pair, OVER.side, OVER.price, 90_000);
    SizedKeys(OVER.held, OVER.pair, OVER.side, OVER.price, 90_000);
    OverRates();
    OverTotals(90);
    WholePercent(-60);
    WholePercent(30);
    assert At(OVER.held, "EUR") == 30000.0 by { OverAt(); }
    assert "EUR" in totals && Abs(ExposureOf(OVER.market, totals, OVER.equity, "EUR")) == 60.0 / 100.0;
  }

  lemma OverProbes()
    ensures !ProbeFits(OVER, 90_000)
  {
    hide Fits;
    OverFits(45);
    OverFits(22);
    OverFits(11);
    OverFits(5);
    OverFits(2);
    OverFits(1);
    assert Midpoint(1_000, 90_000) == 45_000 && Midpoint(1_000, 44_000) == 22_000 && Midpoint(1_000, 21_000) == 11_000;
    assert Midpoint(1_000, 10_000) == 5_000 && Midpoint(1_000, 4_000) == 2_000 && Midpoint(1_000, 1_000) == 1_000;
    assert !ProbeFits(OVER, 0);
    assert !ProbeFits(OVER, 1_000);
    assert !ProbeFits(OVER, 4_000);
    assert !ProbeFits(OVER, 10_000);
    assert !ProbeFits(OVER, 21_000);
    assert !ProbeFits(OVER, 44_000);
  }

  /** An order that reduces a breach can be rejected although a smaller size would fit: with 30,000 EUR
      held against 30,000 USD, 100,000 USD of equity and a cap of 5%, selling 90,000 EUR probes 45,000,
      22,000, 11,000, 5,000, 2,000 and 1,000 units, none of which fits, while 30,000 units do. */
  lemma SizeMissed(p: Pos, intent: Intent)
    requires OverOrder(p, intent)
    ensures Poses(OVER, OVER.market, [p], intent) && !StartsWithin(OVER)
    ensures !OrderHarmless(OVER.market, [p], intent, OVER.equity, OVER.cap)
    ensures !Sizeable(OVER.market, [p], intent, OVER.equity, OVER.cap)
    ensures Fits(OVER, 30_000) && 30_000 < intent.units
  {
    hide Fits, StartsWithin, ProbeFits, Poses, PositionTotals, Sized, Harmless, Totals, PairOf, SizingOf;
    OverPosed(p, intent);
    ProjectedTotals(OVER, OVER.market, [p], intent, 90_000);
    assert intent.(units := 90_000) == intent;
    OverHarms();
    OverHeld(p, intent);
    OverProbes();
    OverStarts();
    OverFits(30);
  }
}
