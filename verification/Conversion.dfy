/** What an exposure snapshot's conversion rates are, and why the two legs of a pair in the account currency
    cancel. */
module Conversion {
  import opened Common
  import opened Domain
  import opened Symbols
  import opened Rounding
  import opened Exposure
  import opened Router

  /** The rates an exposure is converted with: the stored ones, overridden by the caller's prices. */
  function Known(m: Market): map<string, real> {
    Merged(m.rates, m.prices)
  }

  /** Price `i` is the last one given for a pair. */
  ghost predicate LastPrice(prices: seq<(string, real)>, i: nat, key: string) {
    && i < |prices| && RateKey(prices[i].0) == key
    && forall j :: i < j < |prices| ==> RateKey(prices[j].0) != key
  }

  /** A pair's rate is the last price the caller gives for it, and the stored one if there is none. */
  lemma {:induction false} KnownRates(rates: map<string, real>, prices: seq<(string, real)>, key: string)
    ensures forall i: nat :: LastPrice(prices, i, key) ==> Get(Merged(rates, prices), key) == Some(prices[i].1)
    ensures (forall i :: 0 <= i < |prices| ==> RateKey(prices[i].0) != key) ==>
              Get(Merged(rates, prices), key) == Get(rates, key)
  {
    hide RateKey;
    if prices != [] {
      var (front, last) := (prices[..|prices| - 1], prices[|prices| - 1]);
      KnownRates(rates, front, key);
      if RateKey(last.0) != key {
        assert forall i: nat :: LastPrice(prices, i, key) <==> LastPrice(front, i, key);
      }
    }
  }

  /** `x` turns an amount of one currency into the other: by the pair's own rate, or else by the inverse of a
      positive rate of the opposite pair, or else 1. */
  predicate Factor(rates: map<string, real>, from: string, to: string, x: real) {
    if from == to then x == 1.0
    else if from + to in rates then x == rates[from + to]
    else if to + from in rates && 0.0 < rates[to + from] then x * rates[to + from] == 1.0
    else x == 1.0
  }

  /** Whether a pair is quoted one way or the other, so that its factor is a market rate. */
  predicate Quoted(rates: map<string, real>, from: string, to: string) {
    from == to || from + to in rates || (to + from in rates && 0.0 < rates[to + from])
  }

  lemma Inverse(r: real)
    requires r != 0.0
    ensures 1.0 / r * r == 1.0
  {
  }

  lemma BetweenIsFactor(rates: map<string, real>, from: string, to: string)
    ensures Factor(rates, from, to, RateBetween(rates, from, to))
  {
    if to + from in rates && rates[to + from] > 0.0 {
      Inverse(rates[to + from]);
    }
  }

  lemma RateIsFactor(m: Market, c: string)
    requires Upper(Strip(c)) == c
    ensures var (rates, rate) := (Known(m), RateToAccount(m, c));
            if Quoted(rates, c, m.account) || m.account == "USD" then Factor(rates, c, m.account, rate)
            else exists x, y :: Factor(rates, c, "USD", x) && Factor(rates, "USD", m.account, y) && rate == x * y
  {
    hide Merged, Upper, Strip, Factor;
    var rates := Known(m);
    BetweenIsFactor(rates, c, m.account);
    if !Quoted(rates, c, m.account) && m.account != "USD" {
      BetweenIsFactor(rates, c, "USD");
      BetweenIsFactor(rates, "USD", m.account);
    }
  }

  lemma NearestCent(x: real)
    ensures -0.005 <= RoundHalfUp(x, 100.0) - x <= 0.005
  {
    hide RoundHalfUp;
    RoundNear(x, 100.0);
  }

  lemma NearestShare(x: real)
    ensures -0.00005 <= RoundHalfUp(x, 10_000.0) - x <= 0.00005
  {
    hide RoundHalfUp;
    RoundNear(x, 10_000.0);
  }

  lemma CentStep(raw: real, rate: real)
    ensures -0.005 <= Converted(raw, rate) - raw * rate <= 0.005
  {
    hide RoundHalfUp;
    var x := raw * rate;
    NearestCent(x);
  }

  lemma ShareStep(raw: real, rate: real, equity: real)
    requires 0.0 < equity
    ensures -0.00005 <= Percent(raw, rate, equity) - Converted(raw, rate) / equity <= 0.00005
  {
    hide RoundHalfUp, Converted;
    var x := Converted(raw, rate) / equity;
    NearestShare(x);
  }

  /** What a snapshot reports of one currency: the raw amount, its conversion to the account currency (by the
      pair with the account currency if that is quoted either way, and through USD otherwise), the converted
      amount to the nearest cent, and its share of equity to the nearest hundredth of a percent. */
  lemma ConversionExact(s: Snapshot, m: Market, totals: map<string, real>, equity: real, cap: real, c: string)
    requires 0.0 < equity && Describes(s, m, totals, equity, cap) && c in totals && Upper(Strip(c)) == c
    ensures var (d, rates) := (s.deltas[c], Known(m));
            d.raw == totals[c] &&
            (if Quoted(rates, c, m.account) || m.account == "USD" then Factor(rates, c, m.account, d.rate)
             else exists x, y :: Factor(rates, c, "USD", x) && Factor(rates, "USD", m.account, y) && d.rate == x * y) &&
            -0.005 <= d.base - d.raw * d.rate <= 0.005 &&
            -0.00005 <= d.percent - d.base / equity <= 0.00005
  {
    hide RateToAccount, Merged, Upper, Strip, Factor, Quoted, Converted, Percent, WithinCap, Abs;
    RateIsFactor(m, c);
    var d := s.deltas[c];
    assert d == DeltaOf(m, totals, equity, c) && d.raw == totals[c];
    assert d.base == Converted(d.raw, d.rate) && d.percent == Percent(d.raw, d.rate, equity);
    CentStep(d.raw, d.rate);
    ShareStep(d.raw, d.rate, equity);
  }

  // ---------------------------------------------------------------- the two legs of a pair

  lemma {:induction false} HalfUpWhole(n: int)
    ensures HalfUp(n as real) == n
  {
  }

  lemma RoundTwicePositive(x: real)
    requires 0.0 <= x
    ensures RoundHalfUp(RoundHalfUp(x, 100.0), 100.0) == RoundHalfUp(x, 100.0)
  {
    var n := HalfUp(x * 100.0);
    HalfUpMonotone(0.0, x * 100.0);
    assert n as real / 100.0 * 100.0 == n as real;
    HalfUpWhole(n);
  }

  /** A whole number of cents is not moved by rounding to cents. */
  lemma RoundTwice(x: real)
    ensures RoundHalfUp(RoundHalfUp(x, 100.0), 100.0) == RoundHalfUp(x, 100.0)
  {
    if x >= 0.0 {
      RoundTwicePositive(x);
    } else {
      RoundTwicePositive(-x);
      RoundSign(-x, 100.0);
      RoundSign(RoundHalfUp(-x, 100.0), 100.0);
      assert - -x == x;
    }
  }

  /** The position is a long or short of a pair in the account currency, priced at the pair's known rate. */
  ghost predicate AtKnownRate(m: Market, p: Pos, base: string, quote: string) {
    && p.isOpen && 0 < p.units && PairOf(p.symbol) == Some((base, quote)) && base != quote
    && Upper(Strip(base)) == base && Upper(Strip(quote)) == quote
    && base + quote in Known(m) && 0.0 < Known(m)[base + quote]
    && PositionPrice(m, p, (base, quote)) == Known(m)[base + quote]
    && (quote == m.account || (base == m.account && quote + base !in Known(m)))
  }

  lemma OneHolding(m: Market, p: Pos, base: string, quote: string)
    requires AtKnownRate(m, p, base, quote)
    ensures var (totals, price) := (PositionTotals(m, [p]), Known(m)[base + quote]);
            totals.Some? && base in totals.value && quote in totals.value &&
            totals.value[base] == LegIn((base, quote), p.side, price, p.units, base) + At(Empty(), base) &&
            totals.value[quote] == LegIn((base, quote), p.side, price, p.units, quote) + At(Empty(), quote)
  {
    hide PairOf, PositionPrice, Merged, Upper, Strip, QuoteUnits, Empty, LegIn;
    assert [p][..0] == [];
    var price := Known(m)[base + quote];
    SizedAt(Empty(), (base, quote), p.side, price, p.units, base);
    SizedAt(Empty(), (base, quote), p.side, price, p.units, quote);
  }

  lemma EmptyIsZero(c: string)
    ensures At(Empty(), c) == 0.0
  {
    hide SUPPORTED;
  }

  lemma Sided(units: int, price: real, side: Side, base: string, quote: string)
    requires base != quote
    ensures var (b, q, worth) := (LegIn((base, quote), side, price, units, base),
                                  LegIn((base, quote), side, price, units, quote), Converted(units as real, price));
            if side == Buy then b == units as real && q == -worth else b == -(units as real) && q == worth
  {
    hide RoundHalfUp;
  }

  lemma ConvertedTwice(x: real, rate: real)
    ensures Converted(Converted(x, rate), 1.0) == Converted(x, rate)
    ensures Converted(-Converted(x, rate), 1.0) == -Converted(x, rate)
    ensures Converted(-x, rate) == -Converted(x, rate)
  {
    hide RoundHalfUp;
    var y := x * rate;
    var z := RoundHalfUp(y, 100.0);
    RoundTwice(y);
    RoundSign(y, 100.0);
    RoundSign(z, 100.0);
    assert -x * rate == -y && z * 1.0 == z && -z * 1.0 == -z;
  }

  lemma AddUp(a: real, b: real, x: real, y: real, e: real)
    requires -0.005 <= a - x <= 0.005 && -0.005 <= b - y <= 0.005 && -e <= x + y <= e
    ensures Abs(a + b) <= 0.01 + e
  {
  }

  lemma BackAgain(v: real, price: real, rate: real, w: real)
    requires 0.0 < price && rate * price == 1.0 && -0.005 <= w + v * price <= 0.005
    ensures 0.0 < rate && -(0.005 * rate) <= v + w * rate <= 0.005 * rate
  {
    var e := w + v * price;
    assert rate <= 0.0 ==> rate * price <= 0.0;
    assert (v * price) * rate == v * (rate * price);
    assert v + w * rate == e * rate;
    TimesMonotone(e, 0.005, rate);
    TimesMonotone(-0.005, e, rate);
  }

  /** Converting a rounded quote leg back to the base currency is off by half a cent of each currency. */
  lemma CancelInBase(v: real, w: real, price: real, rate: real)
    requires 0.0 < price && rate * price == 1.0 && -0.005 <= w + v * price <= 0.005
    ensures Abs(Converted(v, 1.0) + Converted(w, rate)) <= 0.01 + 0.005 * rate
  {
    hide Converted;
    CentStep(v, 1.0);
    CentStep(w, rate);
    BackAgain(v, price, rate, w);
    AddUp(Converted(v, 1.0), Converted(w, rate), v, w * rate, 0.005 * rate);
  }

  lemma CancelBase(side: Side, units: int, price: real, rate: real)
    requires 0.0 < price && rate * price == 1.0
    ensures var (u, worth) := (units as real, Converted(units as real, price));
            Abs(if side == Buy then Converted(u, 1.0) + Converted(-worth, rate)
                else Converted(-u, 1.0) + Converted(worth, rate)) <= 0.01 + 0.005 * rate
  {
    hide Converted;
    var u := units as real;
    var worth := Converted(u, price);
    CentStep(u, price);
    if side == Buy {
      CancelInBase(u, -worth, price, rate);
    } else {
      assert -u * price == -(u * price);
      CancelInBase(-u, worth, price, rate);
    }
  }

  lemma RatesOfPair(m: Market, base: string, quote: string)
    requires base != quote && Upper(Strip(base)) == base && Upper(Strip(quote)) == quote
    requires base + quote in Known(m) && 0.0 < Known(m)[base + quote]
    requires quote == m.account || (base == m.account && quote + base !in Known(m))
    ensures RateToAccount(m, m.account) == 1.0 && Upper(Strip(m.account)) == m.account
    ensures quote == m.account ==> RateToAccount(m, base) == Known(m)[base + quote]
    ensures base == m.account ==> RateToAccount(m, quote) * Known(m)[base + quote] == 1.0
  {
    hide Merged, Upper, Strip;
    Inverse(Known(m)[base + quote]);
  }

  /** A position in a pair of the account currency, priced at the pair's known rate, has two converted legs that
      cancel: exactly when the account currency is quoted, and up to the cent roundings when it is the base. */
  lemma LegsCancel(s: Snapshot, m: Market, p: Pos, base: string, quote: string, equity: real, cap: real)
    requires AtKnownRate(m, p, base, quote) && PositionTotals(m, [p]).Some?
    requires 0.0 < equity && Describes(s, m, PositionTotals(m, [p]).value, equity, cap)
    ensures base in s.deltas && quote in s.deltas
    ensures quote == m.account ==> s.deltas[base].base + s.deltas[quote].base == 0.0
    ensures base == m.account ==>
              Abs(s.deltas[base].base + s.deltas[quote].base) <= 0.01 + 0.005 * s.deltas[quote].rate
  {
    hide PositionTotals, RateToAccount, LegIn, Converted, Percent, WithinCap, Abs, Merged, PairOf, PositionPrice, Upper,
         Strip;
    var totals, price := PositionTotals(m, [p]).value, Known(m)[base + quote];
    OneHolding(m, p, base, quote);
    EmptyIsZero(base);
    EmptyIsZero(quote);
    Sided(p.units, price, p.side, base, quote);
    RatesOfPair(m, base, quote);
    assert s.deltas[base] == DeltaOf(m, totals, equity, base) && s.deltas[quote] == DeltaOf(m, totals, equity, quote);
    if quote == m.account {
      ConvertedTwice(p.units as real, price);
    } else {
      CancelBase(p.side, p.units, price, RateToAccount(m, quote));
    }
  }

  // ---------------------------------------------------------------- at what price

  /** Price `i` is the last one given under this very key. */
  ghost predicate LastOffer(prices: seq<(string, real)>, i: nat, key: string) {
    i < |prices| && prices[i].0 == key && forall j :: i < j < |prices| ==> prices[j].0 != key
  }

  lemma {:induction false} OfferExact(prices: seq<(string, real)>, key: string)
    ensures forall i: nat :: LastOffer(prices, i, key) ==> PriceAt(prices, key) == Some(prices[i].1)
    ensures PriceAt(prices, key).Some? ==> exists i: nat :: LastOffer(prices, i, key)
  {
    if prices != [] {
      var (front, last) := (prices[..|prices| - 1], prices[|prices| - 1]);
      OfferExact(front, key);
      if last.0 == key {
        assert LastOffer(prices, |prices| - 1, key);
      } else {
        assert forall i: nat :: LastOffer(prices, i, key) <==> LastOffer(front, i, key);
      }
    }
  }

  /** `x` is what the caller offers for the symbol, or the fallback if nothing is offered. */
  ghost predicate OfferedOr(m: Market, symbol: string, fallback: real, x: real) {
    && (forall i: nat :: LastOffer(m.prices, i, PriceKey(symbol)) ==> x == m.prices[i].1)
    && ((forall i: nat :: !LastOffer(m.prices, i, PriceKey(symbol))) ==> x == fallback)
  }

  lemma OfferedIs(m: Market, symbol: string, fallback: real)
    ensures var offer := PriceAt(m.prices, PriceKey(symbol));
            OfferedOr(m, symbol, fallback, if offer.Some? then offer.value else fallback)
  {
    hide PriceAt, PriceKey, LastOffer;
    OfferExact(m.prices, PriceKey(symbol));
  }

  /** `x` is the stored rate of a pair, the inverse of a positive stored rate of the opposite pair, or 1. */
  predicate Stored(rates: map<string, real>, base: string, quote: string, x: real) {
    var key := RateKey(base + quote);
    if key in rates then x == rates[key]
    else if |key| == 6 && key[3..] + key[..3] in rates && 0.0 < rates[key[3..] + key[..3]]
    then x * rates[key[3..] + key[..3]] == 1.0
    else x == 1.0
  }

  lemma StoredIs(rates: map<string, real>, base: string, quote: string)
    ensures Stored(rates, base, quote, StoredRate(rates, base + quote))
  {
    hide RateKey;
    var key := RateKey(base + quote);
    if |key| == 6 && key[3..] + key[..3] in rates && rates[key[3..] + key[..3]] > 0.0 {
      Inverse(rates[key[3..] + key[..3]]);
    }
  }

  /** A position is priced at the caller's offer or its current price if that is positive, or else at its entry
      price if that is, or else at the stored rate. */
  lemma PositionPriceMeans(m: Market, p: Pos, pair: (string, string)) returns (x: real)
    ensures OfferedOr(m, p.symbol, p.current, x)
    ensures var price := PositionPrice(m, p, pair);
            if 0.0 < x then price == x
            else if 0.0 < p.averageEntry then price == p.averageEntry
            else Stored(m.rates, pair.0, pair.1, price)
  {
    hide PriceAt, PriceKey, StoredRate, Stored, OfferedOr;
    OfferedIs(m, p.symbol, p.current);
    StoredIs(m.rates, pair.0, pair.1);
    var offer := PriceAt(m.prices, PriceKey(p.symbol));
    x := if offer.Some? then offer.value else p.current;
  }

  /** An order is priced at the caller's offer or its limit (one of 0 counts as none) if that is positive, and
      else at the stored rate. */
  lemma IntentPriceMeans(m: Market, i: Intent, pair: (string, string)) returns (x: real)
    ensures OfferedOr(m, i.symbol, if i.limit.Some? && i.limit.value != 0.0 then i.limit.value else 0.0, x)
    ensures var price := IntentPrice(m, i, pair);
            if 0.0 < x then price == x else Stored(m.rates, pair.0, pair.1, price)
  {
    hide PriceAt, PriceKey, StoredRate, Stored, OfferedOr;
    var limit := if i.limit.Some? && i.limit.value != 0.0 then i.limit.value else 0.0;
    OfferedIs(m, i.symbol, limit);
    StoredIs(m.rates, pair.0, pair.1);
    var offer := PriceAt(m.prices, PriceKey(i.symbol));
    x := if offer.Some? then offer.value else limit;
  }
}
