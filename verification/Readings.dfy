/** What a published snapshot says, in prices and positions, for every candle list. */
module Readings {
  import opened Common
  import opened MarketStructure
  import opened Zones
  import opened Snapshots
  import Text

  // ---------------------------------------------------------------- lists

  lemma {:induction false} FilterSingle<T(!new)>(s: seq<T>, p: T -> bool) returns (i: nat)
    requires |Filter(s, p)| == 1
    ensures i < |s| && p(s[i]) && Filter(s, p) == [s[i]]
    ensures forall j :: 0 <= j < |s| && p(s[j]) ==> j == i
  {
    if p(s[0]) {
      i := 0;
      assert Filter(s[1..], p) == [];
      forall j | 0 < j < |s| ensures !p(s[j]) {
        assert s[j] in s[1..];
      }
    } else {
      assert Filter(s, p) == Filter(s[1..], p);
      var k := FilterSingle(s[1..], p);
      i := k + 1;
      assert forall j :: 0 < j < |s| ==> s[j] == s[1..][j - 1];
    }
  }

  lemma {:induction false} NoneFiltered<T(!new)>(s: seq<T>, p: T -> bool)
    requires forall j :: 0 <= j < |s| ==> !p(s[j])
    ensures Filter(s, p) == []
  {
    if s != [] {
      NoneFiltered(s[1..], p);
    }
  }

  lemma {:induction false} FilterUnique<T(!new)>(s: seq<T>, p: T -> bool, i: nat)
    requires i < |s| && p(s[i]) && forall j :: 0 <= j < |s| && p(s[j]) ==> j == i
    ensures Filter(s, p) == [s[i]]
  {
    if i == 0 {
      NoneFiltered(s[1..], p);
    } else {
      FilterUnique(s[1..], p, i - 1);
    }
  }

  lemma {:induction false} ReversedAt<T>(s: seq<T>, k: nat)
    requires k < |s|
    ensures |Reversed(s)| == |s| && Reversed(s)[k] == s[|s| - 1 - k]
  {
    if |s| > 1 {
      ReversedAt(s[1..], if k < |s| - 1 then k else 0);
    }
  }

  lemma ReversedLength<T>(s: seq<T>)
    ensures |Reversed(s)| == |s|
  {
    if s != [] {
      ReversedAt(s, 0);
    }
  }

  // ---------------------------------------------------------------- structural ranges

  /** Opposing swings whose high lies above its low. */
  predicate Opposed(a: Swing, b: Swing) {
    a.kind != b.kind && if a.kind == High then b.price < a.price else a.price < b.price
  }

  /** The range runs from the low of the two swings to the high. */
  predicate Spans(r: StructuralRange, a: Swing, b: Swing) {
    if a.kind == High then r == StructuralRange(b.price, a.price, b.index, a.index)
    else r == StructuralRange(a.price, b.price, a.index, b.index)
  }

  /** Neighbouring swings `i - 1` and `i` are opposed. */
  predicate OpposedAt(swings: seq<Swing>, i: nat) {
    0 < i < |swings| && Opposed(swings[i - 1], swings[i])
  }

  ghost predicate SpanAt(ranges: seq<StructuralRange>, swings: seq<Swing>, k: nat, i: nat) {
    k < |ranges| && 0 < i < |swings| && Spans(ranges[k], swings[i - 1], swings[i])
  }

  /** The ranges are those of the neighbouring opposed swings, each once and in order. */
  ghost predicate RangesAt(ranges: seq<StructuralRange>, swings: seq<Swing>, at: seq<nat>) {
    && |at| == |ranges|
    && (forall k: nat :: k < |at| ==> OpposedAt(swings, at[k]) && SpanAt(ranges, swings, k, at[k]))
    && (forall j, k :: 0 <= j < k < |at| ==> at[j] < at[k])
    && (forall i: nat :: OpposedAt(swings, i) ==> i in at)
  }

  lemma RangesStep(swings: seq<Swing>)
    requires |swings| >= 2
    ensures var (front, a, b) := (swings[..|swings| - 1], swings[|swings| - 2], swings[|swings| - 1]);
            if Opposed(a, b)
            then exists r :: Spans(r, a, b) && RangesOf(swings) == RangesOf(front) + [r]
            else RangesOf(swings) == RangesOf(front)
  {
    var a, b := swings[|swings| - 2], swings[|swings| - 1];
    if Opposed(a, b) {
      assert Spans(RangeBetween(a, b).value, a, b);
    }
  }

  lemma OpposedAppend(swings: seq<Swing>, b: Swing)
    requires swings != []
    ensures forall i: nat :: i != |swings| ==> (OpposedAt(swings + [b], i) <==> OpposedAt(swings, i))
    ensures OpposedAt(swings + [b], |swings|) <==> Opposed(swings[|swings| - 1], b)
  {
    hide Opposed;
  }

  lemma SpanAppend(ranges: seq<StructuralRange>, more: seq<StructuralRange>, swings: seq<Swing>, b: Swing)
    ensures forall k: nat, i: nat :: SpanAt(ranges, swings, k, i) ==> SpanAt(ranges + more, swings + [b], k, i)
  {
    hide Spans;
  }

  lemma SpanLast(ranges: seq<StructuralRange>, r: StructuralRange, swings: seq<Swing>, b: Swing)
    requires swings != [] && Spans(r, swings[|swings| - 1], b)
    ensures SpanAt(ranges + [r], swings + [b], |ranges|, |swings|)
  {
    hide Spans;
  }

  lemma Inside(ranges: seq<StructuralRange>, swings: seq<Swing>, at: seq<nat>)
    requires RangesAt(ranges, swings, at)
    ensures forall k: nat :: k < |at| ==> at[k] < |swings|
  {
    forall k: nat | k < |at| ensures at[k] < |swings| {
      assert OpposedAt(swings, at[k]);
    }
  }

  lemma RangesAtMore(ranges: seq<StructuralRange>, swings: seq<Swing>, at: seq<nat>, b: Swing, r: StructuralRange)
    requires swings != [] && RangesAt(ranges, swings, at)
    requires Opposed(swings[|swings| - 1], b) && Spans(r, swings[|swings| - 1], b)
    ensures RangesAt(ranges + [r], swings + [b], at + [|swings|])
  {
    hide OpposedAt, SpanAt, Opposed, Spans;
    OpposedAppend(swings, b);
    SpanAppend(ranges, [r], swings, b);
    SpanLast(ranges, r, swings, b);
    Inside(ranges, swings, at);
    var more := at + [|swings|];
    forall k: nat | k < |more|
      ensures OpposedAt(swings + [b], more[k]) && SpanAt(ranges + [r], swings + [b], k, more[k])
    {
      if k < |at| {
        assert more[k] == at[k] && at[k] != |swings|;
      }
    }
    forall i: nat | OpposedAt(swings + [b], i) ensures i in more {
      assert i == |swings| || i in at;
    }
  }

  lemma RangesAtSame(ranges: seq<StructuralRange>, swings: seq<Swing>, at: seq<nat>, b: Swing)
    requires swings != [] && RangesAt(ranges, swings, at) && !Opposed(swings[|swings| - 1], b)
    ensures RangesAt(ranges, swings + [b], at)
  {
    hide OpposedAt, SpanAt, Opposed;
    OpposedAppend(swings, b);
    SpanAppend(ranges, [], swings, b);
    assert ranges + [] == ranges;
    Inside(ranges, swings, at);
  }

  lemma NoRanges(swings: seq<Swing>)
    requires |swings| < 2
    ensures RangesAt(RangesOf(swings), swings, [])
  {
  }

  lemma {:induction false} RangesExact(swings: seq<Swing>) returns (at: seq<nat>)
    ensures RangesAt(RangesOf(swings), swings, at)
  {
    hide RangesOf, RangesAt, Spans;
    if |swings| < 2 {
      at := [];
      NoRanges(swings);
    } else {
      var n := |swings| - 1;
      var (front, a, b) := (swings[..n], swings[n - 1], swings[n]);
      var before := RangesExact(front);
      RangesStep(swings);
      assert swings == front + [b] && front[|front| - 1] == a;
      if Opposed(a, b) {
        var r :| Spans(r, a, b) && RangesOf(swings) == RangesOf(front) + [r];
        RangesAtMore(RangesOf(front), front, before, b, r);
        at := before + [n];
      } else {
        RangesAtSame(RangesOf(front), front, before, b);
        at := before;
      }
    }
  }

  /** Range `i` is one of the last three and contains the price. */
  predicate Around(ranges: seq<StructuralRange>, i: nat, price: real) {
    |ranges| - 3 <= i < |ranges| && ranges[i].low <= price <= ranges[i].high
  }

  /** Among the last three ranges, only range `i` contains the price. */
  ghost predicate OnlyAround(ranges: seq<StructuralRange>, i: nat, price: real) {
    Around(ranges, i, price) && forall j: nat :: Around(ranges, j, price) ==> j == i
  }

  /** Two of the last three ranges contain the price and are not the same price range. */
  ghost predicate TwoAround(ranges: seq<StructuralRange>, price: real) {
    exists i: nat, j: nat :: Around(ranges, i, price) && Around(ranges, j, price) &&
                             (ranges[i].low != ranges[j].low || ranges[i].high != ranges[j].high)
  }

  lemma LatestAt(ranges: seq<StructuralRange>, k: nat)
    requires k < |Reversed(TakeLast(ranges, 3))|
    ensures k < |ranges| && k < 3 && Reversed(TakeLast(ranges, 3))[k] == ranges[|ranges| - 1 - k]
  {
    ReversedLength(TakeLast(ranges, 3));
    ReversedAt(TakeLast(ranges, 3), k);
  }

  lemma LatestCount(ranges: seq<StructuralRange>)
    ensures |Reversed(TakeLast(ranges, 3))| == if |ranges| < 3 then |ranges| else 3
  {
    ReversedLength(TakeLast(ranges, 3));
  }

  lemma OneOfLatest(ranges: seq<StructuralRange>, i: nat, price: real)
    requires OnlyAround(ranges, i, price)
    ensures Filter(Reversed(TakeLast(ranges, 3)), (r: StructuralRange) => Contains(r, price)) == [ranges[i]]
  {
    hide Reversed, TakeLast, Filter;
    var latest := Reversed(TakeLast(ranges, 3));
    var p := (r: StructuralRange) => Contains(r, price);
    LatestCount(ranges);
    LatestAt(ranges, |ranges| - 1 - i);
    forall k | 0 <= k < |latest| && p(latest[k]) ensures k == |ranges| - 1 - i {
      LatestAt(ranges, k);
      assert Around(ranges, |ranges| - 1 - k, price);
    }
    FilterUnique(latest, p, |ranges| - 1 - i);
  }

  lemma FoundOnly(ranges: seq<StructuralRange>, k: nat, price: real)
    requires var latest := Reversed(TakeLast(ranges, 3));
             k < |latest| && Contains(latest[k], price) &&
             forall j :: 0 <= j < |latest| && Contains(latest[j], price) ==> j == k
    ensures k < |ranges| && OnlyAround(ranges, |ranges| - 1 - k, price)
  {
    hide Reversed, TakeLast;
    var n := |ranges| - 1;
    LatestCount(ranges);
    LatestAt(ranges, k);
    forall j: nat | Around(ranges, j, price) ensures j == n - k {
      LatestAt(ranges, n - j);
    }
  }

  /** The range selected is the only one of the last three around the price, and else the latest. */
  lemma SelectedExact(ranges: seq<StructuralRange>, price: real)
    ensures var selected := SelectRange(Reversed(TakeLast(ranges, 3)), price);
            (selected.None? <==> ranges == []) &&
            (forall i: nat :: OnlyAround(ranges, i, price) ==> selected == Some(ranges[i])) &&
            (ranges != [] && (forall i: nat :: !OnlyAround(ranges, i, price)) ==>
               selected == Some(ranges[|ranges| - 1]))
  {
    hide Reversed, TakeLast, Filter;
    var latest, n := Reversed(TakeLast(ranges, 3)), |ranges| - 1;
    var p := (r: StructuralRange) => Contains(r, price);
    LatestCount(ranges);
    forall k | 0 <= k < |latest| ensures latest[k] == ranges[n - k] {
      LatestAt(ranges, k);
    }
    forall i: nat | OnlyAround(ranges, i, price) ensures Filter(latest, p) == [ranges[i]] {
      OneOfLatest(ranges, i, price);
    }
    if |Filter(latest, p)| == 1 {
      var k := FilterSingle(latest, p);
      FoundOnly(ranges, k, price);
    }
  }

  /** The list is the last three ranges, the latest first. */
  ghost predicate LatestThree(latest: seq<StructuralRange>, ranges: seq<StructuralRange>) {
    && |latest| == (if |ranges| < 3 then |ranges| else 3)
    && forall k :: 0 <= k < |latest| ==> latest[k] == ranges[|ranges| - 1 - k]
  }

  lemma LatestAre(ranges: seq<StructuralRange>)
    ensures LatestThree(Reversed(TakeLast(ranges, 3)), ranges)
  {
    hide Reversed, TakeLast;
    LatestCount(ranges);
    forall k: nat | k < |Reversed(TakeLast(ranges, 3))|
      ensures Reversed(TakeLast(ranges, 3))[k] == ranges[|ranges| - 1 - k]
    {
      LatestAt(ranges, k);
    }
  }

  lemma PairMakesAmbiguous(latest: seq<StructuralRange>, ranges: seq<StructuralRange>, i: nat, j: nat, price: real)
    requires LatestThree(latest, ranges) && i < j && Around(ranges, i, price) && Around(ranges, j, price)
    requires ranges[i].low != ranges[j].low || ranges[i].high != ranges[j].high
    ensures Ambiguous(latest, price)
  {
    var a, b := |ranges| - 1 - j, |ranges| - 1 - i;
    assert 0 <= a < b < |latest| && Contains(latest[a], price) && Contains(latest[b], price);
  }

  lemma TwoMakeAmbiguous(latest: seq<StructuralRange>, ranges: seq<StructuralRange>, price: real)
    requires LatestThree(latest, ranges) && TwoAround(ranges, price)
    ensures Ambiguous(latest, price)
  {
    hide LatestThree, Ambiguous;
    var i: nat, j: nat :| Around(ranges, i, price) && Around(ranges, j, price) &&
                          (ranges[i].low != ranges[j].low || ranges[i].high != ranges[j].high);
    if i < j {
      PairMakesAmbiguous(latest, ranges, i, j, price);
    } else {
      PairMakesAmbiguous(latest, ranges, j, i, price);
    }
  }

  lemma AmbiguousMeansTwo(latest: seq<StructuralRange>, ranges: seq<StructuralRange>, price: real)
    requires LatestThree(latest, ranges) && Ambiguous(latest, price)
    ensures TwoAround(ranges, price)
  {
    var n := |ranges| - 1;
    var a, b :| 0 <= a < b < |latest| && Contains(latest[a], price) && Contains(latest[b], price) &&
                (latest[a].low, latest[a].high) != (latest[b].low, latest[b].high);
    assert Around(ranges, n - a, price) && Around(ranges, n - b, price);
  }

  lemma AmbiguousExact(ranges: seq<StructuralRange>, price: real)
    ensures Ambiguous(Reversed(TakeLast(ranges, 3)), price) <==> TwoAround(ranges, price)
  {
    hide Reversed, TakeLast, LatestThree, Ambiguous, TwoAround;
    var latest := Reversed(TakeLast(ranges, 3));
    LatestAre(ranges);
    if TwoAround(ranges, price) {
      TwoMakeAmbiguous(latest, ranges, price);
    }
    if Ambiguous(latest, price) {
      AmbiguousMeansTwo(latest, ranges, price);
    }
  }

  // ---------------------------------------------------------------- where the close lies

  lemma SelectedIn(ranges: seq<StructuralRange>, close: real)
    ensures var r := SelectRange(Reversed(TakeLast(ranges, 3)), close); r.Some? ==> r.value in ranges
  {
    hide SelectRange;
    SelectedExact(ranges, close);
  }

  lemma RangeUpright(ranges: seq<StructuralRange>, swings: seq<Swing>, at: seq<nat>, r: StructuralRange)
    requires RangesAt(ranges, swings, at) && r in ranges
    ensures r.low < r.high
  {
    var k :| 0 <= k < |ranges| && ranges[k] == r;
    assert OpposedAt(swings, at[k]) && SpanAt(ranges, swings, k, at[k]);
  }

  lemma ShareOf(x: real, d: real)
    requires 0.0 < d
    ensures x / d * d == x
    ensures x / d > 0.5 <==> 2.0 * x > d
    ensures x / d < 0.5 <==> 2.0 * x < d
  {
    var q := x / d;
    assert q * d == x;
    if q > 0.5 {
      assert (q - 0.5) * d > 0.0;
    } else if q < 0.5 {
      assert (0.5 - q) * d > 0.0;
    }
  }

  lemma HalfOf(range: Option<StructuralRange>, close: real)
    requires range.Some? ==> range.value.low < range.value.high
    ensures var (location, ratio) := LocationOf(range, close);
            (location == Location.Unknown <==> range.None?) &&
            (location == Premium <==> range.Some? && 2.0 * close > range.value.low + range.value.high) &&
            (location == Discount <==> range.Some? && 2.0 * close < range.value.low + range.value.high) &&
            (location == Equilibrium <==> range.Some? && 2.0 * close == range.value.low + range.value.high) &&
            (ratio.Some? <==> range.Some?) &&
            (range.Some? ==> ratio.value * (range.value.high - range.value.low) == close - range.value.low)
  {
    if range.Some? {
      var (x, d) := (close - range.value.low, range.value.high - range.value.low);
      ShareOf(x, d);
    }
  }

  lemma SnapshotParts(bars: seq<Bar>, lookback: nat, detect: PoolDetector)
    requires bars != []
    ensures var (s, swings, breaks) := (SnapshotAfter(bars, lookback, detect), DetectSwings(bars, lookback),
                                        BreakLog(bars, lookback));
            s.bar == bars[|bars| - 1] && s.barIndex == |bars| - 1 && s.reading == ReadingAfter(bars, lookback) &&
            s.swings == TakeLast(swings, TAIL) && s.breaks == TakeLast(breaks, TAIL) &&
            s.swingState == SwingStateOf(OfKind(swings, High), OfKind(swings, Low)) &&
            s.keyLevels == LevelsOf(TakeLast(swings, KEY_LEVELS), WeakSwings(breaks), ProtectedSwings(bars, lookback))
  {
    hide ReadingAfter, DetectSwings, BreakLog, OfKind, TakeLast, LevelsOf, ProtectedSwings, DurationAfter, Changes,
         ZoneIdsAfter, BookAfter, SwingStateOf, WeakSwings, ZonesFor;
  }

  lemma ReadingParts(bars: seq<Bar>, lookback: nat)
    requires bars != []
    ensures var (r, close) := (ReadingAfter(bars, lookback), bars[|bars| - 1].close);
            var swings := DetectSwings(bars, lookback);
            var (highs, lows, latest) :=
              (OfKind(swings, High), OfKind(swings, Low), Reversed(TakeLast(RangesOf(swings), 3)));
            r.range == SelectRange(latest, close) && (r.location, r.ratio) == LocationOf(r.range, close) &&
            r.ambiguous == Ambiguous(latest, close) && r.candidates == |latest| &&
            r.trend == TrendOf(BreakLog(bars, lookback), SwingTrend(highs, lows)) &&
            r.phase == PhaseOf(r.trend, close, highs, lows)
  {
    hide DetectSwings, BreakLog, OfKind, TakeLast, Reversed, RangesOf, SelectRange, LocationOf, Ambiguous, TrendOf,
         SwingTrend, PhaseOf;
  }

  /** The range of any snapshot is the only one of the last three around the close, or else the latest;
      it is ambiguous when two different price ranges among the three contain the close. */
  lemma RangeMeans(bars: seq<Bar>, lookback: nat, detect: PoolDetector)
    requires bars != []
    ensures var (reading, close) := (SnapshotAfter(bars, lookback, detect).reading, bars[|bars| - 1].close);
            var ranges := RangesOf(DetectSwings(bars, lookback));
            (reading.range.None? <==> ranges == []) &&
            (forall i: nat :: OnlyAround(ranges, i, close) ==> reading.range == Some(ranges[i])) &&
            (ranges != [] && (forall i: nat :: !OnlyAround(ranges, i, close)) ==>
               reading.range == Some(ranges[|ranges| - 1])) &&
            (reading.ambiguous <==> TwoAround(ranges, close)) &&
            reading.candidates == (if |ranges| < 3 then |ranges| else 3)
  {
    hide SnapshotAfter, ReadingAfter, DetectSwings, RangesOf, SelectRange, Ambiguous, Reversed, TakeLast, OnlyAround,
         TwoAround, LocationOf, PhaseOf, TrendOf, BreakLog, OfKind, SwingTrend;
    var ranges, close := RangesOf(DetectSwings(bars, lookback)), bars[|bars| - 1].close;
    SnapshotParts(bars, lookback, detect);
    ReadingParts(bars, lookback);
    SelectedExact(ranges, close);
    AmbiguousExact(ranges, close);
    LatestCount(ranges);
  }

  /** The location of any snapshot: the close is in the upper half of the range (premium), in the lower half
      (discount) or at its middle, unknown without a range; the ratio is its share of the way up. */
  lemma LocationMeans(bars: seq<Bar>, lookback: nat, detect: PoolDetector)
    requires bars != []
    ensures var (close, reading) := (bars[|bars| - 1].close, SnapshotAfter(bars, lookback, detect).reading);
            var (range, location, ratio) := (reading.range, reading.location, reading.ratio);
            (location == Location.Unknown <==> range.None?) &&
            (location == Premium <==> range.Some? && 2.0 * close > range.value.low + range.value.high) &&
            (location == Discount <==> range.Some? && 2.0 * close < range.value.low + range.value.high) &&
            (location == Equilibrium <==> range.Some? && 2.0 * close == range.value.low + range.value.high) &&
            (ratio.Some? <==> range.Some?) &&
            (range.Some? ==> range.value.low < range.value.high &&
                             ratio.value * (range.value.high - range.value.low) == close - range.value.low)
  {
    hide SnapshotAfter, ReadingAfter, DetectSwings, RangesOf, SelectRange, Ambiguous, Reversed, TakeLast, LocationOf,
         PhaseOf, TrendOf, BreakLog, OfKind, SwingTrend, RangesAt;
    var ranges, close := RangesOf(DetectSwings(bars, lookback)), bars[|bars| - 1].close;
    SnapshotParts(bars, lookback, detect);
    ReadingParts(bars, lookback);
    var range := SelectRange(Reversed(TakeLast(ranges, 3)), close);
    SelectedIn(ranges, close);
    var at := RangesExact(DetectSwings(bars, lookback));
    if range.Some? {
      RangeUpright(ranges, DetectSwings(bars, lookback), at, range.value);
    }
    HalfOf(range, close);
  }

  // ---------------------------------------------------------------- trend and phase

  /** Swing `i` is the latest of its kind. */
  ghost predicate LatestOfKind(swings: seq<Swing>, i: nat, kind: SwingType) {
    i < |swings| && swings[i].kind == kind && forall j :: i < j < |swings| ==> swings[j].kind != kind
  }

  lemma {:induction false} LastOfKind(swings: seq<Swing>, kind: SwingType)
    ensures var side := OfKind(swings, kind);
            (side == [] <==> forall i :: 0 <= i < |swings| ==> swings[i].kind != kind) &&
            (forall i: nat :: LatestOfKind(swings, i, kind) ==> side != [] && side[|side| - 1] == swings[i]) &&
            (side != [] ==> exists i: nat :: LatestOfKind(swings, i, kind))
  {
    if swings != [] {
      var (front, last) := (swings[..|swings| - 1], swings[|swings| - 1]);
      LastOfKind(front, kind);
      assert swings == front + [last];
      OfKindAppend(front, last, kind);
      if last.kind == kind {
        assert LatestOfKind(swings, |swings| - 1, kind);
      } else {
        assert forall i: nat :: LatestOfKind(swings, i, kind) <==> LatestOfKind(front, i, kind);
      }
    }
  }

  /** The phase of any snapshot: continuation exactly when the trend is up and the close at or above the
      latest swing high, or down and the close at or below the latest swing low. */
  lemma PhaseMeans(bars: seq<Bar>, lookback: nat, detect: PoolDetector)
    requires bars != []
    ensures var (reading, swings) := (SnapshotAfter(bars, lookback, detect).reading, DetectSwings(bars, lookback));
            var close := bars[|bars| - 1].close;
            reading.phase == Continuation <==>
            (reading.trend > 0 && exists i: nat :: LatestOfKind(swings, i, High) && swings[i].price <= close) ||
            (reading.trend < 0 && exists i: nat :: LatestOfKind(swings, i, Low) && close <= swings[i].price)
  {
    hide SnapshotAfter, ReadingAfter, DetectSwings, RangesOf, SelectRange, Ambiguous, Reversed, TakeLast, LocationOf,
         TrendOf, BreakLog, OfKind, SwingTrend, LatestOfKind;
    SnapshotParts(bars, lookback, detect);
    ReadingParts(bars, lookback);
    LastOfKind(DetectSwings(bars, lookback), High);
    LastOfKind(DetectSwings(bars, lookback), Low);
  }

  /** The last two swings of each kind rise (or, with `up` false, fall). */
  predicate BothMove(highs: seq<Swing>, lows: seq<Swing>, up: bool) {
    && 2 <= |highs| && 2 <= |lows|
    && if up then highs[|highs| - 2].price < highs[|highs| - 1].price && lows[|lows| - 2].price < lows[|lows| - 1].price
       else highs[|highs| - 1].price < highs[|highs| - 2].price && lows[|lows| - 1].price < lows[|lows| - 2].price
  }

  lemma TrendIs(breaks: seq<StructureBreak>, highs: seq<Swing>, lows: seq<Swing>)
    ensures var trend := TrendOf(breaks, SwingTrend(highs, lows));
            (breaks != [] ==> trend == breaks[|breaks| - 1].direction) &&
            (breaks == [] ==> (trend == 1 <==> BothMove(highs, lows, true)) &&
                              (trend == -1 <==> BothMove(highs, lows, false)) && -1 <= trend <= 1)
  {
  }

  lemma SwingStateIs(highs: seq<Swing>, lows: seq<Swing>)
    ensures var state := SwingStateOf(highs, lows);
            (state == InsufficientSwings <==> |highs| < 2 || |lows| < 2) &&
            (state == RisingSwings <==> BothMove(highs, lows, true)) &&
            (state == FallingSwings <==> BothMove(highs, lows, false))
  {
  }

  /** The trend of any snapshot is the direction of the latest break; before any break it is that of the last
      two highs and lows, if they agree. The swing state says whether they do. */
  lemma TrendMeans(bars: seq<Bar>, lookback: nat, detect: PoolDetector)
    requires bars != []
    ensures var (s, breaks, swings) := (SnapshotAfter(bars, lookback, detect), BreakLog(bars, lookback),
                                        DetectSwings(bars, lookback));
            var (highs, lows) := (OfKind(swings, High), OfKind(swings, Low));
            (breaks != [] ==> s.reading.trend == breaks[|breaks| - 1].direction) &&
            (breaks == [] ==> (s.reading.trend == 1 <==> BothMove(highs, lows, true)) &&
                              (s.reading.trend == -1 <==> BothMove(highs, lows, false)) &&
                              -1 <= s.reading.trend <= 1) &&
            (s.swingState == InsufficientSwings <==> |highs| < 2 || |lows| < 2) &&
            (s.swingState == RisingSwings <==> BothMove(highs, lows, true)) &&
            (s.swingState == FallingSwings <==> BothMove(highs, lows, false))
  {
    hide SnapshotAfter, ReadingAfter, DetectSwings, RangesOf, SelectRange, Ambiguous, Reversed, TakeLast, LocationOf,
         PhaseOf, BreakLog, OfKind, TrendOf, SwingTrend, SwingStateOf, BothMove;
    var highs, lows := OfKind(DetectSwings(bars, lookback), High), OfKind(DetectSwings(bars, lookback), Low);
    SnapshotParts(bars, lookback, detect);
    ReadingParts(bars, lookback);
    TrendIs(BreakLog(bars, lookback), highs, lows);
    SwingStateIs(highs, lows);
  }

  // ---------------------------------------------------------------- key levels

  /** A break in `direction` on the last bar starts from swing `i`: the latest low for a break upward, the
      latest high for one downward. */
  ghost predicate StartsFrom(bars: seq<Bar>, lookback: nat, i: nat, direction: int) {
    var swings := DetectSwings(bars, lookback);
    exists k: nat :: LatestOfKind(swings, k, if direction > 0 then Low else High) && swings[k].index == i
  }

  /** Some BOS up to the last bar started from swing `i`, read off at its own bar. */
  ghost predicate StartedBos(bars: seq<Bar>, lookback: nat, i: nat) {
    exists m, b :: 0 < m <= |bars| && b in BreaksAtEnd(bars[..m], lookback) && b.kind == Bos &&
                   StartsFrom(bars[..m], lookback, i, b.direction)
  }

  lemma {:induction false} OriginsExact(breaks: seq<StructureBreak>, bars: seq<Bar>, lookback: nat, i: nat)
    ensures var swings := DetectSwings(bars, lookback);
            i in OriginsOf(breaks, OfKind(swings, High), OfKind(swings, Low)) <==>
            exists b :: b in breaks && b.kind == Bos && StartsFrom(bars, lookback, i, b.direction)
  {
    hide DetectSwings, OfKind, LatestOfKind;
    if breaks != [] {
      var (front, last) := (breaks[..|breaks| - 1], breaks[|breaks| - 1]);
      OriginsExact(front, bars, lookback, i);
      LastOfKind(DetectSwings(bars, lookback), High);
      LastOfKind(DetectSwings(bars, lookback), Low);
      assert breaks == front + [last];
      assert forall b :: b in breaks <==> b in front || b == last;
    }
  }

  /** The protected swings are exactly those some BOS started from. */
  lemma {:induction false} ProtectedExact(bars: seq<Bar>, lookback: nat, i: nat)
    ensures i in ProtectedSwings(bars, lookback) <==> StartedBos(bars, lookback, i)
  {
    hide DetectSwings, OfKind, BreaksAtEnd, OriginsOf, StartsFrom;
    if bars != [] {
      var front := bars[..|bars| - 1];
      ProtectedExact(front, lookback, i);
      OriginsExact(BreaksAtEnd(bars, lookback), bars, lookback, i);
      assert bars[..|bars|] == bars;
      assert forall m :: 0 < m <= |front| ==> front[..m] == bars[..m];
    }
  }

  lemma {:induction false} LevelsAt(swings: seq<Swing>, weak: set<nat>, protected: set<nat>, k: nat)
    requires k < |swings|
    ensures |LevelsOf(swings, weak, protected)| == |swings|
    ensures var level := LevelsOf(swings, weak, protected)[k];
            level.index == swings[k].index && level.kind == swings[k].kind && level.price == swings[k].price &&
            (level.isWeak <==> swings[k].index in weak) && (level.isProtected <==> swings[k].index in protected)
  {
    if |swings| > 1 {
      LevelsAt(swings[1..], weak, protected, if k == 0 then 0 else k - 1);
    }
  }

  lemma LevelsLength(swings: seq<Swing>, weak: set<nat>, protected: set<nat>)
    ensures |LevelsOf(swings, weak, protected)| == |swings|
  {
    if swings != [] {
      LevelsAt(swings, weak, protected, 0);
    }
  }

  /** The key levels of any snapshot are its last eight swings, in order: weak once a BOS broke them,
      protected once one started from them. */
  lemma LevelsMean(bars: seq<Bar>, lookback: nat, detect: PoolDetector, k: nat)
    requires bars != []
    ensures var (levels, swings) := (SnapshotAfter(bars, lookback, detect).keyLevels, DetectSwings(bars, lookback));
            |levels| == (if |swings| < 8 then |swings| else 8) &&
            (k < |levels| ==>
               var (level, swing) := (levels[k], swings[|swings| - |levels| + k]);
               level.index == swing.index && level.kind == swing.kind && level.price == swing.price &&
               (level.isWeak <==>
                exists b :: b in BreakLog(bars, lookback) && b.kind == Bos && b.swingIndex == swing.index) &&
               (level.isProtected <==> StartedBos(bars, lookback, swing.index)))
  {
    hide SnapshotAfter, ReadingAfter, DetectSwings, BreakLog, OfKind, LevelsOf, ProtectedSwings, SwingStateOf,
         StartedBos;
    var swings := DetectSwings(bars, lookback);
    var last := TakeLast(swings, 8);
    var weak, protected := WeakSwings(BreakLog(bars, lookback)), ProtectedSwings(bars, lookback);
    SnapshotParts(bars, lookback, detect);
    LevelsLength(last, weak, protected);
    if k < |last| {
      LevelsAt(last, weak, protected, k);
      ProtectedExact(bars, lookback, last[k].index);
    }
  }

  /** The list is the end of the other, at most `n` long. */
  ghost predicate EndOf<T(!new)>(kept: seq<T>, all: seq<T>, n: nat) {
    && |kept| == (if |all| < n then |all| else n)
    && forall k :: 0 <= k < |kept| ==> kept[k] == all[|all| - |kept| + k]
  }

  lemma TakenIsEnd<T(!new)>(all: seq<T>, n: nat)
    ensures EndOf(TakeLast(all, n), all, n)
  {
  }

  /** Any snapshot is of its own last candle and lists the last 24 swings and the last 24 breaks. */
  lemma TailMeans(bars: seq<Bar>, lookback: nat, detect: PoolDetector)
    requires bars != []
    ensures var s := SnapshotAfter(bars, lookback, detect);
            s.bar == bars[|bars| - 1] && s.barIndex == |bars| - 1 &&
            EndOf(s.swings, DetectSwings(bars, lookback), 24) && EndOf(s.breaks, BreakLog(bars, lookback), 24)
  {
    hide SnapshotAfter, DetectSwings, BreakLog, TakeLast, EndOf;
    SnapshotParts(bars, lookback, detect);
    TakenIsEnd(DetectSwings(bars, lookback), 24);
    TakenIsEnd(BreakLog(bars, lookback), 24);
  }

  // ---------------------------------------------------------------- zones and transitions

  lemma {:induction false} ZonesAt(ids: seq<string>, live: map<string, Entry>, k: nat)
    requires k < |ids| && forall id :: id in ids ==> id in live
    ensures |ZonesFor(ids, live)| == |ids| && ZonesFor(ids, live)[k] == live[ids[k]].zone
  {
    if |ids| > 1 {
      ZonesAt(ids[1..], live, if k == 0 then 0 else k - 1);
    }
  }

  lemma SnapshotZones(bars: seq<Bar>, lookback: nat, detect: PoolDetector)
    requires bars != []
    ensures var (s, live) := (SnapshotAfter(bars, lookback, detect), BookAfter(bars, lookback, detect).live);
            s.zoneIds == Text.Sorted(live.Keys) && s.zones == ZonesFor(s.zoneIds, live) &&
            s.signature == SignatureOf(s.reading, s.zoneIds) && s.reading == ReadingAfter(bars, lookback) &&
            s.transition == Changes(SignatureAfter(bars[..|bars| - 1], lookback, detect), s.signature)
  {
    hide ReadingAfter, DetectSwings, BreakLog, OfKind, TakeLast, LevelsOf, ProtectedSwings, DurationAfter, Changes,
         BookAfter, SwingStateOf, WeakSwings, ZonesFor;
  }

  /** The zones of any snapshot are the live ones, each once, in the order of their ids. */
  lemma ZonesMean(bars: seq<Bar>, lookback: nat, detect: PoolDetector, k: nat)
    requires bars != []
    ensures var (s, live) := (SnapshotAfter(bars, lookback, detect), BookAfter(bars, lookback, detect).live);
            Text.Ascending(s.zoneIds) && (forall id :: id in s.zoneIds <==> id in live) &&
            (k < |s.zoneIds| ==> |s.zones| == |s.zoneIds| && s.zones[k] == live[s.zoneIds[k]].zone)
  {
    hide SnapshotAfter, ReadingAfter, BookAfter, ZonesFor, SignatureOf, Changes, SignatureAfter, Text.Sorted;
    var s, live := SnapshotAfter(bars, lookback, detect), BookAfter(bars, lookback, detect).live;
    SnapshotZones(bars, lookback, detect);
    Text.SortedAscends(live.Keys);
    if k < |s.zoneIds| {
      ZonesAt(s.zoneIds, live, k);
    }
  }

  /** The price limits of a range, if there is one. */
  predicate SameLimits(a: Option<StructuralRange>, b: Option<StructuralRange>) {
    (a.None? && b.None?) || (a.Some? && b.Some? && a.value.low == b.value.low && a.value.high == b.value.high)
  }

  /** Each label of a transition is there exactly when that part of the state changed; a change of the range
      alone has its own label, and so has no change at all. */
  predicate Labels(transition: seq<Change>, before: Snapshot, after: Snapshot) {
    var (x, y) := (before.reading, after.reading);
    && (StructuralTransition in transition <==> x.trend != y.trend)
    && (PhaseTransition in transition <==> x.phase != y.phase)
    && (LocationMigration in transition <==> x.location != y.location)
    && (ZoneMigration in transition <==> before.zoneIds != after.zoneIds)
    && (RangeTransition in transition <==>
        x.trend == y.trend && x.phase == y.phase && x.location == y.location && before.zoneIds == after.zoneIds &&
        !SameLimits(x.range, y.range))
    && (Persistence in transition <==>
        x.trend == y.trend && x.phase == y.phase && x.location == y.location && before.zoneIds == after.zoneIds &&
        SameLimits(x.range, y.range))
    && StateStart !in transition
  }

  lemma ChangesApart(previous: Option<Signature>, current: Signature)
    ensures var changes := Changes(previous, current);
            (previous.None? <==> changes == [StateStart]) &&
            forall i, j :: 0 <= i < j < |changes| ==> changes[i] != changes[j]
  {
    if previous.Some? {
      assert StateStart !in Changes(previous, current);
      assert StateStart in [StateStart];
    }
  }

  lemma ChangesLabel(before: Snapshot, after: Snapshot)
    requires before.signature == SignatureOf(before.reading, before.zoneIds)
    requires after.signature == SignatureOf(after.reading, after.zoneIds)
    ensures Labels(Changes(Some(before.signature), after.signature), before, after)
  {
    assert SameLimits(before.reading.range, after.reading.range) <==> before.signature.range == after.signature.range;
  }

  lemma SignatureIs(bars: seq<Bar>, lookback: nat, detect: PoolDetector)
    requires bars != []
    ensures SignatureAfter(bars, lookback, detect) == Some(SnapshotAfter(bars, lookback, detect).signature)
  {
    hide SignatureOf, ReadingAfter, ZoneIdsAfter, ZonesFor, BookAfter, DetectSwings, BreakLog, ProtectedSwings, Changes,
         DurationAfter;
  }

  lemma NoSignature(bars: seq<Bar>, lookback: nat, detect: PoolDetector)
    requires bars == []
    ensures SignatureAfter(bars, lookback, detect) == None
  {
  }

  /** What the transition of any snapshot says about the snapshot before it. */
  lemma TransitionMeans(bars: seq<Bar>, lookback: nat, detect: PoolDetector)
    requires bars != []
    ensures var s := SnapshotAfter(bars, lookback, detect);
            (|bars| == 1 <==> s.transition == [StateStart]) &&
            (|bars| > 1 ==> Labels(s.transition, SnapshotAfter(bars[..|bars| - 1], lookback, detect), s)) &&
            forall i, j :: 0 <= i < j < |s.transition| ==> s.transition[i] != s.transition[j]
  {
    hide SnapshotAfter, SignatureAfter, ReadingAfter, BookAfter, ZonesFor, Text.Sorted, Changes, Labels, SignatureOf;
    var front, s := bars[..|bars| - 1], SnapshotAfter(bars, lookback, detect);
    SnapshotZones(bars, lookback, detect);
    ChangesApart(SignatureAfter(front, lookback, detect), s.signature);
    if front != [] {
      SignatureIs(front, lookback, detect);
      SnapshotZones(front, lookback, detect);
      ChangesLabel(SnapshotAfter(front, lookback, detect), s);
    } else {
      NoSignature(front, lookback, detect);
    }
  }
}
