/** Pivots and structure breaks: the naive definitions over a whole bar list, the batch break
    detector, and what the two have in common. The streaming engine is proved against these. */
module MarketStructure {
  import opened Common

  /** A closed candle, stamped with its close time. */
  datatype Bar = Bar(timestamp: int, open: real, high: real, low: real, close: real,
                     volume: real, spread: real, sourceBars: nat)

  datatype SwingType = High | Low

  datatype Swing = Swing(index: nat, timestamp: int, price: real, kind: SwingType)

  datatype BreakType = Bos | Choch

  datatype StructureBreak = StructureBreak(index: nat, timestamp: int, kind: BreakType,
                                           swingIndex: nat, swingPrice: real, direction: int,
                                           bodyClose: real)

  predicate Sane(bar: Bar) {
    bar.low <= bar.close <= bar.high
  }

  ghost predicate AllSane(bars: seq<Bar>) {
    forall i :: 0 <= i < |bars| ==> Sane(bars[i])
  }

  // ---------------------------------------------------------------- pivots

  predicate IsHigh(bars: seq<Bar>, i: int, lookback: nat)
    requires lookback <= i < |bars| - lookback
  {
    forall j :: i - lookback <= j <= i + lookback && j != i ==> bars[j].high < bars[i].high
  }

  predicate IsLow(bars: seq<Bar>, i: int, lookback: nat)
    requires lookback <= i < |bars| - lookback
  {
    forall j :: i - lookback <= j <= i + lookback && j != i ==> bars[i].low < bars[j].low
  }

  /** The pivot at bar `i`, an outside bar counting as a high. */
  function SwingAt(bars: seq<Bar>, i: nat, lookback: nat): Option<Swing>
    requires lookback <= i < |bars| - lookback
  {
    if IsHigh(bars, i, lookback) then Some(Swing(i, bars[i].timestamp, bars[i].high, High))
    else if IsLow(bars, i, lookback) then Some(Swing(i, bars[i].timestamp, bars[i].low, Low))
    else None
  }

  function SwingsBelow(bars: seq<Bar>, lookback: nat, limit: nat): seq<Swing>
    requires limit + lookback <= |bars|
  {
    if limit <= lookback then []
    else SwingsBelow(bars, lookback, limit - 1) +
         match SwingAt(bars, limit - 1, lookback) case Some(s) => [s] case None => []
  }

  /** The strict pivots of `bars` whose right side is complete, in index order. */
  function DetectSwings(bars: seq<Bar>, lookback: nat): seq<Swing> {
    if |bars| < lookback then [] else SwingsBelow(bars, lookback, |bars| - lookback)
  }

  ghost predicate IsSwing(bars: seq<Bar>, lookback: nat, s: Swing) {
    lookback <= s.index < |bars| - lookback && SwingAt(bars, s.index, lookback) == Some(s)
  }

  ghost predicate IndexSorted(swings: seq<Swing>) {
    forall i, j :: 0 <= i < j < |swings| ==> swings[i].index < swings[j].index
  }

  lemma SortedAppend(swings: seq<Swing>, s: Swing)
    requires IndexSorted(swings) && forall x :: x in swings ==> x.index < s.index
    ensures IndexSorted(swings + [s])
  {
  }

  lemma SortedPrepend(s: Swing, swings: seq<Swing>)
    requires IndexSorted(swings) && forall x :: x in swings ==> s.index < x.index
    ensures IndexSorted([s] + swings)
  {
  }

  lemma PivotIsSwing(bars: seq<Bar>, i: nat, lookback: nat)
    requires lookback <= i < |bars| - lookback && SwingAt(bars, i, lookback).Some?
    ensures SwingAt(bars, i, lookback).value.index == i
    ensures IsSwing(bars, lookback, SwingAt(bars, i, lookback).value)
  {
  }

  lemma {:induction false} SwingsBelowExact(bars: seq<Bar>, lookback: nat, limit: nat)
    requires limit + lookback <= |bars|
    ensures IndexSorted(SwingsBelow(bars, lookback, limit))
    ensures forall s :: s in SwingsBelow(bars, lookback, limit) ==> IsSwing(bars, lookback, s) && s.index < limit
    ensures forall i: nat :: lookback <= i < limit && SwingAt(bars, i, lookback).Some? ==>
                             SwingAt(bars, i, lookback).value in SwingsBelow(bars, lookback, limit)
  {
    hide SwingAt, IsSwing;
    if lookback < limit {
      SwingsBelowExact(bars, lookback, limit - 1);
      var front, found := SwingsBelow(bars, lookback, limit - 1), SwingAt(bars, limit - 1, lookback);
      if found.Some? {
        PivotIsSwing(bars, limit - 1, lookback);
        SortedAppend(front, found.value);
        assert SwingsBelow(bars, lookback, limit) == front + [found.value];
      } else {
        assert SwingsBelow(bars, lookback, limit) == front;
      }
    }
  }

  /** The detector lists exactly the strict radius-`lookback` pivots, in index order. */
  lemma SwingsExact(bars: seq<Bar>, lookback: nat)
    ensures IndexSorted(DetectSwings(bars, lookback))
    ensures forall s :: s in DetectSwings(bars, lookback) <==> IsSwing(bars, lookback, s)
  {
    hide SwingAt, SwingsBelow;
    if lookback <= |bars| {
      SwingsBelowExact(bars, lookback, |bars| - lookback);
    }
  }

  /** Two pivots of the same type are more than `lookback` bars apart. */
  lemma SwingsSpaced(bars: seq<Bar>, lookback: nat, a: Swing, b: Swing)
    requires a in DetectSwings(bars, lookback) && b in DetectSwings(bars, lookback)
    requires a.kind == b.kind && a.index < b.index
    ensures lookback < b.index - a.index
  {
    SwingsExact(bars, lookback);
  }

  /** A pivot depends only on its window, so later bars never rewrite it. */
  lemma SwingKept(bars: seq<Bar>, more: seq<Bar>, lookback: nat, i: nat)
    requires lookback <= i < |bars| - lookback
    ensures SwingAt(bars + more, i, lookback) == SwingAt(bars, i, lookback)
  {
    var all := bars + more;
    assert forall j :: 0 <= j < |bars| ==> all[j] == bars[j];
    assert IsHigh(all, i, lookback) == IsHigh(bars, i, lookback);
    assert IsLow(all, i, lookback) == IsLow(bars, i, lookback);
  }

  lemma {:induction false} SwingsBelowStable(bars: seq<Bar>, more: seq<Bar>, lookback: nat, limit: nat)
    requires limit + lookback <= |bars|
    ensures SwingsBelow(bars + more, lookback, limit) == SwingsBelow(bars, lookback, limit)
  {
    if lookback < limit {
      SwingsBelowStable(bars, more, lookback, limit - 1);
      SwingKept(bars, more, lookback, limit - 1);
    }
  }

  /** One more bar confirms at most the pivot `lookback` bars back, and rewrites nothing. */
  lemma SwingsExtend(bars: seq<Bar>, bar: Bar, lookback: nat)
    ensures DetectSwings(bars + [bar], lookback) ==
            DetectSwings(bars, lookback) +
            if |bars| < 2 * lookback then []
            else match SwingAt(bars + [bar], |bars| - lookback, lookback)
                 case Some(s) => [s] case None => []
  {
    if lookback <= |bars| {
      SwingsBelowStable(bars, [bar], lookback, |bars| - lookback);
    }
  }

  // ---------------------------------------------------------------- breaks

  function Direction(kind: SwingType): int {
    if kind == High then 1 else -1
  }

  /** A body close strictly beyond the swing's price. */
  predicate Crosses(s: Swing, close: real) {
    if s.kind == High then s.price < close else close < s.price
  }

  /** Some bar from the swing's confirmation up to, not including, bar `t` closed beyond it. */
  predicate BrokenBefore(bars: seq<Bar>, s: Swing, lookback: nat, t: int)
    requires t <= |bars|
  {
    exists u :: s.index + lookback <= u < t && Crosses(s, bars[u].close)
  }

  predicate Unbroken(bars: seq<Bar>, s: Swing, lookback: nat) {
    !BrokenBefore(bars, s, lookback, |bars|)
  }

  /** Swings first crossed by the close of the last bar. */
  function CrossedAtEnd(bars: seq<Bar>, lookback: nat): seq<Swing>
    requires bars != []
  {
    Filter(DetectSwings(bars, lookback),
           (s: Swing) => !BrokenBefore(bars, s, lookback, |bars| - 1) && Crosses(s, bars[|bars| - 1].close))
  }

  function OfKind(swings: seq<Swing>, kind: SwingType): seq<Swing> {
    if swings == [] then []
    else if swings[0].kind == kind then [swings[0]] + OfKind(swings[1..], kind)
    else OfKind(swings[1..], kind)
  }

  lemma {:induction false} OfKindAppend(swings: seq<Swing>, s: Swing, kind: SwingType)
    ensures OfKind(swings + [s], kind) == OfKind(swings, kind) + if s.kind == kind then [s] else []
  {
    if swings != [] {
      assert (swings + [s])[1..] == swings[1..] + [s];
      OfKindAppend(swings[1..], s, kind);
    }
  }

  /** Direction of the two latest highs and two latest lows, when they agree. */
  function SwingTrend(highs: seq<Swing>, lows: seq<Swing>): int {
    if |highs| < 2 || |lows| < 2 then 0
    else
      var (h1, h0) := (highs[|highs| - 1].price, highs[|highs| - 2].price);
      var (l1, l0) := (lows[|lows| - 1].price, lows[|lows| - 2].price);
      if h1 > h0 && l1 > l0 then 1 else if h1 < h0 && l1 < l0 then -1 else 0
  }

  function SwingTrendNow(bars: seq<Bar>, lookback: nat): (r: int)
    ensures -1 <= r <= 1
  {
    var swings := DetectSwings(bars, lookback);
    SwingTrend(OfKind(swings, High), OfKind(swings, Low))
  }

  /** The direction of the latest break, or the swings' own trend before any break. */
  function TrendOf(breaks: seq<StructureBreak>, swingTrend: int): int {
    if breaks != [] then breaks[|breaks| - 1].direction else swingTrend
  }

  /** Break records for the swings crossed on one bar: with the trend is BOS, against it CHOCH. */
  function Label(crossed: seq<Swing>, trend: int, index: nat, bar: Bar): (r: seq<StructureBreak>)
    ensures |r| == |crossed|
  {
    if crossed == [] then []
    else
      var d := Direction(crossed[0].kind);
      [StructureBreak(index, bar.timestamp, if trend == 0 || trend == d then Bos else Choch,
                      crossed[0].index, crossed[0].price, d, bar.close)]
      + Label(crossed[1..], d, index, bar)
  }

  function BreaksAtEnd(bars: seq<Bar>, lookback: nat): seq<StructureBreak>
    requires bars != []
    decreases |bars|, 0
  {
    var trend := TrendOf(BreakLog(bars[..|bars| - 1], lookback), SwingTrendNow(bars, lookback));
    Label(CrossedAtEnd(bars, lookback), trend, |bars| - 1, bars[|bars| - 1])
  }

  /** The break log of a bar list, by plain scans. */
  function BreakLog(bars: seq<Bar>, lookback: nat): seq<StructureBreak>
    decreases |bars|, 1
  {
    if bars == [] then []
    else BreakLog(bars[..|bars| - 1], lookback) + BreaksAtEnd(bars, lookback)
  }

  lemma {:induction false} LabelAt(crossed: seq<Swing>, trend: int, index: nat, bar: Bar, k: nat)
    requires k < |crossed|
    ensures var b := Label(crossed, trend, index, bar)[k];
            var before := if k == 0 then trend else Direction(crossed[k - 1].kind);
            b == StructureBreak(index, bar.timestamp,
                                if before == 0 || before == Direction(crossed[k].kind) then Bos else Choch,
                                crossed[k].index, crossed[k].price, Direction(crossed[k].kind), bar.close)
  {
    if k > 0 {
      LabelAt(crossed[1..], Direction(crossed[0].kind), index, bar, k - 1);
    }
  }

  lemma {:induction false} FilterSorted(swings: seq<Swing>, p: Swing -> bool)
    requires IndexSorted(swings)
    ensures IndexSorted(Filter(swings, p))
  {
    if swings != [] {
      var rest := Filter(swings[1..], p);
      FilterSorted(swings[1..], p);
      assert forall x :: x in rest ==> swings[0].index < x.index;
      SortedPrepend(swings[0], rest);
      assert Filter(swings, p) == if p(swings[0]) then [swings[0]] + rest else rest;
    }
  }

  lemma CrossedExact(bars: seq<Bar>, lookback: nat)
    requires bars != []
    ensures IndexSorted(CrossedAtEnd(bars, lookback))
    ensures forall s :: s in CrossedAtEnd(bars, lookback) <==>
                        IsSwing(bars, lookback, s) &&
                        !BrokenBefore(bars, s, lookback, |bars| - 1) && Crosses(s, bars[|bars| - 1].close)
  {
    SwingsExact(bars, lookback);
    FilterSorted(DetectSwings(bars, lookback),
                 (s: Swing) => !BrokenBefore(bars, s, lookback, |bars| - 1) && Crosses(s, bars[|bars| - 1].close));
  }

  ghost predicate RecordsSwing(bars: seq<Bar>, lookback: nat, s: Swing, b: StructureBreak) {
    && b.swingIndex == s.index && b.swingPrice == s.price && b.direction == Direction(s.kind)
    && s.index + lookback <= b.index < |bars|
    && b.timestamp == bars[b.index].timestamp && b.bodyClose == bars[b.index].close
    && Crosses(s, b.bodyClose)
    && !BrokenBefore(bars, s, lookback, b.index)
  }

  /** Break `b` records a confirmed swing, at the first close beyond it from its confirmation onward. */
  ghost predicate Records(bars: seq<Bar>, lookback: nat, b: StructureBreak) {
    && lookback <= b.swingIndex < |bars| - lookback
    && SwingAt(bars, b.swingIndex, lookback).Some?
    && RecordsSwing(bars, lookback, SwingAt(bars, b.swingIndex, lookback).value, b)
  }

  ghost predicate LogOrdered(log: seq<StructureBreak>) {
    forall i, j :: 0 <= i < j < |log| ==>
      log[i].index < log[j].index || (log[i].index == log[j].index && log[i].swingIndex < log[j].swingIndex)
  }

  ghost predicate Logged(log: seq<StructureBreak>, s: Swing) {
    exists k :: 0 <= k < |log| && log[k].swingIndex == s.index
  }

  lemma BrokenKept(bars: seq<Bar>, bar: Bar, s: Swing, lookback: nat, t: int)
    requires t <= |bars|
    ensures BrokenBefore(bars + [bar], s, lookback, t) == BrokenBefore(bars, s, lookback, t)
  {
    assert forall j :: 0 <= j < |bars| ==> (bars + [bar])[j] == bars[j];
  }

  lemma RecordsKept(bars: seq<Bar>, bar: Bar, lookback: nat, b: StructureBreak)
    requires Records(bars, lookback, b)
    ensures Records(bars + [bar], lookback, b)
  {
    SwingKept(bars, [bar], lookback, b.swingIndex);
    BrokenKept(bars, bar, SwingAt(bars, b.swingIndex, lookback).value, lookback, b.index);
  }

  lemma LatestRecords(bars: seq<Bar>, lookback: nat, k: nat)
    requires bars != [] && k < |BreaksAtEnd(bars, lookback)|
    ensures var b := BreaksAtEnd(bars, lookback)[k];
            Records(bars, lookback, b) && b.index == |bars| - 1 &&
            b.swingIndex == CrossedAtEnd(bars, lookback)[k].index
  {
    var n, crossed := |bars| - 1, CrossedAtEnd(bars, lookback);
    var trend := TrendOf(BreakLog(bars[..n], lookback), SwingTrendNow(bars, lookback));
    LabelAt(crossed, trend, n, bars[n], k);
    CrossedExact(bars, lookback);
    assert crossed[k] in crossed;
  }

  lemma {:induction false} LogRecords(bars: seq<Bar>, lookback: nat)
    ensures forall b :: b in BreakLog(bars, lookback) ==> Records(bars, lookback, b)
  {
    if bars != [] {
      var front := bars[..|bars| - 1];
      assert bars == front + [bars[|bars| - 1]];
      LogRecords(front, lookback);
      forall b | b in BreakLog(bars, lookback) ensures Records(bars, lookback, b) {
        if b in BreakLog(front, lookback) {
          RecordsKept(front, bars[|bars| - 1], lookback, b);
        } else {
          var k :| 0 <= k < |BreaksAtEnd(bars, lookback)| && BreaksAtEnd(bars, lookback)[k] == b;
          LatestRecords(bars, lookback, k);
        }
      }
    }
  }

  lemma LatestOrdered(bars: seq<Bar>, lookback: nat)
    requires bars != []
    ensures LogOrdered(BreaksAtEnd(bars, lookback))
    ensures forall b :: b in BreaksAtEnd(bars, lookback) ==> b.index == |bars| - 1
  {
    forall k | 0 <= k < |BreaksAtEnd(bars, lookback)|
      ensures BreaksAtEnd(bars, lookback)[k].index == |bars| - 1
      ensures BreaksAtEnd(bars, lookback)[k].swingIndex == CrossedAtEnd(bars, lookback)[k].index
    {
      LatestRecords(bars, lookback, k);
    }
    CrossedExact(bars, lookback);
  }

  lemma {:induction false} LogSorted(bars: seq<Bar>, lookback: nat)
    ensures LogOrdered(BreakLog(bars, lookback))
    ensures forall b :: b in BreakLog(bars, lookback) ==> b.index < |bars|
  {
    hide BreaksAtEnd;
    if bars != [] {
      LogSorted(bars[..|bars| - 1], lookback);
      LatestOrdered(bars, lookback);
    }
  }

  lemma LoggedConcat(a: seq<StructureBreak>, b: seq<StructureBreak>, s: Swing)
    ensures Logged(a + b, s) <==> Logged(a, s) || Logged(b, s)
  {
    if Logged(a, s) {
      var k :| 0 <= k < |a| && a[k].swingIndex == s.index;
      assert (a + b)[k] == a[k];
    }
    if Logged(b, s) {
      var k :| 0 <= k < |b| && b[k].swingIndex == s.index;
      assert (a + b)[|a| + k] == b[k];
    }
  }

  lemma LatestLogged(bars: seq<Bar>, lookback: nat, s: Swing)
    requires bars != [] && IsSwing(bars, lookback, s)
    ensures Logged(BreaksAtEnd(bars, lookback), s) <==>
            !BrokenBefore(bars, s, lookback, |bars| - 1) && Crosses(s, bars[|bars| - 1].close)
  {
    var crossed, latest := CrossedAtEnd(bars, lookback), BreaksAtEnd(bars, lookback);
    forall k | 0 <= k < |latest| ensures latest[k].swingIndex == crossed[k].index {
      LatestRecords(bars, lookback, k);
    }
    CrossedExact(bars, lookback);
    if Logged(latest, s) {
      var k :| 0 <= k < |latest| && latest[k].swingIndex == s.index;
      assert crossed[k] in crossed;
    }
    if s in crossed {
      var k :| 0 <= k < |crossed| && crossed[k] == s;
      assert latest[k].swingIndex == s.index;
    }
  }

  lemma LogConfirmed(bars: seq<Bar>, lookback: nat)
    ensures forall b :: b in BreakLog(bars, lookback) ==> b.swingIndex + lookback < |bars|
  {
    LogRecords(bars, lookback);
    forall b | b in BreakLog(bars, lookback) ensures b.swingIndex + lookback < |bars| {
      assert Records(bars, lookback, b);
    }
  }

  /** A swing not yet confirmed is in no log. */
  lemma UnconfirmedUnlogged(front: seq<Bar>, lookback: nat, s: Swing)
    requires |front| <= s.index + lookback
    ensures !Logged(BreakLog(front, lookback), s) && !BrokenBefore(front, s, lookback, |front|)
  {
    LogConfirmed(front, lookback);
  }

  lemma LoggedStep(bars: seq<Bar>, lookback: nat, s: Swing)
    requires bars != [] && IsSwing(bars, lookback, s)
    requires Logged(BreakLog(bars[..|bars| - 1], lookback), s) <==> BrokenBefore(bars, s, lookback, |bars| - 1)
    ensures Logged(BreakLog(bars, lookback), s) <==> BrokenBefore(bars, s, lookback, |bars|)
  {
    LoggedConcat(BreakLog(bars[..|bars| - 1], lookback), BreaksAtEnd(bars, lookback), s);
    LatestLogged(bars, lookback, s);
  }

  /** A confirmed swing is in the log exactly when some bar from its confirmation on closed beyond it. */
  lemma {:induction false} LogComplete(bars: seq<Bar>, lookback: nat, s: Swing)
    requires IsSwing(bars, lookback, s)
    ensures Logged(BreakLog(bars, lookback), s) <==> !Unbroken(bars, s, lookback)
  {
    if bars != [] {
      var front, bar := bars[..|bars| - 1], bars[|bars| - 1];
      assert bars == front + [bar];
      BrokenKept(front, bar, s, lookback, |front|);
      if s.index + lookback < |front| {
        SwingKept(front, [bar], lookback, s.index);
        LogComplete(front, lookback, s);
      } else {
        UnconfirmedUnlogged(front, lookback, s);
      }
      LoggedStep(bars, lookback, s);
    }
  }

  lemma OneRecord(bars: seq<Bar>, lookback: nat, a: StructureBreak, b: StructureBreak)
    requires Records(bars, lookback, a) && Records(bars, lookback, b)
    requires a.index < b.index || (a.index == b.index && a.swingIndex < b.swingIndex)
    ensures a.swingIndex != b.swingIndex
  {
  }

  /** The log holds each confirmed swing at most once, exactly at the first bar from its
      confirmation onward that closes strictly beyond it, ordered by bar and then swing. */
  lemma BreakLogExact(bars: seq<Bar>, lookback: nat)
    ensures LogOrdered(BreakLog(bars, lookback))
    ensures forall b :: b in BreakLog(bars, lookback) ==> Records(bars, lookback, b)
    ensures forall i, j :: 0 <= i < j < |BreakLog(bars, lookback)| ==>
              BreakLog(bars, lookback)[i].swingIndex != BreakLog(bars, lookback)[j].swingIndex
    ensures forall s :: IsSwing(bars, lookback, s) ==>
              (Logged(BreakLog(bars, lookback), s) <==> !Unbroken(bars, s, lookback))
  {
    LogSorted(bars, lookback);
    LogRecords(bars, lookback);
    forall s | IsSwing(bars, lookback, s)
      ensures Logged(BreakLog(bars, lookback), s) <==> !Unbroken(bars, s, lookback)
    {
      LogComplete(bars, lookback, s);
    }
    forall i, j | 0 <= i < j < |BreakLog(bars, lookback)|
      ensures BreakLog(bars, lookback)[i].swingIndex != BreakLog(bars, lookback)[j].swingIndex
    {
      OneRecord(bars, lookback, BreakLog(bars, lookback)[i], BreakLog(bars, lookback)[j]);
    }
  }

  // ---------------------------------------------------------------- one bar, one direction

  /** After every bar the last close separates the unbroken lows from the unbroken highs. */
  lemma PendingSandwich(bars: seq<Bar>, lookback: nat, low: Swing, high: Swing)
    requires IsSwing(bars, lookback, low) && IsSwing(bars, lookback, high)
    requires low.kind == Low && high.kind == High
    requires Unbroken(bars, low, lookback) && Unbroken(bars, high, lookback)
    ensures low.price <= bars[|bars| - 1].close <= high.price
  {
    assert !Crosses(low, bars[|bars| - 1].close) && !Crosses(high, bars[|bars| - 1].close);
  }

  /** A swing confirmed by the last bar lies beyond the previous close on its own side. */
  lemma NewSwingBeyond(bars: seq<Bar>, lookback: nat, s: Swing)
    requires 1 <= lookback && IsSwing(bars, lookback, s) && s.index + lookback == |bars| - 1
    ensures Sane(bars[|bars| - 1]) ==> !Crosses(s, bars[|bars| - 1].close)
    ensures Sane(bars[|bars| - 2]) ==> !Crosses(s, bars[|bars| - 2].close)
  {
    var n := |bars|;
    assert s.kind == High ==> bars[n - 1].high < s.price && bars[n - 2].high <= s.price;
    assert s.kind == Low ==> s.price < bars[n - 1].low && s.price <= bars[n - 2].low;
  }

  lemma PreviousClose(bars: seq<Bar>, lookback: nat, s: Swing)
    requires 1 <= lookback && 2 <= |bars|
    requires Sane(bars[|bars| - 1]) || Sane(bars[|bars| - 2])
    requires IsSwing(bars, lookback, s)
    requires !BrokenBefore(bars, s, lookback, |bars| - 1) && Crosses(s, bars[|bars| - 1].close)
    ensures !Crosses(s, bars[|bars| - 2].close)
  {
    if s.index + lookback == |bars| - 1 {
      NewSwingBeyond(bars, lookback, s);
    }
  }

  /** One bar never breaks both a high and a low, as long as it or the bar before it has its
      close inside its range. */
  lemma OneDirection(bars: seq<Bar>, lookback: nat, a: Swing, b: Swing)
    requires 1 <= lookback && 2 <= |bars|
    requires Sane(bars[|bars| - 1]) || Sane(bars[|bars| - 2])
    requires a in CrossedAtEnd(bars, lookback) && b in CrossedAtEnd(bars, lookback)
    ensures a.kind == b.kind
  {
    CrossedExact(bars, lookback);
    PreviousClose(bars, lookback, a);
    PreviousClose(bars, lookback, b);
  }

  /** On such a bar every break has one direction, and only the first can be a change of character. */
  lemma OnlyFirstIsChoch(bars: seq<Bar>, lookback: nat, k: nat)
    requires 1 <= lookback && 2 <= |bars|
    requires Sane(bars[|bars| - 1]) || Sane(bars[|bars| - 2])
    requires 0 < k < |BreaksAtEnd(bars, lookback)|
    ensures BreaksAtEnd(bars, lookback)[k].kind == Bos
    ensures BreaksAtEnd(bars, lookback)[k].direction == BreaksAtEnd(bars, lookback)[0].direction
  {
    var n, crossed := |bars| - 1, CrossedAtEnd(bars, lookback);
    var trend := TrendOf(BreakLog(bars[..n], lookback), SwingTrendNow(bars, lookback));
    LabelAt(crossed, trend, n, bars[n], 0);
    LabelAt(crossed, trend, n, bars[n], k);
    OneDirection(bars, lookback, crossed[k], crossed[0]);
    OneDirection(bars, lookback, crossed[k], crossed[k - 1]);
  }

  function MalformedBars(): seq<Bar> {
    [Bar(0, 7.0, 10.0, 5.0, 7.0, 0.0, 0.0, 1), Bar(1, 7.0, 10.0, 4.0, 7.0, 0.0, 0.0, 1),
     Bar(2, 7.0, 2.0, 5.0, 7.0, 0.0, 0.0, 1), Bar(3, 7.0, 3.0, 6.0, 7.0, 0.0, 0.0, 1),
     Bar(4, 7.0, 2.0, 7.0, 3.5, 0.0, 0.0, 1)]
  }

  lemma MalformedSwings()
    ensures IsSwing(MalformedBars(), 1, Swing(3, 3, 3.0, High)) && IsSwing(MalformedBars(), 1, Swing(1, 1, 4.0, Low))
  {
    var bars := MalformedBars();
    assert IsHigh(bars, 3, 1) && IsLow(bars, 1, 1);
    assert !IsHigh(bars, 1, 1) by { assert bars[0].high >= bars[1].high; }
  }

  /** Two malformed bars in a row, closing outside their ranges, do break both ways at once. */
  lemma MalformedBarsBreakBothWays()
    ensures Swing(3, 3, 3.0, High) in CrossedAtEnd(MalformedBars(), 1)
    ensures Swing(1, 1, 4.0, Low) in CrossedAtEnd(MalformedBars(), 1)
  {
    hide IsSwing, DetectSwings, CrossedAtEnd;
    MalformedSwings();
    CrossedExact(MalformedBars(), 1);
  }

  // ---------------------------------------------------------------- the batch break detector

  datatype Scan = Scan(pending: seq<Swing>, breaks: seq<StructureBreak>, trend: int)

  /** One bar of the batch detector: walk the pending swings in index order up to the first one
      that is not yet actionable. */
  function ScanBar(pending: seq<Swing>, index: nat, bar: Bar, confirmation: nat, trend: int): Scan {
    if pending == [] || index <= pending[0].index || index < pending[0].index + confirmation then
      Scan(pending, [], trend)
    else if !Crosses(pending[0], bar.close) then
      var rest := ScanBar(pending[1..], index, bar, confirmation, trend);
      rest.(pending := [pending[0]] + rest.pending)
    else
      var d := Direction(pending[0].kind);
      var rest := ScanBar(pending[1..], index, bar, confirmation, d);
      var kind := if trend == 0 || d == trend then Bos else Choch;
      rest.(breaks := [StructureBreak(index, bar.timestamp, kind, pending[0].index, pending[0].price, d, bar.close)]
                      + rest.breaks)
  }

  function DetectBreaks(bars: seq<Bar>, swings: seq<Swing>, confirmation: nat): Scan {
    if bars == [] then Scan(swings, [], 0)
    else
      var n := |bars| - 1;
      var before := DetectBreaks(bars[..n], swings, confirmation);
      var step := ScanBar(before.pending, n, bars[n], confirmation, before.trend);
      Scan(step.pending, before.breaks + step.breaks, step.trend)
  }

  function TrendAfter(crossed: seq<Swing>, trend: int): int {
    if crossed == [] then trend else Direction(crossed[|crossed| - 1].kind)
  }

  /** The swing is actionable at bar `index` and that bar closes beyond it. */
  predicate Hit(s: Swing, index: nat, bar: Bar, confirmation: nat) {
    s.index + confirmation <= index && Crosses(s, bar.close)
  }

  function Select(swings: seq<Swing>, index: nat, bar: Bar, confirmation: nat, hit: bool): seq<Swing> {
    if swings == [] then []
    else
      var rest := Select(swings[1..], index, bar, confirmation, hit);
      if Hit(swings[0], index, bar, confirmation) == hit then [swings[0]] + rest else rest
  }

  lemma {:induction false} SelectExact(swings: seq<Swing>, index: nat, bar: Bar, confirmation: nat, hit: bool)
    ensures forall s :: s in Select(swings, index, bar, confirmation, hit) <==>
                        s in swings && Hit(s, index, bar, confirmation) == hit
    ensures IndexSorted(swings) ==> IndexSorted(Select(swings, index, bar, confirmation, hit))
  {
    if swings != [] {
      SelectExact(swings[1..], index, bar, confirmation, hit);
      var rest := Select(swings[1..], index, bar, confirmation, hit);
      assert IndexSorted(swings) ==> forall x :: x in rest ==> swings[0].index < x.index;
    }
  }

  lemma {:induction false} SelectUnactionable(swings: seq<Swing>, index: nat, bar: Bar, confirmation: nat)
    requires forall s :: s in swings ==> index < s.index + confirmation
    ensures Select(swings, index, bar, confirmation, true) == []
    ensures Select(swings, index, bar, confirmation, false) == swings
  {
    if swings != [] {
      SelectUnactionable(swings[1..], index, bar, confirmation);
    }
  }

  lemma {:induction false} ScanBarSelects(pending: seq<Swing>, index: nat, bar: Bar, confirmation: nat, trend: int)
    requires 1 <= confirmation && IndexSorted(pending)
    ensures var hits := Select(pending, index, bar, confirmation, true);
            ScanBar(pending, index, bar, confirmation, trend) ==
            Scan(Select(pending, index, bar, confirmation, false), Label(hits, trend, index, bar),
                 TrendAfter(hits, trend))
  {
    if pending == [] {
    } else if index < pending[0].index + confirmation {
      SelectUnactionable(pending, index, bar, confirmation);
    } else if Crosses(pending[0], bar.close) {
      ScanBarSelects(pending[1..], index, bar, confirmation, Direction(pending[0].kind));
    } else {
      ScanBarSelects(pending[1..], index, bar, confirmation, trend);
    }
  }

  lemma {:induction false} SortedUnique(a: seq<Swing>, b: seq<Swing>)
    requires IndexSorted(a) && IndexSorted(b)
    requires forall s :: s in a <==> s in b
    ensures a == b
  {
    assert a != [] ==> a[0] in b;
    assert b != [] ==> b[0] in a;
    if a != [] {
      assert a[0] == b[0];
      assert forall s :: s in a <==> s == a[0] || s in a[1..];
      assert forall s :: s in b <==> s == b[0] || s in b[1..];
      SortedUnique(a[1..], b[1..]);
      assert a == [a[0]] + a[1..] && b == [b[0]] + b[1..];
    }
  }

  /** After `bars`, a prefix of `all`, the batch detector's pending list is the unbroken swings,
      and its last step hits exactly the swings the naive scan finds crossed. */
  ghost predicate ScanAgrees(all: seq<Bar>, m: nat, lookback: nat)
    requires m <= |all|
  {
    var scan := DetectBreaks(all[..m], DetectSwings(all, lookback), lookback);
    IndexSorted(scan.pending) &&
    forall s :: s in scan.pending <==> IsSwing(all, lookback, s) && !BrokenBefore(all, s, lookback, m)
  }

  lemma BrokenStep(all: seq<Bar>, m: nat, lookback: nat, s: Swing)
    requires m < |all|
    ensures BrokenBefore(all, s, lookback, m + 1) <==> BrokenBefore(all, s, lookback, m) || Hit(s, m, all[m], lookback)
  {
  }

  lemma SwingPrefix(all: seq<Bar>, m: nat, lookback: nat, i: nat)
    requires m <= |all| && lookback <= i < m - lookback
    ensures SwingAt(all, i, lookback) == SwingAt(all[..m], i, lookback)
  {
    assert IsHigh(all, i, lookback) == IsHigh(all[..m], i, lookback);
    assert IsLow(all, i, lookback) == IsLow(all[..m], i, lookback);
  }

  lemma HitIsCrossed(all: seq<Bar>, m: nat, lookback: nat, s: Swing)
    requires m < |all|
    ensures IsSwing(all, lookback, s) && !BrokenBefore(all, s, lookback, m) && Hit(s, m, all[m], lookback)
            <==>
            IsSwing(all[..m + 1], lookback, s) && !BrokenBefore(all[..m + 1], s, lookback, m) &&
            Crosses(s, all[m].close)
  {
    assert forall u :: 0 <= u <= m ==> all[..m + 1][u] == all[u];
    if lookback <= s.index && s.index + lookback <= m {
      SwingPrefix(all, m + 1, lookback, s.index);
    }
  }

  lemma ScanStep(all: seq<Bar>, m: nat, lookback: nat)
    requires 1 <= lookback && m < |all| && ScanAgrees(all, m, lookback)
    ensures ScanAgrees(all, m + 1, lookback)
    ensures var before := DetectBreaks(all[..m], DetectSwings(all, lookback), lookback);
            Select(before.pending, m, all[m], lookback, true) == CrossedAtEnd(all[..m + 1], lookback)
  {
    hide IsSwing, BrokenBefore, DetectSwings, CrossedAtEnd, Label, Select;
    var swings := DetectSwings(all, lookback);
    var before := DetectBreaks(all[..m], swings, lookback);
    assert all[..m + 1][..m] == all[..m];
    ScanBarSelects(before.pending, m, all[m], lookback, before.trend);
    SelectExact(before.pending, m, all[m], lookback, true);
    SelectExact(before.pending, m, all[m], lookback, false);
    var hits := Select(before.pending, m, all[m], lookback, true);
    CrossedExact(all[..m + 1], lookback);
    forall s
      ensures s in hits <==> s in CrossedAtEnd(all[..m + 1], lookback)
      ensures BrokenBefore(all, s, lookback, m + 1) <==>
              BrokenBefore(all, s, lookback, m) || Hit(s, m, all[m], lookback)
    {
      HitIsCrossed(all, m, lookback, s);
      BrokenStep(all, m, lookback, s);
    }
    SortedUnique(hits, CrossedAtEnd(all[..m + 1], lookback));
  }

  /** Equal logs except that the batch detector always calls the very first break a BOS. */
  ghost predicate SameButFirstKind(log: seq<StructureBreak>, scan: Scan) {
    && |scan.breaks| == |log|
    && (forall k :: 0 < k < |log| ==> scan.breaks[k] == log[k])
    && (log != [] ==> scan.breaks[0] == log[0].(kind := Bos))
    && scan.trend == if log == [] then 0 else log[|log| - 1].direction
  }

  lemma ScanInit(all: seq<Bar>, lookback: nat)
    ensures ScanAgrees(all, 0, lookback)
  {
    SwingsExact(all, lookback);
  }

  lemma LabelDirections(crossed: seq<Swing>, trend: int, index: nat, bar: Bar)
    requires crossed != []
    ensures Label(crossed, trend, index, bar)[|crossed| - 1].direction == TrendAfter(crossed, trend)
    ensures Label(crossed, 0, index, bar)[0] == Label(crossed, trend, index, bar)[0].(kind := Bos)
    ensures Label(crossed, 0, index, bar)[1..] == Label(crossed, trend, index, bar)[1..]
  {
    LabelAt(crossed, trend, index, bar, |crossed| - 1);
    var rest := Label(crossed[1..], Direction(crossed[0].kind), index, bar);
    assert Label(crossed, 0, index, bar)[1..] == rest;
    assert Label(crossed, 0, index, bar)[0].kind == Bos;
    assert Label(crossed, trend, index, bar)[1..] == rest;
  }

  lemma SameAppend(log: seq<StructureBreak>, scan: Scan, a: seq<StructureBreak>, b: seq<StructureBreak>,
                   pending: seq<Swing>, trend: int)
    requires SameButFirstKind(log, scan) && a != [] && |a| == |b|
    requires a[|a| - 1].direction == trend
    requires log != [] ==> a == b
    requires log == [] ==> b[0] == a[0].(kind := Bos) && b[1..] == a[1..]
    ensures SameButFirstKind(log + a, Scan(pending, scan.breaks + b, trend))
  {
    if log == [] {
      assert log + a == a && scan.breaks + b == b;
      forall k | 0 < k < |a| ensures a[k] == b[k] {
        assert a[k] == a[1..][k - 1] && b[k] == b[1..][k - 1];
      }
    }
  }

  lemma SameStep(log: seq<StructureBreak>, scan: Scan, crossed: seq<Swing>, trend: int, index: nat, bar: Bar,
                 pending: seq<Swing>)
    requires SameButFirstKind(log, scan)
    requires log != [] ==> trend == scan.trend
    ensures SameButFirstKind(log + Label(crossed, trend, index, bar),
                             Scan(pending, scan.breaks + Label(crossed, scan.trend, index, bar),
                                  TrendAfter(crossed, scan.trend)))
  {
    if crossed == [] {
      assert log + [] == log && scan.breaks + [] == scan.breaks;
    } else {
      LabelDirections(crossed, trend, index, bar);
      SameAppend(log, scan, Label(crossed, trend, index, bar), Label(crossed, scan.trend, index, bar), pending,
                 TrendAfter(crossed, trend));
    }
  }

  lemma BatchStep(all: seq<Bar>, m: nat, lookback: nat)
    requires 1 <= lookback && m < |all| && ScanAgrees(all, m, lookback)
    requires SameButFirstKind(BreakLog(all[..m], lookback),
                              DetectBreaks(all[..m], DetectSwings(all, lookback), lookback))
    ensures ScanAgrees(all, m + 1, lookback)
    ensures SameButFirstKind(BreakLog(all[..m + 1], lookback),
                             DetectBreaks(all[..m + 1], DetectSwings(all, lookback), lookback))
  {
    var bars := all[..m + 1];
    assert bars[..m] == all[..m];
    ScanStep(all, m, lookback);
    var before := DetectBreaks(all[..m], DetectSwings(all, lookback), lookback);
    ScanBarSelects(before.pending, m, all[m], lookback, before.trend);
    SameStep(BreakLog(all[..m], lookback), before, CrossedAtEnd(bars, lookback),
             TrendOf(BreakLog(all[..m], lookback), SwingTrendNow(bars, lookback)), m, all[m],
             Select(before.pending, m, all[m], lookback, false));
    assert bars[m] == all[m];
    assert BreakLog(bars, lookback) == BreakLog(bars[..m], lookback) + BreaksAtEnd(bars, lookback);
  }

  lemma {:induction false} BatchPrefixAgrees(all: seq<Bar>, m: nat, lookback: nat)
    requires 1 <= lookback && m <= |all|
    ensures ScanAgrees(all, m, lookback)
    ensures SameButFirstKind(BreakLog(all[..m], lookback),
                             DetectBreaks(all[..m], DetectSwings(all, lookback), lookback))
  {
    if m == 0 {
      ScanInit(all, lookback);
    } else {
      BatchPrefixAgrees(all, m - 1, lookback);
      BatchStep(all, m - 1, lookback);
    }
  }

  /** Trend read from the swings alone once `n` bars have closed. */
  function SwingTrendAfter(bars: seq<Bar>, lookback: nat, n: nat): int
    requires n <= |bars|
  {
    SwingTrendNow(bars[..n], lookback)
  }

  lemma EqualLogs(log: seq<StructureBreak>, scan: Scan)
    requires SameButFirstKind(log, scan)
    ensures log == scan.breaks <==> log == [] || log[0].kind == Bos
  {
    if log == [] || log[0].kind == Bos {
      assert forall k :: 0 <= k < |log| ==> log[k] == scan.breaks[k];
    }
  }

  /** Break `b` is a CHOCH exactly when it runs against the trend visible in the swings at its bar. */
  ghost predicate ChochBySwings(bars: seq<Bar>, lookback: nat, b: StructureBreak) {
    b.index < |bars| && (b.kind == Choch <==> SwingTrendAfter(bars, lookback, b.index + 1) == -b.direction)
  }

  lemma LabelFirst(crossed: seq<Swing>, trend: int, index: nat, bar: Bar)
    requires crossed != [] && -1 <= trend <= 1
    ensures var b := Label(crossed, trend, index, bar)[0];
            b.index == index && (b.kind == Choch <==> trend == -b.direction)
  {
  }

  lemma FirstBreakHere(bars: seq<Bar>, lookback: nat)
    requires bars != [] && BreakLog(bars[..|bars| - 1], lookback) == [] && BreaksAtEnd(bars, lookback) != []
    ensures ChochBySwings(bars, lookback, BreaksAtEnd(bars, lookback)[0])
  {
    hide SwingTrendNow, CrossedAtEnd, Label, BreakLog;
    LabelFirst(CrossedAtEnd(bars, lookback), SwingTrendNow(bars, lookback), |bars| - 1, bars[|bars| - 1]);
    assert bars[..|bars|] == bars;
  }

  lemma ChochKept(bars: seq<Bar>, lookback: nat, b: StructureBreak)
    requires bars != [] && ChochBySwings(bars[..|bars| - 1], lookback, b)
    ensures ChochBySwings(bars, lookback, b)
  {
    hide SwingTrendNow;
    assert bars[..|bars| - 1][..b.index + 1] == bars[..b.index + 1];
  }

  lemma {:induction false} FirstBreakKind(bars: seq<Bar>, lookback: nat)
    requires BreakLog(bars, lookback) != []
    ensures ChochBySwings(bars, lookback, BreakLog(bars, lookback)[0])
  {
    var front := bars[..|bars| - 1];
    var earlier, latest := BreakLog(front, lookback), BreaksAtEnd(bars, lookback);
    if earlier != [] {
      FirstBreakKind(front, lookback);
      ChochKept(bars, lookback, earlier[0]);
    } else {
      FirstBreakHere(bars, lookback);
    }
  }

  /** The online log and the batch detector agree on every break: same bars, swings, order and, from
      the second break on, same type. They agree outright exactly when the first break does not run
      against a trend already visible in the swings at that bar. */
  lemma OnlineAgreesWithBatch(bars: seq<Bar>, lookback: nat)
    requires 1 <= lookback
    ensures var log, batch := BreakLog(bars, lookback), DetectBreaks(bars, DetectSwings(bars, lookback), lookback);
            && SameButFirstKind(log, batch)
            && (log == batch.breaks <==>
                (log != [] ==> log[0].index < |bars| &&
                               SwingTrendAfter(bars, lookback, log[0].index + 1) != -log[0].direction))
  {
    hide BreakLog, DetectBreaks, DetectSwings, SameButFirstKind;
    BatchPrefixAgrees(bars, |bars|, lookback);
    assert bars[..|bars|] == bars;
    var log := BreakLog(bars, lookback);
    EqualLogs(log, DetectBreaks(bars, DetectSwings(bars, lookback), lookback));
    if log != [] {
      FirstBreakKind(bars, lookback);
    }
  }

  function DivergingBars(): seq<Bar> {
    [Bar(0, 5.0, 8.0, 4.0, 5.0, 0.0, 0.0, 1), Bar(1, 5.0, 10.0, 4.0, 5.0, 0.0, 0.0, 1),
     Bar(2, 5.0, 8.0, 1.0, 5.0, 0.0, 0.0, 1), Bar(3, 5.0, 12.0, 4.0, 5.0, 0.0, 0.0, 1),
     Bar(4, 5.0, 8.0, 2.0, 5.0, 0.0, 0.0, 1), Bar(5, 5.0, 8.0, 4.0, 5.0, 0.0, 0.0, 1),
     Bar(6, 5.0, 8.0, 1.5, 1.5, 0.0, 0.0, 1)]
  }

  lemma DivergingPivots()
    ensures SwingAt(DivergingBars(), 1, 1) == Some(Swing(1, 1, 10.0, High))
    ensures SwingAt(DivergingBars(), 2, 1) == Some(Swing(2, 2, 1.0, Low))
    ensures SwingAt(DivergingBars(), 3, 1) == Some(Swing(3, 3, 12.0, High))
    ensures SwingAt(DivergingBars(), 4, 1) == Some(Swing(4, 4, 2.0, Low))
    ensures SwingAt(DivergingBars(), 5, 1) == None
  {
    var bars := DivergingBars();
    assert IsHigh(bars, 1, 1) && IsLow(bars, 2, 1) && IsHigh(bars, 3, 1) && IsLow(bars, 4, 1);
    assert !IsHigh(bars, 2, 1) && !IsHigh(bars, 4, 1);
    assert !IsHigh(bars, 5, 1) by { assert bars[6].high >= bars[5].high; }
    assert !IsLow(bars, 5, 1) by { assert bars[6].low <= bars[5].low; }
  }

  lemma DivergingSwings()
    ensures DetectSwings(DivergingBars(), 1) ==
            [Swing(1, 1, 10.0, High), Swing(2, 2, 1.0, Low), Swing(3, 3, 12.0, High), Swing(4, 4, 2.0, Low)]
  {
    hide SwingAt, DetectSwings;
    var bars := DivergingBars();
    var swings := [Swing(1, 1, 10.0, High), Swing(2, 2, 1.0, Low), Swing(3, 3, 12.0, High), Swing(4, 4, 2.0, Low)];
    SwingsExact(bars, 1);
    DivergingPivots();
    forall s ensures IsSwing(bars, 1, s) <==> s in swings {
      if IsSwing(bars, 1, s) {
        assert s.index == 1 || s.index == 2 || s.index == 3 || s.index == 4 || s.index == 5;
      }
      assert swings[0] in swings && swings[1] in swings && swings[2] in swings && swings[3] in swings;
    }
    SortedUnique(DetectSwings(bars, 1), swings);
  }

  lemma OnlyCrossing(b: StructureBreak)
    requires Records(DivergingBars(), 1, b)
    ensures b.index == 6 && b.direction == -1
  {
    var bars := DivergingBars();
    DivergingSwings();
    SwingsExact(bars, 1);
    var s := SwingAt(bars, b.swingIndex, 1).value;
    assert IsSwing(bars, 1, s) && s in DetectSwings(bars, 1);
  }

  lemma DivergingTrend()
    ensures SwingTrendAfter(DivergingBars(), 1, 7) == 1
  {
    var bars := DivergingBars();
    DivergingSwings();
    assert bars[..7] == bars;
    var a, b, c, d := Swing(1, 1, 10.0, High), Swing(2, 2, 1.0, Low), Swing(3, 3, 12.0, High), Swing(4, 4, 2.0, Low);
    assert [a, b, c, d][1..] == [b, c, d] && [b, c, d][1..] == [c, d] && [c, d][1..] == [d];
    assert OfKind([d], High) == [] && OfKind([c, d], High) == [c] && OfKind([b, c, d], High) == [c];
    assert OfKind([d], Low) == [d] && OfKind([c, d], Low) == [d] && OfKind([b, c, d], Low) == [b, d];
  }

  /** The two really can differ: rising highs and lows, then a close below the last low. */
  lemma OnlineAndBatchCanDiffer()
    ensures BreakLog(DivergingBars(), 1) != DetectBreaks(DivergingBars(), DetectSwings(DivergingBars(), 1), 1).breaks
  {
    var bars := DivergingBars();
    DivergingSwings();
    SwingsExact(bars, 1);
    var s := Swing(4, 4, 2.0, Low);
    assert s == DetectSwings(bars, 1)[3];
    LogComplete(bars, 1, s);
    assert BrokenBefore(bars, s, 1, 7) by { assert Crosses(s, bars[6].close); }
    var log := BreakLog(bars, 1);
    LogRecords(bars, 1);
    assert log[0] in log && Records(bars, 1, log[0]);
    OnlyCrossing(log[0]);
    DivergingTrend();
    OnlineAgreesWithBatch(bars, 1);
  }
}
