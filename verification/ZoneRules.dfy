/** When a zone is live, in candle prices: it was created by one bar, and no candle since has retired it. */
module ZoneRules {
  import opened Common
  import opened MarketStructure
  import opened Zones
  import Text

  /** The zones bar `n` creates, given the pools seen before it. */
  function AddedAt(bars: seq<Bar>, n: nat, lookback: nat, detect: PoolDetector): map<string, Entry>
    requires n < |bars|
  {
    Added(bars[..n + 1], lookback, detect, BookAfter(bars[..n], lookback, detect).seen)
  }

  /** Bar `n` created the zone as this entry, and it survived that bar and every bar since. */
  ghost predicate LivesFrom(bars: seq<Bar>, lookback: nat, detect: PoolDetector, id: string, n: nat, e: Entry) {
    && n < |bars| && Get(AddedAt(bars, n, lookback, detect), id) == Some(e)
    && forall k :: n <= k < |bars| ==> Survives(e, bars[k], k == n)
  }

  lemma AddedWasIssued(bars: seq<Bar>, n: nat, lookback: nat, detect: PoolDetector, id: string)
    requires n < |bars| && id in AddedAt(bars, n, lookback, detect)
    ensures id in Issued(bars, lookback, detect)
  {
    hide Added, BookAfter;
    assert bars[..n + 1][..n] == bars[..n];
    IssuedGrows(bars, n + 1, lookback, detect);
  }

  lemma FrontAdded(bars: seq<Bar>, n: nat, lookback: nat, detect: PoolDetector)
    requires n + 1 < |bars|
    ensures AddedAt(bars[..|bars| - 1], n, lookback, detect) == AddedAt(bars, n, lookback, detect)
  {
    hide Added, BookAfter;
    assert bars[..|bars| - 1][..n + 1] == bars[..n + 1] && bars[..|bars| - 1][..n] == bars[..n];
  }

  lemma LongerLife(bars: seq<Bar>, lookback: nat, detect: PoolDetector, id: string, n: nat, e: Entry)
    requires bars != [] && n < |bars| - 1
    ensures LivesFrom(bars, lookback, detect, id, n, e) <==>
            LivesFrom(bars[..|bars| - 1], lookback, detect, id, n, e) && Survives(e, bars[|bars| - 1], false)
  {
    hide AddedAt, Survives;
    FrontAdded(bars, n, lookback, detect);
    var front := bars[..|bars| - 1];
    assert forall k :: n <= k < |front| ==> front[k] == bars[k];
  }

  lemma BookStep(bars: seq<Bar>, lookback: nat, detect: PoolDetector, id: string)
    requires bars != []
    ensures var (n, before) := (|bars| - 1, BookAfter(bars[..|bars| - 1], lookback, detect).live);
            var added := AddedAt(bars, n, lookback, detect);
            Get(BookAfter(bars, lookback, detect).live, id) ==
            if id in added then (if Survives(added[id], bars[n], true) then Some(added[id]) else None)
            else if id in before && Survives(before[id], bars[n], false) then Some(before[id])
            else None
  {
    hide Added, Survives, NewPools;
    assert bars[..|bars|] == bars;
  }

  lemma NothingLives(bars: seq<Bar>, lookback: nat, detect: PoolDetector, id: string)
    requires bars == []
    ensures forall n: nat, e :: !LivesFrom(bars, lookback, detect, id, n, e)
    ensures id !in BookAfter(bars, lookback, detect).live
  {
  }

  lemma LifeAll(bars: seq<Bar>, lookback: nat, detect: PoolDetector, id: string, n: nat, e: Entry)
    requires LivesFrom(bars, lookback, detect, id, n, e)
    ensures n < |bars| && Get(AddedAt(bars, n, lookback, detect), id) == Some(e)
    ensures forall k :: n <= k < |bars| ==> Survives(e, bars[k], k == n)
  {
    hide AddedAt, Survives;
  }

  /** What an earlier bar created, the last one does not. */
  lemma NotAgain(bars: seq<Bar>, lookback: nat, detect: PoolDetector, id: string, n: nat)
    requires n + 1 < |bars| && id in AddedAt(bars, n, lookback, detect)
    ensures id !in AddedAt(bars, |bars| - 1, lookback, detect)
  {
    hide Added, BookAfter, Issued;
    var front := bars[..|bars| - 1];
    FrontAdded(bars, n, lookback, detect);
    AddedWasIssued(front, n, lookback, detect, id);
    NeverReissued(bars, lookback, detect);
    assert bars[..|bars|] == bars;
  }

  lemma StillLives(bars: seq<Bar>, front: seq<Bar>, lookback: nat, detect: PoolDetector, id: string)
    requires bars != [] && front == bars[..|bars| - 1] && id in BookAfter(bars, lookback, detect).live
    requires id in BookAfter(front, lookback, detect).live ==>
               exists n: nat, e :: LivesFrom(front, lookback, detect, id, n, e)
    requires forall n: nat, e :: LivesFrom(front, lookback, detect, id, n, e) ==>
               Get(BookAfter(front, lookback, detect).live, id) == Some(e)
    ensures exists n: nat, e :: LivesFrom(bars, lookback, detect, id, n, e)
  {
    hide BookAfter, AddedAt, Survives;
    var m := |bars| - 1;
    BookStep(bars, lookback, detect, id);
    if id in AddedAt(bars, m, lookback, detect) {
      assert LivesFrom(bars, lookback, detect, id, m, AddedAt(bars, m, lookback, detect)[id]);
    } else {
      var n: nat, e :| LivesFrom(front, lookback, detect, id, n, e);
      LongerLife(bars, lookback, detect, id, n, e);
    }
  }

  /** A zone is live exactly when some bar created it and it survived every candle since; the entry is the one
      created. */
  lemma {:induction false} LifeExact(bars: seq<Bar>, lookback: nat, detect: PoolDetector, id: string)
    ensures forall n: nat, e :: LivesFrom(bars, lookback, detect, id, n, e) ==>
              Get(BookAfter(bars, lookback, detect).live, id) == Some(e)
    ensures id in BookAfter(bars, lookback, detect).live ==>
              exists n: nat, e :: LivesFrom(bars, lookback, detect, id, n, e)
  {
    hide BookAfter, AddedAt, Survives, LivesFrom, Issued;
    if bars == [] {
      NothingLives(bars, lookback, detect, id);
    } else {
      var front, m := bars[..|bars| - 1], |bars| - 1;
      LifeExact(front, lookback, detect, id);
      BookStep(bars, lookback, detect, id);
      forall n: nat, e | LivesFrom(bars, lookback, detect, id, n, e)
        ensures Get(BookAfter(bars, lookback, detect).live, id) == Some(e)
      {
        LifeAll(bars, lookback, detect, id, n, e);
        if n < m {
          LongerLife(bars, lookback, detect, id, n, e);
          NotAgain(bars, lookback, detect, id, n);
        }
      }
      if id in BookAfter(bars, lookback, detect).live {
        StillLives(bars, front, lookback, detect, id);
      }
    }
  }

  lemma LaterFront(bars: seq<Bar>, m: nat, n: nat, lookback: nat, detect: PoolDetector)
    requires m <= n < |bars|
    ensures AddedAt(bars[..n + 1], m, lookback, detect) == AddedAt(bars, m, lookback, detect)
    ensures AddedAt(bars[..n + 1], n, lookback, detect) == AddedAt(bars, n, lookback, detect)
  {
    hide Added, BookAfter;
    assert bars[..n + 1][..m + 1] == bars[..m + 1] && bars[..n + 1][..m] == bars[..m];
    assert bars[..n + 1][..n + 1] == bars[..n + 1] && bars[..n + 1][..n] == bars[..n];
  }

  lemma BornOnce(bars: seq<Bar>, lookback: nat, detect: PoolDetector, id: string, m: nat, n: nat)
    requires m < |bars| && n < |bars|
    requires id in AddedAt(bars, m, lookback, detect) && id in AddedAt(bars, n, lookback, detect)
    ensures m == n
  {
    hide AddedAt;
    if m < n {
      LaterFront(bars, m, n, lookback, detect);
      NotAgain(bars[..n + 1], lookback, detect, id, m);
    } else if n < m {
      LaterFront(bars, n, m, lookback, detect);
      NotAgain(bars[..m + 1], lookback, detect, id, n);
    }
  }

  lemma LifeIs(bars: seq<Bar>, lookback: nat, detect: PoolDetector, id: string, n: nat, e: Entry)
    requires n < |bars| && Get(AddedAt(bars, n, lookback, detect), id) == Some(e)
    ensures LivesFrom(bars, lookback, detect, id, n, e) <==>
            forall k :: n <= k < |bars| ==> Survives(e, bars[k], k == n)
  {
    hide AddedAt, Survives;
  }

  // ---------------------------------------------------------------- gaps

  /** Bar `n` leaves a gap to the bar two before it. */
  predicate GapAt(bars: seq<Bar>, n: nat, up: bool) {
    2 <= n < |bars| &&
    if up then bars[n - 2].high < bars[n].low else bars[n].high < bars[n - 2].low && bars[n].low <= bars[n - 2].high
  }

  function GapEntry(bars: seq<Bar>, n: nat, up: bool): Entry
    requires 2 <= n < |bars|
  {
    if up then Entry(MarketZone(n - 2, n, bars[n].timestamp, bars[n - 2].high, bars[n].low), 1, Fvg)
    else Entry(MarketZone(n - 2, n, bars[n].timestamp, bars[n].high, bars[n - 2].low), -1, Fvg)
  }

  lemma GapIdSide(n: nat, x: bool, y: bool)
    requires GapId(n, x) == GapId(n, y)
    ensures x == y
  {
    var (s, t) := (if x then "BULLISH" else "BEARISH", if y then "BULLISH" else "BEARISH");
    Text.FieldUnique("FVG", Text.Numeral(n) + ":" + s, "FVG", Text.Numeral(n) + ":" + t);
    Text.FieldUnique(Text.Numeral(n), s, Text.Numeral(n), t);
    assert "BULLISH"[1] != "BEARISH"[1];
  }

  lemma GapZonesAt(bars: seq<Bar>, n: nat, up: bool)
    requires bars != []
    ensures Get(GapZones(bars), GapId(n, up)) ==
            if |bars| - 1 == n && GapAt(bars, n, up) then Some(GapEntry(bars, n, up)) else None
  {
    hide GapId;
    var m := |bars| - 1;
    if GapId(m, true) == GapId(n, up) {
      GapIdBar(m, true, n, up);
      GapIdSide(m, true, up);
    }
    if GapId(m, false) == GapId(n, up) {
      GapIdBar(m, false, n, up);
      GapIdSide(m, false, up);
    }
  }

  lemma {:induction false} NoBlockIsGap(bars: seq<Bar>, breaks: seq<StructureBreak>, n: nat, up: bool)
    requires bars != []
    ensures GapId(n, up) !in BlockZones(bars, breaks)
  {
    hide GapId, BlockId, BlockFor, BlockEntry;
    if breaks != [] {
      NoBlockIsGap(bars, breaks[..|breaks| - 1], n, up);
      var d := Sign(breaks[|breaks| - 1].direction);
      var found := BlockFor(bars, d);
      if found.Some? {
        GapNotBlock(n, up, |bars| - 1, found.value, d);
      }
    }
  }

  lemma GapAdded(bars: seq<Bar>, m: nat, lookback: nat, detect: PoolDetector, n: nat, up: bool)
    requires m < |bars|
    ensures Get(AddedAt(bars, m, lookback, detect), GapId(n, up)) ==
            if m == n && GapAt(bars, n, up) then Some(GapEntry(bars, n, up)) else None
  {
    hide GapId, BlockZones, BreaksAtEnd, DetectSwings, SwingAt, PoolZones, BookAfter;
    var now, id := bars[..m + 1], GapId(n, up);
    var seen := BookAfter(bars[..m], lookback, detect).seen;
    NoBlockIsGap(now, BreaksAtEnd(now, lookback), n, up);
    PoolIds(detect(TakeLast(DetectSwings(now, lookback), POOL_SWING_LOOKBACK)), seen, now[m].timestamp);
    if PoolIdentifier(id) {
      PoolNotDirectional(id, n);
    }
    GapZonesAt(now, n, up);
  }

  /** The live gaps are exactly those no candle has closed through since: a bullish gap lies between the high two
      bars back and the bar's low, and no close since has been below it; a bearish one the other way round. */
  lemma GapsExact(bars: seq<Bar>, lookback: nat, detect: PoolDetector, n: nat, up: bool)
    ensures var live := BookAfter(bars, lookback, detect).live;
            (GapId(n, up) in live <==>
             GapAt(bars, n, up) &&
             forall k :: n <= k < |bars| ==>
               if up then bars[n - 2].high <= bars[k].close else bars[k].close <= bars[n - 2].low) &&
            (GapId(n, up) in live ==> 2 <= n < |bars| && live[GapId(n, up)] == GapEntry(bars, n, up))
  {
    hide BookAfter, AddedAt, LivesFrom, GapId;
    var id := GapId(n, up);
    LifeExact(bars, lookback, detect, id);
    if m: nat, e :| LivesFrom(bars, lookback, detect, id, m, e) {
      LifeAll(bars, lookback, detect, id, m, e);
      GapAdded(bars, m, lookback, detect, n, up);
    }
    if GapAt(bars, n, up) {
      GapAdded(bars, n, lookback, detect, n, up);
      LifeIs(bars, lookback, detect, id, n, GapEntry(bars, n, up));
    }
  }

  // ---------------------------------------------------------------- order blocks

  predicate Against(bar: Bar, up: bool) {
    if up then bar.close < bar.open else bar.open < bar.close
  }

  /** Candle `i` is the last one against the break among the five before bar `n`. */
  predicate LegStartsAt(bars: seq<Bar>, n: nat, i: nat, up: bool) {
    i < n < |bars| && n <= i + 5 && Against(bars[i], up) && forall k :: i < k < n ==> !Against(bars[k], up)
  }

  /** Bar `n` breaks a swing in the direction. */
  ghost predicate BrokenAt(bars: seq<Bar>, n: nat, lookback: nat, up: bool) {
    n < |bars| && exists b :: b in BreaksAtEnd(bars[..n + 1], lookback) && (b.direction > 0) == up
  }

  function Way(up: bool): int {
    if up then 1 else -1
  }

  lemma LegFound(bars: seq<Bar>, i: nat, up: bool)
    requires bars != []
    ensures BlockFor(bars, Way(up)) == Some(i) <==> LegStartsAt(bars, |bars| - 1, i, up)
  {
  }

  lemma {:induction false} BlockAdded(bars: seq<Bar>, breaks: seq<StructureBreak>, i: nat, up: bool)
    requires bars != []
    ensures BlockId(|bars| - 1, i, Way(up)) in BlockZones(bars, breaks) <==>
            LegStartsAt(bars, |bars| - 1, i, up) && exists b :: b in breaks && (b.direction > 0) == up
  {
    hide BlockId, BlockFor, BlockEntry, LegStartsAt;
    if breaks != [] {
      var last, m := breaks[|breaks| - 1], |bars| - 1;
      var d := Sign(last.direction);
      BlockAdded(bars, breaks[..|breaks| - 1], i, up);
      LegFound(bars, i, up);
      var found := BlockFor(bars, d);
      if found.Some? && BlockId(m, found.value, d) == BlockId(m, i, Way(up)) {
        BlockIdFields(m, found.value, d, m, i, Way(up));
      }
    }
  }

  /** The block left on candle `i` by a break of bar `n`. */
  function BlockLeft(bars: seq<Bar>, n: nat, i: nat, up: bool): Entry
    requires i < n < |bars|
  {
    Entry(MarketZone(i, i, bars[n].timestamp, bars[i].low, bars[i].high), Way(up), OrderBlock)
  }

  lemma NoGapIsBlock(bars: seq<Bar>, n: nat, i: nat, d: int)
    ensures BlockId(n, i, d) !in GapZones(bars)
  {
    hide GapId, BlockId;
    if bars != [] {
      GapNotBlock(|bars| - 1, true, n, i, d);
      GapNotBlock(|bars| - 1, false, n, i, d);
    }
  }

  lemma LegFront(bars: seq<Bar>, n: nat, i: nat, up: bool)
    requires n < |bars|
    ensures LegStartsAt(bars[..n + 1], n, i, up) <==> LegStartsAt(bars, n, i, up)
    ensures LegStartsAt(bars, n, i, up) ==> i < n
  {
    assert forall k :: 0 <= k <= n ==> bars[..n + 1][k] == bars[k];
  }

  lemma BlockCreated(bars: seq<Bar>, m: nat, lookback: nat, detect: PoolDetector, n: nat, i: nat, up: bool)
    requires m < |bars|
    ensures BlockId(n, i, Way(up)) in AddedAt(bars, m, lookback, detect) <==>
            m == n && BrokenAt(bars, n, lookback, up) && LegStartsAt(bars, n, i, up)
    ensures BlockId(n, i, Way(up)) in AddedAt(bars, m, lookback, detect) ==>
            AddedAt(bars, m, lookback, detect)[BlockId(n, i, Way(up))] == BlockLeft(bars, n, i, up)
  {
    hide GapId, BlockId, BlockZones, GapZones, BreaksAtEnd, DetectSwings, SwingAt, PoolZones, BookAfter, LegStartsAt;
    var now, id := bars[..m + 1], BlockId(n, i, Way(up));
    var seen, breaks := BookAfter(bars[..m], lookback, detect).seen, BreaksAtEnd(now, lookback);
    PoolIds(detect(TakeLast(DetectSwings(now, lookback), POOL_SWING_LOOKBACK)), seen, now[m].timestamp);
    if PoolIdentifier(id) {
      PoolNotDirectional(id, n);
    }
    GapIds(now);
    BlockIds(now, breaks);
    if DirectionalId(id, m) {
      DirectionalIdUnique(id, m, n);
    }
    NoGapIsBlock(now, n, i, Way(up));
    if m == n {
      BlockAdded(now, breaks, i, up);
      LegFront(bars, n, i, up);
      if id in BlockZones(now, breaks) {
        BlockZoneFixed(now, breaks, i, Way(up));
      }
    }
  }

  /** The live order blocks are exactly the last candle against each break, within five bars of it, through whose
      far side no candle has closed from the break on. */
  lemma BlocksExact(bars: seq<Bar>, lookback: nat, detect: PoolDetector, n: nat, i: nat, up: bool)
    ensures var (live, id) := (BookAfter(bars, lookback, detect).live, BlockId(n, i, Way(up)));
            (id in live <==>
             BrokenAt(bars, n, lookback, up) && LegStartsAt(bars, n, i, up) &&
             forall k :: n <= k < |bars| ==>
               if up then bars[i].low <= bars[k].close else bars[k].close <= bars[i].high) &&
            (id in live ==> i < n < |bars| && live[id] == BlockLeft(bars, n, i, up))
  {
    hide BookAfter, AddedAt, LivesFrom, BlockId, BrokenAt, Issued;
    var id := BlockId(n, i, Way(up));
    LifeExact(bars, lookback, detect, id);
    if m: nat, e :| LivesFrom(bars, lookback, detect, id, m, e) {
      LifeAll(bars, lookback, detect, id, m, e);
      BlockCreated(bars, m, lookback, detect, n, i, up);
    }
    if BrokenAt(bars, n, lookback, up) && LegStartsAt(bars, n, i, up) {
      BlockCreated(bars, n, lookback, detect, n, i, up);
      LifeIs(bars, lookback, detect, id, n, BlockLeft(bars, n, i, up));
    }
  }

  // ---------------------------------------------------------------- liquidity pools

  lemma JoinedCut(a: nat, s: seq<nat>, b: nat, t: seq<nat>)
    requires Text.Numeral(a) + "," + Joined(s) == Text.Numeral(b) + "," + Joined(t)
    ensures a == b && Joined(s) == Joined(t)
  {
    hide Joined;
    Text.CutUnique(',', Text.Numeral(a), Joined(s), Text.Numeral(b), Joined(t));
    Text.NumeralInjective(a, b);
  }

  lemma OneIsNotMany(a: nat, b: nat, rest: string)
    ensures Text.Numeral(a) != Text.Numeral(b) + "," + rest
  {
    assert (Text.Numeral(b) + "," + rest)[|Text.Numeral(b)|] == ',';
  }

  lemma JoinedMore(s: seq<nat>)
    ensures s == [] ==> Joined(s) == ""
    ensures |s| == 1 ==> Joined(s) == Text.Numeral(s[0])
    ensures |s| > 1 ==> Joined(s) == Text.Numeral(s[0]) + "," + Joined(s[1..])
    ensures s != [] ==> Joined(s) != ""
  {
  }

  /** Indexes joined by commas can be read back. */
  lemma {:induction false} JoinedInjective(s: seq<nat>, t: seq<nat>)
    requires Joined(s) == Joined(t)
    ensures s == t
  {
    hide Joined, Text.Numeral;
    JoinedMore(s);
    JoinedMore(t);
    if |s| > 1 && |t| > 1 {
      JoinedCut(s[0], s[1..], t[0], t[1..]);
      JoinedInjective(s[1..], t[1..]);
      assert s == [s[0]] + s[1..] && t == [t[0]] + t[1..];
    } else if |s| == 1 && |t| == 1 {
      Text.NumeralInjective(s[0], t[0]);
    } else if |s| == 1 && |t| > 1 {
      OneIsNotMany(s[0], t[0], Joined(t[1..]));
    } else if |s| > 1 && |t| == 1 {
      OneIsNotMany(t[0], s[0], Joined(s[1..]));
    }
  }

  /** A pool's name tells its kind and its swings, and nothing else: two pools share a name exactly when they are
      the same side of the same swings. */
  lemma PoolNames(a: Pool, b: Pool)
    ensures PoolId(a) == PoolId(b) <==> a.isHigh == b.isHigh && a.swingIndexes == b.swingIndexes
    ensures PoolId(a)[..4] == if a.isHigh then "EQH:" else "EQL:"
  {
    hide Joined;
    var (s, t) := (if a.isHigh then "EQH" else "EQL", if b.isHigh then "EQH" else "EQL");
    if PoolId(a) == PoolId(b) {
      Text.FieldUnique(s, Joined(a.swingIndexes), t, Joined(b.swingIndexes));
      assert "EQH"[2] != "EQL"[2];
      JoinedInjective(a.swingIndexes, b.swingIndexes);
    }
  }

  /** Bar `n` confirms a swing, and the pool is among those found in the 24 swings known then. */
  ghost predicate FoundAt(bars: seq<Bar>, n: nat, lookback: nat, detect: PoolDetector, pool: Pool) {
    n < |bars| && n >= 2 * lookback && SwingAt(bars[..n + 1], n - lookback, lookback).Some? &&
    pool in detect(TakeLast(DetectSwings(bars[..n + 1], lookback), 24))
  }

  /** A zone as wide as the pool's members and as flat as its level. */
  ghost predicate PoolShape(e: Entry, pool: Pool, timestamp: int) {
    && e.zone.low == pool.price == e.zone.high && e.zone.timestamp == timestamp
    && e.direction == 0 && e.kind == (if pool.isHigh then Eqh else Eql)
    && (pool.swingIndexes != [] ==>
          e.zone.indexStart in pool.swingIndexes && e.zone.indexEnd in pool.swingIndexes)
    && forall x :: x in pool.swingIndexes ==> e.zone.indexStart <= x <= e.zone.indexEnd
  }

  lemma {:induction false} LeastIs(indexes: seq<nat>)
    ensures indexes != [] ==> Least(indexes) in indexes
    ensures forall x :: x in indexes ==> Least(indexes) <= x
  {
    if indexes != [] {
      LeastIs(indexes[1..]);
      assert indexes == [indexes[0]] + indexes[1..];
    }
  }

  lemma {:induction false} GreatestIs(indexes: seq<nat>)
    ensures indexes != [] ==> Greatest(indexes) in indexes
    ensures forall x :: x in indexes ==> x <= Greatest(indexes)
  {
    if indexes != [] {
      GreatestIs(indexes[1..]);
      assert indexes == [indexes[0]] + indexes[1..];
    }
  }

  lemma PoolShaped(pool: Pool, timestamp: int)
    ensures PoolShape(PoolEntry(pool, timestamp), pool, timestamp)
  {
    LeastIs(pool.swingIndexes);
    GreatestIs(pool.swingIndexes);
  }

  /** New pools are those whose name was not seen before, each shaped after a pool of that name. */
  lemma {:induction false} PoolAdded(pools: seq<Pool>, seen: set<string>, timestamp: int, id: string)
    ensures id in PoolZones(pools, seen, timestamp) <==> id !in seen && exists p :: p in pools && PoolId(p) == id
    ensures id in PoolZones(pools, seen, timestamp) ==>
            exists p :: p in pools && PoolId(p) == id && PoolShape(PoolZones(pools, seen, timestamp)[id], p, timestamp)
  {
    hide PoolId, PoolShape, PoolEntry;
    if pools != [] {
      var last := pools[|pools| - 1];
      PoolAdded(pools[..|pools| - 1], seen, timestamp, id);
      PoolShaped(last, timestamp);
      assert pools == pools[..|pools| - 1] + [last];
    }
  }

  lemma PoolCreated(bars: seq<Bar>, n: nat, lookback: nat, detect: PoolDetector, id: string)
    requires n < |bars| && PoolIdentifier(id)
    ensures id in AddedAt(bars, n, lookback, detect) <==>
            id !in BookAfter(bars[..n], lookback, detect).seen &&
            exists p :: FoundAt(bars, n, lookback, detect, p) && PoolId(p) == id
    ensures id in AddedAt(bars, n, lookback, detect) ==>
            exists p :: FoundAt(bars, n, lookback, detect, p) && PoolId(p) == id &&
                        PoolShape(AddedAt(bars, n, lookback, detect)[id], p, bars[n].timestamp)
  {
    hide GapZones, BlockZones, PoolZones, BreaksAtEnd, DetectSwings, SwingAt, BookAfter, PoolId, PoolIdentifier,
      DirectionalId, PoolShape, Issued;
    var now, seen := bars[..n + 1], BookAfter(bars[..n], lookback, detect).seen;
    GapIds(now);
    BlockIds(now, BreaksAtEnd(now, lookback));
    PoolNotDirectional(id, n);
    PoolAdded(detect(TakeLast(DetectSwings(now, lookback), POOL_SWING_LOOKBACK)), seen, bars[n].timestamp, id);
  }

  /** Every live pool was found on a bar that confirmed a swing, takes that pool's level and span, and has not been
      taken since: no close past its level, and no wick past it after the bar that found it. */
  lemma PoolsHold(bars: seq<Bar>, lookback: nat, detect: PoolDetector, id: string)
    requires PoolIdentifier(id) && id in BookAfter(bars, lookback, detect).live
    ensures exists n: nat, p ::
              FoundAt(bars, n, lookback, detect, p) && PoolId(p) == id &&
              PoolShape(BookAfter(bars, lookback, detect).live[id], p, bars[n].timestamp) &&
              forall k :: n <= k < |bars| ==>
                if p.isHigh then bars[k].close <= p.price && (n < k ==> bars[k].high <= p.price)
                else p.price <= bars[k].close && (n < k ==> p.price <= bars[k].low)
  {
    hide BookAfter, AddedAt, LivesFrom, PoolId, PoolIdentifier, FoundAt, Issued;
    LifeExact(bars, lookback, detect, id);
    var n: nat, e :| LivesFrom(bars, lookback, detect, id, n, e);
    LifeAll(bars, lookback, detect, id, n, e);
    PoolCreated(bars, n, lookback, detect, id);
    var p :| FoundAt(bars, n, lookback, detect, p) && PoolId(p) == id && PoolShape(e, p, bars[n].timestamp);
  }

  /** A pool taken by no candle since a bar first found one of its name is still live. */
  lemma PoolsKept(bars: seq<Bar>, lookback: nat, detect: PoolDetector, n: nat, pool: Pool)
    requires FoundAt(bars, n, lookback, detect, pool)
    requires PoolId(pool) !in BookAfter(bars[..n], lookback, detect).seen
    requires forall p :: FoundAt(bars, n, lookback, detect, p) && PoolId(p) == PoolId(pool) ==>
               p.price == pool.price && p.isHigh == pool.isHigh
    ensures PoolId(pool) in BookAfter(bars, lookback, detect).live <==>
            forall k :: n <= k < |bars| ==>
              if pool.isHigh then bars[k].close <= pool.price && (n < k ==> bars[k].high <= pool.price)
              else pool.price <= bars[k].close && (n < k ==> pool.price <= bars[k].low)
  {
    hide BookAfter, AddedAt, LivesFrom, PoolId, SwingAt, DetectSwings, Issued;
    var id := PoolId(pool);
    assert PoolIdentifier(id);
    LifeExact(bars, lookback, detect, id);
    PoolCreated(bars, n, lookback, detect, id);
    var e := AddedAt(bars, n, lookback, detect)[id];
    var p :| FoundAt(bars, n, lookback, detect, p) && PoolId(p) == id && PoolShape(e, p, bars[n].timestamp);
    assert PoolShape(e, p, bars[n].timestamp);
    LifeIs(bars, lookback, detect, id, n, e);
    if m: nat, f :| LivesFrom(bars, lookback, detect, id, m, f) {
      LifeAll(bars, lookback, detect, id, m, f);
      BornOnce(bars, lookback, detect, id, m, n);
    }
  }
}
