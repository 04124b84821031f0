/** Price zones: how a bar creates them, the plain rule that retires them, and the naive zone
    book that applies the rule to every surviving zone on every bar. */
module Zones {
  import opened Common
  import opened MarketStructure
  import opened Text

  datatype ZoneKind = Fvg | OrderBlock | Eqh | Eql

  datatype MarketZone = MarketZone(indexStart: nat, indexEnd: nat, timestamp: int, low: real, high: real)

  /** A zone, the side it supports (0 for liquidity pools) and its kind. */
  datatype Entry = Entry(zone: MarketZone, direction: int, kind: ZoneKind)

  /** A cluster of equal highs (`isHigh`) or equal lows, as a pool detector reports it. */
  datatype Pool = Pool(isHigh: bool, price: real, swingIndexes: seq<nat>)

  type PoolDetector = seq<Swing> -> seq<Pool>

  const POOL_SWING_LOOKBACK := 24

  const BLOCK_LEG_BARS := 5

  // ---------------------------------------------------------------- identifiers

  function GapId(index: nat, bullish: bool): string {
    "FVG" + ":" + (Numeral(index) + ":" + if bullish then "BULLISH" else "BEARISH")
  }

  function BlockId(breakIndex: nat, index: nat, direction: int): string {
    "OB" + ":" + (Numeral(breakIndex) + ":" + (Numeral(index) + ":" + if direction > 0 then "1" else "-1"))
  }

  function Joined(indexes: seq<nat>): string {
    if indexes == [] then ""
    else if |indexes| == 1 then Numeral(indexes[0])
    else Numeral(indexes[0]) + "," + Joined(indexes[1..])
  }

  function PoolId(pool: Pool): string {
    (if pool.isHigh then "EQH" else "EQL") + ":" + Joined(pool.swingIndexes)
  }

  /** `id` names a gap or order block created on bar `bar`. */
  ghost predicate DirectionalId(id: string, bar: nat) {
    (exists bullish :: id == GapId(bar, bullish)) ||
    (exists index, direction :: id == BlockId(bar, index, direction))
  }

  ghost predicate PoolIdentifier(id: string) {
    exists pool :: id == PoolId(pool)
  }

  lemma GapIdBar(a: nat, x: bool, b: nat, y: bool)
    requires GapId(a, x) == GapId(b, y)
    ensures a == b
  {
    FieldUnique("FVG", Numeral(a) + ":" + if x then "BULLISH" else "BEARISH",
                "FVG", Numeral(b) + ":" + if y then "BULLISH" else "BEARISH");
    FieldUnique(Numeral(a), if x then "BULLISH" else "BEARISH", Numeral(b), if y then "BULLISH" else "BEARISH");
    NumeralInjective(a, b);
  }

  lemma BlockIdFields(a: nat, i: nat, x: int, b: nat, j: nat, y: int)
    requires BlockId(a, i, x) == BlockId(b, j, y)
    ensures a == b && i == j && (x > 0 <==> y > 0)
  {
    var (s, t) := (if x > 0 then "1" else "-1", if y > 0 then "1" else "-1");
    FieldUnique("OB", Numeral(a) + ":" + (Numeral(i) + ":" + s), "OB", Numeral(b) + ":" + (Numeral(j) + ":" + t));
    FieldUnique(Numeral(a), Numeral(i) + ":" + s, Numeral(b), Numeral(j) + ":" + t);
    FieldUnique(Numeral(i), s, Numeral(j), t);
    NumeralInjective(a, b);
    NumeralInjective(i, j);
    assert "1"[0] != "-1"[0];
  }

  lemma GapNotBlock(a: nat, bullish: bool, b: nat, index: nat, direction: int)
    ensures GapId(a, bullish) != BlockId(b, index, direction)
  {
    assert GapId(a, bullish)[0] != BlockId(b, index, direction)[0];
  }

  /** A gap or block identifier tells its bar. */
  lemma DirectionalIdUnique(id: string, a: nat, b: nat)
    requires DirectionalId(id, a) && DirectionalId(id, b)
    ensures a == b
  {
    hide GapId, BlockId;
    if x :| id == GapId(a, x) {
      if y :| id == GapId(b, y) {
        GapIdBar(a, x, b, y);
      } else {
        var j, y :| id == BlockId(b, j, y);
        GapNotBlock(a, x, b, j, y);
      }
    } else {
      var i, x :| id == BlockId(a, i, x);
      if j, y :| id == BlockId(b, j, y) {
        BlockIdFields(a, i, x, b, j, y);
      } else {
        var y :| id == GapId(b, y);
        GapNotBlock(b, y, a, i, x);
      }
    }
  }

  lemma PoolNotDirectional(id: string, bar: nat)
    requires PoolIdentifier(id)
    ensures !DirectionalId(id, bar)
  {
    assert id[0] == 'E';
  }

  // ---------------------------------------------------------------- creation

  /** The three-bar imbalance confirmed by the last bar. */
  function GapZones(bars: seq<Bar>): map<string, Entry> {
    if |bars| < 3 then map[]
    else
      var n := |bars| - 1;
      var (first, current) := (bars[n - 2], bars[n]);
      if current.low > first.high then
        map[GapId(n, true) := Entry(MarketZone(n - 2, n, current.timestamp, first.high, current.low), 1, Fvg)]
      else if current.high < first.low then
        map[GapId(n, false) := Entry(MarketZone(n - 2, n, current.timestamp, current.high, first.low), -1, Fvg)]
      else map[]
  }

  predicate Opposing(bar: Bar, direction: int) {
    if direction > 0 then bar.close < bar.open else bar.close > bar.open
  }

  /** The last opposing candle among the `BLOCK_LEG_BARS` bars before bar `j`, looking no further
      back than `floor`. */
  function BlockIndex(bars: seq<Bar>, direction: int, j: nat, floor: nat): (r: Option<nat>)
    requires j <= |bars|
    ensures r.Some? ==> floor <= r.value < j && Opposing(bars[r.value], direction)
    ensures forall k :: (if r.Some? then r.value + 1 else floor) <= k < j ==> !Opposing(bars[k], direction)
    decreases j
  {
    if j <= floor then None
    else if Opposing(bars[j - 1], direction) then Some(j - 1)
    else BlockIndex(bars, direction, j - 1, floor)
  }

  /** The order block behind a break made by the last bar. */
  function BlockFor(bars: seq<Bar>, direction: int): (r: Option<nat>)
    requires bars != []
    ensures r.Some? ==> r.value < |bars| - 1
  {
    var n := |bars| - 1;
    BlockIndex(bars, direction, n, if n < BLOCK_LEG_BARS then 0 else n - BLOCK_LEG_BARS)
  }

  function BlockEntry(bars: seq<Bar>, index: nat, direction: int): Entry
    requires index < |bars|
  {
    Entry(MarketZone(index, index, bars[|bars| - 1].timestamp, bars[index].low, bars[index].high),
          direction, OrderBlock)
  }

  function Sign(direction: int): int {
    if direction > 0 then 1 else -1
  }

  function BlockZones(bars: seq<Bar>, breaks: seq<StructureBreak>): map<string, Entry>
    requires bars != []
  {
    if breaks == [] then map[]
    else
      var direction := Sign(breaks[|breaks| - 1].direction);
      var before := BlockZones(bars, breaks[..|breaks| - 1]);
      match BlockFor(bars, direction)
      case None => before
      case Some(i) => before[BlockId(|bars| - 1, i, direction) := BlockEntry(bars, i, direction)]
  }

  function Least(indexes: seq<nat>): nat {
    if indexes == [] then 0
    else if |indexes| == 1 then indexes[0]
    else var r := Least(indexes[1..]); if indexes[0] < r then indexes[0] else r
  }

  function Greatest(indexes: seq<nat>): nat {
    if indexes == [] then 0
    else if |indexes| == 1 then indexes[0]
    else var r := Greatest(indexes[1..]); if indexes[0] > r then indexes[0] else r
  }

  function PoolEntry(pool: Pool, timestamp: int): Entry {
    Entry(MarketZone(Least(pool.swingIndexes), Greatest(pool.swingIndexes), timestamp, pool.price, pool.price), 0,
          if pool.isHigh then Eqh else Eql)
  }

  /** Pools not recognised on any earlier bar; a repeat within the list keeps the first. */
  function PoolZones(pools: seq<Pool>, seen: set<string>, timestamp: int): map<string, Entry> {
    if pools == [] then map[]
    else
      var last := pools[|pools| - 1];
      var before := PoolZones(pools[..|pools| - 1], seen, timestamp);
      if PoolId(last) in seen || PoolId(last) in before then before
      else before[PoolId(last) := PoolEntry(last, timestamp)]
  }

  // ---------------------------------------------------------------- retirement

  /** The plain rule: a close through the far boundary retires a gap or block; a wick through the
      level (once the pool is older than this bar) or a close through it retires a pool. */
  predicate Survives(e: Entry, bar: Bar, isNew: bool) {
    match e.kind
    case Eqh => bar.close <= e.zone.high && (isNew || bar.high <= e.zone.high)
    case Eql => e.zone.low <= bar.close && (isNew || e.zone.low <= bar.low)
    case _ => if e.direction > 0 then e.zone.low <= bar.close else bar.close <= e.zone.high
  }

  function Filtered(live: map<string, Entry>, added: map<string, Entry>, bar: Bar): map<string, Entry> {
    map id | id in live.Keys + added.Keys && Survives((live + added)[id], bar, id in added) :: (live + added)[id]
  }

  datatype ZoneBook = ZoneBook(live: map<string, Entry>, seen: set<string>)

  /** Pools are looked for only when the last bar confirms a swing. */
  function NewPools(bars: seq<Bar>, lookback: nat, detect: PoolDetector, seen: set<string>): map<string, Entry>
    requires bars != []
  {
    var n := |bars| - 1;
    if n < 2 * lookback || SwingAt(bars, n - lookback, lookback).None? then map[]
    else PoolZones(detect(TakeLast(DetectSwings(bars, lookback), POOL_SWING_LOOKBACK)), seen, bars[n].timestamp)
  }

  /** The zones the last bar creates. */
  function Added(bars: seq<Bar>, lookback: nat, detect: PoolDetector, seen: set<string>): map<string, Entry>
    requires bars != []
  {
    GapZones(bars) + BlockZones(bars, BreaksAtEnd(bars, lookback)) + NewPools(bars, lookback, detect, seen)
  }

  /** The naive zone book: after every bar, add its zones and filter them all by the plain rule. */
  function BookAfter(bars: seq<Bar>, lookback: nat, detect: PoolDetector): ZoneBook {
    if bars == [] then ZoneBook(map[], {})
    else
      var before := BookAfter(bars[..|bars| - 1], lookback, detect);
      var added := Added(bars, lookback, detect, before.seen);
      ZoneBook(Filtered(before.live, added, bars[|bars| - 1]),
               before.seen + NewPools(bars, lookback, detect, before.seen).Keys)
  }

  // ---------------------------------------------------------------- each zone lives once

  function Issued(bars: seq<Bar>, lookback: nat, detect: PoolDetector): set<string> {
    if bars == [] then {}
    else
      var front := bars[..|bars| - 1];
      Issued(front, lookback, detect) + Added(bars, lookback, detect, BookAfter(front, lookback, detect).seen).Keys
  }

  lemma GapIds(bars: seq<Bar>)
    requires bars != []
    ensures forall id :: id in GapZones(bars) ==> DirectionalId(id, |bars| - 1)
  {
  }

  lemma {:induction false} BlockIds(bars: seq<Bar>, breaks: seq<StructureBreak>)
    requires bars != []
    ensures forall id :: id in BlockZones(bars, breaks) ==> DirectionalId(id, |bars| - 1)
  {
    if breaks != [] {
      BlockIds(bars, breaks[..|breaks| - 1]);
    }
  }

  /** An order block's identifier decides its zone, so breaks sharing a bar can only repeat it. */
  lemma {:induction false} BlockZoneFixed(bars: seq<Bar>, breaks: seq<StructureBreak>, index: nat, direction: int)
    requires bars != [] && index < |bars| && (direction == 1 || direction == -1)
    requires BlockId(|bars| - 1, index, direction) in BlockZones(bars, breaks)
    ensures BlockZones(bars, breaks)[BlockId(|bars| - 1, index, direction)] == BlockEntry(bars, index, direction)
  {
    hide BlockId, BlockFor;
    if breaks != [] {
      var d := Sign(breaks[|breaks| - 1].direction);
      var found := BlockFor(bars, d);
      if found.Some? && BlockId(|bars| - 1, found.value, d) == BlockId(|bars| - 1, index, direction) {
        BlockIdFields(|bars| - 1, found.value, d, |bars| - 1, index, direction);
      } else {
        BlockZoneFixed(bars, breaks[..|breaks| - 1], index, direction);
      }
    }
  }

  lemma {:induction false} PoolIds(pools: seq<Pool>, seen: set<string>, timestamp: int)
    ensures forall id :: id in PoolZones(pools, seen, timestamp) ==> PoolIdentifier(id) && id !in seen
  {
    if pools != [] {
      PoolIds(pools[..|pools| - 1], seen, timestamp);
    }
  }

  lemma AddedIds(bars: seq<Bar>, lookback: nat, detect: PoolDetector, seen: set<string>)
    requires bars != []
    ensures forall id :: id in Added(bars, lookback, detect, seen) ==>
              DirectionalId(id, |bars| - 1) ||
              (PoolIdentifier(id) && id !in seen && id in NewPools(bars, lookback, detect, seen))
  {
    hide GapZones, BlockZones, PoolZones, DirectionalId, PoolIdentifier, BreaksAtEnd, DetectSwings, SwingAt;
    GapIds(bars);
    BlockIds(bars, BreaksAtEnd(bars, lookback));
    PoolIds(detect(TakeLast(DetectSwings(bars, lookback), POOL_SWING_LOOKBACK)), seen, bars[|bars| - 1].timestamp);
  }

  lemma {:induction false} IssuedIds(bars: seq<Bar>, lookback: nat, detect: PoolDetector)
    ensures forall id :: id in Issued(bars, lookback, detect) ==>
              (exists k :: 0 <= k < |bars| && DirectionalId(id, k)) ||
              (PoolIdentifier(id) && id in BookAfter(bars, lookback, detect).seen)
  {
    hide Added, NewPools, DirectionalId, PoolIdentifier, Filtered;
    if bars != [] {
      IssuedIds(bars[..|bars| - 1], lookback, detect);
      AddedIds(bars, lookback, detect, BookAfter(bars[..|bars| - 1], lookback, detect).seen);
    }
  }

  /** No bar ever reissues an identifier. */
  lemma NeverReissued(bars: seq<Bar>, lookback: nat, detect: PoolDetector)
    requires bars != []
    ensures var front := bars[..|bars| - 1];
            Added(bars, lookback, detect, BookAfter(front, lookback, detect).seen).Keys
            !! Issued(front, lookback, detect)
  {
    hide Added, NewPools, DirectionalId, PoolIdentifier, BookAfter, Issued;
    var front := bars[..|bars| - 1];
    var seen := BookAfter(front, lookback, detect).seen;
    AddedIds(bars, lookback, detect, seen);
    IssuedIds(front, lookback, detect);
    forall id | id in Added(bars, lookback, detect, seen)
      ensures id !in Issued(front, lookback, detect)
    {
      forall k | 0 <= k < |front| ensures !DirectionalId(id, k) {
        if DirectionalId(id, |front|) {
          if DirectionalId(id, k) { DirectionalIdUnique(id, |front|, k); }
        } else {
          PoolNotDirectional(id, k);
        }
      }
      if DirectionalId(id, |front|) && PoolIdentifier(id) { PoolNotDirectional(id, |front|); }
    }
  }

  lemma {:induction false} LiveWasIssued(bars: seq<Bar>, lookback: nat, detect: PoolDetector)
    ensures BookAfter(bars, lookback, detect).live.Keys <= Issued(bars, lookback, detect)
  {
    hide Added, NewPools;
    if bars != [] {
      LiveWasIssued(bars[..|bars| - 1], lookback, detect);
    }
  }

  lemma {:induction false} IssuedGrows(bars: seq<Bar>, m: nat, lookback: nat, detect: PoolDetector)
    requires m <= |bars|
    ensures Issued(bars[..m], lookback, detect) <= Issued(bars, lookback, detect)
  {
    hide Added;
    if m == |bars| {
      assert bars[..m] == bars;
    } else {
      var front := bars[..|bars| - 1];
      assert front[..m] == bars[..m];
      IssuedGrows(front, m, lookback, detect);
    }
  }

  /** A zone alive now that existed after the first `m` bars was alive then, as the same entry: a
      retired identifier never returns. */
  lemma {:induction false} RetiredForGood(bars: seq<Bar>, m: nat, lookback: nat, detect: PoolDetector, id: string)
    requires m <= |bars|
    requires id in Issued(bars[..m], lookback, detect) && id in BookAfter(bars, lookback, detect).live
    ensures id in BookAfter(bars[..m], lookback, detect).live
    ensures BookAfter(bars[..m], lookback, detect).live[id] == BookAfter(bars, lookback, detect).live[id]
  {
    hide Added, NewPools, Issued, Survives;
    if m == |bars| {
      assert bars[..m] == bars;
    } else {
      var front := bars[..|bars| - 1];
      assert front[..m] == bars[..m];
      IssuedGrows(front, m, lookback, detect);
      NeverReissued(bars, lookback, detect);
      RetiredForGood(front, m, lookback, detect, id);
    }
  }

  /** Each zone lives over one contiguous run of bars, unchanged. */
  lemma LivesOnce(bars: seq<Bar>, i: nat, j: nat, lookback: nat, detect: PoolDetector, id: string)
    requires i <= j <= |bars|
    requires id in BookAfter(bars[..i], lookback, detect).live && id in BookAfter(bars, lookback, detect).live
    ensures id in BookAfter(bars[..j], lookback, detect).live
    ensures BookAfter(bars[..j], lookback, detect).live[id] == BookAfter(bars, lookback, detect).live[id]
  {
    hide BookAfter, Issued;
    LiveWasIssued(bars[..i], lookback, detect);
    assert bars[..j][..i] == bars[..i];
    IssuedGrows(bars[..j], i, lookback, detect);
    RetiredForGood(bars, j, lookback, detect, id);
  }
}
