/** The snapshot a timeframe publishes after each candle, as a function of the candles so far. */
module Snapshots {
  import opened Common
  import opened MarketStructure
  import opened Zones
  import Text

  datatype Location = Premium | Equilibrium | Discount | Unknown

  datatype Phase = Pullback | Continuation

  datatype SwingState = InsufficientSwings | RisingSwings | FallingSwings | MixedSwings

  datatype StructuralRange = StructuralRange(low: real, high: real, lowIndex: nat, highIndex: nat)

  datatype KeyLevel = KeyLevel(index: nat, kind: SwingType, price: real, isWeak: bool, isProtected: bool)

  datatype Change = StateStart | Persistence | StructuralTransition | PhaseTransition | LocationMigration
                 | ZoneMigration | RangeTransition

  datatype Signature = Signature(trend: int, phase: Phase, location: Location, range: Option<(real, real)>,
                                 zoneIds: seq<string>)

  /** What depends on the current candle and the structure so far, but not on earlier snapshots. */
  datatype Reading = Reading(trend: int, phase: Phase, location: Location, ratio: Option<real>,
                             range: Option<StructuralRange>, ambiguous: bool, candidates: nat)

  datatype Snapshot = Snapshot(bar: Bar, barIndex: nat, reading: Reading, swingState: SwingState,
                               swings: seq<Swing>, breaks: seq<StructureBreak>, keyLevels: seq<KeyLevel>,
                               zoneIds: seq<string>, zones: seq<MarketZone>, signature: Signature,
                               transition: seq<Change>, duration: nat)

  const TAIL := 24

  const KEY_LEVELS := 8

  // ---------------------------------------------------------------- ranges and levels

  function RangeBetween(previous: Swing, latest: Swing): Option<StructuralRange> {
    if previous.kind == latest.kind then None
    else
      var (high, low) := if previous.kind == High then (previous, latest) else (latest, previous);
      if high.price > low.price then Some(StructuralRange(low.price, high.price, low.index, high.index)) else None
  }

  /** One range for each pair of consecutive opposing swings whose high lies above its low. */
  function RangesOf(swings: seq<Swing>): seq<StructuralRange> {
    if |swings| < 2 then []
    else
      RangesOf(swings[..|swings| - 1]) +
      match RangeBetween(swings[|swings| - 2], swings[|swings| - 1])
      case Some(r) => [r] case None => []
  }

  predicate Contains(r: StructuralRange, close: real) {
    r.low <= close <= r.high
  }

  /** The latest of the last three ranges, unless exactly one of the three contains the close. */
  function SelectRange(latest: seq<StructuralRange>, close: real): Option<StructuralRange> {
    var inside := Filter(latest, r => Contains(r, close));
    if |inside| == 1 then Some(inside[0]) else if latest != [] then Some(latest[0]) else None
  }

  predicate Ambiguous(latest: seq<StructuralRange>, close: real) {
    exists i, j :: 0 <= i < j < |latest| && Contains(latest[i], close) && Contains(latest[j], close) &&
                   (latest[i].low, latest[i].high) != (latest[j].low, latest[j].high)
  }

  function Reversed<T>(s: seq<T>): seq<T> {
    if s == [] then [] else Reversed(s[1..]) + [s[0]]
  }

  function PhaseOf(trend: int, close: real, highs: seq<Swing>, lows: seq<Swing>): Phase {
    if trend > 0 then
      if highs != [] && close >= highs[|highs| - 1].price then Continuation else Pullback
    else if trend < 0 then
      if lows != [] && close <= lows[|lows| - 1].price then Continuation else Pullback
    else Pullback
  }

  function SwingStateOf(highs: seq<Swing>, lows: seq<Swing>): SwingState {
    if |highs| < 2 || |lows| < 2 then InsufficientSwings
    else if SwingTrend(highs, lows) == 1 then RisingSwings
    else if SwingTrend(highs, lows) == -1 then FallingSwings
    else MixedSwings
  }

  function LocationOf(range: Option<StructuralRange>, close: real): (Location, Option<real>) {
    if range.None? || range.value.high <= range.value.low then (Unknown, None)
    else
      var ratio := (close - range.value.low) / (range.value.high - range.value.low);
      (if ratio > 0.5 then Premium else if ratio < 0.5 then Discount else Equilibrium, Some(ratio))
  }

  function Read(close: real, breaks: seq<StructureBreak>, highs: seq<Swing>, lows: seq<Swing>,
                ranges: seq<StructuralRange>): Reading {
    var trend := TrendOf(breaks, SwingTrend(highs, lows));
    var latest := Reversed(TakeLast(ranges, 3));
    var range := SelectRange(latest, close);
    var (location, ratio) := LocationOf(range, close);
    Reading(trend, PhaseOf(trend, close, highs, lows), location, ratio, range, Ambiguous(latest, close), |latest|)
  }

  // ---------------------------------------------------------------- protected swings

  /** The latest swing on the side a break in `direction` started from. */
  function Origin(highs: seq<Swing>, lows: seq<Swing>, direction: int): set<nat> {
    var side := if direction > 0 then lows else highs;
    if side == [] then {} else {side[|side| - 1].index}
  }

  function OriginsOf(breaks: seq<StructureBreak>, highs: seq<Swing>, lows: seq<Swing>): set<nat> {
    if breaks == [] then {}
    else
      var b := breaks[|breaks| - 1];
      OriginsOf(breaks[..|breaks| - 1], highs, lows) + if b.kind == Bos then Origin(highs, lows, b.direction) else {}
  }

  /** Swings from which some BOS started, read off at the bar of the break. */
  function ProtectedSwings(bars: seq<Bar>, lookback: nat): set<nat> {
    if bars == [] then {}
    else
      var swings := DetectSwings(bars, lookback);
      ProtectedSwings(bars[..|bars| - 1], lookback) +
      OriginsOf(BreaksAtEnd(bars, lookback), OfKind(swings, High), OfKind(swings, Low))
  }

  function WeakSwings(breaks: seq<StructureBreak>): set<nat> {
    set b | b in breaks && b.kind == Bos :: b.swingIndex
  }

  function LevelsOf(swings: seq<Swing>, weak: set<nat>, protected: set<nat>): seq<KeyLevel> {
    if swings == [] then []
    else
      var s := swings[0];
      [KeyLevel(s.index, s.kind, s.price, s.index in weak, s.index in protected)] +
      LevelsOf(swings[1..], weak, protected)
  }

  // ---------------------------------------------------------------- the published snapshot

  function SignatureOf(reading: Reading, zoneIds: seq<string>): Signature {
    Signature(reading.trend, reading.phase, reading.location,
              match reading.range case Some(r) => Some((r.low, r.high)) case None => None, zoneIds)
  }

  /** What changed between two signatures. */
  function Changes(previous: Option<Signature>, current: Signature): seq<Change> {
    if previous.None? then [StateStart]
    else if previous.value == current then [Persistence]
    else
      var p := previous.value;
      var labels := (if p.trend != current.trend then [StructuralTransition] else []) +
                    (if p.phase != current.phase then [PhaseTransition] else []) +
                    (if p.location != current.location then [LocationMigration] else []) +
                    (if p.zoneIds != current.zoneIds then [ZoneMigration] else []);
      if labels == [] then [RangeTransition] else labels
  }

  ghost function ReadingAfter(bars: seq<Bar>, lookback: nat): Reading
    requires bars != []
  {
    var swings := DetectSwings(bars, lookback);
    Read(bars[|bars| - 1].close, BreakLog(bars, lookback), OfKind(swings, High), OfKind(swings, Low), RangesOf(swings))
  }

  ghost function ZoneIdsAfter(bars: seq<Bar>, lookback: nat, detect: PoolDetector): seq<string> {
    Text.Sorted(BookAfter(bars, lookback, detect).live.Keys)
  }

  ghost function SignatureAfter(bars: seq<Bar>, lookback: nat, detect: PoolDetector): Option<Signature> {
    if bars == [] then None
    else Some(SignatureOf(ReadingAfter(bars, lookback), ZoneIdsAfter(bars, lookback, detect)))
  }

  /** Length of the run of equal signatures that ends at the last bar. */
  ghost function DurationAfter(bars: seq<Bar>, lookback: nat, detect: PoolDetector): nat {
    if bars == [] then 0
    else
      var front := bars[..|bars| - 1];
      if SignatureAfter(bars, lookback, detect) == SignatureAfter(front, lookback, detect)
      then DurationAfter(front, lookback, detect) + 1 else 1
  }

  function ZonesFor(ids: seq<string>, live: map<string, Entry>): seq<MarketZone>
    requires forall id :: id in ids ==> id in live
  {
    if ids == [] then [] else [live[ids[0]].zone] + ZonesFor(ids[1..], live)
  }

  /** The whole snapshot after the last of `bars`: nothing but the bars decides it. */
  ghost function SnapshotAfter(bars: seq<Bar>, lookback: nat, detect: PoolDetector): Snapshot
    requires bars != []
  {
    var (swings, breaks) := (DetectSwings(bars, lookback), BreakLog(bars, lookback));
    var ids := ZoneIdsAfter(bars, lookback, detect);
    var signature := SignatureAfter(bars, lookback, detect);
    Snapshot(bars[|bars| - 1], |bars| - 1, ReadingAfter(bars, lookback),
             SwingStateOf(OfKind(swings, High), OfKind(swings, Low)),
             TakeLast(swings, TAIL), TakeLast(breaks, TAIL),
             LevelsOf(TakeLast(swings, KEY_LEVELS), WeakSwings(breaks), ProtectedSwings(bars, lookback)),
             ids, ZonesFor(ids, BookAfter(bars, lookback, detect).live), signature.value,
             Changes(SignatureAfter(bars[..|bars| - 1], lookback, detect), signature.value),
             DurationAfter(bars, lookback, detect))
  }

  /** The history of a candle list: one snapshot per candle, each from the candles up to it. */
  ghost function History(bars: seq<Bar>, lookback: nat, detect: PoolDetector): (r: seq<Snapshot>)
    ensures |r| == |bars|
  {
    if bars == [] then []
    else History(bars[..|bars| - 1], lookback, detect) + [SnapshotAfter(bars, lookback, detect)]
  }

  /** Snapshots are never revised: the history of a prefix is a prefix of the history. */
  lemma {:induction false} HistoryPrefix(bars: seq<Bar>, k: nat, lookback: nat, detect: PoolDetector)
    requires k <= |bars|
    ensures History(bars[..k], lookback, detect) == History(bars, lookback, detect)[..k]
  {
    hide SnapshotAfter;
    if k == |bars| {
      assert bars[..k] == bars;
    } else {
      var front := bars[..|bars| - 1];
      assert front[..k] == bars[..k];
      HistoryPrefix(front, k, lookback, detect);
    }
  }

  /** The duration is the length of the longest run of bars, ending with the last, that share its
      signature. */
  lemma {:induction false} DurationIsRun(bars: seq<Bar>, lookback: nat, detect: PoolDetector)
    ensures var d := DurationAfter(bars, lookback, detect);
            d <= |bars| && (bars != [] ==> d >= 1) &&
            (forall k :: |bars| - d < k <= |bars| ==>
               SignatureAfter(bars[..k], lookback, detect) == SignatureAfter(bars, lookback, detect)) &&
            (d < |bars| ==>
               SignatureAfter(bars[..|bars| - d], lookback, detect) != SignatureAfter(bars, lookback, detect))
  {
    hide SignatureAfter;
    assert bars[..|bars|] == bars;
    if bars != [] {
      var front := bars[..|bars| - 1];
      DurationIsRun(front, lookback, detect);
      assert forall k :: 0 <= k <= |front| ==> front[..k] == bars[..k];
    }
  }
}
