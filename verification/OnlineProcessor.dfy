/** `_OnlineTimeframeProcessor`: the mutable processor itself. */
module OnlineProcessor {
  import opened Common
  import opened MarketStructure
  import opened Zones
  import opened Snapshots
  import opened TimeframeProcessor
  import HeapQueue
  import Text

  /** The keys in ascending order: repeatedly take a least one. */
  method SortKeys(keys: set<string>) returns (r: seq<string>)
    ensures r == Text.Sorted(keys)
  {
    hide Text.AtMost;
    r := [];
    var left := keys;
    while left != {}
      invariant left <= keys && Text.Ascending(r)
      invariant forall k :: k in r <==> k in keys - left
      invariant forall k, m :: k in r && m in left ==> Text.AtMost(k, m)
      decreases |left|
    {
      Text.HasLeast(left);
      var m :| m in left && forall k :: k in left ==> Text.AtMost(m, k);
      Text.AscendingAppend(r, m);
      r := r + [m];
      left := left - {m};
    }
    Text.SortedAscends(keys);
    Text.AscendingUnique(r, Text.Sorted(keys));
  }

  lemma LiveNotDirectional(front: seq<Bar>, lookback: nat, detect: PoolDetector)
    ensures forall id :: id in BookAfter(front, lookback, detect).live ==> !DirectionalId(id, |front|)
  {
    hide BookAfter, DirectionalId, PoolIdentifier, Issued;
    LiveWasIssued(front, lookback, detect);
    IssuedIds(front, lookback, detect);
    forall id | id in BookAfter(front, lookback, detect).live ensures !DirectionalId(id, |front|) {
      if PoolIdentifier(id) {
        PoolNotDirectional(id, |front|);
      } else {
        var k :| 0 <= k < |front| && DirectionalId(id, k);
        if DirectionalId(id, |front|) { DirectionalIdUnique(id, k, |front|); }
      }
    }
  }

  lemma {:induction false} PoolKinds(pools: seq<Pool>, seen: set<string>, timestamp: int)
    ensures forall id :: id in PoolZones(pools, seen, timestamp) ==> IsPool(PoolZones(pools, seen, timestamp)[id])
  {
    if pools != [] {
      PoolKinds(pools[..|pools| - 1], seen, timestamp);
    }
  }

  /** New pool identifiers name no zone that is live or was created as a gap or block on this bar. */
  lemma NewPoolsFresh(front: seq<Bar>, bar: Bar, lookback: nat, detect: PoolDetector, base: map<string, Entry>)
    requires var bars := front + [bar];
             base == BookAfter(front, lookback, detect).live + GapZones(bars) +
                 BlockZones(bars, BreaksAtEnd(bars, lookback))
    ensures var pools := NewPools(front + [bar], lookback, detect, BookAfter(front, lookback, detect).seen);
            base.Keys !! pools.Keys && forall id :: id in pools ==> IsPool(pools[id])
  {
    hide BookAfter, DirectionalId, PoolIdentifier, Issued, GapZones, BlockZones, PoolZones, SwingAt, DetectSwings,
         BreaksAtEnd, IsPool;
    var bars := front + [bar];
    assert bars[..|bars| - 1] == front;
    var seen := BookAfter(front, lookback, detect).seen;
    var found := detect(TakeLast(DetectSwings(bars, lookback), POOL_SWING_LOOKBACK));
    NeverReissued(bars, lookback, detect);
    LiveWasIssued(front, lookback, detect);
    GapIds(bars);
    BlockIds(bars, BreaksAtEnd(bars, lookback));
    PoolIds(found, seen, bar.timestamp);
    PoolKinds(found, seen, bar.timestamp);
    forall id | id in NewPools(bars, lookback, detect, seen) ensures id !in base {
      PoolNotDirectional(id, |bars| - 1);
      assert id in Added(bars, lookback, detect, seen);
    }
  }

  lemma PoolsApart(base: map<string, Entry>, pools: map<string, Entry>, swept: set<string>)
    requires base.Keys !! pools.Keys && swept <= base.Keys
    ensures base + pools - swept == base - swept + pools
    ensures (base - swept).Keys !! pools.Keys
  {
  }

  lemma {:induction false} DirectionalKinds(bars: seq<Bar>, breaks: seq<StructureBreak>)
    requires bars != []
    ensures forall id :: id in GapZones(bars) ==> !IsPool(GapZones(bars)[id])
    ensures forall id :: id in BlockZones(bars, breaks) ==> !IsPool(BlockZones(bars, breaks)[id])
  {
    if breaks != [] {
      DirectionalKinds(bars, breaks[..|breaks| - 1]);
    }
  }

  lemma PlainRule(e: Entry, bar: Bar, isNew: bool)
    requires Sane(bar) && (isNew ==> !IsPool(e))
    ensures Survives(e, bar, isNew) <==> !Swept(e, bar)
  {
  }

  function Kept(added: map<string, Entry>, ids: seq<string>, bar: Bar): map<string, Entry> {
    map id | id in added && id in ids && Survives(added[id], bar, true) :: added[id]
  }

  /** The zones of `live` the bar's prices retire. */
  function SweptIn(live: map<string, Entry>, bar: Bar): set<string> {
    set id | id in live && Swept(live[id], bar)
  }

  lemma FilterSplit(live: map<string, Entry>, directional: map<string, Entry>, pools: map<string, Entry>, bar: Bar,
                    newIds: seq<string>)
    requires Sane(bar) && (live + directional).Keys !! pools.Keys && forall id :: id in newIds <==> id in pools
    requires forall id :: id in directional ==> !IsPool(directional[id])
    ensures var base := live + directional;
            Filtered(live, directional + pools, bar) == base - SweptIn(base, bar) + Kept(pools, newIds, bar)
  {
    hide Survives, Swept;
    var base := live + directional;
    forall id | id in base
      ensures Survives(base[id], bar, id in directional) <==> !Swept(base[id], bar)
    {
      PlainRule(base[id], bar, id in directional);
    }
    assert live + (directional + pools) == base + pools;
  }

  /** `ids` lists the members of `keys`, each once. */
  ghost predicate Lists(ids: seq<string>, keys: set<string>) {
    && (forall id :: id in ids <==> id in keys)
    && (forall i, j :: 0 <= i < j < |ids| ==> ids[i] != ids[j])
  }

  lemma ListsMembers(ids: seq<string>, keys: set<string>)
    requires Lists(ids, keys)
    ensures forall id :: id in ids <==> id in keys
  {
  }

  /** What the price heaps leave, plus the new pools not closed through, is the naive filter's book. */
  lemma BookStep(front: seq<Bar>, bar: Bar, lookback: nat, detect: PoolDetector, newIds: seq<string>)
    requires Sane(bar)
    requires Lists(newIds, NewPools(front + [bar], lookback, detect, BookAfter(front, lookback, detect).seen).Keys)
    ensures var bars := front + [bar];
            var before := BookAfter(front, lookback, detect);
            var base := before.live + GapZones(bars) + BlockZones(bars, BreaksAtEnd(bars, lookback));
            var pools := NewPools(bars, lookback, detect, before.seen);
            BookAfter(bars, lookback, detect) ==
            ZoneBook(base - SweptIn(base, bar) + Kept(pools, newIds, bar), before.seen + pools.Keys)
  {
    hide GapZones, BlockZones, PoolZones, BreaksAtEnd, SwingAt, DetectSwings, NewPools, Filtered, Kept, SweptIn;
    var bars := front + [bar];
    assert bars[..|bars| - 1] == front;
    var before := BookAfter(front, lookback, detect);
    var (gap, block, pools) := (GapZones(bars), BlockZones(bars, BreaksAtEnd(bars, lookback)),
                                NewPools(bars, lookback, detect, before.seen));
    NewPoolsFresh(front, bar, lookback, detect, before.live + gap + block);
    DirectionalKinds(bars, BreaksAtEnd(bars, lookback));
    ListsMembers(newIds, pools.Keys);
    FilterSplit(before.live, gap + block, pools, bar, newIds);
    assert before.live + gap + block == before.live + (gap + block);
  }

  /** The parts of the published snapshot that depend on the previous one. */
  lemma SnapshotParts(front: seq<Bar>, bar: Bar, lookback: nat, detect: PoolDetector, signature: Signature)
    requires Some(signature) == SignatureAfter(front + [bar], lookback, detect)
    ensures DurationAfter(front + [bar], lookback, detect) ==
            if SignatureAfter(front, lookback, detect) == Some(signature)
            then DurationAfter(front, lookback, detect) + 1 else 1
  {
    hide SignatureAfter;
    assert (front + [bar])[..|front|] == front;
  }

  lemma PoolEntryIsPool(pool: Pool, timestamp: int)
    ensures IsPool(PoolEntry(pool, timestamp))
  {
  }

  lemma PoolsInAdd(live: map<string, Entry>, id: string, e: Entry)
    requires IsPool(e)
    ensures PoolsIn(live[id := e]) == PoolsIn(live)[id := e]
  {
  }

  lemma PoolMember(live: map<string, Entry>, id: string)
    requires id in live && IsPool(live[id])
    ensures id in PoolsIn(live) && PoolsIn(live)[id] == live[id]
  {
  }

  function Dropped(added: map<string, Entry>, ids: seq<string>, bar: Bar): set<string> {
    set id | id in added && id in ids && !Survives(added[id], bar, true)
  }

  lemma KeptNone(base: map<string, Entry>, added: map<string, Entry>, ids: seq<string>, bar: Bar)
    ensures base + added - Dropped(added, ids[..0], bar) == base + added
    ensures base + Kept(added, ids[..0], bar) == base
  {
  }

  lemma KeptAll(base: map<string, Entry>, added: map<string, Entry>, ids: seq<string>, bar: Bar)
    requires base.Keys !! added.Keys && forall id :: id in ids <==> id in added
    ensures base + added - Dropped(added, ids, bar) == base + Kept(added, ids, bar)
  {
  }

  lemma ResolveEntry(base: map<string, Entry>, added: map<string, Entry>, ids: seq<string>, k: nat, bar: Bar)
    requires base.Keys !! added.Keys && Lists(ids, added.Keys) && k < |ids|
    ensures ids[k] in added && ids[k] !in base + Kept(added, ids[..k], bar)
    ensures ids[k] in base + added - Dropped(added, ids[..k], bar)
    ensures (base + added - Dropped(added, ids[..k], bar))[ids[k]] == added[ids[k]]
  {
    hide Survives;
    assert ids[k] in ids && ids[k] !in ids[..k];
  }

  lemma ResolveStep(base: map<string, Entry>, added: map<string, Entry>, ids: seq<string>, k: nat, bar: Bar)
    requires k < |ids| && ids[k] in added && ids[k] !in base
    ensures if Survives(added[ids[k]], bar, true)
            then base + Kept(added, ids[..k + 1], bar) ==
                (base + Kept(added, ids[..k], bar))[ids[k] := added[ids[k]]] &&
                 Dropped(added, ids[..k + 1], bar) == Dropped(added, ids[..k], bar)
            else Kept(added, ids[..k + 1], bar) == Kept(added, ids[..k], bar) &&
                 base + added - Dropped(added, ids[..k + 1], bar) ==
                     base + added - Dropped(added, ids[..k], bar) - {ids[k]}
  {
    hide Survives;
    assert forall id :: id in ids[..k + 1] <==> id in ids[..k] || id == ids[k];
    if Survives(added[ids[k]], bar, true) {
      assert Kept(added, ids[..k + 1], bar) == Kept(added, ids[..k], bar)[ids[k] := added[ids[k]]];
    } else {
      assert Dropped(added, ids[..k + 1], bar) == Dropped(added, ids[..k], bar) + {ids[k]};
    }
  }

  lemma ListsAdd(ids: seq<string>, keys: set<string>, id: string)
    requires Lists(ids, keys)
    ensures id !in keys ==> Lists(ids + [id], keys + {id})
  {
  }

  lemma NoPools(live: map<string, Entry>, seen: set<string>, timestamp: int)
    ensures live + PoolZones([], seen, timestamp) == live && seen + PoolZones([], seen, timestamp).Keys == seen
    ensures Lists([], PoolZones([], seen, timestamp).Keys)
  {
  }

  lemma PoolStep(pools: seq<Pool>, k: nat, live: map<string, Entry>, seen: set<string>, timestamp: int)
    requires k < |pools|
    ensures var before, after := PoolZones(pools[..k], seen, timestamp), PoolZones(pools[..k + 1], seen, timestamp);
            var id := PoolId(pools[k]);
            if id in seen + before.Keys then after == before
            else && live + after == (live + before)[id := PoolEntry(pools[k], timestamp)]
                 && after.Keys == before.Keys + {id}
                 && seen + after.Keys == seen + before.Keys + {id}
  {
    hide PoolId, PoolEntry;
    assert pools[..k + 1][..k] == pools[..k];
  }

  lemma GapFresh(bars: seq<Bar>, live: map<string, Entry>)
    requires bars != [] && forall id :: id in live ==> !DirectionalId(id, |bars| - 1)
    ensures GapId(|bars| - 1, true) !in live && GapId(|bars| - 1, false) !in live
  {
    hide GapId, BlockId;
    assert DirectionalId(GapId(|bars| - 1, true), |bars| - 1);
    assert DirectionalId(GapId(|bars| - 1, false), |bars| - 1);
  }

  /** A block about to be added is new, or the very zone an earlier break of this bar added. */
  lemma BlockAddable(bars: seq<Bar>, breaks: seq<StructureBreak>, index: nat, direction: int, live: map<string, Entry>)
    requires bars != [] && index < |bars| && (direction == 1 || direction == -1)
    requires forall id :: id in live ==> !DirectionalId(id, |bars| - 1)
    ensures var id := BlockId(|bars| - 1, index, direction);
            var current := live + GapZones(bars) + BlockZones(bars, breaks);
            id in current ==> current[id] == BlockEntry(bars, index, direction)
  {
    hide GapId, BlockId, BlockZones;
    var id := BlockId(|bars| - 1, index, direction);
    assert DirectionalId(id, |bars| - 1);
    GapNotBlock(|bars| - 1, true, |bars| - 1, index, direction);
    GapNotBlock(|bars| - 1, false, |bars| - 1, index, direction);
    assert id !in live && id !in GapZones(bars);
    if id in BlockZones(bars, breaks) {
      BlockZoneFixed(bars, breaks, index, direction);
    }
  }

  ghost predicate CutAt(heap: PriceHeap, k: nat, bound: real) {
    && k <= |heap|
    && (forall i :: 0 <= i < k ==> heap[i].key < bound)
    && (forall i :: k <= i < |heap| ==> bound <= heap[i].key)
  }

  lemma FourSweeps(base: map<string, Entry>, bar: Bar, n1: set<string>, n2: set<string>, n3: set<string>,
                   n4: set<string>)
    requires forall id :: id in base ==> (id in n1 <==> SideOf(base[id]) == Bullish && Swept(base[id], bar))
    requires forall id :: id in base ==> (id in n2 <==> SideOf(base[id]) == Bearish && Swept(base[id], bar))
    requires forall id :: id in base ==> (id in n3 <==> SideOf(base[id]) == EqualHighs && Swept(base[id], bar))
    requires forall id :: id in base ==> (id in n4 <==> SideOf(base[id]) == EqualLows && Swept(base[id], bar))
    requires n1 <= base.Keys && n2 <= base.Keys && n3 <= base.Keys && n4 <= base.Keys
    ensures n1 + n2 + n3 + n4 == SweptIn(base, bar)
    ensures base - n1 - (n2 + n3 + n4) == base - SweptIn(base, bar)
    ensures base - n2 - (n1 + n3 + n4) == base - SweptIn(base, bar)
    ensures base - n3 - (n1 + n2 + n4) == base - SweptIn(base, bar)
    ensures base - n4 - (n1 + n2 + n3) == base - SweptIn(base, bar)
  {
    hide SideOf, Swept;
  }

  /** After all four pop loops the heaps track what is left, and what is gone is exactly what the
      prices retire. */
  lemma SweptHeaps(base: map<string, Entry>, bar: Bar, a: PriceHeap, k1: nat, b: PriceHeap, k2: nat,
                   c: PriceHeap, k3: nat, d: PriceHeap, k4: nat)
    requires Tracks(a, Bullish, base) && Tracks(b, Bearish, base)
    requires Tracks(c, EqualHighs, base) && Tracks(d, EqualLows, base)
    requires CutAt(a, k1, -bar.close) && CutAt(b, k2, bar.close) && CutAt(c, k3, bar.high) && CutAt(d, k4, -bar.low)
    ensures Names(a[..k1]) + Names(b[..k2]) + Names(c[..k3]) + Names(d[..k4]) == SweptIn(base, bar)
    ensures var left := base - SweptIn(base, bar);
            Tracks(a[k1..], Bullish, left) && Tracks(b[k2..], Bearish, left) &&
            Tracks(c[k3..], EqualHighs, left) && Tracks(d[k4..], EqualLows, left)
  {
    hide Tracks, Names, Swept, SideOf;
    SweepSide(a, Bullish, base, bar, k1);
    SweepSide(b, Bearish, base, bar, k2);
    SweepSide(c, EqualHighs, base, bar, k3);
    SweepSide(d, EqualLows, base, bar, k4);
    var (n1, n2, n3, n4) := (Names(a[..k1]), Names(b[..k2]), Names(c[..k3]), Names(d[..k4]));
    FourSweeps(base, bar, n1, n2, n3, n4);
    SweepOther(a[k1..], Bullish, base - n1, n2 + n3 + n4);
    SweepOther(b[k2..], Bearish, base - n2, n1 + n3 + n4);
    SweepOther(c[k3..], EqualHighs, base - n3, n1 + n2 + n4);
    SweepOther(d[k4..], EqualLows, base - n4, n1 + n2 + n3);
  }

  lemma MinusFour(live: map<string, Entry>, a: set<string>, b: set<string>, c: set<string>, d: set<string>)
    ensures live - a - b - c - d == live - (a + b + c + d)
  {
  }

  lemma NamesAppend(heap: PriceHeap, k: nat)
    requires k < |heap|
    ensures Names(heap[..k + 1]) == Names(heap[..k]) + {heap[k].item}
  {
    assert heap[..k + 1] == heap[..k] + [heap[k]];
  }

  function BrokenIndices(breaks: seq<StructureBreak>): set<nat> {
    set b | b in breaks :: b.swingIndex
  }

  function RangeOption(swings: seq<Swing>, latest: Swing): seq<StructuralRange> {
    if swings == [] then []
    else match RangeBetween(swings[|swings| - 1], latest) case Some(r) => [r] case None => []
  }

  lemma RangesAppend(swings: seq<Swing>, s: Swing)
    ensures RangesOf(swings + [s]) == RangesOf(swings) + RangeOption(swings, s)
  {
    assert (swings + [s])[..|swings|] == swings;
  }

  /** What one more bar adds to the swing list and the lists derived from it. */
  lemma ConfirmedLists(front: seq<Bar>, bar: Bar, lookback: nat, confirmed: Option<Swing>)
    requires 1 <= lookback
    requires confirmed == if |front| < 2 * lookback then None else SwingAt(front + [bar], |front| - lookback, lookback)
    ensures var before, after := DetectSwings(front, lookback), DetectSwings(front + [bar], lookback);
            if confirmed.None? then after == before
            else && after == before + [confirmed.value]
                 && RangesOf(after) == RangesOf(before) + RangeOption(before, confirmed.value)
                 && OfKind(after, High) == OfKind(before, High) +
                     (if confirmed.value.kind == High then [confirmed.value] else [])
                 && OfKind(after, Low) == OfKind(before, Low) +
                     (if confirmed.value.kind == Low then [confirmed.value] else [])
  {
    hide DetectSwings, SwingAt, OfKind, RangesOf;
    SwingsExtend(front, bar, lookback);
    var before := DetectSwings(front, lookback);
    if confirmed.Some? {
      OfKindAppend(before, confirmed.value, High);
      OfKindAppend(before, confirmed.value, Low);
      RangesAppend(before, confirmed.value);
    } else {
      assert before + [] == before;
    }
  }

  lemma NoOtherSwing(front: seq<Bar>, bar: Bar, lookback: nat, confirmed: Option<Swing>)
    requires confirmed == if |front| < 2 * lookback then None else SwingAt(front + [bar], |front| - lookback, lookback)
    ensures forall s :: IsSwing(front + [bar], lookback, s) && s.index + lookback == |front| ==> confirmed == Some(s)
    ensures confirmed.Some? ==> IsSwing(front + [bar], lookback, confirmed.value)
    ensures confirmed.Some? ==> confirmed.value.index + lookback == |front|
  {
  }

  lemma ConfirmedHeap(front: seq<Bar>, bar: Bar, lookback: nat, confirmed: Option<Swing>, kind: SwingType,
                      heap: SwingHeap)
    requires Holds(heap, kind, front, lookback, |front|)
    requires confirmed == if |front| < 2 * lookback then None else SwingAt(front + [bar], |front| - lookback, lookback)
    ensures Holds(if confirmed.Some? && confirmed.value.kind == kind
                  then HeapQueue.Push(heap, Pending(confirmed.value)) else heap,
                  kind, front + [bar], lookback, |front|)
  {
    hide Holds, IsSwing, SwingAt, HeapQueue.Push;
    NoOtherSwing(front, bar, lookback, confirmed);
    if confirmed.Some? && confirmed.value.kind == kind {
      HoldsPush(heap, kind, front, bar, lookback, confirmed.value);
    } else {
      HoldsCarry(heap, kind, front, bar, lookback);
    }
  }

  lemma LabelNone(trend: int, index: nat, bar: Bar, highs: seq<Swing>, lows: seq<Swing>)
    ensures Label([], trend, index, bar) == [] && OriginsOf([], highs, lows) == {}
  {
  }

  lemma LabelOne(s: Swing, trend: int, index: nat, bar: Bar)
    ensures Label([s], trend, index, bar) ==
            [StructureBreak(index, bar.timestamp, if trend == 0 || trend == Direction(s.kind) then Bos else Choch,
                            s.index, s.price, Direction(s.kind), bar.close)]
  {
  }

  lemma OriginsAppend(breaks: seq<StructureBreak>, b: StructureBreak, highs: seq<Swing>, lows: seq<Swing>)
    ensures OriginsOf(breaks + [b], highs, lows) ==
            OriginsOf(breaks, highs, lows) + if b.kind == Bos then Origin(highs, lows, b.direction) else {}
  {
    assert (breaks + [b])[..|breaks|] == breaks;
  }

  lemma MarksAppend(breaks: seq<StructureBreak>, b: StructureBreak)
    ensures BrokenIndices(breaks + [b]) == BrokenIndices(breaks) + {b.swingIndex}
    ensures WeakSwings(breaks + [b]) == WeakSwings(breaks) + if b.kind == Bos then {b.swingIndex} else {}
  {
    assert forall x :: x in breaks + [b] <==> x in breaks || x == b;
  }

  lemma NotLogged(log: seq<StructureBreak>, s: Swing)
    requires !Logged(log, s)
    ensures s.index !in BrokenIndices(log)
  {
  }

  lemma UnbrokenUnlogged(front: seq<Bar>, bar: Bar, lookback: nat, s: Swing)
    requires 1 <= lookback && IsSwing(front + [bar], lookback, s)
    requires !BrokenBefore(front + [bar], s, lookback, |front|)
    ensures s.index < |front| && s.index !in BrokenIndices(BreakLog(front, lookback))
  {
    hide BreakLog, BrokenBefore;
    SwingStep(front, bar, lookback, s);
    if s.index + lookback < |front| {
      LogComplete(front, lookback, s);
      NotLogged(BreakLog(front, lookback), s);
    } else {
      UnconfirmedUnlogged(front, lookback, s);
      NotLogged(BreakLog(front, lookback), s);
    }
  }

  /** Every pending swing passes the guards of the pop loops: it precedes the bar and is not yet broken. */
  lemma PendingEligible(front: seq<Bar>, bar: Bar, lookback: nat, kind: SwingType, heap: SwingHeap)
    requires 1 <= lookback && Holds(heap, kind, front + [bar], lookback, |front|)
    ensures forall e :: e in heap ==>
              e.item.index < |front| && e.item.index !in BrokenIndices(BreakLog(front, lookback))
  {
    hide IsSwing, BrokenBefore, BreakLog;
    forall e | e in heap
      ensures e.item.index < |front| && e.item.index !in BrokenIndices(BreakLog(front, lookback))
    {
      assert e == Pending(e.item);
      UnbrokenUnlogged(front, bar, lookback, e.item);
    }
  }

  lemma NoBlocks(bars: seq<Bar>)
    requires bars != []
    ensures BlockZones(bars, []) == map[]
  {
  }

  lemma OneMoreBreak(bars: seq<Bar>, breaks: seq<StructureBreak>, k: nat)
    requires bars != [] && k < |breaks|
    ensures var (before, direction) := (BlockZones(bars, breaks[..k]), Sign(breaks[k].direction));
            BlockZones(bars, breaks[..k + 1]) ==
            match BlockFor(bars, direction)
            case None => before
            case Some(i) => before[BlockId(|bars| - 1, i, direction) := BlockEntry(bars, i, direction)]
  {
    hide BlockId, BlockFor, BlockEntry;
    assert breaks[..k + 1][..k] == breaks[..k];
  }

  class Processor {
    const lookback: nat
    const detect: PoolDetector
    var bars: seq<Bar>
    var swings: seq<Swing>
    var highs: seq<Swing>
    var lows: seq<Swing>
    var pendingHighs: SwingHeap
    var pendingLows: SwingHeap
    var breaks: seq<StructureBreak>
    var brokenIndices: set<nat>
    var weakIndices: set<nat>
    var protectedIndices: set<nat>
    var ranges: seq<StructuralRange>
    var activeZones: map<string, Entry>
    var poolZones: map<string, Entry>
    var seenPoolIds: set<string>
    var bullishHeap: PriceHeap
    var bearishHeap: PriceHeap
    var equalHighHeap: PriceHeap
    var equalLowHeap: PriceHeap
    var cacheDirty: bool
    var cachedIds: seq<string>
    var cachedZones: seq<MarketZone>
    var previousSignature: Option<Signature>
    var duration: nat

    ghost predicate SwingsExactFor(all: seq<Bar>)
      reads this`swings, this`highs, this`lows, this`ranges
    {
      && swings == DetectSwings(all, lookback)
      && highs == OfKind(swings, High)
      && lows == OfKind(swings, Low)
      && ranges == RangesOf(swings)
    }

    /** Pivots, breaks and their marks are what the naive definitions give for `bars`. */
    ghost predicate StructureExact()
      reads this`bars, this`swings, this`highs, this`lows, this`ranges, this`pendingHighs, this`pendingLows
      reads this`breaks, this`brokenIndices, this`weakIndices, this`protectedIndices
    {
      && 1 <= lookback
      && SwingsExactFor(bars)
      && Holds(pendingHighs, High, bars, lookback, |bars|)
      && Holds(pendingLows, Low, bars, lookback, |bars|)
      && breaks == BreakLog(bars, lookback)
      && brokenIndices == BrokenIndices(breaks)
      && weakIndices == WeakSwings(breaks)
      && protectedIndices == ProtectedSwings(bars, lookback)
    }

    ghost predicate HeapsTrack(live: map<string, Entry>)
      reads this`bullishHeap, this`bearishHeap, this`equalHighHeap, this`equalLowHeap
    {
      && Tracks(bullishHeap, Bullish, live)
      && Tracks(bearishHeap, Bearish, live)
      && Tracks(equalHighHeap, EqualHighs, live)
      && Tracks(equalLowHeap, EqualLows, live)
    }

    ghost predicate CacheSound()
      reads this`cacheDirty, this`cachedIds, this`cachedZones, this`activeZones
    {
      !cacheDirty ==> cachedIds == Text.Sorted(activeZones.Keys) && cachedZones == ZonesFor(cachedIds, activeZones)
    }

    /** The live zones are the naive zone book; every heap covers its side; the cache, when clean,
        is the sorted book. */
    ghost predicate ZonesExact()
      reads this`bars, this`activeZones, this`seenPoolIds, this`poolZones
      reads this`bullishHeap, this`bearishHeap, this`equalHighHeap, this`equalLowHeap
      reads this`cacheDirty, this`cachedIds, this`cachedZones
    {
      && activeZones == BookAfter(bars, lookback, detect).live
      && seenPoolIds == BookAfter(bars, lookback, detect).seen
      && HeapsTrack(activeZones)
      && poolZones == PoolsIn(activeZones)
      && CacheSound()
    }

    ghost predicate Valid()
      reads this
    {
      && StructureExact()
      && ZonesExact()
      && previousSignature == SignatureAfter(bars, lookback, detect)
      && duration == DurationAfter(bars, lookback, detect)
    }

    constructor (lookback: nat, detect: PoolDetector)
      requires 1 <= lookback
      ensures Valid() && bars == [] && this.lookback == lookback && this.detect == detect
    {
      this.lookback, this.detect := lookback, detect;
      bars, swings, highs, lows, breaks := [], [], [], [], [];
      pendingHighs, pendingLows := [], [];
      brokenIndices, weakIndices, protectedIndices, ranges := {}, {}, {}, [];
      activeZones, poolZones, seenPoolIds := map[], map[], {};
      bullishHeap, bearishHeap, equalHighHeap, equalLowHeap := [], [], [], [];
      cacheDirty, cachedIds, cachedZones := true, [], [];
      previousSignature, duration := None, 0;
    }

    method RemoveActiveZone(id: string)
      requires poolZones == PoolsIn(activeZones) && CacheSound()
      modifies this`activeZones, this`poolZones, this`cacheDirty
      ensures activeZones == old(activeZones) - {id}
      ensures poolZones == PoolsIn(activeZones) && CacheSound()
    {
      if id !in activeZones {
        assert activeZones - {id} == activeZones;
        return;
      }
      var e := activeZones[id];
      activeZones := activeZones - {id};
      if IsPool(e) {
        poolZones := poolZones - {id};
      }
      cacheDirty := true;
    }

    /** Pop every entry below `bound` and retire the zones the entries name. */
    method SweepBelow(heap: PriceHeap, bound: real) returns (rest: PriceHeap, ghost k: nat)
      requires HeapQueue.Ordered(heap) && poolZones == PoolsIn(activeZones) && CacheSound()
      modifies this`activeZones, this`poolZones, this`cacheDirty
      ensures CutAt(heap, k, bound) && rest == heap[k..]
      ensures activeZones == old(activeZones) - Names(heap[..k])
      ensures poolZones == PoolsIn(activeZones) && CacheSound()
    {
      hide PoolsIn, CacheSound;
      rest, k := heap, 0;
      assert activeZones - Names(heap[..0]) == activeZones;
      while |rest| > 0 && rest[0].key < bound
        invariant k <= |heap| && rest == heap[k..]
        invariant forall i :: 0 <= i < k ==> heap[i].key < bound
        invariant activeZones == old(activeZones) - Names(heap[..k])
        invariant poolZones == PoolsIn(activeZones) && CacheSound()
        decreases |rest|
      {
        var id := rest[0].item;
        NamesAppend(heap, k);
        RemoveActiveZone(id);
        rest, k := rest[1..], k + 1;
      }
      assert |rest| > 0 ==> rest[0] == heap[k];
    }

    /** Retire by price every zone of `base`, the live zones that already have heap entries. */
    method SweepAll(bar: Bar, ghost base: map<string, Entry>)
      requires HeapsTrack(base) && poolZones == PoolsIn(activeZones) && CacheSound()
      modifies this`activeZones, this`poolZones, this`cacheDirty
      modifies this`bullishHeap, this`bearishHeap, this`equalHighHeap, this`equalLowHeap
      ensures activeZones == old(activeZones) - SweptIn(base, bar)
      ensures HeapsTrack(base - SweptIn(base, bar))
      ensures poolZones == PoolsIn(activeZones) && CacheSound()
    {
      hide PoolsIn, CacheSound, SweptIn;
      ghost var live := activeZones;
      ghost var (a, b, c, d) := (bullishHeap, bearishHeap, equalHighHeap, equalLowHeap);
      assert HeapQueue.Ordered(a) && HeapQueue.Ordered(b) && HeapQueue.Ordered(c) && HeapQueue.Ordered(d);
      ghost var k1, k2, k3, k4;
      hide Tracks, Names;
      bullishHeap, k1 := SweepBelow(bullishHeap, -bar.close);
      bearishHeap, k2 := SweepBelow(bearishHeap, bar.close);
      equalHighHeap, k3 := SweepBelow(equalHighHeap, bar.high);
      equalLowHeap, k4 := SweepBelow(equalLowHeap, -bar.low);
      SweptHeaps(base, bar, a, k1, b, k2, c, k3, d, k4);
      MinusFour(live, Names(a[..k1]), Names(b[..k2]), Names(c[..k3]), Names(d[..k4]));
    }

    method AddActiveZone(id: string, e: Entry)
      requires HeapsTrack(activeZones) && poolZones == PoolsIn(activeZones)
      requires !IsPool(e) && e.direction != 0
      requires id in activeZones ==> activeZones[id] == e
      modifies this`activeZones, this`bullishHeap, this`bearishHeap, this`cacheDirty
      ensures activeZones == old(activeZones)[id := e] && CacheSound()
      ensures HeapsTrack(activeZones) && poolZones == PoolsIn(activeZones)
    {
      hide Tracks;
      ghost var live := activeZones;
      activeZones := activeZones[id := e];
      TrackOther(equalHighHeap, EqualHighs, live, id, e);
      TrackOther(equalLowHeap, EqualLows, live, id, e);
      if e.direction > 0 {
        TrackPush(bullishHeap, Bullish, live, id, e);
        TrackOther(bearishHeap, Bearish, live, id, e);
        bullishHeap := HeapQueue.Push(bullishHeap, HeapQueue.Entry(-e.zone.low, id));
      } else if e.direction < 0 {
        TrackPush(bearishHeap, Bearish, live, id, e);
        TrackOther(bullishHeap, Bullish, live, id, e);
        bearishHeap := HeapQueue.Push(bearishHeap, HeapQueue.Entry(e.zone.high, id));
      }
      cacheDirty := true;
    }

    /** Add the fair value gap the current bar completes. */
    method AddGap()
      requires bars != [] && HeapsTrack(activeZones) && poolZones == PoolsIn(activeZones) && CacheSound()
      requires forall id :: id in activeZones ==> !DirectionalId(id, |bars| - 1)
      modifies this`activeZones, this`bullishHeap, this`bearishHeap, this`cacheDirty
      ensures activeZones == old(activeZones) + GapZones(bars)
      ensures HeapsTrack(activeZones) && poolZones == PoolsIn(activeZones) && CacheSound()
    {
      hide HeapsTrack, PoolsIn, GapId, CacheSound;
      GapFresh(bars, activeZones);
      var index := |bars| - 1;
      if |bars| >= 3 {
        var first, current := bars[index - 2], bars[index];
        if current.low > first.high {
          AddActiveZone(GapId(index, true),
                        Entry(MarketZone(index - 2, index, current.timestamp, first.high, current.low), 1, Fvg));
        } else if current.high < first.low {
          AddActiveZone(GapId(index, false),
                        Entry(MarketZone(index - 2, index, current.timestamp, current.high, first.low), -1, Fvg));
        }
      }
    }

    /** Add the order block behind each new break. */
    method AddBlocks(newBreaks: seq<StructureBreak>, ghost live: map<string, Entry>)
      requires bars != [] && HeapsTrack(activeZones) && poolZones == PoolsIn(activeZones) && CacheSound()
      requires forall id :: id in live ==> !DirectionalId(id, |bars| - 1)
      requires activeZones == live + GapZones(bars)
      modifies this`activeZones, this`bullishHeap, this`bearishHeap, this`cacheDirty
      ensures activeZones == live + GapZones(bars) + BlockZones(bars, newBreaks)
      ensures HeapsTrack(activeZones) && poolZones == PoolsIn(activeZones) && CacheSound()
    {
      hide HeapsTrack, PoolsIn, BlockId, CacheSound, GapZones, BlockZones, BlockFor, DirectionalId;
      ghost var base := activeZones;
      NoBlocks(bars);
      for k := 0 to |newBreaks|
        invariant activeZones == base + BlockZones(bars, newBreaks[..k])
        invariant HeapsTrack(activeZones) && poolZones == PoolsIn(activeZones) && CacheSound()
      {
        OneMoreBreak(bars, newBreaks, k);
        var direction := Sign(newBreaks[k].direction);
        var block := BlockFor(bars, direction);
        if block.Some? {
          BlockAddable(bars, newBreaks[..k], block.value, direction, live);
          AddActiveZone(BlockId(|bars| - 1, block.value, direction), BlockEntry(bars, block.value, direction));
        }
      }
      assert newBreaks[..|newBreaks|] == newBreaks;
    }

    method MarkDirty(id: string, e: Entry)
      modifies this`activeZones, this`cacheDirty
      ensures activeZones == old(activeZones)[id := e] && CacheSound()
    {
      activeZones := activeZones[id := e];
      cacheDirty := true;
    }

    /** Admit the pools not seen before; they get no heap entry yet. */
    method AddPools(pools: seq<Pool>, timestamp: int) returns (newIds: seq<string>)
      requires poolZones == PoolsIn(activeZones) && CacheSound()
      requires forall id :: id in PoolZones(pools, seenPoolIds, timestamp) ==> id !in activeZones
      modifies this`seenPoolIds, this`poolZones, this`activeZones, this`cacheDirty
      ensures activeZones == old(activeZones) + PoolZones(pools, old(seenPoolIds), timestamp)
      ensures seenPoolIds == old(seenPoolIds) + PoolZones(pools, old(seenPoolIds), timestamp).Keys
      ensures Lists(newIds, PoolZones(pools, old(seenPoolIds), timestamp).Keys)
      ensures poolZones == PoolsIn(activeZones) && CacheSound()
    {
      hide PoolId, PoolEntry, CacheSound, PoolZones, PoolsIn, Lists;
      newIds := [];
      ghost var live, seen := activeZones, seenPoolIds;
      NoPools(live, seen, timestamp);
      for k := 0 to |pools|
        invariant activeZones == live + PoolZones(pools[..k], seen, timestamp)
        invariant seenPoolIds == seen + PoolZones(pools[..k], seen, timestamp).Keys
        invariant Lists(newIds, PoolZones(pools[..k], seen, timestamp).Keys)
        invariant poolZones == PoolsIn(activeZones) && CacheSound()
      {
        var id := PoolId(pools[k]);
        PoolStep(pools, k, live, seen, timestamp);
        if id !in seenPoolIds {
          var e := PoolEntry(pools[k], timestamp);
          PoolEntryIsPool(pools[k], timestamp);
          PoolsInAdd(activeZones, id, e);
          ListsAdd(newIds, PoolZones(pools[..k], seen, timestamp).Keys, id);
          seenPoolIds := seenPoolIds + {id};
          poolZones := poolZones[id := e];
          MarkDirty(id, e);
          newIds := newIds + [id];
        }
      }
      assert pools[..|pools|] == pools;
    }

    /** How each heap must change when the pool `id` joins the tracked zones. */
    lemma TrackAll(live: map<string, Entry>, id: string, e: Entry)
      requires HeapsTrack(live) && IsPool(e) && id !in live
      ensures Tracks(bullishHeap, Bullish, live[id := e]) && Tracks(bearishHeap, Bearish, live[id := e])
      ensures Tracks(if e.kind == Eqh then HeapQueue.Push(equalHighHeap, HeapQueue.Entry(e.zone.high, id))
                     else equalHighHeap,
                     EqualHighs, live[id := e])
      ensures Tracks(if e.kind == Eql then HeapQueue.Push(equalLowHeap, HeapQueue.Entry(-e.zone.low, id))
                     else equalLowHeap,
                     EqualLows, live[id := e])
    {
      hide Tracks;
      TrackOther(bullishHeap, Bullish, live, id, e);
      TrackOther(bearishHeap, Bearish, live, id, e);
      if e.kind == Eqh {
        TrackPush(equalHighHeap, EqualHighs, live, id, e);
        TrackOther(equalLowHeap, EqualLows, live, id, e);
      } else {
        TrackPush(equalLowHeap, EqualLows, live, id, e);
        TrackOther(equalHighHeap, EqualHighs, live, id, e);
      }
    }

    /** One new pool: a body close through it retires it at once, otherwise it joins its heap. */
    method ResolveNewPool(id: string, bar: Bar, ghost tracked: map<string, Entry>)
      requires HeapsTrack(tracked) && id !in tracked
      requires id in activeZones && IsPool(activeZones[id])
      requires poolZones == PoolsIn(activeZones) && CacheSound()
      modifies this`activeZones, this`poolZones, this`cacheDirty, this`equalHighHeap, this`equalLowHeap
      ensures if Survives(old(activeZones)[id], bar, true)
              then activeZones == old(activeZones) && HeapsTrack(tracked[id := old(activeZones)[id]])
              else activeZones == old(activeZones) - {id} && HeapsTrack(tracked)
      ensures poolZones == PoolsIn(activeZones) && CacheSound()
    {
      hide Tracks, PoolsIn, CacheSound;
      PoolMember(activeZones, id);
      var e := poolZones[id];
      TrackAll(tracked, id, e);
      if e.kind == Eqh {
        if bar.close > e.zone.high {
          RemoveActiveZone(id);
        } else {
          equalHighHeap := HeapQueue.Push(equalHighHeap, HeapQueue.Entry(e.zone.high, id));
        }
      } else {
        if bar.close < e.zone.low {
          RemoveActiveZone(id);
        } else {
          equalLowHeap := HeapQueue.Push(equalLowHeap, HeapQueue.Entry(-e.zone.low, id));
        }
      }
    }

    /** Close-through check and heap entry for the pools admitted on this very bar. */
    method ResolveNewPools(newIds: seq<string>, bar: Bar, ghost base: map<string, Entry>,
                           ghost added: map<string, Entry>)
      requires HeapsTrack(base) && activeZones == base + added && base.Keys !! added.Keys
      requires Lists(newIds, added.Keys) && forall id :: id in added ==> IsPool(added[id])
      requires poolZones == PoolsIn(activeZones) && CacheSound()
      modifies this`activeZones, this`poolZones, this`cacheDirty, this`equalHighHeap, this`equalLowHeap
      ensures activeZones == base + Kept(added, newIds, bar)
      ensures HeapsTrack(activeZones) && poolZones == PoolsIn(activeZones) && CacheSound()
    {
      hide HeapsTrack, PoolsIn, CacheSound, Kept, Dropped, Survives, Lists;
      KeptNone(base, added, newIds, bar);
      for k := 0 to |newIds|
        invariant activeZones == base + added - Dropped(added, newIds[..k], bar)
        invariant HeapsTrack(base + Kept(added, newIds[..k], bar))
        invariant poolZones == PoolsIn(activeZones) && CacheSound()
      {
        ResolveEntry(base, added, newIds, k, bar);
        ResolveStep(base, added, newIds, k, bar);
        ResolveNewPool(newIds[k], bar, base + Kept(added, newIds[..k], bar));
      }
      assert newIds[..|newIds|] == newIds;
      ListsMembers(newIds, added.Keys);
      KeptAll(base, added, newIds, bar);
    }

    /** Create the bar's zones, retire what its prices retire, and admit what is left. */
    method UpdateZones(ghost front: seq<Bar>, bar: Bar, confirmed: Option<Swing>, newBreaks: seq<StructureBreak>)
      requires bars == front + [bar] && Sane(bar) && SwingsExactFor(bars)
      requires confirmed == if |front| < 2 * lookback then None else SwingAt(bars, |front| - lookback, lookback)
      requires newBreaks == BreaksAtEnd(bars, lookback)
      requires activeZones == BookAfter(front, lookback, detect).live
      requires seenPoolIds == BookAfter(front, lookback, detect).seen
      requires HeapsTrack(activeZones) && poolZones == PoolsIn(activeZones) && CacheSound()
      modifies this`activeZones, this`poolZones, this`seenPoolIds, this`cacheDirty
      modifies this`bullishHeap, this`bearishHeap, this`equalHighHeap, this`equalLowHeap
      ensures ZonesExact()
    {
      hide HeapsTrack, PoolsIn, CacheSound, GapZones, BlockZones, PoolZones, BookAfter, SwingAt, DetectSwings,
           BreaksAtEnd;
      ghost var live, seen := activeZones, seenPoolIds;
      assert bars[..|bars| - 1] == front;
      LiveNotDirectional(front, lookback, detect);
      AddGap();
      AddBlocks(newBreaks, live);
      ghost var base := activeZones;
      var newIds: seq<string> := [];
      ghost var pools := NewPools(bars, lookback, detect, seen);
      NewPoolsFresh(front, bar, lookback, detect, base);
      if confirmed.Some? {
        newIds := AddPools(detect(TakeLast(swings, POOL_SWING_LOOKBACK)), bar.timestamp);
      } else {
        assert base + pools == base;
      }
      SweepAll(bar, base);
      ghost var left := base - SweptIn(base, bar);
      PoolsApart(base, pools, SweptIn(base, bar));
      ResolveNewPools(newIds, bar, left, pools);
      BookStep(front, bar, lookback, detect, newIds);
    }

    /** Rebuild the sorted listing only when a zone came or went. */
    method RefreshCache()
      requires CacheSound()
      modifies this`cacheDirty, this`cachedIds, this`cachedZones
      ensures !cacheDirty && CacheSound()
    {
      if !cacheDirty {
        return;
      }
      cachedIds := SortKeys(activeZones.Keys);
      cachedZones := ZonesFor(cachedIds, activeZones);
      cacheDirty := false;
    }

    function Trend(): int
      reads this
    {
      TrendOf(breaks, SwingTrend(highs, lows))
    }

    /** Record the crossed swings, in order, as breaks of the current bar. */
    method RecordBreaks(crossed: seq<Swing>, bar: Bar) returns (newBreaks: seq<StructureBreak>)
      requires bars != [] && brokenIndices == BrokenIndices(breaks) && weakIndices == WeakSwings(breaks)
      modifies this`breaks, this`brokenIndices, this`weakIndices, this`protectedIndices
      ensures newBreaks == Label(crossed, old(Trend()), |bars| - 1, bar)
      ensures breaks == old(breaks) + newBreaks
      ensures brokenIndices == BrokenIndices(breaks) && weakIndices == WeakSwings(breaks)
      ensures protectedIndices == old(protectedIndices) + OriginsOf(newBreaks, highs, lows)
    {
      hide SwingTrend, BrokenIndices, WeakSwings, Label, OriginsOf, Origin;
      LabelNone(old(Trend()), |bars| - 1, bar, highs, lows);
      var index := |bars| - 1;
      newBreaks := [];
      ghost var trend := Trend();
      assert breaks + [] == breaks;
      for k := 0 to |crossed|
        invariant newBreaks == Label(crossed[..k], trend, index, bar)
        invariant breaks == old(breaks) + newBreaks
        invariant Trend() == TrendAfter(crossed[..k], trend)
        invariant brokenIndices == BrokenIndices(breaks) && weakIndices == WeakSwings(breaks)
        invariant protectedIndices == old(protectedIndices) + OriginsOf(newBreaks, highs, lows)
      {
        var swing, direction, trendBefore := crossed[k], Direction(crossed[k].kind), Trend();
        var kind := if trendBefore == 0 || trendBefore == direction then Bos else Choch;
        var b := StructureBreak(index, bar.timestamp, kind, swing.index, swing.price, direction, bar.close);
        assert crossed[..k + 1] == crossed[..k] + [swing];
        LabelAppend(crossed[..k], swing, trend, index, bar);
        LabelOne(swing, trendBefore, index, bar);
        OriginsAppend(newBreaks, b, highs, lows);
        assert old(breaks) + (newBreaks + [b]) == (old(breaks) + newBreaks) + [b];
        MarksAppend(breaks, b);
        breaks := breaks + [b];
        newBreaks := newBreaks + [b];
        brokenIndices := brokenIndices + {swing.index};
        if kind == Bos {
          weakIndices := weakIndices + {swing.index};
          protectedIndices := protectedIndices + Origin(highs, lows, direction);
        }
      }
      assert crossed[..|crossed|] == crossed;
    }

    /** Pop the swings the close crosses off both heaps and record their breaks. */
    method ScanBreaks(ghost front: seq<Bar>, bar: Bar) returns (newBreaks: seq<StructureBreak>)
      requires bars == front + [bar] && 1 <= lookback && SwingsExactFor(bars)
      requires Holds(pendingHighs, High, bars, lookback, |front|) && Holds(pendingLows, Low, bars, lookback, |front|)
      requires breaks == BreakLog(front, lookback) && brokenIndices == BrokenIndices(breaks)
      requires weakIndices == WeakSwings(breaks) && protectedIndices == ProtectedSwings(front, lookback)
      modifies this`pendingHighs, this`pendingLows, this`breaks, this`brokenIndices, this`weakIndices
      modifies this`protectedIndices
      ensures Holds(pendingHighs, High, bars, lookback, |bars|) && Holds(pendingLows, Low, bars, lookback, |bars|)
      ensures newBreaks == BreaksAtEnd(bars, lookback)
      ensures breaks == BreakLog(bars, lookback) && brokenIndices == BrokenIndices(breaks)
      ensures weakIndices == WeakSwings(breaks) && protectedIndices == ProtectedSwings(bars, lookback)
    {
      hide DetectSwings, OfKind, BrokenIndices, WeakSwings, SortByIndex, CrossedAtEnd, OriginsOf, Label;
      var index, close := |bars| - 1, bar.close;
      assert bars[..index] == front;
      PendingEligible(front, bar, lookback, High, pendingHighs);
      PendingEligible(front, bar, lookback, Low, pendingLows);
      ghost var highHeap, lowHeap := pendingHighs, pendingLows;
      assert HeapQueue.Ordered(highHeap) && HeapQueue.Ordered(lowHeap);
      var crossedHighs, crossedLows;
      hide Holds;
      pendingHighs, crossedHighs := PopBelow(pendingHighs, close, index, brokenIndices);
      pendingLows, crossedLows := PopBelow(pendingLows, -close, index, brokenIndices);
      HoldsPop(highHeap, High, bars, lookback, |crossedHighs|);
      HoldsPop(lowHeap, Low, bars, lookback, |crossedLows|);
      CrossedSorted(bars, lookback, crossedHighs, crossedLows);
      newBreaks := RecordBreaks(SortByIndex(crossedHighs + crossedLows), bar);
    }

    /** The pivot and the breaks the candle brings. */
    method AbsorbStructure(bar: Bar) returns (confirmed: Option<Swing>, newBreaks: seq<StructureBreak>)
      requires StructureExact()
      modifies this`bars, this`swings, this`highs, this`lows, this`pendingHighs, this`pendingLows, this`ranges
      modifies this`breaks, this`brokenIndices, this`weakIndices, this`protectedIndices
      ensures bars == old(bars) + [bar] && StructureExact() && SwingsExactFor(bars) && 1 <= lookback
      ensures confirmed == if |bars| <= 2 * lookback then None else SwingAt(bars, |bars| - 1 - lookback, lookback)
      ensures newBreaks == BreaksAtEnd(bars, lookback)
    {
      hide Holds, SwingAt, DetectSwings, BreaksAtEnd, BreakLog, OfKind, RangesOf, ProtectedSwings, WeakSwings,
           BrokenIndices;
      ghost var front := bars;
      bars := bars + [bar];
      confirmed := ConfirmSwing(front, bar);
      newBreaks := ScanBreaks(front, bar);
    }

    /** Bring structure, zones and cache up to date with one more candle. */
    method Absorb(bar: Bar)
      requires Valid() && Sane(bar)
      modifies this
      ensures bars == old(bars) + [bar] && StructureExact() && ZonesExact() && SwingsExactFor(bars) && !cacheDirty
      ensures previousSignature == old(previousSignature) && duration == old(duration)
    {
      hide StructureExact, SwingsExactFor, HeapsTrack, PoolsIn, CacheSound, BookAfter, SwingAt, BreaksAtEnd,
           DurationAfter, SignatureAfter, Sane;
      ghost var front := bars;
      var confirmed, newBreaks := AbsorbStructure(bar);
      UpdateZones(front, bar, confirmed, newBreaks);
      RefreshCache();
    }

    /** Assemble the snapshot of the current bar and remember its signature. */
    method Publish(ghost front: seq<Bar>, bar: Bar) returns (r: Snapshot)
      requires bars == front + [bar] && StructureExact() && ZonesExact() && !cacheDirty && SwingsExactFor(bars)
      requires previousSignature == SignatureAfter(front, lookback, detect)
      requires duration == DurationAfter(front, lookback, detect)
      modifies this`previousSignature, this`duration
      ensures r == SnapshotAfter(bars, lookback, detect)
      ensures previousSignature == SignatureAfter(bars, lookback, detect)
      ensures duration == DurationAfter(bars, lookback, detect)
    {
      hide HeapsTrack, PoolsIn, Holds, BookAfter, DetectSwings, BreakLog, OfKind, RangesOf, ProtectedSwings, WeakSwings,
           BrokenIndices, DurationAfter, Read, SwingStateOf, LevelsOf, Changes, SignatureOf, ZonesFor;
      assert bars[..|bars| - 1] == front;
      var reading := Read(bar.close, breaks, highs, lows, ranges);
      var signature := SignatureOf(reading, cachedIds);
      var transition := Changes(previousSignature, signature);
      SnapshotParts(front, bar, lookback, detect, signature);
      duration := if previousSignature == Some(signature) then duration + 1 else 1;
      previousSignature := Some(signature);
      r := Snapshot(bar, |bars| - 1, reading, SwingStateOf(highs, lows), TakeLast(swings, TAIL),
                    TakeLast(breaks, TAIL), LevelsOf(TakeLast(swings, KEY_LEVELS), weakIndices, protectedIndices),
                    cachedIds, cachedZones, signature, transition, duration);
    }

    /** Consume one candle. A candle not after the previous one is refused and changes nothing. */
    method Push(bar: Bar) returns (r: Option<Snapshot>)
      requires Valid() && Sane(bar)
      modifies this
      ensures Valid()
      ensures r.None? <==> old(bars) != [] && bar.timestamp <= old(bars)[|old(bars)| - 1].timestamp
      ensures r.None? ==> unchanged(this)
      ensures r.Some? ==> bars == old(bars) + [bar] && r.value == SnapshotAfter(bars, lookback, detect)
    {
      hide StructureExact, ZonesExact, DurationAfter, SignatureAfter, SnapshotAfter;
      if bars != [] && bar.timestamp <= bars[|bars| - 1].timestamp {
        return None;
      }
      ghost var front := bars;
      Absorb(bar);
      var snapshot := Publish(front, bar);
      r := Some(snapshot);
    }

    /** Confirm the pivot `lookback` bars back, if there is one, and queue it as pending. */
    method ConfirmSwing(ghost front: seq<Bar>, bar: Bar) returns (confirmed: Option<Swing>)
      requires bars == front + [bar] && 1 <= lookback && SwingsExactFor(front)
      requires Holds(pendingHighs, High, front, lookback, |front|) && Holds(pendingLows, Low, front, lookback, |front|)
      modifies this`swings, this`highs, this`lows, this`pendingHighs, this`pendingLows, this`ranges
      ensures SwingsExactFor(bars)
      ensures Holds(pendingHighs, High, bars, lookback, |front|) && Holds(pendingLows, Low, bars, lookback, |front|)
      ensures confirmed == if |front| < 2 * lookback then None else SwingAt(bars, |front| - lookback, lookback)
    {
      hide Holds, IsSwing, DetectSwings, OfKind, RangesOf, HeapQueue.Push;
      var index := |bars| - 1;
      confirmed := None;
      if |bars| >= 2 * lookback + 1 {
        confirmed := SwingAt(bars, index - lookback, lookback);
      }
      hide SwingAt;
      ConfirmedLists(front, bar, lookback, confirmed);
      ConfirmedHeap(front, bar, lookback, confirmed, High, pendingHighs);
      ConfirmedHeap(front, bar, lookback, confirmed, Low, pendingLows);
      if confirmed.Some? {
        var swing := confirmed.value;
        if swing.kind == High {
          highs, pendingHighs := highs + [swing], HeapQueue.Push(pendingHighs, Pending(swing));
        } else {
          lows, pendingLows := lows + [swing], HeapQueue.Push(pendingLows, Pending(swing));
        }
        ranges := ranges + RangeOption(swings, swing);
        swings := swings + [swing];
      }
    }
  }
}
