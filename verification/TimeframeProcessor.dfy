/** The streaming processor of one timeframe: rolling-window pivots, pending-swing heaps, price heaps
    over the live zones and a dirty-flag cache. Every method is tied to the naive definitions. */
module TimeframeProcessor {
  import opened MarketStructure
  import opened Zones
  import HeapQueue

  type SwingHeap = seq<HeapQueue.Entry<Swing>>

  type PriceHeap = seq<HeapQueue.Entry<string>>

  // ---------------------------------------------------------------- pending-swing heaps

  /** A min-heap entry: highs by price, lows by negated price. */
  function Pending(s: Swing): HeapQueue.Entry<Swing> {
    HeapQueue.Entry(if s.kind == High then s.price else -s.price, s)
  }

  function CloseBound(kind: SwingType, close: real): real {
    if kind == High then close else -close
  }

  /** The heap holds, once each, the swings of one kind confirmed in `bars` and unbroken before bar `t`. */
  ghost predicate Holds(heap: SwingHeap, kind: SwingType, bars: seq<Bar>, lookback: nat, t: int)
    requires t <= |bars|
  {
    && HeapQueue.Ordered(heap)
    && (forall e :: e in heap ==> e == Pending(e.item))
    && (forall i, j :: 0 <= i < j < |heap| ==> heap[i] != heap[j])
    && (forall s :: Pending(s) in heap <==>
                    IsSwing(bars, lookback, s) && s.kind == kind && !BrokenBefore(bars, s, lookback, t))
  }

  lemma PendingInjective(a: Swing, b: Swing)
    requires Pending(a) == Pending(b)
    ensures a == b
  {
  }

  /** The entries below the bound are exactly the pending swings the close crosses. */
  lemma BelowBoundCrossed(s: Swing, close: real)
    ensures Pending(s).key < CloseBound(s.kind, close) <==> Crosses(s, close)
  {
  }

  function Items(heap: SwingHeap): (r: seq<Swing>)
    ensures |r| == |heap|
    ensures forall i :: 0 <= i < |heap| ==> r[i] == heap[i].item
  {
    seq(|heap|, i requires 0 <= i < |heap| => heap[i].item)
  }

  /** Pop everything below `bound`; in key order that is a prefix of the heap. */
  method PopBelow(heap: SwingHeap, bound: real, index: nat, broken: set<nat>)
    returns (rest: SwingHeap, crossed: seq<Swing>)
    requires HeapQueue.Ordered(heap)
    requires forall e :: e in heap ==> e.item.index < index && e.item.index !in broken
    ensures |crossed| <= |heap| && rest == heap[|crossed|..]
    ensures crossed == Items(heap)[..|crossed|]
    ensures forall i :: 0 <= i < |crossed| ==> heap[i].key < bound
    ensures forall i :: |crossed| <= i < |heap| ==> bound <= heap[i].key
  {
    rest, crossed := heap, [];
    ghost var items := Items(heap);
    while |rest| > 0 && rest[0].key < bound
      invariant |crossed| <= |heap| && rest == heap[|crossed|..]
      invariant crossed == items[..|crossed|]
      invariant forall i :: 0 <= i < |crossed| ==> heap[i].key < bound
    {
      var swing := rest[0].item;
      ghost var k := |crossed|;
      assert rest[0] == heap[k] && heap[k] in heap && items[k] == swing;
      rest := rest[1..];
      if swing.index < index && swing.index !in broken {
        crossed := crossed + [swing];
      }
      assert crossed == items[..k] + [items[k]];
    }
    assert |rest| > 0 ==> rest[0] == heap[|crossed|];
  }

  lemma NotYetBroken(bars: seq<Bar>, s: Swing, lookback: nat, t: int)
    requires t <= |bars| && t <= s.index + lookback
    ensures !BrokenBefore(bars, s, lookback, t)
  {
  }

  lemma SameIndexSame(bars: seq<Bar>, lookback: nat, a: Swing, b: Swing)
    ensures IsSwing(bars, lookback, a) && IsSwing(bars, lookback, b) && a.index == b.index ==> a == b
  {
  }

  lemma SwingStep(bars: seq<Bar>, bar: Bar, lookback: nat, x: Swing)
    ensures IsSwing(bars, lookback, x) ==> IsSwing(bars + [bar], lookback, x) && x.index + lookback < |bars|
    ensures IsSwing(bars + [bar], lookback, x) && x.index + lookback < |bars| ==> IsSwing(bars, lookback, x)
    ensures IsSwing(bars + [bar], lookback, x) ==> x.index + lookback <= |bars|
    ensures BrokenBefore(bars + [bar], x, lookback, |bars|) == BrokenBefore(bars, x, lookback, |bars|)
  {
    BrokenKept(bars, bar, x, lookback, |bars|);
    if lookback <= x.index < |bars| - lookback {
      SwingKept(bars, [bar], lookback, x.index);
    }
  }

  lemma InsertMember<T(!new)>(h: seq<T>, k: nat, e: T, x: T)
    requires k <= |h|
    ensures x in h[..k] + [e] + h[k..] <==> x in h || x == e
  {
    assert h == h[..k] + h[k..];
  }

  lemma InsertDistinct<T>(h: seq<T>, k: nat, e: T)
    requires k <= |h| && e !in h
    requires forall i, j :: 0 <= i < j < |h| ==> h[i] != h[j]
    ensures forall i, j :: 0 <= i < j <= |h| ==> (h[..k] + [e] + h[k..])[i] != (h[..k] + [e] + h[k..])[j]
  {
  }

  /** A pushed swing joins the heap; nothing else changes. */
  lemma HoldsPush(heap: SwingHeap, kind: SwingType, bars: seq<Bar>, bar: Bar, lookback: nat, s: Swing)
    requires Holds(heap, kind, bars, lookback, |bars|)
    requires s.kind == kind && IsSwing(bars + [bar], lookback, s) && s.index + lookback == |bars|
    ensures Holds(HeapQueue.Push(heap, Pending(s)), kind, bars + [bar], lookback, |bars|)
  {
    hide SwingAt, IsSwing, BrokenBefore;
    var grown := HeapQueue.Push(heap, Pending(s));
    var k := HeapQueue.PushSound(heap, Pending(s));
    forall x
      ensures IsSwing(bars, lookback, x) ==> IsSwing(bars + [bar], lookback, x) && x.index + lookback < |bars|
      ensures IsSwing(bars + [bar], lookback, x) && x.index + lookback < |bars| ==> IsSwing(bars, lookback, x)
      ensures BrokenBefore(bars + [bar], x, lookback, |bars|) == BrokenBefore(bars, x, lookback, |bars|)
      ensures IsSwing(bars + [bar], lookback, x) && x.index + lookback == |bars| ==> x == s
      ensures IsSwing(bars + [bar], lookback, x) ==> x.index + lookback <= |bars|
    {
      SwingStep(bars, bar, lookback, x);
      SwingStep(bars, bar, lookback, s);
      SameIndexSame(bars + [bar], lookback, x, s);
    }
    assert !BrokenBefore(bars + [bar], s, lookback, |bars|) by { NotYetBroken(bars + [bar], s, lookback, |bars|); }
    assert Pending(s) !in heap;
    forall x ensures Pending(x) in grown <==> Pending(x) in heap || x == s {
      if Pending(x) == Pending(s) { PendingInjective(x, s); }
      InsertMember(heap, k, Pending(s), Pending(x));
    }
    InsertDistinct(heap, k, Pending(s));
    forall e | e in grown ensures e == Pending(e.item) {
      InsertMember(heap, k, Pending(s), e);
    }
  }

  /** With no new swing of its kind, the heap carries over to the longer bar list. */
  lemma HoldsCarry(heap: SwingHeap, kind: SwingType, bars: seq<Bar>, bar: Bar, lookback: nat)
    requires Holds(heap, kind, bars, lookback, |bars|)
    requires forall s :: IsSwing(bars + [bar], lookback, s) && s.index + lookback == |bars| ==> s.kind != kind
    ensures Holds(heap, kind, bars + [bar], lookback, |bars|)
  {
    hide SwingAt, IsSwing, BrokenBefore;
    forall x
      ensures IsSwing(bars, lookback, x) ==> IsSwing(bars + [bar], lookback, x)
      ensures IsSwing(bars + [bar], lookback, x) && x.kind == kind ==> IsSwing(bars, lookback, x)
      ensures BrokenBefore(bars + [bar], x, lookback, |bars|) == BrokenBefore(bars, x, lookback, |bars|)
    {
      SwingStep(bars, bar, lookback, x);
    }
  }

  lemma BrokenEnd(bars: seq<Bar>, s: Swing, lookback: nat)
    requires bars != [] && IsSwing(bars, lookback, s)
    ensures BrokenBefore(bars, s, lookback, |bars|) <==>
            BrokenBefore(bars, s, lookback, |bars| - 1) || Crosses(s, bars[|bars| - 1].close)
  {
  }

  lemma PopMember(heap: SwingHeap, kind: SwingType, close: real, k: nat, s: Swing)
    requires k <= |heap| && forall e :: e in heap ==> e == Pending(e.item) && e.item.kind == kind
    requires forall i :: 0 <= i < k ==> heap[i].key < CloseBound(kind, close)
    requires forall i :: k <= i < |heap| ==> CloseBound(kind, close) <= heap[i].key
    ensures Pending(s) in heap[k..] <==> Pending(s) in heap && !Crosses(s, close)
    ensures s in Items(heap)[..k] <==> Pending(s) in heap && Crosses(s, close)
  {
    BelowBoundCrossed(s, close);
    if Pending(s) in heap {
      var i :| 0 <= i < |heap| && heap[i] == Pending(s);
      assert i < k ==> Items(heap)[..k][i] == s;
      assert k <= i ==> heap[k..][i - k] == Pending(s);
    }
    if s in Items(heap)[..k] {
      var i :| 0 <= i < k && Items(heap)[i] == s;
      assert heap[i] in heap;
    }
  }

  /** Popping below the close leaves the still unbroken swings and yields the crossed ones. */
  lemma HoldsPop(heap: SwingHeap, kind: SwingType, bars: seq<Bar>, lookback: nat, k: nat)
    requires bars != [] && Holds(heap, kind, bars, lookback, |bars| - 1) && k <= |heap|
    requires forall i :: 0 <= i < k ==> heap[i].key < CloseBound(kind, bars[|bars| - 1].close)
    requires forall i :: k <= i < |heap| ==> CloseBound(kind, bars[|bars| - 1].close) <= heap[i].key
    ensures Holds(heap[k..], kind, bars, lookback, |bars|)
    ensures forall s :: s in Items(heap)[..k] <==> s in CrossedAtEnd(bars, lookback) && s.kind == kind
    ensures forall i, j :: 0 <= i < j < k ==> Items(heap)[i] != Items(heap)[j]
  {
    hide SwingAt, IsSwing, BrokenBefore, Crosses, DetectSwings, CrossedAtEnd;
    var n, close := |bars| - 1, bars[|bars| - 1].close;
    CrossedExact(bars, lookback);
    forall s
      ensures Pending(s) in heap[k..] <==>
              IsSwing(bars, lookback, s) && s.kind == kind && !BrokenBefore(bars, s, lookback, n + 1)
      ensures s in Items(heap)[..k] <==> s in CrossedAtEnd(bars, lookback) && s.kind == kind
    {
      PopMember(heap, kind, close, k, s);
      if IsSwing(bars, lookback, s) {
        BrokenEnd(bars, s, lookback);
      }
    }
    forall i, j | 0 <= i < j < k ensures Items(heap)[i] != Items(heap)[j] {
      assert heap[i] in heap && heap[j] in heap;
    }
  }

  // ---------------------------------------------------------------- ordering the crossed swings

  function InsertByIndex(s: Swing, swings: seq<Swing>): seq<Swing> {
    if swings == [] || s.index <= swings[0].index then [s] + swings
    else [swings[0]] + InsertByIndex(s, swings[1..])
  }

  function SortByIndex(swings: seq<Swing>): seq<Swing> {
    if swings == [] then [] else InsertByIndex(swings[0], SortByIndex(swings[1..]))
  }

  lemma {:induction false} InsertByIndexSorted(s: Swing, swings: seq<Swing>)
    requires IndexSorted(swings) && forall x :: x in swings ==> x.index != s.index
    ensures IndexSorted(InsertByIndex(s, swings))
    ensures forall x :: x in InsertByIndex(s, swings) <==> x == s || x in swings
  {
    if swings == [] || s.index <= swings[0].index {
      assert forall x :: x in swings ==> s.index < x.index;
      SortedPrepend(s, swings);
    } else {
      InsertByIndexSorted(s, swings[1..]);
      assert forall x :: x in swings <==> x == swings[0] || x in swings[1..];
      assert forall x :: x in swings[1..] ==> swings[0].index < x.index;
      SortedPrepend(swings[0], InsertByIndex(s, swings[1..]));
    }
  }

  lemma {:induction false} SortByIndexSorted(swings: seq<Swing>)
    requires forall i, j :: 0 <= i < j < |swings| ==> swings[i].index != swings[j].index
    ensures IndexSorted(SortByIndex(swings))
    ensures forall x :: x in SortByIndex(swings) <==> x in swings
  {
    if swings != [] {
      SortByIndexSorted(swings[1..]);
      assert forall x :: x in swings <==> x == swings[0] || x in swings[1..];
      InsertByIndexSorted(swings[0], SortByIndex(swings[1..]));
    }
  }

  /** Sorting the crossed highs and lows by index gives the naive scan's list. */
  lemma CrossedSorted(bars: seq<Bar>, lookback: nat, highs: seq<Swing>, lows: seq<Swing>)
    requires bars != []
    requires forall s :: s in highs <==> s in CrossedAtEnd(bars, lookback) && s.kind == High
    requires forall s :: s in lows <==> s in CrossedAtEnd(bars, lookback) && s.kind == Low
    requires forall i, j :: 0 <= i < j < |highs| ==> highs[i] != highs[j]
    requires forall i, j :: 0 <= i < j < |lows| ==> lows[i] != lows[j]
    ensures SortByIndex(highs + lows) == CrossedAtEnd(bars, lookback)
  {
    hide SwingAt, IsSwing, CrossedAtEnd, DetectSwings, BrokenBefore, SortByIndex;
    var all := highs + lows;
    CrossedExact(bars, lookback);
    forall i, j | 0 <= i < j < |all| ensures all[i].index != all[j].index {
      assert all[i] in highs || all[i] in lows;
      assert all[j] in highs || all[j] in lows;
      SameIndexSame(bars, lookback, all[i], all[j]);
    }
    SortByIndexSorted(all);
    SortedUnique(SortByIndex(all), CrossedAtEnd(bars, lookback));
  }

  lemma {:induction false} LabelAppend(crossed: seq<Swing>, s: Swing, trend: int, index: nat, bar: Bar)
    ensures Label(crossed + [s], trend, index, bar) ==
            Label(crossed, trend, index, bar) + Label([s], TrendAfter(crossed, trend), index, bar)
  {
    if crossed != [] {
      assert (crossed + [s])[1..] == crossed[1..] + [s];
      LabelAppend(crossed[1..], s, Direction(crossed[0].kind), index, bar);
    } else {
      assert crossed + [s] == [s];
    }
  }

  // ---------------------------------------------------------------- price heaps over live zones

  datatype Side = Bullish | Bearish | EqualHighs | EqualLows

  function SideOf(e: Entry): Side {
    match e.kind
    case Eqh => EqualHighs
    case Eql => EqualLows
    case _ => if e.direction > 0 then Bullish else Bearish
  }

  function KeyOf(e: Entry): real {
    match SideOf(e)
    case Bullish => -e.zone.low
    case Bearish => e.zone.high
    case EqualHighs => e.zone.high
    case EqualLows => -e.zone.low
  }

  function PriceBound(side: Side, bar: Bar): real {
    match side
    case Bullish => -bar.close
    case Bearish => bar.close
    case EqualHighs => bar.high
    case EqualLows => -bar.low
  }

  predicate Swept(e: Entry, bar: Bar) {
    KeyOf(e) < PriceBound(SideOf(e), bar)
  }

  /** The price-heap shortcut agrees with the plain retirement rule on every zone exactly when the
      candle's close lies inside its range. */
  lemma ShortcutExact(bar: Bar)
    ensures (forall e: Entry :: Swept(e, bar) <==> !Survives(e, bar, false)) <==> Sane(bar)
  {
    var high := Entry(MarketZone(0, 0, 0, bar.high, bar.high), 0, Eqh);
    var low := Entry(MarketZone(0, 0, 0, bar.low, bar.low), 0, Eql);
    if forall e: Entry :: Swept(e, bar) <==> !Survives(e, bar, false) {
      assert Swept(high, bar) <==> !Survives(high, bar, false);
      assert Swept(low, bar) <==> !Survives(low, bar, false);
    }
  }

  /** One side's heap: an entry for every live zone of that side, and none that is stale. */
  ghost predicate Tracks(heap: PriceHeap, side: Side, live: map<string, Entry>) {
    && HeapQueue.Ordered(heap)
    && (forall e :: e in heap ==> e.item in live && SideOf(live[e.item]) == side && e.key == KeyOf(live[e.item]))
    && (forall id :: id in live && SideOf(live[id]) == side ==> HeapQueue.Entry(KeyOf(live[id]), id) in heap)
  }

  function Names(heap: PriceHeap): set<string> {
    set e | e in heap :: e.item
  }

  predicate IsPool(e: Entry) {
    e.kind == Eqh || e.kind == Eql
  }

  function PoolsIn(live: map<string, Entry>): map<string, Entry> {
    map id | id in live && IsPool(live[id]) :: live[id]
  }

  /** Popping one side below its bound drops exactly the swept zones of that side. */
  lemma SweepSide(heap: PriceHeap, side: Side, live: map<string, Entry>, bar: Bar, k: nat)
    requires Tracks(heap, side, live) && k <= |heap|
    requires forall i :: 0 <= i < k ==> heap[i].key < PriceBound(side, bar)
    requires forall i :: k <= i < |heap| ==> PriceBound(side, bar) <= heap[i].key
    ensures forall id :: id in live ==> (id in Names(heap[..k]) <==> SideOf(live[id]) == side && Swept(live[id], bar))
    ensures Names(heap[..k]) <= live.Keys
    ensures Tracks(heap[k..], side, live - Names(heap[..k]))
  {
    forall id | id in live
      ensures id in Names(heap[..k]) <==> SideOf(live[id]) == side && Swept(live[id], bar)
    {
      if id in Names(heap[..k]) {
        var e :| e in heap[..k] && e.item == id;
        assert e in heap;
      }
      if SideOf(live[id]) == side && Swept(live[id], bar) {
        var e := HeapQueue.Entry(KeyOf(live[id]), id);
        assert e in heap;
        assert e in heap[..k];
      }
    }
    forall e | e in heap[k..]
      ensures e.item in live - Names(heap[..k])
    {
      assert e in heap;
    }
  }

  /** Removing zones of other sides leaves a heap exact. */
  lemma SweepOther(heap: PriceHeap, side: Side, live: map<string, Entry>, gone: set<string>)
    requires Tracks(heap, side, live)
    requires forall id :: id in live && id in gone ==> SideOf(live[id]) != side
    ensures Tracks(heap, side, live - gone)
  {
  }

  lemma TrackPush(heap: PriceHeap, side: Side, live: map<string, Entry>, id: string, e: Entry)
    requires Tracks(heap, side, live) && SideOf(e) == side
    requires id in live ==> live[id] == e
    ensures Tracks(HeapQueue.Push(heap, HeapQueue.Entry(KeyOf(e), id)), side, live[id := e])
  {
    hide KeyOf, SideOf, HeapQueue.Push;
    HeapQueue.PushMembers(heap, HeapQueue.Entry(KeyOf(e), id));
  }

  lemma TrackOther(heap: PriceHeap, side: Side, live: map<string, Entry>, id: string, e: Entry)
    requires Tracks(heap, side, live) && SideOf(e) != side
    requires id in live ==> live[id] == e
    ensures Tracks(heap, side, live[id := e])
  {
  }
}
