/** `UniversalTimeframeStateEngine`: one processor per available timeframe, fed row by row or all at once. */
module StateEngine {
  import opened Common
  import opened Timeframes
  import opened MarketStructure
  import opened Zones
  import opened Snapshots
  import opened Aggregation
  import opened CandleRuns
  import opened OnlineProcessor

  /** What a history list bounded to `limit` entries keeps (a limit of 0 deletes nothing). */
  function Retained(history: seq<Snapshot>, limit: nat): seq<Snapshot> {
    if limit == 0 then history else TakeLast(history, limit)
  }

  /** What is kept is the end of the history: all of it without a limit or within it, else as much as the limit. */
  lemma RetainedExact(history: seq<Snapshot>, limit: nat)
    ensures var kept := Retained(history, limit);
            |kept| == (if 0 < limit < |history| then limit else |history|) &&
            forall k :: 0 <= k < |kept| ==> kept[k] == history[|history| - |kept| + k]
  {
  }

  lemma RetainedAppend(history: seq<Snapshot>, s: Snapshot, limit: nat)
    ensures Retained(Retained(history, limit) + [s], limit) == Retained(history + [s], limit)
  {
  }

  lemma GroupsAppend(rows: seq<Row>, row: Row, tf: Timeframe, groups: seq<Group>, last: Group)
    requires Groups(rows, tf) == groups + [last]
    ensures var start := BucketStart(row.timestamp, tf);
            Groups(rows + [row], tf) ==
            if last.start == start then groups + [Group(start, last.rows + [row])]
            else groups + [last] + [Group(start, [row])]
  {
    hide BucketStart;
    assert (rows + [row])[..|rows|] == rows;
    assert (groups + [last])[..|groups|] == groups;
  }

  lemma GroupsFirst(row: Row, tf: Timeframe)
    ensures Groups([row], tf) == [Group(BucketStart(row.timestamp, tf), [row])]
  {
    hide BucketStart;
    assert Groups([row][..0], tf) == [];
  }

  lemma CandlesAppend(groups: seq<Group>, g: Group, tf: Timeframe, knownThrough: nat)
    requires g.rows != [] && forall x :: x in groups ==> x.rows != []
    ensures Candles(groups + [g], tf, knownThrough) ==
            Candles(groups, tf, knownThrough) +
            if BucketEnd(g.start, tf) <= knownThrough then [Candle(g.rows, BucketEnd(g.start, tf))] else []
  {
    hide BucketEnd, Candle;
    assert (groups + [g])[..|groups|] == groups;
  }

  /** Collect consecutive rows that share a bucket. */
  method GroupRows(rows: seq<Row>, tf: Timeframe) returns (groups: seq<Group>)
    requires rows != []
    ensures groups == Groups(rows, tf)
  {
    hide BucketStart, Groups;
    groups := [];
    var activeStart, active := BucketStart(rows[0].timestamp, tf), [rows[0]];
    GroupsFirst(rows[0], tf);
    assert rows[..1] == [rows[0]];
    for i := 1 to |rows|
      invariant active != [] && Groups(rows[..i], tf) == groups + [Group(activeStart, active)]
    {
      var start := BucketStart(rows[i].timestamp, tf);
      GroupsAppend(rows[..i], rows[i], tf, groups, Group(activeStart, active));
      assert rows[..i + 1] == rows[..i] + [rows[i]];
      if start != activeStart {
        groups := groups + [Group(activeStart, active)];
        active := [];
      }
      activeStart := start;
      active := active + [rows[i]];
      assert [] + [rows[i]] == [rows[i]];
    }
    assert rows[..|rows|] == rows;
    groups := groups + [Group(activeStart, active)];
  }

  predicate Follows(rows: seq<Row>, row: Row) {
    rows != [] ==> rows[|rows| - 1].timestamp < row.timestamp
  }

  lemma IncreasesBy(rows: seq<Row>, row: Row)
    ensures TimesIncrease(rows + [row]) <==> TimesIncrease(rows) && Follows(rows, row)
  {
    var all := rows + [row];
    assert all[|rows|] == row;
    if TimesIncrease(all) {
      assert forall i :: 0 <= i < |rows| ==> all[i] == rows[i];
    } else if TimesIncrease(rows) && Follows(rows, row) {
      assert forall i :: 0 <= i < |rows| ==> rows[i].timestamp < row.timestamp;
    }
  }

  /** The loader's check: every timestamp is later than the one before it. */
  method ValidateMonotonicity(rows: seq<Row>) returns (ok: bool)
    ensures ok <==> TimesIncrease(rows)
  {
    for i := 0 to |rows|
      invariant TimesIncrease(rows[..i])
    {
      if i > 0 && rows[i].timestamp <= rows[i - 1].timestamp {
        return false;
      }
      IncreasesBy(rows[..i], rows[i]);
      assert rows[..i + 1] == rows[..i] + [rows[i]];
    }
    assert rows[..|rows|] == rows;
    ok := true;
  }

  lemma NoCandles(tf: Timeframe, knownThrough: nat)
    ensures Candles([], tf, knownThrough) == []
  {
  }

  /** Gather rows into closed target candles. Rows not in time order are refused, but only after an empty
      list or an unavailable timeframe has been answered with no candles. */
  method AggregateBars(rows: seq<Row>, tf: Timeframe, interval: nat) returns (r: Option<seq<Bar>>)
    requires 0 < interval
    ensures r == if rows == [] || !Available(tf, interval) then Some([])
                 else if !TimesIncrease(rows) then None else Some(BatchCandles(rows, tf, interval))
  {
    hide BucketStart, BucketEnd, Candle, Candles, Groups, TimesIncrease;
    if rows == [] || !Available(tf, interval) {
      return Some([]);
    }
    var ok := ValidateMonotonicity(rows);
    if !ok {
      return None;
    }
    var candles: seq<Bar> := [];
    var groups := GroupRows(rows, tf);
    var knownThrough := rows[|rows| - 1].timestamp + interval;
    assert groups[..0] == [] && Candles([], tf, knownThrough) == [] by { NoCandles(tf, knownThrough); }
    for i := 0 to |groups|
      invariant candles == Candles(groups[..i], tf, knownThrough)
    {
      CandlesAppend(groups[..i], groups[i], tf, knownThrough);
      assert groups[..i + 1] == groups[..i] + [groups[i]];
      var closeTime := BucketEnd(groups[i].start, tf);
      if closeTime <= knownThrough {
        candles := candles + [Candle(groups[i].rows, closeTime)];
      }
    }
    assert groups[..|groups|] == groups;
    r := Some(candles);
  }

  datatype View = View(bars: seq<Bar>, group: Option<Group>, history: Option<seq<Snapshot>>, latest: Option<Snapshot>)

  /** A timeframe's view once its feed is `feed`: nothing recorded before the first candle, the
      bounded history and the last snapshot after it. */
  ghost function Expected(feed: Feed, lookback: nat, detect: PoolDetector, maxHistory: nat): View {
    var bars := feed.published;
    if bars == [] then View(bars, feed.group, None, None)
    else View(bars, feed.group, Some(Retained(History(bars, lookback, detect), maxHistory)),
              Some(SnapshotAfter(bars, lookback, detect)))
  }

  lemma ExpectedAppend(feed: Feed, bar: Bar, lookback: nat, detect: PoolDetector, maxHistory: nat)
    ensures var kept := Expected(feed, lookback, detect, maxHistory).history;
            var next := Expected(Feed(feed.published + [bar], None), lookback, detect, maxHistory);
            var snapshot := SnapshotAfter(feed.published + [bar], lookback, detect);
            next.latest == Some(snapshot) &&
            next.history == Some(Retained((if kept.Some? then kept.value else []) + [snapshot], maxHistory))
  {
    hide SnapshotAfter, Retained;
    assert (feed.published + [bar])[..|feed.published|] == feed.published;
    RetainedAppend(History(feed.published, lookback, detect), SnapshotAfter(feed.published + [bar], lookback, detect),
                   maxHistory);
  }

  ghost predicate EmptyProcessor(p: Processor, lookback: nat, detect: PoolDetector)
    reads p
  {
    p.Valid() && p.bars == [] && p.lookback == lookback && p.detect == detect
  }

  lemma LadderStep(i: nat)
    requires i < |LADDER|
    ensures LADDER[i] !in LADDER[..i]
    ensures forall tf :: tf in LADDER[..i + 1] <==> tf in LADDER[..i] || tf == LADDER[i]
  {
    assert LADDER[..i + 1] == LADDER[..i] + [LADDER[i]];
  }

  /** One empty processor per available timeframe, all distinct. */
  method FreshProcessors(interval: nat, lookbacks: map<Timeframe, nat>, detect: PoolDetector)
    returns (r: map<Timeframe, Processor>)
    requires 0 < interval && forall tf :: tf in LADDER ==> tf in lookbacks && 1 <= lookbacks[tf]
    ensures forall tf :: tf in r <==> tf in LADDER && Available(tf, interval)
    ensures forall tf :: tf in r ==> EmptyProcessor(r[tf], lookbacks[tf], detect) && fresh(r[tf])
    ensures forall a, b :: a in r && b in r && a != b ==> r[a] != r[b]
  {
    hide LADDER, Available, Processor.Valid;
    r := map[];
    for i := 0 to |LADDER|
      invariant forall tf :: tf in r <==> tf in LADDER[..i] && Available(tf, interval)
      invariant forall tf :: tf in r ==> EmptyProcessor(r[tf], lookbacks[tf], detect) && fresh(r[tf])
      invariant forall a, b :: a in r && b in r && a != b ==> r[a] != r[b]
    {
      var tf := LADDER[i];
      LadderStep(i);
      if Available(tf, interval) {
        var p := new Processor(lookbacks[tf], detect);
        r := r[tf := p];
      }
    }
    assert LADDER[..|LADDER|] == LADDER;
  }

  /** Push candles one after the other into an empty processor. */
  method PushAll(p: Processor, candles: seq<Bar>) returns (snapshots: seq<Snapshot>)
    requires p.Valid() && p.bars == [] && Increasing(candles) && AllSane(candles)
    modifies p
    ensures p.Valid() && p.bars == candles && snapshots == History(candles, p.lookback, p.detect)
  {
    hide Processor.Valid, SnapshotAfter;
    snapshots := [];
    for i := 0 to |candles|
      invariant p.Valid() && p.bars == candles[..i] && snapshots == History(candles[..i], p.lookback, p.detect)
    {
      var snapshot := p.Push(candles[i]);
      assert candles[..i + 1] == candles[..i] + [candles[i]];
      assert candles[..i + 1][..i] == candles[..i];
      snapshots := snapshots + [snapshot.value];
    }
    assert candles[..|candles|] == candles;
  }

  lemma NoTimes()
    ensures TimesIncrease([])
  {
  }

  lemma NothingFed(tf: Timeframe, interval: nat)
    ensures BatchCandles([], tf, interval) == [] && FeedAll([], tf, interval) == Feed([], None)
  {
  }

  lemma {:induction false} GroupsSane(rows: seq<Row>, tf: Timeframe)
    requires AllSaneRows(rows)
    ensures forall g :: g in Groups(rows, tf) ==> SaneRow(g.rows[|g.rows| - 1])
  {
    hide BucketStart, SaneRow;
    if rows != [] {
      GroupsSane(rows[..|rows| - 1], tf);
    }
  }

  /** Batch candles are in time order and well formed. */
  lemma BatchSound(rows: seq<Row>, tf: Timeframe, interval: nat)
    requires TimesIncrease(rows) && AllSaneRows(rows)
    ensures Increasing(BatchCandles(rows, tf, interval)) && AllSane(BatchCandles(rows, tf, interval))
  {
    hide BucketStart, BucketEnd, Candle, Groups, AllCandles, BatchCandles, Sane, SaneRow, TimesIncrease, AllSaneRows,
         Increasing;
    BatchIncreases(rows, tf, interval);
    BatchIsPrefix(rows, tf, interval);
    GroupsSane(rows, tf);
    var (g, batch) := (Groups(rows, tf), BatchCandles(rows, tf, interval));
    if g == [] {
      NoCandlesAtAll(g, tf);
    } else {
      AllCandlesAt(g, tf, 0);
    }
    forall i | 0 <= i < |batch| ensures Sane(batch[i]) {
      AllCandlesAt(g, tf, i);
      CandleSane(g[i].rows, BucketEnd(g[i].start, tf));
    }
  }

  /** The processor has consumed the batch candles of `tf`, and `history` is what it returned. */
  ghost predicate Rebuilt(p: Processor, history: seq<Snapshot>, source: seq<Row>, tf: Timeframe, interval: nat,
                          lookback: nat, detect: PoolDetector)
    reads p
  {
    p.Valid() && p.bars == BatchCandles(source, tf, interval) && p.lookback == lookback && p.detect == detect &&
    history == History(BatchCandles(source, tf, interval), lookback, detect)
  }

  method Rebuild(p: Processor, source: seq<Row>, tf: Timeframe, interval: nat) returns (history: seq<Snapshot>)
    requires 0 < interval && Available(tf, interval) && TimesIncrease(source) && AllSaneRows(source)
    requires EmptyProcessor(p, p.lookback, p.detect)
    modifies p
    ensures Rebuilt(p, history, source, tf, interval, p.lookback, p.detect)
  {
    hide Available, Processor.Valid, BatchCandles, TimesIncrease, AllSaneRows, History;
    var candles := AggregateBars(source, tf, interval);
    BatchSound(source, tf, interval);
    NothingFed(tf, interval);
    history := PushAll(p, candles.value);
  }

  lemma EmptyIs(p: Processor, lookback: nat, detect: PoolDetector)
    requires EmptyProcessor(p, lookback, detect)
    ensures p.lookback == lookback && p.detect == detect
  {
  }

  /** Run the empty processors, one timeframe after the other, over the same source bars. */
  method BuildHistories(processors: map<Timeframe, Processor>, source: seq<Row>, interval: nat,
                        lookbacks: map<Timeframe, nat>, detect: PoolDetector)
    returns (histories: map<Timeframe, seq<Snapshot>>)
    requires 0 < interval && TimesIncrease(source) && AllSaneRows(source)
    requires forall tf :: tf in processors ==> tf in LADDER && Available(tf, interval) && tf in lookbacks
    requires forall tf :: tf in processors ==> EmptyProcessor(processors[tf], lookbacks[tf], detect)
    requires forall a, b :: a in processors && b in processors && a != b ==> processors[a] != processors[b]
    modifies set tf | tf in processors :: processors[tf]
    ensures histories.Keys == processors.Keys
    ensures forall tf :: tf in histories ==>
              Rebuilt(processors[tf], histories[tf], source, tf, interval, lookbacks[tf], detect)
  {
    hide LADDER, Available, EmptyProcessor, TimesIncrease, AllSaneRows, Rebuilt;
    histories := map[];
    for i := 0 to |LADDER|
      invariant forall tf :: tf in histories <==> tf in processors && tf in LADDER[..i]
      invariant forall tf :: tf in processors && tf !in LADDER[..i] ==>
                  EmptyProcessor(processors[tf], lookbacks[tf], detect)
      invariant forall tf :: tf in histories ==>
                  Rebuilt(processors[tf], histories[tf], source, tf, interval, lookbacks[tf], detect)
    {
      var tf := LADDER[i];
      LadderStep(i);
      if tf in processors {
        EmptyIs(processors[tf], lookbacks[tf], detect);
        var history := Rebuild(processors[tf], source, tf, interval);
        histories := histories[tf := history];
      }
    }
    assert LADDER[..|LADDER|] == LADDER;
  }

  /** How an update ends: a bar that is not later; a candle that is not later in the named timeframe; or
      the latest snapshot of every timeframe that published. */
  datatype Updated = Late | Jammed(timeframe: Timeframe) | Closed(states: map<Timeframe, Snapshot>)

  /** The rows, with the new one if it was taken in. */
  function With(rows: seq<Row>, row: Row, taken: bool): seq<Row> {
    if taken then rows + [row] else rows
  }

  ghost predicate AllFollowed(fed: map<Timeframe, seq<Row>>, row: Row) {
    forall tf :: tf in fed ==> Follows(fed[tf], row)
  }

  /** Position in the ladder. */
  function Rank(tf: Timeframe): nat {
    match tf
    case Month => 0
    case Week => 1
    case Day => 2
    case H4 => 3
    case H1 => 4
    case M15 => 5
    case M3 => 6
  }

  lemma RankStep(i: nat)
    requires i < |LADDER|
    ensures forall tf :: Rank(tf) < i + 1 <==> Rank(tf) < i || tf == LADDER[i]
    ensures Rank(LADDER[i]) == i
  {
  }

  /** If the longer list comes out in order, so does the shorter one, and the last row jams nothing. */
  lemma FrontInOrder(rows: seq<Row>, row: Row, tf: Timeframe, interval: nat)
    requires TimesIncrease(rows + [row]) && Increasing(FeedAll(rows + [row], tf, interval).published)
    ensures Increasing(FeedAll(rows, tf, interval).published)
    ensures !LatePush(FeedAll(rows, tf, interval), BucketStart(row.timestamp, tf), tf)
  {
    hide FeedRow, Increasing, BucketStart, LatePush, FeedOrdered;
    var all := rows + [row];
    assert all[..|rows|] == rows && all[|rows|] == row;
    FeedExtends(all, |rows|, tf, interval);
    PrefixIncreases(FeedAll(rows, tf, interval).published, FeedAll(all, tf, interval).published);
    if rows != [] {
      assert all[|rows| - 1] == rows[|rows| - 1];
      FeedAllOrdered(rows, tf, interval);
      FeedRowOrdered(FeedAll(rows, tf, interval), rows[|rows| - 1], row, tf, interval);
    } else {
      NothingLate(rows, BucketStart(row.timestamp, tf), tf, interval);
    }
  }

  lemma SameElsewhere<V>(before: map<Timeframe, V>, after: map<Timeframe, V>, tf: Timeframe)
    requires after - {tf} == before - {tf}
    ensures forall k :: k != tf ==> Get(after, k) == Get(before, k)
  {
    forall k | k != tf ensures Get(after, k) == Get(before, k) {
      assert k in after <==> k in after - {tf};
      assert k in before <==> k in before - {tf};
    }
  }

  lemma ExpectedShape(feed: Feed, lookback: nat, detect: PoolDetector, maxHistory: nat)
    ensures var v := Expected(feed, lookback, detect, maxHistory);
            v.bars == feed.published && v.group == feed.group
  {
  }

  lemma ExpectedSame(a: Feed, b: Feed, lookback: nat, detect: PoolDetector, maxHistory: nat)
    requires a.published == b.published
    ensures var (v, w) := (Expected(a, lookback, detect, maxHistory), Expected(b, lookback, detect, maxHistory));
            v.history == w.history && v.latest == w.latest
  {
  }

  /** Publishing can only lengthen the list, and the flush leaves no group of another candle open. */
  lemma FlushGrows(f: Feed, row: Row, tf: Timeframe, interval: nat)
    requires OpenGroupSound(f)
    ensures var flushed := Flush(f, BucketStart(row.timestamp, tf), tf);
            (flushed.group.Some? ==> flushed.group.value.start == BucketStart(row.timestamp, tf)) &&
            (FeedRow(flushed, row, tf, interval).published == f.published ==> flushed.published == f.published)
  {
    hide BucketStart, BucketEnd, Candle;
  }

  lemma LastSane(bars: seq<Bar>, bar: Bar)
    ensures AllSane(bars + [bar]) ==> Sane(bar)
  {
    assert (bars + [bar])[|bars|] == bar;
  }

  lemma FirstInOrder(row: Row, tf: Timeframe, interval: nat)
    ensures Increasing(FeedRow(Feed([], None), row, tf, interval).published)
  {
    hide FeedRow;
    FirstOrdered(row, tf, interval);
  }

  /** What a row publishes is well formed, and in time order unless closing the open group jams. */
  lemma StepFacts(consumed: seq<Row>, row: Row, tf: Timeframe, interval: nat)
    requires TimesIncrease(consumed + [row]) && AllSaneRows(consumed) && SaneRow(row)
    requires Increasing(FeedAll(consumed, tf, interval).published)
    ensures var feed := FeedAll(consumed, tf, interval);
            var flushed := Flush(feed, BucketStart(row.timestamp, tf), tf);
            var next := FeedRow(feed, row, tf, interval);
            FeedAll(consumed + [row], tf, interval) == next &&
            FeedSane(flushed) && FeedSane(next) && AllSaneRows(consumed + [row]) &&
            (Increasing(next.published) <==> !LatePush(feed, BucketStart(row.timestamp, tf), tf))
  {
    hide FeedRow, Flush, BucketStart, BucketEnd, FeedSane, FeedOrdered, LatePush, Increasing;
    var all := consumed + [row];
    assert all[..|consumed|] == consumed && all[|consumed|] == row;
    var feed := FeedAll(consumed, tf, interval);
    FeedAllSane(consumed, tf, interval);
    FeedRowSane(feed, row, tf, interval);
    if consumed != [] {
      var last := consumed[|consumed| - 1];
      assert all[|consumed| - 1] == last;
      FeedAllOrdered(consumed, tf, interval);
      FeedRowOrdered(feed, last, row, tf, interval);
    } else {
      FirstInOrder(row, tf, interval);
      NothingLate(consumed, BucketStart(row.timestamp, tf), tf, interval);
    }
  }

  lemma LastIsLater(bars: seq<Bar>, bar: Bar)
    requires Increasing(bars + [bar])
    ensures bars != [] ==> bars[|bars| - 1].timestamp < bar.timestamp
  {
    assert bars != [] ==> (bars + [bar])[|bars| - 1] == bars[|bars| - 1] && (bars + [bar])[|bars|] == bar;
  }

  class Engine {
    const interval: nat
    const maxHistory: nat
    const lookbacks: map<Timeframe, nat>
    const detect: PoolDetector
    var processors: map<Timeframe, Processor>
    var groups: map<Timeframe, Group>
    var histories: map<Timeframe, seq<Snapshot>>
    var states: map<Timeframe, Snapshot>
    var lastTimestamp: Option<nat>
    /** The rows received so far, other than the refused ones. */
    ghost var rows: seq<Row>
    /** The rows each timeframe has taken in: all of them, unless a late candle cut an update short. */
    ghost var fed: map<Timeframe, seq<Row>>

    ghost predicate ConfigValid()
    {
      0 < interval && forall tf :: tf in LADDER ==> tf in lookbacks && 1 <= lookbacks[tf]
    }

    ghost function Parts(): set<object>
      reads this`processors
    {
      set tf | tf in processors :: processors[tf]
    }

    ghost predicate Distinct()
      reads this`processors
    {
      forall a, b :: a in processors && b in processors && a != b ==> processors[a] != processors[b]
    }

    /** Everything the engine holds for one timeframe. */
    ghost function ViewOf(tf: Timeframe): View
      requires tf in processors
      reads this`processors, this`groups, this`histories, this`states, processors[tf]
    {
      View(processors[tf].bars, Get(groups, tf), Get(histories, tf), Get(states, tf))
    }

    /** Timeframe `tf` has published and holds open exactly what `feed` says. */
    ghost predicate At(tf: Timeframe, feed: Feed)
      reads this`processors, this`groups, this`histories, this`states
      reads if tf in processors then {processors[tf]} else {}
    {
      ProcessorFits(tf) && ViewOf(tf) == Expected(feed, lookbacks[tf], detect, maxHistory)
    }

    ghost predicate FedWith(tf: Timeframe, consumed: seq<Row>)
      reads this`processors, this`groups, this`histories, this`states
      reads if tf in processors then {processors[tf]} else {}
    {
      At(tf, FeedAll(consumed, tf, interval))
    }

    /** Rows in time order and well formed whose candles all came out in time order. */
    ghost predicate Consumable(tf: Timeframe, consumed: seq<Row>) {
      TimesIncrease(consumed) && AllSaneRows(consumed) && Increasing(FeedAll(consumed, tf, interval).published)
    }

    /** The timeframe holds what the rows it took in make of it. */
    ghost predicate Holds(tf: Timeframe)
      reads this`processors, this`groups, this`histories, this`states, this`fed
      reads if tf in processors then {processors[tf]} else {}
    {
      tf in fed && FedWith(tf, fed[tf]) && Consumable(tf, fed[tf])
    }

    ghost predicate AllHold()
      reads this`processors, this`groups, this`histories, this`states, this`fed, Parts()
    {
      forall tf :: tf in processors ==> Holds(tf)
    }

    /** No timeframe is ahead of the last row. */
    ghost predicate NoneAhead()
      reads this`fed, this`lastTimestamp
    {
      forall tf :: tf in fed && fed[tf] != [] ==>
                     lastTimestamp.Some? && fed[tf][|fed[tf]| - 1].timestamp <= lastTimestamp.value
    }

    /** The rows give every timeframe its candles in time order. */
    ghost predicate AllInOrder(rows: seq<Row>)
      reads this`processors
    {
      forall tf :: tf in processors ==> Increasing(FeedAll(rows, tf, interval).published)
    }

    ghost predicate Valid()
      reads this, Parts()
    {
      && ConfigValid() && Distinct()
      && (forall tf :: tf in processors <==> tf in LADDER && Available(tf, interval))
      && AllHold() && NoneAhead()
      && (AllInOrder(rows) ==> forall tf :: tf in processors ==> tf in fed && fed[tf] == rows)
      && TimesIncrease(rows)
      && lastTimestamp == (if rows == [] then None else Some(rows[|rows| - 1].timestamp))
    }

    ghost predicate ProcessorFits(tf: Timeframe)
      reads this`processors, if tf in processors then {processors[tf]} else {}
    {
      tf in processors && tf in lookbacks && processors[tf].lookback == lookbacks[tf] &&
      processors[tf].detect == detect && processors[tf].Valid()
    }

    /** Some candle of `tf` closes when `row` arrives after `consumed`. */
    predicate Publishes(tf: Timeframe, consumed: seq<Row>, row: Row) {
      FeedAll(consumed + [row], tf, interval).published != FeedAll(consumed, tf, interval).published
    }

    /** Closing the open group of `tf` for `row` would push a candle that is not later than the last one. */
    predicate Jams(tf: Timeframe, consumed: seq<Row>, row: Row) {
      LatePush(FeedAll(consumed, tf, interval), BucketStart(row.timestamp, tf), tf)
    }

    lemma StartHolds(tf: Timeframe)
      requires tf in processors && tf in lookbacks && EmptyProcessor(processors[tf], lookbacks[tf], detect)
      requires tf !in groups && tf !in histories && tf !in states && Get(fed, tf) == Some([])
      ensures Holds(tf)
    {
      hide Processor.Valid;
      NothingFed(tf, interval);
    }

    /** A fresh engine: one empty processor for every timeframe the source interval can build. */
    constructor (interval: nat, maxHistory: nat, lookbacks: map<Timeframe, nat>, detect: PoolDetector)
      requires 0 < interval && forall tf :: tf in LADDER ==> tf in lookbacks && 1 <= lookbacks[tf]
      ensures Valid() && fresh(Parts()) && rows == [] && fed == map tf | tf in processors :: []
      ensures this.interval == interval && this.maxHistory == maxHistory
      ensures this.lookbacks == lookbacks && this.detect == detect
    {
      hide LADDER, Available, Processor.Valid, Holds, FeedAll, TimesIncrease, EmptyProcessor;
      var empty := FreshProcessors(interval, lookbacks, detect);
      this.interval, this.maxHistory, this.lookbacks, this.detect := interval, maxHistory, lookbacks, detect;
      groups, histories, states, lastTimestamp, rows := map[], map[], map[], None, [];
      fed := map tf | tf in empty :: [];
      processors := empty;
      new;
      NoTimes();
      forall tf | tf in processors ensures Holds(tf) {
        StartHolds(tf);
      }
    }

    /** Rebuild every timeframe from scratch with the batch aggregator; `None` when the loader refuses the
        source, which happens after the processors were replaced and the states and histories emptied. The
        open groups and the last timestamp of the streaming side are left as they are. */
    method Build(source: seq<Row>) returns (r: Option<map<Timeframe, seq<Snapshot>>>)
      requires ConfigValid() && AllSaneRows(source)
      modifies this`processors, this`histories, this`states
      ensures r.None? <==> !TimesIncrease(source)
      ensures source == [] ==> processors == old(processors) && r == Some(map[])
      ensures source == [] ==> histories == map[] && states == map[]
      ensures source != [] ==>
                && (forall tf :: tf in processors <==> tf in LADDER && Available(tf, interval))
                && (forall tf :: tf in processors ==> fresh(processors[tf]))
      ensures r.None? ==>
                && histories == map[] && states == map[]
                && (forall tf :: tf in processors ==> EmptyProcessor(processors[tf], lookbacks[tf], detect))
      ensures source != [] && r.Some? ==>
                && r.value.Keys == processors.Keys && histories == r.value
                && (forall tf :: tf in r.value ==>
                      Rebuilt(processors[tf], r.value[tf], source, tf, interval, lookbacks[tf], detect))
                && (forall tf :: tf in r.value ==> Get(states, tf) == Last(r.value[tf]))
    {
      hide LADDER, Available, TimesIncrease, AllSaneRows, Rebuilt, EmptyProcessor;
      states, histories := map[], map[];
      if source == [] {
        NoTimes();
        return Some(map[]);
      }
      processors := FreshProcessors(interval, lookbacks, detect);
      var ok := ValidateMonotonicity(source);
      if !ok {
        return None;
      }
      histories := BuildHistories(processors, source, interval, lookbacks, detect);
      states := map tf | tf in histories && histories[tf] != [] :: histories[tf][|histories[tf]| - 1];
      r := Some(histories);
    }

    /** Make `s` the latest state of `tf` and append it to the bounded history. */
    method Record(tf: Timeframe, s: Snapshot)
      modifies this`histories, this`states
      ensures tf in states && states == old(states)[tf := s]
      ensures var kept := if tf in old(histories) then old(histories)[tf] else [];
              histories == old(histories)[tf := Retained(kept + [s], maxHistory)]
      ensures histories - {tf} == old(histories) - {tf} && states - {tf} == old(states) - {tf}
    {
      hide Retained;
      var history := if tf in histories then histories[tf] else [];
      histories := histories[tf := Retained(history + [s], maxHistory)];
      states := states[tf := s];
    }

    method DropGroup(tf: Timeframe)
      modifies this`groups
      ensures tf !in groups && groups - {tf} == old(groups) - {tf}
    {
      groups := groups - {tf};
    }

    /** The maps differ from earlier ones at `tf` at most. */
    ghost predicate Elsewhere(tf: Timeframe, g: map<Timeframe, Group>, h: map<Timeframe, seq<Snapshot>>,
                              s: map<Timeframe, Snapshot>)
      reads this`groups, this`histories, this`states
    {
      groups - {tf} == g - {tf} && histories - {tf} == h - {tf} && states - {tf} == s - {tf}
    }

    /** Push a closed candle into its processor, record the snapshot and drop the open group. A candle that
        is not later than the last one is refused and changes nothing. */
    method PublishCandle(tf: Timeframe, bar: Bar, newlyClosed: map<Timeframe, Snapshot>, ghost feed: Feed)
      returns (r: Option<map<Timeframe, Snapshot>>)
      requires tf in processors && At(tf, feed) && Sane(bar)
      modifies this`groups, this`histories, this`states, processors[tf]
      ensures r.None? <==> feed.published != [] && bar.timestamp <= feed.published[|feed.published| - 1].timestamp
      ensures At(tf, if r.None? then feed else Feed(feed.published + [bar], None))
      ensures Elsewhere(tf, old(groups), old(histories), old(states))
      ensures r.Some? ==> tf in states && r.value == newlyClosed[tf := states[tf]]
    {
      hide SnapshotAfter, Retained, Processor.Valid, Increasing, Expected;
      ExpectedShape(feed, lookbacks[tf], detect, maxHistory);
      ExpectedShape(Feed(feed.published + [bar], None), lookbacks[tf], detect, maxHistory);
      ExpectedAppend(feed, bar, lookbacks[tf], detect, maxHistory);
      var snapshot := processors[tf].Push(bar);
      if snapshot.None? {
        return None;
      }
      Record(tf, snapshot.value);
      DropGroup(tf);
      r := Some(newlyClosed[tf := snapshot.value]);
    }

    /** Close the open group if `start` belongs to another candle; `None` if that pushes a late candle. */
    method FlushGroup(tf: Timeframe, start: nat, newlyClosed: map<Timeframe, Snapshot>, ghost feed: Feed)
      returns (r: Option<map<Timeframe, Snapshot>>)
      requires OpenGroupSound(feed) && tf in processors && At(tf, feed) && FeedSane(Flush(feed, start, tf))
      modifies this`groups, this`histories, this`states, processors[tf]
      ensures r.None? <==> LatePush(feed, start, tf)
      ensures At(tf, if r.None? then feed else Flush(feed, start, tf))
      ensures Elsewhere(tf, old(groups), old(histories), old(states))
      ensures r.Some? ==>
                if Flush(feed, start, tf).published == feed.published
                then r.value == newlyClosed && states == old(states)
                else tf in states && r.value == newlyClosed[tf := states[tf]]
    {
      hide BucketEnd, Candle, Processor.Valid, Expected, Increasing, AllSane;
      ExpectedShape(feed, lookbacks[tf], detect, maxHistory);
      r := Some(newlyClosed);
      if tf in groups && groups[tf].start != start {
        var g := groups[tf];
        var closeTime := BucketEnd(g.start, tf);
        CandleTime(g.rows, closeTime);
        LastSane(feed.published, Candle(g.rows, closeTime));
        r := PublishCandle(tf, Candle(g.rows, closeTime), newlyClosed, feed);
      }
    }

    /** Add the row to its group and close the group if the row completes it. */
    method AddRow(tf: Timeframe, row: Row, newlyClosed: map<Timeframe, Snapshot>, ghost feed: Feed)
      returns (r: map<Timeframe, Snapshot>)
      requires OpenGroupSound(feed) && tf in processors && At(tf, feed)
      requires feed.group.Some? ==> feed.group.value.start == BucketStart(row.timestamp, tf)
      requires Increasing(FeedRow(feed, row, tf, interval).published) &&
               AllSane(FeedRow(feed, row, tf, interval).published)
      modifies this`groups, this`histories, this`states, processors[tf]
      ensures At(tf, FeedRow(feed, row, tf, interval))
      ensures Elsewhere(tf, old(groups), old(histories), old(states))
      ensures if FeedRow(feed, row, tf, interval).published == feed.published
              then r == newlyClosed && states == old(states)
              else tf in states && r == newlyClosed[tf := states[tf]]
    {
      hide BucketStart, BucketEnd, Candle, Processor.Valid, Expected, Increasing, AllSane;
      ExpectedShape(feed, lookbacks[tf], detect, maxHistory);
      r := newlyClosed;
      var start := BucketStart(row.timestamp, tf);
      var rows := (if tf in groups then groups[tf].rows else []) + [row];
      var end := BucketEnd(start, tf);
      ghost var next := FeedRow(feed, row, tf, interval);
      if row.timestamp + interval == end {
        LastSane(feed.published, Candle(rows, end));
        LastIsLater(feed.published, Candle(rows, end));
        var published := PublishCandle(tf, Candle(rows, end), r, feed);
        r := published.value;
      } else {
        ExpectedShape(next, lookbacks[tf], detect, maxHistory);
        ExpectedSame(feed, next, lookbacks[tf], detect, maxHistory);
        groups := groups[tf := Group(start, rows)];
      }
    }

    /** One row for one timeframe; `None`, and no change, if closing its open group pushes a late candle. */
    method FeedTimeframe(tf: Timeframe, row: Row, newlyClosed: map<Timeframe, Snapshot>, ghost consumed: seq<Row>)
      returns (r: Option<map<Timeframe, Snapshot>>)
      requires ConfigValid() && tf in processors && FedWith(tf, consumed)
      requires Consumable(tf, consumed) && Follows(consumed, row) && SaneRow(row)
      modifies this`groups, this`histories, this`states, processors[tf]
      ensures r.None? <==> Jams(tf, consumed, row)
      ensures FedWith(tf, if r.None? then consumed else consumed + [row])
      ensures r.Some? ==> Consumable(tf, consumed + [row])
      ensures Elsewhere(tf, old(groups), old(histories), old(states))
      ensures r.Some? ==>
                if Publishes(tf, consumed, row) then tf in states && r.value == newlyClosed[tf := states[tf]]
                else r.value == newlyClosed
    {
      hide BucketStart, FeedAll, FeedRow, Flush, At, Processor.Valid, TimesIncrease, AllSaneRows, Increasing, AllSane,
           LatePush;
      ghost var feed := FeedAll(consumed, tf, interval);
      var start := BucketStart(row.timestamp, tf);
      IncreasesBy(consumed, row);
      StepFacts(consumed, row, tf, interval);
      FlushThenRow(feed, row, tf, interval);
      FlushGrows(feed, row, tf, interval);
      r := FlushGroup(tf, start, newlyClosed, feed);
      if r.Some? {
        var closed := AddRow(tf, row, r.value, Flush(feed, start, tf));
        r := Some(closed);
      }
    }

    lemma StillFed(tf: Timeframe, consumed: seq<Row>, view: View)
      requires tf in processors && ProcessorFits(tf) && ViewOf(tf) == view
      requires tf in lookbacks && view == Expected(FeedAll(consumed, tf, interval), lookbacks[tf], detect, maxHistory)
      ensures FedWith(tf, consumed)
    {
      hide FeedAll, Expected, Processor.Valid;
    }

    lemma FedIs(tf: Timeframe, consumed: seq<Row>)
      requires tf in processors && FedWith(tf, consumed)
      ensures ProcessorFits(tf) && tf in lookbacks
      ensures ViewOf(tf) == Expected(FeedAll(consumed, tf, interval), lookbacks[tf], detect, maxHistory)
    {
      hide FeedAll, Expected, Processor.Valid;
    }

    /** `FeedTimeframe`, seen from the other timeframes: nothing of theirs moves. */
    method FeedOnly(tf: Timeframe, row: Row, newlyClosed: map<Timeframe, Snapshot>, ghost consumed: seq<Row>)
      returns (r: Option<map<Timeframe, Snapshot>>)
      requires ConfigValid() && Distinct() && tf in processors && FedWith(tf, consumed)
      requires Consumable(tf, consumed) && Follows(consumed, row) && SaneRow(row)
      modifies this`groups, this`histories, this`states, processors[tf]
      ensures r.None? <==> Jams(tf, consumed, row)
      ensures FedWith(tf, if r.None? then consumed else consumed + [row])
      ensures r.Some? ==> Consumable(tf, consumed + [row])
      ensures forall other :: other in processors && other != tf ==>
                ProcessorFits(other) == old(ProcessorFits(other)) && ViewOf(other) == old(ViewOf(other))
      ensures forall other :: other != tf ==> Get(states, other) == old(Get(states, other))
      ensures r.Some? ==>
                if Publishes(tf, consumed, row) then tf in states && r.value == newlyClosed[tf := states[tf]]
                else r.value == newlyClosed
    {
      hide FedWith, Follows, Consumable, Publishes, Jams, Processor.Valid;
      r := FeedTimeframe(tf, row, newlyClosed, consumed);
      SameElsewhere(old(groups), groups, tf);
      SameElsewhere(old(histories), histories, tf);
      SameElsewhere(old(states), states, tf);
    }

    ghost predicate TookIn(fed: map<Timeframe, seq<Row>>, before: map<Timeframe, seq<Row>>, row: Row, n: nat)
      reads this`processors
    {
      && fed.Keys == before.Keys && processors.Keys <= before.Keys
      && forall tf :: tf in fed ==> fed[tf] == With(before[tf], row, tf in processors && Rank(tf) < n)
    }

    ghost predicate NoneJammed(before: map<Timeframe, seq<Row>>, row: Row, n: nat)
      requires processors.Keys <= before.Keys
      reads this`processors
    {
      forall tf :: tf in processors && Rank(tf) < n ==> !Jams(tf, before[tf], row)
    }

    ghost predicate Reports(states: map<Timeframe, Snapshot>, before: map<Timeframe, seq<Row>>, row: Row, n: nat,
                            closed: map<Timeframe, Snapshot>)
      requires processors.Keys <= before.Keys
      reads this`processors
    {
      && (forall tf :: tf in closed <==> tf in processors && Rank(tf) < n && Publishes(tf, before[tf], row))
      && (forall tf :: tf in closed ==> Get(states, tf) == Some(closed[tf]))
    }

    ghost predicate PartwayOf(fed: map<Timeframe, seq<Row>>, states: map<Timeframe, Snapshot>,
                              before: map<Timeframe, seq<Row>>, row: Row, n: nat, closed: map<Timeframe, Snapshot>)
      reads this`processors
    {
      TookIn(fed, before, row, n) && NoneJammed(before, row, n) && Reports(states, before, row, n, closed)
    }

    /** The timeframes before position `n` of the ladder had no jam and took the row in, the others did not;
        `closed` holds the latest state of exactly those that published. */
    ghost predicate Partway(before: map<Timeframe, seq<Row>>, row: Row, n: nat, closed: map<Timeframe, Snapshot>)
      reads this`processors, this`fed, this`states
    {
      PartwayOf(fed, states, before, row, n, closed)
    }

    /** What an update that is not late did: without a jam every timeframe took the row in and the states of
        those that published are returned; a jam leaves the timeframe and those after it as they were. */
    ghost predicate Carried(before: map<Timeframe, seq<Row>>, row: Row, r: Updated)
      reads this`processors, this`fed, this`states
    {
      match r
      case Late => false
      case Jammed(tf) => tf in processors && tf in before && Jams(tf, before[tf], row) &&
                         exists closed :: Partway(before, row, Rank(tf), closed)
      case Closed(closed) => Partway(before, row, |LADDER|, closed)
    }

    lemma AllArePast(row: Row)
      requires NoneAhead() && (lastTimestamp.Some? ==> lastTimestamp.value < row.timestamp)
      ensures AllFollowed(fed, row)
    {
    }

    lemma NowPast(before: map<Timeframe, seq<Row>>, row: Row, r: Updated)
      requires AllFollowed(before, row) && Carried(before, row, r) && lastTimestamp == Some(row.timestamp)
      ensures NoneAhead()
    {
      hide Jams, Publishes, Rank;
    }

    /** The row is the last one received. */
    method Advance(row: Row)
      requires AllHold()
      modifies this`lastTimestamp, this`rows
      ensures lastTimestamp == Some(row.timestamp) && rows == old(rows) + [row] && AllHold()
    {
      hide FedWith, Consumable;
      lastTimestamp := Some(row.timestamp);
      rows := rows + [row];
    }

    lemma HoldingFed()
      requires AllHold()
      ensures forall tf :: tf in processors ==> tf in fed
    {
    }

    lemma NotYet(row: Row)
      requires AllHold()
      ensures Partway(fed, row, 0, map[])
    {
      hide FedWith;
      HoldingFed();
    }

    lemma NothingAt(before: map<Timeframe, seq<Row>>, row: Row, i: nat, closed: map<Timeframe, Snapshot>)
      requires i < |LADDER| && LADDER[i] !in processors && Partway(before, row, i, closed)
      ensures Partway(before, row, i + 1, closed)
    {
      hide LADDER, Rank, Jams, Publishes;
      RankStep(i);
    }

    lemma UpNext(before: map<Timeframe, seq<Row>>, row: Row, i: nat, closed: map<Timeframe, Snapshot>)
      requires i < |LADDER| && LADDER[i] in processors && Partway(before, row, i, closed) && AllFollowed(before, row)
      ensures LADDER[i] in fed && LADDER[i] in before && fed[LADDER[i]] == before[LADDER[i]]
      ensures Follows(fed[LADDER[i]], row)
    {
      hide LADDER, Rank, Jams, Publishes, Follows;
      RankStep(i);
    }

    lemma TookInStep(fed0: map<Timeframe, seq<Row>>, before: map<Timeframe, seq<Row>>, row: Row, i: nat)
      requires i < |LADDER| && LADDER[i] in processors && LADDER[i] in before
      requires TookIn(fed0, before, row, i) && fed == fed0[LADDER[i] := before[LADDER[i]] + [row]]
      ensures TookIn(fed, before, row, i + 1)
    {
      hide LADDER, Rank;
      RankStep(i);
    }

    lemma ReportsStep(states0: map<Timeframe, Snapshot>, before: map<Timeframe, seq<Row>>, row: Row, i: nat,
                      closed: map<Timeframe, Snapshot>, more: map<Timeframe, Snapshot>)
      requires i < |LADDER| && LADDER[i] in processors && processors.Keys <= before.Keys
      requires Reports(states0, before, row, i, closed)
      requires forall other :: other != LADDER[i] ==> Get(states, other) == Get(states0, other)
      requires if Publishes(LADDER[i], before[LADDER[i]], row)
               then LADDER[i] in states && more == closed[LADDER[i] := states[LADDER[i]]] else more == closed
      ensures Reports(states, before, row, i + 1, more)
    {
      hide LADDER, Rank, Publishes;
      RankStep(i);
    }

    lemma TookInKeys(fed0: map<Timeframe, seq<Row>>, before: map<Timeframe, seq<Row>>, row: Row, n: nat)
      requires TookIn(fed0, before, row, n)
      ensures fed0.Keys == before.Keys && processors.Keys <= before.Keys
    {
    }

    lemma PartwayStep(fed0: map<Timeframe, seq<Row>>, states0: map<Timeframe, Snapshot>,
                      before: map<Timeframe, seq<Row>>, row: Row, i: nat,
                      closed: map<Timeframe, Snapshot>, more: map<Timeframe, Snapshot>)
      requires i < |LADDER| && LADDER[i] in processors && LADDER[i] in before
      requires PartwayOf(fed0, states0, before, row, i, closed) && !Jams(LADDER[i], before[LADDER[i]], row)
      requires fed == fed0[LADDER[i] := before[LADDER[i]] + [row]]
      requires forall other :: other != LADDER[i] ==> Get(states, other) == Get(states0, other)
      requires if Publishes(LADDER[i], before[LADDER[i]], row)
               then LADDER[i] in states && more == closed[LADDER[i] := states[LADDER[i]]] else more == closed
      ensures Partway(before, row, i + 1, more)
    {
      hide LADDER, Rank, Jams, Publishes, TookIn, Reports;
      RankStep(i);
      TookInKeys(fed0, before, row, i);
      TookInStep(fed0, before, row, i);
      ReportsStep(states0, before, row, i, closed, more);
      TookInKeys(fed, before, row, i + 1);
    }

    lemma PartwaySame(fed0: map<Timeframe, seq<Row>>, states0: map<Timeframe, Snapshot>,
                      before: map<Timeframe, seq<Row>>, row: Row, i: nat, closed: map<Timeframe, Snapshot>)
      requires i < |LADDER| && PartwayOf(fed0, states0, before, row, i, closed) && fed == fed0
      requires forall other :: other != LADDER[i] ==> Get(states, other) == Get(states0, other)
      ensures Partway(before, row, i, closed)
    {
      hide LADDER, Rank, Jams, Publishes;
      RankStep(i);
    }

    /** Feed the row to one timeframe; the others hold what they held. */
    method FeedNext(tf: Timeframe, row: Row, newlyClosed: map<Timeframe, Snapshot>)
      returns (r: Option<map<Timeframe, Snapshot>>)
      requires ConfigValid() && Distinct() && AllHold() && SaneRow(row)
      requires tf in processors && tf in fed && Follows(fed[tf], row)
      modifies this`groups, this`histories, this`states, this`fed, processors[tf]
      ensures AllHold() && (r.None? <==> Jams(tf, old(fed)[tf], row))
      ensures fed == if r.None? then old(fed) else old(fed)[tf := old(fed)[tf] + [row]]
      ensures forall other :: other != tf ==> Get(states, other) == old(Get(states, other))
      ensures r.Some? ==>
                if Publishes(tf, old(fed)[tf], row) then tf in states && r.value == newlyClosed[tf := states[tf]]
                else r.value == newlyClosed
    {
      hide Processor.Valid, FedWith, FeedAll, Expected, Consumable, Jams, Publishes, ConfigValid, Follows,
           Engine.ViewOf, Engine.ProcessorFits;
      ghost var held := fed;
      forall other | other in processors
        ensures ProcessorFits(other) && other in lookbacks
        ensures ViewOf(other) == Expected(FeedAll(held[other], other, interval), lookbacks[other], detect, maxHistory)
      {
        FedIs(other, held[other]);
      }
      r := FeedOnly(tf, row, newlyClosed, fed[tf]);
      forall other | other in processors && other != tf ensures FedWith(other, held[other]) {
        StillFed(other, held[other], ViewOf(other));
      }
      if r.Some? {
        fed := fed[tf := fed[tf] + [row]];
      }
    }

    /** Feed the row to the timeframe at position `i` of the ladder. */
    method FeedAt(i: nat, row: Row, newlyClosed: map<Timeframe, Snapshot>, ghost before: map<Timeframe, seq<Row>>)
      returns (r: Option<map<Timeframe, Snapshot>>)
      requires i < |LADDER| && LADDER[i] in processors
      requires ConfigValid() && Distinct() && SaneRow(row) && AllHold() && AllFollowed(before, row)
      requires Partway(before, row, i, newlyClosed)
      modifies this`groups, this`histories, this`states, this`fed, Parts()
      ensures AllHold()
      ensures LADDER[i] in before && (r.None? <==> Jams(LADDER[i], before[LADDER[i]], row))
      ensures if r.None? then Partway(before, row, i, newlyClosed) else Partway(before, row, i + 1, r.value)
    {
      hide LADDER, Rank, Processor.Valid, ConfigValid, Publishes, Jams, AllHold, PartwayOf, AllFollowed;
      var tf := LADDER[i];
      UpNext(before, row, i, newlyClosed);
      ghost var (fedBefore, statesBefore) := (fed, states);
      r := FeedNext(tf, row, newlyClosed);
      if r.Some? {
        PartwayStep(fedBefore, statesBefore, before, row, i, newlyClosed, r.value);
      } else {
        PartwaySame(fedBefore, statesBefore, before, row, i, newlyClosed);
      }
    }

    /** Feed the row to each available timeframe, in ladder order, as far as it goes. */
    method FeedLadder(row: Row) returns (r: Updated)
      requires ConfigValid() && Distinct() && SaneRow(row) && AllHold() && AllFollowed(fed, row)
      modifies this`groups, this`histories, this`states, this`fed, Parts()
      ensures AllHold() && !r.Late? && Carried(old(fed), row, r)
    {
      hide LADDER, Rank, Processor.Valid, ConfigValid, AllHold, AllFollowed, Partway, Jams;
      ghost var before := fed;
      var newlyClosed: map<Timeframe, Snapshot> := map[];
      NotYet(row);
      for i := 0 to |LADDER|
        invariant AllHold() && Partway(before, row, i, newlyClosed)
      {
        RankStep(i);
        if LADDER[i] in processors {
          var closed := FeedAt(i, row, newlyClosed, before);
          if closed.None? {
            return Jammed(LADDER[i]);
          }
          newlyClosed := closed.value;
        } else {
          NothingAt(before, row, i, newlyClosed);
        }
      }
      r := Closed(newlyClosed);
    }

    /** While every timeframe gets its candles in time order, no row is lost to any of them. */
    lemma StaysInOrder(before: map<Timeframe, seq<Row>>, row: Row, r: Updated)
      requires Carried(before, row, r) && TimesIncrease(rows + [row])
      requires AllInOrder(rows) ==> forall tf :: tf in processors ==> tf in before && before[tf] == rows
      ensures AllInOrder(rows + [row]) ==> forall tf :: tf in processors ==> tf in fed && fed[tf] == rows + [row]
    {
      hide FeedAll, Increasing, LatePush, Publishes, TimesIncrease;
      if AllInOrder(rows + [row]) {
        forall tf | tf in processors
          ensures Increasing(FeedAll(rows, tf, interval).published) && !Jams(tf, rows, row)
        {
          FrontInOrder(rows, row, tf, interval);
        }
      }
    }

    /** Consume one completed source bar. A bar not after the previous one is refused. The others go to the
        timeframes in ladder order until one of them has to close a candle that is not later than its last
        one: that timeframe and those after it are left as they were, those before it have taken the row.
        Otherwise the map holds, for each timeframe that published anything on this bar, its latest
        snapshot: when a bar both ends a gap and completes a candle, the earlier of the two is only in the
        history. */
    method Update(row: Row) returns (r: Updated)
      requires Valid() && SaneRow(row)
      modifies this, Parts()
      ensures Valid() && processors == old(processors)
      ensures r.Late? <==> old(lastTimestamp).Some? && row.timestamp <= old(lastTimestamp).value
      ensures r.Late? ==> unchanged(this)
      ensures rows == if r.Late? then old(rows) else old(rows) + [row]
      ensures !r.Late? ==> Carried(old(fed), row, r)
    {
      hide FedWith, Processor.Valid, Carried, AllInOrder, AllHold, NoneAhead, AllFollowed, TimesIncrease;
      if lastTimestamp.Some? && row.timestamp <= lastTimestamp.value {
        return Late;
      }
      IncreasesBy(rows, row);
      AllArePast(row);
      ghost var before := fed;
      r := FeedLadder(row);
      StaysInOrder(before, row, r);
      Advance(row);
      NowPast(before, row, r);
    }
  }

  /** The streamed candles of a timeframe are the batch candles of the rows it took in exactly when the last
      of them does not overhang its candle and none opened in a completed one; and then its history and
      state are what a build of those rows gives, bounded to what is retained. */
  lemma StreamedHistory(e: Engine, tf: Timeframe)
    requires e.Valid() && tf in e.processors
    ensures tf in e.fed
    ensures var rows := e.fed[tf];
            e.processors[tf].bars == BatchCandles(rows, tf, e.interval) <==>
            !LastOverhangs(rows, tf, e.interval) && NeverReopens(rows, tf, e.interval)
    ensures !LastOverhangs(e.fed[tf], tf, e.interval) && NeverReopens(e.fed[tf], tf, e.interval) ==>
              var h := History(BatchCandles(e.fed[tf], tf, e.interval), e.lookbacks[tf], e.detect);
              Get(e.histories, tf) == (if h == [] then None else Some(Retained(h, e.maxHistory))) &&
              Get(e.states, tf) == Last(h)
  {
    hide FeedAll, BatchCandles, Available, Processor.Valid, Retained, SnapshotAfter, LastOverhangs, NeverReopens,
         Increasing, AllSaneRows;
    assert e.Holds(tf);
    StreamingEqualsBatchIff(e.fed[tf], tf, e.interval);
  }

  /** For any reachable engine the candles a timeframe has consumed and its open group cut the rows it took in
      into consecutive runs, each candle made of exactly its run. */
  lemma StreamedCandles(e: Engine, tf: Timeframe) returns (cuts: seq<nat>)
    requires e.Valid() && tf in e.processors
    ensures tf in e.fed && CutsOf(Feed(e.processors[tf].bars, Get(e.groups, tf)), e.fed[tf], cuts, tf)
  {
    hide FeedAll, CutsOf, Processor.Valid, Increasing, AllSaneRows, TimesIncrease;
    assert e.Holds(tf);
    var feed := FeedAll(e.fed[tf], tf, e.interval);
    ExpectedShape(feed, e.lookbacks[tf], e.detect, e.maxHistory);
    cuts := StreamedCuts(e.fed[tf], tf, e.interval);
  }

  lemma GridInOrder(rows: seq<Row>, tf: Timeframe, interval: nat)
    requires 0 < interval && AllOnGrid(rows, interval) && TimesIncrease(rows) && Available(tf, interval)
    ensures Increasing(FeedAll(rows, tf, interval).published)
  {
    hide FeedAll, BatchCandles, Increasing, Available, OnGrid;
    StreamingEqualsBatch(rows, tf, interval);
    BatchIncreases(rows, tf, interval);
  }

  /** On the source grid, gaps included, every timeframe took in every row, and its whole streamed state is
      what a build gives. */
  lemma StreamedOnGrid(e: Engine, tf: Timeframe)
    requires e.Valid() && AllOnGrid(e.rows, e.interval) && tf in e.processors
    ensures tf in e.fed && e.fed[tf] == e.rows
    ensures var h := History(BatchCandles(e.rows, tf, e.interval), e.lookbacks[tf], e.detect);
            Get(e.histories, tf) == (if h == [] then None else Some(Retained(h, e.maxHistory))) &&
            Get(e.states, tf) == Last(h)
  {
    hide FeedAll, BatchCandles, Available, Processor.Valid, Retained, SnapshotAfter, OnGrid, LastOverhangs,
         NeverReopens,
         Increasing, AllSaneRows, Engine.AllHold, Spaced;
    forall other | other in e.processors ensures Increasing(FeedAll(e.rows, other, e.interval).published) {
      GridInOrder(e.rows, other, e.interval);
    }
    assert e.AllInOrder(e.rows);
    StreamedHistory(e, tf);
    StreamingEqualsBatch(e.rows, tf, e.interval);
    StreamingEqualsBatchIff(e.rows, tf, e.interval);
  }

  /** On the source grid no update ever jams. */
  lemma GridNeverJams(e: Engine, tf: Timeframe, row: Row)
    requires e.Valid() && tf in e.processors && AllOnGrid(e.rows + [row], e.interval) && TimesIncrease(e.rows + [row])
    ensures tf in e.fed && !e.Jams(tf, e.fed[tf], row)
  {
    hide FeedAll, LatePush, Available, Processor.Valid, OnGrid, Increasing, Engine.AllHold, TimesIncrease, AllSaneRows;
    forall other | other in e.processors ensures Increasing(FeedAll(e.rows, other, e.interval).published) {
      GridInOrder(e.rows + [row], other, e.interval);
      FrontInOrder(e.rows, row, other, e.interval);
    }
    assert e.AllInOrder(e.rows);
    GridInOrder(e.rows + [row], tf, e.interval);
    FrontInOrder(e.rows, row, tf, e.interval);
  }

  /** Later source bars append snapshots and rewrite none. */
  lemma HistoriesOnlyGrow(rows: seq<Row>, k: nat, tf: Timeframe, interval: nat, lookback: nat, detect: PoolDetector)
    requires 0 < interval && AllOnGrid(rows, interval) && TimesIncrease(rows) && Available(tf, interval) && k <= |rows|
    ensures History(BatchCandles(rows[..k], tf, interval), lookback, detect) <=
            History(BatchCandles(rows, tf, interval), lookback, detect)
  {
    hide BatchCandles, Available, OnGrid;
    FutureAppend(rows, k, tf, interval);
    var (before, after) := (BatchCandles(rows[..k], tf, interval), BatchCandles(rows, tf, interval));
    assert after[..|before|] == before;
    HistoryPrefix(after, |before|, lookback, detect);
  }
}
