/** Source rows into target candles: the batch grouping and the streaming feed, and why they agree. */
module Aggregation {
  import opened Common
  import opened Timeframes
  import opened MarketStructure

  datatype Row = Row(timestamp: nat, open: real, high: real, low: real, close: real, volume: real, spread: real)

  predicate SaneRow(row: Row) {
    row.low <= row.close <= row.high
  }

  ghost predicate AllSaneRows(rows: seq<Row>) {
    forall i :: 0 <= i < |rows| ==> SaneRow(rows[i])
  }

  // ---------------------------------------------------------------- one candle

  function Highest(rows: seq<Row>): real
    requires rows != []
  {
    if |rows| == 1 then rows[0].high
    else var m := Highest(rows[..|rows| - 1]); var h := rows[|rows| - 1].high; if h > m then h else m
  }

  function Lowest(rows: seq<Row>): real
    requires rows != []
  {
    if |rows| == 1 then rows[0].low
    else var m := Lowest(rows[..|rows| - 1]); var l := rows[|rows| - 1].low; if l < m then l else m
  }

  function TotalVolume(rows: seq<Row>): real {
    if rows == [] then 0.0 else TotalVolume(rows[..|rows| - 1]) + rows[|rows| - 1].volume
  }

  function TotalSpread(rows: seq<Row>): real {
    if rows == [] then 0.0 else TotalSpread(rows[..|rows| - 1]) + rows[|rows| - 1].spread
  }

  function Candle(rows: seq<Row>, closeTime: nat): Bar
    requires rows != []
  {
    Bar(closeTime, rows[0].open, Highest(rows), Lowest(rows), rows[|rows| - 1].close,
        TotalVolume(rows), TotalSpread(rows) / |rows| as real, |rows|)
  }

  lemma {:induction false} HighestBounds(rows: seq<Row>)
    requires rows != []
    ensures forall i :: 0 <= i < |rows| ==> rows[i].high <= Highest(rows)
    ensures exists i :: 0 <= i < |rows| && Highest(rows) == rows[i].high
  {
    if |rows| > 1 {
      var front := rows[..|rows| - 1];
      HighestBounds(front);
      var i :| 0 <= i < |front| && Highest(front) == front[i].high;
      assert Highest(rows) == rows[i].high || Highest(rows) == rows[|rows| - 1].high;
      assert forall j :: 0 <= j < |front| ==> rows[j].high == front[j].high;
    } else {
      assert Highest(rows) == rows[0].high;
    }
  }

  lemma {:induction false} LowestBounds(rows: seq<Row>)
    requires rows != []
    ensures forall i :: 0 <= i < |rows| ==> Lowest(rows) <= rows[i].low
    ensures exists i :: 0 <= i < |rows| && Lowest(rows) == rows[i].low
  {
    if |rows| > 1 {
      var front := rows[..|rows| - 1];
      LowestBounds(front);
      var i :| 0 <= i < |front| && Lowest(front) == front[i].low;
      assert Lowest(rows) == rows[i].low || Lowest(rows) == rows[|rows| - 1].low;
      assert forall j :: 0 <= j < |front| ==> rows[j].low == front[j].low;
    } else {
      assert Lowest(rows) == rows[0].low;
    }
  }

  /** A candle whose last row is well formed closes inside its own range. */
  lemma CandleSane(rows: seq<Row>, closeTime: nat)
    requires rows != [] && SaneRow(rows[|rows| - 1])
    ensures Sane(Candle(rows, closeTime))
  {
    HighestBounds(rows);
    LowestBounds(rows);
  }

  // ---------------------------------------------------------------- batch grouping

  datatype Group = Group(start: nat, rows: seq<Row>)

  /** Consecutive rows with the same bucket, in order. */
  function Groups(rows: seq<Row>, tf: Timeframe): (r: seq<Group>)
    ensures rows != [] ==> r != []
    ensures forall g :: g in r ==> g.rows != []
  {
    if rows == [] then []
    else
      var (front, row) := (rows[..|rows| - 1], rows[|rows| - 1]);
      var start, before := BucketStart(row.timestamp, tf), Groups(front, tf);
      if before != [] && before[|before| - 1].start == start then
        before[..|before| - 1] + [Group(start, before[|before| - 1].rows + [row])]
      else before + [Group(start, [row])]
  }

  /** Candles of the groups whose close boundary is known to have passed. */
  function Candles(groups: seq<Group>, tf: Timeframe, knownThrough: nat): seq<Bar>
    requires forall g :: g in groups ==> g.rows != []
  {
    if groups == [] then []
    else
      var last := groups[|groups| - 1];
      var end := BucketEnd(last.start, tf);
      Candles(groups[..|groups| - 1], tf, knownThrough) + if end > knownThrough then [] else [Candle(last.rows, end)]
  }

  function BatchCandles(rows: seq<Row>, tf: Timeframe, interval: nat): seq<Bar> {
    if rows == [] then [] else Candles(Groups(rows, tf), tf, rows[|rows| - 1].timestamp + interval)
  }

  // ---------------------------------------------------------------- streaming feed

  /** Candles published so far and the group still open. */
  datatype Feed = Feed(published: seq<Bar>, group: Option<Group>)

  predicate OpenGroupSound(f: Feed) {
    f.group.Some? ==> f.group.value.rows != []
  }

  /** Close the open group if the row belongs to another candle. */
  function Flush(f: Feed, start: nat, tf: Timeframe): (r: Feed)
    requires OpenGroupSound(f)
    ensures OpenGroupSound(r)
  {
    if f.group.Some? && f.group.value.start != start then
      Feed(f.published + [Candle(f.group.value.rows, BucketEnd(f.group.value.start, tf))], None)
    else f
  }

  function FeedRow(f: Feed, row: Row, tf: Timeframe, interval: nat): (r: Feed)
    requires OpenGroupSound(f)
    ensures OpenGroupSound(r)
  {
    var start := BucketStart(row.timestamp, tf);
    var flushed := Flush(f, start, tf);
    var rows := (if flushed.group.Some? then flushed.group.value.rows else []) + [row];
    var end := BucketEnd(start, tf);
    if row.timestamp + interval == end then Feed(flushed.published + [Candle(rows, end)], None)
    else Feed(flushed.published, Some(Group(start, rows)))
  }

  function FeedAll(rows: seq<Row>, tf: Timeframe, interval: nat): (r: Feed)
    ensures OpenGroupSound(r)
  {
    if rows == [] then Feed([], None)
    else FeedRow(FeedAll(rows[..|rows| - 1], tf, interval), rows[|rows| - 1], tf, interval)
  }

  ghost predicate TimesIncrease(rows: seq<Row>) {
    forall i, j :: 0 <= i < j < |rows| ==> rows[i].timestamp < rows[j].timestamp
  }

  predicate Completes(row: Row, tf: Timeframe, interval: nat) {
    row.timestamp + interval == BucketEnd(BucketStart(row.timestamp, tf), tf)
  }

  predicate SameCandle(a: Row, b: Row, tf: Timeframe) {
    BucketStart(a.timestamp, tf) == BucketStart(b.timestamp, tf)
  }

  /** Row `i` completes a candle that the later row `j` still opens in. */
  predicate Reopens(rows: seq<Row>, i: nat, j: nat, tf: Timeframe, interval: nat)
    requires i < j < |rows|
  {
    Completes(rows[i], tf, interval) && SameCandle(rows[i], rows[j], tf)
  }

  ghost predicate NeverReopens(rows: seq<Row>, tf: Timeframe, interval: nat) {
    forall i, j :: 0 <= i < j < |rows| ==> !Reopens(rows, i, j, tf, interval)
  }

  lemma NeverReopensFront(rows: seq<Row>, tf: Timeframe, interval: nat)
    requires rows != [] && NeverReopens(rows, tf, interval)
    ensures NeverReopens(rows[..|rows| - 1], tf, interval)
  {
    var front := rows[..|rows| - 1];
    forall i, j | 0 <= i < j < |front| ensures !Reopens(front, i, j, tf, interval) {
      assert !Reopens(rows, i, j, tf, interval);
    }
  }

  // ---------------------------------------------------------------- the two agree

  function AllCandles(groups: seq<Group>, tf: Timeframe): seq<Bar>
    requires forall g :: g in groups ==> g.rows != []
  {
    if groups == [] then []
    else
      var last := groups[|groups| - 1];
      AllCandles(groups[..|groups| - 1], tf) + [Candle(last.rows, BucketEnd(last.start, tf))]
  }

  /** The feed that goes with a grouping: the last group is open unless its final row completed it. */
  ghost function FeedOf(g: seq<Group>, completed: bool, tf: Timeframe): Feed
    requires forall x :: x in g ==> x.rows != []
  {
    if g == [] then Feed([], None)
    else if completed then Feed(AllCandles(g, tf), None)
    else Feed(AllCandles(g[..|g| - 1], tf), Some(g[|g| - 1]))
  }

  /** The feed holds the batch grouping: every group but possibly the last is published, and the last
      one is open unless its final row completed it. */
  ghost predicate FeedMatches(rows: seq<Row>, tf: Timeframe, interval: nat) {
    FeedAll(rows, tf, interval) ==
    FeedOf(Groups(rows, tf), rows != [] && Completes(rows[|rows| - 1], tf, interval), tf)
  }

  lemma {:induction false} LastGroup(rows: seq<Row>, tf: Timeframe)
    requires rows != []
    ensures Groups(rows, tf)[|Groups(rows, tf)| - 1].start == BucketStart(rows[|rows| - 1].timestamp, tf)
  {
  }

  lemma NothingMatches(tf: Timeframe, interval: nat)
    ensures FeedMatches([], tf, interval)
  {
  }

  lemma AllCandlesAppend(groups: seq<Group>, g: Group, tf: Timeframe)
    requires g.rows != [] && forall x :: x in groups ==> x.rows != []
    ensures AllCandles(groups + [g], tf) == AllCandles(groups, tf) + [Candle(g.rows, BucketEnd(g.start, tf))]
  {
    hide BucketEnd, Candle;
    assert (groups + [g])[..|groups|] == groups;
  }

  lemma FeedOfAppend(groups: seq<Group>, g: Group, completed: bool, tf: Timeframe)
    requires g.rows != [] && forall x :: x in groups ==> x.rows != []
    ensures FeedOf(groups + [g], completed, tf) ==
            if completed then Feed(AllCandles(groups, tf) + [Candle(g.rows, BucketEnd(g.start, tf))], None)
            else Feed(AllCandles(groups, tf), Some(g))
  {
    hide AllCandles, BucketEnd, Candle;
    AllCandlesAppend(groups, g, tf);
    assert (groups + [g])[..|groups|] == groups;
  }

  lemma FirstGroup(row: Row, tf: Timeframe, interval: nat)
    ensures FeedRow(Feed([], None), row, tf, interval) ==
            FeedOf([] + [Group(BucketStart(row.timestamp, tf), [row])], Completes(row, tf, interval), tf)
  {
    hide BucketStart, BucketEnd, Candle, FeedOf;
    FeedOfAppend([], Group(BucketStart(row.timestamp, tf), [row]), Completes(row, tf, interval), tf);
    assert [] + [row] == [row];
  }

  lemma NewGroup(before: seq<Group>, completed: bool, row: Row, tf: Timeframe, interval: nat)
    requires before != [] && forall x :: x in before ==> x.rows != []
    requires before[|before| - 1].start != BucketStart(row.timestamp, tf)
    ensures FeedRow(FeedOf(before, completed, tf), row, tf, interval) ==
            FeedOf(before + [Group(BucketStart(row.timestamp, tf), [row])], Completes(row, tf, interval), tf)
  {
    hide BucketStart, BucketEnd, Candle, FeedOf, AllCandles;
    var (front, last) := (before[..|before| - 1], before[|before| - 1]);
    assert before == front + [last] && [] + [row] == [row];
    FeedOfAppend(front, last, completed, tf);
    AllCandlesAppend(front, last, tf);
    FeedOfAppend(before, Group(BucketStart(row.timestamp, tf), [row]), Completes(row, tf, interval), tf);
  }

  lemma SameGroup(before: seq<Group>, row: Row, tf: Timeframe, interval: nat)
    requires before != [] && forall x :: x in before ==> x.rows != []
    requires before[|before| - 1].start == BucketStart(row.timestamp, tf)
    ensures FeedRow(FeedOf(before, false, tf), row, tf, interval) ==
            FeedOf(before[..|before| - 1] + [Group(before[|before| - 1].start, before[|before| - 1].rows + [row])],
                   Completes(row, tf, interval), tf)
  {
    hide BucketStart, BucketEnd, Candle, FeedOf, AllCandles;
    var (front, last) := (before[..|before| - 1], before[|before| - 1]);
    assert before == front + [last];
    FeedOfAppend(front, last, false, tf);
    FeedOfAppend(front, Group(last.start, last.rows + [row]), Completes(row, tf, interval), tf);
  }

  lemma FeedStep(rows: seq<Row>, tf: Timeframe, interval: nat)
    requires rows != [] && FeedMatches(rows[..|rows| - 1], tf, interval)
    requires |rows| > 1 ==> var a, b := rows[|rows| - 2], rows[|rows| - 1];
               Completes(a, tf, interval) ==> BucketStart(a.timestamp, tf) != BucketStart(b.timestamp, tf)
    ensures FeedMatches(rows, tf, interval)
  {
    hide BucketStart, BucketEnd, Candle, AllCandles, FeedRow, Completes, FeedOf;
    var front, row := rows[..|rows| - 1], rows[|rows| - 1];
    var start, before := BucketStart(row.timestamp, tf), Groups(front, tf);
    if front != [] {
      LastGroup(front, tf);
      if before[|before| - 1].start == start {
        SameGroup(before, row, tf, interval);
      } else {
        NewGroup(before, Completes(front[|front| - 1], tf, interval), row, tf, interval);
      }
    } else {
      FirstGroup(row, tf, interval);
    }
  }

  /** As long as no completed candle is opened in again, the feed follows the batch groups. */
  lemma {:induction false} FeedMatchesBatch(rows: seq<Row>, tf: Timeframe, interval: nat)
    requires NeverReopens(rows, tf, interval)
    ensures FeedMatches(rows, tf, interval)
  {
    hide BucketStart, BucketEnd, Candle, FeedMatches;
    if rows != [] {
      NeverReopensFront(rows, tf, interval);
      FeedMatchesBatch(rows[..|rows| - 1], tf, interval);
      if |rows| > 1 {
        assert !Reopens(rows, |rows| - 2, |rows| - 1, tf, interval);
      }
      FeedStep(rows, tf, interval);
    } else {
      NothingMatches(tf, interval);
    }
  }

  /** Distinct buckets do not overlap. */
  lemma BucketsApart(t: nat, u: nat, tf: Timeframe)
    requires t <= u && BucketStart(t, tf) != BucketStart(u, tf)
    ensures BucketEnd(BucketStart(t, tf), tf) <= BucketStart(u, tf)
  {
    hide BucketStart, BucketEnd;
    BucketInterval(t, u, tf);
    BucketInterval(t, t, tf);
    var edge := BucketEnd(BucketStart(t, tf), tf) - 1;
    BucketInterval(t, edge, tf);
    BucketInterval(u, edge, tf);
  }

  /** Every group but the last closed no later than the last row's candle opens. */
  lemma {:induction false} EarlierGroupsClosed(rows: seq<Row>, tf: Timeframe)
    requires TimesIncrease(rows) && rows != []
    ensures forall i :: 0 <= i < |Groups(rows, tf)| - 1 ==>
              BucketEnd(Groups(rows, tf)[i].start, tf) <= BucketStart(rows[|rows| - 1].timestamp, tf)
  {
    hide BucketStart, BucketEnd;
    var front, row := rows[..|rows| - 1], rows[|rows| - 1];
    if front != [] {
      var last := front[|front| - 1];
      EarlierGroupsClosed(front, tf);
      LastGroup(front, tf);
      if BucketStart(last.timestamp, tf) != BucketStart(row.timestamp, tf) {
        BucketsApart(last.timestamp, row.timestamp, tf);
        BucketInterval(last.timestamp, last.timestamp, tf);
      }
    }
  }

  lemma {:induction false} KnownCandles(groups: seq<Group>, tf: Timeframe, knownThrough: nat)
    requires forall g :: g in groups ==> g.rows != []
    requires forall i :: 0 <= i < |groups| ==> BucketEnd(groups[i].start, tf) <= knownThrough
    ensures Candles(groups, tf, knownThrough) == AllCandles(groups, tf)
  {
    hide BucketEnd, Candle;
    if groups != [] {
      KnownCandles(groups[..|groups| - 1], tf, knownThrough);
    }
  }

  /** The batch filter keeps every group but the last, and the last one exactly when its close
      boundary has been reached. */
  lemma BatchKeeps(rows: seq<Row>, tf: Timeframe, interval: nat)
    requires TimesIncrease(rows) && rows != []
    ensures var g := Groups(rows, tf);
            var (last, known) := (g[|g| - 1], rows[|rows| - 1].timestamp + interval);
            BatchCandles(rows, tf, interval) ==
            AllCandles(g[..|g| - 1], tf) +
            if BucketEnd(last.start, tf) <= known then [Candle(last.rows, BucketEnd(last.start, tf))] else []
  {
    hide BucketStart, BucketEnd, Candle, Groups;
    var g, t := Groups(rows, tf), rows[|rows| - 1].timestamp;
    EarlierGroupsClosed(rows, tf);
    BucketInterval(t, t, tf);
    KnownCandles(g[..|g| - 1], tf, t + interval);
  }

  /** The last row spans past the close boundary of its own candle. */
  predicate Overhangs(row: Row, tf: Timeframe, interval: nat) {
    BucketEnd(BucketStart(row.timestamp, tf), tf) < row.timestamp + interval
  }

  ghost predicate LastOverhangs(rows: seq<Row>, tf: Timeframe, interval: nat) {
    rows != [] && Overhangs(rows[|rows| - 1], tf, interval)
  }

  /** As long as no completed candle is opened in again, batch candles are the streamed candles, plus the
      still open group when the last row overhangs its candle. */
  lemma StreamingVersusBatch(rows: seq<Row>, tf: Timeframe, interval: nat)
    requires TimesIncrease(rows) && NeverReopens(rows, tf, interval)
    ensures var (f, batch) := (FeedAll(rows, tf, interval), BatchCandles(rows, tf, interval));
            if LastOverhangs(rows, tf, interval)
            then f.group.Some? &&
                 batch == f.published + [Candle(f.group.value.rows, BucketEnd(f.group.value.start, tf))]
            else batch == f.published
  {
    hide BucketStart, BucketEnd, Candle, AllCandles, Groups;
    if rows != [] {
      FeedMatchesBatch(rows, tf, interval);
      BatchKeeps(rows, tf, interval);
      LastGroup(rows, tf);
      var g := Groups(rows, tf);
      assert g == g[..|g| - 1] + [g[|g| - 1]];
      AllCandlesAppend(g[..|g| - 1], g[|g| - 1], tf);
    }
  }

  // ---------------------------------------------------------------- when a completed candle is opened in again

  ghost predicate Increasing(bars: seq<Bar>) {
    forall i, j :: 0 <= i < j < |bars| ==> bars[i].timestamp < bars[j].timestamp
  }

  /** The last candle published is one of the group still open, with fewer rows than the group has. */
  ghost predicate CutShort(rows: seq<Row>, tf: Timeframe, interval: nat) {
    rows != [] &&
    var (f, g) := (FeedAll(rows, tf, interval), Groups(rows, tf));
    var group := g[|g| - 1];
    && f.group.Some? && f.group.value.start == group.start && f.published != []
    && f.published[|f.published| - 1].timestamp == BucketEnd(group.start, tf)
    && f.published[|f.published| - 1].sourceBars < |group.rows|
  }

  lemma CandleTime(rows: seq<Row>, closeTime: nat)
    requires rows != []
    ensures Candle(rows, closeTime).timestamp == closeTime && Candle(rows, closeTime).sourceBars == |rows|
  {
  }

  lemma NotIncreasing(bars: seq<Bar>, bar: Bar, more: seq<Bar>)
    requires bars != [] && bar.timestamp <= bars[|bars| - 1].timestamp
    ensures !Increasing(bars + [bar] + more)
  {
    var all := bars + [bar] + more;
    assert all[|bars| - 1] == bars[|bars| - 1] && all[|bars|] == bar;
  }

  lemma PrefixIncreases(some: seq<Bar>, all: seq<Bar>)
    requires some <= all && Increasing(all)
    ensures Increasing(some)
  {
  }

  lemma NoneReopenedSince(rows: seq<Row>, i: nat, j: nat, k: nat, tf: Timeframe, interval: nat)
    requires TimesIncrease(rows) && i < j < k < |rows| && Reopens(rows, i, k, tf, interval)
    ensures Reopens(rows, i, j, tf, interval)
  {
    hide BucketStart, BucketEnd;
    BucketInterval(rows[i].timestamp, rows[j].timestamp, tf);
    BucketInterval(rows[k].timestamp, rows[k].timestamp, tf);
  }

  lemma SameReopening(rows: seq<Row>, i: nat, j: nat, n: nat, tf: Timeframe, interval: nat)
    requires i < j < |rows| && n <= |rows|
    ensures j < n ==> (Reopens(rows[..n], i, j, tf, interval) <==> Reopens(rows, i, j, tf, interval))
  {
    hide BucketStart, BucketEnd;
  }

  /** The first row to open in a completed candle follows the row that completed it. */
  lemma FirstReopening(rows: seq<Row>, tf: Timeframe, interval: nat)
    requires TimesIncrease(rows) && rows != [] && !NeverReopens(rows, tf, interval)
    requires NeverReopens(rows[..|rows| - 1], tf, interval)
    ensures |rows| > 1 && Reopens(rows, |rows| - 2, |rows| - 1, tf, interval)
  {
    hide Reopens;
    var front, n := rows[..|rows| - 1], |rows| - 1;
    var i, j :| 0 <= i < j < |rows| && Reopens(rows, i, j, tf, interval);
    SameReopening(rows, i, j, n, tf, interval);
    assert j == n;
    if i < n - 1 {
      NoneReopenedSince(rows, i, i + 1, n, tf, interval);
      SameReopening(rows, i, i + 1, n, tf, interval);
      assert false;
    }
  }

  /** Two rows never complete the same candle. */
  lemma CompletesOnce(a: Row, b: Row, tf: Timeframe, interval: nat)
    requires a.timestamp < b.timestamp && Completes(a, tf, interval) && SameCandle(a, b, tf)
    ensures !Completes(b, tf, interval)
  {
    hide BucketStart, BucketEnd;
  }

  lemma LastRows(rows: seq<Row>, tf: Timeframe)
    requires |rows| > 1
    ensures var (g, before) := (Groups(rows, tf), Groups(rows[..|rows| - 1], tf));
            var (a, b) := (rows[|rows| - 2], rows[|rows| - 1]);
            g[|g| - 1].start == BucketStart(b.timestamp, tf) &&
            (SameCandle(a, b, tf) ==> |g[|g| - 1].rows| == |before[|before| - 1].rows| + 1)
  {
    hide BucketStart;
    LastGroup(rows, tf);
    LastGroup(rows[..|rows| - 1], tf);
  }

  lemma CutStarts(rows: seq<Row>, tf: Timeframe, interval: nat)
    requires TimesIncrease(rows) && |rows| > 1 && NeverReopens(rows[..|rows| - 1], tf, interval)
    requires Reopens(rows, |rows| - 2, |rows| - 1, tf, interval)
    ensures CutShort(rows, tf, interval)
  {
    hide BucketStart, BucketEnd, Candle, Groups, NeverReopens, AllCandles;
    var front, a, b := rows[..|rows| - 1], rows[|rows| - 2], rows[|rows| - 1];
    CompletesOnce(a, b, tf, interval);
    FeedMatchesBatch(front, tf, interval);
    LastGroup(front, tf);
    LastRows(rows, tf);
    var g := Groups(front, tf);
    assert g == g[..|g| - 1] + [g[|g| - 1]];
    AllCandlesAppend(g[..|g| - 1], g[|g| - 1], tf);
    CandleTime(g[|g| - 1].rows, BucketEnd(g[|g| - 1].start, tf));
  }

  lemma CutGoesOn(rows: seq<Row>, tf: Timeframe, interval: nat)
    requires |rows| > 1 && CutShort(rows[..|rows| - 1], tf, interval)
    requires SameCandle(rows[|rows| - 2], rows[|rows| - 1], tf) && !Completes(rows[|rows| - 1], tf, interval)
    ensures CutShort(rows, tf, interval)
  {
    hide BucketStart, BucketEnd, Candle, Groups;
    LastGroup(rows[..|rows| - 1], tf);
    LastRows(rows, tf);
  }

  lemma CutBreaks(rows: seq<Row>, tf: Timeframe, interval: nat)
    requires |rows| > 1 && CutShort(rows[..|rows| - 1], tf, interval)
    requires !SameCandle(rows[|rows| - 2], rows[|rows| - 1], tf) || Completes(rows[|rows| - 1], tf, interval)
    ensures !Increasing(FeedAll(rows, tf, interval).published)
  {
    hide BucketStart, BucketEnd, Candle, Groups, Increasing;
    var front, row := rows[..|rows| - 1], rows[|rows| - 1];
    LastGroup(front, tf);
    var f, next := FeedAll(front, tf, interval), FeedAll(rows, tf, interval);
    var n := |f.published|;
    var bar := next.published[n];
    var group := f.group.value;
    if SameCandle(rows[|rows| - 2], row, tf) {
      CandleTime(group.rows + [row], BucketEnd(group.start, tf));
    } else {
      CandleTime(group.rows, BucketEnd(group.start, tf));
    }
    assert next.published == f.published + [bar] + next.published[n + 1..];
    NotIncreasing(f.published, bar, next.published[n + 1..]);
  }

  /** Streaming only ever appends. */
  lemma {:induction false} FeedExtends(rows: seq<Row>, k: nat, tf: Timeframe, interval: nat)
    requires k <= |rows|
    ensures FeedAll(rows[..k], tf, interval).published <= FeedAll(rows, tf, interval).published
  {
    hide BucketStart, BucketEnd, Candle;
    if k == |rows| {
      assert rows[..k] == rows;
    } else {
      var front := rows[..|rows| - 1];
      assert front[..k] == rows[..k];
      FeedExtends(front, k, tf, interval);
    }
  }

  lemma NoReopening(rows: seq<Row>, tf: Timeframe, interval: nat)
    requires rows == []
    ensures NeverReopens(rows, tf, interval)
  {
  }

  lemma CutIsNotEmpty(rows: seq<Row>, tf: Timeframe, interval: nat)
    requires CutShort(rows, tf, interval)
    ensures rows != []
  {
  }

  /** If what is published is in time order, nothing was opened in again, or only the last candle was, and
      then it was published cut short. */
  lemma {:induction false} NeverReopensOrCut(rows: seq<Row>, tf: Timeframe, interval: nat)
    requires TimesIncrease(rows) && Increasing(FeedAll(rows, tf, interval).published)
    ensures NeverReopens(rows, tf, interval) || CutShort(rows, tf, interval)
  {
    hide BucketStart, BucketEnd, FeedAll, CutShort, NeverReopens, Increasing, Reopens, Completes, SameCandle;
    if rows == [] {
      NoReopening(rows, tf, interval);
    } else {
      var front, n := rows[..|rows| - 1], |rows| - 1;
      FeedExtends(rows, n, tf, interval);
      PrefixIncreases(FeedAll(front, tf, interval).published, FeedAll(rows, tf, interval).published);
      NeverReopensOrCut(front, tf, interval);
      if NeverReopens(front, tf, interval) {
        if !NeverReopens(rows, tf, interval) {
          FirstReopening(rows, tf, interval);
          CutStarts(rows, tf, interval);
        }
      } else if n > 0 && SameCandle(rows[n - 1], rows[n], tf) && !Completes(rows[n], tf, interval) {
        CutGoesOn(rows, tf, interval);
      } else {
        CutIsNotEmpty(front, tf, interval);
        CutBreaks(rows, tf, interval);
      }
    }
  }

  // ---------------------------------------------------------------- batch candles in time order

  lemma {:induction false} AllCandlesAt(groups: seq<Group>, tf: Timeframe, i: nat)
    requires i < |groups| && forall g :: g in groups ==> g.rows != []
    ensures |AllCandles(groups, tf)| == |groups|
    ensures AllCandles(groups, tf)[i] == Candle(groups[i].rows, BucketEnd(groups[i].start, tf))
  {
    hide BucketEnd, Candle;
    var n := |groups| - 1;
    if n > 0 {
      AllCandlesAt(groups[..n], tf, if i < n then i else 0);
    }
  }

  lemma NoGroups(tf: Timeframe)
    ensures Groups([], tf) == []
  {
  }

  lemma GroupsGrow(rows: seq<Row>, tf: Timeframe)
    requires rows != []
    ensures var (before, g) := (Groups(rows[..|rows| - 1], tf), Groups(rows, tf));
            |g| <= |before| + 1 && forall i :: 0 <= i < |g| - 1 ==> g[i] == before[i]
  {
    hide BucketStart;
  }

  lemma {:induction false} GroupsApart(rows: seq<Row>, tf: Timeframe)
    requires TimesIncrease(rows)
    ensures var g := Groups(rows, tf);
            forall i, j :: 0 <= i < j < |g| ==> BucketEnd(g[i].start, tf) < BucketEnd(g[j].start, tf)
  {
    hide BucketStart, BucketEnd, Groups;
    if rows != [] {
      var before, g := Groups(rows[..|rows| - 1], tf), Groups(rows, tf);
      GroupsGrow(rows, tf);
      GroupsApart(rows[..|rows| - 1], tf);
      EarlierGroupsClosed(rows, tf);
      LastGroup(rows, tf);
      BucketInterval(rows[|rows| - 1].timestamp, 0, tf);
      forall i, j | 0 <= i < j < |g| ensures BucketEnd(g[i].start, tf) < BucketEnd(g[j].start, tf) {
        if j < |g| - 1 {
          assert g[i] == before[i] && g[j] == before[j];
        }
      }
    } else {
      NoGroups(tf);
    }
  }

  lemma NoCandlesAtAll(groups: seq<Group>, tf: Timeframe)
    requires groups == []
    ensures AllCandles(groups, tf) == []
  {
  }

  lemma AllCandlesIncrease(rows: seq<Row>, tf: Timeframe)
    requires TimesIncrease(rows)
    ensures Increasing(AllCandles(Groups(rows, tf), tf))
  {
    hide BucketStart, BucketEnd, Candle, AllCandles, Groups;
    var g := Groups(rows, tf);
    GroupsApart(rows, tf);
    var bars := AllCandles(g, tf);
    if g == [] {
      NoCandlesAtAll(g, tf);
    } else {
      AllCandlesAt(g, tf, 0);
    }
    forall i, j | 0 <= i < j < |bars| ensures bars[i].timestamp < bars[j].timestamp {
      AllCandlesAt(g, tf, i);
      AllCandlesAt(g, tf, j);
      CandleTime(g[i].rows, BucketEnd(g[i].start, tf));
      CandleTime(g[j].rows, BucketEnd(g[j].start, tf));
    }
  }

  /** Batch candles are all candles of the groups, the last one possibly left out. */
  lemma BatchIsPrefix(rows: seq<Row>, tf: Timeframe, interval: nat)
    requires TimesIncrease(rows)
    ensures BatchCandles(rows, tf, interval) <= AllCandles(Groups(rows, tf), tf)
  {
    hide BucketStart, BucketEnd, Candle, Groups, AllCandles;
    if rows != [] {
      var g := Groups(rows, tf);
      BatchKeeps(rows, tf, interval);
      assert g == g[..|g| - 1] + [g[|g| - 1]];
      AllCandlesAppend(g[..|g| - 1], g[|g| - 1], tf);
    }
  }

  lemma BatchIncreases(rows: seq<Row>, tf: Timeframe, interval: nat)
    requires TimesIncrease(rows)
    ensures Increasing(BatchCandles(rows, tf, interval))
  {
    hide BucketStart, BucketEnd, Candle, Groups, AllCandles, BatchCandles, Increasing;
    AllCandlesIncrease(rows, tf);
    BatchIsPrefix(rows, tf, interval);
    PrefixIncreases(BatchCandles(rows, tf, interval), AllCandles(Groups(rows, tf), tf));
  }

  /** A candle cut short is not the batch candle. */
  lemma CutDiffers(rows: seq<Row>, tf: Timeframe, interval: nat)
    requires TimesIncrease(rows) && CutShort(rows, tf, interval)
    ensures BatchCandles(rows, tf, interval) != FeedAll(rows, tf, interval).published
  {
    hide BucketStart, BucketEnd, Candle, AllCandles, Groups, FeedAll, BatchCandles;
    var g, t, batch := Groups(rows, tf), rows[|rows| - 1].timestamp, BatchCandles(rows, tf, interval);
    var n := |g| - 1;
    BatchKeeps(rows, tf, interval);
    LastGroup(rows, tf);
    EarlierGroupsClosed(rows, tf);
    BucketInterval(t, t, tf);
    CandleTime(g[n].rows, BucketEnd(g[n].start, tf));
    if BucketEnd(g[n].start, tf) <= t + interval {
      assert batch[|batch| - 1] == Candle(g[n].rows, BucketEnd(g[n].start, tf));
    } else if n > 0 {
      AllCandlesAt(g[..n], tf, n - 1);
      CandleTime(g[n - 1].rows, BucketEnd(g[n - 1].start, tf));
    } else {
      NoCandlesAtAll(g[..n], tf);
    }
  }

  /** For any rows in time order the streamed and the batch candles are equal exactly when the last row
      does not overhang its candle and no completed candle was opened in again. */
  lemma StreamingEqualsBatchIff(rows: seq<Row>, tf: Timeframe, interval: nat)
    requires TimesIncrease(rows)
    ensures BatchCandles(rows, tf, interval) == FeedAll(rows, tf, interval).published <==>
            !LastOverhangs(rows, tf, interval) && NeverReopens(rows, tf, interval)
  {
    hide BucketStart, BucketEnd, Candle, Groups, FeedAll, BatchCandles, NeverReopens, LastOverhangs,
         CutShort, Increasing;
    var (f, batch) := (FeedAll(rows, tf, interval), BatchCandles(rows, tf, interval));
    if NeverReopens(rows, tf, interval) {
      StreamingVersusBatch(rows, tf, interval);
    } else if batch == f.published {
      BatchIncreases(rows, tf, interval);
      NeverReopensOrCut(rows, tf, interval);
      CutDiffers(rows, tf, interval);
    }
  }

  // ---------------------------------------------------------------- the source grid

  ghost predicate AllOnGrid(rows: seq<Row>, interval: nat)
    requires 0 < interval
  {
    forall i :: 0 <= i < |rows| ==> OnGrid(rows[i].timestamp, interval)
  }

  /** Rows do not overlap: each starts no earlier than any before it ends. */
  ghost predicate Spaced(rows: seq<Row>, interval: nat) {
    forall i, j :: 0 <= i < j < |rows| ==> rows[i].timestamp + interval <= rows[j].timestamp
  }

  lemma GridSpaced(rows: seq<Row>, interval: nat)
    requires 0 < interval && AllOnGrid(rows, interval) && TimesIncrease(rows)
    ensures Spaced(rows, interval)
  {
    forall i, j | 0 <= i < j < |rows| ensures rows[i].timestamp + interval <= rows[j].timestamp {
      NextMultiple(rows[i].timestamp, rows[j].timestamp, interval);
    }
  }

  /** Rows at least one interval apart never open in a completed candle. */
  lemma SpacedNeverReopens(rows: seq<Row>, tf: Timeframe, interval: nat)
    requires Spaced(rows, interval)
    ensures NeverReopens(rows, tf, interval)
  {
    hide BucketStart, BucketEnd;
    forall i, j | 0 <= i < j < |rows| ensures !Reopens(rows, i, j, tf, interval) {
      BucketInterval(rows[j].timestamp, rows[j].timestamp, tf);
    }
  }

  /** On the source-interval grid, gaps and all, streaming and batch publish the same candles. */
  lemma StreamingEqualsBatch(rows: seq<Row>, tf: Timeframe, interval: nat)
    requires 0 < interval && AllOnGrid(rows, interval) && TimesIncrease(rows) && Available(tf, interval)
    ensures BatchCandles(rows, tf, interval) == FeedAll(rows, tf, interval).published
  {
    hide BucketStart, BucketEnd, Candle, Groups, FeedAll, BatchCandles, OnGrid;
    GridSpaced(rows, interval);
    SpacedNeverReopens(rows, tf, interval);
    StreamingVersusBatch(rows, tf, interval);
    if rows != [] {
      GridFits(rows[|rows| - 1].timestamp, tf, interval);
    }
  }

  /** Later bars never rewrite a published batch candle. */
  lemma FutureAppend(rows: seq<Row>, k: nat, tf: Timeframe, interval: nat)
    requires 0 < interval && AllOnGrid(rows, interval) && TimesIncrease(rows) && Available(tf, interval) && k <= |rows|
    ensures BatchCandles(rows[..k], tf, interval) <= BatchCandles(rows, tf, interval)
  {
    hide BucketStart, BucketEnd, Candle, Groups, FeedAll, BatchCandles, OnGrid;
    StreamingEqualsBatch(rows, tf, interval);
    StreamingEqualsBatch(rows[..k], tf, interval);
    FeedExtends(rows, k, tf, interval);
  }

  // ---------------------------------------------------------------- what the feed publishes

  ghost predicate ClosedBy(bars: seq<Bar>, t: int) {
    forall i :: 0 <= i < |bars| ==> bars[i].timestamp <= t
  }

  ghost predicate FeedSane(f: Feed) {
    AllSane(f.published) &&
    (f.group.Some? ==> f.group.value.rows != [] && SaneRow(f.group.value.rows[|f.group.value.rows| - 1]))
  }

  lemma FeedRowSane(f: Feed, row: Row, tf: Timeframe, interval: nat)
    requires OpenGroupSound(f) && FeedSane(f) && SaneRow(row)
    ensures FeedSane(Flush(f, BucketStart(row.timestamp, tf), tf))
    ensures FeedSane(FeedRow(f, row, tf, interval))
  {
    hide BucketStart, BucketEnd, Candle, Sane;
    var start := BucketStart(row.timestamp, tf);
    if f.group.Some? {
      CandleSane(f.group.value.rows, BucketEnd(f.group.value.start, tf));
    }
    var flushed := Flush(f, start, tf);
    CandleSane((if flushed.group.Some? then flushed.group.value.rows else []) + [row], BucketEnd(start, tf));
  }

  /** Every published candle of well-formed rows is well formed. */
  lemma {:induction false} FeedAllSane(rows: seq<Row>, tf: Timeframe, interval: nat)
    requires AllSaneRows(rows)
    ensures FeedSane(FeedAll(rows, tf, interval))
  {
    hide BucketStart, BucketEnd, Candle;
    if rows != [] {
      FeedAllSane(rows[..|rows| - 1], tf, interval);
      FeedRowSane(FeedAll(rows[..|rows| - 1], tf, interval), rows[|rows| - 1], tf, interval);
    }
  }

  /** Closing the open group for a row of another candle pushes a candle that is not later than the last
      one published, which a processor refuses. */
  predicate LatePush(f: Feed, start: nat, tf: Timeframe) {
    f.group.Some? && f.group.value.start != start && f.published != [] &&
    BucketEnd(f.group.value.start, tf) <= f.published[|f.published| - 1].timestamp
  }

  /** Candles come out in time order. The last one closed before the current candle opened or is the
      current candle itself, published by a row that completed it; a group is open unless the last row
      completed it. */
  ghost predicate FeedOrdered(f: Feed, last: Row, tf: Timeframe, interval: nat) {
    var start := BucketStart(last.timestamp, tf);
    && Increasing(f.published)
    && (f.published != [] ==>
          f.published[|f.published| - 1].timestamp <= start ||
          f.published[|f.published| - 1].timestamp == BucketEnd(start, tf) <= last.timestamp + interval)
    && (f.group.Some? ==> f.group.value.start == start && f.group.value.rows != [])
    && (f.group.None? <==> Completes(last, tf, interval))
  }

  lemma IncreasingAppend(bars: seq<Bar>, bar: Bar)
    ensures Increasing(bars + [bar]) <==>
            Increasing(bars) && (bars != [] ==> bars[|bars| - 1].timestamp < bar.timestamp)
  {
    var all := bars + [bar];
    if Increasing(all) {
      assert bars <= all && all[|bars|] == bar;
      assert bars != [] ==> all[|bars| - 1] == bars[|bars| - 1];
    }
  }

  /** The flush is in order unless it is a late push; after it everything published closed by the time
      the row's candle opens, or the row is in the candle published last. */
  lemma FlushOrdered(f: Feed, last: Row, row: Row, tf: Timeframe, interval: nat)
    requires last.timestamp < row.timestamp && OpenGroupSound(f) && FeedOrdered(f, last, tf, interval)
    ensures var (start, flushed) := (BucketStart(row.timestamp, tf), Flush(f, BucketStart(row.timestamp, tf), tf));
            (Increasing(flushed.published) <==> !LatePush(f, start, tf)) &&
            (flushed.group.Some? ==> flushed.group.value.start == start) &&
            (flushed.published != [] ==>
               flushed.published[|flushed.published| - 1].timestamp <= start ||
               flushed.published[|flushed.published| - 1].timestamp ==
                   BucketEnd(start, tf) <= last.timestamp + interval)
  {
    hide BucketStart, BucketEnd, Candle, Increasing, Completes;
    BucketInterval(last.timestamp, last.timestamp, tf);
    if !SameCandle(last, row, tf) {
      BucketsApart(last.timestamp, row.timestamp, tf);
      if f.group.Some? {
        var end := BucketEnd(f.group.value.start, tf);
        CandleTime(f.group.value.rows, end);
        IncreasingAppend(f.published, Candle(f.group.value.rows, end));
      }
    }
  }

  /** Adding the row after the flush is always in order. */
  lemma AddOrdered(flushed: Feed, last: Row, row: Row, tf: Timeframe, interval: nat)
    requires last.timestamp < row.timestamp && OpenGroupSound(flushed) && Increasing(flushed.published)
    requires var start := BucketStart(row.timestamp, tf);
             (flushed.group.Some? ==> flushed.group.value.start == start) &&
             (flushed.published != [] ==>
                flushed.published[|flushed.published| - 1].timestamp <= start ||
                flushed.published[|flushed.published| - 1].timestamp ==
                    BucketEnd(start, tf) <= last.timestamp + interval)
    ensures FeedOrdered(FeedRow(flushed, row, tf, interval), row, tf, interval)
  {
    hide BucketStart, BucketEnd, Candle, Increasing;
    BucketInterval(row.timestamp, row.timestamp, tf);
    var rows := (if flushed.group.Some? then flushed.group.value.rows else []) + [row];
    var end := BucketEnd(BucketStart(row.timestamp, tf), tf);
    CandleTime(rows, end);
    IncreasingAppend(flushed.published, Candle(rows, end));
  }

  /** Flushing first changes nothing about what a row does. */
  lemma FlushThenRow(f: Feed, row: Row, tf: Timeframe, interval: nat)
    requires OpenGroupSound(f)
    ensures FeedRow(Flush(f, BucketStart(row.timestamp, tf), tf), row, tf, interval) == FeedRow(f, row, tf, interval)
  {
    hide BucketStart, BucketEnd, Candle;
  }

  lemma FlushIsPrefix(f: Feed, row: Row, tf: Timeframe, interval: nat)
    requires OpenGroupSound(f)
    ensures Flush(f, BucketStart(row.timestamp, tf), tf).published <= FeedRow(f, row, tf, interval).published
  {
    hide BucketStart, BucketEnd, Candle, Flush;
  }

  /** One more row keeps the feed in order exactly when it causes no late push. */
  lemma FeedRowOrdered(f: Feed, last: Row, row: Row, tf: Timeframe, interval: nat)
    requires last.timestamp < row.timestamp && OpenGroupSound(f) && FeedOrdered(f, last, tf, interval)
    ensures Increasing(FeedRow(f, row, tf, interval).published) <==> !LatePush(f, BucketStart(row.timestamp, tf), tf)
    ensures Increasing(FeedRow(f, row, tf, interval).published) ==>
              FeedOrdered(FeedRow(f, row, tf, interval), row, tf, interval) &&
              Increasing(Flush(f, BucketStart(row.timestamp, tf), tf).published)
  {
    hide BucketStart, BucketEnd, FeedRow, Flush, LatePush, Increasing, Completes;
    var flushed := Flush(f, BucketStart(row.timestamp, tf), tf);
    FlushOrdered(f, last, row, tf, interval);
    FlushThenRow(f, row, tf, interval);
    FlushIsPrefix(f, row, tf, interval);
    if Increasing(FeedRow(f, row, tf, interval).published) {
      PrefixIncreases(flushed.published, FeedRow(f, row, tf, interval).published);
    }
    if !LatePush(f, BucketStart(row.timestamp, tf), tf) {
      AddOrdered(flushed, last, row, tf, interval);
    }
  }

  lemma FirstOrdered(row: Row, tf: Timeframe, interval: nat)
    ensures FeedOrdered(FeedRow(Feed([], None), row, tf, interval), row, tf, interval)
  {
    hide BucketStart, BucketEnd, Candle;
    BucketInterval(row.timestamp, row.timestamp, tf);
    CandleTime([] + [row], BucketEnd(BucketStart(row.timestamp, tf), tf));
  }

  /** After rows whose candles were all in time order, the feed is ordered. */
  lemma {:induction false} FeedAllOrdered(rows: seq<Row>, tf: Timeframe, interval: nat)
    requires TimesIncrease(rows) && rows != [] && Increasing(FeedAll(rows, tf, interval).published)
    ensures FeedOrdered(FeedAll(rows, tf, interval), rows[|rows| - 1], tf, interval)
  {
    hide BucketStart, BucketEnd, FeedRow, FeedOrdered, Increasing;
    var front, row := rows[..|rows| - 1], rows[|rows| - 1];
    if front != [] {
      FeedExtends(rows, |front|, tf, interval);
      PrefixIncreases(FeedAll(front, tf, interval).published, FeedAll(rows, tf, interval).published);
      FeedAllOrdered(front, tf, interval);
      FeedRowOrdered(FeedAll(front, tf, interval), front[|front| - 1], row, tf, interval);
    } else {
      FirstOrdered(row, tf, interval);
    }
  }

  /** Only the candle of the last row may have been opened in again. */
  ghost predicate ReopensLastOnly(rows: seq<Row>, tf: Timeframe, interval: nat) {
    forall i, j :: 0 <= i < j < |rows| && Reopens(rows, i, j, tf, interval) ==>
        SameCandle(rows[j], rows[|rows| - 1], tf)
  }

  lemma ReopensLastFront(rows: seq<Row>, tf: Timeframe, interval: nat)
    requires TimesIncrease(rows) && rows != [] && ReopensLastOnly(rows, tf, interval)
    ensures ReopensLastOnly(rows[..|rows| - 1], tf, interval)
    ensures |rows| > 1 ==>
              NeverReopens(rows[..|rows| - 1], tf, interval) || SameCandle(rows[|rows| - 2], rows[|rows| - 1], tf)
  {
    hide BucketStart, BucketEnd, Reopens;
    var front, n := rows[..|rows| - 1], |rows| - 1;
    forall i, j | 0 <= i < j < n && Reopens(front, i, j, tf, interval)
      ensures SameCandle(rows[j], rows[n - 1], tf) && SameCandle(rows[n - 1], rows[n], tf)
    {
      SameReopening(rows, i, j, n, tf, interval);
      BucketInterval(rows[j].timestamp, rows[n - 1].timestamp, tf);
      BucketInterval(rows[n].timestamp, rows[n].timestamp, tf);
    }
  }

  /** While no completed candle is opened in again, no push is late. */
  lemma NoLatePush(rows: seq<Row>, start: nat, tf: Timeframe, interval: nat)
    requires TimesIncrease(rows) && NeverReopens(rows, tf, interval)
    ensures !LatePush(FeedAll(rows, tf, interval), start, tf)
  {
    hide BucketStart, BucketEnd, Candle, AllCandles, Groups, FeedAll;
    FeedMatchesBatch(rows, tf, interval);
    if rows != [] {
      var g, t := Groups(rows, tf), rows[|rows| - 1].timestamp;
      var n := |g| - 1;
      EarlierGroupsClosed(rows, tf);
      LastGroup(rows, tf);
      BucketInterval(t, t, tf);
      if n > 0 {
        AllCandlesAt(g[..n], tf, n - 1);
        CandleTime(g[n - 1].rows, BucketEnd(g[n - 1].start, tf));
      } else {
        NoCandlesAtAll(g[..n], tf);
      }
    } else {
      NoGroups(tf);
    }
  }

  lemma NothingAccepted(rows: seq<Row>, tf: Timeframe, interval: nat)
    requires rows == []
    ensures Increasing(FeedAll(rows, tf, interval).published) && ReopensLastOnly(rows, tf, interval)
  {
  }

  lemma AcceptedStep(rows: seq<Row>, tf: Timeframe, interval: nat)
    requires TimesIncrease(rows) && rows != [] && Increasing(FeedAll(rows, tf, interval).published)
    requires ReopensLastOnly(rows[..|rows| - 1], tf, interval)
    requires Increasing(FeedAll(rows[..|rows| - 1], tf, interval).published)
    ensures ReopensLastOnly(rows, tf, interval)
  {
    hide BucketStart, BucketEnd, FeedAll, Increasing, CutShort, Reopens;
    var front, n := rows[..|rows| - 1], |rows| - 1;
    NeverReopensOrCut(front, tf, interval);
    forall i, j | 0 <= i < j < |rows| && Reopens(rows, i, j, tf, interval) ensures SameCandle(rows[j], rows[n], tf) {
      if j < n {
        SameReopening(rows, i, j, n, tf, interval);
        assert Reopens(front, i, j, tf, interval);
        if !SameCandle(rows[n - 1], rows[n], tf) {
          CutBreaks(rows, tf, interval);
        }
      }
    }
  }

  lemma InOrderStep(rows: seq<Row>, tf: Timeframe, interval: nat)
    requires TimesIncrease(rows) && rows != []
    requires Increasing(FeedAll(rows[..|rows| - 1], tf, interval).published)
    requires |rows| > 1 ==>
               NeverReopens(rows[..|rows| - 1], tf, interval) || SameCandle(rows[|rows| - 2], rows[|rows| - 1], tf)
    ensures Increasing(FeedAll(rows, tf, interval).published)
  {
    hide BucketStart, BucketEnd, FeedRow, Increasing, NeverReopens;
    var front, row := rows[..|rows| - 1], rows[|rows| - 1];
    var start := BucketStart(row.timestamp, tf);
    if front != [] {
      FeedAllOrdered(front, tf, interval);
      FeedRowOrdered(FeedAll(front, tf, interval), front[|front| - 1], row, tf, interval);
      if NeverReopens(front, tf, interval) {
        NoLatePush(front, start, tf, interval);
      }
    } else {
      FirstOrdered(row, tf, interval);
    }
  }

  /** Streaming publishes in time order, so that every push is accepted, exactly when no candle other than
      that of the last row is opened in again after it was completed. */
  lemma {:induction false} AcceptedIff(rows: seq<Row>, tf: Timeframe, interval: nat)
    requires TimesIncrease(rows)
    ensures Increasing(FeedAll(rows, tf, interval).published) <==> ReopensLastOnly(rows, tf, interval)
  {
    hide BucketStart, BucketEnd, FeedRow, FeedOrdered, LatePush, Increasing, ReopensLastOnly, CutShort, NeverReopens;
    if rows != [] {
      var front, n := rows[..|rows| - 1], |rows| - 1;
      var f := FeedAll(front, tf, interval);
      AcceptedIff(front, tf, interval);
      if Increasing(FeedAll(rows, tf, interval).published) {
        FeedExtends(rows, n, tf, interval);
        PrefixIncreases(f.published, FeedAll(rows, tf, interval).published);
        AcceptedStep(rows, tf, interval);
      } else if ReopensLastOnly(rows, tf, interval) {
        ReopensLastFront(rows, tf, interval);
        InOrderStep(rows, tf, interval);
      }
    } else {
      NothingAccepted(rows, tf, interval);
    }
  }

  lemma SameNotLate(f: Feed, last: Row, row: Row, tf: Timeframe, interval: nat)
    requires FeedOrdered(f, last, tf, interval) && SameCandle(last, row, tf)
    ensures !LatePush(f, BucketStart(row.timestamp, tf), tf)
  {
    hide BucketStart, BucketEnd, Increasing;
  }

  /** Rows accepted so far make a push late exactly when a completed candle was opened in again and the new
      row leaves it. */
  lemma LatePushIff(rows: seq<Row>, row: Row, tf: Timeframe, interval: nat)
    requires TimesIncrease(rows + [row]) && rows != [] && Increasing(FeedAll(rows, tf, interval).published)
    ensures LatePush(FeedAll(rows, tf, interval), BucketStart(row.timestamp, tf), tf) <==>
            !NeverReopens(rows, tf, interval) && !SameCandle(rows[|rows| - 1], row, tf)
  {
    hide BucketStart, BucketEnd, FeedRow, Increasing, CutShort, NeverReopens, FeedOrdered, LatePush;
    var all, last := rows + [row], rows[|rows| - 1];
    assert all[..|rows|] == rows && all[|rows|] == row && all[|rows| - 1] == last;
    assert forall i, j :: 0 <= i < j < |rows| ==> all[i].timestamp < all[j].timestamp;
    FeedAllOrdered(rows, tf, interval);
    FeedRowOrdered(FeedAll(rows, tf, interval), last, row, tf, interval);
    NeverReopensOrCut(rows, tf, interval);
    if NeverReopens(rows, tf, interval) {
      NoLatePush(rows, BucketStart(row.timestamp, tf), tf, interval);
    } else if SameCandle(last, row, tf) {
      SameNotLate(FeedAll(rows, tf, interval), last, row, tf, interval);
    } else {
      CutBreaks(all, tf, interval);
    }
  }

  lemma NothingLate(rows: seq<Row>, start: nat, tf: Timeframe, interval: nat)
    requires rows == []
    ensures !LatePush(FeedAll(rows, tf, interval), start, tf)
  {
  }

  /** Once a push is late for one row it is late for every row after it. */
  lemma LateForever(rows: seq<Row>, a: Row, b: Row, tf: Timeframe, interval: nat)
    requires TimesIncrease(rows + [a]) && a.timestamp <= b.timestamp
    requires Increasing(FeedAll(rows, tf, interval).published)
    requires LatePush(FeedAll(rows, tf, interval), BucketStart(a.timestamp, tf), tf)
    ensures LatePush(FeedAll(rows, tf, interval), BucketStart(b.timestamp, tf), tf)
  {
    hide BucketStart, BucketEnd, FeedAll, Increasing;
    if rows == [] {
      NothingLate(rows, BucketStart(a.timestamp, tf), tf, interval);
    } else {
      var last := rows[|rows| - 1];
      assert rows == (rows + [a])[..|rows|] && (rows + [a])[|rows|] == a && (rows + [a])[|rows| - 1] == last;
      FeedAllOrdered(rows, tf, interval);
      BucketInterval(last.timestamp, a.timestamp, tf);
      BucketInterval(last.timestamp, b.timestamp, tf);
      BucketInterval(a.timestamp, a.timestamp, tf);
      BucketInterval(b.timestamp, b.timestamp, tf);
    }
  }

  /** Everything published closed no later than `row` ends, and what is open belongs to its candle. */
  ghost predicate NothingAhead(f: Feed, row: Row, tf: Timeframe, interval: nat) {
    && ClosedBy(f.published, row.timestamp + interval)
    && (f.group.Some? ==> f.group.value.start == BucketStart(row.timestamp, tf))
  }

  lemma FirstNotEarly(row: Row, tf: Timeframe, interval: nat)
    ensures NothingAhead(FeedRow(Feed([], None), row, tf, interval), row, tf, interval)
  {
    hide BucketStart, BucketEnd, Candle;
    CandleTime([] + [row], BucketEnd(BucketStart(row.timestamp, tf), tf));
  }

  lemma NotEarly(f: Feed, last: Row, row: Row, tf: Timeframe, interval: nat)
    requires last.timestamp < row.timestamp && OpenGroupSound(f) && NothingAhead(f, last, tf, interval)
    ensures NothingAhead(FeedRow(f, row, tf, interval), row, tf, interval)
  {
    hide BucketStart, BucketEnd, Candle;
    var start := BucketStart(row.timestamp, tf);
    BucketInterval(row.timestamp, row.timestamp, tf);
    if f.group.Some? && f.group.value.start != start {
      BucketsApart(last.timestamp, row.timestamp, tf);
      CandleTime(f.group.value.rows, BucketEnd(f.group.value.start, tf));
    }
    var flushed := Flush(f, start, tf);
    CandleTime((if flushed.group.Some? then flushed.group.value.rows else []) + [row], BucketEnd(start, tf));
  }

  /** Nothing is published early: every candle out after a row closed no later than that row ended. */
  lemma {:induction false} NeverEarly(rows: seq<Row>, tf: Timeframe, interval: nat)
    requires TimesIncrease(rows) && rows != []
    ensures NothingAhead(FeedAll(rows, tf, interval), rows[|rows| - 1], tf, interval)
  {
    hide FeedRow, NothingAhead;
    var front, row := rows[..|rows| - 1], rows[|rows| - 1];
    if front != [] {
      NeverEarly(front, tf, interval);
      NotEarly(FeedAll(front, tf, interval), front[|front| - 1], row, tf, interval);
    } else {
      FirstNotEarly(row, tf, interval);
    }
  }

  // ---------------------------------------------------------------- four rows on which the paths differ

  /** Minute rows at 0:00, 2:00, 2:30 and 3:00. */
  predicate HalfMinuteLate(rows: seq<Row>) {
    && |rows| == 4 && rows[0].timestamp == 0 && rows[1].timestamp == 2 * MINUTE
    && rows[2].timestamp == 2 * MINUTE + MINUTE / 2 && rows[3].timestamp == 3 * MINUTE
  }

  lemma FirstCandles(t: nat)
    ensures t < 3 * MINUTE ==> BucketStart(t, M3) == 0
    ensures 3 * MINUTE <= t < 6 * MINUTE ==> BucketStart(t, M3) == 3 * MINUTE
    ensures BucketEnd(0, M3) == 3 * MINUTE && BucketEnd(3 * MINUTE, M3) == 6 * MINUTE
  {
  }

  lemma ReopenedFeed(rows: seq<Row>)
    requires HalfMinuteLate(rows)
    ensures FeedAll(rows[..3], M3, MINUTE) == Feed([Candle(rows[..2], 3 * MINUTE)], Some(Group(0, rows[2..3])))
    ensures FeedAll(rows, M3, MINUTE).published == [Candle(rows[..2], 3 * MINUTE), Candle(rows[2..3], 3 * MINUTE)]
  {
    hide BucketStart, BucketEnd, Candle;
    FirstCandles(rows[0].timestamp);
    FirstCandles(rows[1].timestamp);
    FirstCandles(rows[2].timestamp);
    FirstCandles(rows[3].timestamp);
    assert rows[..4] == rows && [] + [rows[0]] == rows[..1] && rows[..1] + [rows[1]] == rows[..2];
    assert [] + [rows[2]] == rows[2..3] && rows[..2][..1] == rows[..1] && rows[..3][..2] == rows[..2];
    assert FeedAll(rows[..0], M3, MINUTE) == Feed([], None);
    assert FeedAll(rows[..1], M3, MINUTE) == FeedRow(Feed([], None), rows[0], M3, MINUTE);
    assert FeedAll(rows[..1], M3, MINUTE) == Feed([], Some(Group(0, rows[..1])));
    assert FeedAll(rows[..2], M3, MINUTE) == Feed([Candle(rows[..2], 3 * MINUTE)], None);
  }

  lemma ReopenedBatch(rows: seq<Row>)
    requires HalfMinuteLate(rows)
    ensures BatchCandles(rows, M3, MINUTE) == [Candle(rows[..3], 3 * MINUTE)]
  {
    hide BucketStart, BucketEnd, Candle;
    FirstCandles(rows[0].timestamp);
    FirstCandles(rows[1].timestamp);
    FirstCandles(rows[2].timestamp);
    FirstCandles(rows[3].timestamp);
    assert rows[..4] == rows && [rows[0]] == rows[..1] && rows[..1] + [rows[1]] == rows[..2];
    assert rows[..2] + [rows[2]] == rows[..3] && rows[..1][..0] == [];
    assert rows[..2][..1] == rows[..1] && rows[..3][..2] == rows[..2];
    assert Groups(rows[..0], M3) == [];
    assert Groups(rows[..1], M3) == [Group(0, rows[..1])];
    assert Groups(rows[..2], M3) == [Group(0, rows[..2])];
    assert Groups(rows[..3], M3) == [Group(0, rows[..3])];
    var g := Group(3 * MINUTE, [rows[3]]);
    assert Groups(rows, M3) == [Group(0, rows[..3]), g];
    assert [Group(0, rows[..3]), g][..1] == [Group(0, rows[..3])] && [Group(0, rows[..3])][..0] == [];
    assert Candles([Group(0, rows[..3])], M3, 4 * MINUTE) == [Candle(rows[..3], 3 * MINUTE)];
  }

  /** The third row opens in the three-minute candle that the second completed. Streaming pushes two candles
      that close at 3:00, the second of which is late; batch has one, and the last row does not overhang. */
  lemma ReopenedCandle(rows: seq<Row>)
    requires HalfMinuteLate(rows)
    ensures TimesIncrease(rows) && Reopens(rows, 1, 2, M3, MINUTE) && !LastOverhangs(rows, M3, MINUTE)
    ensures FeedAll(rows, M3, MINUTE).published == [Candle(rows[..2], 3 * MINUTE), Candle(rows[2..3], 3 * MINUTE)]
    ensures LatePush(FeedAll(rows[..3], M3, MINUTE), BucketStart(rows[3].timestamp, M3), M3)
    ensures BatchCandles(rows, M3, MINUTE) == [Candle(rows[..3], 3 * MINUTE)]
  {
    hide BucketStart, BucketEnd, Candle, FeedAll, BatchCandles;
    FirstCandles(rows[0].timestamp);
    FirstCandles(rows[1].timestamp);
    FirstCandles(rows[2].timestamp);
    FirstCandles(rows[3].timestamp);
    ReopenedFeed(rows);
    CandleTime(rows[..2], 3 * MINUTE);
    ReopenedBatch(rows);
  }
}
