/** What a candle says about the source rows it was made of, streamed and in batch: the candles cut the rows
    into consecutive runs, so no row is lost or counted twice. */
module CandleRuns {
  import opened Common
  import opened Timeframes
  import opened MarketStructure
  import opened Aggregation

  function Sum(xs: seq<real>): real {
    if xs == [] then 0.0 else xs[0] + Sum(xs[1..])
  }

  lemma {:induction false} SumAppend(xs: seq<real>, x: real)
    ensures Sum(xs + [x]) == Sum(xs) + x
  {
    if xs != [] {
      assert (xs + [x])[1..] == xs[1..] + [x];
      SumAppend(xs[1..], x);
    } else {
      assert [] + [x] == [x];
    }
  }

  function Volumes(rows: seq<Row>): seq<real> {
    seq(|rows|, k requires 0 <= k < |rows| => rows[k].volume)
  }

  function Spreads(rows: seq<Row>): seq<real> {
    seq(|rows|, k requires 0 <= k < |rows| => rows[k].spread)
  }

  lemma {:induction false} TotalsAreSums(rows: seq<Row>)
    ensures TotalVolume(rows) == Sum(Volumes(rows)) && TotalSpread(rows) == Sum(Spreads(rows))
  {
    if rows != [] {
      var front, last := rows[..|rows| - 1], rows[|rows| - 1];
      TotalsAreSums(front);
      assert Volumes(rows) == Volumes(front) + [last.volume];
      assert Spreads(rows) == Spreads(front) + [last.spread];
      SumAppend(Volumes(front), last.volume);
      SumAppend(Spreads(front), last.spread);
    }
  }

  // ---------------------------------------------------------------- one candle

  /** The candle's prices are those of the run: first open, last close, greatest high, least low. */
  ghost predicate PricesOf(c: Bar, run: seq<Row>) {
    && run != [] && c.open == run[0].open && c.close == run[|run| - 1].close
    && (forall k :: 0 <= k < |run| ==> c.low <= run[k].low && run[k].high <= c.high)
    && (exists k :: 0 <= k < |run| && run[k].high == c.high)
    && (exists k :: 0 <= k < |run| && run[k].low == c.low)
  }

  /** Its volume is the run's total, its spread the run's mean, and it counts the rows. */
  predicate FiguresOf(c: Bar, run: seq<Row>) {
    c.volume == Sum(Volumes(run)) && c.spread * |run| as real == Sum(Spreads(run)) && c.sourceBars == |run|
  }

  /** All rows of the run open in one candle. */
  ghost predicate OneBucket(run: seq<Row>, tf: Timeframe) {
    forall k :: 0 <= k < |run| ==> BucketStart(run[k].timestamp, tf) == BucketStart(run[0].timestamp, tf)
  }

  ghost predicate MadeOf(c: Bar, run: seq<Row>, tf: Timeframe) {
    && PricesOf(c, run) && FiguresOf(c, run) && OneBucket(run, tf)
    && c.timestamp == BucketEnd(BucketStart(run[0].timestamp, tf), tf)
  }

  lemma MeanTimes(total: real, n: nat)
    requires 0 < n
    ensures total / n as real * n as real == total
  {
  }

  lemma CandleMade(run: seq<Row>, tf: Timeframe)
    requires run != [] && OneBucket(run, tf)
    ensures MadeOf(Candle(run, BucketEnd(BucketStart(run[0].timestamp, tf), tf)), run, tf)
  {
    hide BucketStart, BucketEnd, Sum;
    HighestBounds(run);
    LowestBounds(run);
    TotalsAreSums(run);
    MeanTimes(TotalSpread(run), |run|);
  }

  // ---------------------------------------------------------------- streaming

  /** Candle `k` is made of the rows from cut `k` to the next one. */
  ghost predicate Piece(candles: seq<Bar>, rows: seq<Row>, cuts: seq<nat>, k: nat, tf: Timeframe) {
    && k < |candles| && k + 1 < |cuts| && cuts[k] < cuts[k + 1] <= |rows|
    && MadeOf(candles[k], rows[cuts[k]..cuts[k + 1]], tf)
  }

  ghost predicate CutInto(candles: seq<Bar>, rows: seq<Row>, cuts: seq<nat>, tf: Timeframe) {
    && |cuts| == |candles| + 1 && cuts[0] == 0
    && forall k: nat :: k < |candles| ==> Piece(candles, rows, cuts, k, tf)
  }

  /** What follows the last cut is the open group, all in one candle. */
  ghost predicate OpenAfter(group: Option<Group>, rows: seq<Row>, cut: nat, tf: Timeframe) {
    cut <= |rows| &&
    if group.None? then cut == |rows|
    else cut < |rows| && group.value.rows == rows[cut..] && OneBucket(rows[cut..], tf) &&
         group.value.start == BucketStart(rows[cut].timestamp, tf)
  }

  /** The published candles and the open group are the rows, cut into consecutive runs. */
  ghost predicate CutsOf(f: Feed, rows: seq<Row>, cuts: seq<nat>, tf: Timeframe) {
    CutInto(f.published, rows, cuts, tf) && OpenAfter(f.group, rows, cuts[|cuts| - 1], tf)
  }

  lemma PieceMore(candles: seq<Bar>, rows: seq<Row>, cuts: seq<nat>, k: nat, more: seq<Bar>, row: seq<Row>,
                  next: seq<nat>, tf: Timeframe)
    requires Piece(candles, rows, cuts, k, tf)
    ensures Piece(candles + more, rows + row, cuts + next, k, tf)
  {
    hide MadeOf;
    assert (rows + row)[cuts[k]..cuts[k + 1]] == rows[cuts[k]..cuts[k + 1]];
  }

  lemma CutIntoMore(candles: seq<Bar>, rows: seq<Row>, cuts: seq<nat>, row: Row, tf: Timeframe)
    requires CutInto(candles, rows, cuts, tf)
    ensures CutInto(candles, rows + [row], cuts, tf)
  {
    hide Piece;
    assert candles + [] == candles && cuts + [] == cuts;
    forall k: nat | k < |candles| ensures Piece(candles, rows + [row], cuts, k, tf) {
      PieceMore(candles, rows, cuts, k, [], [row], [], tf);
    }
  }

  lemma CutOneMore(candles: seq<Bar>, rows: seq<Row>, cuts: seq<nat>, c: Bar, next: nat, tf: Timeframe)
    requires CutInto(candles, rows, cuts, tf) && cuts[|cuts| - 1] < next <= |rows|
    requires MadeOf(c, rows[cuts[|cuts| - 1]..next], tf)
    ensures CutInto(candles + [c], rows, cuts + [next], tf)
  {
    hide MadeOf;
    forall k: nat | k < |candles| ensures Piece(candles + [c], rows, cuts + [next], k, tf) {
      PieceMore(candles, rows, cuts, k, [c], [], [next], tf);
      assert rows + [] == rows;
    }
    assert Piece(candles + [c], rows, cuts + [next], |candles|, tf);
  }

  lemma CutsLength(candles: seq<Bar>, rows: seq<Row>, cuts: seq<nat>, tf: Timeframe)
    requires CutInto(candles, rows, cuts, tf)
    ensures |cuts| == |candles| + 1 && cuts[0] == 0 && cuts[|cuts| - 1] <= |rows|
  {
    if candles != [] {
      assert Piece(candles, rows, cuts, |candles| - 1, tf);
    }
  }

  /** Closing the open group cuts the rows where they end. */
  lemma FlushCut(f: Feed, rows: seq<Row>, cuts: seq<nat>, start: nat, tf: Timeframe) returns (more: seq<nat>)
    requires OpenGroupSound(f) && CutsOf(f, rows, cuts, tf)
    ensures CutsOf(Flush(f, start, tf), rows, more, tf)
  {
    hide BucketStart, BucketEnd, Candle, MadeOf, CutInto;
    more := cuts;
    if f.group.Some? && f.group.value.start != start {
      CutsLength(f.published, rows, cuts, tf);
      var cut := cuts[|cuts| - 1];
      CandleMade(rows[cut..], tf);
      assert rows[cut..|rows|] == rows[cut..];
      CutOneMore(f.published, rows, cuts, Candle(rows[cut..], BucketEnd(f.group.value.start, tf)), |rows|, tf);
      more := cuts + [|rows|];
    }
  }

  /** A row extends the open group or opens one, and a cut follows it if it completes its candle. */
  lemma RowCut(f: Feed, rows: seq<Row>, cuts: seq<nat>, row: Row, tf: Timeframe, interval: nat) returns (more: seq<nat>)
    requires OpenGroupSound(f) && CutsOf(f, rows, cuts, tf)
    requires f.group.Some? ==> f.group.value.start == BucketStart(row.timestamp, tf)
    ensures CutsOf(FeedRow(f, row, tf, interval), rows + [row], more, tf)
  {
    hide BucketStart, BucketEnd, Candle, MadeOf, CutInto;
    CutsLength(f.published, rows, cuts, tf);
    var all, cut, start := rows + [row], cuts[|cuts| - 1], BucketStart(row.timestamp, tf);
    CutIntoMore(f.published, rows, cuts, row, tf);
    var run := (if f.group.Some? then f.group.value.rows else []) + [row];
    assert all[cut..] == run && all[cut..|all|] == run;
    assert OneBucket(run, tf) && BucketStart(run[0].timestamp, tf) == start;
    more := cuts;
    if row.timestamp + interval == BucketEnd(start, tf) {
      CandleMade(run, tf);
      CutOneMore(f.published, all, cuts, Candle(run, BucketEnd(start, tf)), |all|, tf);
      more := cuts + [|all|];
    }
  }

  lemma FlushedGroup(f: Feed, start: nat, tf: Timeframe)
    requires OpenGroupSound(f)
    ensures Flush(f, start, tf).group.Some? ==> Flush(f, start, tf).group.value.start == start
  {
    hide BucketEnd, Candle;
  }

  lemma NothingCut(rows: seq<Row>, tf: Timeframe, interval: nat)
    requires rows == []
    ensures CutsOf(FeedAll(rows, tf, interval), rows, [0], tf)
  {
  }

  /** The streamed candles and the open group cut the rows into consecutive runs of one candle each: every
      candle opens with its first row, closes with its last, and adds up all of them; nothing is skipped. */
  lemma {:induction false} StreamedCuts(rows: seq<Row>, tf: Timeframe, interval: nat) returns (cuts: seq<nat>)
    ensures CutsOf(FeedAll(rows, tf, interval), rows, cuts, tf)
  {
    hide BucketStart, CutsOf, FeedRow, Flush;
    if rows == [] {
      cuts := [0];
      NothingCut(rows, tf, interval);
    } else {
      var front, row := rows[..|rows| - 1], rows[|rows| - 1];
      var f, start := FeedAll(front, tf, interval), BucketStart(row.timestamp, tf);
      cuts := StreamedCuts(front, tf, interval);
      cuts := FlushCut(f, front, cuts, start, tf);
      FlushedGroup(f, start, tf);
      cuts := RowCut(Flush(f, start, tf), front, cuts, row, tf, interval);
      FlushThenRow(f, row, tf, interval);
      assert rows == front + [row];
    }
  }

  // ---------------------------------------------------------------- batch

  /** Group `k` holds the rows from cut `k` to the next one, all of its candle. */
  ghost predicate GroupPiece(groups: seq<Group>, rows: seq<Row>, cuts: seq<nat>, k: nat, tf: Timeframe) {
    && k < |groups| && k + 1 < |cuts| && cuts[k] < cuts[k + 1] <= |rows|
    && groups[k].rows == rows[cuts[k]..cuts[k + 1]] && OneBucket(groups[k].rows, tf)
    && groups[k].start == BucketStart(rows[cuts[k]].timestamp, tf)
  }

  /** The groups are the rows, cut wherever the candle changes. */
  ghost predicate GroupedAt(groups: seq<Group>, rows: seq<Row>, cuts: seq<nat>, tf: Timeframe) {
    && |cuts| == |groups| + 1 && cuts[0] == 0 && cuts[|groups|] == |rows|
    && (forall k: nat :: k < |groups| ==> GroupPiece(groups, rows, cuts, k, tf))
    && (forall j, k :: 0 <= j < |groups| && k == j + 1 && k < |groups| ==> groups[j].start != groups[k].start)
  }

  lemma GroupPieceMore(groups: seq<Group>, rows: seq<Row>, cuts: seq<nat>, k: nat, row: Row, more: seq<Group>,
                       all: seq<nat>, tf: Timeframe)
    requires GroupPiece(groups, rows, cuts, k, tf) && k + 1 < |all| && all[k] == cuts[k] && all[k + 1] == cuts[k + 1]
    requires k < |more| && more[k] == groups[k]
    ensures GroupPiece(more, rows + [row], all, k, tf)
  {
    hide OneBucket, BucketStart;
    assert (rows + [row])[cuts[k]..cuts[k + 1]] == rows[cuts[k]..cuts[k + 1]];
  }

  lemma NewPiece(groups: seq<Group>, rows: seq<Row>, cuts: seq<nat>, row: Row, tf: Timeframe)
    requires |cuts| == |groups| + 1 && cuts[|groups|] == |rows|
    ensures GroupPiece(groups + [Group(BucketStart(row.timestamp, tf), [row])], rows + [row], cuts + [|rows| + 1],
                       |groups|, tf)
  {
    hide BucketStart;
    assert (rows + [row])[|rows|..|rows| + 1] == [row];
  }

  lemma GroupedNew(groups: seq<Group>, rows: seq<Row>, cuts: seq<nat>, row: Row, tf: Timeframe)
    requires GroupedAt(groups, rows, cuts, tf)
    requires groups != [] ==> groups[|groups| - 1].start != BucketStart(row.timestamp, tf)
    ensures GroupedAt(groups + [Group(BucketStart(row.timestamp, tf), [row])], rows + [row], cuts + [|rows| + 1], tf)
  {
    hide BucketStart, GroupPiece;
    var all, more, now := groups + [Group(BucketStart(row.timestamp, tf), [row])], cuts + [|rows| + 1], rows + [row];
    forall k: nat | k < |all| ensures GroupPiece(all, now, more, k, tf) {
      if k < |groups| {
        GroupPieceMore(groups, rows, cuts, k, row, all, more, tf);
      } else {
        NewPiece(groups, rows, cuts, row, tf);
      }
    }
  }

  lemma LongerPiece(groups: seq<Group>, last: Group, rows: seq<Row>, cuts: seq<nat>, row: Row, tf: Timeframe)
    requires |cuts| == |groups| + 2 && cuts[|groups| + 1] == |rows| && last.start == BucketStart(row.timestamp, tf)
    requires GroupPiece(groups + [last], rows, cuts, |groups|, tf)
    ensures GroupPiece(groups + [Group(last.start, last.rows + [row])], rows + [row],
                       cuts[..|groups| + 1] + [|rows| + 1], |groups|, tf)
  {
    hide BucketStart;
    var n := |groups|;
    assert (groups + [last])[n] == last;
    assert (rows + [row])[cuts[n]..|rows| + 1] == rows[cuts[n]..|rows|] + [row];
  }

  lemma GroupedMore(groups: seq<Group>, last: Group, rows: seq<Row>, cuts: seq<nat>, row: Row, tf: Timeframe)
    requires GroupedAt(groups + [last], rows, cuts, tf) && last.start == BucketStart(row.timestamp, tf)
    ensures GroupedAt(groups + [Group(last.start, last.rows + [row])], rows + [row],
                      cuts[..|groups| + 1] + [|rows| + 1], tf)
  {
    hide BucketStart, GroupPiece;
    var (was, all) := (groups + [last], groups + [Group(last.start, last.rows + [row])]);
    var more, now := cuts[..|groups| + 1] + [|rows| + 1], rows + [row];
    assert forall k :: 0 <= k < |groups| ==> all[k] == was[k];
    assert all[|groups|].start == was[|groups|].start;
    assert cuts[0] == more[0];
    forall k: nat | k < |all| ensures GroupPiece(all, now, more, k, tf) {
      if k < |groups| {
        GroupPieceMore(was, rows, cuts, k, row, all, more, tf);
      } else {
        LongerPiece(groups, last, rows, cuts, row, tf);
      }
    }
  }

  lemma GroupsStep(rows: seq<Row>, tf: Timeframe)
    requires rows != []
    ensures var (before, row) := (Groups(rows[..|rows| - 1], tf), rows[|rows| - 1]);
            var (n, start) := (|before| - 1, BucketStart(row.timestamp, tf));
            Groups(rows, tf) ==
            if before != [] && before[n].start == start
            then before[..n] + [Group(before[n].start, before[n].rows + [row])]
            else before + [Group(start, [row])]
  {
    hide BucketStart;
  }

  lemma GroupsEnd(groups: seq<Group>, rows: seq<Row>, cuts: seq<nat>, tf: Timeframe)
    requires GroupedAt(groups, rows, cuts, tf)
    ensures |cuts| == |groups| + 1
  {
  }

  lemma NothingGrouped(rows: seq<Row>, tf: Timeframe)
    requires rows == []
    ensures GroupedAt(Groups(rows, tf), rows, [0], tf)
  {
  }

  /** The batch groups cut the rows exactly where the candle changes. */
  lemma {:induction false} GroupCuts(rows: seq<Row>, tf: Timeframe) returns (cuts: seq<nat>)
    ensures GroupedAt(Groups(rows, tf), rows, cuts, tf)
  {
    hide BucketStart, GroupedAt, Groups;
    if rows == [] {
      cuts := [0];
      NothingGrouped(rows, tf);
    } else {
      var front, row := rows[..|rows| - 1], rows[|rows| - 1];
      var before := Groups(front, tf);
      var some := GroupCuts(front, tf);
      assert rows == front + [row];
      GroupsStep(rows, tf);
      GroupsEnd(before, front, some, tf);
      if before != [] && before[|before| - 1].start == BucketStart(row.timestamp, tf) {
        var n := |before| - 1;
        assert before == before[..n] + [before[n]];
        GroupedMore(before[..n], before[n], front, some, row, tf);
        cuts := some[..n + 1] + [|front| + 1];
      } else {
        GroupedNew(before, front, some, row, tf);
        cuts := some + [|front| + 1];
      }
    }
  }

  /** What the batch leaves after its last candle: rows of one other candle, whose close is not known yet. */
  ghost predicate RestAfter(rows: seq<Row>, cut: nat, tf: Timeframe, interval: nat) {
    && cut <= |rows| && OneBucket(rows[cut..], tf)
    && (0 < cut < |rows| ==> BucketStart(rows[cut - 1].timestamp, tf) != BucketStart(rows[cut].timestamp, tf))
    && (cut < |rows| <==>
        rows != [] && var t := rows[|rows| - 1].timestamp; t + interval < BucketEnd(BucketStart(t, tf), tf))
  }

  lemma NoRest(rows: seq<Row>, tf: Timeframe, interval: nat)
    requires rows == []
    ensures RestAfter(rows, 0, tf, interval)
  {
  }

  lemma BatchPiece(rows: seq<Row>, tf: Timeframe, interval: nat, cuts: seq<nat>, k: nat)
    requires TimesIncrease(rows) && GroupedAt(Groups(rows, tf), rows, cuts, tf)
    requires k < |BatchCandles(rows, tf, interval)|
    ensures k + 1 < |cuts| && cuts[k] < cuts[k + 1] <= |rows|
    ensures MadeOf(BatchCandles(rows, tf, interval)[k], rows[cuts[k]..cuts[k + 1]], tf)
  {
    hide BucketStart, BucketEnd, Candle, Groups, AllCandles, BatchCandles, MadeOf;
    var g := Groups(rows, tf);
    BatchIsPrefix(rows, tf, interval);
    if g == [] {
      NoCandlesAtAll(g, tf);
    } else {
      AllCandlesAt(g, tf, 0);
    }
    AllCandlesAt(g, tf, k);
    assert GroupPiece(g, rows, cuts, k, tf);
    CandleMade(g[k].rows, tf);
  }

  lemma NothingFedYet(rows: seq<Row>, tf: Timeframe, interval: nat)
    requires rows == []
    ensures BatchCandles(rows, tf, interval) == [] && Groups(rows, tf) == []
  {
  }

  lemma BatchCount(rows: seq<Row>, tf: Timeframe, interval: nat)
    requires TimesIncrease(rows) && rows != []
    ensures var (g, n) := (Groups(rows, tf), |BatchCandles(rows, tf, interval)|);
            |g| - 1 <= n <= |g| &&
            (n < |g| <==> rows[|rows| - 1].timestamp + interval < BucketEnd(g[|g| - 1].start, tf))
  {
    hide BucketStart, BucketEnd, Candle, Groups, AllCandles, BatchCandles;
    var g := Groups(rows, tf);
    BatchKeeps(rows, tf, interval);
    if |g| > 1 {
      AllCandlesAt(g[..|g| - 1], tf, 0);
    } else {
      NoCandlesAtAll(g[..|g| - 1], tf);
    }
  }

  lemma RestOfGroups(g: seq<Group>, rows: seq<Row>, cuts: seq<nat>, tf: Timeframe, n: nat)
    requires GroupedAt(g, rows, cuts, tf) && |g| - 1 <= n <= |g|
    ensures cuts[n] <= |rows| && OneBucket(rows[cuts[n]..], tf) && (cuts[n] < |rows| <==> n < |g|)
    ensures 0 < cuts[n] < |rows| ==>
              BucketStart(rows[cuts[n] - 1].timestamp, tf) != BucketStart(rows[cuts[n]].timestamp, tf)
  {
    hide BucketStart;
    if n < |g| {
      assert GroupPiece(g, rows, cuts, n, tf);
      assert g[n].rows == rows[cuts[n]..];
      if 0 < n {
        assert GroupPiece(g, rows, cuts, n - 1, tf);
        var before := g[n - 1].rows;
        assert before == rows[cuts[n - 1]..cuts[n]] && before[|before| - 1] == rows[cuts[n] - 1];
      }
    } else {
      assert rows[cuts[n]..] == [];
    }
  }

  /** For rows in time order the batch candles are made of consecutive runs from the first row on; what they
      leave is the run of the last candle, and only if its close is not known yet. */
  lemma BatchCuts(rows: seq<Row>, tf: Timeframe, interval: nat) returns (cuts: seq<nat>)
    requires TimesIncrease(rows)
    ensures CutInto(BatchCandles(rows, tf, interval), rows, cuts, tf)
    ensures RestAfter(rows, cuts[|cuts| - 1], tf, interval)
  {
    hide BucketStart, BucketEnd, Candle, Groups, AllCandles, BatchCandles, MadeOf, GroupPiece, OneBucket;
    var g, batch := Groups(rows, tf), BatchCandles(rows, tf, interval);
    var all := GroupCuts(rows, tf);
    BatchIsPrefix(rows, tf, interval);
    if rows == [] {
      NothingFedYet(rows, tf, interval);
      cuts := [0];
      NoRest(rows, tf, interval);
    } else {
      LastGroup(rows, tf);
      BatchCount(rows, tf, interval);
      cuts := all[..|batch| + 1];
      forall k: nat | k < |batch| ensures Piece(batch, rows, cuts, k, tf) {
        BatchPiece(rows, tf, interval, all, k);
        assert cuts[k] == all[k] && cuts[k + 1] == all[k + 1];
      }
      RestOfGroups(g, rows, all, tf, |batch|);
    }
  }
}
