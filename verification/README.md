# Forex platform: causal state engine, lifecycles and accounting

A Dafny model of the deterministic core of the platform, with proofs of what its components promise.

**Causal timeframe engine.** `MarketStructure` gives naive definitions of swings and of the break log, and of the
batch break detector. `Zones` gives the naive zone book: add the bar's zones, filter all of them by the plain rule.
`Snapshots` is the published state as a function of the candles. `TimeframeProcessor` and `OnlineProcessor` are the
streaming processor (pending-swing heaps, price heaps, dirty-flag cache) and its refinement proof: `Processor.Push`
returns the naive snapshot of all candles so far. `ZoneRules` and `Readings` say what a snapshot means in the prices of
the candles: which zones are live, its range, location, phase, trend, levels and transition. `Timeframes` and
`Aggregation` are the calendar buckets and both ways of building candles, `CandleRuns` what each candle is made of;
`StateEngine` is the engine with its streaming and batch paths.

**Event-driven state machines.** `Requirements` is the parent-to-child requirement lifecycle, `RequirementRules` what
decides it in prices and trends, and `MovementLedger` the movement episodes. `States` and `StableSort` hold what they
share.

**Order and position accounting.** `Domain` (fills and average-cost positions), `Ledger` (runs of fills, quotes and
swaps), `OrderLifecycle`, `Router` and `Oms`, whose invariant ties orders, lifecycles and ledger together.

**Portfolio limits.** `Symbols`, `Rounding`, `Exposure`, `Conversion` (what the rates and prices behind an exposure
are), `Allocator` (the binary search for a size) and `TargetAllocator`.

**Self-contained algorithms.** `BenjaminiHochberg`, `TokenBucket`, `PaperStrategy` and `PaperRules` (its rules
in prices, phases and minutes).

## How the model reads the code

- Components that update themselves are classes with the same fields; each method is tied to a function on values, and
  the properties of whole runs are lemmas about that function. Python's `heapq` is the key-ordered list it promises
  (`HeapQueue`), `sorted` is `StableSort`, dictionaries are maps, exceptions are `None` or a named outcome.
- Prices, rates and amounts are exact reals. Decimal quantization with ROUND_HALF_UP is modelled exactly; the 28-digit
  precision of intermediate Decimal results and binary floating point are not.
- Times are microseconds since the first day of year 1, a Monday; durations are whole microseconds.
- Candles are required to close inside their own range (`low <= close <= high`). The engine does not test this; the
  quality audit does (forex_platform/market_data/quality.py:76-93). Lemmas show what fails without it.
- Source rows are any well-formed rows. The loader refuses a build whose timestamps do not strictly increase and the
  engine refuses an update that is not later; neither asks for rows a whole interval apart, so the model does not.
- Order ids are the tuple of fields the router hashes, so equal ids mean equal fields. An order keeps its identity
  through its id: the table of orders stands for the mutable order objects shared with the router's cache.
- Fills have positive units, as the execution side only reports matched trades.
- A trend of "none" and a trend of 0 are treated alike wherever the code does so.

## Where code and documentation differ

The model follows the code.

- The requirement module promises that lifecycles built from a prefix and from everything are identical
  (forex_platform/fractal_engine/requirements.py:7-9). They are, exactly when the labels taken from the first states
  agree or nothing was asked for (`Requirements.PrefixAgreementIff`, `Requirements.LabelsCanDiffer`).
- The batch break detector documents that the first break is a BOS; the streaming processor can call it a CHOCH
  (`MarketStructure.OnlineAgreesWithBatch`, `MarketStructure.OnlineAndBatchCanDiffer`).
- On the source grid `build` and `update` publish the same candles (`StateEngine.StreamedOnGrid`). Both accept other
  rows, and there they agree exactly when the last row does not overhang its candle and no row opens in a candle that
  an earlier row completed (`Aggregation.StreamingEqualsBatchIff`, `Aggregation.ReopenedCandle`). After such a row the
  first update that leaves the candle raises halfway through the timeframes, and so does every later one
  (`Aggregation.LatePushIff`, `Aggregation.LateForever`).
- The governor documents that it finds the maximum size within the cap. From a portfolio already over the cap it can
  miss one (`Allocator.SizeMissed`).
- A position stored under a symbol with separators or lower-case letters is never revalued by quotes, and its gain is
  not reported; exactly the clean symbols are revalued (`Ledgers.RevaluedIffClean`, `Ledgers.FirstQuoteReports`,
  `Ledgers.SlashedReportsNothing`).
- The target allocator can reject a pure reduction (`TargetAllocator.ReductionCanBeRejected`);
  `TargetAllocator.ReductionAcceptedIff` says exactly when it accepts one.
- The paper strategy counts an in-session bar twice towards its 500-bar limit (`PaperStrategy.AgesByTwo`).

## Model

| member | source | states |
|---|---|---|
| MarketStructure.SwingsExact | forex_platform/fractal_engine/state_engine.py:291-325 | the swing list is, in index order, exactly the strict radius-L pivots whose right side is complete; an outside bar counts as a high |
| MarketStructure.SwingsSpaced | forex_platform/fractal_engine/state_engine.py:297-301 | two swings of one type are more than L bars apart |
| MarketStructure.SwingsExtend | forex_platform/market_model/structure/swings.py:25-84 | one more bar keeps every swing already listed and adds at most the pivot it confirms: confirmed swings are never rewritten |
| MarketStructure.BreakLogExact | forex_platform/fractal_engine/state_engine.py:327-359 | every confirmed swing is logged at most once, exactly when some bar from its confirmation on closed strictly beyond it, at the first such bar; the log is ordered by bar and then by swing |
| MarketStructure.PendingSandwich | forex_platform/fractal_engine/state_engine.py:327-336 | after every bar the last close lies between all unbroken lows and all unbroken highs |
| MarketStructure.NewSwingBeyond | forex_platform/fractal_engine/state_engine.py:293-325 | a swing confirmed by a well-formed bar is not crossed by that bar's close, nor by the close before it |
| MarketStructure.OneDirection | forex_platform/fractal_engine/state_engine.py:327-337 | one bar never breaks both a high and a low, if it or the bar before it closes inside its own range |
| MarketStructure.OnlyFirstIsChoch | forex_platform/fractal_engine/state_engine.py:339-346 | on such a bar all breaks share a direction and only the first can be a CHOCH |
| MarketStructure.MalformedBarsBreakBothWays | forex_platform/fractal_engine/state_engine.py:329-336 | without well-formed bars one close can break a high and a low at once: a concrete series |
| MarketStructure.OnlineAgreesWithBatch | forex_platform/market_model/structure/breaks.py:29-96 | streaming log and batch detector agree on every break except possibly the type of the first; they agree outright exactly when the first break does not run against a trend already visible in the swings |
| MarketStructure.OnlineAndBatchCanDiffer | forex_platform/fractal_engine/state_engine.py:340-341 | a concrete series on which the first break is a CHOCH online and a BOS in the batch detector |
| Zones.DirectionalIdUnique | forex_platform/fractal_engine/state_engine.py:461-492 | a gap or order-block id determines the bar that issued it |
| Zones.BlockZoneFixed | forex_platform/market_model/zones/blocks.py:58-131 | the id of an order block determines its zone, so several breaks on a bar can only repeat it |
| Zones.NeverReissued | forex_platform/fractal_engine/state_engine.py:436-513 | no bar issues an id that an earlier bar issued |
| Zones.RetiredForGood | forex_platform/fractal_engine/state_engine.py:515-571 | a zone alive now that had been issued by an earlier bar was alive then, as the same entry: a retired id never returns |
| Zones.LivesOnce | forex_platform/fractal_engine/state_engine.py:429-571 | each zone lives over one contiguous run of bars, unchanged |
| TimeframeProcessor.ShortcutExact | forex_platform/fractal_engine/state_engine.py:515-535 | the price-heap rule retires exactly what the plain close-through and sweep rule retires, for every zone, if and only if the candle closes inside its range |
| TimeframeProcessor.SweepSide | forex_platform/fractal_engine/state_engine.py:524-535 | popping one heap below the bar's bound removes exactly the swept zones of that side and leaves the heap covering the rest |
| TimeframeProcessor.PopBelow | forex_platform/fractal_engine/state_engine.py:328-336 | popping pending swings below the close takes exactly the crossed ones and leaves the others |
| TimeframeProcessor.CrossedSorted | forex_platform/fractal_engine/state_engine.py:327-337 | sorting what both heaps gave up lists exactly the unbroken swings the close crosses, by index |
| OnlineProcessor.Processor.constructor | forex_platform/fractal_engine/state_engine.py:244-279 | a fresh processor meets the invariant for no candles |
| OnlineProcessor.Processor.ConfirmSwing | forex_platform/fractal_engine/state_engine.py:291-325 | the swing lists, ranges and pending heaps become those of the longer candle list; reports the pivot confirmed now |
| OnlineProcessor.Processor.ScanBreaks | forex_platform/fractal_engine/state_engine.py:327-359 | breaks, broken, weak and protected marks become those of the naive scan; the heaps hold exactly the swings still unbroken |
| OnlineProcessor.Processor.AddActiveZone | forex_platform/fractal_engine/state_engine.py:556-563 | the zone is live, its side's heap covers it, the cache is stale or exact |
| OnlineProcessor.Processor.RemoveActiveZone | forex_platform/fractal_engine/state_engine.py:565-571 | exactly that zone is gone, from the pool table too |
| OnlineProcessor.Processor.SweepAll | forex_platform/fractal_engine/state_engine.py:519-535 | exactly the swept zones of all four sides are gone and every heap covers its side again |
| OnlineProcessor.Processor.UpdateZones | forex_platform/fractal_engine/state_engine.py:429-554 | the live zones become the naive zone book: old and new zones filtered by the plain rule; heaps, pool table and seen ids follow |
| OnlineProcessor.Processor.RefreshCache | forex_platform/fractal_engine/state_engine.py:573-579 | the cached ids are the sorted live ids and the cached zones are theirs |
| OnlineProcessor.SortKeys | forex_platform/fractal_engine/state_engine.py:576 | repeatedly taking a least key gives the ascending list of the ids |
| OnlineProcessor.Processor.Push | forex_platform/fractal_engine/state_engine.py:281-427 | refuses a candle that is not later and changes nothing; otherwise keeps the whole invariant and returns exactly the snapshot that the naive definitions give for all candles so far |
| Snapshots.HistoryPrefix | forex_platform/fractal_engine/state_engine.py:281-427 | the snapshots of a prefix of the candles are the first snapshots of the whole: nothing is revised |
| Snapshots.DurationIsRun | forex_platform/fractal_engine/state_engine.py:655-680 | the duration is the length of the longest run of bars, ending now, with an equal signature |
| ZoneRules.LifeExact | forex_platform/fractal_engine/state_engine.py:429-571 | a zone is live exactly when some bar created it and no candle since has retired it; the entry is the one created |
| ZoneRules.GapsExact | forex_platform/fractal_engine/state_engine.py:436-462 | the live gaps are exactly the three-candle imbalances with no later close through their far side, each between the two wicks that bound it |
| ZoneRules.BlocksExact | forex_platform/fractal_engine/state_engine.py:464-531 | the live order blocks are exactly the last candle against a break, within the five before it, with no close through their far side from the break on |
| ZoneRules.PoolNames | forex_platform/fractal_engine/state_engine.py:503-505 | two pools share a name exactly when they are the same side of the same swings |
| ZoneRules.PoolsHold | forex_platform/fractal_engine/state_engine.py:497-554 | every live pool was found on a bar that confirmed a swing, spans that pool's swings at its level, and no later wick and no close has gone past it |
| ZoneRules.PoolsKept | forex_platform/fractal_engine/state_engine.py:497-554 | a pool first found on a bar is live if and only if no later wick and no close has gone past it |
| Readings.RangesExact | forex_platform/fractal_engine/state_engine.py:581-594 | the structural ranges are, in order, exactly the spans of the neighbouring swings of opposite kinds whose high lies above the low |
| Readings.RangeMeans | forex_platform/fractal_engine/state_engine.py:364-369 | the published range is the only one of the last three around the close, or else the latest; ambiguous exactly when two different ones contain it |
| Readings.LocationMeans | forex_platform/fractal_engine/state_engine.py:370-378 | premium exactly when the close is in the upper half of the published range, discount in the lower, equilibrium at the middle, unknown without one; the ratio is the share of the way up |
| Readings.PhaseMeans | forex_platform/fractal_engine/state_engine.py:606-616 | continuation exactly when the trend is up and the close at or above the latest swing high, or down and at or below the latest low |
| Readings.TrendMeans | forex_platform/fractal_engine/state_engine.py:596-629 | the trend is the direction of the latest break, and before any break that of the last two highs and lows if they agree, as the swing state says |
| Readings.ProtectedExact | forex_platform/fractal_engine/state_engine.py:346-359 | the protected swings are exactly those some BOS started from, read off at the bar of the break |
| Readings.TailMeans | forex_platform/fractal_engine/state_engine.py:389-411 | any snapshot is of its own last candle and lists the last 24 swings and the last 24 breaks |
| Readings.LevelsMean | forex_platform/fractal_engine/state_engine.py:631-640 | the key levels are the last eight swings, weak exactly when a BOS broke them and protected exactly when one started from them |
| Readings.ZonesMean | forex_platform/fractal_engine/state_engine.py:573-579 | the zones published are the live ones, each once, in the order of their ids |
| Readings.TransitionMeans | forex_platform/fractal_engine/state_engine.py:655-680 | each label of a transition is there exactly when that part of the state differs from the state before; persistence exactly when none does |
| Timeframes.BucketLength | forex_platform/fractal_engine/timeframes.py:93-135 | how long each candle is: the minutes, hours, days or week of its name, or the month from its first day to that of the next |
| Timeframes.YearStart | forex_platform/fractal_engine/timeframes.py:93-135 | the first day of every year is 365 days a year, and one more for every leap year, after the first |
| Timeframes.BucketInterval | forex_platform/fractal_engine/timeframes.py:93-135 | buckets are half-open intervals that contain their times, and every time in a bucket has that bucket, calendar months included |
| Timeframes.GridFits | forex_platform/fractal_engine/timeframes.py:73-135 | a source bar on the grid never reaches past the candle it opens in |
| Aggregation.HighestBounds | forex_platform/fractal_engine/state_engine.py:773-783 | the candle's high is the greatest row high, reached by some row |
| Aggregation.LowestBounds | forex_platform/fractal_engine/state_engine.py:773-783 | the candle's low is the least row low, reached by some row |
| Aggregation.BucketsApart | forex_platform/fractal_engine/timeframes.py:93-135 | distinct buckets do not overlap |
| Aggregation.FeedMatchesBatch | forex_platform/fractal_engine/state_engine.py:742-760 | as long as no row opens in a candle that an earlier row completed, the streamed candles and the open group are the batch groups: all but the last closed, the last open unless its last row completes it |
| Aggregation.BatchKeeps | forex_platform/fractal_engine/state_engine.py:218-223 | for rows in time order the batch filter keeps every group but the last, and the last exactly when its close has been reached |
| Aggregation.StreamingVersusBatch | forex_platform/fractal_engine/state_engine.py:191-238 | as long as no completed candle is opened in again, batch candles are the streamed ones, plus the open group exactly when the last row overhangs its candle |
| Aggregation.StreamingEqualsBatchIff | forex_platform/fractal_engine/state_engine.py:723-804 | for any rows in time order streamed and batch candles are equal if and only if the last row does not overhang its candle and no row opens in a candle that an earlier row completed |
| Aggregation.ReopenedCandle | forex_platform/fractal_engine/state_engine.py:747-759 | minute rows at 0:00, 2:00, 2:30 and 3:00: streaming pushes two three-minute candles that close at 3:00, the second of them refused, and batch has one |
| Aggregation.AcceptedIff | forex_platform/fractal_engine/state_engine.py:283-284 | for any rows in time order every streamed candle is later than the one before it, so that no push raises, if and only if no completed candle other than that of the last row is opened in again |
| Aggregation.LatePushIff | forex_platform/fractal_engine/state_engine.py:747-750 | the next row makes a push raise exactly when a completed candle was opened in again and the row leaves it |
| Aggregation.LateForever | forex_platform/fractal_engine/state_engine.py:745-750 | once a row makes a push raise, every later row does |
| Aggregation.SpacedNeverReopens | forex_platform/fractal_engine/state_engine.py:756-757 | rows at least one interval apart never open in a completed candle |
| Aggregation.StreamingEqualsBatch | forex_platform/fractal_engine/state_engine.py:723-804 | on the source grid, gaps included, both paths publish the same candles |
| Aggregation.FeedExtends | forex_platform/fractal_engine/state_engine.py:742-760 | streaming only appends |
| Aggregation.FutureAppend | forex_platform/fractal_engine/state_engine.py:191-238 | later rows never rewrite a batch candle already known |
| Aggregation.FeedAllOrdered | forex_platform/fractal_engine/state_engine.py:742-760 | while every push is accepted: the last candle closed before the current one opened, or is the current one, published by the row that completed it; a group is open exactly when the last row did not complete it |
| Aggregation.FeedAllSane | forex_platform/fractal_engine/state_engine.py:763-783 | every candle of well-formed rows closes inside its own range |
| Aggregation.NeverEarly | forex_platform/fractal_engine/state_engine.py:756-759 | for any rows in time order nothing is published before a row with timestamp plus interval at or past its close, and what is open belongs to the last row's candle |
| CandleRuns.CandleMade | forex_platform/fractal_engine/state_engine.py:773-783 | a candle opens with the first row of its run, closes with the last, has the highest high and lowest low, the total volume, the mean spread and the number of rows |
| CandleRuns.StreamedCuts | forex_platform/fractal_engine/state_engine.py:742-783 | the streamed candles and the open group cut the rows into consecutive runs, each candle made of exactly its run; no row is skipped or used twice |
| CandleRuns.BatchCuts | forex_platform/fractal_engine/state_engine.py:200-238 | for rows in time order the batch candles are made of consecutive runs from the first row on, and what they leave is the run of the last candle if its close is not known yet |
| StateEngine.StreamedCandles | forex_platform/fractal_engine/state_engine.py:742-783 | for any reachable engine the candles a timeframe consumed and its open group cut the rows it took in into such runs |
| StateEngine.GroupRows | forex_platform/fractal_engine/state_engine.py:204-214 | the grouping loop gives the consecutive runs of rows that share a bucket |
| StateEngine.ValidateMonotonicity | forex_platform/market_data/loader.py:235-262 | accepts exactly the rows in strictly increasing time order |
| StateEngine.AggregateBars | forex_platform/fractal_engine/state_engine.py:191-238 | no candles for no rows or an unavailable timeframe, whatever their order; otherwise rows out of order are refused and the others give exactly the closed candles |
| StateEngine.BatchSound | forex_platform/fractal_engine/state_engine.py:217-238 | for rows in time order batch candles are strictly increasing in time and well formed, so a processor accepts them all |
| StateEngine.Engine.constructor | forex_platform/fractal_engine/state_engine.py:686-717 | one empty processor for exactly the timeframes the source interval can build |
| StateEngine.Engine.FeedTimeframe | forex_platform/fractal_engine/state_engine.py:743-760 | one row for one timeframe: if closing the open group pushes a late candle nothing changes, otherwise groups, history, latest state and processor follow the streamed feed |
| StateEngine.Engine.Update | forex_platform/fractal_engine/state_engine.py:723-761 | refuses a bar that is not later; any other bar is taken in by every timeframe, in ladder order, up to the first that has to push a late candle, which with those after it stays as it was; each timeframe always holds exactly what the rows it took in make of it, all rows as long as no push was late; without a late push the returned map names exactly the timeframes that published |
| StateEngine.Engine.Build | forex_platform/fractal_engine/state_engine.py:785-804 | an empty source clears states and histories; a source out of order is refused after processors were replaced and states and histories emptied; otherwise fresh processors, each fed its batch candles, the histories of the candles, and the last entries as states |
| StateEngine.RetainedExact | forex_platform/fractal_engine/state_engine.py:763-770 | a history keeps its latest entries up to the limit, and everything under a limit of 0 |
| StateEngine.StreamedHistory | forex_platform/fractal_engine/state_engine.py:723-804 | for any reachable engine the streamed candles of a timeframe are the batch candles of the rows it took in if and only if the last row does not overhang and no completed candle was opened in again; then history and state are what build computes, bounded to what is retained |
| StateEngine.StreamedOnGrid | forex_platform/fractal_engine/state_engine.py:723-804 | for any reachable engine on the source grid every timeframe took in every row, and its streamed history and state are what build computes |
| StateEngine.GridNeverJams | forex_platform/fractal_engine/state_engine.py:745-750 | on the source grid no update pushes a late candle |
| StateEngine.HistoriesOnlyGrow | forex_platform/fractal_engine/state_engine.py:785-804 | later source bars append snapshots and rewrite none |
| Requirements.ConfirmationIsAhead | forex_platform/fractal_engine/requirements.py:80-106 | the confirmation level is strictly ahead of the child's price and no wanted swing ahead of the price is nearer |
| Requirements.RequirementLifecycle.PushParent | forex_platform/fractal_engine/requirements.py:167-229 | supersede, carry or create, as the step function says; state and emitted events |
| Requirements.RequirementLifecycle.PushChild | forex_platform/fractal_engine/requirements.py:231-265 | count the child, then breach before shift before level; state and emitted events |
| Requirements.RequirementLifecycle.Resolve | forex_platform/fractal_engine/requirements.py:267-293 | the pending requirement moves to the resolved list with its count, and the event reports it |
| Requirements.BuildRequirementLifecycle | forex_platform/fractal_engine/requirements.py:312-339 | refuses exactly histories that start on one timeframe; otherwise the lifecycle and log of the merged run |
| Requirements.RunConsistent | forex_platform/fractal_engine/requirements.py:146-293 | for every run: the log is a word of (CREATED CARRIED* (CONFIRMED|INVALIDATED|SUPERSEDED))* (CREATED CARRIED*)? with consecutive numbers, its closing events are the resolved list, created = resolved + pending |
| Requirements.RunPreserves | forex_platform/fractal_engine/requirements.py:167-293 | along every run the log and the resolved list only grow, and no requirement ever changes but for the invalidation level of the pending one |
| Requirements.RunTerms | forex_platform/fractal_engine/requirements.py:36-61 | every requirement's shift follows its location, its phase and signature follow its shift, and every event carries the run's labels |
| Requirements.RunTimely | forex_platform/fractal_engine/requirements.py:231-293 | in a chronological run nothing resolves before it was created and the child counts sum to the children processed while a requirement was pending |
| Requirements.BuiltSound | forex_platform/fractal_engine/requirements.py:312-339 | all of this of whatever the builder returns |
| Requirements.MergedPrefix | forex_platform/fractal_engine/requirements.py:317-335 | the merge of the states up to a cut-off is a prefix of the merge of all states |
| Requirements.LabelsAgree | forex_platform/fractal_engine/requirements.py:319-329 | with one parent and one child state before the cut-off, labels and refusal agree |
| Requirements.PrefixAgreement | forex_platform/fractal_engine/requirements.py:312-339 | with agreeing labels, log, resolved list and every requirement built from the states up to a cut-off agree with the full build |
| Requirements.PrefixAgreementIff | forex_platform/fractal_engine/requirements.py:312-339 | the prefix log is a prefix of the full log if and only if the labels agree or no parent before the cut-off asks for anything |
| Requirements.LabelsDiffer | forex_platform/fractal_engine/requirements.py:326-329 | the labels agree exactly when each history has a state before the cut-off or an unnamed first timeframe |
| Requirements.LabelsCanDiffer | forex_platform/fractal_engine/requirements.py:1-9 | a requirement created before the first child state makes prefix and full logs differ, against the module's own promise |
| RequirementRules.ChildDecides | forex_platform/fractal_engine/requirements.py:231-265 | over every run a child state not before the pending requirement invalidates it exactly when it closes strictly beyond the parent's level; otherwise confirms it exactly when it has the required trend or its close has reached the confirmation level; otherwise it is only counted |
| RequirementRules.ParentDecides | forex_platform/fractal_engine/requirements.py:167-229 | over every run a parent state supersedes the pending requirement exactly when it does not ask for the same shift under the same trend, carries it otherwise, and one is pending afterwards exactly when it asks for a shift |
| RequirementRules.InvalidationExact | forex_platform/fractal_engine/requirements.py:63-77 | the invalidation level is the latest protected low of a rising parent (high of a falling one), or else the edge of its range |
| RequirementRules.ConfirmationExact | forex_platform/fractal_engine/requirements.py:80-106 | the confirmation level is the nearest wanted swing ahead of the close, or else the edge of the range if that is ahead |
| StableSort.SortSound | forex_platform/fractal_engine/requirements.py:317-334 | sorting by a key is ascending, a permutation, and stable |
| MovementLedger.EpisodesChain | forex_platform/fractal_engine/state_graph.py:80-102 | directions alternate and are never neutral, each episode ends where the next starts, only the last is open, ids are numbered from one |
| MovementLedger.ExactlyOneEpisode | forex_platform/fractal_engine/state_graph.py:80-102 | a non-neutral state lies in exactly one half-open episode, of its own direction and id, if and only if no later state of the same instant turns the other way |
| MovementLedger.CausalMovementLedger.constructor | forex_platform/fractal_engine/state_graph.py:59-102 | one pass over the ordered states builds the episodes, the id table and the lookup lists |
| MovementLedger.OpenLedger | forex_platform/fractal_engine/state_graph.py:59-69 | refuses exactly lists with two states of different timeframes |
| MovementLedger.BisectRight | forex_platform/fractal_engine/state_graph.py:105 | binary search finds the one slot with everything at or before the time on its left |
| MovementLedger.CausalMovementLedger.At | forex_platform/fractal_engine/state_graph.py:104-106 | the movement of the latest state at or before a time |
| MovementLedger.AtIsInEpisode | forex_platform/fractal_engine/state_graph.py:104-106 | a movement reported at a time is an episode that contains that time |
| MovementLedger.AtIsForState | forex_platform/fractal_engine/state_graph.py:104-111 | looking up a time is looking up the latest state at or before it, when state ids are distinct |
| MovementLedger.PrefixIdentities | forex_platform/fractal_engine/state_graph.py:80-99 | a prefix of the history names each of its states as the whole history does |
| MovementLedger.PrefixEpisodes | forex_platform/fractal_engine/state_graph.py:80-102 | a prefix finds the same episodes; only its last one may be closed by what comes later |
| MovementLedger.AtIgnoresTheFuture | forex_platform/fractal_engine/state_graph.py:59-106 | asking about a time gives one answer whether or not later states are known |
| Domain.Position.ApplyFill | forex_platform/core/domain.py:462-498 | averages on the same side, realizes what can be closed on the other, drops the excess, closes at zero units; refuses another symbol |
| Domain.Position.UpdateMarketPrice | forex_platform/core/domain.py:445-460 | revalues the open units at the new price |
| Domain.FillWorth | forex_platform/core/domain.py:472-498 | at every mark price a fill changes realized plus open gain by exactly the cash flow of the part of the fill that was taken |
| Domain.MarkedWorth | forex_platform/core/domain.py:445-460 | after revaluation, realized plus unrealized gain is that worth |
| Ledgers.BookIsCashFlow | forex_platform/order_management/oms.py:204-237 | over every run of fills, quotes and swaps that realizes gains at one rate, closes and reopenings included, the average-cost book plus the dropped excess is the cash flow of all fills, at every mark price |
| Ledgers.BookIsCashFlowIff | forex_platform/core/domain.py:480-481 | without an earlier over-close the two agree after a fill if and only if the fill does not over-close (at any mark other than its own price) |
| Ledgers.ReportedIsCashFlow | forex_platform/order_management/oms.py:258-277 | right after a quote the reported realized plus unrealized gain is the cash flow of the fills at bid or ask |
| Ledgers.EquityExact | forex_platform/order_management/oms.py:291-317 | reported equity is the balance, plus what open positions contribute, plus the swap of closed positions, which the balance never saw |
| Ledgers.CommissionConserved | forex_platform/order_management/oms.py:299-302 | over every run the total commission is the sum over the fills posted |
| Symbols.CleanDrops | forex_platform/order_management/oms.py:227 | separators are dropped wherever they stand, every other character is written once in upper case |
| Symbols.CleanFixed | forex_platform/order_management/oms.py:227 | a clean symbol has no separator and no lower-case letter, and such symbols are the ones left as they are |
| Symbols.NormalizeExact | forex_platform/core/domain.py:91 | the normal form is the clean form of the symbol without the blanks around it |
| Ledgers.SwapConserved | forex_platform/core/domain.py:500-502 | over every run the total swap is what was charged to positions open at the time |
| Ledgers.RateOfRun | forex_platform/order_management/oms.py:223-228 | over every run gains are converted at the rate of the last quote of the symbol in any spelling, and at 1 before any |
| Ledgers.ApplySound | forex_platform/order_management/oms.py:204-277 | every step keeps: open positions hold units, closed ones hold none and no unrealized gain, balance = initial + net gain of the closed |
| Ledgers.UncleanNeverMarked | forex_platform/order_management/oms.py:258-277 | a position stored under a symbol that is not clean is never revalued: its unrealized gain stays zero over every run |
| Ledgers.RevaluedIffClean | forex_platform/order_management/oms.py:258-277 | in any sound ledger all quotes for the instrument of an open position, however spelt, revalue it if and only if it is stored under its clean symbol |
| Ledgers.UncleanUntouched | forex_platform/order_management/oms.py:258-277 | no quote at all touches a position whose symbol is not clean |
| Ledgers.FirstQuoteReports | forex_platform/order_management/oms.py:204-277 | after a fill and a quote that moves the price, what is reported is the cash flow of the fill if and only if its symbol is clean; otherwise nothing is reported while the position is open |
| Ledgers.SlashedReportsNothing | forex_platform/order_management/oms.py:204-277 | 10,000 EUR/USD bought at 1.1 and quoted at 1.11 are worth 100, and 0 is reported |
| OrderLifecycle.HistoryBounded | forex_platform/order_management/state_machine.py:53-94 | every legal history has at most seven entries, visits UNKNOWN at most once, repeats no stage and ends at a terminal one |
| OrderLifecycle.PredecessorsExact | forex_platform/order_management/state_machine.py:53-94 | which stages may come before each stage |
| OrderLifecycle.SevenStages | forex_platform/order_management/state_machine.py:53-94 | the bound of seven is reached |
| OrderLifecycle.OrderStateMachine.TransitionTo | forex_platform/order_management/state_machine.py:133-173 | re-affirms, moves along a legal transition or refuses; keeps the history a legal path; alerts exactly on entering UNKNOWN |
| Router.SmartOrderRouter.RouteIntent | forex_platform/order_management/router.py:122-147 | refuses live destinations while locked; a routed intent comes back as its first order only; otherwise its clips, none of them known before |
| Router.SliceIntent | forex_platform/order_management/router.py:63-120 | the clips are numbered from zero, full but for the last, and add up to the intent |
| Router.ClipsCarry | forex_platform/order_management/router.py:63-120 | a fresh clip is unfilled and pending and keeps the intent's limit, stop and target |
| Router.SliceCount | forex_platform/order_management/router.py:93-118 | the number of clips is the least that holds the intent, and their ids differ |
| Oms.OrderManagementSystem.constructor | forex_platform/order_management/oms.py:59-85 | an empty system meets the invariant |
| Oms.OrderManagementSystem.SubmitIntent | forex_platform/order_management/oms.py:93-153 | nothing without approval; a new intent places all its clips in SUBMITTED, one routed before re-submits its first order under a fresh lifecycle; the ledger does not move |
| Oms.OrderManagementSystem.ProcessFill | forex_platform/order_management/oms.py:175-237 | unknown order: nothing changes; refused by the lifecycle: the order's counters move and the ledger does not; otherwise both, the ledger makes exactly the posting step, and the position returned is the open or just closed one of the symbol with the value the fill gives it |
| Oms.FillMoves | forex_platform/order_management/oms.py:175-202 | a fill touches its own order only; it adds units and price whether taken or not, and the status follows what is left if it was taken |
| Oms.TakesFillExact | forex_platform/order_management/oms.py:175-202 | the lifecycle takes a fill exactly when the order is submitted, acked or partly filled, or, if the fill completes it, in doubt or filled already |
| Oms.OrderManagementSystem.AcknowledgeOrder | forex_platform/order_management/oms.py:155-161 | moves to ACKED exactly when legal |
| Oms.OrderManagementSystem.CancelOrder | forex_platform/order_management/oms.py:239-248 | moves to CANCELLED exactly when legal |
| Oms.OrderManagementSystem.MarkOrderUnknown | forex_platform/order_management/oms.py:250-256 | moves to UNKNOWN exactly when legal, with an alert, and shows the order as rejected |
| Oms.OrderManagementSystem.UpdateQuotes | forex_platform/order_management/oms.py:258-277 | the ledger makes exactly the requoting step |
| Oms.OrderManagementSystem.ApplySwap | forex_platform/core/domain.py:500-502 | the ledger makes exactly the financing step |
| Oms.OrderManagementSystem.GetTotalEquity | forex_platform/order_management/oms.py:309-317 | the sums over the open and closed positions give the ledger's equity |
| Oms.DampenedBounds | forex_platform/order_management/oms.py:120-136 | a dampened intent keeps everything but its units: the greatest whole number not above units times multiplier, or all of them where that is under one or the multiplier is not between 0 and 1; never more than before and never none |
| Oms.LedgerOfAnyRun | forex_platform/order_management/oms.py:175-317 | for any reachable system: ledger soundness, total commission of the fills posted, and the equity formula |
| Oms.OrderOfAnyRun | forex_platform/order_management/oms.py:138-202 | for any reachable order: a legal history of at most seven stages, at most one alert, counters that add up to the lot exactly while no more was received, filled exactly when nothing remains, unless refused or re-submitted |
| Oms.RefusedFillCounts | forex_platform/order_management/oms.py:189-202 | a fill refused by a cancelled order still empties its counters |
| Rounding.RoundMonotone | forex_platform/portfolio_engine/exposure_matrix.py:180-181 | half-up rounding is monotone, for every sign |
| Rounding.RoundNear | forex_platform/portfolio_engine/exposure_matrix.py:180-181 | half-up rounding is off by at most half a unit |
| Exposure.TotalsAreSums | forex_platform/portfolio_engine/exposure_matrix.py:239-258 | the raw total of a currency is the sum of the open positions' legs in it |
| Exposure.PercentBetween | forex_platform/portfolio_engine/exposure_matrix.py:274-277 | through both rounding steps the exposure of an amount in between is in between, for any sign of the rate |
| Exposure.SizedBetween | forex_platform/portfolio_engine/exposure_matrix.py:193-223 | in every currency the amount held at an order size in between is in between |
| Exposure.CapConvex | forex_platform/portfolio_engine/exposure_matrix.py:272-296 | the order sizes that keep every currency within the cap form an interval |
| Exposure.CapDownward | forex_platform/portfolio_engine/exposure_matrix.py:272-296 | from a portfolio within the cap, any size below one that fits fits |
| Exposure.CurrencyExposureMatrix.CalculatePortfolioExposure | forex_platform/portfolio_engine/exposure_matrix.py:225-305 | fails exactly when a symbol is not a pair; otherwise reports every currency's delta, the largest share, and balance against the cap |
| Exposure.CurrencyExposureMatrix.UpdateRate | forex_platform/portfolio_engine/exposure_matrix.py:90-93 | the rate under the normal form of the symbol is replaced |
| Conversion.KnownRates | forex_platform/portfolio_engine/exposure_matrix.py:107-113 | a pair is known at the last price the caller gives for it, or else at the stored rate |
| Conversion.ConversionExact | forex_platform/portfolio_engine/exposure_matrix.py:107-154 | every delta reported is converted by the pair's own known rate, or the inverse of a positive opposite one, or a product of two such factors through USD, with 1 for the account currency itself and where no rate is known; rounded to the nearest cent and hundredth of a percent |
| Conversion.LegsCancel | forex_platform/portfolio_engine/exposure_matrix.py:156-191 | the two converted legs of a position in a pair of the account currency, priced at the pair's known rate, cancel: exactly when the account is in the quote currency, up to the cent roundings when it is in the base |
| Conversion.PositionPriceMeans | forex_platform/portfolio_engine/exposure_matrix.py:156-191 | a position is priced at the caller's offer or its current price if positive, or else at its entry, or else at the stored rate |
| Conversion.IntentPriceMeans | forex_platform/portfolio_engine/exposure_matrix.py:193-223 | an order is priced at the caller's offer or its limit if positive, or else at the stored rate |
| Allocator.CurrencyExposureGovernor.AttemptDownsize | forex_platform/portfolio_engine/allocator.py:181-255 | finds a size exactly when some probe of the halving phase fits (and the order is not itself the answer); the size is the largest whole step below the order that fits; for every portfolio |
| Allocator.DownsizingOptimal | forex_platform/portfolio_engine/allocator.py:192-238 | from a portfolio within the cap the search finds a size exactly when 1,000 units fit, and exactly when any whole step fits |
| Allocator.SizeMissed | forex_platform/portfolio_engine/allocator.py:192-238 | with a long position of 30,000 EURUSD over the cap, an order to sell 90,000 is harmful at its size and the search finds no size, although 30,000 units fit |
| Allocator.CurrencyExposureGovernor.EvaluateIntent | forex_platform/portfolio_engine/allocator.py:65-179 | no equity, bad symbol, approved exactly when no currency ends over the cap without its share being reduced, else downsized exactly when the search finds a size, else rejected |
| Allocator.VerdictExact | forex_platform/portfolio_engine/allocator.py:65-179 | from a portfolio within the cap: approved exactly when the order fits, sizeable exactly when some whole step fits |
| BenjaminiHochberg.QValues | forex_platform/fractal_engine/research.py:95-104 | every present p-value gets the capped running minimum at its rank; absent ones stay absent |
| BenjaminiHochberg.RankedLists | forex_platform/fractal_engine/research.py:97 | the ranking lists every present p-value once, ascending |
| BenjaminiHochberg.Discoveries | forex_platform/fractal_engine/research.py:95-104 | for alpha in (0, 1): q <= alpha exactly when p <= p_(k), k the largest rank with p_(k) <= k alpha / m; and p <= q <= 1 |
| BenjaminiHochberg.QFollowsP | forex_platform/fractal_engine/research.py:95-104 | a smaller p-value never gets a larger q-value and equal ones get the same, whatever the tie order |
| TokenBucket.Create | forex_platform/broker_adapters/base.py:55-66 | refuses exactly a capacity or rate that is not positive; otherwise a full bucket |
| TokenBucket.TokenBucketRateLimiter.Acquire | forex_platform/broker_adapters/base.py:74-81 | refill, then grant exactly when the balance is enough, taking nothing on refusal |
| TokenBucket.TokenBucketRateLimiter.AvailableTokens | forex_platform/broker_adapters/base.py:90-94 | a look refills and takes nothing: the balance reported is the refilled one |
| TokenBucket.RunSound | forex_platform/broker_adapters/base.py:68-94 | over every run of calls on a forward clock the balance stays between zero and the capacity |
| TokenBucket.WindowBound | forex_platform/broker_adapters/base.py:68-81 | between any two calls the total granted is at most the capacity plus the rate times the time between them |
| TokenBucket.WaitExactly | forex_platform/broker_adapters/base.py:68-81 | a refused request is granted later exactly when it fits the bucket and the missing tokens have refilled |
| TargetAllocator.TargetPositionAllocator.Allocate | forex_platform/portfolio_engine/target_allocator.py:56-103 | refuses an untradable regime; otherwise intents, rejections and gross are those of the target run, approved exactly when nothing was rejected |
| TargetAllocator.OrdersReachTargets | forex_platform/portfolio_engine/target_allocator.py:71-101 | trading the intents takes every symbol from its current units to its last accepted target, repeats included, or leaves it |
| TargetAllocator.CapsHold | forex_platform/portfolio_engine/target_allocator.py:78-89 | the projected gross never exceeds the larger of its start and the cap; targets are within the symbol cap and USD legs within the currency cap |
| TargetAllocator.AcceptedExact | forex_platform/portfolio_engine/target_allocator.py:74-101 | a target becomes an intent exactly when its symbol is supported, it moves something, stays within the symbol cap, its change fits under the gross cap, and for the seven dollar pairs under the currency cap; the intent is the signed change |
| TargetAllocator.RefusedExact | forex_platform/portfolio_engine/target_allocator.py:74-91 | a refusal names the first of these tests that fails |
| TargetAllocator.ApprovedIff | forex_platform/portfolio_engine/target_allocator.py:74-103 | the list is approved if and only if every target of the unrestricted plan, each after the ones before it, names a supported symbol and moves nothing or stays within the symbol, gross and currency caps; the plan is then what is projected |
| TargetAllocator.ReductionAcceptedIff | forex_platform/portfolio_engine/target_allocator.py:75-91 | a reduction takes its own size off the gross, and is accepted if and only if the gross with that size added stays under the cap and its USD leg under the currency cap, given that what it leaves is within the symbol cap |
| TargetAllocator.ReductionCanBeRejected | forex_platform/portfolio_engine/target_allocator.py:82-85 | the gross test counts the change: closing 600,000 units under a cap of 1,000,000 is rejected |
| PaperStrategy.RunAlternates | research/bt_precomputed_paper.py:136-241 | over every run entries and exits alternate, each exit undoing the entry before it, and the table of open trades holds exactly the active trade |
| PaperStrategy.NetIsActiveTrade | research/bt_precomputed_paper.py:303-347 | net units are always zero or exactly the active trade |
| PaperStrategy.NoConflict | research/bt_precomputed_paper.py:314-319 | with no active trade no symbol is taken: the conflict branch cannot be reached |
| PaperStrategy.EntryBounded | research/bt_precomputed_paper.py:251-316 | an entry has 5 to 50 pips to its stop, four times that to its target, and loses at most equity times the risk fraction at the stop |
| PaperStrategy.ActiveRiskBounded | research/bt_precomputed_paper.py:251-347 | whatever trade is active after any run keeps these bounds |
| PaperStrategy.SurvivorIsYoung | research/bt_precomputed_paper.py:387-389 | a trade that survives a row with a positive close has been held for less than 500 counts |
| PaperStrategy.AgesByTwo | research/bt_precomputed_paper.py:154-197 | a surviving trade ages by two on an in-session bar with a valid ATR and by one on any other, because it is managed twice there |
| PaperRules.ExitsMean | research/bt_precomputed_paper.py:349-391 | a bar ends the active trade exactly when a reason applies, and for that one: stop reached, else target reached, else mid timeframe against it after 20 counts, else 500 counts; without a positive close never |
| PaperRules.SurvivorBetween | research/bt_precomputed_paper.py:361-372 | after any row with a positive close a surviving trade lies strictly between its stop and its target |
| PaperRules.SeekMeans | research/bt_precomputed_paper.py:164-241 | what a row without an active trade makes of trend, bias and setup, and that an entry is tried exactly when all three timeframes agree |
| PaperRules.EntriesMean | research/bt_precomputed_paper.py:251-347 | an order is sent exactly when the stop is 5 to 50 pips away, the spread at most 3, the reward enough and the loss of 1,000 units allowed; it has as many thousand units as the loss at the stop allows, the stop 1.5 ATR away and the target 6 |
| PaperRules.EntryGrounds | research/bt_precomputed_paper.py:136-241 | over every run an entry comes on an in-session row whose low timeframe is on its side and whose high one is not against it, after in-session rows that showed the high and the mid timeframe there |
| PaperStrategy.PrecomputedPerSetStrategyPaper.ManageActiveTrade | research/bt_precomputed_paper.py:349-391 | the managing step, on the shared trade record |
| PaperStrategy.PrecomputedPerSetStrategyPaper.CloseTrade | research/bt_precomputed_paper.py:393-422 | the opposite order; trade, table entry, bias and setup are gone |
| PaperStrategy.PrecomputedPerSetStrategyPaper.BuildEntry | research/bt_precomputed_paper.py:251-347 | the entry attempt: refused, failed on the symbol, or a new shared trade record and its order |
| PaperStrategy.PrecomputedPerSetStrategyPaper.OnBarEvent | research/bt_precomputed_paper.py:136-241 | one bar: new state and result are those of the bar function |

## Left out

- StateEngine.Engine.Update: rows close inside their own range; the map it returns holds only the later of two candles that close for one timeframe on one row, as in the code, while the history keeps both.
- StateEngine.Engine.FeedTimeframe: rows close inside their own range, as candles do.
- StateEngine.AggregateBars: which of the loader's errors is raised, column names and time zones.
- StateEngine.Engine.Build: leaves the streaming side's open groups and last timestamp as they were, as in the code, so an engine that was streaming is not continued after a build.
- OnlineProcessor.Processor.UpdateZones: candles close inside their own range; TimeframeProcessor.ShortcutExact says what fails otherwise.
- OnlineProcessor.Processor.Push: candles close inside their own range; session regime, active sessions, the invalidation text and its protected anchors are not part of the snapshot; the state signature and ids of states and levels are modelled by their fields, not as text.
- Zones.BlockZoneFixed: order blocks are found on the global candle list within the five bars before the break, which is what the sliced call sees.
- Liquidity pools: the detector is an arbitrary function of the recent swings; only ids, first-seen filtering and retirement are modelled.
- OnlineProcessor.SortKeys: code-point order on the ASCII ids that the processor forms.
- HeapQueue: the order of equal keys inside a heap, which no result depends on.
- Ledgers.BookIsCashFlow: needs one conversion rate wherever the symbol realizes a gain; with changing rates realized gain keeps the rate of its own fill and no single cash-flow formula applies.
- Oms.OrderManagementSystem.SubmitIntent: the firewall's verdict and multiplier are parameters; kill switches and the pair lock are not modelled, only the alert.
- Oms.OrderManagementSystem.MarkOrderUnknown: the pair lock that goes with the alert.
- Oms.OrderManagementSystem.constructor: a router of its own, which has routed nothing yet; two systems sharing one router are not modelled.
- Oms: direct injection of positions, the price, stop and target fields beyond being copied, and timestamps of orders.
- Domain.Position.ApplyFill: fills with units that are not positive, which nothing in the execution side reports; the manual close operation of a position is not modelled.
- Exposure.CurrencyExposureMatrix.CalculatePortfolioExposure: gross exposure, the dominant currency (which depends on set iteration order) and the list of active pairs.
- Allocator.CurrencyExposureGovernor.EvaluateIntent: the report fields and texts of the decision.
- BenjaminiHochberg.QValues: exact arithmetic instead of floating point.
- TokenBucket: calls are sequential under the lock; waiting and blocking are not modelled.
- TargetAllocator: the hedge intent for a currency delta.
- PaperStrategy: telemetry counters, printing, and how the rows are precomputed; the key of a trade is its symbol because the set is fixed.
- Requirements: texts of ids and details are modelled by their parts; the summary report.
- MovementLedger: set views and the transition graph, which only look states up.
- Symbols: letters outside ASCII and blanks other than space, tab and line breaks.
- Broker gateways, the HTTP interface, persistence, downloaders, report rendering, research statistics over logarithms and random numbers, and the sweeper: input and output, or no exact property.
