/** One identity per confirmed structural leg of a timeframe. */
module MovementLedger {
  import opened Common
  import opened States
  import StableSort

  datatype MovementId = MovementId(symbol: string, timeframe: string, number: nat)

  datatype Episode = Episode(id: MovementId, direction: int, startedAt: nat, endedAt: Option<nat>)

  /** The last non-neutral trend, 0 if there was none. */
  function PriorDirection(ordered: seq<State>): int {
    if ordered == [] then 0
    else if ordered[|ordered| - 1].trend != 0 then ordered[|ordered| - 1].trend
    else PriorDirection(ordered[..|ordered| - 1])
  }

  /** A state starts a leg when its trend is not neutral and not the one already running. */
  predicate StartsLeg(ordered: seq<State>, i: nat)
    requires i < |ordered|
  {
    ordered[i].trend != 0 && ordered[i].trend != PriorDirection(ordered[..i])
  }

  function LegStarts(ordered: seq<State>): (r: seq<nat>)
    ensures forall k :: 0 <= k < |r| ==> r[k] < |ordered|
  {
    if ordered == [] then []
    else
      var last := |ordered| - 1;
      LegStarts(ordered[..last]) + if StartsLeg(ordered, last) then [last] else []
  }

  function LegId(ordered: seq<State>, number: nat): MovementId
    requires ordered != []
  {
    MovementId(ordered[0].symbol, ordered[0].timeframe, number)
  }

  /** The identity of the leg a state belongs to: the last one started so far, unless it is neutral. */
  function MovementOf(ordered: seq<State>, i: nat): Option<MovementId>
    requires i < |ordered|
  {
    if ordered[i].trend == 0 then None else Some(LegId(ordered, |LegStarts(ordered[..i + 1])|))
  }

  /** A leg runs from its first state to the first state of the next leg. */
  function EpisodeAt(ordered: seq<State>, k: nat): Episode
    requires k < |LegStarts(ordered)|
  {
    var starts := LegStarts(ordered);
    Episode(LegId(ordered, k + 1), ordered[starts[k]].trend, ordered[starts[k]].timestamp,
            if k + 1 < |starts| then Some(ordered[starts[k + 1]].timestamp) else None)
  }

  function Episodes(ordered: seq<State>): seq<Episode> {
    seq(|LegStarts(ordered)|, k requires 0 <= k < |LegStarts(ordered)| => EpisodeAt(ordered, k))
  }

  // ---------------------------------------------------------------- legs partition the states

  lemma {:induction false} StartsOfPrefix(ordered: seq<State>, n: nat)
    requires n <= |ordered|
    ensures LegStarts(ordered[..n]) <= LegStarts(ordered)
    ensures forall k :: |LegStarts(ordered[..n])| <= k < |LegStarts(ordered)| ==> n <= LegStarts(ordered)[k]
  {
    hide StartsLeg;
    if n == |ordered| {
      assert ordered[..n] == ordered;
    } else {
      var front := ordered[..|ordered| - 1];
      assert front[..n] == ordered[..n];
      StartsOfPrefix(front, n);
    }
  }

  /** The running direction is that of the last leg started. */
  lemma {:induction false} RunningDirection(ordered: seq<State>)
    ensures var starts := LegStarts(ordered);
            PriorDirection(ordered) == if starts == [] then 0 else ordered[starts[|starts| - 1]].trend
  {
    if ordered != [] {
      var last := |ordered| - 1;
      RunningDirection(ordered[..last]);
    }
  }

  /** Starts come in order, and neighbouring legs have different, non-neutral directions. */
  lemma {:induction false} LegsAlternate(ordered: seq<State>)
    ensures var starts := LegStarts(ordered);
            (forall j, k :: 0 <= j < k < |starts| ==> starts[j] < starts[k]) &&
            (forall k :: 0 <= k < |starts| ==> ordered[starts[k]].trend != 0) &&
            (forall k :: 0 < k < |starts| ==> ordered[starts[k - 1]].trend != ordered[starts[k]].trend)
  {
    hide PriorDirection;
    if ordered != [] {
      var front := ordered[..|ordered| - 1];
      LegsAlternate(front);
      RunningDirection(front);
    }
  }

  lemma PriorOfLast(ordered: seq<State>, i: nat)
    requires i < |ordered| && ordered[i].trend != 0
    ensures PriorDirection(ordered[..i + 1]) == ordered[i].trend
  {
  }

  /** A non-neutral state belongs to the leg its identity names: it lies at or after that leg's
      start, before the next one's, and has its direction. */
  lemma StateInLeg(ordered: seq<State>, i: nat) returns (k: nat)
    requires i < |ordered| && ordered[i].trend != 0
    ensures k < |LegStarts(ordered)| && MovementOf(ordered, i) == Some(LegId(ordered, k + 1))
    ensures LegStarts(ordered)[k] <= i && ordered[LegStarts(ordered)[k]].trend == ordered[i].trend
    ensures k + 1 < |LegStarts(ordered)| ==> i < LegStarts(ordered)[k + 1]
  {
    hide LegStarts, PriorDirection;
    var upTo := ordered[..i + 1];
    StartsOfPrefix(ordered, i + 1);
    RunningDirection(upTo);
    PriorOfLast(ordered, i);
    k := |LegStarts(upTo)| - 1;
  }

  ghost predicate Chronological(ordered: seq<State>) {
    forall i, j :: 0 <= i < j < |ordered| ==> ordered[i].timestamp <= ordered[j].timestamp
  }

  /** Time `t` lies in the half-open span of the episode. */
  predicate Within(e: Episode, t: nat) {
    e.startedAt <= t && (e.endedAt.Some? ==> t < e.endedAt.value)
  }

  /** Directions alternate, every episode ends where the next starts, only the last is open, and
      identities are numbered from one. */
  lemma EpisodesChain(ordered: seq<State>)
    requires Chronological(ordered)
    ensures var e := Episodes(ordered);
            (forall k :: 0 <= k < |e| ==> e[k].direction != 0 && e[k].id == LegId(ordered, k + 1)) &&
            (forall j, k :: 0 <= j < |e| && k == j + 1 && k < |e| ==>
               e[j].direction != e[k].direction && e[j].endedAt == Some(e[k].startedAt) &&
               e[j].startedAt <= e[k].startedAt) &&
            (e != [] ==> e[|e| - 1].endedAt == None)
  {
    hide LegStarts;
    LegsAlternate(ordered);
    var e := Episodes(ordered);
    forall k | 0 <= k < |e| ensures e[k].direction != 0 && e[k].id == LegId(ordered, k + 1) {
      assert e[k] == EpisodeAt(ordered, k);
    }
    forall j, k | 0 <= j < |e| && k == j + 1 && k < |e|
      ensures e[j].direction != e[k].direction && e[j].endedAt == Some(e[k].startedAt) &&
              e[j].startedAt <= e[k].startedAt
    {
      assert e[j] == EpisodeAt(ordered, j) && e[k] == EpisodeAt(ordered, k);
      assert ordered[LegStarts(ordered)[k - 1]].trend != ordered[LegStarts(ordered)[k]].trend;
    }
  }

  /** Episode `k` is the only one that contains the time. */
  ghost predicate OnlyWithin(ordered: seq<State>, k: nat, t: nat)
    requires k < |Episodes(ordered)|
  {
    Within(Episodes(ordered)[k], t) &&
    forall m :: 0 <= m < |Episodes(ordered)| && Within(Episodes(ordered)[m], t) ==> m == k
  }

  /** The state lies in exactly one episode, the one its identity names, and in its direction. */
  ghost predicate InItsEpisode(ordered: seq<State>, i: nat)
    requires i < |ordered|
  {
    exists k :: 0 <= k < |Episodes(ordered)| && MovementOf(ordered, i) == Some(Episodes(ordered)[k].id) &&
                Episodes(ordered)[k].direction == ordered[i].trend && OnlyWithin(ordered, k, ordered[i].timestamp)
  }

  /** No later state of the same instant is in the opposite direction. */
  predicate LastsItsInstant(ordered: seq<State>, i: nat)
    requires i < |ordered|
  {
    forall j :: i < j < |ordered| && ordered[j].timestamp == ordered[i].timestamp ==>
                  ordered[j].trend == 0 || ordered[j].trend == ordered[i].trend
  }

  /** The leg after the one of state `i` starts later than `i` exactly when `i` lasts its instant. */
  lemma NextLegLater(ordered: seq<State>, i: nat, k: nat)
    requires Chronological(ordered) && i < |ordered| && ordered[i].trend != 0 && k < |LegStarts(ordered)|
    requires LegStarts(ordered)[k] <= i && ordered[LegStarts(ordered)[k]].trend == ordered[i].trend
    requires k + 1 < |LegStarts(ordered)| ==> i < LegStarts(ordered)[k + 1]
    ensures LastsItsInstant(ordered, i) <==>
            (k + 1 < |LegStarts(ordered)| ==> ordered[i].timestamp < ordered[LegStarts(ordered)[k + 1]].timestamp)
  {
    hide LegStarts;
    var starts := LegStarts(ordered);
    LegsAlternate(ordered);
    if j :| i < j < |ordered| && ordered[j].timestamp == ordered[i].timestamp &&
            ordered[j].trend != 0 && ordered[j].trend != ordered[i].trend
    {
      assert forall b :: 0 <= b <= k ==> starts[b] <= starts[k];
      var m := StateInLeg(ordered, j);
      assert k < m;
      assert starts[k + 1] <= starts[m];
    }
  }

  /** Every non-neutral state lies in exactly one episode, its own, exactly when no later state of the
      same instant turns the other way; with distinct timestamps that is always so. */
  lemma ExactlyOneEpisode(ordered: seq<State>, i: nat)
    requires Chronological(ordered) && i < |ordered| && ordered[i].trend != 0
    ensures InItsEpisode(ordered, i) <==> LastsItsInstant(ordered, i)
  {
    hide LegStarts, MovementOf, LastsItsInstant;
    var starts, e := LegStarts(ordered), Episodes(ordered);
    LegsAlternate(ordered);
    var k := StateInLeg(ordered, i);
    assert e[k] == EpisodeAt(ordered, k);
    NextLegLater(ordered, i, k);
    forall m | 0 <= m < |e|
      ensures e[m].id == LegId(ordered, m + 1)
      ensures LastsItsInstant(ordered, i) && Within(e[m], ordered[i].timestamp) ==> m == k
    {
      assert e[m] == EpisodeAt(ordered, m);
      if m < k {
        assert starts[m + 1] <= starts[k];
      } else if k < m {
        assert starts[k + 1] <= starts[m];
      }
    }
    assert LastsItsInstant(ordered, i) ==> OnlyWithin(ordered, k, ordered[i].timestamp);
  }

  // ---------------------------------------------------------------- looking up a time

  /** Number of leading entries at or before `t`. */
  ghost predicate RightmostSlot(times: seq<nat>, t: nat, k: nat) {
    k <= |times| && (forall i :: 0 <= i < k ==> times[i] <= t) && (forall i :: k <= i < |times| ==> t < times[i])
  }

  /** Python's `bisect_right`. */
  method BisectRight(times: seq<nat>, t: nat) returns (k: nat)
    requires forall i, j :: 0 <= i < j < |times| ==> times[i] <= times[j]
    ensures RightmostSlot(times, t, k)
  {
    var lo, hi := 0, |times|;
    while lo < hi
      invariant 0 <= lo <= hi <= |times|
      invariant forall i :: 0 <= i < lo ==> times[i] <= t
      invariant forall i :: hi <= i < |times| ==> t < times[i]
    {
      var mid := (lo + hi) / 2;
      if t < times[mid] {
        hi := mid;
      } else {
        lo := mid + 1;
      }
    }
    k := lo;
  }

  /** Index of the latest state at or before `t`, if any. */
  ghost predicate LatestAt(ordered: seq<State>, t: nat, i: int) {
    -1 <= i < |ordered| && (i >= 0 ==> ordered[i].timestamp <= t) &&
    forall j :: i < j < |ordered| ==> t < ordered[j].timestamp
  }

  /** What holds at a time is the movement of the latest state at or before it. */
  ghost predicate HoldsAt(ordered: seq<State>, t: nat, r: Option<MovementId>) {
    exists i: int :: LatestAt(ordered, t, i) && r == if i < 0 then None else MovementOf(ordered, i)
  }

  lemma MovementMeans(ordered: seq<State>, i: nat)
    requires i < |ordered|
    ensures MovementOf(ordered, i).Some? <==> ordered[i].trend != 0
  {
  }

  /** A movement reported at a time is an episode that contains that time. */
  lemma AtIsInEpisode(ordered: seq<State>, t: nat, r: Option<MovementId>)
    requires Chronological(ordered) && HoldsAt(ordered, t, r) && r.Some?
    ensures exists k :: 0 <= k < |Episodes(ordered)| &&
                        Episodes(ordered)[k].id == r.value && Within(Episodes(ordered)[k], t)
  {
    hide LegStarts, MovementOf;
    var i: int :| LatestAt(ordered, t, i) && r == if i < 0 then None else MovementOf(ordered, i);
    MovementMeans(ordered, i);
    var k := StateInLeg(ordered, i);
    assert Episodes(ordered)[k] == EpisodeAt(ordered, k);
    assert Within(Episodes(ordered)[k], t);
  }

  // ---------------------------------------------------------------- identities never change

  /** A prefix of the history names every one of its states as the whole history does. */
  lemma PrefixIdentities(ordered: seq<State>, n: nat, i: nat)
    requires i < n <= |ordered|
    ensures MovementOf(ordered[..n], i) == MovementOf(ordered, i)
  {
    assert ordered[..n][..i + 1] == ordered[..i + 1];
  }

  /** A prefix finds the same episodes; only its last one may be closed by what comes later. */
  lemma PrefixEpisodes(ordered: seq<State>, n: nat, k: nat)
    requires n <= |ordered| && k < |Episodes(ordered[..n])|
    ensures k < |Episodes(ordered)|
    ensures var (some, all) := (Episodes(ordered[..n])[k], Episodes(ordered)[k]);
            some == all.(endedAt := if k + 1 < |Episodes(ordered[..n])| then all.endedAt else None)
  {
    hide LegStarts;
    StartsOfPrefix(ordered, n);
    assert Episodes(ordered[..n])[k] == EpisodeAt(ordered[..n], k) && Episodes(ordered)[k] == EpisodeAt(ordered, k);
  }

  function Ordered(states: seq<State>): seq<State> {
    StableSort.Sort(states, TimeOf)
  }

  /** A ledger over the states up to a cut-off is a ledger over a prefix of the ordered history. */
  lemma CutOffIsPrefix(states: seq<State>, cutoff: nat)
    ensures Ordered(Before(states, cutoff)) <= Ordered(states)
  {
    hide StableSort.Sort, StableSort.UpTo;
    StableSort.UpToSort(states, TimeOf, cutoff as real);
    StableSort.SortSound(states, TimeOf, 0.0);
    StableSort.UpToIsPrefix(Ordered(states), TimeOf, cutoff as real);
  }

  lemma OrderedChronological(states: seq<State>)
    ensures Chronological(Ordered(states))
  {
    hide StableSort.Sort;
    StableSort.SortSound(states, TimeOf, 0.0);
    forall i, j | 0 <= i < j < |Ordered(states)| ensures Ordered(states)[i].timestamp <= Ordered(states)[j].timestamp {
      assert TimeOf(Ordered(states)[i]) <= TimeOf(Ordered(states)[j]);
    }
  }

  // ---------------------------------------------------------------- the ledger object

  /** The movement recorded under each state id: the last non-neutral state with that id. */
  function IdMap(ordered: seq<State>): map<string, MovementId> {
    if ordered == [] then map[]
    else
      var last := |ordered| - 1;
      var (before, id) := (IdMap(ordered[..last]), MovementOf(ordered, last));
      if id.Some? then before[ordered[last].id := id.value] else before
  }

  function Lookup(m: map<string, MovementId>, id: string): Option<MovementId> {
    if id in m then Some(m[id]) else None
  }

  ghost predicate DistinctIds(ordered: seq<State>) {
    forall i, j :: 0 <= i < j < |ordered| ==> ordered[i].id != ordered[j].id
  }

  lemma {:induction false} IdMapExact(ordered: seq<State>)
    requires DistinctIds(ordered)
    ensures forall i :: 0 <= i < |ordered| ==> Lookup(IdMap(ordered), ordered[i].id) == MovementOf(ordered, i)
    ensures forall id :: id in IdMap(ordered) ==> exists i :: 0 <= i < |ordered| && ordered[i].id == id
  {
    hide MovementOf;
    if ordered != [] {
      var last := |ordered| - 1;
      var front := ordered[..last];
      IdMapExact(front);
      forall i | 0 <= i < last ensures MovementOf(front, i) == MovementOf(ordered, i) {
        PrefixIdentities(ordered, last, i);
      }
      assert forall i :: 0 <= i < last ==> front[i] == ordered[i];
    }
  }

  function Times(ordered: seq<State>): seq<nat> {
    seq(|ordered|, i requires 0 <= i < |ordered| => ordered[i].timestamp)
  }

  function Movements(ordered: seq<State>): seq<Option<MovementId>> {
    seq(|ordered|, i requires 0 <= i < |ordered| => MovementOf(ordered, i))
  }

  predicate MixedTimeframes(states: seq<State>) {
    exists i :: 0 <= i < |states| && states[i].timeframe != states[0].timeframe
  }

  /** Two states are of different timeframes. */
  ghost predicate TwoTimeframes(states: seq<State>) {
    exists i, j :: 0 <= i < |states| && 0 <= j < |states| && states[i].timeframe != states[j].timeframe
  }

  lemma MixedIsTwo(states: seq<State>)
    ensures MixedTimeframes(states) <==> TwoTimeframes(states)
  {
    if i, j :| 0 <= i < |states| && 0 <= j < |states| && states[i].timeframe != states[j].timeframe {
      assert states[i].timeframe != states[0].timeframe || states[j].timeframe != states[0].timeframe;
    }
  }

  /** The episodes already closed, and since when the open one runs. */
  function Settled(ordered: seq<State>): seq<Episode> {
    var e := Episodes(ordered);
    if e == [] then [] else e[..|e| - 1]
  }

  function RunningSince(ordered: seq<State>): Option<nat> {
    var e := Episodes(ordered);
    if e == [] then None else Some(e[|e| - 1].startedAt)
  }

  lemma EmptyTables()
    ensures Settled([]) == [] && RunningSince([]) == None && Times([]) == [] && Movements([]) == [] &&
            LegStarts([]) == []
  {
  }

  lemma SettledThenOpen(ordered: seq<State>)
    ensures Episodes(ordered) ==
            if RunningSince(ordered).None? then []
            else Settled(ordered) + [Episode(LegId(ordered, |LegStarts(ordered)|), PriorDirection(ordered),
                                             RunningSince(ordered).value, None)]
    ensures RunningSince(ordered).Some? <==> LegStarts(ordered) != []
  {
    hide LegStarts;
    RunningDirection(ordered);
  }

  lemma TablesStep(all: seq<State>, i: nat)
    requires i < |all|
    ensures Times(all[..i + 1]) == Times(all[..i]) + [all[i].timestamp]
    ensures Movements(all[..i + 1]) == Movements(all[..i]) + [MovementOf(all, i)]
    ensures IdMap(all[..i + 1]) ==
            if MovementOf(all, i).Some? then IdMap(all[..i])[all[i].id := MovementOf(all, i).value] else IdMap(all[..i])
  {
    hide MovementOf;
    assert all[..i + 1][..i] == all[..i];
    PrefixIdentities(all, i + 1, i);
    forall j | 0 <= j < i ensures MovementOf(all[..i], j) == MovementOf(all[..i + 1], j) {
      PrefixIdentities(all, i, j);
      PrefixIdentities(all, i + 1, j);
    }
  }

  /** How one more state changes the legs. */
  lemma SettledStep(all: seq<State>, i: nat)
    requires i < |all|
    ensures var (before, after, starts) := (all[..i], all[..i + 1], StartsLeg(all, i));
            |LegStarts(after)| == |LegStarts(before)| + (if starts then 1 else 0) &&
            PriorDirection(after) == (if starts then all[i].trend else PriorDirection(before)) &&
            RunningSince(after) == (if starts then Some(all[i].timestamp) else RunningSince(before)) &&
            (MovementOf(all, i) == if all[i].trend == 0 then None else Some(LegId(all, |LegStarts(after)|))) &&
            Settled(after) == (if starts && RunningSince(before).Some?
                               then Settled(before) + [Episode(LegId(all, |LegStarts(before)|), PriorDirection(before),
                                                               RunningSince(before).value, Some(all[i].timestamp))]
                               else Settled(before))
  {
    var (before, after) := (all[..i], all[..i + 1]);
    assert after[..i] == before;
    RunningDirection(before);
  }

  class CausalMovementLedger {
    var identityTimeframe: string
    var episodes: seq<Episode>
    var stateToMovement: map<string, MovementId>
    var times: seq<nat>
    var movementByTime: seq<Option<MovementId>>
    ghost var ordered: seq<State>

    ghost predicate Valid()
      reads this
    {
      && Chronological(ordered)
      && episodes == Episodes(ordered) && stateToMovement == IdMap(ordered)
      && times == Times(ordered) && movementByTime == Movements(ordered)
    }

    /** One pass over the ordered states. */
    method Walk(all: seq<State>)
      requires Chronological(all) && ordered == all
      requires episodes == [] && stateToMovement == map[] && times == [] && movementByTime == []
      modifies this`episodes, this`stateToMovement, this`times, this`movementByTime
      ensures Valid()
    {
      hide LegStarts, MovementOf, Episodes, Times, Movements;
      var direction, number, start := 0, 0, None;
      EmptyTables();
      assert all[..0] == [];
      for i := 0 to |all|
        invariant episodes == Settled(all[..i]) && stateToMovement == IdMap(all[..i])
        invariant times == Times(all[..i]) && movementByTime == Movements(all[..i])
        invariant direction == PriorDirection(all[..i]) && number == |LegStarts(all[..i])|
        invariant start == RunningSince(all[..i])
      {
        var state := all[i];
        TablesStep(all, i);
        SettledStep(all, i);
        if state.trend != 0 && state.trend != direction {
          if start.Some? {
            episodes := episodes + [Episode(LegId(all, number), direction, start.value, Some(state.timestamp))];
          }
          number := number + 1;
          start := Some(state.timestamp);
          direction := state.trend;
        }
        var movement := if state.trend != 0 then Some(LegId(all, number)) else None;
        if movement.Some? {
          stateToMovement := stateToMovement[state.id := movement.value];
        }
        times := times + [state.timestamp];
        movementByTime := movementByTime + [movement];
      }
      assert all[..|all|] == all;
      SettledThenOpen(all);
      if start.Some? {
        episodes := episodes + [Episode(LegId(all, number), direction, start.value, None)];
      }
    }

    constructor (states: seq<State>)
      requires !MixedTimeframes(states)
      ensures Valid() && ordered == Ordered(states)
      ensures identityTimeframe == if states == [] then "" else states[0].timeframe
    {
      identityTimeframe := if states == [] then "" else states[0].timeframe;
      episodes, stateToMovement, times, movementByTime := [], map[], [], [];
      ordered := Ordered(states);
      new;
      OrderedChronological(states);
      Walk(Ordered(states));
    }

    /** The movement at a time, by binary search over the state times. */
    method At(t: nat) returns (r: Option<MovementId>)
      requires Valid()
      ensures HoldsAt(ordered, t, r)
    {
      hide LegStarts, MovementOf, Episodes, IdMap;
      var k := BisectRight(times, t);
      forall j | k <= j < |ordered| ensures t < ordered[j].timestamp {
        assert times[j] == ordered[j].timestamp;
      }
      var latest: int := k as int - 1;
      assert latest >= 0 ==> times[latest] == ordered[latest].timestamp;
      assert LatestAt(ordered, t, latest);
      r := if k > 0 then movementByTime[k - 1] else None;
    }

    function ForState(state: Option<State>): Option<MovementId>
      reads this`stateToMovement
    {
      if state.None? then None else Lookup(stateToMovement, state.value.id)
    }
  }

  lemma LatestUnique(ordered: seq<State>, t: nat, i: int, j: int)
    requires LatestAt(ordered, t, i) && LatestAt(ordered, t, j)
    ensures i == j
  {
  }

  /** What holds at a time is what is recorded for the latest state at or before it. */
  lemma AtIsForState(ledger: CausalMovementLedger, t: nat, r: Option<MovementId>, latest: int)
    requires ledger.Valid() && DistinctIds(ledger.ordered)
    requires HoldsAt(ledger.ordered, t, r) && LatestAt(ledger.ordered, t, latest)
    ensures r == ledger.ForState(if latest < 0 then None else Some(ledger.ordered[latest]))
  {
    hide LegStarts, MovementOf, Episodes, IdMap;
    IdMapExact(ledger.ordered);
    var i: int :| LatestAt(ledger.ordered, t, i) && r == if i < 0 then None else MovementOf(ledger.ordered, i);
    LatestUnique(ledger.ordered, t, i, latest);
  }

  lemma {:induction false} BeyondUpTo(ordered: seq<State>, cutoff: nat)
    requires StableSort.Ascending(ordered, TimeOf)
    ensures var n := |StableSort.UpTo(ordered, TimeOf, cutoff as real)|;
            n <= |ordered| && forall j :: n <= j < |ordered| ==> cutoff < ordered[j].timestamp
  {
    if ordered != [] {
      assert forall j :: 0 < j < |ordered| ==> ordered[j] == ordered[1..][j - 1];
      BeyondUpTo(ordered[1..], cutoff);
      if cutoff as real < TimeOf(ordered[0]) {
        forall j | 0 <= j < |ordered| ensures cutoff < ordered[j].timestamp {
          assert TimeOf(ordered[0]) <= TimeOf(ordered[j]);
        }
      }
    }
  }

  lemma LaterBeyond(states: seq<State>, cutoff: nat)
    ensures var n := |Ordered(Before(states, cutoff))|;
            n <= |Ordered(states)| && forall j :: n <= j < |Ordered(states)| ==> cutoff < Ordered(states)[j].timestamp
  {
    hide StableSort.Sort, StableSort.UpTo;
    StableSort.UpToSort(states, TimeOf, cutoff as real);
    StableSort.SortSound(states, TimeOf, 0.0);
    BeyondUpTo(Ordered(states), cutoff);
  }

  /** Asking about a time before the cut-off gives the same answer from the states up to the cut-off
      as from all of them. */
  lemma AtIgnoresTheFuture(states: seq<State>, cutoff: nat, t: nat, early: Option<MovementId>, late: Option<MovementId>)
    requires t <= cutoff
    requires HoldsAt(Ordered(Before(states, cutoff)), t, early) && HoldsAt(Ordered(states), t, late)
    ensures early == late
  {
    hide LegStarts, MovementOf, Ordered, Before;
    CutOffIsPrefix(states, cutoff);
    LaterBeyond(states, cutoff);
    var (some, all) := (Ordered(Before(states, cutoff)), Ordered(states));
    assert all[..|some|] == some;
    var i: int :| LatestAt(some, t, i) && early == if i < 0 then None else MovementOf(some, i);
    var j: int :| LatestAt(all, t, j) && late == if j < 0 then None else MovementOf(all, j);
    assert LatestAt(all, t, i);
    LatestUnique(all, t, i, j);
    if i >= 0 {
      PrefixIdentities(all, |some|, i);
    }
  }

  /** Build a ledger; `None` is the refusal of states from more than one timeframe. */
  method OpenLedger(states: seq<State>) returns (r: Option<CausalMovementLedger>)
    ensures r.None? <==> TwoTimeframes(states)
    ensures r.Some? ==> fresh(r.value) && r.value.Valid() && r.value.ordered == Ordered(states)
  {
    MixedIsTwo(states);
    if exists i :: 0 <= i < |states| && states[i].timeframe != states[0].timeframe {
      return None;
    }
    var ledger := new CausalMovementLedger(states);
    r := Some(ledger);
  }
}
