/** The Benjamini-Hochberg step-up procedure. */
module BenjaminiHochberg {
  import opened Common
  import StableSort

  /** A p-value and the index it came from. */
  datatype Item = Item(index: nat, p: real)

  function PValue(item: Item): real {
    item.p
  }

  function Min(x: real, y: real): real {
    if y < x then y else x
  }

  /** The p-values that are present, in their original order. */
  function Present(ps: seq<Option<real>>): seq<Item> {
    if ps == [] then []
    else
      var last := |ps| - 1;
      Present(ps[..last]) + if ps[last].Some? then [Item(last, ps[last].value)] else []
  }

  /** The p-values in ascending order; equal ones stay in their original order. */
  function Ranked(ps: seq<Option<real>>): seq<Item> {
    StableSort.Sort(Present(ps), PValue)
  }

  ghost predicate Probabilities(ps: seq<Option<real>>) {
    forall i :: 0 <= i < |ps| && ps[i].Some? ==> 0.0 <= ps[i].value <= 1.0
  }

  // ---------------------------------------------------------------- ranks

  ghost predicate DistinctIndices(items: seq<Item>) {
    forall i, j :: 0 <= i < j < |items| ==> items[i].index != items[j].index
  }

  /** The items are exactly the present p-values, each once. */
  ghost predicate Lists(items: seq<Item>, ps: seq<Option<real>>) {
    && DistinctIndices(items)
    && (forall x :: x in items ==> x.index < |ps| && ps[x.index] == Some(x.p))
    && (forall i :: 0 <= i < |ps| && ps[i].Some? ==> Item(i, ps[i].value) in items)
  }

  lemma ListOneMore(items: seq<Item>, ps: seq<Option<real>>)
    requires ps != [] && ps[|ps| - 1].Some? && Lists(items, ps[..|ps| - 1])
    ensures Lists(items + [Item(|ps| - 1, ps[|ps| - 1].value)], ps)
  {
    var (last, next) := (|ps| - 1, items + [Item(|ps| - 1, ps[|ps| - 1].value)]);
    forall i | 0 <= i < |items| ensures items[i].index < last {
      assert items[i] in items;
    }
    forall i | 0 <= i < |ps| && ps[i].Some? ensures Item(i, ps[i].value) in next {
      if i < last {
        assert ps[..last][i] == ps[i];
      } else {
        assert next[|items|] == Item(i, ps[i].value);
      }
    }
  }

  lemma {:induction false} PresentLists(ps: seq<Option<real>>)
    ensures Lists(Present(ps), ps)
  {
    if ps != [] {
      var last := |ps| - 1;
      PresentLists(ps[..last]);
      if ps[last].Some? {
        ListOneMore(Present(ps[..last]), ps);
      } else {
        assert Present(ps) == Present(ps[..last]);
      }
    }
  }

  lemma InsertDistinct(items: seq<Item>, x: Item)
    requires StableSort.Ascending(items, PValue) && DistinctIndices(items)
    requires forall i :: 0 <= i < |items| ==> items[i].index != x.index
    ensures DistinctIndices(StableSort.Insert(items, x, PValue))
  {
    hide StableSort.Insert;
    var k := StableSort.InsertAt(items, x, PValue);
  }

  lemma {:induction false} SortDistinct(items: seq<Item>)
    requires DistinctIndices(items)
    ensures DistinctIndices(StableSort.Sort(items, PValue))
  {
    hide StableSort.Insert, StableSort.Ascending;
    if items != [] {
      var front, x := items[..|items| - 1], items[|items| - 1];
      var sorted := StableSort.Sort(front, PValue);
      SortDistinct(front);
      StableSort.SortSound(front, PValue, 0.0);
      StableSort.SortMembers(front, PValue);
      forall i | 0 <= i < |sorted| ensures sorted[i].index != x.index {
        assert sorted[i] in front;
      }
      InsertDistinct(sorted, x);
    }
  }

  /** Ranking lists the present p-values in ascending order. */
  lemma RankedLists(ps: seq<Option<real>>)
    ensures Lists(Ranked(ps), ps)
    ensures forall i, j :: 0 <= i <= j < |Ranked(ps)| ==> Ranked(ps)[i].p <= Ranked(ps)[j].p
  {
    hide StableSort.Sort, Present;
    PresentLists(ps);
    SortDistinct(Present(ps));
    StableSort.SortMembers(Present(ps), PValue);
    StableSort.SortSound(Present(ps), PValue, 0.0);
    forall i, j | 0 <= i <= j < |Ranked(ps)| ensures Ranked(ps)[i].p <= Ranked(ps)[j].p {
      assert PValue(Ranked(ps)[i]) <= PValue(Ranked(ps)[j]);
    }
  }

  // ---------------------------------------------------------------- the procedure

  /** What rank k (from 1) allows: its p-value scaled by the number of tests over the rank. */
  function Scaled(items: seq<Item>, rank: nat): real
    requires 1 <= rank <= |items|
  {
    items[rank - 1].p * |items| as real / rank as real
  }

  /** The smallest scaled value from a rank upwards, capped at 1. */
  function Running(items: seq<Item>, rank: nat): real
    requires 1 <= rank <= |items| + 1
    decreases |items| + 1 - rank
  {
    if rank == |items| + 1 then 1.0 else Min(Running(items, rank + 1), Scaled(items, rank))
  }

  /** The q-value at position k of the ranking. */
  function QAt(items: seq<Item>, k: nat): real
    requires k < |items|
  {
    Min(1.0, Running(items, k + 1))
  }

  /** Every ranked p-value from position `from` on has its q-value, the others have none yet. */
  ghost predicate Assigned(items: seq<Item>, from: nat, result: seq<Option<real>>) {
    && (forall k :: from <= k < |items| ==> items[k].index < |result| && result[items[k].index] == Some(QAt(items, k)))
    && (forall i :: 0 <= i < |result| && result[i].Some? ==> exists k :: from <= k < |items| && items[k].index == i)
  }

  lemma AssignOne(items: seq<Item>, k: nat, result: seq<Option<real>>)
    requires k < |items| && DistinctIndices(items) && items[k].index < |result| && Assigned(items, k + 1, result)
    ensures Assigned(items, k, result[items[k].index := Some(QAt(items, k))])
  {
    hide Running;
  }

  lemma NothingAssigned(items: seq<Item>, result: seq<Option<real>>)
    requires forall i :: 0 <= i < |result| ==> result[i].None?
    ensures Assigned(items, |items|, result)
  {
  }

  lemma NoneStaysNone(ps: seq<Option<real>>, items: seq<Item>, result: seq<Option<real>>)
    requires Lists(items, ps) && |result| == |ps| && Assigned(items, 0, result)
    ensures forall i :: 0 <= i < |ps| ==> (result[i].None? <==> ps[i].None?)
  {
    hide QAt;
    forall i | 0 <= i < |ps| ensures result[i].None? <==> ps[i].None? {
      if ps[i].Some? {
        var k :| 0 <= k < |items| && items[k] == Item(i, ps[i].value);
      } else {
        forall k | 0 <= k < |items| ensures items[k].index != i {
          assert items[k] in items;
        }
      }
    }
  }

  lemma RunningStep(items: seq<Item>, rank: nat)
    requires 1 <= rank <= |items|
    ensures Running(items, rank) == Min(Running(items, rank + 1), Scaled(items, rank))
    ensures QAt(items, rank - 1) == Min(1.0, Running(items, rank))
  {
  }

  lemma RunningEnds(items: seq<Item>)
    ensures Running(items, |items| + 1) == 1.0
  {
  }

  lemma ItemFits(items: seq<Item>, ps: seq<Option<real>>, k: nat)
    requires Lists(items, ps) && k < |items|
    ensures items[k].index < |ps| && DistinctIndices(items)
  {
    assert items[k] in items;
  }

  /** Benjamini-Hochberg q-values, retaining the original order: from the largest p-value down, each
      gets the running minimum of the scaled values. */
  method QValues(ps: seq<Option<real>>) returns (result: seq<Option<real>>)
    ensures |result| == |ps| && Assigned(Ranked(ps), 0, result)
    ensures forall i :: 0 <= i < |ps| ==> (result[i].None? <==> ps[i].None?)
  {
    hide Ranked, Assigned, Running, Scaled, QAt, Min, Lists;
    var ranked := Ranked(ps);
    RankedLists(ps);
    result := seq(|ps|, _ => None);
    var running, rank := 1.0, |ranked|;
    NothingAssigned(ranked, result);
    RunningEnds(ranked);
    while rank > 0
      invariant 0 <= rank <= |ranked| && |result| == |ps|
      invariant running == Running(ranked, rank + 1) && Assigned(ranked, rank, result)
    {
      var item := ranked[rank - 1];
      ItemFits(ranked, ps, rank - 1);
      RunningStep(ranked, rank);
      running := Min(running, Scaled(ranked, rank));
      AssignOne(ranked, rank - 1, result);
      result := result[item.index := Some(Min(1.0, running))];
      rank := rank - 1;
    }
    NoneStaysNone(ps, ranked, result);
  }

  // ---------------------------------------------------------------- what a q-value means

  /** The running minimum at a rank is reached at some rank from there upwards, or is 1. */
  lemma {:induction false} RunningReached(items: seq<Item>, rank: nat, bound: real)
    requires 1 <= rank <= |items| + 1 && bound < 1.0
    ensures Running(items, rank) <= bound <==> exists k :: rank <= k <= |items| && Scaled(items, k) <= bound
    decreases |items| + 1 - rank
  {
    hide Scaled;
    if rank <= |items| {
      RunningReached(items, rank + 1, bound);
      assert Running(items, rank) == Min(Running(items, rank + 1), Scaled(items, rank));
    }
  }

  /** Rank k passes the step-up test at level alpha. */
  predicate Passes(items: seq<Item>, alpha: real, k: nat)
    requires 1 <= k <= |items|
  {
    items[k - 1].p * |items| as real <= k as real * alpha
  }

  lemma DivideAt(x: real, d: real, bound: real)
    requires 0.0 < d
    ensures x / d <= bound <==> x <= d * bound
  {
    var q := x / d;
    assert q * d == x;
    if q <= bound {
      assert q * d <= bound * d;
    } else {
      assert bound * d < q * d;
    }
  }

  lemma ScaledPasses(items: seq<Item>, alpha: real, k: nat)
    requires 1 <= k <= |items|
    ensures Scaled(items, k) <= alpha <==> Passes(items, alpha, k)
  {
    DivideAt(items[k - 1].p * |items| as real, k as real, alpha);
  }

  /** The largest rank that passes at level alpha, 0 if none does. */
  function LargestPassing(items: seq<Item>, alpha: real, upTo: nat): (r: nat)
    requires upTo <= |items|
    ensures r <= upTo && (r > 0 ==> Passes(items, alpha, r))
    ensures forall k :: r < k <= upTo ==> !Passes(items, alpha, k)
  {
    if upTo == 0 then 0 else if Passes(items, alpha, upTo) then upTo else LargestPassing(items, alpha, upTo - 1)
  }

  /** An equal p-value at a later rank passes too. */
  lemma LaterEqualPasses(items: seq<Item>, alpha: real, k: nat, r: nat)
    requires 1 <= k <= r <= |items| && items[r - 1].p <= items[k - 1].p && Passes(items, alpha, k) && 0.0 < alpha
    ensures Passes(items, alpha, r)
  {
    var m := |items| as real;
    assert items[r - 1].p * m <= items[k - 1].p * m;
    assert k as real * alpha <= r as real * alpha;
  }

  /** The step-up rule: a q-value is at most alpha exactly when its p-value is at most the p-value of
      the largest rank k with p_(k) <= k * alpha / m. */
  lemma StepUp(ps: seq<Option<real>>, alpha: real, j: nat)
    requires Probabilities(ps) && 0.0 < alpha < 1.0 && j < |Ranked(ps)|
    ensures var (items, k) := (Ranked(ps), LargestPassing(Ranked(ps), alpha, |Ranked(ps)|));
            QAt(items, j) <= alpha <==> k > 0 && items[j].p <= items[k - 1].p
  {
    hide Ranked, Scaled, Running;
    RankedLists(ps);
    var items := Ranked(ps);
    var k := LargestPassing(items, alpha, |items|);
    RunningReached(items, j + 1, alpha);
    forall r | 1 <= r <= |items| ensures Scaled(items, r) <= alpha <==> Passes(items, alpha, r) {
      ScaledPasses(items, alpha, r);
    }
    if k > 0 && items[j].p <= items[k - 1].p && k < j + 1 {
      LaterEqualPasses(items, alpha, k, j + 1);
    }
  }

  lemma DivideAbove(x: real, d: real, bound: real)
    requires 0.0 < d && bound * d <= x
    ensures bound <= x / d
  {
    DivideAt(bound * d, d, x / d);
    assert x / d * d == x && bound * d / d == bound;
  }

  lemma ScaledAbove(items: seq<Item>, rank: nat)
    requires 1 <= rank <= |items| && 0.0 <= items[rank - 1].p
    ensures items[rank - 1].p <= Scaled(items, rank)
  {
    var (p, m, r) := (items[rank - 1].p, |items| as real, rank as real);
    assert p * r <= p * m;
    DivideAbove(p * m, r, p);
  }

  lemma {:induction false} RunningAbove(items: seq<Item>, rank: nat, bound: real)
    requires 1 <= rank <= |items| + 1 && 0.0 <= bound <= 1.0
    requires forall k :: rank - 1 <= k < |items| ==> bound <= items[k].p
    ensures bound <= Running(items, rank)
    decreases |items| + 1 - rank
  {
    hide Scaled;
    if rank <= |items| {
      RunningAbove(items, rank + 1, bound);
      ScaledAbove(items, rank);
    }
  }

  /** A q-value is never below its p-value. */
  lemma QAboveP(ps: seq<Option<real>>, j: nat)
    requires Probabilities(ps) && j < |Ranked(ps)|
    ensures Ranked(ps)[j].p <= QAt(Ranked(ps), j) <= 1.0
  {
    hide Ranked, Scaled;
    RankedLists(ps);
    assert Ranked(ps)[j] in Ranked(ps);
    RunningAbove(Ranked(ps), j + 1, Ranked(ps)[j].p);
  }

  /** q-values rise with the ranking. */
  lemma {:induction false} QMonotone(items: seq<Item>, i: nat, j: nat)
    requires i <= j < |items|
    ensures QAt(items, i) <= QAt(items, j)
    decreases j - i
  {
    hide Scaled;
    if i < j {
      QMonotone(items, i + 1, j);
    }
  }

  lemma RunningBelowScaled(items: seq<Item>, j: nat)
    requires j < |items|
    ensures Running(items, j + 1) <= Scaled(items, j + 1)
  {
    hide Scaled;
  }

  lemma ScaledFalls(items: seq<Item>, i: nat, j: nat)
    requires i <= j < |items| && items[i].p == items[j].p && 0.0 <= items[i].p
    ensures Scaled(items, j + 1) <= Scaled(items, i + 1)
  {
    var x := items[i].p * |items| as real;
    var (a, b) := (i as real + 1.0, j as real + 1.0);
    assert 0.0 <= x;
    var q := x / a;
    assert q * a == x;
    assert 0.0 <= q by { DivideAbove(x, a, 0.0); }
    assert q * a <= q * b;
    DivideAt(x, b, q);
  }

  lemma {:induction false} RunningOverTie(items: seq<Item>, i: nat, j: nat)
    requires i <= j < |items| && forall a, b :: 0 <= a <= b < |items| ==> items[a].p <= items[b].p
    requires items[i].p == items[j].p && 0.0 <= items[i].p
    ensures Running(items, j + 1) <= Running(items, i + 1)
    decreases j - i
  {
    hide Scaled;
    if i < j {
      RunningOverTie(items, i + 1, j);
      RunningBelowScaled(items, j);
      ScaledFalls(items, i, j);
      assert Running(items, i + 1) == Min(Running(items, i + 2), Scaled(items, i + 1));
    }
  }

  /** Equal p-values get equal q-values, whichever came first. */
  lemma TiesEqual(ps: seq<Option<real>>, i: nat, j: nat)
    requires Probabilities(ps) && i <= j < |Ranked(ps)| && Ranked(ps)[i].p == Ranked(ps)[j].p
    ensures QAt(Ranked(ps), i) == QAt(Ranked(ps), j)
  {
    hide Ranked, Running;
    RankedLists(ps);
    assert Ranked(ps)[i] in Ranked(ps);
    RunningOverTie(Ranked(ps), i, j);
    QMonotone(Ranked(ps), i, j);
  }

  // ---------------------------------------------------------------- about the original positions

  /** The discoveries at level alpha: by original position, the p-values at most that of the largest
      passing rank. */
  lemma Discoveries(ps: seq<Option<real>>, result: seq<Option<real>>, alpha: real, i: nat)
    requires Probabilities(ps) && 0.0 < alpha < 1.0 && i < |ps| && ps[i].Some?
    requires |result| == |ps| && Assigned(Ranked(ps), 0, result)
    ensures result[i].Some?
    ensures var (items, k) := (Ranked(ps), LargestPassing(Ranked(ps), alpha, |Ranked(ps)|));
            result[i].value <= alpha <==> k > 0 && ps[i].value <= items[k - 1].p
    ensures ps[i].value <= result[i].value <= 1.0
  {
    hide Ranked, QAt, LargestPassing;
    RankedLists(ps);
    var j :| 0 <= j < |Ranked(ps)| && Ranked(ps)[j] == Item(i, ps[i].value);
    StepUp(ps, alpha, j);
    QAboveP(ps, j);
  }

  /** q-values follow the p-values: a smaller p-value never gets a larger q-value, equal ones get the
      same. */
  lemma QFollowsP(ps: seq<Option<real>>, result: seq<Option<real>>, i: nat, j: nat)
    requires Probabilities(ps) && i < |ps| && j < |ps| && ps[i].Some? && ps[j].Some? && ps[i].value <= ps[j].value
    requires |result| == |ps| && Assigned(Ranked(ps), 0, result)
    ensures result[i].Some? && result[j].Some? && result[i].value <= result[j].value
    ensures ps[i].value == ps[j].value ==> result[i] == result[j]
  {
    hide Ranked, QAt;
    RankedLists(ps);
    var a :| 0 <= a < |Ranked(ps)| && Ranked(ps)[a] == Item(i, ps[i].value);
    var b :| 0 <= b < |Ranked(ps)| && Ranked(ps)[b] == Item(j, ps[j].value);
    if a <= b {
      QMonotone(Ranked(ps), a, b);
      if ps[i].value == ps[j].value {
        TiesEqual(ps, a, b);
      }
    } else {
      TiesEqual(ps, b, a);
    }
  }
}
