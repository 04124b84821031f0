/** What resolves, refreshes and creates a requirement, in prices and trends, over every run. */
module RequirementRules {
  import opened Common
  import opened MarketStructure
  import opened Snapshots
  import opened States
  import opened Requirements

  lemma RunAppend(labels: Labels, items: seq<Item>, item: Item)
    ensures Run(labels, items + [item]) == Step(Run(labels, items), labels, item)
  {
    hide Step;
    assert (items + [item])[..|items|] == items;
  }

  // ---------------------------------------------------------------- child states

  /** The close is strictly below the invalidation level of a rising parent, or above that of a falling one. */
  predicate BeyondLevel(r: Requirement, close: real) {
    r.invalidation.Some? &&
    if r.parentTrend == 1 then close < r.invalidation.value else r.parentTrend == -1 && r.invalidation.value < close
  }

  /** The close has reached the confirmation level in the direction of the shift. */
  predicate ReachedLevel(r: Requirement, close: real) {
    r.confirmation.Some? &&
    if r.shift == 1 then r.confirmation.value <= close else r.shift == -1 && close <= r.confirmation.value
  }

  /** The requirement that was pending is the last one resolved, by this child and in this way. */
  predicate ResolvedBy(before: Life, after: Life, child: State, status: Kind) {
    && before.pending.Some? && after.pending.None? && after.pendingChildren == 0
    && |after.resolved| == |before.resolved| + 1 && before.resolved <= after.resolved
    && var last := after.resolved[|before.resolved|];
       last.requirement == before.pending.value && last.status == status && last.resolvedAt == child.timestamp &&
       last.childStateId == Some(child.id) && last.childrenObserved == before.pendingChildren + 1
  }

  lemma ClosedBy(life: Life, child: State, status: Kind, detail: Detail)
    requires life.pending.Some?
    ensures ResolvedBy(life,
                       Close(life, Resolution(life.pending.value, status, child.timestamp, Some(child.id), detail,
                                              life.pendingChildren + 1)), child, status)
  {
  }

  lemma OneStatus(before: Life, after: Life, child: State)
    ensures ResolvedBy(before, after, child, Invalidated) ==> !ResolvedBy(before, after, child, Confirmed)
    ensures ResolvedBy(before, after, child, Confirmed) || ResolvedBy(before, after, child, Invalidated) ==>
              after != before.(pendingChildren := before.pendingChildren + 1)
  {
  }

  lemma NotResolved(before: Life, after: Life, child: State)
    requires after.pending == before.pending
    ensures !ResolvedBy(before, after, child, Invalidated) && !ResolvedBy(before, after, child, Confirmed)
  {
  }

  /** Over every run, a child state not before the creation of the pending requirement invalidates it exactly
      when it closes beyond the parent's level. Otherwise it confirms it exactly when it has the required
      trend or has reached the confirmation level. Otherwise it is counted, and nothing else moves. */
  lemma ChildDecides(labels: Labels, items: seq<Item>, child: State)
    ensures var (before, after) := (Run(labels, items), Run(labels, items + [Child(child)]));
            after.lastChild == Some(child) && after.life.number == before.life.number &&
            if before.life.pending.None? || child.timestamp < before.life.pending.value.createdAt
            then after.life == before.life && after.log == before.log
            else
              var r := before.life.pending.value;
              var (void, met) := (BeyondLevel(r, child.price), child.trend == r.shift || ReachedLevel(r, child.price));
              (void <==> ResolvedBy(before.life, after.life, child, Invalidated)) &&
              (!void && met <==> ResolvedBy(before.life, after.life, child, Confirmed)) &&
              (!void && !met <==>
               after.life == before.life.(pendingChildren := before.life.pendingChildren + 1) &&
               after.log == before.log)
  {
    hide Run, ResolvedBy, Closing;
    var before := Run(labels, items);
    RunAppend(labels, items, Child(child));
    RunTerms(labels, items);
    if before.life.pending.Some? && before.life.pending.value.createdAt <= child.timestamp {
      var r := before.life.pending.value;
      var verdict := Verdict(r, child);
      if verdict.Some? {
        ClosedBy(before.life, child, verdict.value.0, verdict.value.1);
        OneStatus(before.life, Run(labels, items + [Child(child)]).life, child);
      } else {
        NotResolved(before.life, before.life.(pendingChildren := before.life.pendingChildren + 1), child);
      }
    }
  }

  // ---------------------------------------------------------------- levels

  /** Level `i` is the latest protected one of its kind. */
  ghost predicate LatestProtected(levels: seq<KeyLevel>, i: nat, kind: SwingType) {
    && i < |levels| && levels[i].kind == kind && levels[i].isProtected
    && forall j :: i < j < |levels| ==> !(levels[j].kind == kind && levels[j].isProtected)
  }

  lemma {:induction false} ProtectedExact(levels: seq<KeyLevel>, kind: SwingType)
    ensures forall i: nat :: LatestProtected(levels, i, kind) ==> LastProtected(levels, kind) == Some(levels[i].price)
    ensures LastProtected(levels, kind).Some? ==> exists i: nat :: LatestProtected(levels, i, kind)
  {
    if levels != [] {
      var (front, last) := (levels[..|levels| - 1], levels[|levels| - 1]);
      ProtectedExact(front, kind);
      if last.kind == kind && last.isProtected {
        assert LatestProtected(levels, |levels| - 1, kind);
      } else {
        assert forall i: nat :: LatestProtected(levels, i, kind) <==> LatestProtected(front, i, kind);
      }
    }
  }

  /** The swings that guard a trend: lows for a rising one, highs for a falling one. */
  function Guard(trend: int): SwingType {
    if trend == 1 then Low else High
  }

  /** `level` is where a close would void the parent's thesis: for a rising parent its latest protected low, or
      else the low of its range; for a falling one the latest protected high, or else the high. */
  ghost predicate Voids(parent: State, level: Option<real>) {
    && (forall i: nat :: LatestProtected(parent.levels, i, Guard(parent.trend)) ==>
                           level == Some(parent.levels[i].price))
    && ((forall i: nat :: !LatestProtected(parent.levels, i, Guard(parent.trend))) ==>
          if parent.range.None? then level == None
          else level == Some(if parent.trend == 1 then parent.range.value.low else parent.range.value.high))
  }

  lemma InvalidationExact(parent: State, level: Option<real>)
    requires parent.trend == 1 || parent.trend == -1
    ensures Voids(parent, level) <==> level == InvalidationPrice(parent)
  {
    hide LastProtected;
    var kind := Guard(parent.trend);
    ProtectedExact(parent.levels, kind);
    if i: nat :| LatestProtected(parent.levels, i, kind) {
      assert InvalidationPrice(parent) == Some(parent.levels[i].price);
    } else {
      assert LastProtected(parent.levels, kind).None?;
    }
  }

  /** A swing of the wanted kind strictly ahead of the child's close. */
  predicate SwingAhead(child: State, i: nat, shift: int) {
    i < |child.levels| &&
    if shift == 1 then child.levels[i].kind == High && child.price < child.levels[i].price
    else child.levels[i].kind == Low && child.levels[i].price < child.price
  }

  /** `level` is the nearest wanted swing ahead of the child, or else the edge of its range if that is ahead. */
  ghost predicate Confirms(child: State, level: Option<real>, shift: int) {
    if exists i: nat :: SwingAhead(child, i, shift)
    then exists i: nat :: SwingAhead(child, i, shift) && level == Some(child.levels[i].price) &&
                          forall j: nat :: SwingAhead(child, j, shift) ==>
                            if shift == 1 then child.levels[i].price <= child.levels[j].price
                            else child.levels[j].price <= child.levels[i].price
    else
      level == if child.range.None? then None
               else if shift == 1
               then (if child.price < child.range.value.high then Some(child.range.value.high) else None)
               else (if child.range.value.low < child.price then Some(child.range.value.low) else None)
  }

  lemma {:induction false} CandidateFound(levels: seq<KeyLevel>, wanted: SwingType, price: real, shift: int, p: real)
    requires p in Candidates(levels, wanted, price, shift)
    ensures exists i: nat :: i < |levels| && levels[i].kind == wanted && Beyond(levels[i].price, price, shift) &&
                             levels[i].price == p
  {
    if levels[0].kind == wanted && Beyond(levels[0].price, price, shift) && levels[0].price == p {
      assert levels[0].price == p;
    } else {
      assert p in Candidates(levels[1..], wanted, price, shift);
      CandidateFound(levels[1..], wanted, price, shift, p);
      var i: nat :| i < |levels[1..]| && levels[1..][i].kind == wanted && Beyond(levels[1..][i].price, price, shift) &&
                    levels[1..][i].price == p;
      assert levels[i + 1].price == p;
    }
  }

  lemma ConfirmationExact(child: State, shift: int)
    requires shift == 1 || shift == -1
    ensures Confirms(child, ConfirmationPrice(Some(child), shift), shift)
  {
    hide Candidates, Nearest;
    var wanted := if shift > 0 then High else Low;
    var candidates := Candidates(child.levels, wanted, child.price, shift);
    CandidatesExact(child.levels, wanted, child.price, shift);
    forall i: nat | SwingAhead(child, i, shift) ensures child.levels[i].price in candidates {
    }
    if candidates != [] {
      NearestExact(candidates, shift);
      var nearest := Nearest(candidates, shift);
      CandidateFound(child.levels, wanted, child.price, shift, nearest);
      var i: nat :| i < |child.levels| && child.levels[i].kind == wanted &&
                    Beyond(child.levels[i].price, child.price, shift) && child.levels[i].price == nearest;
      assert SwingAhead(child, i, shift);
      forall j: nat | SwingAhead(child, j, shift) ensures !Beyond(nearest, child.levels[j].price, shift) {
        assert child.levels[j].price in candidates;
      }
    }
  }

  // ---------------------------------------------------------------- parent states

  /** The shift a parent asks for: against its trend in premium, with it in discount. */
  function Wanted(parent: State): int {
    if parent.trend != 1 && parent.trend != -1 then 0
    else if parent.location == Premium then -parent.trend
    else if parent.location == Discount then parent.trend
    else 0
  }

  /** The pending requirement was made under the parent's trend and asks for the shift it asks for. */
  predicate SameDemand(r: Requirement, parent: State) {
    r.parentTrend == parent.trend && r.shift == Wanted(parent)
  }

  /** The requirement a parent state creates. */
  ghost predicate CreatedFrom(r: Requirement, before: Trace, parent: State) {
    && r.parentStateId == parent.id && r.parentTrend == parent.trend && r.parentLocation == parent.location
    && r.shift == Wanted(parent) && r.createdAt == parent.timestamp && r.id.number == before.life.number + 1
    && r.phase == (if parent.location == Premium then Pullback else Continuation)
    && Voids(parent, r.invalidation)
    && if before.lastChild.None? then r.confirmation == None
       else Confirms(before.lastChild.value, r.confirmation, r.shift)
  }

  /** The requirement a parent state carries: only its invalidation level may move, to the parent's own. */
  ghost predicate CarriedFrom(r: Requirement, was: Requirement, parent: State) {
    r == was.(invalidation := r.invalidation) && (Voids(parent, r.invalidation) || (Voids(parent, None) && r == was))
  }

  lemma CarriedIs(was: Requirement, parent: State)
    requires parent.trend == 1 || parent.trend == -1
    ensures CarriedFrom(Refreshed(was, parent), was, parent)
  {
    hide InvalidationPrice, Voids;
    InvalidationExact(parent, InvalidationPrice(parent));
  }

  lemma CreatedIs(labels: Labels, before: Trace, parent: State)
    requires Wanted(parent) != 0
    ensures CreatedFrom(NewRequirement(labels, before.life.number + 1, parent, Wanted(parent), before.lastChild),
                        before, parent)
  {
    hide InvalidationPrice, Candidates, Nearest, Voids, Confirms;
    InvalidationExact(parent, InvalidationPrice(parent));
    if before.lastChild.Some? {
      ConfirmationExact(before.lastChild.value, Wanted(parent));
    }
  }

  lemma WantedIs(parent: State)
    ensures ExpectedChildShift(parent) == if Wanted(parent) == 0 then None else Some(Wanted(parent))
    ensures Wanted(parent) != 0 ==> parent.trend == 1 || parent.trend == -1
  {
  }

  /** Over every run, a parent state supersedes the pending requirement exactly when it no longer asks for the
      same shift under the same trend, carries it when it does, and creates one when none is left and it asks
      for a shift at all. */
  lemma ParentDecides(labels: Labels, items: seq<Item>, parent: State)
    ensures var (before, after) := (Run(labels, items), Run(labels, items + [Parent(parent)]));
            var superseded := before.life.pending.Some? && !SameDemand(before.life.pending.value, parent);
            |after.life.resolved| == |before.life.resolved| + (if superseded then 1 else 0) &&
            before.life.resolved <= after.life.resolved && after.lastChild == before.lastChild &&
            (superseded ==>
               var last := after.life.resolved[|before.life.resolved|];
               last.requirement == before.life.pending.value && last.status == Superseded &&
               last.resolvedAt == parent.timestamp && last.childrenObserved == before.life.pendingChildren)
    ensures var (before, after) := (Run(labels, items), Run(labels, items + [Parent(parent)]));
            (after.life.pending.Some? <==> Wanted(parent) != 0) &&
            (after.life.pending.Some? ==>
               if before.life.pending.Some? && SameDemand(before.life.pending.value, parent)
               then CarriedFrom(after.life.pending.value, before.life.pending.value, parent) &&
                    after.life.pendingChildren == before.life.pendingChildren && after.life.number == before.life.number
               else CreatedFrom(after.life.pending.value, before, parent) &&
                    after.life.pendingChildren == 0 && after.life.number == before.life.number + 1)
  {
    hide Run, Closing, CarriedEvent, CreatedEvent, NewRequirement, Refreshed, CreatedFrom, CarriedFrom, Wanted,
         ExpectedChildShift;
    var before := Run(labels, items);
    RunAppend(labels, items, Parent(parent));
    RunTerms(labels, items);
    WantedIs(parent);
    if Wanted(parent) != 0 {
      CreatedIs(labels, before, parent);
      if before.life.pending.Some? {
        CarriedIs(before.life.pending.value, parent);
      }
    }
  }
}
