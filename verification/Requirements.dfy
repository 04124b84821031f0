/** What a parent timeframe requires of the next finer one, and how child states resolve it. */
module Requirements {
  import opened Common
  import opened MarketStructure
  import opened Snapshots
  import opened States
  import StableSort

  /** The requirement's signature: the parent's trend and the shift it asks for. */
  datatype Expectation = Expectation(trend: int, shift: Option<int>)

  datatype Labels = Labels(parent: string, child: string)

  datatype RequirementId = RequirementId(symbol: string, labels: Labels, number: nat)

  datatype Requirement = Requirement(id: RequirementId, parentStateId: string, parentTrend: int,
                                     parentLocation: Location,
                                     shift: int, phase: Phase, confirmation: Option<real>, invalidation: Option<real>,
                                     createdAt: nat, expectation: Expectation)

  datatype Kind = Created | Carried | Confirmed | Invalidated | Superseded

  datatype Detail = Required(shift: int, phase: Phase) | Persists(expectation: Expectation)
                  | ExpectationChanged(expectation: Expectation) | BeyondInvalidation(price: real, level: real)
                  | TrendShifted(trend: int) | CrossedConfirmation(price: real, level: real)

  datatype Event = Event(timestamp: nat, id: RequirementId, kind: Kind, parentStateId: string,
                         childStateId: Option<string>, detail: Detail)

  datatype Resolution = Resolution(requirement: Requirement, status: Kind, resolvedAt: nat,
                                   childStateId: Option<string>,
                                   detail: Detail, childrenObserved: nat)

  predicate Directional(trend: int) {
    trend == 1 || trend == -1
  }

  /** Premium asks the child to move against the parent trend, discount to move with it. */
  function ExpectedChildShift(parent: State): Option<int> {
    if !Directional(parent.trend) then None
    else match parent.location
      case Premium => Some(-parent.trend)
      case Discount => Some(parent.trend)
      case _ => None
  }

  function ExpectedPhase(parent: State, shift: int): Phase {
    if shift == -parent.trend then Pullback else Continuation
  }

  function LastProtected(levels: seq<KeyLevel>, wanted: SwingType): Option<real> {
    if levels == [] then None
    else
      var level := levels[|levels| - 1];
      if level.kind == wanted && level.isProtected then Some(level.price)
      else LastProtected(levels[..|levels| - 1], wanted)
  }

  /** A close beyond this level voids the parent's own thesis. */
  function InvalidationPrice(parent: State): Option<real> {
    if !Directional(parent.trend) then None
    else
      var level := LastProtected(parent.levels, if parent.trend > 0 then Low else High);
      if level.Some? then level
      else if parent.range.Some? then Some(if parent.trend > 0 then parent.range.value.low else parent.range.value.high)
      else None
  }

  /** `level` lies strictly beyond `price` in the direction of `shift`. */
  predicate Beyond(level: real, price: real, shift: int) {
    if shift > 0 then level > price else level < price
  }

  function Candidates(levels: seq<KeyLevel>, wanted: SwingType, price: real, shift: int): seq<real> {
    if levels == [] then []
    else (if levels[0].kind == wanted && Beyond(levels[0].price, price, shift) then [levels[0].price] else [])
         + Candidates(levels[1..], wanted, price, shift)
  }

  /** The candidate closest to the price: the least for an upward shift, the greatest for a downward one. */
  function Nearest(levels: seq<real>, shift: int): real
    requires levels != []
  {
    if |levels| == 1 then levels[0]
    else
      var best := Nearest(levels[1..], shift);
      if Beyond(best, levels[0], shift) then levels[0] else best
  }

  /** The child level whose crossing confirms the shift. */
  function ConfirmationPrice(child: Option<State>, shift: int): Option<real> {
    if child.None? then None
    else
      var (c, wanted) := (child.value, if shift > 0 then High else Low);
      var candidates := Candidates(c.levels, wanted, c.price, shift);
      if candidates != [] then Some(Nearest(candidates, shift))
      else if c.range.None? then None
      else
        var edge := if shift > 0 then c.range.value.high else c.range.value.low;
        if Beyond(edge, c.price, shift) then Some(edge) else None
  }

  lemma {:induction false} CandidatesExact(levels: seq<KeyLevel>, wanted: SwingType, price: real, shift: int)
    ensures forall i :: 0 <= i < |levels| && levels[i].kind == wanted && Beyond(levels[i].price, price, shift) ==>
              levels[i].price in Candidates(levels, wanted, price, shift)
    ensures forall p :: p in Candidates(levels, wanted, price, shift) ==> Beyond(p, price, shift)
  {
    if levels != [] {
      CandidatesExact(levels[1..], wanted, price, shift);
      forall i | 0 <= i < |levels| && levels[i].kind == wanted && Beyond(levels[i].price, price, shift)
        ensures levels[i].price in Candidates(levels, wanted, price, shift)
      {
        assert i > 0 ==> levels[1..][i - 1] == levels[i];
      }
    }
  }

  lemma {:induction false} NearestExact(levels: seq<real>, shift: int)
    requires levels != []
    ensures Nearest(levels, shift) in levels
    ensures forall p :: p in levels ==> !Beyond(Nearest(levels, shift), p, shift)
  {
    if |levels| > 1 {
      NearestExact(levels[1..], shift);
      assert forall p :: p in levels ==> p == levels[0] || p in levels[1..];
    }
  }

  /** The confirmation level is strictly ahead of the child's price, so the child has not crossed it
      yet, and no swing of the wanted kind ahead of the price is nearer. */
  lemma ConfirmationIsAhead(child: State, shift: int)
    requires Directional(shift)
    ensures var p := ConfirmationPrice(Some(child), shift);
            (p.Some? ==> Beyond(p.value, child.price, shift)) &&
            (forall l :: l in child.levels && l.kind == (if shift > 0 then High else Low) &&
                         Beyond(l.price, child.price, shift) ==>
                           p.Some? && !Beyond(p.value, l.price, shift))
  {
    hide Candidates, Nearest;
    var wanted := if shift > 0 then High else Low;
    CandidatesExact(child.levels, wanted, child.price, shift);
    var candidates := Candidates(child.levels, wanted, child.price, shift);
    if candidates != [] {
      NearestExact(candidates, shift);
    }
  }

  // ---------------------------------------------------------------- one step

  /** The lifecycle's own state, apart from the event log the builder collects. */
  datatype Life = Life(pending: Option<Requirement>, pendingChildren: nat, number: nat, resolved: seq<Resolution>)

  function ExpectationOf(parent: State): Expectation {
    Expectation(parent.trend, ExpectedChildShift(parent))
  }

  function NewRequirement(labels: Labels, number: nat, parent: State, shift: int,
                          childAsOf: Option<State>): Requirement {
    Requirement(RequirementId(parent.symbol, labels, number), parent.id, parent.trend, parent.location, shift,
                ExpectedPhase(parent, shift), ConfirmationPrice(childAsOf, shift), InvalidationPrice(parent),
                parent.timestamp, ExpectationOf(parent))
  }

  /** The event that reports a resolution. */
  function Closing(r: Resolution): Event {
    Event(r.resolvedAt, r.requirement.id, r.status, r.requirement.parentStateId, r.childStateId, r.detail)
  }

  function Close(life: Life, r: Resolution): Life {
    Life(None, 0, life.number, life.resolved + [r])
  }

  function Outdated(life: Life, parent: State): Option<Resolution> {
    if life.pending.Some? && life.pending.value.expectation != ExpectationOf(parent)
    then Some(Resolution(life.pending.value, Superseded, parent.timestamp, None,
                         ExpectationChanged(ExpectationOf(parent)),
                         life.pendingChildren))
    else None
  }

  /** Carrying refreshes the invalidation level when the parent has one, and nothing else. */
  function Refreshed(r: Requirement, parent: State): Requirement {
    var level := InvalidationPrice(parent);
    if level.Some? then r.(invalidation := level) else r
  }

  function CarriedEvent(r: Requirement, parent: State): Event {
    Event(parent.timestamp, r.id, Carried, parent.id, None, Persists(ExpectationOf(parent)))
  }

  function CreatedEvent(r: Requirement, childAsOf: Option<State>): Event {
    Event(r.createdAt, r.id, Created, r.parentStateId, if childAsOf.Some? then Some(childAsOf.value.id) else None,
          Required(r.shift, r.phase))
  }

  /** A parent state supersedes an outdated requirement, carries the current one or creates one. */
  function ParentStep(life: Life, labels: Labels, parent: State, childAsOf: Option<State>): (Life, seq<Event>) {
    var (outdated, shift) := (Outdated(life, parent), ExpectedChildShift(parent));
    var (kept, closing) :=
      if outdated.Some? then (Close(life, outdated.value), [Closing(outdated.value)]) else (life, []);
    if shift.None? then (kept, closing)
    else if kept.pending.Some? then
      (kept.(pending := Some(Refreshed(kept.pending.value, parent))),
       closing + [CarriedEvent(kept.pending.value, parent)])
    else
      var created := NewRequirement(labels, kept.number + 1, parent, shift.value, childAsOf);
      (Life(Some(created), 0, kept.number + 1, kept.resolved), closing + [CreatedEvent(created, childAsOf)])
  }

  predicate Breached(r: Requirement, child: State) {
    r.invalidation.Some? &&
    ((r.parentTrend > 0 && child.price < r.invalidation.value) ||
     (r.parentTrend < 0 && child.price > r.invalidation.value))
  }

  predicate Crossed(r: Requirement, child: State) {
    r.confirmation.Some? &&
    ((r.shift > 0 && child.price >= r.confirmation.value) || (r.shift < 0 && child.price <= r.confirmation.value))
  }

  /** A breach comes first, then the shift itself, then the confirmation level. */
  function Verdict(r: Requirement, child: State): Option<(Kind, Detail)> {
    if Breached(r, child) then Some((Invalidated, BeyondInvalidation(child.price, r.invalidation.value)))
    else if child.trend == r.shift then Some((Confirmed, TrendShifted(child.trend)))
    else if Crossed(r, child) then Some((Confirmed, CrossedConfirmation(child.price, r.confirmation.value)))
    else None
  }

  function ChildStep(life: Life, child: State): (Life, seq<Event>) {
    if life.pending.None? || child.timestamp < life.pending.value.createdAt then (life, [])
    else
      var (r, seen) := (life.pending.value, life.pendingChildren + 1);
      var verdict := Verdict(r, child);
      if verdict.None? then (life.(pendingChildren := seen), [])
      else
        var resolution := Resolution(r, verdict.value.0, child.timestamp, Some(child.id), verdict.value.1, seen);
        (Close(life, resolution), [Closing(resolution)])
  }

  // ---------------------------------------------------------------- runs

  datatype Item = Parent(state: State) | Child(state: State)

  datatype Trace = Trace(life: Life, log: seq<Event>, lastChild: Option<State>)

  function Step(t: Trace, labels: Labels, item: Item): Trace {
    match item
    case Parent(state) =>
      var (life, emitted) := ParentStep(t.life, labels, state, t.lastChild);
      Trace(life, t.log + emitted, t.lastChild)
    case Child(state) =>
      var (life, emitted) := ChildStep(t.life, state);
      Trace(life, t.log + emitted, Some(state))
  }

  const START := Trace(Life(None, 0, 0, []), [], None)

  function Run(labels: Labels, items: seq<Item>): Trace {
    if items == [] then START else Step(Run(labels, items[..|items| - 1]), labels, items[|items| - 1])
  }

  lemma RunStep(labels: Labels, items: seq<Item>, k: nat)
    requires k < |items|
    ensures Run(labels, items[..k + 1]) == Step(Run(labels, items[..k]), labels, items[k])
  {
    hide Step;
    assert items[..k + 1][..k] == items[..k];
  }

  // ---------------------------------------------------------------- the event log is a word

  /** What a reader of the log knows: requirements so far and the one that is open. */
  datatype Reader = Reader(count: nat, open: Option<RequirementId>)

  function ReadEvent(r: Reader, e: Event): Option<Reader> {
    match e.kind
    case Created => if r.open.None? && e.id.number == r.count + 1 then Some(Reader(r.count + 1, Some(e.id))) else None
    case Carried => if r.open == Some(e.id) then Some(r) else None
    case _ => if r.open == Some(e.id) then Some(Reader(r.count, None)) else None
  }

  /** The log language: every requirement is created under the next number while none is open,
      carried any number of times, and closed before the next one. `None` if the log breaks it. */
  function ReadLog(log: seq<Event>): Option<Reader> {
    if log == [] then Some(Reader(0, None))
    else
      var (before, e) := (ReadLog(log[..|log| - 1]), log[|log| - 1]);
      if before.None? then None else ReadEvent(before.value, e)
  }

  lemma ReadAppend(log: seq<Event>, e: Event)
    requires ReadLog(log).Some?
    ensures ReadLog(log + [e]) == ReadEvent(ReadLog(log).value, e)
  {
    assert (log + [e])[..|log|] == log;
  }

  function OpenId(life: Life): Option<RequirementId> {
    if life.pending.Some? then Some(life.pending.value.id) else None
  }

  /** The closing events of a log, in order. */
  function Closings(log: seq<Event>): seq<Event> {
    if log == [] then []
    else
      var e := log[|log| - 1];
      Closings(log[..|log| - 1]) + if e.kind == Created || e.kind == Carried then [] else [e]
  }

  function ClosingsOf(resolved: seq<Resolution>): seq<Event> {
    if resolved == [] then []
    else ClosingsOf(resolved[..|resolved| - 1]) + [Closing(resolved[|resolved| - 1])]
  }

  lemma ClosingsAppend(log: seq<Event>, e: Event)
    ensures Closings(log + [e]) == Closings(log) + if e.kind == Created || e.kind == Carried then [] else [e]
  {
    assert (log + [e])[..|log|] == log;
  }

  lemma ClosingsOfAppend(resolved: seq<Resolution>, r: Resolution)
    ensures ClosingsOf(resolved + [r]) == ClosingsOf(resolved) + [Closing(r)]
  {
    assert (resolved + [r])[..|resolved|] == resolved;
  }

  predicate Closes(kind: Kind) {
    kind != Created && kind != Carried
  }

  /** Log and lifecycle tell the same story. */
  ghost predicate Consistent(t: Trace) {
    && ReadLog(t.log) == Some(Reader(t.life.number, OpenId(t.life)))
    && Closings(t.log) == ClosingsOf(t.life.resolved)
    && |t.life.resolved| + (if t.life.pending.Some? then 1 else 0) == t.life.number
    && (t.life.pending.Some? ==> t.life.pending.value.id.number == t.life.number)
    && (forall i :: 0 <= i < |t.life.resolved| ==> t.life.resolved[i].requirement.id.number == i + 1)
    && (forall i :: 0 <= i < |t.life.resolved| ==> Closes(t.life.resolved[i].status))
  }

  lemma CloseConsistent(t: Trace, r: Resolution)
    requires Consistent(t) && t.life.pending.Some? && Closes(r.status)
    requires r.requirement == t.life.pending.value
    ensures Consistent(Trace(Close(t.life, r), t.log + [Closing(r)], t.lastChild))
  {
    hide ReadLog, Closings, ClosingsOf;
    ReadAppend(t.log, Closing(r));
    ClosingsAppend(t.log, Closing(r));
    ClosingsOfAppend(t.life.resolved, r);
  }

  lemma CarryConsistent(t: Trace, parent: State)
    requires Consistent(t) && t.life.pending.Some?
    ensures Consistent(Trace(t.life.(pending := Some(Refreshed(t.life.pending.value, parent))),
                             t.log + [CarriedEvent(t.life.pending.value, parent)], t.lastChild))
  {
    hide ReadLog, Closings, ClosingsOf, InvalidationPrice, ExpectedChildShift;
    var e := CarriedEvent(t.life.pending.value, parent);
    ReadAppend(t.log, e);
    ClosingsAppend(t.log, e);
  }

  lemma CreateConsistent(t: Trace, r: Requirement, childAsOf: Option<State>)
    requires Consistent(t) && t.life.pending.None? && r.id.number == t.life.number + 1
    ensures Consistent(Trace(Life(Some(r), 0, r.id.number, t.life.resolved), t.log + [CreatedEvent(r, childAsOf)],
                             t.lastChild))
  {
    hide ReadLog, Closings, ClosingsOf;
    var e := CreatedEvent(r, childAsOf);
    ReadAppend(t.log, e);
    ClosingsAppend(t.log, e);
  }

  lemma ParentConsistent(t: Trace, labels: Labels, parent: State)
    requires Consistent(t)
    ensures var (life, emitted) := ParentStep(t.life, labels, parent, t.lastChild);
            Consistent(Trace(life, t.log + emitted, t.lastChild))
  {
    hide Consistent, InvalidationPrice, ConfirmationPrice, ExpectedChildShift, Refreshed, CarriedEvent,
         CreatedEvent, Closing;
    var outdated := Outdated(t.life, parent);
    var kept := t;
    if outdated.Some? {
      CloseConsistent(t, outdated.value);
      kept := Trace(Close(t.life, outdated.value), t.log + [Closing(outdated.value)], t.lastChild);
    }
    var shift := ExpectedChildShift(parent);
    if shift.None? {
      assert t.log + [] == t.log;
    } else if kept.life.pending.Some? {
      CarryConsistent(kept, parent);
      assert [] + [CarriedEvent(kept.life.pending.value, parent)] == [CarriedEvent(kept.life.pending.value, parent)];
    } else {
      var created := NewRequirement(labels, kept.life.number + 1, parent, shift.value, t.lastChild);
      CreateConsistent(kept, created, t.lastChild);
      var e := CreatedEvent(created, t.lastChild);
      assert [] + [e] == [e];
      if outdated.Some? {
        assert t.log + ([Closing(outdated.value)] + [e]) == kept.log + [e];
      }
    }
  }

  lemma ChildConsistent(t: Trace, child: State)
    requires Consistent(t)
    ensures var (life, emitted) := ChildStep(t.life, child);
            Consistent(Trace(life, t.log + emitted, Some(child)))
  {
    hide ReadLog, Closings, ClosingsOf;
    assert t.log + [] == t.log;
    if t.life.pending.Some? {
      var verdict := Verdict(t.life.pending.value, child);
      if verdict.Some? {
        CloseConsistent(t, Resolution(t.life.pending.value, verdict.value.0, child.timestamp, Some(child.id),
                                      verdict.value.1, t.life.pendingChildren + 1));
      }
    }
  }

  lemma StartConsistent()
    ensures Consistent(START)
  {
  }

  /** For every run: the log is a word of the log language that ends with the pending requirement
      open, its closing events are the resolved list, and every requirement created under the next
      number is resolved or pending. */
  lemma {:induction false} RunConsistent(labels: Labels, items: seq<Item>)
    ensures Consistent(Run(labels, items))
  {
    hide Consistent, ParentStep, ChildStep;
    if items == [] {
      StartConsistent();
    } else {
      var front := items[..|items| - 1];
      RunConsistent(labels, front);
      match items[|items| - 1]
      case Parent(state) => ParentConsistent(Run(labels, front), labels, state);
      case Child(state) => ChildConsistent(Run(labels, front), state);
    }
  }

  // ---------------------------------------------------------------- a requirement is frozen

  /** The requirement under a number, resolved or pending. */
  function RequirementOf(life: Life, number: nat): Option<Requirement> {
    if 1 <= number <= |life.resolved| then Some(life.resolved[number - 1].requirement)
    else if life.pending.Some? && life.pending.value.id.number == number then life.pending
    else None
  }

  /** Equal but for the invalidation level. */
  predicate SameTerms(a: Requirement, b: Requirement) {
    a == b.(invalidation := a.invalidation)
  }

  ghost predicate Preserves(before: Trace, after: Trace) {
    && before.log <= after.log
    && before.life.resolved <= after.life.resolved
    && forall n :: RequirementOf(before.life, n).Some? ==>
                     RequirementOf(after.life, n).Some? &&
                     SameTerms(RequirementOf(before.life, n).value, RequirementOf(after.life, n).value)
  }

  lemma ClosePreserves(t: Trace, r: Resolution, lastChild: Option<State>)
    requires Consistent(t) && t.life.pending == Some(r.requirement)
    ensures Preserves(t, Trace(Close(t.life, r), t.log + [Closing(r)], lastChild))
  {
    hide ReadLog, Closings, ClosingsOf;
  }

  lemma PreservesTransitive(a: Trace, b: Trace, c: Trace)
    requires Preserves(a, b) && Preserves(b, c)
    ensures Preserves(a, c)
  {
    hide RequirementOf;
  }

  lemma ParentPreserves(t: Trace, labels: Labels, parent: State)
    requires Consistent(t)
    ensures var (life, emitted) := ParentStep(t.life, labels, parent, t.lastChild);
            Preserves(t, Trace(life, t.log + emitted, t.lastChild))
  {
    hide ReadLog, Closings, ClosingsOf, InvalidationPrice, ConfirmationPrice, ExpectedChildShift, CarriedEvent,
         CreatedEvent;
    var outdated := Outdated(t.life, parent);
    if outdated.Some? {
      ClosePreserves(t, outdated.value, t.lastChild);
    }
  }

  lemma ChildPreserves(t: Trace, child: State)
    requires Consistent(t)
    ensures var (life, emitted) := ChildStep(t.life, child);
            Preserves(t, Trace(life, t.log + emitted, Some(child)))
  {
    hide ReadLog, Closings, ClosingsOf, Verdict, Closing;
  }

  lemma PreservesSame(t: Trace)
    ensures Preserves(t, t)
  {
  }

  lemma {:induction false} RunPreserves(labels: Labels, items: seq<Item>, j: nat, k: nat)
    requires j <= k <= |items|
    ensures Preserves(Run(labels, items[..j]), Run(labels, items[..k]))
    decreases k
  {
    hide Consistent, Preserves, ParentStep, ChildStep, Run;
    var t := Run(labels, items[..j]);
    if j == k {
      PreservesSame(t);
    } else {
      RunPreserves(labels, items, j, k - 1);
      var mid := Run(labels, items[..k - 1]);
      RunConsistent(labels, items[..k - 1]);
      RunStep(labels, items, k - 1);
      match items[k - 1] {
        case Parent(state) => ParentPreserves(mid, labels, state);
        case Child(state) => ChildPreserves(mid, state);
      }
      PreservesTransitive(t, mid, Run(labels, items[..k]));
    }
  }

  // ---------------------------------------------------------------- terms

  /** The terms agree with each other: the shift follows the location, the phase and the expectation
      follow the shift. */
  predicate TermsSound(r: Requirement, labels: Labels) {
    && Directional(r.parentTrend) && r.id.labels == labels
    && r.shift == (if r.parentLocation == Premium then -r.parentTrend else r.parentTrend)
    && (r.parentLocation == Premium || r.parentLocation == Discount)
    && r.phase == (if r.parentLocation == Premium then Pullback else Continuation)
    && r.expectation == Expectation(r.parentTrend, Some(r.shift))
  }

  ghost predicate AllTermsSound(t: Trace, labels: Labels) {
    && (t.life.pending.Some? ==> TermsSound(t.life.pending.value, labels))
    && (forall r :: r in t.life.resolved ==> TermsSound(r.requirement, labels))
    && (forall e :: e in t.log ==> e.id.labels == labels)
  }

  lemma RefreshedTerms(r: Requirement, parent: State, labels: Labels)
    requires TermsSound(r, labels)
    ensures TermsSound(Refreshed(r, parent), labels) && r.id.labels == labels
  {
    hide InvalidationPrice;
  }

  lemma NewTerms(labels: Labels, number: nat, parent: State, childAsOf: Option<State>)
    requires ExpectedChildShift(parent).Some?
    ensures var r := NewRequirement(labels, number, parent, ExpectedChildShift(parent).value, childAsOf);
            TermsSound(r, labels) && r.id.labels == labels
  {
    hide InvalidationPrice, ConfirmationPrice;
  }

  lemma ParentTerms(t: Trace, labels: Labels, parent: State)
    requires AllTermsSound(t, labels)
    ensures var (life, emitted) := ParentStep(t.life, labels, parent, t.lastChild);
            AllTermsSound(Trace(life, t.log + emitted, t.lastChild), labels)
  {
    hide InvalidationPrice, ConfirmationPrice, TermsSound, ExpectedChildShift;
    var shift := ExpectedChildShift(parent);
    if t.life.pending.Some? {
      RefreshedTerms(t.life.pending.value, parent, labels);
    }
    if shift.Some? {
      NewTerms(labels, t.life.number + 1, parent, t.lastChild);
    }
  }

  lemma ChildTerms(t: Trace, labels: Labels, child: State)
    requires AllTermsSound(t, labels)
    ensures var (life, emitted) := ChildStep(t.life, child);
            AllTermsSound(Trace(life, t.log + emitted, Some(child)), labels)
  {
    hide Verdict;
  }

  lemma {:induction false} RunTerms(labels: Labels, items: seq<Item>)
    ensures AllTermsSound(Run(labels, items), labels)
  {
    hide ParentStep, ChildStep;
    if items != [] {
      var front := items[..|items| - 1];
      RunTerms(labels, front);
      match items[|items| - 1]
      case Parent(state) => ParentTerms(Run(labels, front), labels, state);
      case Child(state) => ChildTerms(Run(labels, front), labels, state);
    }
  }

  // ---------------------------------------------------------------- times and counts

  /** Merge order: by time, a parent before a child at the same time. */
  function ItemKey(item: Item): real {
    (2 * item.state.timestamp + if item.Parent? then 0 else 1) as real
  }

  ghost predicate Chronological(items: seq<Item>) {
    StableSort.Ascending(items, ItemKey)
  }

  /** No requirement resolves before it was created, and nothing is dated after `now`. */
  ghost predicate Timely(life: Life, now: nat) {
    && (life.pending.Some? ==> life.pending.value.createdAt <= now)
    && (forall r :: r in life.resolved ==> r.requirement.createdAt <= r.resolvedAt <= now)
  }

  /** Child states processed while a requirement was pending. */
  function Observed(labels: Labels, items: seq<Item>): nat {
    if items == [] then 0
    else
      var (front, last) := (items[..|items| - 1], items[|items| - 1]);
      Observed(labels, front) + if last.Child? && Run(labels, front).life.pending.Some? then 1 else 0
  }

  function Counted(resolved: seq<Resolution>): nat {
    if resolved == [] then 0 else Counted(resolved[..|resolved| - 1]) + resolved[|resolved| - 1].childrenObserved
  }

  lemma CountedAppend(resolved: seq<Resolution>, r: Resolution)
    ensures Counted(resolved + [r]) == Counted(resolved) + r.childrenObserved
  {
    assert (resolved + [r])[..|resolved|] == resolved;
  }

  lemma ParentTimely(life: Life, labels: Labels, parent: State, childAsOf: Option<State>, now: nat)
    requires Timely(life, now) && now <= parent.timestamp
    requires life.pending.None? ==> life.pendingChildren == 0
    ensures var next := ParentStep(life, labels, parent, childAsOf).0;
            Timely(next, parent.timestamp) && (next.pending.None? ==> next.pendingChildren == 0) &&
            Counted(next.resolved) + next.pendingChildren == Counted(life.resolved) + life.pendingChildren
  {
    hide InvalidationPrice, ConfirmationPrice, ExpectedChildShift, Counted, CarriedEvent, CreatedEvent, Closing;
    var outdated := Outdated(life, parent);
    if outdated.Some? {
      CountedAppend(life.resolved, outdated.value);
    }
  }

  lemma ChildTimely(life: Life, child: State, now: nat)
    requires Timely(life, now) && now <= child.timestamp
    requires life.pending.None? ==> life.pendingChildren == 0
    ensures var next := ChildStep(life, child).0;
            Timely(next, child.timestamp) && (next.pending.None? ==> next.pendingChildren == 0) &&
            Counted(next.resolved) + next.pendingChildren ==
            Counted(life.resolved) + life.pendingChildren + if life.pending.Some? then 1 else 0
  {
    hide Verdict, Counted, Closing;
    if life.pending.Some? {
      var (r, seen) := (life.pending.value, life.pendingChildren + 1);
      var verdict := Verdict(r, child);
      if verdict.Some? {
        CountedAppend(life.resolved, Resolution(r, verdict.value.0, child.timestamp, Some(child.id),
                                                verdict.value.1, seen));
      }
    }
  }

  lemma StartTimely()
    ensures Timely(START.life, 0) && Counted(START.life.resolved) == 0
  {
  }

  /** In a chronological run every requirement resolves at or after its creation, and the child counts
      of the requirements sum to the child states processed while one was pending. */
  lemma {:induction false} RunTimely(labels: Labels, items: seq<Item>)
    requires Chronological(items)
    ensures var life := Run(labels, items).life;
            Timely(life, if items == [] then 0 else items[|items| - 1].state.timestamp) &&
            (life.pending.None? ==> life.pendingChildren == 0) &&
            Counted(life.resolved) + life.pendingChildren == Observed(labels, items)
  {
    hide ParentStep, ChildStep, Timely, Counted;
    if items == [] {
      StartTimely();
    } else {
      var front, last := items[..|items| - 1], items[|items| - 1];
      RunTimely(labels, front);
      var now := if front == [] then 0 else front[|front| - 1].state.timestamp;
      assert front != [] ==> ItemKey(items[|items| - 2]) <= ItemKey(last);
      match last
      case Parent(state) => ParentTimely(Run(labels, front).life, labels, state, Run(labels, front).lastChild, now);
      case Child(state) => ChildTimely(Run(labels, front).life, state, now);
    }
  }

  // ---------------------------------------------------------------- building, and building from a prefix

  function Mark(states: seq<State>, parent: bool): seq<Item> {
    if states == [] then []
    else [if parent then Parent(states[0]) else Child(states[0])] + Mark(states[1..], parent)
  }

  /** Both histories in one chronological list. */
  function Merged(parents: seq<State>, children: seq<State>): seq<Item> {
    StableSort.Sort(Mark(StableSort.Sort(parents, TimeOf), true) +
                    Mark(StableSort.Sort(children, TimeOf), false), ItemKey)
  }

  function FirstTimeframe(states: seq<State>): string {
    if StableSort.Sort(states, TimeOf) == [] then "" else StableSort.Sort(states, TimeOf)[0].timeframe
  }

  function LabelsOf(parents: seq<State>, children: seq<State>): Labels {
    Labels(FirstTimeframe(parents), FirstTimeframe(children))
  }

  /** Both histories start on the same timeframe: refused. */
  predicate Conflicting(parents: seq<State>, children: seq<State>) {
    parents != [] && children != [] && FirstTimeframe(parents) == FirstTimeframe(children)
  }

  function Built(parents: seq<State>, children: seq<State>): Trace {
    Run(LabelsOf(parents, children), Merged(parents, children))
  }

  /** A parent's key at the cut-off is even and below the bound, a child's is the bound. */
  lemma KeyAtCutoff(s: State, cutoff: nat)
    ensures ItemKey(Parent(s)) <= (2 * cutoff + 1) as real <==> TimeOf(s) <= cutoff as real
    ensures ItemKey(Child(s)) <= (2 * cutoff + 1) as real <==> TimeOf(s) <= cutoff as real
  {
  }

  lemma NothingMarked(states: seq<State>, parent: bool, cutoff: nat)
    requires states == []
    ensures Before(states, cutoff) == [] && Mark(states, parent) == []
    ensures StableSort.UpTo(Mark(states, parent), ItemKey, (2 * cutoff + 1) as real) == []
  {
  }

  lemma MarkStep(s: State, states: seq<State>, parent: bool)
    ensures Mark([s] + states, parent) == [if parent then Parent(s) else Child(s)] + Mark(states, parent)
  {
    assert ([s] + states)[1..] == states;
  }

  lemma {:induction false} MarkUpTo(states: seq<State>, parent: bool, cutoff: nat)
    ensures StableSort.UpTo(Mark(states, parent), ItemKey, (2 * cutoff + 1) as real) ==
            Mark(Before(states, cutoff), parent)
  {
    hide ItemKey, TimeOf, StableSort.UpTo, Mark;
    if states == [] {
      NothingMarked(states, parent, cutoff);
    } else {
      var (s, rest) := (states[0], states[1..]);
      assert states == [s] + rest;
      MarkUpTo(rest, parent, cutoff);
      MarkStep(s, rest, parent);
      MarkStep(s, Before(rest, cutoff), parent);
      KeyAtCutoff(s, cutoff);
      StableSort.UpToStep(states, TimeOf, cutoff as real);
      var all := Mark(states, parent);
      assert all[1..] == Mark(rest, parent);
      StableSort.UpToStep(all, ItemKey, (2 * cutoff + 1) as real);
    }
  }

  /** What is merged from the states up to a cut-off is a prefix of what is merged from all. */
  lemma MergedPrefix(parents: seq<State>, children: seq<State>, cutoff: nat)
    ensures Merged(Before(parents, cutoff), Before(children, cutoff)) <= Merged(parents, children)
  {
    hide StableSort.UpTo, StableSort.Sort, Mark;
    var (p, c) := (StableSort.Sort(parents, TimeOf), StableSort.Sort(children, TimeOf));
    StableSort.UpToSort(parents, TimeOf, cutoff as real);
    StableSort.UpToSort(children, TimeOf, cutoff as real);
    MarkUpTo(p, true, cutoff);
    MarkUpTo(c, false, cutoff);
    StableSort.UpToAppend(Mark(p, true), Mark(c, false), ItemKey, (2 * cutoff + 1) as real);
    StableSort.UpToSort(Mark(p, true) + Mark(c, false), ItemKey, (2 * cutoff + 1) as real);
    StableSort.SortSound(Mark(p, true) + Mark(c, false), ItemKey, 0.0);
    StableSort.UpToIsPrefix(Merged(parents, children), ItemKey, (2 * cutoff + 1) as real);
  }

  lemma SameSize<T>(a: seq<T>, b: seq<T>)
    requires multiset(a) == multiset(b)
    ensures |a| == |b|
  {
    assert |multiset(a)| == |a| && |multiset(b)| == |b|;
  }

  lemma FirstStays(states: seq<State>, cutoff: nat)
    ensures Before(states, cutoff) != [] ==>
            states != [] && FirstTimeframe(Before(states, cutoff)) == FirstTimeframe(states)
    ensures Before(states, cutoff) == [] ==> FirstTimeframe(Before(states, cutoff)) == ""
  {
    hide StableSort.UpTo, StableSort.Sort;
    StableSort.UpToSort(states, TimeOf, cutoff as real);
    StableSort.SortSound(states, TimeOf, 0.0);
    StableSort.SortSound(Before(states, cutoff), TimeOf, 0.0);
    StableSort.UpToIsPrefix(StableSort.Sort(states, TimeOf), TimeOf, cutoff as real);
    SameSize(StableSort.Sort(Before(states, cutoff), TimeOf), Before(states, cutoff));
    SameSize(StableSort.Sort(states, TimeOf), states);
  }

  /** With the same labels, the run over a prefix is a prefix of the run. */
  lemma RunPrefix(labels: Labels, some: seq<Item>, all: seq<Item>)
    requires some <= all
    ensures Preserves(Run(labels, some), Run(labels, all))
  {
    hide Preserves, Run;
    RunPreserves(labels, all, |some|, |all|);
    assert all[..|some|] == some && all[..|all|] == all;
  }

  /** The cut-off histories take the labels of the whole ones. */
  predicate SameLabels(parents: seq<State>, children: seq<State>, cutoff: nat) {
    LabelsOf(Before(parents, cutoff), Before(children, cutoff)) == LabelsOf(parents, children)
  }

  /** With at least one parent and one child state before the cut-off the labels agree. */
  lemma LabelsAgree(parents: seq<State>, children: seq<State>, cutoff: nat)
    requires Before(parents, cutoff) != [] && Before(children, cutoff) != []
    ensures SameLabels(parents, children, cutoff)
    ensures Conflicting(Before(parents, cutoff), Before(children, cutoff)) <==> Conflicting(parents, children)
  {
    hide Before, FirstTimeframe;
    FirstStays(parents, cutoff);
    FirstStays(children, cutoff);
  }

  /** Log, resolved list and every requirement's terms, built from the states up to a cut-off, agree
      with what is built from all states. */
  lemma PrefixAgreement(parents: seq<State>, children: seq<State>, cutoff: nat)
    requires SameLabels(parents, children, cutoff)
    ensures Preserves(Built(Before(parents, cutoff), Before(children, cutoff)), Built(parents, children))
  {
    hide Before, FirstTimeframe, Merged, Run, Preserves;
    MergedPrefix(parents, children, cutoff);
    RunPrefix(LabelsOf(parents, children), Merged(Before(parents, cutoff), Before(children, cutoff)),
              Merged(parents, children));
  }

  // ---------------------------------------------------------------- when the labels differ

  predicate Demands(state: State) {
    ExpectedChildShift(state).Some?
  }

  lemma {:induction false} SilentRun(labels: Labels, items: seq<Item>)
    ensures Run(labels, items).log == [] <==>
            forall i :: 0 <= i < |items| && items[i].Parent? ==> !Demands(items[i].state)
    ensures Run(labels, items).log == [] ==> Run(labels, items).life == START.life
  {
    hide ExpectedChildShift, InvalidationPrice, ConfirmationPrice, Verdict;
    if items != [] {
      SilentRun(labels, items[..|items| - 1]);
    }
  }

  lemma {:induction false} MarkMembers(states: seq<State>, parent: bool)
    ensures forall x :: x in Mark(states, parent) <==> x.Parent? == parent && x.state in states
  {
    if states != [] {
      MarkMembers(states[1..], parent);
    }
  }

  lemma MergedMembers(parents: seq<State>, children: seq<State>)
    ensures forall x :: x in Merged(parents, children) <==> x.state in if x.Parent? then parents else children
  {
    hide StableSort.Sort, Mark;
    StableSort.SortMembers(parents, TimeOf);
    StableSort.SortMembers(children, TimeOf);
    MarkMembers(StableSort.Sort(parents, TimeOf), true);
    MarkMembers(StableSort.Sort(children, TimeOf), false);
    StableSort.SortMembers(Mark(StableSort.Sort(parents, TimeOf), true) +
                           Mark(StableSort.Sort(children, TimeOf), false), ItemKey);
  }

  /** The log is empty exactly when no parent state asks for anything. */
  lemma BuiltSilent(parents: seq<State>, children: seq<State>)
    ensures Built(parents, children).log == [] <==> forall p :: p in parents ==> !Demands(p)
  {
    hide Merged, Run, Demands;
    var items := Merged(parents, children);
    SilentRun(LabelsOf(parents, children), items);
    MergedMembers(parents, children);
    if forall p :: p in parents ==> !Demands(p) {
      forall i | 0 <= i < |items| && items[i].Parent? ensures !Demands(items[i].state) {
        assert items[i] in items;
      }
    } else {
      var p :| p in parents && Demands(p);
      assert Parent(p) in items;
    }
  }

  /** The log up to a cut-off is a prefix of the whole log exactly when the labels agree or no parent
      state before the cut-off asks for anything. */
  lemma PrefixAgreementIff(parents: seq<State>, children: seq<State>, cutoff: nat)
    ensures Built(Before(parents, cutoff), Before(children, cutoff)).log <= Built(parents, children).log <==>
            SameLabels(parents, children, cutoff) || forall p :: p in Before(parents, cutoff) ==> !Demands(p)
  {
    hide Before, LabelsOf, Merged, Run, Demands;
    BuiltSilent(Before(parents, cutoff), Before(children, cutoff));
    if SameLabels(parents, children, cutoff) {
      PrefixAgreement(parents, children, cutoff);
    } else {
      var some, all := Built(Before(parents, cutoff), Before(children, cutoff)), Built(parents, children);
      RunTerms(LabelsOf(Before(parents, cutoff), Before(children, cutoff)),
               Merged(Before(parents, cutoff), Before(children, cutoff)));
      RunTerms(LabelsOf(parents, children), Merged(parents, children));
      assert some.log != [] ==> some.log[0] in some.log;
      assert all.log != [] ==> all.log[0] in all.log;
    }
  }

  /** The labels differ exactly when the cut-off leaves no child state, or no parent state, of a
      history whose first timeframe is named. */
  lemma LabelsDiffer(parents: seq<State>, children: seq<State>, cutoff: nat)
    ensures SameLabels(parents, children, cutoff) <==>
            (Before(parents, cutoff) != [] || FirstTimeframe(parents) == "") &&
            (Before(children, cutoff) != [] || FirstTimeframe(children) == "")
  {
    hide Before, FirstTimeframe;
    FirstStays(parents, cutoff);
    FirstStays(children, cutoff);
  }

  lemma OneUpTo(state: State, cutoff: nat)
    ensures Before([state], cutoff) == if state.timestamp <= cutoff then [state] else []
  {
    assert [state][1..] == [] && StableSort.UpTo([state][1..], TimeOf, cutoff as real) == [];
    assert TimeOf([state][0]) == state.timestamp as real;
  }

  lemma SingleFirst(state: State)
    ensures FirstTimeframe([state]) == state.timeframe
  {
    assert [state][..0] == [] && StableSort.Sort([state][..0], TimeOf) == [];
  }

  /** A requirement created before the first child state has no child label yet; the full build names it. */
  lemma LabelsCanDiffer(parent: State, child: State)
    requires Demands(parent) && parent.timestamp < child.timestamp && child.timeframe != ""
    ensures !(Built(Before([parent], parent.timestamp), Before([child], parent.timestamp)).log
              <= Built([parent], [child]).log)
  {
    hide Demands, Built;
    OneUpTo(parent, parent.timestamp);
    OneUpTo(child, parent.timestamp);
    SingleFirst(child);
    LabelsDiffer([parent], [child], parent.timestamp);
    PrefixAgreementIff([parent], [child], parent.timestamp);
    assert parent in [parent];
  }

  lemma MergedChronological(parents: seq<State>, children: seq<State>)
    ensures Chronological(Merged(parents, children))
  {
    hide StableSort.Sort, Mark;
    StableSort.SortSound(Mark(StableSort.Sort(parents, TimeOf), true) + Mark(StableSort.Sort(children, TimeOf), false),
                         ItemKey, 0.0);
  }

  /** Everything above, about what the builder returns. */
  lemma BuiltSound(parents: seq<State>, children: seq<State>)
    ensures var (t, labels, items) := (Built(parents, children), LabelsOf(parents, children),
                                       Merged(parents, children));
            Consistent(t) && AllTermsSound(t, labels) &&
            Timely(t.life, if items == [] then 0 else items[|items| - 1].state.timestamp) &&
            Counted(t.life.resolved) + t.life.pendingChildren == Observed(labels, items)
  {
    hide Consistent, AllTermsSound, Timely, Counted, Observed, Merged, Run, Chronological;
    MergedChronological(parents, children);
    RunConsistent(LabelsOf(parents, children), Merged(parents, children));
    RunTerms(LabelsOf(parents, children), Merged(parents, children));
    RunTimely(LabelsOf(parents, children), Merged(parents, children));
  }

  // ---------------------------------------------------------------- the lifecycle object

  class RequirementLifecycle {
    const labels: Labels
    var pending: Option<Requirement>
    var pendingChildren: nat
    var number: nat
    var events: seq<Event>
    var resolved: seq<Resolution>

    function Value(): Life
      reads this`pending, this`pendingChildren, this`number, this`resolved
    {
      Life(pending, pendingChildren, number, resolved)
    }

    constructor (labels: Labels)
      ensures this.labels == labels && Value() == START.life && events == []
    {
      this.labels := labels;
      pending, pendingChildren, number, events, resolved := None, 0, 0, [], [];
    }

    /** Move the pending requirement to the resolved list. */
    method Resolve(kind: Kind, timestamp: nat, childStateId: Option<string>, detail: Detail) returns (e: Event)
      requires pending.Some?
      modifies this`pending, this`pendingChildren, this`resolved
      ensures var r := Resolution(old(pending).value, kind, timestamp, childStateId, detail, old(pendingChildren));
              Value() == Close(old(Value()), r) && e == Closing(r)
    {
      var requirement := pending.value;
      resolved := resolved + [Resolution(requirement, kind, timestamp, childStateId, detail, pendingChildren)];
      pending, pendingChildren := None, 0;
      e := Event(timestamp, requirement.id, kind, requirement.parentStateId, childStateId, detail);
    }

    method PushParent(parent: State, childAsOf: Option<State>) returns (emitted: seq<Event>)
      modifies this`pending, this`pendingChildren, this`number, this`resolved
      ensures (Value(), emitted) == ParentStep(old(Value()), labels, parent, childAsOf)
    {
      hide ExpectedChildShift, InvalidationPrice, ConfirmationPrice;
      var shift := ExpectedChildShift(parent);
      var expectation := Expectation(parent.trend, shift);
      emitted := [];
      if pending.Some? && pending.value.expectation != expectation {
        var e := Resolve(Superseded, parent.timestamp, None, ExpectationChanged(expectation));
        emitted := [e];
      }
      if shift.None? {
        return;
      }
      if pending.Some? {
        var level := InvalidationPrice(parent);
        if level.Some? && level != pending.value.invalidation {
          pending := Some(pending.value.(invalidation := level));
        }
        emitted := emitted + [Event(parent.timestamp, pending.value.id, Carried, parent.id, None,
                                    Persists(expectation))];
        return;
      }
      number := number + 1;
      var requirement := NewRequirement(labels, number, parent, shift.value, childAsOf);
      pending, pendingChildren := Some(requirement), 0;
      emitted := emitted + [CreatedEvent(requirement, childAsOf)];
    }

    method PushChild(child: State) returns (emitted: seq<Event>)
      modifies this`pending, this`pendingChildren, this`resolved
      ensures (Value(), emitted) == ChildStep(old(Value()), child)
    {
      emitted := [];
      if pending.None? || child.timestamp < pending.value.createdAt {
        return;
      }
      var requirement := pending.value;
      pendingChildren := pendingChildren + 1;
      var kind, detail := Confirmed, TrendShifted(child.trend);
      if Breached(requirement, child) {
        kind, detail := Invalidated, BeyondInvalidation(child.price, requirement.invalidation.value);
      } else if child.trend != requirement.shift {
        if !Crossed(requirement, child) {
          return;
        }
        detail := CrossedConfirmation(child.price, requirement.confirmation.value);
      }
      var e := Resolve(kind, child.timestamp, Some(child.id), detail);
      emitted := [e];
    }
  }

  lemma SortEmpty(states: seq<State>)
    ensures StableSort.Sort(states, TimeOf) == [] <==> states == []
  {
    hide StableSort.Sort;
    StableSort.SortSound(states, TimeOf, 0.0);
    SameSize(StableSort.Sort(states, TimeOf), states);
  }

  /** Merge both histories and play them through one lifecycle; `None` is the refusal. */
  method BuildRequirementLifecycle(parents: seq<State>, children: seq<State>) returns (r: Option<RequirementLifecycle>)
    ensures r.None? <==> Conflicting(parents, children)
    ensures r.Some? ==> fresh(r.value) && r.value.labels == LabelsOf(parents, children) &&
                        r.value.Value() == Built(parents, children).life &&
                        r.value.events == Built(parents, children).log
  {
    hide ParentStep, ChildStep, StableSort.Sort, Mark;
    var p, c := StableSort.Sort(parents, TimeOf), StableSort.Sort(children, TimeOf);
    SortEmpty(parents);
    SortEmpty(children);
    if p != [] && c != [] && p[0].timeframe == c[0].timeframe {
      return None;
    }
    var labels := Labels(if p != [] then p[0].timeframe else "", if c != [] then c[0].timeframe else "");
    var lifecycle := new RequirementLifecycle(labels);
    var merged := StableSort.Sort(Mark(p, true) + Mark(c, false), ItemKey);
    var lastChild: Option<State> := None;
    for i := 0 to |merged|
      invariant Trace(lifecycle.Value(), lifecycle.events, lastChild) == Run(labels, merged[..i])
      invariant lifecycle.labels == labels
    {
      RunStep(labels, merged, i);
      match merged[i] {
        case Parent(state) =>
          var emitted := lifecycle.PushParent(state, lastChild);
          lifecycle.events := lifecycle.events + emitted;
        case Child(state) =>
          var emitted := lifecycle.PushChild(state);
          lifecycle.events := lifecycle.events + emitted;
          lastChild := Some(state);
      }
    }
    assert merged[..|merged|] == merged;
    r := Some(lifecycle);
  }
}
