/** The order lifecycle: which state may follow which, and the history a machine records. */
module OrderLifecycle {
  import opened Common
  import opened Domain

  datatype Stage = Created | RiskChecked | Submitted | Acked | PartiallyFilled | Filled | Rejected | Cancelled | Expired
                 | Failed | Unknown

  function LegalTransitions(s: Stage): set<Stage> {
    match s
    case Created => {RiskChecked, Rejected, Failed}
    case RiskChecked => {Submitted, Rejected, Cancelled, Failed}
    case Submitted => {Acked, PartiallyFilled, Filled, Rejected, Failed, Unknown}
    case Acked => {PartiallyFilled, Filled, Cancelled, Expired, Failed, Unknown}
    case PartiallyFilled => {PartiallyFilled, Filled, Cancelled, Expired, Unknown}
    case Unknown => {Filled, Cancelled, Failed}
    case _ => {}
  }

  predicate Terminal(s: Stage) {
    s == Filled || s == Rejected || s == Cancelled || s == Expired || s == Failed
  }

  /** Which stages may come before each stage. */
  lemma PredecessorsExact(s: Stage, t: Stage)
    ensures t in LegalTransitions(s) <==>
            match t
            case Created => false
            case RiskChecked => s == Created
            case Submitted => s == RiskChecked
            case Acked => s == Submitted
            case PartiallyFilled => s == Submitted || s == Acked || s == PartiallyFilled
            case Filled => s == Submitted || s == Acked || s == PartiallyFilled || s == Unknown
            case Rejected => s == Created || s == RiskChecked || s == Submitted
            case Cancelled => s == RiskChecked || s == Acked || s == PartiallyFilled || s == Unknown
            case Expired => s == Acked || s == PartiallyFilled
            case Failed => s == Created || s == RiskChecked || s == Submitted || s == Acked || s == Unknown
            case Unknown => s == Submitted || s == Acked || s == PartiallyFilled
  {
  }

  datatype Entry = Entry(stage: Stage, timestamp: nat, reason: string)

  datatype Alert = Alert(orderId: OrderId, symbol: string, previous: Stage, timestamp: nat, reason: string)

  /** Each stage is reached from the one before by a legal transition that changes it. */
  ghost predicate LegalPath(history: seq<Entry>) {
    history != [] &&
    forall i :: 0 < i < |history| ==>
                  history[i].stage in LegalTransitions(history[i - 1].stage) && history[i].stage != history[i - 1].stage
  }

  /** How far along the lifecycle a stage is. */
  function Rank(s: Stage): nat {
    match s
    case Created => 0
    case RiskChecked => 1
    case Submitted => 2
    case Acked => 3
    case PartiallyFilled => 4
    case Unknown => 5
    case _ => 6
  }

  lemma TransitionsClimb(s: Stage, t: Stage)
    requires t in LegalTransitions(s) && t != s
    ensures Rank(s) < Rank(t)
  {
  }

  lemma {:induction false} PathClimbs(history: seq<Entry>, i: nat, j: nat)
    requires LegalPath(history) && i <= j < |history|
    ensures Rank(history[i].stage) + (j - i) <= Rank(history[j].stage)
    decreases j - i
  {
    hide LegalTransitions, Rank;
    if i < j {
      PathClimbs(history, i, j - 1);
      TransitionsClimb(history[j - 1].stage, history[j].stage);
    }
  }

  function Unknowns(history: seq<Entry>): nat {
    if history == [] then 0
    else Unknowns(history[..|history| - 1]) + if history[|history| - 1].stage == Unknown then 1 else 0
  }

  lemma {:induction false} NoUnknown(history: seq<Entry>)
    requires forall i :: 0 <= i < |history| ==> history[i].stage != Unknown
    ensures Unknowns(history) == 0
  {
    if history != [] {
      NoUnknown(history[..|history| - 1]);
    }
  }

  /** Every recorded history has at most seven entries and passes through UNKNOWN at most once; no
      stage repeats, and a terminal stage ends it. */
  lemma {:induction false} HistoryBounded(history: seq<Entry>)
    requires LegalPath(history)
    ensures |history| <= 7 && Unknowns(history) <= 1
    ensures forall i, j :: 0 <= i < j < |history| ==> history[i].stage != history[j].stage
    ensures forall i :: 0 <= i < |history| - 1 ==> !Terminal(history[i].stage)
  {
    forall i, j | 0 <= i < j < |history| ensures history[i].stage != history[j].stage && !Terminal(history[i].stage) {
      PathClimbs(history, i, j);
    }
    PathClimbs(history, 0, |history| - 1);
    var front, last := history[..|history| - 1], history[|history| - 1];
    if front != [] {
      HistoryBounded(front);
      if last.stage == Unknown {
        NoUnknown(front);
      }
    } else {
      assert Unknowns(front) == 0;
    }
  }

  /** The bound is met: a partial fill, an unknown outcome, then its reconciliation. */
  lemma SevenStages(e: Entry)
    ensures LegalPath([e.(stage := Created), e.(stage := RiskChecked), e.(stage := Submitted), e.(stage := Acked),
                       e.(stage := PartiallyFilled), e.(stage := Unknown), e.(stage := Filled)])
  {
  }

  lemma PathAppend(history: seq<Entry>, e: Entry)
    requires LegalPath(history)
    requires e.stage in LegalTransitions(history[|history| - 1].stage) && e.stage != history[|history| - 1].stage
    ensures LegalPath(history + [e])
    ensures Unknowns(history + [e]) == Unknowns(history) + if e.stage == Unknown then 1 else 0
  {
    hide LegalTransitions;
    assert (history + [e])[..|history|] == history;
  }

  class OrderStateMachine {
    const orderId: OrderId
    const symbol: string
    var current: Stage
    var history: seq<Entry>

    ghost predicate Valid()
      reads this
    {
      LegalPath(history) && history[|history| - 1].stage == current
    }

    constructor (orderId: OrderId, symbol: string, initial: Stage, now: nat)
      ensures Valid() && this.orderId == orderId && this.symbol == symbol
      ensures history == [Entry(initial, now, "Initialization")]
    {
      this.orderId, this.symbol, current := orderId, symbol, initial;
      history := [Entry(initial, now, "Initialization")];
    }

    /** Re-affirm the current stage, move to a legal next one, or refuse. Entering UNKNOWN raises an
        alert. */
    method TransitionTo(target: Stage, timestamp: nat, reason: string) returns (ok: bool, alert: Option<Alert>)
      requires Valid()
      modifies this
      ensures Valid()
      ensures ok <==> target == old(current) || target in LegalTransitions(old(current))
      ensures current == if ok then target else old(current)
      ensures history == if ok && target != old(current) then old(history) + [Entry(target, timestamp, reason)]
                         else old(history)
      ensures alert.Some? <==> ok && target == Unknown && old(current) != Unknown
      ensures alert.Some? ==> alert.value.orderId == orderId && alert.value.symbol == symbol &&
                              alert.value.previous == old(current) && alert.value.timestamp == timestamp
      ensures Unknowns(history) == Unknowns(old(history)) + if alert.Some? then 1 else 0
    {
      hide LegalTransitions, Unknowns;
      ok, alert := true, None;
      if current == target {
        return;
      }
      if target !in LegalTransitions(current) {
        return false, None;
      }
      var previous := current;
      current := target;
      PathAppend(history, Entry(target, timestamp, reason));
      history := history + [Entry(target, timestamp, reason)];
      if target == Unknown {
        alert := Some(Alert(orderId, symbol, previous, timestamp,
                            if reason != "" then reason
                            else "Order entered UNKNOWN state (possible connection/broker timeout)"));
      }
    }
  }
}
