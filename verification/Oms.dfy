/** The order management system: orders, their lifecycles, and the ledger their fills post to. */
module Oms {
  import opened Common
  import opened Domain
  import opened Ledgers
  import opened Symbols
  import opened Rounding
  import opened OrderLifecycle
  import opened Router

  /** The firewall's verdict on an intent. */
  datatype Decision = Decision(approved: bool, multiplier: real)

  function Share(units: int, multiplier: real): real {
    units as real * multiplier
  }

  /** A sizing multiplier strictly between 0 and 1 shrinks the intent, unless nothing would be left. */
  function Dampened(intent: Intent, multiplier: real): Intent {
    var units := Truncate(Share(intent.units, multiplier));
    if 0.0 < multiplier < 1.0 && 0 < units then intent.(units := units) else intent
  }

  lemma TruncatedDown(x: real)
    ensures 0 < Truncate(x) <==> 1.0 <= x
    ensures 0 < Truncate(x) ==> Truncate(x) as real <= x < Truncate(x) as real + 1.0
  {
  }

  lemma ShareShrinks(units: int, multiplier: real)
    requires 0 < units && 0.0 < multiplier < 1.0
    ensures Share(units, multiplier) < units as real
  {
  }

  lemma DampenedShare(intent: Intent, multiplier: real)
    ensures Dampened(intent, multiplier) == intent.(units := Dampened(intent, multiplier).units)
    ensures var (units, exact) := (Dampened(intent, multiplier).units, Share(intent.units, multiplier));
            if 0.0 < multiplier < 1.0 && 1.0 <= exact then units as real <= exact < units as real + 1.0
            else units == intent.units
    ensures 0 < intent.units ==> 0 < Dampened(intent, multiplier).units <= intent.units
  {
    hide Truncate, Share;
    TruncatedDown(Share(intent.units, multiplier));
    if 0 < intent.units && 0.0 < multiplier < 1.0 {
      ShareShrinks(intent.units, multiplier);
    }
  }

  /** Only the size changes, and only under a multiplier strictly between 0 and 1 that leaves at least one unit:
      to the greatest whole number not above units times multiplier. */
  lemma DampenedBounds(intent: Intent, multiplier: real)
    ensures Dampened(intent, multiplier) == intent.(units := Dampened(intent, multiplier).units)
    ensures var (units, exact) := (Dampened(intent, multiplier).units, intent.units as real * multiplier);
            if 0.0 < multiplier < 1.0 && 1.0 <= exact then units as real <= exact < units as real + 1.0
            else units == intent.units
    ensures 0 < intent.units ==> 0 < Dampened(intent, multiplier).units <= intent.units
  {
    hide Dampened;
    DampenedShare(intent, multiplier);
  }

  /** The order status that goes with a lifecycle stage. */
  function StatusOf(stage: Stage): Option<Status> {
    match stage
    case Submitted => Some(SubmittedStatus)
    case Acked => Some(SubmittedStatus)
    case PartiallyFilled => Some(PartiallyFilledStatus)
    case Filled => Some(FilledStatus)
    case Cancelled => Some(CancelledStatus)
    case Unknown => Some(RejectedStatus)
    case _ => None
  }

  function UnitsFor(fills: seq<Fill>, id: OrderId): int {
    if fills == [] then 0
    else UnitsFor(fills[..|fills| - 1], id) + if fills[|fills| - 1].orderId == id then fills[|fills| - 1].units else 0
  }

  lemma UnitsForAppend(fills: seq<Fill>, f: Fill, id: OrderId)
    ensures UnitsFor(fills + [f], id) == UnitsFor(fills, id) + if f.orderId == id then f.units else 0
  {
    assert (fills + [f])[..|fills|] == fills;
  }

  function AlertsFor(alerts: seq<Alert>, id: OrderId): nat {
    if alerts == [] then 0
    else AlertsFor(alerts[..|alerts| - 1], id) + if alerts[|alerts| - 1].orderId == id then 1 else 0
  }

  lemma AlertsForAppend(alerts: seq<Alert>, a: Alert, id: OrderId)
    ensures AlertsFor(alerts + [a], id) == AlertsFor(alerts, id) + if a.orderId == id then 1 else 0
  {
    assert (alerts + [a])[..|alerts|] == alerts;
  }

  function Positive(x: int): int {
    if x < 0 then 0 else x
  }

  /** An order's counters, status and stage agree with the units received for it. It is filled
      exactly when nothing remains, unless a fill was refused or the order was submitted again. */
  predicate OrderSound(o: Order, stage: Stage, received: int, disturbed: bool) {
    && o.filled == received
    && (0 < o.lot ==> o.remaining == Positive(o.lot - o.filled))
    && StatusOf(stage) == Some(o.status)
    && (0 < o.lot && !disturbed ==> (o.remaining == 0 <==> stage == Filled))
  }

  /** An order's lifecycle as its machine records it. */
  datatype Track = Track(orderId: OrderId, stage: Stage, history: seq<Entry>)

  ghost predicate TrackSound(t: Track) {
    LegalPath(t.history) && t.history[|t.history| - 1].stage == t.stage
  }

  /** The order side of the system: orders, their lifecycles, every fill recorded and every alert
      raised; which intents were submitted again and which orders got a fill their lifecycle refused. */
  datatype Desk = Desk(orders: map<OrderId, Order>, tracks: map<OrderId, Track>, received: seq<Fill>,
                       alerts: seq<Alert>, resubmitted: set<OrderId>, refused: set<OrderId>)

  ghost predicate OrderFits(d: Desk, id: OrderId)
    requires id in d.orders && id in d.tracks
  {
    && d.orders[id].id == id && d.tracks[id].orderId == id && TrackSound(d.tracks[id])
    && OrderSound(d.orders[id], d.tracks[id].stage, UnitsFor(d.received, id), id in d.resubmitted || id in d.refused)
    && (id !in d.resubmitted ==> AlertsFor(d.alerts, id) == Unknowns(d.tracks[id].history))
  }

  /** Every order agrees with its lifecycle, its fills and its alerts. */
  ghost predicate DeskSound(d: Desk) {
    && d.orders.Keys == d.tracks.Keys
    && (forall id :: id in d.orders ==> OrderFits(d, id))
    && (forall f :: f in d.received ==> f.orderId in d.orders)
    && (forall a :: a in d.alerts ==> a.orderId in d.orders)
    && d.resubmitted <= d.orders.Keys && d.refused <= d.orders.Keys
  }

  predicate Accepts(stage: Stage, next: Stage) {
    next == stage || next in LegalTransitions(stage)
  }

  /** The lifecycle moved from one track to the next, with an alert for entering UNKNOWN. */
  ghost predicate Advances(before: Track, after: Track, alert: Option<Alert>) {
    && after.orderId == before.orderId && Accepts(before.stage, after.stage) && TrackSound(after)
    && Unknowns(after.history) == Unknowns(before.history) + (if alert.Some? then 1 else 0)
    && (alert.Some? ==> alert.value.orderId == before.orderId)
  }

  function Raised(alerts: seq<Alert>, alert: Option<Alert>): seq<Alert> {
    alerts + if alert.Some? then [alert.value] else []
  }

  /** One alert more, about order `id`, or none. */
  ghost predicate AlertsAfter(before: seq<Alert>, after: seq<Alert>, id: OrderId, raised: bool) {
    if raised then |after| == |before| + 1 && before <= after && after[|before|].orderId == id else after == before
  }

  lemma RaisedGrows(alerts: seq<Alert>, alert: Option<Alert>, id: OrderId)
    requires alert.Some? ==> alert.value.orderId == id
    ensures AlertsAfter(alerts, Raised(alerts, alert), id, alert.Some?)
  {
  }

  lemma NothingRaised(alerts: seq<Alert>)
    ensures Raised(alerts, None) == alerts
  {
  }

  lemma RaisedFor(alerts: seq<Alert>, alert: Option<Alert>, id: OrderId)
    ensures AlertsFor(Raised(alerts, alert), id) ==
            AlertsFor(alerts, id) + if alert.Some? && alert.value.orderId == id then 1 else 0
  {
    if alert.Some? {
      AlertsForAppend(alerts, alert.value, id);
    } else {
      assert Raised(alerts, alert) == alerts;
    }
  }

  /** The counters after a fill. */
  function Counted(o: Order, f: Fill): Order {
    var filled := o.filled + f.units;
    o.(filled := filled, remaining := Positive(o.lot - filled), averageFill := Some(f.price))
  }

  function FillStatus(o: Order, f: Fill): Status {
    if o.lot - (o.filled + f.units) <= 0 then FilledStatus else PartiallyFilledStatus
  }

  /** The order after a fill its lifecycle accepts. */
  function Accepted(o: Order, f: Fill): Order {
    Counted(o, f).(status := FillStatus(o, f))
  }

  /** The orders after a fill: nothing for an unknown order; counters, and the status if accepted. */
  function FillOrders(orders: map<OrderId, Order>, f: Fill, accepted: bool): map<OrderId, Order> {
    if f.orderId !in orders then orders
    else orders[f.orderId := if accepted then Accepted(orders[f.orderId], f) else Counted(orders[f.orderId], f)]
  }

  function FillStage(o: Order, f: Fill): Stage {
    if o.lot - (o.filled + f.units) <= 0 then Filled else PartiallyFilled
  }

  /** Whether an order's lifecycle accepts the fill, and the stage it then reaches. */
  predicate TakesFill(stage: Option<Stage>, orders: map<OrderId, Order>, f: Fill) {
    stage.Some? && f.orderId in orders && Accepts(stage.value, FillStage(orders[f.orderId], f))
  }

  /** A fill is taken by an order that is submitted, acked or partly filled, and, when it completes the order, by
      one in doubt or filled already. */
  lemma TakesFillExact(stage: Stage, orders: map<OrderId, Order>, f: Fill)
    requires f.orderId in orders
    ensures TakesFill(Some(stage), orders, f) <==>
            stage == Submitted || stage == Acked || stage == PartiallyFilled ||
            (orders[f.orderId].lot <= orders[f.orderId].filled + f.units && (stage == Unknown || stage == Filled))
  {
  }

  /** A fill touches its own order only: it adds its units and sets the price last met, taken or not; the status
      follows what is left, if it was taken. */
  lemma FillMoves(orders: map<OrderId, Order>, f: Fill, accepted: bool, id: OrderId)
    requires id in orders
    ensures FillOrders(orders, f, accepted).Keys == orders.Keys
    ensures var (was, now) := (orders[id], FillOrders(orders, f, accepted)[id]);
            if id != f.orderId then now == was
            else
              now == was.(filled := now.filled, remaining := now.remaining, averageFill := Some(f.price),
                          status := now.status) &&
              now.filled == was.filled + f.units &&
              (if was.lot <= now.filled then now.remaining == 0 else now.remaining == was.lot - now.filled) &&
              (!accepted ==> now.status == was.status) &&
              (accepted ==> now.status == if now.remaining == 0 then FilledStatus else PartiallyFilledStatus)
  {
  }

  function StageWith(orders: map<OrderId, Order>, f: Fill): Option<Stage> {
    if f.orderId in orders then Some(FillStage(orders[f.orderId], f)) else None
  }

  function WithStatus(orders: map<OrderId, Order>, id: OrderId, status: Status): map<OrderId, Order> {
    if id in orders then orders[id := orders[id].(status := status)] else orders
  }

  // ---------------------------------------------------------------- what moves on the desk

  /** An order's lifecycle moves on and the order takes the matching status. */
  function Moved(d: Desk, id: OrderId, t: Track, alert: Option<Alert>): Desk
    requires id in d.orders
  {
    var status := StatusOf(t.stage);
    d.(orders := if status.Some? then d.orders[id := d.orders[id].(status := status.value)] else d.orders,
       tracks := d.tracks[id := t], alerts := Raised(d.alerts, alert))
  }

  lemma FilledIsFinal(next: Stage)
    ensures Accepts(Filled, next) ==> next == Filled
  {
  }

  lemma MovedSound(d: Desk, id: OrderId, t: Track, alert: Option<Alert>)
    requires DeskSound(d) && id in d.orders && Advances(d.tracks[id], t, alert)
    requires StatusOf(t.stage).Some? && t.stage != Filled
    ensures DeskSound(Moved(d, id, t, alert))
  {
    hide UnitsFor, AlertsFor, Unknowns, TrackSound, LegalTransitions;
    var next := Moved(d, id, t, alert);
    FilledIsFinal(t.stage);
    forall other | other in next.orders ensures OrderFits(next, other) {
      assert OrderFits(d, other);
      RaisedFor(d.alerts, alert, other);
    }
  }

  /** A fill moves the counters whether or not the lifecycle then accepts it. */
  function Tallied(d: Desk, f: Fill): Desk
    requires f.orderId in d.orders
  {
    d.(orders := d.orders[f.orderId := Counted(d.orders[f.orderId], f)], received := d.received + [f])
  }

  function Refused(d: Desk, f: Fill): Desk
    requires f.orderId in d.orders
  {
    Tallied(d, f).(refused := d.refused + {f.orderId})
  }

  lemma RefusedSound(d: Desk, f: Fill)
    requires DeskSound(d) && f.orderId in d.orders
    ensures DeskSound(Refused(d, f))
  {
    hide AlertsFor, Unknowns, TrackSound, UnitsFor;
    var next := Refused(d, f);
    forall id | id in next.orders ensures OrderFits(next, id) {
      assert OrderFits(d, id);
      UnitsForAppend(d.received, f, id);
    }
  }

  lemma AcceptedFits(d: Desk, f: Fill, t: Track, alert: Option<Alert>, id: OrderId)
    requires f.orderId in d.orders && f.orderId in d.tracks && Advances(d.tracks[f.orderId], t, alert)
    requires t.stage == FillStage(d.orders[f.orderId], f)
    requires id in d.orders && id in d.tracks && OrderFits(d, id) && OrderFits(d, f.orderId)
    ensures OrderFits(Moved(Tallied(d, f), f.orderId, t, alert), id)
  {
    hide AlertsFor, Unknowns, TrackSound, UnitsFor, LegalTransitions;
    UnitsForAppend(d.received, f, id);
    RaisedFor(d.alerts, alert, id);
  }

  lemma DeskAt(d: Desk, id: OrderId)
    requires DeskSound(d) && id in d.tracks
    ensures id in d.orders && TrackSound(d.tracks[id]) && d.tracks[id].orderId == id && d.orders[id].id == id
  {
    assert OrderFits(d, id);
  }

  lemma AcceptedSound(d: Desk, f: Fill, t: Track, alert: Option<Alert>)
    requires DeskSound(d) && f.orderId in d.orders && Advances(d.tracks[f.orderId], t, alert)
    requires t.stage == FillStage(d.orders[f.orderId], f)
    ensures DeskSound(Moved(Tallied(d, f), f.orderId, t, alert))
  {
    hide OrderFits, TrackSound, FillStage;
    DeskAt(d, f.orderId);
    var next := Moved(Tallied(d, f), f.orderId, t, alert);
    forall id | id in next.orders ensures OrderFits(next, id) {
      AcceptedFits(d, f, t, alert, id);
    }
  }

  /** A freshly routed order enters with nothing filled. */
  function Placed(d: Desk, o: Order, t: Track): Desk {
    d.(orders := d.orders[o.id := o.(status := SubmittedStatus)], tracks := d.tracks[o.id := t])
  }

  ghost predicate JustSubmitted(id: OrderId, t: Track) {
    t.orderId == id && t.stage == Submitted && TrackSound(t) && Unknowns(t.history) == 0
  }

  lemma {:induction false} NoneFor(fills: seq<Fill>, id: OrderId)
    requires forall f :: f in fills ==> f.orderId != id
    ensures UnitsFor(fills, id) == 0
  {
    if fills != [] {
      NoneFor(fills[..|fills| - 1], id);
    }
  }

  lemma {:induction false} NoAlertsFor(alerts: seq<Alert>, id: OrderId)
    requires forall a :: a in alerts ==> a.orderId != id
    ensures AlertsFor(alerts, id) == 0
  {
    if alerts != [] {
      NoAlertsFor(alerts[..|alerts| - 1], id);
    }
  }

  lemma PlacedSound(d: Desk, o: Order, t: Track)
    requires DeskSound(d) && o.id !in d.orders && o.filled == 0 && o.remaining == o.lot && JustSubmitted(o.id, t)
    ensures DeskSound(Placed(d, o, t))
  {
    hide AlertsFor, Unknowns, TrackSound, UnitsFor;
    NoneFor(d.received, o.id);
    NoAlertsFor(d.alerts, o.id);
    var next := Placed(d, o, t);
    forall id | id in next.orders ensures OrderFits(next, id) {
      assert id != o.id ==> OrderFits(d, id);
    }
  }

  /** An intent routed before gives its first order a fresh lifecycle. */
  function Replaced(d: Desk, id: OrderId, t: Track): Desk
    requires id in d.orders
  {
    d.(orders := d.orders[id := d.orders[id].(status := SubmittedStatus)], tracks := d.tracks[id := t],
       resubmitted := d.resubmitted + {id})
  }

  lemma ReplacedSound(d: Desk, id: OrderId, t: Track)
    requires DeskSound(d) && id in d.orders && JustSubmitted(id, t)
    ensures DeskSound(Replaced(d, id, t))
  {
    hide AlertsFor, Unknowns, TrackSound, UnitsFor;
    var next := Replaced(d, id, t);
    forall other | other in next.orders ensures OrderFits(next, other) {
      assert OrderFits(d, other);
    }
  }

  lemma FillStageKnown(o: Order, f: Fill)
    ensures FillStage(o, f) != Unknown
  {
  }

  lemma StatusOfFill(o: Order, f: Fill)
    ensures StatusOf(FillStage(o, f)) == Some(FillStatus(o, f))
  {
  }

  lemma OrderIds(d: Desk, id: OrderId)
    requires DeskSound(d) && id in d.orders
    ensures d.orders[id].id == id
  {
    assert OrderFits(d, id);
  }

  datatype FillResult = UnknownOrder | IllegalTransition | Posted(position: Position)

  ghost function TrackOf(m: OrderStateMachine): Track
    reads m
  {
    Track(m.orderId, m.current, m.history)
  }

  /** A new machine, taken to SUBMITTED. */
  method SubmittedMachine(id: OrderId, now: nat) returns (m: OrderStateMachine)
    ensures fresh(m) && JustSubmitted(id, TrackOf(m))
  {
    hide LegalPath;
    m := new OrderStateMachine(id, id.symbol, Created, now);
    assert m.history[..0] == [];
    var ok, alert := m.TransitionTo(RiskChecked, now, "Risk check passed");
    ok, alert := m.TransitionTo(Submitted, now, "Submitted to router");
  }

  /** Move one machine on: its track advances, or stays if the stage is refused. */
  method StepTrack(m: OrderStateMachine, stage: Stage, timestamp: nat, reason: string)
    returns (ok: bool, alert: Option<Alert>)
    requires TrackSound(TrackOf(m))
    modifies m
    ensures ok <==> Accepts(old(m.current), stage)
    ensures if ok then Advances(old(TrackOf(m)), TrackOf(m), alert) && m.current == stage
            else TrackOf(m) == old(TrackOf(m))
    ensures alert.Some? <==> ok && stage == Unknown && old(m.current) != Unknown
    ensures alert.Some? ==> alert.value.orderId == m.orderId
  {
    hide LegalTransitions, Unknowns, LegalPath;
    ok, alert := m.TransitionTo(stage, timestamp, reason);
  }

  /** Sum one figure over the closed positions. */
  method SumOf(closed: seq<Pos>, f: Pos -> real) returns (r: real)
    ensures r == Sum(closed, f)
  {
    r := 0.0;
    for i := 0 to |closed|
      invariant r == Sum(closed[..i], f)
    {
      assert closed[..i + 1] == closed[..i] + [closed[i]];
      SumAppend(closed[..i], closed[i], f);
      r := r + f(closed[i]);
    }
    assert closed[..|closed|] == closed;
  }

  lemma EquityParts(l: Ledger)
    ensures Equity(l) ==
            l.initial + (Total(l.open, RealizedOf) + Sum(l.closed, RealizedOf)) + Total(l.open, UnrealizedOf)
            - (Total(l.open, CommissionOf) + Sum(l.closed, CommissionOf)) +
                (Total(l.open, SwapOf) + Sum(l.closed, SwapOf))
  {
    hide Total, Sum;
  }

  /** Add up every figure over the positions read out. */
  method EquityFrom(initial: real, open: map<string, Pos>, closed: seq<Pos>, ghost l: Ledger) returns (r: real)
    requires l.initial == initial && l.open == open && l.closed == closed
    ensures r == Equity(l)
  {
    hide Total, Sum, Equity;
    var openRealized := TotalOf(open, RealizedOf);
    var closedRealized := SumOf(closed, RealizedOf);
    var unrealized := TotalOf(open, UnrealizedOf);
    var openCommission := TotalOf(open, CommissionOf);
    var closedCommission := SumOf(closed, CommissionOf);
    var openSwap := TotalOf(open, SwapOf);
    var closedSwap := SumOf(closed, SwapOf);
    r := initial + (openRealized + closedRealized) + unrealized - (openCommission + closedCommission) +
         (openSwap + closedSwap);
    EquityParts(l);
  }

  lemma RepriceIs(l: Ledger, symbol: string, q: Quote)
    requires Sound(l)
    ensures Apply(l, Reprice(symbol, q)) == Requote(l, symbol, q)
  {
  }

  lemma SwapIs(l: Ledger, symbol: string, amount: real)
    requires Sound(l)
    ensures Apply(l, Swap(symbol, amount)) == Finance(l, symbol, amount)
  {
  }

  /** The orders once these clips are placed. */
  function PutAll(orders: map<OrderId, Order>, clips: seq<Order>): map<OrderId, Order> {
    if clips == [] then orders
    else
      var last := clips[|clips| - 1];
      PutAll(orders, clips[..|clips| - 1])[last.id := last.(status := SubmittedStatus)]
  }

  function IdList(clips: seq<Order>): seq<OrderId> {
    if clips == [] then [] else IdList(clips[..|clips| - 1]) + [clips[|clips| - 1].id]
  }

  /** The orders behind some ids, as they were cut, before they were marked submitted. */
  function ClipsOf(orders: map<OrderId, Order>, ids: seq<OrderId>): seq<Order>
    requires forall id :: id in ids ==> id in orders
  {
    if ids == [] then [] else ClipsOf(orders, ids[..|ids| - 1]) + [orders[ids[|ids| - 1]].(status := PendingStatus)]
  }

  lemma PutNone(orders: map<OrderId, Order>, clips: seq<Order>)
    ensures PutAll(orders, clips[..0]) == orders && IdList(clips[..0]) == []
  {
  }

  lemma {:induction false} PutKeys(orders: map<OrderId, Order>, clips: seq<Order>)
    ensures PutAll(orders, clips).Keys == orders.Keys + Ids(clips)
    ensures forall id :: id in IdList(clips) <==> id in Ids(clips)
  {
    if clips != [] {
      var front, last := clips[..|clips| - 1], clips[|clips| - 1];
      PutKeys(orders, front);
      assert clips == front + [last];
      assert Ids(clips) == Ids(front) + {last.id};
    }
  }

  lemma PutStep(orders: map<OrderId, Order>, intent: Intent, clips: seq<Order>, i: nat)
    requires i < |clips| && Slices(intent, clips) && Ids(clips) !! orders.Keys
    ensures PutAll(orders, clips[..i + 1]) ==
            PutAll(orders, clips[..i])[clips[i].id := clips[i].(status := SubmittedStatus)]
    ensures IdList(clips[..i + 1]) == IdList(clips[..i]) + [clips[i].id]
    ensures clips[i].id !in PutAll(orders, clips[..i]) && clips[i].filled == 0 && clips[i].remaining == clips[i].lot
  {
    hide Lots;
    assert clips[..i + 1][..i] == clips[..i];
    PutKeys(orders, clips[..i]);
    assert clips[i] in clips && clips[i].id in Ids(clips);
    forall o | o in clips[..i] ensures o.id != clips[i].id {
      var j :| 0 <= j < i && clips[j] == o;
    }
  }

  lemma {:induction false} PutKeeps(orders: map<OrderId, Order>, clips: seq<Order>)
    ensures forall id :: id in orders && id !in IdList(clips) ==>
              id in PutAll(orders, clips) && PutAll(orders, clips)[id] == orders[id]
  {
    if clips != [] {
      PutKeeps(orders, clips[..|clips| - 1]);
    }
  }

  lemma {:induction false} PutAt(orders: map<OrderId, Order>, clips: seq<Order>, i: nat)
    requires i < |clips| && forall j, k :: 0 <= j < k < |clips| ==> clips[j].id != clips[k].id
    ensures clips[i].id in PutAll(orders, clips) &&
            PutAll(orders, clips)[clips[i].id] == clips[i].(status := SubmittedStatus)
  {
    if i < |clips| - 1 {
      PutAt(orders, clips[..|clips| - 1], i);
    }
  }

  lemma {:induction false} ClipsBack(orders: map<OrderId, Order>, clips: seq<Order>, all: seq<Order>)
    requires clips <= all && forall i, j :: 0 <= i < j < |all| ==> all[i].id != all[j].id
    requires forall i :: 0 <= i < |all| ==> all[i].status == PendingStatus
    ensures |IdList(clips)| == |clips| && forall id :: id in IdList(clips) ==> id in PutAll(orders, all)
    ensures ClipsOf(PutAll(orders, all), IdList(clips)) == clips
  {
    hide PutAll;
    if clips != [] {
      var n := |clips| - 1;
      ClipsBack(orders, clips[..n], all);
      PutAt(orders, all, n);
      assert IdList(clips) == IdList(clips[..n]) + [clips[n].id];
      assert IdList(clips)[..n] == IdList(clips[..n]);
      assert clips == clips[..n] + [clips[n]];
    }
  }

  /** Placing keeps every clip as it was cut. */
  lemma {:induction false} PutAllSound(orders: map<OrderId, Order>, intent: Intent, clips: seq<Order>)
    requires Slices(intent, clips)
    ensures PutAll(orders, clips).Keys == orders.Keys + Ids(clips)
    ensures forall id :: id in IdList(clips) ==> id in PutAll(orders, clips)
    ensures ClipsOf(PutAll(orders, clips), IdList(clips)) == clips
    ensures forall id :: id in orders && id !in IdList(clips) ==> PutAll(orders, clips)[id] == orders[id]
    ensures forall id :: id in PutAll(orders, clips) ==> id in orders || id in IdList(clips)
  {
    hide Lots, ClipsOf;
    PutKeys(orders, clips);
    PutKeeps(orders, clips);
    ClipsBack(orders, clips, clips);
  }

  lemma PaperIsNotLive()
    ensures !Live("PAPER_ENGINE")
  {
    assert |Upper("PAPER_ENGINE")| == 12;
  }

  lemma RunAppend(initial: real, steps: seq<Step>, step: Step)
    ensures Run(initial, steps + [step]) == Apply(Run(initial, steps), step)
  {
    assert (steps + [step])[..|steps|] == steps;
  }

  lemma SameSymbol(l: Ledger, f: Fill)
    requires Sound(l) && f.symbol in l.open
    ensures l.open[f.symbol].symbol == f.symbol && 0 <= l.open[f.symbol].units
  {
  }

  class OrderManagementSystem {
    const router: SmartOrderRouter
    const initialBalance: real
    var balance: real
    var orders: map<OrderId, Order>
    var machines: map<OrderId, OrderStateMachine>
    var openPositions: map<string, Position>
    var closedPositions: seq<Position>
    var fills: map<string, Fill>
    var quotes: map<string, Quote>
    var alerts: seq<Alert>
    /** Every fill recorded, refused ones included. */
    ghost var received: seq<Fill>
    /** The ledger steps that completed. */
    ghost var trail: seq<Step>
    /** Orders whose intent was submitted again. */
    ghost var resubmitted: set<OrderId>
    /** Orders that got a fill their lifecycle refused. */
    ghost var refused: set<OrderId>

    // ---------------------------------------------------------------- ledger side

    ghost function Holdings(): set<Position>
      reads this`openPositions, this`closedPositions
    {
      (set s | s in openPositions :: openPositions[s]) + (set p | p in closedPositions)
    }

    function Values(ps: seq<Position>): seq<Pos>
      reads ps
    {
      if ps == [] then [] else Values(ps[..|ps| - 1]) + [ps[|ps| - 1].Value()]
    }

    ghost function OpenObjects(): set<Position>
      reads this`openPositions
    {
      set s | s in openPositions :: openPositions[s]
    }

    function OpenValues(): map<string, Pos>
      reads this`openPositions, OpenObjects()
    {
      map s | s in openPositions :: openPositions[s].Value()
    }

    /** The ledger the positions spell out. */
    ghost function LedgerValue(): Ledger
      reads this`balance, this`openPositions, this`closedPositions, this`quotes, OpenObjects(), closedPositions
    {
      Ledger(initialBalance, balance, OpenValues(), Values(closedPositions), quotes)
    }

    /** The position is the one now open for the symbol or, closed, the last one settled. */
    ghost predicate Placement(symbol: string, position: Position)
      reads this`openPositions, this`closedPositions, position`isOpen
    {
      if position.isOpen then symbol in openPositions && openPositions[symbol] == position
      else symbol !in openPositions && Last(closedPositions) == Some(position)
    }

    /** The positions still read as they did. */
    ghost predicate KeepsLedger(open: map<string, Pos>, closed: seq<Pos>)
      reads this`openPositions, this`closedPositions, OpenObjects(), closedPositions
    {
      OpenValues() == open && Values(closedPositions) == closed
    }

    ghost predicate PositionsApart()
      reads this`openPositions, this`closedPositions
    {
      && (forall a, b :: a in openPositions && b in openPositions && a != b ==> openPositions[a] != openPositions[b])
      && (forall s :: s in openPositions ==> openPositions[s] !in closedPositions)
    }

    /** The ledger is what the completed steps make of the initial balance. */
    ghost predicate LedgerValid()
      reads this`balance, this`openPositions, this`closedPositions, this`quotes, this`trail, Holdings()
    {
      PositionsApart() && LedgerValue() == Run(initialBalance, trail)
    }

    // ---------------------------------------------------------------- order side

    ghost function Machines(): set<OrderStateMachine>
      reads this`machines
    {
      set id | id in machines :: machines[id]
    }

    function StageOf(id: OrderId): Option<Stage>
      reads this`machines, if id in machines then {machines[id]} else {}
    {
      if id in machines then Some(machines[id].current) else None
    }

    ghost function Tracks(): map<OrderId, Track>
      reads this`machines, Machines()
    {
      map id | id in machines :: TrackOf(machines[id])
    }

    ghost function DeskValue(): Desk
      reads this`orders, this`machines, this`received, this`alerts, this`resubmitted, this`refused, Machines()
    {
      Desk(orders, Tracks(), received, alerts, resubmitted, refused)
    }

    ghost predicate MachinesApart()
      reads this`machines
    {
      forall a, b :: a in machines && b in machines && a != b ==> machines[a] != machines[b]
    }

    ghost predicate OrdersValid()
      reads this`orders, this`machines, this`received, this`alerts, this`resubmitted, this`refused, Machines()
    {
      DeskSound(DeskValue()) && MachinesApart()
    }

    ghost predicate Valid()
      reads this, router, Machines(), Holdings()
    {
      OrdersValid() && LedgerValid() && router.Valid() && router.routed == orders.Keys
    }

    constructor (router: SmartOrderRouter, initialBalance: real)
      requires router.Valid() && router.routed == {}
      ensures Valid() && this.router == router && this.initialBalance == initialBalance
      ensures trail == [] && received == [] && alerts == []
    {
      this.router, this.initialBalance, balance := router, initialBalance, initialBalance;
      orders, machines, openPositions, closedPositions := map[], map[], map[], [];
      fills, quotes, alerts := map[], map[], [];
      received, trail, resubmitted, refused := [], [], {}, {};
    }

    ghost method Note(step: Step)
      modifies this`trail
      ensures trail == old(trail) + [step]
      ensures OpenValues() == old(OpenValues()) && Values(closedPositions) == old(Values(closedPositions))
      ensures Tracks() == old(Tracks())
    {
      trail := trail + [step];
    }

    lemma OpenAt(symbol: string)
      ensures symbol in openPositions <==> symbol in OpenValues()
      ensures symbol in openPositions ==> OpenValues()[symbol] == openPositions[symbol].Value()
    {
    }

    /** A new position; nothing of the system moves while it is made. */
    method NewPosition(f: Fill) returns (position: Position)
      ensures fresh(position) && position.Value() == Opened(f)
      ensures Tracks() == old(Tracks())
      ensures KeepsLedger(old(OpenValues()), old(Values(closedPositions)))
    {
      hide Opened;
      position := new Position(f);
    }

    method Hold(symbol: string, position: Position)
      requires PositionsApart() && position !in Holdings() && symbol !in openPositions
      modifies this`openPositions
      ensures PositionsApart() && openPositions == old(openPositions)[symbol := position]
      ensures OpenValues() == old(OpenValues())[symbol := position.Value()]
      ensures Tracks() == old(Tracks())
      ensures Values(closedPositions) == old(Values(closedPositions))
    {
      openPositions := openPositions[symbol := position];
    }

    method OpenPosition(f: Fill) returns (position: Position)
      requires PositionsApart() && f.symbol !in openPositions
      modifies this`openPositions
      ensures PositionsApart() && fresh(position) && openPositions == old(openPositions)[f.symbol := position]
      ensures position.Value() == Opened(f)
      ensures OpenValues() == old(OpenValues())[f.symbol := Opened(f)]
      ensures Tracks() == old(Tracks())
      ensures Values(closedPositions) == old(Values(closedPositions))
    {
      hide Opened, OpenValues, Values, Tracks;
      position := NewPosition(f);
      Hold(f.symbol, position);
    }

    /** Apply a fill to the open position of its symbol. */
    method AddToPosition(f: Fill, rate: real) returns (position: Position)
      requires PositionsApart() && f.symbol in openPositions
      requires openPositions[f.symbol].symbol == f.symbol && 0 <= openPositions[f.symbol].units
      modifies openPositions[f.symbol]
      ensures position == openPositions[f.symbol] &&
              position.Value() == AfterFill(old(openPositions[f.symbol].Value()), f, rate)
      ensures OpenValues() == old(OpenValues())[f.symbol := position.Value()]
      ensures Tracks() == old(Tracks())
      ensures Values(closedPositions) == old(Values(closedPositions))
    {
      hide AfterFill, Values;
      position := openPositions[f.symbol];
      var ok := position.ApplyFill(f, rate);
    }

    /** Move a position that has closed to the closed list and its net gain to the balance. */
    method Settle(symbol: string)
      requires PositionsApart() && symbol in openPositions
      modifies this`balance, this`openPositions, this`closedPositions
      ensures PositionsApart() && openPositions == old(openPositions) - {symbol}
      ensures closedPositions == old(closedPositions) + [old(openPositions[symbol])]
      ensures OpenValues() == old(OpenValues()) - {symbol}
      ensures Values(closedPositions) == old(Values(closedPositions)) + [old(openPositions[symbol].Value())]
      ensures balance == old(balance) + Net(old(openPositions[symbol].Value()))
      ensures Tracks() == old(Tracks())
    {
      var position := openPositions[symbol];
      balance := balance + (position.realized - position.commission);
      assert (closedPositions + [position])[..|closedPositions|] == closedPositions;
      closedPositions := closedPositions + [position];
      openPositions := openPositions - {symbol};
    }

    /** Attribute a fill to the position of its symbol; a position that closes is settled. */
    method PostFill(f: Fill) returns (position: Position)
      requires LedgerValid()
      modifies this`balance, this`openPositions, this`closedPositions, this`trail
      modifies if f.symbol in openPositions then {openPositions[f.symbol]} else {}
      ensures LedgerValid() && trail == old(trail) + [Trade(f)]
      ensures DeskValue() == old(DeskValue())
      ensures Placement(f.symbol, position)
      ensures position.Value() == FilledPosition(old(LedgerValue()), f)
    {
      hide Run, Sum, AfterFill, Clean, OpenValues, Values, Sound, Apply, Tracks, Net;
      ghost var before := LedgerValue();
      RunAppend(initialBalance, trail, Trade(f));
      TradeIsPost(before, f);
      Note(Trade(f));
      OpenAt(f.symbol);
      if f.symbol !in openPositions {
        position := OpenPosition(f);
        assert LedgerValue() == Post(before, f);
      } else {
        var rate := if Clean(f.symbol) in quotes then quotes[Clean(f.symbol)].rate else 1.0;
        SameSymbol(before, f);
        position := AddToPosition(f, rate);
        if !position.isOpen {
          Settle(f.symbol);
          assert before.open[f.symbol := position.Value()] - {f.symbol} == before.open - {f.symbol};
        }
        assert LedgerValue() == Post(before, f);
      }
    }

    // ---------------------------------------------------------------- orders

    /** Only the machine of `id` moved, so only its track did. */
    twostate lemma OneTrackMoved(id: OrderId)
      requires old(MachinesApart()) && machines == old(machines) && id in machines
      requires forall other :: other in machines && machines[other] != machines[id] ==> unchanged(machines[other])
      ensures id in old(Tracks()) && Tracks() == old(Tracks())[id := TrackOf(machines[id])]
    {
    }

    lemma TrackAt(id: OrderId)
      requires id in machines
      ensures id in Tracks() && Tracks()[id] == TrackOf(machines[id])
      ensures Tracks().Keys == machines.Keys
    {
    }

    /** Move one machine on. */
    method Transition(id: OrderId, stage: Stage, timestamp: nat, reason: string)
      returns (ok: bool, alert: Option<Alert>)
      requires MachinesApart() && id in machines && id in Tracks() && TrackSound(Tracks()[id]) &&
               Tracks()[id].orderId == id
      modifies machines[id]
      ensures id in Tracks() && id in old(Tracks())
      ensures ok <==> Accepts(old(machines[id].current), stage)
      ensures ok ==> Advances(old(Tracks())[id], Tracks()[id], alert) && Tracks()[id].stage == stage
      ensures Tracks() == if ok then old(Tracks())[id := Tracks()[id]] else old(Tracks())
      ensures alert.Some? <==> ok && stage == Unknown && old(machines[id].current) != Unknown
      ensures alert.Some? ==> alert.value.orderId == id
      ensures KeepsLedger(old(OpenValues()), old(Values(closedPositions)))
    {
      hide Accepts, Advances, Tracks, TrackSound, MachinesApart;
      TrackAt(id);
      ok, alert := StepTrack(machines[id], stage, timestamp, reason);
      OneTrackMoved(id);
      TrackAt(id);
    }

    /** Record a reconciliation alert. */
    method Raise(alert: Option<Alert>)
      modifies this`alerts
      ensures alerts == Raised(old(alerts), alert) && Tracks() == old(Tracks())
      ensures KeepsLedger(old(OpenValues()), old(Values(closedPositions)))
    {
      if alert.Some? {
        alerts := alerts + [alert.value];
      }
    }

    /** Move one machine on, and record the alert it may raise. */
    method StepMachine(id: OrderId, stage: Stage, timestamp: nat, reason: string)
      returns (ok: bool, ghost alert: Option<Alert>)
      requires MachinesApart() && id in machines && id in Tracks() && TrackSound(Tracks()[id]) &&
               Tracks()[id].orderId == id
      modifies this`alerts, machines[id]
      ensures id in Tracks() && id in old(Tracks())
      ensures ok <==> Accepts(old(machines[id].current), stage)
      ensures ok ==> Advances(old(Tracks())[id], Tracks()[id], alert) && Tracks()[id].stage == stage
      ensures Tracks() == if ok then old(Tracks())[id := Tracks()[id]] else old(Tracks())
      ensures alerts == if ok then Raised(old(alerts), alert) else old(alerts)
      ensures alert.Some? <==> ok && stage == Unknown && old(machines[id].current) != Unknown
      ensures alert.Some? ==> alert.value.orderId == id
      ensures KeepsLedger(old(OpenValues()), old(Values(closedPositions)))
    {
      hide Accepts, Advances, Tracks, OpenValues, Values, TrackSound, MachinesApart;
      var raised;
      ok, raised := Transition(id, stage, timestamp, reason);
      Raise(raised);
      alert := raised;
    }

    method SetStatus(id: OrderId, status: Status)
      requires id in orders
      modifies this`orders
      ensures DeskValue() == old(DeskValue()).(orders := old(orders)[id := old(orders)[id].(status := status)])
      ensures KeepsLedger(old(OpenValues()), old(Values(closedPositions)))
    {
      orders := orders[id := orders[id].(status := status)];
    }

    /** Move an order's lifecycle on; if that is legal, give the order the matching status. */
    method MoveOrder(id: OrderId, stage: Stage, timestamp: nat, reason: string) returns (ok: bool)
      requires OrdersValid() && id in machines && StatusOf(stage).Some? && stage != Filled
      modifies this`orders, this`alerts, machines[id]
      ensures OrdersValid()
      ensures ok <==> Accepts(old(machines[id].current), stage)
      ensures machines[id].current == if ok then stage else old(machines[id].current)
      ensures AlertsAfter(old(alerts), alerts, id, ok && stage == Unknown && old(machines[id].current) != Unknown)
      ensures orders == if ok then old(orders)[id := old(orders)[id].(status := StatusOf(stage).value)] else old(orders)
      ensures KeepsLedger(old(OpenValues()), old(Values(closedPositions)))
    {
      hide OpenValues, Values, LegalTransitions, StatusOf, DeskSound, Tracks, Advances, TrackSound, Raised;
      ghost var before := DeskValue();
      TrackAt(id);
      DeskAt(before, id);
      ghost var alert;
      ok, alert := StepMachine(id, stage, timestamp, reason);
      RaisedGrows(before.alerts, alert, id);
      TrackAt(id);
      if ok {
        ghost var t := Tracks()[id];
        MovedSound(before, id, t, alert);
        SetStatus(id, StatusOf(stage).value);
      }
    }

    /** Record a fill and move the counters of its order. */
    method Tally(f: Fill)
      requires f.orderId in orders
      modifies this`orders, this`fills, this`received
      ensures DeskValue() == Tallied(old(DeskValue()), f)
      ensures KeepsLedger(old(OpenValues()), old(Values(closedPositions)))
      ensures fills == old(fills)[f.id := f]
    {
      fills := fills[f.id := f];
      received := received + [f];
      orders := orders[f.orderId := Counted(orders[f.orderId], f)];
    }

    ghost method MarkRefused(id: OrderId)
      modifies this`refused
      ensures DeskValue() == old(DeskValue()).(refused := old(refused) + {id})
      ensures KeepsLedger(old(OpenValues()), old(Values(closedPositions)))
    {
      refused := refused + {id};
    }

    /** Update the order's counters and lifecycle for a fill. The counters move even if the lifecycle
        then refuses the fill. */
    method CountFill(f: Fill) returns (ok: bool)
      requires OrdersValid() && f.orderId in machines
      modifies this`orders, this`fills, this`received, this`refused, this`alerts, machines[f.orderId]
      ensures OrdersValid() && f.orderId in orders && f.orderId in old(orders)
      ensures received == old(received) + [f] && fills == old(fills)[f.id := f]
      ensures ok <==> Accepts(old(machines[f.orderId].current), FillStage(old(orders)[f.orderId], f))
      ensures !ok ==> orders == old(orders)[f.orderId := Counted(old(orders)[f.orderId], f)]
      ensures ok ==> orders == old(orders)[f.orderId := Accepted(old(orders)[f.orderId], f)]
      ensures refused == old(refused) + if ok then {} else {f.orderId}
      ensures alerts == old(alerts)
      ensures machines[f.orderId].current == if ok then FillStage(old(orders)[f.orderId], f)
              else old(machines[f.orderId].current)
      ensures KeepsLedger(old(OpenValues()), old(Values(closedPositions)))
    {
      hide OpenValues, Values, LegalTransitions, DeskSound, Tracks, Advances, TrackSound, Raised, FillStage;
      var id := f.orderId;
      ghost var before := DeskValue();
      TrackAt(id);
      DeskAt(before, id);
      var o := orders[id];
      Tally(f);
      ghost var alert;
      ok, alert := StepMachine(id, FillStage(o, f), f.timestamp, "");
      TrackAt(id);
      FillStageKnown(o, f);
      NothingRaised(before.alerts);
      if ok {
        ghost var t := Tracks()[id];
        AcceptedSound(before, f, t, alert);
        StatusOfFill(o, f);
        SetStatus(id, FillStatus(o, f));
      } else {
        RefusedSound(before, f);
        MarkRefused(id);
      }
    }

    /** A new machine; nothing of the system moves while it is made. */
    method NewMachine(id: OrderId, now: nat) returns (m: OrderStateMachine)
      ensures fresh(m) && JustSubmitted(id, TrackOf(m))
      ensures Tracks() == old(Tracks())
      ensures KeepsLedger(old(OpenValues()), old(Values(closedPositions)))
    {
      hide JustSubmitted;
      m := SubmittedMachine(id, now);
    }

    method Install(id: OrderId, m: OrderStateMachine)
      requires MachinesApart() && m !in Machines()
      modifies this`machines
      ensures MachinesApart() && machines == old(machines)[id := m]
      ensures KeepsLedger(old(OpenValues()), old(Values(closedPositions)))
      ensures Tracks() == old(Tracks())[id := TrackOf(m)]
    {
      machines := machines[id := m];
    }

    lemma NotInstalled(m: OrderStateMachine)
      requires forall id :: id in machines ==> machines[id] != m
      ensures m !in Machines()
    {
    }

    method PutOrder(o: Order)
      modifies this`orders
      ensures DeskValue() == old(DeskValue()).(orders := old(orders)[o.id := o])
      ensures KeepsLedger(old(OpenValues()), old(Values(closedPositions)))
    {
      orders := orders[o.id := o];
    }

    /** Record a freshly routed order. */
    method Place(o: Order, now: nat)
      requires OrdersValid() && o.filled == 0 && o.remaining == o.lot && o.id !in orders
      modifies this`orders, this`machines
      ensures OrdersValid() && orders == old(orders)[o.id := o.(status := SubmittedStatus)]
      ensures fresh(Machines() - old(Machines()))
      ensures KeepsLedger(old(OpenValues()), old(Values(closedPositions)))
    {
      hide DeskSound, JustSubmitted, MachinesApart, OpenValues, Values, Tracks;
      ghost var before := DeskValue();
      var m := NewMachine(o.id, now);
      NotInstalled(m);
      Install(o.id, m);
      PlacedSound(before, o, TrackOf(m));
      PutOrder(o.(status := SubmittedStatus));
    }

    ghost method MarkResubmitted(id: OrderId)
      modifies this`resubmitted
      ensures DeskValue() == old(DeskValue()).(resubmitted := old(resubmitted) + {id})
      ensures KeepsLedger(old(OpenValues()), old(Values(closedPositions)))
    {
      resubmitted := resubmitted + {id};
    }

    /** The intent was routed before: its first order gets a fresh machine. */
    method Replace(id: OrderId, now: nat)
      requires OrdersValid() && id in orders
      modifies this`orders, this`machines, this`resubmitted
      ensures OrdersValid() && orders == old(orders)[id := old(orders)[id].(status := SubmittedStatus)]
      ensures resubmitted == old(resubmitted) + {id}
      ensures fresh(Machines() - old(Machines()))
      ensures KeepsLedger(old(OpenValues()), old(Values(closedPositions)))
    {
      hide DeskSound, JustSubmitted, MachinesApart, OpenValues, Values, Tracks;
      ghost var before := DeskValue();
      OrderIds(before, id);
      var m := NewMachine(id, now);
      NotInstalled(m);
      Install(id, m);
      ReplacedSound(before, id, TrackOf(m));
      PutOrder(orders[id].(status := SubmittedStatus));
      MarkResubmitted(id);
    }

    /** Place every clip of a newly routed intent. */
    method PlaceAll(intent: Intent, clips: seq<Order>, now: nat) returns (ids: seq<OrderId>)
      requires OrdersValid() && Slices(intent, clips) && Ids(clips) !! orders.Keys
      modifies this`orders, this`machines
      ensures OrdersValid() && orders == PutAll(old(orders), clips) && ids == IdList(clips)
      ensures fresh(Machines() - old(Machines()))
      ensures KeepsLedger(old(OpenValues()), old(Values(closedPositions)))
    {
      hide OrdersValid, Slices, PutAll, IdList, Ids, OpenValues, Values;
      ids := [];
      PutNone(orders, clips);
      for i := 0 to |clips|
        invariant OrdersValid() && fresh(Machines() - old(Machines()))
        invariant KeepsLedger(old(OpenValues()), old(Values(closedPositions)))
        invariant orders == PutAll(old(orders), clips[..i]) && ids == IdList(clips[..i])
      {
        PutStep(old(orders), intent, clips, i);
        Place(clips[i], now);
        ids := ids + [clips[i].id];
      }
      assert clips[..|clips|] == clips;
    }

    /** Nothing of the orders or the ledger moves while the router decides. */
    method Route(intent: Intent) returns (routing: Routing)
      requires router.Valid()
      modifies router
      ensures DeskValue() == old(DeskValue()) && router.Valid()
      ensures KeepsLedger(old(OpenValues()), old(Values(closedPositions)))
      ensures !routing.Locked?
      ensures routing.Duplicate? <==> ClientOrderId(intent, 0) in old(router.routed)
      ensures routing.Duplicate? ==> routing.first == ClientOrderId(intent, 0)
      ensures routing.Routed? ==> Slices(intent, routing.orders) && Ids(routing.orders) !! old(router.routed)
      ensures router.routed == old(router.routed) + if routing.Routed? then Ids(routing.orders) else {}
    {
      hide Slices, Upper;
      PaperIsNotLive();
      routing := router.RouteIntent(intent, "PAPER_ENGINE");
    }

    /** Route an approved intent. A new intent places all its clips; one routed before only re-submits
        its first order. */
    method SubmitIntent(intent: Intent, decision: Decision, now: nat) returns (ids: seq<OrderId>)
      requires Valid()
      modifies this`orders, this`machines, this`resubmitted, router
      ensures Valid() && trail == old(trail) && received == old(received)
      ensures !decision.approved ==> ids == [] && orders == old(orders)
      ensures forall id :: id in ids ==> id in orders
      ensures var first := ClientOrderId(Dampened(intent, decision.multiplier), 0);
              decision.approved ==>
                if first in old(orders)
                then ids == [first] && orders == old(orders)[first := old(orders)[first].(status := SubmittedStatus)]
                else Slices(Dampened(intent, decision.multiplier), ClipsOf(orders, ids))
      ensures ClientOrderId(Dampened(intent, decision.multiplier), 0) !in old(orders) ==>
                resubmitted == old(resubmitted)
      ensures forall id :: id in old(orders) && id !in ids ==> id in orders && orders[id] == old(orders)[id]
      ensures forall id :: id in orders ==> id in old(orders) || id in ids
      ensures fresh(Machines() - old(Machines()))
    {
      hide Slices, DeskSound, Run, PutAll, IdList, Dampened, OpenValues, Values, Tracks, Ids;
      ids := [];
      if !decision.approved {
        return;
      }
      var adjusted := Dampened(intent, decision.multiplier);
      var routing := Route(adjusted);
      if routing.Duplicate? {
        Replace(routing.first, now);
        ids := [routing.first];
      } else {
        ids := PlaceAll(adjusted, routing.orders, now);
        PutAllSound(old(orders), adjusted, routing.orders);
      }
    }

    lemma SameKeys()
      requires OrdersValid()
      ensures orders.Keys == machines.Keys
    {
    }

    /** Record a fill against its order and post it to the ledger. A fill for an unknown order changes
        nothing; one the order's lifecycle refuses moves the order's counters but not the ledger. */
    method ProcessFill(f: Fill) returns (r: FillResult)
      requires Valid()
      modifies this`orders, this`fills, this`received, this`refused, this`alerts
      modifies this`balance, this`openPositions, this`closedPositions, this`trail
      modifies if f.orderId in machines then {machines[f.orderId]} else {}
      modifies if f.symbol in openPositions then {openPositions[f.symbol]} else {}
      ensures Valid() && alerts == old(alerts)
      ensures r.UnknownOrder? <==> f.orderId !in old(orders)
      ensures orders == FillOrders(old(orders), f, r.Posted?)
      ensures received == old(received) + (if r.UnknownOrder? then [] else [f])
      ensures refused == old(refused) + (if r.IllegalTransition? then {f.orderId} else {})
      ensures trail == old(trail) + (if r.Posted? then [Trade(f)] else [])
      ensures r.Posted? <==> TakesFill(old(StageOf(f.orderId)), old(orders), f)
      ensures StageOf(f.orderId) == if r.Posted? then StageWith(old(orders), f) else old(StageOf(f.orderId))
      ensures r.Posted? ==> Placement(f.symbol, r.position)
      ensures r.Posted? ==> r.position.Value() == FilledPosition(old(LedgerValue()), f)
    {
      hide DeskSound, DeskValue, OpenValues, Values, Run, Accepts, FillStage, Accepted, Counted, MachinesApart,
           PositionsApart, Tracks, Holdings, Sound, FilledPosition, Placement;
      if f.orderId !in orders {
        return UnknownOrder;
      }
      SameKeys();
      var ok := CountFill(f);
      if !ok {
        return IllegalTransition;
      }
      var position := PostFill(f);
      r := Posted(position);
    }

    method MoveKnown(id: OrderId, stage: Stage, now: nat, reason: string) returns (ok: bool)
      requires Valid() && StatusOf(stage).Some? && stage != Filled
      modifies this`orders, this`alerts, if id in machines then {machines[id]} else {}
      ensures Valid() && LedgerValue() == old(LedgerValue()) && orders.Keys == old(machines).Keys
      ensures ok <==> id in old(machines) && Accepts(old(machines[id].current), stage)
      ensures AlertsAfter(old(alerts), alerts, id, ok && stage == Unknown && old(machines[id].current) != Unknown)
      ensures orders == if ok then WithStatus(old(orders), id, StatusOf(stage).value) else old(orders)
    {
      hide DeskSound, Tracks, OpenValues, Values, Run, LegalTransitions, StatusOf;
      SameKeys();
      ok := false;
      if id in machines {
        ok := MoveOrder(id, stage, now, reason);
      }
    }

    method AcknowledgeOrder(id: OrderId, now: nat) returns (ok: bool)
      requires Valid()
      modifies this`orders, this`alerts, if id in machines then {machines[id]} else {}
      ensures Valid() && LedgerValue() == old(LedgerValue())
      ensures ok <==> id in old(machines) && Accepts(old(machines[id].current), Acked)
      ensures orders == if ok then WithStatus(old(orders), id, SubmittedStatus) else old(orders)
    {
      hide DeskSound, Tracks, OpenValues, Values, Run, LegalTransitions;
      ok := MoveKnown(id, Acked, now, "Acknowledged by broker");
    }

    method CancelOrder(id: OrderId, now: nat, reason: string) returns (ok: bool)
      requires Valid()
      modifies this`orders, this`alerts, if id in machines then {machines[id]} else {}
      ensures Valid() && LedgerValue() == old(LedgerValue())
      ensures ok <==> id in old(machines) && Accepts(old(machines[id].current), Cancelled)
      ensures orders == if ok then WithStatus(old(orders), id, CancelledStatus) else old(orders)
    {
      hide DeskSound, Tracks, OpenValues, Values, Run, LegalTransitions;
      ok := MoveKnown(id, Cancelled, now, reason);
    }

    /** An unknown outcome raises a reconciliation alert and shows the order as rejected. */
    method MarkOrderUnknown(id: OrderId, now: nat, reason: string) returns (ok: bool)
      requires Valid()
      modifies this`orders, this`alerts, if id in machines then {machines[id]} else {}
      ensures Valid() && LedgerValue() == old(LedgerValue())
      ensures ok <==> id in old(machines) && Accepts(old(machines[id].current), Unknown)
      ensures AlertsAfter(old(alerts), alerts, id, ok && old(machines[id].current) != Unknown)
      ensures orders == if ok then WithStatus(old(orders), id, RejectedStatus) else old(orders)
    {
      hide DeskSound, Tracks, OpenValues, Values, Run, LegalTransitions;
      ok := MoveKnown(id, Unknown, now, reason);
    }

    method SetQuote(symbol: string, q: Quote)
      modifies this`quotes, this`trail
      ensures quotes == old(quotes)[Clean(symbol) := q] && trail == old(trail) + [Reprice(symbol, q)]
      ensures KeepsLedger(old(OpenValues()), old(Values(closedPositions))) && Tracks() == old(Tracks())
    {
      hide Clean;
      quotes := quotes[Clean(symbol) := q];
      trail := trail + [Reprice(symbol, q)];
    }

    /** Value a long position at the bid and a short one at the ask. */
    method Revalue(key: string, q: Quote)
      requires PositionsApart() && key in openPositions
      modifies openPositions[key]
      ensures key in old(OpenValues()) && Tracks() == old(Tracks()) &&
              Values(closedPositions) == old(Values(closedPositions))
      ensures var p := old(OpenValues())[key];
              OpenValues() == old(OpenValues())[key := Marked(p, if p.side == Buy then q.bid else q.ask, q.rate)]
    {
      hide Marked, Values;
      var position := openPositions[key];
      position.UpdateMarketPrice(if position.side == Buy then q.bid else q.ask, q.rate);
    }

    /** A new quote for a symbol; the open position under the clean symbol is revalued. */
    method UpdateQuotes(symbol: string, q: Quote)
      requires Valid()
      modifies this`quotes, this`trail, if Clean(symbol) in openPositions then {openPositions[Clean(symbol)]} else {}
      ensures Valid() && trail == old(trail) + [Reprice(symbol, q)]
    {
      hide DeskSound, Tracks, OpenValues, Values, Run, Clean, Sound, Marked;
      ghost var before := LedgerValue();
      RunAppend(initialBalance, trail, Reprice(symbol, q));
      RepriceIs(before, symbol, q);
      OpenAt(Clean(symbol));
      SetQuote(symbol, q);
      if Clean(symbol) in openPositions {
        Revalue(Clean(symbol), q);
      }
    }

    method ChargeSwap(symbol: string, amount: real)
      requires PositionsApart() && symbol in openPositions
      modifies openPositions[symbol]
      ensures symbol in old(OpenValues()) && Tracks() == old(Tracks()) &&
              Values(closedPositions) == old(Values(closedPositions))
      ensures var p := old(OpenValues())[symbol];
              OpenValues() == old(OpenValues())[symbol := p.(swap := p.swap + amount)]
    {
      hide Values;
      openPositions[symbol].ApplySwap(amount);
    }

    /** A swap charge or credit on the open position of a symbol, as the swap engine applies it. */
    method ApplySwap(symbol: string, amount: real)
      requires Valid()
      modifies this`trail, if symbol in openPositions then {openPositions[symbol]} else {}
      ensures Valid() && trail == old(trail) + [Swap(symbol, amount)]
    {
      hide DeskSound, Tracks, OpenValues, Values, Run, Sound;
      ghost var before := LedgerValue();
      RunAppend(initialBalance, trail, Swap(symbol, amount));
      SwapIs(before, symbol, amount);
      OpenAt(symbol);
      Note(Swap(symbol, amount));
      if symbol in openPositions {
        ChargeSwap(symbol, amount);
      }
    }

    // ---------------------------------------------------------------- reports

    method GetTotalEquity() returns (r: real)
      requires Valid()
      ensures r == Equity(LedgerValue())
    {
      hide DeskSound, Run, Equity;
      var open, closed := OpenValues(), Values(closedPositions);
      r := EquityFrom(initialBalance, open, closed, LedgerValue());
      assert LedgerValue() == Ledger(initialBalance, balance, open, closed, quotes);
    }
  }

  /** The ledger of any reachable system: balance, commission and equity are conserved. */
  lemma LedgerOfAnyRun(oms: OrderManagementSystem)
    requires oms.Valid()
    ensures var l := oms.LedgerValue();
            Sound(l) && l.initial == oms.initialBalance && TotalCommission(l) == Commissions(oms.trail) &&
            Equity(l) == oms.balance + Total(l.open, Contribution) + Sum(l.closed, SwapOf)
  {
    hide Run, TotalCommission, Equity, Total, Sum, DeskSound;
    CommissionConserved(oms.initialBalance, oms.trail);
    EquityExact(oms.LedgerValue());
  }

  /** Any order of any reachable system: its history is a legal path of at most seven stages, it
      raised at most one alert unless its intent was submitted again, its counters add up to the lot
      exactly while no more than the lot was received, and it is filled exactly when nothing remains
      unless a fill was refused or the intent submitted again. */
  lemma OrderOfAnyRun(oms: OrderManagementSystem, id: OrderId)
    requires oms.Valid() && id in oms.orders && 0 < oms.orders[id].lot
    ensures id in oms.machines
    ensures LegalPath(oms.machines[id].history) && |oms.machines[id].history| <= 7
    ensures id !in oms.resubmitted ==> AlertsFor(oms.alerts, id) <= 1
    ensures var o := oms.orders[id];
            (o.filled + o.remaining == o.lot <==> UnitsFor(oms.received, id) <= o.lot) &&
            (id !in oms.resubmitted && id !in oms.refused ==>
                (o.remaining == 0 <==> oms.machines[id].current == Filled))
  {
    hide Run, LegalPath, Unknowns, UnitsFor, AlertsFor;
    oms.SameKeys();
    oms.TrackAt(id);
    assert OrderFits(oms.DeskValue(), id);
    HistoryBounded(oms.machines[id].history);
  }

  /** A fill the lifecycle refuses still moves the counters: a cancelled order can end with nothing
      remaining and not be filled. */
  lemma RefusedFillCounts(o: Order, f: Fill)
    requires OrderSound(o, Cancelled, o.filled, false) && 0 < o.remaining <= f.units && 0 < o.lot
    ensures !Accepts(Cancelled, FillStage(o, f))
    ensures Counted(o, f).remaining == 0 && Counted(o, f).status == CancelledStatus
  {
  }
}
