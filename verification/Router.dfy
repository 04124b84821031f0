/** The order router: clips of at most five standard lots, and one routing per intent. */
module Router {
  import opened Common
  import opened Domain
  import opened Symbols

  datatype Status = PendingStatus | SubmittedStatus | FilledStatus | PartiallyFilledStatus | CancelledStatus
                  | RejectedStatus

  datatype Intent = Intent(id: string, symbol: string, side: Side, orderType: OrderType, units: int,
                           limit: Option<real>, stop: Option<real>, target: Option<real>)

  datatype Order = Order(id: OrderId, lot: int, limit: Option<real>, stop: Option<real>, target: Option<real>,
                         status: Status, filled: int, remaining: int, averageFill: Option<real>)

  const MAX_CLIP_UNITS: int := 500_000

  function ClientOrderId(intent: Intent, slice: nat): OrderId {
    OrderId(intent.id, intent.symbol, intent.side, intent.units, intent.orderType, slice)
  }

  function Clip(intent: Intent, slice: nat, units: int): Order {
    Order(ClientOrderId(intent, slice), units, intent.limit, intent.stop, intent.target, PendingStatus, 0, units, None)
  }

  function Lots(orders: seq<Order>): int {
    if orders == [] then 0 else Lots(orders[..|orders| - 1]) + orders[|orders| - 1].lot
  }

  /** The clips of an intent: numbered from 0, full ones except the last, together the whole intent. */
  ghost predicate Slices(intent: Intent, orders: seq<Order>) {
    && orders != []
    && (forall i :: 0 <= i < |orders| ==> orders[i] == Clip(intent, i, orders[i].lot))
    && (forall i :: 0 <= i < |orders| - 1 ==> orders[i].lot == MAX_CLIP_UNITS)
    && orders[|orders| - 1].lot <= MAX_CLIP_UNITS
    && (|orders| > 1 ==> 0 < orders[|orders| - 1].lot)
    && Lots(orders) == intent.units
  }

  /** Cut an intent into clips. */
  method SliceIntent(intent: Intent) returns (orders: seq<Order>)
    ensures Slices(intent, orders)
  {
    if intent.units <= MAX_CLIP_UNITS {
      orders := [Clip(intent, 0, intent.units)];
      assert orders[..0] == [];
      return;
    }
    var remaining := intent.units;
    orders := [];
    while remaining > 0
      invariant 0 <= remaining <= intent.units && Lots(orders) + remaining == intent.units
      invariant forall i :: 0 <= i < |orders| ==> orders[i] == Clip(intent, i, orders[i].lot)
      invariant forall i :: 0 <= i < |orders| - 1 ==> orders[i].lot == MAX_CLIP_UNITS
      invariant orders != [] ==> 0 < orders[|orders| - 1].lot <= MAX_CLIP_UNITS
      invariant orders != [] && remaining > 0 ==> orders[|orders| - 1].lot == MAX_CLIP_UNITS
      invariant orders == [] ==> remaining == intent.units
    {
      var chunk := if remaining <= MAX_CLIP_UNITS then remaining else MAX_CLIP_UNITS;
      var order := Clip(intent, |orders|, chunk);
      assert (orders + [order])[..|orders|] == orders;
      orders := orders + [order];
      remaining := remaining - chunk;
    }
  }

  lemma {:induction false} LotsOfFull(orders: seq<Order>)
    requires forall i :: 0 <= i < |orders| ==> orders[i].lot == MAX_CLIP_UNITS
    ensures Lots(orders) == |orders| * MAX_CLIP_UNITS
  {
    if orders != [] {
      LotsOfFull(orders[..|orders| - 1]);
    }
  }

  /** The number of clips is the least that holds the intent, and no two clips share an id. */
  lemma SliceCount(intent: Intent, orders: seq<Order>)
    requires Slices(intent, orders) && 0 < intent.units
    ensures (|orders| - 1) * MAX_CLIP_UNITS < intent.units <= |orders| * MAX_CLIP_UNITS
    ensures forall i, j :: 0 <= i < j < |orders| ==> orders[i].id != orders[j].id
  {
    LotsOfFull(orders[..|orders| - 1]);
  }

  /** A fresh clip is unfilled and pending and keeps the intent's limit, stop and target. */
  lemma ClipsCarry(intent: Intent, orders: seq<Order>, i: nat)
    requires Slices(intent, orders) && i < |orders|
    ensures orders[i].id == OrderId(intent.id, intent.symbol, intent.side, intent.units, intent.orderType, i)
    ensures (orders[i].limit, orders[i].stop, orders[i].target) == (intent.limit, intent.stop, intent.target)
    ensures orders[i].filled == 0 && orders[i].remaining == orders[i].lot
    ensures orders[i].status == PendingStatus && orders[i].averageFill == None
  {
    assert orders[i] == Clip(intent, i, orders[i].lot);
  }

  predicate Live(destination: string) {
    Upper(destination) in ["LIVE", "BROKER_LIVE", "MT5_LIVE"]
  }

  /** Locked: a live destination while live routing is off. Duplicate: the intent was routed before;
      only its first order comes back. */
  datatype Routing = Locked | Duplicate(first: OrderId) | Routed(orders: seq<Order>)

  function Ids(orders: seq<Order>): set<OrderId> {
    set o | o in orders :: o.id
  }

  lemma SliceIds(intent: Intent, orders: seq<Order>)
    requires Slices(intent, orders)
    ensures forall id :: id in Ids(orders) ==> id.(slice := 0) == ClientOrderId(intent, 0)
    ensures ClientOrderId(intent, 0) in Ids(orders)
  {
    forall id | id in Ids(orders) ensures id.(slice := 0) == ClientOrderId(intent, 0) {
      var o :| o in orders && o.id == id;
      var i :| 0 <= i < |orders| && orders[i] == o;
    }
    assert orders[0] in orders && orders[0].id == ClientOrderId(intent, 0);
  }

  class SmartOrderRouter {
    const allowLive: bool
    /** Ids of the orders handed out; an order keeps its identity through its id. */
    var routed: set<OrderId>

    /** The clips of an intent are handed out together. */
    ghost predicate Valid()
      reads this
    {
      forall id :: id in routed ==> id.(slice := 0) in routed
    }

    constructor (allowLive: bool)
      ensures Valid() && this.allowLive == allowLive && routed == {}
    {
      this.allowLive, routed := allowLive, {};
    }

    method RouteIntent(intent: Intent, destination: string) returns (r: Routing)
      requires Valid()
      modifies this
      ensures Valid()
      ensures r.Locked? <==> Live(destination) && !allowLive
      ensures r.Duplicate? <==> !r.Locked? && ClientOrderId(intent, 0) in old(routed)
      ensures r.Duplicate? ==> r.first == ClientOrderId(intent, 0)
      ensures r.Routed? ==> Slices(intent, r.orders)
      ensures routed == old(routed) + if r.Routed? then Ids(r.orders) else {}
      ensures r.Routed? ==> Ids(r.orders) !! old(routed)
    {
      if Live(destination) && !allowLive {
        return Locked;
      }
      var first := ClientOrderId(intent, 0);
      if first in routed {
        return Duplicate(first);
      }
      var orders := SliceIntent(intent);
      SliceIds(intent, orders);
      routed := routed + Ids(orders);
      r := Routed(orders);
    }
  }
}
