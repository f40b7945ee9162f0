/**
  The pure half of placing and shipping orders: the order placeOrder builds
  from the cart, and the two updaters the deferred callback applies, one to
  the order history and one to the latest-order slot.
*/
module Orders {
  import opened CartTypes
  import opened OrderIds

  /**
    The subtotal times 1.1, in mills: a subtotal of c cents is c/100 dollars,
    and 1.1 * c/100 dollars is 11 * c mills.
  */
  function TotalWithTax(subtotalCents: int): int
  {
    11 * subtotalCents
  }

  predicate HasOrder(orders: seq<Order>, id: string)
  {
    exists j :: 0 <= j < |orders| && orders[j].id == id
  }

  function MarkShipped(o: Order): Order
  {
    o.(status := Shipped)
  }

  /**
    The history updater of the deferred callback: every order whose id is the
    placed order's id becomes Shipped; all others stay as they are.
  */
  function ShipInHistory(orders: seq<Order>, id: string): (r: seq<Order>)
    ensures |r| == |orders|
    ensures forall j :: 0 <= j < |orders| ==>
      r[j] == if orders[j].id == id then orders[j].(status := Shipped) else orders[j]
  {
    if orders == [] then []
    else
      var n := |orders| - 1;
      ShipInHistory(orders[..n], id) + [if orders[n].id == id then MarkShipped(orders[n]) else orders[n]]
  }

  /** Shipping keeps every id, so every order stays findable. */
  lemma ShipKeepsOrders(orders: seq<Order>, id: string, other: string)
    ensures HasOrder(ShipInHistory(orders, id), other) <==> HasOrder(orders, other)
  {
    var r := ShipInHistory(orders, id);
    assert forall j :: 0 <= j < |orders| ==> r[j].id == orders[j].id;
  }

  /** A callback that runs twice has the effect of running once. */
  lemma ShipIdempotent(orders: seq<Order>, id: string)
    ensures ShipInHistory(ShipInHistory(orders, id), id) == ShipInHistory(orders, id)
  {
    var r := ShipInHistory(orders, id);
    var rr := ShipInHistory(r, id);
    assert forall j :: 0 <= j < |orders| ==> rr[j] == r[j];
  }

  /** Two pending callbacks give the same history whichever fires first. */
  lemma ShipCommutes(orders: seq<Order>, a: string, b: string)
    ensures ShipInHistory(ShipInHistory(orders, a), b) == ShipInHistory(ShipInHistory(orders, b), a)
  {
    var ab := ShipInHistory(ShipInHistory(orders, a), b);
    var ba := ShipInHistory(ShipInHistory(orders, b), a);
    assert forall j :: 0 <= j < |orders| ==> ab[j] == ba[j];
  }

  /**
    Ids repeat every 1,000,000 ms, and the history update marks every entry
    carrying its id. So the callback of an order placed at `now + 1000000`
    also marks the entry of an order placed at `now`, which its own callback
    marked Shipped long before. Two orders that are pending at the same time
    with the same id would need clock readings that agree modulo 10^6 within
    the 5 s delay, that is, the same millisecond.
  */
  lemma CollidingIdsShipTogether(orders: seq<Order>, now: nat, k: int)
    requires 100000 <= now
    requires 0 <= k < |orders| && orders[k].id == OrderIdAt(now)
    ensures ShipInHistory(orders, OrderIdAt(now + 1000000))[k].status == Shipped
  {
    OrderIdRepeats(now);
  }

  /**
    The latest-order updater as the callback writes it: the status becomes
    Shipped whatever order the slot holds by then.
  */
  function ShipLatestBlind(latest: Order): (r: Order)
    ensures r.status == Shipped
    ensures r.(status := latest.status) == latest
  {
    MarkShipped(latest)
  }

  /**
    The latest-order updater matched by id: only the order the callback was
    scheduled for becomes Shipped.
  */
  function ShipLatest(latest: Order, id: string): (r: Order)
    ensures r.status == (if latest.id == id then Shipped else latest.status)
    ensures r.(status := latest.status) == latest
  {
    if latest.id == id then MarkShipped(latest) else latest
  }

  /** The latest-order slot holds the head of the history (or nothing, with no history). */
  predicate LatestIsNewest(orders: seq<Order>, latest: Option<Order>)
  {
    if |orders| == 0 then latest == None else latest == Some(orders[0])
  }

  /** Placing an order makes it both the newest history entry and the latest one. */
  lemma PlacedIsNewest(orders: seq<Order>, o: Order)
    ensures LatestIsNewest([o] + orders, Some(o))
  {
    assert ([o] + orders)[0] == o;
  }

  /** Shipping matched by id keeps the latest-order slot equal to the newest history entry. */
  lemma ShipLatestKeepsNewest(orders: seq<Order>, latest: Option<Order>, id: string)
    requires LatestIsNewest(orders, latest)
    ensures LatestIsNewest(ShipInHistory(orders, id), if latest.Some? then Some(ShipLatest(latest.value, id)) else None)
  {
  }

  /**
    Shipping the latest slot blindly does not: with a newer order O2 ahead of
    O1 in the history, O1's callback marks the slot Shipped while the history
    still shows O2 as Processing.
  */
  lemma BlindShipBreaksNewest()
    ensures var o1 := Order("ORD000001", [], 0, "", Processing, "", None);
      var o2 := Order("ORD000002", [], 0, "", Processing, "", None);
      && LatestIsNewest([o2, o1], Some(o2))
      && !LatestIsNewest(ShipInHistory([o2, o1], o1.id), Some(ShipLatestBlind(o2)))
  {
    var o1 := Order("ORD000001", [], 0, "", Processing, "", None);
    var o2 := Order("ORD000002", [], 0, "", Processing, "", None);
    assert ShipInHistory([o2, o1], o1.id)[0] == o2;
  }
}
