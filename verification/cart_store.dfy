/**
  The CartProvider state container of context/CartContext.js: four state
  slots that its operations replace one after another. Each state setter
  call becomes an assignment of the matching field, through the updater
  functions of CartLines and Orders. The deferred "Shipped" update is the
  method ShipOrder, which a caller runs once for each order that
  PlaceOrder scheduled it for; the ghost field pendingShipments records
  those scheduled callbacks.
*/
module CartStore {
  import opened CartTypes
  import opened CartLines
  import opened OrderIds
  import opened Orders

  class Store {
    var cartItems: seq<CartItem>
    /** Newest first. */
    var orders: seq<Order>
    var latestOrder: Option<Order>
    var savedAddress: Option<Address>
    /** Ids of placed orders whose deferred "Shipped" update has not run yet. */
    ghost var pendingShipments: multiset<string>

    /**
      The store's invariant: the cart is well formed, and a scheduled update
      has a latest order to rewrite.
    */
    ghost predicate Valid()
      reads this
    {
      && WellFormed(cartItems)
      && (pendingShipments != multiset{} ==> latestOrder.Some?)
    }

    /** The latest-order slot shows the newest entry of the history. */
    ghost predicate LatestShowsNewest()
      reads this
    {
      LatestIsNewest(orders, latestOrder)
    }

    constructor ()
      ensures Valid() && LatestShowsNewest()
      ensures cartItems == [] && orders == [] && latestOrder == None && savedAddress == None
      ensures pendingShipments == multiset{}
    {
      cartItems := [];
      orders := [];
      latestOrder := None;
      savedAddress := None;
      pendingShipments := multiset{};
    }

    /** addToCart: one more unit of the variant, in its existing line or a new last line. */
    method AddToCart(product: Product, size: string, color: string)
      requires Valid()
      modifies this`cartItems
      ensures Valid()
      ensures cartItems == AddLine(old(cartItems), product, size, color)
      ensures TotalItems(cartItems) == old(TotalItems(cartItems)) + 1
      ensures QuantityOf(cartItems, ItemKey(product.id, size, color))
           == old(QuantityOf(cartItems, ItemKey(product.id, size, color))) + 1
    {
      AddLinePreservesWellFormed(cartItems, product, size, color);
      AddLineTotalItems(cartItems, product, size, color);
      AddLineQuantityOf(cartItems, product, size, color, ItemKey(product.id, size, color));
      cartItems := AddLine(cartItems, product, size, color);
    }

    /** removeFromCart: drop the lines with the id; nothing happens when there is none. */
    method RemoveFromCart(itemId: string)
      requires Valid()
      modifies this`cartItems
      ensures Valid()
      ensures cartItems == RemoveLines(old(cartItems), itemId)
      ensures !HasKey(cartItems, itemId)
      ensures TotalItems(cartItems) == old(TotalItems(cartItems) - QuantityOf(cartItems, itemId))
    {
      RemovePreservesWellFormed(cartItems, itemId);
      RemoveLinesNoKey(cartItems, itemId);
      RemoveTotalItems(cartItems, itemId);
      cartItems := RemoveLines(cartItems, itemId);
    }

    /** updateQuantity: remove at zero or below, otherwise set the line's quantity outright. */
    method UpdateQuantity(itemId: string, newQuantity: int)
      requires Valid()
      modifies this`cartItems
      ensures Valid()
      ensures cartItems == UpdateLines(old(cartItems), itemId, newQuantity)
      ensures newQuantity > 0 ==> QuantityOf(cartItems, itemId) == if old(HasKey(cartItems, itemId)) then newQuantity else 0
    {
      if newQuantity <= 0 {
        RemoveFromCart(itemId);
        return;
      }
      UpdatePreservesWellFormed(cartItems, itemId, newQuantity);
      var i := FindIndex(cartItems, itemId);
      if i >= 0 {
        UpdatePresent(cartItems, itemId, newQuantity, i);
      } else {
        UpdateAbsent(cartItems, itemId, newQuantity);
        QuantityOfAbsent(cartItems, itemId);
      }
      cartItems := SetQuantity(cartItems, itemId, newQuantity);
      if i >= 0 {
        QuantityOfPresent(cartItems, itemId, i);
      }
    }

    method ClearCart()
      requires Valid()
      modifies this`cartItems
      ensures Valid()
      ensures cartItems == []
    {
      cartItems := [];
    }

    /** getTotalItems: at least one unit per line, and 0 exactly when the cart is empty. */
    function GetTotalItems(): (n: int)
      reads this
      requires Valid()
      ensures n >= |cartItems|
      ensures n == 0 <==> cartItems == []
    {
      TotalItemsAtLeastLines(cartItems);
      TotalItems(cartItems)
    }

    /** getTotalPrice, in cents: never negative and at least the price of any one line. */
    function GetTotalPrice(): (cents: int)
      reads this
      requires Valid()
      ensures cents >= 0
      ensures cartItems == [] ==> cents == 0
      ensures forall i :: 0 <= i < |cartItems| ==> LineTotal(cartItems[i]) <= cents
    {
      TotalPriceCoversLines(cartItems);
      TotalPrice(cartItems)
    }

    /**
      placeOrder. On an empty cart nothing changes and there is no order.
      Otherwise the address (when given) is saved, an order of the cart's
      contents with status Processing goes to the head of the history and
      into the latest-order slot, the cart is emptied and the deferred
      "Shipped" update for the order's id is scheduled.
    */
    method PlaceOrder(address: Option<Address>, now: nat, date: string, estimatedDelivery: string)
      returns (placed: Option<Order>)
      requires Valid()
      modifies this
      ensures Valid()
      ensures |old(cartItems)| == 0 ==> placed == None && unchanged(this)
      ensures 0 < |old(cartItems)| ==>
        && placed == Some(Order(OrderIdAt(now), old(cartItems), TotalWithTax(TotalPrice(old(cartItems))),
                                date, Processing, estimatedDelivery, address))
        && orders == [placed.value] + old(orders)
        && latestOrder == placed
        && cartItems == []
        && savedAddress == (if address.Some? then address else old(savedAddress))
        && pendingShipments == old(pendingShipments) + multiset{placed.value.id}
      ensures 0 < |old(cartItems)| ==> LatestIsNewest(orders, latestOrder)
    {
      if |cartItems| == 0 {
        return None;
      }
      if address.Some? {
        savedAddress := address;
      }
      var orderId := OrderIdAt(now);
      var total := TotalWithTax(TotalPrice(cartItems));
      var order := Order(orderId, cartItems, total, date, Processing, estimatedDelivery, address);
      placed := Some(order);
      PlacedIsNewest(orders, order);
      orders := [order] + orders;
      latestOrder := placed;
      cartItems := [];
      pendingShipments := pendingShipments + multiset{orderId};
    }

    /**
      The deferred update as written: the history entries with the order's
      id become Shipped, and the latest-order slot becomes Shipped whichever
      order it holds.
    */
    method ShipOrder(orderId: string)
      requires Valid()
      requires orderId in pendingShipments
      modifies this`orders, this`latestOrder, this`pendingShipments
      ensures Valid()
      ensures orders == ShipInHistory(old(orders), orderId)
      ensures latestOrder == Some(ShipLatestBlind(old(latestOrder).value))
      ensures pendingShipments == old(pendingShipments) - multiset{orderId}
    {
      latestOrder := Some(ShipLatestBlind(latestOrder.value));
      orders := ShipInHistory(orders, orderId);
      pendingShipments := pendingShipments - multiset{orderId};
    }

    /**
      The deferred update matched by id in both places: only the order it
      was scheduled for becomes Shipped, so the latest-order slot keeps
      showing the newest history entry.
    */
    method ShipOrderById(orderId: string)
      requires Valid()
      requires orderId in pendingShipments
      modifies this`orders, this`latestOrder, this`pendingShipments
      ensures Valid()
      ensures orders == ShipInHistory(old(orders), orderId)
      ensures latestOrder == Some(ShipLatest(old(latestOrder).value, orderId))
      ensures pendingShipments == old(pendingShipments) - multiset{orderId}
      ensures old(LatestShowsNewest()) ==> LatestShowsNewest()
    {
      if LatestShowsNewest() {
        ShipLatestKeepsNewest(orders, latestOrder, orderId);
      }
      latestOrder := Some(ShipLatest(latestOrder.value, orderId));
      orders := ShipInHistory(orders, orderId);
      pendingShipments := pendingShipments - multiset{orderId};
    }
  }

  /** A client of the store: the same variant added twice is one line of quantity 2. */
  method AddTwiceScenario(shoe: Product)
    requires shoe.price == 2000
  {
    var store := new Store();
    store.AddToCart(shoe, "9", "1");
    store.AddToCart(shoe, "9", "1");
    assert store.cartItems == [CartItem(ItemKey(shoe.id, "9", "1"), shoe, "9", "1", 2)];
    assert store.GetTotalItems() == 2;
    SumAppend([], store.cartItems[0], LineTotal);
    assert [] + [store.cartItems[0]] == store.cartItems;
    assert store.GetTotalPrice() == 4000;
  }

  /**
    A client of the store: an order is pending and a second one, with a
    different id, is placed; then the first one's deferred update runs.
    The latest-order slot now shows the second order as Shipped while its
    history entry still says Processing.
  */
  method SecondOrderScenario(store: Store, now: nat)
    requires store.Valid() && 0 < |store.cartItems|
    requires 0 < |store.orders| && store.orders[0].id in store.pendingShipments
    requires store.orders[0].id != OrderIdAt(now)
    modifies store
  {
    var first := store.orders[0];
    ghost var pending := store.pendingShipments;
    var second := store.PlaceOrder(None, now, "", "");
    assert store.orders[1] == first;
    assert pending <= store.pendingShipments;
    store.ShipOrder(first.id);
    assert store.orders[0] == second.value && store.latestOrder.value.status == Shipped;
    assert !store.LatestShowsNewest();
  }

  /** The same steps with the update matched by id: the newer order stays Processing everywhere. */
  method SecondOrderShippedById(store: Store, now: nat)
    requires store.Valid() && 0 < |store.cartItems|
    requires 0 < |store.orders| && store.orders[0].id in store.pendingShipments
    requires store.orders[0].id != OrderIdAt(now)
    modifies store
  {
    var first := store.orders[0];
    ghost var pending := store.pendingShipments;
    var second := store.PlaceOrder(None, now, "", "");
    assert store.orders[1] == first;
    assert pending <= store.pendingShipments;
    store.ShipOrderById(first.id);
    assert store.orders[1].status == Shipped;
    assert store.latestOrder == second;
  }
}
