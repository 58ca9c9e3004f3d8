/** The restaurant side of the order lifecycle (orders/views.py): accept,
    reject and advance an order of the requester's restaurant, and the
    restaurant's order list. The order table is a map from id to the order
    object; the restaurant table a sequence of rows. */
module RestaurantViews {
  import opened Common
  import opened Restaurants
  import opened Orders
  import opened Lifecycle
  import opened OrderRendering

  /** get_object_or_404(Restaurant, owner=user): owner is a plain foreign
      key, so an owner of two restaurants makes get() raise
      MultipleObjectsReturned, which no view catches. */
  function OwnedRestaurant(restaurants: seq<Restaurant>, user: nat): (r: Lookup<Restaurant>)
    ensures r.Found? ==> r.value in restaurants && r.value.owner == user
    ensures r.Missing? <==> forall i :: 0 <= i < |restaurants| ==> restaurants[i].owner != user
    ensures r.Ambiguous? <==>
      exists i, j :: 0 <= i < j < |restaurants| && restaurants[i].owner == user && restaurants[j].owner == user
  {
    GetOne(restaurants, OwnedBy(user))
  }

  function OwnedBy(user: nat): Restaurant -> bool
  {
    (r: Restaurant) => r.owner == user
  }

  /** The two lookups every restaurant transition starts with: the
      requester's restaurant, then the order with that id of that
      restaurant (404 when either is missing, 500 when the owner has
      several restaurants). */
  function RestaurantOrder(restaurants: seq<Restaurant>, orders: map<nat, Order>, user: nat, orderId: nat): (r: Lookup<Order>)
    reads orders.Values
    ensures r.Found? <==>
      OwnedRestaurant(restaurants, user).Found? && orderId in orders
      && orders[orderId].restaurant == Some(OwnedRestaurant(restaurants, user).value.id)
    ensures r.Found? ==> r.value == orders[orderId]
    ensures r.Ambiguous? <==> OwnedRestaurant(restaurants, user).Ambiguous?
  {
    match OwnedRestaurant(restaurants, user)
    case Missing => Missing
    case Ambiguous => Ambiguous
    case Found(restaurant) =>
      if orderId in orders && orders[orderId].restaurant == Some(restaurant.id) then Found(orders[orderId])
      else Missing
  }

  /** The reply to a failed lookup. */
  function LookupFailure<T>(l: Lookup<T>): (reply: Reply)
    requires !l.Found?
    ensures reply == (if l.Missing? then NotFound else ServerError)
  {
    if l.Missing? then NotFound else ServerError
  }

  /** AcceptOrderView: pending -> accepted, anything else 400. */
  method AcceptOrder(restaurants: seq<Restaurant>, orders: map<nat, Order>, user: nat, orderId: nat)
    returns (reply: Reply)
    modifies Target(orders, orderId)`status
    ensures var l := old(RestaurantOrder(restaurants, orders, user, orderId));
      if l.Found? then
        (reply == Success || reply == BadRequest)
        && Took(old(StateOf(l.value)), StateOf(l.value), RestaurantAccepts, reply == Success)
      else reply == LookupFailure(l)
  {
    var l := RestaurantOrder(restaurants, orders, user, orderId);
    if !l.Found? {
      return LookupFailure(l);
    }
    var order := l.value;
    if order.status == Pending {
      order.status := Accepted;
      reply := Success;
    } else {
      reply := BadRequest;
    }
  }

  /** RejectOrderView: pending -> cancelled, anything else 400. */
  method RejectOrder(restaurants: seq<Restaurant>, orders: map<nat, Order>, user: nat, orderId: nat)
    returns (reply: Reply)
    modifies Target(orders, orderId)`status
    ensures var l := old(RestaurantOrder(restaurants, orders, user, orderId));
      if l.Found? then
        (reply == Success || reply == BadRequest)
        && Took(old(StateOf(l.value)), StateOf(l.value), RestaurantRejects, reply == Success)
      else reply == LookupFailure(l)
  {
    var l := RestaurantOrder(restaurants, orders, user, orderId);
    if !l.Found? {
      return LookupFailure(l);
    }
    var order := l.value;
    if order.status == Pending {
      order.status := Cancelled;
      reply := Success;
    } else {
      reply := BadRequest;
    }
  }

  /** UpdateOrderStatusView: accepted -> preparing, preparing ->
      ready_for_pickup, anything else 400; the saved order is rendered with
      OrderSerializer. */
  method UpdateOrderStatus(restaurants: seq<Restaurant>, orders: map<nat, Order>, user: nat, orderId: nat)
    returns (reply: Reply)
    modifies Target(orders, orderId)`status
    ensures var l := old(RestaurantOrder(restaurants, orders, user, orderId));
      if l.Found? then
        (reply == Success || reply == BadRequest)
        && Took(old(StateOf(l.value)), StateOf(l.value), RestaurantAdvances, reply == Success)
      else reply == LookupFailure(l)
  {
    var l := RestaurantOrder(restaurants, orders, user, orderId);
    if !l.Found? {
      return LookupFailure(l);
    }
    var order := l.value;
    if order.status == Accepted {
      order.status := Preparing;
    } else if order.status == Preparing {
      order.status := ReadyForPickup;
    } else {
      return BadRequest;
    }
    OrderSerializerFieldsResolve();
    reply := RenderOrder(OrderSerializerFields);
  }

  /** The ids of the restaurants the user owns (filter(owner=user)). */
  function OwnedIds(restaurants: seq<Restaurant>, user: nat): (ids: set<nat>)
    ensures forall id :: id in ids <==> exists i :: 0 <= i < |restaurants| && restaurants[i].owner == user && restaurants[i].id == id
  {
    set i | 0 <= i < |restaurants| && restaurants[i].owner == user :: restaurants[i].id
  }

  function BelongsTo(ids: set<nat>): OrderRow -> bool
  {
    (row: OrderRow) => row.restaurant.Some? && row.restaurant.value in ids
  }

  /** RestaurantOrdersView: the orders of every restaurant the user owns,
      each once, newest first. An owner of no restaurant gets an empty
      list. */
  function RestaurantOrders(restaurants: seq<Restaurant>, rows: seq<OrderRow>, user: nat): (r: seq<OrderRow>)
    ensures NewestFirstOrder(r)
    ensures forall row ::
              multiset(r)[row] == if BelongsTo(OwnedIds(restaurants, user))(row) then multiset(rows)[row] else 0
  {
    NewestFirst(Where(rows, BelongsTo(OwnedIds(restaurants, user))))
  }
}
