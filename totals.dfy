/** Order totals and the payout split of orders/services.py:
    calculate_order_totals and create_order_with_calculations. */
module Totals {
  import opened Common
  import opened Accounts
  import opened Restaurants
  import opened DeliveryFees
  import opened Orders

  /** One entry of items_data: the dish id read with item.get('menu'), so
      possibly absent, and the quantity. */
  datatype CartLine = CartLine(menu: Option<nat>, quantity: nat)

  /** The fee settings: restaurant commission, client service fee percentage
      and the service fee's floor and ceiling. */
  datatype FeeSettings = FeeSettings(
    restaurantCommissionPercent: real,
    serviceFeePercent: real,
    minServiceFee: real,
    maxServiceFee: real)

  /** Their values when the environment sets none. */
  const DefaultSettings: FeeSettings := FeeSettings(20.0, 5.0, 100.0, 300.0)

  /** The dict calculate_order_totals returns. */
  datatype Totals = Totals(itemsTotalPrice: real, deliveryFee: real, serviceFee: real, totalPrice: real)

  /** dish_ids */
  function CartIds(items: seq<CartLine>): (ids: seq<Option<nat>>)
    ensures |ids| == |items|
    ensures forall i :: 0 <= i < |items| ==> ids[i] == items[i].menu
  {
    seq(|items|, i requires 0 <= i < |items| => items[i].menu)
  }

  /** The ids Dish.objects.filter(id__in=dish_ids) finds, each once. */
  function FoundIds(dishes: map<nat, Dish>, items: seq<CartLine>): set<Option<nat>>
  {
    set x | x in CartIds(items) && x.Some? && x.value in dishes
  }

  /** The test `not dishes.exists() or len(dish_ids) != dishes.count()`
      lets the cart through. */
  predicate CartAccepted(dishes: map<nat, Dish>, items: seq<CartLine>)
  {
    |FoundIds(dishes, items)| != 0 && |FoundIds(dishes, items)| == |items|
  }

  /** Every line names a dish that exists. */
  predicate Resolves(dishes: map<nat, Dish>, items: seq<CartLine>)
  {
    forall i :: 0 <= i < |items| ==> items[i].menu.Some? && items[i].menu.value in dishes
  }

  /** The count test accepts a cart exactly when it is non-empty, every
      line names an existing dish, and no dish is named twice. */
  lemma CartAcceptedIff(dishes: map<nat, Dish>, items: seq<CartLine>)
    ensures CartAccepted(dishes, items) <==> |items| > 0 && Resolves(dishes, items) && Distinct(CartIds(items))
  {
    var ids := CartIds(items);
    var found := FoundIds(dishes, items);
    ElemsCard(ids);
    assert found <= Elems(ids);
    if Resolves(dishes, items) {
      assert found == Elems(ids);
    } else {
      var i :| 0 <= i < |items| && !(items[i].menu.Some? && items[i].menu.value in dishes);
      SubsetCard(found, Elems(ids) - {ids[i]});
    }
  }

  /** Σ price × quantity over the cart lines. */
  function ItemsTotal(dishes: map<nat, Dish>, items: seq<CartLine>): real
    requires Resolves(dishes, items)
  {
    if items == [] then 0.0
    else
      var last := items[|items| - 1];
      ItemsTotal(dishes, items[..|items| - 1]) + dishes[last.menu.value].price * last.quantity as real
  }

  /** The lowest dish id of the cart: dishes.first() on a query without
      ordering returns the dish with the smallest primary key. */
  function FirstDishId(items: seq<CartLine>): (m: nat)
    requires |items| > 0
    requires forall i :: 0 <= i < |items| ==> items[i].menu.Some?
    ensures exists i :: 0 <= i < |items| && items[i].menu == Some(m)
    ensures forall i :: 0 <= i < |items| ==> m <= items[i].menu.value
  {
    if |items| == 1 then items[0].menu.value
    else
      var rest := FirstDishId(items[1..]);
      assert forall i :: 1 <= i < |items| ==> items[i] == items[1..][i - 1];
      if items[0].menu.value <= rest then items[0].menu.value else rest
  }

  /** max(MIN, min(items_total × percent / 100, MAX)): the percentage share
      clamped to the floor and ceiling, the floor winning when they cross. */
  function ServiceFee(settings: FeeSettings, itemsTotal: real): (fee: real)
    ensures fee >= settings.minServiceFee
    ensures settings.minServiceFee <= settings.maxServiceFee ==> fee <= settings.maxServiceFee
    ensures var share := itemsTotal * (settings.serviceFeePercent / 100.0);
      && (settings.minServiceFee <= share <= settings.maxServiceFee ==> fee == share)
      && (share < settings.minServiceFee ==> fee == settings.minServiceFee)
      && (share > settings.maxServiceFee ==> fee == Max(settings.minServiceFee, settings.maxServiceFee))
  {
    Max(settings.minServiceFee, Min(itemsTotal * (settings.serviceFeePercent / 100.0), settings.maxServiceFee))
  }

  /** calculate_order_totals. The delivery fee is calculate_delivery_fee's
      for the restaurant of the cart's lowest-id dish; `scan`, `now` and
      `distanceKm` are that call's inputs. */
  function CalculateOrderTotals(dishes: map<nat, Dish>, items: seq<CartLine>, address: Address, settings: FeeSettings,
                                scan: seq<Tariff>, now: TimeOfDay, distanceKm: real): (r: Result<Totals>)
    ensures items == [] ==> r == Err(EmptyCart)
    ensures items != [] ==> (r.Ok? <==> Resolves(dishes, items) && Distinct(CartIds(items)))
    ensures items != [] && r.Err? ==> r.error == DishNotFound
    ensures r.Ok? ==> r.value.totalPrice == r.value.itemsTotalPrice + r.value.deliveryFee + r.value.serviceFee
    ensures r.Ok? && settings.minServiceFee <= settings.maxServiceFee ==>
              settings.minServiceFee <= r.value.serviceFee <= settings.maxServiceFee
    ensures r.Ok? ==> r.value.deliveryFee == ServicesFee(dishes[FirstDishId(items)].restaurant, address, scan, now, distanceKm)
    ensures r.Ok? ==> r.value.itemsTotalPrice == ItemsTotal(dishes, items)
    ensures r.Ok? ==> r.value.serviceFee == ServiceFee(settings, r.value.itemsTotalPrice)
  {
    CartAcceptedIff(dishes, items);
    if items == [] then Err(EmptyCart)
    else if !CartAccepted(dishes, items) then Err(DishNotFound)
    else
      var restaurant := dishes[FirstDishId(items)].restaurant;
      var itemsTotal := ItemsTotal(dishes, items);
      var deliveryFee := ServicesFee(restaurant, address, scan, now, distanceKm);
      var serviceFee := ServiceFee(settings, itemsTotal);
      Ok(Totals(itemsTotal, deliveryFee, serviceFee, itemsTotal + deliveryFee + serviceFee))
  }

  /** The three-way split of an order's money. */
  datatype Payout = Payout(platformFee: real, restaurantPayout: real, courierPayout: real)

  /** The platform keeps the commission on the items and the service fee,
      the restaurant the items less the commission, the courier the
      delivery fee; between them they account for the whole total. */
  function Payouts(settings: FeeSettings, t: Totals): (p: Payout)
    ensures t.totalPrice == t.itemsTotalPrice + t.deliveryFee + t.serviceFee ==>
              p.platformFee + p.restaurantPayout + p.courierPayout == t.totalPrice
    ensures p.courierPayout == t.deliveryFee
    ensures var commission := t.itemsTotalPrice * (settings.restaurantCommissionPercent / 100.0);
      p.platformFee == commission + t.serviceFee && p.restaurantPayout == t.itemsTotalPrice - commission
    ensures 0.0 <= settings.restaurantCommissionPercent <= 100.0 && t.itemsTotalPrice >= 0.0 ==>
              0.0 <= p.restaurantPayout <= t.itemsTotalPrice
  {
    var commission := t.itemsTotalPrice * (settings.restaurantCommissionPercent / 100.0);
    assert 0.0 <= settings.restaurantCommissionPercent <= 100.0 && t.itemsTotalPrice >= 0.0 ==>
             0.0 <= commission <= t.itemsTotalPrice by {
      if 0.0 <= settings.restaurantCommissionPercent <= 100.0 && t.itemsTotalPrice >= 0.0 {
        var f := settings.restaurantCommissionPercent / 100.0;
        assert 0.0 <= f <= 1.0;
        assert t.itemsTotalPrice * f <= t.itemsTotalPrice * 1.0;
      }
    }
    Payout(commission + t.serviceFee, t.itemsTotalPrice - commission, t.deliveryFee)
  }

  /** The OrderItem rows built for the cart: each line's dish, quantity and
      the dish's current price. */
  function Snapshot(dishes: map<nat, Dish>, items: seq<CartLine>): (lines: seq<OrderItem>)
    requires Resolves(dishes, items)
    ensures |lines| == |items|
    ensures forall i :: 0 <= i < |items| ==>
              lines[i].menu == items[i].menu && lines[i].quantity == items[i].quantity
              && lines[i].priceAtTimeOfOrder == dishes[items[i].menu.value].price
  {
    seq(|items|, i requires 0 <= i < |items| => OrderItem(items[i].menu, items[i].quantity, dishes[items[i].menu.value].price))
  }

  /** The saved lines add up to the items total the order records. */
  lemma {:induction false} SnapshotTotal(dishes: map<nat, Dish>, items: seq<CartLine>)
    requires Resolves(dishes, items)
    ensures LinesTotal(Snapshot(dishes, items)) == ItemsTotal(dishes, items)
    decreases |items|
  {
    if items != [] {
      var front := items[..|items| - 1];
      SnapshotTotal(dishes, front);
      assert Snapshot(dishes, items)[..|items| - 1] == Snapshot(dishes, front);
    }
  }

  // ---------------------------------------------------------------------
  // create_order_with_calculations

  /** The keywords create_order_with_calculations passes to
      Order.objects.create. */
  const ServicesCreateKeywordsAsWritten: set<string> := {
    "user", "restaurant", "address", "delivery_lat", "delivery_lon", "comment", "payment_method",
    "items_total_price", "delivery_fee", "service_fee", "total_price",
    "platform_fee", "restaurant_payout", "courier_payout"}

  /** The same with the address written to address_text and no payment
      method, which the Order model no longer has. */
  const ServicesCreateKeywords: set<string> :=
    ServicesCreateKeywordsAsWritten - {"address", "payment_method"} + {"address_text"}

  /** create_order_with_calculations as written: after the address lookup
      and the totals, Order.objects.create is given two keywords that name
      no field, which raises TypeError. */
  function CreateOrderAsWritten(user: nat, addresses: map<nat, Address>, dishes: map<nat, Dish>, items: seq<CartLine>,
                                addressId: nat, settings: FeeSettings, scan: seq<Tariff>, now: TimeOfDay,
                                distanceKm: real): (r: Result<Totals>)
    ensures LookupAddress(addresses, addressId, user).Err? ==> r == Err(AddressNotFound)
  {
    match LookupAddress(addresses, addressId, user)
    case Err(e) => Err(e)
    case Ok(address) =>
      match CalculateOrderTotals(dishes, items, address, settings, scan, now, distanceKm)
      case Err(e) => Err(e)
      case Ok(totals) =>
        if UnexpectedKeywords(ServicesCreateKeywordsAsWritten) != {} then Err(UnexpectedKeyword) else Ok(totals)
  }

  /** As written, no call ever creates an order: every input ends in an
      error, and a cart and address that pass every check end in the
      constructor's TypeError. */
  lemma CreateOrderAsWrittenAlwaysFails(user: nat, addresses: map<nat, Address>, dishes: map<nat, Dish>,
                                        items: seq<CartLine>, addressId: nat, settings: FeeSettings,
                                        scan: seq<Tariff>, now: TimeOfDay, distanceKm: real)
    ensures CreateOrderAsWritten(user, addresses, dishes, items, addressId, settings, scan, now, distanceKm).Err?
    ensures LookupAddress(addresses, addressId, user).Ok?
            && CalculateOrderTotals(dishes, items, LookupAddress(addresses, addressId, user).value,
                                    settings, scan, now, distanceKm).Ok?
            ==> CreateOrderAsWritten(user, addresses, dishes, items, addressId, settings, scan, now, distanceKm)
                == Err(UnexpectedKeyword)
  {
    assert "address" in UnexpectedKeywords(ServicesCreateKeywordsAsWritten);
  }

  /** With the corrected keywords every name is a field of Order. */
  lemma ServicesCreateKeywordsAreFields()
    ensures UnexpectedKeywords(ServicesCreateKeywords) == {}
    ensures "address_text" in ServicesCreateKeywords && "payment_method" !in ServicesCreateKeywords
  {
    assert ServicesCreateKeywords <= FieldNames;
  }

  /** The order row create_order_with_calculations writes: address,
      totals, payout split, declared defaults elsewhere, and the code
      generated on save. */
  predicate Records(o: Order, orderId: nat, createdAt: int, user: nat, restaurant: nat, a: Address, comment: string,
                    t: Totals, p: Payout, random: nat)
    reads o
  {
    && o.id == orderId && o.createdAt == createdAt
    && o.user == Some(user) && o.restaurant == Some(restaurant)
    && o.addressText == a.fullAddress && o.deliveryLat == a.latitude && o.deliveryLon == a.longitude
    && o.comment == comment
    && o.itemsTotalPrice == t.itemsTotalPrice && o.deliveryFee == t.deliveryFee
    && o.serviceFee == t.serviceFee && o.totalPrice == t.totalPrice
    && o.platformFee == p.platformFee && o.restaurantPayout == p.restaurantPayout && o.courierPayout == p.courierPayout
    && o.status == Pending && !o.isPaid && o.courier == None && o.promoCode == None && o.paymentInvoiceId == None
    && o.code == GeneratedCode(random)
  }

  /** create_order_with_calculations, corrected: the address must belong to
      the user, the totals must succeed, then the order is created with the
      totals and the payout split (its code generated from `random` on
      save), and one line per cart entry snapshots the dish price. The
      order's restaurant is that of the first cart line's dish. */
  method CreateOrderWithCalculations(user: nat, addresses: map<nat, Address>, dishes: map<nat, Dish>,
                                     items: seq<CartLine>, addressId: nat, comment: string, settings: FeeSettings,
                                     scan: seq<Tariff>, now: TimeOfDay, distanceKm: real,
                                     orderId: nat, createdAt: int, random: nat)
    returns (r: Result<Order>, lines: seq<OrderItem>)
    ensures LookupAddress(addresses, addressId, user).Err? ==> r == Err(AddressNotFound) && lines == []
    ensures LookupAddress(addresses, addressId, user).Ok? ==>
      var t := CalculateOrderTotals(dishes, items, LookupAddress(addresses, addressId, user).value,
                                    settings, scan, now, distanceKm);
      (t.Err? ==> r == Err(t.error) && lines == []) && (t.Ok? ==> r.Ok?)
    ensures r.Ok? ==>
      var a := LookupAddress(addresses, addressId, user).value;
      var t := CalculateOrderTotals(dishes, items, a, settings, scan, now, distanceKm).value;
      && fresh(r.value)
      && Records(r.value, orderId, createdAt, user, dishes[items[0].menu.value].restaurant.id, a, comment,
                 t, Payouts(settings, t), random)
      && r.value.platformFee + r.value.restaurantPayout + r.value.courierPayout == r.value.totalPrice
      && lines == Snapshot(dishes, items)
      && LinesTotal(lines) == r.value.itemsTotalPrice
  {
    lines := [];
    var found := LookupAddress(addresses, addressId, user);
    if found.Err? {
      return Err(AddressNotFound), lines;
    }
    var address := found.value;
    var totals := CalculateOrderTotals(dishes, items, address, settings, scan, now, distanceKm);
    if totals.Err? {
      return Err(totals.error), lines;
    }
    var t := totals.value;
    var restaurant := dishes[items[0].menu.value].restaurant;
    var commission := t.itemsTotalPrice * (settings.restaurantCommissionPercent / 100.0);
    var split := Payout(commission + t.serviceFee, t.itemsTotalPrice - commission, t.deliveryFee);
    assert split == Payouts(settings, t);
    var order := new Order.Create(orderId, createdAt, user, restaurant.id,
                                  address.fullAddress, address.latitude, address.longitude, comment,
                                  t.itemsTotalPrice, t.deliveryFee, t.serviceFee, t.totalPrice,
                                  split.platformFee, split.restaurantPayout, split.courierPayout, random);
    lines := Snapshot(dishes, items);
    SnapshotTotal(dishes, items);
    r := Ok(order);
  }
}
