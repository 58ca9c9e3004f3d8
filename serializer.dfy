/** OrderSerializer.create (orders/serializers.py): the older order
    creation path, with its own inline tariff choice, a line-by-line item
    snapshot and a total without service fee. */
module OrderCreation {
  import opened Common
  import opened Accounts
  import opened Restaurants
  import opened DeliveryFees
  import opened Orders
  import opened Totals

  /** One validated entry of `items`: the dish its primary key resolved to,
      and the quantity. */
  datatype ItemData = ItemData(menu: Dish, quantity: nat)

  /** The OrderItem saved for one entry: the dish, the quantity and the
      dish's price at this moment. */
  function SnapshotOf(item: ItemData): (line: OrderItem)
    ensures line.priceAtTimeOfOrder == item.menu.price && line.quantity == item.quantity
    ensures line.menu == Some(item.menu.id)
  {
    OrderItem(Some(item.menu.id), item.quantity, item.menu.price)
  }

  /** The loop of create: one line per item, in order, and the running sum
      of price times quantity. */
  method SnapshotItems(items: seq<ItemData>) returns (lines: seq<OrderItem>, totalItemsPrice: real)
    ensures |lines| == |items|
    ensures forall k :: 0 <= k < |items| ==> lines[k] == SnapshotOf(items[k])
    ensures totalItemsPrice == LinesTotal(lines)
  {
    lines, totalItemsPrice := [], 0.0;
    var i := 0;
    while i < |items|
      invariant 0 <= i <= |items|
      invariant |lines| == i
      invariant forall k :: 0 <= k < i ==> lines[k] == SnapshotOf(items[k])
      invariant totalItemsPrice == LinesTotal(lines)
    {
      var dish := items[i].menu;
      var quantity := items[i].quantity;
      var priceAtTimeOfOrder := dish.price;
      lines := lines + [OrderItem(Some(dish.id), quantity, priceAtTimeOfOrder)];
      assert lines[..|lines| - 1] == lines[..i];
      totalItemsPrice := totalItemsPrice + priceAtTimeOfOrder * quantity as real;
      i := i + 1;
    }
  }

  /** The keywords create passes to Order.objects.create: the two explicit
      ones and what validated_data then holds. */
  const SerializerCreateKeywordsAsWritten: set<string> := {
    "restaurant", "delivery_fee", "comment", "address", "user", "delivery_lat", "delivery_lon"}

  /** The same with the address written to address_text. */
  const SerializerCreateKeywords: set<string> :=
    SerializerCreateKeywordsAsWritten - {"address"} + {"address_text"}

  /** As written, validated_data['address'] names no field of Order, so the
      create call raises TypeError on every order that reaches it. */
  lemma SerializerCreateAsWrittenRaises()
    ensures UnexpectedKeywords(SerializerCreateKeywordsAsWritten) == {"address"}
  {
    assert "address" in UnexpectedKeywords(SerializerCreateKeywordsAsWritten);
    assert UnexpectedKeywords(SerializerCreateKeywordsAsWritten) <= {"address"};
  }

  /** With the address under address_text every keyword is a field. */
  lemma SerializerCreateKeywordsAreFields()
    ensures UnexpectedKeywords(SerializerCreateKeywords) == {}
    ensures "address_text" in SerializerCreateKeywords && "address" !in SerializerCreateKeywords
  {
    assert SerializerCreateKeywords <= FieldNames;
  }

  /** OrderSerializer.create, corrected as above: an empty item list and an
      address of another user are refused before anything is created; the
      restaurant is the first item's dish's, other items' restaurants are
      not checked; the fee is the serializer's inline tariff fee over
      get_distance; one line per item snapshots the dish price; the total
      is the lines' sum plus the fee, with no service fee, and the items
      total, service fee and payout fields keep their zero defaults.
      `greatCircleKm` is the haversine distance, `random` the uuid4 integer
      the first save draws. */
  method CreateOrder(user: nat, addresses: map<nat, Address>, items: seq<ItemData>, addressId: nat, comment: string,
                     now: TimeOfDay, greatCircleKm: real, orderId: nat, createdAt: int, random: nat)
    returns (r: Result<Order>, lines: seq<OrderItem>)
    ensures items == [] ==> r == Err(EmptyCart) && lines == []
    ensures items != [] && LookupAddress(addresses, addressId, user).Err? ==> r == Err(AddressNotFound) && lines == []
    ensures r.Ok? <==> items != [] && LookupAddress(addresses, addressId, user).Ok?
    ensures r.Ok? ==>
      var a := LookupAddress(addresses, addressId, user).value;
      var restaurant := items[0].menu.restaurant;
      var fee := SerializerFee(restaurant, a, now, greatCircleKm);
      && fresh(r.value)
      && |lines| == |items|
      && (forall k :: 0 <= k < |items| ==> lines[k] == SnapshotOf(items[k]))
      && Records(r.value, orderId, createdAt, user, restaurant.id, a, comment,
                 Totals(0.0, fee, 0.0, LinesTotal(lines) + fee), Payout(0.0, 0.0, 0.0), random)
  {
    lines := [];
    if items == [] {
      return Err(EmptyCart), lines;
    }
    var found := LookupAddress(addresses, addressId, user);
    if found.Err? {
      return Err(AddressNotFound), lines;
    }
    var address := found.value;
    var restaurant := items[0].menu.restaurant;
    var deliveryFee := SerializerFee(restaurant, address, now, greatCircleKm);
    var order := new Order.Create(orderId, createdAt, user, restaurant.id,
                                  address.fullAddress, address.latitude, address.longitude, comment,
                                  0.0, deliveryFee, 0.0, 0.0, 0.0, 0.0, 0.0, random);

    var totalItemsPrice;
    lines, totalItemsPrice := SnapshotItems(items);
    order.totalPrice := totalItemsPrice + deliveryFee;
    order.Save(random);
    assert Records(order, orderId, createdAt, user, restaurant.id, address, comment,
                   Totals(0.0, deliveryFee, 0.0, totalItemsPrice + deliveryFee), Payout(0.0, 0.0, 0.0), random);
    r := Ok(order);
  }
}
