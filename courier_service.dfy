/** courier/services.py: assigning an order to a courier. The row lock and
    the transaction are not modelled; calls are taken one after another,
    which is the order the lock imposes. */
module CourierService {
  import opened Common
  import opened Orders
  import opened Lifecycle

  /** accept_order_for_courier: the order must exist (DoesNotExist
      otherwise) and be ready for pickup with no courier (ValidationError
      otherwise); then courier and status are set together. Only those two
      fields are written. */
  method AcceptOrderForCourier(orders: map<nat, Order>, orderId: nat, courier: nat) returns (r: Result<Order>)
    modifies Target(orders, orderId)`courier, Target(orders, orderId)`status
    ensures orderId !in orders ==> r == Err(OrderDoesNotExist)
    ensures orderId in orders ==>
      var o := orders[orderId];
      && Took(old(StateOf(o)), StateOf(o), CourierTakes(courier), r.Ok?)
      && (r.Ok? ==> r.value == o)
      && (r.Err? ==> r.error == OrderUnavailable)
  {
    if orderId !in orders {
      return Err(OrderDoesNotExist);
    }
    var order := orders[orderId];
    if order.status != ReadyForPickup || order.courier.Some? {
      return Err(OrderUnavailable);
    }
    order.courier := Some(courier);
    order.status := OnTheWay;
    r := Ok(order);
  }

  /** Two couriers ask for the same order, one after the other: the second
      request always fails, and a successful first courier stays
      assigned. */
  method TwoCouriersAccept(orders: map<nat, Order>, orderId: nat, first: nat, second: nat)
    returns (r1: Result<Order>, r2: Result<Order>)
    modifies Target(orders, orderId)`courier, Target(orders, orderId)`status
    ensures r2.Err?
    ensures r1.Ok? ==> orderId in orders && orders[orderId].courier == Some(first)
    ensures r1.Ok? ==> orders[orderId].status == OnTheWay
  {
    r1 := AcceptOrderForCourier(orders, orderId, first);
    r2 := AcceptOrderForCourier(orders, orderId, second);
  }
}
