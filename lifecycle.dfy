/** The order status state machine as a whole. Its transitions are spread
    over orders/views.py (restaurant side), courier/views.py and
    courier/services.py (courier side); each is a guarded step on the pair
    (status, courier), and a failed guard leaves the order untouched. The
    view and service methods are proved to take exactly these steps. */
module Lifecycle {
  import opened Common
  import opened Orders

  /** The part of an order the transitions read and write. */
  datatype OrderState = OrderState(status: Status, courier: Option<nat>)

  /** The transition requests the code accepts. There is no client-side
      cancellation: CancelOrderView is routed but never defined. */
  datatype Event =
    | RestaurantAccepts            // AcceptOrderView
    | RestaurantRejects            // RejectOrderView
    | RestaurantAdvances           // UpdateOrderStatusView
    | CourierTakes(courier: nat)   // CourierAcceptOrderView, accept_order_for_courier
    | CourierDelivers(courier: nat) // OrderDeliveredView

  /** One guarded step: the new state, or None when the guard fails. */
  function Step(s: OrderState, e: Event): Option<OrderState>
  {
    match e
    case RestaurantAccepts =>
      if s.status == Pending then Some(s.(status := Accepted)) else None
    case RestaurantRejects =>
      if s.status == Pending then Some(s.(status := Cancelled)) else None
    case RestaurantAdvances =>
      if s.status == Accepted then Some(s.(status := Preparing))
      else if s.status == Preparing then Some(s.(status := ReadyForPickup))
      else None
    case CourierTakes(c) =>
      if s.status == ReadyForPickup && s.courier.None? then Some(OrderState(OnTheWay, Some(c))) else None
    case CourierDelivers(c) =>
      if s.courier == Some(c) && s.status == OnTheWay then Some(s.(status := Delivered)) else None
  }

  /** Position of a status along the lifecycle; cancelled comes last. */
  function Rank(s: Status): nat
  {
    match s
    case Pending => 0
    case Accepted => 1
    case Preparing => 2
    case ReadyForPickup => 3
    case OnTheWay => 4
    case Delivered => 5
    case Cancelled => 6
  }

  predicate Terminal(s: Status)
  {
    s == Delivered || s == Cancelled
  }

  /** A sequence of requests applied in turn; a request whose guard fails
      leaves the state as it was. */
  function Run(s: OrderState, es: seq<Event>): OrderState
    decreases |es|
  {
    if es == [] then s
    else
      var next := match Step(s, es[0]) case Some(t) => t case None => s;
      Run(next, es[1..])
  }

  /** How many courier-take requests of a run succeed. */
  function Takes(s: OrderState, es: seq<Event>): nat
    decreases |es|
  {
    if es == [] then 0
    else
      var next := match Step(s, es[0]) case Some(t) => t case None => s;
      (if es[0].CourierTakes? && Step(s, es[0]).Some? then 1 else 0) + Takes(next, es[1..])
  }

  /** The courier is set exactly on the statuses that follow assignment. */
  predicate CourierConsistent(s: OrderState)
  {
    s.courier.Some? <==> (s.status == OnTheWay || s.status == Delivered)
  }

  /** Every successful step moves strictly forward along the lifecycle
      (cancelled counts as the end), only courier assignment sets the
      courier, and it does so only on an order without one. */
  lemma StepMovesForward(s: OrderState, e: Event)
    requires Step(s, e).Some?
    ensures Rank(Step(s, e).value.status) > Rank(s.status)
    ensures Step(s, e).value.courier != s.courier ==> e.CourierTakes? && s.courier.None?
    ensures Step(s, e).value.status == Cancelled ==> s.status == Pending
  {
  }

  /** Delivered and cancelled orders accept no further transition. */
  lemma TerminalIsFinal(s: OrderState, e: Event)
    requires Terminal(s.status)
    ensures Step(s, e).None?
  {
  }

  /** No restaurant-side request succeeds from ready_for_pickup, on_the_way,
      delivered or cancelled. */
  lemma RestaurantSideEndsAtReady(s: OrderState)
    requires s.status in {ReadyForPickup, OnTheWay, Delivered, Cancelled}
    ensures Step(s, RestaurantAccepts).None?
    ensures Step(s, RestaurantRejects).None?
    ensures Step(s, RestaurantAdvances).None?
  {
  }

  /** The full lifecycle succeeds end to end. */
  lemma HappyPath(c: nat)
    ensures Run(OrderState(Pending, None),
                [RestaurantAccepts, RestaurantAdvances, RestaurantAdvances, CourierTakes(c), CourierDelivers(c)])
            == OrderState(Delivered, Some(c))
  {
    var es := [RestaurantAccepts, RestaurantAdvances, RestaurantAdvances, CourierTakes(c), CourierDelivers(c)];
    var s0 := OrderState(Pending, None);
    var s1 := OrderState(Accepted, None);
    var s2 := OrderState(Preparing, None);
    var s3 := OrderState(ReadyForPickup, None);
    var s4 := OrderState(OnTheWay, Some(c));
    var s5 := OrderState(Delivered, Some(c));
    assert Run(s5, es[5..]) == s5;
    assert Run(s4, es[4..]) == Run(s5, es[5..]);
    assert Run(s3, es[3..]) == Run(s4, es[4..]);
    assert Run(s2, es[2..]) == Run(s3, es[3..]);
    assert Run(s1, es[1..]) == Run(s2, es[2..]);
    assert Run(s0, es) == Run(s1, es[1..]);
  }

  /** Once a courier is assigned, no run of requests replaces or clears it. */
  lemma {:induction false} AssignedCourierStays(s: OrderState, es: seq<Event>)
    requires s.courier.Some?
    ensures Run(s, es).courier == s.courier
    decreases |es|
  {
    if es != [] {
      var next := match Step(s, es[0]) case Some(t) => t case None => s;
      if Step(s, es[0]).Some? {
        StepMovesForward(s, es[0]);
      }
      AssignedCourierStays(next, es[1..]);
    }
  }

  /** Whatever requests arrive, in whatever order, at most one courier
      assignment succeeds, and none does on an order that already has one. */
  lemma {:induction false} AtMostOneAssignment(s: OrderState, es: seq<Event>)
    ensures Takes(s, es) <= (if s.courier.None? then 1 else 0)
    decreases |es|
  {
    if es != [] {
      var next := match Step(s, es[0]) case Some(t) => t case None => s;
      AtMostOneAssignment(next, es[1..]);
      if es[0].CourierTakes? && Step(s, es[0]).Some? {
        assert next.courier.Some?;
      } else if Step(s, es[0]).Some? {
        StepMovesForward(s, es[0]);
      }
    }
  }

  /** Runs never move backwards along the lifecycle and never leave a
      delivered or cancelled order. */
  lemma {:induction false} RunMovesForward(s: OrderState, es: seq<Event>)
    ensures Rank(Run(s, es).status) >= Rank(s.status)
    ensures Terminal(s.status) ==> Run(s, es) == s
    decreases |es|
  {
    if es != [] {
      var next := match Step(s, es[0]) case Some(t) => t case None => s;
      if Step(s, es[0]).Some? {
        StepMovesForward(s, es[0]);
      }
      RunMovesForward(next, es[1..]);
    }
  }

  /** From a fresh order, the courier is set exactly when the order is on
      the way or delivered, after any run of requests. */
  lemma {:induction false} RunKeepsCourierConsistent(s: OrderState, es: seq<Event>)
    requires CourierConsistent(s)
    ensures CourierConsistent(Run(s, es))
    decreases |es|
  {
    if es != [] {
      var next := match Step(s, es[0]) case Some(t) => t case None => s;
      RunKeepsCourierConsistent(next, es[1..]);
    }
  }

  /** A request either took its step (`ok`) or left the state as it was,
      in which case its guard failed. */
  predicate Took(before: OrderState, after: OrderState, e: Event, ok: bool)
  {
    if ok then Step(before, e) == Some(after) else Step(before, e).None? && after == before
  }

  /** The state machine's view of an order object. */
  function StateOf(o: Order): OrderState
    reads o
  {
    OrderState(o.status, o.courier)
  }
}
