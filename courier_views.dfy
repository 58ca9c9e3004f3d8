/** The courier side (courier/views.py, courier/models.py): taking,
    picking up and delivering an order, the order queries and earnings,
    the online toggle, the location update and the document upload. */
module CourierViews {
  import opened Common
  import opened Accounts
  import opened Orders
  import opened Lifecycle
  import opened OrderRendering
  import Restaurants

  // ---------------------------------------------------------------------
  // Transitions

  /** CourierAcceptOrderView: couriers only (403); an unknown id is 404; the
      same guard and effect as the assignment service, with 400 on a failed
      guard; the saved order is rendered with OrderSerializer. */
  method CourierAcceptOrder(user: User, orders: map<nat, Order>, orderId: nat) returns (reply: Reply)
    modifies Target(orders, orderId)`courier, Target(orders, orderId)`status
    ensures user.role != Courier ==> reply == Forbidden && unchanged(Target(orders, orderId))
    ensures user.role == Courier && orderId !in orders ==> reply == NotFound
    ensures user.role == Courier && orderId in orders ==>
      var o := orders[orderId];
      && (reply == Success || reply == BadRequest)
      && Took(old(StateOf(o)), StateOf(o), CourierTakes(user.id), reply == Success)
  {
    if user.role != Courier {
      return Forbidden;
    }
    if orderId !in orders {
      return NotFound;
    }
    var order := orders[orderId];
    if order.status != ReadyForPickup || order.courier.Some? {
      return BadRequest;
    }
    order.courier := Some(user.id);
    order.status := OnTheWay;
    OrderSerializerFieldsResolve();
    reply := RenderOrder(OrderSerializerFields);
  }

  /** get_object_or_404(Order, id=order_id, courier=request.user). */
  predicate OwnOrder(user: User, orders: map<nat, Order>, orderId: nat)
    reads orders.Values
  {
    orderId in orders && orders[orderId].courier == Some(user.id)
  }

  /** OrderPickedUpView: changes nothing; 404 unless the order is the
      requester's own, then 200 exactly when it is on the way. */
  method OrderPickedUp(user: User, orders: map<nat, Order>, orderId: nat) returns (reply: Reply)
    ensures reply == NotFound <==> !OwnOrder(user, orders, orderId)
    ensures reply == Success <==> OwnOrder(user, orders, orderId) && orders[orderId].status == OnTheWay
    ensures reply == BadRequest <==> OwnOrder(user, orders, orderId) && orders[orderId].status != OnTheWay
  {
    if orderId !in orders || orders[orderId].courier != Some(user.id) {
      return NotFound;
    }
    if orders[orderId].status == OnTheWay {
      reply := Success;
    } else {
      reply := BadRequest;
    }
  }

  /** OrderDeliveredView: 404 unless the order is the requester's own; then
      on_the_way -> delivered, anything else 400. */
  method OrderDelivered(user: User, orders: map<nat, Order>, orderId: nat) returns (reply: Reply)
    modifies Target(orders, orderId)`status
    ensures !old(OwnOrder(user, orders, orderId)) ==> reply == NotFound && unchanged(Target(orders, orderId))
    ensures old(OwnOrder(user, orders, orderId)) ==>
      var o := orders[orderId];
      && (reply == Success || reply == BadRequest)
      && Took(old(StateOf(o)), StateOf(o), CourierDelivers(user.id), reply == Success)
  {
    if orderId !in orders || orders[orderId].courier != Some(user.id) {
      return NotFound;
    }
    var order := orders[orderId];
    if order.status == OnTheWay {
      order.status := Delivered;
      reply := Success;
    } else {
      reply := BadRequest;
    }
  }

  // ---------------------------------------------------------------------
  // Queries over the order table

  function IsAvailable(): OrderRow -> bool
  {
    (row: OrderRow) => row.status == ReadyForPickup && row.courier.None?
  }

  function AssignedTo(courier: nat): OrderRow -> bool
  {
    (row: OrderRow) => row.courier == Some(courier)
  }

  function CarryingNow(courier: nat): OrderRow -> bool
  {
    (row: OrderRow) => row.courier == Some(courier) && row.status == OnTheWay
  }

  /** AvailableOrdersView: every order ready for pickup with no courier, and
      nothing else, newest first. */
  function AvailableOrders(rows: seq<OrderRow>): (r: seq<OrderRow>)
    ensures NewestFirstOrder(r)
    ensures forall row ::
              multiset(r)[row] == if row.status == ReadyForPickup && row.courier.None? then multiset(rows)[row] else 0
  {
    NewestFirst(Where(rows, IsAvailable()))
  }

  /** CourierOrderHistoryView: every order assigned to the courier,
      whatever its status, newest first. */
  function CourierHistory(rows: seq<OrderRow>, courier: nat): (r: seq<OrderRow>)
    ensures NewestFirstOrder(r)
    ensures forall row :: multiset(r)[row] == if row.courier == Some(courier) then multiset(rows)[row] else 0
  {
    NewestFirst(Where(rows, AssignedTo(courier)))
  }

  /** CurrentOrderView: first() under the model's newest-first ordering,
      so the most recent order the courier has on the way; None is the 404. */
  function CurrentOrder(rows: seq<OrderRow>, courier: nat): (r: Option<OrderRow>)
    ensures r.None? <==> forall i :: 0 <= i < |rows| ==> !(rows[i].courier == Some(courier) && rows[i].status == OnTheWay)
    ensures r.Some? ==> r.value in rows && r.value.courier == Some(courier) && r.value.status == OnTheWay
    ensures r.Some? ==> forall i :: 0 <= i < |rows| && rows[i].courier == Some(courier) && rows[i].status == OnTheWay
                                    ==> rows[i].createdAt <= r.value.createdAt
  {
    var carrying := NewestFirst(Where(rows, CarryingNow(courier)));
    NewestMatching(rows, CarryingNow(courier), carrying);
    if carrying == [] then None else Some(carrying[0])
  }

  /** The rows of `rows` that satisfy `p`, each as often as there, put in
      newest-first order: the sequence is empty exactly when nothing
      matches, and its head is a matching row no matching row is newer
      than. */
  lemma NewestMatching(rows: seq<OrderRow>, p: OrderRow -> bool, sorted: seq<OrderRow>)
    requires NewestFirstOrder(sorted)
    requires forall x :: multiset(sorted)[x] == if p(x) then multiset(rows)[x] else 0
    ensures sorted == [] <==> forall i :: 0 <= i < |rows| ==> !p(rows[i])
    ensures sorted != [] ==>
      && sorted[0] in rows && p(sorted[0])
      && forall i :: 0 <= i < |rows| && p(rows[i]) ==> rows[i].createdAt <= sorted[0].createdAt
  {
    forall i | 0 <= i < |rows| && p(rows[i]) ensures rows[i] in multiset(sorted) {
      assert multiset(rows)[rows[i]] > 0;
    }
    if sorted != [] {
      assert multiset(sorted)[sorted[0]] > 0;
      forall i | 0 <= i < |rows| && p(rows[i]) ensures rows[i].createdAt <= sorted[0].createdAt {
        HeadIsNewest(sorted, rows[i]);
      }
    }
  }

  lemma HeadIsNewest(sorted: seq<OrderRow>, x: OrderRow)
    requires NewestFirstOrder(sorted) && x in multiset(sorted)
    ensures x.createdAt <= sorted[0].createdAt
  {
    var k :| 0 <= k < |sorted| && sorted[k] == x;
    if k > 0 {
      assert sorted[0].createdAt >= sorted[k].createdAt;
    }
  }

  // ---------------------------------------------------------------------
  // Earnings (CourierStatsView)

  /** The calendar date (UTC) of an instant in microseconds since the epoch. */
  function DayOf(instant: int): int
  {
    instant / Restaurants.MicrosPerDay
  }

  function DeliveredBy(courier: nat): OrderRow -> bool
  {
    (row: OrderRow) => row.courier == Some(courier) && row.status == Delivered
  }

  function DeliveredByOn(courier: nat, day: int): OrderRow -> bool
  {
    (row: OrderRow) => row.courier == Some(courier) && row.status == Delivered && DayOf(row.createdAt) == day
  }

  /** Sum('delivery_fee') of a query: NULL over no rows. */
  function FeeSum(rows: seq<OrderRow>): (total: Option<real>)
    ensures total.None? <==> rows == []
    ensures total.Some? ==> total.value == Fees(rows)
  {
    if rows == [] then None else Some(Fees(rows))
  }

  /** The delivery fees of the rows, added up. */
  function Fees(rows: seq<OrderRow>): real
  {
    if rows == [] then 0.0 else rows[0].deliveryFee + Fees(rows[1..])
  }

  /** Splitting the rows by a condition splits their number and their fee
      total: what a filter keeps and what it drops add up to the whole. */
  lemma {:induction false} FeesSplit(rows: seq<OrderRow>, p: OrderRow -> bool)
    ensures |Where(rows, p)| + |Where(rows, row => !p(row))| == |rows|
    ensures Fees(Where(rows, p)) + Fees(Where(rows, row => !p(row))) == Fees(rows)
  {
    if rows != [] {
      var x, tail := rows[0], rows[1..];
      var q := (row: OrderRow) => !p(row);
      FeesSplit(tail, p);
      var wp, wq := Where(tail, p), Where(tail, q);
      if p(x) {
        assert Where(rows, p) == [x] + wp;
        assert Where(rows, q) == wq;
        FeesCons(x, wp);
      } else {
        assert Where(rows, p) == wp;
        assert Where(rows, q) == [x] + wq;
        FeesCons(x, wq);
      }
    }
  }

  /** `x or 0` for an aggregate. */
  function OrZero(x: Option<real>): real
  {
    if x.Some? then x.value else 0.0
  }

  datatype Stats = Stats(earningsToday: real, ordersToday: nat, earningsTotal: real, ordersTotal: nat)

  /** CourierStatsView: earnings and counts over the courier's delivered
      orders, today's (the order's creation date equals the current date)
      and all of them. */
  function CourierStats(rows: seq<OrderRow>, courier: nat, now: int): (s: Stats)
    ensures s.ordersTotal == |Where(rows, DeliveredBy(courier))|
    ensures s.earningsTotal == Fees(Where(rows, DeliveredBy(courier)))
    ensures s.ordersToday == |Where(rows, DeliveredByOn(courier, DayOf(now)))|
    ensures s.earningsToday == Fees(Where(rows, DeliveredByOn(courier, DayOf(now))))
    ensures s.ordersToday <= s.ordersTotal
    ensures s.ordersTotal == 0 ==> s.earningsTotal == 0.0 && s.earningsToday == 0.0
    ensures (forall i :: 0 <= i < |rows| ==> rows[i].deliveryFee >= 0.0) ==> 0.0 <= s.earningsToday <= s.earningsTotal
  {
    var today := Where(rows, DeliveredByOn(courier, DayOf(now)));
    var total := Where(rows, DeliveredBy(courier));
    NarrowerFilter(rows, DeliveredByOn(courier, DayOf(now)), DeliveredBy(courier));
    Stats(OrZero(FeeSum(today)), |today|, OrZero(FeeSum(total)), |total|)
  }

  /** A filter that admits fewer rows keeps fewer of them and, with
      non-negative fees, a smaller fee total. */
  lemma NarrowerFilter(rows: seq<OrderRow>, q: OrderRow -> bool, p: OrderRow -> bool)
    requires forall row :: q(row) ==> p(row)
    ensures |Where(rows, q)| <= |Where(rows, p)|
    ensures Where(rows, p) == [] ==> Where(rows, q) == []
    ensures (forall i :: 0 <= i < |rows| ==> rows[i].deliveryFee >= 0.0) ==>
              0.0 <= Fees(Where(rows, q)) <= Fees(Where(rows, p))
  {
    NarrowerCount(rows, q, p);
    if forall i :: 0 <= i < |rows| ==> rows[i].deliveryFee >= 0.0 {
      NarrowerFees(rows, q, p);
    }
  }

  lemma {:induction false} NarrowerCount(rows: seq<OrderRow>, q: OrderRow -> bool, p: OrderRow -> bool)
    requires forall row :: q(row) ==> p(row)
    ensures |Where(rows, q)| <= |Where(rows, p)|
  {
    if rows != [] {
      NarrowerCount(rows[1..], q, p);
    }
  }

  lemma {:induction false} NarrowerFees(rows: seq<OrderRow>, q: OrderRow -> bool, p: OrderRow -> bool)
    requires forall row :: q(row) ==> p(row)
    requires forall i :: 0 <= i < |rows| ==> rows[i].deliveryFee >= 0.0
    ensures 0.0 <= Fees(Where(rows, q)) <= Fees(Where(rows, p))
  {
    if rows != [] {
      var x, tail := rows[0], rows[1..];
      assert forall i :: 0 <= i < |tail| ==> tail[i] == rows[i + 1];
      NarrowerFees(tail, q, p);
      var wq, wp := Where(tail, q), Where(tail, p);
      assert x.deliveryFee >= 0.0;
      if q(x) {
        assert Where(rows, q) == [x] + wq;
        FeesCons(x, wq);
      } else {
        assert Where(rows, q) == wq;
      }
      if p(x) {
        assert Where(rows, p) == [x] + wp;
        FeesCons(x, wp);
      } else {
        assert Where(rows, p) == wp;
      }
    }
  }

  lemma FeesCons(x: OrderRow, rows: seq<OrderRow>)
    ensures Fees([x] + rows) == x.deliveryFee + Fees(rows)
  {
    assert ([x] + rows)[1..] == rows;
  }

  // ---------------------------------------------------------------------
  // Courier profile

  /** CourierProfile.VERIFICATION_STATUS_CHOICES */
  datatype VerificationStatus = NotSubmitted | OnReview | Approved | Rejected

  /** A courier's profile: its verification status and whether the courier
      is on line. The document images are not modelled. */
  class CourierProfile {
    const user: nat
    var verificationStatus: VerificationStatus
    var isOnline: bool

    constructor (user: nat)
      ensures this.user == user && verificationStatus == NotSubmitted && !isOnline
    {
      this.user := user;
      verificationStatus := NotSubmitted;
      isOnline := false;
    }
  }

  /** The courier profile table, one profile per user (OneToOneField). */
  class ProfileTable {
    var byUser: map<nat, CourierProfile>

    constructor ()
      ensures byUser == map[]
    {
      byUser := map[];
    }

    function ProfileOf(user: nat): set<CourierProfile>
      reads this
    {
      if user in byUser then {byUser[user]} else {}
    }

    /** get_or_create(user=...): the existing profile, or a new one with the
        defaults, stored under the user. */
    method GetOrCreate(user: nat) returns (p: CourierProfile, created: bool)
      modifies this
      ensures created <==> user !in old(byUser)
      ensures !created ==> p == old(byUser[user]) && byUser == old(byUser)
      ensures created ==> fresh(p) && p.user == user && p.verificationStatus == NotSubmitted && !p.isOnline
      ensures created ==> byUser == old(byUser)[user := p]
    {
      if user in byUser {
        p, created := byUser[user], false;
      } else {
        p := new CourierProfile(user);
        byUser := byUser[user := p];
        created := true;
      }
    }
  }

  /** ToggleOnlineStatusView: couriers only (403); the profile, created on
      first use, has its on-line flag negated, and the new flag is
      answered. */
  method ToggleOnline(table: ProfileTable, user: User) returns (reply: Reply, isOnline: bool)
    modifies table, table.ProfileOf(user.id)`isOnline
    ensures user.role != Courier ==> reply == Forbidden && table.byUser == old(table.byUser)
    ensures user.role == Courier ==>
      && reply == Success
      && user.id in table.byUser
      && isOnline == table.byUser[user.id].isOnline
      && isOnline == (if user.id in old(table.byUser) then !old(table.byUser[user.id].isOnline) else true)
      && (user.id in old(table.byUser) ==> table.byUser == old(table.byUser))
      && (user.id !in old(table.byUser) ==>
            && fresh(table.byUser[user.id]) && table.byUser[user.id].user == user.id
            && table.byUser[user.id].verificationStatus == NotSubmitted
            && table.byUser == old(table.byUser)[user.id := table.byUser[user.id]])
  {
    isOnline := false;
    if user.role != Courier {
      return Forbidden, isOnline;
    }
    var profile, created := table.GetOrCreate(user.id);
    profile.isOnline := !profile.isOnline;
    reply, isOnline := Success, profile.isOnline;
  }

  /** Toggling twice gives back the flag the courier started with; a
      courier without a profile ends with the default, off line. */
  method ToggleTwice(table: ProfileTable, user: User) returns (isOnline: bool)
    requires user.role == Courier
    modifies table, table.ProfileOf(user.id)`isOnline
    ensures isOnline == (if user.id in old(table.byUser) then old(table.byUser[user.id].isOnline) else false)
  {
    var reply;
    reply, isOnline := ToggleOnline(table, user);
    reply, isOnline := ToggleOnline(table, user);
  }

  /** UpdateCourierLocationView: couriers only (403); both coordinates must
      be present (any value, zero included), otherwise 400 and nothing
      changes. */
  method UpdateCourierLocation(user: User, latitude: Option<real>, longitude: Option<real>) returns (reply: Reply)
    modifies user`latitude, user`longitude
    ensures user.role != Courier ==> reply == Forbidden && unchanged(user)
    ensures user.role == Courier && latitude.Some? && longitude.Some? ==>
      reply == Success && user.latitude == latitude && user.longitude == longitude
    ensures user.role == Courier && !(latitude.Some? && longitude.Some?) ==> reply == BadRequest && unchanged(user)
  {
    if user.role != Courier {
      return Forbidden;
    }
    if latitude.Some? && longitude.Some? {
      user.latitude := latitude;
      user.longitude := longitude;
      return Success;
    }
    reply := BadRequest;
  }

  /** DocumentUploadView: couriers only (403, and no profile is created);
      otherwise the profile is fetched or created, and valid documents put
      it on review while invalid ones answer 400, the profile having been
      created all the same. Whether the upload is valid is decided by the
      serializer and is taken as an input. */
  method DocumentUpload(table: ProfileTable, user: User, documentsValid: bool) returns (reply: Reply)
    modifies table, table.ProfileOf(user.id)`verificationStatus
    ensures user.role != Courier ==> reply == Forbidden && table.byUser == old(table.byUser)
    ensures user.role == Courier ==> user.id in table.byUser
    ensures user.role == Courier && user.id in old(table.byUser) ==> table.byUser == old(table.byUser)
    ensures user.role == Courier && user.id !in old(table.byUser) ==>
      fresh(table.byUser[user.id]) && table.byUser == old(table.byUser)[user.id := table.byUser[user.id]]
    ensures user.role == Courier && documentsValid ==>
      reply == Success && table.byUser[user.id].verificationStatus == OnReview
    ensures user.role == Courier && !documentsValid ==>
      reply == BadRequest
      && table.byUser[user.id].verificationStatus
         == (if user.id in old(table.byUser) then old(table.byUser[user.id].verificationStatus) else NotSubmitted)
  {
    if user.role != Courier {
      return Forbidden;
    }
    var profile, created := table.GetOrCreate(user.id);
    if documentsValid {
      profile.verificationStatus := OnReview;
      return Success;
    }
    reply := BadRequest;
  }
}
