/** The order record of orders/models.py: its seven statuses, its fields
    and defaults, the order code generated on save, the line items, and the
    listing order (newest first) used by the order queries. */
module Orders {
  import opened Common

  /** Order.STATUS_CHOICES, exactly these seven. */
  datatype Status = Pending | Accepted | Preparing | ReadyForPickup | OnTheWay | Delivered | Cancelled

  /** Default of address_text. */
  const NoAddress: string := "Без адреса"

  /** max_length of the code column. */
  const CodeMaxLength: nat := 20

  /** An order. Foreign keys are held as the ids they store; `promoCode` is
      the promo reference that promos/services.py reads and writes. */
  class Order {
    const id: nat
    var code: string
    var user: Option<nat>
    var restaurant: Option<nat>
    var courier: Option<nat>
    var addressText: string
    var deliveryLat: Option<real>
    var deliveryLon: Option<real>
    var comment: string
    var itemsTotalPrice: real
    var deliveryFee: real
    var serviceFee: real
    var totalPrice: real
    var platformFee: real
    var restaurantPayout: real
    var courierPayout: real
    var status: Status
    var createdAt: int
    var isPaid: bool
    var paymentInvoiceId: Option<int>
    var promoCode: Option<nat>

    /** A new, unsaved order with every field at its declared default. */
    constructor (id: nat, createdAt: int)
      ensures this.id == id && this.createdAt == createdAt
      ensures code == "" && status == Pending && !isPaid
      ensures user == None && restaurant == None && courier == None && promoCode == None
      ensures addressText == NoAddress && comment == ""
      ensures deliveryLat == None && deliveryLon == None && paymentInvoiceId == None
      ensures itemsTotalPrice == 0.0 && deliveryFee == 0.0 && serviceFee == 0.0 && totalPrice == 0.0
      ensures platformFee == 0.0 && restaurantPayout == 0.0 && courierPayout == 0.0
    {
      this.id := id;
      this.createdAt := createdAt;
      code := "";
      user, restaurant, courier, promoCode := None, None, None, None;
      addressText := NoAddress;
      deliveryLat, deliveryLon := None, None;
      comment := "";
      itemsTotalPrice, deliveryFee, serviceFee, totalPrice := 0.0, 0.0, 0.0, 0.0;
      platformFee, restaurantPayout, courierPayout := 0.0, 0.0, 0.0;
      status := Pending;
      isPaid := false;
      paymentInvoiceId := None;
    }

    /** Order.objects.create(...): the given fields, every other field at
        its default, then the save() that create performs, which fills in
        the code from `random`. */
    constructor Create(id: nat, createdAt: int, user: nat, restaurant: nat,
                       addressText: string, deliveryLat: Option<real>, deliveryLon: Option<real>, comment: string,
                       itemsTotalPrice: real, deliveryFee: real, serviceFee: real, totalPrice: real,
                       platformFee: real, restaurantPayout: real, courierPayout: real, random: nat)
      ensures this.id == id && this.createdAt == createdAt && this.user == Some(user) && this.restaurant == Some(restaurant)
      ensures this.addressText == addressText && this.deliveryLat == deliveryLat && this.deliveryLon == deliveryLon
      ensures this.comment == comment
      ensures this.itemsTotalPrice == itemsTotalPrice && this.deliveryFee == deliveryFee
      ensures this.serviceFee == serviceFee && this.totalPrice == totalPrice
      ensures this.platformFee == platformFee && this.restaurantPayout == restaurantPayout
      ensures this.courierPayout == courierPayout
      ensures status == Pending && !isPaid && courier == None && promoCode == None && paymentInvoiceId == None
      ensures code == GeneratedCode(random)
    {
      this.id, this.createdAt := id, createdAt;
      this.user, this.restaurant := Some(user), Some(restaurant);
      this.addressText, this.deliveryLat, this.deliveryLon := addressText, deliveryLat, deliveryLon;
      this.comment := comment;
      this.itemsTotalPrice, this.deliveryFee, this.serviceFee, this.totalPrice := itemsTotalPrice, deliveryFee, serviceFee, totalPrice;
      this.platformFee, this.restaurantPayout, this.courierPayout := platformFee, restaurantPayout, courierPayout;
      code := "";
      courier, promoCode := None, None;
      status := Pending;
      isPaid := false;
      paymentInvoiceId := None;
      new;
      Save(random);
    }

    /** The fields the order queries filter, sort and sum on. */
    function Row(): OrderRow
      reads this
    {
      OrderRow(id, restaurant, courier, status, createdAt, deliveryFee)
    }

    /** save(): an empty code is replaced by one generated from `random`
        (the integer of a fresh uuid4); a code already set is kept. */
    method Save(random: nat)
      modifies this`code
      ensures old(code) != "" ==> code == old(code)
      ensures old(code) == "" ==> code == GeneratedCode(random)
      ensures code != ""
      ensures old(code) == "" ==> |code| <= CodeMaxLength
    {
      if code == "" {
        code := "JT-" + Prefix(DecimalString(random), 8);
      }
    }
  }

  /** The order a request targets, if the id exists; the only object a
      status transition may change. */
  function Target(orders: map<nat, Order>, orderId: nat): set<Order>
  {
    if orderId in orders then {orders[orderId]} else {}
  }

  /** What the order listings need of an order. */
  datatype OrderRow = OrderRow(
    id: nat,
    restaurant: Option<nat>,
    courier: Option<nat>,
    status: Status,
    createdAt: int,
    deliveryFee: real)

  /** OrderItem: the dish reference (null once the dish is deleted), the
      quantity (a PositiveIntegerField, so 0 is allowed; default 1) and the
      price captured when the order was placed. */
  datatype OrderItem = OrderItem(menu: Option<nat>, quantity: nat, priceAtTimeOfOrder: real)

  const DefaultQuantity: nat := 1

  /** What the lines of an order come to: the sum of price times quantity,
      accumulated line by line. */
  function LinesTotal(lines: seq<OrderItem>): real
  {
    if lines == [] then 0.0
    else LinesTotal(lines[..|lines| - 1]) + lines[|lines| - 1].priceAtTimeOfOrder * lines[|lines| - 1].quantity as real
  }

  /** The column names of Order, the keywords its constructor accepts. */
  const FieldNames: set<string> := {
    "id", "code", "user", "restaurant", "courier", "address_text", "delivery_lat", "delivery_lon",
    "comment", "items_total_price", "delivery_fee", "service_fee", "total_price", "platform_fee",
    "restaurant_payout", "courier_payout", "status", "created_at", "is_paid", "payment_invoice_id"}

  /** The keywords of Order(**kwargs) that name no field; Django raises
      TypeError when there is any. */
  function UnexpectedKeywords(kwargs: set<string>): set<string>
  {
    kwargs - FieldNames
  }

  // ---------------------------------------------------------------------
  // Order codes

  function DigitChar(d: nat): (c: char)
    requires d < 10
    ensures '0' <= c <= '9'
  {
    ('0' as int + d) as char
  }

  function DigitValue(c: char): nat
  {
    if '0' <= c <= '9' then c as int - '0' as int else 0
  }

  /** str(n) for a non-negative integer: its decimal digits, most significant first. */
  function DecimalString(n: nat): (s: string)
    ensures |s| >= 1
    ensures forall i :: 0 <= i < |s| ==> '0' <= s[i] <= '9'
    ensures n >= 10 ==> s[0] != '0'
  {
    if n < 10 then [DigitChar(n)]
    else DecimalString(n / 10) + [DigitChar(n % 10)]
  }

  /** int(s) for a string of decimal digits. */
  function ParseDecimal(s: string): nat
  {
    if s == [] then 0 else 10 * ParseDecimal(s[..|s| - 1]) + DigitValue(s[|s| - 1])
  }

  /** The decimal string of a number reads back as that number. */
  lemma {:induction false} DecimalStringRoundTrip(n: nat)
    ensures ParseDecimal(DecimalString(n)) == n
  {
    var s := DecimalString(n);
    if n < 10 {
      assert s[..0] == [];
    } else {
      var prefix := DecimalString(n / 10);
      assert s[..|s| - 1] == prefix;
      DecimalStringRoundTrip(n / 10);
    }
  }

  /** s[:k]: the first k characters, or all of s when it is shorter. */
  function Prefix(s: string, k: nat): (p: string)
    ensures |p| == if |s| < k then |s| else k
    ensures p == s[..|p|]
  {
    if |s| <= k then s else s[..k]
  }

  /** f"JT-{str(random)[:8]}" */
  function GeneratedCode(random: nat): (code: string)
    ensures 4 <= |code| <= 11 <= CodeMaxLength
    ensures code[..3] == "JT-"
    ensures forall i :: 3 <= i < |code| ==> '0' <= code[i] <= '9'
    ensures code[3..] == Prefix(DecimalString(random), 8)
  {
    "JT-" + Prefix(DecimalString(random), 8)
  }

  /** Saving twice yields the code of the first save, whatever randomness
      the second save is given. */
  method SaveTwice(o: Order, first: nat, second: nat)
    modifies o`code
    ensures o.code == (if old(o.code) == "" then GeneratedCode(first) else old(o.code))
  {
    o.Save(first);
    o.Save(second);
  }

  // ---------------------------------------------------------------------
  // Listing order: Meta.ordering = ['-created_at'] and order_by('-created_at')

  predicate NewestFirstOrder(rows: seq<OrderRow>)
  {
    forall i, j :: 0 <= i < j < |rows| ==> rows[i].createdAt >= rows[j].createdAt
  }

  /** x placed before the first row that is not newer than it. */
  function InsertByAge(x: OrderRow, rows: seq<OrderRow>): (r: seq<OrderRow>)
    ensures |r| == |rows| + 1
    ensures r[0] == x || (|rows| > 0 && r[0] == rows[0])
  {
    if rows == [] || x.createdAt >= rows[0].createdAt then [x] + rows
    else [rows[0]] + InsertByAge(x, rows[1..])
  }

  lemma {:induction false} InsertByAgeKeepsRows(x: OrderRow, rows: seq<OrderRow>)
    ensures multiset(InsertByAge(x, rows)) == multiset(rows) + multiset{x}
  {
    if rows != [] && x.createdAt < rows[0].createdAt {
      InsertByAgeKeepsRows(x, rows[1..]);
      assert rows == [rows[0]] + rows[1..];
    }
  }

  lemma {:induction false} InsertByAgeSorted(x: OrderRow, rows: seq<OrderRow>)
    requires NewestFirstOrder(rows)
    ensures NewestFirstOrder(InsertByAge(x, rows))
  {
    var r := InsertByAge(x, rows);
    if rows == [] || x.createdAt >= rows[0].createdAt {
      forall i, j | 0 <= i < j < |r| ensures r[i].createdAt >= r[j].createdAt {
        assert r[j] == rows[j - 1];
        if i > 0 {
          assert r[i] == rows[i - 1];
        }
      }
    } else {
      var tail := rows[1..];
      assert NewestFirstOrder(tail) by {
        forall i, j | 0 <= i < j < |tail| ensures tail[i].createdAt >= tail[j].createdAt {
          assert tail[i] == rows[i + 1] && tail[j] == rows[j + 1];
        }
      }
      var rest := InsertByAge(x, tail);
      InsertByAgeSorted(x, tail);
      assert r == [rows[0]] + rest;
      forall i, j | 0 <= i < j < |r| ensures r[i].createdAt >= r[j].createdAt {
        assert r[j] == rest[j - 1];
        if i > 0 {
          assert r[i] == rest[i - 1];
        } else if j > 1 {
          assert rest[0].createdAt >= rest[j - 1].createdAt;
        }
      }
    }
  }

  /** The rows sorted newest first: a permutation of the input. */
  function NewestFirst(rows: seq<OrderRow>): (r: seq<OrderRow>)
    ensures NewestFirstOrder(r)
    ensures multiset(r) == multiset(rows)
  {
    if rows == [] then []
    else
      var rest := NewestFirst(rows[1..]);
      InsertByAgeKeepsRows(rows[0], rest);
      InsertByAgeSorted(rows[0], rest);
      assert rows == [rows[0]] + rows[1..];
      InsertByAge(rows[0], rest)
  }

  /** The rows that satisfy `p`, in their original order. */
  function Where(rows: seq<OrderRow>, p: OrderRow -> bool): (r: seq<OrderRow>)
    ensures forall x :: multiset(r)[x] == if p(x) then multiset(rows)[x] else 0
  {
    if rows == [] then []
    else
      assert rows == [rows[0]] + rows[1..];
      (if p(rows[0]) then [rows[0]] else []) + Where(rows[1..], p)
  }
}
