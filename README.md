# JetFood order core in Dafny

This project models the order core of the JetFood food-delivery backend, a Django service:

- **Delivery fees.** A restaurant's delivery tariffs are time windows, and some run past midnight. The first active tariff prices the order. The fee is rounded to a multiple of 50 with Python's half-to-even `round`. The model covers the three versions of this code: `calculate_delivery_fee`, `calculate_delivery_cost` and the inline code of `OrderSerializer.create`.
- **Order totals and the payout split.** Items total, service fee clamped between a floor and a ceiling, the order total, and the three-way split between platform, restaurant and courier.
- **Order creation.** Both creation paths, with their line-item price snapshots.
- **The order status machine.** Seven statuses. The restaurant side accepts, rejects and advances an order. The courier side takes and delivers it. The courier assignment service is included.
- **Courier views.** The queries: available orders, current order, history and earnings. The profile actions: on-line toggle and document upload. The location update.
- **Promo codes.** Validity, use counting, case-insensitive lookup, and application to an unpaid order.
- **Order codes.** The `JT-` code generated on the first save.
- **Ratings.** The recompute of a restaurant's average rating and review count after a review changes.
- **The user manager.** `create_user` and `create_superuser`.

## How the source maps onto Dafny

Pure computations are functions with named results. The lemmas beside them state what they promise.

Code that updates records in place becomes classes and methods:

- `Order`, `Restaurant`, `User`, `PromoCode`, `CourierProfile` and `UserManager` are classes.
- The views and services that write their fields are methods with `modifies` frames. Each frame names only the fields the source writes, for example ``Target(orders, id)`status``.
- The delivery-fee loops are `while` loops with invariants. Each is proved equal to a specification function, and the lemmas are stated over that function.

The order table is a `map` from id to `Order` object. The listings read `OrderRow` values.

A view that answers with a serialized order renders it through the OrderSerializer field list, which is modelled as a set of names.

Failures are `Result` errors, one `Error` constructor per exception the source raises. HTTP answers are `Reply` values (200, 400, 403, 404, or 500 for an exception no view catches). A Django `get()` is a `Lookup`: one row, none, or several.

Inputs stand in for what the core reads from outside:

- the time of day or the current instant;
- the distance in kilometres (geodesic or haversine);
- the random integer of `uuid4`;
- the order in which the database lists an unordered query;
- whether an upload passes the serializer.

Decimal values are `real`.

## Model

| member | source | states |
|---|---|---|
| Common.RoundHalfEven | orders/services.py:69 | Python `round` of a Decimal: the result is within 1/2 of x, and an exact tie goes to the even integer |
| Common.RoundHalfEvenUnique | orders/services.py:69 | those two properties determine the rounding: any integer satisfying them equals RoundHalfEven(x) |
| Common.RoundToFifty | orders/services.py:69 | `round(cost/50)*50` is a whole multiple of 50, within 25 of the cost, and an exact tie goes to the even multiple |
| Accounts.LookupAddress | orders/services.py:102-105 | the address is found iff it exists and belongs to the user; otherwise "address not found" |
| DeliveryFees.CalculateDeliveryFee | orders/services.py:29-69 | the loop over the tariffs in database order, with break on the first active one, returns exactly the services fee for that listing order, `ServicesFee`: the tariff `ServicesTariff` picks, priced by distance and rounded to 50 |
| DeliveryFees.CalculateDeliveryCost | orders/services.py:141-182 | the same loop over the tariffs ordered by id returns `ServicesFee` for the id order |
| DeliveryFees.ServicesTariffChoice | orders/services.py:42-58 | no tariff only when the restaurant has none; otherwise the first active tariff in listing order, and the first tariff by id when none is active |
| DeliveryFees.ServicesFeeRounding | orders/services.py:66-69 | with coordinates present and a tariff chosen, the fee is a multiple of 50, within 25 of base fee + distance × fee per km, and a tie goes to the even multiple |
| DeliveryFees.ServicesFeeWithoutCoordinates | orders/services.py:34-37 | when any of the four coordinates is missing or zero, the fee is the first tariff's base fee unrounded (500 without tariffs), whatever the distance |
| DeliveryFees.ServicesFeeWithoutTariffs | orders/services.py:55-58 | a restaurant without tariffs is charged 500.00 |
| DeliveryFees.ScanOrderIrrelevantWithoutOverlap | orders/services.py:154 | when at most one tariff is active, the unordered scan and the id-ordered scan charge the same fee |
| DeliveryFees.GetDistance | orders/serializers.py:14-16 | 0 as soon as one coordinate is None, the great-circle distance otherwise |
| DeliveryFees.SerializerTariffChoice | orders/serializers.py:89-96 | a chosen tariff belongs to the restaurant and its window holds now (end excluded); a chosen night tariff is the first night tariff; nothing is chosen iff no day window holds now and the first night tariff's window does not |
| DeliveryFees.SerializerFeeShape | orders/serializers.py:81-98 | the serializer fee `SerializerFee`, priced on the tariff `SerializerTariff` picks, is a multiple of 50; it is 0 without tariffs, without both latitudes, or without a chosen tariff |
| DeliveryFees.WindowTestsDifferOnlyAtNightEnd | orders/serializers.py:91 | the services and serializer window tests agree everywhere except at the exact end of a night window, which only the services code counts |
| DeliveryFees.VersionsDisagreeWhenNoTariffActive | orders/serializers.py:94-98 | with no active tariff, the services code prices with the first tariff while the serializer charges 0 |
| DeliveryFees.SerializerIgnoresSecondNightTariff | orders/serializers.py:89-94 | concrete case: a 23:00–05:00 tariff listed after a 22:00–01:00 one is chosen by the services code at 03:00, and the serializer chooses nothing |
| Orders.Order.constructor | orders/models.py:20-52 | a new order is pending, unpaid, with no courier, all money fields 0, and the declared address and comment defaults; it also has no promo reference, a field the model adds (see Promos.ApplyPromoCodeToOrder under Left out) |
| Orders.Order.Create | orders/models.py:20-58 | Order.objects.create: the given fields, the defaults elsewhere, and the code generated by its save |
| Orders.Order.Save | orders/models.py:54-58 | an empty code becomes `JT-` plus the first 8 digits of the random integer, within max_length 20; a code already set is kept |
| Orders.SaveTwice | orders/models.py:54-58 | saving twice keeps the first save's code, whatever the second save draws |
| Orders.GeneratedCode | orders/models.py:57 | the code is "JT-" followed by 1 to 8 digits that are the prefix of the integer's decimal string, and it fits the 20-character column |
| Orders.DecimalString | orders/models.py:57 | `str(n)`: at least one digit, only digits, and no leading zero |
| Orders.DecimalStringRoundTrip | orders/models.py:57 | `int(str(n)) == n` |
| Orders.Prefix | orders/models.py:57 | `s[:k]` is the first min(k, len s) characters of s |
| Orders.NewestFirst | orders/models.py:64 | `order_by('-created_at')` is sorted newest first and is a permutation of its input |
| Orders.Where | orders/views.py:31 | a filter keeps each row that satisfies the condition as often as it occurs, and no other row |
| Lifecycle.StepMovesForward | orders/views.py:37-84 | every successful transition moves strictly forward along pending → … → delivered / cancelled; only courier assignment changes the courier, and only on an order without one; only pending orders get cancelled |
| Lifecycle.TerminalIsFinal | courier/views.py:115-120 | delivered and cancelled orders accept no transition |
| Lifecycle.RestaurantSideEndsAtReady | orders/views.py:44-80 | no restaurant transition starts from ready_for_pickup, on_the_way, delivered or cancelled |
| Lifecycle.HappyPath | orders/views.py:44-73 | accept, prepare, ready, take and deliver take a new order to delivered with its courier |
| Lifecycle.AssignedCourierStays | courier/services.py:17-21 | once assigned, no sequence of requests changes or clears the courier |
| Lifecycle.AtMostOneAssignment | courier/services.py:17-22 | in any sequence of requests, at most one courier assignment succeeds, and none on an order that has a courier |
| Lifecycle.RunMovesForward | orders/views.py:37-84 | a sequence of requests never moves an order backwards and never changes a delivered or cancelled order |
| Lifecycle.RunKeepsCourierConsistent | courier/services.py:20-21 | the courier is set exactly when the order is on the way or delivered, after any sequence of requests |
| OrderRendering.UnknownFields | orders/serializers.py:55-59 | a name of the field list is unknown iff it is neither declared on the serializer nor a field of Order |
| OrderRendering.RenderOrder | orders/serializers.py:55-59 | rendering an order answers 200 iff every name of the field list resolves, and 500 otherwise |
| OrderRendering.OrderSerializerAsWrittenFails | orders/serializers.py:55-59 | as written, exactly `address`, `preparation_time` and `estimated_delivery_time` are unknown, so rendering answers 500 |
| OrderRendering.OrderSerializerFieldsResolve | orders/serializers.py:55-59 | with `address_text` in place of `address` and the timing fields dropped, every name resolves and rendering answers 200 |
| RestaurantViews.OwnedRestaurant | orders/views.py:41 | `get_object_or_404(Restaurant, owner=user)`: found (owned by the user), missing iff the user owns none, ambiguous iff the user owns two or more |
| RestaurantViews.RestaurantOrder | orders/views.py:41-42 | the order is found iff the user's single restaurant exists and the order with that id belongs to it; ambiguous exactly when the owner lookup is |
| RestaurantViews.AcceptOrder | orders/views.py:40-48 | pending → accepted with 200, otherwise 400 and nothing changes; 404 or 500 from the lookups; only that order's status is written |
| RestaurantViews.RejectOrder | orders/views.py:53-61 | pending → cancelled with 200, otherwise 400 and nothing changes; 404 or 500 from the lookups |
| RestaurantViews.UpdateOrderStatus | orders/views.py:66-84 | accepted → preparing and preparing → ready_for_pickup, then the order rendered with the corrected OrderSerializer field list (200); otherwise 400 and nothing changes |
| RestaurantViews.OwnedIds | orders/views.py:30 | exactly the ids of the restaurants the user owns |
| RestaurantViews.RestaurantOrders | orders/views.py:27-33 | exactly the orders of the user's restaurants, each as often as in the table, newest first |
| CourierService.AcceptOrderForCourier | courier/services.py:7-26 | unknown id → DoesNotExist; ready_for_pickup with no courier → courier and on_the_way set together; otherwise ValidationError with the order unchanged; only courier and status are written |
| CourierService.TwoCouriersAccept | courier/services.py:15-22 | of two couriers asking in turn for the same order, the second always fails and a successful first stays assigned |
| CourierViews.CourierAcceptOrder | courier/views.py:76-92 | non-couriers get 403 with nothing changed; unknown id 404; then the same guard and step as the service, 400 when it fails; on success the order is rendered with the corrected OrderSerializer field list (200) |
| CourierViews.OrderPickedUp | courier/views.py:97-106 | changes nothing; 404 iff the order is not the requester's, otherwise 200 iff it is on the way |
| CourierViews.OrderDelivered | courier/views.py:113-120 | 404 unless the requester's own order; then on_the_way → delivered with 200, otherwise 400 and nothing changes |
| CourierViews.AvailableOrders | courier/views.py:67-68 | exactly the orders ready for pickup with no courier, newest first |
| CourierViews.CourierHistory | courier/views.py:183-185 | exactly the orders assigned to the courier, whatever their status, newest first |
| CourierViews.CurrentOrder | courier/views.py:51-58 | none (404) iff the courier has no order on the way; otherwise such an order with no newer one |
| CourierViews.NewestMatching | orders/models.py:64 | the first row of a newest-first filtered listing exists iff some row matches, matches, and is the newest match |
| CourierViews.FeeSum | courier/views.py:201 | `Sum()` is NULL exactly over no rows, and otherwise the sum of the rows' delivery fees |
| CourierViews.FeesSplit | courier/views.py:196-211 | the rows a filter keeps and the rows it drops add up to all rows, in number and in delivery fees |
| CourierViews.CourierStats | courier/views.py:192-218 | the totals are the number and the fee sum of the courier's delivered orders, today's those of the ones created on the current UTC day; today's count is at most the total; no delivered orders means zero earnings; with non-negative fees 0 ≤ today's earnings ≤ total earnings |
| CourierViews.NarrowerFilter | courier/views.py:196-211 | a stricter filter keeps no more rows and, with non-negative fees, no larger fee sum |
| CourierViews.CourierProfile.constructor | courier/models.py:24-32 | a new profile is not_submitted and off line |
| CourierViews.ProfileTable.GetOrCreate | courier/views.py:167 | returns the existing profile unchanged, or stores a fresh one with the defaults under the user |
| CourierViews.ToggleOnline | courier/views.py:165-175 | the courier's profile (created on first use, then not_submitted and offline) has is_online negated and the new value answered; every other user's profile is kept; only couriers (otherwise 403) |
| CourierViews.ToggleTwice | courier/views.py:169-170 | toggling twice restores the original flag (off line for a new profile) |
| CourierViews.UpdateCourierLocation | courier/views.py:127-141 | 403 for non-couriers; both coordinates given (zero included) → written with 200; otherwise 400 and nothing changes |
| CourierViews.DocumentUpload | courier/views.py:23-42 | 403 for non-couriers with no profile created; valid documents put the profile on review; invalid ones answer 400 with the status unchanged, the profile having been created; only the caller's profile is added, the others are kept |
| Totals.CartIds | orders/services.py:76 | one id per cart entry, the entry's `menu` in order |
| Totals.CartAcceptedIff | orders/services.py:76-80 | the count test passes iff the cart is non-empty, every entry names an existing dish, and no dish is named twice |
| Totals.FirstDishId | orders/services.py:82 | `dishes.first()` is the cart's dish with the lowest id |
| Totals.ServiceFee | orders/services.py:87-89 | at least the floor; at most the ceiling when floor ≤ ceiling; the percentage share when between them |
| Totals.CalculateOrderTotals | orders/services.py:72-97 | empty cart and unresolved or duplicate dishes are refused; the items total is the sum of price × quantity over the cart; the service fee is the percentage of it clamped to its bounds; the total is items + delivery + service fee; the delivery fee is that of the lowest-id dish's restaurant |
| Totals.Payouts | orders/services.py:112-120 | the commission is the restaurant percentage of the items total; the platform gets commission + service fee, the restaurant the items total − commission, the courier the delivery fee; these add up to the total; the restaurant payout lies in [0, items total] for a commission in [0, 100] |
| Totals.Snapshot | orders/services.py:123-127 | one line per cart entry, with its dish, its quantity and the dish's current price |
| Totals.SnapshotTotal | orders/services.py:123-127 | the saved lines add up to the items total recorded on the order |
| Totals.CreateOrderAsWritten | orders/services.py:100-121 | the function as written: an address not owned by the user is refused, and the create call's keywords are checked |
| Totals.CreateOrderAsWrittenAlwaysFails | orders/services.py:114-121 | as written, every call ends in an error; a valid cart and address end in TypeError from the unknown keywords |
| Totals.ServicesCreateKeywordsAreFields | orders/services.py:114-121 | the corrected keywords all name Order fields |
| Totals.CreateOrderWithCalculations | orders/services.py:100-130 | the corrected function: refuses an unknown address and failed totals; otherwise a fresh pending order with the totals, a split that adds up to the total and the generated code, and lines that snapshot the dish prices and add up to the items total |
| OrderCreation.SnapshotOf | orders/serializers.py:113-116 | the line holds the dish, the quantity and the dish's price |
| OrderCreation.SnapshotItems | orders/serializers.py:111-117 | the loop makes one snapshot line per item in order, and its running sum equals the lines' total |
| OrderCreation.SerializerCreateAsWrittenRaises | orders/serializers.py:100-109 | as written, `address` is the one keyword of the create call that names no Order field |
| OrderCreation.SerializerCreateKeywordsAreFields | orders/serializers.py:100-109 | with `address_text` instead, every keyword is a field |
| OrderCreation.CreateOrder | orders/serializers.py:65-122 | empty items and a foreign address are refused before anything is created; otherwise the restaurant of the first item, the serializer fee, one snapshot line per item, total = lines' sum + fee with no service fee, payout fields 0 |
| Promos.PromoCode.constructor | promos/models.py:20-25 | a new code has used_count 0 |
| Promos.PromoCode.Apply | promos/models.py:35-45 | used_count grows by exactly 1, without a validity check, and nothing else is written |
| Promos.InvalidIff | promos/models.py:27-33 | a code is invalid iff it is past its expiry or has used_count ≥ max_uses |
| Promos.ValidAtExpiry | promos/models.py:29 | at the expiry instant itself only the use limit decides |
| Promos.UnlimitedAlwaysValid | promos/models.py:29-33 | with neither expiry nor limit a code is always valid |
| Promos.ValidEarlier | promos/models.py:29 | a code valid at some instant is valid at every earlier one |
| Promos.ApplyInvalid | promos/models.py:31-45 | applying an invalid code keeps it invalid, and on an exhausted code the count goes past max_uses |
| Promos.UpperChar | promos/services.py:28 | ASCII lower-case letters map to their upper case; other characters are kept |
| Promos.Upper | promos/services.py:28 | upper-casing keeps the length and folds character by character |
| Promos.UpperIdempotent | promos/services.py:28 | folding twice equals folding once |
| Promos.SameCodeIsEquivalence | promos/services.py:28 | `iexact` matching is reflexive, symmetric and transitive, and a code matches its upper case |
| Promos.FindPromo | promos/services.py:28-30 | `get(code__iexact=…)`: a match, none iff no code matches, several iff two codes match |
| Promos.DiscountAmount | promos/services.py:36 | for a non-negative total and a discount in [0, 100], the amount lies in [0, total] |
| Promos.DiscountedTotal | promos/services.py:39 | never negative; total − amount whenever that is not negative; at most the total for a discount in [0, 100] |
| Promos.ApplyPromoCodeToOrder | promos/services.py:11-47 | refuses, in this order: a promo already on the order, a paid order, no matching code, several matching codes, an invalid code; succeeds iff none applies; on refusal order and codes are unchanged; on success the total is discounted, the order references the code, its count grows by 1 within max_uses, and the discount amount is returned |
| Promos.ApplyTwice | promos/services.py:20-21 | after a successful application, a second one on the same order is refused with the first code kept |
| Promos.LastUse | promos/services.py:32-43 | with one use left, two orders cannot both get the code |
| Reviews.ReviewsOf | reviews/signals.py:16 | exactly the reviews whose order belongs to the restaurant, each as often as in the table |
| Reviews.Ratings | reviews/signals.py:19 | the ratings of the reviews, in order |
| Reviews.Mean | reviews/signals.py:19 | `Avg(...) or 0`: 0 over no ratings, otherwise mean × count = sum |
| Reviews.SumBounds | reviews/models.py:12-14 | ratings in 1..5 sum to between their count and five times it |
| Reviews.MeanInRange | reviews/signals.py:19 | with ratings in 1..5, the mean of a non-empty list lies in [1, 5] |
| Reviews.OwnMeanInRange | reviews/signals.py:16-19 | with every rating in 1..5, a restaurant with reviews has a mean in [1, 5] |
| Reviews.UpdateRestaurantRating | reviews/signals.py:7-25 | a deleted restaurant gives AttributeError; otherwise average_rating is the mean and review_count the number of that restaurant's reviews, in [1, 5] when ratings are valid and there are some, and only those two fields are written |
| Managers.PhoneValue | core/managers.py:20 | the phone as a keyword value: text iff given |
| Managers.SetDefault | core/managers.py:9 | `setdefault` adds the key, never overwrites a caller's value, and fills the default only when the key was missing |
| Managers.SetDefaultIdempotent | core/managers.py:16-20 | a second setdefault of the same key has no effect |
| Managers.UsernameOf | core/models.py:17 | a missing username is NULL |
| Managers.SuperuserDefaultsOf | core/managers.py:16-20 | is_staff, is_superuser and is_active default to True, role to "admin" and username to the phone; caller values are kept |
| Managers.UserManager.CreateUser | core/managers.py:6-13 | phone among the extra fields → TypeError at the call, before anything else; then a missing or empty phone → ValueError; a taken phone or username → IntegrityError; success iff none of these; username defaults to the phone; the user is appended only on success |
| Managers.UserManager.CreateSuperuser | core/managers.py:15-27 | phone among the extra fields → TypeError at the call, before anything else; then an explicit is_staff or is_superuser that is not True is refused, before the phone is checked; then create_user's checks apply: a missing or empty phone → ValueError, a taken phone or username → IntegrityError; success iff none of these; a created superuser holds the defaults and every caller value |

## Left out

- Distance: the haversine of `get_distance` (orders/serializers.py:17-26) and geopy's `geodesic` are floating-point and library code. The distance in kilometres is an input; only the None guard of `get_distance` is modelled.
- Clock: `timezone.now()` is an input, as a time of day (microseconds since midnight) or an instant. Courier stats compare UTC calendar days.
- Randomness and hashing: the `uuid4` integer is an input. `set_password` is not modelled, so the record keeps the password it was given.
- Locking and atomicity: `select_for_update`, `transaction.atomic` and the `F()` increment are not modelled. Operations run one after another, which is the order the locks impose. Exclusivity is stated as "the second request fails".
- Push notifications: they exist only as TODO comments and are not modelled.
- Payments are not part of this model: the PayLink client and the payment views and webhook.
- REST plumbing is not part of this model: serializer field lists, URLs, admin, migrations, permission classes, and the CRUD views outside the core. Status checks on `request.user.role` are modelled inside the view methods. Of the serializer field lists only OrderSerializer's is modelled, for the rendering of an order (see Findings).
- Decimal precision: money and ratings are exact reals. Quantisation to the columns' decimal places is not modelled, and neither is the float rounding of `RestaurantSerializer.get_rating`.
- DeliveryFees.CalculateDeliveryCost: the `or Decimal('0.00')` guards (orders/services.py:176-177) are not modelled. The columns are NOT NULL, so the guard can only turn a zero into a zero.
- Reviews.UpdateRestaurantRating: the rating validators (reviews/models.py:12-14) do not run on save. So the [1, 5] bound is proved under the condition that every stored rating is in range, not assumed.
- Promos.UpperChar: `iexact` is modelled as ASCII upper-casing. The database's full Unicode case folding is not modelled.
- Managers.UserManager.CreateUser: the model constructor's rejection of keywords that name no User field is not modelled, because the field list comes from Django's AbstractUser. The unique constraints of phone and username are modelled as the save's IntegrityError.
- UpdateOrderStatus: as written the view answers 500 on every successful transition, because OrderSerializer cannot be built (see Findings), and the status it saved just before stays committed. RestaurantViews.UpdateOrderStatus renders with the corrected field list and answers 200.
- CourierAcceptOrder: as written the view answers 500 after every successful acceptance for the same reason, with the courier and the on_the_way status already committed. CourierViews.CourierAcceptOrder renders with the corrected field list and answers 200.
- Promos.ApplyPromoCodeToOrder: Order as declared (orders/models.py:9-66) has no `promo_code` field, so `order.promo_code` at promos/services.py:20 raises AttributeError on every call. The model adds an optional promo reference to Order and states the behaviour the service evidently intends; Promos.ApplyTwice and Promos.LastUse rest on the same field.
- Orders.Order.Save: the code is unique (orders/models.py:20) but drawn from 8 random digits, so two orders can draw the same code, and the second save then raises IntegrityError. Collisions are not modelled: the random integer is an input and every save succeeds.
- OrderCreation.CreateOrder: an item whose `menu` is omitted or null, or whose `quantity` is omitted, passes validation (the foreign key is nullable and the quantity has a default, orders/models.py:71-72) and then raises KeyError or AttributeError in `create`. For the first item's menu this happens before the order is created; otherwise after the order and the earlier lines were created. The model takes every item with a dish and a quantity, so these failures are not modelled.
- Accounts.User.constructor: core/models.py as given declares neither the User coordinates nor Address. Both are modelled from their uses: courier/serializers.py:16, core/serializers.py:95 and the views.
- The Order listing order: `Meta.ordering` and `order_by('-created_at')` do not specify an order among equal timestamps. Any newest-first order is allowed. So CurrentOrder picks an order with no newer one, not a particular one among ties.

### Behaviour of the source that the model reproduces

- An owner of two restaurants makes the restaurant transition views raise MultipleObjectsReturned (a 500). In `RestaurantOrdersView`, the `except Restaurant.DoesNotExist` can never fire.
- `calculate_order_totals` prices delivery with the restaurant of the cart's lowest-id dish. `create_order_with_calculations` records the restaurant of the first cart line.
- Case-insensitive promo lookup can match both "SALE" and "sale", because the unique constraint is case-sensitive. The uncaught MultipleObjectsReturned is modelled as an error.
- A review on an order whose restaurant was deleted (SET_NULL) makes the rating signal fail. The same receiver runs on both save and delete.
- `DocumentUploadView` creates the courier profile even when the upload is invalid.
- The location update accepts zero coordinates, because it checks only for None.
- `create_superuser` checks is_staff and is_superuser before `create_user` checks the phone.

## Findings

| source | as written | input that shows it | evidently intended | confidence | as-written member | corrected member |
|---|---|---|---|---|---|---|
| orders/services.py:114-121 | `Order.objects.create(... address=..., payment_method='card_online', ...)` passes two keywords that are not Order fields, so Django raises TypeError | any cart and address that pass the address lookup and `calculate_order_totals`, e.g. one existing dish with quantity 1 and the user's own address | write the address to `address_text` and drop `payment_method`, which the model no longer has | not executed | Totals.CreateOrderAsWrittenAlwaysFails | Totals.CreateOrderWithCalculations |
| orders/serializers.py:55-59 | `Meta.fields` names `address`, `preparation_time` and `estimated_delivery_time`, which are neither declared on OrderSerializer nor fields of Order, so building the serializer's fields raises ImproperlyConfigured and every rendering of an order answers 500 | a successful `UpdateOrderStatusView` or `CourierAcceptOrderView` request, which saves the order and then renders it | `address_text` in place of `address`, and the two timing fields dropped | not executed | OrderRendering.OrderSerializerAsWrittenFails | OrderRendering.OrderSerializerFieldsResolve |
| orders/serializers.py:100 | `validated_data['address'] = ...` makes `Order.objects.create(**validated_data)` receive `address`, which is not an Order field, so it raises TypeError | any non-empty item list with the user's own address | `validated_data['address_text'] = address_obj.full_address` | not executed | OrderCreation.SerializerCreateAsWrittenRaises | OrderCreation.CreateOrder |
