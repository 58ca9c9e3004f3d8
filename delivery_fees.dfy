/** Delivery-fee calculation: the tariff choice and the fee of
    calculate_delivery_fee and calculate_delivery_cost (orders/services.py)
    and of the older inline code of OrderSerializer.create
    (orders/serializers.py). The distance between the two points and the
    current time of day are inputs. */
module DeliveryFees {
  import opened Common
  import opened Accounts
  import opened Restaurants

  /** The fee charged when a restaurant has no tariff at all: 500.00. */
  const DefaultFee: real := 500.0

  /** Index of the first element of `s` that satisfies `p`, or |s|. */
  function FirstIndex(s: seq<Tariff>, p: Tariff -> bool): (k: nat)
    ensures k <= |s|
    ensures k < |s| ==> p(s[k])
    ensures forall j :: 0 <= j < k ==> !p(s[j])
  {
    if s == [] then 0
    else if p(s[0]) then 0
    else 1 + FirstIndex(s[1..], p)
  }

  /** The first element of `s` that satisfies `p`: a loop that breaks on the
      first match, or a filter followed by first() on rows in id order. */
  function First(s: seq<Tariff>, p: Tariff -> bool): (r: Option<Tariff>)
    ensures r.None? <==> forall t :: t in s ==> !p(t)
    ensures r.Some? ==> r.value in s && p(r.value)
  {
    var k := FirstIndex(s, p);
    if k < |s| then Some(s[k])
    else
      assert forall t :: t in s ==> !p(t) by {
        forall t | t in s ensures !p(t) {
          var j :| 0 <= j < |s| && s[j] == t;
        }
      }
      None
  }

  /** The first element matching is the one at the first index that matches. */
  lemma FirstAt(s: seq<Tariff>, p: Tariff -> bool, i: nat)
    requires i < |s| && p(s[i])
    requires forall j :: 0 <= j < i ==> !p(s[j])
    ensures First(s, p) == Some(s[i])
  {
  }

  // ---------------------------------------------------------------------
  // orders/services.py

  /** Activity test of orders/services.py: a window past midnight is active
      from its start on or up to and INCLUDING its end; any other window from
      its start up to but excluding its end. */
  predicate ActiveInServices(t: Tariff, now: TimeOfDay)
  {
    if WrapsMidnight(t) then now >= t.startTime || now <= t.endTime
    else t.startTime <= now < t.endTime
  }

  /** ActiveInServices at a fixed time, as a test on tariffs. */
  function ActiveAt(now: TimeOfDay): Tariff -> bool
  {
    t => ActiveInServices(t, now)
  }

  /** `all([restaurant.latitude, restaurant.longitude, address.latitude,
      address.longitude])`: all four coordinates present and non-zero. */
  predicate CoordinatesPresent(r: Restaurant, a: Address)
  {
    Truthy(r.latitude) && Truthy(r.longitude) && Truthy(a.latitude) && Truthy(a.longitude)
  }

  /** The tariff the services code prices with: the first active one in the
      order `scan` lists the rows, else the restaurant's first tariff by id. */
  function ServicesTariff(r: Restaurant, scan: seq<Tariff>, now: TimeOfDay): Option<Tariff>
  {
    match First(scan, ActiveAt(now))
    case Some(t) => Some(t)
    case None => if |r.tariffs| > 0 then Some(r.tariffs[0]) else None
  }

  /** The unrounded price of a tariff at a distance. */
  function TariffCost(t: Tariff, distanceKm: real): real
  {
    t.baseFee + distanceKm * t.feePerKm
  }

  /** The fee of a tariff at a distance, rounded as the source rounds it. */
  function TariffFee(t: Tariff, distanceKm: real): real
  {
    RoundToFifty(TariffCost(t, distanceKm))
  }

  /** The fee calculate_delivery_fee returns when the database lists the
      restaurant's tariffs in the order `scan`; calculate_delivery_cost is
      the same with `scan` in id order. */
  function ServicesFee(r: Restaurant, a: Address, scan: seq<Tariff>, now: TimeOfDay, distanceKm: real): real
  {
    if !CoordinatesPresent(r, a) then
      (if |r.tariffs| > 0 then r.tariffs[0].baseFee else DefaultFee)
    else
      match ServicesTariff(r, scan, now)
      case None => DefaultFee
      case Some(t) => TariffFee(t, distanceKm)
  }

  /** calculate_delivery_fee: `scan` is the order in which the database
      returns the unordered `restaurant.tariffs.all()`. */
  method CalculateDeliveryFee(restaurant: Restaurant, address: Address, now: TimeOfDay,
                              distanceKm: real, scan: seq<Tariff>) returns (fee: real)
    ensures fee == ServicesFee(restaurant, address, scan, now, distanceKm)
  {
    if !(Truthy(restaurant.latitude) && Truthy(restaurant.longitude)
         && Truthy(address.latitude) && Truthy(address.longitude)) {
      if |restaurant.tariffs| > 0 {
        return restaurant.tariffs[0].baseFee;
      }
      return DefaultFee;
    }
    var active: Option<Tariff> := None;
    var i := 0;
    while i < |scan|
      invariant 0 <= i <= |scan|
      invariant active.None?
      invariant forall j :: 0 <= j < i ==> !ActiveInServices(scan[j], now)
    {
      var tariff := scan[i];
      if tariff.startTime > tariff.endTime {
        if now >= tariff.startTime || now <= tariff.endTime {
          active := Some(tariff);
          break;
        }
      } else {
        if tariff.startTime <= now < tariff.endTime {
          active := Some(tariff);
          break;
        }
      }
      i := i + 1;
    }
    if active.Some? {
      FirstAt(scan, ActiveAt(now), i);
    } else {
      assert forall t :: t in scan ==> !ActiveAt(now)(t);
    }
    if active.None? {
      if |restaurant.tariffs| == 0 {
        return DefaultFee;
      }
      active := Some(restaurant.tariffs[0]);
    }
    assert active == ServicesTariff(restaurant, scan, now);
    var tariff := active.value;
    var calculatedCost := tariff.baseFee + distanceKm * tariff.feePerKm;
    fee := 50.0 * RoundHalfEven(calculatedCost / 50.0) as real;
    assert calculatedCost == TariffCost(tariff, distanceKm);
  }

  /** calculate_delivery_cost: the same computation iterating the tariffs
      ordered by id. */
  method CalculateDeliveryCost(restaurant: Restaurant, address: Address, now: TimeOfDay,
                               distanceKm: real) returns (fee: real)
    ensures fee == ServicesFee(restaurant, address, restaurant.tariffs, now, distanceKm)
  {
    if !(Truthy(restaurant.latitude) && Truthy(restaurant.longitude)
         && Truthy(address.latitude) && Truthy(address.longitude)) {
      if |restaurant.tariffs| > 0 {
        return restaurant.tariffs[0].baseFee;
      }
      return DefaultFee;
    }
    var ordered := restaurant.tariffs;
    var active: Option<Tariff> := None;
    var i := 0;
    while i < |ordered|
      invariant 0 <= i <= |ordered|
      invariant active.None?
      invariant forall j :: 0 <= j < i ==> !ActiveInServices(ordered[j], now)
    {
      var tariff := ordered[i];
      if tariff.startTime > tariff.endTime {
        if now >= tariff.startTime || now <= tariff.endTime {
          active := Some(tariff);
          break;
        }
      } else {
        if tariff.startTime <= now < tariff.endTime {
          active := Some(tariff);
          break;
        }
      }
      i := i + 1;
    }
    if active.Some? {
      FirstAt(ordered, ActiveAt(now), i);
    } else {
      assert forall t :: t in ordered ==> !ActiveAt(now)(t);
    }
    if active.None? {
      if |restaurant.tariffs| == 0 {
        return DefaultFee;
      }
      active := Some(restaurant.tariffs[0]);
    }
    assert active == ServicesTariff(restaurant, ordered, now);
    var tariff := active.value;
    var baseFee := tariff.baseFee;
    var feePerKm := tariff.feePerKm;
    var calculatedCost := baseFee + distanceKm * feePerKm;
    fee := 50.0 * RoundHalfEven(calculatedCost / 50.0) as real;
    assert calculatedCost == TariffCost(tariff, distanceKm);
  }

  /** Which tariff the services code picks, when `scan` lists exactly the
      restaurant's tariffs: none only for a restaurant without tariffs; the
      first active one in `scan` when there is one; otherwise the first
      tariff by id. */
  lemma ServicesTariffChoice(r: Restaurant, scan: seq<Tariff>, now: TimeOfDay)
    requires multiset(scan) == multiset(r.tariffs)
    ensures ServicesTariff(r, scan, now).None? <==> |r.tariffs| == 0
    ensures ServicesTariff(r, scan, now).Some? ==> ServicesTariff(r, scan, now).value in r.tariffs
    ensures (exists k :: 0 <= k < |scan| && ActiveInServices(scan[k], now)) ==>
              exists k :: 0 <= k < |scan| && ServicesTariff(r, scan, now) == Some(scan[k])
                          && ActiveInServices(scan[k], now)
                          && forall j :: 0 <= j < k ==> !ActiveInServices(scan[j], now)
    ensures (forall t :: t in r.tariffs ==> !ActiveInServices(t, now)) && |r.tariffs| > 0 ==>
              ServicesTariff(r, scan, now) == Some(r.tariffs[0])
  {
    var p := ActiveAt(now);
    assert forall t :: t in scan <==> t in r.tariffs by {
      forall t ensures t in scan <==> t in r.tariffs {
        assert t in scan <==> t in multiset(scan);
        assert t in r.tariffs <==> t in multiset(r.tariffs);
      }
    }
    if |r.tariffs| == 0 {
      assert scan == [];
    }
    var k := FirstIndex(scan, p);
    if k < |scan| {
      assert First(scan, p) == Some(scan[k]);
    }
  }

  /** With all coordinates present the fee is a whole multiple of 50, at
      most 25 away from the chosen tariff's base fee plus distance times fee
      per km, and an exact tie goes to the even multiple of 50. */
  lemma ServicesFeeRounding(r: Restaurant, a: Address, scan: seq<Tariff>, now: TimeOfDay, distanceKm: real)
    requires CoordinatesPresent(r, a)
    requires ServicesTariff(r, scan, now).Some?
    ensures var fee := ServicesFee(r, a, scan, now, distanceKm);
            var t := ServicesTariff(r, scan, now).value;
            var cost := t.baseFee + distanceKm * t.feePerKm;
            && (fee / 50.0).Floor as real == fee / 50.0
            && cost - 25.0 <= fee <= cost + 25.0
            && ((fee == cost - 25.0 || fee == cost + 25.0) ==> (fee / 50.0).Floor % 2 == 0)
  {
    var t := ServicesTariff(r, scan, now).value;
    assert ServicesFee(r, a, scan, now, distanceKm) == RoundToFifty(TariffCost(t, distanceKm));
  }

  /** Without all four coordinates (a zero counts as missing), the fee is
      the first tariff's base fee, unrounded, or 500 without tariffs; the
      distance plays no part. */
  lemma ServicesFeeWithoutCoordinates(r: Restaurant, a: Address, scan: seq<Tariff>, now: TimeOfDay, d1: real, d2: real)
    requires !Truthy(r.latitude) || !Truthy(r.longitude) || !Truthy(a.latitude) || !Truthy(a.longitude)
    ensures ServicesFee(r, a, scan, now, d1) == (if |r.tariffs| > 0 then r.tariffs[0].baseFee else DefaultFee)
    ensures ServicesFee(r, a, scan, now, d1) == ServicesFee(r, a, scan, now, d2)
  {
  }

  /** A restaurant without tariffs is charged 500.00 whatever the inputs. */
  lemma ServicesFeeWithoutTariffs(r: Restaurant, a: Address, scan: seq<Tariff>, now: TimeOfDay, distanceKm: real)
    requires r.tariffs == []
    requires multiset(scan) == multiset(r.tariffs)
    ensures ServicesFee(r, a, scan, now, distanceKm) == DefaultFee
  {
    assert |scan| == |multiset(scan)|;
    assert scan == [];
  }

  /** When at most one tariff is active at `now`, the order in which the
      database lists the rows does not matter: calculate_delivery_fee and
      calculate_delivery_cost charge the same fee. */
  lemma ScanOrderIrrelevantWithoutOverlap(r: Restaurant, a: Address, scan: seq<Tariff>, now: TimeOfDay, distanceKm: real)
    requires multiset(scan) == multiset(r.tariffs)
    requires forall i, j :: 0 <= i < j < |r.tariffs| && ActiveInServices(r.tariffs[i], now)
               ==> !ActiveInServices(r.tariffs[j], now)
    ensures ServicesFee(r, a, scan, now, distanceKm) == ServicesFee(r, a, r.tariffs, now, distanceKm)
  {
    var p := ActiveAt(now);
    assert forall t :: t in scan <==> t in r.tariffs by {
      forall t ensures t in scan <==> t in r.tariffs {
        assert t in scan <==> t in multiset(scan);
        assert t in r.tariffs <==> t in multiset(r.tariffs);
      }
    }
    assert First(scan, p) == First(r.tariffs, p);
  }

  // ---------------------------------------------------------------------
  // orders/serializers.py

  /** get_distance: 0 as soon as one coordinate is None; otherwise the
      great-circle distance, which is an input here. */
  function GetDistance(lat1: Option<real>, lon1: Option<real>, lat2: Option<real>, lon2: Option<real>,
                       greatCircleKm: real): (d: real)
    ensures lat1.None? || lon1.None? || lat2.None? || lon2.None? ==> d == 0.0
    ensures lat1.Some? && lon1.Some? && lat2.Some? && lon2.Some? ==> d == greatCircleKm
  {
    if lat1.None? || lon1.None? || lat2.None? || lon2.None? then 0.0 else greatCircleKm
  }

  /** Window test the serializer uses for a night tariff: active from its
      start on or strictly before its end. */
  predicate NightActiveInSerializer(t: Tariff, now: TimeOfDay)
  {
    now >= t.startTime || now < t.endTime
  }

  /** The serializer's day filter `start_time <= now < end_time`. */
  predicate DayActive(t: Tariff, now: TimeOfDay)
  {
    t.startTime <= now < t.endTime
  }

  /** The serializer's tariff choice: the first night tariff by id if its
      window holds now, otherwise the first tariff by id whose plain window
      holds now, otherwise none. */
  function SerializerTariff(tariffs: seq<Tariff>, now: TimeOfDay): Option<Tariff>
  {
    var night := First(tariffs, WrapsMidnight);
    if night.Some? && NightActiveInSerializer(night.value, now) then night
    else First(tariffs, t => DayActive(t, now))
  }

  /** The fee OrderSerializer.create charges: 0.00 unless the restaurant has
      a tariff and both latitudes are truthy and some tariff is chosen;
      otherwise the rounded tariff fee over get_distance. */
  function SerializerFee(r: Restaurant, a: Address, now: TimeOfDay, greatCircleKm: real): real
  {
    if |r.tariffs| > 0 && Truthy(r.latitude) && Truthy(a.latitude) then
      var distance := GetDistance(a.latitude, a.longitude, r.latitude, r.longitude, greatCircleKm);
      match SerializerTariff(r.tariffs, now)
      case None => 0.0
      case Some(t) => TariffFee(t, distance)
    else 0.0
  }

  /** What the serializer's choice guarantees: a chosen tariff belongs to
      the restaurant and its window holds now (end excluded); a night tariff
      is only chosen if it is the first night tariff; nothing is chosen only
      if no plain window holds now and the first night tariff's does not. */
  lemma SerializerTariffChoice(tariffs: seq<Tariff>, now: TimeOfDay)
    ensures var c := SerializerTariff(tariffs, now);
            c.Some? ==> c.value in tariffs
                        && (if WrapsMidnight(c.value) then NightActiveInSerializer(c.value, now)
                            else DayActive(c.value, now))
    ensures var c := SerializerTariff(tariffs, now);
            c.Some? && WrapsMidnight(c.value) ==> c == First(tariffs, WrapsMidnight)
    ensures var c := SerializerTariff(tariffs, now);
            c.None? <==> (forall t :: t in tariffs ==> !DayActive(t, now))
                         && (First(tariffs, WrapsMidnight).Some? ==>
                               !NightActiveInSerializer(First(tariffs, WrapsMidnight).value, now))
  {
    var night := First(tariffs, WrapsMidnight);
    var day := First(tariffs, t => DayActive(t, now));
    if day.Some? {
      // a plain window that holds now cannot be a night window
      assert !WrapsMidnight(day.value);
    }
  }

  /** The serializer's fee is always a whole multiple of 50, and it is zero
      unless the restaurant has tariffs and both latitudes are truthy. */
  lemma SerializerFeeShape(r: Restaurant, a: Address, now: TimeOfDay, greatCircleKm: real)
    ensures var fee := SerializerFee(r, a, now, greatCircleKm);
            (fee / 50.0).Floor as real == fee / 50.0
    ensures !(|r.tariffs| > 0 && Truthy(r.latitude) && Truthy(a.latitude)) ==>
              SerializerFee(r, a, now, greatCircleKm) == 0.0
    ensures SerializerTariff(r.tariffs, now).None? ==> SerializerFee(r, a, now, greatCircleKm) == 0.0
  {
  }

  // ---------------------------------------------------------------------
  // The two versions side by side

  /** The services test and the serializer test agree on every tariff at
      every time except at the exact end of a window past midnight, which
      the services code counts as active and the serializer does not. */
  lemma WindowTestsDifferOnlyAtNightEnd(t: Tariff, now: TimeOfDay)
    ensures ActiveInServices(t, now) <==>
              (if WrapsMidnight(t) then NightActiveInSerializer(t, now) else DayActive(t, now))
              || (WrapsMidnight(t) && now == t.endTime)
  {
  }

  /** When no tariff is active, the services code prices with the first
      tariff while the serializer charges nothing. */
  lemma VersionsDisagreeWhenNoTariffActive(r: Restaurant, a: Address, scan: seq<Tariff>, now: TimeOfDay,
                                           distanceKm: real)
    requires CoordinatesPresent(r, a)
    requires |r.tariffs| > 0
    requires multiset(scan) == multiset(r.tariffs)
    requires forall t :: t in r.tariffs ==> !ActiveInServices(t, now)
    ensures ServicesFee(r, a, scan, now, distanceKm) == TariffFee(r.tariffs[0], distanceKm)
    ensures SerializerFee(r, a, now, distanceKm) == 0.0
  {
    ServicesTariffChoice(r, scan, now);
    SerializerTariffChoice(r.tariffs, now);
    var night := First(r.tariffs, WrapsMidnight);
    if night.Some? {
      assert !ActiveInServices(night.value, now);
    }
    forall t | t in r.tariffs ensures !DayActive(t, now) {
      assert !ActiveInServices(t, now);
    }
  }

  /** Only the first night tariff is ever considered by the serializer:
      with a 22:00-01:00 tariff listed before a 23:00-05:00 one, at 03:00
      the services code picks the second while the serializer picks none. */
  lemma SerializerIgnoresSecondNightTariff()
    ensures var hour := 3_600_000_000;
            var first := Tariff(1, "late", 22 * hour, 1 * hour, 500.0, 50.0);
            var second := Tariff(2, "night", 23 * hour, 5 * hour, 600.0, 60.0);
            && First([first, second], ActiveAt(3 * hour)) == Some(second)
            && SerializerTariff([first, second], 3 * hour) == None
  {
    var hour := 3_600_000_000;
    var first := Tariff(1, "late", 22 * hour, 1 * hour, 500.0, 50.0);
    var second := Tariff(2, "night", 23 * hour, 5 * hour, 600.0, 60.0);
    var ts := [first, second];
    FirstAt(ts, ActiveAt(3 * hour), 1);
    FirstAt(ts, WrapsMidnight, 0);
    assert First(ts, t => DayActive(t, 3 * hour)).None? by {
      forall t | t in ts ensures !DayActive(t, 3 * hour) { }
    }
  }
}
