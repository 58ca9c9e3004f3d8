/** Restaurants, their delivery tariffs and their dishes
    (restaurants/models.py, menu/models.py). */
module Restaurants {
  import opened Common

  /** A time of day in microseconds since midnight, the resolution of
      Python's datetime.time. */
  const MicrosPerDay: int := 86_400_000_000
  type TimeOfDay = t: int | 0 <= t < 86_400_000_000

  /** DeliveryTariff: a time window with a base fee and a fee per kilometre. */
  datatype Tariff = Tariff(
    id: nat,
    name: string,
    startTime: TimeOfDay,
    endTime: TimeOfDay,
    baseFee: real,
    feePerKm: real)

  /** A window whose start lies after its end runs past midnight. */
  predicate WrapsMidnight(t: Tariff)
  {
    t.startTime > t.endTime
  }

  /** Rows listed in ascending primary-key order, the order Django's
      first() and order_by('id') use. */
  predicate InIdOrder(ts: seq<Tariff>)
  {
    forall i, j :: 0 <= i < j < |ts| ==> ts[i].id < ts[j].id
  }

  /** A restaurant. Its identity, owner, position and tariffs are fixed in
      the core; the review signal rewrites the rating fields. `tariffs` is
      the related manager `restaurant.tariffs`, listed in primary-key order. */
  class Restaurant {
    const id: nat
    const owner: nat
    const latitude: Option<real>
    const longitude: Option<real>
    const tariffs: seq<Tariff>
    var averageRating: real
    var reviewCount: nat

    constructor (id: nat, owner: nat, latitude: Option<real>, longitude: Option<real>, tariffs: seq<Tariff>)
      requires InIdOrder(tariffs)
      ensures this.id == id && this.owner == owner
      ensures this.latitude == latitude && this.longitude == longitude && this.tariffs == tariffs
      ensures averageRating == 0.0 && reviewCount == 0
    {
      this.id := id;
      this.owner := owner;
      this.latitude := latitude;
      this.longitude := longitude;
      this.tariffs := tariffs;
      averageRating := 0.0;
      reviewCount := 0;
    }
  }

  /** menu/models.py Dish, loaded with its restaurant (select_related). */
  datatype Dish = Dish(id: nat, restaurant: Restaurant, price: real)
}
