/** The restaurant rating recompute (reviews/signals.py): after a review
    is saved or deleted, the restaurant of the review's order gets the mean
    rating and the number of reviews over all orders of that restaurant. */
module Reviews {
  import opened Common
  import opened Restaurants

  /** reviews/models.py Review: one review per order. The 1..5 validators
      of rating run in forms and serializers, not on save, so the model
      does not assume them. */
  datatype Review = Review(id: nat, user: nat, order: nat, rating: nat)

  /** The reviews whose order belongs to the restaurant `restaurant`
      (filter(order__restaurant=restaurant)), in table order. `restaurantOf`
      maps an order id to the order's restaurant, None once that restaurant
      was deleted. */
  function ReviewsOf(reviews: seq<Review>, restaurantOf: map<nat, Option<nat>>, restaurant: nat): (r: seq<Review>)
    ensures forall rv ::
              multiset(r)[rv] ==
              if rv.order in restaurantOf && restaurantOf[rv.order] == Some(restaurant) then multiset(reviews)[rv] else 0
    ensures |r| <= |reviews|
  {
    if reviews == [] then []
    else
      assert reviews == [reviews[0]] + reviews[1..];
      var rv := reviews[0];
      (if rv.order in restaurantOf && restaurantOf[rv.order] == Some(restaurant) then [rv] else [])
        + ReviewsOf(reviews[1..], restaurantOf, restaurant)
  }

  function Ratings(reviews: seq<Review>): (s: seq<nat>)
    ensures |s| == |reviews|
    ensures forall i :: 0 <= i < |reviews| ==> s[i] == reviews[i].rating
  {
    seq(|reviews|, i requires 0 <= i < |reviews| => reviews[i].rating)
  }

  function IntSum(s: seq<nat>): nat
  {
    if s == [] then 0 else s[0] + IntSum(s[1..])
  }

  /** Avg('rating') or 0: the arithmetic mean, 0 when there is nothing to
      average. */
  function Mean(s: seq<nat>): (m: real)
    ensures |s| == 0 ==> m == 0.0
    ensures |s| > 0 ==> m * |s| as real == IntSum(s) as real
  {
    if |s| == 0 then 0.0 else IntSum(s) as real / |s| as real
  }

  /** Ratings within 1..5 sum to between the count and five times it. */
  lemma {:induction false} SumBounds(s: seq<nat>)
    requires forall i :: 0 <= i < |s| ==> 1 <= s[i] <= 5
    ensures |s| <= IntSum(s) <= 5 * |s|
  {
    if s != [] {
      SumBounds(s[1..]);
    }
  }

  /** With every rating in 1..5 the mean of a non-empty list lies in
      [1, 5]. */
  lemma MeanInRange(s: seq<nat>)
    requires |s| > 0
    requires forall i :: 0 <= i < |s| ==> 1 <= s[i] <= 5
    ensures 1.0 <= Mean(s) <= 5.0
  {
    SumBounds(s);
    var n := |s| as real;
    assert (5 * |s|) as real == 5.0 * n;
    DivBounds(IntSum(s) as real, n);
  }

  lemma DivBounds(a: real, n: real)
    requires n > 0.0 && n <= a <= 5.0 * n
    ensures 1.0 <= a / n <= 5.0
  {
  }

  /** The stored mean of a restaurant with reviews lies in [1, 5] when
      every rating in the table does. */
  lemma OwnMeanInRange(reviews: seq<Review>, restaurantOf: map<nat, Option<nat>>, restaurant: nat)
    requires forall i :: 0 <= i < |reviews| ==> 1 <= reviews[i].rating <= 5
    requires |ReviewsOf(reviews, restaurantOf, restaurant)| > 0
    ensures 1.0 <= Mean(Ratings(ReviewsOf(reviews, restaurantOf, restaurant))) <= 5.0
  {
    var own := ReviewsOf(reviews, restaurantOf, restaurant);
    forall i | 0 <= i < |own| ensures 1 <= Ratings(own)[i] <= 5 {
      assert multiset(own)[own[i]] > 0;
      assert own[i] in reviews;
    }
    MeanInRange(Ratings(own));
  }

  /** The restaurant the recompute writes: the one of the review's order,
      when there still is one. */
  function RatedRestaurant(restaurants: map<nat, Restaurant>, restaurantOf: map<nat, Option<nat>>, instance: Review)
    : (r: set<Restaurant>)
    ensures |r| <= 1
  {
    if instance.order in restaurantOf && restaurantOf[instance.order].Some?
       && restaurantOf[instance.order].value in restaurants
    then {restaurants[restaurantOf[instance.order].value]}
    else {}
  }

  /** update_restaurant_rating, the receiver of both post_save and
      post_delete of a Review. `reviews` is the table after the save or
      delete. An order whose restaurant was deleted has no restaurant to
      write to (AttributeError on None); otherwise only average_rating and
      review_count of that restaurant are written. */
  method UpdateRestaurantRating(instance: Review, reviews: seq<Review>, restaurantOf: map<nat, Option<nat>>,
                                restaurants: map<nat, Restaurant>)
    returns (r: Result<Restaurant>)
    requires instance.order in restaurantOf
    requires restaurantOf[instance.order].Some? ==> restaurantOf[instance.order].value in restaurants
    modifies RatedRestaurant(restaurants, restaurantOf, instance)`averageRating
    modifies RatedRestaurant(restaurants, restaurantOf, instance)`reviewCount
    ensures restaurantOf[instance.order].None? ==> r == Err(RestaurantMissing)
    ensures restaurantOf[instance.order].Some? ==>
      var id := restaurantOf[instance.order].value;
      var own := ReviewsOf(reviews, restaurantOf, id);
      && r == Ok(restaurants[id])
      && restaurants[id].averageRating == Mean(Ratings(own))
      && restaurants[id].reviewCount == |own|
      && ((forall i :: 0 <= i < |reviews| ==> 1 <= reviews[i].rating <= 5) && |own| > 0 ==>
            1.0 <= restaurants[id].averageRating <= 5.0)
  {
    var restaurantId := restaurantOf[instance.order];
    if restaurantId.None? {
      return Err(RestaurantMissing);
    }
    var restaurant := restaurants[restaurantId.value];
    var own := ReviewsOf(reviews, restaurantOf, restaurantId.value);
    var newRating := Mean(Ratings(own));
    var reviewCount := |own|;
    restaurant.averageRating := newRating;
    restaurant.reviewCount := reviewCount;
    if (forall i :: 0 <= i < |reviews| ==> 1 <= reviews[i].rating <= 5) && |own| > 0 {
      OwnMeanInRange(reviews, restaurantOf, restaurantId.value);
    }
    r := Ok(restaurant);
  }
}
