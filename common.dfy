/** Values shared by every part of the delivery backend model: optional
    values, results carrying the backend's validation errors, Python truth
    values of nullable decimals, and Python's rounding of a Decimal. */
module Common {

  datatype Option<T> = None | Some(value: T)

  /** The errors the backend raises (ValidationError, DoesNotExist,
      MultipleObjectsReturned, ValueError, TypeError), one constructor each. */
  datatype Error =
    | EmptyCart                  // "the cart is empty" / "cannot create an empty order"
    | DishNotFound               // one or more dishes of the cart do not resolve
    | AddressNotFound            // the address id does not belong to the user
    | OrderUnavailable           // courier accept on an order that is not free
    | OrderDoesNotExist          // Order.DoesNotExist on an unknown id
    | PromoAlreadyApplied
    | OrderAlreadyPaid
    | PromoNotFound
    | PromoMultipleFound         // MultipleObjectsReturned of a case-insensitive get
    | PromoInvalid
    | PhoneRequired              // ValueError of create_user
    | NotStaff                   // ValueError: superuser must have is_staff=True
    | NotSuperuser               // ValueError: superuser must have is_superuser=True
    | DuplicatePhoneArgument     // TypeError: phone given twice to the model constructor
    | UnexpectedKeyword          // TypeError: a model constructor given a name that is not a field
    | RestaurantMissing          // AttributeError: the order's restaurant was deleted (set to null)
    | DuplicateUser              // IntegrityError: phone or username already taken

  datatype Result<T> = Ok(value: T) | Err(error: Error)

  /** The HTTP status classes the views answer with: 200, 400, 403, 404,
      and 500 for an exception no view catches. */
  datatype Reply = Success | BadRequest | Forbidden | NotFound | ServerError

  /** A Django get(): exactly one match, none (DoesNotExist), or several
      (MultipleObjectsReturned). */
  datatype Lookup<T> = Found(value: T) | Missing | Ambiguous

  /** A nullable decimal field read as a Python truth value: None and zero are false. */
  predicate Truthy(x: Option<real>)
  {
    x.Some? && x.value != 0.0
  }

  /** Python's max and min of two decimals. */
  function Max(a: real, b: real): real { if a >= b then a else b }
  function Min(a: real, b: real): real { if a <= b then a else b }

  /** Python's round() of a Decimal: the nearest integer, ties to the even one. */
  function RoundHalfEven(x: real): (n: int)
    ensures n as real - 0.5 <= x <= n as real + 0.5
    ensures (x == n as real - 0.5 || x == n as real + 0.5) ==> n % 2 == 0
  {
    var f := x.Floor;
    var d := x - f as real;
    if d < 0.5 then f
    else if d > 0.5 then f + 1
    else if f % 2 == 0 then f
    else f + 1
  }

  /** The two properties in RoundHalfEven's contract determine the result:
      they are a complete, independent description of the rounding. */
  lemma RoundHalfEvenUnique(x: real, m: int)
    requires m as real - 0.5 <= x <= m as real + 0.5
    requires (x == m as real - 0.5 || x == m as real + 0.5) ==> m % 2 == 0
    ensures m == RoundHalfEven(x)
  {
    var n := RoundHalfEven(x);
    // m != n would make x the midpoint of two neighbouring integers that
    // are both even
    if m < n {
      assert false;
    } else if m > n {
      assert false;
    }
  }

  /** The fee rounding of the tariff code: round(cost / 50) * 50. */
  function RoundToFifty(cost: real): (fee: real)
    ensures (fee / 50.0).Floor as real == fee / 50.0
    ensures cost - 25.0 <= fee <= cost + 25.0
    ensures (fee == cost - 25.0 || fee == cost + 25.0) ==> (fee / 50.0).Floor % 2 == 0
  {
    var n := RoundHalfEven(cost / 50.0);
    assert (50.0 * n as real) / 50.0 == n as real;
    50.0 * n as real
  }

  /** A get() over the rows `s` with the filter `p`: the one matching row,
      none, or several. */
  function GetOne<T>(s: seq<T>, p: T -> bool): (r: Lookup<T>)
    ensures r.Found? ==> r.value in s && p(r.value)
    ensures r.Missing? <==> forall i :: 0 <= i < |s| ==> !p(s[i])
    ensures r.Ambiguous? <==> exists i, j :: 0 <= i < j < |s| && p(s[i]) && p(s[j])
  {
    if s == [] then Missing
    else
      var rest := GetOne(s[1..], p);
      assert forall i :: 1 <= i < |s| ==> s[i] == s[1..][i - 1];
      if !p(s[0]) then
        assert (exists i, j :: 0 <= i < j < |s| && p(s[i]) && p(s[j]))
          ==> (exists i, j :: 0 <= i < j < |s[1..]| && p(s[1..][i]) && p(s[1..][j])) by {
          if exists i, j :: 0 <= i < j < |s| && p(s[i]) && p(s[j]) {
            var i, j :| 0 <= i < j < |s| && p(s[i]) && p(s[j]);
            assert p(s[1..][i - 1]) && p(s[1..][j - 1]);
          }
        }
        rest
      else if rest.Missing? then Found(s[0])
      else
        var k :| 0 <= k < |s[1..]| && p(s[1..][k]);
        assert p(s[k + 1]);
        Ambiguous
  }

  /** Sum of a sequence of decimals. */
  function Sum(s: seq<real>): real
  {
    if s == [] then 0.0 else Sum(s[..|s| - 1]) + s[|s| - 1]
  }

  /** The elements of a sequence, as a set. */
  function Elems<T(!new)>(s: seq<T>): (r: set<T>)
    ensures forall x :: x in r <==> x in s
  {
    if s == [] then {} else {s[0]} + Elems(s[1..])
  }

  predicate Distinct<T(==)>(s: seq<T>)
  {
    forall i, j :: 0 <= i < j < |s| ==> s[i] != s[j]
  }

  /** A subset is no larger than its superset. */
  lemma {:induction false} SubsetCard<T>(a: set<T>, b: set<T>)
    requires a <= b
    ensures |a| <= |b|
  {
    if a != {} {
      var x :| x in a;
      SubsetCard(a - {x}, b - {x});
    }
  }

  /** A sequence has as many distinct elements as entries exactly when no
      entry repeats; otherwise strictly fewer. */
  lemma {:induction false} ElemsCard<T(!new)>(s: seq<T>)
    ensures |Elems(s)| <= |s|
    ensures |Elems(s)| == |s| <==> Distinct(s)
  {
    if s != [] {
      var tail := s[1..];
      ElemsCard(tail);
      var rest := Elems(tail);
      assert Elems(s) == {s[0]} + rest;
      if s[0] in rest {
        assert Elems(s) == rest;
        var k :| 0 <= k < |tail| && tail[k] == s[0];
        assert s[k + 1] == s[0];
      } else {
        assert |Elems(s)| == |rest| + 1;
        assert Distinct(s) <==> Distinct(tail) by {
          if Distinct(s) {
            forall i, j | 0 <= i < j < |tail| ensures tail[i] != tail[j] {
              assert tail[i] == s[i + 1] && tail[j] == s[j + 1];
            }
          }
          if Distinct(tail) {
            forall i, j | 0 <= i < j < |s| ensures s[i] != s[j] {
              if i == 0 {
                assert s[j] == tail[j - 1];
              } else {
                assert s[i] == tail[i - 1] && s[j] == tail[j - 1];
              }
            }
          }
        }
      }
    }
  }
}
