/** Promo codes (promos/models.py, promos/services.py): a percentage
    discount with an optional expiry instant and an optional use limit,
    looked up case-insensitively and applied once to an unpaid order. */
module Promos {
  import opened Common
  import opened Orders

  /** One promo code row. Only the use count is ever written. Instants are
      microseconds since the epoch. */
  class PromoCode {
    const id: nat
    const code: string
    const discount: real            // percent: 10.0 takes 10% off
    const expiresAt: Option<int>
    const maxUses: Option<nat>
    var usedCount: nat

    constructor (id: nat, code: string, discount: real, expiresAt: Option<int>, maxUses: Option<nat>)
      ensures this.id == id && this.code == code && this.discount == discount
      ensures this.expiresAt == expiresAt && this.maxUses == maxUses
      ensures usedCount == 0
    {
      this.id, this.code, this.discount := id, code, discount;
      this.expiresAt, this.maxUses := expiresAt, maxUses;
      usedCount := 0;
    }

    /** is_valid at the instant `now`: not past the expiry (the expiry
        instant itself still counts) and not out of uses. */
    predicate IsValid(now: int)
      reads this
    {
      if expiresAt.Some? && now > expiresAt.value then false
      else if maxUses.Some? && usedCount >= maxUses.value then false
      else true
    }

    /** apply: one more use, recorded whether or not the code is still
        valid. */
    method Apply()
      modifies this`usedCount
      ensures usedCount == old(usedCount) + 1
    {
      usedCount := usedCount + 1;
    }
  }

  /** A code is invalid exactly when it is past its expiry or out of uses. */
  lemma InvalidIff(p: PromoCode, now: int)
    ensures !p.IsValid(now) <==>
      (p.expiresAt.Some? && now > p.expiresAt.value) || (p.maxUses.Some? && p.usedCount >= p.maxUses.value)
  {
  }

  /** At the expiry instant itself only the use limit decides. */
  lemma ValidAtExpiry(p: PromoCode, now: int)
    requires p.expiresAt == Some(now)
    ensures p.IsValid(now) <==> p.maxUses.None? || p.usedCount < p.maxUses.value
  {
  }

  /** A code with neither an expiry nor a limit is valid at every instant. */
  lemma UnlimitedAlwaysValid(p: PromoCode, now: int)
    requires p.expiresAt == None && p.maxUses == None
    ensures p.IsValid(now)
  {
  }

  /** Validity only ends: a code valid at some instant was valid at every
      earlier one with the same use count. */
  lemma ValidEarlier(p: PromoCode, earlier: int, later: int)
    requires earlier <= later && p.IsValid(later)
    ensures p.IsValid(earlier)
  {
  }

  /** Once a code is invalid at an instant, recording a use keeps it
      invalid there; on an exhausted code the count goes past the limit. */
  method ApplyInvalid(p: PromoCode, now: int)
    requires !p.IsValid(now)
    modifies p`usedCount
    ensures !p.IsValid(now)
    ensures p.maxUses.Some? && old(p.usedCount) >= p.maxUses.value ==> p.usedCount > p.maxUses.value
  {
    p.Apply();
  }

  /** Upper case of one character, as the database's UPPER() folds it for
      ASCII letters; other characters are kept. */
  function UpperChar(c: char): (u: char)
    ensures 'a' <= c <= 'z' ==> 'A' <= u <= 'Z' && u as int - c as int == 'A' as int - 'a' as int
    ensures !('a' <= c <= 'z') ==> u == c
  {
    if 'a' <= c <= 'z' then (c as int - 'a' as int + 'A' as int) as char else c
  }

  function Upper(s: string): (u: string)
    ensures |u| == |s|
    ensures forall i :: 0 <= i < |s| ==> u[i] == UpperChar(s[i])
  {
    seq(|s|, i requires 0 <= i < |s| => UpperChar(s[i]))
  }

  /** Folding twice changes nothing more. */
  lemma UpperIdempotent(s: string)
    ensures Upper(Upper(s)) == Upper(s)
  {
  }

  /** code__iexact: equal once both sides are upper-cased. */
  predicate SameCode(a: string, b: string)
  {
    Upper(a) == Upper(b)
  }

  /** Letters that differ only in case match; the match is an equivalence. */
  lemma SameCodeIsEquivalence(a: string, b: string, c: string)
    ensures SameCode(a, a)
    ensures SameCode(a, b) ==> SameCode(b, a)
    ensures SameCode(a, b) && SameCode(b, c) ==> SameCode(a, c)
    ensures SameCode(a, Upper(a))
  {
    UpperIdempotent(a);
  }

  function Matching(code: string): PromoCode -> bool
  {
    (p: PromoCode) => SameCode(p.code, code)
  }

  /** PromoCode.objects.get(code__iexact=code). The unique constraint on
      code is case-sensitive, so "SALE" and "sale" can both exist and then
      the get is ambiguous. */
  function FindPromo(codes: seq<PromoCode>, code: string): (r: Lookup<PromoCode>)
    ensures r.Found? ==> r.value in codes && SameCode(r.value.code, code)
    ensures r.Missing? <==> forall i :: 0 <= i < |codes| ==> !SameCode(codes[i].code, code)
    ensures r.Ambiguous? <==>
      exists i, j :: 0 <= i < j < |codes| && SameCode(codes[i].code, code) && SameCode(codes[j].code, code)
  {
    GetOne(codes, Matching(code))
  }

  /** The rows the lookup can select: the only ones apply may write. */
  function Candidates(codes: seq<PromoCode>, code: string): set<PromoCode>
  {
    set p | p in codes && SameCode(p.code, code)
  }

  /** total × discount / 100 */
  function DiscountAmount(total: real, discount: real): (amount: real)
    ensures 0.0 <= total && 0.0 <= discount <= 100.0 ==> 0.0 <= amount <= total
  {
    total * discount / 100.0
  }

  /** max(0, total − amount): the discounted total never goes below zero,
      and equals total − amount whenever that is not negative. */
  function DiscountedTotal(total: real, discount: real): (r: real)
    ensures r >= 0.0
    ensures r >= total - DiscountAmount(total, discount)
    ensures r == 0.0 || r == total - DiscountAmount(total, discount)
    ensures 0.0 <= total && 0.0 <= discount <= 100.0 ==> r == total - DiscountAmount(total, discount) <= total
  {
    Max(0.0, total - DiscountAmount(total, discount))
  }

  /** apply_promo_code_to_order. The refusals come in the order of the Python code: a
      code already on the order, a paid order, no matching code, several
      matching codes (MultipleObjectsReturned, not caught), an invalid code;
      any of them leaves order and codes as they were. Otherwise the total
      is discounted, the order points at the code, the code's use count
      grows by one and the order is saved. The result is the discount
      amount. */
  method ApplyPromoCodeToOrder(codes: seq<PromoCode>, code: string, order: Order, now: int, random: nat)
    returns (r: Result<real>)
    modifies order`totalPrice, order`promoCode, order`code, Candidates(codes, code)`usedCount
    ensures var l := FindPromo(codes, code);
      && (old(order.promoCode).Some? ==> r == Err(PromoAlreadyApplied))
      && (old(order.promoCode).None? && order.isPaid ==> r == Err(OrderAlreadyPaid))
      && (old(order.promoCode).None? && !order.isPaid ==>
            && (l.Missing? ==> r == Err(PromoNotFound))
            && (l.Ambiguous? ==> r == Err(PromoMultipleFound))
            && (l.Found? && !old(l.value.IsValid(now)) ==> r == Err(PromoInvalid)))
      && (r.Ok? <==> old(order.promoCode).None? && !order.isPaid && l.Found? && old(l.value.IsValid(now)))
    ensures r.Err? ==> unchanged(order) && unchanged(Candidates(codes, code))
    ensures r.Ok? ==>
      var p := FindPromo(codes, code).value;
      && r.value == DiscountAmount(old(order.totalPrice), p.discount)
      && order.totalPrice == DiscountedTotal(old(order.totalPrice), p.discount)
      && order.promoCode == Some(p.id)
      && p.usedCount == old(p.usedCount) + 1
      && (p.maxUses.Some? ==> p.usedCount <= p.maxUses.value)
      && order.code == (if old(order.code) == "" then GeneratedCode(random) else old(order.code))
  {
    if order.promoCode.Some? {
      return Err(PromoAlreadyApplied);
    }
    if order.isPaid {
      return Err(OrderAlreadyPaid);
    }
    var l := FindPromo(codes, code);
    if l.Missing? {
      return Err(PromoNotFound);
    }
    if l.Ambiguous? {
      return Err(PromoMultipleFound);
    }
    var promo := l.value;
    if !promo.IsValid(now) {
      return Err(PromoInvalid);
    }
    var discountAmount := DiscountAmount(order.totalPrice, promo.discount);
    order.totalPrice := Max(0.0, order.totalPrice - discountAmount);
    order.promoCode := Some(promo.id);
    promo.Apply();
    order.Save(random);
    r := Ok(discountAmount);
  }

  /** Applying a second code to the same order is refused, whatever code
      it is, and leaves the first discount in place. */
  method ApplyTwice(codes: seq<PromoCode>, first: string, second: string, order: Order, now: int, random: nat)
    returns (r1: Result<real>, r2: Result<real>)
    modifies order`totalPrice, order`promoCode, order`code
    modifies Candidates(codes, first)`usedCount, Candidates(codes, second)`usedCount
    ensures r1.Ok? ==> r2 == Err(PromoAlreadyApplied)
    ensures r1.Ok? ==> FindPromo(codes, first).Found? && order.promoCode == Some(FindPromo(codes, first).value.id)
  {
    r1 := ApplyPromoCodeToOrder(codes, first, order, now, random);
    r2 := ApplyPromoCodeToOrder(codes, second, order, now, random);
  }

  /** Two orders race for the last use of a code: the second is refused. */
  method LastUse(codes: seq<PromoCode>, code: string, o1: Order, o2: Order, now: int, random: nat)
    returns (r1: Result<real>, r2: Result<real>)
    requires o1 != o2
    requires FindPromo(codes, code).Found?
    requires var p := FindPromo(codes, code).value; p.maxUses == Some(p.usedCount + 1)
    modifies o1`totalPrice, o1`promoCode, o1`code, o2`totalPrice, o2`promoCode, o2`code
    modifies Candidates(codes, code)`usedCount
    ensures !(r1.Ok? && r2.Ok?)
  {
    r1 := ApplyPromoCodeToOrder(codes, code, o1, now, random);
    r2 := ApplyPromoCodeToOrder(codes, code, o2, now, random);
  }
}
