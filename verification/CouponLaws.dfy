/**
 * Coupon limits, counted: how often a coupon has been used and is about to be
 * (packages/core/src/promotions/server.ts:403-587), and when one more may be.
 */
module CouponLaws {
  import opened Common
  import opened Orders
  import Coupons

  /** The redemptions of a promotion; of one of its customers when one is given. */
  function Uses(rows: seq<Coupons.Redemption>, p: PromoId, c: Option<CustomerId>): set<nat> {
    set i: nat | i < |rows| && rows[i].promo == p && (c.Some? ==> rows[i].customer == c)
  }

  /** The unexpired pending orders that ask for it. */
  function Waiting(orders: seq<Order>, p: PromoId, c: Option<CustomerId>, now: int): set<nat> {
    set i: nat |
      && i < |orders| && orders[i].request.coupon == Some(p) && orders[i].status == PendingPayment
      && orders[i].expiresAt.Some? && now < orders[i].expiresAt.value
      && (c.Some? ==> orders[i].request.phone == c.value)
  }

  lemma {:induction false} CountIsUses(rows: seq<Coupons.Redemption>, p: PromoId, c: Option<CustomerId>)
    ensures Coupons.CountRows(rows, p, c) == |Uses(rows, p, c)|
  {
    if rows != [] {
      var n := |rows| - 1;
      CountIsUses(rows[..n], p, c);
      var more := if Coupons.IsFor(rows[n], p, c) then {n} else {};
      assert Uses(rows, p, c) == Uses(rows[..n], p, c) + more;
    }
  }

  lemma {:induction false} ClaimsAreWaiting(orders: seq<Order>, p: PromoId, c: Option<CustomerId>, now: int)
    ensures PendingClaims(orders, p, c, now) == |Waiting(orders, p, c, now)|
  {
    if orders != [] {
      var n := |orders| - 1;
      ClaimsAreWaiting(orders[..n], p, c, now);
      assert Waiting(orders, p, c, now) - {n} == Waiting(orders[..n], p, c, now);
      if n in Waiting(orders, p, c, now) {
        assert Waiting(orders, p, c, now) == Waiting(orders[..n], p, c, now) + {n};
      } else {
        assert Waiting(orders, p, c, now) == Waiting(orders[..n], p, c, now);
      }
    }
  }

  /** One more redemption is within the promotion's limit, and within the customer's. */
  ghost predicate OneMore(b: Coupons.Book, p: PromoId, c: Option<CustomerId>)
    requires p in b.promotions
  {
    var promotion := b.promotions[p];
    && (promotion.limitTotal.Some? ==> |Uses(b.redemptions, p, None)| < promotion.limitTotal.value)
    && (c.Some? && promotion.rule.limitPerCustomer.Some? ==>
        |Uses(b.redemptions, p, c)| < promotion.rule.limitPerCustomer.value)
  }

  /** The first claim of an order takes the next slots when one more is within the limits, and is refused when not. */
  lemma RedeemMeans(b: Coupons.Book, p: PromoId, o: OrderId, c: Option<CustomerId>, discount: nat)
    requires p in b.promotions
    requires forall i :: 0 <= i < |b.redemptions| ==> b.redemptions[i].promo != p || b.redemptions[i].order != o
    ensures Coupons.Redeem(b, p, o, c, discount) ==
      if OneMore(b, p, c) then
        var customerSlot := if c.Some? then |Uses(b.redemptions, p, c)| else 0;
        var row := Coupons.Redemption(p, o, c, |Uses(b.redemptions, p, None)|, customerSlot, discount);
        Coupons.Claimed(b.(redemptions := b.redemptions + [row]), |b.redemptions|)
      else Coupons.Exhausted
  {
    CountIsUses(b.redemptions, p, None);
    CountIsUses(b.redemptions, p, c);
  }
}
