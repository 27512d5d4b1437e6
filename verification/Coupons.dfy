/**
 * Coupon slots (packages/core/src/promotions/server.ts:403-563): a confirmed
 * order claims the next slot of its promotion and of its customer, under the
 * promotion's row lock, while staff may change the limits at any time.
 */
module Coupons {
  import opened Common
  import Promotions

  datatype Promotion = Promotion(active: bool, rule: Promotions.Rule, limitTotal: Option<nat>)

  datatype Redemption = Redemption(promo: PromoId, order: OrderId, customer: Option<CustomerId>,
                                   slot: nat, customerSlot: nat, discount: nat)

  datatype Book = Book(promotions: map<PromoId, Promotion>, redemptions: seq<Redemption>)

  datatype Claim = Claimed(book: Book, row: nat) | Exhausted

  predicate IsFor(r: Redemption, p: PromoId, c: Option<CustomerId>) {
    r.promo == p && (c.Some? ==> r.customer == c)
  }

  /** Rows of a promotion; of one of its customers when a customer is given. */
  function CountRows(rows: seq<Redemption>, p: PromoId, c: Option<CustomerId>): nat {
    if rows == [] then 0
    else CountRows(rows[..|rows| - 1], p, c) + if IsFor(rows[|rows| - 1], p, c) then 1 else 0
  }

  function FindClaim(rows: seq<Redemption>, p: PromoId, o: OrderId, from: nat): (r: Option<nat>)
    requires from <= |rows|
    ensures r.Some? ==> r.value < |rows| && rows[r.value].promo == p && rows[r.value].order == o
    ensures r.None? ==> forall i :: from <= i < |rows| ==> rows[i].promo != p || rows[i].order != o
    decreases |rows| - from
  {
    if from == |rows| then None
    else if rows[from].promo == p && rows[from].order == o then Some(from)
    else FindClaim(rows, p, o, from + 1)
  }

  predicate AtLimit(used: nat, limit: Option<nat>) { limit.Some? && used >= limit.value }

  function CustomerSlot(rows: seq<Redemption>, p: PromoId, c: Option<CustomerId>): nat {
    if c.None? then 0 else CountRows(rows, p, c)
  }

  /** Neither the promotion nor the customer has used up its limit. */
  predicate SlotLeft(b: Book, p: PromoId, c: Option<CustomerId>)
    requires p in b.promotions
  {
    && !AtLimit(CountRows(b.redemptions, p, None), b.promotions[p].limitTotal)
    && (c.Some? ==> !AtLimit(CountRows(b.redemptions, p, c), b.promotions[p].rule.limitPerCustomer))
  }

  function Redeem(b: Book, p: PromoId, o: OrderId, c: Option<CustomerId>, discount: nat): Claim
    requires p in b.promotions
  {
    var existing := FindClaim(b.redemptions, p, o, 0);
    if existing.Some? then Claimed(b, existing.value)
    else
      var slot := CountRows(b.redemptions, p, None);
      var customerSlot := CustomerSlot(b.redemptions, p, c);
      if AtLimit(slot, b.promotions[p].limitTotal) then Exhausted
      else if c.Some? && AtLimit(customerSlot, b.promotions[p].rule.limitPerCustomer) then Exhausted
      else
        Claimed(b.(redemptions := b.redemptions + [Redemption(p, o, c, slot, customerSlot, discount)]), |b.redemptions|)
  }

  // ----- the slots -----

  /** Every row took the number of rows before it as its slot, in its promotion and for its customer. */
  ghost predicate SlotsInOrder(rows: seq<Redemption>) {
    forall i :: 0 <= i < |rows| ==>
      && rows[i].slot == CountRows(rows[..i], rows[i].promo, None)
      && rows[i].customerSlot == CustomerSlot(rows[..i], rows[i].promo, rows[i].customer)
  }

  /** cr_promo_order_key: at most one redemption per promotion and order. */
  ghost predicate OneClaimPerOrder(rows: seq<Redemption>) {
    forall i, j :: 0 <= i < j < |rows| ==> rows[i].promo != rows[j].promo || rows[i].order != rows[j].order
  }

  ghost predicate CouponInvariant(b: Book) {
    SlotsInOrder(b.redemptions) && OneClaimPerOrder(b.redemptions)
  }

  /** A claim keeps every earlier row, and the row it adds was below the limits in force. */
  lemma ClaimKeeps(b: Book, p: PromoId, o: OrderId, c: Option<CustomerId>, discount: nat)
    requires p in b.promotions && CouponInvariant(b) && Redeem(b, p, o, c, discount).Claimed?
    ensures var claim := Redeem(b, p, o, c, discount);
      && CouponInvariant(claim.book) && claim.book.promotions == b.promotions
      && b.redemptions <= claim.book.redemptions && claim.row < |claim.book.redemptions|
      && claim.book.redemptions[claim.row].promo == p && claim.book.redemptions[claim.row].order == o
      && (claim.row >= |b.redemptions| ==>
          && !AtLimit(claim.book.redemptions[claim.row].slot, b.promotions[p].limitTotal)
          && (c.Some? ==> !AtLimit(claim.book.redemptions[claim.row].customerSlot,
                                   b.promotions[p].rule.limitPerCustomer)))
  {
    var rows := Redeem(b, p, o, c, discount).book.redemptions;
    forall i | 0 <= i < |b.redemptions|
      ensures b.redemptions[..i] == rows[..i]
    {
    }
    assert rows[..|b.redemptions|] == b.redemptions;
  }

  /** Claiming again for the same order returns the original row and writes nothing. */
  lemma ReplayReturnsTheOriginal(b: Book, p: PromoId, o: OrderId, c: Option<CustomerId>, discount: nat, row: nat)
    requires p in b.promotions && CouponInvariant(b) && row < |b.redemptions|
    requires b.redemptions[row].promo == p && b.redemptions[row].order == o
    ensures Redeem(b, p, o, c, discount) == Claimed(b, row)
  {
  }

  function SlotOf(r: Redemption, c: Option<CustomerId>): nat { if c.Some? then r.customerSlot else r.slot }

  ghost predicate Taken(rows: seq<Redemption>, p: PromoId, c: Option<CustomerId>, k: nat) {
    exists i :: 0 <= i < |rows| && IsFor(rows[i], p, c) && SlotOf(rows[i], c) == k
  }

  lemma SlotsOfPrefix(rows: seq<Redemption>, n: nat)
    requires SlotsInOrder(rows) && n <= |rows|
    ensures SlotsInOrder(rows[..n])
  {
    forall i | 0 <= i < n ensures rows[..n][..i] == rows[..i] {
    }
  }

  lemma {:induction false} SlotsAreBounded(rows: seq<Redemption>, p: PromoId, c: Option<CustomerId>)
    requires SlotsInOrder(rows)
    ensures forall i :: 0 <= i < |rows| && IsFor(rows[i], p, c) ==> SlotOf(rows[i], c) < CountRows(rows, p, c)
  {
    if rows != [] {
      SlotsOfPrefix(rows, |rows| - 1);
      SlotsAreBounded(rows[..|rows| - 1], p, c);
    }
  }

  lemma SlotsAreDistinct(rows: seq<Redemption>, p: PromoId, c: Option<CustomerId>, i: nat, j: nat)
    requires SlotsInOrder(rows) && i < j < |rows| && IsFor(rows[i], p, c) && IsFor(rows[j], p, c)
    ensures SlotOf(rows[i], c) < SlotOf(rows[j], c)
  {
    SlotsOfPrefix(rows, j);
    SlotsAreBounded(rows[..j], p, c);
    assert rows[..j][i] == rows[i];
  }

  /** Every slot below the number of rows is taken. */
  lemma {:induction false} SlotsAreDense(rows: seq<Redemption>, p: PromoId, c: Option<CustomerId>, k: nat)
    requires SlotsInOrder(rows) && k < CountRows(rows, p, c)
    ensures Taken(rows, p, c, k)
  {
    var n := |rows| - 1;
    SlotsOfPrefix(rows, n);
    if k < CountRows(rows[..n], p, c) {
      SlotsAreDense(rows[..n], p, c, k);
      var i :| 0 <= i < n && IsFor(rows[..n][i], p, c) && SlotOf(rows[..n][i], c) == k;
      assert IsFor(rows[i], p, c) && SlotOf(rows[i], c) == k;
    } else {
      assert IsFor(rows[n], p, c) && SlotOf(rows[n], c) == k;
    }
  }

  /** With n rows, each slot below n is taken by exactly one row, and no other slot is taken. */
  lemma SlotsAreExactly(rows: seq<Redemption>, p: PromoId, c: Option<CustomerId>)
    requires SlotsInOrder(rows)
    ensures forall k: nat :: Taken(rows, p, c, k) <==> k < CountRows(rows, p, c)
    ensures forall i, j :: 0 <= i < j < |rows| && IsFor(rows[i], p, c) && IsFor(rows[j], p, c) ==>
      SlotOf(rows[i], c) != SlotOf(rows[j], c)
  {
    SlotsAreBounded(rows, p, c);
    forall k: nat | k < CountRows(rows, p, c) ensures Taken(rows, p, c, k) {
      SlotsAreDense(rows, p, c, k);
    }
    forall i, j | 0 <= i < j < |rows| && IsFor(rows[i], p, c) && IsFor(rows[j], p, c)
      ensures SlotOf(rows[i], c) != SlotOf(rows[j], c)
    {
      SlotsAreDistinct(rows, p, c, i, j);
    }
  }

  // ----- the claim, statement by statement -----

  class CouponBook {
    var promotions: map<PromoId, Promotion>
    var redemptions: seq<Redemption>

    constructor ()
      ensures Contents() == Book(map[], [])
    {
      promotions, redemptions := map[], [];
    }

    function Contents(): Book
      reads this
    {
      Book(promotions, redemptions)
    }

    method Rollback(saved: Book)
      modifies this
      ensures Contents() == saved
    {
      promotions, redemptions := saved.promotions, saved.redemptions;
    }

    method CountRedemptionRows(p: PromoId, c: Option<CustomerId>) returns (n: nat)
      ensures n == CountRows(redemptions, p, c)
    {
      n := 0;
      for i := 0 to |redemptions|
        invariant n == CountRows(redemptions[..i], p, c)
      {
        assert redemptions[..i + 1][..i] == redemptions[..i];
        if IsFor(redemptions[i], p, c) {
          n := n + 1;
        }
      }
      assert redemptions[..|redemptions|] == redemptions;
    }

    /** True when the order holds a redemption afterwards. */
    method ClaimRedemption(p: PromoId, o: OrderId, c: Option<CustomerId>, discount: nat) returns (claimed: bool)
      requires p in promotions
      modifies this`redemptions
      ensures match Redeem(old(Contents()), p, o, c, discount)
        case Claimed(book, _) => claimed && Contents() == book
        case Exhausted => !claimed && Contents() == old(Contents())
    {
      if FindClaim(redemptions, p, o, 0).Some? {
        return true;
      }
      var slot := CountRedemptionRows(p, None);
      if AtLimit(slot, promotions[p].limitTotal) {
        return false;
      }
      var customerSlot: nat := 0;
      if c.Some? {
        customerSlot := CountRedemptionRows(p, c);
        if AtLimit(customerSlot, promotions[p].rule.limitPerCustomer) {
          return false;
        }
      }
      redemptions := redemptions + [Redemption(p, o, c, slot, customerSlot, discount)];
      claimed := true;
    }
  }
}
