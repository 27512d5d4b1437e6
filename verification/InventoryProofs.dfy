/**
 * The two promises of the ledger: the projection is the sum of the ledger, and
 * what active checkouts hold is always backed by stock on hand. Every
 * transaction keeps both, and a fully held order can always be consumed.
 */
module InventoryProofs {
  import opened Common
  import opened Inventory

  /** The projection is the ledger's sum, and is never negative. */
  ghost predicate Projected(s: Stock) {
    forall v :: OnHand(s.levels, v) == LedgerSum(s.ledger, v) && OnHand(s.levels, v) >= 0
  }

  /** Promises are backed: unexpired holds never exceed what is on hand. */
  ghost predicate Backed(s: Stock, now: int) {
    forall v :: Reserved(s.holds, v, now) <= OnHand(s.levels, v)
  }

  /** stock_reservations_ref_variant_key: one hold per order and variant. */
  ghost predicate UniqueHolds(holds: seq<Hold>) {
    forall i, j :: 0 <= i < j < |holds| ==> holds[i].order != holds[j].order || holds[i].variant != holds[j].variant
  }

  ghost predicate StockInvariant(s: Stock, now: int) {
    Projected(s) && Backed(s, now) && UniqueHolds(s.holds)
  }

  // ----- sums over holds -----

  lemma {:induction false} ReservedAppend(a: seq<Hold>, b: seq<Hold>, v: VariantId, now: int)
    ensures Reserved(a + b, v, now) == Reserved(a, v, now) + Reserved(b, v, now)
  {
    if a == [] {
      assert a + b == b;
    } else {
      assert (a + b)[1..] == a[1..] + b;
      ReservedAppend(a[1..], b, v, now);
    }
  }

  /** What a purge removes from a variant's active holds. */
  function Purged(holds: seq<Hold>, p: Purge, v: VariantId, now: int): nat {
    if holds == [] then 0
    else
      (if Matches(p, holds[0]) && holds[0].variant == v && holds[0].expiresAt > now then holds[0].quantity else 0)
      + Purged(holds[1..], p, v, now)
  }

  lemma {:induction false} ReservedDelete(holds: seq<Hold>, p: Purge, v: VariantId, now: int)
    ensures Reserved(Delete(holds, p), v, now) == Reserved(holds, v, now) - Purged(holds, p, v, now)
  {
    if holds != [] {
      ReservedDelete(holds[1..], p, v, now);
      ReservedAppend(if Matches(p, holds[0]) then [] else [holds[0]], Delete(holds[1..], p), v, now);
    }
  }

  /** A purge that spares every active hold of v leaves v's reserved quantity as it was. */
  lemma {:induction false} PurgeSpares(holds: seq<Hold>, p: Purge, v: VariantId, now: int)
    requires forall h :: Matches(p, h) && h.variant == v ==> h.expiresAt <= now
    ensures Purged(holds, p, v, now) == 0
  {
    if holds != [] {
      PurgeSpares(holds[1..], p, v, now);
    }
  }

  lemma {:induction false} CollectKeepsReserved(holds: seq<Hold>, lines: seq<Line>, v: VariantId, now: int)
    ensures Reserved(Collect(holds, lines, now), v, now) == Reserved(holds, v, now)
  {
    if lines != [] {
      var rest := lines[..|lines| - 1];
      var p := Lapsed(lines[|lines| - 1].variant, now);
      CollectKeepsReserved(holds, rest, v, now);
      ReservedDelete(Collect(holds, rest, now), p, v, now);
      PurgeSpares(Collect(holds, rest, now), p, v, now);
    }
  }

  lemma {:induction false} ReservedLater(holds: seq<Hold>, v: VariantId, now: int, later: int)
    requires now <= later
    ensures Reserved(holds, v, later) <= Reserved(holds, v, now)
  {
    if holds != [] {
      ReservedLater(holds[1..], v, now, later);
    }
  }

  lemma {:induction false} ReservedNew(o: OrderId, lines: seq<Line>, expiresAt: int, v: VariantId, now: int)
    requires expiresAt > now
    ensures Reserved(NewHolds(o, lines, expiresAt), v, now) == Quantity(lines, v)
  {
    if lines != [] {
      assert NewHolds(o, lines, expiresAt)[1..] == NewHolds(o, lines[1..], expiresAt);
      ReservedNew(o, lines[1..], expiresAt, v, now);
    }
  }

  lemma {:induction false} QuantityOfAbsent(lines: seq<Line>, v: VariantId)
    requires forall i :: 0 <= i < |lines| ==> lines[i].variant != v
    ensures Quantity(lines, v) == 0
  {
    if lines != [] {
      QuantityOfAbsent(lines[1..], v);
    }
  }

  /** In a list of distinct variants a line's quantity is its variant's whole quantity. */
  lemma {:induction false} QuantityOfLine(lines: seq<Line>, i: nat)
    requires Distinct(lines) && i < |lines|
    ensures Quantity(lines, lines[i].variant) == lines[i].quantity
  {
    if i == 0 {
      QuantityOfAbsent(lines[1..], lines[0].variant);
    } else {
      QuantityOfLine(lines[1..], i - 1);
    }
  }

  // ----- uniqueness of holds -----

  lemma {:induction false} DeleteMembers(holds: seq<Hold>, p: Purge)
    ensures forall h :: h in Delete(holds, p) <==> h in holds && !Matches(p, h)
  {
    if holds != [] {
      DeleteMembers(holds[1..], p);
    }
  }

  lemma {:induction false} DeleteKeepsUnique(holds: seq<Hold>, p: Purge)
    requires UniqueHolds(holds)
    ensures UniqueHolds(Delete(holds, p))
  {
    if holds != [] {
      DeleteKeepsUnique(holds[1..], p);
      DeleteMembers(holds[1..], p);
      var rest := Delete(holds[1..], p);
      forall j | 0 <= j < |rest| ensures holds[0].order != rest[j].order || holds[0].variant != rest[j].variant {
        assert rest[j] in holds[1..];
      }
    }
  }

  lemma {:induction false} CollectIsAPurge(holds: seq<Hold>, lines: seq<Line>, now: int)
    requires UniqueHolds(holds)
    ensures UniqueHolds(Collect(holds, lines, now))
    ensures forall h :: h in Collect(holds, lines, now) ==> h in holds
  {
    if lines != [] {
      var rest := lines[..|lines| - 1];
      CollectIsAPurge(holds, rest, now);
      DeleteKeepsUnique(Collect(holds, rest, now), Lapsed(lines[|lines| - 1].variant, now));
      DeleteMembers(Collect(holds, rest, now), Lapsed(lines[|lines| - 1].variant, now));
    }
  }

  // ----- lines -----

  lemma {:induction false} TrackedLinesAre(lines: seq<Line>, tracked: set<VariantId>)
    requires Distinct(lines)
    ensures Distinct(TrackedLines(lines, tracked))
    ensures forall l :: l in TrackedLines(lines, tracked) <==> l in lines && l.variant in tracked
  {
    if lines != [] {
      var rest := TrackedLines(lines[1..], tracked);
      TrackedLinesAre(lines[1..], tracked);
      assert lines == [lines[0]] + lines[1..];
      forall l | l in lines[1..] ensures l.variant != lines[0].variant {
        var i :| 0 <= i < |lines[1..]| && lines[1..][i] == l;
        assert lines[i + 1] == l;
      }
      assert forall j :: 0 <= j < |rest| ==> rest[j] in lines[1..];
    }
  }

  /** Ascending variant ids, hence distinct: the order in which rows are locked and sold. */
  ghost predicate Ascending(lines: seq<Line>) {
    forall i, j :: 0 <= i < j < |lines| ==> lines[i].variant < lines[j].variant
  }

  lemma {:induction false} InsertLineKeeps(line: Line, sorted: seq<Line>)
    requires Ascending(sorted) && forall l :: l in sorted ==> l.variant != line.variant
    ensures Ascending(InsertLine(line, sorted))
    ensures multiset(InsertLine(line, sorted)) == multiset{line} + multiset(sorted)
  {
    if sorted != [] && line.variant > sorted[0].variant {
      var tail := sorted[1..];
      assert sorted == [sorted[0]] + tail;
      InsertLineKeeps(line, tail);
      var rest := InsertLine(line, tail);
      SameMembers(rest, multiset{line} + multiset(tail));
      hide InsertLine;
      forall l | l in rest ensures sorted[0].variant < l.variant {
        assert l == line || l in tail;
      }
    }
  }

  lemma SameMembers(lines: seq<Line>, m: multiset<Line>)
    requires multiset(lines) == m
    ensures forall l :: l in lines <==> l in m
  {
  }

  lemma {:induction false} InsertLineQuantity(line: Line, sorted: seq<Line>, v: VariantId)
    ensures Quantity(InsertLine(line, sorted), v) == (if line.variant == v then line.quantity else 0)
      + Quantity(sorted, v)
  {
    assert ([line] + sorted)[1..] == sorted;
    if sorted != [] {
      InsertLineQuantity(line, sorted[1..], v);
    }
  }

  lemma {:induction false} SortLinesQuantity(lines: seq<Line>, v: VariantId)
    ensures Quantity(SortLines(lines), v) == Quantity(lines, v)
  {
    if lines != [] {
      SortLinesQuantity(lines[1..], v);
      InsertLineQuantity(lines[0], SortLines(lines[1..]), v);
    }
  }

  /** Sorting yields the same lines in ascending variant order. */
  lemma {:induction false} SortLinesSorts(lines: seq<Line>)
    requires Distinct(lines)
    ensures Ascending(SortLines(lines)) && multiset(SortLines(lines)) == multiset(lines)
  {
    if lines != [] {
      SortLinesSorts(lines[1..]);
      assert lines == [lines[0]] + lines[1..];
      forall l | l in SortLines(lines[1..]) ensures l.variant != lines[0].variant {
        assert l in multiset(SortLines(lines[1..]));
        assert l in lines[1..];
      }
      InsertLineKeeps(lines[0], SortLines(lines[1..]));
    }
  }

  // ----- the transactions keep the promises -----

  lemma ApplyMovementKeeps(s: Stock, now: int, m: Movement)
    requires StockInvariant(s, now) && ApplyMovement(s, now, m).Success?
    ensures StockInvariant(ApplyMovement(s, now, m).value, now)
  {
  }

  lemma RecordMovementKeeps(s: Stock, now: int, tracked: set<VariantId>, v: VariantId, delta: int, key: Option<nat>)
    requires StockInvariant(s, now) && RecordMovement(s, now, tracked, v, delta, key).Success?
    ensures StockInvariant(RecordMovement(s, now, tracked, v, delta, key).value, now)
  {
  }

  lemma PurgeKeeps(s: Stock, now: int, p: Purge)
    requires StockInvariant(s, now)
    ensures StockInvariant(s.(holds := Delete(s.holds, p)), now)
  {
    DeleteKeepsUnique(s.holds, p);
    forall v ensures Reserved(Delete(s.holds, p), v, now) <= OnHand(s.levels, v) {
      ReservedDelete(s.holds, p, v, now);
      assert Reserved(s.holds, v, now) <= OnHand(s.levels, v);
    }
  }

  lemma {:induction false} SellLinesKeeps(s: Stock, now: int, o: OrderId, lines: seq<Line>)
    requires StockInvariant(s, now) && SellLines(s, now, o, lines).Success?
    ensures StockInvariant(SellLines(s, now, o, lines).value, now)
  {
    if lines != [] {
      var line := lines[|lines| - 1];
      SellLinesKeeps(s, now, o, lines[..|lines| - 1]);
      var t := SellLines(s, now, o, lines[..|lines| - 1]).value;
      PurgeKeeps(t, now, OfOrderVariant(o, line.variant));
      ApplyMovementKeeps(t.(holds := Delete(t.holds, OfOrderVariant(o, line.variant))), now, SaleRow(o, line));
    }
  }

  lemma ConsumeStockKeeps(s: Stock, now: int, tracked: set<VariantId>, o: OrderId, lines: seq<Line>)
    requires StockInvariant(s, now) && ConsumeStock(s, now, tracked, o, lines).Success?
    ensures StockInvariant(ConsumeStock(s, now, tracked, o, lines).value, now)
  {
    var sorted := SortLines(TrackedLines(lines, tracked));
    SellLinesKeeps(s, now, o, sorted);
    PurgeKeeps(SellLines(s, now, o, sorted).value, now, OfOrder(o));
  }

  /** Restocking adds, so neither the CHECK nor the hold guard can refuse it. */
  lemma {:induction false} RestockLinesKeeps(s: Stock, now: int, o: OrderId, lines: seq<Line>)
    requires StockInvariant(s, now)
    ensures RestockLines(s, now, o, lines).Success?
    ensures StockInvariant(RestockLines(s, now, o, lines).value, now)
  {
    if lines != [] {
      RestockLinesKeeps(s, now, o, lines[..|lines| - 1]);
      var t := RestockLines(s, now, o, lines[..|lines| - 1]).value;
      assert OnHand(t.levels, lines[|lines| - 1].variant) >= 0;
      ApplyMovementKeeps(t, now, RestockRow(o, lines[|lines| - 1]));
    }
  }

  lemma {:induction false} NoFailureMeansFit(s: Stock, lines: seq<Line>, now: int, i: nat)
    requires Failures(s, lines, now) == [] && i < |lines|
    ensures lines[i].quantity <= Available(s, lines[i].variant, now)
  {
    if i < |lines| - 1 {
      NoFailureMeansFit(s, lines[..|lines| - 1], now, i);
    }
  }

  lemma HoldStockKeeps(s: Stock, now: int, tracked: set<VariantId>, o: OrderId, lines: seq<Line>)
    requires StockInvariant(s, now) && HoldStock(s, now, tracked, o, lines).Success?
    ensures StockInvariant(HoldStock(s, now, tracked, o, lines).value, now)
  {
    var wanted := TrackedLines(lines, tracked);
    var freed := s.(holds := Delete(s.holds, OfOrder(o)));
    var kept := Collect(freed.holds, wanted, now);
    var placed := NewHolds(o, wanted, now + RESERVATION_TTL_MS);
    TrackedLinesAre(lines, tracked);
    PurgeKeeps(s, now, OfOrder(o));
    CollectIsAPurge(freed.holds, wanted, now);
    DeleteMembers(s.holds, OfOrder(o));
    forall i, j | 0 <= i < |kept| && 0 <= j < |placed| ensures kept[i].order != placed[j].order {
      assert kept[i] in freed.holds;
    }
    forall v ensures Reserved(kept + placed, v, now) <= OnHand(s.levels, v) {
      ReservedAppend(kept, placed, v, now);
      CollectKeepsReserved(freed.holds, wanted, v, now);
      ReservedNew(o, wanted, now + RESERVATION_TTL_MS, v, now);
      assert Reserved(freed.holds, v, now) <= OnHand(freed.levels, v);
      if i :| 0 <= i < |wanted| && wanted[i].variant == v {
        QuantityOfLine(wanted, i);
        NoFailureMeansFit(freed, wanted, now, i);
      } else {
        QuantityOfAbsent(wanted, v);
      }
    }
  }

  lemma TimePassesKeeps(s: Stock, now: int, later: int)
    requires StockInvariant(s, now) && now <= later
    ensures StockInvariant(s, later)
  {
    forall v ensures Reserved(s.holds, v, later) <= OnHand(s.levels, v) {
      ReservedLater(s.holds, v, now, later);
      assert Reserved(s.holds, v, now) <= OnHand(s.levels, v);
    }
  }

  // ----- a held order can always be consumed -----

  /** The order holds at least the line's quantity of its variant, unexpired. */
  ghost predicate Covered(holds: seq<Hold>, o: OrderId, line: Line, now: int) {
    exists h :: h in holds && h.order == o && h.variant == line.variant && h.quantity >= line.quantity
      && h.expiresAt > now
  }

  lemma {:induction false} PurgedAtLeast(holds: seq<Hold>, p: Purge, h: Hold, now: int)
    requires h in holds && Matches(p, h) && h.expiresAt > now
    ensures Purged(holds, p, h.variant, now) >= h.quantity
  {
    if h != holds[0] {
      PurgedAtLeast(holds[1..], p, h, now);
    }
  }

  /** After selling some lines, the holds of the lines still to come are untouched. */
  lemma {:induction false} SellLinesSparesHolds(s: Stock, now: int, o: OrderId, lines: seq<Line>, h: Hold)
    requires SellLines(s, now, o, lines).Success? && h in s.holds
    requires forall i :: 0 <= i < |lines| ==> lines[i].variant != h.variant
    ensures h in SellLines(s, now, o, lines).value.holds
  {
    if lines != [] {
      SellLinesSparesHolds(s, now, o, lines[..|lines| - 1], h);
      var t := SellLines(s, now, o, lines[..|lines| - 1]).value;
      DeleteMembers(t.holds, OfOrderVariant(o, lines[|lines| - 1].variant));
    }
  }

  lemma {:induction false} CoveredLinesSell(s: Stock, now: int, o: OrderId, lines: seq<Line>)
    requires StockInvariant(s, now) && Ascending(lines)
    requires forall i :: 0 <= i < |lines| ==> Covered(s.holds, o, lines[i], now)
    ensures SellLines(s, now, o, lines).Success?
  {
    if lines != [] {
      var front, line := lines[..|lines| - 1], lines[|lines| - 1];
      CoveredLinesSell(s, now, o, front);
      SellLinesKeeps(s, now, o, front);
      var t := SellLines(s, now, o, front).value;
      assert Covered(s.holds, o, line, now);
      var h :| h in s.holds && h.order == o && h.variant == line.variant && h.quantity >= line.quantity
        && h.expiresAt > now;
      SellLinesSparesHolds(s, now, o, front, h);
      var p := OfOrderVariant(o, line.variant);
      PurgedAtLeast(t.holds, p, h, now);
      ReservedDelete(t.holds, p, line.variant, now);
      assert Reserved(t.holds, line.variant, now) <= OnHand(t.levels, line.variant);
    }
  }

  /** A buyer whose unexpired holds cover the order is never refused at confirmation. */
  lemma HeldOrdersAreNeverRefused(s: Stock, now: int, tracked: set<VariantId>, o: OrderId, lines: seq<Line>)
    requires StockInvariant(s, now) && ValidLines(lines)
    requires forall l :: l in lines && l.variant in tracked ==> Covered(s.holds, o, l, now)
    ensures ConsumeStock(s, now, tracked, o, lines).Success?
  {
    var wanted := TrackedLines(lines, tracked);
    TrackedLinesAre(lines, tracked);
    SortLinesSorts(wanted);
    forall i | 0 <= i < |SortLines(wanted)| ensures Covered(s.holds, o, SortLines(wanted)[i], now) {
      assert SortLines(wanted)[i] in multiset(SortLines(wanted));
      assert SortLines(wanted)[i] in wanted;
    }
    CoveredLinesSell(s, now, o, SortLines(wanted));
  }

  /** The holds a successful hold places cover every tracked line until they lapse. */
  lemma HoldCoversTheOrder(s: Stock, now: int, tracked: set<VariantId>, o: OrderId, lines: seq<Line>, later: int)
    requires HoldStock(s, now, tracked, o, lines).Success? && now <= later < now + RESERVATION_TTL_MS
    ensures forall l :: l in lines && l.variant in tracked ==>
      Covered(HoldStock(s, now, tracked, o, lines).value.holds, o, l, later)
  {
    var wanted := TrackedLines(lines, tracked);
    TrackedLinesAre(lines, tracked);
    forall l | l in lines && l.variant in tracked
      ensures Covered(HoldStock(s, now, tracked, o, lines).value.holds, o, l, later)
    {
      assert l in wanted;
      var i :| 0 <= i < |wanted| && wanted[i] == l;
      var placed := NewHolds(o, wanted, now + RESERVATION_TTL_MS);
      assert placed[i] in placed;
      assert placed[i] in HoldStock(s, now, tracked, o, lines).value.holds;
    }
  }

  // ----- what the ledger gains -----

  function SaleRows(o: OrderId, lines: seq<Line>): seq<Movement> {
    if lines == [] then [] else SaleRows(o, lines[..|lines| - 1]) + [SaleRow(o, lines[|lines| - 1])]
  }

  function RestockRows(o: OrderId, lines: seq<Line>): seq<Movement> {
    if lines == [] then [] else RestockRows(o, lines[..|lines| - 1]) + [RestockRow(o, lines[|lines| - 1])]
  }

  /** Exactly one sale movement per line. */
  lemma {:induction false} SellLinesLedger(s: Stock, now: int, o: OrderId, lines: seq<Line>)
    requires SellLines(s, now, o, lines).Success?
    ensures SellLines(s, now, o, lines).value.ledger == s.ledger + SaleRows(o, lines)
  {
    if lines == [] {
      assert s.ledger + [] == s.ledger;
    } else {
      SellLinesLedger(s, now, o, lines[..|lines| - 1]);
      assert s.ledger + SaleRows(o, lines) == (s.ledger + SaleRows(o, lines[..|lines| - 1]))
        + [SaleRow(o, lines[|lines| - 1])];
    }
  }

  /** Exactly one restock movement per line. */
  lemma {:induction false} RestockLinesLedger(s: Stock, now: int, o: OrderId, lines: seq<Line>)
    requires RestockLines(s, now, o, lines).Success?
    ensures RestockLines(s, now, o, lines).value.ledger == s.ledger + RestockRows(o, lines)
    ensures RestockLines(s, now, o, lines).value.holds == s.holds
  {
    if lines == [] {
      assert s.ledger + [] == s.ledger;
    } else {
      RestockLinesLedger(s, now, o, lines[..|lines| - 1]);
      assert s.ledger + RestockRows(o, lines)
          == (s.ledger + RestockRows(o, lines[..|lines| - 1])) + [RestockRow(o, lines[|lines| - 1])];
    }
  }
}
