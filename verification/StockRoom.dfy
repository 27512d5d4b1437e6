/**
 * The write door of the inventory ledger, statement by statement
 * (packages/core/src/inventory/server.ts:246-306, 316-463, 795-893, 946-1033, 1090-1147).
 * A method that runs in its caller's transaction leaves the tables half written
 * when it fails; the caller rolls back with `Rollback`.
 */
module StockRooms {
  import opened Common
  import opened Inventory
  import opened InventoryProofs

  datatype Availability = Availability(onHand: int, reserved: nat, available: int)

  datatype Mismatch = Mismatch(ledger: int, projected: int)

  class StockRoom {
    var levels: map<VariantId, int>
    var ledger: seq<Movement>
    var holds: seq<Hold>

    constructor ()
      ensures Contents() == Stock(map[], [], [])
    {
      levels, ledger, holds := map[], [], [];
    }

    function Contents(): Stock
      reads this
    {
      Stock(levels, ledger, holds)
    }

    method Rollback(saved: Stock)
      modifies this
      ensures Contents() == saved
    {
      levels, ledger, holds := saved.levels, saved.ledger, saved.holds;
    }

    method DeleteHolds(p: Purge)
      modifies this`holds
      ensures holds == Delete(old(holds), p)
    {
      var kept: seq<Hold> := [];
      var i := |holds|;
      while i > 0
        invariant 0 <= i <= |holds|
        invariant kept == Delete(holds[i..], p)
      {
        i := i - 1;
        assert holds[i..][0] == holds[i] && holds[i..][1..] == holds[i + 1..];
        if !Matches(p, holds[i]) {
          kept := [holds[i]] + kept;
        }
      }
      assert holds[0..] == holds;
      holds := kept;
    }

    method SumReserved(v: VariantId, now: int) returns (reserved: nat)
      ensures reserved == Reserved(holds, v, now)
    {
      reserved := 0;
      var i := |holds|;
      while i > 0
        invariant 0 <= i <= |holds|
        invariant reserved == Reserved(holds[i..], v, now)
      {
        i := i - 1;
        assert holds[i..][0] == holds[i] && holds[i..][1..] == holds[i + 1..];
        if holds[i].variant == v && holds[i].expiresAt > now {
          reserved := reserved + holds[i].quantity;
        }
      }
      assert holds[0..] == holds;
    }

    method ApplyMovement(now: int, m: Movement) returns (r: Result<int, StockError>)
      modifies this`levels, this`ledger
      ensures match Inventory.ApplyMovement(old(Contents()), now, m)
        case Success(t) => Contents() == t && r == Success(OnHand(levels, m.variant))
        case Failure(e) => r == Failure(e)
    {
      ledger := ledger + [m];
      var onHand: int;
      if m.variant in levels {
        onHand := levels[m.variant] + m.delta;
      } else {
        onHand := m.delta;
      }
      if onHand < 0 {
        return Failure(OnHandCheck);
      }
      levels := levels[m.variant := onHand];
      if m.delta < 0 {
        var reserved := SumReserved(m.variant, now);
        if onHand < reserved {
          return Failure(StockHeld);
        }
      }
      r := Success(onHand);
    }

    method RecordMovement(now: int, tracked: set<VariantId>, v: VariantId, delta: int, key: Option<nat>)
      returns (r: Result<(), StockError>)
      modifies this
      ensures match Inventory.RecordMovement(old(Contents()), now, tracked, v, delta, key)
        case Success(t) => r.Success? && Contents() == t
        case Failure(e) => r == Failure(e) && Contents() == old(Contents())
    {
      if delta == 0 || delta > STOCK_ADJUSTMENT_MAX || -delta > STOCK_ADJUSTMENT_MAX {
        return Failure(InvalidDelta);
      }
      if v !in tracked {
        return Failure(Untracked);
      }
      if key.Some? {
        var found := FindKey(ledger, key.value, 0);
        if found.Some? {
          var row := ledger[found.value];
          if row.variant != v || row.delta != delta {
            return Failure(IdempotencyKeyReuse);
          }
          return Success(());
        }
      }
      var saved := Contents();
      var prior := false;
      for i := 0 to |ledger|
        invariant prior <==> exists j :: 0 <= j < i && ledger[j].variant == v
        invariant Contents() == saved
      {
        prior := prior || ledger[i].variant == v;
      }
      assert prior == HasMovement(ledger, v);
      var applied := ApplyMovement(now, Movement(v, delta, if prior then Adjustment else OpeningBalance, None, key));
      if applied.Failure? {
        Rollback(saved);
        return Failure(applied.error);
      }
      r := Success(());
    }

    method HoldStock(now: int, tracked: set<VariantId>, o: OrderId, lines: seq<Line>)
      returns (r: Result<(), StockError>)
      modifies this
      ensures match Inventory.HoldStock(old(Contents()), now, tracked, o, lines)
        case Success(t) => r.Success? && Contents() == t
        case Failure(e) => r == Failure(e) && Contents() == old(Contents())
    {
      if !ValidLines(lines) {
        return Failure(InvalidLines);
      }
      var saved := Contents();
      var wanted := TrackedLines(lines, tracked);
      DeleteHolds(OfOrder(o));
      ghost var freed := Contents();
      var failures: seq<FailedLine> := [];
      for i := 0 to |wanted|
        invariant levels == saved.levels && ledger == saved.ledger
        invariant holds == Collect(freed.holds, wanted[..i], now)
        invariant failures == Failures(freed, wanted[..i], now)
      {
        var line := wanted[i];
        assert wanted[..i + 1][..i] == wanted[..i];
        DeleteHolds(Lapsed(line.variant, now));
        CollectKeepsReserved(freed.holds, wanted[..i + 1], line.variant, now);
        var reserved := SumReserved(line.variant, now);
        var available := Max(OnHand(levels, line.variant) - reserved, 0);
        if line.quantity > available {
          failures := failures + [FailedLine(line.variant, line.quantity, available)];
        }
      }
      assert wanted[..|wanted|] == wanted;
      if failures != [] {
        Rollback(saved);
        return Failure(InsufficientAvailability(failures));
      }
      holds := holds + NewHolds(o, wanted, now + RESERVATION_TTL_MS);
      r := Success(());
    }

    method ReleaseStock(o: OrderId)
      modifies this`holds
      ensures Contents() == Inventory.ReleaseStock(old(Contents()), o)
    {
      DeleteHolds(OfOrder(o));
    }

    method ConsumeStockWithin(now: int, tracked: set<VariantId>, o: OrderId, lines: seq<Line>)
      returns (r: Result<(), StockError>)
      modifies this
      ensures match ConsumeStock(old(Contents()), now, tracked, o, lines)
        case Success(t) => r.Success? && Contents() == t
        case Failure(e) => r == Failure(e)
    {
      if !ValidLines(lines) {
        return Failure(InvalidLines);
      }
      var sorted := SortLines(TrackedLines(lines, tracked));
      for i := 0 to |sorted|
        invariant SellLines(old(Contents()), now, o, sorted[..i]) == Success(Contents())
      {
        assert sorted[..i + 1][..i] == sorted[..i];
        var line := sorted[i];
        DeleteHolds(OfOrderVariant(o, line.variant));
        var applied := ApplyMovement(now, SaleRow(o, line));
        if applied.Failure? {
          SellingStops(old(Contents()), now, o, sorted, i + 1);
          return Failure(applied.error);
        }
      }
      assert sorted[..|sorted|] == sorted;
      DeleteHolds(OfOrder(o));
      r := Success(());
    }

    method RestockWithin(now: int, tracked: set<VariantId>, o: OrderId, lines: seq<Line>)
      returns (r: Result<(), StockError>)
      modifies this
      ensures match Restock(old(Contents()), now, tracked, o, lines)
        case Success(t) => r.Success? && Contents() == t
        case Failure(e) => r == Failure(e)
    {
      if !ValidLines(lines) {
        return Failure(InvalidLines);
      }
      var sorted := SortLines(TrackedLines(lines, tracked));
      for i := 0 to |sorted|
        invariant RestockLines(old(Contents()), now, o, sorted[..i]) == Success(Contents())
      {
        assert sorted[..i + 1][..i] == sorted[..i];
        var applied := ApplyMovement(now, RestockRow(o, sorted[i]));
        if applied.Failure? {
          RestockingStops(old(Contents()), now, o, sorted, i + 1);
          return Failure(applied.error);
        }
      }
      assert sorted[..|sorted|] == sorted;
      r := Success(());
    }

    /**
     * What is on hand, what unexpired holds reserve of it, and their
     * difference, never below zero: an entry for every id.
     */
    method GetAvailability(ids: seq<VariantId>, now: int) returns (entries: map<VariantId, Availability>)
      ensures forall v :: v in entries <==> v in ids
      ensures forall v :: v in entries ==>
        entries[v] == Availability(OnHand(levels, v), Reserved(holds, v, now), Available(Contents(), v, now))
    {
      entries := map[];
      for i := 0 to |ids|
        invariant forall v :: v in entries <==> v in ids[..i]
        invariant forall v :: v in entries ==>
          entries[v] == Availability(OnHand(levels, v), Reserved(holds, v, now), Available(Contents(), v, now))
      {
        var onHand := OnHand(levels, ids[i]);
        var reserved := SumReserved(ids[i], now);
        entries := entries[ids[i] := Availability(onHand, reserved, Max(onHand - reserved, 0))];
      }
    }

    /** SUM(ledger) against the projection: exactly the variants on which the two disagree, with both sums. */
    method ReconcileStockLevels() returns (mismatches: map<VariantId, Mismatch>)
      ensures forall v :: v in mismatches <==> LedgerSum(ledger, v) != OnHand(levels, v)
      ensures forall v :: v in mismatches ==> mismatches[v] == Mismatch(LedgerSum(ledger, v), OnHand(levels, v))
    {
      var sums: map<VariantId, int> := map[];
      for i := 0 to |ledger|
        invariant forall v :: OnHand(sums, v) == LedgerSum(ledger[..i], v)
      {
        assert ledger[..i + 1][..i] == ledger[..i];
        var m := ledger[i];
        sums := sums[m.variant := OnHand(sums, m.variant) + m.delta];
      }
      assert ledger[..|ledger|] == ledger;
      var moved := map v | v in sums && sums[v] != OnHand(levels, v) :: Mismatch(sums[v], OnHand(levels, v));
      var unmoved := map v | v in levels && v !in sums && levels[v] != 0 :: Mismatch(0, levels[v]);
      mismatches := moved + unmoved;
    }
  }

  /** Once a prefix of the lines is refused, so is the whole list, with the same error. */
  lemma {:induction false} SellingStops(s: Stock, now: int, o: OrderId, lines: seq<Line>, k: nat)
    requires k <= |lines| && SellLines(s, now, o, lines[..k]).Failure?
    ensures SellLines(s, now, o, lines) == SellLines(s, now, o, lines[..k])
  {
    if k < |lines| {
      assert lines[..|lines| - 1][..k] == lines[..k];
      SellingStops(s, now, o, lines[..|lines| - 1], k);
    } else {
      assert lines[..k] == lines;
    }
  }

  lemma {:induction false} RestockingStops(s: Stock, now: int, o: OrderId, lines: seq<Line>, k: nat)
    requires k <= |lines| && RestockLines(s, now, o, lines[..k]).Failure?
    ensures RestockLines(s, now, o, lines) == RestockLines(s, now, o, lines[..k])
  {
    if k < |lines| {
      assert lines[..|lines| - 1][..k] == lines[..k];
      RestockingStops(s, now, o, lines[..|lines| - 1], k);
    } else {
      assert lines[..k] == lines;
    }
  }
}
