/**
 * What each stock transaction does, said of the tables: when it is refused and
 * what it leaves in levels, ledger and holds
 * (packages/core/src/inventory/server.ts:229-473, 782-1147).
 */
module StockLaws {
  import opened Common
  import opened Inventory
  import opened InventoryProofs

  /** What unexpired holds of other orders reserve of v. */
  function OthersHold(holds: seq<Hold>, o: OrderId, v: VariantId, now: int): nat {
    if holds == [] then 0
    else
      var h := holds[0];
      (if h.order != o && h.variant == v && h.expiresAt > now then h.quantity else 0)
        + OthersHold(holds[1..], o, v, now)
  }

  /** One to a hundred lines of different variants, each of one to a million units. */
  ghost predicate WellFormed(lines: seq<Line>) {
    && 1 <= |lines| <= 100
    && (forall i :: 0 <= i < |lines| ==> 1 <= lines[i].quantity <= 1_000_000)
    && forall i, j :: 0 <= i < j < |lines| ==> lines[i].variant != lines[j].variant
  }

  /** The line can be had from what is on hand and not held for others. */
  predicate Fits(s: Stock, now: int, o: OrderId, line: Line) {
    line.quantity <= OnHand(s.levels, line.variant) - OthersHold(s.holds, o, line.variant, now)
  }

  /** Every line of a variant that tracks inventory can be had; the others cannot run out. */
  ghost predicate AllFit(s: Stock, now: int, tracked: set<VariantId>, o: OrderId, lines: seq<Line>) {
    forall l :: l in lines && l.variant in tracked ==> Fits(s, now, o, l)
  }

  // ----- sums -----

  lemma {:induction false} ReservedByOthers(holds: seq<Hold>, o: OrderId, v: VariantId, now: int)
    ensures Reserved(Delete(holds, OfOrder(o)), v, now) == OthersHold(holds, o, v, now)
    ensures Reserved(Delete(holds, OfOrderVariant(o, v)), v, now) == OthersHold(holds, o, v, now)
  {
    if holds != [] {
      ReservedByOthers(holds[1..], o, v, now);
      var h := holds[0];
      ReservedAppend(if h.order == o then [] else [h], Delete(holds[1..], OfOrder(o)), v, now);
      var rest := Delete(holds[1..], OfOrderVariant(o, v));
      ReservedAppend(if h.order == o && h.variant == v then [] else [h], rest, v, now);
    }
  }

  /** Deleting holds of the order itself takes nothing from the others. */
  lemma {:induction false} OthersKeepHolding(holds: seq<Hold>, o: OrderId, w: VariantId, v: VariantId, now: int)
    ensures OthersHold(Delete(holds, OfOrderVariant(o, w)), o, v, now) == OthersHold(holds, o, v, now)
  {
    if holds != [] {
      OthersKeepHolding(holds[1..], o, w, v, now);
      var rest := Delete(holds[1..], OfOrderVariant(o, w));
      if !(holds[0].order == o && holds[0].variant == w) {
        assert ([holds[0]] + rest)[1..] == rest;
      } else {
        assert [] + rest == rest;
      }
    }
  }

  // ----- holds -----

  lemma {:induction false} FailuresMean(s: Stock, lines: seq<Line>, now: int)
    ensures forall f :: f in Failures(s, lines, now) <==>
      exists l :: l in lines && l.quantity > Available(s, l.variant, now)
        && f == FailedLine(l.variant, l.quantity, Available(s, l.variant, now))
  {
    if lines != [] {
      FailuresMean(s, lines[..|lines| - 1], now);
      assert lines == lines[..|lines| - 1] + [lines[|lines| - 1]];
    }
  }

  lemma {:induction false} CollectMembers(holds: seq<Hold>, lines: seq<Line>, now: int)
    ensures forall h :: h in Collect(holds, lines, now) <==>
      h in holds && !(h.expiresAt <= now && exists l :: l in lines && l.variant == h.variant)
  {
    if lines != [] {
      var front, last := lines[..|lines| - 1], lines[|lines| - 1];
      CollectMembers(holds, front, now);
      DeleteMembers(Collect(holds, front, now), Lapsed(last.variant, now));
      assert lines == front + [last];
      hide Collect;
      hide Delete;
    }
  }

  /** The order's own holds afterwards: one per tracked line, for fifteen minutes. */
  ghost predicate IsNewHold(h: Hold, o: OrderId, lines: seq<Line>, tracked: set<VariantId>, now: int) {
    && h.order == o && h.expiresAt == now + 15 * 60_000 && h.variant in tracked
    && Line(h.variant, h.quantity) in lines
  }

  /** Another order's hold stays, unless it has lapsed and is of a variant that is being held. */
  ghost predicate Stays(h: Hold, o: OrderId, lines: seq<Line>, tracked: set<VariantId>, now: int) {
    && h.order != o
    && !(h.expiresAt <= now && exists l :: l in lines && l.variant in tracked && l.variant == h.variant)
  }

  /** The lines that cannot be had, each with what is left for it. */
  ghost predicate IsShort(f: FailedLine, s: Stock, now: int, tracked: set<VariantId>, o: OrderId, lines: seq<Line>) {
    var l := Line(f.variant, f.requested);
    && l in lines && l.variant in tracked && !Fits(s, now, o, l)
    && f.available == Max(OnHand(s.levels, l.variant) - OthersHold(s.holds, o, l.variant, now), 0)
  }

  lemma FreedAvailability(s: Stock, now: int, o: OrderId, v: VariantId)
    ensures Available(s.(holds := Delete(s.holds, OfOrder(o))), v, now)
      == Max(OnHand(s.levels, v) - OthersHold(s.holds, o, v, now), 0)
  {
    ReservedByOthers(s.holds, o, v, now);
  }

  /** A hold is placed exactly when every tracked line can be had, and it replaces the order's own holds only. */
  lemma HoldMeans(s: Stock, now: int, tracked: set<VariantId>, o: OrderId, lines: seq<Line>)
    ensures var r := HoldStock(s, now, tracked, o, lines);
      && (r.Success? <==> WellFormed(lines) && AllFit(s, now, tracked, o, lines))
      && (r.Success? ==>
          && r.value.levels == s.levels && r.value.ledger == s.ledger
          && forall h :: h in r.value.holds <==>
            (h in s.holds && Stays(h, o, lines, tracked, now)) || IsNewHold(h, o, lines, tracked, now))
      && (!WellFormed(lines) ==> r == Failure(InvalidLines))
      && (WellFormed(lines) && r.Failure? ==>
          && r.error.InsufficientAvailability?
          && forall f :: f in r.error.failed <==> IsShort(f, s, now, tracked, o, lines))
  {
    var r := HoldStock(s, now, tracked, o, lines);
    assert ValidLines(lines) <==> WellFormed(lines);
    if ValidLines(lines) {
      var wanted := TrackedLines(lines, tracked);
      var freed := s.(holds := Delete(s.holds, OfOrder(o)));
      TrackedLinesAre(lines, tracked);
      FailuresMean(freed, wanted, now);
      forall v ensures Available(freed, v, now) == Max(OnHand(s.levels, v) - OthersHold(s.holds, o, v, now), 0) {
        FreedAvailability(s, now, o, v);
      }
      ShortLinesAre(s, now, tracked, o, lines);
      if r.Success? {
        HoldsAfter(s, now, tracked, o, lines);
      }
      hide Delete;
      hide Collect;
      hide Failures;
    }
  }

  lemma ShortLinesAre(s: Stock, now: int, tracked: set<VariantId>, o: OrderId, lines: seq<Line>)
    requires ValidLines(lines)
    ensures var failed := Failures(s.(holds := Delete(s.holds, OfOrder(o))), TrackedLines(lines, tracked), now);
      && (forall f :: f in failed <==> IsShort(f, s, now, tracked, o, lines))
      && (failed == [] <==> AllFit(s, now, tracked, o, lines))
  {
    var wanted := TrackedLines(lines, tracked);
    var freed := s.(holds := Delete(s.holds, OfOrder(o)));
    var failed := Failures(freed, wanted, now);
    TrackedLinesAre(lines, tracked);
    FailuresMean(freed, wanted, now);
    forall v ensures Available(freed, v, now) == Max(OnHand(s.levels, v) - OthersHold(s.holds, o, v, now), 0) {
      FreedAvailability(s, now, o, v);
    }
    hide Delete;
    hide Failures;
    hide TrackedLines;
    hide Available;
    forall l | l in lines ensures 0 < l.quantity {
      var i :| 0 <= i < |lines| && lines[i] == l;
    }
    forall f ensures f in failed <==> IsShort(f, s, now, tracked, o, lines) {
      if IsShort(f, s, now, tracked, o, lines) {
        assert Line(f.variant, f.requested) in wanted;
      }
    }
    if failed == [] {
      forall l | l in lines && l.variant in tracked ensures Fits(s, now, o, l) {
        var f := FailedLine(l.variant, l.quantity, Available(freed, l.variant, now));
        assert f !in failed && Line(f.variant, f.requested) == l;
      }
    } else {
      assert failed[0] in failed;
    }
  }

  lemma HoldsAfter(s: Stock, now: int, tracked: set<VariantId>, o: OrderId, lines: seq<Line>)
    requires ValidLines(lines) && HoldStock(s, now, tracked, o, lines).Success?
    ensures forall h :: h in HoldStock(s, now, tracked, o, lines).value.holds <==>
      (h in s.holds && Stays(h, o, lines, tracked, now)) || IsNewHold(h, o, lines, tracked, now)
  {
    hide Delete;
    hide Collect;
    hide TrackedLines;
    var wanted := TrackedLines(lines, tracked);
    var freed := Delete(s.holds, OfOrder(o));
    var placed := NewHolds(o, wanted, now + RESERVATION_TTL_MS);
    TrackedLinesAre(lines, tracked);
    DeleteMembers(s.holds, OfOrder(o));
    CollectMembers(freed, wanted, now);
    forall h ensures h in placed <==> IsNewHold(h, o, lines, tracked, now) {
      if IsNewHold(h, o, lines, tracked, now) {
        assert Line(h.variant, h.quantity) in wanted;
        var i :| 0 <= i < |wanted| && wanted[i] == Line(h.variant, h.quantity);
        assert placed[i] == h;
      }
      if h in placed {
        var i :| 0 <= i < |placed| && placed[i] == h;
        assert wanted[i] in wanted;
      }
    }
    assert HoldStock(s, now, tracked, o, lines).value.holds == Collect(freed, wanted, now) + placed;
  }

  /** A release removes the order's holds and nothing else. */
  lemma ReleaseMeans(s: Stock, o: OrderId)
    ensures var t := ReleaseStock(s, o);
      t.levels == s.levels && t.ledger == s.ledger && forall h :: h in t.holds <==> h in s.holds && h.order != o
  {
    DeleteMembers(s.holds, OfOrder(o));
  }

  // ----- selling and restocking -----

  /** Selling takes the lines' quantities from the levels and leaves every other order's holds. */
  lemma {:induction false} SoldLines(s: Stock, now: int, o: OrderId, lines: seq<Line>)
    requires SellLines(s, now, o, lines).Success?
    ensures var t := SellLines(s, now, o, lines).value;
      && (forall v :: OnHand(t.levels, v) == OnHand(s.levels, v) - Quantity(lines, v))
      && (forall v :: OthersHold(t.holds, o, v, now) == OthersHold(s.holds, o, v, now))
      && (forall h: Hold :: h.order != o ==> (h in t.holds <==> h in s.holds))
  {
    if lines != [] {
      var front, line := lines[..|lines| - 1], lines[|lines| - 1];
      SoldLines(s, now, o, front);
      assert lines == front + [line];
      var t := SellLines(s, now, o, front).value;
      DeleteMembers(t.holds, OfOrderVariant(o, line.variant));
      hide SellLines;
      hide Delete;
      forall v ensures OthersHold(Delete(t.holds, OfOrderVariant(o, line.variant)), o, v, now)
        == OthersHold(t.holds, o, v, now)
      {
        OthersKeepHolding(t.holds, o, line.variant, v, now);
      }
      forall v ensures Quantity(lines, v) == Quantity(front, v) + if line.variant == v then line.quantity else 0 {
        QuantityOfAppend(front, line, v);
      }
      LastLineSold(s, now, o, lines);
    }
  }

  /** The step of SellLines. */
  lemma LastLineSold(s: Stock, now: int, o: OrderId, lines: seq<Line>)
    requires lines != [] && SellLines(s, now, o, lines[..|lines| - 1]).Success?
    ensures var line := lines[|lines| - 1];
      var t := SellLines(s, now, o, lines[..|lines| - 1]).value;
      var freed := t.(holds := Delete(t.holds, OfOrderVariant(o, line.variant)));
      SellLines(s, now, o, lines) == ApplyMovement(freed, now, SaleRow(o, line))
  {
  }

  lemma {:induction false} QuantityOfAppend(front: seq<Line>, line: Line, v: VariantId)
    ensures Quantity(front + [line], v) == Quantity(front, v) + if line.variant == v then line.quantity else 0
  {
    if front == [] {
      assert front + [line] == [line] && [line][1..] == [];
    } else {
      assert (front + [line])[1..] == front[1..] + [line];
      QuantityOfAppend(front[1..], line, v);
    }
  }

  /** Lines of ascending variants sell exactly when each can be had; a refusal is the CHECK's or the hold guard's. */
  lemma {:induction false} LinesSellIfTheyFit(s: Stock, now: int, o: OrderId, lines: seq<Line>)
    requires Ascending(lines) && forall i :: 0 <= i < |lines| ==> lines[i].quantity > 0
    ensures SellLines(s, now, o, lines).Success? <==> forall i :: 0 <= i < |lines| ==> Fits(s, now, o, lines[i])
    ensures SellLines(s, now, o, lines).Failure? ==> SellLines(s, now, o, lines).error in {OnHandCheck, StockHeld}
  {
    if lines != [] {
      var front, line := lines[..|lines| - 1], lines[|lines| - 1];
      LinesSellIfTheyFit(s, now, o, front);
      if SellLines(s, now, o, front).Success? {
        SoldLines(s, now, o, front);
        QuantityOfAbsent(front, line.variant);
        var t := SellLines(s, now, o, front).value;
        ReservedByOthers(t.holds, o, line.variant, now);
        LastLineSold(s, now, o, lines);
        hide SellLines;
        hide Delete;
        hide OthersHold;
        assert Fits(s, now, o, line) <==> Fits(t, now, o, line);
      } else {
        RefusedStays(s, now, o, lines);
      }
    }
  }

  lemma RefusedStays(s: Stock, now: int, o: OrderId, lines: seq<Line>)
    requires lines != [] && SellLines(s, now, o, lines[..|lines| - 1]).Failure?
    ensures SellLines(s, now, o, lines) == SellLines(s, now, o, lines[..|lines| - 1])
  {
  }

  /** The tracked lines, by ascending variant: the order in which they are written. */
  ghost predicate InWritingOrder(sorted: seq<Line>, lines: seq<Line>, tracked: set<VariantId>) {
    Ascending(sorted) && forall l :: l in sorted <==> l in lines && l.variant in tracked
  }

  lemma WritingOrder(lines: seq<Line>, tracked: set<VariantId>)
    requires ValidLines(lines)
    ensures InWritingOrder(SortLines(TrackedLines(lines, tracked)), lines, tracked)
    ensures forall l :: l in SortLines(TrackedLines(lines, tracked)) ==> l.quantity > 0
    ensures forall v ::
      Quantity(SortLines(TrackedLines(lines, tracked)), v) == if v in tracked then Quantity(lines, v) else 0
  {
    var wanted := TrackedLines(lines, tracked);
    TrackedLinesAre(lines, tracked);
    SortLinesSorts(wanted);
    forall l ensures l in SortLines(wanted) <==> l in wanted {
      assert l in SortLines(wanted) <==> l in multiset(SortLines(wanted));
    }
    forall l | l in lines ensures l.quantity > 0 {
      var i :| 0 <= i < |lines| && lines[i] == l;
    }
    forall v ensures Quantity(SortLines(wanted), v) == if v in tracked then Quantity(lines, v) else 0 {
      SortLinesQuantity(wanted, v);
      QuantityOfTracked(lines, tracked, v);
    }
    hide SortLines;
    hide TrackedLines;
    hide Quantity;
  }

  lemma {:induction false} QuantityOfTracked(lines: seq<Line>, tracked: set<VariantId>, v: VariantId)
    ensures Quantity(TrackedLines(lines, tracked), v) == if v in tracked then Quantity(lines, v) else 0
  {
    if lines != [] {
      QuantityOfTracked(lines[1..], tracked, v);
      var rest := TrackedLines(lines[1..], tracked);
      if lines[0].variant in tracked {
        assert TrackedLines(lines, tracked)[1..] == rest;
      } else {
        assert TrackedLines(lines, tracked) == rest;
      }
    }
  }

  /** The ledger gains one row per line, in writing order. */
  ghost predicate LedgerGains(before: seq<Movement>, after: seq<Movement>, sorted: seq<Line>, o: OrderId,
                              reason: Reason)
  {
    && |after| == |before| + |sorted| && before <= after
    && forall i :: 0 <= i < |sorted| ==>
      var delta := if reason == Sale then -(sorted[i].quantity as int) else sorted[i].quantity;
      after[|before| + i] == Movement(sorted[i].variant, delta, reason, Some(o), None)
  }

  lemma {:induction false} SaleRowsAre(o: OrderId, lines: seq<Line>)
    ensures |SaleRows(o, lines)| == |lines|
    ensures forall i :: 0 <= i < |lines| ==>
      SaleRows(o, lines)[i] == Movement(lines[i].variant, -(lines[i].quantity as int), Sale, Some(o), None)
  {
    if lines != [] {
      SaleRowsAre(o, lines[..|lines| - 1]);
    }
  }

  lemma {:induction false} RestockRowsAre(o: OrderId, lines: seq<Line>)
    ensures |RestockRows(o, lines)| == |lines|
    ensures forall i :: 0 <= i < |lines| ==>
      RestockRows(o, lines)[i] == Movement(lines[i].variant, lines[i].quantity, CancellationRestock, Some(o), None)
  {
    if lines != [] {
      RestockRowsAre(o, lines[..|lines| - 1]);
    }
  }

  /** What a sale leaves: less on hand, one ledger row per tracked line, and the holds of the other orders. */
  ghost predicate SoldTo(s: Stock, t: Stock, tracked: set<VariantId>, o: OrderId, lines: seq<Line>) {
    && (forall v :: OnHand(t.levels, v) == OnHand(s.levels, v) - if v in tracked then Quantity(lines, v) else 0)
    && (exists sorted :: InWritingOrder(sorted, lines, tracked) && LedgerGains(s.ledger, t.ledger, sorted, o, Sale))
    && (forall h :: h in t.holds <==> h in s.holds && h.order != o)
  }

  /**
   * An order's lines are consumed exactly when each tracked one can
   * be had, that is when a hold of them would be placed.
   */
  lemma ConsumeMeans(s: Stock, now: int, tracked: set<VariantId>, o: OrderId, lines: seq<Line>)
    ensures var r := ConsumeStock(s, now, tracked, o, lines);
      && (r.Success? <==> WellFormed(lines) && AllFit(s, now, tracked, o, lines))
      && (r.Success? ==> SoldTo(s, r.value, tracked, o, lines))
      && (!WellFormed(lines) ==> r == Failure(InvalidLines))
      && (WellFormed(lines) && r.Failure? ==> r.error in {OnHandCheck, StockHeld})
  {
    assert ValidLines(lines) <==> WellFormed(lines);
    if ValidLines(lines) {
      var sorted := SortLines(TrackedLines(lines, tracked));
      WritingOrder(lines, tracked);
      hide SortLines;
      hide TrackedLines;
      hide WellFormed;
      hide ValidLines;
      hide SellLines;
      hide Delete;
      hide Fits;
      LinesSellIfTheyFit(s, now, o, sorted);
      assert AllFit(s, now, tracked, o, lines) <==> forall i :: 0 <= i < |sorted| ==> Fits(s, now, o, sorted[i]) by {
        forall l | l in lines && l.variant in tracked ensures exists i :: 0 <= i < |sorted| && sorted[i] == l {
          assert l in sorted;
        }
      }
      if SellLines(s, now, o, sorted).Success? {
        SaleLeaves(s, now, tracked, o, lines);
      }
    }
  }

  lemma SaleLeaves(s: Stock, now: int, tracked: set<VariantId>, o: OrderId, lines: seq<Line>)
    requires ValidLines(lines) && SellLines(s, now, o, SortLines(TrackedLines(lines, tracked))).Success?
    ensures var t := SellLines(s, now, o, SortLines(TrackedLines(lines, tracked))).value;
      SoldTo(s, t.(holds := Delete(t.holds, OfOrder(o))), tracked, o, lines)
  {
    hide SellLines;
    hide SortLines;
    hide TrackedLines;
    hide Delete;
    hide Quantity;
    hide InWritingOrder;
    var sorted := SortLines(TrackedLines(lines, tracked));
    WritingOrder(lines, tracked);
    SoldLines(s, now, o, sorted);
    SellLinesLedger(s, now, o, sorted);
    SaleRowsAre(o, sorted);
    var t := SellLines(s, now, o, sorted).value;
    DeleteMembers(t.holds, OfOrder(o));
    assert LedgerGains(s.ledger, t.ledger, sorted, o, Sale);
  }

  /** What a restock leaves: more on hand, one ledger row per tracked line, and the holds as they were. */
  ghost predicate RestockedFrom(s: Stock, t: Stock, tracked: set<VariantId>, o: OrderId, lines: seq<Line>) {
    && (forall v :: OnHand(t.levels, v) == OnHand(s.levels, v) + if v in tracked then Quantity(lines, v) else 0)
    && (exists sorted ::
        InWritingOrder(sorted, lines, tracked) && LedgerGains(s.ledger, t.ledger, sorted, o, CancellationRestock))
    && t.holds == s.holds
  }

  lemma {:induction false} RestockedLines(s: Stock, now: int, o: OrderId, lines: seq<Line>)
    requires RestockLines(s, now, o, lines).Success?
    ensures forall v ::
      OnHand(RestockLines(s, now, o, lines).value.levels, v) == OnHand(s.levels, v) + Quantity(lines, v)
  {
    if lines != [] {
      var front, line := lines[..|lines| - 1], lines[|lines| - 1];
      RestockedLines(s, now, o, front);
      assert lines == front + [line];
      forall v ensures Quantity(lines, v) == Quantity(front, v) + if line.variant == v then line.quantity else 0 {
        QuantityOfAppend(front, line, v);
      }
    }
  }

  /** With stock as it always is, a restock is refused for malformed lines only. */
  lemma RestockMeans(s: Stock, now: int, tracked: set<VariantId>, o: OrderId, lines: seq<Line>)
    requires StockInvariant(s, now)
    ensures var r := Restock(s, now, tracked, o, lines);
      && (r.Success? <==> WellFormed(lines))
      && (r.Success? ==> RestockedFrom(s, r.value, tracked, o, lines))
  {
    assert ValidLines(lines) <==> WellFormed(lines);
    if ValidLines(lines) {
      var sorted := SortLines(TrackedLines(lines, tracked));
      RestockLinesKeeps(s, now, o, sorted);
      hide StockInvariant;
      WritingOrder(lines, tracked);
      RestockedLines(s, now, o, sorted);
      RestockLinesLedger(s, now, o, sorted);
      RestockRowsAre(o, sorted);
      var t := RestockLines(s, now, o, sorted).value;
      hide RestockLines;
      hide SortLines;
      hide TrackedLines;
      hide Quantity;
      hide InWritingOrder;
      assert LedgerGains(s.ledger, t.ledger, sorted, o, CancellationRestock);
    }
  }

  // ----- a staff adjustment -----

  /** The first row that carries the key. */
  ghost predicate FirstWithKey(ledger: seq<Movement>, key: nat, i: nat) {
    i < |ledger| && ledger[i].key == Some(key) && forall j :: 0 <= j < i ==> ledger[j].key != Some(key)
  }

  ghost predicate Unused(ledger: seq<Movement>, key: Option<nat>) {
    forall i :: 0 <= i < |ledger| ==> key.None? || ledger[i].key != key
  }

  /** All unexpired holds of v. */
  function Held(holds: seq<Hold>, v: VariantId, now: int): nat {
    if holds == [] then 0
    else
      var h := holds[|holds| - 1];
      Held(holds[..|holds| - 1], v, now) + if h.variant == v && now < h.expiresAt then h.quantity else 0
  }

  lemma {:induction false} ReservedIsHeld(holds: seq<Hold>, v: VariantId, now: int)
    ensures Reserved(holds, v, now) == Held(holds, v, now)
  {
    if holds != [] {
      var n := |holds| - 1;
      ReservedIsHeld(holds[..n], v, now);
      ReservedAppend(holds[..n], [holds[n]], v, now);
      assert holds == holds[..n] + [holds[n]] && [holds[n]][1..] == [];
    }
  }

  lemma {:induction false} FindKeyMeans(ledger: seq<Movement>, key: nat, from: nat)
    requires from <= |ledger| && forall i :: 0 <= i < from ==> ledger[i].key != Some(key)
    ensures var r := FindKey(ledger, key, from);
      if r.Some? then FirstWithKey(ledger, key, r.value) else Unused(ledger, Some(key))
    decreases |ledger| - from
  {
    if from < |ledger| && ledger[from].key != Some(key) {
      FindKeyMeans(ledger, key, from + 1);
    }
  }

  /** The row an adjustment writes: a variant's first movement is its opening balance. */
  ghost predicate IsAdjustment(m: Movement, ledger: seq<Movement>, v: VariantId, delta: int, key: Option<nat>) {
    && m.variant == v && m.delta == delta && m.order == None && m.key == key
    && m.reason == if exists i :: 0 <= i < |ledger| && ledger[i].variant == v then Adjustment else OpeningBalance
  }

  /** A staff adjustment: the bounds, a replayed key, the floor at zero and the guard for holds, and what it writes. */
  lemma AdjustmentMeans(s: Stock, now: int, tracked: set<VariantId>, v: VariantId, delta: int, key: Option<nat>)
    ensures var r := RecordMovement(s, now, tracked, v, delta, key);
      var left := OnHand(s.levels, v) + delta;
      if delta == 0 || !(-1_000_000 <= delta <= 1_000_000) then r == Failure(InvalidDelta)
      else if v !in tracked then r == Failure(Untracked)
      else if !Unused(s.ledger, key) then
        exists i: nat :: FirstWithKey(s.ledger, key.value, i)
          && r == if s.ledger[i].variant == v && s.ledger[i].delta == delta then Success(s)
                  else Failure(IdempotencyKeyReuse)
      else if left < 0 then r == Failure(OnHandCheck)
      else if delta < 0 && left < Held(s.holds, v, now) then r == Failure(StockHeld)
      else
        && r.Success? && r.value.holds == s.holds && r.value.levels == s.levels[v := left]
        && |r.value.ledger| == |s.ledger| + 1 && s.ledger <= r.value.ledger
        && IsAdjustment(r.value.ledger[|s.ledger|], s.ledger, v, delta, key)
  {
    hide Reserved;
    hide Held;
    hide FindKey;
    ReservedIsHeld(s.holds, v, now);
    if key.Some? {
      FindKeyMeans(s.ledger, key.value, 0);
    }
  }
}
