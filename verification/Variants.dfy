/**
 * Replacing a product's variants (packages/core/src/catalog/writes.ts:391-435, 492-598)
 * under two partial unique indexes: live SKUs across the store, live option
 * combinations within a product. A row's id is its index; rows are only ever
 * soft-deleted.
 */
module Variants {
  import opened Common

  type Options = map<string, string>

  /** One submitted variant; `detail` stands for the columns nothing here depends on. */
  datatype Input = Input(id: Option<nat>, sku: string, options: Options, detail: nat)

  datatype Variant = Variant(product: nat, sku: string, options: Options, detail: nat, position: nat, deleted: bool)

  type Table = seq<Variant>

  predicate IsLive(rows: Table, r: nat, product: nat) { r < |rows| && rows[r].product == product && !rows[r].deleted }

  /** product_variants_tenant_sku_key and product_variants_option_combo_key. */
  ghost predicate LiveUnique(rows: Table) {
    && (forall r, q :: 0 <= r < q < |rows| && !rows[r].deleted && !rows[q].deleted ==> rows[r].sku != rows[q].sku)
    && (forall r, q ::
        0 <= r < q < |rows| && !rows[r].deleted && !rows[q].deleted && rows[r].product == rows[q].product ==>
        rows[r].options != rows[q].options)
  }

  // ----- validation -----

  datatype Issue = UsedTwice(index: nat) | BelongsToAnother(index: nat)

  predicate Repeats(variants: seq<Input>, i: nat)
    requires i < |variants|
  {
    exists j :: 0 <= j < i && variants[j].sku == variants[i].sku
  }

  predicate Clashes(rows: Table, product: Option<nat>, sku: string) {
    exists r :: 0 <= r < |rows| && rows[r].sku == sku && !rows[r].deleted
      && (product.Some? ==> rows[r].product != product.value)
  }

  /** Exactly the repeated SKUs, and the first uses of a SKU that another product's live variant has. */
  method SkuIssues(rows: Table, product: Option<nat>, variants: seq<Input>) returns (issues: set<Issue>)
    ensures forall i: nat :: UsedTwice(i) in issues <==> i < |variants| && Repeats(variants, i)
    ensures forall i: nat :: BelongsToAnother(i) in issues <==>
      i < |variants| && !Repeats(variants, i) && Clashes(rows, product, variants[i].sku)
  {
    issues := {};
    var seen: map<string, nat> := map[];
    for i := 0 to |variants|
      invariant forall k: nat :: UsedTwice(k) in issues <==> k < i && Repeats(variants, k)
      invariant forall k: nat :: BelongsToAnother(k) !in issues
      invariant forall sku :: sku in seen ==>
        seen[sku] < i && variants[seen[sku]].sku == sku && !Repeats(variants, seen[sku])
      invariant forall k :: 0 <= k < i ==> variants[k].sku in seen
    {
      if variants[i].sku in seen {
        issues := issues + {UsedTwice(i)};
      } else {
        seen := seen[variants[i].sku := i];
      }
    }
    FirstUses(variants, seen);
    for r := 0 to |rows|
      invariant forall k: nat :: UsedTwice(k) in issues <==> k < |variants| && Repeats(variants, k)
      invariant forall k: nat :: BelongsToAnother(k) in issues <==>
        k < |variants| && !Repeats(variants, k) && Clashes(rows[..r], product, variants[k].sku)
    {
      ClashesGrow(rows, product, r);
      var clash := rows[r];
      hide Clashes;
      hide Repeats;
      if !clash.deleted && (product.Some? ==> clash.product != product.value) && clash.sku in seen {
        issues := issues + {BelongsToAnother(seen[clash.sku])};
      }
    }
    assert rows[..|rows|] == rows;
  }

  /** A SKU's entry in `seen` is its one first use. */
  lemma FirstUses(variants: seq<Input>, seen: map<string, nat>)
    requires forall sku :: sku in seen ==>
      seen[sku] < |variants| && variants[seen[sku]].sku == sku && !Repeats(variants, seen[sku])
    requires forall k :: 0 <= k < |variants| ==> variants[k].sku in seen
    ensures forall k: nat, sku :: k < |variants| && !Repeats(variants, k) ==>
      (variants[k].sku == sku <==> sku in seen && seen[sku] == k)
  {
  }

  lemma ClashesGrow(rows: Table, product: Option<nat>, r: nat)
    requires r < |rows|
    ensures forall sku :: Clashes(rows[..r + 1], product, sku) <==>
      Clashes(rows[..r], product, sku)
      || (rows[r].sku == sku && !rows[r].deleted && (product.Some? ==> rows[r].product != product.value))
  {
    forall sku ensures Clashes(rows[..r + 1], product, sku) <==>
      Clashes(rows[..r], product, sku)
      || (rows[r].sku == sku && !rows[r].deleted && (product.Some? ==> rows[r].product != product.value))
    {
      if Clashes(rows[..r], product, sku) {
        var q :| 0 <= q < r && rows[..r][q].sku == sku && !rows[..r][q].deleted
          && (product.Some? ==> rows[..r][q].product != product.value);
        assert rows[..r + 1][q] == rows[q];
      }
      if Clashes(rows[..r + 1], product, sku) {
        var q :| 0 <= q < r + 1 && rows[..r + 1][q].sku == sku && !rows[..r + 1][q].deleted
          && (product.Some? ==> rows[..r + 1][q].product != product.value);
        assert q < r ==> rows[..r][q] == rows[q];
      }
      if rows[r].sku == sku && !rows[r].deleted && (product.Some? ==> rows[r].product != product.value) {
        assert rows[..r + 1][r].sku == sku;
      }
    }
  }

  /** What validation lets through: no SKU issue, and no option combination twice. */
  ghost predicate ValidPayload(rows: Table, product: nat, variants: seq<Input>) {
    && (forall i, j :: 0 <= i < j < |variants| ==>
       variants[i].sku != variants[j].sku && variants[i].options != variants[j].options)
    && (forall i :: 0 <= i < |variants| ==> !Clashes(rows, Some(product), variants[i].sku))
  }

  // ----- which row each submitted variant edits -----

  /** An id is honoured when it names a live variant of this product that no earlier row has named. */
  function IdClaim(rows: Table, product: nat, variants: seq<Input>, i: nat): Option<nat>
    requires i < |variants|
  {
    var id := variants[i].id;
    var named := id.Some? && IsLive(rows, id.value, product);
    if named && forall j :: 0 <= j < i ==> variants[j].id != id then id else None
  }

  ghost predicate ClaimedById(rows: Table, product: nat, variants: seq<Input>, r: nat) {
    exists j :: 0 <= j < |variants| && variants[j].id == Some(r) && IsLive(rows, r, product)
  }

  /** The live variant of this product that has the SKU. */
  function BySku(rows: Table, product: nat, sku: string, from: nat): (r: Option<nat>)
    requires from <= |rows|
    ensures r.Some? ==> from <= r.value < |rows| && IsLive(rows, r.value, product) && rows[r.value].sku == sku
    ensures r.None? ==> forall q :: from <= q < |rows| && IsLive(rows, q, product) ==> rows[q].sku != sku
    decreases |rows| - from
  {
    if from == |rows| then None
    else if IsLive(rows, from, product) && rows[from].sku == sku then Some(from)
    else BySku(rows, product, sku, from + 1)
  }

  /** By id first; then by SKU, unless some row names that variant by id. */
  ghost function Target(rows: Table, product: nat, variants: seq<Input>, i: nat): Option<nat>
    requires i < |variants|
  {
    if IdClaim(rows, product, variants, i).Some? then IdClaim(rows, product, variants, i)
    else
      var r := BySku(rows, product, variants[i].sku, 0);
      if r.Some? && !ClaimedById(rows, product, variants, r.value) then r else None
  }

  lemma ClaimsAreTheFirst(rows: Table, product: nat, variants: seq<Input>, r: nat)
    ensures ClaimedById(rows, product, variants, r) <==>
      exists j :: 0 <= j < |variants| && IdClaim(rows, product, variants, j) == Some(r)
  {
    if j :| 0 <= j < |variants| && variants[j].id == Some(r) && IsLive(rows, r, product) {
      var first := FirstNaming(variants, r, j);
      assert IdClaim(rows, product, variants, first) == Some(r);
    }
  }

  lemma {:induction false} FirstNaming(variants: seq<Input>, r: nat, j: nat) returns (first: nat)
    requires j < |variants| && variants[j].id == Some(r)
    ensures first < |variants| && variants[first].id == Some(r)
    ensures forall k :: 0 <= k < first ==> variants[k].id != Some(r)
    decreases j
  {
    if k :| 0 <= k < j && variants[k].id == Some(r) {
      first := FirstNaming(variants, r, k);
    } else {
      first := j;
    }
  }

  /** No existing row is the target of two submitted variants. */
  lemma TargetsAreDistinct(rows: Table, product: nat, variants: seq<Input>, i: nat, j: nat)
    requires ValidPayload(rows, product, variants) && i < j < |variants| && Target(rows, product, variants, i).Some?
    ensures Target(rows, product, variants, j) != Target(rows, product, variants, i)
  {
  }

  /** The row is live, of the product, and named by the variant's id before any other's. */
  ghost predicate NamedFirst(rows: Table, product: nat, variants: seq<Input>, i: nat, r: nat)
    requires i < |variants|
  {
    && r < |rows| && rows[r].product == product && !rows[r].deleted
    && variants[i].id == Some(r) && forall j :: 0 <= j < i ==> variants[j].id != Some(r)
  }

  /** The row is live, of the product, of the variant's SKU, and named by no id. */
  ghost predicate MatchedBySku(rows: Table, product: nat, variants: seq<Input>, i: nat, r: nat)
    requires i < |variants|
  {
    && r < |rows| && rows[r].product == product && !rows[r].deleted && rows[r].sku == variants[i].sku
    && forall j :: 0 <= j < |variants| ==> variants[j].id != Some(r)
  }

  /** A submitted variant edits the row it names first, else the one of its SKU that nobody names, else none. */
  lemma TargetMeans(rows: Table, product: nat, variants: seq<Input>, i: nat, r: nat)
    requires LiveUnique(rows) && i < |variants|
    ensures Target(rows, product, variants, i) == Some(r) <==>
      || NamedFirst(rows, product, variants, i, r)
      || (MatchedBySku(rows, product, variants, i, r) && forall q :: !NamedFirst(rows, product, variants, i, q))
  {
    var found := BySku(rows, product, variants[i].sku, 0);
    assert forall q: nat :: IdClaim(rows, product, variants, i) == Some(q) <==>
      NamedFirst(rows, product, variants, i, q);
    assert found == Some(r) <==> IsLive(rows, r, product) && rows[r].sku == variants[i].sku;
    hide BySku;
    hide IdClaim;
  }

  /** The two passes: every id is settled before any SKU is looked at. */
  method ResolveTargets(rows: Table, product: nat, variants: seq<Input>) returns (resolved: seq<Option<nat>>)
    requires ValidPayload(rows, product, variants)
    ensures |resolved| == |variants|
    ensures forall i :: 0 <= i < |variants| ==> resolved[i] == Target(rows, product, variants, i)
  {
    var targets := new Option<nat>[|variants|](_ => None);
    var claimed := ClaimIds(rows, product, variants, targets);
    ClaimSkus(rows, product, variants, targets, claimed);
    resolved := targets[..];
  }

  ghost predicate NamedAmong(rows: Table, product: nat, variants: seq<Input>, r: nat, n: nat)
    requires n <= |variants|
  {
    exists k :: 0 <= k < n && IdClaim(rows, product, variants, k) == Some(r)
  }

  method ClaimIds(rows: Table, product: nat, variants: seq<Input>,
                  targets: array<Option<nat>>) returns (claimed: set<nat>)
    requires targets.Length == |variants| && forall k :: 0 <= k < |variants| ==> targets[k] == None
    modifies targets
    ensures forall k :: 0 <= k < |variants| ==> targets[k] == IdClaim(rows, product, variants, k)
    ensures forall r :: r in claimed <==> ClaimedById(rows, product, variants, r)
  {
    claimed := {};
    for i := 0 to |variants|
      invariant forall k :: 0 <= k < |variants| ==>
        targets[k] == if k < i then IdClaim(rows, product, variants, k) else None
      invariant forall r :: r in claimed <==> NamedAmong(rows, product, variants, r, i)
    {
      var variant := variants[i];
      ClaimAt(rows, product, variants, i);
      hide IdClaim;
      hide NamedAmong;
      if variant.id.Some? && IsLive(rows, variant.id.value, product) && variant.id.value !in claimed {
        claimed := claimed + {variant.id.value};
        targets[i] := variant.id;
      }
    }
    forall r ensures r in claimed <==> ClaimedById(rows, product, variants, r) {
      ClaimsAreTheFirst(rows, product, variants, r);
    }
  }

  /** What the first pass decides at i, given the ids claimed before. */
  lemma ClaimAt(rows: Table, product: nat, variants: seq<Input>, i: nat)
    requires i < |variants|
    ensures var id := variants[i].id;
      IdClaim(rows, product, variants, i) ==
      if id.Some? && IsLive(rows, id.value, product) && !NamedAmong(rows, product, variants, id.value, i) then id
      else None
    ensures forall r: nat :: NamedAmong(rows, product, variants, r, i + 1) <==>
      NamedAmong(rows, product, variants, r, i) || IdClaim(rows, product, variants, i) == Some(r)
  {
    var id := variants[i].id;
    if id.Some? && IsLive(rows, id.value, product) {
      forall j | 0 <= j < i && variants[j].id == id ensures NamedAmong(rows, product, variants, id.value, i) {
        var first := FirstNaming(variants, id.value, j);
        assert IdClaim(rows, product, variants, first) == id;
      }
    }
  }

  predicate SkuBefore(variants: seq<Input>, n: nat, sku: string)
    requires n <= |variants|
  {
    exists k :: 0 <= k < n && variants[k].sku == sku
  }

  method ClaimSkus(rows: Table, product: nat, variants: seq<Input>, targets: array<Option<nat>>, byId: set<nat>)
    requires ValidPayload(rows, product, variants) && targets.Length == |variants|
    requires forall k :: 0 <= k < |variants| ==> targets[k] == IdClaim(rows, product, variants, k)
    requires forall r :: r in byId <==> ClaimedById(rows, product, variants, r)
    modifies targets
    ensures forall k :: 0 <= k < |variants| ==> targets[k] == Target(rows, product, variants, k)
  {
    var claimed := byId;
    for i := 0 to |variants|
      invariant forall k :: 0 <= k < |variants| ==>
        targets[k] == if k < i then Target(rows, product, variants, k) else IdClaim(rows, product, variants, k)
      invariant byId <= claimed
      invariant forall r :: r in claimed && r !in byId ==> r < |rows| && SkuBefore(variants, i, rows[r].sku)
    {
      hide IdClaim;
      hide ClaimedById;
      if targets[i].None? {
        var found := BySku(rows, product, variants[i].sku, 0);
        if found.Some? && found.value !in claimed {
          claimed := claimed + {found.value};
          targets[i] := found;
        }
      }
    }
  }

  // ----- the writes -----

  function Written(product: nat, input: Input, position: nat): Variant {
    Variant(product, input.sku, input.options, input.detail, position, false)
  }

  function SoftDelete(rows: Table, product: nat): (t: Table)
    ensures |t| == |rows|
  {
    seq(|rows|, r requires 0 <= r < |rows| => if rows[r].product == product then rows[r].(deleted := true) else rows[r])
  }

  /**
   * The table after the soft delete and the first n writes: written rows are the submitted variants, in order and on
   * distinct rows; every other row of the product is deleted, and nothing else has changed.
   */
  ghost predicate Replaced(before: Table, product: nat, variants: seq<Input>, n: nat, t: Table, ids: seq<nat>) {
    && n == |ids| <= |variants| && |before| <= |t|
    && (forall i :: 0 <= i < n ==> ids[i] < |t| && t[ids[i]] == Written(product, variants[i], i))
    && (forall i, j :: 0 <= i < j < n ==> ids[i] != ids[j])
    && (forall i :: 0 <= i < n ==>
        if Target(before, product, variants, i).Some? then ids[i] == Target(before, product, variants, i).value
        else ids[i] >= |before|)
    && (forall r :: 0 <= r < |before| && r !in ids ==> t[r] == SoftDelete(before, product)[r])
    && (forall r :: |before| <= r < |t| ==> r in ids)
  }

  /** Both indexes hold between any two writes. */
  lemma ReplacedIsUnique(before: Table, product: nat, variants: seq<Input>, n: nat, t: Table, ids: seq<nat>)
    requires LiveUnique(before) && ValidPayload(before, product, variants)
    requires Replaced(before, product, variants, n, t, ids)
    ensures LiveUnique(t)
  {
    forall r, q | 0 <= r < q < |t| && !t[r].deleted && !t[q].deleted
      ensures t[r].sku != t[q].sku && (t[r].product == t[q].product ==> t[r].options != t[q].options)
    {
      if r in ids && q in ids {
        WrittenBesideWritten(before, product, variants, n, t, ids, r, q);
      } else if r in ids {
        WrittenBesideOther(before, product, variants, n, t, ids, r, q);
      } else if q in ids {
        WrittenBesideOther(before, product, variants, n, t, ids, q, r);
      } else {
        assert t[r] == before[r] && t[q] == before[q];
      }
    }
  }

  lemma WrittenBesideWritten(before: Table, product: nat, variants: seq<Input>, n: nat, t: Table, ids: seq<nat>, r: nat,
                             q: nat)
    requires ValidPayload(before, product, variants) && Replaced(before, product, variants, n, t, ids)
    requires r < |t| && q < |t| && r != q && r in ids && q in ids
    ensures t[r].sku != t[q].sku && t[r].options != t[q].options
  {
  }

  lemma WrittenBesideOther(before: Table, product: nat, variants: seq<Input>, n: nat, t: Table, ids: seq<nat>, w: nat,
                           r: nat)
    requires ValidPayload(before, product, variants) && Replaced(before, product, variants, n, t, ids)
    requires w < |t| && r < |t| && w in ids && r !in ids && !t[r].deleted
    ensures t[w].sku != t[r].sku && t[w].product != t[r].product
  {
  }

  /** The row a submitted variant edits exists and has not been written yet. */
  lemma TargetIsFree(before: Table, product: nat, variants: seq<Input>, n: nat, t: Table, ids: seq<nat>)
    requires ValidPayload(before, product, variants) && Replaced(before, product, variants, n, t, ids) && n < |variants|
    requires Target(before, product, variants, n).Some?
    ensures Target(before, product, variants, n).value < |before| && Target(before, product, variants, n).value !in ids
  {
  }

  lemma NothingWritten(before: Table, product: nat, variants: seq<Input>)
    ensures Replaced(before, product, variants, 0, SoftDelete(before, product), [])
  {
  }

  /** The next write, on the resolved target or on a new row. */
  lemma ReplacedGrows(before: Table, product: nat, variants: seq<Input>, n: nat, t: Table, ids: seq<nat>)
    requires ValidPayload(before, product, variants) && Replaced(before, product, variants, n, t, ids) && n < |variants|
    ensures var target, row := Target(before, product, variants, n), Written(product, variants[n], n);
      if target.Some? then
        target.value < |t| && Replaced(before, product, variants, n + 1, t[target.value := row], ids + [target.value])
      else Replaced(before, product, variants, n + 1, t + [row], ids + [|t|])
  {
    if Target(before, product, variants, n).Some? {
      TargetIsFree(before, product, variants, n, t, ids);
    }
    hide Target;
    hide ValidPayload;
    hide SoftDelete;
  }

  /** One write: an update of row id, or an insert when id is the next one. */
  function WriteRow(t: Table, id: nat, row: Variant): Table
    requires id <= |t|
  {
    if id == |t| then t + [row] else t[id := row]
  }

  /**
   * The tables between the first n writes: each is the one before it
   * with the one row of its submitted variant written.
   */
  ghost predicate OneWriteEach(history: seq<Table>, product: nat, variants: seq<Input>, ids: seq<nat>, n: nat) {
    && n == |ids| <= |variants| && |history| == n + 1
    && forall k :: 0 <= k < n ==>
      ids[k] <= |history[k]| && history[k + 1] == WriteRow(history[k], ids[k], Written(product, variants[k], k))
  }

  lemma OneMoreWrite(history: seq<Table>, product: nat, variants: seq<Input>, ids: seq<nat>, n: nat, id: nat, t: Table)
    requires OneWriteEach(history, product, variants, ids, n) && n < |variants| && id <= |history[n]|
    requires t == WriteRow(history[n], id, Written(product, variants[n], n))
    ensures OneWriteEach(history + [t], product, variants, ids + [id], n + 1)
  {
  }

  class VariantTable {
    var rows: Table
    /** The table after the soft delete and after each write of the last replacement. */
    ghost var history: seq<Table>

    constructor ()
      ensures rows == [] && history == []
    {
      rows, history := [], [];
    }

    method WriteVariants(product: nat, variants: seq<Input>) returns (ids: seq<nat>)
      requires LiveUnique(rows) && ValidPayload(rows, product, variants)
      modifies this
      ensures Replaced(old(rows), product, variants, |variants|, rows, ids)
      ensures OneWriteEach(history, product, variants, ids, |variants|)
      ensures history[0] == SoftDelete(old(rows), product) && history[|variants|] == rows
      ensures forall k :: 0 <= k < |history| ==> LiveUnique(history[k])
    {
      hide Replaced;
      hide ValidPayload;
      hide LiveUnique;
      hide Target;
      hide SoftDelete;
      hide Written;
      ghost var before := rows;
      var targets := ResolveTargets(rows, product, variants);
      ids := [];
      NothingWritten(before, product, variants);
      ReplacedIsUnique(before, product, variants, 0, SoftDelete(before, product), []);
      rows := SoftDelete(rows, product);
      history := [rows];
      for position := 0 to |variants|
        invariant Replaced(before, product, variants, position, rows, ids)
        invariant OneWriteEach(history, product, variants, ids, position)
        invariant history[0] == SoftDelete(before, product) && history[position] == rows
        invariant forall k :: 0 <= k < |history| ==> LiveUnique(history[k])
      {
        var row := Written(product, variants[position], position);
        ReplacedGrows(before, product, variants, position, rows, ids);
        var id := if targets[position].Some? then targets[position].value else |rows|;
        if targets[position].Some? {
          rows := rows[id := row];
        } else {
          rows := rows + [row];
        }
        OneMoreWrite(history, product, variants, ids, position, id, rows);
        ids := ids + [id];
        ReplacedIsUnique(before, product, variants, position + 1, rows, ids);
        history := history + [rows];
      }
    }
  }

  // ----- what a replacement means -----

  /**
   * The product's live variants are the payload: each is the submitted variant at its position, on the row written for
   * it. No row is lost, and a row's own id beats any SKU match.
   */
  lemma ReplacementIsThePayload(before: Table, product: nat, variants: seq<Input>, t: Table, ids: seq<nat>)
    requires ValidPayload(before, product, variants) && Replaced(before, product, variants, |variants|, t, ids)
    ensures forall r :: IsLive(t, r, product) <==> r in ids
    ensures forall r: nat :: IsLive(t, r, product) ==>
      var i := t[r].position;
      && i < |variants| && ids[i] == r
      && t[r] == Variant(product, variants[i].sku, variants[i].options, variants[i].detail, i, false)
    ensures forall r :: 0 <= r < |before| ==>
      t[r].product == before[r].product && (before[r].product != product ==> t[r] == before[r])
    ensures forall i :: 0 <= i < |variants| && IdClaim(before, product, variants, i).Some? ==>
      Some(ids[i]) == variants[i].id
  {
    forall r: nat | IsLive(t, r, product)
      ensures t[r].position < |variants| && ids[t[r].position] == r
      ensures t[r] == Written(product, variants[t[r].position], t[r].position)
    {
      assert r in ids;
      var i :| 0 <= i < |ids| && ids[i] == r;
      assert t[r] == Written(product, variants[i], i);
    }
  }

  /** Resubmitting live variants without ids, in any order, keeps every id. */
  lemma ResubmissionKeepsIds(before: Table, product: nat, variants: seq<Input>, t: Table, ids: seq<nat>, i: nat, r: nat)
    requires LiveUnique(before) && ValidPayload(before, product, variants)
    requires Replaced(before, product, variants, |variants|, t, ids)
    requires forall j :: 0 <= j < |variants| ==> variants[j].id.None?
    requires i < |variants| && IsLive(before, r, product) && before[r].sku == variants[i].sku
    ensures ids[i] == r
  {
  }
}
