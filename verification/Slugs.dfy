/**
 * Public URLs (packages/core/src/catalog/slug.ts:72-183;
 * packages/core/src/catalog/writes.ts:227-298; packages/core/src/catalog/queries.ts:148-170):
 * choosing a free slug, pointing an entity's canonical URL at it without ever
 * losing an old one, and resolving a request.
 */
module Slugs {
  import opened Common

  const MAX_SLUG_LENGTH := 96
  const MAX_ATTEMPTS := 100

  const RESERVED_SLUGS: set<string> := {
    "cart", "checkout", "search", "account", "orders", "order", "login", "logout", "register", "api", "admin",
    "console", "sitemap", "sitemap.xml", "robots.txt", "favicon.ico", "_next", "static", "assets", "media", "products",
    "product", "categories", "category", "collections", "collection", "pages", "policies", "404", "500" }

  // ----- choosing a slug -----

  function Decimal(n: nat): (r: string)
    ensures r != [] && '-' !in r
    ensures n < 10 <==> |r| == 1
    ensures n < 100 ==> |r| <= 2
    ensures n < 1000 ==> |r| <= 3
  {
    if n < 10 then [Digit(n)] else Decimal(n / 10) + [Digit(n % 10)]
  }

  function Digit(d: nat): (c: char)
    requires d < 10
    ensures c != '-'
  {
    ['0', '1', '2', '3', '4', '5', '6', '7', '8', '9'][d]
  }

  function DropTrailingHyphens(s: string): (r: string)
    ensures |r| <= |s| && r == s[..|r|]
    ensures r == [] || r[|r| - 1] != '-'
    ensures s != [] && s[|s| - 1] != '-' ==> r == s
  {
    if s != [] && s[|s| - 1] == '-' then DropTrailingHyphens(s[..|s| - 1]) else s
  }

  /** Folded text: words joined by single hyphens. */
  predicate Folded(slug: string) {
    && (slug != [] ==> slug[0] != '-' && slug[|slug| - 1] != '-')
    && forall i :: 0 < i < |slug| ==> slug[i - 1] != '-' || slug[i] != '-'
  }

  /** Where a long slug is cut: at its last hyphen within the length, if that is past the middle; else at the length. */
  predicate CutsAt(slug: string, n: nat) {
    if exists i :: MAX_SLUG_LENGTH / 2 <= i < MAX_SLUG_LENGTH <= |slug| && slug[i] == '-' then
      && MAX_SLUG_LENGTH / 2 <= n < MAX_SLUG_LENGTH <= |slug| && slug[n] == '-'
      && forall i :: n < i < MAX_SLUG_LENGTH ==> slug[i] != '-'
    else n == MAX_SLUG_LENGTH
  }

  /** The end of slugify, on the folded text: cut to length at a word boundary, or the fallback. */
  function CutSlug(slug: string): (r: string)
    ensures 0 < |r| <= MAX_SLUG_LENGTH
    ensures slug == [] ==> r == "item"
    ensures 0 < |slug| <= MAX_SLUG_LENGTH ==> r == slug
    ensures Folded(slug) && |slug| > MAX_SLUG_LENGTH ==> r <= slug && CutsAt(slug, |r|)
  {
    var cut := if |slug| <= MAX_SLUG_LENGTH then slug else DropTrailingHyphens(AtBoundary(slug[..MAX_SLUG_LENGTH]));
    if cut == [] then "item" else cut
  }

  function AtBoundary(slug: string): (r: string)
    ensures |r| <= |slug| && r == slug[..|r|]
  {
    var last := LastHyphen(slug, |slug|);
    if last.Some? && last.value >= MAX_SLUG_LENGTH / 2 then slug[..last.value] else slug
  }

  function LastHyphen(slug: string, upTo: nat): (r: Option<nat>)
    requires upTo <= |slug|
    ensures r.Some? ==> r.value < upTo && slug[r.value] == '-'
    ensures forall i :: (if r.Some? then r.value + 1 else 0) <= i < upTo ==> slug[i] != '-'
  {
    if upTo == 0 then None else if slug[upTo - 1] == '-' then Some(upTo - 1) else LastHyphen(slug, upTo - 1)
  }

  function Base(desired: string): string { if desired in RESERVED_SLUGS then desired + "-item" else desired }

  function TruncateForSuffix(base: string, n: nat): (r: string)
    requires n < 1000
    ensures |r| + 1 + |Decimal(n)| <= MAX_SLUG_LENGTH
  {
    var room := MAX_SLUG_LENGTH - |Decimal(n)| - 1;
    if |base| <= room then base else DropTrailingHyphens(base[..room])
  }

  /** What availableSlug tries, in order: the base, then -2, -3 and so on. */
  function Candidate(desired: string, n: nat): string
    requires 1 <= n <= MAX_ATTEMPTS
  {
    if n == 1 then Base(desired) else TruncateForSuffix(Base(desired), n) + "-" + Decimal(n)
  }

  /** The first candidate from the n-th on that is not taken. */
  function FirstFree(desired: string, taken: set<string>, n: nat): Option<string>
    requires 1 <= n <= MAX_ATTEMPTS + 1
    decreases MAX_ATTEMPTS + 1 - n
  {
    if n > MAX_ATTEMPTS then None
    else if Candidate(desired, n) !in taken then Some(Candidate(desired, n))
    else FirstFree(desired, taken, n + 1)
  }

  method AvailableSlug(desired: string, taken: set<string>) returns (r: Option<string>)
    ensures r == FirstFree(desired, taken, 1)
  {
    var base := Base(desired);
    if base !in taken {
      return Some(base);
    }
    for n := 2 to MAX_ATTEMPTS + 1
      invariant FirstFree(desired, taken, 1) == FirstFree(desired, taken, n)
    {
      var candidate := TruncateForSuffix(base, n) + "-" + Decimal(n);
      if candidate !in taken {
        return Some(candidate);
      }
    }
    r := None;
  }

  /** The k-th candidate is s, is free, and those from the n-th up to it are not. */
  ghost predicate FreeAt(desired: string, taken: set<string>, n: nat, k: nat, s: string)
    requires 1 <= n
  {
    && n <= k <= MAX_ATTEMPTS && s == Candidate(desired, k) && s !in taken
    && forall j :: n <= j < k ==> Candidate(desired, j) in taken
  }

  lemma {:induction false} FirstFreeIsFree(desired: string, taken: set<string>, n: nat)
    requires 1 <= n <= MAX_ATTEMPTS + 1
    ensures var r := FirstFree(desired, taken, n);
      if r.Some? then r.value !in taken && (exists k :: FreeAt(desired, taken, n, k, r.value))
      else (forall j :: n <= j <= MAX_ATTEMPTS ==> Candidate(desired, j) in taken)
    decreases MAX_ATTEMPTS + 1 - n
  {
    hide Candidate;
    if n <= MAX_ATTEMPTS {
      var r := FirstFree(desired, taken, n);
      if Candidate(desired, n) in taken {
        FirstFreeIsFree(desired, taken, n + 1);
        if r.Some? {
          var k :| FreeAt(desired, taken, n + 1, k, r.value);
          assert FreeAt(desired, taken, n, k, r.value);
        }
      } else {
        assert FreeAt(desired, taken, n, n, r.value);
      }
    }
  }

  lemma ReservedHaveNoHyphen(s: string)
    requires s in RESERVED_SLUGS
    ensures '-' !in s && |s| <= 11
  {
  }

  /** What a public URL may be. */
  predicate Usable(s: string) { s != [] && s !in RESERVED_SLUGS && |s| <= MAX_SLUG_LENGTH }

  /** A chosen slug is free, unreserved and short enough; none is chosen exactly when every candidate is taken. */
  lemma ChosenSlugsAreUsable(desired: string, taken: set<string>)
    requires 0 < |desired| <= MAX_SLUG_LENGTH
    ensures var r := FirstFree(desired, taken, 1);
      && (r.Some? ==> r.value !in taken && Usable(r.value))
      && (r.None? <==> forall n :: 1 <= n <= MAX_ATTEMPTS ==> Candidate(desired, n) in taken)
  {
    FirstFreeIsFree(desired, taken, 1);
    var r := FirstFree(desired, taken, 1);
    if r.Some? {
      var k :| FreeAt(desired, taken, 1, k, r.value);
      CandidateIsUsable(desired, k);
    }
  }

  lemma CandidateIsUsable(desired: string, n: nat)
    requires 0 < |desired| <= MAX_SLUG_LENGTH && 1 <= n <= MAX_ATTEMPTS
    ensures Usable(Candidate(desired, n))
  {
    var c := Candidate(desired, n);
    hide RESERVED_SLUGS;
    if desired in RESERVED_SLUGS {
      ReservedHaveNoHyphen(desired);
    }
    if n > 1 {
      assert c[|TruncateForSuffix(Base(desired), n)|] == '-';
    } else if desired in RESERVED_SLUGS {
      assert c[|desired|] == '-';
    }
    if c in RESERVED_SLUGS {
      ReservedHaveNoHyphen(c);
    }
  }

  /** The number a text of decimal digits stands for. */
  function Numeral(s: string): int {
    if s == "" then 0 else 10 * Numeral(s[..|s| - 1]) + (s[|s| - 1] as int - '0' as int)
  }

  /** The numeral of n: digits without a leading zero. */
  lemma {:induction false} DecimalMeans(n: nat)
    ensures Numeral(Decimal(n)) == n && (n > 0 ==> Decimal(n)[0] != '0')
    ensures forall i :: 0 <= i < |Decimal(n)| ==> '0' <= Decimal(n)[i] <= '9'
  {
    if n >= 10 {
      DecimalMeans(n / 10);
      var front, last := Decimal(n / 10), Digit(n % 10);
      assert Decimal(n) == front + [last] && Decimal(n)[..|front|] == front;
    } else {
      assert Decimal(n)[..0] == "";
    }
  }

  /** The stem of a numbered candidate: all of the base when it fits, else what fits of it, less hyphens at its end. */
  ghost predicate IsStem(stem: string, base: string, room: int) {
    && stem <= base
    && (|base| <= room ==> stem == base)
    && (|base| > room ==>
        && |stem| <= room && (stem != "" ==> stem[|stem| - 1] != '-')
        && forall i :: |stem| <= i < room ==> base[i] == '-')
  }

  lemma {:induction false} DroppedWereHyphens(s: string)
    ensures forall i :: |DropTrailingHyphens(s)| <= i < |s| ==> s[i] == '-'
  {
    if s != [] && s[|s| - 1] == '-' {
      DroppedWereHyphens(s[..|s| - 1]);
    }
  }

  /** What is tried: the slug itself, or with "-item" when it is reserved; then its stem with -2, -3 and so on. */
  lemma CandidateMeans(desired: string, n: nat)
    requires 1 <= n <= 100
    ensures var base := if desired in RESERVED_SLUGS then desired + "-item" else desired;
      if n == 1 then Candidate(desired, n) == base
      else exists stem :: IsStem(stem, base, 95 - |Decimal(n)|) && Candidate(desired, n) == stem + "-" + Decimal(n)
  {
    hide RESERVED_SLUGS;
    hide Decimal;
    hide IsStem;
    hide TruncateForSuffix;
    if n > 1 {
      TruncatedIsStem(Base(desired), n);
      assert Candidate(desired, n) == TruncateForSuffix(Base(desired), n) + "-" + Decimal(n);
    }
  }

  lemma TruncatedIsStem(base: string, n: nat)
    requires n < 1000
    ensures IsStem(TruncateForSuffix(base, n), base, 95 - |Decimal(n)|)
  {
    hide Decimal;
    hide DropTrailingHyphens;
    var room := 95 - |Decimal(n)|;
    if |base| > room {
      DroppedWereHyphens(base[..room]);
      assert TruncateForSuffix(base, n) == base[..room][..|TruncateForSuffix(base, n)|];
    }
  }

  /** Two numbered candidates are never the same, so all ninety-nine are tried. */
  lemma NumberedCandidatesDiffer(desired: string, n: nat, k: nat)
    requires 2 <= n < k <= MAX_ATTEMPTS
    ensures Candidate(desired, n) != Candidate(desired, k)
  {
    var a, b := TruncateForSuffix(Base(desired), n), TruncateForSuffix(Base(desired), k);
    if a + "-" + Decimal(n) == b + "-" + Decimal(k) {
      SuffixesAgree(a, Decimal(n), b, Decimal(k));
      DecimalIsInjective(n, k);
    }
  }

  lemma SuffixesAgree(a: string, x: string, b: string, y: string)
    requires '-' !in x && '-' !in y && a + "-" + x == b + "-" + y
    ensures x == y
  {
    var s, t := a + "-" + x, b + "-" + y;
    assert s[|a|] == '-' && t[|b|] == '-';
    assert forall i :: |a| < i < |s| ==> s[i] == x[i - |a| - 1];
    assert forall i :: |b| < i < |t| ==> t[i] == y[i - |b| - 1];
    assert x == s[|a| + 1..] && y == t[|b| + 1..];
  }

  lemma {:induction false} DecimalIsInjective(n: nat, k: nat)
    requires Decimal(n) == Decimal(k)
    ensures n == k
  {
    var x, y := Decimal(n), Decimal(k);
    if n >= 10 && k >= 10 {
      assert x[..|x| - 1] == Decimal(n / 10) && y[..|y| - 1] == Decimal(k / 10);
      assert x[|x| - 1] == Digit(n % 10) && y[|y| - 1] == Digit(k % 10);
      DecimalIsInjective(n / 10, k / 10);
    }
  }

  // ----- the slug table -----

  datatype Kind = ProductPage | CategoryPage | CollectionPage

  datatype Row = Row(kind: Kind, entity: nat, canonical: bool)

  type Table = map<string, Row>

  /** A slug is taken only by a different entity. */
  function TakenFrom(rows: Table, entity: nat): set<string> { set s | s in rows && rows[s].entity != entity }

  predicate Owns(r: Row, kind: Kind, entity: nat) { r.kind == kind && r.entity == entity }

  predicate IsCanonical(rows: Table, s: string, kind: Kind, entity: nat) {
    s in rows && rows[s] == Row(kind, entity, true)
  }

  function Demote(rows: Table, kind: Kind, entity: nat): Table {
    map s | s in rows :: if Owns(rows[s], kind, entity) then rows[s].(canonical := false) else rows[s]
  }

  /** INSERT .. ON CONFLICT (slug) DO UPDATE SET is_canonical = true WHERE entity_id = entity. */
  function Upsert(rows: Table, s: string, kind: Kind, entity: nat): Table {
    if s !in rows then rows[s := Row(kind, entity, true)]
    else if rows[s].entity == entity then rows[s := rows[s].(canonical := true)] else rows
  }

  /** The slug of the folded title, or the nearest free one, becomes the entity's canonical slug. */
  function SetCanonical(rows: Table, kind: Kind, entity: nat, desired: string): Table {
    var chosen := FirstFree(CutSlug(desired), TakenFrom(rows, entity), 1);
    if chosen.None? || IsCanonical(rows, chosen.value, kind, entity) then rows
    else Upsert(Demote(rows, kind, entity), chosen.value, kind, entity)
  }

  datatype Resolution = Render(kind: Kind, entity: nat) | Redirect(to: string) | NotFound

  ghost predicate Resolves(rows: Table, s: string, r: Resolution) {
    match r
    case NotFound => s !in rows
      || (!rows[s].canonical && forall c :: !IsCanonical(rows, c, rows[s].kind, rows[s].entity))
    case Render(kind, entity) => s in rows && rows[s] == Row(kind, entity, true)
    case Redirect(to) => s in rows && !rows[s].canonical && IsCanonical(rows, to, rows[s].kind, rows[s].entity)
  }

  class SlugTable {
    var rows: Table

    constructor ()
      ensures rows == map[]
    {
      rows := map[];
    }

    /** The entity's canonical slug, if it has one. */
    method FindCanonical(kind: Kind, entity: nat) returns (r: Option<string>)
      ensures r.Some? ==> IsCanonical(rows, r.value, kind, entity)
      ensures r.None? ==> forall s :: !IsCanonical(rows, s, kind, entity)
    {
      if s :| s in rows && IsCanonical(rows, s, kind, entity) {
        return Some(s);
      }
      r := None;
    }

    /** The slug and the one it supersedes, or nothing when every candidate is another entity's. */
    method SetCanonicalSlug(kind: Kind, entity: nat, desired: string) returns (r: Option<(string, Option<string>)>)
      requires SlugInv(rows) && KindFits(rows, kind, entity)
      modifies this
      ensures SlugInv(rows) && Kept(old(rows), rows)
      ensures rows == SetCanonical(old(rows), kind, entity, desired)
      ensures r.None? <==> FirstFree(CutSlug(desired), TakenFrom(old(rows), entity), 1).None?
      ensures r.Some? ==>
        && FirstFree(CutSlug(desired), TakenFrom(old(rows), entity), 1) == Some(r.value.0)
        && (r.value.1.Some? ==> r.value.1.value != r.value.0 && IsCanonical(old(rows), r.value.1.value, kind, entity))
        && (r.value.1.None? ==> forall s :: IsCanonical(old(rows), s, kind, entity) ==> s == r.value.0)
    {
      var current := FindCanonical(kind, entity);
      var base := CutSlug(desired);
      var chosen := AvailableSlug(base, TakenFrom(rows, entity));
      FirstFreeIsFree(base, TakenFrom(rows, entity), 1);
      SetCanonicalKeeps(rows, kind, entity, desired);
      if chosen.None? {
        return None;
      }
      var slug := chosen.value;
      if current == Some(slug) {
        return Some((slug, None));
      }
      rows := Demote(rows, kind, entity);
      rows := Upsert(rows, slug, kind, entity);
      r := Some((slug, current));
    }

    method ResolveStorefrontSlug(s: string) returns (r: Resolution)
      ensures Resolves(rows, s, r)
    {
      if s !in rows {
        return NotFound;
      }
      var row := rows[s];
      if row.canonical {
        return Render(row.kind, row.entity);
      }
      var canonical := FindCanonical(row.kind, row.entity);
      r := if canonical.None? then NotFound else Redirect(canonical.value);
    }
  }

  // ----- URLs never die or change owner -----

  /** url_slugs_one_canonical_key: at most one canonical slug per entity. */
  ghost predicate OneCanonical(rows: Table) {
    forall s, t ::
      s in rows && t in rows && rows[s].canonical && rows[t].canonical && rows[s].entity == rows[t].entity ==> s == t
  }

  ghost predicate OneKind(rows: Table) {
    forall s, t :: s in rows && t in rows && rows[s].entity == rows[t].entity ==> rows[s].kind == rows[t].kind
  }

  /** An entity with slugs has a canonical one. */
  ghost predicate AllCanonical(rows: Table) {
    forall s :: s in rows ==> HasCanonical(rows, rows[s].kind, rows[s].entity)
  }

  ghost predicate SlugInv(rows: Table) { OneCanonical(rows) && OneKind(rows) && AllCanonical(rows) }

  ghost predicate HasCanonical(rows: Table, kind: Kind, entity: nat) { exists c :: IsCanonical(rows, c, kind, entity) }

  /** Entity ids are unique across kinds. */
  ghost predicate KindFits(rows: Table, kind: Kind, entity: nat) {
    forall s :: s in rows && rows[s].entity == entity ==> rows[s].kind == kind
  }

  /** Rows are only added, and keep their entity. */
  ghost predicate Kept(a: Table, b: Table) {
    forall s :: s in a ==> s in b && b[s].kind == a[s].kind && b[s].entity == a[s].entity
  }

  /** The table after demoting an entity's slugs and promoting one that is its own, or nobody's. */
  ghost predicate Promoted(rows: Table, t: Table, kind: Kind, entity: nat, slug: string) {
    && t.Keys == rows.Keys + {slug}
    && t[slug] == Row(kind, entity, true) && (slug in rows ==> rows[slug].entity == entity)
    && forall s :: s in rows && s != slug ==>
       t[s] == if rows[s].entity == entity then Row(kind, entity, false) else rows[s]
  }

  lemma UpsertPromotes(rows: Table, kind: Kind, entity: nat, slug: string)
    requires KindFits(rows, kind, entity) && (slug in rows ==> rows[slug].entity == entity)
    ensures Promoted(rows, Upsert(Demote(rows, kind, entity), slug, kind, entity), kind, entity, slug)
  {
  }

  lemma PromotionKeepsOne(rows: Table, t: Table, kind: Kind, entity: nat, slug: string)
    requires OneCanonical(rows) && KindFits(rows, kind, entity) && OneKind(rows)
    requires Promoted(rows, t, kind, entity, slug)
    ensures OneCanonical(t) && OneKind(t)
  {
  }

  lemma PromotionKeepsAll(rows: Table, t: Table, kind: Kind, entity: nat, slug: string)
    requires AllCanonical(rows) && Promoted(rows, t, kind, entity, slug)
    ensures AllCanonical(t)
  {
    forall s | s in t ensures HasCanonical(t, t[s].kind, t[s].entity) {
      if t[s].entity == entity {
        assert t[s].kind == kind && IsCanonical(t, slug, kind, entity);
      } else {
        assert HasCanonical(rows, rows[s].kind, rows[s].entity);
        var c :| IsCanonical(rows, c, rows[s].kind, rows[s].entity);
        assert IsCanonical(t, c, t[s].kind, t[s].entity);
      }
    }
  }

  lemma PromotionKeepsRows(rows: Table, t: Table, kind: Kind, entity: nat, slug: string)
    requires KindFits(rows, kind, entity) && Promoted(rows, t, kind, entity, slug)
    ensures Kept(rows, t) && IsCanonical(t, slug, kind, entity)
    ensures forall s :: s in t && s !in rows ==> s == slug
    ensures forall s :: s in rows && rows[s].entity != entity ==> t[s] == rows[s]
  {
  }

  lemma PromotionKeeps(rows: Table, kind: Kind, entity: nat, slug: string)
    requires SlugInv(rows) && KindFits(rows, kind, entity) && (slug in rows ==> rows[slug].entity == entity)
    ensures var t := Upsert(Demote(rows, kind, entity), slug, kind, entity);
      && SlugInv(t) && Kept(rows, t) && IsCanonical(t, slug, kind, entity)
      && (forall s :: s in t && s !in rows ==> s == slug)
      && (forall s :: s in rows && rows[s].entity != entity ==> t[s] == rows[s])
  {
    var t := Upsert(Demote(rows, kind, entity), slug, kind, entity);
    UpsertPromotes(rows, kind, entity, slug);
    PromotionKeepsOne(rows, t, kind, entity, slug);
    hide *;
    PromotionKeepsAll(rows, t, kind, entity, slug);
    PromotionKeepsRows(rows, t, kind, entity, slug);
  }

  lemma SetCanonicalKeeps(rows: Table, kind: Kind, entity: nat, desired: string)
    requires SlugInv(rows) && KindFits(rows, kind, entity)
    ensures var t := SetCanonical(rows, kind, entity, desired);
      var chosen := FirstFree(CutSlug(desired), TakenFrom(rows, entity), 1);
      && SlugInv(t) && Kept(rows, t)
      && (chosen.Some? ==> IsCanonical(t, chosen.value, kind, entity))
      && (forall s :: s in t && s !in rows ==> chosen == Some(s))
      && (chosen.None? ==> t == rows)
      && (forall s :: s in rows && rows[s].entity != entity ==> t[s] == rows[s])
  {
    FirstFreeIsFree(CutSlug(desired), TakenFrom(rows, entity), 1);
    var chosen := FirstFree(CutSlug(desired), TakenFrom(rows, entity), 1);
    hide FirstFree;
    hide Candidate;
    hide FreeAt;
    hide SlugInv;
    if chosen.Some? {
      PromotionKeeps(rows, kind, entity, chosen.value);
    }
    hide Upsert;
    hide Demote;
  }

  /** A slug is another's when its row belongs to a different entity; a row of one's own can be had again. */
  predicate IsAnothers(rows: Table, s: string, entity: nat) { s in rows && rows[s].entity != entity }

  /** The n-th candidate is the first that is not another's. */
  ghost predicate FirstToBeHad(rows: Table, entity: nat, desired: string, n: nat) {
    && 1 <= n <= 100 && !IsAnothers(rows, Candidate(desired, n), entity)
    && forall k :: 1 <= k < n ==> IsAnothers(rows, Candidate(desired, k), entity)
  }

  /** The first candidate that can be had becomes canonical, one's own old ones included; with none, nothing changes. */
  lemma SetCanonicalMeans(rows: Table, kind: Kind, entity: nat, desired: string)
    requires SlugInv(rows) && KindFits(rows, kind, entity)
    ensures var t, base := SetCanonical(rows, kind, entity, desired), CutSlug(desired);
      if exists n :: 1 <= n <= 100 && !IsAnothers(rows, Candidate(base, n), entity) then
        exists n :: FirstToBeHad(rows, entity, base, n) && IsCanonical(t, Candidate(base, n), kind, entity)
      else t == rows
  {
    var base, taken := CutSlug(desired), TakenFrom(rows, entity);
    SetCanonicalKeeps(rows, kind, entity, desired);
    FirstFreeIsFree(base, taken, 1);
    assert forall s :: s in taken <==> IsAnothers(rows, s, entity);
    hide SlugInv;
    hide SetCanonical;
    hide Candidate;
    hide FirstFree;
    hide CutSlug;
    hide TakenFrom;
    var chosen := FirstFree(base, taken, 1);
    if chosen.Some? {
      var k :| FreeAt(base, taken, 1, k, chosen.value);
      assert FirstToBeHad(rows, entity, base, k);
    }
  }

  datatype Call = Call(kind: Kind, entity: nat, desired: string)

  function SetAll(calls: seq<Call>): Table {
    if calls == [] then map[]
    else
      var last := calls[|calls| - 1];
      SetCanonical(SetAll(calls[..|calls| - 1]), last.kind, last.entity, last.desired)
  }

  ghost predicate OneKindPerId(calls: seq<Call>) {
    forall i, j :: 0 <= i < |calls| && 0 <= j < |calls| && calls[i].entity == calls[j].entity ==>
      calls[i].kind == calls[j].kind
  }

  /** The last write fits the kind its entity has had so far. */
  lemma {:induction false} LastKindFits(calls: seq<Call>)
    requires OneKindPerId(calls) && calls != []
    ensures var rows, last := SetAll(calls[..|calls| - 1]), calls[|calls| - 1];
      SlugInv(rows) && KindFits(rows, last.kind, last.entity)
    decreases |calls|, 0
  {
    var front, last := calls[..|calls| - 1], calls[|calls| - 1];
    RowsComeFromCalls(front);
    hide SetAll;
    hide SlugInv;
    var rows := SetAll(front);
    forall s | s in rows && rows[s].entity == last.entity ensures rows[s].kind == last.kind {
      var i :| 0 <= i < |front| && front[i].kind == rows[s].kind && front[i].entity == rows[s].entity;
      assert calls[i] == front[i];
    }
  }

  lemma {:induction false} RowsComeFromCalls(calls: seq<Call>)
    requires OneKindPerId(calls)
    ensures SlugInv(SetAll(calls))
    ensures forall s :: s in SetAll(calls) ==>
      exists i :: 0 <= i < |calls| && calls[i].kind == SetAll(calls)[s].kind
        && calls[i].entity == SetAll(calls)[s].entity
    decreases |calls|, 1
  {
    if calls != [] {
      var front, last := calls[..|calls| - 1], calls[|calls| - 1];
      RowsComeFromCalls(front);
      var rows, t := SetAll(front), SetAll(calls);
      LastKindFits(calls);
      SetCanonicalKeeps(rows, last.kind, last.entity, last.desired);
      hide SetCanonical;
      hide SlugInv;
      forall s | s in t
        ensures exists i :: 0 <= i < |calls| && calls[i].kind == t[s].kind && calls[i].entity == t[s].entity
      {
        if s in rows {
          var i :| 0 <= i < |front| && front[i].kind == rows[s].kind && front[i].entity == rows[s].entity;
          assert calls[i].kind == t[s].kind && calls[i].entity == t[s].entity;
        } else {
          assert calls[|calls| - 1].kind == t[s].kind && calls[|calls| - 1].entity == t[s].entity;
        }
      }
    }
  }

  lemma {:induction false} RowsAreKept(calls: seq<Call>, n: nat)
    requires OneKindPerId(calls) && n <= |calls|
    ensures Kept(SetAll(calls[..n]), SetAll(calls))
  {
    if n < |calls| {
      var front, last := calls[..|calls| - 1], calls[|calls| - 1];
      assert front[..n] == calls[..n];
      RowsAreKept(front, n);
      var rows := SetAll(front);
      LastKindFits(calls);
      SetCanonicalKeeps(rows, last.kind, last.entity, last.desired);
      hide SetCanonical;
    } else {
      assert calls[..n] == calls;
    }
  }

  /** Resolving a slug of the table finds its entity, directly or in one hop. */
  lemma RowIsFound(rows: Table, s: string, r: Resolution)
    requires SlugInv(rows) && s in rows && Resolves(rows, s, r)
    ensures r == Render(rows[s].kind, rows[s].entity)
      || (r.Redirect? && Resolves(rows, r.to, Render(rows[s].kind, rows[s].entity))
          && forall c :: Resolves(rows, c, Render(rows[s].kind, rows[s].entity)) ==> c == r.to)
  {
  }

  /**
   * Over any sequence of canonical-URL writes: a slug once given still belongs to its entity, and a request for it
   * renders that entity or is redirected, in one hop, to the one slug that does.
   */
  lemma UrlsNeverDie(calls: seq<Call>, n: nat, s: string, r: Resolution)
    requires OneKindPerId(calls) && n <= |calls| && s in SetAll(calls[..n])
    requires Resolves(SetAll(calls), s, r)
    ensures var kind, entity := SetAll(calls[..n])[s].kind, SetAll(calls[..n])[s].entity;
      r == Render(kind, entity)
      || (r.Redirect? && Resolves(SetAll(calls), r.to, Render(kind, entity))
          && forall c :: Resolves(SetAll(calls), c, Render(kind, entity)) ==> c == r.to)
  {
    RowsAreKept(calls, n);
    RowsComeFromCalls(calls);
    RowIsFound(SetAll(calls), s, r);
    hide SetAll;
  }

  // ----- every URL is a usable one -----

  /** The slug was chosen for some write of its entity: it is a candidate of that write's title. */
  ghost predicate ChosenBy(s: string, row: Row, call: Call) {
    && Owns(row, call.kind, call.entity)
    && exists n :: 1 <= n <= MAX_ATTEMPTS && s == Candidate(CutSlug(call.desired), n)
  }

  lemma ChosenIsACandidate(desired: string, taken: set<string>) returns (n: nat)
    requires FirstFree(desired, taken, 1).Some?
    ensures 1 <= n <= MAX_ATTEMPTS && FirstFree(desired, taken, 1) == Some(Candidate(desired, n))
  {
    FirstFreeIsFree(desired, taken, 1);
    n :| FreeAt(desired, taken, 1, n, FirstFree(desired, taken, 1).value);
  }

  /**
   * Over any sequence of canonical-URL writes, whatever the titles: every slug of the table is unreserved, not empty
   * and at most ninety-six long, and was chosen for a title its own entity had.
   */
  lemma {:induction false} EveryUrlIsUsable(calls: seq<Call>, s: string)
    requires OneKindPerId(calls) && s in SetAll(calls)
    ensures Usable(s) && exists i :: 0 <= i < |calls| && ChosenBy(s, SetAll(calls)[s], calls[i])
  {
    var front, last := calls[..|calls| - 1], calls[|calls| - 1];
    var rows, t := SetAll(front), SetAll(calls);
    RowsAreKept(calls, |front|);
    if s in rows {
      EveryUrlIsUsable(front, s);
      var i :| 0 <= i < |front| && ChosenBy(s, rows[s], front[i]);
      assert ChosenBy(s, t[s], calls[i]);
    } else {
      LastWriteAdds(calls, s);
      var n := ChosenIsACandidate(CutSlug(last.desired), TakenFrom(rows, last.entity));
      CandidateIsUsable(CutSlug(last.desired), n);
      assert ChosenBy(s, t[s], calls[|front|]);
    }
  }

  lemma LastStepOf(calls: seq<Call>)
    requires calls != []
    ensures var last := calls[|calls| - 1];
      SetAll(calls) == SetCanonical(SetAll(calls[..|calls| - 1]), last.kind, last.entity, last.desired)
  {
    hide SetCanonical;
  }

  lemma CanonicalIsOwned(rows: Table, s: string, kind: Kind, entity: nat)
    requires IsCanonical(rows, s, kind, entity)
    ensures s in rows && Owns(rows[s], kind, entity)
  {
  }

  /** A slug that was not there before is the one the last write chose, for its entity. */
  lemma LastWriteAdds(calls: seq<Call>, s: string)
    requires OneKindPerId(calls) && calls != [] && s in SetAll(calls) && s !in SetAll(calls[..|calls| - 1])
    ensures var rows, last := SetAll(calls[..|calls| - 1]), calls[|calls| - 1];
      && FirstFree(CutSlug(last.desired), TakenFrom(rows, last.entity), 1) == Some(s)
      && Owns(SetAll(calls)[s], last.kind, last.entity)
  {
    hide *;
    LastKindFits(calls);
    LastStepOf(calls);
    var last := calls[|calls| - 1];
    SetCanonicalKeeps(SetAll(calls[..|calls| - 1]), last.kind, last.entity, last.desired);
    CanonicalIsOwned(SetAll(calls), s, last.kind, last.entity);
  }
}
