/**
 * Assembling the category tree and its breadcrumbs
 * (packages/core/src/catalog/categories.ts:34-79). A node object is known by
 * its id; its list of children and its depth are what the assembly fills in.
 */
module CategoryTrees {
  import opened Common
  import opened Categories

  // ----- the order and place of the nodes -----

  /** The keys of the id map, in insertion order. */
  function Order(nodes: seq<Node>): (r: seq<nat>)
    ensures forall id :: id in r <==> id in ById(nodes)
    ensures NoDuplicates(r)
  {
    if nodes == [] then []
    else
      var rest, last := nodes[..|nodes| - 1], nodes[|nodes| - 1];
      if last.id in ById(rest) then Order(rest) else Order(rest) + [last.id]
  }

  /** Those of the ids whose place is the given parent, or the roots. */
  function Under(m: map<nat, Node>, order: seq<nat>, place: Option<nat>): seq<nat> {
    if order == [] then []
    else
      var last := order[|order| - 1];
      Under(m, order[..|order| - 1], place) + if ParentIn(m, last) == place then [last] else []
  }

  lemma {:induction false} UnderMembers(m: map<nat, Node>, order: seq<nat>, place: Option<nat>)
    ensures forall id :: id in Under(m, order, place) <==> id in order && ParentIn(m, id) == place
  {
    if order != [] {
      UnderMembers(m, order[..|order| - 1], place);
      assert order == order[..|order| - 1] + [order[|order| - 1]];
    }
  }

  // ----- sorting siblings -----

  predicate Precedes(a: Node, b: Node) { a.position < b.position || (a.position == b.position && a.title <= b.title) }

  /** Insertion after everything that precedes it or ties with it, so the sort is stable. */
  function InsertId(m: map<nat, Node>, id: nat, sorted: seq<nat>): seq<nat>
    requires id in m && forall x :: x in sorted ==> x in m
  {
    if sorted == [] then [id]
    else
      var last := sorted[|sorted| - 1];
      if Precedes(m[last], m[id]) then sorted + [id] else InsertId(m, id, sorted[..|sorted| - 1]) + [last]
  }

  function SortIds(m: map<nat, Node>, ids: seq<nat>): (r: seq<nat>)
    requires forall x :: x in ids ==> x in m
    ensures multiset(r) == multiset(ids)
    ensures forall x :: x in r ==> x in m
  {
    if ids == [] then []
    else
      var front, last := ids[..|ids| - 1], ids[|ids| - 1];
      assert ids == front + [last];
      InsertKeeps(m, last, SortIds(m, front));
      InsertId(m, last, SortIds(m, front))
  }

  lemma {:induction false} InsertKeeps(m: map<nat, Node>, id: nat, sorted: seq<nat>)
    requires id in m && forall x :: x in sorted ==> x in m
    ensures multiset(InsertId(m, id, sorted)) == multiset(sorted) + multiset{id}
    ensures forall x :: x in InsertId(m, id, sorted) ==> x in m
  {
    if sorted != [] && !Precedes(m[sorted[|sorted| - 1]], m[id]) {
      assert sorted == sorted[..|sorted| - 1] + [sorted[|sorted| - 1]];
      InsertKeeps(m, id, sorted[..|sorted| - 1]);
    }
  }

  ghost predicate InOrder(m: map<nat, Node>, ids: seq<nat>)
    requires forall x :: x in ids ==> x in m
  {
    forall i, j :: 0 <= i < j < |ids| ==> Precedes(m[ids[i]], m[ids[j]])
  }

  lemma {:induction false} InsertSorts(m: map<nat, Node>, id: nat, sorted: seq<nat>)
    requires id in m && (forall x :: x in sorted ==> x in m) && InOrder(m, sorted)
    ensures (forall x :: x in InsertId(m, id, sorted) ==> x in m) && InOrder(m, InsertId(m, id, sorted))
  {
    InsertKeeps(m, id, sorted);
    if sorted != [] && !Precedes(m[sorted[|sorted| - 1]], m[id]) {
      var front, last := sorted[..|sorted| - 1], sorted[|sorted| - 1];
      InsertSorts(m, id, front);
      InsertKeeps(m, id, front);
      var r := InsertId(m, id, front);
      forall i | 0 <= i < |r| ensures Precedes(m[r[i]], m[last]) {
        assert r[i] in multiset(r);
        assert r[i] == id || r[i] in front;
      }
    }
  }

  lemma {:induction false} SortSorts(m: map<nat, Node>, ids: seq<nat>)
    requires forall x :: x in ids ==> x in m
    ensures InOrder(m, SortIds(m, ids))
    ensures var r := SortIds(m, ids);
      forall i, j :: 0 <= i < j < |r| ==>
        var a, b := m[r[i]], m[r[j]];
        a.position < b.position || (a.position == b.position && a.title <= b.title)
  {
    if ids != [] {
      SortSorts(m, ids[..|ids| - 1]);
      InsertSorts(m, ids[|ids| - 1], SortIds(m, ids[..|ids| - 1]));
    }
  }

  /** Somewhere in the list a comes before b. */
  ghost predicate ComesBefore(ids: seq<nat>, a: nat, b: nat) {
    exists i, j :: 0 <= i < j < |ids| && ids[i] == a && ids[j] == b
  }

  lemma {:induction false} InsertKeepsOrder(m: map<nat, Node>, id: nat, sorted: seq<nat>, a: nat, b: nat)
    requires id in m && (forall x :: x in sorted ==> x in m) && ComesBefore(sorted, a, b)
    ensures ComesBefore(InsertId(m, id, sorted), a, b)
  {
    var i, j :| 0 <= i < j < |sorted| && sorted[i] == a && sorted[j] == b;
    var r, n := InsertId(m, id, sorted), |sorted| - 1;
    if Precedes(m[sorted[n]], m[id]) {
      assert r[i] == a && r[j] == b;
    } else {
      InsertKeeps(m, id, sorted[..n]);
      var rest := InsertId(m, id, sorted[..n]);
      if j < n {
        assert sorted[..n][i] == a && sorted[..n][j] == b;
        InsertKeepsOrder(m, id, sorted[..n], a, b);
        var x, y :| 0 <= x < y < |rest| && rest[x] == a && rest[y] == b;
        assert r[x] == a && r[y] == b;
      } else {
        assert sorted[..n][i] == a && a in multiset(sorted[..n]);
        assert a in rest by {
          assert a in multiset(rest);
        }
        var x :| 0 <= x < |rest| && rest[x] == a;
        assert r[x] == a && r[|rest|] == b;
      }
    }
  }

  lemma {:induction false} InsertGoesAfter(m: map<nat, Node>, id: nat, sorted: seq<nat>, a: nat)
    requires id in m && (forall x :: x in sorted ==> x in m) && a in sorted && InOrder(m, sorted)
    requires Precedes(m[a], m[id])
    ensures ComesBefore(InsertId(m, id, sorted), a, id)
  {
    var i :| 0 <= i < |sorted| && sorted[i] == a;
    var r, n := InsertId(m, id, sorted), |sorted| - 1;
    if Precedes(m[sorted[n]], m[id]) {
      assert r[i] == a && r[|sorted|] == id;
    } else {
      assert i != n;
      assert sorted[..n][i] == a;
      InsertGoesAfter(m, id, sorted[..n], a);
      InsertKeeps(m, id, sorted[..n]);
      var rest := InsertId(m, id, sorted[..n]);
      var x, y :| 0 <= x < y < |rest| && rest[x] == a && rest[y] == id;
      assert r[x] == a && r[y] == id;
    }
  }

  lemma SortHasAll(m: map<nat, Node>, ids: seq<nat>, a: nat)
    requires (forall x :: x in ids ==> x in m) && a in ids
    ensures a in SortIds(m, ids)
  {
    assert a in multiset(ids);
    assert a in multiset(SortIds(m, ids));
  }

  /** Siblings of the same position and title stay in the order they had. */
  lemma {:induction false} SortIsStable(m: map<nat, Node>, ids: seq<nat>, a: nat, b: nat)
    requires (forall x :: x in ids ==> x in m) && ComesBefore(ids, a, b)
    requires m[a].position == m[b].position && m[a].title == m[b].title
    ensures ComesBefore(SortIds(m, ids), a, b)
  {
    hide InsertId;
    hide InOrder;
    var i, j :| 0 <= i < j < |ids| && ids[i] == a && ids[j] == b;
    var n := |ids| - 1;
    var front := ids[..n];
    assert front[i] == a;
    if j < n {
      assert front[j] == b;
      SortIsStable(m, front, a, b);
      InsertKeepsOrder(m, ids[n], SortIds(m, front), a, b);
    } else {
      SortHasAll(m, front, a);
      SortSorts(m, front);
      InsertGoesAfter(m, b, SortIds(m, front), a);
    }
  }

  /** Where an id first appears in the list. */
  ghost predicate FirstAt(nodes: seq<Node>, id: nat, i: nat) {
    i < |nodes| && nodes[i].id == id && forall k :: 0 <= k < i ==> nodes[k].id != id
  }

  lemma {:induction false} OrderIsByFirst(nodes: seq<Node>, a: nat, b: nat, i: nat, j: nat)
    requires FirstAt(nodes, a, i) && FirstAt(nodes, b, j) && i < j
    ensures ComesBefore(Order(nodes), a, b)
  {
    var n := |nodes| - 1;
    var front := nodes[..n];
    assert Order(nodes) == Order(front) + if nodes[n].id in ById(front) then [] else [nodes[n].id];
    if j < n {
      OrderIsByFirst(front, a, b, i, j);
      var x, y :| 0 <= x < y < |Order(front)| && Order(front)[x] == a && Order(front)[y] == b;
      assert Order(nodes)[x] == a && Order(nodes)[y] == b;
    } else {
      assert front[i].id == a;
      assert b !in ById(front) && a in Order(front);
      var x :| 0 <= x < |Order(front)| && Order(front)[x] == a;
      assert Order(nodes)[x] == a && Order(nodes)[|Order(front)|] == b;
    }
  }

  lemma {:induction false} UnderKeepsOrder(m: map<nat, Node>, order: seq<nat>, place: Option<nat>, a: nat, b: nat)
    requires ComesBefore(order, a, b) && ParentIn(m, a) == place && ParentIn(m, b) == place
    ensures ComesBefore(Under(m, order, place), a, b)
  {
    var i, j :| 0 <= i < j < |order| && order[i] == a && order[j] == b;
    var n := |order| - 1;
    var front := Under(m, order[..n], place);
    assert order[..n][i] == a;
    if j < n {
      assert order[..n][j] == b;
      UnderKeepsOrder(m, order[..n], place, a, b);
      var x, y :| 0 <= x < y < |front| && front[x] == a && front[y] == b;
      assert Under(m, order, place)[x] == a && Under(m, order, place)[y] == b;
    } else {
      UnderMembers(m, order[..n], place);
      var x :| 0 <= x < |front| && front[x] == a;
      assert Under(m, order, place)[x] == a && Under(m, order, place)[|front|] == b;
    }
  }

  /** By position, then by title, then as first listed. */
  ghost predicate GoesFirst(nodes: seq<Node>, m: map<nat, Node>, a: nat, b: nat)
    requires a in m && b in m
  {
    || m[a].position < m[b].position
    || (m[a].position == m[b].position && m[a].title < m[b].title)
    || (m[a].position == m[b].position && m[a].title == m[b].title
        && exists i, j :: FirstAt(nodes, a, i) && FirstAt(nodes, b, j) && i < j)
  }

  lemma SmallerKeysGoFirst(m: map<nat, Node>, ids: seq<nat>, a: nat, b: nat)
    requires (forall x :: x in ids ==> x in m) && a in ids && b in ids
    requires m[a].position < m[b].position || (m[a].position == m[b].position && m[a].title < m[b].title)
    ensures ComesBefore(SortIds(m, ids), a, b)
  {
    SortSorts(m, ids);
    SortHasAll(m, ids, a);
    SortHasAll(m, ids, b);
    hide SortIds;
    var sorted := SortIds(m, ids);
    var i :| 0 <= i < |sorted| && sorted[i] == a;
    var j :| 0 <= j < |sorted| && sorted[j] == b;
    assert i < j;
  }

  /** Siblings, and roots among themselves, come by position, then by title, then as first listed. */
  lemma SiblingsAreOrdered(nodes: seq<Node>, place: Option<nat>, a: nat, b: nat)
    requires a in ById(nodes) && b in ById(nodes) && GoesFirst(nodes, ById(nodes), a, b)
    requires ParentIn(ById(nodes), a) == place && ParentIn(ById(nodes), b) == place
    ensures forall x :: x in Under(ById(nodes), Order(nodes), place) ==> x in ById(nodes)
    ensures ComesBefore(SortIds(ById(nodes), Under(ById(nodes), Order(nodes), place)), a, b)
  {
    hide ById;
    hide Under;
    hide SortIds;
    hide ComesBefore;
    hide FirstAt;
    var m, order := ById(nodes), Order(nodes);
    hide Order;
    UnderMembers(m, order, place);
    var list := Under(m, order, place);
    if m[a].position == m[b].position && m[a].title == m[b].title {
      var i, j :| FirstAt(nodes, a, i) && FirstAt(nodes, b, j) && i < j;
      OrderIsByFirst(nodes, a, b, i, j);
      UnderKeepsOrder(m, order, place, a, b);
      SortIsStable(m, list, a, b);
    } else {
      SmallerKeysGoFirst(m, list, a, b);
    }
  }

  // ----- levels -----

  /** The node hangs n steps below its root. */
  ghost predicate Level(m: map<nat, Node>, id: nat, n: nat) {
    && Climb(m, id, n).Some? && Climb(m, id, n + 1).None?
  }

  lemma LevelOfChild(m: map<nat, Node>, p: nat, c: nat, n: nat)
    requires ParentIn(m, c) == Some(p) && Level(m, p, n)
    ensures Level(m, c, n + 1)
  {
  }

  lemma LevelIsOne(m: map<nat, Node>, id: nat, n: nat, k: nat)
    requires Level(m, id, n) && Level(m, id, k)
    ensures n == k
  {
    if n < k {
      ClimbOn(m, id, n + 1, k - (n + 1));
    } else if k < n {
      ClimbOn(m, id, k + 1, n - (k + 1));
    }
  }

  /** A list in order is left as it is. */
  lemma {:induction false} SortOfSorted(m: map<nat, Node>, ids: seq<nat>)
    requires (forall x :: x in ids ==> x in m) && InOrder(m, ids)
    ensures SortIds(m, ids) == ids
  {
    if ids != [] {
      SortOfSorted(m, ids[..|ids| - 1]);
    }
  }

  lemma SortTwice(m: map<nat, Node>, ids: seq<nat>)
    requires forall x :: x in ids ==> x in m
    ensures SortIds(m, SortIds(m, ids)) == SortIds(m, ids)
  {
    SortSorts(m, ids);
    SortOfSorted(m, SortIds(m, ids));
  }

  // ----- the assembly -----

  /** Every list holds exactly the nodes whose place it is. */
  ghost predicate Placed(m: map<nat, Node>, order: seq<nat>, roots: seq<nat>, children: map<nat, seq<nat>>) {
    && roots == Under(m, order, None)
    && children.Keys == m.Keys
    && forall p :: p in m ==> children[p] == Under(m, order, Some(p))
  }

  lemma PlaceOne(m: map<nat, Node>, order: seq<nat>, roots: seq<nat>, children: map<nat, seq<nat>>, id: nat)
    requires Placed(m, order, roots, children) && id in m
    ensures var p := ParentIn(m, id);
      if p.Some? then Placed(m, order + [id], roots, children[p.value := children[p.value] + [id]])
      else Placed(m, order + [id], roots + [id], children)
  {
  }

  /** Before the sort: `lists` are the children as assembled, and x is in the list of its parent. */
  ghost predicate Lists(m: map<nat, Node>, lists: map<nat, seq<nat>>) {
    && lists.Keys == m.Keys
    && forall p :: p in lists ==> (forall x :: x in lists[p] ==> x in m && ParentIn(m, x) == Some(p))
  }

  /**
   * Where the sort stands: a node it has come to has its level as depth, and its children sorted above the depth
   * cap.
   */
  ghost predicate Sorting(m: map<nat, Node>, lists: map<nat, seq<nat>>, children: map<nat, seq<nat>>,
                          depth: map<nat, nat>, visited: set<nat>) {
    && Lists(m, lists) && children.Keys == m.Keys && depth.Keys == m.Keys && visited <= m.Keys
    && forall p :: p in m ==> NodeSorted(m, lists[p], children[p], depth[p], p, p in visited)
  }

  ghost predicate NodeSorted(m: map<nat, Node>, list: seq<nat>, children: seq<nat>, depth: nat, p: nat, visited: bool)
    requires forall x :: x in list ==> x in m
  {
    if visited then
      Level(m, p, depth) && depth <= MAX_DEPTH && children == if depth < MAX_DEPTH then SortIds(m, list) else list
    else children == list && depth == 0
  }

  function Sorted(m: map<nat, Node>, children: seq<nat>, level: nat): seq<nat>
    requires forall x :: x in children ==> x in m
  {
    if level < MAX_DEPTH then SortIds(m, children) else children
  }

  lemma ListHoldsNodes(m: map<nat, Node>, lists: map<nat, seq<nat>>, children: map<nat, seq<nat>>, depth: map<nat, nat>,
                       visited: set<nat>, p: nat)
    requires Sorting(m, lists, children, depth, visited) && p in m
    ensures p in children && p in lists && multiset(children[p]) == multiset(lists[p])
    ensures forall x :: x in children[p] <==> x in OrEmpty(lists, p)
    ensures forall x :: x in children[p] ==> x in m && ParentIn(m, x) == Some(p)
  {
    assert NodeSorted(m, lists[p], children[p], depth[p], p, p in visited);
    forall x ensures x in children[p] <==> x in lists[p] {
      assert x in children[p] <==> x in multiset(children[p]);
    }
  }

  lemma NodeVisited(m: map<nat, Node>, list: seq<nat>, children: seq<nat>, depth: nat, p: nat, visited: bool,
                    level: nat)
    requires (forall x :: x in list ==> x in m) && (forall x :: x in children ==> x in m)
    requires NodeSorted(m, list, children, depth, p, visited) && Level(m, p, level) && level <= MAX_DEPTH
    ensures NodeSorted(m, list, Sorted(m, children, level), level, p, true)
  {
    if visited {
      LevelIsOne(m, p, depth, level);
    }
    SortTwice(m, list);
  }

  lemma VisitKeeps(m: map<nat, Node>, lists: map<nat, seq<nat>>, children: map<nat, seq<nat>>, depth: map<nat, nat>,
                   visited: set<nat>, child: nat, level: nat)
    requires Sorting(m, lists, children, depth, visited) && child in m && Level(m, child, level) && level <= MAX_DEPTH
    requires forall x :: x in children[child] ==> x in m
    ensures Sorting(m, lists, children[child := Sorted(m, children[child], level)], depth[child := level],
                    visited + {child})
  {
    NodeVisited(m, lists[child], children[child], depth[child], child, child in visited, level);
    OneNodeChanges(m, lists, children, depth, visited, child, Sorted(m, children[child], level), level);
    hide Sorting;
  }

  lemma OneNodeChanges(m: map<nat, Node>, lists: map<nat, seq<nat>>, children: map<nat, seq<nat>>, depth: map<nat, nat>,
                       visited: set<nat>, child: nat, list: seq<nat>, level: nat)
    requires Sorting(m, lists, children, depth, visited) && child in m
    requires NodeSorted(m, lists[child], list, level, child, true)
    ensures Sorting(m, lists, children[child := list], depth[child := level], visited + {child})
  {
    hide NodeSorted;
    hide ParentIn;
  }

  /** The children of every newly visited node above the depth cap are visited. */
  ghost predicate ClosedBelow(m: map<nat, Node>, lists: map<nat, seq<nat>>, since: set<nat>, visited: set<nat>) {
    forall p, x, n: nat :: p in visited && p !in since && Level(m, p, n) && n < MAX_DEPTH && x in OrEmpty(lists, p) ==>
      x in visited
  }

  lemma NothingNew(m: map<nat, Node>, lists: map<nat, seq<nat>>, visited: set<nat>)
    ensures ClosedBelow(m, lists, visited, visited)
  {
  }

  lemma ClosedJoins(m: map<nat, Node>, lists: map<nat, seq<nat>>, since: set<nat>, v0: set<nat>, child: nat, level: nat,
                    v2: set<nat>)
    requires ClosedBelow(m, lists, since, v0) && ClosedBelow(m, lists, v0 + {child}, v2) && v0 + {child} <= v2
    requires Level(m, child, level) && (level < MAX_DEPTH ==> forall x :: x in OrEmpty(lists, child) ==> x in v2)
    ensures ClosedBelow(m, lists, since, v2)
  {
    forall p, x, n: nat | p in v2 && p !in since && Level(m, p, n) && n < MAX_DEPTH && x in OrEmpty(lists, p)
      ensures x in v2
    {
      if p == child {
        LevelIsOne(m, p, n, level);
      }
    }
  }

  class CategoryTree {
    const byId: map<nat, Node>
    var roots: seq<nat>
    var children: map<nat, seq<nat>>
    var depth: map<nat, nat>
    /** The nodes the sort has come to. */
    ghost var visited: set<nat>

    constructor (nodes: seq<Node>)
      ensures byId == ById(nodes) && visited == {}
      ensures roots == [] && children.Keys == byId.Keys && depth.Keys == byId.Keys
      ensures forall id :: id in byId ==> children[id] == [] && depth[id] == 0
    {
      byId := ById(nodes);
      roots, visited := [], {};
      children, depth := map id | id in ById(nodes) :: [], map id | id in ById(nodes) :: 0;
    }

    /** A node without its parent in the list becomes a root; the others are pushed onto their parent's children. */
    method Assemble(order: seq<nat>)
      requires roots == [] && children.Keys == byId.Keys && forall id :: id in byId ==> children[id] == []
      requires forall id :: id in order ==> id in byId
      modifies this`roots, this`children
      ensures Placed(byId, order, roots, children)
    {
      for i := 0 to |order|
        invariant Placed(byId, order[..i], roots, children)
      {
        assert order[..i + 1] == order[..i] + [order[i]];
        var id := order[i];
        var parent := ParentIn(byId, id);
        PlaceOne(byId, order[..i], roots, children, id);
        if parent.Some? {
          children := children[parent.value := children[parent.value] + [id]];
        } else {
          roots := roots + [id];
        }
      }
      assert order[..|order|] == order;
    }

    /**
     * sort(list, level), once the list itself is sorted: each sibling
     * gets its depth, its children sorted, and so on down.
     */
    method SortBelow(list: seq<nat>, level: nat, ghost lists: map<nat, seq<nat>>)
      requires level <= MAX_DEPTH && Sorting(byId, lists, children, depth, visited)
      requires forall x :: x in list ==> x in byId && Level(byId, x, level)
      modifies this`children, this`depth, this`visited
      decreases MAX_DEPTH - level
      ensures Sorting(byId, lists, children, depth, visited) && old(visited) <= visited
      ensures forall x :: x in list ==> x in visited
      ensures ClosedBelow(byId, lists, old(visited), visited)
    {
      NothingNew(byId, lists, visited);
      hide Sorting;
      hide Level;
      hide ClosedBelow;
      for i := 0 to |list|
        invariant Sorting(byId, lists, children, depth, visited) && old(visited) <= visited
        invariant forall j :: 0 <= j < i ==> list[j] in visited
        invariant ClosedBelow(byId, lists, old(visited), visited)
      {
        SortNode(list[i], level, lists, old(visited));
      }
    }

    method SortNode(child: nat, level: nat, ghost lists: map<nat, seq<nat>>, ghost since: set<nat>)
      requires level <= MAX_DEPTH && Sorting(byId, lists, children, depth, visited)
      requires child in byId && Level(byId, child, level) && ClosedBelow(byId, lists, since, visited)
      modifies this`children, this`depth, this`visited
      decreases MAX_DEPTH - level, 0
      ensures Sorting(byId, lists, children, depth, visited) && old(visited) <= visited
      ensures child in visited && ClosedBelow(byId, lists, since, visited)
    {
      hide Sorting;
      hide Level;
      hide SortIds;
      hide ParentIn;
      ListHoldsNodes(byId, lists, children, depth, visited, child);
      VisitKeeps(byId, lists, children, depth, visited, child, level);
      ghost var v0 := visited;
      depth := depth[child := level];
      visited := visited + {child};
      if level < MAX_DEPTH {
        children := children[child := SortIds(byId, children[child])];
        ListHoldsNodes(byId, lists, children, depth, visited, child);
        forall x | x in children[child] ensures Level(byId, x, level + 1) {
          LevelOfChild(byId, child, x, level);
        }
        SortBelow(children[child], level + 1, lists);
      } else {
        assert children[child := children[child]] == children;
      }
      ClosedJoins(byId, lists, since, v0, child, level, visited);
    }
  }

  // ----- what the tree shows -----

  /** The ids in some order, each once. */
  ghost predicate Keyed(m: map<nat, Node>, order: seq<nat>)
  {
    NoDuplicates(order) && forall x :: x in order <==> x in m
  }

  lemma ClimbOnce(m: map<nat, Node>, id: nat)
    ensures Climb(m, id, 1) == ParentIn(m, id)
  {
  }

  lemma LevelOfParent(m: map<nat, Node>, id: nat, n: nat)
    requires Level(m, id, n)
    ensures n == 0 <==> ParentIn(m, id).None?
    ensures n > 0 ==> Level(m, ParentIn(m, id).value, n - 1)
  {
    ClimbOnce(m, id);
  }

  /** The sort has swept the lists from the roots down. */
  ghost predicate Swept(m: map<nat, Node>, order: seq<nat>, lists: map<nat, seq<nat>>, visited: set<nat>) {
    && Keyed(m, order) && lists.Keys == m.Keys && (forall p :: p in m ==> lists[p] == Under(m, order, Some(p)))
    && ClosedBelow(m, lists, {}, visited) && forall x :: x in Under(m, order, None) ==> x in visited
  }

  lemma RootIsVisited(m: map<nat, Node>, order: seq<nat>, lists: map<nat, seq<nat>>, visited: set<nat>, id: nat)
    requires Swept(m, order, lists, visited) && id in m && ParentIn(m, id).None?
    ensures id in visited
  {
    UnderMembers(m, order, None);
  }

  lemma ChildIsVisited(m: map<nat, Node>, order: seq<nat>, lists: map<nat, seq<nat>>, visited: set<nat>, p: nat, n: nat,
                       id: nat)
    requires Swept(m, order, lists, visited) && id in m && ParentIn(m, id) == Some(p)
    requires p in visited && Level(m, p, n) && n < MAX_DEPTH
    ensures id in visited
  {
    UnderMembers(m, order, Some(p));
    assert id in OrEmpty(lists, p);
    hide Level;
    hide Under;
  }

  lemma {:induction false} LevelsAreVisited(m: map<nat, Node>, order: seq<nat>, lists: map<nat, seq<nat>>,
                                            visited: set<nat>, id: nat, n: nat)
    requires Swept(m, order, lists, visited) && id in m && Level(m, id, n) && n <= MAX_DEPTH
    ensures id in visited
    decreases n
  {
    hide Swept;
    LevelOfParent(m, id, n);
    if n == 0 {
      RootIsVisited(m, order, lists, visited, id);
    } else {
      var p := ParentIn(m, id).value;
      LevelsAreVisited(m, order, lists, visited, p, n - 1);
      ChildIsVisited(m, order, lists, visited, p, n - 1, id);
    }
  }

  /**
   * What buildCategoryTree leaves: each node in its place, with its
   * depth, its children in order, down to the depth cap.
   */
  ghost predicate Built(m: map<nat, Node>, order: seq<nat>, roots: seq<nat>, children: map<nat, seq<nat>>,
                        depth: map<nat, nat>) {
    && Keyed(m, order) && (forall x :: x in Under(m, order, None) ==> x in m)
       && roots == SortIds(m, Under(m, order, None))
    && children.Keys == m.Keys && depth.Keys == m.Keys
    && forall p :: p in m ==> NodeBuilt(m, Under(m, order, Some(p)), children[p], depth[p], p)
  }

  ghost predicate NodeBuilt(m: map<nat, Node>, list: seq<nat>, children: seq<nat>, depth: nat, p: nat) {
    && (forall x :: x in list ==> x in m)
    && multiset(children) == multiset(list)
    && (forall n: nat :: Level(m, p, n) && n < MAX_DEPTH ==> children == SortIds(m, list))
    && (forall n: nat :: Level(m, p, n) && n <= MAX_DEPTH ==> depth == n)
  }

  lemma ListsAsPlaced(m: map<nat, Node>, order: seq<nat>, lists: map<nat, seq<nat>>)
    requires lists.Keys == m.Keys && Keyed(m, order) && forall p :: p in m ==> lists[p] == Under(m, order, Some(p))
    ensures Lists(m, lists)
  {
    forall p | p in lists ensures forall x :: x in lists[p] ==> x in m && ParentIn(m, x) == Some(p) {
      UnderMembers(m, order, Some(p));
    }
  }

  lemma RootsAreNodes(m: map<nat, Node>, order: seq<nat>)
    requires Keyed(m, order)
    ensures forall x :: x in Under(m, order, None) ==> x in m && Level(m, x, 0)
    ensures forall x :: x in SortIds(m, Under(m, order, None)) <==> x in Under(m, order, None)
  {
    UnderMembers(m, order, None);
    forall x ensures x in SortIds(m, Under(m, order, None)) <==> x in Under(m, order, None) {
      assert x in multiset(SortIds(m, Under(m, order, None))) <==> x in multiset(Under(m, order, None));
    }
  }

  lemma TreeIsBuilt(m: map<nat, Node>, order: seq<nat>, children: map<nat, seq<nat>>, depth: map<nat, nat>,
                    lists: map<nat, seq<nat>>, visited: set<nat>, p: nat)
    requires Keyed(m, order) && lists.Keys == m.Keys && forall x :: x in m ==> lists[x] == Under(m, order, Some(x))
    requires Sorting(m, lists, children, depth, visited) && ClosedBelow(m, lists, {}, visited)
    requires forall x :: x in Under(m, order, None) ==> x in visited
    requires p in m
    ensures NodeBuilt(m, lists[p], children[p], depth[p], p)
  {
    ListHoldsNodes(m, lists, children, depth, visited, p);
    assert NodeSorted(m, lists[p], children[p], depth[p], p, p in visited);
    forall n: nat | Level(m, p, n) && n <= MAX_DEPTH ensures depth[p] == n && p in visited {
      LevelsAreVisited(m, order, lists, visited, p, n);
      LevelIsOne(m, p, depth[p], n);
    }
    hide Level;
    hide Sorting;
    hide ClosedBelow;
  }

  method BuildCategoryTree(nodes: seq<Node>) returns (tree: CategoryTree)
    ensures fresh(tree) && Built(ById(nodes), Order(nodes), tree.roots, tree.children, tree.depth)
  {
    var order := Order(nodes);
    tree := new CategoryTree(nodes);
    hide ById;
    hide Order;
    ghost var m := tree.byId;
    assert Keyed(m, order);
    tree.Assemble(order);
    ghost var lists := tree.children;
    ListsAsPlaced(m, order, lists);
    RootsAreNodes(m, order);
    tree.roots := SortIds(tree.byId, tree.roots);
    StartsUnsorted(m, lists, tree.depth);
    tree.SortBelow(tree.roots, 0, lists);
    forall p | p in m ensures NodeBuilt(m, lists[p], tree.children[p], tree.depth[p], p) {
      TreeIsBuilt(m, order, tree.children, tree.depth, lists, tree.visited, p);
    }
    hide NodeBuilt;
  }

  lemma StartsUnsorted(m: map<nat, Node>, lists: map<nat, seq<nat>>, depth: map<nat, nat>)
    requires Lists(m, lists) && depth.Keys == m.Keys && forall p :: p in m ==> depth[p] == 0
    ensures Sorting(m, lists, lists, depth, {})
  {
  }

  /** From the roots down, n lists deep, the tree shows x. */
  ghost predicate Shown(roots: seq<nat>, children: map<nat, seq<nat>>, x: nat, n: nat)
    decreases n
  {
    if n == 0 then x in roots
    else exists p :: Shown(roots, children, p, n - 1) && x in OrEmpty(children, p)
  }

  /** x is listed exactly once: among the roots, or below its parent. */
  ghost predicate ListedOnce(m: map<nat, Node>, roots: seq<nat>, children: map<nat, seq<nat>>, x: nat) {
    && multiset(roots)[x] == (if x in m && ParentIn(m, x).None? then 1 else 0)
    && forall p: nat :: multiset(OrEmpty(children, p))[x] == if x in m && ParentIn(m, x) == Some(p) then 1 else 0
  }

  lemma {:induction false} CountUnder(m: map<nat, Node>, order: seq<nat>, place: Option<nat>, x: nat)
    requires NoDuplicates(order)
    ensures multiset(Under(m, order, place))[x] == if x in order && ParentIn(m, x) == place then 1 else 0
  {
    hide ParentIn;
    if order != [] {
      var front, last := order[..|order| - 1], order[|order| - 1];
      CountUnder(m, front, place, x);
      assert order == front + [last];
      assert last !in front;
    }
  }

  /** Whatever the list, every node is listed exactly once, and nothing else is. */
  lemma EveryNodeIsListedOnce(m: map<nat, Node>, order: seq<nat>, roots: seq<nat>, children: map<nat, seq<nat>>,
                              depth: map<nat, nat>, x: nat)
    requires Built(m, order, roots, children, depth)
    ensures ListedOnce(m, roots, children, x)
  {
    CountUnder(m, order, None, x);
    forall p: nat ensures multiset(OrEmpty(children, p))[x] == if x in m && ParentIn(m, x) == Some(p) then 1 else 0 {
      CountUnder(m, order, Some(p), x);
      if p in m {
        assert NodeBuilt(m, Under(m, order, Some(p)), children[p], depth[p], p);
      }
    }
  }

  /** Where x is listed, read off the counts. */
  lemma ListedWhere(m: map<nat, Node>, roots: seq<nat>, children: map<nat, seq<nat>>, x: nat, p: nat)
    requires ListedOnce(m, roots, children, x)
    ensures x in roots <==> x in m && ParentIn(m, x).None?
    ensures x in OrEmpty(children, p) <==> x in m && ParentIn(m, x) == Some(p)
  {
  }

  /** The node is shown at its level, and only there. */
  lemma {:induction false} ShownIsLevel(m: map<nat, Node>, roots: seq<nat>, children: map<nat, seq<nat>>, x: nat,
                                        n: nat)
    requires forall y :: ListedOnce(m, roots, children, y)
    ensures Shown(roots, children, x, n) <==> x in m && Level(m, x, n)
    decreases n
  {
    hide ListedOnce;
    if n == 0 {
      ListedWhere(m, roots, children, x, 0);
      ClimbOnce(m, x);
    } else {
      if x in m && Level(m, x, n) {
        LevelOfParent(m, x, n);
        var p := ParentIn(m, x).value;
        ShownIsLevel(m, roots, children, p, n - 1);
        ListedWhere(m, roots, children, x, p);
      }
      if Shown(roots, children, x, n) {
        var p :| Shown(roots, children, p, n - 1) && x in OrEmpty(children, p);
        ShownIsLevel(m, roots, children, p, n - 1);
        ListedWhere(m, roots, children, x, p);
        hide Climb;
        LevelOfChild(m, p, x, n - 1);
      }
    }
  }

  lemma ShownIsGrounded(m: map<nat, Node>, roots: seq<nat>, children: map<nat, seq<nat>>, x: nat)
    requires x in m && forall y :: ListedOnce(m, roots, children, y)
    ensures Grounded(m, x) <==> Appears(roots, children, x)
  {
    hide ListedOnce;
    if Grounded(m, x) {
      var k: nat :| Climb(m, x, k).None?;
      var n := LastStep(m, x, k);
      ShownIsLevel(m, roots, children, x, n);
    }
    if n: nat :| Shown(roots, children, x, n) {
      ShownIsLevel(m, roots, children, x, n);
      assert Climb(m, x, n + 1).None?;
    }
  }

  ghost predicate ShowsAll(m: map<nat, Node>, roots: seq<nat>, children: map<nat, seq<nat>>) {
    forall x :: x in m ==> Appears(roots, children, x)
  }

  ghost predicate Appears(roots: seq<nat>, children: map<nat, seq<nat>>, x: nat)
  {
    exists n: nat :: Shown(roots, children, x, n)
  }

  /** Every category shows up, at one place, exactly when the categories are a forest. */
  lemma AForestShowsEverything(m: map<nat, Node>, order: seq<nat>, roots: seq<nat>, children: map<nat, seq<nat>>,
                               depth: map<nat, nat>)
    requires Built(m, order, roots, children, depth)
    ensures forall x :: ListedOnce(m, roots, children, x)
    ensures Forest(m) <==> ShowsAll(m, roots, children)
  {
    forall x ensures ListedOnce(m, roots, children, x) {
      EveryNodeIsListedOnce(m, order, roots, children, depth, x);
    }
    hide Built;
    hide ListedOnce;
    forall x | x in m ensures Grounded(m, x) <==> Appears(roots, children, x) {
      ShownIsGrounded(m, roots, children, x);
    }
    hide Grounded;
    hide Appears;
  }

  lemma {:induction false} LastStep(m: map<nat, Node>, x: nat, k: nat) returns (n: nat)
    requires Climb(m, x, k).None?
    ensures Level(m, x, n)
  {
    if Climb(m, x, k - 1).Some? {
      n := k - 1;
    } else {
      n := LastStep(m, x, k - 1);
    }
  }

  // ----- breadcrumbs -----

  /** The node and its ancestors, nearest last, as far as the cap allows. */
  function Trail(m: map<nat, Node>, id: nat, cap: nat): seq<nat>
    decreases cap, 0
  {
    if cap == 0 then [] else TrailOf(m, ParentIn(m, id), cap - 1) + [id]
  }

  function TrailOf(m: map<nat, Node>, id: Option<nat>, cap: nat): seq<nat>
    decreases cap, 1
  {
    if id.None? then [] else Trail(m, id.value, cap)
  }

  method CategoryPath(nodes: seq<Node>, id: nat) returns (path: seq<nat>)
    ensures path == TrailOf(ById(nodes), if id in ById(nodes) then Some(id) else None, MAX_DEPTH)
  {
    var m := ById(nodes);
    hide ById;
    path := [];
    var current := if id in m then Some(id) else None;
    var i := 0;
    assert TrailOf(m, current, MAX_DEPTH) + [] == TrailOf(m, current, MAX_DEPTH);
    while current.Some? && i < MAX_DEPTH
      invariant i <= MAX_DEPTH
      invariant TrailOf(m, current, MAX_DEPTH - i) + path == TrailOf(m, if id in m then Some(id) else None, MAX_DEPTH)
      decreases MAX_DEPTH - i
    {
      var up := ParentIn(m, current.value);
      assert TrailOf(m, current, MAX_DEPTH - i) + path == TrailOf(m, up, MAX_DEPTH - (i + 1))
        + ([current.value] + path);
      path := [current.value] + path;
      current := up;
      i := i + 1;
    }
    assert TrailOf(m, current, MAX_DEPTH - i) == [];
  }

  /**
   * A breadcrumb ends at the category, each step is to a child, and it
   * starts at a root unless the category lies below the cap.
   */
  lemma {:induction false} TrailLeadsDown(m: map<nat, Node>, id: nat, cap: nat)
    requires cap > 0
    ensures var t := Trail(m, id, cap);
      && t != [] && t[|t| - 1] == id && |t| <= cap
      && (forall i :: 0 <= i < |t| - 1 ==> ParentIn(m, t[i + 1]) == Some(t[i]))
    decreases cap
  {
    var p := ParentIn(m, id);
    if p.Some? && cap > 1 {
      TrailLeadsDown(m, p.value, cap - 1);
    }
  }

  /** The trail goes up as far as there are ancestors, and as the cap allows. */
  lemma {:induction false} TrailIsComplete(m: map<nat, Node>, id: nat, cap: nat, k: nat)
    requires k < cap
    ensures k < |Trail(m, id, cap)| <==> Climb(m, id, k).Some?
    decreases cap
  {
    var p := ParentIn(m, id);
    if k > 0 {
      UpFirst(m, id, k);
      if p.Some? {
        TrailIsComplete(m, p.value, cap - 1, k - 1);
      }
    }
  }

  /** Climbing k steps is climbing one, then k - 1 from the parent. */
  lemma {:induction false} UpFirst(m: map<nat, Node>, id: nat, k: nat)
    requires k > 0
    ensures Climb(m, id, k) ==
      if ParentIn(m, id).None? then None else Climb(m, ParentIn(m, id).value, k - 1)
    decreases k
  {
    if k > 1 {
      UpFirst(m, id, k - 1);
    }
  }

  lemma {:induction false} TrailStartsAtRoot(m: map<nat, Node>, id: nat, cap: nat, n: nat)
    requires Level(m, id, n) && n < cap
    ensures |Trail(m, id, cap)| == n + 1 && ParentIn(m, Trail(m, id, cap)[0]).None?
    decreases cap
  {
    LevelOfParent(m, id, n);
    if n > 0 {
      TrailStartsAtRoot(m, ParentIn(m, id).value, cap - 1, n - 1);
    } else {
      assert Trail(m, id, cap) == [id];
    }
  }
}
