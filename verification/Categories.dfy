/**
 * Category trees (packages/core/src/catalog/categories.ts:37-146) and the guard
 * on reparenting (packages/core/src/catalog/writes.ts:946-1072, 1208-1229).
 */
module Categories {
  import opened Common

  /** The title stands for its collation key. */
  datatype Node = Node(id: nat, parent: Option<nat>, position: int, title: nat)

  const MAX_DEPTH := 32

  // ----- reachability -----

  /** c is filed under p by some entry of the list. */
  ghost predicate Edge(nodes: seq<Node>, p: nat, c: nat) {
    exists i :: 0 <= i < |nodes| && nodes[i].id == c && nodes[i].parent == Some(p)
  }

  /** c is n steps down from p. */
  ghost predicate Down(nodes: seq<Node>, p: nat, c: nat, n: nat)
    decreases n
  {
    if n == 0 then p == c else exists x :: Down(nodes, p, x, n - 1) && Edge(nodes, x, c)
  }

  ghost predicate Reach(nodes: seq<Node>, p: nat, c: nat) { exists n: nat :: Down(nodes, p, c, n) }

  lemma ReachSelf(nodes: seq<Node>, p: nat)
    ensures Reach(nodes, p, p)
  {
    assert Down(nodes, p, p, 0);
  }

  lemma ReachStep(nodes: seq<Node>, root: nat, p: nat, c: nat)
    requires Reach(nodes, root, p) && Edge(nodes, p, c)
    ensures Reach(nodes, root, c)
  {
    var n: nat :| Down(nodes, root, p, n);
    assert Down(nodes, root, c, n + 1);
  }

  /** A set that holds the root and is closed under edges holds all that is reachable. */
  lemma {:induction false} ClosedHoldsAll(nodes: seq<Node>, root: nat, s: set<nat>, c: nat, n: nat)
    requires root in s && Down(nodes, root, c, n)
    requires forall p, x :: p in s && Edge(nodes, p, x) ==> x in s
    ensures c in s
    decreases n
  {
    if n > 0 {
      var x: nat :| Down(nodes, root, x, n - 1) && Edge(nodes, x, c);
      ClosedHoldsAll(nodes, root, s, x, n - 1);
    }
  }

  // ----- the worklist -----

  /** The ids filed under p, in list order. */
  function ChildIds(nodes: seq<Node>, p: nat): seq<nat> {
    if nodes == [] then []
    else
      var last := nodes[|nodes| - 1];
      ChildIds(nodes[..|nodes| - 1], p) + if last.parent == Some(p) then [last.id] else []
  }

  lemma {:induction false} ChildIdsAreEdges(nodes: seq<Node>, p: nat)
    ensures forall c :: c in ChildIds(nodes, p) <==> Edge(nodes, p, c)
  {
    if nodes != [] {
      var n := |nodes| - 1;
      ChildIdsAreEdges(nodes[..n], p);
      forall c
        ensures Edge(nodes, p, c) <==> Edge(nodes[..n], p, c) || (nodes[n].id == c && nodes[n].parent == Some(p))
      {
        if Edge(nodes, p, c) {
          var i :| 0 <= i < |nodes| && nodes[i].id == c && nodes[i].parent == Some(p);
          assert i < n ==> nodes[..n][i] == nodes[i];
        }
        if Edge(nodes[..n], p, c) {
          var i :| 0 <= i < n && nodes[..n][i].id == c && nodes[..n][i].parent == Some(p);
          assert nodes[i].id == c;
        }
      }
    }
  }

  function OrEmpty(m: map<nat, seq<nat>>, p: nat): seq<nat> { if p in m then m[p] else [] }

  method ChildrenByParent(nodes: seq<Node>) returns (childrenOf: map<nat, seq<nat>>)
    ensures forall p :: OrEmpty(childrenOf, p) == ChildIds(nodes, p)
  {
    childrenOf := map[];
    for i := 0 to |nodes|
      invariant forall p :: OrEmpty(childrenOf, p) == ChildIds(nodes[..i], p)
    {
      assert nodes[..i + 1][..i] == nodes[..i];
      var n := nodes[i];
      if n.parent.Some? {
        childrenOf := childrenOf[n.parent.value := OrEmpty(childrenOf, n.parent.value) + [n.id]];
      }
    }
    assert nodes[..|nodes|] == nodes;
  }

  function Ids(nodes: seq<Node>): set<nat> { set n | n in nodes :: n.id }

  lemma EdgesLeadToIds(nodes: seq<Node>, p: nat)
    ensures forall c :: Edge(nodes, p, c) ==> c in Ids(nodes)
  {
  }

  ghost predicate NoDuplicates(s: seq<nat>) { forall i, j :: 0 <= i < j < |s| ==> s[i] != s[j] }

  /** Where a walk stands: what it has seen and what is still stacked is reachable, and no edge leads out of the two. */
  ghost predicate Walking(nodes: seq<Node>, root: nat, seen: set<nat>, stack: seq<nat>) {
    && (forall x :: x in seen || x in stack ==> Reach(nodes, root, x) && (x == root || x in Ids(nodes)))
    && (root in seen || root in stack)
    && (forall p, c :: p in seen && Edge(nodes, p, c) ==> c in seen || c in stack)
  }

  lemma WalkOn(nodes: seq<Node>, root: nat, seen: set<nat>, stack: seq<nat>, children: seq<nat>)
    requires stack != [] && Walking(nodes, root, seen, stack) && stack[|stack| - 1] !in seen
    requires forall c :: c in children <==> Edge(nodes, stack[|stack| - 1], c)
    ensures Walking(nodes, root, seen + {stack[|stack| - 1]}, stack[..|stack| - 1] + children)
  {
    var id := stack[|stack| - 1];
    assert stack == stack[..|stack| - 1] + [id];
    EdgesLeadToIds(nodes, id);
    forall c | c in children ensures Reach(nodes, root, c) {
      ReachStep(nodes, root, id, c);
    }
  }

  lemma WalkSkips(nodes: seq<Node>, root: nat, seen: set<nat>, stack: seq<nat>)
    requires stack != [] && Walking(nodes, root, seen, stack) && stack[|stack| - 1] in seen
    ensures Walking(nodes, root, seen, stack[..|stack| - 1])
  {
  }

  lemma WalkEnds(nodes: seq<Node>, root: nat, seen: set<nat>)
    requires Walking(nodes, root, seen, [])
    ensures forall x :: x in seen <==> Reach(nodes, root, x)
  {
    forall x | Reach(nodes, root, x) ensures x in seen {
      var n: nat :| Down(nodes, root, x, n);
      ClosedHoldsAll(nodes, root, seen, x, n);
    }
  }

  lemma WalkStarts(nodes: seq<Node>, root: nat)
    ensures Walking(nodes, root, {}, [root])
  {
    assert Down(nodes, root, root, 0);
  }

  /** Exactly the ids reachable from the root, each once; the walk ends on every list, cyclic ones included. */
  method SubtreeIds(nodes: seq<Node>, root: nat) returns (out: seq<nat>)
    ensures forall x :: x in out <==> Reach(nodes, root, x)
    ensures NoDuplicates(out)
  {
    var childrenOf := ChildrenByParent(nodes);
    out := [];
    var stack := [root];
    var seen: set<nat> := {};
    WalkStarts(nodes, root);
    while stack != []
      invariant Walking(nodes, root, seen, stack)
      invariant seen <= Ids(nodes) + {root}
      invariant NoDuplicates(out) && forall x :: x in out <==> x in seen
      decreases Ids(nodes) + {root} - seen, |stack|
    {
      var id := stack[|stack| - 1];
      if id in seen {
        WalkSkips(nodes, root, seen, stack);
        stack := stack[..|stack| - 1];
      } else {
        ChildIdsAreEdges(nodes, id);
        WalkOn(nodes, root, seen, stack, OrEmpty(childrenOf, id));
        assert id in Ids(nodes) + {root} - seen;
        seen := seen + {id};
        out := out + [id];
        stack := stack[..|stack| - 1] + OrEmpty(childrenOf, id);
      }
    }
    WalkEnds(nodes, root, seen);
  }

  /** Reachability, decided on every list. */
  method IsDescendant(nodes: seq<Node>, root: nat, candidate: nat) returns (inside: bool)
    ensures inside <==> Reach(nodes, root, candidate)
  {
    if root == candidate {
      assert Down(nodes, root, candidate, 0);
      return true;
    }
    var childrenOf := ChildrenByParent(nodes);
    var stack := [root];
    var seen: set<nat> := {};
    WalkStarts(nodes, root);
    while stack != []
      invariant Walking(nodes, root, seen, stack)
      invariant seen <= Ids(nodes) + {root} && candidate !in seen
      decreases Ids(nodes) + {root} - seen, |stack|
    {
      var id := stack[|stack| - 1];
      if id in seen {
        WalkSkips(nodes, root, seen, stack);
        stack := stack[..|stack| - 1];
      } else {
        if id == candidate {
          return true;
        }
        ChildIdsAreEdges(nodes, id);
        WalkOn(nodes, root, seen, stack, OrEmpty(childrenOf, id));
        assert id in Ids(nodes) + {root} - seen;
        seen := seen + {id};
        stack := stack[..|stack| - 1] + OrEmpty(childrenOf, id);
      }
    }
    WalkEnds(nodes, root, seen);
    inside := false;
  }

  // ----- climbing -----

  /** new Map(nodes.map(n => [n.id, n])): the last entry of an id wins. */
  function ById(nodes: seq<Node>): (m: map<nat, Node>)
    ensures forall id :: id in m <==> exists i :: 0 <= i < |nodes| && nodes[i].id == id
    ensures forall id :: id in m ==> m[id] in nodes && m[id].id == id
  {
    if nodes == [] then map[]
    else
      var last := nodes[|nodes| - 1];
      var rest := ById(nodes[..|nodes| - 1]);
      assert nodes == nodes[..|nodes| - 1] + [last];
      rest[last.id := last]
  }

  /** The parent that is in the list; a missing one makes a root. */
  function ParentIn(m: map<nat, Node>, id: nat): (r: Option<nat>)
    ensures r.Some? ==> r.value in m
  {
    if id in m && m[id].parent.Some? && m[id].parent.value in m then m[id].parent else None
  }

  lemma {:induction false} LastEntryWins(nodes: seq<Node>, i: nat)
    requires i < |nodes| && forall j :: i < j < |nodes| ==> nodes[j].id != nodes[i].id
    ensures nodes[i].id in ById(nodes) && ById(nodes)[nodes[i].id] == nodes[i]
  {
    if i < |nodes| - 1 {
      LastEntryWins(nodes[..|nodes| - 1], i);
    }
  }

  /** Where n steps up from id lead; None beyond a root. */
  function Climb(m: map<nat, Node>, id: nat, n: nat): Option<nat>
    decreases n
  {
    if n == 0 then Some(id)
    else
      var p := ParentIn(m, id);
      if p.None? then None else Climb(m, p.value, n - 1)
  }

  /** Climbing from id ends at a root. */
  ghost predicate Grounded(m: map<nat, Node>, id: nat) { exists n: nat :: Climb(m, id, n).None? }

  /** A forest: every category hangs from a root. */
  ghost predicate Forest(m: map<nat, Node>) { forall id :: id in m ==> Grounded(m, id) }

  lemma {:induction false} ClimbOn(m: map<nat, Node>, id: nat, n: nat, k: nat)
    ensures Climb(m, id, n + k) == if Climb(m, id, n).None? then None else Climb(m, Climb(m, id, n).value, k)
    decreases n
  {
    if n > 0 && ParentIn(m, id).Some? {
      ClimbOn(m, ParentIn(m, id).value, n - 1, k);
    }
  }

  /** No category of a forest is above itself. */
  lemma ForestsHaveNoCycle(m: map<nat, Node>, id: nat, n: nat)
    requires n > 0 && Grounded(m, id)
    ensures Climb(m, id, n) != Some(id)
  {
    if Climb(m, id, n) == Some(id) {
      var k: nat :| Climb(m, id, k).None?;
      NeverEnds(m, id, n, k);
    }
  }

  lemma {:induction false} NeverEnds(m: map<nat, Node>, id: nat, n: nat, k: nat)
    requires n > 0 && Climb(m, id, n) == Some(id)
    ensures Climb(m, id, k).Some?
    decreases k
  {
    if k < n {
      ClimbOn(m, id, k, n - k);
    } else {
      ClimbOn(m, id, n, k - n);
      NeverEnds(m, id, n, k - n);
    }
  }

  // ----- edits -----

  datatype Edit =
    | Create(id: nat, parent: Option<nat>, position: int, title: nat)
    | Update(id: nat, parent: Option<nat>, position: int, title: nat)

  ghost predicate UniqueIds(nodes: seq<Node>) { forall i, j :: 0 <= i < j < |nodes| ==> nodes[i].id != nodes[j].id }

  predicate Exists(nodes: seq<Node>, id: nat) { exists i :: 0 <= i < |nodes| && nodes[i].id == id }

  /** A parent is accepted when it exists and is not inside the category's own subtree. */
  ghost predicate Accepted(nodes: seq<Node>, id: nat, parent: Option<nat>) {
    parent.Some? ==> Exists(nodes, parent.value) && !Reach(nodes, id, parent.value)
  }

  function Rewrite(nodes: seq<Node>, n: Node): (r: seq<Node>)
    ensures |r| == |nodes|
  {
    seq(|nodes|, i requires 0 <= i < |nodes| => if nodes[i].id == n.id then n else nodes[i])
  }

  /** One committed edit; a refusal leaves the list alone. A new category gets an id no other has. */
  ghost function Edited(nodes: seq<Node>, e: Edit): seq<Node> {
    match e
    case Create(id, parent, position, title) =>
      if Exists(nodes, id) || (parent.Some? && !Exists(nodes, parent.value)) then nodes
      else nodes + [Node(id, parent, position, title)]
    case Update(id, parent, position, title) =>
      if !Exists(nodes, id) || !Accepted(nodes, id, parent) then nodes
      else Rewrite(nodes, Node(id, parent, position, title))
  }

  method ResolveParent(nodes: seq<Node>, id: nat, parent: Option<nat>) returns (ok: bool)
    ensures ok <==> Accepted(nodes, id, parent)
  {
    if parent.None? {
      return true;
    }
    if !Exists(nodes, parent.value) {
      return false;
    }
    var inside := IsDescendant(nodes, id, parent.value);
    ok := !inside;
  }

  class CategoryTable {
    var nodes: seq<Node>

    constructor ()
      ensures nodes == []
    {
      nodes := [];
    }

    method CreateCategory(id: nat, parent: Option<nat>, position: int, title: nat) returns (ok: bool)
      requires !Exists(nodes, id)
      modifies this
      ensures nodes == Edited(old(nodes), Create(id, parent, position, title))
      ensures ok <==> (parent.Some? ==> Exists(old(nodes), parent.value))
      ensures nodes == old(nodes) + if ok then [Node(id, parent, position, title)] else []
    {
      if parent.Some? && !Exists(nodes, parent.value) {
        return false;
      }
      nodes := nodes + [Node(id, parent, position, title)];
      ok := true;
    }

    method UpdateCategory(id: nat, parent: Option<nat>, position: int, title: nat) returns (ok: bool)
      modifies this
      ensures nodes == Edited(old(nodes), Update(id, parent, position, title))
      ensures ok <==> Exists(old(nodes), id) && Accepted(old(nodes), id, parent)
      ensures |nodes| == |old(nodes)|
      ensures forall i :: 0 <= i < |nodes| ==>
        nodes[i] == if ok && old(nodes)[i].id == id then Node(id, parent, position, title) else old(nodes)[i]
    {
      if !Exists(nodes, id) {
        return false;
      }
      var accepted := ResolveParent(nodes, id, parent);
      if !accepted {
        return false;
      }
      nodes := Rewrite(nodes, Node(id, parent, position, title));
      ok := true;
    }
  }

  // ----- an accepted edit keeps the forest -----

  lemma ByIdOfUnique(nodes: seq<Node>, i: nat)
    requires UniqueIds(nodes) && i < |nodes|
    ensures nodes[i].id in ById(nodes) && ById(nodes)[nodes[i].id] == nodes[i]
  {
  }

  /** In a list of unique ids, one step up is one edge down. */
  lemma ParentIsEdge(nodes: seq<Node>, p: nat, c: nat)
    requires UniqueIds(nodes) && ParentIn(ById(nodes), c) == Some(p)
    ensures Edge(nodes, p, c)
  {
  }

  lemma EdgeIsParent(nodes: seq<Node>, p: nat, c: nat)
    requires UniqueIds(nodes) && Edge(nodes, p, c) && p in ById(nodes)
    ensures ParentIn(ById(nodes), c) == Some(p)
  {
  }

  lemma RewriteKeepsIds(nodes: seq<Node>, n: Node)
    requires UniqueIds(nodes)
    ensures UniqueIds(Rewrite(nodes, n))
  {
  }

  lemma NothingToRewrite(nodes: seq<Node>, n: Node)
    requires !Exists(nodes, n.id)
    ensures Rewrite(nodes, n) == nodes
  {
  }

  lemma ExistsSplits(nodes: seq<Node>, id: nat)
    requires nodes != []
    ensures Exists(nodes, id) <==> Exists(nodes[..|nodes| - 1], id) || nodes[|nodes| - 1].id == id
  {
  }

  lemma {:induction false} RewriteById(nodes: seq<Node>, n: Node)
    requires Exists(nodes, n.id)
    ensures ById(Rewrite(nodes, n)) == ById(nodes)[n.id := n]
  {
    var front, last := nodes[..|nodes| - 1], nodes[|nodes| - 1];
    var r := Rewrite(nodes, n);
    assert r[..|nodes| - 1] == Rewrite(front, n);
    if Exists(front, n.id) {
      RewriteById(front, n);
    } else {
      ExistsSplits(nodes, n.id);
      NothingToRewrite(front, n);
    }
    hide Rewrite;
  }

  /** Outside the moved subtree nothing changes on the way up. */
  lemma {:induction false} ClimbOutside(nodes: seq<Node>, n: Node, x: nat, k: nat)
    requires UniqueIds(nodes) && Exists(nodes, n.id) && !Reach(nodes, n.id, x)
    ensures Climb(ById(nodes)[n.id := n], x, k) == Climb(ById(nodes), x, k)
    decreases k
  {
    hide ById;
    var m := ById(nodes);
    ReachSelf(nodes, n.id);
    if k > 0 && ParentIn(m, x).Some? {
      var p := ParentIn(m, x).value;
      ParentIsEdge(nodes, p, x);
      if Reach(nodes, n.id, p) {
        ReachStep(nodes, n.id, p, x);
      }
      ClimbOutside(nodes, n, p, k - 1);
    }
  }

  /** Inside the moved subtree the way up leads through the moved category to its new parent. */
  lemma {:induction false} GroundedInside(nodes: seq<Node>, n: Node, x: nat, k: nat)
    requires UniqueIds(nodes) && Exists(nodes, n.id) && Forest(ById(nodes)) && Accepted(nodes, n.id, n.parent)
    requires Down(nodes, n.id, x, k)
    ensures Grounded(ById(nodes)[n.id := n], x)
    decreases k
  {
    hide ById;
    var m := ById(nodes)[n.id := n];
    if x == n.id {
      var p := ParentIn(m, x);
      if p.None? {
        assert Climb(m, x, 1).None?;
      } else {
        assert Grounded(ById(nodes), p.value);
        var j: nat :| Climb(ById(nodes), p.value, j).None?;
        ClimbOutside(nodes, n, p.value, j);
        assert Climb(m, x, j + 1).None?;
      }
    } else {
      assert k > 0;
      var y: nat :| Down(nodes, n.id, y, k - 1) && Edge(nodes, y, x);
      GroundedInside(nodes, n, y, k - 1);
      var j: nat :| Climb(m, y, j).None?;
      var i :| 0 <= i < |nodes| && nodes[i].id == x && nodes[i].parent == Some(y);
      ByIdOfUnique(nodes, i);
      assert Climb(m, x, j + 1).None?;
    }
  }

  lemma MoveKeepsForest(nodes: seq<Node>, n: Node)
    requires UniqueIds(nodes) && Exists(nodes, n.id) && Forest(ById(nodes)) && Accepted(nodes, n.id, n.parent)
    ensures Forest(ById(Rewrite(nodes, n)))
  {
    RewriteById(nodes, n);
    hide ById;
    var m := ById(nodes)[n.id := n];
    forall x | x in m ensures Grounded(m, x) {
      if Reach(nodes, n.id, x) {
        var k: nat :| Down(nodes, n.id, x, k);
        GroundedInside(nodes, n, x, k);
      } else {
        assert Grounded(ById(nodes), x);
        var k: nat :| Climb(ById(nodes), x, k).None?;
        ClimbOutside(nodes, n, x, k);
      }
    }
  }

  /** A move into the category's own subtree, which the guard refuses, always breaks the forest: the guard is exact. */
  lemma RefusedMovesBreakTheForest(nodes: seq<Node>, n: Node)
    requires UniqueIds(nodes) && Exists(nodes, n.id) && n.parent.Some?
    requires Exists(nodes, n.parent.value) && Reach(nodes, n.id, n.parent.value)
    ensures !Forest(ById(Rewrite(nodes, n)))
  {
    RewriteById(nodes, n);
    hide ById;
    var m := ById(nodes)[n.id := n];
    var k: nat :| Down(nodes, n.id, n.parent.value, k);
    var j := ClimbsToTop(nodes, n, n.parent.value, k);
    hide Down;
    CycleBreaksForest(m, n.id, n.parent.value, j);
  }

  lemma CycleBreaksForest(m: map<nat, Node>, id: nat, p: nat, j: nat)
    requires id in m && ParentIn(m, id) == Some(p) && Climb(m, p, j) == Some(id)
    ensures !Forest(m)
  {
    assert Climb(m, id, j + 1) == Some(id);
    if Forest(m) {
      assert Grounded(m, id);
      ForestsHaveNoCycle(m, id, j + 1);
    }
  }

  lemma {:induction false} ClimbsToTop(nodes: seq<Node>, n: Node, x: nat, k: nat) returns (j: nat)
    requires UniqueIds(nodes) && Exists(nodes, n.id) && Down(nodes, n.id, x, k)
    ensures Climb(ById(nodes)[n.id := n], x, j) == Some(n.id)
    decreases k
  {
    hide ById;
    if x == n.id {
      j := 0;
    } else {
      assert k > 0;
      var y: nat :| Down(nodes, n.id, y, k - 1) && Edge(nodes, y, x);
      j := ClimbsToTop(nodes, n, y, k - 1);
      if k - 1 == 0 {
        assert y == n.id;
      } else {
        var z: nat :| Down(nodes, n.id, z, k - 2) && Edge(nodes, z, y);
      }
      EdgeIsParent(nodes, y, x);
      j := j + 1;
    }
  }

  lemma CreateKeepsForest(nodes: seq<Node>, n: Node)
    requires UniqueIds(nodes) && !Exists(nodes, n.id) && Forest(ById(nodes))
    requires n.parent.Some? ==> Exists(nodes, n.parent.value)
    requires forall i :: 0 <= i < |nodes| && nodes[i].parent.Some? ==> Exists(nodes, nodes[i].parent.value)
    ensures UniqueIds(nodes + [n]) && Forest(ById(nodes + [n]))
  {
    var m := ById(nodes);
    assert (nodes + [n])[..|nodes|] == nodes;
    assert ById(nodes + [n]) == m[n.id := n];
    hide ById;
    var after := m[n.id := n];
    forall x | x in after ensures Grounded(after, x) {
      if x in m {
        GroundedStays(nodes, n, x);
      } else if n.parent.Some? {
        GroundedStays(nodes, n, n.parent.value);
        GroundedFromParent(after, x, n.parent.value);
      } else {
        assert Climb(after, x, 1).None?;
      }
    }
  }

  lemma GroundedStays(nodes: seq<Node>, n: Node, x: nat)
    requires UniqueIds(nodes) && !Exists(nodes, n.id) && x in ById(nodes) && Grounded(ById(nodes), x)
    requires forall i :: 0 <= i < |nodes| && nodes[i].parent.Some? ==> Exists(nodes, nodes[i].parent.value)
    ensures Grounded(ById(nodes)[n.id := n], x)
  {
    var k: nat :| Climb(ById(nodes), x, k).None?;
    ClimbIgnoresNew(nodes, n, x, k);
  }

  lemma GroundedFromParent(m: map<nat, Node>, x: nat, p: nat)
    requires ParentIn(m, x) == Some(p) && Grounded(m, p)
    ensures Grounded(m, x)
  {
    var k: nat :| Climb(m, p, k).None?;
    assert Climb(m, x, k + 1).None?;
  }

  lemma {:induction false} ClimbIgnoresNew(nodes: seq<Node>, n: Node, x: nat, k: nat)
    requires UniqueIds(nodes) && !Exists(nodes, n.id) && x in ById(nodes)
    requires forall i :: 0 <= i < |nodes| && nodes[i].parent.Some? ==> Exists(nodes, nodes[i].parent.value)
    ensures Climb(ById(nodes)[n.id := n], x, k) == Climb(ById(nodes), x, k)
    decreases k
  {
    hide ById;
    var m := ById(nodes);
    var i :| 0 <= i < |nodes| && nodes[i] == m[x];
    if k > 0 && ParentIn(m, x).Some? {
      ClimbIgnoresNew(nodes, n, ParentIn(m, x).value, k - 1);
    }
  }

  /** What every committed edit keeps. */
  ghost predicate TreeInv(nodes: seq<Node>) {
    && UniqueIds(nodes)
    && (forall i :: 0 <= i < |nodes| && nodes[i].parent.Some? ==> Exists(nodes, nodes[i].parent.value))
    && Forest(ById(nodes))
  }

  lemma EditKeepsTree(nodes: seq<Node>, e: Edit)
    requires TreeInv(nodes)
    ensures TreeInv(Edited(nodes, e))
  {
    var t := Edited(nodes, e);
    if t != nodes {
      match e
      case Create(id, parent, position, title) =>
        var n := Node(id, parent, position, title);
        CreateKeepsForest(nodes, n);
        forall i | 0 <= i < |t| && t[i].parent.Some? ensures Exists(t, t[i].parent.value) {
          var j :| 0 <= j < |nodes| && nodes[j].id == t[i].parent.value;
          assert t[j].id == t[i].parent.value;
        }
      case Update(id, parent, position, title) =>
        var n := Node(id, parent, position, title);
        MoveKeepsForest(nodes, n);
        RewriteKeepsIds(nodes, n);
        forall i | 0 <= i < |t| && t[i].parent.Some? ensures Exists(t, t[i].parent.value) {
          assert Exists(nodes, t[i].parent.value);
          var j :| 0 <= j < |nodes| && nodes[j].id == t[i].parent.value;
          assert t[j].id == t[i].parent.value;
        }
    }
  }

  ghost function EditAll(edits: seq<Edit>): seq<Node> {
    if edits == [] then [] else Edited(EditAll(edits[..|edits| - 1]), edits[|edits| - 1])
  }

  /** Over any sequence of edits, accepted or refused, the categories stay a forest. */
  lemma {:induction false} CategoriesStayAForest(edits: seq<Edit>)
    ensures TreeInv(EditAll(edits))
  {
    if edits != [] {
      CategoriesStayAForest(edits[..|edits| - 1]);
      EditKeepsTree(EditAll(edits[..|edits| - 1]), edits[|edits| - 1]);
    }
  }
}
