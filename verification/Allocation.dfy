/**
 * Largest-remainder allocation: splitting an amount over weights in whole
 * paise. The two allocators of the repository (promotions/index.ts:297-338 and
 * tax/index.ts:204-248) differ only in how they break ties between equal
 * remainders, so both are instances of the functions here.
 */
module Allocation {
  import opened Common

  function Sum(xs: seq<int>): int {
    if xs == [] then 0 else Sum(xs[..|xs| - 1]) + xs[|xs| - 1]
  }

  predicate NonNegative(xs: seq<int>) {
    forall i :: 0 <= i < |xs| ==> xs[i] >= 0
  }

  function Floors(target: nat, weights: seq<nat>, total: nat): (r: seq<int>)
    requires total > 0
    ensures |r| == |weights|
  {
    seq(|weights|, i requires 0 <= i < |weights| => weights[i] * target / total)
  }

  function Remainders(target: nat, weights: seq<nat>, total: nat): (r: seq<int>)
    requires total > 0
    ensures |r| == |weights| && forall i :: 0 <= i < |r| ==> 0 <= r[i] < total
  {
    seq(|weights|, i requires 0 <= i < |weights| => weights[i] * target % total)
  }

  /** Does line i come before line j: larger remainder, then larger tie value, then earlier. */
  predicate Before(remainders: seq<int>, ties: seq<int>, i: nat, j: nat)
    requires i < |remainders| && j < |remainders| && |ties| == |remainders|
  {
    || remainders[i] > remainders[j]
    || (remainders[i] == remainders[j] && (ties[i] > ties[j] || (ties[i] == ties[j] && i < j)))
  }

  predicate Indices(order: seq<nat>, n: nat) {
    forall k :: 0 <= k < |order| ==> order[k] < n
  }

  function InsertRank(i: nat, order: seq<nat>, remainders: seq<int>, ties: seq<int>): (r: seq<nat>)
    requires i < |remainders| == |ties| && Indices(order, |remainders|)
    ensures Indices(r, |remainders|) && |r| == |order| + 1
  {
    if order == [] || Before(remainders, ties, i, order[0]) then [i] + order
    else [order[0]] + InsertRank(i, order[1..], remainders, ties)
  }

  /** The first n lines, ranked. */
  function Rank(n: nat, remainders: seq<int>, ties: seq<int>): (r: seq<nat>)
    requires n <= |remainders| == |ties|
    ensures |r| == n && Indices(r, |remainders|)
  {
    if n == 0 then [] else InsertRank(n - 1, Rank(n - 1, remainders, ties), remainders, ties)
  }

  /** One more paisa to each of the first k ranked lines. */
  function HandOut(shares: seq<int>, order: seq<nat>, k: nat): (r: seq<int>)
    requires k <= |order| && Indices(order, |shares|)
    ensures |r| == |shares|
  {
    if k == 0 then shares
    else
      var s := HandOut(shares, order, k - 1);
      s[order[k - 1] := s[order[k - 1]] + 1]
  }

  function Leftover(target: nat, weights: seq<nat>, total: nat): int
    requires total > 0
  {
    target - Sum(Floors(target, weights, total))
  }

  function Allocate(target: nat, weights: seq<nat>, ties: seq<int>): (r: seq<int>)
    requires Sum(weights) > 0 && |ties| == |weights|
    ensures |r| == |weights|
  {
    var total := Sum(weights);
    LeftoverBounds(target, weights);
    HandOut(Floors(target, weights, total), Rank(|weights|, Remainders(target, weights, total), ties),
            Leftover(target, weights, total))
  }

  // ----- how much is left over -----

  lemma {:induction false} SumUpdate(xs: seq<int>, i: nat, x: int)
    requires i < |xs|
    ensures Sum(xs[i := x]) == Sum(xs) - xs[i] + x
  {
    if i == |xs| - 1 {
      assert xs[i := x][..|xs| - 1] == xs[..|xs| - 1];
    } else {
      assert xs[i := x][..|xs| - 1] == xs[..|xs| - 1][i := x];
      SumUpdate(xs[..|xs| - 1], i, x);
    }
  }

  lemma {:induction false} SumAtLeast(xs: seq<int>, i: nat)
    requires NonNegative(xs) && i < |xs|
    ensures Sum(xs) >= xs[i]
  {
    SumNonNegative(xs[..|xs| - 1]);
    if i < |xs| - 1 {
      SumAtLeast(xs[..|xs| - 1], i);
    }
  }

  lemma {:induction false} SumNonNegative(xs: seq<int>)
    requires NonNegative(xs)
    ensures Sum(xs) >= 0
  {
    if xs != [] {
      SumNonNegative(xs[..|xs| - 1]);
    }
  }

  /** total * (sum of floors) + (sum of remainders) is the target times the sum of weights. */
  lemma {:induction false} QuotasAddUp(target: nat, weights: seq<nat>, total: nat)
    requires total > 0
    ensures Sum(Floors(target, weights, total)) * total
      + Sum(Remainders(target, weights, total)) == Sum(weights) * target
  {
    if weights != [] {
      var front, last := weights[..|weights| - 1], weights[|weights| - 1];
      QuotasAddUp(target, front, total);
      assert Floors(target, weights, total)[..|front|] == Floors(target, front, total);
      assert Remainders(target, weights, total)[..|front|] == Remainders(target, front, total);
      QuotaStep(Sum(Floors(target, front, total)), Sum(Remainders(target, front, total)), Sum(front), last, target,
                total);
    }
  }

  lemma QuotaStep(floors: int, fractions: int, weights: int, last: nat, target: nat, total: nat)
    requires total > 0 && floors * total + fractions == weights * target
    ensures (floors + last * target / total) * total + (fractions + last * target % total) == (weights + last) * target
  {
  }

  lemma {:induction false} SumBelow(xs: seq<int>, bound: int)
    requires forall i :: 0 <= i < |xs| ==> xs[i] < bound
    ensures Sum(xs) <= |xs| * (bound - 1)
  {
    if xs != [] {
      SumBelow(xs[..|xs| - 1], bound);
      assert |xs| * (bound - 1) == (|xs| - 1) * (bound - 1) + (bound - 1);
    }
  }

  lemma LeftoverArithmetic(left: int, total: nat, n: nat, fractions: int)
    requires total > 0 && left * total == fractions && 0 <= fractions <= n * (total - 1)
    ensures 0 <= left <= n && (left > 0 ==> left < n)
  {
  }

  lemma LeftoverScales(target: nat, floors: int, total: nat, fractions: int)
    requires floors * total + fractions == total * target
    ensures (target - floors) * total == fractions
  {
  }

  /** What the floors leave over is what the remainders add up to. */
  lemma LeftoverIsTheRemainders(target: nat, weights: seq<nat>)
    requires Sum(weights) > 0
    ensures Leftover(target, weights, Sum(weights)) * Sum(weights) == Sum(Remainders(target, weights, Sum(weights)))
  {
    var total := Sum(weights);
    var floors, fractions := Sum(Floors(target, weights, total)), Sum(Remainders(target, weights, total));
    QuotasAddUp(target, weights, total);
    assert Leftover(target, weights, total) == target - floors;
    hide *;
    LeftoverScales(target, floors, total, fractions);
  }

  lemma LeftoverBounds(target: nat, weights: seq<nat>)
    requires Sum(weights) > 0
    ensures Leftover(target, weights, Sum(weights)) * Sum(weights) == Sum(Remainders(target, weights, Sum(weights)))
    ensures 0 <= Leftover(target, weights, Sum(weights)) < |weights|
  {
    var total := Sum(weights);
    var left, rs := Leftover(target, weights, total), Remainders(target, weights, total);
    LeftoverIsTheRemainders(target, weights);
    SumNonNegative(rs);
    SumBelow(rs, total);
    assert |rs| == |weights| > 0;
    hide *;
    LeftoverArithmetic(left, total, |weights|, Sum(rs));
  }

  lemma Scale(a: int, b: int, c: nat)
    requires a <= b
    ensures a * c <= b * c
  {
  }

  // ----- the ranking -----

  ghost predicate Ranked(order: seq<nat>, remainders: seq<int>, ties: seq<int>)
    requires Indices(order, |remainders|) && |ties| == |remainders|
  {
    forall i, j :: 0 <= i < j < |order| ==> Before(remainders, ties, order[i], order[j])
  }

  ghost predicate NoRepeats(order: seq<nat>) {
    forall i, j :: 0 <= i < j < |order| ==> order[i] != order[j]
  }

  function SumAt(xs: seq<int>, order: seq<nat>): int
    requires Indices(order, |xs|)
  {
    if order == [] then 0 else xs[order[0]] + SumAt(xs, order[1..])
  }

  lemma {:induction false} InsertRankMembers(i: nat, order: seq<nat>, remainders: seq<int>, ties: seq<int>)
    requires i < |remainders| == |ties| && Indices(order, |remainders|)
    ensures forall x :: x in InsertRank(i, order, remainders, ties) <==> x == i || x in order
    ensures NoRepeats(order) && i !in order ==> NoRepeats(InsertRank(i, order, remainders, ties))
    ensures SumAt(remainders, InsertRank(i, order, remainders, ties)) == remainders[i] + SumAt(remainders, order)
  {
    if order != [] && !Before(remainders, ties, i, order[0]) {
      var rest := InsertRank(i, order[1..], remainders, ties);
      InsertRankMembers(i, order[1..], remainders, ties);
      hide InsertRank;
      MembersOfCons(order[0], order[1..]);
      MembersOfCons(order[0], rest);
      assert order == [order[0]] + order[1..];
    } else {
      MembersOfCons(i, order);
    }
  }

  /** A list with one element put in front. */
  lemma MembersOfCons(x: nat, rest: seq<nat>)
    ensures forall y :: y in [x] + rest <==> y == x || y in rest
    ensures NoRepeats([x] + rest) <==> NoRepeats(rest) && x !in rest
  {
    var all := [x] + rest;
    if NoRepeats(all) {
      forall i, j | 0 <= i < j < |rest| ensures rest[i] != rest[j] {
        assert all[i + 1] != all[j + 1];
      }
      forall j | 0 <= j < |rest| ensures rest[j] != x {
        assert all[0] != all[j + 1];
      }
    }
  }

  lemma {:induction false} InsertRankKeeps(i: nat, order: seq<nat>, remainders: seq<int>, ties: seq<int>)
    requires i < |remainders| == |ties| && Indices(order, |remainders|) && Ranked(order, remainders, ties)
    requires i !in order
    ensures Ranked(InsertRank(i, order, remainders, ties), remainders, ties)
  {
    if order != [] && !Before(remainders, ties, i, order[0]) {
      var rest := InsertRank(i, order[1..], remainders, ties);
      InsertRankKeeps(i, order[1..], remainders, ties);
      InsertRankMembers(i, order[1..], remainders, ties);
      forall j | 0 <= j < |rest| ensures Before(remainders, ties, order[0], rest[j]) {
        assert rest[j] in rest;
      }
    }
  }

  /** The ranking lists each of the first n lines once. */
  lemma {:induction false} RankMembers(n: nat, remainders: seq<int>, ties: seq<int>)
    requires n <= |remainders| == |ties|
    ensures NoRepeats(Rank(n, remainders, ties))
    ensures forall i :: i in Rank(n, remainders, ties) <==> 0 <= i < n
  {
    if n > 0 {
      RankMembers(n - 1, remainders, ties);
      InsertRankMembers(n - 1, Rank(n - 1, remainders, ties), remainders, ties);
      hide InsertRank;
      hide SumAt;
      hide NoRepeats;
    }
  }

  lemma {:induction false} RankSum(n: nat, remainders: seq<int>, ties: seq<int>)
    requires n <= |remainders| == |ties|
    ensures SumAt(remainders, Rank(n, remainders, ties)) == Sum(remainders[..n])
  {
    if n > 0 {
      RankSum(n - 1, remainders, ties);
      SumOfPrefix(remainders, n);
      InsertRankMembers(n - 1, Rank(n - 1, remainders, ties), remainders, ties);
      hide InsertRank;
      hide SumAt;
      hide Sum;
      hide Indices;
    }
  }

  lemma SumOfPrefix(xs: seq<int>, n: nat)
    requires 0 < n <= |xs|
    ensures Sum(xs[..n]) == Sum(xs[..n - 1]) + xs[n - 1]
  {
    assert xs[..n][..n - 1] == xs[..n - 1];
  }

  lemma {:induction false} RankRanks(n: nat, remainders: seq<int>, ties: seq<int>)
    requires n <= |remainders| == |ties|
    ensures Ranked(Rank(n, remainders, ties), remainders, ties)
  {
    if n > 0 {
      RankRanks(n - 1, remainders, ties);
      RankMembers(n - 1, remainders, ties);
      InsertRankKeeps(n - 1, Rank(n - 1, remainders, ties), remainders, ties);
    }
  }

  lemma {:induction false} SumAtPrefix(xs: seq<int>, order: seq<nat>, k: nat, total: nat)
    requires Indices(order, |xs|) && k <= |order| && total > 0
    requires forall i :: 0 <= i < |xs| ==> 0 <= xs[i] < total
    requires forall j :: k <= j < |order| ==> xs[order[j]] == 0
    ensures SumAt(xs, order) <= k * (total - 1)
  {
    if order != [] {
      if k == 0 {
        SumAtPrefix(xs, order[1..], 0, total);
      } else {
        SumAtPrefix(xs, order[1..], k - 1, total);
        assert k * (total - 1) == (k - 1) * (total - 1) + (total - 1);
      }
    }
  }

  /** Fewer lines than `left` cannot carry `left` whole units of remainder. */
  lemma TooFewRemainders(rs: seq<int>, ties: seq<int>, order: seq<nat>, k: nat, left: int, total: nat)
    requires Indices(order, |rs|) && |ties| == |rs| && Ranked(order, rs, ties) && k < left && k < |order| && total > 0
    requires forall i :: 0 <= i < |rs| ==> 0 <= rs[i] < total
    requires SumAt(rs, order) == left * total
    ensures rs[order[k]] > 0
  {
    FewerUnits(k, left, total);
    if rs[order[k]] == 0 {
      SumAtPrefix(rs, order, k, total);
    }
  }

  lemma FewerUnits(k: nat, left: int, total: nat)
    requires k < left && total > 0
    ensures k * (total - 1) < left * total
  {
  }

  // ----- handing out -----

  lemma {:induction false} HandOutSum(shares: seq<int>, order: seq<nat>, k: nat)
    requires k <= |order| && Indices(order, |shares|)
    ensures Sum(HandOut(shares, order, k)) == Sum(shares) + k
  {
    if k > 0 {
      HandOutSum(shares, order, k - 1);
      var s := HandOut(shares, order, k - 1);
      SumUpdate(s, order[k - 1], s[order[k - 1]] + 1);
    }
  }

  /** Each line gains at most one paisa: one if it is among the first k ranked. */
  lemma {:induction false} HandOutAt(shares: seq<int>, order: seq<nat>, k: nat, i: nat)
    requires k <= |order| && Indices(order, |shares|) && i < |shares|
    requires NoRepeats(order)
    ensures HandOut(shares, order, k)[i] == shares[i] + if i in order[..k] then 1 else 0
  {
    if k > 0 {
      HandOutAt(shares, order, k - 1, i);
      assert order[..k] == order[..k - 1] + [order[k - 1]];
      if order[k - 1] == i {
        assert i !in order[..k - 1];
      }
    }
  }

  /**
   * Exact and fair: the shares sum to the target; a share is the floor of its
   * exact quota or one more, and one more only where the quota has a fraction;
   * a line that is rounded up has no smaller fraction than one that is not.
   */
  ghost predicate Fair(shares: seq<int>, target: nat, weights: seq<nat>)
    requires Sum(weights) > 0
  {
    && Sum(shares) == target
    && RoundsFairly(shares, Floors(target, weights, Sum(weights)), Remainders(target, weights, Sum(weights)))
  }

  ghost predicate RoundsFairly(shares: seq<int>, floors: seq<int>, fractions: seq<int>)
  {
    && |shares| == |floors| == |fractions|
    && (forall i :: 0 <= i < |shares| ==> shares[i] == floors[i] || (shares[i] == floors[i] + 1 && fractions[i] > 0))
    && (forall i, j | 0 <= i < |shares| && 0 <= j < |shares| && shares[i] != floors[i] && shares[j] == floors[j] ::
          fractions[i] >= fractions[j])
  }

  /**
   * Of two lines only one of which is rounded up, it is the one with the
   * larger fraction, then the larger tie, then the earlier.
   */
  ghost predicate BreaksTies(shares: seq<int>, floors: seq<int>, fractions: seq<int>, ties: seq<int>) {
    && |shares| == |floors| == |fractions| == |ties|
    && forall i, j | 0 <= i < |shares| && 0 <= j < |shares| && shares[i] != floors[i] && shares[j] == floors[j] ::
      fractions[i] > fractions[j]
        || (fractions[i] == fractions[j] && (ties[i] > ties[j] || (ties[i] == ties[j] && i < j)))
  }

  lemma RewardedComeFirst(order: seq<nat>, left: nat, rs: seq<int>, ties: seq<int>, i: nat, j: nat)
    requires Indices(order, |rs|) && |ties| == |rs| && Ranked(order, rs, ties) && left <= |order|
    requires i in order[..left] && j !in order[..left] && j in order && j < |rs|
    ensures i < |rs| && Before(rs, ties, i, j)
  {
  }

  /** Abstractly: one more for a chosen set of lines that all have a fraction, none smaller than an unchosen one's. */
  lemma BonusIsFair(shares: seq<int>, floors: seq<int>, rs: seq<int>, ties: seq<int>, chosen: seq<nat>)
    requires |shares| == |floors| == |rs| == |ties|
    requires forall i :: 0 <= i < |rs| ==> shares[i] == floors[i] + if i in chosen then 1 else 0
    requires forall i :: 0 <= i < |rs| && i in chosen ==> rs[i] > 0
    requires forall i, j ::
      0 <= i < |rs| && 0 <= j < |rs| && i in chosen && j !in chosen ==> Before(rs, ties, i, j)
    ensures RoundsFairly(shares, floors, rs) && BreaksTies(shares, floors, rs, ties)
  {
  }

  lemma HandOutIsFair(floors: seq<int>, rs: seq<int>, ties: seq<int>, order: seq<nat>, left: nat, total: nat)
    requires |floors| == |rs| == |ties| == |order| && left <= |rs| && total > 0
    requires Indices(order, |rs|) && SumAt(rs, order) == left * total && Ranked(order, rs, ties) && NoRepeats(order)
    requires forall i :: 0 <= i < |rs| ==> i in order
    requires forall i :: 0 <= i < |rs| ==> 0 <= rs[i] < total
    ensures RoundsFairly(HandOut(floors, order, left), floors, rs)
    ensures BreaksTies(HandOut(floors, order, left), floors, rs, ties)
  {
    var chosen := order[..left];
    forall i | 0 <= i < |rs| ensures HandOut(floors, order, left)[i] == floors[i] + if i in chosen then 1 else 0 {
      HandOutAt(floors, order, left, i);
    }
    forall i | 0 <= i < |rs| && i in chosen ensures rs[i] > 0 {
      var k :| 0 <= k < left && chosen[k] == i;
      TooFewRemainders(rs, ties, order, k, left, total);
    }
    forall i, j | 0 <= i < |rs| && 0 <= j < |rs| && i in chosen && j !in chosen ensures Before(rs, ties, i, j) {
      RewardedComeFirst(order, left, rs, ties, i, j);
    }
    BonusIsFair(HandOut(floors, order, left), floors, rs, ties, chosen);
  }

  /** The allocation with ties broken as said: Fair, and by the tie rule the only such one. */
  ghost predicate FairInOrder(shares: seq<int>, target: nat, weights: seq<nat>, ties: seq<int>)
    requires Sum(weights) > 0
  {
    && Fair(shares, target, weights)
    && BreaksTies(shares, Floors(target, weights, Sum(weights)), Remainders(target, weights, Sum(weights)), ties)
  }

  lemma AllocateIsFair(target: nat, weights: seq<nat>, ties: seq<int>)
    requires Sum(weights) > 0 && |ties| == |weights|
    ensures FairInOrder(Allocate(target, weights, ties), target, weights, ties)
  {
    var floors, rs := Floors(target, weights, Sum(weights)), Remainders(target, weights, Sum(weights));
    LeftoverBounds(target, weights);
    RankRanks(|rs|, rs, ties);
    RankMembers(|rs|, rs, ties);
    RankSum(|rs|, rs, ties);
    assert rs[..|rs|] == rs;
    HandOutIsFair(floors, rs, ties, Rank(|rs|, rs, ties), Leftover(target, weights, Sum(weights)), Sum(weights));
    HandOutSum(floors, Rank(|weights|, rs, ties), Leftover(target, weights, Sum(weights)));
  }

  lemma {:induction false} SumOrder(a: seq<int>, b: seq<int>)
    requires |a| == |b| && forall i :: 0 <= i < |a| ==> a[i] <= b[i]
    ensures Sum(a) <= Sum(b) && (Sum(a) == Sum(b) ==> a == b)
  {
    if a != [] {
      SumOrder(a[..|a| - 1], b[..|b| - 1]);
      assert a == a[..|a| - 1] + [a[|a| - 1]] && b == b[..|b| - 1] + [b[|b| - 1]];
    }
  }

  /** Exactness, fairness and the tie rule leave no choice. */
  lemma AllocationIsUnique(a: seq<int>, b: seq<int>, target: nat, weights: seq<nat>, ties: seq<int>)
    requires Sum(weights) > 0 && FairInOrder(a, target, weights, ties) && FairInOrder(b, target, weights, ties)
    ensures a == b
  {
    if i :| 0 <= i < |a| && a[i] > b[i] {
      if j :| 0 <= j < |a| && a[j] < b[j] {
        assert false;
      } else {
        SumOrder(b, a);
      }
    } else {
      SumOrder(a, b);
    }
  }

  lemma QuotientFits(f: int, r: nat, total: nat, w: nat)
    requires r < total && 0 <= f * total + r <= w * total
    ensures 0 <= f <= w && (r > 0 ==> f < w)
  {
  }

  lemma QuotaFits(w: nat, target: nat, total: nat)
    requires 0 < total && target <= total
    ensures 0 <= w * target / total <= w
    ensures w * target % total > 0 ==> w * target / total < w
  {
    var n := w * target;
    Scale(target, total, w);
    Scale(0, target, w);
    assert n / total * total + n % total == n;
    QuotientFits(n / total, n % total, total, w);
  }

  /** When no more is allocated than there is, no share exceeds its weight, and a zero weight gets nothing. */
  lemma SharesFitWeights(shares: seq<int>, target: nat, weights: seq<nat>)
    requires Sum(weights) > 0 && Fair(shares, target, weights) && target <= Sum(weights)
    ensures forall i :: 0 <= i < |shares| ==> 0 <= shares[i] <= weights[i]
  {
    forall i | 0 <= i < |shares| ensures 0 <= shares[i] <= weights[i] {
      QuotaFits(weights[i], target, Sum(weights));
    }
  }

  /** Two fair allocations of the same amount differ by at most one paisa on every line. */
  lemma FairAllocationsAreClose(a: seq<int>, b: seq<int>, target: nat, weights: seq<nat>)
    requires Sum(weights) > 0 && Fair(a, target, weights) && Fair(b, target, weights)
    ensures forall i :: 0 <= i < |weights| ==> -1 <= a[i] - b[i] <= 1
  {
  }
}
