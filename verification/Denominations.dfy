/**
 * Splitting amounts into fixed denominations: the greedy split of quoted prices, the minimum-coin
 * dynamic program, and the refund split that must meet its target exactly, fees included.
 */
module Denominations {
  import opened Options

  function Sum(s: seq<nat>): nat {
    if s == [] then 0 else Sum(s[..|s| - 1]) + s[|s| - 1]
  }

  lemma {:induction false} SumConcat(a: seq<nat>, b: seq<nat>)
    ensures Sum(a + b) == Sum(a) + Sum(b)
  {
    if b == [] {
      assert a + b == a;
    } else {
      SumConcat(a, b[..|b| - 1]);
      assert (a + b)[..|a + b| - 1] == a + b[..|b| - 1];
    }
  }

  predicate Within(s: seq<nat>, available: seq<nat>) {
    forall i :: 0 <= i < |s| ==> s[i] in available
  }

  /** Some multiset of the available values adds up to the amount. */
  ghost predicate Representable(amount: nat, available: seq<nat>) {
    exists s :: Within(s, available) && Sum(s) == amount
  }

  // ---------------------------------------------------------------- the greedy split

  /** Largest first, without repetition: what sorting and `dedup` leave. */
  predicate Descending(tiers: seq<nat>) {
    forall i, j :: 0 <= i < j < |tiers| ==> tiers[i] > tiers[j]
  }

  function Insert(x: nat, s: seq<nat>): (r: seq<nat>)
    requires Descending(s)
    ensures Descending(r) && (forall y :: y in r <==> y == x || y in s)
  {
    if s == [] || x > s[0] then [x] + s
    else if x == s[0] then s
    else
      assert Descending(s[1..]);
      var rest := Insert(x, s[1..]);
      assert forall i :: 0 <= i < |rest| ==> rest[i] in rest;
      assert s == [s[0]] + s[1..];
      [s[0]] + rest
  }

  function Sorted(s: seq<nat>): (r: seq<nat>)
    ensures Descending(r) && (forall y :: y in r <==> y in s)
  {
    if s == [] then []
    else
      assert s == s[..|s| - 1] + [s[|s| - 1]];
      Insert(s[|s| - 1], Sorted(s[..|s| - 1]))
  }

  /** One tier taken as often as it fits, and what that leaves. */
  function Copies(tier: nat, amount: nat): seq<nat> {
    if tier == 0 || tier > amount then [] else [tier] + Copies(tier, amount - tier)
  }

  function Left(tier: nat, amount: nat): nat {
    if tier == 0 || tier > amount then amount else Left(tier, amount - tier)
  }

  function Greedy(amount: nat, tiers: seq<nat>): seq<nat>
    decreases |tiers|
  {
    if tiers == [] then [] else Copies(tiers[0], amount) + Greedy(Left(tiers[0], amount), tiers[1..])
  }

  function GreedyLeft(amount: nat, tiers: seq<nat>): nat
    decreases |tiers|
  {
    if tiers == [] then amount else GreedyLeft(Left(tiers[0], amount), tiers[1..])
  }

  method TakeTier(tier: nat, amount: nat, before: seq<nat>) returns (selected: seq<nat>, remaining: nat)
    ensures selected == before + Copies(tier, amount) && remaining == Left(tier, amount)
  {
    selected, remaining := before, amount;
    while tier != 0 && tier <= remaining
      invariant selected + Copies(tier, remaining) == before + Copies(tier, amount)
      invariant Left(tier, remaining) == Left(tier, amount)
      decreases remaining
    {
      assert selected + ([tier] + Copies(tier, remaining - tier))
          == (selected + [tier]) + Copies(tier, remaining - tier);
      selected := selected + [tier];
      remaining := remaining - tier;
    }
    assert selected + [] == selected;
  }

  /** `quote_denominations`. */
  method QuoteDenominations(price: nat, available: seq<nat>) returns (r: Option<seq<nat>>)
    ensures r == Quoted(price, available)
  {
    var tiers := Sorted(available);
    var remaining := price;
    var selected: seq<nat> := [];
    var k := 0;
    while k < |tiers|
      invariant 0 <= k <= |tiers|
      invariant selected + Greedy(remaining, tiers[k..]) == Greedy(price, tiers)
      invariant GreedyLeft(remaining, tiers[k..]) == GreedyLeft(price, tiers)
    {
      ghost var rest := Greedy(Left(tiers[k], remaining), tiers[k + 1..]);
      assert tiers[k..][1..] == tiers[k + 1..];
      assert selected + (Copies(tiers[k], remaining) + rest) == (selected + Copies(tiers[k], remaining)) + rest;
      selected, remaining := TakeTier(tiers[k], remaining, selected);
      k := k + 1;
    }
    assert selected + [] == selected;
    r := if remaining != 0 then None else Some(selected);
  }

  function Quoted(price: nat, available: seq<nat>): Option<seq<nat>> {
    if GreedyLeft(price, Sorted(available)) == 0 then Some(Greedy(price, Sorted(available))) else None
  }

  lemma {:induction false} CopiesAddUp(tier: nat, amount: nat)
    ensures Sum(Copies(tier, amount)) + Left(tier, amount) == amount
    ensures forall i :: 0 <= i < |Copies(tier, amount)| ==> Copies(tier, amount)[i] == tier
    ensures tier > 0 ==> Left(tier, amount) < tier && Left(tier, amount) % tier == amount % tier
    decreases amount
  {
    if tier != 0 && tier <= amount {
      CopiesAddUp(tier, amount - tier);
      SumConcat([tier], Copies(tier, amount - tier));
      assert Sum([tier]) == tier;
      AddMultiple(amount - tier, 1, tier);
    }
  }

  lemma {:induction false} GreedyAddsUp(amount: nat, tiers: seq<nat>)
    ensures Sum(Greedy(amount, tiers)) + GreedyLeft(amount, tiers) == amount
    ensures Within(Greedy(amount, tiers), tiers)
    decreases |tiers|
  {
    if tiers != [] {
      CopiesAddUp(tiers[0], amount);
      var left := Left(tiers[0], amount);
      GreedyAddsUp(left, tiers[1..]);
      SumConcat(Copies(tiers[0], amount), Greedy(left, tiers[1..]));
      forall i | 0 <= i < |Greedy(amount, tiers)| ensures Greedy(amount, tiers)[i] in tiers {
        if i >= |Copies(tiers[0], amount)| {
          assert Greedy(amount, tiers)[i] == Greedy(left, tiers[1..])[i - |Copies(tiers[0], amount)|];
          assert Greedy(amount, tiers)[i] in tiers[1..];
        }
      }
    }
  }

  /** A quoted breakdown is exact and uses only available denominations. */
  lemma QuotedIsExact(price: nat, available: seq<nat>)
    ensures Quoted(price, available).Some? ==>
              Sum(Quoted(price, available).value) == price && Within(Quoted(price, available).value, available)
  {
    GreedyAddsUp(price, Sorted(available));
  }

  // ---------------------------------------------------------------- when greedy is enough

  lemma BigMultiple(d: int, x: int)
    requires d > 0 && x != 0
    ensures d * x >= d || d * x <= -d
  {
  }

  lemma AddMultiple(n: nat, q: nat, d: nat)
    requires d > 0
    ensures (n + q * d) % d == n % d
  {
    var m := n + q * d;
    assert m == d * (m / d) + m % d && n == d * (n / d) + n % d;
    if m / d != n / d + q {
      BigMultiple(d, m / d - n / d - q);
    }
  }

  lemma AddMultipleOf(n: nat, m: nat, d: nat)
    requires d > 0 && m % d == 0
    ensures (n + m) % d == n % d
  {
    assert m == (m / d) * d;
    AddMultiple(n, m / d, d);
  }

  lemma {:induction false} SumOfMultiples(s: seq<nat>, d: nat)
    requires d > 0 && forall i :: 0 <= i < |s| ==> s[i] % d == 0
    ensures Sum(s) % d == 0
  {
    if s != [] {
      var last := s[|s| - 1];
      SumOfMultiples(s[..|s| - 1], d);
      AddMultipleOf(Sum(s[..|s| - 1]), last, d);
    }
  }

  lemma {:induction false} LeftKeepsRemainder(tier: nat, amount: nat, d: nat)
    requires d > 0 && tier % d == 0
    ensures Left(tier, amount) % d == amount % d
    decreases amount
  {
    if tier != 0 && tier <= amount {
      LeftKeepsRemainder(tier, amount - tier, d);
      AddMultipleOf(amount - tier, tier, d);
    }
  }

  lemma SmallRemainder(n: nat, d: nat)
    requires n < d
    ensures n % d == n
  {
  }

  /** `d` is a positive tier of which every tier is a multiple. */
  predicate DividesAll(d: nat, available: seq<nat>) {
    d in available && d > 0 && forall i :: 0 <= i < |available| ==> available[i] % d == 0
  }

  /** One tier divides every tier, as the smallest power of two of mint v2 does; or all are zero, and skipped. */
  ghost predicate OneDividesAll(available: seq<nat>) {
    (forall i :: 0 <= i < |available| ==> available[i] == 0) || exists d :: DividesAll(d, available)
  }

  lemma {:induction false} LeftWithin(tier: nat, amount: nat)
    ensures Left(tier, amount) <= amount
    ensures tier > 0 ==> Left(tier, amount) < tier
    decreases amount
  {
    if tier != 0 && tier <= amount {
      LeftWithin(tier, amount - tier);
    }
  }

  /** What greedy leaves is too small for every tier. */
  lemma {:induction false} GreedyLeavesLess(amount: nat, tiers: seq<nat>)
    ensures GreedyLeft(amount, tiers) <= amount
    ensures forall i :: 0 <= i < |tiers| && tiers[i] > 0 ==> GreedyLeft(amount, tiers) < tiers[i]
    decreases |tiers|
  {
    if tiers != [] {
      LeftWithin(tiers[0], amount);
      GreedyLeavesLess(Left(tiers[0], amount), tiers[1..]);
      assert forall i :: 0 < i < |tiers| ==> tiers[i] == tiers[1..][i - 1];
    }
  }

  lemma {:induction false} GreedyKeepsRemainder(amount: nat, tiers: seq<nat>, d: nat)
    requires d > 0 && forall i :: 0 <= i < |tiers| ==> tiers[i] % d == 0
    ensures GreedyLeft(amount, tiers) % d == amount % d
    decreases |tiers|
  {
    if tiers != [] {
      LeftKeepsRemainder(tiers[0], amount, d);
      GreedyKeepsRemainder(Left(tiers[0], amount), tiers[1..], d);
    }
  }

  /** An amount below every tier stays as it is. */
  lemma {:induction false} GreedyIsStuck(amount: nat, tiers: seq<nat>)
    requires forall i :: 0 <= i < |tiers| ==> tiers[i] == 0 || tiers[i] > amount
    ensures GreedyLeft(amount, tiers) == amount
    decreases |tiers|
  {
    if tiers != [] {
      GreedyIsStuck(amount, tiers[1..]);
    }
  }

  lemma {:induction false} SumOfZeros(s: seq<nat>)
    requires forall i :: 0 <= i < |s| ==> s[i] == 0
    ensures Sum(s) == 0
  {
    if s != [] {
      SumOfZeros(s[..|s| - 1]);
    }
  }

  /** With a tier that divides all, a price is refused exactly when nothing could represent it. */
  lemma QuotedWhenOneDivides(price: nat, available: seq<nat>)
    requires OneDividesAll(available)
    ensures Quoted(price, available).Some? <==> Representable(price, available)
  {
    var tiers := Sorted(available);
    assert forall i :: 0 <= i < |tiers| ==> tiers[i] in available;
    QuotedIsExact(price, available);
    GreedyLeavesLess(price, tiers);
    if Representable(price, available) {
      var s :| Within(s, available) && Sum(s) == price;
      if exists d :: DividesAll(d, available) {
        var d :| DividesAll(d, available);
        assert d in tiers;
        GreedyKeepsRemainder(price, tiers, d);
        SumOfMultiples(s, d);
        SmallRemainder(GreedyLeft(price, tiers), d);
      } else {
        SumOfZeros(s);
      }
    }
  }

  lemma {:induction false} SmallestPositive(available: seq<nat>) returns (m: nat)
    requires exists i :: 0 <= i < |available| && available[i] > 0
    ensures m in available && m > 0
    ensures forall i :: 0 <= i < |available| && available[i] > 0 ==> m <= available[i]
    decreases |available|
  {
    var last := |available| - 1;
    var rest := available[..last];
    if i :| 0 <= i < |rest| && rest[i] > 0 {
      m := SmallestPositive(rest);
      if 0 < available[last] < m {
        m := available[last];
      }
      assert forall i :: 0 <= i < last ==> available[i] == rest[i];
    } else {
      m := available[last];
      assert forall i :: 0 <= i < last ==> available[i] == rest[i];
    }
  }

  /** A multiple of the tier is made up of its copies. */
  lemma CopiesMakeMultiple(tier: nat, amount: nat)
    requires tier > 0 && amount % tier == 0
    ensures Sum(Copies(tier, amount)) == amount
  {
    CopiesAddUp(tier, amount);
    SmallRemainder(Left(tier, amount), tier);
  }

  /** `first`, and then `amount` in copies of the tier. */
  lemma CopiesRepresent(first: seq<nat>, tier: nat, amount: nat, available: seq<nat>)
    requires Within(first, available) && tier in available && tier > 0 && amount % tier == 0
    ensures Representable(Sum(first) + amount, available)
  {
    hide Sum;
    hide Copies;
    var s := Copies(tier, amount);
    CopiesAddUp(tier, amount);
    CopiesMakeMultiple(tier, amount);
    SumConcat(first, s);
    assert Within(first + s, available);
  }

  lemma RemainderOfDifference(a: nat, b: nat, d: nat)
    requires d > 0 && b <= a && a % d == 0 && (a - b) % d == 0
    ensures b % d == 0
  {
    AddMultipleOf(b, a - b, d);
  }

  /** Just above the largest tier, greedy takes that one and is left with less than the smallest. */
  lemma GreedyMissesAbove(tiers: seq<nat>, least: nat, extra: nat)
    requires tiers != [] && tiers[0] >= least && 0 < extra < least
    requires forall i :: 0 <= i < |tiers| ==> tiers[i] == 0 || least <= tiers[i]
    ensures GreedyLeft(tiers[0] + extra, tiers) == extra
  {
    assert Left(tiers[0], tiers[0] + extra) == Left(tiers[0], extra) == extra;
    GreedyIsStuck(extra, tiers[1..]);
  }

  lemma QuoteMissesAbove(available: seq<nat>, least: nat, extra: nat)
    requires least in available && 0 < extra < least
    requires forall i :: 0 <= i < |available| && available[i] > 0 ==> least <= available[i]
    ensures Sorted(available) != [] && Quoted(Sorted(available)[0] + extra, available).None?
  {
    hide Sorted;
    hide GreedyLeft;
    hide Greedy;
    var tiers := Sorted(available);
    assert least in tiers;
    assert forall i :: 0 <= i < |tiers| ==> tiers[i] in available;
    GreedyMissesAbove(tiers, least, extra);
  }

  /** Climbing from `base` in steps of `m` first passes `top` by less than a step. */
  lemma FirstAbove(top: nat, base: nat, m: nat) returns (climb: nat, extra: nat)
    requires m > 0 && base <= top && (top - base) % m != 0
    ensures base + climb == top + extra && 0 < extra < m && climb % m == 0
  {
    var rest := top - base;
    extra := m - rest % m;
    climb := rest + extra;
    assert rest == (rest / m) * m + rest % m;
    assert climb == 0 + (rest / m + 1) * m;
    AddMultiple(0, rest / m + 1, m);
  }

  /** Without one, some representable price is refused. */
  lemma SomePriceIsMissed(available: seq<nat>) returns (price: nat)
    requires !OneDividesAll(available)
    ensures Quoted(price, available).None? && Representable(price, available)
  {
    hide Sorted;
    hide Quoted;
    hide Representable;
    var m := SmallestPositive(available);
    assert !DividesAll(m, available);
    var i :| 0 <= i < |available| && available[i] % m != 0;
    var t := available[i];
    assert t in Sorted(available) && m in Sorted(available);
    var largest := Sorted(available)[0];
    assert t <= largest;
    var first: seq<nat> := if largest % m != 0 then [] else [t];
    assert Sum(first) == if largest % m != 0 then 0 else t by {
      assert [t][..0] == [];
    }
    if largest % m == 0 && (largest - t) % m == 0 {
      RemainderOfDifference(largest, t, m);
    }
    var climb, extra := FirstAbove(largest, Sum(first), m);
    price := largest + extra;
    QuoteMissesAbove(available, m, extra);
    CopiesRepresent(first, m, climb, available);
  }

  /** Greedy answers rightly for every price exactly when one tier divides all. */
  lemma QuotedIffRepresentable(available: seq<nat>)
    ensures (forall price :: Quoted(price, available).Some? <==> Representable(price, available))
            <==> OneDividesAll(available)
  {
    if OneDividesAll(available) {
      forall price ensures Quoted(price, available).Some? <==> Representable(price, available) {
        QuotedWhenOneDivides(price, available);
      }
    } else {
      var price := SomePriceIsMissed(available);
    }
  }

  /** On other tiers it can refuse a price that three plus three would meet. */
  lemma GreedyCanMiss()
    ensures Quoted(6, [3, 4]).None? && Representable(6, [3, 4])
  {
    assert Sorted([3]) == [3] by { assert [3][..0] == []; }
    assert [3, 4][..1] == [3];
    assert Sorted([3, 4]) == Insert(4, [3]) == [4, 3];
    assert [4, 3][1..] == [3] && [3][1..] == [];
    assert Left(4, 6) == 2 && Left(3, 2) == 2;
    assert GreedyLeft(6, [4, 3]) == GreedyLeft(2, [3]) == GreedyLeft(2, []) == 2;
    assert Sum([3, 3]) == 6 by { assert [3, 3][..1] == [3]; }
    assert Within([3, 3], [3, 4]);
  }

  // ---------------------------------------------------------------- the minimum-coin program

  const INFINITE := -1

  /** Fewest coins for a value, trying the first `k` coins for the last one; -1 when impossible. */
  function Fewest(costs: seq<nat>, k: nat, value: nat): (n: int)
    requires k <= |costs|
    ensures n >= -1
    decreases value, k
  {
    if value == 0 then 0
    else if k == 0 then INFINITE
    else
      var best := Fewest(costs, k - 1, value);
      var cost := costs[k - 1];
      if cost == 0 || cost > value then best
      else
        var rest := Fewest(costs, |costs|, value - cost);
        if rest == INFINITE || (best != INFINITE && best <= rest + 1) then best else rest + 1
  }

  function Optimum(costs: seq<nat>, value: nat): (n: int)
    ensures n >= -1
  {
    Fewest(costs, |costs|, value)
  }

  lemma {:induction false} FewestTries(costs: seq<nat>, k: nat, j: nat, value: nat)
    requires j < k <= |costs| && 0 < costs[j] <= value && Optimum(costs, value - costs[j]) != INFINITE
    ensures Fewest(costs, k, value) != INFINITE
    ensures Fewest(costs, k, value) <= Optimum(costs, value - costs[j]) + 1
    decreases k
  {
    if j < k - 1 {
      FewestTries(costs, k - 1, j, value);
    }
  }

  /** No way of making up a value uses fewer coins. */
  lemma {:induction false} OptimumIsLeast(costs: seq<nat>, s: seq<nat>)
    requires Within(s, costs)
    ensures Optimum(costs, Sum(s)) != INFINITE && Optimum(costs, Sum(s)) <= |s|
    decreases |s|
  {
    if s != [] {
      var front, last := s[..|s| - 1], s[|s| - 1];
      OptimumIsLeast(costs, front);
      assert s[|s| - 1] in costs;
      var j :| 0 <= j < |costs| && costs[j] == last;
      if last > 0 {
        FewestTries(costs, |costs|, j, Sum(s));
      }
    }
  }

  /** The costs of a list of coin indices. */
  function Picked(costs: seq<nat>, picks: seq<nat>): seq<nat>
    requires forall i :: 0 <= i < |picks| ==> picks[i] < |costs|
  {
    seq(|picks|, i requires 0 <= i < |picks| => costs[picks[i]])
  }

  lemma {:induction false} OptimumIsMade(costs: seq<nat>, k: nat, value: nat) returns (s: seq<nat>)
    requires k <= |costs| && Fewest(costs, k, value) != INFINITE
    ensures Within(s, costs) && Sum(s) == value && |s| == Fewest(costs, k, value)
    decreases value, k
  {
    if value == 0 {
      s := [];
    } else {
      var best := Fewest(costs, k - 1, value);
      if best == Fewest(costs, k, value) {
        s := OptimumIsMade(costs, k - 1, value);
      } else {
        var front := OptimumIsMade(costs, |costs|, value - costs[k - 1]);
        s := front + [costs[k - 1]];
        assert s[..|front|] == front;
      }
    }
  }

  lemma OptimumMeans(costs: seq<nat>, target: nat)
    ensures Optimum(costs, target) != INFINITE <==> Representable(target, costs)
  {
    if Optimum(costs, target) != INFINITE {
      var s := OptimumIsMade(costs, |costs|, target);
    }
    if Representable(target, costs) {
      var s :| Within(s, costs) && Sum(s) == target;
      OptimumIsLeast(costs, s);
    }
  }

  /** A table entry names a coin that leads to a value one coin cheaper. */
  ghost predicate Follows(costs: seq<nat>, value: nat, step: (nat, nat), count: int) {
    && step.1 < |costs| && 0 < costs[step.1] <= value && step.0 == value - costs[step.1]
    && Optimum(costs, step.0) == count - 1 && count >= 1
  }

  /** The two tables are right for every value below `upTo` and still blank from there on. */
  ghost predicate Filled(costs: seq<nat>, counts: array<int>, previous: array<(nat, nat)>, upTo: nat)
    reads counts, previous
  {
    && counts.Length == previous.Length && upTo <= counts.Length
    && (forall v :: 0 <= v < upTo ==> counts[v] == Optimum(costs, v))
    && (forall v :: upTo <= v < counts.Length ==> counts[v] == INFINITE)
    && (forall v :: 0 < v < upTo && counts[v] != INFINITE ==> Follows(costs, v, previous[v], counts[v]))
  }

  lemma FewestOfNone(costs: seq<nat>, value: nat)
    requires 0 < value
    ensures Fewest(costs, 0, value) == INFINITE
  {
  }

  lemma FewestWithOneMore(costs: seq<nat>, k: nat, value: nat)
    requires k < |costs| && 0 < value
    ensures var best, cost, next := Fewest(costs, k, value), costs[k], k + 1;
      Fewest(costs, next, value) ==
      if cost == 0 || cost > value || Optimum(costs, value - cost) == INFINITE
         || (best != INFINITE && best <= Optimum(costs, value - cost) + 1) then best
      else Optimum(costs, value - cost) + 1
  {
  }

  /** One value's row: every coin is tried as the last one. */
  method FillValue(costs: seq<nat>, counts: array<int>, previous: array<(nat, nat)>, value: nat)
    requires 0 < value < counts.Length && Filled(costs, counts, previous, value)
    modifies counts, previous
    ensures Filled(costs, counts, previous, value + 1)
  {
    hide Fewest;
    FewestOfNone(costs, value);
    var k := 0;
    while k < |costs|
      invariant 0 <= k <= |costs|
      invariant forall v :: 0 <= v < counts.Length && v != value ==>
                  counts[v] == old(counts[v]) && previous[v] == old(previous[v])
      invariant counts[value] == Fewest(costs, k, value)
      invariant counts[value] != INFINITE ==> Follows(costs, value, previous[value], counts[value])
    {
      var cost := costs[k];
      FewestWithOneMore(costs, k, value);
      if cost <= value && counts[value - cost] != INFINITE {
        var candidate := counts[value - cost] + 1;
        if counts[value] == INFINITE || candidate < counts[value] {
          counts[value] := candidate;
          previous[value] := (value - cost, k);
        }
      }
      k := k + 1;
    }
  }

  /** Following the table back from the target. */
  method ReadBack(costs: seq<nat>, counts: array<int>, previous: array<(nat, nat)>, target: nat) returns (result: seq<nat>)
    requires target + 1 == counts.Length && Filled(costs, counts, previous, target + 1) && counts[target] != INFINITE
    ensures forall i :: 0 <= i < |result| ==> result[i] < |costs|
    ensures Sum(Picked(costs, result)) == target && |result| == Optimum(costs, target)
  {
    result := [];
    var rest := target;
    while rest != 0
      invariant 0 <= rest <= target && counts[rest] != INFINITE
      invariant forall i :: 0 <= i < |result| ==> result[i] < |costs|
      invariant Sum(Picked(costs, result)) + rest == target
      invariant |result| + counts[rest] == counts[target]
      decreases rest
    {
      assert Follows(costs, rest, previous[rest], counts[rest]);
      var (prior, k) := previous[rest];
      assert Picked(costs, result + [k])[..|result|] == Picked(costs, result);
      result := result + [k];
      rest := prior;
    }
  }

  /**
   * `minimum_coin_representation`, by coin index: a smallest way of making up the target, or `None`
   * when there is none. `counts` and `previous` are the tables it fills bottom up.
   */
  method MinimumCoins(costs: seq<nat>, target: nat) returns (r: Option<seq<nat>>)
    ensures r.Some? <==> Representable(target, costs)
    ensures r.Some? ==> (forall i :: 0 <= i < |r.value| ==> r.value[i] < |costs|) && Sum(Picked(costs, r.value)) == target
    ensures r.Some? ==> forall s :: Within(s, costs) && Sum(s) == target ==> |r.value| <= |s|
  {
    var counts := new int[target + 1](_ => INFINITE);
    var previous := new (nat, nat)[target + 1](_ => (0, 0));
    counts[0] := 0;
    var value := 1;
    while value <= target
      invariant 1 <= value <= target + 1 && Filled(costs, counts, previous, value)
    {
      FillValue(costs, counts, previous, value);
      value := value + 1;
    }
    OptimumMeans(costs, target);
    if counts[target] == INFINITE {
      return None;
    }
    var result := ReadBack(costs, counts, previous, target);
    forall s | Within(s, costs) && Sum(s) == target ensures |result| <= |s| {
      OptimumIsLeast(costs, s);
    }
    return Some(result);
  }

  // ---------------------------------------------------------------- refunds

  const MAX_U64: nat := 0xFFFF_FFFF_FFFF_FFFF
  const REPAIR_LIMIT: nat := 1_000_000

  /** A denomination and what issuing one note of it costs, its output fee included. */
  datatype Coin = Coin(amount: nat, cost: nat)

  /** Sorting by cost and then amount, largest first, and keeping one coin per cost. */
  function InsertCoin(c: Coin, coins: seq<Coin>): seq<Coin> {
    if coins == [] || c.cost > coins[0].cost then [c] + coins
    else if c.cost == coins[0].cost then (if c.amount > coins[0].amount then [c] + coins[1..] else coins)
    else [coins[0]] + InsertCoin(c, coins[1..])
  }

  function CoinsOf(available: seq<nat>, fee: nat -> nat): seq<Coin> {
    if available == [] then []
    else
      var amount := available[|available| - 1];
      var rest := CoinsOf(available[..|available| - 1], fee);
      var cost := amount + fee(amount);
      if cost == 0 || cost > MAX_U64 then rest else InsertCoin(Coin(amount, cost), rest)
  }

  function CostsOf(coins: seq<Coin>): seq<nat> {
    seq(|coins|, i requires 0 <= i < |coins| => coins[i].cost)
  }

  function SumCosts(coins: seq<Coin>): nat {
    if coins == [] then 0 else SumCosts(coins[..|coins| - 1]) + coins[|coins| - 1].cost
  }

  /** The notes of a refund, and what they cost the transaction. */
  function IssueCost(amounts: seq<nat>, fee: nat -> nat): nat {
    if amounts == [] then 0
    else IssueCost(amounts[..|amounts| - 1], fee) + amounts[|amounts| - 1] + fee(amounts[|amounts| - 1])
  }

  predicate AreCoins(coins: seq<Coin>, available: seq<nat>, fee: nat -> nat) {
    forall i :: 0 <= i < |coins| ==>
      coins[i].amount in available && coins[i].cost == coins[i].amount + fee(coins[i].amount) && coins[i].cost > 0
  }

  function CostSet(coins: seq<Coin>): set<nat> {
    if coins == [] then {} else {coins[0].cost} + CostSet(coins[1..])
  }

  lemma {:induction false} InsertCoinKeeps(c: Coin, coins: seq<Coin>, available: seq<nat>, fee: nat -> nat)
    requires AreCoins(coins, available, fee) && AreCoins([c], available, fee)
    ensures AreCoins(InsertCoin(c, coins), available, fee)
    ensures CostSet(InsertCoin(c, coins)) == CostSet(coins) + {c.cost}
  {
    assert AreCoins([c], available, fee) ==> [c][0] == c;
    if coins == [] || c.cost > coins[0].cost {
      assert ([c] + coins)[1..] == coins;
    } else if c.cost == coins[0].cost {
      assert ([c] + coins[1..])[1..] == coins[1..];
    } else {
      InsertCoinKeeps(c, coins[1..], available, fee);
      assert ([coins[0]] + InsertCoin(c, coins[1..]))[1..] == InsertCoin(c, coins[1..]);
    }
  }

  /** Every coin comes from an available amount. */
  lemma {:induction false} CoinsAreAvailable(some: seq<nat>, available: seq<nat>, fee: nat -> nat)
    requires Within(some, available)
    ensures AreCoins(CoinsOf(some, fee), available, fee)
  {
    if some != [] {
      var amount := some[|some| - 1];
      CoinsAreAvailable(some[..|some| - 1], available, fee);
      var c := Coin(amount, amount + fee(amount));
      if 0 < c.cost <= MAX_U64 {
        assert amount in available;
        InsertCoinKeeps(c, CoinsOf(some[..|some| - 1], fee), available, fee);
      }
    }
  }

  /** Every positive cost is offered by some coin. */
  lemma {:induction false} CoinsCover(available: seq<nat>, fee: nat -> nat, k: nat)
    requires k < |available| && 0 < available[k] + fee(available[k]) <= MAX_U64
    ensures available[k] + fee(available[k]) in CostSet(CoinsOf(available, fee))
  {
    var front, amount := available[..|available| - 1], available[|available| - 1];
    if k < |available| - 1 {
      CoinsCover(front, fee, k);
    }
    CoinsAreAvailable(front, available, fee);
    var c := Coin(amount, amount + fee(amount));
    if 0 < c.cost <= MAX_U64 {
      assert amount in available;
      InsertCoinKeeps(c, CoinsOf(front, fee), available, fee);
    }
  }

  lemma {:induction false} CostSetIsCosts(coins: seq<Coin>, cost: nat)
    requires cost in CostSet(coins)
    ensures cost in CostsOf(coins)
  {
    if coins[0].cost == cost {
      assert CostsOf(coins)[0] == cost;
    } else {
      CostSetIsCosts(coins[1..], cost);
      assert CostsOf(coins)[1..] == CostsOf(coins[1..]);
    }
  }

  /** Whatever notes meet the target, the coins can meet it too. */
  lemma {:induction false} CoinsSuffice(amounts: seq<nat>, available: seq<nat>, fee: nat -> nat)
    requires Within(amounts, available) && IssueCost(amounts, fee) <= MAX_U64
    ensures Representable(IssueCost(amounts, fee), CostsOf(CoinsOf(available, fee)))
  {
    var costs := CostsOf(CoinsOf(available, fee));
    if amounts == [] {
      assert Within([], costs) && Sum([]) == 0;
    } else {
      var front, last := amounts[..|amounts| - 1], amounts[|amounts| - 1];
      CoinsSuffice(front, available, fee);
      var s: seq<nat> :| Within(s, costs) && Sum(s) == IssueCost(front, fee);
      assert last in available;
      var k :| 0 <= k < |available| && available[k] == last;
      if last + fee(last) > 0 {
        CoinsCover(available, fee, k);
        CostSetIsCosts(CoinsOf(available, fee), last + fee(last));
        var t: seq<nat> := s + [last + fee(last)];
        assert t[..|s|] == s;
        assert Within(t, costs);
      }
    }
  }

  lemma {:induction false} SumCostsConcat(a: seq<Coin>, b: seq<Coin>)
    ensures SumCosts(a + b) == SumCosts(a) + SumCosts(b)
  {
    if b == [] {
      assert a + b == a;
    } else {
      SumCostsConcat(a, b[..|b| - 1]);
      assert (a + b)[..|a + b| - 1] == a + b[..|b| - 1];
    }
  }

  // ---------------------------------------------------------------- the refund split

  function Amounts(coins: seq<Coin>): seq<nat> {
    seq(|coins|, i requires 0 <= i < |coins| => coins[i].amount)
  }

  lemma {:induction false} AmountsCost(coins: seq<Coin>, available: seq<nat>, fee: nat -> nat)
    requires AreCoins(coins, available, fee)
    ensures IssueCost(Amounts(coins), fee) == SumCosts(coins) && Within(Amounts(coins), available)
  {
    if coins != [] {
      AmountsCost(coins[..|coins| - 1], available, fee);
      assert Amounts(coins)[..|coins| - 1] == Amounts(coins[..|coins| - 1]);
    }
  }

  /** Largest notes first; equal ones are kept. */
  function InsertAmount(x: nat, s: seq<nat>): seq<nat> {
    if s == [] || x >= s[0] then [x] + s else [s[0]] + InsertAmount(x, s[1..])
  }

  function SortAmounts(s: seq<nat>): seq<nat> {
    if s == [] then [] else InsertAmount(s[|s| - 1], SortAmounts(s[..|s| - 1]))
  }

  /** Coins `picks` of the list. */
  function Coins(coins: seq<Coin>, picks: seq<nat>): seq<Coin>
    requires forall i :: 0 <= i < |picks| ==> picks[i] < |coins|
  {
    seq(|picks|, i requires 0 <= i < |picks| => coins[picks[i]])
  }

  lemma {:induction false} CoinsCost(coins: seq<Coin>, picks: seq<nat>)
    requires forall i :: 0 <= i < |picks| ==> picks[i] < |coins|
    ensures SumCosts(Coins(coins, picks)) == Sum(Picked(CostsOf(coins), picks))
  {
    if picks != [] {
      var front := picks[..|picks| - 1];
      CoinsCost(coins, front);
      assert Coins(coins, picks)[..|picks| - 1] == Coins(coins, front);
      assert Picked(CostsOf(coins), picks)[..|picks| - 1] == Picked(CostsOf(coins), front);
    }
  }

  lemma {:induction false} SumOfCopies(tier: nat, amount: nat)
    requires tier > 0
    ensures Sum(Copies(tier, amount)) == tier * |Copies(tier, amount)|
    decreases amount
  {
    if tier <= amount {
      SumOfCopies(tier, amount - tier);
      SumConcat([tier], Copies(tier, amount - tier));
      assert Sum([tier]) == tier;
      var rest := |Copies(tier, amount - tier)|;
      assert tier * (rest + 1) == tier * rest + tier;
    }
  }

  lemma DivisionIsUnique(amount: nat, tier: nat, q: nat, left: nat)
    requires tier > 0 && amount == tier * q + left && left < tier
    ensures amount / tier == q && amount % tier == left
  {
    assert amount == left + q * tier;
    AddMultiple(left, q, tier);
    SmallRemainder(left, tier);
    assert amount == tier * (amount / tier) + amount % tier;
    if amount / tier != q {
      BigMultiple(tier, amount / tier - q);
    }
  }

  /** Taking a tier as often as it fits is a division. */
  lemma CopiesDivide(tier: nat, amount: nat)
    requires tier > 0
    ensures |Copies(tier, amount)| == amount / tier && Left(tier, amount) == amount % tier
  {
    CopiesAddUp(tier, amount);
    SumOfCopies(tier, amount);
    DivisionIsUnique(amount, tier, |Copies(tier, amount)|, Left(tier, amount));
  }

  method TakeCoin(coin: Coin, amount: nat, before: seq<Coin>, ghost available: seq<nat>, ghost fee: nat -> nat)
    returns (selected: seq<Coin>, left: nat)
    requires AreCoins(before, available, fee) && AreCoins([coin], available, fee)
    ensures AreCoins(selected, available, fee)
    ensures CostsOf(selected) == CostsOf(before) + Copies(coin.cost, amount) && left == Left(coin.cost, amount)
  {
    assert [coin][0] == coin;
    var count := amount / coin.cost;
    left := amount % coin.cost;
    selected := before;
    var n := 0;
    while n < count
      invariant 0 <= n <= count && AreCoins(selected, available, fee)
      invariant |selected| == |before| + n && selected[..|before|] == before
      invariant forall i :: |before| <= i < |selected| ==> selected[i] == coin
    {
      selected := selected + [coin];
      n := n + 1;
    }
    CopiesDivide(coin.cost, amount);
    CopiesAddUp(coin.cost, amount);
    assert forall i :: 0 <= i < |before| ==> selected[i] == selected[..|before|][i];
  }

  /** Taking as many of each coin as fit, largest cost first: the greedy split of the target by cost. */
  method TakeLargest(coins: seq<Coin>, target: nat, ghost available: seq<nat>, ghost fee: nat -> nat)
    returns (selected: seq<Coin>, remainder: nat)
    requires AreCoins(coins, available, fee)
    ensures AreCoins(selected, available, fee)
    ensures CostsOf(selected) == Greedy(target, CostsOf(coins)) && remainder == GreedyLeft(target, CostsOf(coins))
  {
    hide Copies;
    hide Left;
    selected, remainder := [], target;
    ghost var costs := CostsOf(coins);
    var k := 0;
    assert costs[0..] == costs && CostsOf([]) == [];
    while k < |coins|
      invariant 0 <= k <= |coins| && AreCoins(selected, available, fee)
      invariant CostsOf(selected) + Greedy(remainder, costs[k..]) == Greedy(target, costs)
      invariant GreedyLeft(remainder, costs[k..]) == GreedyLeft(target, costs)
    {
      ghost var cost, before := coins[k].cost, CostsOf(selected);
      ghost var rest := Greedy(Left(cost, remainder), costs[k + 1..]);
      assert costs[k..][0] == cost && costs[k..][1..] == costs[k + 1..];
      assert before + (Copies(cost, remainder) + rest) == (before + Copies(cost, remainder)) + rest;
      selected, remainder := TakeCoin(coins[k], remainder, selected, available, fee);
      k := k + 1;
    }
    assert CostsOf(selected) + [] == CostsOf(selected);
  }

  /** The first `kept` notes of the greedy split leave at most the limit, and that can be made up. */
  ghost predicate RepairsAt(target: nat, costs: seq<nat>, kept: nat) {
    && kept <= |Greedy(target, costs)| && target - Sum(Greedy(target, costs)[..kept]) <= REPAIR_LIMIT
    && exists rest: nat :: rest == target - Sum(Greedy(target, costs)[..kept]) && Representable(rest, costs)
  }

  ghost predicate Repairable(target: nat, costs: seq<nat>) {
    exists kept :: RepairsAt(target, costs, kept)
  }

  lemma {:induction false} PrefixSums(s: seq<nat>, i: nat, j: nat)
    requires i <= j <= |s|
    ensures Sum(s[..i]) <= Sum(s[..j])
    decreases j
  {
    if i < j {
      PrefixSums(s, i, j - 1);
      assert s[..j][..j - 1] == s[..j - 1];
    }
  }

  /** Keeping fewer notes leaves more to make up. */
  lemma TooMuchLeft(target: nat, costs: seq<nat>, kept: nat)
    requires kept <= |Greedy(target, costs)| && target - Sum(Greedy(target, costs)[..kept]) > REPAIR_LIMIT
    ensures forall k :: 0 <= k <= kept ==> !RepairsAt(target, costs, k)
  {
    forall k | 0 <= k <= kept ensures !RepairsAt(target, costs, k) {
      PrefixSums(Greedy(target, costs), k, kept);
    }
  }

  lemma {:induction false} CostsAddUp(coins: seq<Coin>)
    ensures Sum(CostsOf(coins)) == SumCosts(coins)
  {
    if coins != [] {
      CostsAddUp(coins[..|coins| - 1]);
      assert CostsOf(coins)[..|coins| - 1] == CostsOf(coins[..|coins| - 1]);
    }
  }

  /** The notes of a successful repair, in the order they are returned. */
  lemma RepairedNotes(selected: seq<Coin>, repair: seq<Coin>, target: nat, available: seq<nat>, fee: nat -> nat)
    requires AreCoins(selected + repair, available, fee) && SumCosts(selected) + SumCosts(repair) == target
    ensures var notes := SortAmounts(Amounts(selected + repair));
      Meets(notes, available, fee, target)
  {
    SumCostsConcat(selected, repair);
    AmountsCost(selected + repair, available, fee);
    SortAmountsKeeps(Amounts(selected + repair), available, fee);
  }

  predicate NonIncreasing(s: seq<nat>) {
    forall i, j :: 0 <= i < j < |s| ==> s[i] >= s[j]
  }

  /** The notes are available ones, largest first, and cost exactly the target with their fees. */
  ghost predicate Meets(notes: seq<nat>, available: seq<nat>, fee: nat -> nat, target: nat) {
    Within(notes, available) && IssueCost(notes, fee) == target && NonIncreasing(notes)
  }

  /** One attempt of the repair: the remainder is made up by the fewest coins, if it can be. */
  method Repair(
      coins: seq<Coin>, selected: seq<Coin>, remainder: nat, ghost available: seq<nat>, ghost fee: nat -> nat)
    returns (r: Option<seq<nat>>)
    requires AreCoins(coins, available, fee) && AreCoins(selected, available, fee)
    ensures r.Some? <==> remainder <= REPAIR_LIMIT && Representable(remainder, CostsOf(coins))
    ensures r.Some? ==> Meets(r.value, available, fee, SumCosts(selected) + remainder)
  {
    if remainder > REPAIR_LIMIT {
      return None;
    }
    var repair := MinimumCoins(CostsOf(coins), remainder);
    if repair.None? {
      return None;
    }
    CoinsCost(coins, repair.value);
    RepairedNotes(selected, Coins(coins, repair.value), SumCosts(selected) + remainder, available, fee);
    return Some(SortAmounts(Amounts(selected + Coins(coins, repair.value))));
  }

  /** Giving greedy notes back until the rest can be made up, or is too much for that. */
  method RepairLoop(
      coins: seq<Coin>, taken: seq<Coin>, left: nat, target: nat, ghost available: seq<nat>, ghost fee: nat -> nat)
    returns (r: Option<seq<nat>>)
    requires AreCoins(coins, available, fee) && AreCoins(taken, available, fee)
    requires CostsOf(taken) == Greedy(target, CostsOf(coins)) && Sum(CostsOf(taken)) + left == target
    ensures r.Some? <==> Repairable(target, CostsOf(coins))
    ensures r.Some? ==> Meets(r.value, available, fee, target)
  {
    hide Greedy;
    hide RepairsAt;
    hide Representable;
    hide Sum;
    hide SumCosts;
    hide Meets;
    ghost var costs, split := CostsOf(coins), CostsOf(taken);
    var selected: seq<Coin>, remainder: nat := taken, left;
    NothingElseRepairs(target, costs);
    assert split[..|split|] == split;
    while true
      invariant AreCoins(selected, available, fee) && |selected| <= |split|
      invariant CostsOf(selected) == split[..|selected|] && Sum(split[..|selected|]) + remainder == target
      invariant forall k :: |selected| < k <= |split| ==> !RepairsAt(target, costs, k)
      decreases |selected|
    {
      CostsAddUp(selected);
      RepairsHere(target, costs, |selected|, remainder);
      r := Repair(coins, selected, remainder, available, fee);
      if r.Some? {
        return;
      }
      if selected == [] {
        return None;
      }
      DropLast(selected, split);
      remainder := remainder + selected[|selected| - 1].cost;
      selected := selected[..|selected| - 1];
      if remainder > REPAIR_LIMIT {
        TooMuchLeft(target, costs, |selected|);
        return None;
      }
    }
  }

  /**
   * `refund_denominations`: the notes it returns are available ones and cost exactly the target, fees
   * included. It finds some exactly when some first part of the greedy split leaves at most the repair
   * limit, and that can be made up. Up to the limit it refuses a target only if no notes could meet it.
   */
  method RefundDenominations(available: seq<nat>, fee: nat -> nat, target: nat) returns (r: Option<seq<nat>>)
    requires target <= MAX_U64
    ensures r.Some? ==> Within(r.value, available) && IssueCost(r.value, fee) == target && NonIncreasing(r.value)
    ensures r.Some? <==> CoinsOf(available, fee) != [] && Repairable(target, CostsOf(CoinsOf(available, fee)))
    ensures target <= REPAIR_LIMIT && CoinsOf(available, fee) != [] ==>
              (r.Some? <==> exists amounts :: Within(amounts, available) && IssueCost(amounts, fee) == target)
  {
    hide CoinsOf;
    hide Greedy;
    hide GreedyLeft;
    hide Repairable;
    var coins := CoinsOf(available, fee);
    CoinsAreAvailable(available, available, fee);
    if coins == [] {
      return None;
    }
    if target <= REPAIR_LIMIT {
      SmallTargets(available, fee, target);
    }
    var taken, left := TakeLargest(coins, target, available, fee);
    GreedyAddsUp(target, CostsOf(coins));
    r := RepairLoop(coins, taken, left, target, available, fee);
  }

  lemma NothingElseRepairs(target: nat, costs: seq<nat>)
    ensures forall k: nat :: RepairsAt(target, costs, k) ==> k <= |Greedy(target, costs)|
  {
  }

  /** Giving one note back. */
  lemma DropLast(selected: seq<Coin>, split: seq<nat>)
    requires 0 < |selected| <= |split| && CostsOf(selected) == split[..|selected|]
    ensures CostsOf(selected[..|selected| - 1]) == split[..|selected| - 1]
    ensures Sum(split[..|selected|]) == Sum(split[..|selected| - 1]) + selected[|selected| - 1].cost
  {
    var kept := |selected|;
    assert split[..kept][..kept - 1] == split[..kept - 1];
    assert split[..kept][kept - 1] == CostsOf(selected)[kept - 1];
    assert CostsOf(selected[..kept - 1]) == CostsOf(selected)[..kept - 1];
  }

  lemma RepairsHere(target: nat, costs: seq<nat>, kept: nat, remainder: nat)
    requires kept <= |Greedy(target, costs)| && Sum(Greedy(target, costs)[..kept]) + remainder == target
    ensures RepairsAt(target, costs, kept) <==> remainder <= REPAIR_LIMIT && Representable(remainder, costs)
  {
  }

  /** Up to the limit, keeping nothing of the greedy split is an option too. */
  lemma SmallTargets(available: seq<nat>, fee: nat -> nat, target: nat)
    requires target <= REPAIR_LIMIT
    ensures (exists amounts :: Within(amounts, available) && IssueCost(amounts, fee) == target) ==>
              Repairable(target, CostsOf(CoinsOf(available, fee)))
  {
    var costs := CostsOf(CoinsOf(available, fee));
    if amounts :| Within(amounts, available) && IssueCost(amounts, fee) == target {
      CoinsSuffice(amounts, available, fee);
      assert Greedy(target, costs)[..0] == [];
      RepairsHere(target, costs, 0, target);
      assert RepairsAt(target, costs, 0);
    }
  }

  function Issue(x: nat, fee: nat -> nat): nat {
    x + fee(x)
  }

  lemma {:induction false} IssueCostFirst(s: seq<nat>, fee: nat -> nat)
    requires s != []
    ensures IssueCost(s, fee) == Issue(s[0], fee) + IssueCost(s[1..], fee)
  {
    if |s| > 1 {
      IssueCostFirst(s[..|s| - 1], fee);
      assert s[..|s| - 1][1..] == s[1..][..|s| - 2];
    } else {
      assert s[..0] == [] && s[1..] == [];
    }
  }

  lemma {:induction false} InsertAmountOrders(x: nat, s: seq<nat>)
    requires NonIncreasing(s)
    ensures NonIncreasing(InsertAmount(x, s))
    ensures InsertAmount(x, s) != [] && (InsertAmount(x, s)[0] == x || (s != [] && InsertAmount(x, s)[0] == s[0]))
  {
    if s != [] && x < s[0] {
      InsertAmountOrders(x, s[1..]);
    }
  }

  lemma {:induction false} InsertAmountKeeps(x: nat, s: seq<nat>, available: seq<nat>, fee: nat -> nat)
    requires Within(s, available) && x in available
    ensures Within(InsertAmount(x, s), available)
    ensures IssueCost(InsertAmount(x, s), fee) == Issue(x, fee) + IssueCost(s, fee)
  {
    var r := InsertAmount(x, s);
    IssueCostFirst(r, fee);
    if s == [] || x >= s[0] {
      assert r[1..] == s;
    } else {
      InsertAmountKeeps(x, s[1..], available, fee);
      IssueCostFirst(s, fee);
      assert r[1..] == InsertAmount(x, s[1..]);
    }
  }

  lemma {:induction false} SortAmountsKeeps(s: seq<nat>, available: seq<nat>, fee: nat -> nat)
    requires Within(s, available)
    ensures var r := SortAmounts(s);
      NonIncreasing(r) && Within(r, available) && IssueCost(r, fee) == IssueCost(s, fee)
  {
    if s != [] {
      SortAmountsKeeps(s[..|s| - 1], available, fee);
      assert s[|s| - 1] in available;
      InsertAmountKeeps(s[|s| - 1], SortAmounts(s[..|s| - 1]), available, fee);
      InsertAmountOrders(s[|s| - 1], SortAmounts(s[..|s| - 1]));
    }
  }

  lemma {:induction false} SumAtLeast(s: seq<nat>, least: nat)
    requires forall i :: 0 <= i < |s| ==> s[i] >= least
    ensures Sum(s) >= least * |s|
  {
    if s != [] {
      SumAtLeast(s[..|s| - 1], least);
      assert least * |s| == least * (|s| - 1) + least;
    }
  }

  lemma ManyCost(a: nat, n: nat)
    ensures n >= 2 ==> a * n >= a + a
  {
    if n >= 2 {
      assert a * n == a + a + a * (n - 2);
    }
  }

  /** Below twice the smallest cost only a single note can make an amount up. */
  lemma OnlyOneNote(amount: nat, a: nat, b: nat)
    requires 0 < amount && amount < a + a && a <= b && Representable(amount, [b, a])
    ensures amount == a || amount == b
  {
    var s :| Within(s, [b, a]) && Sum(s) == amount;
    SumAtLeast(s, a);
    ManyCost(a, |s|);
    if |s| == 1 {
      assert s[..0] == [] && Sum(s) == s[0];
    }
  }

  /**
   * Beyond the limit a target can be refused that notes would meet: 1500000 out of notes costing 600001
   * and 500000. Greedy starts with two of the first, and three of the second leave too much to make up.
   */
  lemma RefundCanMiss()
    ensures !Repairable(1_500_000, [600_001, 500_000]) && Representable(1_500_000, [600_001, 500_000])
  {
    var target, costs: seq<nat> := 1_500_000, [600_001, 500_000];
    var three: seq<nat> := [500_000, 500_000, 500_000];
    assert three[..2] == [500_000, 500_000] && three[..2][..1] == [500_000];
    assert Sum([500_000]) == 500_000 by { assert [500_000][..0] == []; }
    assert Sum(three[..2]) == 1_000_000;
    assert Within(three, costs) && Sum(three) == target;
    GreedyTwice();
    var split: seq<nat> := [600_001, 600_001];
    assert Sum([600_001]) == 600_001 by { assert [600_001][..0] == []; }
    forall k: nat ensures !RepairsAt(target, costs, k) {
      if RepairsAt(target, costs, k) {
        assert split[..0] == [] && split[..1] == [600_001] && split[..2] == split;
        assert Sum(split) == 1_200_002;
        var rest: nat :| rest == target - Sum(split[..k]) && Representable(rest, costs);
        OnlyOneNote(rest, 500_000, 600_001);
      }
    }
  }

  lemma GreedyTwice()
    ensures Greedy(1_500_000, [600_001, 500_000]) == [600_001, 600_001]
  {
    assert [600_001, 500_000][1..] == [500_000] && [500_000][1..] == [];
    assert Copies(600_001, 299_998) == [] && Copies(600_001, 899_999) == [600_001] + [];
    assert Copies(600_001, 1_500_000) == [600_001] + [600_001];
    assert Left(600_001, 1_500_000) == Left(600_001, 899_999) == 299_998;
    assert Greedy(299_998, [500_000]) == Copies(500_000, 299_998) + Greedy(299_998, []) == [];
  }
}
