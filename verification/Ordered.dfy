/**
 * Iteration order of the ordered collections (`BTreeSet`, `BTreeMap`) of the wallet: a finite set
 * of naturals listed in ascending order, and the position of a member in that list.
 */
module Ordered {
  import opened Options

  lemma HasMinimum(s: set<nat>) returns (m: nat)
    requires s != {}
    ensures m in s && forall x :: x in s ==> m <= x
  {
    m :| m in s;
    var rest := s - {m};
    if rest != {} {
      var low := HasMinimum(rest);
      forall x | x in s ensures (if low < m then low else m) <= x {
        assert x == m || x in rest;
      }
      m := if low < m then low else m;
    } else {
      forall x | x in s ensures m <= x {
        assert x == m || x in rest;
      }
    }
  }

  function Minimum(s: set<nat>): (m: nat)
    requires s != {}
    ensures m in s && forall x :: x in s ==> m <= x
  {
    assert exists m: nat :: m in s && forall x :: x in s ==> m <= x by {
      var m := HasMinimum(s);
    }
    var m: nat :| m in s && forall x :: x in s ==> m <= x;
    m
  }

  lemma HasMaximum(s: set<nat>) returns (m: nat)
    requires s != {}
    ensures m in s && forall x :: x in s ==> x <= m
  {
    m :| m in s;
    var rest := s - {m};
    if rest != {} {
      var high := HasMaximum(rest);
      forall x | x in s ensures x <= if high > m then high else m {
        assert x == m || x in rest;
      }
      m := if high > m then high else m;
    } else {
      forall x | x in s ensures x <= m {
        assert x == m || x in rest;
      }
    }
  }

  function Maximum(s: set<nat>): (m: nat)
    requires s != {}
    ensures m in s && forall x :: x in s ==> x <= m
  {
    assert exists m: nat :: m in s && forall x :: x in s ==> x <= m by {
      var m := HasMaximum(s);
    }
    var m: nat :| m in s && forall x :: x in s ==> x <= m;
    m
  }

  /** The members of `s`, smallest first. */
  function Ascending(s: set<nat>): (list: seq<nat>)
    ensures |list| == |s|
    ensures forall x :: x in list <==> x in s
    ensures forall i, j :: 0 <= i < j < |list| ==> list[i] < list[j]
  {
    if s == {} then [] else
      var m := Minimum(s);
      [m] + Ascending(s - {m})
  }

  /** The members of `s`, largest first. */
  function Descending(s: set<nat>): (list: seq<nat>)
    ensures |list| == |s|
    ensures forall x :: x in list <==> x in s
    ensures forall i, j :: 0 <= i < j < |list| ==> list[i] > list[j]
  {
    if s == {} then [] else
      var m := Maximum(s);
      [m] + Descending(s - {m})
  }

  /** First position of `x`, as Rust's `Iterator::position` reports it. */
  function PositionOf<T(==)>(list: seq<T>, x: T): (p: Option<nat>)
    ensures p.Some? <==> x in list
    ensures p.Some? ==> p.value < |list| && list[p.value] == x && x !in list[..p.value]
  {
    if list == [] then None
    else if list[0] == x then Some(0)
    else match PositionOf(list[1..], x)
      case None => None
      case Some(p) => Some(p + 1)
  }

  /** A value above every member of `s`: where an unused identifier can be taken. */
  function Unused(s: set<nat>): (u: nat)
    ensures forall x :: x in s ==> x < u
  {
    if s == {} then 0 else Maximum(s) + 1
  }

  lemma SubsetSize<T>(a: set<T>, b: set<T>)
    requires a <= b
    ensures |a| <= |b|
    ensures |a| == |b| ==> a == b
  {
    assert b == a + (b - a);
  }

  /** Collects pairs into an ordered map; a later pair overrides an earlier one with the same key. */
  function FromPairs<V>(pairs: seq<(nat, V)>): map<nat, V> {
    if pairs == [] then map[] else
      var last := pairs[|pairs| - 1];
      FromPairs(pairs[..|pairs| - 1])[last.0 := last.1]
  }

  predicate DistinctFirsts<V>(pairs: seq<(nat, V)>) {
    forall j, k :: 0 <= j < k < |pairs| ==> pairs[j].0 != pairs[k].0
  }

  lemma {:induction false} FromPairsHolds<V>(pairs: seq<(nat, V)>)
    ensures forall k :: 0 <= k < |pairs| ==> pairs[k].0 in FromPairs(pairs)
    ensures forall i :: i in FromPairs(pairs) ==>
              exists k :: 0 <= k < |pairs| && pairs[k] == (i, FromPairs(pairs)[i])
  {
    if pairs != [] {
      var front, last := pairs[..|pairs| - 1], pairs[|pairs| - 1];
      FromPairsHolds(front);
      forall i | i in FromPairs(pairs)
        ensures exists k :: 0 <= k < |pairs| && pairs[k] == (i, FromPairs(pairs)[i])
      {
        if i == last.0 {
          assert pairs[|pairs| - 1] == (i, FromPairs(pairs)[i]);
        } else {
          assert i in FromPairs(front) && FromPairs(front)[i] == FromPairs(pairs)[i];
          var k :| 0 <= k < |front| && front[k] == (i, FromPairs(front)[i]);
          assert pairs[k] == (i, FromPairs(pairs)[i]);
        }
      }
    }
  }

  /** The last pair with a key gives its value. */
  lemma {:induction false} FromPairsLast<V>(pairs: seq<(nat, V)>, k: nat)
    requires k < |pairs| && forall j :: k < j < |pairs| ==> pairs[j].0 != pairs[k].0
    ensures pairs[k].0 in FromPairs(pairs) && FromPairs(pairs)[pairs[k].0] == pairs[k].1
  {
    if k < |pairs| - 1 {
      assert pairs[|pairs| - 1].0 != pairs[k].0;
      FromPairsLast(pairs[..|pairs| - 1], k);
    }
  }

  /** Distinct places in a list without repetition hold as many values. */
  lemma {:induction false} ImageSize(places: set<nat>, list: seq<nat>)
    requires forall i :: i in places ==> i < |list|
    requires forall i, j :: 0 <= i < j < |list| ==> list[i] != list[j]
    ensures |set i | i in places :: list[i]| == |places|
  {
    if places != {} {
      var p :| p in places;
      ImageSize(places - {p}, list);
      assert (set i | i in places :: list[i]) == (set i | i in places - {p} :: list[i]) + {list[p]};
    }
  }

  lemma FromPairsAppend<V>(pairs: seq<(nat, V)>, last: (nat, V))
    ensures FromPairs<V>([]) == map[]
    ensures FromPairs(pairs + [last]) == FromPairs(pairs)[last.0 := last.1]
  {
    assert (pairs + [last])[..|pairs|] == pairs;
  }

  lemma DistinctSnoc<V>(front: seq<(nat, V)>, last: (nat, V))
    ensures DistinctFirsts(front + [last]) <==>
              DistinctFirsts(front) && forall k :: 0 <= k < |front| ==> front[k].0 != last.0
  {
    var pairs := front + [last];
    if DistinctFirsts(front) && forall k :: 0 <= k < |front| ==> front[k].0 != last.0 {
      forall j, k | 0 <= j < k < |pairs| ensures pairs[j].0 != pairs[k].0 {
      }
    }
    if DistinctFirsts(pairs) {
      forall k | 0 <= k < |front| ensures front[k].0 != last.0 {
        assert pairs[k].0 != pairs[|front|].0;
      }
      forall j, k | 0 <= j < k < |front| ensures front[j].0 != front[k].0 {
        assert pairs[j].0 != pairs[k].0;
      }
    }
  }

  /** Nothing is lost exactly when no key is repeated. */
  lemma {:induction false} FromPairsSize<V>(pairs: seq<(nat, V)>)
    ensures |FromPairs(pairs)| <= |pairs|
    ensures |FromPairs(pairs)| == |pairs| <==> DistinctFirsts(pairs)
  {
    hide DistinctFirsts;
    if pairs == [] {
      assert DistinctFirsts(pairs) by { NoPairsDistinct(pairs); }
    } else {
      var front, last := pairs[..|pairs| - 1], pairs[|pairs| - 1];
      assert pairs == front + [last];
      FromPairsSize(front);
      FromPairsHolds(front);
      FromPairsAppend(front, last);
      DistinctSnoc(front, last);
      hide FromPairs;
      KeySize(FromPairs(front), last.0, last.1);
    }
  }

  lemma NoPairsDistinct<V>(pairs: seq<(nat, V)>)
    requires pairs == []
    ensures DistinctFirsts(pairs)
  {
  }

  lemma KeySize<V>(m: map<nat, V>, key: nat, value: V)
    ensures |m[key := value]| == |m| + if key in m then 0 else 1
  {
    assert |m| == |m.Keys| && |m[key := value]| == |m[key := value].Keys|;
    assert m[key := value].Keys == m.Keys + {key};
  }
}
