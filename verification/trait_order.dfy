/** The order of the trait categories in the filter panel: the known traits
    in their fixed order, then every other trait, each group keeping the
    order it came in (the comparator compares ranks only and the sort is
    stable). */
module TraitOrder {

  const TRAIT_ORDER: seq<string> :=
    ["Background", "Type", "Skin", "Head", "Eyes", "Mouth", "Facial Hair", "Earring", "Necklace"]

  /** The index of `t` in `order`, or the length of `order` when absent
      (`indexOf` with -1 replaced by the length). */
  function Rank(order: seq<string>, t: string): nat
    decreases |order|
  {
    if order == [] then 0
    else if order[0] == t then 0
    else 1 + Rank(order[1..], t)
  }

  /** The rank is the position of the first occurrence of `t`, and the
      length of `order` exactly when `t` does not occur. */
  lemma {:induction false} RankSpec(order: seq<string>, t: string)
    ensures Rank(order, t) <= |order|
    ensures Rank(order, t) < |order| <==> t in order
    ensures Rank(order, t) < |order| ==>
              order[Rank(order, t)] == t && forall k :: 0 <= k < Rank(order, t) ==> order[k] != t
    decreases |order|
  {
    if order != [] && order[0] != t {
      RankSpec(order[1..], t);
      assert forall k :: 1 <= k < |order| ==> order[k] == order[1..][k - 1];
      assert order == [order[0]] + order[1..];
    }
  }

  predicate SortedByRank(order: seq<string>, s: seq<string>) {
    forall i, j :: 0 <= i < j < |s| ==> Rank(order, s[i]) <= Rank(order, s[j])
  }

  /** The elements of rank `k`, in order. */
  function OfRank(order: seq<string>, s: seq<string>, k: nat): seq<string>
    decreases |s|
  {
    if s == [] then []
    else OfRank(order, s[..|s| - 1], k) + (if Rank(order, s[|s| - 1]) == k then [s[|s| - 1]] else [])
  }

  lemma {:induction false} OfRankAppend(order: seq<string>, a: seq<string>, b: seq<string>, k: nat)
    ensures OfRank(order, a + b, k) == OfRank(order, a, k) + OfRank(order, b, k)
    decreases |b|
  {
    if b == [] {
      assert a + b == a;
    } else {
      assert (a + b)[..|a + b| - 1] == a + b[..|b| - 1];
      OfRankAppend(order, a, b[..|b| - 1], k);
    }
  }

  /** One insertion step: `x` goes after every element of rank at most its
      own, so equal ranks keep their arrival order. */
  function Insert(order: seq<string>, s: seq<string>, x: string): seq<string>
    decreases |s|
  {
    if s == [] then [x]
    else if Rank(order, s[|s| - 1]) <= Rank(order, x) then s + [x]
    else Insert(order, s[..|s| - 1], x) + [s[|s| - 1]]
  }

  lemma {:induction false} InsertPermutes(order: seq<string>, s: seq<string>, x: string)
    ensures multiset(Insert(order, s, x)) == multiset(s) + multiset{x}
    decreases |s|
  {
    if s != [] && Rank(order, s[|s| - 1]) > Rank(order, x) {
      InsertPermutes(order, s[..|s| - 1], x);
      assert s == s[..|s| - 1] + [s[|s| - 1]];
    }
  }

  /** Insertion brings in no element of a higher rank than `s` and `x` have. */
  lemma {:induction false} InsertBounded(order: seq<string>, s: seq<string>, x: string, b: nat)
    requires forall i :: 0 <= i < |s| ==> Rank(order, s[i]) <= b
    requires Rank(order, x) <= b
    ensures forall i :: 0 <= i < |Insert(order, s, x)| ==> Rank(order, Insert(order, s, x)[i]) <= b
    decreases |s|
  {
    var r := Insert(order, s, x);
    if s == [] {
      assert r == [x];
    } else if Rank(order, s[|s| - 1]) <= Rank(order, x) {
      assert r == s + [x];
      forall i | 0 <= i < |r| ensures Rank(order, r[i]) <= b {
        if i < |s| {
          assert r[i] == s[i];
        }
      }
    } else {
      var init, last := s[..|s| - 1], s[|s| - 1];
      forall i | 0 <= i < |init| ensures Rank(order, init[i]) <= b {
        assert init[i] == s[i];
      }
      InsertBounded(order, init, x, b);
      var head := Insert(order, init, x);
      assert r == head + [last];
      forall i | 0 <= i < |r| ensures Rank(order, r[i]) <= b {
        if i < |head| {
          assert r[i] == head[i];
        }
      }
    }
  }

  lemma {:induction false} InsertSorted(order: seq<string>, s: seq<string>, x: string)
    requires SortedByRank(order, s)
    ensures SortedByRank(order, Insert(order, s, x))
    decreases |s|
  {
    var r := Insert(order, s, x);
    if s == [] {
      assert r == [x];
    } else if Rank(order, s[|s| - 1]) <= Rank(order, x) {
      assert r == s + [x];
      forall i, j | 0 <= i < j < |r| ensures Rank(order, r[i]) <= Rank(order, r[j]) {
        assert r[i] == s[i];
        if j < |s| {
          assert r[j] == s[j];
        } else {
          assert Rank(order, s[i]) <= Rank(order, s[|s| - 1]);
        }
      }
    } else {
      var init, last := s[..|s| - 1], s[|s| - 1];
      var b := Rank(order, last);
      forall i, j | 0 <= i < j < |init| ensures Rank(order, init[i]) <= Rank(order, init[j]) {
        assert init[i] == s[i] && init[j] == s[j];
      }
      forall i | 0 <= i < |init| ensures Rank(order, init[i]) <= b {
        assert init[i] == s[i];
      }
      InsertSorted(order, init, x);
      InsertBounded(order, init, x, b);
      var head := Insert(order, init, x);
      assert r == head + [last];
      forall i, j | 0 <= i < j < |r| ensures Rank(order, r[i]) <= Rank(order, r[j]) {
        assert r[i] == head[i];
        if j < |head| {
          assert r[j] == head[j];
        }
      }
    }
  }

  lemma OfRankSnoc(order: seq<string>, s: seq<string>, x: string, k: nat)
    ensures OfRank(order, s + [x], k) == OfRank(order, s, k) + (if Rank(order, x) == k then [x] else [])
  {
    assert (s + [x])[..|s|] == s;
  }

  /** Insertion appends `x` to the run of its rank. */
  lemma {:induction false} InsertStable(order: seq<string>, s: seq<string>, x: string, k: nat)
    ensures OfRank(order, Insert(order, s, x), k) == OfRank(order, s, k) + (if Rank(order, x) == k then [x] else [])
    decreases |s|
  {
    if s == [] {
      assert Insert(order, s, x) == [] + [x];
      OfRankSnoc(order, [], x, k);
    } else if Rank(order, s[|s| - 1]) <= Rank(order, x) {
      OfRankSnoc(order, s, x, k);
    } else {
      var init, last := s[..|s| - 1], s[|s| - 1];
      var tx := if Rank(order, x) == k then [x] else [];
      var tl := if Rank(order, last) == k then [last] else [];
      assert s == init + [last];
      calc {
        OfRank(order, Insert(order, s, x), k);
        OfRank(order, Insert(order, init, x) + [last], k);
        { OfRankSnoc(order, Insert(order, init, x), last, k); }
        OfRank(order, Insert(order, init, x), k) + tl;
        { InsertStable(order, init, x, k); }
        (OfRank(order, init, k) + tx) + tl;
        { assert Rank(order, x) == k ==> Rank(order, last) != k; }
        (OfRank(order, init, k) + tl) + tx;
        { OfRankSnoc(order, init, last, k); }
        OfRank(order, s, k) + tx;
      }
    }
  }

  /** Stable insertion sort by rank. */
  function SortByRank(order: seq<string>, ts: seq<string>): (r: seq<string>)
    ensures SortedByRank(order, r)
    ensures multiset(r) == multiset(ts)
    decreases |ts|
  {
    if ts == [] then []
    else
      var init, last := ts[..|ts| - 1], ts[|ts| - 1];
      var sorted := SortByRank(order, init);
      InsertSorted(order, sorted, last);
      InsertPermutes(order, sorted, last);
      assert ts == init + [last];
      assert multiset(ts) == multiset(init) + multiset{last};
      Insert(order, sorted, last)
  }

  /** Sorting keeps, within each rank, the order of the input. */
  lemma {:induction false} SortStable(order: seq<string>, ts: seq<string>, k: nat)
    ensures OfRank(order, SortByRank(order, ts), k) == OfRank(order, ts, k)
    decreases |ts|
  {
    if ts != [] {
      SortStable(order, ts[..|ts| - 1], k);
      InsertStable(order, SortByRank(order, ts[..|ts| - 1]), ts[|ts| - 1], k);
    }
  }

  /** `sortTraitTypes`: the known traits first, in the fixed order, then
      every unknown trait; a permutation of the input that keeps the input
      order among the unknown traits (they share one rank). */
  function SortTraitTypes(ts: seq<string>): (r: seq<string>)
    ensures multiset(r) == multiset(ts)
    ensures forall i, j :: 0 <= i < j < |r| && r[j] in TRAIT_ORDER ==> r[i] in TRAIT_ORDER
    ensures forall i, j :: 0 <= i < j < |r| && r[i] in TRAIT_ORDER && r[j] in TRAIT_ORDER ==>
              Rank(TRAIT_ORDER, r[i]) <= Rank(TRAIT_ORDER, r[j])
    ensures OfRank(TRAIT_ORDER, r, |TRAIT_ORDER|) == OfRank(TRAIT_ORDER, ts, |TRAIT_ORDER|)
  {
    SortStable(TRAIT_ORDER, ts, |TRAIT_ORDER|);
    var r := SortByRank(TRAIT_ORDER, ts);
    forall i, j | 0 <= i < j < |r| && r[j] in TRAIT_ORDER ensures r[i] in TRAIT_ORDER {
      RankSpec(TRAIT_ORDER, r[i]);
      RankSpec(TRAIT_ORDER, r[j]);
    }
    r
  }
}
