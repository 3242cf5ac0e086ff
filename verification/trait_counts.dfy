/** The filter panel's data: how often each (trait type, value) pair occurs
    across the items, and the pruning of Skin and Eyes values that repeat a
    Type value up to letter case. */
module TraitCounts {
  import opened Common
  import opened Traits

  /** trait type → value → number of occurrences. */
  type Counts = map<string, map<string, nat>>

  /** Every attribute of every item, item by item. */
  function AllAttributes(items: seq<Item>): (r: seq<Attribute>)
    ensures forall a :: a in r <==> exists i :: 0 <= i < |items| && a in items[i].attributes
    decreases |items|
  {
    if items == [] then []
    else
      var init := items[..|items| - 1];
      assert forall i :: 0 <= i < |init| ==> init[i] == items[i];
      AllAttributes(init) + items[|items| - 1].attributes
  }

  /** The trait types in order of first appearance: the order in which
      the counting loop creates the tables, and so the order of their keys. */
  function TraitKeys(attrs: seq<Attribute>): (r: seq<string>)
    ensures forall i, j :: 0 <= i < j < |r| ==> r[i] != r[j]
    ensures forall t :: t in r <==> exists k :: 0 <= k < |attrs| && attrs[k].traitType == t
    decreases |attrs|
  {
    if attrs == [] then []
    else
      var init := attrs[..|attrs| - 1];
      var t := attrs[|attrs| - 1].traitType;
      var keys := TraitKeys(init);
      assert forall k :: 0 <= k < |init| ==> attrs[k] == init[k];
      keys + (if t in keys then [] else [t])
  }

  /** The index of the first attribute of trait type `t`, or `|attrs|`
      when there is none. */
  function FirstMet(attrs: seq<Attribute>, t: string): (k: nat)
    ensures k <= |attrs|
    ensures forall m :: 0 <= m < k ==> attrs[m].traitType != t
    ensures k < |attrs| <==> exists m :: 0 <= m < |attrs| && attrs[m].traitType == t
    ensures k < |attrs| ==> attrs[k].traitType == t
    decreases |attrs|
  {
    if attrs == [] then 0
    else if attrs[0].traitType == t then 0
    else
      var k := 1 + FirstMet(attrs[1..], t);
      assert forall m :: 1 <= m < |attrs| ==> attrs[m] == attrs[1..][m - 1];
      k
  }

  /** Appending an attribute does not move a trait type's first appearance
      when it already had one. */
  lemma FirstMetSnoc(attrs: seq<Attribute>, a: Attribute, t: string)
    requires FirstMet(attrs, t) < |attrs|
    ensures FirstMet(attrs + [a], t) == FirstMet(attrs, t)
  {
    var k, k' := FirstMet(attrs, t), FirstMet(attrs + [a], t);
    assert (attrs + [a])[k] == attrs[k];
  }

  /** The keys are listed in the order the trait types first appear. */
  lemma {:induction false} TraitKeysOrder(attrs: seq<Attribute>)
    ensures forall i, j :: 0 <= i < j < |TraitKeys(attrs)| ==>
              FirstMet(attrs, TraitKeys(attrs)[i]) < FirstMet(attrs, TraitKeys(attrs)[j])
    decreases |attrs|
  {
    if attrs != [] {
      var init, a := attrs[..|attrs| - 1], attrs[|attrs| - 1];
      assert attrs == init + [a];
      TraitKeysOrder(init);
      var keys, r := TraitKeys(init), TraitKeys(attrs);
      forall i | 0 <= i < |keys| ensures FirstMet(attrs, keys[i]) == FirstMet(init, keys[i]) < |init| {
        assert keys[i] in keys;
        FirstMetSnoc(init, a, keys[i]);
      }
      forall i, j | 0 <= i < j < |r| ensures FirstMet(attrs, r[i]) < FirstMet(attrs, r[j]) {
        if j < |keys| {
          assert r[i] == keys[i] && r[j] == keys[j];
        } else {
          assert r[i] == keys[i] && r[j] == a.traitType && a.traitType !in keys;
          assert FirstMet(init, a.traitType) == |init|;
          assert FirstMet(attrs, a.traitType) == |init|;
        }
      }
    }
  }

  /** One counting step: create the trait's table when missing, then add one
      to the value's count (a missing count reads as 0). */
  function Bump(c: Counts, a: Attribute): Counts {
    var inner := if a.traitType in c then c[a.traitType] else map[];
    c[a.traitType := inner[a.value := (if a.value in inner then inner[a.value] else 0) + 1]]
  }

  /** The table after counting `attrs` in order. */
  function Tally(attrs: seq<Attribute>): Counts
    decreases |attrs|
  {
    if attrs == [] then map[] else Bump(Tally(attrs[..|attrs| - 1]), attrs[|attrs| - 1])
  }

  lemma TallySnoc(attrs: seq<Attribute>, a: Attribute)
    ensures Tally(attrs + [a]) == Bump(Tally(attrs), a)
  {
    assert (attrs + [a])[..|attrs|] == attrs;
  }

  /** A trait has a table exactly when some attribute has that trait type. */
  lemma {:induction false} TallyTraits(attrs: seq<Attribute>, t: string)
    ensures t in Tally(attrs) <==> exists k :: 0 <= k < |attrs| && attrs[k].traitType == t
    decreases |attrs|
  {
    if attrs != [] {
      var init := attrs[..|attrs| - 1];
      TallyTraits(init, t);
      assert forall k :: 0 <= k < |init| ==> attrs[k] == init[k];
    }
  }

  /** A value is listed under a trait exactly when the pair occurs, and its
      count is the number of occurrences of the pair. */
  lemma {:induction false} TallyCounts(attrs: seq<Attribute>, t: string, v: string)
    ensures (t in Tally(attrs) && v in Tally(attrs)[t]) <==> Attribute(t, v) in attrs
    ensures t in Tally(attrs) && v in Tally(attrs)[t] ==>
              Tally(attrs)[t][v] == multiset(attrs)[Attribute(t, v)]
    decreases |attrs|
  {
    if attrs != [] {
      var init := attrs[..|attrs| - 1];
      var last := attrs[|attrs| - 1];
      TallyCounts(init, t, v);
      assert attrs == init + [last];
      assert multiset(attrs) == multiset(init) + multiset{last};
      if Attribute(t, v) !in init {
        assert multiset(init)[Attribute(t, v)] == 0;
      }
    }
  }

  /** One step of the counting loop, as the source writes it. */
  method CountOne(counts0: Counts, a: Attribute) returns (counts: Counts)
    ensures counts == Bump(counts0, a)
  {
    counts := counts0;
    if a.traitType !in counts {
      counts := counts[a.traitType := map[]];
    }
    var inner := counts[a.traitType];
    inner := inner[a.value := (if a.value in inner then inner[a.value] else 0) + 1];
    counts := counts[a.traitType := inner];
  }

  /** The inner loop over one item's attributes. */
  method CountAll(counts0: Counts, ghost done: seq<Attribute>, attrs: seq<Attribute>) returns (counts: Counts)
    requires counts0 == Tally(done)
    ensures counts == Tally(done + attrs)
  {
    counts := counts0;
    ghost var seen := done;
    var j := 0;
    assert done + attrs[..0] == done;
    while j < |attrs|
      invariant 0 <= j <= |attrs|
      invariant seen == done + attrs[..j]
      invariant counts == Tally(seen)
    {
      var a := attrs[j];
      counts := CountOne(counts, a);
      TallySnoc(seen, a);
      PrefixSnoc(done, attrs, j);
      seen := seen + [a];
      j := j + 1;
    }
    assert attrs[..j] == attrs;
  }

  /** The attributes of a concatenation are those of each part, in order. */
  lemma {:induction false} AllAttributesAppend(xs: seq<Item>, ys: seq<Item>)
    ensures AllAttributes(xs + ys) == AllAttributes(xs) + AllAttributes(ys)
    decreases |ys|
  {
    if ys == [] {
      assert xs + ys == xs;
    } else {
      var init, y := ys[..|ys| - 1], ys[|ys| - 1];
      var zs := xs + ys;
      assert zs[..|zs| - 1] == xs + init && zs[|zs| - 1] == y;
      assert AllAttributes(zs) == AllAttributes(xs + init) + y.attributes;
      AllAttributesAppend(xs, init);
      assert AllAttributes(ys) == AllAttributes(init) + y.attributes;
    }
  }

  lemma AllAttributesSnoc(items: seq<Item>, i: nat)
    requires i < |items|
    ensures AllAttributes(items[..i + 1]) == AllAttributes(items[..i]) + items[i].attributes
  {
    assert items[..i + 1][..i] == items[..i];
  }

  /** `buildTraitValueCounts` (and the counting loop of `updateFilters`):
      every attribute of every item is counted once. */
  method BuildTraitValueCounts(items: seq<Item>) returns (counts: Counts)
    ensures counts == Tally(AllAttributes(items))
  {
    counts := map[];
    var i := 0;
    while i < |items|
      invariant 0 <= i <= |items|
      invariant counts == Tally(AllAttributes(items[..i]))
    {
      counts := CountAll(counts, AllAttributes(items[..i]), items[i].attributes);
      AllAttributesSnoc(items, i);
      i := i + 1;
    }
    assert items[..i] == items;
  }

  /** Counting item by item agrees with the occurrence count over all the
      items' attributes. */
  lemma BuildTraitValueCountsSpec(items: seq<Item>, t: string, v: string)
    ensures var c := Tally(AllAttributes(items));
            && ((t in c && v in c[t]) <==> exists i :: 0 <= i < |items| && Attribute(t, v) in items[i].attributes)
            && (t in c && v in c[t] ==> c[t][v] == multiset(AllAttributes(items))[Attribute(t, v)] && c[t][v] >= 1)
  {
    TallyCounts(AllAttributes(items), t, v);
  }

  // ---------------------------------------------------------------
  // Pruning Skin and Eyes values that repeat a Type value
  // ---------------------------------------------------------------

  const REDUNDANT_TRAITS: seq<string> := ["Skin", "Eyes"]

  /** Whether `v` equals some Type value up to ASCII letter case. */
  predicate RepeatsType(counts: Counts, v: string) {
    "Type" in counts && exists w :: w in counts["Type"] && Lower(w) == Lower(v)
  }

  /** The pruned table: unchanged without a Type table; otherwise the Skin
      and Eyes tables lose the values that repeat a Type value. */
  function Pruned(counts: Counts): (r: Counts)
    ensures r.Keys == counts.Keys
    ensures "Type" !in counts ==> r == counts
    ensures forall t :: t in counts && t !in REDUNDANT_TRAITS ==> r[t] == counts[t]
    ensures forall t, v :: t in counts && t in REDUNDANT_TRAITS ==>
              (v in r[t] <==> v in counts[t] && !RepeatsType(counts, v))
    ensures forall t, v :: t in counts && v in r[t] ==> v in counts[t] && r[t][v] == counts[t][v]
  {
    if "Type" !in counts then counts
    else
      map t | t in counts :: if t in REDUNDANT_TRAITS then KeepDistinct(counts[t], LowerKeys(counts["Type"])) else counts[t]
  }

  function LowerKeys(m: map<string, nat>): (r: set<string>)
    ensures forall v :: v in r <==> exists w :: w in m && Lower(w) == v
  {
    set w | w in m :: Lower(w)
  }

  function KeepDistinct(values: map<string, nat>, lowered: set<string>): map<string, nat> {
    map v | v in values && Lower(v) !in lowered :: values[v]
  }

  /** The inner `forEach` of `removeRedundantTraits`: deletes, one key at a
      time, the values whose lower-case form is a lower-cased Type value. */
  method PruneValues(values: map<string, nat>, lowered: set<string>) returns (kept: map<string, nat>)
    ensures kept == KeepDistinct(values, lowered)
  {
    kept := values;
    var pending := values.Keys;
    while pending != {}
      invariant pending <= values.Keys
      invariant kept == map v | v in values && (v in pending || Lower(v) !in lowered) :: values[v]
      decreases |pending|
    {
      var v :| v in pending;
      if Lower(v) in lowered {
        kept := kept - {v};
      }
      pending := pending - {v};
    }
  }

  /** The table with the values of the traits in `done` pruned. */
  ghost function PrunedSome(counts: Counts, lowered: set<string>, done: seq<string>): Counts {
    map t | t in counts :: if t in done then KeepDistinct(counts[t], lowered) else counts[t]
  }

  /** Pruning one more trait updates its table alone. */
  lemma PrunedSomeSnoc(counts: Counts, lowered: set<string>, done: seq<string>, name: string)
    requires name !in done
    ensures name in counts ==>
              && PrunedSome(counts, lowered, done)[name] == counts[name]
              && PrunedSome(counts, lowered, done + [name])
                 == PrunedSome(counts, lowered, done)[name := KeepDistinct(counts[name], lowered)]
    ensures name !in counts ==> PrunedSome(counts, lowered, done + [name]) == PrunedSome(counts, lowered, done)
  {
    var before := PrunedSome(counts, lowered, done);
    var after := PrunedSome(counts, lowered, done + [name]);
    assert forall t :: t in done + [name] <==> t in done || t == name;
    if name in counts {
      assert after == before[name := KeepDistinct(counts[name], lowered)];
    } else {
      assert after == before;
    }
  }

  /** `removeRedundantTraits`. */
  method RemoveRedundantTraits(counts: Counts) returns (r: Counts)
    ensures r == Pruned(counts)
  {
    r := counts;
    if "Type" !in counts {
      return;
    }
    var lowered := LowerKeys(counts["Type"]);
    var i := 0;
    assert r == PrunedSome(counts, lowered, REDUNDANT_TRAITS[..0]);
    while i < |REDUNDANT_TRAITS|
      invariant 0 <= i <= |REDUNDANT_TRAITS|
      invariant r == PrunedSome(counts, lowered, REDUNDANT_TRAITS[..i])
    {
      var name := REDUNDANT_TRAITS[i];
      assert REDUNDANT_TRAITS[..i + 1] == REDUNDANT_TRAITS[..i] + [name];
      assert name !in REDUNDANT_TRAITS[..i];
      PrunedSomeSnoc(counts, lowered, REDUNDANT_TRAITS[..i], name);
      if name in r {
        var kept := PruneValues(r[name], lowered);
        r := r[name := kept];
      }
      i := i + 1;
    }
    assert REDUNDANT_TRAITS[..i] == REDUNDANT_TRAITS;
  }
}
