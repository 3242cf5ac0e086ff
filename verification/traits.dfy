/** The gallery's trait-filter engine, shared by both gallery scripts:
    items with trait attributes, filters on a (trait type, value) pair, the
    duplicate-free list of active filters and conjunctive matching. */
module Traits {

  datatype Attribute = Attribute(traitType: string, value: string)

  datatype Item = Item(name: string, image: string, attributes: seq<Attribute>)

  datatype Filter = Filter(traitType: string, value: string)

  /** `matchesFilter`: some attribute has the filter's trait type and value. */
  predicate MatchesFilter(item: Item, f: Filter) {
    exists k :: 0 <= k < |item.attributes| && item.attributes[k] == Attribute(f.traitType, f.value)
  }

  /** The values of the attributes of one trait type, in order
      (`attributes.filter(attr => attr.trait_type === t)`). */
  function TraitValues(attrs: seq<Attribute>, t: string): (r: seq<string>)
    ensures forall v :: v in r <==> Attribute(t, v) in attrs
    decreases |attrs|
  {
    if attrs == [] then []
    else (if attrs[0].traitType == t then [attrs[0].value] else []) + TraitValues(attrs[1..], t)
  }

  /** The first gallery's test: among the attributes of the filter's trait
      type, one has the filter's value. */
  predicate MatchesFilterByTrait(item: Item, f: Filter) {
    f.value in TraitValues(item.attributes, f.traitType)
  }

  /** The two gallery scripts test a filter the same way. */
  lemma MatchFormsAgree(item: Item, f: Filter)
    ensures MatchesFilterByTrait(item, f) <==> MatchesFilter(item, f)
  {
    if Attribute(f.traitType, f.value) in item.attributes {
      var k :| 0 <= k < |item.attributes| && item.attributes[k] == Attribute(f.traitType, f.value);
    }
  }

  /** `matchesAllFilters`: every active filter matches. */
  predicate MatchesAll(item: Item, filters: seq<Filter>) {
    forall j :: 0 <= j < |filters| ==> MatchesFilter(item, filters[j])
  }

  /** `metadata.filter(matchesAllFilters)`: the matching items, in order. */
  function Select(items: seq<Item>, filters: seq<Filter>): (r: seq<Item>)
    ensures |r| <= |items|
    ensures forall x :: x in r <==> x in items && MatchesAll(x, filters)
    decreases |items|
  {
    if items == [] then []
    else
      var init := items[..|items| - 1];
      var last := items[|items| - 1];
      assert items == init + [last];
      Select(init, filters) + (if MatchesAll(last, filters) then [last] else [])
  }

  /** Selection works item by item, so it keeps the order of its input and
      can be applied batch by batch. */
  lemma {:induction false} SelectAppend(a: seq<Item>, b: seq<Item>, filters: seq<Filter>)
    ensures Select(a + b, filters) == Select(a, filters) + Select(b, filters)
    decreases |b|
  {
    if b == [] {
      assert a + b == a;
    } else {
      var init, last := b[..|b| - 1], b[|b| - 1];
      assert a + b == (a + init) + [last];
      assert b == init + [last];
      var tail := if MatchesAll(last, filters) then [last] else [];
      calc {
        Select(a + b, filters);
        { SelectSnoc(a + init, last, filters); }
        Select(a + init, filters) + tail;
        { SelectAppend(a, init, filters); }
        (Select(a, filters) + Select(init, filters)) + tail;
        Select(a, filters) + (Select(init, filters) + tail);
        { SelectSnoc(init, last, filters); }
        Select(a, filters) + Select(b, filters);
      }
    }
  }

  lemma SelectSnoc(s: seq<Item>, x: Item, filters: seq<Filter>)
    ensures Select(s + [x], filters) == Select(s, filters) + (if MatchesAll(x, filters) then [x] else [])
  {
    assert (s + [x])[..|s|] == s;
  }

  /** With no filter every item is selected. */
  lemma {:induction false} SelectNoFilters(items: seq<Item>)
    ensures Select(items, []) == items
    decreases |items|
  {
    if items != [] {
      var init, last := items[..|items| - 1], items[|items| - 1];
      assert items == init + [last];
      SelectNoFilters(init);
      SelectSnoc(init, last, []);
    }
  }


  /** `applyFilters`: a copy of all items when no filter is active,
      otherwise the items that match every filter. */
  function ApplyFilters(items: seq<Item>, filters: seq<Filter>): (r: seq<Item>)
    ensures filters == [] ==> r == items
    ensures forall x :: x in r <==> x in items && MatchesAll(x, filters)
    ensures r == Select(items, filters)
  {
    SelectNoFilters(items);
    if filters == [] then items else Select(items, filters)
  }

  // ---------------------------------------------------------------
  // The active filter list
  // ---------------------------------------------------------------

  predicate NoDuplicates(fs: seq<Filter>) {
    forall i, j :: 0 <= i < j < |fs| ==> fs[i] != fs[j]
  }

  /** `addFilter`: appended unless already present. */
  function AddFilter(fs: seq<Filter>, f: Filter): (r: seq<Filter>)
    ensures NoDuplicates(fs) ==> NoDuplicates(r)
    ensures f in r
    ensures f in fs ==> r == fs
    ensures f !in fs ==> r == fs + [f]
  {
    if f in fs then fs else fs + [f]
  }

  /** `removeFilter`: every entry equal to the pair dropped, the rest kept
      in order. */
  function RemoveFilter(fs: seq<Filter>, f: Filter): (r: seq<Filter>)
    ensures forall g :: g in r <==> g in fs && g != f
    ensures multiset(r) == multiset(fs)[f := 0]
    ensures |r| <= |fs|
    decreases |fs|
  {
    if fs == [] then []
    else
      assert fs == [fs[0]] + fs[1..];
      (if fs[0] == f then [] else [fs[0]]) + RemoveFilter(fs[1..], f)
  }

  /** Removal works entry by entry, so it keeps the order of what remains:
      removing from a concatenation removes from each part. */
  lemma {:induction false} RemoveFilterAppend(fs: seq<Filter>, gs: seq<Filter>, f: Filter)
    ensures RemoveFilter(fs + gs, f) == RemoveFilter(fs, f) + RemoveFilter(gs, f)
    decreases |fs|
  {
    if fs == [] {
      assert fs + gs == gs;
    } else {
      assert (fs + gs)[1..] == fs[1..] + gs;
      RemoveFilterAppend(fs[1..], gs, f);
    }
  }

  /** Removal keeps the list duplicate-free and leaves a filter-free list
      when the only entry is removed; an absent pair changes nothing. */
  lemma RemoveFilterProps(fs: seq<Filter>, f: Filter)
    ensures NoDuplicates(fs) ==> NoDuplicates(RemoveFilter(fs, f))
    ensures f !in fs ==> RemoveFilter(fs, f) == fs
  {
    if NoDuplicates(fs) {
      RemoveKeepsDistinct(fs, f);
    }
    if f !in fs {
      RemoveAbsent(fs, f);
    }
  }

  /** The tail of a duplicate-free list is duplicate-free and does not hold
      its head. */
  lemma DistinctTail(fs: seq<Filter>)
    requires fs != [] && NoDuplicates(fs)
    ensures NoDuplicates(fs[1..]) && fs[0] !in fs[1..]
  {
    forall i, j | 0 <= i < j < |fs[1..]| ensures fs[1..][i] != fs[1..][j] {
      assert fs[1..][i] == fs[i + 1] && fs[1..][j] == fs[j + 1];
    }
    forall k | 0 <= k < |fs[1..]| ensures fs[1..][k] != fs[0] {
      assert fs[1..][k] == fs[k + 1];
    }
  }

  /** A new head on a duplicate-free list keeps it duplicate-free. */
  lemma DistinctCons(x: Filter, rest: seq<Filter>)
    requires x !in rest && NoDuplicates(rest)
    ensures NoDuplicates([x] + rest)
  {
    var l := [x] + rest;
    forall i, j | 0 <= i < j < |l| ensures l[i] != l[j] {
      assert l[j] == rest[j - 1];
      if i > 0 {
        assert l[i] == rest[i - 1];
      }
    }
  }

  lemma {:induction false} RemoveKeepsDistinct(fs: seq<Filter>, f: Filter)
    requires NoDuplicates(fs)
    ensures NoDuplicates(RemoveFilter(fs, f))
    decreases |fs|
  {
    if fs != [] {
      DistinctTail(fs);
      RemoveKeepsDistinct(fs[1..], f);
      var rest := RemoveFilter(fs[1..], f);
      if fs[0] != f {
        DistinctCons(fs[0], rest);
      } else {
        assert RemoveFilter(fs, f) == rest;
      }
    }
  }

  lemma {:induction false} RemoveAbsent(fs: seq<Filter>, f: Filter)
    requires f !in fs
    ensures RemoveFilter(fs, f) == fs
    decreases |fs|
  {
    if fs != [] {
      assert fs == [fs[0]] + fs[1..];
      RemoveAbsent(fs[1..], f);
    }
  }

  /** Adding a filter then removing it gives back a duplicate-free list
      without it: the pair is gone and every other entry stays. */
  lemma AddThenRemove(fs: seq<Filter>, f: Filter)
    requires NoDuplicates(fs)
    ensures f !in RemoveFilter(AddFilter(fs, f), f)
    ensures forall g :: g != f ==> (g in RemoveFilter(AddFilter(fs, f), f) <==> g in fs)
    ensures NoDuplicates(RemoveFilter(AddFilter(fs, f), f))
  {
    RemoveFilterProps(AddFilter(fs, f), f);
  }
}
