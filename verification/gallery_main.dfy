/** The state of the single-file gallery: all items, the items on show and
    the active filters, changed by loading, adding and removing filters. */
module GalleryMain {
  import opened Common
  import opened Traits
  import opened TraitCounts
  import opened TraitOrder
  import opened Render

  class MainGallery {
    var metadata: seq<Item>
    var filteredMetadata: seq<Item>
    var activeFilters: seq<Filter>

    ghost predicate Valid()
      reads this
    {
      NoDuplicates(activeFilters)
    }

    constructor ()
      ensures Valid()
      ensures metadata == [] && filteredMetadata == [] && activeFilters == []
    {
      metadata := [];
      filteredMetadata := [];
      activeFilters := [];
    }

    /** `loadMetadata`: the fetched list becomes the items and the items on
        show; a failed fetch or parse leaves the state as it was. */
    method LoadMetadata(response: Option<seq<Item>>)
      modifies this`metadata, this`filteredMetadata
      ensures response.Some? ==> metadata == response.value && filteredMetadata == response.value
      ensures response.None? ==> metadata == old(metadata) && filteredMetadata == old(filteredMetadata)
    {
      if response.Some? {
        metadata := response.value;
        filteredMetadata := metadata;
      }
    }

    /** `applyFilters`: recompute the items on show, then render them and
        the count line. */
    method ApplyFilters() returns (plan: Plan, count: string)
      requires Valid()
      modifies this`filteredMetadata
      ensures Valid()
      ensures filteredMetadata == Traits.ApplyFilters(metadata, activeFilters)
      ensures plan.EmptyState? <==> filteredMetadata == []
      ensures plan.AllAtOnce? ==> plan.items == filteredMetadata
      ensures plan.Chunked? ==> Flatten(plan.chunks) == filteredMetadata
      ensures count == ResultsText(|filteredMetadata|, |metadata|)
    {
      if |activeFilters| == 0 {
        filteredMetadata := metadata;
      } else {
        filteredMetadata := Select(metadata, activeFilters);
      }
      plan := DisplayGallery(filteredMetadata);
      count := ResultsText(|filteredMetadata|, |metadata|);
    }

    /** `addFilter`: an already active pair changes nothing; a new pair is
        appended and the filters are applied. */
    method AddFilter(traitType: string, value: string) returns (applied: bool)
      requires Valid()
      modifies this`activeFilters, this`filteredMetadata
      ensures Valid()
      ensures applied <==> Filter(traitType, value) !in old(activeFilters)
      ensures activeFilters == Traits.AddFilter(old(activeFilters), Filter(traitType, value))
      ensures applied ==> filteredMetadata == Traits.ApplyFilters(metadata, activeFilters)
      ensures !applied ==> filteredMetadata == old(filteredMetadata)
    {
      var f := Filter(traitType, value);
      if f in activeFilters {
        return false;
      }
      activeFilters := activeFilters + [f];
      var _, _ := ApplyFilters();
      applied := true;
    }

    /** `removeFilter`: every entry equal to the pair goes, then the filters
        are applied. */
    method RemoveFilter(traitType: string, value: string)
      requires Valid()
      modifies this`activeFilters, this`filteredMetadata
      ensures Valid()
      ensures activeFilters == Traits.RemoveFilter(old(activeFilters), Filter(traitType, value))
      ensures filteredMetadata == Traits.ApplyFilters(metadata, activeFilters)
    {
      RemoveFilterProps(activeFilters, Filter(traitType, value));
      activeFilters := Traits.RemoveFilter(activeFilters, Filter(traitType, value));
      var _, _ := ApplyFilters();
    }

    /** `populateAvailableFilters`: nothing without items; otherwise the
        counted and pruned table, with its trait types in panel order. */
    method PopulateAvailableFilters() returns (panel: Option<(seq<string>, Counts)>)
      ensures panel.None? <==> metadata == []
      ensures panel.Some? ==>
                && panel.value.1 == Pruned(Tally(AllAttributes(metadata)))
                && panel.value.0 == SortTraitTypes(TraitKeys(AllAttributes(metadata)))
                && (forall t :: t in panel.value.0 <==> t in panel.value.1)
    {
      if |metadata| == 0 {
        return None;
      }
      var counts := BuildTraitValueCounts(metadata);
      counts := RemoveRedundantTraits(counts);
      var attrs := AllAttributes(metadata);
      var keys := TraitKeys(attrs);
      var sorted := SortTraitTypes(keys);
      forall t ensures t in sorted <==> t in counts {
        TallyTraits(attrs, t);
        assert t in sorted <==> t in multiset(sorted);
        assert t in keys <==> t in multiset(keys);
      }
      panel := Some((sorted, counts));
    }
  }
}
