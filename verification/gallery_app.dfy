/** The state of the chunked gallery: the metadata arrives as numbered
    chunk files, the first loaded up front and the rest in batches from a
    background worker. */
module GalleryApp {
  import opened Common
  import opened Traits
  import opened TraitCounts
  import opened Render

  const CHUNK_COUNT: nat := 10
  const INITIAL_CHUNKS: nat := 1
  /** The metadata length at which a batch refreshes the panel and count. */
  const REFRESH_EVERY: nat := 400
  /** The batch size the gallery asks the worker for. */
  const WORKER_BATCH_SIZE: nat := 200

  /** `CHUNK_PATTERN` with its single "{i}" replaced by `n`. */
  function ChunkFile(n: nat): string {
    "./data/Ooman_metadata_" + NatToString(n) + ".json"
  }

  /** `getChunkFiles`: the file names for 1..CHUNK_COUNT, in order. */
  function ChunkFiles(): (r: seq<string>)
    ensures |r| == CHUNK_COUNT
    ensures forall i :: 0 <= i < CHUNK_COUNT ==> r[i] == ChunkFile(i + 1)
  {
    seq(CHUNK_COUNT, i requires 0 <= i => ChunkFile(i + 1))
  }

  /** Different numbers give different file names. */
  lemma ChunkFileInjective(m: nat, n: nat)
    requires ChunkFile(m) == ChunkFile(n)
    ensures m == n
  {
    var p := "./data/Ooman_metadata_";
    var a := NatToString(m);
    var b := NatToString(n);
    assert |a| == |b|;
    assert (p + a + ".json")[|p|..|p| + |a|] == a;
    assert (p + b + ".json")[|p|..|p| + |b|] == b;
    NatToStringInjective(m, n);
  }

  /** Every chunk file is a distinct file. */
  lemma ChunkFilesDistinct(i: nat, j: nat)
    requires i < j < CHUNK_COUNT
    ensures ChunkFiles()[i] != ChunkFiles()[j]
  {
    if ChunkFiles()[i] == ChunkFiles()[j] {
      ChunkFileInjective(i + 1, j + 1);
    }
  }

  /** The items of the fulfilled fetches, in file order (`allSettled`,
      keep "fulfilled", `flatMap`). */
  function Fulfilled(files: seq<string>, fetch: string -> Option<seq<Item>>): seq<Item>
    decreases |files|
  {
    if files == [] then []
    else
      var f := files[|files| - 1];
      Fulfilled(files[..|files| - 1], fetch) + (if fetch(f).Some? then fetch(f).value else [])
  }

  /** A rejected fetch contributes nothing; a fulfilled one its items. */
  lemma {:induction false} FulfilledAppend(a: seq<string>, b: seq<string>, fetch: string -> Option<seq<Item>>)
    ensures Fulfilled(a + b, fetch) == Fulfilled(a, fetch) + Fulfilled(b, fetch)
    decreases |b|
  {
    if b == [] {
      assert a + b == a;
    } else {
      assert (a + b)[..|a + b| - 1] == a + b[..|b| - 1];
      FulfilledAppend(a, b[..|b| - 1], fetch);
    }
  }

  /** `loadBackground`: nothing to do without remaining files or without
      worker support; otherwise the metadata worker is asked for the files,
      in batches of `WORKER_BATCH_SIZE`. */
  function BackgroundRequest(files: seq<string>, hasWorker: bool): (r: Option<(seq<string>, nat)>)
    ensures r.None? <==> files == [] || !hasWorker
    ensures r.Some? ==> r.value.0 == files && r.value.1 == WORKER_BATCH_SIZE
  {
    if files == [] || !hasWorker then None else Some((files, WORKER_BATCH_SIZE))
  }

  /** After the first load, a browser with workers always asks for the
      other nine chunk files. */
  lemma RemainingRequested(remaining: seq<string>)
    requires ChunkFiles()[..INITIAL_CHUNKS] + remaining == ChunkFiles()
    ensures BackgroundRequest(remaining, true) == Some((ChunkFiles()[INITIAL_CHUNKS..], WORKER_BATCH_SIZE))
    ensures |remaining| == CHUNK_COUNT - INITIAL_CHUNKS
  {
    var files := ChunkFiles();
    assert remaining == (files[..INITIAL_CHUNKS] + remaining)[INITIAL_CHUNKS..];
  }

  class AppGallery {
    var metadata: seq<Item>
    var filteredMetadata: seq<Item>
    var activeFilters: seq<Filter>

    ghost predicate Valid()
      reads this
    {
      NoDuplicates(activeFilters)
    }

    constructor ()
      ensures Valid()
      ensures metadata == [] && filteredMetadata == [] && activeFilters == []
    {
      metadata := [];
      filteredMetadata := [];
      activeFilters := [];
    }

    /** `loadMetadata`: the first `INITIAL_CHUNKS` files are fetched, the
        items of those that arrive become the items and the items on show;
        the other files are handed to the background loader. `fetch` is what
        the network answered for each file (`None` for a rejection). */
    method LoadMetadata(fetch: string -> Option<seq<Item>>) returns (remaining: seq<string>, plan: Plan)
      modifies this`metadata, this`filteredMetadata
      ensures ChunkFiles()[..INITIAL_CHUNKS] + remaining == ChunkFiles()
      ensures |remaining| == CHUNK_COUNT - INITIAL_CHUNKS
      ensures metadata == Fulfilled(ChunkFiles()[..INITIAL_CHUNKS], fetch)
      ensures filteredMetadata == metadata
      ensures plan.EmptyState? <==> metadata == []
    {
      var files := ChunkFiles();
      var initial := files[..INITIAL_CHUNKS];
      remaining := files[INITIAL_CHUNKS..];
      metadata := Fulfilled(initial, fetch);
      filteredMetadata := metadata;
      plan := DisplayGallery(metadata);
    }

    /** A "batch" message of the background worker: the data joins the
        items, and the items on show only while no filter is active. It is
        drawn when that makes the item count a multiple of 400; the panel
        and count are refreshed at the same points. */
    method OnBatch(data: seq<Item>) returns (drawn: bool, refresh: bool)
      modifies this`metadata, this`filteredMetadata
      ensures metadata == old(metadata) + data
      ensures activeFilters == [] ==> filteredMetadata == old(filteredMetadata) + data
      ensures activeFilters != [] ==> filteredMetadata == old(filteredMetadata)
      ensures drawn <==> activeFilters == [] && |metadata| % REFRESH_EVERY == 0
      ensures refresh <==> |metadata| % REFRESH_EVERY == 0
    {
      metadata := metadata + data;
      drawn := false;
      if |activeFilters| == 0 {
        filteredMetadata := filteredMetadata + data;
        drawn := |metadata| % REFRESH_EVERY == 0;
      }
      refresh := |metadata| % REFRESH_EVERY == 0;
    }

    /** `applyFilters`. */
    method ApplyFilters() returns (plan: Plan, count: string)
      requires Valid()
      modifies this`filteredMetadata
      ensures Valid()
      ensures filteredMetadata == Traits.ApplyFilters(metadata, activeFilters)
      ensures plan.EmptyState? <==> filteredMetadata == []
      ensures plan.AllAtOnce? ==> plan.items == filteredMetadata
      ensures plan.Chunked? ==> Flatten(plan.chunks) == filteredMetadata
      ensures count == ResultsText(|filteredMetadata|, |metadata|)
    {
      filteredMetadata := if |activeFilters| == 0 then metadata else Select(metadata, activeFilters);
      plan := DisplayGallery(filteredMetadata);
      count := ResultsText(|filteredMetadata|, |metadata|);
    }

    /** `addFilter`. */
    method AddFilter(traitType: string, value: string) returns (applied: bool)
      requires Valid()
      modifies this`activeFilters, this`filteredMetadata
      ensures Valid()
      ensures applied <==> Filter(traitType, value) !in old(activeFilters)
      ensures activeFilters == Traits.AddFilter(old(activeFilters), Filter(traitType, value))
      ensures applied ==> filteredMetadata == Traits.ApplyFilters(metadata, activeFilters)
      ensures !applied ==> filteredMetadata == old(filteredMetadata)
    {
      var f := Filter(traitType, value);
      if f in activeFilters {
        return false;
      }
      activeFilters := activeFilters + [f];
      var _, _ := ApplyFilters();
      applied := true;
    }

    /** `removeFilter`. */
    method RemoveFilter(traitType: string, value: string)
      requires Valid()
      modifies this`activeFilters, this`filteredMetadata
      ensures Valid()
      ensures activeFilters == Traits.RemoveFilter(old(activeFilters), Filter(traitType, value))
      ensures filteredMetadata == Traits.ApplyFilters(metadata, activeFilters)
    {
      RemoveFilterProps(activeFilters, Filter(traitType, value));
      activeFilters := Traits.RemoveFilter(activeFilters, Filter(traitType, value));
      var _, _ := ApplyFilters();
    }

    /** `updateFilters`: the counted and pruned table, its trait types in
        the order the counting loop first met them (this gallery does not
        sort them). */
    method UpdateFilters() returns (categories: seq<string>, counts: Counts)
      ensures counts == Pruned(Tally(AllAttributes(metadata)))
      ensures categories == TraitKeys(AllAttributes(metadata))
      ensures forall t :: t in categories <==> t in counts
    {
      counts := BuildTraitValueCounts(metadata);
      counts := RemoveRedundantTraits(counts);
      var attrs := AllAttributes(metadata);
      categories := TraitKeys(attrs);
      forall t ensures t in categories <==> t in counts {
        TallyTraits(attrs, t);
      }
    }
  }

  /** While no filter is active the items on show stay all the items,
      batch after batch; with filters active, the items a batch would add
      to the selection are those of the batch that match. */
  lemma BatchKeepsSelection(metadata: seq<Item>, data: seq<Item>, filters: seq<Filter>)
    ensures Traits.ApplyFilters(metadata + data, []) == Traits.ApplyFilters(metadata, []) + data
    ensures Traits.ApplyFilters(metadata + data, filters)
            == Traits.ApplyFilters(metadata, filters) + Traits.ApplyFilters(data, filters)
  {
    SelectAppend(metadata, data, filters);
  }
}
