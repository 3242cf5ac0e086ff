/** What the galleries render, as values: the coloured spans of a name,
    the results-count line, and the plan for showing a list of items (an
    empty state, everything at once, or consecutive slices of at most
    `RENDER_CHUNK_SIZE` items, one slice per animation frame). */
module Render {
  import opened Common
  import opened Traits

  /** `CHUNK_SIZE` of the first gallery and `RENDER_CHUNK_SIZE` of the second. */
  const RENDER_CHUNK_SIZE: nat := 100

  // ---------------------------------------------------------------
  // Colouring
  // ---------------------------------------------------------------

  /** A `<span class="c{cls}">{content}</span>`. */
  datatype Span = Span(cls: nat, content: string)

  /** The span of the character at position `i`. */
  function SpanAt(c: char, i: nat): Span {
    if c == '#' then Span(6, " #") else Span(i % 6 + 1, [c])
  }

  /** `colorizeText` / `colorize`: one span per character; '#' becomes the
      class-6 span " #", any other character at position i gets class
      (i mod 6) + 1. */
  function ColorSpans(text: string): (r: seq<Span>)
    ensures |r| == |text|
    ensures forall i :: 0 <= i < |text| ==> 1 <= r[i].cls <= 6
    ensures forall i :: 0 <= i < |text| && text[i] == '#' ==> r[i] == Span(6, " #")
    ensures forall i :: 0 <= i < |text| && text[i] != '#' ==> r[i] == Span(i % 6 + 1, [text[i]])
    decreases |text|
  {
    if text == [] then []
    else
      var init := text[..|text| - 1];
      assert forall i :: 0 <= i < |init| ==> init[i] == text[i];
      ColorSpans(init) + [SpanAt(text[|text| - 1], |text| - 1)]
  }

  /** The HTML of the spans, joined with no separator. */
  function Markup(spans: seq<Span>): string
    decreases |spans|
  {
    if spans == [] then []
    else
      var s := spans[|spans| - 1];
      Markup(spans[..|spans| - 1]) + "<span class=\"c" + NatToString(s.cls) + "\">" + s.content + "</span>"
  }

  function Colorize(text: string): string {
    Markup(ColorSpans(text))
  }

  /** The text a reader sees: the contents of the spans in order. */
  function VisibleText(spans: seq<Span>): string
    decreases |spans|
  {
    if spans == [] then [] else VisibleText(spans[..|spans| - 1]) + spans[|spans| - 1].content
  }

  /** The input with every '#' preceded by a space. */
  function SpaceBeforeHash(text: string): string
    decreases |text|
  {
    if text == [] then []
    else SpaceBeforeHash(text[..|text| - 1]) + (if text[|text| - 1] == '#' then " #" else [text[|text| - 1]])
  }

  /** Colouring keeps every character, in order, and only adds a space
      before each '#'. */
  lemma {:induction false} ColorSpansText(text: string)
    ensures VisibleText(ColorSpans(text)) == SpaceBeforeHash(text)
    decreases |text|
  {
    if text != [] {
      var init := text[..|text| - 1];
      ColorSpansText(init);
      var spans := ColorSpans(text);
      assert spans[..|spans| - 1] == ColorSpans(init);
    }
  }

  // ---------------------------------------------------------------
  // The results-count line
  // ---------------------------------------------------------------

  /** `updateResultsCount` / `updateCount`. */
  function ResultsText(filtered: nat, total: nat): (r: string)
    ensures filtered == total ==> r == "Showing all " + NatToString(total) + " items"
    ensures filtered != total ==> r == "Showing " + NatToString(filtered) + " of " + NatToString(total) + " items"
  {
    if filtered == total then "Showing all " + NatToString(total) + " items"
    else "Showing " + NatToString(filtered) + " of " + NatToString(total) + " items"
  }

  /** The line says "all" exactly when every item is shown. */
  lemma ResultsTextSaysAll(filtered: nat, total: nat)
    ensures |ResultsText(filtered, total)| >= 12
    ensures ResultsText(filtered, total)[..12] == "Showing all " <==> filtered == total
  {
    var r := ResultsText(filtered, total);
    if filtered != total {
      var d := NatToString(filtered);
      assert r[8] == d[0];
      assert r[..12][8] == r[8];
    }
  }

  // ---------------------------------------------------------------
  // Rendering a list of items
  // ---------------------------------------------------------------

  /** The slices `renderChunks` / `renderChunked` append, frame by frame:
      from `index` to `index + size`, then `index` advances by `size`. */
  method RenderChunks(items: seq<Item>, size: nat) returns (chunks: seq<seq<Item>>)
    requires size > 0
    ensures Flatten(chunks) == items
    ensures forall k :: 0 <= k < |chunks| ==> 0 < |chunks[k]| <= size
    ensures forall k :: 0 <= k < |chunks| - 1 ==> |chunks[k]| == size
    ensures |chunks| == (|items| + size - 1) / size
  {
    chunks := [];
    var index := 0;
    while index < |items|
      invariant 0 <= index
      invariant Flatten(chunks) == items[..Min(index, |items|)]
      invariant forall k :: 0 <= k < |chunks| ==> 0 < |chunks[k]| <= size
      invariant forall k :: 0 <= k < |chunks| - 1 ==> |chunks[k]| == size
      invariant index < |items| ==> forall k :: 0 <= k < |chunks| ==> |chunks[k]| == size
      invariant index == |chunks| * size
      invariant chunks != [] ==> (|chunks| - 1) * size < |items|
      decreases |items| - index
    {
      var chunk := items[index..Min(index + size, |items|)];
      ChunkStep(items, chunks, chunk, index, size);
      chunks := chunks + [chunk];
      index := index + size;
    }
    CeilingCount(|items|, size, |chunks|);
  }

  /** One frame of `RenderChunks`: the slice extends what is already shown,
      and the counts stay in step with the index. */
  lemma ChunkStep(items: seq<Item>, chunks: seq<seq<Item>>, chunk: seq<Item>, index: nat, size: nat)
    requires size > 0 && index < |items|
    requires chunk == items[index..Min(index + size, |items|)]
    requires Flatten(chunks) == items[..index]
    requires index == |chunks| * size
    ensures Flatten(chunks + [chunk]) == items[..Min(index + size, |items|)]
    ensures 0 < |chunk| <= size
    ensures index + size == |chunks + [chunk]| * size
    ensures (|chunks + [chunk]| - 1) * size < |items|
  {
    FlattenSnoc(chunks, chunk);
    assert items[..Min(index + size, |items|)] == items[..index] + chunk;
    assert |chunks + [chunk]| * size == |chunks| * size + size;
  }

  /** The number of slices is the length divided by the size, rounded up. */
  lemma CeilingCount(n: nat, size: nat, count: nat)
    requires size > 0
    requires count * size >= n
    requires count == 0 || (count - 1) * size < n
    ensures count == (n + size - 1) / size
  {
    if count > 0 {
      assert (count - 1) * size == count * size - size;
    }
    DivUnique(n + size - 1, size, count, n + size - 1 - count * size);
  }

  lemma DivUnique(a: int, size: int, q: int, r: int)
    requires size > 0 && 0 <= r < size && a == q * size + r
    ensures a / size == q
  {
    var q' := a / size;
    var r' := a % size;
    assert a == q' * size + r';
    var d := q - q';
    assert d * size == q * size - q' * size;
    if d >= 1 {
      MulAtLeast(d, size);
    } else if d <= -1 {
      MulAtLeast(-d, size);
    }
  }

  lemma MulAtLeast(d: int, size: int)
    requires d >= 1 && size > 0
    ensures d * size >= size
  {
    assert d * size == (d - 1) * size + size;
  }

  datatype Plan = EmptyState | AllAtOnce(items: seq<Item>) | Chunked(chunks: seq<seq<Item>>)

  /** `displayGallery` / `renderGallery`: the empty state for no items, a
      single append for at most `RENDER_CHUNK_SIZE` items, slices otherwise. */
  method DisplayGallery(items: seq<Item>) returns (plan: Plan)
    ensures plan.EmptyState? <==> items == []
    ensures plan.AllAtOnce? ==> plan.items == items && 0 < |items| <= RENDER_CHUNK_SIZE
    ensures plan.Chunked? ==>
              && |items| > RENDER_CHUNK_SIZE && Flatten(plan.chunks) == items
              && |plan.chunks| >= 2
              && (forall k :: 0 <= k < |plan.chunks| ==> 0 < |plan.chunks[k]| <= RENDER_CHUNK_SIZE)
              && (forall k :: 0 <= k < |plan.chunks| - 1 ==> |plan.chunks[k]| == RENDER_CHUNK_SIZE)
  {
    if |items| == 0 {
      return EmptyState;
    }
    if |items| > RENDER_CHUNK_SIZE {
      var chunks := RenderChunks(items, RENDER_CHUNK_SIZE);
      return Chunked(chunks);
    }
    return AllAtOnce(items);
  }
}
