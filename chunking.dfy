/** The chunk cursor walk of `FileManager.text_splitter` (scripts/filemanagement.py)
    and what it means for citations.

    The token splitter itself is not modelled: its output, the chunk texts in
    order, is an input. The walk gives chunk `i` the character span that starts
    at the total length of chunks `0..i-1` and is as long as the chunk, and asks
    the resolver for that span's page range. */
module Chunking {
  import opened Wrappers
  import opened Text
  import opened PageMap
  import opened PageResolver

  /** One record `{'content', 'start_page', 'end_page'}` of the splitter's output. */
  datatype Chunk = Chunk(content: string, startPage: int, endPage: int)

  /** The page range the walk records for a span: the resolver's answer when the
      document has a page map, (1,1) otherwise. */
  function SpanPages(doc: DocumentText, chunkStart: int, chunkEnd: int): PageRange {
    if doc.pageMap != [] then Resolve(chunkStart, chunkEnd, doc.pageMap) else PageRange(1, 1)
  }

  /** The record the walk emits for chunk `i`. */
  function ExpectedChunk(doc: DocumentText, chunks: seq<string>, i: nat): Chunk
    requires i < |chunks|
  {
    var start := Offset(chunks, i);
    var r := SpanPages(doc, start, start + |chunks[i]|);
    Chunk(chunks[i], r.startPage, r.endPage)
  }

  /** `text_splitter` on the splitter's output `chunks`: one record per chunk, in
      order, with the chunk text unchanged and the pages of its cursor span. */
  method TextSplitter(doc: DocumentText, chunks: seq<string>) returns (chunkData: seq<Chunk>)
    ensures |chunkData| == |chunks|
    ensures forall i :: 0 <= i < |chunks| ==> chunkData[i] == ExpectedChunk(doc, chunks, i)
  {
    chunkData := [];
    var charPosition := 0;
    for i := 0 to |chunks|
      invariant charPosition == Offset(chunks, i)
      invariant |chunkData| == i
      invariant forall k :: 0 <= k < i ==> chunkData[k] == ExpectedChunk(doc, chunks, k)
    {
      var chunkText := chunks[i];
      var chunkStart := charPosition;
      var chunkEnd := charPosition + |chunkText|;
      var pageRange;
      if doc.pageMap != [] {
        pageRange := FindPageRange(chunkStart, chunkEnd, doc.pageMap);
      } else {
        pageRange := PageRange(1, 1);
      }
      chunkData := chunkData + [Chunk(chunkText, pageRange.startPage, pageRange.endPage)];
      OffsetStep(chunks, i);
      charPosition := chunkEnd;
    }
  }

  lemma ExpectedChunkPages(doc: DocumentText, chunks: seq<string>, i: nat)
    requires i < |chunks|
    ensures ExpectedChunk(doc, chunks, i).content == chunks[i]
    ensures ExpectedChunk(doc, chunks, i).startPage == SpanPages(doc, Offset(chunks, i), Offset(chunks, i) + |chunks[i]|).startPage
    ensures ExpectedChunk(doc, chunks, i).endPage == SpanPages(doc, Offset(chunks, i), Offset(chunks, i) + |chunks[i]|).endPage
  {
  }

  /** Without a page map every record defaults to pages (1,1). */
  lemma NoPageMapDefaultsToFirstPage(doc: DocumentText, chunks: seq<string>, i: nat)
    requires doc.pageMap == [] && i < |chunks|
    ensures ExpectedChunk(doc, chunks, i) == Chunk(chunks[i], 1, 1)
  {
  }

  /** The spans tile the walk: each chunk's span ends where the next one starts,
      and when the chunks concatenate to the content (a splitter without overlap),
      each span is exactly where its chunk sits in the content. */
  lemma SpansTileContent(content: string, chunks: seq<string>, i: nat)
    requires i < |chunks|
    ensures Offset(chunks, i) + |chunks[i]| == Offset(chunks, i + 1)
    ensures Concat(chunks) == content ==>
      Offset(chunks, i + 1) <= |content| && content[Offset(chunks, i)..Offset(chunks, i + 1)] == chunks[i]
  {
    OffsetStep(chunks, i);
    OffsetSlice(chunks, i, i + 1);
    assert chunks[i..i + 1] == [chunks[i]];
    assert Concat([chunks[i]]) == Concat([]) + chunks[i];
  }

  /** With overlapping chunks the cursor drifts: for pages "abcd","ef" and chunks
      "abcd","cdef" (two characters of overlap), the second chunk is given the
      span [4,8), which lies on page 2 only, and fetching page 2 gives "ef",
      which does not hold the chunk. */
  lemma OverlapDriftExample()
    ensures var pages := ["abcd", "ef"];
      var doc := DocumentText(Concat(pages), ExpectedPageMap(pages));
      && ExpectedChunk(doc, ["abcd", "cdef"], 1) == Chunk("cdef", 2, 2)
      && PageRangeText(pages, 2, 2) == "ef"
      && !exists off :: OccursAt("cdef", PageRangeText(pages, 2, 2), off)
  {
    var pages := ["abcd", "ef"];
    var pm := ExpectedPageMap(pages);
    assert pages[..1] == ["abcd"] && pages[..0] == [];
    assert pm == [PageMapEntry(0, 4, 1), PageMapEntry(4, 6, 2)];
    var chunks := ["abcd", "cdef"];
    assert chunks[..1] == ["abcd"];
    ResolveOverlap(4, 8, pm, 1, 1);
    assert pages[1..2] == ["ef"];
  }

  /** The chunks lie in the content at `starts`: chunk `i` is the text at
      offset `starts[i]`, overlapping chunks included. */
  predicate Located(content: string, chunks: seq<string>, starts: seq<int>) {
    |starts| == |chunks| && forall i :: 0 <= i < |chunks| ==> OccursAt(chunks[i], content, starts[i])
  }

  /** The record for chunk `i` when its span is where the chunk lies in the
      content, `starts[i]`, rather than where the cursor walk puts it. */
  function LocatedChunk(doc: DocumentText, chunks: seq<string>, starts: seq<int>, i: nat): Chunk
    requires i < |chunks| && |starts| == |chunks|
  {
    var r := SpanPages(doc, starts[i], starts[i] + |chunks[i]|);
    Chunk(chunks[i], r.startPage, r.endPage)
  }

  /** Without overlap the chunks lie at the cursor offsets, so the located
      records are the ones the walk emits. */
  lemma TilingIsLocated(doc: DocumentText, chunks: seq<string>, starts: seq<int>)
    requires Concat(chunks) == doc.content
    requires |starts| == |chunks| && forall i :: 0 <= i < |chunks| ==> starts[i] == Offset(chunks, i)
    ensures Located(doc.content, chunks, starts)
    ensures forall i :: 0 <= i < |chunks| ==> LocatedChunk(doc, chunks, starts, i) == ExpectedChunk(doc, chunks, i)
  {
    forall i | 0 <= i < |chunks|
      ensures OccursAt(chunks[i], doc.content, starts[i])
    {
      TiledChunkOccurs(doc.content, chunks, i);
    }
    forall i | 0 <= i < |chunks|
      ensures LocatedChunk(doc, chunks, starts, i) == ExpectedChunk(doc, chunks, i)
    {
      LocatedAtCursor(doc, chunks, starts, i);
    }
  }

  /** A chunk located at its cursor offset gets the walk's record. */
  lemma LocatedAtCursor(doc: DocumentText, chunks: seq<string>, starts: seq<int>, i: nat)
    requires i < |chunks| == |starts| && starts[i] == Offset(chunks, i)
    ensures LocatedChunk(doc, chunks, starts, i) == ExpectedChunk(doc, chunks, i)
  {
    var r := SpanPages(doc, starts[i], starts[i] + |chunks[i]|);
    assert LocatedChunk(doc, chunks, starts, i) == Chunk(chunks[i], r.startPage, r.endPage);
    assert ExpectedChunk(doc, chunks, i) == Chunk(chunks[i], r.startPage, r.endPage);
  }

  /** A chunk of a tiling occurs in the content at its cursor offset. */
  lemma TiledChunkOccurs(content: string, chunks: seq<string>, i: nat)
    requires Concat(chunks) == content && i < |chunks|
    ensures OccursAt(chunks[i], content, Offset(chunks, i))
  {
    SpansTileContent(content, chunks, i);
  }

  /** The citation round trip with located spans, overlap or not: the pages
      recorded for any non-empty chunk are real pages whose fetched text holds
      the chunk, at its offset from the start of the first page. */
  lemma LocatedCitationRoundTrip(pages: seq<string>, chunks: seq<string>, starts: seq<int>, i: nat) returns (off: int)
    requires i < |chunks| == |starts| && chunks[i] != []
    requires OccursAt(chunks[i], Concat(pages), starts[i])
    ensures var c := LocatedChunk(DocumentText(Concat(pages), ExpectedPageMap(pages)), chunks, starts, i);
      && c.content == chunks[i]
      && 1 <= c.startPage <= c.endPage <= |pages|
      && off == starts[i] - Offset(pages, c.startPage - 1)
      && OccursAt(chunks[i], PageRangeText(pages, c.startPage, c.endPage), off)
  {
    var content := Concat(pages);
    var cs, ce := LocatedSpan(content, chunks, starts, i);
    assert |pages| > 0 by { assert TotalLength([]) == 0; }
    var doc := DocumentText(content, ExpectedPageMap(pages));
    var r := LocatedPagesResolve(doc, chunks, starts, i, cs, ce);
    CitationCoversSpan(pages, cs, ce);
    off := cs - Offset(pages, r.startPage - 1);
  }

  /** Where a located chunk sits in the content. */
  lemma LocatedSpan(content: string, chunks: seq<string>, starts: seq<int>, i: nat) returns (cs: nat, ce: nat)
    requires i < |chunks| == |starts| && chunks[i] != []
    requires OccursAt(chunks[i], content, starts[i])
    ensures cs == starts[i] && ce == cs + |chunks[i]|
    ensures 0 <= cs < ce <= |content| && content[cs..ce] == chunks[i]
  {
    cs := starts[i];
    ce := cs + |chunks[i]|;
  }

  /** The pages recorded for a located chunk are the resolver's answer for its span. */
  lemma LocatedPagesResolve(doc: DocumentText, chunks: seq<string>, starts: seq<int>, i: nat, cs: int, ce: int)
    returns (r: PageRange)
    requires doc.pageMap != [] && i < |chunks| && |starts| == |chunks|
    requires cs == starts[i] && ce == cs + |chunks[i]|
    ensures r == Resolve(cs, ce, doc.pageMap)
    ensures var c := LocatedChunk(doc, chunks, starts, i);
      c.content == chunks[i] && c.startPage == r.startPage && c.endPage == r.endPage
  {
    SpanPagesResolve(doc, cs, ce);
    r := SpanPages(doc, cs, ce);
  }

  /** The drifting example located: the second chunk "cdef" lies at offset 2,
      is credited to pages 1-2, and fetching them gives "abcdef", which holds it. */
  lemma LocatedDriftExample()
    ensures var pages := ["abcd", "ef"];
      var doc := DocumentText(Concat(pages), ExpectedPageMap(pages));
      && Located(doc.content, ["abcd", "cdef"], [0, 2])
      && LocatedChunk(doc, ["abcd", "cdef"], [0, 2], 1) == Chunk("cdef", 1, 2)
      && OccursAt("cdef", PageRangeText(pages, 1, 2), 2)
  {
    var pages := ["abcd", "ef"];
    var pm := ExpectedPageMap(pages);
    assert pages[..1] == ["abcd"] && pages[..0] == [];
    assert pm == [PageMapEntry(0, 4, 1), PageMapEntry(4, 6, 2)];
    ResolveOverlap(2, 6, pm, 0, 1);
    assert pages[0..2] == pages;
  }

  // ---------------------------------------------------------------------------
  // Resolution on the page maps extraction builds

  /** The index of the first entry that ends after offset `c`, if any. */
  function FirstEndAbove(pm: seq<PageMapEntry>, c: int): (r: Option<nat>)
    ensures r.Some? ==> r.value < |pm| && pm[r.value].endChar > c
    ensures r.Some? ==> forall j :: 0 <= j < r.value ==> pm[j].endChar <= c
    ensures r.None? ==> forall j :: 0 <= j < |pm| ==> pm[j].endChar <= c
  {
    if pm == [] then None
    else
      var p := FirstEndAbove(pm[..|pm| - 1], c);
      if p.Some? then p
      else if pm[|pm| - 1].endChar > c then Some(|pm| - 1)
      else None
  }

  /** The 0-based page a span starting at `c` is resolved to start on. */
  function StartIndex(pm: seq<PageMapEntry>, c: int): nat
    requires |pm| > 0
  {
    match FirstEndAbove(pm, c)
    case Some(j) => j
    case None => Nearest(pm, c)
  }

  /** On an extraction map the start page of a non-empty span at `cs >= 0` is one
      past the first entry ending after `cs`; past the last entry the nearest
      fallback decides. */
  lemma {:induction false} ExtractionStartPage(pages: seq<string>, cs: int, ce: int)
    requires 0 <= cs < ce && |pages| > 0
    ensures Resolve(cs, ce, ExpectedPageMap(pages)).startPage == StartIndex(ExpectedPageMap(pages), cs) + 1
  {
    var pm := ExpectedPageMap(pages);
    match FirstEndAbove(pm, cs)
    case Some(j) =>
      FirstOverlapIsFirstEndAbove(pages, cs, ce, j);
      assert pm[j].pageNum == j + 1;
    case None =>
      NoOverlapPastLastEnd(pages, cs, ce);
      ContainmentFallbackUnreachable(cs, ce, pm);
      var k := Nearest(pm, cs);
      assert pm[k].pageNum == k + 1;
  }

  /** On an extraction map the first entry overlapping a span is the first one
      ending after its start. */
  lemma FirstOverlapIsFirstEndAbove(pages: seq<string>, cs: int, ce: int, j: nat)
    requires 0 <= cs < ce && |pages| > 0
    requires FirstEndAbove(ExpectedPageMap(pages), cs) == Some(j)
    ensures j < |pages| && FirstOverlap(ExpectedPageMap(pages), cs, ce) == Some(j)
    ensures ExpectedPageMap(pages)[j].startChar <= cs
  {
    var pm := ExpectedPageMap(pages);
    ExtractionMapCovers(pages);
    assert pm[j].startChar <= cs by {
      if j > 0 { assert pm[j].startChar <= pm[j - 1].endChar; }
    }
    assert Overlaps(pm[j], cs, ce);
  }

  /** A span starting after every entry has ended overlaps none. */
  lemma NoOverlapPastLastEnd(pages: seq<string>, cs: int, ce: int)
    requires cs < ce && FirstEndAbove(ExpectedPageMap(pages), cs).None?
    ensures FirstOverlap(ExpectedPageMap(pages), cs, ce).None?
  {
  }

  /** The start index never moves backwards as the span start moves forward. */
  lemma {:induction false} StartIndexMonotone(pages: seq<string>, c1: int, c2: int)
    requires 0 <= c1 <= c2 && |pages| > 0
    ensures StartIndex(ExpectedPageMap(pages), c1) <= StartIndex(ExpectedPageMap(pages), c2)
  {
    var pm := ExpectedPageMap(pages);
    var a := FirstEndAbove(pm, c1);
    var b := FirstEndAbove(pm, c2);
    if b.Some? {
      assert a.Some?;
    } else if a.Some? {
    } else {
      var k1 := Nearest(pm, c1);
      var k2 := Nearest(pm, c2);
      forall j | 0 <= j < |pm|
        ensures Distance(pm[j], c2) == Distance(pm[j], c1) + (c2 - c1)
      {
        if j + 1 < |pm| {
          EntriesOrdered(pages, j, j + 1);
        } else if j > 0 {
          EntriesOrdered(pages, j - 1, j);
        }
      }
    }
  }

  /** On an extraction map the start page recorded for a non-empty chunk is one
      past the start index of its span (and 1 for a document without pages). */
  lemma ChunkStartIndex(pages: seq<string>, doc: DocumentText, chunks: seq<string>, i: nat)
    requires doc.pageMap == ExpectedPageMap(pages)
    requires i < |chunks| && chunks[i] != []
    ensures ExpectedChunk(doc, chunks, i).startPage
         == if |pages| > 0 then StartIndex(doc.pageMap, Offset(chunks, i)) + 1 else 1
  {
    ExpectedChunkPages(doc, chunks, i);
    if |pages| > 0 {
      ExtractionStartPage(pages, Offset(chunks, i), Offset(chunks, i) + |chunks[i]|);
    }
  }

  /** Start pages never decrease along the chunk sequence: for a document whose
      page map comes from extraction, a non-empty chunk never starts on an
      earlier page than a non-empty chunk before it. */
  lemma StartPagesMonotone(pages: seq<string>, doc: DocumentText, chunks: seq<string>, i: nat, k: nat)
    requires doc.pageMap == ExpectedPageMap(pages)
    requires i < k < |chunks| && chunks[i] != [] && chunks[k] != []
    ensures ExpectedChunk(doc, chunks, i).startPage <= ExpectedChunk(doc, chunks, k).startPage
  {
    ChunkStartIndex(pages, doc, chunks, i);
    ChunkStartIndex(pages, doc, chunks, k);
    if |pages| > 0 {
      OffsetMonotone(chunks, i, k);
      StartIndexMonotone(pages, Offset(chunks, i), Offset(chunks, k));
    }
  }

  /** A non-empty span of the extracted content resolves to a range of real
      pages whose text spans it: the first page starts at or before the span and
      the page after the last starts at or after its end. */
  lemma {:induction false} SpanResolvesToCoveringPages(pages: seq<string>, cs: int, ce: int)
    requires 0 <= cs < ce <= |Concat(pages)|
    ensures var r := Resolve(cs, ce, ExpectedPageMap(pages));
      && 1 <= r.startPage <= r.endPage <= |pages|
      && Offset(pages, r.startPage - 1) <= cs && ce <= Offset(pages, r.endPage)
  {
    assert TotalLength([]) == 0;
    var j := SpanFirstPage(pages, cs, ce);
    var l := SpanLastPage(pages, cs, ce, j);
    assert Resolve(cs, ce, ExpectedPageMap(pages)) == PageRange(j + 1, l + 1);
  }

  /** The first page overlapping a non-empty span is the first one ending after
      its start, and starts at or before it. */
  lemma SpanFirstPage(pages: seq<string>, cs: int, ce: int) returns (j: nat)
    requires 0 <= cs < ce <= |Concat(pages)| && |pages| > 0
    ensures j < |pages| && FirstOverlap(ExpectedPageMap(pages), cs, ce) == Some(j)
    ensures Offset(pages, j) <= cs && ExpectedPageMap(pages)[j].pageNum == j + 1
  {
    var pm := ExpectedPageMap(pages);
    ExtractionMapCovers(pages);
    j := FirstEndAbove(pm, cs).value;
    FirstOverlapIsFirstEndAbove(pages, cs, ce, j);
    OffsetIsStart(pages, j);
  }

  lemma OffsetIsStart(pages: seq<string>, j: nat)
    requires j < |pages|
    ensures ExpectedPageMap(pages)[j].startChar == Offset(pages, j)
    ensures ExpectedPageMap(pages)[j].pageNum == j + 1
  {
  }

  /** The last page overlapping the span ends it: the page after it starts at or
      after the span's end. */
  lemma SpanLastPage(pages: seq<string>, cs: int, ce: int, j: nat) returns (l: nat)
    requires 0 <= cs < ce <= |Concat(pages)| && j < |pages|
    requires FirstOverlap(ExpectedPageMap(pages), cs, ce) == Some(j)
    ensures j <= l < |pages| && LastOverlap(ExpectedPageMap(pages), cs, ce) == Some(l)
    ensures ce <= Offset(pages, l + 1) && ExpectedPageMap(pages)[l].pageNum == l + 1
  {
    var n := |pages|;
    var pm := ExpectedPageMap(pages);
    l := LastOverlap(pm, cs, ce).value;
    if l + 1 < n {
      EntriesOrdered(pages, l, l + 1);
      assert !Overlaps(pm[l + 1], cs, ce);
    } else {
      ExtractionMapCovers(pages);
      assert pages[..n] == pages;
    }
  }

  /** Fetching pages `s..e` returns text that holds every span lying between the
      start of page `s` and the end of page `e`, at its offset from page `s`. */
  lemma FetchContainsSpan(pages: seq<string>, s: int, e: int, cs: int, ce: int)
    requires 1 <= s <= e <= |pages|
    requires Offset(pages, s - 1) <= cs <= ce <= Offset(pages, e)
    ensures Offset(pages, e) <= |Concat(pages)|
    ensures OccursAt(Concat(pages)[cs..ce], PageRangeText(pages, s, e), cs - Offset(pages, s - 1))
  {
    var content := Concat(pages);
    var a := Offset(pages, s - 1);
    var b := Offset(pages, e);
    OffsetSlice(pages, s - 1, e);
    assert PageRangeText(pages, s, e) == content[a..b];
    SliceOfSlice(content, a, b, cs, ce);
  }

  /** The citation round trip: a non-empty span of the extracted content resolves
      to a range of real pages, and fetching that range returns text that holds
      the span, at its offset from the start of the first page. */
  lemma CitationCoversSpan(pages: seq<string>, cs: int, ce: int)
    requires 0 <= cs < ce <= |Concat(pages)|
    ensures var r := Resolve(cs, ce, ExpectedPageMap(pages));
      && 1 <= r.startPage <= r.endPage <= |pages|
      && OccursAt(Concat(pages)[cs..ce], PageRangeText(pages, r.startPage, r.endPage),
                  cs - Offset(pages, r.startPage - 1))
  {
    SpanResolvesToCoveringPages(pages, cs, ce);
    var r := Resolve(cs, ce, ExpectedPageMap(pages));
    FetchContainsSpan(pages, r.startPage, r.endPage, cs, ce);
  }

  /** Extract, split and fetch: when the chunks tile the extracted content, the
      pages recorded for any non-empty chunk fetch a text that contains it, at
      the chunk's offset from the start of its first page. */
  lemma ChunkCitationRoundTrip(pages: seq<string>, chunks: seq<string>, i: nat) returns (off: int)
    requires Concat(chunks) == Concat(pages)
    requires i < |chunks| && chunks[i] != []
    ensures var c := ExpectedChunk(DocumentText(Concat(pages), ExpectedPageMap(pages)), chunks, i);
      && c.content == chunks[i]
      && 1 <= c.startPage <= c.endPage <= |pages|
      && off == Offset(chunks, i) - Offset(pages, c.startPage - 1)
      && OccursAt(chunks[i], PageRangeText(pages, c.startPage, c.endPage), off)
  {
    var content := Concat(pages);
    var cs, ce := ChunkSpan(content, chunks, i);
    assert |pages| > 0 by { assert TotalLength([]) == 0; }
    var doc := DocumentText(content, ExpectedPageMap(pages));
    var r := ChunkPagesResolve(doc, chunks, i, cs, ce);
    CitationCoversSpan(pages, cs, ce);
    off := cs - Offset(pages, r.startPage - 1);
  }

  /** The pages recorded for a chunk are the resolver's answer for its span. */
  lemma ChunkPagesResolve(doc: DocumentText, chunks: seq<string>, i: nat, cs: int, ce: int) returns (r: PageRange)
    requires doc.pageMap != [] && i < |chunks|
    requires cs == Offset(chunks, i) && ce == cs + |chunks[i]|
    ensures r == Resolve(cs, ce, doc.pageMap)
    ensures var c := ExpectedChunk(doc, chunks, i);
      c.content == chunks[i] && c.startPage == r.startPage && c.endPage == r.endPage
  {
    ExpectedChunkPages(doc, chunks, i);
    SpanPagesResolve(doc, cs, ce);
    r := SpanPages(doc, cs, ce);
  }

  lemma SpanPagesResolve(doc: DocumentText, cs: int, ce: int)
    requires doc.pageMap != []
    ensures SpanPages(doc, cs, ce) == Resolve(cs, ce, doc.pageMap)
  {
  }

  /** Where a chunk of a tiling sits in the content. */
  lemma ChunkSpan(content: string, chunks: seq<string>, i: nat) returns (cs: nat, ce: nat)
    requires Concat(chunks) == content
    requires i < |chunks| && chunks[i] != []
    ensures cs == Offset(chunks, i) && ce == cs + |chunks[i]|
    ensures 0 <= cs < ce <= |content| && content[cs..ce] == chunks[i]
  {
    SpansTileContent(content, chunks, i);
    cs := Offset(chunks, i);
    ce := cs + |chunks[i]|;
  }
}
