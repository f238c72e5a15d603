/** `FileManager.find_page_range` from scripts/filemanagement.py: the inclusive
    page range a chunk's character span `[chunk_start, chunk_end)` belongs to,
    found by an overlap scan, then a containment fallback, then a nearest-page
    fallback. */
module PageResolver {
  import opened Wrappers
  import opened PageMap

  datatype PageRange = PageRange(startPage: int, endPage: int)

  /** Half-open interval overlap between the chunk and an entry. */
  predicate Overlaps(e: PageMapEntry, chunkStart: int, chunkEnd: int) {
    chunkStart < e.endChar && chunkEnd > e.startChar
  }

  predicate ContainsOffset(e: PageMapEntry, c: int) {
    e.startChar <= c < e.endChar
  }

  /** The distance the nearest-page fallback measures from `c` to an entry. */
  function Distance(e: PageMapEntry, c: int): (d: int)
    ensures d >= 0
    ensures d == 0 <==> ContainsOffset(e, c)
  {
    if c < e.startChar then e.startChar - c
    else if c >= e.endChar then c - e.endChar + 1
    else 0
  }

  /** The index of the first overlapping entry, if any. */
  function FirstOverlap(pm: seq<PageMapEntry>, chunkStart: int, chunkEnd: int): (r: Option<nat>)
    ensures r.Some? ==> r.value < |pm| && Overlaps(pm[r.value], chunkStart, chunkEnd)
    ensures r.Some? ==> forall j :: 0 <= j < r.value ==> !Overlaps(pm[j], chunkStart, chunkEnd)
    ensures r.None? ==> forall j :: 0 <= j < |pm| ==> !Overlaps(pm[j], chunkStart, chunkEnd)
  {
    if pm == [] then None
    else
      var p := FirstOverlap(pm[..|pm| - 1], chunkStart, chunkEnd);
      if p.Some? then p
      else if Overlaps(pm[|pm| - 1], chunkStart, chunkEnd) then Some(|pm| - 1)
      else None
  }

  /** The index of the last overlapping entry, if any. */
  function LastOverlap(pm: seq<PageMapEntry>, chunkStart: int, chunkEnd: int): (r: Option<nat>)
    ensures r.Some? ==> r.value < |pm| && Overlaps(pm[r.value], chunkStart, chunkEnd)
    ensures r.Some? ==> forall j :: r.value < j < |pm| ==> !Overlaps(pm[j], chunkStart, chunkEnd)
    ensures r.None? ==> forall j :: 0 <= j < |pm| ==> !Overlaps(pm[j], chunkStart, chunkEnd)
  {
    if pm == [] then None
    else if Overlaps(pm[|pm| - 1], chunkStart, chunkEnd) then Some(|pm| - 1)
    else LastOverlap(pm[..|pm| - 1], chunkStart, chunkEnd)
  }

  /** The index of the first entry containing `c`, if any. */
  function FirstContaining(pm: seq<PageMapEntry>, c: int): (r: Option<nat>)
    ensures r.Some? ==> r.value < |pm| && ContainsOffset(pm[r.value], c)
    ensures r.Some? ==> forall j :: 0 <= j < r.value ==> !ContainsOffset(pm[j], c)
    ensures r.None? ==> forall j :: 0 <= j < |pm| ==> !ContainsOffset(pm[j], c)
  {
    if pm == [] then None
    else
      var p := FirstContaining(pm[..|pm| - 1], c);
      if p.Some? then p
      else if ContainsOffset(pm[|pm| - 1], c) then Some(|pm| - 1)
      else None
  }

  /** The index the nearest-page scan settles on: an entry of minimum distance,
      the earliest one among ties (the scan only replaces on a strict `<`). */
  function Nearest(pm: seq<PageMapEntry>, c: int): (r: nat)
    requires |pm| > 0
    ensures r < |pm|
    ensures forall j :: 0 <= j < |pm| ==> Distance(pm[r], c) <= Distance(pm[j], c)
    ensures forall j :: 0 <= j < r ==> Distance(pm[r], c) < Distance(pm[j], c)
  {
    if |pm| == 1 then 0
    else
      var k := Nearest(pm[..|pm| - 1], c);
      if Distance(pm[|pm| - 1], c) < Distance(pm[k], c) then |pm| - 1 else k
  }

  /** Python's `x or 1` on a page number: 0 is falsy. */
  function OrOne(x: int): int {
    if x == 0 then 1 else x
  }

  /** The page range `find_page_range` returns: (1,1) when there is nothing to
      resolve, and otherwise pages the map names (or the default 1). */
  function Resolve(chunkStart: int, chunkEnd: int, pm: seq<PageMapEntry>): (r: PageRange)
    ensures pm == [] || chunkStart >= chunkEnd ==> r == PageRange(1, 1)
    ensures r.startPage == 1 || exists i :: 0 <= i < |pm| && pm[i].pageNum == r.startPage
    ensures r.endPage == r.startPage || exists i :: 0 <= i < |pm| && pm[i].pageNum == r.endPage
  {
    if pm == [] || chunkStart >= chunkEnd then PageRange(1, 1)
    else match FirstOverlap(pm, chunkStart, chunkEnd)
      case Some(f) =>
        var l := LastOverlap(pm, chunkStart, chunkEnd).value;
        PageRange(OrOne(pm[f].pageNum), if pm[l].pageNum != 0 then pm[l].pageNum else OrOne(pm[f].pageNum))
      case None =>
        var k := match FirstContaining(pm, chunkStart)
          case Some(k) => k
          case None => Nearest(pm, chunkStart);
        PageRange(OrOne(pm[k].pageNum), OrOne(pm[k].pageNum))
  }

  /** Python's `a or b` where `a` may be `None` or a falsy 0. */
  function OrElse(a: Option<int>, b: int): int {
    if a.Some? && a.value != 0 then a.value else b
  }

  /** The page number of an entry chosen by index, if one was chosen. */
  function PageOf(pm: seq<PageMapEntry>, i: Option<nat>): Option<int>
    requires i.Some? ==> i.value < |pm|
  {
    if i.Some? then Some(pm[i.value].pageNum) else None
  }

  /** The overlap scan: `start_page` is set at the first overlapping entry and
      `end_page` at every one, so it ends on the last. */
  method ScanOverlaps(chunkStart: int, chunkEnd: int, pageMap: seq<PageMapEntry>)
    returns (startPage: Option<int>, endPage: Option<int>)
    ensures startPage == PageOf(pageMap, FirstOverlap(pageMap, chunkStart, chunkEnd))
    ensures endPage == PageOf(pageMap, LastOverlap(pageMap, chunkStart, chunkEnd))
  {
    startPage := None;
    endPage := None;
    for i := 0 to |pageMap|
      invariant startPage == PageOf(pageMap, FirstOverlap(pageMap[..i], chunkStart, chunkEnd))
      invariant endPage == PageOf(pageMap, LastOverlap(pageMap[..i], chunkStart, chunkEnd))
    {
      assert pageMap[..i + 1][..i] == pageMap[..i];
      var e := pageMap[i];
      if chunkStart < e.endChar && chunkEnd > e.startChar {
        if startPage.None? {
          startPage := Some(e.pageNum);
        }
        endPage := Some(e.pageNum);
      }
    }
    assert pageMap[..|pageMap|] == pageMap;
  }

  /** The containment scan: the page of the first entry holding `chunk_start`. */
  method ScanContaining(chunkStart: int, pageMap: seq<PageMapEntry>) returns (page: Option<int>)
    ensures page == PageOf(pageMap, FirstContaining(pageMap, chunkStart))
  {
    page := None;
    var i := 0;
    while i < |pageMap|
      invariant 0 <= i <= |pageMap|
      invariant FirstContaining(pageMap[..i], chunkStart).None?
    {
      assert pageMap[..i + 1][..i] == pageMap[..i];
      var e := pageMap[i];
      if chunkStart >= e.startChar && chunkStart < e.endChar {
        assert FirstContaining(pageMap, chunkStart) == Some(i);
        return Some(e.pageNum);
      }
      i := i + 1;
    }
    assert pageMap[..|pageMap|] == pageMap;
  }

  /** The nearest-page scan, starting from `nearest_page = 1`. */
  method ScanNearest(chunkStart: int, pageMap: seq<PageMapEntry>) returns (page: int)
    ensures pageMap == [] ==> page == 1
    ensures pageMap != [] ==> page == pageMap[Nearest(pageMap, chunkStart)].pageNum
  {
    var minDistance: Option<int> := None;
    page := 1;
    for j := 0 to |pageMap|
      invariant j == 0 ==> minDistance.None? && page == 1
      invariant j > 0 ==> var k := Nearest(pageMap[..j], chunkStart);
        minDistance == Some(Distance(pageMap[k], chunkStart)) && page == pageMap[k].pageNum
    {
      assert pageMap[..j + 1][..j] == pageMap[..j];
      var e := pageMap[j];
      var distance;
      if chunkStart < e.startChar {
        distance := e.startChar - chunkStart;
      } else if chunkStart >= e.endChar {
        distance := chunkStart - e.endChar + 1;
      } else {
        distance := 0;
      }
      if minDistance.None? || distance < minDistance.value {
        minDistance := Some(distance);
        page := e.pageNum;
      }
    }
    assert pageMap[..|pageMap|] == pageMap;
  }

  method FindPageRange(chunkStart: int, chunkEnd: int, pageMap: seq<PageMapEntry>) returns (r: PageRange)
    ensures r == Resolve(chunkStart, chunkEnd, pageMap)
  {
    if |pageMap| == 0 {
      return PageRange(1, 1);
    }
    if chunkStart >= chunkEnd {
      return PageRange(1, 1);
    }
    var startPage, endPage := ScanOverlaps(chunkStart, chunkEnd, pageMap);
    if startPage.None? {
      var contained := ScanContaining(chunkStart, pageMap);
      if contained.Some? {
        startPage, endPage := contained, contained;
      } else {
        var nearestPage := ScanNearest(chunkStart, pageMap);
        startPage, endPage := Some(nearestPage), Some(nearestPage);
      }
    }
    r := PageRange(OrElse(startPage, 1), OrElse(endPage, OrElse(startPage, 1)));
  }

  // ---------------------------------------------------------------------------
  // Properties of the resolver

  /** When some entry overlaps the chunk, the range runs from the page of the
      first overlapping entry to the page of the last one (page numbers >= 1). */
  lemma ResolveOverlap(chunkStart: int, chunkEnd: int, pm: seq<PageMapEntry>, f: nat, l: nat)
    requires chunkStart < chunkEnd
    requires f <= l < |pm| && Overlaps(pm[f], chunkStart, chunkEnd) && Overlaps(pm[l], chunkStart, chunkEnd)
    requires forall j :: 0 <= j < f ==> !Overlaps(pm[j], chunkStart, chunkEnd)
    requires forall j :: l < j < |pm| ==> !Overlaps(pm[j], chunkStart, chunkEnd)
    requires pm[f].pageNum >= 1 && pm[l].pageNum >= 1
    ensures Resolve(chunkStart, chunkEnd, pm) == PageRange(pm[f].pageNum, pm[l].pageNum)
  {
    var ff := FirstOverlap(pm, chunkStart, chunkEnd);
    var ll := LastOverlap(pm, chunkStart, chunkEnd);
    assert ff == Some(f);
    assert ll == Some(l);
  }

  /** The containment fallback never fires: once `chunk_start < chunk_end`, an entry
      containing `chunk_start` already overlaps the chunk. */
  lemma ContainmentFallbackUnreachable(chunkStart: int, chunkEnd: int, pm: seq<PageMapEntry>)
    requires chunkStart < chunkEnd
    requires FirstOverlap(pm, chunkStart, chunkEnd).None?
    ensures FirstContaining(pm, chunkStart).None?
  {
  }

  /** When the nearest-page fallback is reached, the winning entry is at a positive
      distance, so the `distance = 0` branch is dead too. */
  lemma NearestFallbackDistancePositive(chunkStart: int, chunkEnd: int, pm: seq<PageMapEntry>)
    requires chunkStart < chunkEnd && |pm| > 0
    requires FirstOverlap(pm, chunkStart, chunkEnd).None?
    ensures Distance(pm[Nearest(pm, chunkStart)], chunkStart) > 0
  {
  }

  /** For a page map whose page numbers are at least 1 and never decrease, the
      result always satisfies 1 <= start_page <= end_page, and both are page
      numbers of the map (or 1 for the degenerate inputs). */
  lemma ResolveWellFormed(chunkStart: int, chunkEnd: int, pm: seq<PageMapEntry>)
    requires forall i :: 0 <= i < |pm| ==> pm[i].pageNum >= 1
    requires forall i, j :: 0 <= i < j < |pm| ==> pm[i].pageNum <= pm[j].pageNum
    ensures var r := Resolve(chunkStart, chunkEnd, pm);
      1 <= r.startPage <= r.endPage
    ensures pm != [] && chunkStart < chunkEnd ==> var r := Resolve(chunkStart, chunkEnd, pm);
      exists i, j :: 0 <= i <= j < |pm| && r.startPage == pm[i].pageNum && r.endPage == pm[j].pageNum
  {
    if pm != [] && chunkStart < chunkEnd {
      var ff := FirstOverlap(pm, chunkStart, chunkEnd);
      if ff.Some? {
        var l := LastOverlap(pm, chunkStart, chunkEnd).value;
        assert ff.value <= l;
      } else {
        var k := match FirstContaining(pm, chunkStart)
          case Some(k) => k
          case None => Nearest(pm, chunkStart);
        assert Resolve(chunkStart, chunkEnd, pm) == PageRange(pm[k].pageNum, pm[k].pageNum);
      }
    }
  }

  /** Three spans on the map [(0,10,1),(10,20,2),(20,30,3)]: (5,15) gives
      (1,2), (12,18) gives (2,2) and (25,35) gives (3,3). */
  lemma OverlapExamples()
    ensures var pm := [PageMapEntry(0, 10, 1), PageMapEntry(10, 20, 2), PageMapEntry(20, 30, 3)];
      && Resolve(5, 15, pm) == PageRange(1, 2)
      && Resolve(12, 18, pm) == PageRange(2, 2)
      && Resolve(25, 35, pm) == PageRange(3, 3)
  {
    var pm := [PageMapEntry(0, 10, 1), PageMapEntry(10, 20, 2), PageMapEntry(20, 30, 3)];
    ResolveOverlap(5, 15, pm, 0, 1);
    ResolveOverlap(12, 18, pm, 1, 1);
    ResolveOverlap(25, 35, pm, 2, 2);
  }

  /** With a widened empty page 2, map [(0,100,1),(100,101,2),(101,250,3)], the
      span [95,105) overlaps all three entries and so resolves to pages 1..3. */
  lemma WidenedPageExample()
    ensures Resolve(95, 105, [PageMapEntry(0, 100, 1), PageMapEntry(100, 101, 2), PageMapEntry(101, 250, 3)])
      == PageRange(1, 3)
  {
    ResolveOverlap(95, 105, [PageMapEntry(0, 100, 1), PageMapEntry(100, 101, 2), PageMapEntry(101, 250, 3)], 0, 2);
  }

  /** A chunk starting after every entry falls back to the nearest one; ties go to
      the earliest entry. */
  lemma NearestExample()
    ensures Resolve(40, 50, [PageMapEntry(0, 10, 1), PageMapEntry(10, 20, 2), PageMapEntry(20, 30, 3)])
      == PageRange(3, 3)
    ensures Resolve(5, 6, [PageMapEntry(10, 20, 4), PageMapEntry(0, 3, 7), PageMapEntry(8, 9, 9)])
      == PageRange(7, 7)
  {
    var pm := [PageMapEntry(0, 10, 1), PageMapEntry(10, 20, 2), PageMapEntry(20, 30, 3)];
    assert pm[..2][..1] == [pm[0]];
    assert Nearest(pm, 40) == 2 by {
      assert Nearest(pm[..1], 40) == 0;
      assert pm[..2][..1] == pm[..1];
      assert Nearest(pm[..2], 40) == 1;
    }
    var qm := [PageMapEntry(10, 20, 4), PageMapEntry(0, 3, 7), PageMapEntry(8, 9, 9)];
    assert Nearest(qm, 5) == 1 by {
      assert qm[..2][..1] == qm[..1];
      assert Nearest(qm[..2], 5) == 1;
    }
  }
}
