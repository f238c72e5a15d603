/** Page-aware text extraction (`get_text_with_pages`) and its inverse, the
    page-range text fetch used for citations (`get_text_from_page_range`),
    from scripts/filemanagement.py.

    A PDF is modelled as the sequence of its page texts, as PyMuPDF's
    `page.get_text()` would return them; a document PyMuPDF cannot open or read
    is `Unreadable`. The flat (Tika) extraction is a given string, "" when Tika
    fails. */
module PageMap {
  import opened Text

  /** One page-map tuple `(start_char, end_char, page_num)`. */
  datatype PageMapEntry = PageMapEntry(startChar: int, endChar: int, pageNum: int)

  /** The dictionary `{'content': ..., 'page_map': ...}` handed to the splitter;
      a flat extraction has no `page_map`, which the splitter reads as []. */
  datatype DocumentText = DocumentText(content: string, pageMap: seq<PageMapEntry>)

  /** What PyMuPDF yields for a file: its page texts, or a failure to open or read it. */
  datatype PdfReadout = Pages(pages: seq<string>) | Unreadable

  /** `filepath.lower().endswith('.pdf')`: a path of at least four characters
      whose extension is ".pdf" in any mix of case. */
  function IsPdfPath(path: string): (r: bool)
    ensures r ==> |path| >= 4 && path[|path| - 4] == '.'
    ensures EndsWith(path, ".pdf") || EndsWith(path, ".PDF") ==> r
  {
    EndsWith(Lower(path), ".pdf")
  }

  /** The entry extraction records for page `i` (0-based): it starts where the
      page's text starts, ends where it ends, except that an empty page is widened
      to width 1, and it carries the 1-based page number. */
  function ExpectedEntry(pages: seq<string>, i: nat): (e: PageMapEntry)
    requires i < |pages|
    ensures e.startChar == Offset(pages, i) < e.endChar && e.pageNum == i + 1
    ensures |pages[i]| > 0 ==> e.endChar == Offset(pages, i + 1)
  {
    var start := Offset(pages, i);
    OffsetStep(pages, i);
    PageMapEntry(start, if |pages[i]| == 0 then start + 1 else start + |pages[i]|, i + 1)
  }

  /** The page map extraction builds for a readable PDF. */
  function ExpectedPageMap(pages: seq<string>): (pm: seq<PageMapEntry>)
    ensures |pm| == |pages|
    ensures forall i :: 0 <= i < |pages| ==> pm[i] == ExpectedEntry(pages, i)
  {
    seq(|pages|, i requires 0 <= i < |pages| => ExpectedEntry(pages, i))
  }

  /** `get_text_with_pages`: a readable PDF yields the concatenation of its page
      texts and one entry per page; anything else falls back to the flat text
      with no page map. */
  method GetTextWithPages(path: string, pdf: PdfReadout, flatText: string) returns (doc: DocumentText)
    ensures !IsPdfPath(path) || pdf.Unreadable? ==> doc == DocumentText(flatText, [])
    ensures IsPdfPath(path) && pdf.Pages? ==>
      doc.content == Concat(pdf.pages) && doc.pageMap == ExpectedPageMap(pdf.pages)
  {
    if !IsPdfPath(path) || pdf.Unreadable? {
      return DocumentText(flatText, []);
    }
    var pages := pdf.pages;
    var fullText := "";
    var pageMap := [];
    for pageNum := 0 to |pages|
      invariant fullText == Concat(pages[..pageNum])
      invariant |pageMap| == pageNum
      invariant forall i :: 0 <= i < pageNum ==> pageMap[i] == ExpectedEntry(pages, i)
    {
      var pageText := pages[pageNum];
      var startChar := |fullText|;
      assert pages[..pageNum + 1][..pageNum] == pages[..pageNum];
      fullText := fullText + pageText;
      var endChar := |fullText|;
      if endChar == startChar {
        endChar := startChar + 1;
      }
      pageMap := pageMap + [PageMapEntry(startChar, endChar, pageNum + 1)];
    }
    assert pages[..|pages|] == pages;
    doc := DocumentText(fullText, pageMap);
  }

  // ---------------------------------------------------------------------------
  // Shape of the page map

  /** Every entry is non-degenerate, page numbers run 1..N, an entry's start is the
      length of all earlier pages, and both starts and ends never decrease. */
  lemma EntriesOrdered(pages: seq<string>, i: nat, j: nat)
    requires i < j < |pages|
    ensures var pm := ExpectedPageMap(pages);
      && pm[i].startChar < pm[i].endChar
      && pm[i].pageNum == i + 1 && pm[i].pageNum < pm[j].pageNum
      && pm[i].startChar <= pm[j].startChar
      && pm[i].endChar <= pm[j].endChar
  {
    OffsetStep(pages, i);
    OffsetMonotone(pages, i + 1, j);
  }

  /** A non-empty page ends exactly where the next page starts. */
  lemma NonEmptyPageIsContiguous(pages: seq<string>, i: nat)
    requires i + 1 < |pages| && |pages[i]| > 0
    ensures ExpectedPageMap(pages)[i].endChar == ExpectedPageMap(pages)[i + 1].startChar
  {
    OffsetStep(pages, i);
  }

  /** An empty page's widened slot `[s, s+1)` starts at the same offset as the
      next page and so overlaps it by one character. */
  lemma EmptyPageSharesNextStart(pages: seq<string>, i: nat)
    requires i + 1 < |pages| && |pages[i]| == 0
    ensures var pm := ExpectedPageMap(pages);
      pm[i].startChar == pm[i + 1].startChar && pm[i].endChar == pm[i + 1].startChar + 1
  {
    OffsetStep(pages, i);
  }

  /** The page map leaves no gap: it starts at offset 0, each entry starts no
      later than the previous one ends, and the last entry reaches the end of the
      content. */
  lemma ExtractionMapCovers(pages: seq<string>)
    requires |pages| > 0
    ensures var pm := ExpectedPageMap(pages);
      && pm[0].startChar == 0
      && (forall i :: 0 < i < |pages| ==> pm[i].startChar <= pm[i - 1].endChar)
      && pm[|pages| - 1].endChar >= |Concat(pages)|
  {
    var pm := ExpectedPageMap(pages);
    assert pages[..0] == [];
    forall i | 0 < i < |pages|
      ensures pm[i].startChar <= pm[i - 1].endChar
    {
      OffsetStep(pages, i - 1);
    }
    OffsetStep(pages, |pages| - 1);
    assert pages[..|pages|] == pages;
  }

  /** Every character of the content lies in the text of some page: one that
      starts at or before it and whose text reaches past it. */
  lemma {:induction false} OffsetHasPage(pages: seq<string>, c: nat)
    requires c < |Concat(pages)|
    ensures exists i :: 0 <= i < |pages| && Offset(pages, i) <= c < Offset(pages, i) + |pages[i]|
  {
    var n := |pages|;
    assert pages[..n] == pages;
    assert n > 0;
    if c >= Offset(pages, n - 1) {
      OffsetStep(pages, n - 1);
    } else {
      assert pages[..n - 1] == pages[..n - 1][..n - 1];
      assert Concat(pages) == Concat(pages[..n - 1]) + pages[n - 1];
      OffsetHasPage(pages[..n - 1], c);
      var i :| 0 <= i < n - 1 && Offset(pages[..n - 1], i) <= c < Offset(pages[..n - 1], i) + |pages[i]|;
      assert pages[..n - 1][..i] == pages[..i];
    }
  }

  // ---------------------------------------------------------------------------
  // Page-range fetch

  /** The text `get_text_from_page_range` returns for a readable PDF. The
      1-based inclusive range becomes the 0-based half-open `[max(0,s-1), min(n,e))`;
      a range starting past the end, or an empty or inverted range, gives "".
      Otherwise the result is the slice of the extracted content between the
      starts of the first and one-past-last pages. */
  function PageRangeText(pages: seq<string>, startPage: int, endPage: int): (r: string)
    ensures var si := if startPage - 1 > 0 then startPage - 1 else 0;
      var ei := if |pages| < endPage then |pages| else endPage;
      && (si >= |pages| || ei <= si ==> r == "")
      && (si < |pages| && si < ei ==>
           && Offset(pages, si) <= Offset(pages, ei) <= |Concat(pages)|
           && r == Concat(pages)[Offset(pages, si)..Offset(pages, ei)])
  {
    var n := |pages|;
    var si := if startPage - 1 > 0 then startPage - 1 else 0;
    var ei := if n < endPage then n else endPage;
    if si >= n then ""
    else if ei <= si then ""
    else (OffsetSlice(pages, si, ei); Concat(pages[si..ei]))
  }

  /** `get_text_from_page_range`: a non-PDF path ignores the range and returns the
      flat text; an unreadable PDF gives ""; a readable one the page-range text. */
  method GetTextFromPageRange(path: string, pdf: PdfReadout, flatText: string, startPage: int, endPage: int)
    returns (text: string)
    ensures !IsPdfPath(path) ==> text == flatText
    ensures IsPdfPath(path) && pdf.Unreadable? ==> text == ""
    ensures IsPdfPath(path) && pdf.Pages? ==> text == PageRangeText(pdf.pages, startPage, endPage)
  {
    if !IsPdfPath(path) {
      return flatText;
    }
    if pdf.Unreadable? {
      return "";
    }
    var pages := pdf.pages;
    var extractedText := "";
    var startIdx := if startPage - 1 > 0 then startPage - 1 else 0;
    var endIdx := if |pages| < endPage then |pages| else endPage;
    if startIdx >= |pages| {
      return "";
    }
    if endIdx <= startIdx {
      return "";
    }
    for pageNum := startIdx to endIdx
      invariant extractedText == Concat(pages[startIdx..pageNum])
    {
      ConcatSliceStep(pages, startIdx, pageNum);
      extractedText := extractedText + pages[pageNum];
    }
    text := extractedText;
    PageRangeTextIsSlice(pages, startPage, endPage);
  }

  lemma ConcatSliceStep(pages: seq<string>, a: nat, b: nat)
    requires a <= b < |pages|
    ensures Concat(pages[a..b + 1]) == Concat(pages[a..b]) + pages[b]
  {
    assert pages[a..b + 1][..b - a] == pages[a..b];
  }

  /** Inside the document the fetched text is the pages of the clamped range,
      joined. */
  lemma PageRangeTextIsSlice(pages: seq<string>, startPage: int, endPage: int)
    requires var si := if startPage - 1 > 0 then startPage - 1 else 0;
      var ei := if |pages| < endPage then |pages| else endPage;
      si < |pages| && si < ei
    ensures var si := if startPage - 1 > 0 then startPage - 1 else 0;
      var ei := if |pages| < endPage then |pages| else endPage;
      PageRangeText(pages, startPage, endPage) == Concat(pages[si..ei])
  {
  }

  /** Fetching a single page `p` returns that page's text, which is exactly the
      part `[start_char, start_char + len(page))` of the extracted content that
      the page's entry points at. */
  lemma FetchSinglePage(pages: seq<string>, p: int)
    requires 1 <= p <= |pages|
    ensures var e := ExpectedPageMap(pages)[p - 1];
      && PageRangeText(pages, p, p) == pages[p - 1]
      && e.startChar + |pages[p - 1]| <= |Concat(pages)|
      && PageRangeText(pages, p, p) == Concat(pages)[e.startChar..e.startChar + |pages[p - 1]|]
  {
    OffsetSlice(pages, p - 1, p);
    OffsetStep(pages, p - 1);
    assert pages[p - 1..p] == [pages[p - 1]];
    ConcatSingle(pages[p - 1]);
    assert ExpectedPageMap(pages)[p - 1].startChar == Offset(pages, p - 1);
  }

  lemma ConcatSingle(page: string)
    ensures Concat([page]) == page
  {
    assert [page][..0] == [];
  }

  /** Fetching pages 1..N of an N-page document returns the whole content. */
  lemma FetchWholeDocument(pages: seq<string>)
    ensures PageRangeText(pages, 1, |pages|) == Concat(pages)
  {
    OffsetSlice(pages, 0, |pages|);
    assert pages[..|pages|] == pages;
    assert pages[..0] == [];
  }

  /** Fetching yields "" when the range starts past the last page or is empty
      once clamped to the document. */
  lemma FetchEmptyRanges(pages: seq<string>, startPage: int, endPage: int)
    requires startPage > |pages| || endPage < startPage || endPage < 1
    ensures PageRangeText(pages, startPage, endPage) == ""
  {
  }
}
