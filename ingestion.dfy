/** The ingestion bookkeeping of `embedding_test` in main.py: vector names
    derived from file names, the collection's vector configuration, the
    per-chunk payloads with their global indices and page-range labels, and the
    processed-files record that lets a re-run skip finished files.

    Embedding calls and uploads are not modelled here; whether a file's
    extraction and uploads succeed is given with the file. */
module Ingestion {
  import opened Wrappers
  import opened Text
  import opened PageMap
  import opened Chunking

  // ---------------------------------------------------------------------------
  // Vector names

  /** The characters the regular expression `[!@#$%^&*()+=<>?:"{}|\\[\]`~;,.]`
      removes. */
  const RemovedChars: set<char> :=
    {'!', '@', '#', '$', '%', '^', '&', '*', '(', ')', '+', '=', '<', '>', '?', ':', '"',
     '{', '}', '|', '\\', '[', ']', '`', '~', ';', ',', '.'}

  /** The characters `rstrip('0123456789_')` removes. */
  const TrailingChars: set<char> := {'0', '1', '2', '3', '4', '5', '6', '7', '8', '9', '_'}

  /** `Path(name).stem` of a file name (no directory part): the name without
      its last suffix; a leading dot or a trailing dot does not start a suffix. */
  function Stem(name: string): (r: string)
    ensures r <= name
  {
    var i := RFind(name, '.');
    if 0 < i < |name| - 1 then name[..i] else name
  }

  /** `re.sub(class, '', s)`: every character of the class dropped. */
  function RemoveChars(s: string, chars: set<char>): (r: string)
    ensures |r| <= |s|
    ensures forall k :: 0 <= k < |r| ==> r[k] !in chars
  {
    if s == [] then []
    else
      var init := RemoveChars(s[..|s| - 1], chars);
      if s[|s| - 1] in chars then init else init + [s[|s| - 1]]
  }

  /** Only the characters of the class are dropped: every other character of
      the input survives, and nothing new appears. */
  lemma {:induction false} RemoveCharsKeepsOthers(s: string, chars: set<char>)
    ensures forall k :: 0 <= k < |s| && s[k] !in chars ==> s[k] in RemoveChars(s, chars)
    ensures forall k :: 0 <= k < |RemoveChars(s, chars)| ==> RemoveChars(s, chars)[k] in s
    ensures (forall k :: 0 <= k < |s| ==> s[k] !in chars) ==> RemoveChars(s, chars) == s
  {
    if s != [] {
      var init := s[..|s| - 1];
      RemoveCharsKeepsOthers(init, chars);
      assert forall k :: 0 <= k < |init| ==> init[k] == s[k];
      assert s == init + [s[|s| - 1]];
    }
  }

  /** A character that survives the removal of punctuation and the split on
      whitespace. */
  predicate KeptChar(c: char) {
    !IsSpace(c) && c !in RemovedChars
  }

  /** A character a vector name can hold: a kept character that is no ASCII
      capital. */
  predicate VectorNameChar(c: char) {
    KeptChar(c) && !('A' <= c <= 'Z')
  }

  /** `normalize_vector_name`: stem, drop trailing digits and underscores,
      drop punctuation, join the words with `_`, lower-case. */
  function NormalizeVectorName(filename: string): (r: string)
    ensures forall k :: 0 <= k < |r| ==> VectorNameChar(r[k])
  {
    var name := Stem(filename);
    var trimmed := RStripChars(name, TrailingChars);
    var cleaned := RemoveChars(trimmed, RemovedChars);
    var words := Words(cleaned);
    var joined := Join("_", words);
    WordsKeepChars(cleaned);
    JoinKeeps("_", words, KeptChar);
    LowerKeepsChars(joined);
    Lower(joined)
  }

  /** A non-empty name of lower-case ASCII letters. */
  predicate PlainName(name: string) {
    name != [] && forall k :: 0 <= k < |name| ==> 'a' <= name[k] <= 'z'
  }

  /** A plain name is already normalised. */
  lemma NormalizeFixesPlainNames(name: string)
    requires PlainName(name)
    ensures NormalizeVectorName(name) == name
  {
    PlainStem(name);
    PlainRStrip(name);
    PlainRemove(name);
    PlainWords(name);
    PlainLower(name);
  }

  lemma PlainStem(name: string)
    requires PlainName(name)
    ensures Stem(name) == name
  {
    assert RFind(name, '.') == -1;
  }

  lemma PlainRStrip(name: string)
    requires PlainName(name)
    ensures RStripChars(name, TrailingChars) == name
  {
    assert name[|name| - 1] !in TrailingChars;
  }

  lemma PlainRemove(name: string)
    requires PlainName(name)
    ensures RemoveChars(name, RemovedChars) == name
  {
    forall k | 0 <= k < |name|
      ensures name[k] !in RemovedChars
    {
      LowerLetterKept(name[k]);
    }
    RemoveCharsKeepsOthers(name, RemovedChars);
  }

  lemma LowerLetterKept(c: char)
    requires 'a' <= c <= 'z'
    ensures KeptChar(c)
  {
  }

  lemma PlainWords(name: string)
    requires PlainName(name)
    ensures Words(name) == [name]
  {
    assert !IsSpace(name[0]);
    var w := WordPrefix(name);
    if |w| < |name| {
      LowerLetterKept(name[|w|]);
    }
    assert w == name;
    assert Words(name[|w|..]) == [];
  }

  lemma PlainLower(name: string)
    requires PlainName(name)
    ensures Lower(name) == name
  {
  }

  lemma WordsKeepChars(cleaned: string)
    requires forall k :: 0 <= k < |cleaned| ==> cleaned[k] !in RemovedChars
    ensures forall i, j :: 0 <= i < |Words(cleaned)| && 0 <= j < |Words(cleaned)[i]| ==> KeptChar(Words(cleaned)[i][j])
  {
    var words := Words(cleaned);
    forall i, j | 0 <= i < |words| && 0 <= j < |words[i]|
      ensures KeptChar(words[i][j])
    {
      assert words[i][j] in cleaned;
    }
  }

  lemma LowerKeepsChars(s: string)
    requires forall k :: 0 <= k < |s| ==> KeptChar(s[k])
    ensures forall k :: 0 <= k < |Lower(s)| ==> VectorNameChar(Lower(s)[k])
  {
    forall k | 0 <= k < |s|
      ensures VectorNameChar(Lower(s)[k])
    {
      LowerCharKeeps(s[k]);
    }
  }

  lemma LowerCharKeeps(c: char)
    requires KeptChar(c)
    ensures VectorNameChar(LowerChar(c))
  {
  }

  /** The images under `f` of a sequence of names. */
  function Image(f: string -> string, names: seq<string>): (r: set<string>)
    ensures forall i :: 0 <= i < |names| ==> f(names[i]) in r
    ensures forall n :: n in r ==> exists i :: 0 <= i < |names| && n == f(names[i])
  {
    if names == [] then {}
    else
      var init := names[..|names| - 1];
      assert forall i :: 0 <= i < |init| ==> init[i] == names[i];
      Image(f, init) + {f(names[|names| - 1])}
  }

  /** The normalised names of a sequence of file names. */
  function NameSet(fileNames: seq<string>): (r: set<string>)
    ensures forall i :: 0 <= i < |fileNames| ==> NormalizeVectorName(fileNames[i]) in r
    ensures forall n :: n in r ==> exists i :: 0 <= i < |fileNames| && n == NormalizeVectorName(fileNames[i])
  {
    Image(NormalizeVectorName, fileNames)
  }

  /** The first pass of `embedding_test`: one vector name per file, plus "chunk". */
  method CollectVectorNames(fileNames: seq<string>) returns (vectorNames: set<string>)
    ensures vectorNames == NameSet(fileNames) + {"chunk"}
  {
    vectorNames := {};
    for i := 0 to |fileNames|
      invariant vectorNames == NameSet(fileNames[..i])
    {
      assert fileNames[..i + 1][..i] == fileNames[..i];
      vectorNames := vectorNames + {NormalizeVectorName(fileNames[i])};
    }
    assert fileNames[..|fileNames|] == fileNames;
    vectorNames := vectorNames + {"chunk"};
  }

  datatype Distance = Cosine

  datatype VectorParams = VectorParams(size: nat, distance: Distance)

  const EmbeddingSize: nat := 3072

  /** The collection's vector configuration: the same parameters for every
      name. The source visits the names in sorted order; the resulting map does
      not depend on the order. */
  method BuildVectorConfig(vectorNames: set<string>) returns (config: map<string, VectorParams>)
    ensures config.Keys == vectorNames
    ensures forall n :: n in config ==> config[n] == VectorParams(EmbeddingSize, Cosine)
  {
    config := map[];
    var remaining := vectorNames;
    while remaining != {}
      invariant remaining <= vectorNames
      invariant config.Keys == vectorNames - remaining
      invariant forall n :: n in config ==> config[n] == VectorParams(EmbeddingSize, Cosine)
      decreases |remaining|
    {
      var name :| name in remaining;
      config := config[name := VectorParams(EmbeddingSize, Cosine)];
      remaining := remaining - {name};
    }
  }

  /** The vector name every file's chunks are uploaded under is in the
      collection's configuration, and so is "chunk", the default vector name of
      `add_embeddings_batch`. */
  lemma ConfigCoversEveryFile(fileNames: seq<string>, vectorNames: set<string>,
                              config: map<string, VectorParams>, i: nat)
    requires vectorNames == NameSet(fileNames) + {"chunk"}
    requires config.Keys == vectorNames
    requires i < |fileNames|
    ensures NormalizeVectorName(fileNames[i]) in config && "chunk" in config
  {
  }

  // ---------------------------------------------------------------------------
  // Payloads

  /** The `page_range` label: "s" for a single page, "s-e" otherwise. For page
      numbers that are not negative it holds a dash exactly when the range spans
      pages; `PageRangeLabelInjective` shows the label gives the range back. */
  function PageRangeLabel(startPage: int, endPage: int): (r: string)
    ensures startPage >= 0 && endPage >= 0 ==> ('-' in r <==> startPage != endPage)
  {
    if startPage != endPage then
      var r := IntToDecimal(startPage) + "-" + IntToDecimal(endPage);
      assert r[|IntToDecimal(startPage)|] == '-';
      r
    else IntToDecimal(startPage)
  }

  /** The length of the longest all-digit prefix. */
  function DigitRun(s: string): (r: nat)
    ensures r <= |s|
  {
    if s == [] || !IsDigit(s[0]) then 0 else 1 + DigitRun(s[1..])
  }

  lemma {:induction false} DigitRunOfPrefix(a: string, rest: string)
    requires forall k :: 0 <= k < |a| ==> IsDigit(a[k])
    requires rest != [] && !IsDigit(rest[0])
    ensures DigitRun(a + rest) == |a|
  {
    if a == [] {
      assert a + rest == rest;
    } else {
      assert (a + rest)[1..] == a[1..] + rest;
      DigitRunOfPrefix(a[1..], rest);
    }
  }

  lemma DigitsBeforeDash(a: string, b: string, c: string, d: string)
    requires forall k :: 0 <= k < |a| ==> IsDigit(a[k])
    requires forall k :: 0 <= k < |c| ==> IsDigit(c[k])
    requires a + "-" + b == c + "-" + d
    ensures a == c && b == d
  {
    var s := a + "-" + b;
    assert a + "-" + b == a + ("-" + b) && c + "-" + d == c + ("-" + d);
    DigitRunOfPrefix(a, "-" + b);
    DigitRunOfPrefix(c, "-" + d);
    assert a == s[..|a|] && c == s[..|c|];
    assert b == s[|a| + 1..] && d == s[|c| + 1..];
  }

  lemma NoDashInDigits(a: string, c: string, d: string)
    requires forall k :: 0 <= k < |a| ==> IsDigit(a[k])
    ensures a != c + "-" + d
  {
    assert (c + "-" + d)[|c|] == '-';
  }

  /** The label of a page range of positive page numbers determines the range:
      different ranges never share a label. */
  lemma PageRangeLabelInjective(s1: nat, e1: nat, s2: nat, e2: nat)
    requires PageRangeLabel(s1, e1) == PageRangeLabel(s2, e2)
    ensures s1 == s2 && e1 == e2
  {
    var d1, f1, d2, f2 := NatToDecimal(s1), NatToDecimal(e1), NatToDecimal(s2), NatToDecimal(e2);
    DecimalRoundTrip(s1);
    DecimalRoundTrip(e1);
    DecimalRoundTrip(s2);
    DecimalRoundTrip(e2);
    if s1 != e1 && s2 != e2 {
      DigitsBeforeDash(d1, f1, d2, f2);
    } else if s1 != e1 {
      NoDashInDigits(d2, d1, f1);
    } else if s2 != e2 {
      NoDashInDigits(d1, d2, f2);
    }
  }

  /** The payload stored with a chunk; the file size in megabytes is left out. */
  datatype ChunkPayload = ChunkPayload(
    source: string,
    chunkIndex: nat,
    startPage: int,
    endPage: int,
    pageRange: string,
    totalChunks: nat,
    link: string)

  /** The payload of chunk `i` of a file with `total` chunks. */
  function PayloadFor(relativePath: string, chunk: Chunk, i: nat, total: nat): ChunkPayload {
    ChunkPayload(relativePath, i, chunk.startPage, chunk.endPage, PageRangeLabel(chunk.startPage, chunk.endPage), total, "")
  }

  /** The batch loop of `embedding_test`: chunks are taken in batches of
      `batchSize`, and each chunk's payload carries its global index
      `batch_start + i`. A zero batch size raises in `range`; a negative one
      yields no batch. */
  method FilePayloads(relativePath: string, fileChunks: seq<Chunk>, batchSize: int)
    returns (r: Option<seq<ChunkPayload>>)
    ensures batchSize == 0 <==> r.None?
    ensures batchSize < 0 ==> r == Some([])
    ensures batchSize > 0 ==>
      && r.Some? && |r.value| == |fileChunks|
      && forall i :: 0 <= i < |fileChunks| ==> r.value[i] == PayloadFor(relativePath, fileChunks[i], i, |fileChunks|)
  {
    if batchSize == 0 {
      return None;
    }
    if batchSize < 0 {
      return Some([]);
    }
    var totalChunks := |fileChunks|;
    var payloads := [];
    var batchStart := 0;
    while batchStart < totalChunks
      invariant batchStart == |payloads| <= totalChunks
      invariant forall i :: 0 <= i < |payloads| ==> payloads[i] == PayloadFor(relativePath, fileChunks[i], i, totalChunks)
      decreases totalChunks - batchStart
    {
      var batchEnd := if batchStart + batchSize < totalChunks then batchStart + batchSize else totalChunks;
      var currentBatch := fileChunks[batchStart..batchEnd];
      for i := 0 to |currentBatch|
        invariant |payloads| == batchStart + i
        invariant forall k :: 0 <= k < |payloads| ==> payloads[k] == PayloadFor(relativePath, fileChunks[k], k, totalChunks)
      {
        var globalChunkIndex := batchStart + i;
        payloads := payloads + [PayloadFor(relativePath, currentBatch[i], globalChunkIndex, totalChunks)];
      }
      batchStart := batchEnd;
    }
    r := Some(payloads);
  }

  // ---------------------------------------------------------------------------
  // Processed files

  /** One file of the run: its name, what extraction yields (None when it
      raises), and whether its embedding and upload calls all succeed. */
  datatype IngestFile = IngestFile(name: string, extraction: Option<DocumentText>, uploadsSucceed: bool)

  datatype FileOutcome = Skipped | NoContent | Failed | Completed

  /** `f"{filepath}/{file.name}"`, the key of the processed-files record. */
  function RecordKey(filepath: string, f: IngestFile): string {
    filepath + "/" + f.name
  }

  /** What the run does with one file: skip it when already recorded, give up on
      it when extraction raises or yields no content, fail it when the batch
      loop or an upload raises, and otherwise complete it. A negative batch size
      runs no batch, so nothing is uploaded and the file still completes. */
  function Outcome(processed: map<string, bool>, filepath: string, f: IngestFile, batchSize: int): (r: FileOutcome)
    ensures r == Skipped <==> RecordKey(filepath, f) in processed
    ensures r == Completed ==> f.extraction.Some? && f.extraction.value.content != "" && batchSize != 0
    ensures r == Failed && f.extraction.Some? ==> batchSize == 0 || !f.uploadsSucceed
    ensures r == NoContent <==>
      RecordKey(filepath, f) !in processed && f.extraction.Some? && f.extraction.value.content == ""
    ensures r == Completed <==>
      && RecordKey(filepath, f) !in processed
      && f.extraction.Some? && f.extraction.value.content != ""
      && (batchSize < 0 || (batchSize > 0 && f.uploadsSucceed))
  {
    if RecordKey(filepath, f) in processed then Skipped
    else if f.extraction.None? then Failed
    else if f.extraction.value.content == "" then NoContent
    else if batchSize == 0 || (batchSize > 0 && !f.uploadsSucceed) then Failed
    else Completed
  }

  /** The record after the run's first `n` files. */
  function RecordAfter(processed: map<string, bool>, filepath: string, files: seq<IngestFile>, batchSize: int, n: nat)
    : (r: map<string, bool>)
    requires n <= |files|
    ensures processed.Keys <= r.Keys
    ensures |r.Keys| <= |processed.Keys| + n
  {
    if n == 0 then processed
    else
      var before := RecordAfter(processed, filepath, files, batchSize, n - 1);
      var f := files[n - 1];
      if Outcome(before, filepath, f, batchSize) == Completed then before[RecordKey(filepath, f) := true] else before
  }

  /** How many of the first `n` files were skipped or completed, each of which
      decrements `progress`. */
  function Settled(processed: map<string, bool>, filepath: string, files: seq<IngestFile>, batchSize: int, n: nat): (r: nat)
    requires n <= |files|
    ensures r <= n
  {
    if n == 0 then 0
    else
      var o := Outcome(RecordAfter(processed, filepath, files, batchSize, n - 1), filepath, files[n - 1], batchSize);
      Settled(processed, filepath, files, batchSize, n - 1) + (if o == Skipped || o == Completed then 1 else 0)
  }

  /** The file loop of `embedding_test`: skip recorded files, mark completed
      ones, and count down `progress`. */
  method EmbeddingRun(filepath: string, files: seq<IngestFile>, processedFilesData: map<string, bool>, batchSize: int)
    returns (processed: map<string, bool>, progress: int)
    ensures processed == RecordAfter(processedFilesData, filepath, files, batchSize, |files|)
    ensures progress == |files| - Settled(processedFilesData, filepath, files, batchSize, |files|)
  {
    processed := processedFilesData;
    progress := |files|;
    for i := 0 to |files|
      invariant processed == RecordAfter(processedFilesData, filepath, files, batchSize, i)
      invariant progress == |files| - Settled(processedFilesData, filepath, files, batchSize, i)
    {
      var file := files[i];
      var filenameStr := filepath + "/" + file.name;
      if filenameStr in processed {
        progress := progress - 1;
        continue;
      }
      if file.extraction.None? {
        continue;
      }
      if file.extraction.value.content == "" {
        continue;
      }
      if batchSize == 0 || (batchSize > 0 && !file.uploadsSucceed) {
        continue;
      }
      processed := processed[filenameStr := true];
      progress := progress - 1;
    }
  }

  /** The record only grows: an existing entry is never changed, and a new key
      is the key of a file the run completed, marked True. */
  lemma {:induction false} RecordOnlyGrows(processed: map<string, bool>, filepath: string, files: seq<IngestFile>,
                                           batchSize: int, n: nat)
    requires n <= |files|
    ensures var after := RecordAfter(processed, filepath, files, batchSize, n);
      && (forall k :: k in processed ==> k in after && after[k] == processed[k])
      && (forall k :: k in after && k !in processed ==>
            && after[k]
            && exists i :: 0 <= i < n && RecordKey(filepath, files[i]) == k &&
                 Outcome(RecordAfter(processed, filepath, files, batchSize, i), filepath, files[i], batchSize) == Completed)
  {
    if n > 0 {
      RecordOnlyGrows(processed, filepath, files, batchSize, n - 1);
      var before := RecordAfter(processed, filepath, files, batchSize, n - 1);
      var after := RecordAfter(processed, filepath, files, batchSize, n);
      var key := RecordKey(filepath, files[n - 1]);
      var completed := Outcome(before, filepath, files[n - 1], batchSize) == Completed;
      assert after == if completed then before[key := true] else before;
      forall k | k in after && k !in processed
        ensures && after[k]
                && exists i :: 0 <= i < n && RecordKey(filepath, files[i]) == k &&
                     Outcome(RecordAfter(processed, filepath, files, batchSize, i), filepath, files[i], batchSize) == Completed
      {
        if k !in before {
          assert completed && k == key;
        }
      }
    }
  }

  /** A completed file is recorded as True, and a file seen again later in the
      run, or in a later run, is skipped. */
  lemma {:induction false} CompletedStaysRecorded(processed: map<string, bool>, filepath: string, files: seq<IngestFile>,
                                                  batchSize: int, i: nat, n: nat)
    requires i < n <= |files|
    requires Outcome(RecordAfter(processed, filepath, files, batchSize, i), filepath, files[i], batchSize) == Completed
    ensures var after := RecordAfter(processed, filepath, files, batchSize, n);
      RecordKey(filepath, files[i]) in after && after[RecordKey(filepath, files[i])]
  {
    if n > i + 1 {
      CompletedStaysRecorded(processed, filepath, files, batchSize, i, n - 1);
      RecordOnlyGrows(RecordAfter(processed, filepath, files, batchSize, n - 1), filepath, [files[n - 1]], batchSize, 1);
    }
  }

  /** A file whose extraction fails or yields no content is never recorded,
      unless another file of the run with the same key completes. */
  lemma NotRecordedWithoutCompletion(processed: map<string, bool>, filepath: string, files: seq<IngestFile>,
                                     batchSize: int, key: string)
    requires key !in processed
    requires forall i :: 0 <= i < |files| && RecordKey(filepath, files[i]) == key ==>
      Outcome(RecordAfter(processed, filepath, files, batchSize, i), filepath, files[i], batchSize) != Completed
    ensures key !in RecordAfter(processed, filepath, files, batchSize, |files|)
  {
    RecordOnlyGrows(processed, filepath, files, batchSize, |files|);
  }
}
