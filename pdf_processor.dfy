/** The bookkeeping of the PDF processor panel (ui/components/pdf_processor.py):
    which files `_process_pdfs` still has to process, what it records for the
    ones it finishes, which files `_get_files_for_vector` finds behind a vector
    name, and how `_update_processed_files_after_clear` forgets them again.

    The processed-files JSON file is a `ProcessedFilesStore` object. Text
    extraction, embedding and upload calls are left abstract: each file says
    whether extraction raises and whether its uploads succeed. The batch loop
    that builds the payloads is the one of `embedding_test` with a batch size of
    50 (see `Ingestion.FilePayloads`). */
module PdfProcessor {
  import opened Wrappers
  import opened Text
  import opened Json
  import opened PageMap
  import opened Ingestion

  /** The folder the panel processes, relative to the project root. */
  const PdfFolder: string := "scripts/data/pdfs"

  /** A file found in the folder: its name, its path relative to the project
      root, what extraction yields (None when it raises), and whether its
      embedding and upload calls all succeed. */
  datatype PdfFile = PdfFile(name: string, relativePath: string, extraction: Option<DocumentText>, uploadsSucceed: bool)

  /** The processed-files JSON file, and how often it has been written. */
  class ProcessedFilesStore {
    var record: map<string, bool>
    var saves: nat

    constructor(record: map<string, bool>)
      ensures this.record == record && saves == 0
    {
      this.record := record;
      saves := 0;
    }

    /** `save_to_json(processed_files_data)`. */
    method Save(data: map<string, bool>)
      modifies this
      ensures record == data && saves == old(saves) + 1
    {
      record := data;
      saves := saves + 1;
    }
  }

  // ---------------------------------------------------------------------------
  // Which files are still to do

  /** `path.replace("\\", "/")`. */
  function Slashed(path: string): string {
    ReplaceChar(path, '\\', '/')
  }

  /** The form in which the filter compares paths: forward slashes, lower case.
      It keeps the length, and no backslash or ASCII capital is left. */
  function MatchKey(path: string): (r: string)
    ensures |r| == |path|
    ensures forall i :: 0 <= i < |r| ==> r[i] != '\\' && !('A' <= r[i] <= 'Z')
  {
    Lower(Slashed(path))
  }

  /** Some recorded path names the same file, up to slashes and case. */
  predicate IsProcessed(path: string, keys: set<string>) {
    exists k | k in keys :: MatchKey(k) == MatchKey(path)
  }

  /** The files the filter keeps, in their original order: never more than it
      is given, and none that a recorded path matches. */
  function Unprocessed(files: seq<PdfFile>, keys: set<string>): (r: seq<PdfFile>)
    ensures |r| <= |files|
    ensures forall i :: 0 <= i < |r| ==> !IsProcessed(r[i].relativePath, keys)
  {
    if files == [] then []
    else
      var init := Unprocessed(files[..|files| - 1], keys);
      var f := files[|files| - 1];
      if IsProcessed(f.relativePath, keys) then init else init + [f]
  }

  /** The filter loop of `_process_pdfs`: every file is compared with every
      recorded path until one matches. */
  method FilterUnprocessed(files: seq<PdfFile>, processedFilesData: map<string, bool>)
    returns (unprocessedFiles: seq<PdfFile>)
    ensures unprocessedFiles == Unprocessed(files, processedFilesData.Keys)
  {
    unprocessedFiles := [];
    for i := 0 to |files|
      invariant unprocessedFiles == Unprocessed(files[..i], processedFilesData.Keys)
    {
      assert files[..i + 1][..i] == files[..i];
      var file := files[i];
      var normalizedRelativePath := Slashed(file.relativePath);
      var isProcessed := false;
      var remaining := processedFilesData.Keys;
      while remaining != {} && !isProcessed
        invariant remaining <= processedFilesData.Keys
        invariant isProcessed ==> IsProcessed(file.relativePath, processedFilesData.Keys)
        invariant !isProcessed ==> forall k :: k in processedFilesData.Keys - remaining ==> MatchKey(k) != MatchKey(file.relativePath)
        decreases |remaining|
      {
        var processedPath :| processedPath in remaining;
        var normalizedProcessedPath := Slashed(processedPath);
        if Lower(normalizedRelativePath) == Lower(normalizedProcessedPath) {
          isProcessed := true;
        }
        remaining := remaining - {processedPath};
      }
      if !isProcessed {
        unprocessedFiles := unprocessedFiles + [file];
      }
    }
    assert files[..|files|] == files;
  }

  /** A file is kept exactly when no recorded path matches it, and nothing else
      enters the result. */
  lemma {:induction false} UnprocessedMembers(files: seq<PdfFile>, keys: set<string>)
    ensures forall f :: f in Unprocessed(files, keys) <==> f in files && !IsProcessed(f.relativePath, keys)
  {
    if files != [] {
      var init := files[..|files| - 1];
      UnprocessedMembers(init, keys);
      assert files == init + [files[|files| - 1]];
    }
  }

  /** The filter keeps the original order: filtering two lists one after the
      other gives the filtered lists one after the other. */
  lemma {:induction false} UnprocessedAppend(a: seq<PdfFile>, b: seq<PdfFile>, keys: set<string>)
    ensures Unprocessed(a + b, keys) == Unprocessed(a, keys) + Unprocessed(b, keys)
  {
    if b != [] {
      var b' := b[..|b| - 1];
      assert (a + b)[..|a + b| - 1] == a + b';
      UnprocessedAppend(a, b', keys);
    } else {
      assert a + b == a;
    }
  }

  // ---------------------------------------------------------------------------
  // Processing

  /** The key a finished file is recorded under. */
  function RecordKey(f: PdfFile): string {
    Slashed(f.relativePath)
  }

  /** What the processing loop does with one file: an extraction that raises
      or an upload that raises fails it, an empty text skips it, and otherwise
      it is finished. The batch size of 50 never makes `range` raise. */
  function PdfOutcome(f: PdfFile): (r: FileOutcome)
    ensures r != Skipped
    ensures r == Completed <==> f.extraction.Some? && f.extraction.value.content != "" && f.uploadsSucceed
  {
    if f.extraction.None? then Failed
    else if f.extraction.value.content == "" then NoContent
    else if !f.uploadsSucceed then Failed
    else Completed
  }

  /** The record after the first `n` files have been processed: it keeps every
      key, and every key it gains is marked True. */
  function RecordRun(record: map<string, bool>, files: seq<PdfFile>, n: nat): (r: map<string, bool>)
    requires n <= |files|
    ensures record.Keys <= r.Keys
    ensures forall k :: k in r && k !in record ==> r[k]
  {
    if n == 0 then record
    else
      var before := RecordRun(record, files, n - 1);
      if PdfOutcome(files[n - 1]) == Completed then before[RecordKey(files[n - 1]) := true] else before
  }

  /** How many of the first `n` files were finished. */
  function CompletedCount(files: seq<PdfFile>, n: nat): nat
    requires n <= |files|
  {
    if n == 0 then 0
    else CompletedCount(files, n - 1) + (if PdfOutcome(files[n - 1]) == Completed then 1 else 0)
  }

  /** How `_process_pdfs` ends: no PDF in the folder, nothing left to do, or the
      number of files finished out of those it tried. */
  datatype ProcessReport = NoFiles | AllProcessed | Processed(processedFiles: nat, totalFiles: nat)

  /** `_process_pdfs` without the UI: filter out the recorded files, then
      process the rest, recording and saving each finished one. */
  method ProcessPdfs(store: ProcessedFilesStore, files: seq<PdfFile>) returns (report: ProcessReport)
    modifies store
    ensures files == [] ==> report == NoFiles && store.record == old(store.record) && store.saves == old(store.saves)
    ensures files != [] && Unprocessed(files, old(store.record).Keys) == [] ==>
      report == AllProcessed && store.record == old(store.record) && store.saves == old(store.saves)
    ensures files != [] && Unprocessed(files, old(store.record).Keys) != [] ==>
      var todo := Unprocessed(files, old(store.record).Keys);
      && report == Processed(CompletedCount(todo, |todo|), |todo|)
      && store.record == RecordRun(old(store.record), todo, |todo|)
      && store.saves == old(store.saves) + CompletedCount(todo, |todo|)
  {
    if files == [] {
      return NoFiles;
    }
    var processedFilesData := store.record;
    var unprocessedFiles := FilterUnprocessed(files, processedFilesData);
    if unprocessedFiles == [] {
      return AllProcessed;
    }
    ghost var saves0 := store.saves;
    var totalFiles := |unprocessedFiles|;
    var processedFiles := 0;
    for i := 0 to totalFiles
      invariant processedFilesData == RecordRun(old(store.record), unprocessedFiles, i)
      invariant store.record == processedFilesData || (i > 0 && store.record == RecordRun(old(store.record), unprocessedFiles, i))
      invariant processedFiles == CompletedCount(unprocessedFiles, i)
      invariant store.saves == saves0 + processedFiles
      invariant processedFiles == 0 ==> store.record == old(store.record)
    {
      var file := unprocessedFiles[i];
      if file.extraction.None? {
        continue;
      }
      if file.extraction.value.content == "" {
        continue;
      }
      if !file.uploadsSucceed {
        continue;
      }
      var normalizedPath := Slashed(file.relativePath);
      processedFilesData := processedFilesData[normalizedPath := true];
      store.Save(processedFilesData);
      processedFiles := processedFiles + 1;
    }
    report := Processed(processedFiles, totalFiles);
  }

  lemma SlashedIdempotent(path: string)
    ensures Slashed(Slashed(path)) == Slashed(path)
  {
  }

  /** A file the filter keeps is never recorded yet under its own key, so
      recording it overwrites nothing. */
  lemma UnprocessedKeyIsNew(f: PdfFile, keys: set<string>)
    requires !IsProcessed(f.relativePath, keys)
    ensures RecordKey(f) !in keys
  {
    SlashedIdempotent(f.relativePath);
    assert MatchKey(RecordKey(f)) == MatchKey(f.relativePath);
  }

  /** The run adds exactly the keys of the finished files, marked True. */
  lemma {:induction false} RecordRunAdds(record: map<string, bool>, files: seq<PdfFile>, n: nat)
    requires n <= |files|
    ensures var after := RecordRun(record, files, n);
      forall k :: k in after <==> k in record || exists i :: 0 <= i < n && PdfOutcome(files[i]) == Completed && RecordKey(files[i]) == k
    ensures var after := RecordRun(record, files, n);
      forall i :: 0 <= i < n && PdfOutcome(files[i]) == Completed ==> after[RecordKey(files[i])]
    ensures var after := RecordRun(record, files, n);
      forall k :: k in record && (forall i :: 0 <= i < n && PdfOutcome(files[i]) == Completed ==> RecordKey(files[i]) != k) ==>
        after[k] == record[k]
  {
    if n > 0 {
      RecordRunAdds(record, files, n - 1);
      var before := RecordRun(record, files, n - 1);
      if PdfOutcome(files[n - 1]) == Completed {
        var key := RecordKey(files[n - 1]);
        assert RecordRun(record, files, n) == before[key := true];
        assert key in before[key := true] <==> exists i :: 0 <= i < n && PdfOutcome(files[i]) == Completed && RecordKey(files[i]) == key by {
          assert PdfOutcome(files[n - 1]) == Completed && RecordKey(files[n - 1]) == key;
        }
      } else {
        assert RecordRun(record, files, n) == before;
      }
    }
  }

  /** A run of the processor changes no entry it found in the record: every key
      it writes belongs to a file the filter let through. */
  lemma RunKeepsOldEntries(record: map<string, bool>, files: seq<PdfFile>)
    ensures var todo := Unprocessed(files, record.Keys);
      var after := RecordRun(record, todo, |todo|);
      forall k :: k in record ==> k in after && after[k] == record[k]
  {
    var todo := Unprocessed(files, record.Keys);
    UnprocessedMembers(files, record.Keys);
    forall i | 0 <= i < |todo|
      ensures RecordKey(todo[i]) !in record
    {
      assert todo[i] in todo;
      UnprocessedKeyIsNew(todo[i], record.Keys);
    }
    RecordRunAdds(record, todo, |todo|);
  }

  /** A file finished by one run is filtered out by the next. */
  lemma FinishedFilesAreSkippedNextTime(record: map<string, bool>, files: seq<PdfFile>, i: nat)
    requires i < |files| && PdfOutcome(files[i]) == Completed
    ensures IsProcessed(files[i].relativePath, RecordRun(record, files, |files|).Keys)
  {
    RecordRunAdds(record, files, |files|);
    var k := RecordKey(files[i]);
    SlashedIdempotent(files[i].relativePath);
    assert k in RecordRun(record, files, |files|).Keys && MatchKey(k) == MatchKey(files[i].relativePath);
  }

  // ---------------------------------------------------------------------------
  // Clearing a vector

  /** A point as `scroll(with_payload=True, with_vectors=True)` returns it: the
      names of its vectors and its payload. */
  datatype ScrollPoint = ScrollPoint(vectorNames: set<string>, payload: Dict)

  /** The `source` of a payload as the loop sees it: nothing usable (missing or
      falsy), a path, or a truthy non-string on which `startswith` raises. */
  datatype SourceField = NoSource | SourcePath(path: string) | BadSource

  function SourceOf(payload: Dict): (r: SourceField)
    ensures r.SourcePath? ==> r.path != ""
  {
    if "source" !in payload || !Truthy(payload["source"]) then NoSource
    else if payload["source"].JString? then SourcePath(payload["source"].s)
    else BadSource
  }

  /** The form in which `_get_files_for_vector` reports a source: paths in the
      default folder unchanged, any other with forward slashes. Only backslashes
      change, so the length is kept, and a backslash survives only in a
      default-folder path. */
  function NormalizedSource(source: string): (r: string)
    ensures |r| == |source|
    ensures '\\' in r ==> StartsWith(source, PdfFolder + "/")
  {
    if StartsWith(source, PdfFolder + "/") then source else Slashed(source)
  }

  /** The point carries the vector, and its source makes `startswith` raise. */
  predicate CarriesBadSource(p: ScrollPoint, vectorName: string) {
    vectorName in p.vectorNames && SourceOf(p.payload).BadSource?
  }

  /** The files behind a vector name among the first `n` points, at most one
      per point, or None exactly when some point carrying the vector has a bad
      source, which makes the loop raise. */
  function FilesForVector(points: seq<ScrollPoint>, vectorName: string, n: nat): (r: Option<set<string>>)
    requires n <= |points|
    ensures r.None? <==> exists i :: 0 <= i < n && CarriesBadSource(points[i], vectorName)
    ensures r.Some? ==> |r.value| <= n
  {
    if n == 0 then Some({})
    else
      match FilesForVector(points, vectorName, n - 1)
      case None => None
      case Some(files) =>
        var p := points[n - 1];
        if vectorName !in p.vectorNames then Some(files)
        else
          match SourceOf(p.payload)
          case NoSource => Some(files)
          case BadSource => None
          case SourcePath(s) => Some(files + {NormalizedSource(s)})
  }

  /** `_get_files_for_vector`: the scroll result is None when the call raises;
      any exception makes the answer the empty set. */
  method GetFilesForVector(scroll: Option<seq<ScrollPoint>>, vectorName: string) returns (filesToRemove: set<string>)
    ensures scroll.None? ==> filesToRemove == {}
    ensures scroll.Some? ==> filesToRemove == FilesForVector(scroll.value, vectorName, |scroll.value|).GetOr({})
  {
    if scroll.None? {
      return {};
    }
    var allPoints := scroll.value;
    filesToRemove := {};
    for i := 0 to |allPoints|
      invariant FilesForVector(allPoints, vectorName, i) == Some(filesToRemove)
    {
      var point := allPoints[i];
      if vectorName in point.vectorNames {
        var source := SourceOf(point.payload);
        if source.BadSource? {
          BadSourceRaises(allPoints, vectorName, i + 1, |allPoints|);
          return {};
        }
        if source.SourcePath? {
          var relativePath := if StartsWith(source.path, PdfFolder + "/") then source.path else Slashed(source.path);
          filesToRemove := filesToRemove + {relativePath};
        }
      }
    }
  }

  /** Once a bad source has made the loop raise, later points change nothing. */
  lemma {:induction false} BadSourceRaises(points: seq<ScrollPoint>, vectorName: string, i: nat, n: nat)
    requires i <= n <= |points|
    requires FilesForVector(points, vectorName, i).None?
    ensures FilesForVector(points, vectorName, n).None?
    decreases n
  {
    if n > i {
      BadSourceRaises(points, vectorName, i, n - 1);
    }
  }

  /** The point carries the vector and its source is reported as `f`. */
  predicate Reports(p: ScrollPoint, vectorName: string, f: string) {
    vectorName in p.vectorNames && SourceOf(p.payload).SourcePath? && NormalizedSource(SourceOf(p.payload).path) == f
  }

  /** What one point adds to the files found so far. */
  function Contribution(p: ScrollPoint, vectorName: string): set<string> {
    if vectorName in p.vectorNames && SourceOf(p.payload).SourcePath? then {NormalizedSource(SourceOf(p.payload).path)} else {}
  }

  lemma FilesForVectorStep(points: seq<ScrollPoint>, vectorName: string, n: nat)
    requires 0 < n <= |points|
    requires FilesForVector(points, vectorName, n).Some?
    ensures FilesForVector(points, vectorName, n - 1).Some?
    ensures FilesForVector(points, vectorName, n).value
         == FilesForVector(points, vectorName, n - 1).value + Contribution(points[n - 1], vectorName)
  {
  }

  /** A reported file holds a backslash only when it lies in the default folder. */
  lemma {:induction false} FilesForVectorBackslash(points: seq<ScrollPoint>, vectorName: string, n: nat)
    requires n <= |points|
    requires FilesForVector(points, vectorName, n).Some?
    ensures forall f :: f in FilesForVector(points, vectorName, n).value ==> StartsWith(f, PdfFolder + "/") || '\\' !in f
  {
    if n > 0 {
      FilesForVectorStep(points, vectorName, n);
      FilesForVectorBackslash(points, vectorName, n - 1);
    }
  }

  /** A file is reported exactly when some point carrying the vector has it as
      its normalised source. */
  lemma {:induction false} FilesForVectorReports(points: seq<ScrollPoint>, vectorName: string, n: nat)
    requires n <= |points|
    requires FilesForVector(points, vectorName, n).Some?
    ensures forall f :: f in FilesForVector(points, vectorName, n).value <==> exists i :: 0 <= i < n && Reports(points[i], vectorName, f)
  {
    if n > 0 {
      FilesForVectorStep(points, vectorName, n);
      FilesForVectorReports(points, vectorName, n - 1);
      var prev := FilesForVector(points, vectorName, n - 1).value;
      var extra := Contribution(points[n - 1], vectorName);
      forall f | f in extra
        ensures Reports(points[n - 1], vectorName, f)
      {
      }
      forall f | exists i :: 0 <= i < n && Reports(points[i], vectorName, f)
        ensures f in prev + extra
      {
        var i :| 0 <= i < n && Reports(points[i], vectorName, f);
        if i == n - 1 {
          assert f in extra;
        }
      }
    }
  }

  /** Every file reported comes from a point carrying the vector, and holds a
      backslash only when it lies in the default folder; every such point's
      source is reported. */
  lemma FilesForVectorMembers(points: seq<ScrollPoint>, vectorName: string, n: nat)
    requires n <= |points|
    requires FilesForVector(points, vectorName, n).Some?
    ensures var files := FilesForVector(points, vectorName, n).value;
      && (forall f :: f in files ==> StartsWith(f, PdfFolder + "/") || '\\' !in f)
      && (forall f :: f in files <==> exists i :: 0 <= i < n && Reports(points[i], vectorName, f))
  {
    FilesForVectorBackslash(points, vectorName, n);
    FilesForVectorReports(points, vectorName, n);
  }

  /** `_update_processed_files_after_clear`: drop every recorded path that
      equals one of the files exactly, count them, and write the file only
      when something was dropped. */
  method UpdateProcessedFilesAfterClear(store: ProcessedFilesStore, filesToRemove: set<string>)
    returns (removedCount: nat)
    modifies store
    ensures removedCount == |filesToRemove * old(store.record).Keys|
    ensures store.record == old(store.record) - filesToRemove
    ensures store.saves == old(store.saves) + (if removedCount > 0 then 1 else 0)
  {
    var processedFilesData := store.record;
    removedCount := 0;
    var remaining := filesToRemove;
    ghost var done: set<string> := {};
    while remaining != {}
      invariant remaining + done == filesToRemove && remaining !! done
      invariant processedFilesData == old(store.record) - done
      invariant removedCount == |done * old(store.record).Keys|
      invariant store.record == old(store.record) && store.saves == old(store.saves)
      decreases |remaining|
    {
      var filePath :| filePath in remaining;
      RemoveStep(old(store.record), done, filePath);
      if filePath in processedFilesData {
        processedFilesData := processedFilesData - {filePath};
        removedCount := removedCount + 1;
      }
      remaining := remaining - {filePath};
      done := done + {filePath};
    }
    if removedCount > 0 {
      store.Save(processedFilesData);
    } else {
      NothingRemoved(old(store.record), filesToRemove);
    }
  }

  /** One more path handled: the record loses it if it held it, and the count
      grows by one exactly then. */
  lemma RemoveStep(record: map<string, bool>, done: set<string>, x: string)
    requires x !in done
    ensures x in record - done <==> x in record
    ensures x in record ==> record - (done + {x}) == (record - done) - {x}
    ensures x !in record ==> record - (done + {x}) == record - done
    ensures x in record ==> |(done + {x}) * record.Keys| == |done * record.Keys| + 1
    ensures x !in record ==> (done + {x}) * record.Keys == done * record.Keys
  {
    if x in record {
      assert (done + {x}) * record.Keys == done * record.Keys + {x};
    }
  }

  lemma NothingRemoved(record: map<string, bool>, files: set<string>)
    requires |files * record.Keys| == 0
    ensures record - files == record
  {
    assert files * record.Keys == {};
  }

  /** `_clear_vector` after its checks: collect the files behind the vector,
      then, only when `clear_vector` reports success, forget them. */
  method ClearVectorRecords(store: ProcessedFilesStore, scroll: Option<seq<ScrollPoint>>, vectorName: string, success: bool)
    modifies store
    ensures var files := if scroll.Some? then FilesForVector(scroll.value, vectorName, |scroll.value|).GetOr({}) else {};
      && store.record == (if success then old(store.record) - files else old(store.record))
      && store.saves == old(store.saves) + (if success && |files * old(store.record).Keys| > 0 then 1 else 0)
  {
    var filesToRemove := GetFilesForVector(scroll, vectorName);
    if success {
      var _ := UpdateProcessedFilesAfterClear(store, filesToRemove);
    }
  }

  /** The `source` a chunk's payload carries: the folder `resolve_file_path`
      returned, a slash and the file name. */
  function PayloadSource(folderPath: string, f: PdfFile): string {
    folderPath + "/" + f.name
  }

  lemma SlashedAppend(a: string, b: string)
    ensures Slashed(a + b) == Slashed(a) + Slashed(b)
  {
    assert forall i :: 0 <= i < |a| ==> (a + b)[i] == a[i];
    assert forall i :: |a| <= i < |a + b| ==> (a + b)[i] == b[i - |a|];
  }

  lemma SlashedKeeps(a: string)
    requires '\\' !in a
    ensures Slashed(a) == a
  {
  }

  /** Cancelling a common suffix. */
  lemma SameSuffix(a: string, b: string, t: string)
    ensures a + t == b + t <==> a == b
  {
    if a + t == b + t {
      assert a == (a + t)[..|a|] && b == (b + t)[..|b|];
    }
  }

  /** The string fact behind the clearing match, for any folder `dir` with no
      backslash: a source `folder + tail`, normalised as `NormalizedSource`
      does, equals `dir + tail` exactly when `folder` with forward slashes is
      `dir`. */
  lemma FolderSourceMatch(folder: string, dir: string, tail: string)
    requires '\\' !in dir && '\\' !in tail
    ensures var src := folder + tail;
      (if StartsWith(src, dir + "/") then src else Slashed(src)) == dir + tail <==> Slashed(folder) == dir
  {
    var src := folder + tail;
    SlashedKeeps(dir);
    SameSuffix(folder, dir, tail);
    if StartsWith(src, dir + "/") {
      if Slashed(folder) == dir {
        assert |folder| == |dir|;
        assert folder == src[..|dir|] == (dir + "/")[..|dir|];
      }
    } else {
      SlashedAppend(folder, tail);
      SlashedKeeps(tail);
      SameSuffix(Slashed(folder), dir, tail);
    }
  }

  lemma NoBackslashAppend(a: string, b: string)
    requires '\\' !in a && '\\' !in b
    ensures '\\' !in a + b
  {
    assert forall i :: 0 <= i < |a + b| ==> (a + b)[i] == if i < |a| then a[i] else b[i - |a|];
  }

  /** A default-folder file whose name has no backslash is cleared from the
      record exactly when its chunks' `source` was built on a folder that,
      with forward slashes, is the relative folder itself. A folder with the
      root path in front leaves the record entry in place. */
  lemma ClearedSourceMatchesRecord(folderPath: string, f: PdfFile)
    requires f.relativePath == PdfFolder + "/" + f.name && '\\' !in f.name
    ensures NormalizedSource(PayloadSource(folderPath, f)) == RecordKey(f) <==> Slashed(folderPath) == PdfFolder
  {
    var tail := "/" + f.name;
    NoBackslashAppend("/", f.name);
    NoBackslashAppend(PdfFolder, tail);
    assert PdfFolder + "/" + f.name == PdfFolder + tail;
    SlashedKeeps(PdfFolder + tail);
    assert PayloadSource(folderPath, f) == folderPath + tail;
    FolderSourceMatch(folderPath, PdfFolder, tail);
  }

  /** With the root path in front of the folder, as `resolve_file_path` puts
      it, a finished file stays recorded after its vector is cleared: the
      reported source is the absolute path, the record key the relative one. */
  lemma RootedFolderKeepsRecord()
    ensures var f := PdfFile("a.pdf", PdfFolder + "/a.pdf", Some(DocumentText("text", [])), true);
      var point := ScrollPoint({"v"}, map["source" := JString(PayloadSource("/srv/app/" + PdfFolder, f))]);
      var record := RecordRun(map[], [f], 1);
      && PdfOutcome(f) == Completed
      && RecordKey(f) in record
      && FilesForVector([point], "v", 1).Some?
      && RecordKey(f) in record - FilesForVector([point], "v", 1).value
  {
    var f := PdfFile("a.pdf", PdfFolder + "/a.pdf", Some(DocumentText("text", [])), true);
    var folder := "/srv/app/" + PdfFolder;
    var source := PayloadSource(folder, f);
    var point := ScrollPoint({"v"}, map["source" := JString(source)]);
    assert SourceOf(point.payload) == SourcePath(source);
    assert FilesForVector([point], "v", 1) == Some({NormalizedSource(source)});
    assert |Slashed(folder)| != |PdfFolder|;
    ClearedSourceMatchesRecord(folder, f);
  }

  /** The normalisation `_get_files_for_vector` sets out to do: forward
      slashes, and the root path in front taken off, so that a source comes
      out in the root-relative form the record uses. */
  function IntendedNormalizedSource(rootPath: string, source: string): (r: string)
    ensures var s := Slashed(source); StartsWith(s, Slashed(rootPath) + "/") ==> s == Slashed(rootPath) + "/" + r
    ensures !StartsWith(Slashed(source), Slashed(rootPath) + "/") ==> r == Slashed(source)
  {
    var s := Slashed(source);
    var prefix := Slashed(rootPath) + "/";
    if StartsWith(s, prefix) then
      assert s == prefix + s[|prefix|..];
      s[|prefix|..]
    else s
  }

  /** With the root path and a slash in front, the intended normalisation
      gives back the relative path with forward slashes. */
  lemma StripRoot(rootPath: string, rel: string)
    ensures IntendedNormalizedSource(rootPath, rootPath + "/" + rel) == Slashed(rel)
  {
    var prefix := Slashed(rootPath) + "/";
    SlashedAppend(rootPath + "/", rel);
    SlashedAppend(rootPath, "/");
    SlashedKeeps("/");
    assert Slashed(rootPath + "/" + rel) == prefix + Slashed(rel);
    assert (prefix + Slashed(rel))[|prefix|..] == Slashed(rel);
  }

  /** With the intended normalisation, every finished default-folder file is
      found again under its record key, whatever the root path is. */
  lemma IntendedClearMatchesRecord(rootPath: string, f: PdfFile)
    requires f.relativePath == PdfFolder + "/" + f.name
    ensures IntendedNormalizedSource(rootPath, PayloadSource(rootPath + "/" + PdfFolder, f)) == RecordKey(f)
  {
    assert PayloadSource(rootPath + "/" + PdfFolder, f) == rootPath + "/" + f.relativePath;
    StripRoot(rootPath, f.relativePath);
  }
}
