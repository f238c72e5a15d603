/** `QdrantManager` from scripts/vectordb.py: batched upload with retries,
    multi-vector search, and the queries behind counting and clearing vectors.

    The Qdrant client is abstract. Each of its calls is a parameter that either
    answers or raises (`None`, or an error result for uploads). Point ids are
    given rather than generated, and similarity scores are integers, used only
    through their order. */
module VectorDb {
  import opened Wrappers
  import opened Json
  import opened Sorting
  import opened Text

  /** An embedding vector; its components are never inspected here. */
  type Embedding = seq<int>

  /** A point sent to `upsert`: its named vectors and its payload. */
  datatype Point = Point(vector: map<string, Embedding>, payload: Dict)

  /** A point as `scroll` returns it: its id and the names of its vectors. */
  datatype StoredPoint = StoredPoint(id: nat, vectorNames: set<string>)

  /** A search hit. */
  datatype ScoredPoint = ScoredPoint(id: nat, score: int, payload: Dict)

  /** What one `upsert` call does: succeed, raise ResponseHandlingException, or
      raise anything else. */
  datatype UpsertResult = Upserted | ResponseHandlingError | UnexpectedError

  /** Why `add_embeddings_batch` raised: `range` with a zero step, or the cause
      of a sub-batch's final failure. */
  datatype UploadError = ZeroBatchSize | SubBatchFailed(batch: nat, cause: UpsertResult)

  // ---------------------------------------------------------------------------
  // Sub-batching

  /** `seq[a:b]` for `0 <= a <= b`: Python clamps both ends to the length. */
  function PySlice<T>(s: seq<T>, a: nat, b: nat): (r: seq<T>)
    requires a <= b
    ensures |r| == (if b <= |s| then b - a else if a <= |s| then |s| - a else 0)
    ensures forall i :: 0 <= i < |r| ==> r[i] == s[a + i]
  {
    if a >= |s| then [] else if b >= |s| then s[a..] else s[a..b]
  }

  /** The number of sub-batches `range(0, total, m)` yields: one per step of
      `m` until `total` is reached. */
  function NumBatches(total: nat, m: nat): nat
    requires m > 0
    decreases total
  {
    if total == 0 then 0 else if total <= m then 1 else 1 + NumBatches(total - m, m)
  }

  /** Sub-batch k covers `[k*m, min(k*m + m, total))`; its start is reached by
      `k` steps of `m`. */
  function BatchStart(k: nat, m: nat): nat {
    if k == 0 then 0 else BatchStart(k - 1, m) + m
  }

  function BatchEnd(k: nat, m: nat, total: nat): nat {
    if BatchStart(k, m) + m < total then BatchStart(k, m) + m else total
  }

  /** Sub-batch `k` exists exactly when its start lies below `total`. */
  lemma {:induction false} BatchInRange(total: nat, m: nat, k: nat)
    requires m > 0
    ensures k < NumBatches(total, m) <==> BatchStart(k, m) < total
  {
    if k > 0 && total > m {
      BatchInRange(total - m, m, k - 1);
    } else if k > 0 {
      StartAtLeastStep(k, m);
    }
  }

  lemma {:induction false} StartAtLeastStep(k: nat, m: nat)
    requires k > 0
    ensures BatchStart(k, m) >= m
  {
    if k > 1 {
      StartAtLeastStep(k - 1, m);
    }
  }

  /** The sub-batches tile `[0, total)` in order: each is non-empty and holds at
      most `m` indices, each ends where the next starts, and the last ends at
      `total`. */
  lemma BatchesTile(total: nat, m: nat, k: nat)
    requires m > 0 && k < NumBatches(total, m)
    ensures BatchStart(k, m) < BatchEnd(k, m, total) <= total
    ensures BatchEnd(k, m, total) - BatchStart(k, m) <= m
    ensures k + 1 < NumBatches(total, m) ==> BatchEnd(k, m, total) == BatchStart(k + 1, m)
    ensures k + 1 == NumBatches(total, m) ==> BatchEnd(k, m, total) == total
  {
    BatchInRange(total, m, k);
    BatchInRange(total, m, k + 1);
  }

  /** `metadata or {}`: a missing or empty payload becomes `{}`. */
  function Payload(metadata: Option<Dict>): Dict {
    metadata.GetOr(map[])
  }

  /** The points of one sub-batch: `zip` stops at the shorter slice (the
      metadata list may be shorter than the embeddings). */
  function BatchPoints(embeddings: seq<Embedding>, metadatas: seq<Option<Dict>>, vectorName: string,
                       s: nat, e: nat): (ps: seq<Point>)
    requires s <= e <= |embeddings|
    ensures |ps| == (if e <= |metadatas| then e - s else if s <= |metadatas| then |metadatas| - s else 0)
    ensures forall i :: 0 <= i < |ps| ==>
      ps[i] == Point(map[vectorName := embeddings[s + i]], Payload(metadatas[s + i]))
  {
    var embs := embeddings[s..e];
    var metas := PySlice(metadatas, s, e);
    var n := if |embs| < |metas| then |embs| else |metas|;
    seq(n, i requires 0 <= i < n => Point(map[vectorName := embs[i]], Payload(metas[i])))
  }

  /** The point for embedding `i` when every embedding has its metadata. */
  function PointAt(embeddings: seq<Embedding>, metadatas: seq<Option<Dict>>, vectorName: string, i: nat): Point
    requires i < |embeddings| && i < |metadatas|
  {
    Point(map[vectorName := embeddings[i]], Payload(metadatas[i]))
  }

  // ---------------------------------------------------------------------------
  // Retries

  /** The retry loop for sub-batch `k` from attempt `a` on: the result and the
      number of attempts made. ResponseHandlingException is retried up to the
      third attempt; success or any other error ends the loop at once. */
  function RetryFrom(upsert: (nat, nat) -> UpsertResult, k: nat, a: nat): (r: (UpsertResult, nat))
    requires a < 3
    decreases 3 - a
    ensures a < r.1 <= 3
    ensures forall b :: a <= b < r.1 - 1 ==> upsert(k, b) == ResponseHandlingError
    ensures upsert(k, r.1 - 1) == r.0
    ensures r.0 == ResponseHandlingError ==> r.1 == 3
  {
    match upsert(k, a)
    case Upserted => (Upserted, a + 1)
    case UnexpectedError => (UnexpectedError, a + 1)
    case ResponseHandlingError => if a < 2 then RetryFrom(upsert, k, a + 1) else (ResponseHandlingError, 3)
  }

  /** How sub-batch `k` ends after its retries. */
  function SubBatchResult(upsert: (nat, nat) -> UpsertResult, k: nat): UpsertResult {
    RetryFrom(upsert, k, 0).0
  }

  /** Attempts that all raised ResponseHandlingException do not change how the
      loop ends. */
  lemma {:induction false} RetrySkipsHandledErrors(upsert: (nat, nat) -> UpsertResult, k: nat, a: nat)
    requires a < 3
    requires forall b :: 0 <= b < a ==> upsert(k, b) == ResponseHandlingError
    ensures RetryFrom(upsert, k, 0) == RetryFrom(upsert, k, a)
  {
    if a > 0 {
      RetrySkipsHandledErrors(upsert, k, a - 1);
    }
  }

  /** The first sub-batch below `n` whose upload finally fails. */
  function FirstFailing(upsert: (nat, nat) -> UpsertResult, n: nat): (r: Option<nat>)
    ensures r.Some? ==> r.value < n && SubBatchResult(upsert, r.value) != Upserted
    ensures r.Some? ==> forall j :: 0 <= j < r.value ==> SubBatchResult(upsert, j) == Upserted
    ensures r.None? ==> forall j :: 0 <= j < n ==> SubBatchResult(upsert, j) == Upserted
  {
    if n == 0 then None
    else
      var before := FirstFailing(upsert, n - 1);
      if before.Some? then before
      else if SubBatchResult(upsert, n - 1) != Upserted then Some(n - 1)
      else None
  }

  /** The points of sub-batches `0..k-1`, in order. */
  function Uploaded(embeddings: seq<Embedding>, metadatas: seq<Option<Dict>>, vectorName: string,
                    m: nat, k: nat): seq<Point>
    requires m > 0 && k <= NumBatches(|embeddings|, m)
  {
    if k == 0 then []
    else
      BatchesTile(|embeddings|, m, k - 1);
      Uploaded(embeddings, metadatas, vectorName, m, k - 1)
        + BatchPoints(embeddings, metadatas, vectorName, BatchStart(k - 1, m), BatchEnd(k - 1, m, |embeddings|))
  }

  /** How far into the embeddings the first `k` sub-batches reach: the start
      of sub-batch `k`, or the end once there is none. */
  function Covered(k: nat, m: nat, total: nat): (c: nat)
    ensures c <= total
  {
    if BatchStart(k, m) < total then BatchStart(k, m) else total
  }

  /** Sub-batch `k` runs from the reach of the first `k` to that of the first
      `k + 1`. */
  lemma CoveredStep(total: nat, m: nat, k: nat)
    requires m > 0 && k < NumBatches(total, m)
    ensures Covered(k, m, total) == BatchStart(k, m)
    ensures Covered(k + 1, m, total) == BatchEnd(k, m, total)
  {
    BatchInRange(total, m, k);
    BatchInRange(total, m, k + 1);
    BatchesTile(total, m, k);
  }

  /** Zipping two adjacent slices gives the zip of their union. */
  lemma BatchPointsAppend(embeddings: seq<Embedding>, metadatas: seq<Option<Dict>>, vectorName: string,
                          a: nat, b: nat, c: nat)
    requires a <= b <= c <= |embeddings|
    ensures BatchPoints(embeddings, metadatas, vectorName, a, b) + BatchPoints(embeddings, metadatas, vectorName, b, c)
         == BatchPoints(embeddings, metadatas, vectorName, a, c)
  {
    var p := BatchPoints(embeddings, metadatas, vectorName, a, b);
    var q := BatchPoints(embeddings, metadatas, vectorName, b, c);
    var pq := BatchPoints(embeddings, metadatas, vectorName, a, c);
    assert |p + q| == |pq|;
    forall i | 0 <= i < |pq|
      ensures (p + q)[i] == pq[i]
    {
      if i >= |p| {
        assert (p + q)[i] == q[i - |p|];
      }
    }
  }

  /** The sub-batches, uploaded in order, add up to the zip of the embeddings
      they reach. */
  lemma {:induction false} UploadedIsPrefix(embeddings: seq<Embedding>, metadatas: seq<Option<Dict>>,
                                            vectorName: string, m: nat, k: nat)
    requires m > 0 && k <= NumBatches(|embeddings|, m)
    ensures Uploaded(embeddings, metadatas, vectorName, m, k)
         == BatchPoints(embeddings, metadatas, vectorName, 0, Covered(k, m, |embeddings|))
  {
    var total := |embeddings|;
    if k == 0 {
      assert Covered(0, m, total) == 0;
    } else {
      UploadedIsPrefix(embeddings, metadatas, vectorName, m, k - 1);
      CoveredStep(total, m, k - 1);
      BatchPointsAppend(embeddings, metadatas, vectorName, 0, BatchStart(k - 1, m), BatchEnd(k - 1, m, total));
    }
  }

  /** When every sub-batch succeeds and every embedding has its metadata,
      exactly one point per embedding is uploaded, in input order. */
  lemma UploadsEveryEmbedding(embeddings: seq<Embedding>, metadatas: seq<Option<Dict>>, vectorName: string, m: nat)
    requires m > 0 && |metadatas| >= |embeddings|
    ensures var up := Uploaded(embeddings, metadatas, vectorName, m, NumBatches(|embeddings|, m));
      && |up| == |embeddings|
      && forall i :: 0 <= i < |embeddings| ==> up[i] == PointAt(embeddings, metadatas, vectorName, i)
  {
    var n := NumBatches(|embeddings|, m);
    UploadedIsPrefix(embeddings, metadatas, vectorName, m, n);
    BatchInRange(|embeddings|, m, n);
  }

  /** `add_embeddings_batch`: upload sub-batches of at most `maxBatchSize`
      points in order, retrying each as the policy allows; the first sub-batch
      that finally fails raises, after the earlier ones were stored. Returns
      the outcome and the points the server accepted. */
  method AddEmbeddingsBatch(upsert: (nat, nat) -> UpsertResult, embeddings: seq<Embedding>,
                            metadatas: seq<Option<Dict>>, vectorName: string, maxBatchSize: int)
    returns (r: Outcome<UploadError>, uploaded: seq<Point>)
    ensures maxBatchSize == 0 ==> r == Fail(ZeroBatchSize) && uploaded == []
    ensures maxBatchSize < 0 ==> r == Pass && uploaded == []
    ensures maxBatchSize > 0 ==>
      var n := NumBatches(|embeddings|, maxBatchSize);
      var f := FirstFailing(upsert, n);
      && (f.None? ==> r == Pass && uploaded == BatchPoints(embeddings, metadatas, vectorName, 0, |embeddings|))
      && (f.Some? ==>
           && r == Fail(SubBatchFailed(f.value, SubBatchResult(upsert, f.value)))
           && uploaded == BatchPoints(embeddings, metadatas, vectorName, 0, Covered(f.value, maxBatchSize, |embeddings|)))
  {
    uploaded := [];
    if maxBatchSize == 0 {
      return Fail(ZeroBatchSize), [];
    }
    if maxBatchSize < 0 {
      return Pass, [];
    }
    var m := maxBatchSize;
    var totalPoints := |embeddings|;
    var n := NumBatches(totalPoints, m);
    var k := 0;
    var batchStart := 0;
    while batchStart < totalPoints
      invariant k <= n && batchStart == BatchStart(k, m)
      invariant k < n <==> batchStart < totalPoints
      invariant FirstFailing(upsert, k) == None
      invariant uploaded == BatchPoints(embeddings, metadatas, vectorName, 0, Covered(k, m, totalPoints))
      decreases totalPoints - batchStart
    {
      BatchesTile(totalPoints, m, k);
      var batchEnd := if batchStart + m < totalPoints then batchStart + m else totalPoints;
      assert batchEnd == BatchEnd(k, m, totalPoints);
      var points := BatchPoints(embeddings, metadatas, vectorName, batchStart, batchEnd);
      var result := UploadBatch(upsert, k);
      if result != Upserted {
        FirstFailingAt(upsert, n, k);
        return Fail(SubBatchFailed(k, result)), uploaded;
      }
      NextBatch(totalPoints, m, k);
      CoveredStep(totalPoints, m, k);
      BatchPointsAppend(embeddings, metadatas, vectorName, 0, batchStart, batchEnd);
      uploaded := uploaded + points;
      k := k + 1;
      batchStart := batchStart + m;
    }
    r := Pass;
  }

  /** Moving the cursor on by `m` reaches the next sub-batch, when there is one. */
  lemma NextBatch(total: nat, m: nat, k: nat)
    requires m > 0 && k < NumBatches(total, m)
    ensures BatchStart(k + 1, m) == BatchStart(k, m) + m
    ensures k + 1 < NumBatches(total, m) <==> BatchStart(k + 1, m) < total
  {
    BatchesTile(total, m, k);
    if k + 1 < NumBatches(total, m) {
      BatchesTile(total, m, k + 1);
    }
  }

  /** A failing sub-batch after successful ones is the first failing one. */
  lemma {:induction false} FirstFailingAt(upsert: (nat, nat) -> UpsertResult, n: nat, k: nat)
    requires k < n && SubBatchResult(upsert, k) != Upserted
    requires FirstFailing(upsert, k) == None
    ensures FirstFailing(upsert, n) == Some(k)
  {
    if n > k + 1 {
      FirstFailingAt(upsert, n - 1, k);
    }
  }

  /** The retry loop of one sub-batch. */
  method UploadBatch(upsert: (nat, nat) -> UpsertResult, k: nat) returns (result: UpsertResult)
    ensures result == SubBatchResult(upsert, k)
  {
    var attempt := 0;
    result := upsert(k, attempt);
    while result == ResponseHandlingError && attempt < 2
      invariant 0 <= attempt <= 2 && result == upsert(k, attempt)
      invariant forall b :: 0 <= b < attempt ==> upsert(k, b) == ResponseHandlingError
    {
      attempt := attempt + 1;
      result := upsert(k, attempt);
    }
    RetrySkipsHandledErrors(upsert, k, attempt);
  }

  // ---------------------------------------------------------------------------
  // Search

  /** `vector_name` may be one name, a list of names, or something else. */
  datatype VectorNameArg = OneName(name: string) | NameList(names: seq<string>) | OtherArgument

  /** `search_vectors` raises one wrapped exception for every failure. */
  datatype SearchError = SearchFailed

  function ByScoreDesc(): (ScoredPoint, ScoredPoint) -> bool {
    (a: ScoredPoint, b: ScoredPoint) => a.score >= b.score
  }

  lemma ScoreOrderIsTotalPreorder()
    ensures TotalPreorder(ByScoreDesc())
  {
  }

  /** `all_results.sort(key=score, reverse=True)`: highest score first, ties in
      merge order. */
  function SortByScore(results: seq<ScoredPoint>): (r: seq<ScoredPoint>)
    ensures multiset(r) == multiset(results)
    ensures forall i, j :: 0 <= i < j < |r| ==> r[i].score >= r[j].score
  {
    ScoreOrderIsTotalPreorder();
    var r := InsertionSort(results, ByScoreDesc());
    assert forall i, j :: 0 <= i < j < |r| ==> ByScoreDesc()(r[i], r[j]);
    r
  }

  /** The hits of every name whose search succeeds, in name order. */
  function Merged(search: string -> Option<seq<ScoredPoint>>, names: seq<string>): seq<ScoredPoint> {
    if names == [] then []
    else
      var last := search(names[|names| - 1]);
      Merged(search, names[..|names| - 1]) + (if last.Some? then last.value else [])
  }

  /** `search_vectors`: one name passes the client's answer through; a list
      merges the hits of the names that did not fail, sorts them by score and
      keeps the first `limit`; any other argument, or a failing single search,
      raises. */
  method SearchVectors(search: string -> Option<seq<ScoredPoint>>, vectorName: VectorNameArg, limit: int)
    returns (r: Result<seq<ScoredPoint>, SearchError>)
    ensures vectorName.OneName? ==>
      r == (if search(vectorName.name).Some? then Ok(search(vectorName.name).value) else Err(SearchFailed))
    ensures vectorName.NameList? ==> r == Ok(PyHead(SortByScore(Merged(search, vectorName.names)), limit))
    ensures vectorName.OtherArgument? ==> r == Err(SearchFailed)
  {
    match vectorName
    case OneName(name) =>
      var result := search(name);
      if result.None? {
        return Err(SearchFailed);
      }
      return Ok(result.value);
    case OtherArgument =>
      return Err(SearchFailed);
    case NameList(names) =>
      var allResults := [];
      for i := 0 to |names|
        invariant allResults == Merged(search, names[..i])
      {
        assert names[..i + 1][..i] == names[..i];
        var results := search(names[i]);
        if results.Some? {
          allResults := allResults + results.value;
        }
      }
      assert names[..|names|] == names;
      allResults := SortByScore(allResults);
      return Ok(PyHead(allResults, limit));
  }

  /** The merged search keeps at most `limit` hits, best first, every one of
      them a hit of some successful search, and no dropped hit scores higher
      than a kept one. */
  lemma MergedSearchTopHits(search: string -> Option<seq<ScoredPoint>>, names: seq<string>, limit: nat)
    ensures var all := Merged(search, names);
      var sorted := SortByScore(all);
      var r := PyHead(sorted, limit);
      && |r| <= limit
      && (forall i, j :: 0 <= i < j < |r| ==> r[i].score >= r[j].score)
      && multiset(r) <= multiset(all)
      && (forall i, j :: 0 <= i < |r| <= j < |sorted| ==> r[i].score >= sorted[j].score)
      && (limit >= |all| ==> multiset(r) == multiset(all))
  {
    var all := Merged(search, names);
    var sorted := SortByScore(all);
    var r := PyHead(sorted, limit);
    assert sorted == r + sorted[|r|..];
    assert multiset(sorted) == multiset(r) + multiset(sorted[|r|..]);
  }

  // ---------------------------------------------------------------------------
  // Collection queries

  /** `get_vector_names`: the collection's vector names sorted, or [] when the
      lookup raises. */
  function GetVectorNames(collectionVectors: Option<seq<string>>): (r: seq<string>)
    ensures collectionVectors.None? ==> r == []
    ensures collectionVectors.Some? ==>
      && multiset(r) == multiset(collectionVectors.value)
      && forall i, j :: 0 <= i < j < |r| ==> LexLe(r[i], r[j])
  {
    if collectionVectors.None? then [] else SortedStrings(collectionVectors.value)
  }

  /** The ids of the scrolled points that carry the vector, in scroll order. */
  function IdsWithVector(points: seq<StoredPoint>, vectorName: string): (ids: seq<nat>)
    ensures |ids| <= |points|
    ensures forall id :: id in ids <==> exists i :: 0 <= i < |points| && points[i].id == id && vectorName in points[i].vectorNames
  {
    if points == [] then []
    else
      var init := points[..|points| - 1];
      var last := points[|points| - 1];
      var ids := IdsWithVector(init, vectorName) + (if vectorName in last.vectorNames then [last.id] else []);
      assert forall i :: 0 <= i < |init| ==> init[i] == points[i];
      ids
  }

  /** `count_vectors`: the number of scrolled points carrying the vector, or -1
      when the scroll raises. */
  method CountVectors(scroll: Option<seq<StoredPoint>>, vectorName: string) returns (count: int)
    ensures scroll.None? ==> count == -1
    ensures scroll.Some? ==> count == |IdsWithVector(scroll.value, vectorName)|
  {
    if scroll.None? {
      return -1;
    }
    var allPoints := scroll.value;
    count := 0;
    for i := 0 to |allPoints|
      invariant count == |IdsWithVector(allPoints[..i], vectorName)|
    {
      assert allPoints[..i + 1][..i] == allPoints[..i];
      if vectorName in allPoints[i].vectorNames {
        count := count + 1;
      }
    }
    assert allPoints[..|allPoints|] == allPoints;
  }

  /** The server's answers `clear_vector` relies on, each `None` when the call
      raises: the collection names, the target collection's vector names, the
      scrolled points, and whether the delete call succeeds. */
  datatype ClearContext = ClearContext(
    collections: Option<seq<string>>,
    vectors: Option<seq<string>>,
    scroll: Option<seq<StoredPoint>>,
    deleteSucceeds: bool)

  /** `clear_vector`: the boolean result and the ids it asks the server to
      delete (None when it never calls delete). */
  method ClearVector(ctx: ClearContext, collectionName: string, vectorName: string)
    returns (cleared: bool, deleted: Option<seq<nat>>)
    ensures ctx.collections.None? || collectionName !in ctx.collections.value ==> !cleared && deleted.None?
    ensures ctx.collections.Some? && collectionName in ctx.collections.value ==>
      && (ctx.vectors.None? || vectorName !in ctx.vectors.value || ctx.scroll.None? ==> !cleared && deleted.None?)
      && (ctx.vectors.Some? && vectorName in ctx.vectors.value && ctx.scroll.Some? ==>
           var ids := IdsWithVector(ctx.scroll.value, vectorName);
           && (ids == [] ==> cleared && deleted.None?)
           && (ids != [] ==> cleared == ctx.deleteSucceeds && deleted == Some(ids)))
  {
    if ctx.collections.None? || collectionName !in ctx.collections.value {
      return false, None;
    }
    if ctx.vectors.None? || vectorName !in ctx.vectors.value {
      return false, None;
    }
    if ctx.scroll.None? {
      return false, None;
    }
    var allPoints := ctx.scroll.value;
    var pointsToDelete := [];
    for i := 0 to |allPoints|
      invariant pointsToDelete == IdsWithVector(allPoints[..i], vectorName)
    {
      assert allPoints[..i + 1][..i] == allPoints[..i];
      if vectorName in allPoints[i].vectorNames {
        pointsToDelete := pointsToDelete + [allPoints[i].id];
      }
    }
    assert allPoints[..|allPoints|] == allPoints;
    if pointsToDelete == [] {
      return true, None;
    }
    return ctx.deleteSucceeds, Some(pointsToDelete);
  }
}
