/** `LegalRAGQuerySystem` of `rag_system/query_rag_system.py`: plain top-k
    semantic search over the newest local snapshot, with no grouping by law,
    and the preview its display shows. The query-embedding call, the
    similarity and the file system are parameters. */
module QuerySystem {
  import opened Base
  import opened Text
  import opened Snapshots
  import opened Ranking
  import opened Dedup
  import opened Retrieval

  const EmbeddingsPattern: string := "embeddings_output/legal_embeddings_*.npy"
  const ChunksPattern: string := "embeddings_output/legal_chunks_*.json"

  /** Why `load_latest_embeddings` raises: no snapshot at all
      (`FileNotFoundError`), a picked file that cannot be read, or a
      matrix with no rows. An embedding run that embedded nothing saves
      `np.array([])`, whose shape has no second axis, so the report of the
      dimension raises `IndexError` after both fields are assigned. */
  datatype LoadError = NoSnapshot | Unreadable(path: string) | NoDimensions

  /** The files `load_latest_embeddings` picks and what reading them gives:
      nothing when either pattern matches no file, otherwise the greatest
      path of each list, the two chosen independently. */
  function LatestSnapshot(fs: Files): (r: LocalLoad)
    ensures var es, cs := fs.glob(EmbeddingsPattern), fs.glob(ChunksPattern);
      && (r.NoFiles? <==> es == [] || cs == [])
      && (!r.NoFiles? ==> r.embeddingFile in es && forall p :: p in es ==> LexLeq(p, r.embeddingFile))
      && (!r.NoFiles? ==> r.chunkFile in cs && forall p :: p in cs ==> LexLeq(p, r.chunkFile))
  {
    var es, cs := fs.glob(EmbeddingsPattern), fs.glob(ChunksPattern);
    if es == [] || cs == [] then NoFiles
    else
      var e, c := Latest(es), Latest(cs);
      match fs.loadMatrix(e)
      case None => MatrixUnreadable(e, c)
      case Some(m) =>
        match fs.loadChunks(c)
        case None => ChunksUnreadable(e, c, m)
        case Some(records) => Loaded(e, c, m, records)
  }

  /** The snapshot picked depends on which files exist, not on the order
      the file system lists them in. */
  lemma LatestSnapshotOrderFree(fs: Files, gs: Files)
    requires forall p :: p in fs.glob(EmbeddingsPattern) <==> p in gs.glob(EmbeddingsPattern)
    requires forall p :: p in fs.glob(ChunksPattern) <==> p in gs.glob(ChunksPattern)
    requires fs.loadMatrix == gs.loadMatrix && fs.loadChunks == gs.loadChunks
    ensures LatestSnapshot(fs) == LatestSnapshot(gs)
  {
    var es, cs := fs.glob(EmbeddingsPattern), fs.glob(ChunksPattern);
    var es', cs' := gs.glob(EmbeddingsPattern), gs.glob(ChunksPattern);
    if es != [] { assert es[0] in es'; }
    if es' != [] { assert es'[0] in es; }
    if cs != [] { assert cs[0] in cs'; }
    if cs' != [] { assert cs'[0] in cs; }
    if es != [] && cs != [] {
      LatestIsUnique(es', Latest(es));
      LatestIsUnique(cs', Latest(cs));
    }
  }

  /** One result of `search`. */
  datatype QueryHit = QueryHit(
    rank: nat,
    similarity: Score,
    lawName: string,
    lawType: string,
    chunkText: string,
    fullMetadata: Record)

  /** The result at 0-based position `i` for a stored chunk and its score. */
  function MakeHit(i: nat, chunk: Record, similarity: Score): QueryHit
  {
    QueryHit(i + 1, similarity, Get(chunk, "law_name", "Unknown"), Get(chunk, "law_type", "Unknown"),
             Get(chunk, "text", ""), chunk)
  }

  /** The results for the chunk indices `top`, in order. */
  function TopHits(chunks: seq<Record>, scores: seq<Score>, top: seq<nat>): (hits: seq<QueryHit>)
    requires forall i :: 0 <= i < |top| ==> top[i] < |chunks| && top[i] < |scores|
  {
    seq(|top|, i requires 0 <= i < |top| => MakeHit(i, chunks[top[i]], scores[top[i]]))
  }

  /** Every index of `order[:top_k]` names one of `n` loaded chunks. */
  predicate TopInRange(order: seq<nat>, topK: int, n: nat)
  {
    forall i :: 0 <= i < |PySliceTo(order, topK)| ==> order[i] < n
  }

  /** What `search` returns for given similarities and a descending argsort
      `order` of them whose first `top_k` indices name loaded chunks: one
      result per entry of `order[:top_k]`, with no grouping by law. */
  function QuerySpec(chunks: seq<Record>, scores: seq<Score>, order: seq<nat>, topK: int): seq<QueryHit>
    requires Indexes(scores, order) && TopInRange(order, topK, |chunks|)
  {
    var top := PySliceTo(order, topK);
    assert forall i :: 0 <= i < |top| ==> top[i] == order[i];
    TopHits(chunks, scores, top)
  }

  /** Why `search` raises: `self.chunks[idx]` with an index of the ranking
      past the loaded chunks (`IndexError`). */
  datatype SearchError = MissingChunk(index: nat)

  /** The first position of `top` from `i` on whose index is not below `n`. */
  function FirstOutside(top: seq<nat>, n: nat, i: nat): (r: Option<nat>)
    requires i <= |top|
    ensures r.Some? ==> i <= r.value < |top| && top[r.value] >= n
    ensures r.Some? ==> forall k :: i <= k < r.value ==> top[k] < n
    ensures r.None? ==> forall k :: i <= k < |top| ==> top[k] < n
    decreases |top| - i
  {
    if i == |top| then None
    else if top[i] >= n then Some(i)
    else FirstOutside(top, n, i + 1)
  }

  /** What `search` returns: `[]` without a query embedding; the
      `IndexError` for the first index of the top `top_k` that has no
      chunk; else the ranking under the argsort that breaks ties by
      ascending index. */
  function SearchOutcome(chunks: seq<Record>, embeddings: seq<Vector>, queryEmbedding: Option<Vector>,
                         sim: (Vector, Vector) -> Score, topK: int): Result<seq<QueryHit>, SearchError>
  {
    if queryEmbedding.None? then Ok([])
    else
      var scores := Similarities(queryEmbedding.value, embeddings, sim);
      var order := StableRanking(scores);
      var top := PySliceTo(order, topK);
      match FirstOutside(top, |chunks|, 0)
      case Some(k) => Err(MissingChunk(top[k]))
      case None =>
        assert TopInRange(order, topK, |chunks|) by {
          assert forall i :: 0 <= i < |top| ==> top[i] == order[i];
        }
        Ok(QuerySpec(chunks, scores, order, topK))
  }

  /** One entry `display_results` shows. The similarity is shown rounded to
      three places, which is left to the formatter. */
  datatype Shown = Shown(rank: nat, lawName: string, lawType: string, similarity: Score, preview: string)

  /** What `display_results` shows: the "no results" message, or one entry
      per result. */
  datatype Display = NoResults | Entries(entries: seq<Shown>)

  class LegalRAGQuerySystem {
    var chunks: Option<seq<Record>>
    var embeddings: Option<seq<Vector>>

    /** The start of `__init__`, before the snapshot is loaded. */
    constructor ()
      ensures chunks == None && embeddings == None
    {
      chunks := None;
      embeddings := None;
    }

    /** `load_latest_embeddings`. The matrix is assigned before the chunks
        file is read, and both are assigned before the dimension is
        reported. */
    method LoadLatestEmbeddings(fs: Files) returns (r: Outcome<LoadError>)
      modifies this
      ensures var s := LatestSnapshot(fs);
        && (r.Pass? <==> s.Loaded? && s.matrix != [])
        && (s.NoFiles? ==> r == Fail(NoSnapshot) && embeddings == old(embeddings) && chunks == old(chunks))
        && (s.MatrixUnreadable? ==>
              r == Fail(Unreadable(s.embeddingFile)) && embeddings == old(embeddings) && chunks == old(chunks))
        && (s.ChunksUnreadable? ==>
              r == Fail(Unreadable(s.chunkFile)) && embeddings == Some(s.matrix) && chunks == old(chunks))
        && (s.Loaded? ==> embeddings == Some(s.matrix) && chunks == Some(s.records))
        && (s.Loaded? && s.matrix == [] ==> r == Fail(NoDimensions))
    {
      var embeddingFiles := fs.glob(EmbeddingsPattern);
      var chunkFiles := fs.glob(ChunksPattern);
      if embeddingFiles == [] || chunkFiles == [] {
        return Fail(NoSnapshot);
      }
      var latestEmbeddingFile := Latest(embeddingFiles);
      var latestChunkFile := Latest(chunkFiles);
      var matrix := fs.loadMatrix(latestEmbeddingFile);
      if matrix.None? {
        return Fail(Unreadable(latestEmbeddingFile));
      }
      embeddings := Some(matrix.value);
      var records := fs.loadChunks(latestChunkFile);
      if records.None? {
        return Fail(Unreadable(latestChunkFile));
      }
      chunks := Some(records.value);
      if matrix.value == [] {
        return Fail(NoDimensions);
      }
      return Pass;
    }

    /** `search`; `embedQuery` is `get_query_embedding` (`None` when the
        call fails). `__init__` raises unless both files load, so a system
        always has its chunks and embeddings. An index of the ranking past
        the loaded chunks makes `self.chunks[idx]` raise. */
    method Search(query: string, embedQuery: string -> Option<Vector>, sim: (Vector, Vector) -> Score, topK: int)
      returns (r: Result<seq<QueryHit>, SearchError>)
      requires chunks.Some? && embeddings.Some?
      ensures r == SearchOutcome(chunks.value, embeddings.value, embedQuery(query), sim, topK)
    {
      var queryEmbedding := embedQuery(query);
      if queryEmbedding.None? {
        return Ok([]);
      }
      var scores := Similarities(queryEmbedding.value, embeddings.value, sim);
      var order := StableRanking(scores);
      var topIndices := PySliceTo(order, topK);
      assert forall b :: 0 <= b < |topIndices| ==> topIndices[b] == order[b];
      var results := [];
      var i := 0;
      while i < |topIndices|
        invariant 0 <= i <= |topIndices|
        invariant FirstOutside(topIndices, |chunks.value|, i) == FirstOutside(topIndices, |chunks.value|, 0)
        invariant |results| == i
        invariant forall k :: 0 <= k < i ==>
          topIndices[k] < |chunks.value| && results[k] == MakeHit(k, chunks.value[topIndices[k]], scores[topIndices[k]])
      {
        var idx := topIndices[i];
        if idx >= |chunks.value| {
          return Err(MissingChunk(idx));
        }
        var chunk := chunks.value[idx];
        var similarity := scores[idx];
        results := results + [QueryHit(i + 1, similarity, Get(chunk, "law_name", "Unknown"),
                                       Get(chunk, "law_type", "Unknown"), Get(chunk, "text", ""), chunk)];
        i := i + 1;
      }
      assert results == TopHits(chunks.value, scores, topIndices);
      return Ok(results);
    }

    /** `display_results`: the "no results" branch for an empty list, else
        each result with the preview of its chunk text. */
    method DisplayResults(results: seq<QueryHit>) returns (shown: Display)
      ensures results == [] <==> shown.NoResults?
      ensures shown.Entries? ==> |shown.entries| == |results|
      ensures shown.Entries? ==> forall i :: 0 <= i < |results| ==>
        shown.entries[i] == Shown(results[i].rank, results[i].lawName, results[i].lawType,
                                  results[i].similarity, Ellipsize(results[i].chunkText, PreviewWidth))
    {
      if results == [] {
        return NoResults;
      }
      var entries := [];
      for i := 0 to |results|
        invariant |entries| == i
        invariant forall k :: 0 <= k < i ==>
          entries[k] == Shown(results[k].rank, results[k].lawName, results[k].lawType,
                              results[k].similarity, Ellipsize(results[k].chunkText, PreviewWidth))
      {
        var result := results[i];
        var textPreview := Take(result.chunkText, PreviewWidth);
        if |result.chunkText| > PreviewWidth {
          textPreview := textPreview + "...";
        }
        entries := entries + [Shown(result.rank, result.lawName, result.lawType, result.similarity, textPreview)];
      }
      return Entries(entries);
    }
  }

  const PreviewWidth: nat := 200

  // ---------------------------------------------------------------------
  // Properties of `search`

  /** `search` returns nothing without a query embedding and never raises
      when every embedding row has a chunk; when it answers, it returns
      `min(top_k, rows)` results for a non-negative `top_k` (for a negative
      one, all but the last `-top_k` rows). */
  lemma SearchCount(chunks: seq<Record>, embeddings: seq<Vector>, queryEmbedding: Option<Vector>,
                    sim: (Vector, Vector) -> Score, topK: int)
    ensures var r := SearchOutcome(chunks, embeddings, queryEmbedding, sim, topK);
      && (queryEmbedding.None? ==> r == Ok([]))
      && (|embeddings| <= |chunks| ==> r.Ok?)
      && (queryEmbedding.Some? && r.Ok? && topK >= 0 ==> |r.value| == Min(topK, |embeddings|))
      && (queryEmbedding.Some? && r.Ok? && topK < 0 ==> |r.value| == Max(|embeddings| + topK, 0))
  {
    if queryEmbedding.Some? {
      var scores := Similarities(queryEmbedding.value, embeddings, sim);
      var order := StableRanking(scores);
      var top := PySliceTo(order, topK);
      assert |order| == |embeddings|;
      assert forall i :: 0 <= i < |top| ==> top[i] == order[i];
      if |embeddings| <= |chunks| {
        assert FirstOutside(top, |chunks|, 0).None?;
      }
    }
  }

  /** With a query embedding, `search` raises exactly when one of the first
      `top_k` indices of the ranking has no chunk; the index it fails on is
      an embedding row past the loaded chunks. */
  lemma SearchRaises(chunks: seq<Record>, embeddings: seq<Vector>, query: Vector,
                     sim: (Vector, Vector) -> Score, topK: int)
    ensures var r := SearchOutcome(chunks, embeddings, Some(query), sim, topK);
      var top := PySliceTo(StableRanking(Similarities(query, embeddings, sim)), topK);
      && (r.Err? <==> exists k :: 0 <= k < |top| && top[k] >= |chunks|)
      && (r.Err? ==> r.error.index in top && |chunks| <= r.error.index < |embeddings|)
  {
    var scores := Similarities(query, embeddings, sim);
    var order := StableRanking(scores);
    var top := PySliceTo(order, topK);
    assert forall i :: 0 <= i < |top| ==> top[i] == order[i];
  }

  /** Results are ranked 1, 2, ... and their similarities never increase
      along the list, for any descending argsort. */
  lemma QueryRanked(chunks: seq<Record>, scores: seq<Score>, order: seq<nat>, topK: int, i: nat, j: nat)
    requires IsRanking(scores, order) && TopInRange(order, topK, |chunks|)
    requires i < j < |QuerySpec(chunks, scores, order, topK)|
    ensures var r := QuerySpec(chunks, scores, order, topK);
      r[i].rank == i + 1 && r[j].rank == j + 1 && r[i].similarity >= r[j].similarity
  {
    var top := PySliceTo(order, topK);
    assert top[i] == order[i] && top[j] == order[j];
  }

  /** Each result carries its chunk untouched: the chunk at that position
      of the argsort, its full text and its own score. */
  lemma QueryFields(chunks: seq<Record>, scores: seq<Score>, order: seq<nat>, topK: int, i: nat)
    requires Indexes(scores, order) && TopInRange(order, topK, |chunks|)
    requires i < |QuerySpec(chunks, scores, order, topK)|
    ensures var r := QuerySpec(chunks, scores, order, topK)[i];
      && i < |order|
      && r.fullMetadata == chunks[order[i]]
      && r.chunkText == Get(chunks[order[i]], "text", "")
      && r.lawName == Get(chunks[order[i]], "law_name", "Unknown")
      && r.similarity == scores[order[i]]
  {
    var top := PySliceTo(order, topK);
    assert top[i] == order[i];
  }

  /** Two results never come from the same chunk, though they may come from
      the same law. */
  lemma QueryDistinctChunks(chunks: seq<Record>, scores: seq<Score>, order: seq<nat>, topK: int, i: nat, j: nat)
    requires IsRanking(scores, order) && TopInRange(order, topK, |chunks|)
    requires i < j < |QuerySpec(chunks, scores, order, topK)|
    ensures i < j < |order| && order[i] != order[j]
  {
    var top := PySliceTo(order, topK);
    assert top[i] == order[i] && top[j] == order[j];
  }

  /** Unlike `search_laws`, `search` can return one law twice: two chunks
      of the same law give two results here and one there. */
  lemma QueryMayRepeatLaw(c: Record)
    ensures TopInRange([0, 1], 2, 2)
    ensures var scores: seq<Score> := [1.0, 0.5];
      var r := QuerySpec([c, c], scores, [0, 1], 2);
      && IsRanking(scores, [0, 1])
      && |r| == 2 && r[0].lawName == r[1].lawName
      && |SearchLawsSpec([c, c], scores, [0, 1], 2)| == 1
  {
    var scores: seq<Score> := [1.0, 0.5];
    var ex: seq<nat> := [0, 1];
    assert PySliceTo(ex, 2) == ex;
    assert IsRanking(scores, ex);
    SameLawKeptOnce(c, scores);
  }

  /** The grouping step behind `QueryMayRepeatLaw`. */
  lemma SameLawKeptOnce(c: Record, scores: seq<Score>)
    requires |scores| == 2
    ensures |SearchLawsSpec([c, c], scores, [0, 1], 2)| == 1
  {
    var chunks := [c, c];
    var ex: seq<nat> := [0, 1];
    var names := LawNames(chunks);
    assert PySliceTo(ex, 2) == ex;
    assert PrefixInRange(ex, 2, 2);
    FirstPositionsStep(names, ex, 1);
    FirstPositionsStep(names, ex, 2);
    assert FirstPositions(names, ex, 1) == [0];
    KeysAtMember(names, ex, [0], 0);
    assert names[ex[1]] == names[ex[0]];
  }

  /** Each `search_laws` result for the same argsort and `top_k` is one of
      the `search` results, at the same or a later rank: grouping by law
      only drops results, and never more than `search` returns. */
  lemma DedupKeepsSubset(chunks: seq<Record>, scores: seq<Score>, order: seq<nat>, topK: int, i: nat) returns (j: nat)
    requires Indexes(scores, order) && TopInRange(order, topK, |chunks|) && topK >= 0
    requires i < |SearchLawsSpec(chunks, scores, order, topK)|
    ensures var q, d := QuerySpec(chunks, scores, order, topK), SearchLawsSpec(chunks, scores, order, topK);
      && |d| <= |q|
      && j < |q|
      && q[j].fullMetadata == d[i].chunk
      && q[j].similarity == d[i].similarity
      && d[i].rank <= q[j].rank
  {
    var ex := PySliceTo(order, topK);
    assert forall b :: 0 <= b < |ex| ==> ex[b] == order[b];
    var names := LawNames(chunks);
    assert PrefixInRange(ex, |ex|, |chunks|);
    var pos := FirstPositions(names, ex, |ex|);
    FirstPositionsIncreasing(names, ex, |ex|);
    IncreasingAtLeastIndex(pos, i);
    j := pos[i];
  }

  /** In a strictly increasing list of naturals, the entry at `i` is at
      least `i`. */
  lemma {:induction false} IncreasingAtLeastIndex(pos: seq<nat>, i: nat)
    requires forall a, b :: 0 <= a < b < |pos| ==> pos[a] < pos[b]
    requires i < |pos|
    ensures i <= pos[i]
    decreases i
  {
    if i > 0 {
      IncreasingAtLeastIndex(pos, i - 1);
    }
  }

  /** The preview is the whole text up to 200 characters, and otherwise its
      first 200 characters followed by `...`. */
  lemma PreviewRule(text: string)
    ensures |text| <= 200 ==> Ellipsize(text, PreviewWidth) == text
    ensures |text| > 200 ==> Ellipsize(text, PreviewWidth) == text[..200] + "..."
  {
  }
}
