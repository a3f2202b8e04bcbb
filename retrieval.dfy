/** `RAGSystem` of `rag_system/rag_integration.py`: semantic search over the
    stored chunks that returns at most one result per law, and the loading of
    the newest local snapshot. The query-embedding call, the similarity and
    the file system are parameters. */
module Retrieval {
  import opened Base
  import opened Text
  import opened Snapshots
  import opened Ranking
  import opened Dedup

  /** A stored chunk as read back from JSON: field name to value. */
  type Record = map<string, string>

  /** `d.get(key, default)`. */
  function Get(r: Record, key: string, default: string): string
  {
    if key in r then r[key] else default
  }

  /** The law a chunk belongs to; a chunk without a name counts as `Unknown`. */
  function LawName(r: Record): string
  {
    Get(r, "law_name", "Unknown")
  }

  /** The law of every chunk, chunk by chunk: the keys `search_laws`
      deduplicates on. */
  function LawNames(chunks: seq<Record>): (names: seq<string>)
    ensures |names| == |chunks|
    ensures forall c :: 0 <= c < |chunks| ==> names[c] == LawName(chunks[c])
  {
    seq(|chunks|, c requires 0 <= c < |chunks| => LawName(chunks[c]))
  }

  /** One result of `search_laws`: its rank, its similarity and the chunk
      that stands for its law. The reported fields are read off the chunk
      with the defaults `search_laws` uses. */
  datatype LawHit = LawHit(rank: nat, similarity: Score, chunk: Record)
  {
    function lawName(): string { LawName(chunk) }
    function lawType(): string { Get(chunk, "law_type", "Unknown") }
    function lawNumber(): string { Get(chunk, "law_number", "") }
    function acceptanceDate(): string { Get(chunk, "acceptance_date", "") }
    function gazetteDate(): string { Get(chunk, "gazette_date", "") }
    function detailUrl(): string { Get(chunk, "detail_url", "") }
    function relevantText(): string { Preview(Get(chunk, "text", "")) }
  }

  /** `text[:300] + "..."`. */
  function Preview(text: string): string
  {
    Take(text, 300) + "..."
  }

  /** The preview is a prefix of the text, of at most 300 characters and all
      of them when the text is shorter, followed by the ellipsis whatever the
      length: at most 303 characters. */
  lemma PreviewShape(text: string)
    ensures var p := Preview(text);
      && 3 <= |p| <= 303
      && p[|p| - 3..] == "..."
      && |p| - 3 <= |text| && p[..|p| - 3] == text[..|p| - 3]
      && (|text| >= 300 <==> |p| == 303)
  {
  }

  /** The results for the chunks at positions `pos` of `idxs`, ranked 1, 2,
      ... in order. */
  function Numbered(chunks: seq<Record>, scores: seq<Score>, idxs: seq<nat>, pos: seq<nat>): (hits: seq<LawHit>)
    requires Positions(|chunks|, idxs, pos) && Indexes(scores, idxs)
    ensures |hits| == |pos|
    ensures forall i {:trigger hits[i]} :: 0 <= i < |pos| ==>
      && hits[i].rank == i + 1
      && hits[i].similarity == scores[idxs[pos[i]]]
      && hits[i].chunk == chunks[idxs[pos[i]]]
  {
    seq(|pos|, i requires 0 <= i < |pos| => LawHit(i + 1, scores[idxs[pos[i]]], chunks[idxs[pos[i]]]))
  }

  lemma NumberedSnoc(chunks: seq<Record>, scores: seq<Score>, idxs: seq<nat>, pos: seq<nat>, k: nat)
    requires Positions(|chunks|, idxs, pos) && k < |idxs| && idxs[k] < |chunks| && Indexes(scores, idxs)
    ensures Positions(|chunks|, idxs, pos + [k])
    ensures Numbered(chunks, scores, idxs, pos + [k]) ==
      Numbered(chunks, scores, idxs, pos) + [LawHit(|pos| + 1, scores[idxs[k]], chunks[idxs[k]])]
  {
    var q := pos + [k];
    assert forall i :: 0 <= i < |pos| ==> q[i] == pos[i];
  }

  /** How many entries of the examined slice the loop looks at: all of
      them, except that with a negative `top_k` the `break` fires on the
      first result, which is the first entry. */
  function Looked(exLen: nat, topK: int): (m: nat)
    ensures m <= exLen
    ensures topK >= 0 ==> m == exLen
    ensures topK < 0 ==> m <= 1
  {
    if topK < 0 then Min(exLen, 1) else exLen
  }

  /** What the ranking loop of `search_laws` returns for the examined chunk
      indices `ex`: a law's first examined chunk stands for it, and a chunk
      index past the loaded chunks raises, which yields `[]`. With a
      negative `top_k` the loop stops after its first result. */
  function ExaminedSpec(chunks: seq<Record>, scores: seq<Score>, ex: seq<nat>, topK: int): seq<LawHit>
    requires Indexes(scores, ex)
  {
    var m := Looked(|ex|, topK);
    if !PrefixInRange(ex, m, |chunks|) then []
    else Numbered(chunks, scores, ex, FirstPositions(LawNames(chunks), ex, m))
  }

  /** What `search_laws` returns for given similarities and a descending
      argsort `order` of them: the ranking loop over the first `top_k`
      entries of the argsort (for a negative `top_k`, all but the last
      `-top_k`). */
  function SearchLawsSpec(chunks: seq<Record>, scores: seq<Score>, order: seq<nat>, topK: int): seq<LawHit>
    requires Indexes(scores, order)
  {
    var ex := PySliceTo(order, topK);
    assert Indexes(scores, ex) by { assert forall b :: 0 <= b < |ex| ==> ex[b] == order[b]; }
    ExaminedSpec(chunks, scores, ex, topK)
  }

  /** The state of the ranking loop after the first `p` examined entries:
      `seen` holds the laws of the kept chunks and `results` numbers them,
      as the reference deduplication keeps them. */
  predicate LoopState(chunks: seq<Record>, scores: seq<Score>, ex: seq<nat>, p: nat,
                      seen: set<string>, results: seq<LawHit>)
    requires p <= |ex| && Indexes(scores, ex)
  {
    && PrefixInRange(ex, p, |chunks|)
    && seen == KeysAt(LawNames(chunks), ex, FirstPositions(LawNames(chunks), ex, p))
    && results == Numbered(chunks, scores, ex, FirstPositions(LawNames(chunks), ex, p))
  }

  /** The ranking loop of `search_laws` over the examined indices `ex`, the
      argsort cut at `top_k`: walk them, skip a law already seen, stop once
      `top_k` results are collected. */
  method RankLaws(chunks: seq<Record>, scores: seq<Score>, ex: seq<nat>, topK: int) returns (results: seq<LawHit>)
    requires Indexes(scores, ex)
    requires topK >= 0 ==> |ex| <= topK
    ensures results == ExaminedSpec(chunks, scores, ex, topK)
  {
    results := [];
    var seen: set<string> := {};
    var p := 0;
    LoopStart(chunks, scores, ex);
    while p < |ex|
      invariant 0 <= p <= |ex|
      invariant LoopState(chunks, scores, ex, p, seen, results)
      invariant p == 0 ==> seen == {}
      invariant topK < 0 ==> p == 0
    {
      var idx := ex[p];
      if idx >= |chunks| {
        SpecOnMissingChunk(chunks, scores, ex, topK, p);
        return [];
      }
      RankStep(chunks, scores, ex, p, seen, results);
      var name := LawName(chunks[idx]);
      if name in seen {
        p := p + 1;
        continue;
      }
      seen := seen + {name};
      results := results + [LawHit(|results| + 1, scores[idx], chunks[idx])];
      p := p + 1;
      if |results| >= topK {
        break;
      }
    }
    SpecAfter(chunks, scores, ex, topK, p, seen, results);
  }

  /** Before the first turn nothing is kept. */
  lemma LoopStart(chunks: seq<Record>, scores: seq<Score>, ex: seq<nat>)
    requires Indexes(scores, ex)
    ensures LoopState(chunks, scores, ex, 0, {}, [])
  {
    assert KeysAt(LawNames(chunks), ex, []) == {};
  }

  /** An examined index past the loaded chunks makes the result `[]`. */
  lemma SpecOnMissingChunk(chunks: seq<Record>, scores: seq<Score>, ex: seq<nat>, topK: int, p: nat)
    requires Indexes(scores, ex) && (topK < 0 ==> p == 0)
    requires p < |ex| && ex[p] >= |chunks|
    ensures ExaminedSpec(chunks, scores, ex, topK) == []
  {
    assert p < Looked(|ex|, topK);
  }

  /** Once the loop has examined the entries the specification looks at,
      its results are the specification's. */
  lemma SpecAfter(chunks: seq<Record>, scores: seq<Score>, ex: seq<nat>, topK: int, p: nat,
                  seen: set<string>, results: seq<LawHit>)
    requires Indexes(scores, ex) && (topK >= 0 ==> |ex| <= topK)
    requires p <= |ex| && LoopState(chunks, scores, ex, p, seen, results)
    requires topK < 0 ==> p <= 1
    requires p == |ex| || (0 < p && topK <= |results|)
    ensures ExaminedSpec(chunks, scores, ex, topK) == results
  {
    assert p == Looked(|ex|, topK);
  }

  /** One turn of the ranking loop keeps its state: a chunk of a new law is
      kept and numbered next and its law becomes seen; a chunk of a seen
      law changes nothing. */
  lemma RankStep(chunks: seq<Record>, scores: seq<Score>, ex: seq<nat>, p: nat,
                 seen: set<string>, results: seq<LawHit>)
    requires p < |ex| && Indexes(scores, ex) && ex[p] < |chunks|
    requires LoopState(chunks, scores, ex, p, seen, results)
    ensures var name := LawName(chunks[ex[p]]);
      && (name in seen ==> LoopState(chunks, scores, ex, p + 1, seen, results))
      && (name !in seen ==>
            LoopState(chunks, scores, ex, p + 1, seen + {name},
                      results + [LawHit(|results| + 1, scores[ex[p]], chunks[ex[p]])]))
  {
    var names := LawNames(chunks);
    var before := FirstPositions(names, ex, p);
    PrefixGrow(ex, p, |chunks|);
    FirstPositionsStep(names, ex, p + 1);
    assert names[ex[p]] == LawName(chunks[ex[p]]);
    if LawName(chunks[ex[p]]) !in KeysAt(names, ex, before) {
      KeysAtSnoc(names, ex, before, p);
      NumberedSnoc(chunks, scores, ex, before, p);
    }
  }

  // ---------------------------------------------------------------------
  // Properties of `search_laws`

  /** No two results share a law name. */
  lemma SearchLawsDistinct(chunks: seq<Record>, scores: seq<Score>, order: seq<nat>, topK: int, i: nat, j: nat)
    requires Indexes(scores, order)
    requires i < j < |SearchLawsSpec(chunks, scores, order, topK)|
    ensures SearchLawsSpec(chunks, scores, order, topK)[i].lawName() != SearchLawsSpec(chunks, scores, order, topK)[j].lawName()
  {
    var ex := PySliceTo(order, topK);
    var m := Looked(|ex|, topK);
    var names := LawNames(chunks);
    assert PrefixInRange(ex, m, |chunks|);
    FirstPositionsDistinct(names, ex, m);
    var pos := FirstPositions(names, ex, m);
    assert names[ex[pos[i]]] != names[ex[pos[j]]];
  }

  /** Results are ranked 1, 2, ... and at most `top_k` are returned (at most
      one for a negative `top_k`). */
  lemma SearchLawsShape(chunks: seq<Record>, scores: seq<Score>, order: seq<nat>, topK: int)
    requires Indexes(scores, order)
    ensures var r := SearchLawsSpec(chunks, scores, order, topK);
      && (forall i :: 0 <= i < |r| ==> r[i].rank == i + 1)
      && (topK >= 0 ==> |r| <= topK)
      && (topK < 0 ==> |r| <= 1)
  {
  }

  /** Results come in non-increasing similarity for any descending argsort. */
  lemma SearchLawsOrdered(chunks: seq<Record>, scores: seq<Score>, order: seq<nat>, topK: int, i: nat, j: nat)
    requires IsRanking(scores, order)
    requires i < j < |SearchLawsSpec(chunks, scores, order, topK)|
    ensures SearchLawsSpec(chunks, scores, order, topK)[i].similarity >= SearchLawsSpec(chunks, scores, order, topK)[j].similarity
  {
    var ex := PySliceTo(order, topK);
    var m := Looked(|ex|, topK);
    var names := LawNames(chunks);
    assert PrefixInRange(ex, m, |chunks|);
    FirstPositionsIncreasing(names, ex, m);
    var pos := FirstPositions(names, ex, m);
    assert pos[i] < pos[j] < |ex|;
    assert ex[pos[i]] == order[pos[i]] && ex[pos[j]] == order[pos[j]];
  }

  /** Fewer than `top_k` results only because the examined chunks repeat a
      law: every examined chunk's law is among the results, with a
      similarity at least that chunk's. */
  lemma SearchLawsCovers(chunks: seq<Record>, scores: seq<Score>, order: seq<nat>, topK: int, a: nat)
    requires IsRanking(scores, order) && topK >= 0
    requires a < |PySliceTo(order, topK)|
    requires PrefixInRange(PySliceTo(order, topK), |PySliceTo(order, topK)|, |chunks|)
    ensures var r := SearchLawsSpec(chunks, scores, order, topK); var c := PySliceTo(order, topK)[a];
      exists i :: 0 <= i < |r| && r[i].lawName() == LawName(chunks[c]) && r[i].similarity >= scores[c]
  {
    var ex := PySliceTo(order, topK);
    var names := LawNames(chunks);
    var pos := FirstPositions(names, ex, |ex|);
    var i := FirstPositionsCover(names, ex, |ex|, a);
    assert ex[a] == order[a] && ex[pos[i]] == order[pos[i]];
    var r := SearchLawsSpec(chunks, scores, order, topK);
    assert r[i].lawName() == LawName(chunks[ex[a]]) && r[i].similarity >= scores[ex[a]];
  }

  // ---------------------------------------------------------------------
  // The system object

  /** `cosine_similarity(query, embeddings)[0]` with the similarity abstract. */
  function Similarities(query: Vector, embeddings: seq<Vector>, sim: (Vector, Vector) -> Score): (s: seq<Score>)
    ensures |s| == |embeddings|
    ensures forall i :: 0 <= i < |embeddings| ==> s[i] == sim(query, embeddings[i])
  {
    seq(|embeddings|, i requires 0 <= i < |embeddings| => sim(query, embeddings[i]))
  }

  /** What `search_laws` returns: `[]` without a loaded store or without a
      query embedding, else the deduplicated ranking under the argsort that
      breaks ties by ascending index. */
  function SearchLawsOutcome(chunks: seq<Record>, embeddings: Option<seq<Vector>>, queryEmbedding: Option<Vector>,
                             sim: (Vector, Vector) -> Score, topK: int): seq<LawHit>
  {
    if embeddings.None? || chunks == [] || queryEmbedding.None? then []
    else
      var scores := Similarities(queryEmbedding.value, embeddings.value, sim);
      SearchLawsSpec(chunks, scores, StableRanking(scores), topK)
  }

  /** The file-system calls `_try_load_from_local` makes. */
  datatype Files = Files(
    glob: string -> seq<string>,
    loadMatrix: string -> Option<seq<Vector>>,
    loadChunks: string -> Option<seq<Record>>)

  /** The embeddings-file pattern in a directory. */
  function EmbeddingsGlob(dir: string): string
  {
    dir + "/legal_embeddings_*.npy"
  }

  function SearchPaths(embeddingsDir: string): seq<string>
  {
    [EmbeddingsGlob(embeddingsDir),
     EmbeddingsGlob("../rag_system/embeddings_output"),
     EmbeddingsGlob("rag_system/embeddings_output")]
  }

  /** The chunks pattern next to an embeddings pattern. */
  function ChunkPattern(path: string): string
  {
    ReplaceAll(ReplaceAll(path, "legal_embeddings_", "legal_chunks_"), ".npy", ".json")
  }

  /** The matches of every pattern, pattern after pattern. */
  function GlobAll(glob: string -> seq<string>, patterns: seq<string>): seq<string>
  {
    if patterns == [] then [] else GlobAll(glob, patterns[..|patterns| - 1]) + glob(patterns[|patterns| - 1])
  }

  /** The matches of the chunks pattern of every embeddings pattern. */
  function GlobChunks(glob: string -> seq<string>, patterns: seq<string>): seq<string>
  {
    if patterns == [] then []
    else GlobChunks(glob, patterns[..|patterns| - 1]) + glob(ChunkPattern(patterns[|patterns| - 1]))
  }

  /** How far `_try_load_from_local` gets. */
  datatype LocalLoad =
    | NoFiles
    | MatrixUnreadable(embeddingFile: string, chunkFile: string)
    | ChunksUnreadable(embeddingFile: string, chunkFile: string, matrix: seq<Vector>)
    | Loaded(embeddingFile: string, chunkFile: string, matrix: seq<Vector>, records: seq<Record>)

  /** The files `_try_load_from_local` picks and what reading them gives:
      nothing when either glob is empty, otherwise the greatest path of each
      list, chosen independently. */
  function LocalLoadOutcome(embeddingsDir: string, fs: Files): (r: LocalLoad)
    ensures var es := GlobAll(fs.glob, SearchPaths(embeddingsDir));
      var cs := GlobChunks(fs.glob, SearchPaths(embeddingsDir));
      && (r.NoFiles? <==> es == [] || cs == [])
      && (!r.NoFiles? ==> r.embeddingFile in es && forall p :: p in es ==> LexLeq(p, r.embeddingFile))
      && (!r.NoFiles? ==> r.chunkFile in cs && forall p :: p in cs ==> LexLeq(p, r.chunkFile))
  {
    var es := GlobAll(fs.glob, SearchPaths(embeddingsDir));
    var cs := GlobChunks(fs.glob, SearchPaths(embeddingsDir));
    if es == [] || cs == [] then NoFiles
    else
      var e, c := Latest(es), Latest(cs);
      match fs.loadMatrix(e)
      case None => MatrixUnreadable(e, c)
      case Some(m) =>
        match fs.loadChunks(c)
        case None => ChunksUnreadable(e, c, m)
        case Some(records) => Loaded(e, c, m, records)
  }

  /** The search loop of `_try_load_from_local`: every embeddings pattern
      and its chunks pattern are globbed, and the matches collected in
      pattern order. */
  method GlobSnapshots(paths: seq<string>, glob: string -> seq<string>) returns (embeddingFiles: seq<string>, chunkFiles: seq<string>)
    ensures embeddingFiles == GlobAll(glob, paths)
    ensures chunkFiles == GlobChunks(glob, paths)
  {
    embeddingFiles := [];
    chunkFiles := [];
    for i := 0 to |paths|
      invariant embeddingFiles == GlobAll(glob, paths[..i])
      invariant chunkFiles == GlobChunks(glob, paths[..i])
    {
      assert paths[..i + 1][..i] == paths[..i];
      embeddingFiles := embeddingFiles + glob(paths[i]);
      chunkFiles := chunkFiles + glob(ChunkPattern(paths[i]));
    }
    assert paths[..|paths|] == paths;
  }

  class RAGSystem {
    var chunks: seq<Record>
    var embeddings: Option<seq<Vector>>

    /** `__init__`: starts empty and loads the store. */
    constructor (embeddingsDir: string, fs: Files)
      ensures LocalLoadOutcome(embeddingsDir, fs).Loaded? ==>
        chunks == LocalLoadOutcome(embeddingsDir, fs).records &&
        embeddings == Some(LocalLoadOutcome(embeddingsDir, fs).matrix)
      ensures !LocalLoadOutcome(embeddingsDir, fs).Loaded? ==> chunks == [] && embeddings == None
    {
      chunks := [];
      embeddings := None;
      new;
      LoadEmbeddings(embeddingsDir, fs);
    }

    /** `_try_load_from_local`. The matrix is assigned before the chunks are
        read, so a chunks file that fails to load leaves the new matrix
        beside the old chunks. */
    method TryLoadFromLocal(embeddingsDir: string, fs: Files) returns (loaded: bool)
      modifies this
      ensures var r := LocalLoadOutcome(embeddingsDir, fs);
        && (loaded <==> r.Loaded?)
        && (r.NoFiles? || r.MatrixUnreadable? ==> embeddings == old(embeddings) && chunks == old(chunks))
        && (r.ChunksUnreadable? ==> embeddings == Some(r.matrix) && chunks == old(chunks))
        && (r.Loaded? ==> embeddings == Some(r.matrix) && chunks == r.records)
    {
      var embeddingFiles, chunkFiles := GlobSnapshots(SearchPaths(embeddingsDir), fs.glob);
      if embeddingFiles == [] || chunkFiles == [] {
        return false;
      }
      var latestEmbeddingFile := Latest(embeddingFiles);
      var latestChunkFile := Latest(chunkFiles);
      var matrix := fs.loadMatrix(latestEmbeddingFile);
      if matrix.None? {
        return false;
      }
      embeddings := Some(matrix.value);
      var records := fs.loadChunks(latestChunkFile);
      if records.None? {
        return false;
      }
      chunks := records.value;
      return true;
    }

    /** `load_embeddings`: the local snapshot, or the empty demo store. */
    method LoadEmbeddings(embeddingsDir: string, fs: Files)
      modifies this
      ensures LocalLoadOutcome(embeddingsDir, fs).Loaded? ==>
        chunks == LocalLoadOutcome(embeddingsDir, fs).records &&
        embeddings == Some(LocalLoadOutcome(embeddingsDir, fs).matrix)
      ensures !LocalLoadOutcome(embeddingsDir, fs).Loaded? ==> chunks == [] && embeddings == None
    {
      var ok := TryLoadFromLocal(embeddingsDir, fs);
      if !ok {
        chunks := [];
        embeddings := None;
      }
    }

    /** `search_laws`; `embedQuery` is `get_query_embedding` (`None` when
        the call fails). */
    method SearchLaws(query: string, embedQuery: string -> Option<Vector>, sim: (Vector, Vector) -> Score, topK: int)
      returns (results: seq<LawHit>)
      ensures results == SearchLawsOutcome(chunks, embeddings, embedQuery(query), sim, topK)
      ensures embeddings.None? || chunks == [] || embedQuery(query).None? ==> results == []
      ensures topK >= 0 ==> |results| <= topK
      ensures forall i, j :: 0 <= i < j < |results| ==>
        results[i].lawName() != results[j].lawName() && results[i].similarity >= results[j].similarity
    {
      if embeddings.None? || chunks == [] {
        return [];
      }
      var queryEmbedding := embedQuery(query);
      if queryEmbedding.None? {
        return [];
      }
      var scores := Similarities(queryEmbedding.value, embeddings.value, sim);
      var order := StableRanking(scores);
      var ex := PySliceTo(order, topK);
      assert Indexes(scores, ex) by { assert forall b :: 0 <= b < |ex| ==> ex[b] == order[b]; }
      results := RankLaws(chunks, scores, ex, topK);
      SearchLawsShape(chunks, scores, order, topK);
      forall i, j | 0 <= i < j < |results|
        ensures results[i].lawName() != results[j].lawName() && results[i].similarity >= results[j].similarity
      {
        SearchLawsDistinct(chunks, scores, order, topK, i, j);
        SearchLawsOrdered(chunks, scores, order, topK, i, j);
      }
    }

    /** `get_law_names`: the law names of the `search_laws` results, in order. */
    method GetLawNames(query: string, embedQuery: string -> Option<Vector>, sim: (Vector, Vector) -> Score, topK: int)
      returns (names: seq<string>)
      ensures var r := SearchLawsOutcome(chunks, embeddings, embedQuery(query), sim, topK);
        |names| == |r| && forall i :: 0 <= i < |r| ==> names[i] == r[i].lawName()
      ensures forall i, j :: 0 <= i < j < |names| ==> names[i] != names[j]
    {
      var results := SearchLaws(query, embedQuery, sim, topK);
      names := seq(|results|, i requires 0 <= i < |results| => results[i].lawName());
    }
  }
}
