/** `LegalRAGDatabase` of `rag_system/build_vector_database.py`: the
    `chunks`, `laws_metadata` and `search_logs` tables, the embedding model
    choice, loading rows, filling in missing embeddings batch by batch, and
    filtered top-k search. The embedding call (`get_embeddings`), the
    similarity, JSON decoding and the clock are parameters. */
module VectorDatabase {
  import opened Base
  import opened Ranking
  import opened Tables

  /** The columns of a `chunks` row besides `id`, `chunk_id` and
      `embedding`. */
  datatype ChunkFields = ChunkFields(
    lawName: string,
    lawType: string,
    chunkType: string,
    chunkIndex: int,
    text: string,
    charCount: int,
    wordCount: int)

  /** A stored chunk: its columns and its embedding, `None` for `NULL`. */
  datatype ChunkData = ChunkData(fields: ChunkFields, embedding: Option<Vector>)

  type ChunkRow = Row<ChunkData>

  /** The columns of a `laws_metadata` row besides `id` and `law_id`;
      `sections` is the stored JSON text. */
  datatype LawFields = LawFields(
    lawName: string,
    lawType: string,
    fullText: string,
    sections: string,
    articleCount: int,
    characterCount: int,
    wordCount: int,
    processingDate: string)

  type LawRow = Row<LawFields>

  datatype SearchLog = SearchLog(
    query: string,
    topK: int,
    searchMethod: Option<string>,
    lawTypeFilter: Option<string>,
    resultsCount: nat,
    searchTime: real)

  datatype EmbeddingModel = SentenceTransformer(name: string) | OpenAI(name: string) | TfIdf

  /** Which optional libraries imported. */
  datatype Libraries = Libraries(sentenceTransformers: bool, openai: bool, sklearn: bool)

  datatype DbError =
    | Unavailable(modelType: string)   // `load_embedding_model`'s ValueError
    | NoModel                          // no model loaded
    | ZeroBatchSize                    // `range(0, n, 0)` raises
    | NoQueryEmbedding                 // the embedding call returned no vector
    | EmbeddingCallFailed              // `get_embeddings` raised

  /** `get_embeddings` on a list of texts: the vectors it returns, or
      `None` when the call raises (the model or the remote service fails). */
  type Encoder = seq<string> -> Option<seq<Vector>>

  const DefaultSentenceModel: string := "paraphrase-multilingual-MiniLM-L12-v2"
  const DefaultOpenAIModel: string := "text-embedding-ada-002"
  const SentencePrefix: string := "sentence_transformer"
  const OpenAIPrefix: string := "openai"
  const TfIdfType: string := "tfidf"

  function OrDefault(name: Option<string>, default: string): string
  {
    if name.Some? then name.value else default
  }

  predicate StartsWith(s: string, prefix: string)
  {
    |prefix| <= |s| && s[..|prefix|] == prefix
  }

  // ---------------------------------------------------------------------
  // Embedding model

  /** The model and `embedding_type` `load_embedding_model` sets, or `None`
      where it raises: an unknown type, or a known one whose library did not
      import. A missing model name takes the type's default. */
  function ModelChoice(modelType: string, modelName: Option<string>, libs: Libraries): (r: Option<(EmbeddingModel, string)>)
    ensures r.None? <==>
      !((modelType == SentencePrefix && libs.sentenceTransformers) ||
        (modelType == OpenAIPrefix && libs.openai) ||
        (modelType == TfIdfType && libs.sklearn))
  {
    if modelType == SentencePrefix && libs.sentenceTransformers then
      var name := OrDefault(modelName, DefaultSentenceModel);
      Some((SentenceTransformer(name), SentencePrefix + "_" + name))
    else if modelType == OpenAIPrefix && libs.openai then
      var name := OrDefault(modelName, DefaultOpenAIModel);
      Some((OpenAI(name), OpenAIPrefix + "_" + name))
    else if modelType == TfIdfType && libs.sklearn then
      Some((TfIdf, TfIdfType))
    else None
  }

  datatype Kind = SentenceKind | OpenAIKind | TfIdfKind

  function KindOf(m: EmbeddingModel): Kind
  {
    match m
    case SentenceTransformer(_) => SentenceKind
    case OpenAI(_) => OpenAIKind
    case TfIdf => TfIdfKind
  }

  /** The branch `get_embeddings` takes for an `embedding_type`; `None` is
      its "Unknown embedding type" error. */
  function Dispatch(embeddingType: string): Option<Kind>
  {
    if StartsWith(embeddingType, SentencePrefix) then Some(SentenceKind)
    else if StartsWith(embeddingType, OpenAIPrefix) then Some(OpenAIKind)
    else if embeddingType == TfIdfType then Some(TfIdfKind)
    else None
  }

  /** Every `embedding_type` that `load_embedding_model` sets sends
      `get_embeddings` to the branch of the model it loaded. */
  lemma DispatchMatchesModel(modelType: string, modelName: Option<string>, libs: Libraries)
    requires ModelChoice(modelType, modelName, libs).Some?
    ensures var (model, embeddingType) := ModelChoice(modelType, modelName, libs).value;
      Dispatch(embeddingType) == Some(KindOf(model))
  {
    var (model, t) := ModelChoice(modelType, modelName, libs).value;
    if model.SentenceTransformer? {
      assert t[..|SentencePrefix|] == SentencePrefix;
    } else if model.OpenAI? {
      assert t[0] == 'o' && SentencePrefix[0] == 's';
      assert t[..|OpenAIPrefix|] == OpenAIPrefix;
    } else {
      assert |t| < |OpenAIPrefix| < |SentencePrefix|;
    }
  }

  // ---------------------------------------------------------------------
  // Filling in embeddings

  /** The positions among the first `n` rows whose embedding is `NULL`, in
      table order: the rows `generate_embeddings` selects. */
  function PendingUpTo(rows: seq<ChunkRow>, n: nat): (p: seq<nat>)
    requires n <= |rows|
    ensures forall j :: 0 <= j < |p| ==> p[j] < n
  {
    if n == 0 then []
    else PendingUpTo(rows, n - 1) + if rows[n - 1].data.embedding.None? then [n - 1] else []
  }

  function Pending(rows: seq<ChunkRow>): (p: seq<nat>)
    ensures forall j :: 0 <= j < |p| ==> p[j] < |rows|
  {
    PendingUpTo(rows, |rows|)
  }

  /** The selected rows come in table order and are exactly the rows
      without an embedding. */
  lemma {:induction false} PendingMeaning(rows: seq<ChunkRow>, n: nat)
    requires n <= |rows|
    ensures var p := PendingUpTo(rows, n);
      && (forall a, b :: 0 <= a < b < |p| ==> p[a] < p[b])
      && (forall i :: 0 <= i < n ==> (i in p <==> rows[i].data.embedding.None?))
    decreases n
  {
    if n > 0 {
      PendingMeaning(rows, n - 1);
    }
  }

  /** The texts of the selected rows. */
  function Texts(rows: seq<ChunkRow>, p: seq<nat>): (texts: seq<string>)
    requires forall j :: 0 <= j < |p| ==> p[j] < |rows|
    ensures |texts| == |p|
  {
    seq(|p|, j requires 0 <= j < |p| => rows[p[j]].data.fields.text)
  }

  /** The vector `zip` pairs with each of `m` batch entries: the call's
      vectors in order, none past the end of a short answer. */
  function Fill(vectors: seq<Vector>, m: nat): (r: seq<Option<Vector>>)
    ensures |r| == m
  {
    seq(m, t requires 0 <= t < m => if t < |vectors| then Some(vectors[t]) else None)
  }

  /** The vector each selected text receives when the texts from `s` on are
      sent to `encode` in consecutive batches of `batchSize`. */
  function Batched(texts: seq<string>, batchSize: nat, encode: Encoder, s: nat): (r: seq<Option<Vector>>)
    requires 0 < batchSize && s <= |texts|
    ensures |r| == |texts| - s
    decreases |texts| - s
  {
    if s == |texts| then []
    else
      var e := Min(s + batchSize, |texts|);
      match encode(texts[s..e])
      case None => Fill([], |texts| - s)
      case Some(vectors) => Fill(vectors, e - s) + Batched(texts, batchSize, encode, e)
  }

  /** Where the batch loop started at `s` stops: the start of the first
      batch whose call raises, or the end of the texts. */
  function Reached(texts: seq<string>, batchSize: nat, encode: Encoder, s: nat): (n: nat)
    requires 0 < batchSize && s <= |texts|
    ensures s <= n <= |texts|
    decreases |texts| - s
  {
    if s == |texts| then s
    else
      var e := Min(s + batchSize, |texts|);
      if encode(texts[s..e]).None? then s else Reached(texts, batchSize, encode, e)
  }

  /** Where the batch loop of `generate_embeddings` stops on `rows`. */
  function Stop(rows: seq<ChunkRow>, batchSize: nat, encode: Encoder): nat
    requires 0 < batchSize
  {
    var p := Pending(rows);
    Reached(Texts(rows, p), batchSize, encode, 0)
  }

  function WithEmbedding(row: ChunkRow, v: Vector): ChunkRow
  {
    row.(data := row.data.(embedding := Some(v)))
  }

  /** The table after the first `n` updates: selected row `p[j]` receives
      `vectors[j]` when there is one. */
  function Apply(rows: seq<ChunkRow>, p: seq<nat>, vectors: seq<Option<Vector>>, n: nat): (r: seq<ChunkRow>)
    requires n <= |vectors| && n <= |p|
    ensures |r| == |rows|
  {
    if n == 0 then rows
    else
      var prev := Apply(rows, p, vectors, n - 1);
      if vectors[n - 1].Some? && p[n - 1] < |prev| then
        prev[p[n - 1] := WithEmbedding(prev[p[n - 1]], vectors[n - 1].value)]
      else prev
  }

  /** What `generate_embeddings` leaves in the `chunks` table. */
  function Generated(rows: seq<ChunkRow>, batchSize: nat, encode: Encoder): seq<ChunkRow>
    requires 0 < batchSize
  {
    var p := Pending(rows);
    Apply(rows, p, Batched(Texts(rows, p), batchSize, encode, 0), |p|)
  }

  /** The batch loop run from the start leaves `Generated`. */
  lemma GeneratedByLoop(rows: seq<ChunkRow>, batchSize: nat, encode: Encoder)
    requires 0 < batchSize
    ensures Finish(rows, Pending(rows), Texts(rows, Pending(rows)), batchSize, encode, 0) == Generated(rows, batchSize, encode)
  {
    var p := Pending(rows);
    var texts := Texts(rows, p);
    var all := Batched(texts, batchSize, encode, 0);
    assert all[0..] == all;
    FinishIsApply(rows, p, texts, batchSize, encode, all, 0);
  }

  /** A range `[start, end)` of the selected rows sent in one call. */
  datatype Batch = Batch(start: nat, end: nat)

  /** The ranges `range(s, n, batch_size)` visits, each cut at `n`. */
  function Ranges(n: nat, batchSize: nat, s: nat): seq<Batch>
    requires 0 < batchSize && s <= n
    decreases n - s
  {
    if s == n then []
    else
      var e := Min(s + batchSize, n);
      [Batch(s, e)] + Ranges(n, batchSize, e)
  }

  /** `batches` are consecutive ranges from `from` to `to`, each non-empty,
      each but the last exactly `batchSize` long and the last at most that. */
  predicate Tiles(batches: seq<Batch>, from: nat, to: nat, batchSize: nat)
  {
    && (batches == [] ==> from == to)
    && (batches != [] ==> batches[0].start == from && batches[|batches| - 1].end == to)
    && (forall i :: 0 <= i < |batches| ==> batches[i].start < batches[i].end <= batches[i].start + batchSize)
    && (forall i :: 0 <= i < |batches| - 1 ==>
          batches[i].end == batches[i + 1].start && batches[i].end == batches[i].start + batchSize)
  }

  /** The batches cover every selected row exactly once, in order, in full
      batches but for the last. */
  lemma {:induction false} RangesTile(n: nat, batchSize: nat, s: nat)
    requires 0 < batchSize && s <= n
    ensures Tiles(Ranges(n, batchSize, s), s, n, batchSize)
    decreases n - s
  {
    if s < n {
      var e := Min(s + batchSize, n);
      var rest := Ranges(n, batchSize, e);
      RangesTile(n, batchSize, e);
      var b := [Batch(s, e)] + rest;
      assert b == Ranges(n, batchSize, s);
      forall i | 0 <= i < |b| - 1 ensures b[i].end == b[i + 1].start && b[i].end == b[i].start + batchSize {
        assert b[i + 1] == rest[i];
        if i > 0 {
          assert b[i] == rest[i - 1];
        } else {
          assert rest != [] && e < n;
        }
      }
      forall i | 0 <= i < |b| ensures b[i].start < b[i].end <= b[i].start + batchSize {
        if i > 0 {
          assert b[i] == rest[i - 1];
        }
      }
    }
  }

  /** The number of batches is the least `m` with `m * batch_size` covering
      the selected rows, i.e. `(n - 1) // batch_size + 1` for `n > 0`, the
      total the progress lines print. */
  lemma {:induction false} RangesCount(n: nat, batchSize: nat, s: nat)
    requires 0 < batchSize && s < n
    ensures var m := |Ranges(n, batchSize, s)|;
      (m - 1) * batchSize < n - s <= m * batchSize
    decreases n - s
  {
    var e := Min(s + batchSize, n);
    if e < n {
      RangesCount(n, batchSize, e);
      var m := |Ranges(n, batchSize, e)|;
      assert (m + 1) * batchSize == m * batchSize + batchSize;
      assert m * batchSize == (m - 1) * batchSize + batchSize;
    }
  }

  /** Unfolding one batch of `Batched`. */
  lemma BatchStep(texts: seq<string>, batchSize: nat, encode: Encoder,
                  vectors: seq<Option<Vector>>, s: nat, e: nat)
    requires 0 < batchSize && s < |texts| && s <= |vectors| && e == Min(s + batchSize, |texts|)
    requires vectors[s..] == Batched(texts, batchSize, encode, s) && encode(texts[s..e]).Some?
    ensures e <= |vectors| && vectors[e..] == Batched(texts, batchSize, encode, e)
    ensures forall j :: s <= j < e ==>
      vectors[j] == if j - s < |encode(texts[s..e]).value| then Some(encode(texts[s..e]).value[j - s]) else None
  {
    var f := Fill(encode(texts[s..e]).value, e - s);
    assert vectors[s..] == f + Batched(texts, batchSize, encode, e);
    assert vectors[e..] == vectors[s..][e - s..];
    forall j | s <= j < e
      ensures vectors[j] == if j - s < |encode(texts[s..e]).value| then Some(encode(texts[s..e]).value[j - s]) else None
    {
      assert vectors[j] == vectors[s..][j - s] == f[j - s];
    }
  }

  /** A batch whose call raises leaves it and every later text without a
      vector. */
  lemma BatchFails(texts: seq<string>, batchSize: nat, encode: Encoder,
                   vectors: seq<Option<Vector>>, s: nat, e: nat)
    requires 0 < batchSize && s < |texts| && s <= |vectors| && e == Min(s + batchSize, |texts|)
    requires vectors[s..] == Batched(texts, batchSize, encode, s) && encode(texts[s..e]).None?
    ensures forall j :: s <= j < |vectors| ==> vectors[j].None?
  {
    forall j | s <= j < |vectors| ensures vectors[j].None? {
      assert vectors[j] == vectors[s..][j - s];
    }
  }

  /** The `zip` loop of one batch: the first `m` rows of the batch that
      starts at `s` receive the call's vectors in order. */
  function StoreBatch(table: seq<ChunkRow>, p: seq<nat>, s: nat, vectors: seq<Vector>, m: nat): (r: seq<ChunkRow>)
    requires s + m <= |p| && m <= |vectors|
    ensures |r| == |table|
  {
    if m == 0 then table
    else
      var prev := StoreBatch(table, p, s, vectors, m - 1);
      var i := p[s + m - 1];
      if i < |prev| then prev[i := WithEmbedding(prev[i], vectors[m - 1])] else prev
  }

  /** The `zip(batch_ids, embeddings)` loop: store the call's vectors in
      the rows of the batch `pending[s..e]`, stopping at the shorter list. */
  method StoreEmbeddings(table: seq<ChunkRow>, pending: seq<nat>, s: nat, e: nat, embeddings: seq<Vector>)
    returns (stored: seq<ChunkRow>)
    requires s <= e <= |pending|
    requires forall j :: 0 <= j < |pending| ==> pending[j] < |table|
    ensures stored == StoreBatch(table, pending, s, embeddings, Min(e - s, |embeddings|))
  {
    stored := table;
    var t := 0;
    while t < Min(e - s, |embeddings|)
      invariant t <= Min(e - s, |embeddings|)
      invariant stored == StoreBatch(table, pending, s, embeddings, t)
    {
      var p := pending[s + t];
      stored := stored[p := WithEmbedding(stored[p], embeddings[t])];
      t := t + 1;
    }
  }

  /** The table at the end of the batch loop, from batch start `s` on. */
  function Finish(table: seq<ChunkRow>, p: seq<nat>, texts: seq<string>, batchSize: nat,
                  encode: Encoder, s: nat): seq<ChunkRow>
    requires 0 < batchSize && s <= |p| && |texts| == |p|
    decreases |p| - s
  {
    if s == |p| then table
    else
      var e := Min(s + batchSize, |p|);
      match encode(texts[s..e])
      case None => table
      case Some(vectors) =>
        Finish(StoreBatch(table, p, s, vectors, Min(e - s, |vectors|)), p, texts, batchSize, encode, e)
  }

  /** The batch loop of `generate_embeddings`: from the first selected
      row on, send `batch_size` texts at a time and store what comes back;
      `processed` counts the calls that answered. A call that raises ends
      the loop with `failed`; the batches stored before it stay stored. */
  method EmbedBatches(rows: seq<ChunkRow>, pending: seq<nat>, texts: seq<string>, batchSize: nat,
                      encode: Encoder)
    returns (table: seq<ChunkRow>, processed: nat, failed: bool)
    requires 0 < batchSize && |texts| == |pending|
    requires forall j :: 0 <= j < |pending| ==> pending[j] < |rows|
    ensures table == Finish(rows, pending, texts, batchSize, encode, 0)
    ensures failed <==> Reached(texts, batchSize, encode, 0) < |pending|
    ensures processed == |Ranges(|pending|, batchSize, 0)| - |Ranges(|pending|, batchSize, Reached(texts, batchSize, encode, 0))|
  {
    table := rows;
    var s := 0;
    processed := 0;
    failed := false;
    while s < |pending|
      invariant s <= |pending| && |table| == |rows|
      invariant Finish(table, pending, texts, batchSize, encode, s) == Finish(rows, pending, texts, batchSize, encode, 0)
      invariant Reached(texts, batchSize, encode, s) == Reached(texts, batchSize, encode, 0)
      invariant processed + |Ranges(|pending|, batchSize, s)| == |Ranges(|pending|, batchSize, 0)|
      decreases |pending| - s
    {
      var e := Min(s + batchSize, |pending|);
      var reply := encode(texts[s..e]);
      if reply.None? {
        failed := true;
        return;
      }
      var embeddings := reply.value;
      table := StoreEmbeddings(table, pending, s, e, embeddings);
      processed := processed + 1;
      s := e;
    }
  }

  /** One batch of the loop performs the next updates of `Apply`. */
  lemma {:induction false} StoreBatchIsApply(rows: seq<ChunkRow>, p: seq<nat>, all: seq<Option<Vector>>,
                                             s: nat, vectors: seq<Vector>, m: nat)
    requires s + m <= |all| && s + m <= |p| && m <= |vectors|
    requires forall j :: s <= j < s + m ==> all[j] == Some(vectors[j - s])
    ensures StoreBatch(Apply(rows, p, all, s), p, s, vectors, m) == Apply(rows, p, all, s + m)
    decreases m
  {
    if m > 0 {
      StoreBatchIsApply(rows, p, all, s, vectors, m - 1);
      assert all[s + m - 1] == Some(vectors[m - 1]);
    }
  }

  /** Running the batch loop from `s` completes `Apply`. */
  lemma {:induction false} FinishIsApply(rows: seq<ChunkRow>, p: seq<nat>, texts: seq<string>, batchSize: nat,
                                         encode: Encoder, all: seq<Option<Vector>>, s: nat)
    requires 0 < batchSize && s <= |p| && |texts| == |p| && |all| == |p|
    requires all[s..] == Batched(texts, batchSize, encode, s)
    ensures Finish(Apply(rows, p, all, s), p, texts, batchSize, encode, s) == Apply(rows, p, all, |p|)
    decreases |p| - s
  {
    if s < |p| {
      var e := Min(s + batchSize, |p|);
      if encode(texts[s..e]).None? {
        BatchFails(texts, batchSize, encode, all, s, e);
        ApplySkips(rows, p, all, s, |p|);
        return;
      }
      var vectors := encode(texts[s..e]).value;
      var m := Min(e - s, |vectors|);
      var before := Apply(rows, p, all, s);
      var stored := StoreBatch(before, p, s, vectors, m);
      assert Finish(before, p, texts, batchSize, encode, s) == Finish(stored, p, texts, batchSize, encode, e);
      assert stored == Apply(rows, p, all, s + m) by {
        BatchStep(texts, batchSize, encode, all, s, e);
        StoreBatchIsApply(rows, p, all, s, vectors, m);
      }
      assert Apply(rows, p, all, e) == Apply(rows, p, all, s + m) by {
        BatchStep(texts, batchSize, encode, all, s, e);
        ApplySkips(rows, p, all, s + m, e);
      }
      assert e <= |all| && all[e..] == Batched(texts, batchSize, encode, e) by {
        BatchStep(texts, batchSize, encode, all, s, e);
      }
      FinishIsApply(rows, p, texts, batchSize, encode, all, e);
    }
  }

  /** Entries without a vector change nothing. */
  lemma {:induction false} ApplySkips(rows: seq<ChunkRow>, p: seq<nat>, vectors: seq<Option<Vector>>, a: nat, b: nat)
    requires a <= b <= |vectors| && b <= |p|
    requires forall j :: a <= j < b ==> vectors[j].None?
    ensures Apply(rows, p, vectors, b) == Apply(rows, p, vectors, a)
    decreases b
  {
    if a < b {
      ApplySkips(rows, p, vectors, a, b - 1);
    }
  }

  /** A row that is not among the first `n` selected positions is left as
      it was. */
  lemma {:induction false} ApplyElsewhere(rows: seq<ChunkRow>, p: seq<nat>, vectors: seq<Option<Vector>>, n: nat, i: nat)
    requires n <= |vectors| && n <= |p| && i < |rows|
    requires forall j :: 0 <= j < |p| ==> p[j] < |rows|
    requires forall j :: 0 <= j < n ==> p[j] != i
    ensures Apply(rows, p, vectors, n)[i] == rows[i]
    decreases n
  {
    if n > 0 {
      ApplyElsewhere(rows, p, vectors, n - 1, i);
    }
  }

  /** Selected row `p[j]` ends up with `vectors[j]`, or as it was without
      one; the positions must be distinct. */
  lemma {:induction false} ApplyAt(rows: seq<ChunkRow>, p: seq<nat>, vectors: seq<Option<Vector>>, n: nat, j: nat)
    requires j < n <= |vectors| && n <= |p|
    requires forall a :: 0 <= a < |p| ==> p[a] < |rows|
    requires forall a, b :: 0 <= a < b < |p| ==> p[a] < p[b]
    ensures Apply(rows, p, vectors, n)[p[j]] ==
      if vectors[j].Some? then WithEmbedding(rows[p[j]], vectors[j].value) else rows[p[j]]
    decreases n
  {
    if j < n - 1 {
      ApplyAt(rows, p, vectors, n - 1, j);
      assert p[j] < p[n - 1];
    } else {
      ApplyElsewhere(rows, p, vectors, n - 1, p[j]);
    }
  }

  /** With an embedding call that, when it answers, answers every text,
      a text has a vector exactly when its batch starts before the first
      call that raises. */
  lemma {:induction false} BatchedUpTo(texts: seq<string>, batchSize: nat, encode: Encoder, s: nat)
    requires 0 < batchSize && s <= |texts|
    requires forall ts :: encode(ts).Some? ==> |encode(ts).value| == |ts|
    ensures forall j :: 0 <= j < |texts| - s ==>
      (Batched(texts, batchSize, encode, s)[j].Some? <==> s + j < Reached(texts, batchSize, encode, s))
    decreases |texts| - s
  {
    if s < |texts| {
      var e := Min(s + batchSize, |texts|);
      var b := Batched(texts, batchSize, encode, s);
      if encode(texts[s..e]).Some? {
        BatchedUpTo(texts, batchSize, encode, e);
        var f := Fill(encode(texts[s..e]).value, e - s);
        var rest := Batched(texts, batchSize, encode, e);
        assert b == f + rest;
        forall j | 0 <= j < |texts| - s
          ensures b[j].Some? <==> s + j < Reached(texts, batchSize, encode, s)
        {
          if j < e - s {
            assert b[j] == f[j];
          } else {
            assert b[j] == rest[j - (e - s)];
          }
        }
      }
    }
  }

  /** When no call raises the loop runs to the end. */
  lemma {:induction false} ReachedEnd(texts: seq<string>, batchSize: nat, encode: Encoder, s: nat)
    requires 0 < batchSize && s <= |texts|
    requires forall ts :: encode(ts).Some?
    ensures Reached(texts, batchSize, encode, s) == |texts|
    decreases |texts| - s
  {
    if s < |texts| {
      ReachedEnd(texts, batchSize, encode, Min(s + batchSize, |texts|));
    }
  }

  /** After `generate_embeddings`, the `j`-th selected row has an embedding
      exactly when its batch came before the first call that raised: the
      batches committed before the failure stay stored and the rest stay
      `NULL`, to be selected again by the next run. */
  lemma GeneratedUpToStop(rows: seq<ChunkRow>, batchSize: nat, encode: Encoder, j: nat)
    requires 0 < batchSize && j < |Pending(rows)|
    requires forall ts :: encode(ts).Some? ==> |encode(ts).value| == |ts|
    ensures Generated(rows, batchSize, encode)[Pending(rows)[j]].data.embedding.Some? <==> j < Stop(rows, batchSize, encode)
  {
    var p := Pending(rows);
    var vectors := Batched(Texts(rows, p), batchSize, encode, 0);
    PendingMeaning(rows, |rows|);
    BatchedUpTo(Texts(rows, p), batchSize, encode, 0);
    ApplyAt(rows, p, vectors, |p|, j);
    assert p[j] in p;
  }

  /** After `generate_embeddings` with an embedding call that never raises
      and answers every text, every row of the table has an embedding. */
  lemma GeneratedFillsAll(rows: seq<ChunkRow>, batchSize: nat, encode: Encoder, i: nat)
    requires 0 < batchSize && i < |rows|
    requires forall ts :: encode(ts).Some? && |encode(ts).value| == |ts|
    ensures Generated(rows, batchSize, encode)[i].data.embedding.Some?
  {
    var p := Pending(rows);
    var vectors := Batched(Texts(rows, p), batchSize, encode, 0);
    PendingMeaning(rows, |rows|);
    if rows[i].data.embedding.None? {
      var j :| 0 <= j < |p| && p[j] == i;
      ReachedEnd(Texts(rows, p), batchSize, encode, 0);
      GeneratedUpToStop(rows, batchSize, encode, j);
    } else {
      ApplyElsewhere(rows, p, vectors, |p|, i);
    }
  }

  /** `generate_embeddings` leaves rows that already had an embedding as
      they were, and changes no column of any row but the embedding. */
  lemma GeneratedChangesOnlyPending(rows: seq<ChunkRow>, batchSize: nat, encode: Encoder, i: nat)
    requires 0 < batchSize && i < |rows|
    ensures |Generated(rows, batchSize, encode)| == |rows|
    ensures var g := Generated(rows, batchSize, encode)[i];
      && g.id == rows[i].id && g.key == rows[i].key && g.data.fields == rows[i].data.fields
      && (rows[i].data.embedding.Some? ==> g == rows[i])
  {
    var p := Pending(rows);
    var vectors := Batched(Texts(rows, p), batchSize, encode, 0);
    PendingMeaning(rows, |rows|);
    if i in p {
      var j :| 0 <= j < |p| && p[j] == i;
      ApplyAt(rows, p, vectors, |p|, j);
    } else {
      ApplyElsewhere(rows, p, vectors, |p|, i);
    }
  }

  /** Filling in embeddings keeps ids and keys, so the table stays keyed. */
  lemma GeneratedKeyed(rows: seq<ChunkRow>, next: nat, batchSize: nat, encode: Encoder)
    requires 0 < batchSize && Keyed(rows, next)
    ensures Keyed(Generated(rows, batchSize, encode), next)
  {
    var g := Generated(rows, batchSize, encode);
    forall i | 0 <= i < |g| ensures g[i].id == rows[i].id && g[i].key == rows[i].key {
      GeneratedChangesOnlyPending(rows, batchSize, encode, i);
    }
  }

  // ---------------------------------------------------------------------
  // Search

  /** A filter applies when it is a non-empty string. */
  predicate Truthy(filter: Option<string>)
  {
    filter.Some? && filter.value != ""
  }

  /** The `WHERE` clause of `search`. */
  predicate Selected(row: ChunkRow, lawTypeFilter: Option<string>, chunkTypeFilter: Option<string>)
  {
    && row.data.embedding.Some?
    && (Truthy(lawTypeFilter) ==> row.data.fields.lawType == lawTypeFilter.value)
    && (Truthy(chunkTypeFilter) ==> row.data.fields.chunkType == chunkTypeFilter.value)
  }

  /** The rows the `SELECT` of `search` fetches from the first `n`, in
      table order. */
  function Candidates(rows: seq<ChunkRow>, lawTypeFilter: Option<string>, chunkTypeFilter: Option<string>, n: nat)
    : (r: seq<ChunkRow>)
    requires n <= |rows|
    ensures forall i :: 0 <= i < |r| ==> Selected(r[i], lawTypeFilter, chunkTypeFilter)
  {
    if n == 0 then []
    else
      Candidates(rows, lawTypeFilter, chunkTypeFilter, n - 1) +
      if Selected(rows[n - 1], lawTypeFilter, chunkTypeFilter) then [rows[n - 1]] else []
  }

  /** The fetched rows are exactly the selected rows of the table. */
  lemma {:induction false} CandidatesMembers(rows: seq<ChunkRow>, lawTypeFilter: Option<string>, chunkTypeFilter: Option<string>,
                                             n: nat)
    requires n <= |rows|
    ensures forall x :: x in Candidates(rows, lawTypeFilter, chunkTypeFilter, n) <==>
      x in rows[..n] && Selected(x, lawTypeFilter, chunkTypeFilter)
    decreases n
  {
    if n > 0 {
      CandidatesMembers(rows, lawTypeFilter, chunkTypeFilter, n - 1);
      assert rows[..n] == rows[..n - 1] + [rows[n - 1]];
    }
  }

  /** In a keyed table the fetched rows come in ascending id order. */
  lemma {:induction false} CandidatesOrdered(rows: seq<ChunkRow>, lawTypeFilter: Option<string>, chunkTypeFilter: Option<string>,
                                             n: nat, next: nat)
    requires n <= |rows| && Keyed(rows, next)
    ensures forall a, b :: 0 <= a < b < |Candidates(rows, lawTypeFilter, chunkTypeFilter, n)| ==>
      Candidates(rows, lawTypeFilter, chunkTypeFilter, n)[a].id < Candidates(rows, lawTypeFilter, chunkTypeFilter, n)[b].id
    decreases n
  {
    if n > 0 {
      CandidatesOrdered(rows, lawTypeFilter, chunkTypeFilter, n - 1, next);
      var prev := Candidates(rows, lawTypeFilter, chunkTypeFilter, n - 1);
      if Selected(rows[n - 1], lawTypeFilter, chunkTypeFilter) {
        CandidatesMembers(rows, lawTypeFilter, chunkTypeFilter, n - 1);
        var c := prev + [rows[n - 1]];
        assert c == Candidates(rows, lawTypeFilter, chunkTypeFilter, n);
        forall a, b | 0 <= a < b < |c| ensures c[a].id < c[b].id {
          if b == |prev| {
            assert c[a] in prev;
            assert c[a] in rows[..n - 1];
            var k :| 0 <= k < n - 1 && rows[..n - 1][k] == c[a];
            assert rows[k] == c[a] && c[b] == rows[n - 1];
            assert rows[k].id < rows[n - 1].id;
          } else {
            assert c[a] == prev[a] && c[b] == prev[b];
            assert prev[a].id < prev[b].id;
          }
        }
      }
    }
  }

  /** The similarity of each fetched row to the query. */
  function Scores(query: Vector, candidates: seq<ChunkRow>, sim: (Vector, Vector) -> Score): (s: seq<Score>)
    requires forall i :: 0 <= i < |candidates| ==> candidates[i].data.embedding.Some?
    ensures |s| == |candidates|
  {
    seq(|candidates|, i requires 0 <= i < |candidates| => sim(query, candidates[i].data.embedding.value))
  }

  /** One result of `search`. */
  datatype SearchHit = SearchHit(
    chunkId: string,
    lawName: string,
    lawType: string,
    chunkType: string,
    chunkIndex: int,
    text: string,
    charCount: int,
    wordCount: int,
    similarityScore: Score)

  function Format(row: ChunkRow, similarity: Score): SearchHit
  {
    var f := row.data.fields;
    SearchHit(row.key, f.lawName, f.lawType, f.chunkType, f.chunkIndex, f.text, f.charCount, f.wordCount, similarity)
  }

  /** The results for a descending argsort `order` of the fetched rows'
      scores, cut to `top_k` as Python slices. */
  function Ranked(candidates: seq<ChunkRow>, scores: seq<Score>, order: seq<nat>, topK: int): (r: seq<SearchHit>)
    requires |scores| == |candidates| && Indexes(scores, order)
  {
    var top := PySliceTo(order, topK);
    assert forall i :: 0 <= i < |top| ==> top[i] == order[i];
    seq(|top|, i requires 0 <= i < |top| => Format(candidates[top[i]], scores[top[i]]))
  }

  /** What `search` returns for a query vector. */
  function SearchResults(rows: seq<ChunkRow>, query: Vector, lawTypeFilter: Option<string>, chunkTypeFilter: Option<string>,
                         sim: (Vector, Vector) -> Score, topK: int): seq<SearchHit>
  {
    var c := Candidates(rows, lawTypeFilter, chunkTypeFilter, |rows|);
    var s := Scores(query, c, sim);
    Ranked(c, s, StableRanking(s), topK)
  }

  /** The scoring loop of `search`: one similarity per fetched row, in
      fetch order. */
  method ScoreAll(query: Vector, candidates: seq<ChunkRow>, sim: (Vector, Vector) -> Score)
    returns (similarities: seq<Score>)
    requires forall i :: 0 <= i < |candidates| ==> candidates[i].data.embedding.Some?
    ensures similarities == Scores(query, candidates, sim)
  {
    similarities := [];
    for i := 0 to |candidates|
      invariant |similarities| == i
      invariant forall k :: 0 <= k < i ==> similarities[k] == sim(query, candidates[k].data.embedding.value)
    {
      similarities := similarities + [sim(query, candidates[i].data.embedding.value)];
    }
  }

  /** The formatting loop of `search` over the first `top_k` of the
      ranking. */
  method FormatTop(candidates: seq<ChunkRow>, scores: seq<Score>, order: seq<nat>, topK: int)
    returns (formatted: seq<SearchHit>)
    requires |scores| == |candidates| && Indexes(scores, order)
    ensures formatted == Ranked(candidates, scores, order, topK)
  {
    var topResults := PySliceTo(order, topK);
    assert forall b :: 0 <= b < |topResults| ==> topResults[b] == order[b];
    formatted := [];
    for i := 0 to |topResults|
      invariant |formatted| == i
      invariant forall k :: 0 <= k < i ==> formatted[k] == Format(candidates[topResults[k]], scores[topResults[k]])
    {
      formatted := formatted + [Format(candidates[topResults[i]], scores[topResults[i]])];
    }
  }

  /** `search` returns `min(top_k, fetched)` results for a non-negative
      `top_k`, so never more than `top_k`; a negative one drops that many
      from the end. */
  lemma SearchCount(rows: seq<ChunkRow>, query: Vector, lawTypeFilter: Option<string>, chunkTypeFilter: Option<string>,
                    sim: (Vector, Vector) -> Score, topK: int)
    ensures var n := |Candidates(rows, lawTypeFilter, chunkTypeFilter, |rows|)|;
      var r := SearchResults(rows, query, lawTypeFilter, chunkTypeFilter, sim, topK);
      && (topK >= 0 ==> |r| == Min(topK, n) <= topK)
      && (topK < 0 ==> |r| == Max(n + topK, 0))
  {
    var c := Candidates(rows, lawTypeFilter, chunkTypeFilter, |rows|);
    assert |StableRanking(Scores(query, c, sim))| == |c|;
  }

  /** Result `i` is fetched row `order[i]` with its own score, and that row
      is a row of the table that passes the filters. */
  lemma SearchHitSource(rows: seq<ChunkRow>, query: Vector, lawTypeFilter: Option<string>, chunkTypeFilter: Option<string>,
                        sim: (Vector, Vector) -> Score, topK: int, i: nat)
    requires i < |SearchResults(rows, query, lawTypeFilter, chunkTypeFilter, sim, topK)|
    ensures var c := Candidates(rows, lawTypeFilter, chunkTypeFilter, |rows|);
      var order := StableRanking(Scores(query, c, sim));
      && i < |order|
      && SearchResults(rows, query, lawTypeFilter, chunkTypeFilter, sim, topK)[i]
           == Format(c[order[i]], sim(query, c[order[i]].data.embedding.value))
      && c[order[i]] in rows
      && Selected(c[order[i]], lawTypeFilter, chunkTypeFilter)
  {
    var c := Candidates(rows, lawTypeFilter, chunkTypeFilter, |rows|);
    var order := StableRanking(Scores(query, c, sim));
    var top := PySliceTo(order, topK);
    assert top[i] == order[i];
    CandidatesMembers(rows, lawTypeFilter, chunkTypeFilter, |rows|);
    assert c[order[i]] in c;
    assert rows[..|rows|] == rows;
  }

  /** Results come in non-increasing similarity, and tied results keep
      table order: the earlier result comes from the row with the smaller
      id. */
  lemma SearchOrdered(rows: seq<ChunkRow>, query: Vector, lawTypeFilter: Option<string>, chunkTypeFilter: Option<string>,
                      sim: (Vector, Vector) -> Score, topK: int, i: nat, j: nat, next: nat)
    requires Keyed(rows, next)
    requires i < j < |SearchResults(rows, query, lawTypeFilter, chunkTypeFilter, sim, topK)|
    ensures var r := SearchResults(rows, query, lawTypeFilter, chunkTypeFilter, sim, topK);
      var c := Candidates(rows, lawTypeFilter, chunkTypeFilter, |rows|);
      var order := StableRanking(Scores(query, c, sim));
      && r[i].similarityScore >= r[j].similarityScore
      && (r[i].similarityScore == r[j].similarityScore ==> j < |order| && c[order[i]].id < c[order[j]].id)
  {
    var c := Candidates(rows, lawTypeFilter, chunkTypeFilter, |rows|);
    var s := Scores(query, c, sim);
    var order := StableRanking(s);
    var top := PySliceTo(order, topK);
    assert top[i] == order[i] && top[j] == order[j];
    assert Before(s, order[i], order[j]);
    CandidatesOrdered(rows, lawTypeFilter, chunkTypeFilter, |rows|, next);
  }

  /** A fetched row left out of the results scores no higher than any
      result. */
  lemma SearchTopAreBest(rows: seq<ChunkRow>, query: Vector, lawTypeFilter: Option<string>, chunkTypeFilter: Option<string>,
                         sim: (Vector, Vector) -> Score, topK: int, i: nat, k: nat)
    requires i < |SearchResults(rows, query, lawTypeFilter, chunkTypeFilter, sim, topK)|
    requires |SearchResults(rows, query, lawTypeFilter, chunkTypeFilter, sim, topK)| <= k
    requires k < |Candidates(rows, lawTypeFilter, chunkTypeFilter, |rows|)|
    ensures var c := Candidates(rows, lawTypeFilter, chunkTypeFilter, |rows|);
      var s := Scores(query, c, sim);
      SearchResults(rows, query, lawTypeFilter, chunkTypeFilter, sim, topK)[i].similarityScore >= s[StableRanking(s)[k]]
  {
    var c := Candidates(rows, lawTypeFilter, chunkTypeFilter, |rows|);
    var s := Scores(query, c, sim);
    var order := StableRanking(s);
    var top := PySliceTo(order, topK);
    assert top[i] == order[i];
  }

  // ---------------------------------------------------------------------
  // Metadata and statistics

  /** What `get_law_metadata` returns for a stored law. */
  datatype LawMetadata = LawMetadata(
    lawId: string,
    lawName: string,
    lawType: string,
    sections: seq<string>,
    articleCount: int,
    characterCount: int,
    wordCount: int,
    processingDate: string)

  /** The position of the first stored law named `name`. */
  function FirstNamed(laws: seq<LawRow>, name: string, from: nat): (r: Option<nat>)
    requires from <= |laws|
    ensures r.Some? ==> from <= r.value < |laws| && laws[r.value].data.lawName == name
    decreases |laws| - from
  {
    if from == |laws| then None
    else if laws[from].data.lawName == name then Some(from)
    else FirstNamed(laws, name, from + 1)
  }

  lemma {:induction false} FirstNamedMeaning(laws: seq<LawRow>, name: string, from: nat)
    requires from <= |laws|
    ensures var r := FirstNamed(laws, name, from);
      && (r.None? <==> forall i :: from <= i < |laws| ==> laws[i].data.lawName != name)
      && (r.Some? ==> forall i :: from <= i < r.value ==> laws[i].data.lawName != name)
    decreases |laws| - from
  {
    if from < |laws| {
      FirstNamedMeaning(laws, name, from + 1);
    }
  }

  /** The `sections` value of a stored row: `[]` for an empty column, else
      the decoded JSON. */
  function SectionsOf(stored: string, decode: string -> seq<string>): seq<string>
  {
    if stored == "" then [] else decode(stored)
  }

  function MetadataOf(row: LawRow, decode: string -> seq<string>): LawMetadata
  {
    var f := row.data;
    LawMetadata(row.key, f.lawName, f.lawType, SectionsOf(f.sections, decode), f.articleCount,
                f.characterCount, f.wordCount, f.processingDate)
  }

  /** The `chunks` rows among the first `n` that have an embedding. */
  function CountEmbedded(rows: seq<ChunkRow>, n: nat): (c: nat)
    requires n <= |rows|
    ensures c <= n
  {
    if n == 0 then 0 else CountEmbedded(rows, n - 1) + if rows[n - 1].data.embedding.Some? then 1 else 0
  }

  /** The `chunks` rows among the first `n` of law type `t`. */
  function CountType(rows: seq<ChunkRow>, t: string, n: nat): nat
    requires n <= |rows|
  {
    if n == 0 then 0 else CountType(rows, t, n - 1) + if rows[n - 1].data.fields.lawType == t then 1 else 0
  }

  /** `SELECT law_type, COUNT(*) ... GROUP BY law_type` over the first `n`
      rows. */
  function ByLawType(rows: seq<ChunkRow>, n: nat): map<string, nat>
    requires n <= |rows|
  {
    if n == 0 then map[]
    else
      var m := ByLawType(rows, n - 1);
      var t := rows[n - 1].data.fields.lawType;
      m[t := (if t in m then m[t] else 0) + 1]
  }

  /** A law type is listed exactly when some row has it, with the number of
      rows that have it. */
  lemma {:induction false} ByLawTypeMeaning(rows: seq<ChunkRow>, n: nat, t: string)
    requires n <= |rows|
    ensures t in ByLawType(rows, n) <==> CountType(rows, t, n) > 0
    ensures t in ByLawType(rows, n) ==> ByLawType(rows, n)[t] == CountType(rows, t, n)
    decreases n
  {
    if n > 0 {
      ByLawTypeMeaning(rows, n - 1, t);
    }
  }

  function SumTimes(logs: seq<SearchLog>, n: nat): real
    requires n <= |logs|
  {
    if n == 0 then 0.0 else SumTimes(logs, n - 1) + logs[n - 1].searchTime
  }

  /** What `get_statistics` reports. */
  datatype Statistics = Statistics(
    totalChunks: nat,
    totalLaws: nat,
    chunksWithEmbeddings: nat,
    chunksByLawType: map<string, nat>,
    totalSearches: nat,
    avgSearchTime: real)

  class LegalRAGDatabase {
    var chunks: seq<ChunkRow>
    var nextChunkId: nat
    var laws: seq<LawRow>
    var nextLawId: nat
    var searchLogs: seq<SearchLog>
    var embeddingModel: Option<EmbeddingModel>
    var embeddingType: Option<string>

    /** Ids increase in both keyed tables and keys are unique. */
    ghost predicate Valid()
      reads this
    {
      Keyed(chunks, nextChunkId) && Keyed(laws, nextLawId)
    }

    /** `__init__` on a new database file: the schema with empty tables. */
    constructor ()
      ensures Valid()
      ensures chunks == [] && laws == [] && searchLogs == []
      ensures embeddingModel == None && embeddingType == None
    {
      chunks := [];
      nextChunkId := 1;
      laws := [];
      nextLawId := 1;
      searchLogs := [];
      embeddingModel := None;
      embeddingType := None;
    }

    /** `load_embedding_model`. */
    method LoadEmbeddingModel(modelType: string, modelName: Option<string>, libs: Libraries) returns (r: Outcome<DbError>)
      modifies this`embeddingModel, this`embeddingType
      ensures var choice := ModelChoice(modelType, modelName, libs);
        && (choice.None? ==>
              r == Fail(Unavailable(modelType)) && embeddingModel == old(embeddingModel) && embeddingType == old(embeddingType))
        && (choice.Some? ==>
              r == Pass && embeddingModel == Some(choice.value.0) && embeddingType == Some(choice.value.1))
    {
      if modelType == SentencePrefix && libs.sentenceTransformers {
        var name := OrDefault(modelName, DefaultSentenceModel);
        embeddingModel := Some(SentenceTransformer(name));
        embeddingType := Some(SentencePrefix + "_" + name);
      } else if modelType == OpenAIPrefix && libs.openai {
        var name := OrDefault(modelName, DefaultOpenAIModel);
        embeddingModel := Some(OpenAI(name));
        embeddingType := Some(OpenAIPrefix + "_" + name);
      } else if modelType == TfIdfType && libs.sklearn {
        embeddingModel := Some(TfIdf);
        embeddingType := Some(TfIdfType);
      } else {
        return Fail(Unavailable(modelType));
      }
      return Pass;
    }

    /** `load_data`: upsert every metadata row, then every chunk row, in
        file order; a replaced chunk row comes back without an embedding.
        Returns the two input row counts. */
    method LoadData(chunkRows: seq<Entry<ChunkFields>>, lawRows: seq<Entry<LawFields>>) returns (chunkCount: nat, lawCount: nat)
      requires Valid()
      modifies this`chunks, this`nextChunkId, this`laws, this`nextLawId
      ensures Valid()
      ensures chunkCount == |chunkRows| && lawCount == |lawRows|
      ensures laws == Loaded(old(laws), old(nextLawId), lawRows, |lawRows|)
      ensures nextLawId == old(nextLawId) + |lawRows|
      ensures chunks == Loaded(old(chunks), old(nextChunkId), Unembedded(chunkRows), |chunkRows|)
      ensures nextChunkId == old(nextChunkId) + |chunkRows|
    {
      ghost var entries := Unembedded(chunkRows);
      laws, nextLawId := InsertAll(laws, nextLawId, lawRows);
      chunks, nextChunkId := InsertAll(chunks, nextChunkId, Unembedded(chunkRows));
      LoadedKeyed(old(laws), old(nextLawId), lawRows, |lawRows|);
      LoadedKeyed(old(chunks), old(nextChunkId), entries, |chunkRows|);
      return |chunkRows|, |lawRows|;
    }

    /** `generate_embeddings`: send the texts of the rows without an
        embedding to `encode` in consecutive batches and store each returned
        vector in its row, committing after each batch. Rows are addressed
        by position, which stands for the unique id the source updates by.
        `processed` counts the batches that were stored, one progress line
        each. A call that raises ends the run with the batches before it
        committed. */
    method GenerateEmbeddings(batchSize: int, encode: Encoder)
      returns (r: Outcome<DbError>, processed: nat)
      requires Valid()
      modifies this`chunks
      ensures Valid()
      ensures embeddingModel.None? ==> r == Fail(NoModel) && chunks == old(chunks)
      ensures embeddingModel.Some? && batchSize == 0 ==> r == Fail(ZeroBatchSize) && chunks == old(chunks)
      ensures embeddingModel.Some? && batchSize < 0 ==> r == Pass && processed == 0 && chunks == old(chunks)
      ensures embeddingModel.Some? && batchSize > 0 ==>
        && chunks == Generated(old(chunks), batchSize, encode)
        && (r == Pass <==> Stop(old(chunks), batchSize, encode) == |Pending(old(chunks))|)
        && (r != Pass ==> r == Fail(EmbeddingCallFailed))
        && processed == |Ranges(|Pending(old(chunks))|, batchSize, 0)|
                        - |Ranges(|Pending(old(chunks))|, batchSize, Stop(old(chunks), batchSize, encode))|
    {
      if embeddingModel.None? {
        return Fail(NoModel), 0;
      }
      var pending := Pending(chunks);
      var texts := Texts(chunks, pending);
      if batchSize == 0 {
        return Fail(ZeroBatchSize), 0;
      }
      if batchSize < 0 {
        return Pass, 0;
      }
      var table, count, failed := EmbedBatches(chunks, pending, texts, batchSize, encode);
      GeneratedByLoop(chunks, batchSize, encode);
      GeneratedKeyed(chunks, nextChunkId, batchSize, encode);
      chunks := table;
      if failed {
        return Fail(EmbeddingCallFailed), count;
      }
      return Pass, count;
    }

    /** `search`: score the rows with an embedding that pass the truthy
        filters, sort them stably by descending score, keep `top_k`, and log
        the search. `encode` is `get_embeddings` and `elapsed` the measured
        search time. Without a loaded model `get_embeddings` raises; an
        empty answer makes the `[0]` raise. Both leave the log as it was. */
    method Search(query: string, topK: int, lawTypeFilter: Option<string>, chunkTypeFilter: Option<string>,
                  encode: Encoder, sim: (Vector, Vector) -> Score, elapsed: real)
      returns (r: Result<seq<SearchHit>, DbError>)
      modifies this`searchLogs
      ensures r.Ok? <==> embeddingType.Some? && encode([query]).Some? && encode([query]).value != []
      ensures embeddingType.None? ==> r == Err(NoModel)
      ensures embeddingType.Some? && encode([query]).None? ==> r == Err(EmbeddingCallFailed)
      ensures embeddingType.Some? && encode([query]) == Some([]) ==> r == Err(NoQueryEmbedding)
      ensures r.Err? ==> searchLogs == old(searchLogs)
      ensures r.Ok? ==>
        && encode([query]).Some? && encode([query]).value != []
        && r.value == SearchResults(chunks, encode([query]).value[0], lawTypeFilter, chunkTypeFilter, sim, topK)
        && searchLogs == old(searchLogs) + [SearchLog(query, topK, embeddingType, lawTypeFilter, |r.value|, elapsed)]
    {
      if embeddingType.None? {
        return Err(NoModel);
      }
      var reply := encode([query]);
      if reply.None? {
        return Err(EmbeddingCallFailed);
      }
      var queryEmbeddings := reply.value;
      if queryEmbeddings == [] {
        return Err(NoQueryEmbedding);
      }
      var queryEmbedding := queryEmbeddings[0];
      var fetched := Candidates(chunks, lawTypeFilter, chunkTypeFilter, |chunks|);
      var similarities := ScoreAll(queryEmbedding, fetched, sim);
      var order := StableRanking(similarities);
      var formatted := FormatTop(fetched, similarities, order, topK);
      searchLogs := searchLogs + [SearchLog(query, topK, embeddingType, lawTypeFilter, |formatted|, elapsed)];
      return Ok(formatted);
    }

    /** `get_law_metadata`: the first stored law with that exact name, or
        `None`. */
    function GetLawMetadata(lawName: string, decode: string -> seq<string>): (r: Option<LawMetadata>)
      reads this
      ensures r.Some? ==> r.value.lawName == lawName
    {
      var i := FirstNamed(laws, lawName, 0);
      if i.None? then None else Some(MetadataOf(laws[i.value], decode))
    }

    /** `get_statistics`. The average is over all logged searches, 0 with
        none; rounding to four places is left to the formatter. */
    function GetStatistics(): (s: Statistics)
      reads this
      ensures s.chunksWithEmbeddings <= s.totalChunks
      ensures s.totalSearches == 0 ==> s.avgSearchTime == 0.0
    {
      var n := |searchLogs|;
      Statistics(|chunks|, |laws|, CountEmbedded(chunks, |chunks|), ByLawType(chunks, |chunks|), n,
                 if n == 0 then 0.0 else SumTimes(searchLogs, n) / (n as real))
    }
  }

  /** The chunk rows as `load_data` inserts them, without an embedding. */
  function Unembedded(rows: seq<Entry<ChunkFields>>): (r: seq<Entry<ChunkData>>)
    ensures |r| == |rows|
  {
    seq(|rows|, i requires 0 <= i < |rows| => Entry(rows[i].key, ChunkData(rows[i].data, None)))
  }

  /** The same entry is the last for a key before and after dropping the
      embedding column. */
  lemma {:induction false} LastWriteUnembedded(rows: seq<Entry<ChunkFields>>, n: nat, k: string)
    requires n <= |rows|
    ensures LastWrite(Unembedded(rows), n, k) == LastWrite(rows, n, k)
    decreases n
  {
    if n > 0 {
      LastWriteUnembedded(rows, n - 1, k);
    }
  }

  /** After `load_data`, a chunk id in the file reads the columns of its
      last row in the file, with no embedding, even when it had one before;
      a chunk id not in the file reads what it read before. */
  lemma ReloadClearsEmbedding(rows: seq<ChunkRow>, next: nat, chunkRows: seq<Entry<ChunkFields>>, k: string)
    ensures var after := Find(Loaded(rows, next, Unembedded(chunkRows), |chunkRows|), k);
      match LastWrite(chunkRows, |chunkRows|, k)
      case None => after == Find(rows, k)
      case Some(j) => after == Some(Row(next + j, k, ChunkData(chunkRows[j].data, None)))
  {
    LastWriteUnembedded(chunkRows, |chunkRows|, k);
    LoadedFind(rows, next, Unembedded(chunkRows), |chunkRows|, k);
  }

  /** `get_law_metadata` finds nothing exactly when no stored law has that
      name, and otherwise reads the first such row; an empty `sections`
      column reads as `[]`. */
  lemma LawMetadataMeaning(db: LegalRAGDatabase, lawName: string, decode: string -> seq<string>)
    ensures var r := db.GetLawMetadata(lawName, decode);
      && (r.None? <==> forall i :: 0 <= i < |db.laws| ==> db.laws[i].data.lawName != lawName)
      && (r.Some? ==>
            exists i :: (0 <= i < |db.laws| && db.laws[i].data.lawName == lawName
              && (forall h :: 0 <= h < i ==> db.laws[h].data.lawName != lawName)
              && r.value == MetadataOf(db.laws[i], decode)
              && (db.laws[i].data.sections == "" ==> r.value.sections == [])))
  {
    FirstNamedMeaning(db.laws, lawName, 0);
  }

  /** A law type in the statistics is the type of that many stored chunks. */
  lemma StatisticsByType(db: LegalRAGDatabase, t: string)
    ensures var byType := db.GetStatistics().chunksByLawType;
      && (t in byType <==> exists i :: 0 <= i < |db.chunks| && db.chunks[i].data.fields.lawType == t)
      && (t in byType ==> byType[t] == CountType(db.chunks, t, |db.chunks|))
  {
    ByLawTypeMeaning(db.chunks, |db.chunks|, t);
    CountTypePositive(db.chunks, t, |db.chunks|);
  }

  lemma {:induction false} CountTypePositive(rows: seq<ChunkRow>, t: string, n: nat)
    requires n <= |rows|
    ensures CountType(rows, t, n) > 0 <==> exists i :: 0 <= i < n && rows[i].data.fields.lawType == t
    decreases n
  {
    if n > 0 {
      CountTypePositive(rows, t, n - 1);
    }
  }
}
