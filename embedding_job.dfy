/** `LegalDocumentEmbedder.get_embedding` and `process_dataset`: every chunk
    of every law is sent to the embeddings endpoint, with retries, and the
    chunks that got an embedding are collected beside their vectors. The
    endpoint is a parameter: for a text and an attempt number it says what
    that call returns. Sleeping is recorded as the list of waits. */
module EmbeddingJob {
  import opened Base
  import opened Ranking
  import opened Chunker

  /** What one call to the embeddings endpoint does. */
  datatype Reply = Embedded(vector: Vector) | RateLimited | Failed(reason: string)

  /** Why `get_embedding` raised: the last attempt's own error, or the
      generic "after all retries" error. */
  datatype EmbedError = ProviderError(reason: string) | RetriesExhausted

  /** The endpoint: the reply to attempt `k` for a text. */
  type Service = string -> nat -> Reply

  /** `get_embedding`'s default number of attempts. */
  const DefaultRetries: int := 3

  function Pow2(n: nat): (p: nat)
    ensures p >= 1
  {
    if n == 0 then 1 else 2 * Pow2(n - 1)
  }

  /** Seconds slept after attempt `attempt` failed without raising:
      exponential backoff on a rate limit, two seconds otherwise. */
  function Backoff(reply: Reply, attempt: nat): nat
  {
    if reply.RateLimited? then Pow2(attempt) * 5 else 2
  }

  /** The first attempt in `from..retries-1` that returns an embedding. */
  function FirstEmbedded(replies: nat -> Reply, from: nat, retries: int): (r: Option<nat>)
    ensures r.Some? ==> from <= r.value < retries && replies(r.value).Embedded?
    ensures r.Some? ==> forall k :: from <= k < r.value ==> !replies(k).Embedded?
    ensures r.None? ==> forall k :: from <= k < retries ==> !replies(k).Embedded?
    decreases retries - from
  {
    if from >= retries then None
    else if replies(from).Embedded? then Some(from)
    else FirstEmbedded(replies, from + 1, retries)
  }

  /** What `get_embedding` returns or raises. */
  function EmbeddingOutcome(replies: nat -> Reply, retries: int): Result<Vector, EmbedError>
  {
    match FirstEmbedded(replies, 0, retries)
    case Some(k) => Ok(replies(k).vector)
    case None =>
      if retries >= 1 && replies(retries - 1).Failed? then Err(ProviderError(replies(retries - 1).reason))
      else Err(RetriesExhausted)
  }

  /** `get_embedding` returns a vector exactly when some attempt embeds,
      and then it is the first attempt's vector; a provider error is the
      last attempt's own failure. */
  lemma EmbeddingOutcomeMeaning(replies: nat -> Reply, retries: int)
    ensures var r := EmbeddingOutcome(replies, retries);
      && (r.Ok? <==> exists k :: 0 <= k < retries && replies(k).Embedded?)
      && (r.Ok? ==> exists k :: (0 <= k < retries && replies(k) == Embedded(r.value) &&
            forall j :: 0 <= j < k ==> !replies(j).Embedded?))
      && (r.Err? && r.error.ProviderError? ==> retries >= 1 && replies(retries - 1) == Failed(r.error.reason))
  {
    match FirstEmbedded(replies, 0, retries)
    case Some(k) =>
      assert 0 <= k < retries && replies(k).Embedded?;
    case None =>
  }

  /** How many calls `get_embedding` makes. */
  function AttemptsMade(replies: nat -> Reply, retries: int): nat
  {
    match FirstEmbedded(replies, 0, retries)
    case Some(k) => k + 1
    case None => Max(retries, 0)
  }

  /** `get_embedding`: try up to `retries` times. A rate limit waits
      `5 * 2^attempt` seconds, any other error waits two seconds, except on
      the last attempt, where it is raised; running out of attempts raises
      the generic error. */
  method GetEmbedding(replies: nat -> Reply, retries: int) returns (r: Result<Vector, EmbedError>, calls: nat, waits: seq<nat>)
    ensures r == EmbeddingOutcome(replies, retries)
    ensures calls == AttemptsMade(replies, retries) && calls <= Max(retries, 0)
    ensures |waits| == if r.Ok? || r.error.ProviderError? then calls - 1 else calls
    ensures forall k :: 0 <= k < |waits| ==> waits[k] == Backoff(replies(k), k)
  {
    calls := 0;
    waits := [];
    var attempt: nat := 0;
    while attempt < retries
      invariant attempt <= Max(retries, 0)
      invariant calls == attempt == |waits|
      invariant FirstEmbedded(replies, attempt, retries) == FirstEmbedded(replies, 0, retries)
      invariant attempt == retries >= 1 ==> !replies(retries - 1).Failed?
      invariant forall k :: 0 <= k < |waits| ==> waits[k] == Backoff(replies(k), k)
    {
      calls := calls + 1;
      var reply := replies(attempt);
      if reply.Embedded? {
        r := Ok(reply.vector);
        return;
      }
      if reply.Failed? && attempt == retries - 1 {
        r := Err(ProviderError(reply.reason));
        return;
      }
      waits := waits + [Backoff(reply, attempt)];
      attempt := attempt + 1;
    }
    r := Err(RetriesExhausted);
  }

  /** The embedding a chunk text gets with the default retries. */
  function EmbedText(service: Service, text: string): Result<Vector, EmbedError>
  {
    EmbeddingOutcome(service(text), DefaultRetries)
  }

  /** One dataset row: the law's columns and its text, already split at the
      article headers. `blankName` marks an empty `mevAdi` cell, which pandas
      reads as `NaN`: slicing it for the progress line raises before any
      chunk is embedded. */
  datatype DatasetRow = DatasetRow(info: LawInfo, blankName: bool, text: ArticleSplit)

  /** How many leading chunks get an embedding before one raises. */
  function EmbeddedPrefix(chunks: seq<Chunk>, service: Service): (n: nat)
    ensures n <= |chunks|
    ensures forall i :: 0 <= i < n ==> EmbedText(service, chunks[i].text).Ok?
    ensures n < |chunks| ==> EmbedText(service, chunks[n].text).Err?
  {
    if chunks == [] then 0
    else if EmbedText(service, chunks[0].text).Err? then 0
    else 1 + EmbeddedPrefix(chunks[1..], service)
  }

  /** The chunks one law contributes: none when its name is `NaN`, and
      otherwise those embedded before the first failure; the failure
      abandons the rest of that law. */
  function LawChunks(row: DatasetRow, count: TokenCounter, service: Service): seq<Chunk>
  {
    if row.blankName then []
    else
      var chunks := ChunkTextSpec(row.text, row.info, count);
      chunks[..EmbeddedPrefix(chunks, service)]
  }

  /** The lists `f` gives for each row, concatenated in row order. */
  function ConcatMap(rows: seq<DatasetRow>, f: DatasetRow -> seq<Chunk>): seq<Chunk>
  {
    if rows == [] then [] else ConcatMap(rows[..|rows| - 1], f) + f(rows[|rows| - 1])
  }

  /** All collected chunks, law after law. */
  function Processed(rows: seq<DatasetRow>, count: TokenCounter, service: Service): seq<Chunk>
  {
    ConcatMap(rows, row => LawChunks(row, count, service))
  }

  lemma ProcessedSnoc(rows: seq<DatasetRow>, r: nat, count: TokenCounter, service: Service)
    requires r < |rows|
    ensures Processed(rows[..r + 1], count, service) == Processed(rows[..r], count, service) + LawChunks(rows[r], count, service)
  {
    assert rows[..r + 1][..r] == rows[..r];
  }

  /** Each chunk sits beside the vector the endpoint returned for its text. */
  predicate Paired(service: Service, chunks: seq<Chunk>, vectors: seq<Vector>)
  {
    |vectors| == |chunks| &&
    forall i :: 0 <= i < |chunks| ==> EmbedText(service, chunks[i].text) == Ok(vectors[i])
  }

  /** The inner loop over one law's chunks. */
  method EmbedLaw(chunks: seq<Chunk>, service: Service) returns (done: seq<Chunk>, vectors: seq<Vector>)
    ensures done == chunks[..EmbeddedPrefix(chunks, service)]
    ensures |vectors| == |done|
    ensures forall i :: 0 <= i < |done| ==> EmbedText(service, done[i].text) == Ok(vectors[i])
  {
    vectors := [];
    var j := 0;
    while j < |chunks|
      invariant 0 <= j <= EmbeddedPrefix(chunks, service)
      invariant |vectors| == j
      invariant forall i :: 0 <= i < j ==> EmbedText(service, chunks[i].text) == Ok(vectors[i])
    {
      var e, _, _ := GetEmbedding(service(chunks[j].text), DefaultRetries);
      EmbedStep(chunks, service, j);
      assert EmbedText(service, chunks[j].text) == e;
      if e.Err? {
        break;
      }
      vectors := vectors + [e.value];
      j := j + 1;
    }
    done := chunks[..j];
  }

  /** The embedded prefix ends at the first chunk whose embedding raises. */
  lemma EmbedStep(chunks: seq<Chunk>, service: Service, j: nat)
    requires j <= EmbeddedPrefix(chunks, service) && j < |chunks|
    ensures EmbedText(service, chunks[j].text).Err? <==> j == EmbeddedPrefix(chunks, service)
  {
  }

  lemma PairedAppend(service: Service, a: seq<Chunk>, va: seq<Vector>, b: seq<Chunk>, vb: seq<Vector>)
    requires Paired(service, a, va) && Paired(service, b, vb)
    ensures Paired(service, a + b, va + vb)
  {
    assert forall i :: |a| <= i < |a + b| ==> (a + b)[i] == b[i - |a|] && (va + vb)[i] == vb[i - |a|];
  }

  /** `process_dataset`: chunk each law and embed its chunks; a law whose
      embedding raises keeps the chunks embedded before the failure, a law
      whose name is `NaN` is skipped whole, and the loop goes on with the
      next law. */
  method ProcessDataset(rows: seq<DatasetRow>, count: TokenCounter, service: Service)
    returns (allChunks: seq<Chunk>, allEmbeddings: seq<Vector>)
    ensures allChunks == Processed(rows, count, service)
    ensures |allEmbeddings| == |allChunks|
    ensures forall i :: 0 <= i < |allChunks| ==> EmbedText(service, allChunks[i].text) == Ok(allEmbeddings[i])
  {
    allChunks, allEmbeddings := [], [];
    var r := 0;
    while r < |rows|
      invariant 0 <= r <= |rows|
      invariant allChunks == Processed(rows[..r], count, service)
      invariant Paired(service, allChunks, allEmbeddings)
    {
      var chunks := ChunkText(rows[r].text, rows[r].info, count);
      ProcessedSnoc(rows, r, count, service);
      if rows[r].blankName {
        r := r + 1;
        continue;
      }
      var done, vectors := EmbedLaw(chunks, service);
      PairedAppend(service, allChunks, allEmbeddings, done, vectors);
      allChunks := allChunks + done;
      allEmbeddings := allEmbeddings + vectors;
      r := r + 1;
    }
    assert rows[..r] == rows;
  }

  lemma {:induction false} ConcatMapAppend(a: seq<DatasetRow>, b: seq<DatasetRow>, f: DatasetRow -> seq<Chunk>)
    ensures ConcatMap(a + b, f) == ConcatMap(a, f) + ConcatMap(b, f)
    decreases |b|
  {
    if b == [] {
      assert a + b == a;
    } else {
      var b' := b[..|b| - 1];
      assert (a + b)[..|a + b| - 1] == a + b';
      ConcatMapAppend(a, b', f);
    }
  }

  /** Laws are processed independently: the chunks collected from a dataset
      are those of its first part followed by those of the rest, so one
      law's failure never affects another law's chunks. */
  lemma ProcessedAppend(a: seq<DatasetRow>, b: seq<DatasetRow>, count: TokenCounter, service: Service)
    ensures Processed(a + b, count, service) == Processed(a, count, service) + Processed(b, count, service)
  {
    ConcatMapAppend(a, b, row => LawChunks(row, count, service));
  }

  /** Every chunk of every named law, in row order. */
  function AllChunks(rows: seq<DatasetRow>, count: TokenCounter): seq<Chunk>
  {
    ConcatMap(rows, (row: DatasetRow) => if row.blankName then [] else ChunkTextSpec(row.text, row.info, count))
  }

  /** When the endpoint embeds every text at the first attempt, nothing is
      dropped: every chunk of every law with a name is collected, in row
      order. */
  lemma {:induction false} ProcessedAllWhenServiceUp(rows: seq<DatasetRow>, count: TokenCounter, service: Service)
    requires forall t :: service(t)(0).Embedded?
    ensures Processed(rows, count, service) == AllChunks(rows, count)
    decreases |rows|
  {
    if rows != [] {
      var last := rows[|rows| - 1];
      if !last.blankName {
        var chunks := ChunkTextSpec(last.text, last.info, count);
        assert EmbeddedPrefix(chunks, service) == |chunks|;
        assert LawChunks(last, count, service) == chunks;
      }
      ProcessedAllWhenServiceUp(rows[..|rows| - 1], count, service);
    }
  }

  /** A law whose name is `NaN` contributes nothing, even when every one of
      its chunks would embed: the error raised by the progress line skips
      the whole row. */
  lemma BlankNameSkipped(rows: seq<DatasetRow>, r: nat, count: TokenCounter, service: Service)
    requires r < |rows| && rows[r].blankName
    ensures Processed(rows, count, service) == Processed(rows[..r], count, service) + Processed(rows[r + 1..], count, service)
  {
    var front, rest := rows[..r + 1], rows[r + 1..];
    assert rows == front + rest;
    var skipped := LawChunks(rows[r], count, service);
    assert skipped == [];
    ProcessedAppend(front, rest, count, service);
    ProcessedSnoc(rows, r, count, service);
    assert Processed(front, count, service) == Processed(rows[..r], count, service) + skipped;
  }
}
