/** `LegalDocumentEmbedder.chunk_text` and its helpers: a statute is cut at
    its `MADDE n` article headers and the articles are packed greedily under a
    token ceiling; a text without headers is cut at `". "` instead. The token
    counter (tiktoken's `cl100k_base`) is a parameter, and so is the regular
    expression split: the input is the preamble before the first header and,
    per header, its parts and the text up to the next header. */
module Chunker {
  import opened Base
  import opened Text

  /** `max_chunk_tokens`: packing closes a chunk before it would pass this. */
  const MaxChunkTokens: nat := 7000

  /** `count_tokens`: the tokenizer, left uninterpreted. */
  type TokenCounter = string -> nat

  /** One match of `\bMADDE\s+\d+` (the word, its spacing, its number) and
      the text that follows it up to the next match. */
  datatype Article = Article(spacing: string, number: string, body: string)

  /** The matched header text, `MADDE n`. */
  function Header(a: Article): string
  {
    "MADDE" + a.spacing + a.number
  }

  /** `f"{article_num} {article_text}"`: the unit an article contributes. */
  function Unit(a: Article): string
  {
    Header(a) + " " + a.body
  }

  /** The result of splitting a text on the article pattern. */
  datatype ArticleSplit = ArticleSplit(preamble: string, articles: seq<Article>)

  function Units(articles: seq<Article>): (us: seq<string>)
    ensures |us| == |articles|
    ensures forall i :: 0 <= i < |articles| ==> us[i] == Unit(articles[i])
  {
    seq(|articles|, i requires 0 <= i < |articles| => Unit(articles[i]))
  }

  /** The columns of a dataset row that every chunk copies. */
  datatype LawInfo = LawInfo(
    lawType: string,
    mevzuatNo: string,
    mevAdi: string,
    kabulTarih: string,
    resmiGazeteTarihi: string,
    resmiGazeteSayisi: string,
    textLength: int,
    detailUrl: string)

  datatype Chunk = Chunk(
    chunkId: string,
    text: string,
    tokens: nat,
    lawType: string,
    lawName: string,
    lawNumber: string,
    acceptanceDate: string,
    gazetteDate: string,
    gazetteNumber: string,
    detailUrl: string,
    chunkIndex: nat,
    totalLawLength: int)

  /** `f"{mevzuatNo}_{chunk_idx}"`. */
  function ChunkId(lawNumber: string, index: nat): string
  {
    lawNumber + "_" + NatToString(index)
  }

  /** `_create_chunk`: the stripped text, the token count of the unstripped
      text, the law's metadata and the chunk's position. */
  function CreateChunk(raw: string, info: LawInfo, index: nat, count: TokenCounter): Chunk
  {
    Chunk(
      chunkId := ChunkId(info.mevzuatNo, index),
      text := Strip(raw),
      tokens := count(raw),
      lawType := info.lawType,
      lawName := info.mevAdi,
      lawNumber := info.mevzuatNo,
      acceptanceDate := info.kabulTarih,
      gazetteDate := info.resmiGazeteTarihi,
      gazetteNumber := info.resmiGazeteSayisi,
      detailUrl := info.detailUrl,
      chunkIndex := index,
      totalLawLength := info.textLength)
  }

  /** The chunks made from the emitted raw texts, each stamped with
      `len(chunks)` at the time it was appended. */
  function Stamp(raws: seq<string>, info: LawInfo, count: TokenCounter): (cs: seq<Chunk>)
    ensures |cs| == |raws|
    ensures forall i :: 0 <= i < |raws| ==> cs[i] == CreateChunk(raws[i], info, i, count)
  {
    seq(|raws|, i requires 0 <= i < |raws| => CreateChunk(raws[i], info, i, count))
  }

  lemma StampSnoc(raws: seq<string>, r: string, info: LawInfo, count: TokenCounter)
    ensures Stamp(raws + [r], info, count) == Stamp(raws, info, count) + [CreateChunk(r, info, |raws|, count)]
  {
    var q := raws + [r];
    assert forall i :: 0 <= i < |raws| ==> q[i] == raws[i];
  }

  /** The position is readable back from the id: the id is the law number,
      an underscore, and the decimal index. */
  lemma ChunkIdEncodesIndex(lawNumber: string, index: nat)
    ensures var id := ChunkId(lawNumber, index);
      id[..|lawNumber|] == lawNumber && id[|lawNumber|] == '_' &&
      ParseNat(id[|lawNumber| + 1..]) == index
  {
    var id := ChunkId(lawNumber, index);
    assert id[|lawNumber| + 1..] == NatToString(index);
    ParseNatToString(index);
  }

  /** The chunks of one document carry indices 0, 1, ... in emission order
      and pairwise distinct ids. */
  lemma StampedIdsDistinct(raws: seq<string>, info: LawInfo, count: TokenCounter, i: nat, j: nat)
    requires i < j < |raws|
    ensures Stamp(raws, info, count)[i].chunkIndex == i
    ensures Stamp(raws, info, count)[i].chunkId != Stamp(raws, info, count)[j].chunkId
  {
    var no := info.mevzuatNo;
    NatToStringInjective(i, j);
    var a, b := ChunkId(no, i), ChunkId(no, j);
    assert a[|no| + 1..] == NatToString(i);
    assert b[|no| + 1..] == NatToString(j);
  }

  // ---------------------------------------------------------------------
  // Article packing

  /** The running `current_chunk_tokens`: the sum of the units' token counts
      (the joining spaces are not counted). */
  function SumTokens(us: seq<string>, count: TokenCounter): nat
  {
    if us == [] then 0 else SumTokens(us[..|us| - 1], count) + count(us[|us| - 1])
  }

  function CountNonBlank(us: seq<string>): nat
  {
    if us == [] then 0 else CountNonBlank(us[..|us| - 1]) + (if IsBlank(us[|us| - 1]) then 0 else 1)
  }

  /** The units of a chunk, in order, that joined with single spaces give its text. */
  function Flatten(gs: seq<seq<string>>): seq<string>
  {
    if gs == [] then [] else gs[0] + Flatten(gs[1..])
  }

  /** The text of each chunk: its units joined with single spaces. */
  function JoinEach(gs: seq<seq<string>>): (ts: seq<string>)
    ensures |ts| == |gs|
  {
    if gs == [] then [] else [Join(gs[0], " ")] + JoinEach(gs[1..])
  }

  /** The article loop, as groups of units: `cur` is the open chunk and
      `rest` the units still to read. A unit joins the open chunk unless the
      token sum would pass `max` and the open chunk is not blank; the last
      chunk is kept only if it is not blank. */
  function PackUnits(cur: seq<string>, rest: seq<string>, count: TokenCounter, max: int): (gs: seq<seq<string>>)
    requires |cur| >= 1
    ensures forall g :: g in gs ==> |g| >= 1
    ensures |gs| > 0 ==> |gs[0]| >= |cur| && gs[0][..|cur|] == cur
    decreases |rest|
  {
    if rest == [] then
      if IsBlank(Join(cur, " ")) then [] else [cur]
    else if SumTokens(cur, count) + count(rest[0]) > max && !IsBlank(Join(cur, " ")) then
      [cur] + PackUnits([rest[0]], rest[1..], count, max)
    else
      var gs := PackUnits(cur + [rest[0]], rest[1..], count, max);
      assert |gs| > 0 ==> gs[0][..|cur|] == gs[0][..|cur| + 1][..|cur|];
      gs
  }

  /** The chunk groups of the article path: the preamble opens the first chunk. */
  function ArticleGroups(split: ArticleSplit, count: TokenCounter): seq<seq<string>>
  {
    PackUnits([split.preamble], Units(split.articles), count, MaxChunkTokens)
  }

  // ---------------------------------------------------------------------
  // Sentence packing

  /** The sentence loop: `cur` is `current_chunk`. A sentence is joined with
      `". "` unless the joined text's token count passes `max`; then the open
      chunk (if non-empty) is emitted and the sentence opens the next one. */
  function PackSentences(cur: string, rest: seq<string>, count: TokenCounter, max: int): seq<string>
    decreases |rest|
  {
    if rest == [] then
      if IsBlank(cur) then [] else [cur]
    else
      var test := if cur != "" then cur + ". " + rest[0] else rest[0];
      if count(test) > max then
        (if cur != "" then [cur] else []) + PackSentences(rest[0], rest[1..], count, max)
      else
        PackSentences(test, rest[1..], count, max)
  }

  function Sentences(text: string): seq<string>
  {
    Split(text, ". ")
  }

  /** The raw (unstripped) chunk texts `chunk_text` emits, in order. */
  function RawChunks(split: ArticleSplit, count: TokenCounter): seq<string>
  {
    if |split.articles| > 0 then JoinEach(ArticleGroups(split, count))
    else PackSentences("", Sentences(split.preamble), count, MaxChunkTokens)
  }

  /** What `chunk_text` returns for a document. */
  function ChunkTextSpec(split: ArticleSplit, info: LawInfo, count: TokenCounter): seq<Chunk>
  {
    Stamp(RawChunks(split, count), info, count)
  }

  // ---------------------------------------------------------------------
  // The two loops

  lemma {:induction false} JoinAppend(us: seq<string>, u: string, sep: string)
    requires |us| >= 1
    ensures Join(us + [u], sep) == Join(us, sep) + sep + u
    decreases |us|
  {
    if |us| == 1 {
      assert (us + [u])[1..] == [u];
    } else {
      assert (us + [u])[1..] == us[1..] + [u];
      JoinAppend(us[1..], u, sep);
    }
  }

  /** One turn of the sentence loop, read off the specification. */
  lemma SentenceStep(cur: string, sentences: seq<string>, i: nat, count: TokenCounter, max: int)
    requires i < |sentences|
    ensures var test := if cur != "" then cur + ". " + sentences[i] else sentences[i];
      forall raws: seq<string> ::
        raws + PackSentences(cur, sentences[i..], count, max) ==
        if count(test) > max then
          (if cur != "" then raws + [cur] else raws) + PackSentences(sentences[i], sentences[i + 1..], count, max)
        else raws + PackSentences(test, sentences[i + 1..], count, max)
  {
    assert sentences[i..][0] == sentences[i] && sentences[i..][1..] == sentences[i + 1..];
  }

  /** `_chunk_by_sentences`. */
  method ChunkBySentences(text: string, info: LawInfo, count: TokenCounter) returns (chunks: seq<Chunk>)
    ensures chunks == Stamp(PackSentences("", Sentences(text), count, MaxChunkTokens), info, count)
  {
    var sentences := Split(text, ". ");
    chunks := [];
    var current := "";
    ghost var raws: seq<string> := [];
    ghost var goal := PackSentences("", sentences, count, MaxChunkTokens);
    var i := 0;
    assert sentences[i..] == sentences;
    while i < |sentences|
      invariant 0 <= i <= |sentences|
      invariant chunks == Stamp(raws, info, count)
      invariant raws + PackSentences(current, sentences[i..], count, MaxChunkTokens) == goal
    {
      var sentence := sentences[i];
      var test := if current != "" then current + ". " + sentence else sentence;
      SentenceStep(current, sentences, i, count, MaxChunkTokens);
      if count(test) > MaxChunkTokens {
        if current != "" {
          StampSnoc(raws, current, info, count);
          chunks := chunks + [CreateChunk(current, info, |chunks|, count)];
          raws := raws + [current];
        }
        current := sentence;
      } else {
        current := test;
      }
      i := i + 1;
    }
    assert sentences[i..] == [];
    if Strip(current) != "" {
      StampSnoc(raws, current, info, count);
      chunks := chunks + [CreateChunk(current, info, |chunks|, count)];
      raws := raws + [current];
    }
  }

  /** One turn of the article loop, read off the specification. */
  lemma UnitStep(cur: seq<string>, units: seq<string>, i: nat, count: TokenCounter, max: int)
    requires |cur| >= 1 && i < |units|
    ensures forall raws: seq<string> ::
      raws + JoinEach(PackUnits(cur, units[i..], count, max)) ==
      if SumTokens(cur, count) + count(units[i]) > max && !IsBlank(Join(cur, " ")) then
        (raws + [Join(cur, " ")]) + JoinEach(PackUnits([units[i]], units[i + 1..], count, max))
      else raws + JoinEach(PackUnits(cur + [units[i]], units[i + 1..], count, max))
  {
    assert units[i..][0] == units[i] && units[i..][1..] == units[i + 1..];
    var tail := PackUnits([units[i]], units[i + 1..], count, max);
    assert ([cur] + tail)[1..] == tail;
  }

  lemma SumTokensSnoc(us: seq<string>, u: string, count: TokenCounter)
    ensures SumTokens(us + [u], count) == SumTokens(us, count) + count(u)
  {
    assert (us + [u])[..|us|] == us;
  }

  /** Past the last unit, the open chunk is emitted unless it is blank. */
  lemma UnitsDone(cur: seq<string>, units: seq<string>, count: TokenCounter, raws: seq<string>, goal: seq<string>)
    requires |cur| >= 1
    requires raws + JoinEach(PackUnits(cur, units[|units|..], count, MaxChunkTokens)) == goal
    ensures IsBlank(Join(cur, " ")) ==> raws == goal
    ensures !IsBlank(Join(cur, " ")) ==> raws + [Join(cur, " ")] == goal
  {
    assert units[|units|..] == [];
  }

  /** The article loop of `chunk_text` (lines for a text with headers). */
  method ChunkByArticles(split: ArticleSplit, info: LawInfo, count: TokenCounter) returns (chunks: seq<Chunk>)
    requires |split.articles| > 0
    ensures chunks == Stamp(JoinEach(ArticleGroups(split, count)), info, count)
  {
    var current := split.preamble;
    var currentTokens := count(current);
    ghost var cur := [split.preamble];
    ghost var raws: seq<string> := [];
    ghost var units := Units(split.articles);
    ghost var goal := JoinEach(ArticleGroups(split, count));
    chunks := [];
    var i := 0;
    assert units[i..] == units;
    while i < |split.articles|
      invariant 0 <= i <= |split.articles|
      invariant |cur| >= 1 && current == Join(cur, " ") && currentTokens == SumTokens(cur, count)
      invariant chunks == Stamp(raws, info, count)
      invariant raws + JoinEach(PackUnits(cur, units[i..], count, MaxChunkTokens)) == goal
    {
      var content := Header(split.articles[i]) + " " + split.articles[i].body;
      var contentTokens := count(content);
      UnitStep(cur, units, i, count, MaxChunkTokens);
      if currentTokens + contentTokens > MaxChunkTokens && Strip(current) != "" {
        StampSnoc(raws, current, info, count);
        chunks := chunks + [CreateChunk(current, info, |chunks|, count)];
        raws := raws + [current];
        current := content;
        currentTokens := contentTokens;
        cur := [content];
      } else {
        JoinAppend(cur, content, " ");
        SumTokensSnoc(cur, content, count);
        current := current + " " + content;
        currentTokens := currentTokens + contentTokens;
        cur := cur + [content];
      }
      i := i + 1;
    }
    UnitsDone(cur, units, count, raws, goal);
    if Strip(current) != "" {
      StampSnoc(raws, current, info, count);
      chunks := chunks + [CreateChunk(current, info, |chunks|, count)];
      raws := raws + [current];
    }
  }

  /** `chunk_text`: articles when the text has headers, sentences otherwise. */
  method ChunkText(split: ArticleSplit, info: LawInfo, count: TokenCounter) returns (chunks: seq<Chunk>)
    ensures chunks == ChunkTextSpec(split, info, count)
  {
    if |split.articles| == 0 {
      chunks := ChunkBySentences(split.preamble, info, count);
    } else {
      chunks := ChunkByArticles(split, info, count);
    }
  }

  // ---------------------------------------------------------------------
  // Properties

  lemma BlankConcat(a: string, b: string)
    ensures IsBlank(a + b) <==> IsBlank(a) && IsBlank(b)
  {
    if IsBlank(a + b) {
      assert forall i :: 0 <= i < |a| ==> a[i] == (a + b)[i];
      assert forall i :: 0 <= i < |b| ==> b[i] == (a + b)[|a| + i];
    }
  }

  /** A blank join has only blank parts. */
  lemma {:induction false} JoinBlank(us: seq<string>, sep: string)
    requires IsBlank(Join(us, sep))
    ensures forall u :: u in us ==> IsBlank(u)
    decreases |us|
  {
    if |us| > 1 {
      BlankConcat(us[0] + sep, Join(us[1..], sep));
      BlankConcat(us[0], sep);
      JoinBlank(us[1..], sep);
      assert forall u :: u in us ==> u == us[0] || u in us[1..];
    }
  }

  lemma {:induction false} CountNonBlankZero(us: seq<string>)
    requires forall u :: u in us ==> IsBlank(u)
    ensures CountNonBlank(us) == 0
    decreases |us|
  {
    if us != [] {
      assert forall u :: u in us[..|us| - 1] ==> u in us;
      CountNonBlankZero(us[..|us| - 1]);
    }
  }

  lemma SingleUnitCount(u: string)
    ensures CountNonBlank([u]) <= 1
  {
    assert [u][..0] == [];
  }

  /** The ceiling of the article path: a chunk that holds two or more
      non-blank units has a token sum within `max`. Only a chunk with a single
      non-blank unit (one article, or the preamble) may exceed it. */
  lemma {:induction false} PackUnitsCeiling(cur: seq<string>, rest: seq<string>, count: TokenCounter, max: int)
    requires |cur| >= 1
    requires CountNonBlank(cur) >= 2 ==> SumTokens(cur, count) <= max
    ensures forall g :: g in PackUnits(cur, rest, count, max) ==>
      CountNonBlank(g) >= 2 ==> SumTokens(g, count) <= max
    decreases |rest|
  {
    if rest == [] {
    } else if SumTokens(cur, count) + count(rest[0]) > max && !IsBlank(Join(cur, " ")) {
      SingleUnitCount(rest[0]);
      PackUnitsCeiling([rest[0]], rest[1..], count, max);
      var gs := PackUnits([rest[0]], rest[1..], count, max);
      assert forall g :: g in [cur] + gs ==> g == cur || g in gs;
    } else {
      var next := cur + [rest[0]];
      assert next[..|cur|] == cur;
      if IsBlank(Join(cur, " ")) {
        JoinBlank(cur, " ");
        CountNonBlankZero(cur);
      }
      PackUnitsCeiling(next, rest[1..], count, max);
    }
  }

  /** Every chunk of the article path that joins two or more non-blank units
      stays within the 7000-token ceiling. */
  lemma ArticleChunkCeiling(split: ArticleSplit, count: TokenCounter, g: seq<string>)
    requires g in ArticleGroups(split, count)
    requires CountNonBlank(g) >= 2
    ensures SumTokens(g, count) <= MaxChunkTokens
  {
    var pre := [split.preamble];
    SingleUnitCount(split.preamble);
    PackUnitsCeiling(pre, Units(split.articles), count, MaxChunkTokens);
  }

  /** A chunk is closed only when the next unit would pass the ceiling and
      the chunk is not blank: consecutive chunks could not have been merged. */
  lemma {:induction false} PackUnitsGreedy(cur: seq<string>, rest: seq<string>, count: TokenCounter, max: int, i: nat)
    requires |cur| >= 1
    requires i + 1 < |PackUnits(cur, rest, count, max)|
    ensures var gs := PackUnits(cur, rest, count, max);
      SumTokens(gs[i], count) + count(gs[i + 1][0]) > max && !IsBlank(Join(gs[i], " "))
    decreases |rest|
  {
    assert rest != [];
    if SumTokens(cur, count) + count(rest[0]) > max && !IsBlank(Join(cur, " ")) {
      var tail := PackUnits([rest[0]], rest[1..], count, max);
      if i > 0 {
        PackUnitsGreedy([rest[0]], rest[1..], count, max, i - 1);
      } else {
        assert tail[0][..1] == [rest[0]];
      }
    } else {
      PackUnitsGreedy(cur + [rest[0]], rest[1..], count, max, i);
    }
  }

  lemma {:induction false} FlattenCons(g: seq<string>, gs: seq<seq<string>>)
    ensures Flatten([g] + gs) == g + Flatten(gs)
  {
    assert ([g] + gs)[1..] == gs;
  }

  /** No unit is lost or reordered: when the last unit is not blank, the
      chunks' units read in order are the open chunk followed by the rest. */
  lemma {:induction false} PackUnitsKeepsOrder(cur: seq<string>, rest: seq<string>, count: TokenCounter, max: int)
    requires |cur| >= 1 && |rest| >= 1 && !IsBlank(rest[|rest| - 1])
    ensures Flatten(PackUnits(cur, rest, count, max)) == cur + rest
    decreases |rest|
  {
    var u := rest[0];
    if SumTokens(cur, count) + count(u) > max && !IsBlank(Join(cur, " ")) {
      FlattenCons(cur, PackUnits([u], rest[1..], count, max));
      if |rest| == 1 {
        assert Join([u], " ") == u;
        FlattenCons([u], []);
      } else {
        PackUnitsKeepsOrder([u], rest[1..], count, max);
      }
      assert cur + ([u] + rest[1..]) == cur + rest;
    } else {
      if |rest| == 1 {
        var last := cur + [u];
        assert u in last;
        if IsBlank(Join(last, " ")) { JoinBlank(last, " "); }
        FlattenCons(last, []);
      } else {
        PackUnitsKeepsOrder(cur + [u], rest[1..], count, max);
      }
      assert (cur + [u]) + rest[1..] == cur + rest;
    }
  }

  /** On the article path every unit appears in some chunk, in source order,
      the preamble first: article headers are never blank. */
  lemma ArticleUnitsInOrder(split: ArticleSplit, count: TokenCounter)
    requires |split.articles| > 0
    ensures Flatten(ArticleGroups(split, count)) == [split.preamble] + Units(split.articles)
  {
    var us := Units(split.articles);
    var last := split.articles[|split.articles| - 1];
    assert Unit(last) == "MADDE" + (last.spacing + last.number + " " + last.body);
    BlankConcat("MADDE", last.spacing + last.number + " " + last.body);
    assert !IsSpace("MADDE"[0]);
    PackUnitsKeepsOrder([split.preamble], us, count, MaxChunkTokens);
  }

  /** The ceiling of the sentence path: every emitted text is non-empty and
      is either a single whole sentence (over-long sentences are never split)
      or within `max` tokens. */
  lemma {:induction false} PackSentencesCeiling(cur: string, rest: seq<string>, count: TokenCounter, max: int)
    ensures forall t :: t in PackSentences(cur, rest, count, max) ==>
      t != "" && (t == cur || t in rest || count(t) <= max)
    decreases |rest|
  {
    if rest != [] {
      var test := if cur != "" then cur + ". " + rest[0] else rest[0];
      if count(test) > max {
        PackSentencesCeiling(rest[0], rest[1..], count, max);
        var tail := PackSentences(rest[0], rest[1..], count, max);
        assert forall t :: t in tail ==> t == rest[0] || t in rest[1..] || count(t) <= max;
        assert forall t :: t in rest[1..] ==> t in rest;
      } else {
        PackSentencesCeiling(test, rest[1..], count, max);
        assert forall t :: t in rest[1..] ==> t in rest;
      }
    }
  }

  /** Sentence-path chunks: each one is a whole sentence of the text, or its
      unstripped text counts at most 7000 tokens. */
  lemma SentenceChunkCeiling(text: string, info: LawInfo, count: TokenCounter, c: Chunk)
    requires c in Stamp(PackSentences("", Sentences(text), count, MaxChunkTokens), info, count)
    ensures c.tokens <= MaxChunkTokens || exists s :: s in Sentences(text) && c.text == Strip(s)
  {
    var raws := PackSentences("", Sentences(text), count, MaxChunkTokens);
    PackSentencesCeiling("", Sentences(text), count, MaxChunkTokens);
    var i :| 0 <= i < |raws| && Stamp(raws, info, count)[i] == c;
    assert raws[i] in raws;
  }

  /** An empty or whitespace-only text yields no chunks. */
  lemma BlankTextNoChunks(split: ArticleSplit, info: LawInfo, count: TokenCounter)
    requires split.articles == [] && IsBlank(split.preamble)
    ensures ChunkTextSpec(split, info, count) == []
  {
    var text := split.preamble;
    NoPeriodInBlank(text);
    SplitNoSep(text, ". ");
    var none: seq<string> := [];
    assert PackSentences(text, none, count, MaxChunkTokens) == [];
    assert [text][1..] == none;
  }

  lemma NoPeriodInBlank(text: string)
    requires IsBlank(text)
    ensures forall i :: 0 <= i < |text| ==> text[i] != ". "[0]
  {
    assert ". "[0] == '.' && !IsSpace('.');
  }
}
