/** `LawMatcher` (utils/law_matcher.py): resolving law names against the
    dataset of full statute texts, and the summaries and the length-bounded
    combined text built from the resolved laws. The dataset is a parameter
    (reading the spreadsheet is I/O). A cell tells a column the sheet lacks
    from an empty cell, which pandas reads as `NaN`: indexing a missing
    column raises, `.get` gives its default, and an empty cell gives `NaN`
    either way. */
module LawMatcher {
  import opened Base
  import opened Text

  /** One cell of the sheet: its column is missing, it is empty (`NaN`),
      or it holds a value. */
  datatype Cell<T> = Absent | Blank | Filled(value: T)

  /** One dataset row, with the columns the matcher reads. */
  datatype LawRow = LawRow(
    mevAdi: Cell<string>,
    lawType: Cell<string>,
    mevzuatNo: Cell<string>,
    kabulTarih: Cell<string>,
    resmiGazeteTarihi: Cell<string>,
    resmiGazeteSayisi: Cell<string>,
    fullText: Cell<string>,
    textLength: Cell<int>,
    detailUrl: Cell<string>)

  /** The dictionary `find_law_by_name` returns; `None` stands for a `NaN`
      copied from an empty cell. */
  datatype LawRecord = LawRecord(
    lawName: string,
    lawType: Option<string>,
    lawNumber: Option<string>,
    acceptanceDate: Option<string>,
    gazetteDate: Option<string>,
    gazetteNumber: Option<string>,
    fullText: string,
    textLength: Option<int>,
    detailUrl: Option<string>)

  /** `row.get(column, default)`: the default for a missing column, `NaN`
      for an empty cell. */
  function CellOr<T>(c: Cell<T>, default: T): (r: Option<T>)
    ensures r.None? <==> c.Blank?
    ensures c.Absent? ==> r == Some(default)
    ensures c.Filled? ==> r == Some(c.value)
  {
    match c
    case Absent => Some(default)
    case Blank => None
    case Filled(v) => Some(v)
  }

  /** `v` is what `.get(column, default)` reads from the cell `c`: the
      cell's value, `NaN` for an empty cell, the default for a missing
      column. */
  predicate ReadAs<T(==)>(c: Cell<T>, v: Option<T>, default: T)
  {
    && (c.Filled? ==> v == Some(c.value))
    && (c.Blank? ==> v.None?)
    && (c.Absent? ==> v == Some(default))
  }

  /** `row[column]` on a column that exists: `NaN` for an empty cell. */
  function CellValue<T>(c: Cell<T>): Option<T>
    requires !c.Absent?
  {
    if c.Filled? then Some(c.value) else None
  }

  /** An f-string renders a `NaN` as `nan`. */
  function Render(v: Option<string>): string
  {
    if v.Some? then v.value else "nan"
  }

  /** `mevAdi.str.contains(needle, case=False, na=False)` for one row: a
      row without a name never matches. */
  predicate Matches(row: LawRow, needle: string)
  {
    row.mevAdi.Filled? && ContainsIgnoreCase(row.mevAdi.value, needle)
  }

  /** The first row at or after `from` whose name contains `needle`. */
  function FirstMatchFrom(rows: seq<LawRow>, needle: string, from: nat): (r: Option<nat>)
    ensures r.Some? ==> from <= r.value < |rows| && rows[r.value].mevAdi.Filled?
    decreases |rows| - from
  {
    if from >= |rows| then None
    else if Matches(rows[from], needle) then Some(from)
    else FirstMatchFrom(rows, needle, from + 1)
  }

  /** The row found matches and no earlier row from `from` on does; when
      none is found, no row from `from` on matches. */
  lemma {:induction false} FirstMatchFromMeaning(rows: seq<LawRow>, needle: string, from: nat)
    ensures var r := FirstMatchFrom(rows, needle, from);
      && (r.Some? ==> Matches(rows[r.value], needle))
      && (r.Some? ==> forall j :: from <= j < r.value ==> !Matches(rows[j], needle))
      && (r.None? ==> forall j :: from <= j < |rows| ==> !Matches(rows[j], needle))
    decreases |rows| - from
  {
    if from < |rows| && !Matches(rows[from], needle) {
      FirstMatchFromMeaning(rows, needle, from + 1);
    }
  }

  /** `df[...contains(needle)].iloc[0]`, as a row index. */
  function FirstMatch(rows: seq<LawRow>, needle: string): Option<nat>
  {
    FirstMatchFrom(rows, needle, 0)
  }

  /** The row `find_law_by_name` reads: the first row whose name contains
      the whole requested name, else the first row whose name contains its
      first word, else none (also when the name has no word, where
      `split()[0]` raises). */
  function Resolve(rows: seq<LawRow>, name: string): (r: Option<nat>)
    ensures r.Some? ==> r.value < |rows| && rows[r.value].mevAdi.Filled?
  {
    match FirstMatch(rows, name)
    case Some(i) => Some(i)
    case None =>
      match FirstWord(name)
      case None => None
      case Some(w) => FirstMatch(rows, w)
  }

  /** The record built from a matched row; `None` where building it
      raises: a missing `law_type` or `full_text` column, or an empty
      `full_text` cell, whose `NaN` has no `len` (the default of the
      `text_length` lookup is computed whether or not it is used). */
  function Build(row: LawRow): Option<LawRecord>
    requires row.mevAdi.Filled?
  {
    if row.lawType.Absent? || !row.fullText.Filled? then None
    else
      Some(LawRecord(
        lawName := row.mevAdi.value,
        lawType := CellValue(row.lawType),
        lawNumber := CellOr(row.mevzuatNo, ""),
        acceptanceDate := CellOr(row.kabulTarih, ""),
        gazetteDate := CellOr(row.resmiGazeteTarihi, ""),
        gazetteNumber := CellOr(row.resmiGazeteSayisi, ""),
        fullText := row.fullText.value,
        textLength := CellOr(row.textLength, |row.fullText.value|),
        detailUrl := CellOr(row.detailUrl, "")))
  }

  /** `find_law_by_name`. */
  function FindLawByName(rows: seq<LawRow>, name: string): Option<LawRecord>
  {
    match Resolve(rows, name)
    case None => None
    case Some(i) => Build(rows[i])
  }

  /** A law is found exactly when a row is read, the sheet has a
      `law_type` column and the row's `full_text` cell holds a text; the
      record carries that row's name, type and text, and every other
      column as `.get` reads it: the cell's value, `NaN` for an empty
      cell, and for a column the sheet lacks an empty string, or the
      text's length for `text_length`. */
  lemma FoundLawFields(rows: seq<LawRow>, name: string)
    ensures FindLawByName(rows, name).Some? <==>
      Resolve(rows, name).Some? &&
      !rows[Resolve(rows, name).value].lawType.Absent? && rows[Resolve(rows, name).value].fullText.Filled?
    ensures FindLawByName(rows, name).Some? ==>
      var row := rows[Resolve(rows, name).value];
      var law := FindLawByName(rows, name).value;
      && law.lawName == row.mevAdi.value
      && law.fullText == row.fullText.value
      && (law.lawType.None? <==> row.lawType.Blank?)
      && (row.lawType.Filled? ==> law.lawType == Some(row.lawType.value))
      && ReadAs(row.mevzuatNo, law.lawNumber, "")
      && ReadAs(row.kabulTarih, law.acceptanceDate, "")
      && ReadAs(row.resmiGazeteTarihi, law.gazetteDate, "")
      && ReadAs(row.resmiGazeteSayisi, law.gazetteNumber, "")
      && ReadAs(row.detailUrl, law.detailUrl, "")
      && ReadAs(row.textLength, law.textLength, |law.fullText|)
  {
  }

  // ---------------------------------------------------------------------
  // Properties of `find_law_by_name`

  /** When some row's name contains the requested name, the first such
      row, in dataset order, is the one read. */
  lemma ResolveExact(rows: seq<LawRow>, name: string, i: nat)
    requires i < |rows| && Matches(rows[i], name)
    ensures Resolve(rows, name).Some?
    ensures var k := Resolve(rows, name).value;
      k <= i && Matches(rows[k], name) && forall j :: 0 <= j < k ==> !Matches(rows[j], name)
  {
    FirstMatchFromMeaning(rows, name, 0);
  }

  /** Only when no row contains the whole name is the first word tried;
      with no word, or no row containing it, nothing is found. */
  lemma ResolveFallback(rows: seq<LawRow>, name: string)
    requires forall j :: 0 <= j < |rows| ==> !Matches(rows[j], name)
    ensures FirstWord(name).None? ==> Resolve(rows, name).None?
    ensures FirstWord(name).Some? ==> Resolve(rows, name) == FirstMatch(rows, FirstWord(name).value)
  {
    FirstMatchFromMeaning(rows, name, 0);
  }

  /** The name read always contains the requested name or its first word. */
  lemma ResolvedNameMatches(rows: seq<LawRow>, name: string)
    requires Resolve(rows, name).Some?
    ensures var row := rows[Resolve(rows, name).value];
      Matches(row, name) || (FirstWord(name).Some? && Matches(row, FirstWord(name).value))
  {
    FirstMatchFromMeaning(rows, name, 0);
    if FirstWord(name).Some? {
      FirstMatchFromMeaning(rows, FirstWord(name).value, 0);
    }
  }

  /** The fallback never finds less than the exact search: a row whose
      name contains the whole name also contains its first word, so the
      first-word search would also have found a row, at or before it. */
  lemma FallbackCoversExact(rows: seq<LawRow>, name: string, i: nat)
    requires i < |rows| && Matches(rows[i], name) && FirstWord(name).Some?
    ensures FirstMatch(rows, FirstWord(name).value).Some?
    ensures FirstMatch(rows, FirstWord(name).value).value <= i
  {
    ContainsFirstWord(rows[i].mevAdi.value, name);
    FirstMatchFromMeaning(rows, FirstWord(name).value, 0);
  }

  // ---------------------------------------------------------------------
  // `find_multiple_laws` and `get_laws_summary`

  /** The answer to each request, in request order. */
  function Lookups(rows: seq<LawRow>, names: seq<string>): (r: seq<Option<LawRecord>>)
    ensures |r| == |names|
  {
    seq(|names|, i requires 0 <= i < |names| => FindLawByName(rows, names[i]))
  }

  /** The records among the first `n` answers, in order; requests that
      found nothing are dropped. */
  function Found(answers: seq<Option<LawRecord>>, n: nat): (laws: seq<LawRecord>)
    requires n <= |answers|
    ensures |laws| <= n
  {
    if n == 0 then []
    else if answers[n - 1].Some? then Found(answers, n - 1) + [answers[n - 1].value]
    else Found(answers, n - 1)
  }

  /** The laws `find_multiple_laws` returns for `names`. */
  function ResolveAll(rows: seq<LawRow>, names: seq<string>): (laws: seq<LawRecord>)
    ensures |laws| <= |names|
  {
    Found(Lookups(rows, names), |names|)
  }

  /** `find_multiple_laws`. */
  method FindMultipleLaws(rows: seq<LawRow>, names: seq<string>) returns (results: seq<LawRecord>)
    ensures results == ResolveAll(rows, names)
  {
    ghost var answers := Lookups(rows, names);
    results := [];
    var i := 0;
    while i < |names|
      invariant 0 <= i <= |names|
      invariant results == Found(answers, i)
    {
      var lawData := FindLawByName(rows, names[i]);
      FoundStep(rows, names, i);
      if lawData.Some? {
        results := results + [lawData.value];
      }
      i := i + 1;
    }
  }

  /** One more request adds its law, if it found one. */
  lemma FoundStep(rows: seq<LawRow>, names: seq<string>, i: nat)
    requires i < |names|
    ensures var answers, law := Lookups(rows, names), FindLawByName(rows, names[i]);
      && answers[i] == law
      && (law.Some? ==> Found(answers, i + 1) == Found(answers, i) + [law.value])
      && (law.None? ==> Found(answers, i + 1) == Found(answers, i))
  {
  }

  /** Each name is resolved on its own: resolving a concatenation of
      requests concatenates the resolutions. */
  lemma ResolveAllAppend(rows: seq<LawRow>, a: seq<string>, b: seq<string>)
    ensures ResolveAll(rows, a + b) == ResolveAll(rows, a) + ResolveAll(rows, b)
  {
    var la, lb := Lookups(rows, a), Lookups(rows, b);
    LookupsAppend(rows, a, b);
    FoundPrefix(la, lb, |la|);
    FoundAppend(la, lb, |lb|);
  }

  lemma LookupsAppend(rows: seq<LawRow>, a: seq<string>, b: seq<string>)
    ensures Lookups(rows, a + b) == Lookups(rows, a) + Lookups(rows, b)
  {
    var l, la, lb := Lookups(rows, a + b), Lookups(rows, a), Lookups(rows, b);
    forall i | 0 <= i < |l| ensures l[i] == (la + lb)[i] {
      if i < |a| {
        assert (a + b)[i] == a[i];
      } else {
        assert (a + b)[i] == b[i - |a|];
      }
    }
  }

  lemma {:induction false} FoundPrefix(a: seq<Option<LawRecord>>, b: seq<Option<LawRecord>>, n: nat)
    requires n <= |a|
    ensures Found(a + b, n) == Found(a, n)
    decreases n
  {
    if n > 0 {
      assert (a + b)[n - 1] == a[n - 1];
      FoundPrefix(a, b, n - 1);
    }
  }

  lemma {:induction false} FoundAppend(a: seq<Option<LawRecord>>, b: seq<Option<LawRecord>>, k: nat)
    requires k <= |b|
    requires Found(a + b, |a|) == Found(a, |a|)
    ensures Found(a + b, |a| + k) == Found(a, |a|) + Found(b, k)
    decreases k
  {
    if k > 0 {
      assert (a + b)[|a| + k - 1] == b[k - 1];
      FoundAppend(a, b, k - 1);
    }
  }

  /** The kept records are the answers that found something, in order:
      `idx` lists, increasing, the request each record answers, and every
      request left out found nothing. */
  lemma {:induction false} FoundSources(answers: seq<Option<LawRecord>>, n: nat) returns (idx: seq<nat>)
    requires n <= |answers|
    ensures |idx| == |Found(answers, n)|
    ensures forall i :: 0 <= i < |idx| ==> idx[i] < n && answers[idx[i]] == Some(Found(answers, n)[i])
    ensures forall i, j :: 0 <= i < j < |idx| ==> idx[i] < idx[j]
    ensures forall k :: 0 <= k < n && k !in idx ==> answers[k].None?
    decreases n
  {
    if n == 0 {
      idx := [];
    } else {
      var prev := FoundSources(answers, n - 1);
      if answers[n - 1].Some? {
        idx := prev + [n - 1];
        assert forall i :: 0 <= i < |prev| ==> idx[i] == prev[i];
        forall k | 0 <= k < n && k !in idx ensures answers[k].None? {
          assert k !in prev && k != n - 1;
        }
      } else {
        idx := prev;
      }
    }
  }

  /** `find_multiple_laws` returns, in request order, exactly the laws of
      the requests that resolve: `idx` names the request behind each result,
      and every request with no result resolves to nothing. */
  lemma ResolveAllSources(rows: seq<LawRow>, names: seq<string>) returns (idx: seq<nat>)
    ensures |idx| == |ResolveAll(rows, names)|
    ensures forall i :: 0 <= i < |idx| ==>
      idx[i] < |names| && FindLawByName(rows, names[idx[i]]) == Some(ResolveAll(rows, names)[i])
    ensures forall i, j :: 0 <= i < j < |idx| ==> idx[i] < idx[j]
    ensures forall k :: 0 <= k < |names| && k !in idx ==> FindLawByName(rows, names[k]).None?
  {
    idx := FoundSources(Lookups(rows, names), |names|);
  }

  /** The summary `get_laws_summary` gives of a law. */
  datatype LawSummary = LawSummary(
    lawName: string,
    lawType: Option<string>,
    lawNumber: Option<string>,
    acceptanceDate: Option<string>,
    textPreview: string)

  const PreviewLength: nat := 200

  function Summarize(law: LawRecord): LawSummary
  {
    LawSummary(law.lawName, law.lawType, law.lawNumber, law.acceptanceDate,
               Ellipsize(law.fullText, PreviewLength))
  }

  /** `results` summarizes, in order, the laws resolved from the first `i`
      names. */
  predicate SummarizedSoFar(rows: seq<LawRow>, names: seq<string>, i: nat, results: seq<LawSummary>)
    requires i <= |names|
  {
    var laws := Found(Lookups(rows, names), i);
    |results| == |laws| && forall k :: 0 <= k < |results| ==> results[k] == Summarize(laws[k])
  }

  /** `get_laws_summary`. */
  method GetLawsSummary(rows: seq<LawRow>, names: seq<string>) returns (results: seq<LawSummary>)
    ensures |results| == |ResolveAll(rows, names)|
    ensures forall i :: 0 <= i < |results| ==> results[i] == Summarize(ResolveAll(rows, names)[i])
  {
    results := [];
    var i := 0;
    while i < |names|
      invariant 0 <= i <= |names|
      invariant SummarizedSoFar(rows, names, i, results)
    {
      var lawData := FindLawByName(rows, names[i]);
      SummaryStep(rows, names, i, results);
      if lawData.Some? {
        var law := lawData.value;
        var preview := Ellipsize(law.fullText, PreviewLength);
        results := results + [LawSummary(law.lawName, law.lawType, law.lawNumber, law.acceptanceDate, preview)];
      }
      i := i + 1;
    }
  }

  /** One more name adds the summary of its law, if it resolves. */
  lemma SummaryStep(rows: seq<LawRow>, names: seq<string>, i: nat, results: seq<LawSummary>)
    requires i < |names| && SummarizedSoFar(rows, names, i, results)
    ensures var law := FindLawByName(rows, names[i]);
      && (law.Some? ==> SummarizedSoFar(rows, names, i + 1, results + [Summarize(law.value)]))
      && (law.None? ==> SummarizedSoFar(rows, names, i + 1, results))
  {
    FoundStep(rows, names, i);
  }

  /** A preview is the whole text up to 200 characters, and otherwise the
      first 200 characters followed by `...`. */
  lemma SummaryPreview(law: LawRecord)
    ensures var p := Summarize(law).textPreview;
      && (|law.fullText| <= 200 ==> p == law.fullText)
      && (|law.fullText| > 200 ==> |p| == 203 && p[..200] == law.fullText[..200] && p[200..] == "...")
  {
  }

  // ---------------------------------------------------------------------
  // `get_combined_law_text`

  /** The header that opens a law's section: the title line, then the law
      number, the acceptance date and the type, each on its own line. */
  function Header(law: LawRecord): string
  {
    Cat(HeaderPieces(law))
  }

  /** The title line, then the number, date and type lines; a missing
      (`NaN`) value shows as `nan`. */
  function HeaderPieces(law: LawRecord): seq<string>
  {
    [TitleOpen, law.lawName, TitleClose,
     NumberLabel, Render(law.lawNumber), "\n",
     DateLabel, Render(law.acceptanceDate), "\n",
     TypeLabel, Render(law.lawType), "\n\n"]
  }

  /** The pieces, one after the other. */
  function Cat(pieces: seq<string>): string
    decreases |pieces|
  {
    if pieces == [] then "" else Cat(pieces[..|pieces| - 1]) + pieces[|pieces| - 1]
  }

  const TitleOpen: string := "\n\n=== "
  const TitleClose: string := " ===\n"
  const NumberLabel: string := "Kanun No: "
  const DateLabel: string := "Kabul Tarihi: "
  const TypeLabel: string := "Türü: "

  /** `"\n" + "=" * 50`, the rule that closes a whole section. */
  function Rule(): (r: string)
    ensures |r| == 51
  {
    "\n" + Repeat('=', 50)
  }

  /** A law's whole section. */
  function Section(law: LawRecord): string
  {
    Cat([Header(law), law.fullText, Rule()])
  }

  const TruncationMarker: string := "...\n[Metin kısaltıldı]"

  /** The whole section of each law, in order. */
  function Sections(laws: seq<LawRecord>): (secs: seq<string>)
    ensures |secs| == |laws|
  {
    seq(|laws|, i requires 0 <= i < |laws| => Section(laws[i]))
  }

  /** The first `k` sections, one after the other. */
  function Joined(secs: seq<string>, k: nat): string
    requires k <= |secs|
  {
    if k == 0 then "" else Joined(secs, k - 1) + secs[k - 1]
  }

  /** How many whole sections are kept, counting on from `k`: the loop
      goes on while the text with the next section still fits in `max`. */
  function FitFrom(secs: seq<string>, max: int, k: nat): (n: nat)
    requires k <= |secs|
    ensures k <= n <= |secs|
    decreases |secs| - k
  {
    if k < |secs| && |Joined(secs, k + 1)| <= max then FitFrom(secs, max, k + 1) else k
  }

  /** The first piece of `section.split('\n\n')`. */
  function LeadPiece(section: string): string
  {
    Split(section, "\n\n")[0]
  }

  /** What replaces the first section that does not fit after `acc`: the
      header, the first `remaining` characters of the text and the marker,
      when more than 200 characters remain; nothing otherwise. */
  function Tail(acc: string, law: LawRecord, max: int): string
  {
    var remaining := max - |acc| - |LeadPiece(Section(law))| - 100;
    if remaining > 200 then Truncated(law, remaining) else ""
  }

  /** A law's section cut to its header, the first `remaining` characters
      of its text and the truncation marker, with no closing rule. */
  function Truncated(law: LawRecord, remaining: int): string
    requires remaining >= 0
  {
    Header(law) + law.fullText[..Min(remaining, |law.fullText|)] + TruncationMarker
  }

  /** The text `get_combined_law_text` returns for the resolved `laws`. */
  function CombinedText(laws: seq<LawRecord>, max: int): string
  {
    var secs := Sections(laws);
    var k := FitFrom(secs, max, 0);
    var whole := Joined(secs, k);
    if k == |laws| then whole else whole + Tail(whole, laws[k], max)
  }

  /** `get_combined_law_text` for the laws `find_multiple_laws` resolved. */
  method CombineLaws(laws: seq<LawRecord>, maxLength: int) returns (combined: string)
    ensures combined == CombinedText(laws, maxLength)
  {
    var i;
    combined, i := KeepWhole(Sections(laws), maxLength);
    if i < |laws| {
      combined := CombineOverflow(laws, maxLength, i, combined);
    } else {
      CombineDone(laws, maxLength);
    }
  }

  /** The loop of `get_combined_law_text` while whole sections fit: it
      stops at the end of the sections or at the first one that would
      make the text longer than `maxLength`. */
  method KeepWhole(secs: seq<string>, maxLength: int) returns (combined: string, i: nat)
    ensures i == FitFrom(secs, maxLength, 0)
    ensures combined == Joined(secs, i)
    ensures i < |secs| ==> |combined + secs[i]| > maxLength
  {
    combined := "";
    i := 0;
    while i < |secs|
      invariant 0 <= i <= |secs|
      invariant combined == Joined(secs, i)
      invariant FitFrom(secs, maxLength, i) == FitFrom(secs, maxLength, 0)
    {
      var section := secs[i];
      if |combined + section| > maxLength {
        assert FitFrom(secs, maxLength, i) == i;
        return;
      }
      CombineStep(secs, maxLength, i);
      combined := combined + section;
      i := i + 1;
    }
  }

  /** When the loop runs out of laws, every section was kept whole. */
  lemma CombineDone(laws: seq<LawRecord>, max: int)
    requires FitFrom(Sections(laws), max, 0) == |laws|
    ensures CombinedText(laws, max) == Joined(Sections(laws), |laws|)
  {
  }

  /** A section that fits is kept whole, and the count of kept sections
      is unchanged from the next one on. */
  lemma CombineStep(secs: seq<string>, max: int, i: nat)
    requires i < |secs|
    requires FitFrom(secs, max, i) == FitFrom(secs, max, 0)
    requires |Joined(secs, i) + secs[i]| <= max
    ensures Joined(secs, i + 1) == Joined(secs, i) + secs[i]
    ensures FitFrom(secs, max, i + 1) == FitFrom(secs, max, 0)
  {
  }

  /** Where the loop stops at a section that does not fit: the text so far,
      then the truncated section when more than 200 characters remain. */
  method CombineOverflow(laws: seq<LawRecord>, maxLength: int, i: nat, kept: string) returns (combined: string)
    requires i < |laws| && kept == Joined(Sections(laws), i)
    requires FitFrom(Sections(laws), maxLength, i) == FitFrom(Sections(laws), maxLength, 0)
    requires |kept + Section(laws[i])| > maxLength
    ensures combined == CombinedText(laws, maxLength)
  {
    assert FitFrom(Sections(laws), maxLength, i) == i;
    var law := laws[i];
    var section := Section(law);
    var remaining := maxLength - |kept| - |LeadPiece(section)| - 100;
    combined := kept;
    if remaining > 200 {
      section := Truncated(law, remaining);
      combined := combined + section;
    }
  }

  /** `get_combined_law_text`. */
  method GetCombinedLawText(rows: seq<LawRow>, names: seq<string>, maxLength: int) returns (combined: string)
    ensures combined == CombinedText(ResolveAll(rows, names), maxLength)
  {
    var laws := FindMultipleLaws(rows, names);
    combined := CombineLaws(laws, maxLength);
  }

  // ---------------------------------------------------------------------
  // Properties of the combined text

  /** Every section starts with `"\n\n"`, so the first piece of its split,
      which the room computation subtracts, is always empty. */
  lemma LeadPieceEmpty(law: LawRecord)
    ensures LeadPiece(Section(law)) == ""
  {
    var s := Section(law);
    CatStarts(HeaderPieces(law));
    CatStarts([Header(law), law.fullText, Rule()]);
    assert s[..2] == TitleOpen[..2] == "\n\n";
    SplitLeadingSep(s, "\n\n");
  }

  /** The pieces joined start with the first piece. */
  lemma {:induction false} CatStarts(pieces: seq<string>)
    requires pieces != []
    ensures pieces[0] <= Cat(pieces)
    decreases |pieces|
  {
    var front := pieces[..|pieces| - 1];
    if front != [] {
      CatStarts(front);
      assert front[0] == pieces[0];
    }
  }

  /** What the count of kept sections means: all kept sections fit, and
      one more would not. */
  lemma {:induction false} FitFromBounds(secs: seq<string>, max: int, k: nat)
    requires k <= |secs|
    ensures var n := FitFrom(secs, max, k);
      && (n > k ==> |Joined(secs, n)| <= max)
      && (n < |secs| ==> |Joined(secs, n + 1)| > max)
    decreases |secs| - k
  {
    if k < |secs| && |Joined(secs, k + 1)| <= max {
      FitFromBounds(secs, max, k + 1);
    }
  }

  /** More sections join to a longer text. */
  lemma {:induction false} JoinedGrows(secs: seq<string>, j: nat, k: nat)
    requires j <= k <= |secs|
    ensures |Joined(secs, j)| <= |Joined(secs, k)|
    decreases k - j
  {
    if j < k {
      JoinedGrows(secs, j, k - 1);
    }
  }

  /** With no resolved law the combined text is empty. */
  lemma CombinedNoLaws(max: int)
    ensures CombinedText([], max) == ""
  {
  }

  /** When all sections join within `max`, every section fits. */
  lemma {:induction false} AllSectionsFit(secs: seq<string>, max: int)
    requires |Joined(secs, |secs|)| <= max
    ensures FitFrom(secs, max, 0) == |secs|
  {
    var n := FitFrom(secs, max, 0);
    FitFromBounds(secs, max, 0);
    if n < |secs| {
      JoinedGrows(secs, n + 1, |secs|);
    }
  }

  /** When all whole sections fit, the combined text is all of them. */
  lemma {:induction false} CombinedAllFit(laws: seq<LawRecord>, max: int)
    requires |Joined(Sections(laws), |laws|)| <= max
    ensures CombinedText(laws, max) == Joined(Sections(laws), |laws|)
  {
    AllSectionsFit(Sections(laws), max);
  }

  /** The combined text is the whole sections of the first laws, in order,
      then either nothing or the one truncated section of the next law;
      later laws never appear. Its length is within `max` (or 0), except
      that a truncated section may pass `max - 100` by its header and the
      marker. */
  lemma CombinedLength(laws: seq<LawRecord>, max: int)
    ensures var r := CombinedText(laws, max); var n := FitFrom(Sections(laws), max, 0);
      && (n == |laws| ==> |r| <= Max(max, 0))
      && (n < |laws| ==>
            |r| <= Max(max, 0) || |r| <= max - 100 + |Header(laws[n])| + |TruncationMarker|)
  {
    var n := FitFrom(Sections(laws), max, 0);
    FitFromBounds(Sections(laws), max, 0);
    if n < |laws| {
      LeadPieceEmpty(laws[n]);
    }
  }

  /** With a limit of 300 or less, a first section that does not fit
      leaves the combined text empty: the room left for the truncated
      text is at most 200. */
  lemma CombinedSmallLimit(laws: seq<LawRecord>, max: int)
    requires laws != [] && |Section(laws[0])| > max && max <= 300
    ensures CombinedText(laws, max) == ""
  {
    LeadPieceEmpty(laws[0]);
  }
}
