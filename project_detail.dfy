/**
 * The project detail screen: the Drive-refactor warning, the preview table's
 * headers, the AHP ranking of scored records, the two CSV exports, and the
 * state driven by the run, preview, AHP and upsert buttons.
 */
module ProjectDetail {
  import opened Wrappers
  import opened Text
  import opened Json
  import opened Types
  import App
  import Service

  // ------------------------------------------------------------ refactor warning

  /** The warning shown when Drive export is on but the spider has no Drive pipeline. */
  predicate NeedsRefactor(p: ScrapingProject)
  {
    p.googleDriveEnabled == Some(true)
    && !Contains(p.spiderCode, "GoogleDrivePipeline") && !Contains(p.spiderCode, "pydrive2")
  }

  /** Turning Drive off, or saving code that mentions either Drive library, clears the warning;
      turning Drive on for code without them raises it. */
  lemma RefactorWarningFollowsEdits(p: ScrapingProject, code: string)
    ensures !NeedsRefactor(App.Apply(p, App.SetDrive(false)))
    ensures Contains(code, "GoogleDrivePipeline") || Contains(code, "pydrive2") ==>
      !NeedsRefactor(App.Apply(p, App.SetCode(code)))
    ensures !Contains(p.spiderCode, "GoogleDrivePipeline") && !Contains(p.spiderCode, "pydrive2") ==>
      NeedsRefactor(App.Apply(p, App.SetDrive(true)))
    ensures NeedsRefactor(p) ==> p.googleDriveEnabled == Some(true)
  {
  }

  // ------------------------------------------------------------ table headers

  /** `Object.keys(row)`: only objects have own enumerable keys here. */
  function RowKeys(row: Json): seq<string>
  {
    if row.JObj? then Keys(row.members) else []
  }

  /** Every key of every row, row by row. */
  function AllKeys(rows: seq<Json>): seq<string>
    decreases |rows|
  {
    if rows == [] then [] else AllKeys(rows[..|rows| - 1]) + RowKeys(rows[|rows| - 1])
  }

  /** Adding keys to a `Set` one by one: first occurrences only, in the order they were first seen. */
  function Dedup(ks: seq<string>): seq<string>
    decreases |ks|
  {
    if ks == [] then []
    else
      var d := Dedup(ks[..|ks| - 1]);
      if ks[|ks| - 1] in d then d else d + [ks[|ks| - 1]]
  }

  /** The de-duplicated keys are exactly the keys seen, each once. */
  lemma {:induction false} DedupProperties(ks: seq<string>)
    ensures forall k :: k in Dedup(ks) <==> k in ks
    ensures forall i, j | 0 <= i < j < |Dedup(ks)| :: Dedup(ks)[i] != Dedup(ks)[j]
    decreases |ks|
  {
    if ks != [] {
      var init := ks[..|ks| - 1];
      DedupProperties(init);
      assert ks == init + [ks[|ks| - 1]];
    }
  }

  lemma AllKeysStep(rows: seq<Json>, i: nat)
    requires i < |rows|
    ensures AllKeys(rows[..i + 1]) == AllKeys(rows[..i]) + RowKeys(rows[i])
  {
    assert rows[..i + 1][..i] == rows[..i];
  }

  lemma {:induction false} AllKeysMembers(rows: seq<Json>, k: string)
    ensures k in AllKeys(rows) <==> exists r | r in rows :: k in RowKeys(r)
    decreases |rows|
  {
    if rows != [] {
      var init := rows[..|rows| - 1];
      AllKeysMembers(init, k);
      assert rows == init + [rows[|rows| - 1]];
      assert forall r | r in rows :: r in init || r == rows[|rows| - 1];
    }
  }

  /** The `headers` memo: the keys of all preview rows, each once, in first-seen order. */
  method Headers(rows: seq<Json>) returns (hs: seq<string>)
    ensures hs == Dedup(AllKeys(rows))
    ensures rows == [] ==> hs == []
    ensures forall k :: k in hs <==> exists r | r in rows :: k in RowKeys(r)
    ensures forall i, j | 0 <= i < j < |hs| :: hs[i] != hs[j]
  {
    hs := [];
    if rows == [] {
      return;
    }
    for i := 0 to |rows|
      invariant hs == Dedup(AllKeys(rows[..i]))
    {
      var ks := RowKeys(rows[i]);
      assert AllKeys(rows[..i]) + ks[..0] == AllKeys(rows[..i]);
      for j := 0 to |ks|
        invariant hs == Dedup(AllKeys(rows[..i]) + ks[..j])
      {
        var seen := AllKeys(rows[..i]) + ks[..j];
        assert seen + [ks[j]] == AllKeys(rows[..i]) + ks[..j + 1];
        assert (seen + [ks[j]])[..|seen|] == seen;
        if ks[j] !in hs {
          hs := hs + [ks[j]];
        }
      }
      assert ks[..|ks|] == ks;
      AllKeysStep(rows, i);
    }
    assert rows[..|rows|] == rows;
    DedupProperties(AllKeys(rows));
    AllKeysMembers(rows, "");
    forall k
      ensures k in hs <==> exists r | r in rows :: k in RowKeys(r)
    {
      AllKeysMembers(rows, k);
    }
  }

  // ------------------------------------------------------------ AHP ranking

  /** One element of the scores array: its `id` property (if any) and its numeric `score`. */
  datatype ScoreEntry = ScoreEntry(id: Option<Json>, score: real, reasoning: Option<Json>)

  /** `{ ...s, asset: originalAsset }`. */
  datatype Ranked = Ranked(entry: ScoreEntry, asset: Option<Json>)

  /** `a === b` for property reads of two separately parsed values: absent matches absent,
      primitives match by value, and objects or arrays from different parses never match. */
  predicate StrictEquals(a: Option<Json>, b: Option<Json>)
  {
    if a.None? || b.None? then a.None? && b.None?
    else !a.value.JArr? && !a.value.JObj? && a.value == b.value
  }

  /** `data.find(d => d.property_id === id)`. */
  function FindAsset(data: seq<Json>, id: Option<Json>): (r: Option<Json>)
    ensures r.Some? <==> exists d | d in data :: StrictEquals(Get(d, "property_id"), id)
    ensures r.Some? ==> exists k | 0 <= k < |data| ::
      data[k] == r.value
      && StrictEquals(Get(r.value, "property_id"), id)
      && forall j | 0 <= j < k :: !StrictEquals(Get(data[j], "property_id"), id)
  {
    if data == [] then None
    else if StrictEquals(Get(data[0], "property_id"), id) then Some(data[0])
    else
      var r := FindAsset(data[1..], id);
      if r.Some? then
        var k :| 0 <= k < |data[1..]| && data[1..][k] == r.value
          && StrictEquals(Get(r.value, "property_id"), id)
          && forall j | 0 <= j < k :: !StrictEquals(Get(data[1..][j], "property_id"), id);
        assert data[k + 1] == r.value;
        r
      else
        assert forall d | d in data :: d == data[0] || d in data[1..];
        r
  }

  /** `scores.map(s => ({ ...s, asset: data.find(...) }))`. */
  function AttachAssets(scores: seq<ScoreEntry>, data: seq<Json>): (r: seq<Ranked>)
    ensures |r| == |scores|
    ensures forall i | 0 <= i < |r| :: r[i].entry == scores[i] && r[i].asset == FindAsset(data, scores[i].id)
  {
    seq(|scores|, i requires 0 <= i < |scores| => Ranked(scores[i], FindAsset(data, scores[i].id)))
  }

  /** Ordered by score, highest first. */
  predicate NonIncreasing(rs: seq<Ranked>)
  {
    forall i, j | 0 <= i < j < |rs| :: rs[i].entry.score >= rs[j].entry.score
  }

  /** Places `x` before the first entry whose score is not higher than its own. `SortByScore` inserts
      each element into the already sorted elements after it, so an element goes before the later ones
      of equal score, which keeps the sort stable. */
  function Insert(x: Ranked, sorted: seq<Ranked>): (r: seq<Ranked>)
    requires NonIncreasing(sorted)
    ensures NonIncreasing(r)
    ensures multiset(r) == multiset(sorted) + multiset{x}
    decreases |sorted|
  {
    if sorted == [] || x.entry.score >= sorted[0].entry.score then
      HeadIsMax(sorted);
      [x] + sorted
    else
      var rest := Insert(x, sorted[1..]);
      assert sorted == [sorted[0]] + sorted[1..];
      HeadIsMax(sorted);
      forall y | y in rest
        ensures y.entry.score <= sorted[0].entry.score
      {
        assert y in multiset(rest);
        if y != x {
          assert y in multiset(sorted[1..]);
        }
      }
      [sorted[0]] + rest
  }

  /** In a list ordered by score, the first entry has the highest score. */
  lemma HeadIsMax(sorted: seq<Ranked>)
    requires NonIncreasing(sorted)
    ensures forall y | y in sorted :: y.entry.score <= sorted[0].entry.score
  {
    forall y | y in sorted
      ensures y.entry.score <= sorted[0].entry.score
    {
      var k :| 0 <= k < |sorted| && sorted[k] == y;
      if k > 0 {
        assert sorted[0].entry.score >= sorted[k].entry.score;
      }
    }
  }

  /** `.sort((a, b) => b.score - a.score)`, a stable sort by descending score. */
  function SortByScore(rs: seq<Ranked>): (r: seq<Ranked>)
    ensures NonIncreasing(r)
    ensures multiset(r) == multiset(rs)
    ensures |r| == |rs|
    decreases |rs|
  {
    if rs == [] then []
    else
      assert rs == [rs[0]] + rs[1..];
      Insert(rs[0], SortByScore(rs[1..]))
  }

  /** The ranking shown after an AHP run. */
  function RankAssets(scores: seq<ScoreEntry>, data: seq<Json>): seq<Ranked>
  {
    SortByScore(AttachAssets(scores, data))
  }

  /** One ranked entry per score, each paired with the first record carrying its id, highest score first. */
  lemma RankingShape(scores: seq<ScoreEntry>, data: seq<Json>)
    ensures var r := RankAssets(scores, data);
      && |r| == |scores|
      && NonIncreasing(r)
      && multiset(r) == multiset(AttachAssets(scores, data))
      && (forall x | x in r :: x.asset == FindAsset(data, x.entry.id))
      && (forall i | 0 <= i < |scores| :: exists x | x in r :: x.entry == scores[i])
  {
    var a := AttachAssets(scores, data);
    var r := RankAssets(scores, data);
    forall x | x in r
      ensures x.asset == FindAsset(data, x.entry.id)
    {
      assert x in multiset(a);
    }
    forall i | 0 <= i < |scores|
      ensures exists x | x in r :: x.entry == scores[i]
    {
      assert a[i] in multiset(r);
    }
  }

  // ------------------------------------------------------------ CSV exports

  /** `s.replace(/"/g, '""')`. */
  function DoubleQuotes(s: string): (r: string)
    ensures |r| >= |s|
    decreases |s|
  {
    if s == [] then "" else (if s[0] == '"' then "\"\"" else [s[0]]) + DoubleQuotes(s[1..])
  }

  /** A field enclosed in double quotes with inner quotes doubled (section 2, rules 6 and 7, of RFC 4180). */
  function QuoteField(s: string): string
  {
    "\"" + DoubleQuotes(s) + "\""
  }

  /** Reads the inside of a quoted field: a doubled quote is one quote, a lone quote ends the field early (an error). */
  function Undouble(t: string): Option<string>
    decreases |t|
  {
    if t == [] then Some("")
    else if t[0] == '"' then
      if |t| >= 2 && t[1] == '"' then
        match Undouble(t[2..]) case Some(u) => Some("\"" + u) case None => None
      else None
    else
      match Undouble(t[1..]) case Some(u) => Some([t[0]] + u) case None => None
  }

  /** Reads a whole quoted field as a CSV reader following RFC 4180 would. */
  function UnquoteField(t: string): Option<string>
  {
    if |t| >= 2 && t[0] == '"' && t[|t| - 1] == '"' then Undouble(t[1..|t| - 1]) else None
  }

  /** A quoted field reads back as the original text, whatever quotes, commas or newlines it holds. */
  lemma {:induction false} QuoteFieldRoundTrip(s: string)
    ensures UnquoteField(QuoteField(s)) == Some(s)
  {
    var q := QuoteField(s);
    assert q[1..|q| - 1] == DoubleQuotes(s);
    UndoubleRoundTrip(s);
  }

  lemma {:induction false} UndoubleRoundTrip(s: string)
    ensures Undouble(DoubleQuotes(s)) == Some(s)
    decreases |s|
  {
    if s != [] {
      UndoubleRoundTrip(s[1..]);
      var d := DoubleQuotes(s);
      if s[0] == '"' {
        assert d[2..] == DoubleQuotes(s[1..]);
      } else {
        assert d[1..] == DoubleQuotes(s[1..]);
      }
      assert [s[0]] + s[1..] == s;
    }
  }

  const CodeCsvHeader := "Project ID,Project Name,Spider Code\n"

  /** The spider-code export: a header line, then id, name and the quoted code. */
  function CodeCsv(p: ScrapingProject): (csv: string)
    ensures StartsWith(csv, CodeCsvHeader)
  {
    CodeCsvHeader + p.id + "," + p.name + "," + QuoteField(p.spiderCode)
  }

  /** The exported code field reads back as the spider code exactly. */
  lemma CodeCsvKeepsCode(p: ScrapingProject)
    ensures var csv := CodeCsv(p);
      var prefix := CodeCsvHeader + p.id + "," + p.name + ",";
      && csv[..|prefix|] == prefix
      && UnquoteField(csv[|prefix|..]) == Some(p.spiderCode)
  {
    var prefix := CodeCsvHeader + p.id + "," + p.name + ",";
    assert CodeCsv(p) == prefix + QuoteField(p.spiderCode);
    assert CodeCsv(p)[|prefix|..] == QuoteField(p.spiderCode);
    QuoteFieldRoundTrip(p.spiderCode);
  }

  /** `JSON.stringify(row[header] || '')`. */
  function Cell(row: Json, header: string): (c: string)
    ensures Falsy(Get(row, header)) ==> c == "\"\""
    ensures !Falsy(Get(row, header)) ==> c == Stringify(Get(row, header).value)
  {
    if Falsy(Get(row, header)) then Stringify(JStr("")) else Stringify(Get(row, header).value)
  }

  /** One data line: a cell per header, in header order. */
  function CsvLine(row: Json, headers: seq<string>): string
  {
    Join(seq(|headers|, i requires 0 <= i < |headers| => Cell(row, headers[i])), ",")
  }

  /** The lines of the run-results export: the first row's keys, then one line per row. */
  function RunResultsLines(rows: seq<Json>): (lines: seq<string>)
    requires rows != []
    ensures |lines| == |rows| + 1
    ensures lines[0] == Join(RowKeys(rows[0]), ",")
    ensures forall i | 0 <= i < |rows| :: lines[i + 1] == CsvLine(rows[i], RowKeys(rows[0]))
  {
    [Join(RowKeys(rows[0]), ",")] + seq(|rows|, i requires 0 <= i < |rows| => CsvLine(rows[i], RowKeys(rows[0])))
  }

  /** The run-results export; nothing is produced when there is no data. */
  function RunResultsCsv(rows: seq<Json>): (csv: Option<string>)
    ensures csv.None? <==> rows == []
    ensures csv.Some? ==> csv.value == Join(RunResultsLines(rows), "\n")
  {
    if rows == [] then None else Some(Join(RunResultsLines(rows), "\n"))
  }

  /** A row missing one of the first row's keys still gets a cell for it, written `""`. */
  lemma MissingCellsAreEmptyStrings(row: Json, headers: seq<string>, k: nat)
    requires k < |headers| && Falsy(Get(row, headers[k]))
    ensures var cells := seq(|headers|, i requires 0 <= i < |headers| => Cell(row, headers[i]));
      |cells| == |headers| && cells[k] == "\"\""
  {
  }

  // ------------------------------------------------------------ run log

  const RunStarted := "INFO: Scrapy 2.11.0 started (bot: scrapybot)"

  /** The three lines a run opens with. */
  function OpeningLines(p: ScrapingProject): seq<string>
  {
    [RunStarted, "INFO: Spider opened: " + p.id, "INFO: Crawling " + p.targetUrl]
  }

  /** The six simulated crawl steps. */
  function Steps(p: ScrapingProject): (steps: seq<string>)
    ensures |steps| == 6
    ensures steps[0] == "DEBUG: Crawled (200) <GET " + p.targetUrl + "> (referer: None)"
    ensures Contains(steps[0], p.targetUrl)
    ensures steps[4] == "INFO: Closing spider (finished)" && steps[5] == "INFO: Dumping Scrapy stats..."
  {
    ContainsMiddle("DEBUG: Crawled (200) <GET ", p.targetUrl, "> (referer: None)");
    ["DEBUG: Crawled (200) <GET " + p.targetUrl + "> (referer: None)",
     "DEBUG: Scraped from <200 ...>: {'item_scraped_count': 1}",
     "DEBUG: Scraped from <200 ...>: {'item_scraped_count': 5}",
     "DEBUG: Scraped from <200 ...>: {'item_scraped_count': 12}",
     "INFO: Closing spider (finished)",
     "INFO: Dumping Scrapy stats..."]
  }

  /** A log line with its clock time in brackets. */
  function Stamped(time: string, line: string): string
  {
    "[" + time + "] " + line
  }

  function SuccessLine(count: nat): string
  {
    "INFO: Spider closed: Finished. Extracted " + NatToString(count) + " items."
  }

  function ErrorLine(message: string): string
  {
    "ERROR: Pipeline failed. " + message
  }

  // ------------------------------------------------------------ upsert

  /** `Math.floor(r * span) + base` for a random `r` in [0, 1). */
  function RandomIn(r: real, span: nat, base: int): (v: int)
    requires 0.0 <= r < 1.0 && span > 0
    ensures base <= v < base + span
  {
    (r * span as real).Floor + base
  }

  datatype UpsertStats = UpsertStats(updated: int, inserted: int)

  // ------------------------------------------------------------ screen state

  /** The part of the detail screen's state that its handlers change. */
  class DetailScreen {
    const project: ScrapingProject
    var previewData: seq<Json>
    var showPreview: bool
    var isPreviewing: bool
    var spiderLogs: seq<string>
    var showRunModal: bool
    var isRunningSpider: bool
    var ahpResults: seq<Ranked>
    var isAnalyzingAHP: bool
    var isUpserting: bool
    var upsertProgress: int
    var showUpsertToast: bool
    var upsertStats: UpsertStats

    /** The upsert counter moves in steps of 5 between 0 and 100, and stopped counters sit at 100 once run. */
    predicate Valid()
      reads this
    {
      0 <= upsertProgress <= 100 && upsertProgress % 5 == 0
      && (upsertProgress > 0 && !isUpserting ==> upsertProgress == 100)
    }

    /** The preview panel's flags. */
    function PreviewFlags(): (bool, bool)
      reads this
    {
      (showPreview, isPreviewing)
    }

    /** The run modal: its log and flags. */
    function RunPart(): (seq<string>, bool, bool)
      reads this
    {
      (spiderLogs, showRunModal, isRunningSpider)
    }

    /** The AHP ranking and its flag. */
    function AhpPart(): (seq<Ranked>, bool)
      reads this
    {
      (ahpResults, isAnalyzingAHP)
    }

    /** The upsert counter, its toast and its stats. */
    function UpsertPart(): (bool, int, bool, UpsertStats)
      reads this
    {
      (isUpserting, upsertProgress, showUpsertToast, upsertStats)
    }

    /** The sample-record request that Run Spider, Preview and an AHP run with no preview send. */
    function MockRequest(): Service.Request
    {
      Service.GenerateMockResultsRequest(project.spiderCode, project.intent)
    }

    constructor(p: ScrapingProject)
      ensures Valid()
      ensures project == p && previewData == [] && spiderLogs == [] && ahpResults == []
      ensures !isUpserting && upsertProgress == 0 && upsertStats == UpsertStats(0, 0) && !showUpsertToast
      ensures !isRunningSpider && !isAnalyzingAHP && !isPreviewing && !showPreview && !showRunModal
    {
      project := p;
      previewData := [];
      showPreview := false;
      isPreviewing := false;
      spiderLogs := [];
      showRunModal := false;
      isRunningSpider := false;
      ahpResults := [];
      isAnalyzingAHP := false;
      isUpserting := false;
      upsertProgress := 0;
      showUpsertToast := false;
      upsertStats := UpsertStats(0, 0);
    }

    /** The ticks left before the upsert counter stops. */
    function TicksLeft(): nat
      reads this
      requires Valid()
    {
      if isUpserting then (100 - upsertProgress) / 5 + 1 else 0
    }

    /** The upsert button (disabled while an upsert runs): the counter restarts from 0. */
    method StartUpsert()
      requires Valid() && !isUpserting
      modifies this
      ensures Valid()
      ensures isUpserting && upsertProgress == 0 && !showUpsertToast && upsertStats == old(upsertStats)
      ensures TicksLeft() == 21
      ensures previewData == old(previewData) && PreviewFlags() == old(PreviewFlags())
      ensures RunPart() == old(RunPart()) && AhpPart() == old(AhpPart())
    {
      isUpserting := true;
      upsertProgress := 0;
      showUpsertToast := false;
    }

    /** One 100 ms tick: below 100 the counter gains 5; at 100 it stops and the random stats are set. */
    method UpsertTick(r1: real, r2: real)
      requires Valid() && isUpserting
      requires 0.0 <= r1 < 1.0 && 0.0 <= r2 < 1.0
      modifies this
      ensures Valid()
      ensures TicksLeft() == old(TicksLeft()) - 1
      ensures old(upsertProgress) < 100 ==>
        upsertProgress == old(upsertProgress) + 5 && isUpserting
        && upsertStats == old(upsertStats) && showUpsertToast == old(showUpsertToast)
      ensures old(upsertProgress) >= 100 ==>
        upsertProgress == 100 && !isUpserting && showUpsertToast
        && upsertStats == UpsertStats(RandomIn(r1, 200, 50), RandomIn(r2, 15, 2))
      ensures !isUpserting ==> 50 <= upsertStats.updated <= 249 && 2 <= upsertStats.inserted <= 16
      ensures previewData == old(previewData) && PreviewFlags() == old(PreviewFlags())
      ensures RunPart() == old(RunPart()) && AhpPart() == old(AhpPart())
    {
      if upsertProgress >= 100 {
        isUpserting := false;
        upsertStats := UpsertStats(RandomIn(r1, 200, 50), RandomIn(r2, 15, 2));
        showUpsertToast := true;
        upsertProgress := 100;
      } else {
        upsertProgress := upsertProgress + 5;
      }
    }

    /** The toast's own timer, or its close button. */
    method HideToast()
      modifies this
      ensures !showUpsertToast
      ensures upsertProgress == old(upsertProgress) && isUpserting == old(isUpserting)
      ensures upsertStats == old(upsertStats)
      ensures previewData == old(previewData) && PreviewFlags() == old(PreviewFlags())
      ensures RunPart() == old(RunPart()) && AhpPart() == old(AhpPart())
    {
      showUpsertToast := false;
    }

    /** The modal's close button: both the preview and the run modal close, whatever is still running. */
    method CloseModal()
      modifies this
      ensures !showPreview && !showRunModal
      ensures isPreviewing == old(isPreviewing) && isRunningSpider == old(isRunningSpider)
      ensures previewData == old(previewData) && spiderLogs == old(spiderLogs)
      ensures AhpPart() == old(AhpPart()) && UpsertPart() == old(UpsertPart())
    {
      showPreview := false;
      showRunModal := false;
    }

    // `handleRunSpider` awaits seven times: six 800 ms pauses, then the sample records. Run Spider is
    // never disabled and the modal can be closed meanwhile, so a second run can restart the log while
    // the first one's remaining lines are still to come; each piece below acts on the state it finds.

    /** `handleRunSpider` up to its first pause: the modal opens, the log restarts with the three
        opening lines and the preview empties. */
    method StartRun()
      modifies this
      ensures showRunModal && isRunningSpider && spiderLogs == OpeningLines(project) && previewData == []
      ensures PreviewFlags() == old(PreviewFlags()) && AhpPart() == old(AhpPart()) && UpsertPart() == old(UpsertPart())
    {
      showRunModal := true;
      isRunningSpider := true;
      spiderLogs := OpeningLines(project);
      previewData := [];
    }

    /** After the `k`-th pause: the `k`-th step, stamped, goes at the end of the log as it now is;
        after the last one the sample-record request goes out. */
    method RunStep(k: nat, time: string) returns (request: Option<Service.Request>)
      requires k < 6
      modifies this
      ensures spiderLogs == old(spiderLogs) + [Stamped(time, Steps(project)[k])]
      ensures request.Some? <==> k == 5
      ensures request.Some? ==> request.value == MockRequest()
      ensures showRunModal == old(showRunModal) && isRunningSpider == old(isRunningSpider)
      ensures previewData == old(previewData) && PreviewFlags() == old(PreviewFlags())
      ensures AhpPart() == old(AhpPart()) && UpsertPart() == old(UpsertPart())
    {
      spiderLogs := spiderLogs + [Stamped(time, Steps(project)[k])];
      request := if k == 5 then Some(MockRequest()) else None;
    }

    /** The run's continuation: records fill the preview and the success line reports their number;
        a failure appends the error line. Running ends either way. */
    method FinishRun(time: string, results: Result<seq<Json>>, errorMessage: string)
      modifies this
      ensures results.Ok? ==>
        previewData == results.value
        && spiderLogs == old(spiderLogs) + [Stamped(time, SuccessLine(|results.value|))]
      ensures results.Err? ==>
        previewData == old(previewData)
        && spiderLogs == old(spiderLogs) + [Stamped(time, ErrorLine(errorMessage))]
      ensures !isRunningSpider && showRunModal == old(showRunModal)
      ensures PreviewFlags() == old(PreviewFlags()) && AhpPart() == old(AhpPart()) && UpsertPart() == old(UpsertPart())
    {
      match results {
        case Ok(rows) =>
          previewData := rows;
          spiderLogs := spiderLogs + [Stamped(time, SuccessLine(|rows|))];
        case Err(_) =>
          spiderLogs := spiderLogs + [Stamped(time, ErrorLine(errorMessage))];
      }
      isRunningSpider := false;
    }

    /** A whole run with nothing else happening while it waits: three opening lines, six stamped
        steps, then one stamped success or error line. */
    method RunSpider(times: seq<string>, results: Result<seq<Json>>, errorMessage: string)
      requires |times| == 7
      modifies this
      ensures |spiderLogs| == 10
      ensures spiderLogs[..3] == OpeningLines(project)
      ensures forall i | 0 <= i < 6 :: spiderLogs[3 + i] == Stamped(times[i], Steps(project)[i])
      ensures results.Ok? ==>
        spiderLogs[9] == Stamped(times[6], SuccessLine(|results.value|))
        && previewData == results.value
      ensures results.Err? ==> spiderLogs[9] == Stamped(times[6], ErrorLine(errorMessage)) && previewData == []
      ensures showRunModal && !isRunningSpider
      ensures PreviewFlags() == old(PreviewFlags()) && AhpPart() == old(AhpPart()) && UpsertPart() == old(UpsertPart())
    {
      StartRun();
      for i := 0 to 6
        invariant |spiderLogs| == 3 + i
        invariant spiderLogs[..3] == OpeningLines(project)
        invariant forall k | 0 <= k < i :: spiderLogs[3 + k] == Stamped(times[k], Steps(project)[k])
        invariant showRunModal && isRunningSpider && previewData == []
        invariant PreviewFlags() == old(PreviewFlags()) && AhpPart() == old(AhpPart()) && UpsertPart() == old(UpsertPart())
      {
        var _ := RunStep(i, times[i]);
      }
      FinishRun(times[6], results, errorMessage);
    }

    /** `handlePreview` up to its `await` (the button is disabled while previewing). */
    method StartPreview() returns (request: Service.Request)
      requires !isPreviewing
      modifies this
      ensures isPreviewing && showPreview
      ensures request == MockRequest()
      ensures previewData == old(previewData) && RunPart() == old(RunPart())
      ensures AhpPart() == old(AhpPart()) && UpsertPart() == old(UpsertPart())
    {
      isPreviewing := true;
      showPreview := true;
      request := MockRequest();
    }

    /** The continuation: the records, or none when the call fails. Previewing ends either way. */
    method FinishPreview(results: Result<seq<Json>>)
      modifies this
      ensures previewData == (if results.Ok? then results.value else [])
      ensures !isPreviewing && showPreview == old(showPreview)
      ensures RunPart() == old(RunPart()) && AhpPart() == old(AhpPart()) && UpsertPart() == old(UpsertPart())
    {
      previewData := if results.Ok? then results.value else [];
      isPreviewing := false;
    }

    /** A whole preview with nothing else happening while it waits. */
    method Preview(results: Result<seq<Json>>)
      requires !isPreviewing
      modifies this
      ensures showPreview && !isPreviewing
      ensures previewData == (if results.Ok? then results.value else [])
      ensures RunPart() == old(RunPart()) && AhpPart() == old(AhpPart()) && UpsertPart() == old(UpsertPart())
    {
      var _ := StartPreview();
      FinishPreview(results);
    }

    /** `handleRunAHPAnalysis` up to its first `await` (the button is disabled while analysing): with an
        empty preview the sample records are asked for first; otherwise the preview is scored at once. */
    method StartAhp() returns (request: Service.Request)
      requires !isAnalyzingAHP
      modifies this
      ensures isAnalyzingAHP && ahpResults == old(ahpResults)
      ensures previewData == [] ==> request == MockRequest()
      ensures previewData != [] ==> request == Service.CalculateAhpScoresRequest(project.intent, previewData)
      ensures previewData == old(previewData) && PreviewFlags() == old(PreviewFlags())
      ensures RunPart() == old(RunPart()) && UpsertPart() == old(UpsertPart())
    {
      isAnalyzingAHP := true;
      request := if |previewData| == 0 then MockRequest()
                 else Service.CalculateAhpScoresRequest(project.intent, previewData);
    }

    /** The sample records arrive: they become the preview and are sent for scoring. A failure ends
        the analysis. */
    method AhpRecords(mock: Result<seq<Json>>) returns (request: Option<Service.Request>)
      modifies this
      ensures mock.Ok? ==>
        previewData == mock.value && isAnalyzingAHP == old(isAnalyzingAHP)
        && request == Some(Service.CalculateAhpScoresRequest(project.intent, mock.value))
      ensures mock.Err? ==> previewData == old(previewData) && !isAnalyzingAHP && request.None?
      ensures ahpResults == old(ahpResults) && PreviewFlags() == old(PreviewFlags())
      ensures RunPart() == old(RunPart()) && UpsertPart() == old(UpsertPart())
    {
      if mock.Ok? {
        previewData := mock.value;
        request := Some(Service.CalculateAhpScoresRequest(project.intent, mock.value));
      } else {
        isAnalyzingAHP := false;
        request := None;
      }
    }

    /** The scores arrive for the records `data` the run captured: the ranking is replaced. A failure
        keeps the old ranking. Analysing ends either way. */
    method FinishAhp(data: seq<Json>, scores: Result<seq<ScoreEntry>>)
      modifies this
      ensures ahpResults == (if scores.Ok? then RankAssets(scores.value, data) else old(ahpResults))
      ensures !isAnalyzingAHP
      ensures previewData == old(previewData) && PreviewFlags() == old(PreviewFlags())
      ensures RunPart() == old(RunPart()) && UpsertPart() == old(UpsertPart())
    {
      if scores.Ok? {
        ahpResults := RankAssets(scores.value, data);
      }
      isAnalyzingAHP := false;
    }

    /** A whole AHP run with nothing else happening while it waits: sample records are fetched and
        kept only when the preview is empty; the ranking is replaced only when every call succeeds. */
    method RunAhp(mock: Result<seq<Json>>, scores: Result<seq<ScoreEntry>>)
      requires !isAnalyzingAHP
      modifies this
      ensures !isAnalyzingAHP
      ensures old(previewData) != [] ==> previewData == old(previewData)
      ensures old(previewData) == [] ==> previewData == (if mock.Ok? then mock.value else [])
      ensures var fetched := old(previewData) != [] || mock.Ok?;
        ahpResults == (if fetched && scores.Ok? then RankAssets(scores.value, previewData) else old(ahpResults))
      ensures PreviewFlags() == old(PreviewFlags()) && RunPart() == old(RunPart()) && UpsertPart() == old(UpsertPart())
    {
      var _ := StartAhp();
      var data := previewData;
      if |data| == 0 {
        var next := AhpRecords(mock);
        if next.None? {
          return;
        }
        data := mock.value;
      }
      FinishAhp(data, scores);
    }
  }

  /** A full upsert: twenty ticks take the counter from 0 to 100, the twenty-first stops it with stats in range. */
  method UpsertRun(d: DetailScreen, r1: real, r2: real)
    requires d.Valid() && !d.isUpserting
    requires 0.0 <= r1 < 1.0 && 0.0 <= r2 < 1.0
    modifies d
    ensures d.Valid() && !d.isUpserting && d.upsertProgress == 100 && d.showUpsertToast
    ensures 50 <= d.upsertStats.updated <= 249 && 2 <= d.upsertStats.inserted <= 16
  {
    d.StartUpsert();
    while d.isUpserting
      invariant d.Valid()
      invariant d.isUpserting || (d.upsertProgress == 100 && d.showUpsertToast
        && 50 <= d.upsertStats.updated <= 249 && 2 <= d.upsertStats.inserted <= 16)
      decreases d.TicksLeft()
    {
      d.UpsertTick(r1, r2);
    }
  }
}
