/**
 * The log screen: the colour class of each log line, and the diagnosis
 * handler that sends the whole log to the service and keeps its last answer.
 */
module LogViewer {
  import opened Wrappers
  import opened Text
  import opened Types
  import Service

  /** A log line: a bracketed timestamp, a bracketed level tag and the message, separated by spaces. */
  function LogLine(stamp: string, tag: string, message: string): string
  {
    stamp + " " + tag + " " + message
  }

  /** The log the screen shows and sends, one entry per line. */
  const MockLogs: seq<string> := [
    LogLine("[2024-05-20 10:15:02]", InfoTag, "Scrapy 2.11.1 started"),
    LogLine("[2024-05-20 10:15:03]", InfoTag, "Spider opened: amazon"),
    LogLine("[2024-05-20 10:15:04]", "[DEBUG]", "Crawled (200) <GET https://amazon.com/s?k=gaming+laptops>"),
    LogLine("[2024-05-20 10:15:05]", WarningTag, "Selector 'div.s-result-item' missing in response, retrying..."),
    LogLine("[2024-05-20 10:15:07]", ErrorTag, "Scraper closed (403 Forbidden) - Likely Bot Detection"),
    LogLine("[2024-05-20 10:15:08]", InfoTag, "System: AI Auto-healing triggered. Analyzing HTML structure...")
  ]

  const ErrorTag := "[ERROR]"
  const WarningTag := "[WARNING]"
  const InfoTag := "[INFO]"

  /** The colour a line is drawn in. */
  datatype LineClass = ErrorLine | WarningLine | InfoLine | PlainLine

  /** The first tag the line contains, checked in the order error, warning, info. */
  function ClassOf(line: string): (c: LineClass)
    ensures c == ErrorLine <==> Contains(line, ErrorTag)
    ensures c == WarningLine <==> !Contains(line, ErrorTag) && Contains(line, WarningTag)
    ensures c == InfoLine <==> !Contains(line, ErrorTag) && !Contains(line, WarningTag) && Contains(line, InfoTag)
    ensures c == PlainLine <==> !Contains(line, ErrorTag) && !Contains(line, WarningTag) && !Contains(line, InfoTag)
  {
    if Contains(line, ErrorTag) then ErrorLine
    else if Contains(line, WarningTag) then WarningLine
    else if Contains(line, InfoTag) then InfoLine
    else PlainLine
  }

  /** A line carries its own tag, so it is never drawn plain when the tag is one of the three. */
  lemma LineHasItsTag(stamp: string, tag: string, message: string)
    ensures Contains(LogLine(stamp, tag, message), tag)
    ensures tag == ErrorTag ==> ClassOf(LogLine(stamp, tag, message)) == ErrorLine
    ensures tag == WarningTag ==> ClassOf(LogLine(stamp, tag, message)) in {ErrorLine, WarningLine}
    ensures tag in [ErrorTag, WarningTag, InfoTag] ==> ClassOf(LogLine(stamp, tag, message)) != PlainLine
  {
    ContainsMiddle(stamp + " ", tag, " " + message);
    assert stamp + " " + tag + (" " + message) == LogLine(stamp, tag, message);
  }

  /** In the shown log the error line is red, the warning line at least amber, and the info lines
      are never drawn plain. */
  lemma MockLogClasses()
    ensures ClassOf(MockLogs[4]) == ErrorLine
    ensures ClassOf(MockLogs[3]) in {ErrorLine, WarningLine}
    ensures ClassOf(MockLogs[0]) != PlainLine && ClassOf(MockLogs[1]) != PlainLine && ClassOf(MockLogs[5]) != PlainLine
  {
    LineHasItsTag("[2024-05-20 10:15:02]", InfoTag, "Scrapy 2.11.1 started");
    LineHasItsTag("[2024-05-20 10:15:03]", InfoTag, "Spider opened: amazon");
    LineHasItsTag("[2024-05-20 10:15:05]", WarningTag, "Selector 'div.s-result-item' missing in response, retrying...");
    LineHasItsTag("[2024-05-20 10:15:07]", ErrorTag, "Scraper closed (403 Forbidden) - Likely Bot Detection");
    LineHasItsTag("[2024-05-20 10:15:08]", InfoTag, "System: AI Auto-healing triggered. Analyzing HTML structure...");
  }

  /** The text sent for diagnosis: the lines joined by newlines. */
  function DiagnosisInput(): string
  {
    Join(MockLogs, "\n")
  }

  /** Every log line reaches the diagnosis prompt. */
  lemma DiagnosisMentionsEveryLine(k: nat)
    requires k < |MockLogs|
    ensures Contains(Service.AnalyzeLogRequest(DiagnosisInput()).contents, MockLogs[k])
  {
    JoinContainsEach(MockLogs, "\n", k);
    Service.CodeAndLogPromptsMentionInputs("", DiagnosisInput(), "", false, "");
    ContainsTransitive(Service.AnalyzeLogRequest(DiagnosisInput()).contents, DiagnosisInput(), MockLogs[k]);
  }

  /** The grounding links listed under an answer (`title || uri` each); none when there is no answer
      or its list is empty. */
  function SourceLinks(analysis: Option<Service.Grounded>): (links: seq<string>)
    ensures analysis.None? ==> links == []
    ensures analysis.Some? ==> |links| == |analysis.value.sources|
    ensures analysis.Some? ==> forall i | 0 <= i < |links| ::
      var web := analysis.value.sources[i].web;
      links[i] == (if web.title != "" then web.title else web.uri)
  {
    if analysis.None? then []
    else
      var sources := analysis.value.sources;
      seq(|sources|, i requires 0 <= i < |sources| => OrElse(Some(sources[i].web.title), sources[i].web.uri))
  }

  /** The "Grounding Sources" heading shows only when the list is non-empty. */
  predicate SourcesShown(analysis: Option<Service.Grounded>)
  {
    analysis.Some? && |analysis.value.sources| > 0
  }

  class LogScreen {
    var analyzing: bool
    var aiAnalysis: Option<Service.Grounded>

    constructor()
      ensures !analyzing && aiAnalysis.None?
    {
      analyzing := false;
      aiAnalysis := None;
    }

    /** `handleAnalyze` up to its `await` (the button is disabled while analysing). */
    method StartAnalyze() returns (request: Service.Request)
      requires !analyzing
      modifies this
      ensures analyzing && aiAnalysis == old(aiAnalysis)
      ensures request == Service.AnalyzeLogRequest(DiagnosisInput())
    {
      analyzing := true;
      request := Service.AnalyzeLogRequest(DiagnosisInput());
    }

    /** The continuation: an answer replaces the previous one; a failure keeps it. Analysing ends either way. */
    method FinishAnalyze(reply: Result<Service.Reply>)
      modifies this
      ensures !analyzing
      ensures Service.AnalyzeLog(reply).Ok? ==> aiAnalysis == Some(Service.AnalyzeLog(reply).value)
      ensures Service.AnalyzeLog(reply).Err? ==> aiAnalysis == old(aiAnalysis)
    {
      var result := Service.AnalyzeLog(reply);
      if result.Ok? {
        aiAnalysis := Some(result.value);
      }
      analyzing := false;
    }
  }

  /** A settled diagnosis shows sources exactly when the reply carried grounding chunks; a failed
      one leaves the previous answer's sources on screen. */
  lemma SourcesAfterDiagnosis(previous: Option<Service.Grounded>, reply: Result<Service.Reply>)
    ensures var shown := if Service.AnalyzeLog(reply).Ok? then Some(Service.AnalyzeLog(reply).value) else previous;
      && (reply.Ok? ==> (SourcesShown(shown) <==> |Service.GroundingChunks(reply.value)| > 0))
      && (reply.Err? ==> SourceLinks(shown) == SourceLinks(previous))
      && (SourcesShown(shown) <==> |SourceLinks(shown)| > 0)
  {
  }
}
