/**
 * The request builders and reply handling of the generative-AI service wrapper.
 * The remote call itself is not modelled: each operation is split into the request
 * it sends (a pure function of its parameters) and what it makes of the reply it
 * gets back, which arrives as a parameter (`Err(TransportError)` when the call rejects).
 */
module Service {
  import opened Wrappers
  import opened Text
  import opened Json
  import opened Types

  /** A declared response shape (a request to the service; it guarantees nothing about the reply). */
  datatype Schema = SString | SNumber | SArray(items: Schema) | SObject(properties: seq<Property>)
  datatype Property = Property(name: string, schema: Schema)

  datatype Config = Config(
    jsonReply: bool,                  // responseMimeType 'application/json'
    schema: Option<Schema>,
    searchTool: bool,                 // tools: [{ googleSearch: {} }]
    thinkingBudget: Option<nat>,
    systemInstruction: Option<string>)

  datatype Request = Request(model: string, contents: string, config: Config)

  /** The parts of a reply the wrapper reads. */
  datatype Metadata = Metadata(groundingChunks: Option<seq<Source>>)
  datatype Candidate = Candidate(groundingMetadata: Option<Metadata>)
  datatype Reply = Reply(text: Option<string>, candidates: Option<seq<Candidate>>)

  /** The result of a search-grounded call: prose plus citations. */
  datatype Grounded = Grounded(text: string, sources: seq<Source>)

  /** Thinking budgets, in tokens. */
  const DeepThinking: nat := 32768
  const LogThinking: nat := 16384

  const FlashLite := "gemini-flash-lite-latest"
  const Flash := "gemini-3-flash-preview"
  const Pro := "gemini-3-pro-preview"

  const SpiderPersona := "คุณคือวิศวกร Scrapy และผู้เชี่ยวชาญการลงทุนอสังหาฯ กรมบังคับคดี เน้นการดึงข้อมูลเพื่อทำ AHP Analysis (ราคาประเมิน, ราคาเริ่มต้น, ทำเล, ขนาด, สถานะทรัพย์)"
  const RefactorPersona := "คุณคือผู้เชี่ยวชาญการแก้ไข Spider สำหรับเวปอสังหาฯ กรมบังคับคดี"
  const AdvisorPersona := "คุณคือ AI ที่ปรึกษาการลงทุนอสังหาริมทรัพย์มืออาชีพ เชี่ยวชาญทรัพย์กรมบังคับคดี ใช้ข้อมูลจริงจาก Google Search เพื่อประกอบการตัดสินใจ"
  const AssistantPersona := "คุณคือ AI ผู้เชี่ยวชาญการลงทุนทรัพย์กรมบังคับคดี (LED Investment Assistant) ช่วยวิเคราะห์ทรัพย์และเขียน Scrapy เพื่อหาโอกาสลงทุนที่ดีที่สุดด้วยหลักการ AHP"

  /** The fixed text of the prompts, in the order the template literals have it. */
  const IntentPromptHead := "Analyze this LED property investment intent for URL: "
  const IntentPromptTail := ". Provide a structured JSON output with fields for AHP Analysis: suggested_name, frequency_hint, fields_to_extract (price, appraisal_value, location, size, status), and investment_priority_score (1-10)."
  const SpiderPromptHead := "Write a Scrapy spider for LED Properties: "
  const ProvincialPromptHead := "Perform a provincial distribution analysis for "
  const ProvincialPromptMid := " LED property items based on the intent: "
  const ProvincialPromptTail := ". \n  Group the items by province and estimate where the most profitable opportunities lie.\n  Return a JSON object with:\n  - top_provinces: Array of {province, count, avg_gap, ahp_potential_score}\n  - market_insight: A summary of why certain provinces are trending in LED auctions."
  const MockPromptHead := "Generate 5 realistic LED property records for AHP analysis based on: "
  const MockPromptTail := ". Include: property_id, appraisal_value, start_price, location, property_type. Return as JSON array."
  const AhpPromptHead := "Calculate AHP scores (0.0 to 10.0) for these LED properties based on intent: "
  const AhpPromptTail := ". \n  Criteria Weights: Price Gap (50%), Location Potential (30%), Property Status (20%). \n  Return JSON array of objects with keys: id, score, reasoning."
  const RefactorPromptHead := "Refactor this LED Property Spider. Fix selectors or add drive integration. Intent: "
  const StrategyPromptHead := "Analyze these top-ranked LED assets for investment potential: "
  const StrategyPromptTail := ". \n  Perform a SWOT analysis for each location using Google Search to find recent news (infrastructure, new factories, flood risks). \n  Suggest a specific bidding strategy for each (e.g., skip first round, bid at 80%).\n  Format the response clearly with sections for Market Pulse, SWOT, and Recommendations."
  const LogPromptHead := "Analyze these Scrapy system logs and identify any issues, bottlenecks, or anti-bot detections. Suggest specific technical fixes. If there are HTTP errors, search for recent site changes or Scrapy solutions. Logs:\n"

  // ------------------------------------------------------------ reply handling

  /** `JSON.parse(response.text || empty)`: a rejected call or unparsable text rejects. */
  function JsonReply(reply: Result<Reply>, empty: string, parse: Parser): (r: Result<Json>)
    ensures reply.Err? ==> r == Err(reply.error)
    ensures reply.Ok? ==> (r.Ok? <==> parse(OrElse(reply.value.text, empty)).Some?)
    ensures reply.Ok? && r.Ok? ==> parse(OrElse(reply.value.text, empty)) == Some(r.value)
    ensures reply.Ok? && r.Err? ==> r.error == ParseError
  {
    match reply
    case Err(e) => Err(e)
    case Ok(r) =>
      match parse(OrElse(r.text, empty))
      case Some(v) => Ok(v)
      case None => Err(ParseError)
  }

  /** `response.text || fallback`: the reply's text or the fallback, never empty when the fallback is not. */
  function TextReply(reply: Result<Reply>, fallback: string): (r: Result<string>)
    ensures reply.Err? ==> r == Err(reply.error)
    ensures reply.Ok? ==> r.Ok? && (r.value == fallback || reply.value.text == Some(r.value))
    ensures reply.Ok? && reply.value.text.Some? && reply.value.text.value != "" ==> r == Ok(reply.value.text.value)
    ensures reply.Ok? && (reply.value.text.None? || reply.value.text == Some("")) ==> r == Ok(fallback)
    ensures reply.Ok? && fallback != "" ==> r.value != ""
  {
    match reply
    case Err(e) => Err(e)
    case Ok(r) => Ok(OrElse(r.text, fallback))
  }

  /** `response.candidates?.[0]?.groundingMetadata?.groundingChunks || []`: the first candidate's
      chunks when every link of that path is present, and none otherwise. */
  function GroundingChunks(r: Reply): (chunks: seq<Source>)
    ensures chunks != [] ==>
      r.candidates.Some? && |r.candidates.value| > 0
      && r.candidates.value[0].groundingMetadata == Some(Metadata(Some(chunks)))
    ensures (r.candidates.Some? && |r.candidates.value| > 0
             && r.candidates.value[0].groundingMetadata.Some?
             && r.candidates.value[0].groundingMetadata.value.groundingChunks.Some?) ==>
      chunks == r.candidates.value[0].groundingMetadata.value.groundingChunks.value
  {
    if r.candidates.Some? && |r.candidates.value| > 0
       && r.candidates.value[0].groundingMetadata.Some?
       && r.candidates.value[0].groundingMetadata.value.groundingChunks.Some?
    then r.candidates.value[0].groundingMetadata.value.groundingChunks.value
    else []
  }

  /** `{ text: response.text || fallback, sources: chunks || [] }`. */
  function GroundedReply(reply: Result<Reply>, fallback: string): (r: Result<Grounded>)
    ensures reply.Err? ==> r == Err(reply.error)
    ensures reply.Ok? ==> r.Ok? && r.value.sources == GroundingChunks(reply.value)
    ensures reply.Ok? ==> r.value.text == fallback || reply.value.text == Some(r.value.text)
    ensures reply.Ok? && reply.value.text.Some? && reply.value.text.value != "" ==> r.value.text == reply.value.text.value
    ensures reply.Ok? && (reply.value.text.None? || reply.value.text == Some("")) ==> r.value.text == fallback
    ensures reply.Ok? && fallback != "" ==> r.value.text != ""
  {
    match reply
    case Err(e) => Err(e)
    case Ok(r) => Ok(Grounded(OrElse(r.text, fallback), GroundingChunks(r)))
  }

  // ------------------------------------------------------------ analyzeIntent

  const IntentSchema := SObject([
    Property("suggested_name", SString),
    Property("frequency_hint", SString),
    Property("fields_to_extract", SArray(SString)),
    Property("investment_priority_score", SNumber)])

  function AnalyzeIntentPrompt(intent: string, url: string): string {
    Concat([IntentPromptHead, url, ". Intent: ", intent,
      IntentPromptTail])
  }

  function AnalyzeIntentRequest(intent: string, url: string): Request {
    Request(FlashLite, AnalyzeIntentPrompt(intent, url), Config(true, Some(IntentSchema), false, None, None))
  }

  function AnalyzeIntent(reply: Result<Reply>, parse: Parser): Result<Json> {
    JsonReply(reply, "{}", parse)
  }

  // ------------------------------------------------------------ generateSpider

  /** The one sentence of the spider prompt that depends on the Drive flag. */
  function DriveLogic(saveToDrive: bool): string {
    if saveToDrive then "Export directly to Google Drive as CSV for AHP processing." else "Standard CSV output."
  }

  const SpiderPromptTail := "\n  CRITICAL: Extract appraisal value vs starting price to calculate 'Investment Gap'. \n  Return ONLY clean Python code."

  function SpiderPrompt(url: string, fields: seq<string>, saveToDrive: bool): string {
    Concat([SpiderPromptHead, url, ". \n  Focus on: ", Join(fields, ", "), ". \n  ",
      DriveLogic(saveToDrive), SpiderPromptTail])
  }

  /** `generateSpider(intent, url, fields, saveToDrive)`: `intent` is accepted but not sent. */
  function GenerateSpiderRequest(intent: string, url: string, fields: seq<string>, saveToDrive: bool): Request {
    Request(Pro, SpiderPrompt(url, fields, saveToDrive), Config(false, None, false, Some(DeepThinking), Some(SpiderPersona)))
  }

  function GenerateSpider(reply: Result<Reply>): Result<string> {
    TextReply(reply, "# Error generating LED spider")
  }

  // ------------------------------------------------------------ analyzeProvincialBreakdown

  const ProvincialSchema := SObject([
    Property("top_provinces", SArray(SObject([
      Property("province", SString),
      Property("count", SNumber),
      Property("avg_gap", SNumber),
      Property("ahp_potential_score", SNumber)]))),
    Property("market_insight", SString)])

  function ProvincialPrompt(totalItems: nat, intent: string): string {
    Concat([ProvincialPromptHead, NatToString(totalItems),
      ProvincialPromptMid, intent,
      ProvincialPromptTail])
  }

  function AnalyzeProvincialBreakdownRequest(totalItems: nat, intent: string): Request {
    Request(Flash, ProvincialPrompt(totalItems, intent), Config(true, Some(ProvincialSchema), false, None, None))
  }

  function AnalyzeProvincialBreakdown(reply: Result<Reply>, parse: Parser): Result<Json> {
    JsonReply(reply, "{}", parse)
  }

  // ------------------------------------------------------------ generateMockResults

  function MockResultsPrompt(intent: string): string {
    Concat([MockPromptHead, intent,
      MockPromptTail])
  }

  /** `generateMockResults(spiderCode, intent)`: `spiderCode` is accepted but not sent. */
  function GenerateMockResultsRequest(spiderCode: string, intent: string): Request {
    Request(Flash, MockResultsPrompt(intent), Config(true, None, false, None, None))
  }

  function GenerateMockResults(reply: Result<Reply>, parse: Parser): Result<Json> {
    JsonReply(reply, "[]", parse)
  }

  // ------------------------------------------------------------ calculateAHPScores

  const ScoresSchema := SArray(SObject([
    Property("id", SString), Property("score", SNumber), Property("reasoning", SString)]))

  function AhpPrompt(intent: string, data: seq<Json>): string {
    Concat([AhpPromptHead, intent,
      ". \n  Data: ", Stringify(JArr(data)),
      AhpPromptTail])
  }

  function CalculateAhpScoresRequest(intent: string, data: seq<Json>): Request {
    Request(Flash, AhpPrompt(intent, data), Config(true, Some(ScoresSchema), false, None, None))
  }

  function CalculateAhpScores(reply: Result<Reply>, parse: Parser): Result<Json> {
    JsonReply(reply, "[]", parse)
  }

  // ------------------------------------------------------------ refactorSpider

  function RefactorPrompt(currentCode: string, logs: string, intent: string): string {
    Concat([RefactorPromptHead, intent,
      ". Logs: ", logs, ". Current Code: ", currentCode])
  }

  /** `refactorSpider(currentCode, logs, intent, saveToDrive)`: `saveToDrive` is accepted but not sent. */
  function RefactorSpiderRequest(currentCode: string, logs: string, intent: string, saveToDrive: bool): Request {
    Request(Pro, RefactorPrompt(currentCode, logs, intent), Config(false, None, false, Some(DeepThinking), Some(RefactorPersona)))
  }

  function RefactorSpider(currentCode: string, reply: Result<Reply>): Result<string> {
    TextReply(reply, currentCode)
  }

  // ------------------------------------------------------------ analyzeStrategicOpportunities

  /** The four properties of an asset that are sent: `{ id, loc, gap, type }`. */
  function AssetSummary(a: RankedAsset): Json {
    JObj([Member("id", JStr(a.id)), Member("loc", JStr(a.location)),
          Member("gap", JNum(IntToString(a.gap))), Member("type", JStr(a.kind))])
  }

  function AssetSummaries(assets: seq<RankedAsset>): Json {
    JArr(seq(|assets|, i requires 0 <= i < |assets| => AssetSummary(assets[i])))
  }

  function StrategyPrompt(assets: seq<RankedAsset>): string {
    Concat([StrategyPromptHead, Stringify(AssetSummaries(assets)),
      StrategyPromptTail])
  }

  function AnalyzeStrategicOpportunitiesRequest(assets: seq<RankedAsset>): Request {
    Request(Pro, StrategyPrompt(assets), Config(false, None, true, Some(DeepThinking), Some(AdvisorPersona)))
  }

  function AnalyzeStrategicOpportunities(reply: Result<Reply>): Result<Grounded> {
    GroundedReply(reply, "ไม่สามารถวิเคราะห์ข้อมูลได้ในขณะนี้")
  }

  // ------------------------------------------------------------ analyzeLog

  function AnalyzeLogRequest(logs: string): Request {
    Request(Pro,
      Concat([LogPromptHead, logs]),
      Config(false, None, true, Some(LogThinking), None))
  }

  function AnalyzeLog(reply: Result<Reply>): Result<Grounded> {
    GroundedReply(reply, "No analysis available.")
  }

  // ------------------------------------------------------------ chatWithSearch / startChatSession

  function ChatWithSearchRequest(query: string): Request {
    Request(Flash, query, Config(false, None, true, None, None))
  }

  function ChatWithSearch(reply: Result<Reply>): Result<Grounded> {
    GroundedReply(reply, "I could not retrieve information at this time.")
  }

  /** The settings a chat session is created with (creating one makes no call). */
  const ChatSessionSettings := Config(false, None, false, Some(DeepThinking), Some(AssistantPersona))
  const ChatSessionModel := Pro

  // ================================================================ properties

  /** The second, fourth and sixth of seven pieces are contained in their concatenation. */
  lemma SpiderPromptPieces(a: string, b: string, c: string, d: string, e: string, f: string, g: string)
    ensures Contains(Concat([a, b, c, d, e, f, g]), b)
    ensures Contains(Concat([a, b, c, d, e, f, g]), d)
    ensures Contains(Concat([a, b, c, d, e, f, g]), f)
  {
    var pieces := [a, b, c, d, e, f, g];
    ContainsPiece(pieces, 1);
    ContainsPiece(pieces, 3);
    ContainsPiece(pieces, 5);
  }

  /** The spider prompt carries the URL, every field (joined by ", " in order) and the Drive sentence. */
  lemma SpiderPromptMentionsInputs(intent: string, url: string, fields: seq<string>, saveToDrive: bool)
    ensures var p := GenerateSpiderRequest(intent, url, fields, saveToDrive).contents;
      && Contains(p, url)
      && Contains(p, Join(fields, ", "))
      && Contains(p, DriveLogic(saveToDrive))
      && forall k :: 0 <= k < |fields| ==> Contains(p, fields[k])
  {
    var joined := Join(fields, ", ");
    var p := GenerateSpiderRequest(intent, url, fields, saveToDrive).contents;
    SpiderPromptPieces(SpiderPromptHead, url, ". \n  Focus on: ", joined, ". \n  ", DriveLogic(saveToDrive), SpiderPromptTail);
    forall k | 0 <= k < |fields| ensures Contains(p, fields[k]) {
      JoinContainsEach(fields, ", ", k);
      ContainsTransitive(p, joined, fields[k]);
    }
  }

  /** Two spider requests for the same URL and fields are equal exactly when their Drive flags are:
      the intent never reaches the prompt, and the flag always does. */
  lemma SpiderRequestDependsOnlyOnDriveFlag(i1: string, i2: string, url: string, fields: seq<string>, b1: bool, b2: bool)
    ensures GenerateSpiderRequest(i1, url, fields, b1) == GenerateSpiderRequest(i2, url, fields, b2) <==> b1 == b2
  {
    if b1 != b2 {
      var p1 := [SpiderPromptHead, url, ". \n  Focus on: ", Join(fields, ", "), ". \n  ",
        DriveLogic(b1), SpiderPromptTail];
      var p2 := p1[5 := DriveLogic(b2)];
      ConcatSplit(p1, 5);
      ConcatSplit(p2, 5);
      assert p1[..5] == p2[..5];
      assert p1[5..] == [DriveLogic(b1), SpiderPromptTail];
      assert p2[5..] == [DriveLogic(b2), SpiderPromptTail];
      ConcatPair(DriveLogic(b1), SpiderPromptTail);
      ConcatPair(DriveLogic(b2), SpiderPromptTail);
      assert |Concat(p1)| != |Concat(p2)|;
      assert SpiderPrompt(url, fields, b1) == Concat(p1);
      assert p2 == [SpiderPromptHead, url, ". \n  Focus on: ", Join(fields, ", "), ". \n  ", DriveLogic(b2), SpiderPromptTail];
      assert SpiderPrompt(url, fields, b2) == Concat(p2);
    }
  }

  /** Other parameters the wrapper accepts but never sends. */
  lemma IgnoredParameters(code1: string, code2: string, logs: string, intent: string, b1: bool, b2: bool)
    ensures RefactorSpiderRequest(code1, logs, intent, b1) == RefactorSpiderRequest(code1, logs, intent, b2)
    ensures GenerateMockResultsRequest(code1, intent) == GenerateMockResultsRequest(code2, intent)
  {
  }

  /** The intent-analysis prompt carries the URL and the intent. */
  lemma IntentPromptMentionsInputs(intent: string, url: string)
    ensures Contains(AnalyzeIntentRequest(intent, url).contents, url)
    ensures Contains(AnalyzeIntentRequest(intent, url).contents, intent)
  {
    var a := [IntentPromptHead, url, ". Intent: ", intent,
      IntentPromptTail];
    ContainsPiece(a, 1);
    ContainsPiece(a, 3);
  }

  /** The provincial prompt carries the item count, printed in decimal, and the intent. */
  lemma ProvincialPromptMentionsInputs(total: nat, intent: string)
    ensures Contains(AnalyzeProvincialBreakdownRequest(total, intent).contents, NatToString(total))
    ensures Contains(AnalyzeProvincialBreakdownRequest(total, intent).contents, intent)
  {
    var p := [ProvincialPromptHead, NatToString(total),
      ProvincialPromptMid, intent,
      ProvincialPromptTail];
    ContainsPiece(p, 1);
    ContainsPiece(p, 3);
  }

  /** The sample-record prompt carries the intent; the AHP prompt carries the intent and the
      records exactly as `JSON.stringify` prints them. */
  lemma RecordPromptsMentionInputs(code: string, intent: string, data: seq<Json>)
    ensures Contains(GenerateMockResultsRequest(code, intent).contents, intent)
    ensures Contains(CalculateAhpScoresRequest(intent, data).contents, intent)
    ensures Contains(CalculateAhpScoresRequest(intent, data).contents, Stringify(JArr(data)))
  {
    var m := [MockPromptHead, intent,
      MockPromptTail];
    ContainsPiece(m, 1);
    var h := [AhpPromptHead, intent,
      ". \n  Data: ", Stringify(JArr(data)),
      AhpPromptTail];
    ContainsPiece(h, 1);
    ContainsPiece(h, 3);
  }

  /** The refactor prompt carries the intent, the logs and the current code; the diagnosis
      prompt carries the logs; a search-grounded chat sends the query as it is. */
  lemma CodeAndLogPromptsMentionInputs(code: string, logs: string, intent: string, saveToDrive: bool, query: string)
    ensures Contains(RefactorSpiderRequest(code, logs, intent, saveToDrive).contents, intent)
    ensures Contains(RefactorSpiderRequest(code, logs, intent, saveToDrive).contents, logs)
    ensures Contains(RefactorSpiderRequest(code, logs, intent, saveToDrive).contents, code)
    ensures Contains(AnalyzeLogRequest(logs).contents, logs)
    ensures ChatWithSearchRequest(query).contents == query
  {
    var r := [RefactorPromptHead, intent,
      ". Logs: ", logs, ". Current Code: ", code];
    ContainsPiece(r, 1);
    ContainsPiece(r, 3);
    ContainsPiece(r, 5);
    ContainsPiece([LogPromptHead, logs], 1);
  }

  /** With reply text absent or empty the text operations fall back: a fixed comment for a new
      spider, the unchanged code for a refactor; a rejected call stays rejected. */
  lemma TextFallbacks(code: string, r: Reply, e: Error)
    ensures (r.text.None? || r.text == Some("")) ==> GenerateSpider(Ok(r)) == Ok("# Error generating LED spider")
    ensures (r.text.None? || r.text == Some("")) ==> RefactorSpider(code, Ok(r)) == Ok(code)
    ensures (r.text.Some? && r.text.value != "") ==> GenerateSpider(Ok(r)) == Ok(r.text.value) && RefactorSpider(code, Ok(r)) == Ok(r.text.value)
    ensures GenerateSpider(Err(e)) == Err(e) && RefactorSpider(code, Err(e)) == Err(e)
  {
  }

  /** With reply text absent or empty, each JSON operation yields the empty object or array
      instead of rejecting, provided the parser reads the two literals as such. */
  lemma EmptyReplyGivesEmptyValue(r: Reply, parse: Parser)
    requires ParsesEmptyLiterals(parse)
    requires r.text.None? || r.text == Some("")
    ensures AnalyzeIntent(Ok(r), parse) == Ok(JObj([]))
    ensures AnalyzeProvincialBreakdown(Ok(r), parse) == Ok(JObj([]))
    ensures GenerateMockResults(Ok(r), parse) == Ok(JArr([]))
    ensures CalculateAhpScores(Ok(r), parse) == Ok(JArr([]))
  {
  }

  /** A grounded call never yields empty text, and its sources are exactly the first
      candidate's grounding chunks (or none when any link of that path is missing). */
  lemma GroundedReplies(r: Reply)
    ensures forall g :: g in [AnalyzeStrategicOpportunities(Ok(r)), AnalyzeLog(Ok(r)), ChatWithSearch(Ok(r))] ==>
      g.Ok? && g.value.text != "" && g.value.sources == GroundingChunks(r)
    ensures AnalyzeStrategicOpportunities(Ok(r)).value.text == OrElse(r.text, "ไม่สามารถวิเคราะห์ข้อมูลได้ในขณะนี้")
    ensures AnalyzeLog(Ok(r)).value.text == OrElse(r.text, "No analysis available.")
    ensures ChatWithSearch(Ok(r)).value.text == OrElse(r.text, "I could not retrieve information at this time.")
    ensures r.candidates.None? || r.candidates == Some([]) ==> GroundingChunks(r) == []
    ensures r.candidates.Some? && |r.candidates.value| > 0 && r.candidates.value[0].groundingMetadata == Some(Metadata(Some([])))
      ==> GroundingChunks(r) == []
  {
  }

  /** The strategy request sends one `{id, loc, gap, type}` object per asset, in the given order. */
  lemma StrategySummaryKeepsOrder(assets: seq<RankedAsset>)
    ensures var s := AssetSummaries(assets);
      && |s.items| == |assets|
      && (forall i :: 0 <= i < |assets| ==> s.items[i] == AssetSummary(assets[i]))
    ensures Contains(AnalyzeStrategicOpportunitiesRequest(assets).contents, Stringify(AssetSummaries(assets)))
  {
    ContainsPiece([StrategyPromptHead, Stringify(AssetSummaries(assets)),
      StrategyPromptTail], 1);
  }

  /** Each summary has exactly the keys id, loc, gap, type, holding the asset's own values. */
  lemma AssetSummaryFields(a: RankedAsset)
    ensures var m := AssetSummary(a).members;
      && Keys(m) == ["id", "loc", "gap", "type"]
      && Lookup(m, "id") == Some(JStr(a.id))
      && Lookup(m, "loc") == Some(JStr(a.location))
      && Lookup(m, "gap") == Some(JNum(IntToString(a.gap)))
      && Lookup(m, "type") == Some(JStr(a.kind))
  {
  }
}
