/**
 * The three-step new-project wizard: describe the target (step 1), review the
 * analysis (step 2), review the generated spider (step 3) and finish. Each
 * remote call is split at its `await` into a Begin and a Finish method.
 */
module ProjectWizard {
  import opened Wrappers
  import opened Text
  import opened Json
  import opened Types
  import Service

  /** How `Array.prototype.join` writes one element: null and undefined as "", arrays joined by ",". */
  function ElementText(v: Json): string
    decreases v
  {
    match v
    case JNull => ""
    case JBool(b) => if b then "true" else "false"
    case JNum(repr) => repr
    case JStr(s) => s
    case JArr(items) => Join(seq(|items|, i requires 0 <= i < |items| => ElementText(items[i])), ",")
    case JObj(_) => "[object Object]"
  }

  /** `analysis.fields_to_extract`, ready for `.join(', ')`: anything but an array makes the call throw. */
  function FieldsOf(analysis: Json): (r: Result<seq<string>>)
    ensures r.Ok? <==> Get(analysis, "fields_to_extract").Some? && Get(analysis, "fields_to_extract").value.JArr?
    ensures r.Ok? ==> |r.value| == |Get(analysis, "fields_to_extract").value.items|
    ensures r.Err? ==> r.error == TypeError
  {
    match Get(analysis, "fields_to_extract")
    case Some(JArr(items)) => Ok(seq(|items|, i requires 0 <= i < |items| => ElementText(items[i])))
    case _ => Err(TypeError)
  }

  /** A list of strings reaches the prompt unchanged. */
  lemma StringFieldsPassThrough(analysis: Json, names: seq<string>)
    requires Get(analysis, "fields_to_extract") == Some(JArr(seq(|names|, i requires 0 <= i < |names| => JStr(names[i]))))
    ensures FieldsOf(analysis) == Ok(names)
  {
    var items := seq(|names|, i requires 0 <= i < |names| => JStr(names[i]));
    assert seq(|items|, i requires 0 <= i < |items| => ElementText(items[i])) == names;
  }

  /** `analysis.suggested_name`; a missing or non-string name is taken as "". */
  function SuggestedName(analysis: Json): (name: string)
    ensures Get(analysis, "suggested_name").Some? && Get(analysis, "suggested_name").value.JStr? ==>
      name == Get(analysis, "suggested_name").value.s
  {
    match Get(analysis, "suggested_name")
    case Some(JStr(s)) => s
    case _ => ""
  }

  const JustCreated := "เพิ่งสร้าง"

  /** `handleFinish`'s record: a fresh active project at full health, carrying what the wizard gathered. */
  function NewProject(id: string, analysis: Json, url: string, intent: string, code: string, saveToDrive: bool): (p: ScrapingProject)
    ensures p.id == id && p.targetUrl == url && p.intent == intent && p.spiderCode == code
    ensures p.name == SuggestedName(analysis)
    ensures p.status == Active && p.health == 100 && HealthDocumented(p) && p.lastRun == JustCreated
    ensures p.googleDriveEnabled == Some(saveToDrive) && p.investmentMetrics.None?
  {
    ScrapingProject(id, SuggestedName(analysis), url, intent, Active, 100, JustCreated, code, Some(saveToDrive), None)
  }

  /** The call a wizard is waiting for; a generation whose fields could not be read never reached the service. */
  datatype Flight = Analysing(intent: string, url: string) | Generating(request: Result<Service.Request>)

  class Wizard {
    var step: int
    var url: string
    var intent: string
    var saveToDrive: bool
    var loading: bool
    var analysis: Option<Json>
    var generatedCode: string
    var inFlight: Option<Flight>

    /** The step is 1, 2 or 3; loading means a call is in flight; later steps have an analysis, and
        an object one once its fields have been read. */
    predicate Valid()
      reads this
    {
      step in {1, 2, 3}
      && (loading <==> inFlight.Some?)
      && (step >= 2 ==> analysis.Some?)
      && (step == 3 ==> analysis.value.JObj?)
      && (inFlight.Some? && inFlight.value.Generating? && inFlight.value.request.Ok? ==>
            analysis.Some? && analysis.value.JObj?)
    }

    constructor()
      ensures Valid()
      ensures step == 1 && url == "" && intent == "" && !saveToDrive && !loading
      ensures analysis.None? && generatedCode == "" && GenerationCurrent() && StepTwoRenders()
    {
      step := 1;
      url := "";
      intent := "";
      saveToDrive := false;
      loading := false;
      analysis := None;
      generatedCode := "";
      inFlight := None;
    }

    /** The request the current inputs make from the analysis: its fields and the Drive flag, or a
        TypeError when the fields cannot be read. */
    function GenerationRequest(): Result<Service.Request>
      reads this
      requires analysis.Some?
    {
      var fields := FieldsOf(analysis.value);
      if fields.Ok? then Ok(Service.GenerateSpiderRequest(intent, url, fields.value, saveToDrive)) else Err(TypeError)
    }

    /** A generation in flight is awaited at step 2 and asked for the inputs the wizard still holds. */
    predicate GenerationCurrent()
      reads this
    {
      inFlight.Some? && inFlight.value.Generating? ==>
        step == 2 && analysis.Some? && inFlight.value.request == GenerationRequest()
    }

    /** Step 2 can draw its panel, which maps over the analysis' `fields_to_extract`: they form an array. */
    predicate StepTwoRenders()
      reads this
    {
      step == 2 ==> analysis.Some? && FieldsOf(analysis.value).Ok?
    }

    /** The URL field, rendered only at step 1. */
    method SetUrl(text: string)
      modifies this
      requires Valid() && step == 1
      ensures Valid() && url == text && step == old(step) && intent == old(intent) && saveToDrive == old(saveToDrive)
      ensures loading == old(loading) && analysis == old(analysis) && generatedCode == old(generatedCode)
      ensures inFlight == old(inFlight)
      ensures old(GenerationCurrent()) ==> GenerationCurrent()
    {
      url := text;
    }

    /** The intent field, rendered only at step 1. */
    method SetIntent(text: string)
      modifies this
      requires Valid() && step == 1
      ensures Valid() && intent == text && step == old(step) && url == old(url) && saveToDrive == old(saveToDrive)
      ensures loading == old(loading) && analysis == old(analysis) && generatedCode == old(generatedCode)
      ensures inFlight == old(inFlight)
      ensures old(GenerationCurrent()) ==> GenerationCurrent()
    {
      intent := text;
    }

    /** The Drive checkbox, rendered only at step 1. */
    method SetSaveToDrive(on: bool)
      modifies this
      requires Valid() && step == 1
      ensures Valid() && saveToDrive == on && step == old(step) && url == old(url) && intent == old(intent)
      ensures loading == old(loading) && analysis == old(analysis) && generatedCode == old(generatedCode)
      ensures inFlight == old(inFlight)
      ensures old(GenerationCurrent()) ==> GenerationCurrent()
    {
      saveToDrive := on;
    }

    /** `handleStartAnalysis` up to its `await`: nothing happens unless both URL and intent are filled in.
        (The button is disabled while loading.) */
    method StartAnalysis() returns (request: Option<Service.Request>)
      requires Valid() && !loading
      modifies this
      ensures Valid()
      ensures request.Some? <==> url != "" && intent != ""
      ensures request.Some? ==>
        request.value == Service.AnalyzeIntentRequest(intent, url)
        && loading && inFlight == Some(Analysing(intent, url))
      ensures request.None? ==> !loading && inFlight == old(inFlight)
      ensures step == old(step) && analysis == old(analysis) && generatedCode == old(generatedCode)
      ensures url == old(url) && intent == old(intent) && saveToDrive == old(saveToDrive)
      ensures GenerationCurrent() && (old(StepTwoRenders()) ==> StepTwoRenders())
    {
      if url == "" || intent == "" {
        return None;
      }
      loading := true;
      inFlight := Some(Analysing(intent, url));
      request := Some(Service.AnalyzeIntentRequest(intent, url));
    }

    /** The continuation: a parsed analysis moves to step 2, whatever it holds; a failure stays where it
        was. Loading ends either way. */
    method FinishAnalysis(reply: Result<Service.Reply>, parse: Parser)
      requires Valid() && inFlight.Some? && inFlight.value.Analysing?
      modifies this
      ensures Valid() && !loading
      ensures var res := Service.AnalyzeIntent(reply, parse);
        && (res.Ok? ==> step == 2 && analysis == Some(res.value))
        && (res.Err? ==> step == old(step) && analysis == old(analysis))
      ensures generatedCode == old(generatedCode) && url == old(url) && intent == old(intent)
      ensures saveToDrive == old(saveToDrive)
      ensures GenerationCurrent()
    {
      var res := Service.AnalyzeIntent(reply, parse);
      if res.Ok? {
        analysis := Some(res.value);
        step := 2;
      }
      loading := false;
      inFlight := None;
    }

    /** The continuation as evidently intended: only an analysis whose fields step 2 can list moves
        there; any other reply is treated like a failure. */
    method FinishAnalysisChecked(reply: Result<Service.Reply>, parse: Parser)
      requires Valid() && inFlight.Some? && inFlight.value.Analysing?
      modifies this
      ensures Valid() && !loading
      ensures var res := Service.AnalyzeIntent(reply, parse);
        && (res.Ok? && FieldsOf(res.value).Ok? ==> step == 2 && analysis == Some(res.value))
        && (res.Err? || FieldsOf(res.value).Err? ==> step == old(step) && analysis == old(analysis))
      ensures generatedCode == old(generatedCode) && url == old(url) && intent == old(intent)
      ensures saveToDrive == old(saveToDrive)
      ensures GenerationCurrent() && (old(StepTwoRenders()) ==> StepTwoRenders())
    {
      var res := Service.AnalyzeIntent(reply, parse);
      if res.Ok? && FieldsOf(res.value).Ok? {
        analysis := Some(res.value);
        step := 2;
      }
      loading := false;
      inFlight := None;
    }

    /** `handleGenerateSpider` up to its `await`; the fields and the Drive flag go into the request.
        (The button is shown at step 2 and disabled while loading.) */
    method StartGeneration() returns (request: Result<Service.Request>)
      requires Valid() && step == 2 && !loading
      modifies this
      ensures Valid() && loading
      ensures var fields := FieldsOf(old(analysis).value);
        && (fields.Ok? ==> request == Ok(Service.GenerateSpiderRequest(intent, url, fields.value, saveToDrive)))
        && (fields.Err? ==> request == Err(TypeError))
      ensures inFlight == Some(Generating(request))
      ensures step == old(step) && analysis == old(analysis) && generatedCode == old(generatedCode)
      ensures url == old(url) && intent == old(intent) && saveToDrive == old(saveToDrive)
      ensures GenerationCurrent() && (old(StepTwoRenders()) ==> StepTwoRenders() && request.Ok?)
    {
      request := GenerationRequest();
      loading := true;
      inFlight := Some(Generating(request));
    }

    /** The continuation: generated code moves to step 3; a failure (including a request that never
        went out) keeps the step. Loading ends either way. The step is 2, or 1 when Back was pressed
        while the call was out. */
    method FinishGeneration(reply: Result<Service.Reply>)
      requires Valid() && inFlight.Some? && inFlight.value.Generating?
      modifies this
      ensures Valid() && !loading
      ensures var sent := old(inFlight).value.request.Ok?;
        var code := Service.GenerateSpider(reply);
        && (sent && code.Ok? ==> step == 3 && generatedCode == code.value)
        && (!sent || code.Err? ==> step == old(step) && generatedCode == old(generatedCode))
      ensures analysis == old(analysis) && url == old(url) && intent == old(intent)
      ensures saveToDrive == old(saveToDrive)
      ensures GenerationCurrent() && (old(StepTwoRenders()) ==> StepTwoRenders())
      ensures old(GenerationCurrent()) ==> old(step) == 2 && old(inFlight).value.request == GenerationRequest()
    {
      var code := Service.GenerateSpider(reply);
      if inFlight.value.request.Ok? && code.Ok? {
        generatedCode := code.value;
        step := 3;
      }
      loading := false;
      inFlight := None;
    }

    /** The back button of step 2, which stays enabled while the spider is being generated. */
    method Back()
      requires Valid() && step == 2
      modifies this
      ensures Valid() && step == 1
      ensures analysis == old(analysis) && generatedCode == old(generatedCode) && loading == old(loading)
      ensures url == old(url) && intent == old(intent) && saveToDrive == old(saveToDrive)
      ensures inFlight == old(inFlight) && StepTwoRenders()
    {
      step := 1;
    }

    /** The back button disabled while loading, as the generate button beside it is: a generation in
        flight then always returns to step 2 with the inputs it was asked for. */
    method BackWhenIdle()
      requires Valid() && step == 2 && !loading
      modifies this
      ensures Valid() && step == 1
      ensures analysis == old(analysis) && generatedCode == old(generatedCode) && loading == old(loading)
      ensures url == old(url) && intent == old(intent) && saveToDrive == old(saveToDrive)
      ensures inFlight == old(inFlight)
      ensures GenerationCurrent() && StepTwoRenders()
    {
      step := 1;
    }

    /** `handleFinish` (the button of step 3): the project handed to the application. */
    method Finish(id: string) returns (p: ScrapingProject)
      requires Valid() && step == 3
      ensures p == NewProject(id, analysis.value, url, intent, generatedCode, saveToDrive)
      ensures p.status == Active && p.health == 100 && p.spiderCode == generatedCode
    {
      p := NewProject(id, analysis.value, url, intent, generatedCode, saveToDrive);
    }
  }

  /** As written, Back during a generation lets the Drive box change before the code arrives: the
      wizard reaches step 3 straight from step 1, holding code asked for with the other Drive flag. */
  method BackDuringGeneration(w: Wizard, reply: Result<Service.Reply>) returns (sent: Result<Service.Request>)
    requires w.Valid() && w.step == 2 && !w.loading && FieldsOf(w.analysis.value).Ok?
    requires Service.GenerateSpider(reply).Ok?
    modifies w
    ensures w.Valid() && w.step == 3 && w.generatedCode == Service.GenerateSpider(reply).value
    ensures w.saveToDrive == !old(w.saveToDrive) && w.analysis == old(w.analysis)
    ensures sent.Ok? && sent == Ok(Service.GenerateSpiderRequest(w.intent, w.url, FieldsOf(w.analysis.value).value, old(w.saveToDrive)))
    ensures sent != w.GenerationRequest()
  {
    sent := w.StartGeneration();
    w.Back();
    w.SetSaveToDrive(!w.saveToDrive);
    w.FinishGeneration(reply);
    var fields := FieldsOf(w.analysis.value).value;
    Service.SpiderRequestDependsOnlyOnDriveFlag(w.intent, w.intent, w.url, fields, old(w.saveToDrive), w.saveToDrive);
  }

  /** A reply without text is read as `{}`, which has no fields for step 2 to list. */
  lemma EmptyAnalysisHasNoFields(r: Service.Reply, parse: Parser)
    requires ParsesEmptyLiterals(parse)
    requires r.text.None? || r.text == Some("")
    ensures Service.AnalyzeIntent(Ok(r), parse) == Ok(JObj([]))
    ensures FieldsOf(Service.AnalyzeIntent(Ok(r), parse).value).Err?
  {
    Service.EmptyReplyGivesEmptyValue(r, parse);
  }

  /** As written, an analysis reply without text still moves to step 2, whose panel cannot be drawn;
      the checked continuation stays at step 1 and keeps the inputs for another try. */
  method EmptyAnalysisReachesStepTwo(w: Wizard, r: Service.Reply, parse: Parser)
    requires w.Valid() && w.step == 1 && w.inFlight.Some? && w.inFlight.value.Analysing?
    requires ParsesEmptyLiterals(parse)
    requires r.text.None? || r.text == Some("")
    modifies w
    ensures w.step == 2 && !w.StepTwoRenders() && !w.loading
  {
    EmptyAnalysisHasNoFields(r, parse);
    w.FinishAnalysis(Ok(r), parse);
  }

  /** The same reply under the checked continuation: the wizard stays at step 1, idle, and a later
      generation always has its fields. */
  method EmptyAnalysisStaysAtStepOne(w: Wizard, r: Service.Reply, parse: Parser)
    requires w.Valid() && w.step == 1 && w.inFlight.Some? && w.inFlight.value.Analysing?
    requires ParsesEmptyLiterals(parse)
    requires r.text.None? || r.text == Some("")
    modifies w
    ensures w.step == 1 && w.StepTwoRenders() && !w.loading && w.analysis == old(w.analysis)
  {
    EmptyAnalysisHasNoFields(r, parse);
    w.FinishAnalysisChecked(Ok(r), parse);
  }

  /** Reading fields succeeds exactly for objects whose `fields_to_extract` is an array, so a request
      only goes out for those, and its prompt lists the fields in order. */
  lemma GenerationRequestMentionsFields(analysis: Json, intent: string, url: string, saveToDrive: bool)
    requires FieldsOf(analysis).Ok?
    ensures var fields := FieldsOf(analysis).value;
      Contains(Service.GenerateSpiderRequest(intent, url, fields, saveToDrive).contents, Join(fields, ", "))
  {
    Service.SpiderPromptMentionsInputs(intent, url, FieldsOf(analysis).value, saveToDrive);
  }
}
