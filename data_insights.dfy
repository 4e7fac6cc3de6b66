/**
 * The AHP ranking screen: the daily-sync progress counter, the score tiers of
 * the ranked assets, the strategy report on the top three assets and the
 * provincial breakdown.
 */
module DataInsights {
  import opened Wrappers
  import opened Text
  import opened Json
  import opened Types
  import Service

  // ------------------------------------------------------------ daily sync counter

  const TotalRecords: nat := 94016
  const SyncDuration: nat := 2500    // ms
  const SyncInterval: nat := 40      // ms

  /** `Math.ceil(total / (duration / interval))`: the least whole step that covers the total
      in duration / interval ticks. */
  function Increment(total: nat, duration: nat, interval: nat): (k: nat)
    requires duration > 0
    ensures k * duration >= total * interval
    ensures k == 0 || (k - 1) * duration < total * interval
  {
    (total * interval + duration - 1) / duration
  }

  /** How far the counter moves on each tick. */
  const SyncStep: nat := Increment(TotalRecords, SyncDuration, SyncInterval)

  /** The increment for the dashboard's constants. */
  lemma SyncIncrement()
    ensures SyncStep == 1505
  {
  }

  /** One tick of the counter: a count that has reached the total becomes the total; otherwise it grows. */
  function SyncNext(prev: int): int
  {
    if prev >= TotalRecords then TotalRecords else prev + SyncStep
  }

  /** The count after `n` ticks from 0. */
  function SyncAfter(n: nat): int
  {
    if n == 0 then 0 else SyncNext(SyncAfter(n - 1))
  }

  /** Up to tick 63 the counter has only been adding. */
  lemma {:induction false} SyncLinear(n: nat)
    requires n <= 63
    ensures SyncAfter(n) == n * SyncStep
  {
    if n > 0 {
      SyncLinear(n - 1);
    }
  }

  /** The counter overshoots at tick 63 (94815), is clamped to 94016 at tick 64, and stays there. */
  lemma {:induction false} SyncOvershootThenClamp(n: nat)
    requires n >= 64
    ensures SyncAfter(63) == 94815 && SyncAfter(63) > TotalRecords
    ensures SyncAfter(62) < TotalRecords
    ensures SyncAfter(n) == TotalRecords
  {
    SyncLinear(63);
    SyncLinear(62);
    if n > 64 {
      SyncOvershootThenClamp(n - 1);
    }
  }

  // ------------------------------------------------------------ score tiers

  datatype Tier = Grey | Blue | Premium

  function TierRank(t: Tier): nat
  {
    match t
    case Grey => 0
    case Blue => 1
    case Premium => 2
  }

  /** The bar colour of an asset's score. */
  function ScoreTier(score: real): (t: Tier)
    ensures t == Premium <==> score >= 9.0
    ensures t == Blue <==> 8.5 <= score < 9.0
    ensures t == Grey <==> score < 8.5
  {
    if score >= 9.0 then Premium else if score >= 8.5 then Blue else Grey
  }

  /** A higher score never gets a lower tier. */
  lemma TierMonotone(a: real, b: real)
    requires a <= b
    ensures TierRank(ScoreTier(a)) <= TierRank(ScoreTier(b))
  {
  }

  // ------------------------------------------------------------ strategy and provinces

  /** `rankedAssets.slice(0, 3)`. */
  function TopThree(assets: seq<RankedAsset>): (top: seq<RankedAsset>)
    ensures |top| == if |assets| < 3 then |assets| else 3
    ensures forall i | 0 <= i < |top| :: top[i] == assets[i]
  {
    if |assets| <= 3 then assets else assets[..3]
  }

  const DefaultIntent := "General LED Investment"

  /** `projects[0]?.intent || "General LED Investment"`. */
  function ProvincialIntent(projects: seq<ScrapingProject>): (intent: string)
    ensures projects == [] ==> intent == DefaultIntent
    ensures projects != [] && projects[0].intent != "" ==> intent == projects[0].intent
    ensures projects != [] && projects[0].intent == "" ==> intent == DefaultIntent
  {
    if projects == [] then DefaultIntent else OrElse(Some(projects[0].intent), DefaultIntent)
  }

  /** `result.top_provinces` as written: absent when the reply has no such key. */
  function ProvincesAsWritten(result: Json): Option<Json>
  {
    Get(result, "top_provinces")
  }

  /** `result.top_provinces || []`: a missing or empty list becomes the empty list. */
  function Provinces(result: Json): (list: Json)
    ensures Falsy(Get(result, "top_provinces")) ==> list == JArr([])
    ensures !Falsy(Get(result, "top_provinces")) ==> list == Get(result, "top_provinces").value
  {
    if Falsy(Get(result, "top_provinces")) then JArr([]) else Get(result, "top_provinces").value
  }

  /** The list can be rendered with `.map` only when it is an array. */
  predicate Renderable(list: Option<Json>)
  {
    list.Some? && list.value.JArr?
  }

  /** As written, an absent reply text parses to `{}` and leaves the province list undefined,
      so the provincial view's `.map` throws. */
  lemma EmptyReplyBreaksProvinceList(parse: Parser)
    requires ParsesEmptyLiterals(parse)
    ensures Service.AnalyzeProvincialBreakdown(Ok(Service.Reply(None, None)), parse) == Ok(JObj([]))
    ensures !Renderable(ProvincesAsWritten(JObj([])))
  {
  }

  /** With the default, every reply without a list, or with an array, leaves a renderable list,
      and an empty reply leaves the empty one. */
  lemma ProvincesAlwaysRenderable(result: Json, parse: Parser)
    requires ParsesEmptyLiterals(parse)
    ensures Get(result, "top_provinces").None? || Get(result, "top_provinces").value.JArr? ==>
      Renderable(Some(Provinces(result)))
    ensures var empty := Service.AnalyzeProvincialBreakdown(Ok(Service.Reply(None, None)), parse);
      empty.Ok? && Provinces(empty.value) == JArr([])
  {
  }

  // ------------------------------------------------------------ screen state

  datatype ViewMode = Ranking | Provincial

  class InsightsScreen {
    const rankedAssets: seq<RankedAsset>
    var isSyncing: bool
    var syncProgress: int
    var showUpsertAlert: bool
    var timerRunning: bool
    ghost var ticks: nat
    var isAnalyzingStrategy: bool
    var strategyReport: Option<Service.Grounded>
    var isAnalyzingProvince: bool
    var provincialResults: Json
    var marketInsight: Option<Json>
    var viewMode: ViewMode

    /** While the sync timer runs, the count is the count after the ticks so far; it only stops once clamped. */
    ghost predicate Valid()
      reads this
    {
      (timerRunning ==> isSyncing && syncProgress == SyncAfter(ticks) && ticks <= 63)
      && (isSyncing && !timerRunning ==> syncProgress == TotalRecords)
    }

    /** The daily sync: its flag, its count, its alert and its timer. */
    function SyncPart(): (bool, int, bool, bool)
      reads this
    {
      (isSyncing, syncProgress, showUpsertAlert, timerRunning)
    }

    /** The strategy report and its flag. */
    function StrategyPart(): (bool, Option<Service.Grounded>)
      reads this
    {
      (isAnalyzingStrategy, strategyReport)
    }

    /** The provincial breakdown: its flag, its results and the view showing them. */
    function ProvincePart(): (bool, Json, Option<Json>, ViewMode)
      reads this
    {
      (isAnalyzingProvince, provincialResults, marketInsight, viewMode)
    }

    constructor(assets: seq<RankedAsset>)
      ensures Valid() && rankedAssets == assets
      ensures !isSyncing && syncProgress == 0 && !showUpsertAlert && !timerRunning
      ensures !isAnalyzingStrategy && strategyReport.None?
      ensures !isAnalyzingProvince && provincialResults == JArr([]) && marketInsight.None? && viewMode == Ranking
    {
      rankedAssets := assets;
      isSyncing := false;
      syncProgress := 0;
      showUpsertAlert := false;
      timerRunning := false;
      ticks := 0;
      isAnalyzingStrategy := false;
      strategyReport := None;
      isAnalyzingProvince := false;
      provincialResults := JArr([]);
      marketInsight := None;
      viewMode := Ranking;
    }

    /** The ticks left before the sync timer stops: 63 that add and the one that clamps. */
    ghost function TicksLeft(): nat
      reads this
      requires Valid()
    {
      if timerRunning then 64 - ticks else 0
    }

    /** The sync button (disabled while syncing): restart the counter and its timer. */
    method StartSync()
      requires Valid() && !isSyncing
      modifies this
      ensures Valid() && isSyncing && timerRunning && syncProgress == 0 && !showUpsertAlert
      ensures TicksLeft() == 64
      ensures StrategyPart() == old(StrategyPart()) && ProvincePart() == old(ProvincePart())
    {
      isSyncing := true;
      syncProgress := 0;
      showUpsertAlert := false;
      timerRunning := true;
      ticks := 0;
    }

    /** One 40 ms tick of the sync timer. */
    method SyncTick()
      requires Valid() && timerRunning
      modifies this
      ensures Valid() && isSyncing
      ensures syncProgress == SyncNext(old(syncProgress))
      ensures timerRunning <==> old(syncProgress) < TotalRecords
      ensures TicksLeft() == old(TicksLeft()) - 1
      ensures showUpsertAlert == old(showUpsertAlert)
      ensures StrategyPart() == old(StrategyPart()) && ProvincePart() == old(ProvincePart())
    {
      if ticks == 63 {
        SyncLinear(63);
      } else {
        SyncLinear(ticks);
      }
      if syncProgress >= TotalRecords {
        timerRunning := false;
        syncProgress := TotalRecords;
      } else {
        syncProgress := syncProgress + SyncStep;
        ticks := ticks + 1;
      }
    }

    /** The 400 ms timeout after the timer stops: syncing ends and the alert shows. */
    method SyncSettled()
      requires Valid() && isSyncing && !timerRunning
      modifies this
      ensures Valid() && !isSyncing && showUpsertAlert && syncProgress == TotalRecords && !timerRunning
      ensures StrategyPart() == old(StrategyPart()) && ProvincePart() == old(ProvincePart())
    {
      isSyncing := false;
      showUpsertAlert := true;
    }

    /** The alert's close button, or the 5 s timeout the settle step schedules. */
    method HideAlert()
      modifies this
      requires Valid()
      ensures Valid() && !showUpsertAlert
      ensures isSyncing == old(isSyncing) && syncProgress == old(syncProgress) && timerRunning == old(timerRunning)
      ensures ticks == old(ticks)
      ensures StrategyPart() == old(StrategyPart()) && ProvincePart() == old(ProvincePart())
    {
      showUpsertAlert := false;
    }

    /** The provincial view's close button. */
    method ShowRanking()
      modifies this
      requires Valid()
      ensures Valid() && viewMode == Ranking
      ensures isAnalyzingProvince == old(isAnalyzingProvince) && provincialResults == old(provincialResults)
      ensures marketInsight == old(marketInsight)
      ensures SyncPart() == old(SyncPart()) && ticks == old(ticks) && StrategyPart() == old(StrategyPart())
    {
      viewMode := Ranking;
    }

    /** `handleGenerateStrategy` up to its `await`: only the first three assets are sent. */
    method StartStrategy() returns (request: Service.Request)
      requires Valid()
      modifies this
      ensures Valid() && isAnalyzingStrategy
      ensures request == Service.AnalyzeStrategicOpportunitiesRequest(TopThree(rankedAssets))
      ensures strategyReport == old(strategyReport)
      ensures SyncPart() == old(SyncPart()) && ticks == old(ticks) && ProvincePart() == old(ProvincePart())
    {
      isAnalyzingStrategy := true;
      request := Service.AnalyzeStrategicOpportunitiesRequest(TopThree(rankedAssets));
    }

    /** The continuation: a report replaces the old one; a failure keeps it. */
    method FinishStrategy(reply: Result<Service.Reply>)
      requires Valid()
      modifies this
      ensures Valid() && !isAnalyzingStrategy
      ensures var r := Service.AnalyzeStrategicOpportunities(reply);
        strategyReport == (if r.Ok? then Some(r.value) else old(strategyReport))
      ensures SyncPart() == old(SyncPart()) && ticks == old(ticks) && ProvincePart() == old(ProvincePart())
    {
      var r := Service.AnalyzeStrategicOpportunities(reply);
      if r.Ok? {
        strategyReport := Some(r.value);
      }
      isAnalyzingStrategy := false;
    }

    /** The report's close button. */
    method CloseReport()
      requires Valid()
      modifies this
      ensures Valid() && strategyReport.None? && isAnalyzingStrategy == old(isAnalyzingStrategy)
      ensures SyncPart() == old(SyncPart()) && ticks == old(ticks) && ProvincePart() == old(ProvincePart())
    {
      strategyReport := None;
    }

    /** `handleProvincialDeepDive` up to its `await`: the view switches first, then the request goes out. */
    method StartProvincial(projects: seq<ScrapingProject>) returns (request: Service.Request)
      requires Valid()
      modifies this
      ensures Valid() && isAnalyzingProvince && viewMode == Provincial
      ensures request == Service.AnalyzeProvincialBreakdownRequest(TotalRecords, ProvincialIntent(projects))
      ensures provincialResults == old(provincialResults) && marketInsight == old(marketInsight)
      ensures SyncPart() == old(SyncPart()) && ticks == old(ticks) && StrategyPart() == old(StrategyPart())
    {
      isAnalyzingProvince := true;
      viewMode := Provincial;
      request := Service.AnalyzeProvincialBreakdownRequest(TotalRecords, ProvincialIntent(projects));
    }

    /** The continuation: the province list (defaulting to empty) and the insight are stored;
        a failure, or a `null` result, keeps the old ones. */
    method FinishProvincial(reply: Result<Service.Reply>, parse: Parser)
      requires Valid()
      modifies this
      ensures Valid() && !isAnalyzingProvince
      ensures var r := Service.AnalyzeProvincialBreakdown(reply, parse);
        && (r.Ok? && r.value != JNull ==>
              provincialResults == Provinces(r.value) && marketInsight == Get(r.value, "market_insight"))
        && (r.Err? || r.value == JNull ==>
              provincialResults == old(provincialResults) && marketInsight == old(marketInsight))
      ensures viewMode == old(viewMode)
      ensures SyncPart() == old(SyncPart()) && ticks == old(ticks) && StrategyPart() == old(StrategyPart())
    {
      var r := Service.AnalyzeProvincialBreakdown(reply, parse);
      if r.Ok? && r.value != JNull {
        provincialResults := Provinces(r.value);
        marketInsight := Get(r.value, "market_insight");
      }
      isAnalyzingProvince := false;
    }
  }

  /** The assets the screen starts with, highest score first. */
  const Fixture: seq<RankedAsset> := [
    RankedAsset("LED-BK-001", 9.8, "บ้านเดี่ยว", "ปราจีนบุรี (เมือง)", "ปราจีนบุรี", 1200000, 2500000, 52, "ว่าง", "up"),
    RankedAsset("LED-BK-042", 9.2, "ที่ดินเปล่า", "กบินทร์บุรี", "ปราจีนบุรี", 450000, 900000, 50, "ว่าง", "stable"),
    RankedAsset("LED-BK-115", 8.7, "ทาวน์เฮ้าส์", "เมืองปราจีน", "ปราจีนบุรี", 800000, 1400000, 43, "มีผู้อาศัย", "up"),
    RankedAsset("LED-BK-209", 8.5, "คอนโด", "ศรีมหาโพธิ", "ปราจีนบุรี", 550000, 950000, 42, "ว่าง", "down"),
    RankedAsset("LED-BK-301", 7.9, "ที่ดินเปล่า", "นาดี", "ปราจีนบุรี", 1500000, 2400000, 37, "ว่าง", "up")
  ]

  /** The strategy report covers the three best fixture assets: two premium and one blue. */
  lemma FixtureStrategy()
    ensures |TopThree(Fixture)| == 3
    ensures forall a | a in TopThree(Fixture) :: a.score >= 8.5
    ensures ScoreTier(Fixture[0].score) == Premium && ScoreTier(Fixture[1].score) == Premium
    ensures ScoreTier(Fixture[2].score) == Blue && ScoreTier(Fixture[3].score) == Blue
    ensures ScoreTier(Fixture[4].score) == Grey
  {
  }
}
