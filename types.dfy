/** The shared records of the dashboard: projects, chat messages and views. */
module Types {
  import opened Wrappers

  /** The four states a scraping project can be in. */
  datatype Status = Active | Paused | Failed | Deploying

  /** The string literal each status is written as. */
  function StatusText(s: Status): string {
    match s
    case Active => "active"
    case Paused => "paused"
    case Failed => "failed"
    case Deploying => "deploying"
  }

  /** Reads a status literal; any other text is not a status. */
  function ParseStatus(t: string): (r: Option<Status>)
    ensures r.Some? <==> t in {"active", "paused", "failed", "deploying"}
  {
    if t == "active" then Some(Active)
    else if t == "paused" then Some(Paused)
    else if t == "failed" then Some(Failed)
    else if t == "deploying" then Some(Deploying)
    else None
  }

  datatype InvestmentMetrics = InvestmentMetrics(totalItems: int, avgPriceGap: real, topRankingAssets: int)

  /** One scraping project; `health` is a percentage (documented as 0-100, not enforced). */
  datatype ScrapingProject = ScrapingProject(
    id: string,
    name: string,
    targetUrl: string,
    intent: string,
    status: Status,
    health: int,
    lastRun: string,
    spiderCode: string,
    googleDriveEnabled: Option<bool>,
    investmentMetrics: Option<InvestmentMetrics>)

  /** The documented range of `health`. */
  predicate HealthDocumented(p: ScrapingProject) {
    0 <= p.health <= 100
  }

  datatype Role = User | Model

  /** A web citation `{web: {uri, title}}`. */
  datatype Web = Web(uri: string, title: string)
  datatype Source = Source(web: Web)

  datatype ChatMessage = ChatMessage(role: Role, text: string, isThinking: Option<bool>, sources: Option<seq<Source>>)

  /** The screens of the application. */
  datatype AppView = Dashboard | Wizard | ProjectDetail | AhpRanking | Logs | DriveExplorer | Settings

  /** The string value of each view. */
  function ViewName(v: AppView): string {
    match v
    case Dashboard => "DASHBOARD"
    case Wizard => "WIZARD"
    case ProjectDetail => "PROJECT_DETAIL"
    case AhpRanking => "AHP_RANKING"
    case Logs => "LOGS"
    case DriveExplorer => "DRIVE_EXPLORER"
    case Settings => "SETTINGS"
  }

  const AllViews: seq<AppView> := [Dashboard, Wizard, ProjectDetail, AhpRanking, Logs, DriveExplorer, Settings]

  /** A ranked auction asset as the AHP ranking screen holds it (components/DataInsights.tsx). */
  datatype RankedAsset = RankedAsset(
    id: string, score: real, kind: string, location: string, province: string,
    startPrice: int, appraisal: int, gap: int, occupancy: string, trend: string)

  // ---------------------------------------------------------------- lemmas

  /** Status literals and statuses correspond one to one. */
  lemma StatusRoundTrip(s: Status, t: string)
    ensures ParseStatus(StatusText(s)) == Some(s)
    ensures ParseStatus(t) == Some(s) ==> StatusText(s) == t
  {
  }

  /** There are exactly seven views, all distinct, with distinct string values. */
  lemma SevenViews(v: AppView, w: AppView)
    ensures |AllViews| == 7 && v in AllViews
    ensures forall i, j :: 0 <= i < j < |AllViews| ==> AllViews[i] != AllViews[j]
    ensures ViewName(v) == ViewName(w) ==> v == w
  {
  }
}
