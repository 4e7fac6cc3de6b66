/**
 * The project overview: the count of running spiders, the status badge, the
 * health bar's colour, the demo badge and the simulated daily upsert banner.
 */
module Dashboard {
  import opened Wrappers
  import opened Text
  import opened Types
  import App

  // ------------------------------------------------------------ active spiders

  /** `projects.filter(p => p.status === 'active')`. */
  function ActiveProjects(ps: seq<ScrapingProject>): (r: seq<ScrapingProject>)
    ensures |r| <= |ps|
    ensures forall p | p in r :: p in ps && p.status == Active
    ensures forall p | p in ps && p.status == Active :: p in r
  {
    if ps == [] then []
    else
      var rest := ActiveProjects(ps[1..]);
      assert forall p | p in ps :: p == ps[0] || p in ps[1..];
      (if ps[0].status == Active then [ps[0]] else []) + rest
  }

  /** The number shown on the "running spiders" card. */
  function ActiveCount(ps: seq<ScrapingProject>): nat
  {
    |ActiveProjects(ps)|
  }

  /** The count adds up over a concatenation, so it is the number of active entries. */
  lemma {:induction false} ActiveCountAppend(a: seq<ScrapingProject>, b: seq<ScrapingProject>)
    ensures ActiveCount(a + b) == ActiveCount(a) + ActiveCount(b)
    decreases |a|
  {
    if a == [] {
      assert a + b == b;
    } else {
      assert (a + b)[1..] == a[1..] + b;
      ActiveCountAppend(a[1..], b);
    }
  }

  /** No project runs exactly when the count is 0; every project runs exactly when it is the length. */
  lemma {:induction false} ActiveCountBounds(ps: seq<ScrapingProject>)
    ensures ActiveCount(ps) <= |ps|
    ensures ActiveCount(ps) == 0 <==> forall p | p in ps :: p.status != Active
    ensures ActiveCount(ps) == |ps| <==> forall p | p in ps :: p.status == Active
    decreases |ps|
  {
    if ps != [] {
      ActiveCountBounds(ps[1..]);
      assert forall p | p in ps :: p == ps[0] || p in ps[1..];
      assert forall p | p in ps[1..] :: p in ps;
      if ps[0].status != Active {
        assert ps[0] in ps;
      }
    }
  }

  /** A project added by the wizard (always active) raises the count by one. */
  lemma AddedProjectRuns(p: ScrapingProject, ps: seq<ScrapingProject>)
    requires p.status == Active
    ensures ActiveCount([p] + ps) == ActiveCount(ps) + 1
  {
    assert ([p] + ps)[1..] == ps;
  }

  /** Editing code or the Drive flag never changes the count; setting a status moves it by at most
      the number of edited records, in the direction of the new status. */
  lemma {:induction false} EditsAndActiveCount(ps: seq<ScrapingProject>, id: string, e: App.Edit)
    ensures !e.SetStatus? ==> ActiveCount(App.UpdateById(ps, id, e)) == ActiveCount(ps)
    ensures e == App.SetStatus(Active) ==> ActiveCount(App.UpdateById(ps, id, e)) >= ActiveCount(ps)
    ensures e.SetStatus? && e.status != Active ==> ActiveCount(App.UpdateById(ps, id, e)) <= ActiveCount(ps)
    decreases |ps|
  {
    if ps != [] {
      EditsAndActiveCount(ps[1..], id, e);
      assert App.UpdateById(ps, id, e)[1..] == App.UpdateById(ps[1..], id, e);
    }
  }

  // ------------------------------------------------------------ status and health

  const RunningLabel := "กำลังทำงาน"
  const FailedLabel := "ล้มเหลว"
  const PausedLabel := "หยุดพัก"

  /** The status badge's text: running, failed, or paused for every other status. */
  function StatusLabel(s: Status): (text: string)
    ensures text == RunningLabel <==> s == Active
    ensures text == FailedLabel <==> s == Failed
    ensures text == PausedLabel <==> s == Paused || s == Deploying
  {
    assert RunningLabel[0] != PausedLabel[0] && FailedLabel[0] != PausedLabel[0] && RunningLabel[0] != FailedLabel[0];
    match s
    case Active => RunningLabel
    case Failed => FailedLabel
    case Paused | Deploying => PausedLabel
  }

  /** The health bar's colour; the detail screen's gauge uses the same thresholds. */
  datatype HealthColour = Red | Amber | Green

  function ColourRank(c: HealthColour): nat
  {
    match c
    case Red => 0
    case Amber => 1
    case Green => 2
  }

  function HealthTier(health: int): (c: HealthColour)
    ensures c == Green <==> health > 80
    ensures c == Amber <==> 50 < health <= 80
    ensures c == Red <==> health <= 50
  {
    if health > 80 then Green else if health > 50 then Amber else Red
  }

  /** Better health never shows a worse colour. */
  lemma HealthTierMonotone(a: int, b: int)
    requires a <= b
    ensures ColourRank(HealthTier(a)) <= ColourRank(HealthTier(b))
  {
  }

  /** A project at full health, as every newly created one is, shows green. */
  lemma FullHealthIsGreen(p: ScrapingProject)
    requires p.health == 100
    ensures HealthTier(p.health) == Green
  {
  }

  // ------------------------------------------------------------ demo badge

  const DemoPrefix := "demo-"

  /** `project.id.startsWith('demo-')`. */
  predicate DemoBadge(id: string)
  {
    StartsWith(id, DemoPrefix)
  }

  /** The badge shows for every id made of the prefix and anything after it, and only for those. */
  lemma DemoBadgeExactly(id: string, rest: string)
    ensures DemoBadge(DemoPrefix + rest)
    ensures DemoBadge(id) <==> exists tail :: id == DemoPrefix + tail
  {
    assert (DemoPrefix + rest)[..5] == DemoPrefix;
    if DemoBadge(id) {
      assert id == DemoPrefix + id[5..];
    }
  }

  // ------------------------------------------------------------ daily upsert banner

  datatype UpsertResult = UpsertResult(updated: nat, inserted: nat)

  const DailyResult := UpsertResult(1420, 85)

  /** The banner's state: whether an upsert is running, and the result shown, if any. */
  datatype UpsertBanner = UpsertBanner(isUpserting: bool, result: Option<UpsertResult>)

  const Idle := UpsertBanner(false, None)

  /** The button (disabled while an upsert runs): the old result disappears. */
  function StartUpsert(b: UpsertBanner): (n: UpsertBanner)
    requires !b.isUpserting
    ensures n.isUpserting && n.result.None?
  {
    UpsertBanner(true, None)
  }

  /** The 2.5 s timeout: the upsert ends with its fixed result. */
  function CompleteUpsert(b: UpsertBanner): (n: UpsertBanner)
    requires b.isUpserting
    ensures !n.isUpserting && n.result == Some(DailyResult)
  {
    UpsertBanner(false, Some(DailyResult))
  }

  /** The banner's close button, or the 5 s timeout after completion. */
  function DismissResult(b: UpsertBanner): (n: UpsertBanner)
    ensures n.isUpserting == b.isUpserting && n.result.None?
  {
    b.(result := None)
  }

  /** A full cycle from any idle banner: the fixed result shows, then the banner is idle again. */
  lemma UpsertCycle(b: UpsertBanner)
    requires !b.isUpserting
    ensures StartUpsert(b).result.None?
    ensures CompleteUpsert(StartUpsert(b)).result == Some(UpsertResult(1420, 85))
    ensures DismissResult(CompleteUpsert(StartUpsert(b))) == Idle
  {
  }
}
