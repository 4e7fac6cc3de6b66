/**
 * The application shell: the list of scraping projects, the screen being
 * shown and the project selected for the detail screen.
 */
module App {
  import opened Wrappers
  import opened Types

  /** The three record updates the detail screen can ask for. */
  datatype Edit = SetStatus(status: Status) | SetCode(code: string) | SetDrive(enabled: bool)

  /** `{ ...p, field: value }` for the field the edit names. */
  function Apply(p: ScrapingProject, e: Edit): (r: ScrapingProject)
    ensures r.id == p.id && r.name == p.name && r.targetUrl == p.targetUrl && r.intent == p.intent
    ensures r.health == p.health && r.lastRun == p.lastRun && r.investmentMetrics == p.investmentMetrics
    ensures r.status == (if e.SetStatus? then e.status else p.status)
    ensures r.spiderCode == (if e.SetCode? then e.code else p.spiderCode)
    ensures r.googleDriveEnabled == (if e.SetDrive? then Some(e.enabled) else p.googleDriveEnabled)
  {
    match e
    case SetStatus(s) => p.(status := s)
    case SetCode(c) => p.(spiderCode := c)
    case SetDrive(b) => p.(googleDriveEnabled := Some(b))
  }

  /** `prev.map(p => p.id === id ? { ...p, ... } : p)`. */
  function UpdateById(ps: seq<ScrapingProject>, id: string, e: Edit): (r: seq<ScrapingProject>)
    ensures |r| == |ps|
  {
    if ps == [] then []
    else [if ps[0].id == id then Apply(ps[0], e) else ps[0]] + UpdateById(ps[1..], id, e)
  }

  /** Only records with the matching id change, and only through the edit; order and ids are kept. */
  lemma {:induction false} UpdateOnlyMatching(ps: seq<ScrapingProject>, id: string, e: Edit)
    ensures var r := UpdateById(ps, id, e);
      forall i | 0 <= i < |ps| :: r[i] == (if ps[i].id == id then Apply(ps[i], e) else ps[i])
    decreases |ps|
  {
    if ps != [] {
      UpdateOnlyMatching(ps[1..], id, e);
      var r := UpdateById(ps, id, e);
      forall i | 0 < i < |ps|
        ensures r[i] == (if ps[i].id == id then Apply(ps[i], e) else ps[i])
      {
        assert r[i] == UpdateById(ps[1..], id, e)[i - 1];
      }
    }
  }

  /** Applying the same edit twice is the same as applying it once. */
  lemma UpdateIdempotent(ps: seq<ScrapingProject>, id: string, e: Edit)
    ensures UpdateById(UpdateById(ps, id, e), id, e) == UpdateById(ps, id, e)
  {
    var once := UpdateById(ps, id, e);
    UpdateOnlyMatching(ps, id, e);
    UpdateOnlyMatching(once, id, e);
  }

  /** An id that names no project leaves the list as it was. */
  lemma UpdateNoMatch(ps: seq<ScrapingProject>, id: string, e: Edit)
    requires forall p | p in ps :: p.id != id
    ensures UpdateById(ps, id, e) == ps
  {
    UpdateOnlyMatching(ps, id, e);
  }

  /** The first project with the given id (`projects.find`); a null id finds nothing. */
  function FindProject(ps: seq<ScrapingProject>, id: Option<string>): (r: Option<ScrapingProject>)
    ensures r.Some? <==> id.Some? && exists p | p in ps :: p.id == id.value
    ensures r.Some? ==> exists k | 0 <= k < |ps| ::
      ps[k] == r.value && r.value.id == id.value && forall j | 0 <= j < k :: ps[j].id != id.value
  {
    if id.None? || ps == [] then None
    else if ps[0].id == id.value then Some(ps[0])
    else
      var r := FindProject(ps[1..], id);
      if r.Some? then
        var k :| 0 <= k < |ps[1..]| && ps[1..][k] == r.value && r.value.id == id.value
          && forall j | 0 <= j < k :: ps[1..][j].id != id.value;
        assert ps[k + 1] == r.value;
        r
      else
        assert forall p | p in ps :: p == ps[0] || p in ps[1..];
        r
  }

  /** The sidebar entries, in display order. */
  const NavItems: seq<(AppView, string)> := [
    (Dashboard, "แดชบอร์ดลงทุน"),
    (AhpRanking, "อันดับความน่าลงทุน (AHP)"),
    (DriveExplorer, "คลังข้อมูล Drive"),
    (Logs, "บันทึกระบบ")
  ]

  /** The label of the first sidebar entry for `v` (`navItems.find(...)?.label`). */
  function NavLabel(items: seq<(AppView, string)>, v: AppView): (r: Option<string>)
    ensures r.Some? <==> exists k | 0 <= k < |items| :: items[k].0 == v
    ensures r.Some? ==> exists k | 0 <= k < |items| :: items[k] == (v, r.value)
  {
    if items == [] then None
    else if items[0].0 == v then Some(items[0].1)
    else
      var r := NavLabel(items[1..], v);
      if r.Some? then
        var k :| 0 <= k < |items[1..]| && items[1..][k] == (v, r.value);
        assert items[k + 1] == (v, r.value);
        r
      else
        assert forall k | 1 <= k < |items| :: items[k] == items[1..][k - 1];
        r
  }

  /** The page heading for a view. */
  function HeaderTitle(v: AppView): (r: string)
    ensures v == Settings ==> r == "System Configuration"
    ensures v != Settings && NavLabel(NavItems, v).Some? && NavLabel(NavItems, v).value != "" ==> r == NavLabel(NavItems, v).value
    ensures v != Settings && (NavLabel(NavItems, v).None? || NavLabel(NavItems, v) == Some("")) ==> r == "System OverView"
  {
    if v == Settings then "System Configuration"
    else
      var title := NavLabel(NavItems, v);
      if title.Some? && title.value != "" then title.value else "System OverView"
  }

  /** Every sidebar view shows its own label; the wizard and the detail screen fall back to the generic title. */
  lemma HeaderTitles()
    ensures HeaderTitle(Dashboard) == "แดชบอร์ดลงทุน"
    ensures HeaderTitle(AhpRanking) == "อันดับความน่าลงทุน (AHP)"
    ensures HeaderTitle(DriveExplorer) == "คลังข้อมูล Drive"
    ensures HeaderTitle(Logs) == "บันทึกระบบ"
    ensures HeaderTitle(Wizard) == "System OverView" && HeaderTitle(ProjectDetail) == "System OverView"
  {
    assert NavItems[0].0 == Dashboard;
    assert NavItems[1].0 == AhpRanking;
    assert NavItems[2].0 == DriveExplorer;
    assert NavItems[3].0 == Logs;
  }

  /** What the detail screen shows: the selected project, or the not-found message. */
  datatype DetailScreen = Shown(project: ScrapingProject) | NotFound

  /** The shell's state, as held by `useState` in the App component. */
  class AppState {
    var projects: seq<ScrapingProject>
    var currentView: AppView
    var selectedProjectId: Option<string>

    constructor(initial: seq<ScrapingProject>)
      ensures projects == initial && currentView == Dashboard && selectedProjectId.None?
    {
      projects := initial;
      currentView := Dashboard;
      selectedProjectId := None;
    }

    /** The wizard's completion: the new project goes first and the dashboard is shown. */
    method AddProject(p: ScrapingProject)
      modifies this
      ensures projects == [p] + old(projects)
      ensures currentView == Dashboard && selectedProjectId == old(selectedProjectId)
    {
      projects := [p] + projects;
      currentView := Dashboard;
    }

    /** `updateProjectStatus`, `updateProjectCode` and `updateProjectDriveSetting`. */
    method Update(id: string, e: Edit)
      modifies this
      ensures projects == UpdateById(old(projects), id, e)
      ensures currentView == old(currentView) && selectedProjectId == old(selectedProjectId)
    {
      projects := UpdateById(projects, id, e);
    }

    /** Clicking a project card on the dashboard. */
    method SelectProject(id: string)
      modifies this
      ensures selectedProjectId == Some(id) && currentView == ProjectDetail && projects == old(projects)
    {
      selectedProjectId := Some(id);
      currentView := ProjectDetail;
    }

    /** A sidebar button, the settings button, or a cancel/back link. */
    method Navigate(v: AppView)
      modifies this
      ensures currentView == v && projects == old(projects) && selectedProjectId == old(selectedProjectId)
    {
      currentView := v;
    }

    /** The detail screen's content for the selected id. */
    method DetailView() returns (screen: DetailScreen)
      ensures screen.Shown? <==> selectedProjectId.Some? && exists p | p in projects :: p.id == selectedProjectId.value
      ensures screen.Shown? ==> exists k | 0 <= k < |projects| ::
        projects[k] == screen.project && screen.project.id == selectedProjectId.value
        && forall j | 0 <= j < k :: projects[j].id != selectedProjectId.value
    {
      var found := FindProject(projects, selectedProjectId);
      screen := if found.Some? then Shown(found.value) else NotFound;
    }
  }
}
