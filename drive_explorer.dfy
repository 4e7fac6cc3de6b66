/**
 * The Drive folder navigator: a flat list of files linked to their folders
 * through `parentId`, a breadcrumb trail that walks those links up to the
 * root, and a listing that shows either the current folder or every file
 * matching a case-insensitive search.
 */
module DriveExplorer {
  import opened Wrappers
  import opened Text

  datatype FileKind = Csv | JsonFile | Folder | Txt | Py

  /** One entry of the drive; `parentId` is None for entries at the root. */
  datatype DriveFile = DriveFile(
    id: string,
    name: string,
    project: Option<string>,
    size: string,
    date: string,
    kind: FileKind,
    parentId: Option<string>)

  /** The first file whose id equals `id` (`Array.prototype.find`); a null id names no file. */
  function Find(files: seq<DriveFile>, id: Option<string>): (r: Option<DriveFile>)
    ensures r.Some? <==> id.Some? && exists f | f in files :: f.id == id.value
    ensures r.Some? ==> r.value in files && r.value.id == id.value
    ensures r.Some? ==> exists k | 0 <= k < |files| ::
      files[k] == r.value && forall j | 0 <= j < k :: files[j].id != id.value
  {
    if id.None? || files == [] then None
    else if files[0].id == id.value then Some(files[0])
    else
      var r := Find(files[1..], id);
      if r.Some? then
        var k :| 0 <= k < |files[1..]| && files[1..][k] == r.value
          && forall j | 0 <= j < k :: files[1..][j].id != id.value;
        assert files[k + 1] == r.value;
        r
      else
        assert forall f | f in files :: f == files[0] || f in files[1..];
        r
  }

  /** Following parent links from `cur` reaches an entry with no parent within `n` steps. */
  ghost predicate Terminates(files: seq<DriveFile>, cur: Option<DriveFile>, n: nat)
    decreases n
  {
    cur.None? || (n > 0 && Terminates(files, Find(files, cur.value.parentId), n - 1))
  }

  /** No chain of parent links loops: from every file the walk ends within |files| steps. */
  ghost predicate Acyclic(files: seq<DriveFile>)
  {
    forall f | f in files :: Terminates(files, Some(f), |files|)
  }

  /** The breadcrumb trail of `cur`, root first and ending with `cur` itself. */
  ghost function Trail(files: seq<DriveFile>, cur: Option<DriveFile>, n: nat): seq<DriveFile>
    requires Terminates(files, cur, n)
    decreases n
  {
    if cur.None? then [] else Trail(files, Find(files, cur.value.parentId), n - 1) + [cur.value]
  }

  /** A trail is made of files, runs root first, ends at `cur`, and each entry is the parent of the next. */
  lemma {:induction false} TrailShape(files: seq<DriveFile>, cur: Option<DriveFile>, n: nat)
    requires Terminates(files, cur, n)
    requires cur.Some? ==> cur.value in files
    ensures var t := Trail(files, cur, n);
      && (t == [] <==> cur.None?)
      && (cur.Some? ==> t[|t| - 1] == cur.value)
      && (forall f | f in t :: f in files)
      && (forall i | 0 < i < |t| :: t[i].parentId == Some(t[i - 1].id))
      && (t != [] ==> Find(files, t[0].parentId).None?)
    decreases n
  {
    if cur.Some? {
      var parent := Find(files, cur.value.parentId);
      TrailShape(files, parent, n - 1);
      var s := Trail(files, parent, n - 1);
      var t := Trail(files, cur, n);
      assert t == s + [cur.value];
      if s != [] {
        assert s[|s| - 1] == parent.value;
        assert t[|s|].parentId == Some(t[|s| - 1].id);
      }
      forall i | 0 < i < |t|
        ensures t[i].parentId == Some(t[i - 1].id)
      {
        if i < |s| {
          assert t[i] == s[i] && t[i - 1] == s[i - 1];
        }
      }
    }
  }

  /** The `breadcrumbs` memo: unshift each folder while walking up its parent links. */
  method Breadcrumbs(files: seq<DriveFile>, currentFolderId: Option<string>) returns (path: seq<DriveFile>)
    requires Acyclic(files)
    ensures path == Trail(files, Find(files, currentFolderId), |files|)
    ensures path == [] <==> Find(files, currentFolderId).None?
    ensures currentFolderId.None? ==> path == []
    ensures path != [] ==> Some(path[|path| - 1].id) == currentFolderId
    ensures forall i | 0 < i < |path| :: path[i].parentId == Some(path[i - 1].id)
    ensures forall f | f in path :: f in files
  {
    var start := Find(files, currentFolderId);
    assert Terminates(files, start, |files|) by {
      if start.Some? {
        assert start.value in files;
      }
    }
    path := [];
    var current := start;
    ghost var fuel: nat := |files|;
    assert Trail(files, start, |files|) + [] == Trail(files, start, |files|);
    while current.Some?
      invariant Terminates(files, current, fuel)
      invariant Trail(files, start, |files|) == Trail(files, current, fuel) + path
      decreases fuel
    {
      var next := Find(files, current.value.parentId);
      assert Trail(files, current, fuel) == Trail(files, next, fuel - 1) + [current.value];
      assert Trail(files, next, fuel - 1) + [current.value] + path
        == Trail(files, next, fuel - 1) + ([current.value] + path);
      path := [current.value] + path;
      current := next;
      fuel := fuel - 1;
    }
    TrailShape(files, start, |files|);
  }

  /** The search half of the filter, on ASCII-lower-cased name and project. */
  predicate MatchesSearch(f: DriveFile, search: string)
  {
    Contains(Lower(f.name), Lower(search))
    || (f.project.Some? && Contains(Lower(f.project.value), Lower(search)))
  }

  /** Whether `f` is listed: a non-empty search ignores folders, an empty one shows the folder. */
  predicate Listed(f: DriveFile, search: string, folderId: Option<string>)
  {
    if search != "" then MatchesSearch(f, search) else f.parentId == folderId
  }

  /** The `filteredFiles` memo. */
  function FilteredFiles(files: seq<DriveFile>, search: string, folderId: Option<string>): (r: seq<DriveFile>)
    ensures |r| <= |files|
    ensures forall f :: f in r <==> f in files && Listed(f, search, folderId)
    ensures search == "" ==> forall f :: f in r <==> f in files && f.parentId == folderId
    ensures search != "" ==> forall f :: f in r <==> f in files && MatchesSearch(f, search)
  {
    if files == [] then []
    else
      var rest := FilteredFiles(files[1..], search, folderId);
      assert forall f | f in files :: f == files[0] || f in files[1..];
      if Listed(files[0], search, folderId) then [files[0]] + rest else rest
  }

  /** `xs` is `ys` with some entries dropped and the rest kept in order. */
  predicate Subsequence(xs: seq<DriveFile>, ys: seq<DriveFile>)
    decreases |ys|
  {
    xs == []
    || (ys != [] && ((xs[0] == ys[0] && Subsequence(xs[1..], ys[1..])) || Subsequence(xs, ys[1..])))
  }

  /** The listing keeps the files in the order of the full list. */
  lemma {:induction false} FilteredIsSubsequence(files: seq<DriveFile>, search: string, folderId: Option<string>)
    ensures Subsequence(FilteredFiles(files, search, folderId), files)
    decreases |files|
  {
    if files != [] {
      var rest := FilteredFiles(files[1..], search, folderId);
      FilteredIsSubsequence(files[1..], search, folderId);
      if Listed(files[0], search, folderId) {
        assert ([files[0]] + rest)[1..] == rest;
      }
    }
  }

  /** With a search, folders do not matter: every file whose name or project matches is listed. */
  lemma {:induction false} SearchIgnoresFolder(files: seq<DriveFile>, search: string, a: Option<string>, b: Option<string>)
    requires search != ""
    ensures FilteredFiles(files, search, a) == FilteredFiles(files, search, b)
    decreases |files|
  {
    if files != [] {
      SearchIgnoresFolder(files[1..], search, a, b);
    }
  }

  /** The target of the back button: the parent, or the root when there is none (`|| null`). */
  function BackTarget(folder: Option<DriveFile>): (r: Option<string>)
    ensures folder.Some? && folder.value.parentId.Some? && folder.value.parentId.value != "" ==> r == folder.value.parentId
    ensures folder.None? || folder.value.parentId.None? || folder.value.parentId == Some("") ==> r.None?
  {
    if folder.Some? && folder.value.parentId.Some? && folder.value.parentId.value != "" then folder.value.parentId
    else None
  }

  /** The navigator's state: the search box and the current folder over a fixed list of files. */
  class Explorer {
    const files: seq<DriveFile>
    var search: string
    var currentFolderId: Option<string>

    constructor(files: seq<DriveFile>)
      ensures this.files == files && search == "" && currentFolderId.None?
    {
      this.files := files;
      search := "";
      currentFolderId := None;
    }

    function CurrentFolder(): (r: Option<DriveFile>)
      reads this
    {
      Find(files, currentFolderId)
    }

    function Listing(): (r: seq<DriveFile>)
      reads this
    {
      FilteredFiles(files, search, currentFolderId)
    }

    method SetSearch(text: string)
      modifies this
      ensures search == text && currentFolderId == old(currentFolderId)
    {
      search := text;
    }

    /** The root crumb. */
    method GoHome()
      modifies this
      ensures currentFolderId.None? && search == old(search)
    {
      currentFolderId := None;
    }

    /** Clicking a breadcrumb moves to that folder. */
    method SelectCrumb(crumb: DriveFile)
      modifies this
      ensures currentFolderId == Some(crumb.id) && search == old(search)
    {
      currentFolderId := Some(crumb.id);
    }

    /** The back button: to the current folder's parent, or to the root. */
    method GoBack()
      modifies this
      ensures currentFolderId == BackTarget(old(CurrentFolder())) && search == old(search)
    {
      currentFolderId := BackTarget(CurrentFolder());
    }

    /** Clicking an entry (grid or list): only folders are entered. */
    method Open(file: DriveFile)
      modifies this
      ensures file.kind == Folder ==> currentFolderId == Some(file.id)
      ensures file.kind != Folder ==> currentFolderId == old(currentFolderId)
      ensures search == old(search)
    {
      if file.kind == Folder {
        currentFolderId := Some(file.id);
      }
    }

    /** The empty-state reset: clear the search and return to the root. */
    method Reset()
      modifies this
      ensures search == "" && currentFolderId.None?
      ensures forall f :: f in Listing() <==> f in files && f.parentId.None?
    {
      search := "";
      currentFolderId := None;
    }
  }

  /** The files the navigator ships with. */
  const Fixture: seq<DriveFile> := [
    DriveFile("1", "AI-Scrapy-Exports", None, "--", "5 วันที่แล้ว", Folder, None),
    DriveFile("2", "Backup_Spiders", None, "--", "2 สัปดาห์ที่แล้ว", Folder, None),
    DriveFile("f1", "prachinburi_properties_20240520.csv", Some("ตลาดนัดบ้าน"), "1.2 MB", "10 นาทีที่แล้ว", Csv, Some("1")),
    DriveFile("f2", "amazon_gaming_laptops_daily.json", Some("จับตาคู่แข่ง Amazon"), "450 KB", "2 ชั่วโมงที่แล้ว", JsonFile, Some("1")),
    DriveFile("f3", "property_leads_full_export.csv", Some("ตลาดนัดบ้าน"), "4.8 MB", "เมื่อวานนี้", Csv, Some("1")),
    DriveFile("f4", "competitor_prices_v1.csv", Some("จับตาคู่แข่ง Amazon"), "120 KB", "2 วันที่แล้ว", Csv, Some("1")),
    DriveFile("f5", "taladnudbaan_v2_code.py", Some("ตลาดนัดบ้าน"), "12 KB", "3 วันที่แล้ว", Py, Some("2")),
    DriveFile("f6", "amazon_v1_backup.py", Some("จับตาคู่แข่ง Amazon"), "8 KB", "1 สัปดาห์ที่แล้ว", Py, Some("2")),
    DriveFile("f7", "readme_notes.txt", None, "2 KB", "วันนี้", Txt, None)
  ]

  lemma FixtureRoots()
    ensures Find(Fixture, Some("1")) == Some(Fixture[0])
    ensures Find(Fixture, Some("2")) == Some(Fixture[1])
  {
  }

  /** A drive whose first two entries have no parent, and whose every parent link names one of
      those two, has no cycles. */
  lemma RootedAtFirstTwo(files: seq<DriveFile>)
    requires |files| >= 2 && files[0].parentId.None? && files[1].parentId.None?
    requires forall f | f in files ::
      f.parentId.None? || f.parentId == Some(files[0].id) || f.parentId == Some(files[1].id)
    ensures Acyclic(files)
  {
    assert Find(files, Some(files[0].id)) == Some(files[0]);
    assert files[1..][0] == files[1];
    assert Find(files, Some(files[1].id)) in {Some(files[0]), Some(files[1])};
    forall f | f in files
      ensures Terminates(files, Some(f), |files|)
    {
      var parent := Find(files, f.parentId);
      if parent.Some? {
        assert Find(files, parent.value.parentId).None?;
        assert Terminates(files, parent, |files| - 1);
      }
    }
  }

  /** The shipped files hang off the two root folders "1" and "2". */
  lemma FixtureParents()
    ensures forall f | f in Fixture :: f.parentId.None? || f.parentId == Some("1") || f.parentId == Some("2")
  {
  }

  /** Every parent link in the shipped files points at a root folder. */
  lemma FixtureAcyclic()
    ensures Acyclic(Fixture)
  {
    var files := Fixture;
    assert files[0].id == "1" && files[1].id == "2";
    assert files[0].parentId.None? && files[1].parentId.None?;
    FixtureParents();
    RootedAtFirstTwo(files);
  }
}
