/**
 * The application shell of App.tsx: the path read from the location hash
 * at start-up, navigation (which sets the path and the hash together), and
 * the dispatch from a path to the page shown to a signed-in user.
 */
module AppShell {
  import opened Base
  import opened Text
  import opened Domain
  import Navigation

  /** What the shell shows: a spinner while the session loads, the login form without a user, else a page. */
  datatype Screen = Loading | Login | Signed(page: Page)

  /** The pages a signed-in user can be shown. */
  datatype Page =
    | MasterDataPage
    | TrackingDetailPage(jobId: string)
    | DashboardPage
    | JobsPage
    | TrackingPage
    | InvoicePage
    | ReportsPage
    | MaintenancePage
    | AdminPage

  /** `window.location.hash.slice(1) || '/dashboard'`. */
  function InitialPath(hash: string): (r: string)
    ensures r != ""
  {
    if |hash| <= 1 then "/dashboard" else hash[1..]
  }

  /** The hash after `window.location.hash = path`, for a path that does not start with `#`. */
  function AssignedHash(path: string): string
  {
    "#" + path
  }

  /** The shell's state: the path it renders and the location hash. */
  datatype Shell = Shell(currentPath: string, hash: string)

  /** Mounting the shell: the path comes from the hash, which is left as it is. */
  function Start(hash: string): Shell
  {
    Shell(InitialPath(hash), hash)
  }

  /** `handleNavigate`. */
  function Navigate(s: Shell, path: string): Shell
  {
    Shell(path, AssignedHash(path))
  }

  /**
   * Navigating sets the path and the hash to the same place, so a reload
   * (a fresh start from that hash) comes back to the same non-empty path.
   */
  lemma NavigateSurvivesReload(s: Shell, path: string)
    requires path != ""
    ensures Navigate(s, path).currentPath == path
    ensures Start(Navigate(s, path).hash) == Navigate(s, path)
  {
    assert AssignedHash(path)[1..] == path;
  }

  /** With no hash, or the bare `#`, the shell starts on the dashboard. */
  lemma EmptyHashStartsOnDashboard(hash: string)
    requires hash == "" || hash == "#"
    ensures Start(hash).currentPath == "/dashboard"
  {
  }

  /** `currentPath.split('/')[2]` for a path under `/tracking/`, which always has that segment. */
  function DetailJobId(path: string): (r: string)
    requires StartsWith(path, "/tracking/")
    ensures r == Split(path[10..], '/')[0]
  {
    TrackingSegments(path);
    Split(path, '/')[2]
  }

  lemma TrackingSegments(path: string)
    requires StartsWith(path, "/tracking/")
    ensures |Split(path, '/')| >= 3
    ensures Split(path, '/')[2] == Split(path[10..], '/')[0]
  {
    var rest := path[10..];
    TrackingShape();
    assert path == path[..10] + rest;
    SegmentsAfter("tracking", rest);
  }

  lemma TrackingShape()
    ensures "/tracking/" == ['/'] + "tracking" + ['/'] && '/' !in "tracking"
  {
  }

  /** The third `/`-piece of `/<seg>/<rest>` is the first piece of `rest`. */
  lemma SegmentsAfter(seg: string, rest: string)
    requires '/' !in seg
    ensures |Split(['/'] + seg + ['/'] + rest, '/')| >= 3
    ensures Split(['/'] + seg + ['/'] + rest, '/')[2] == Split(rest, '/')[0]
  {
    var tail := seg + ['/'] + rest;
    assert ['/'] + seg + ['/'] + rest == "" + ['/'] + tail;
    SplitCons("", '/', tail);
    SplitCons(seg, '/', rest);
  }

  /** `renderPage`. */
  function Render(path: string, role: Role): Page
  {
    if StartsWith(path, "/master-data") then MasterDataPage
    else if StartsWith(path, "/tracking/") then TrackingDetailPage(DetailJobId(path))
    else if path == "/dashboard" then DashboardPage
    else if path == "/jobs" then JobsPage
    else if path == "/tracking" then TrackingPage
    else if path == "/invoices" then InvoicePage
    else if path == "/reports" then ReportsPage
    else if path == "/maintenance" then MaintenancePage
    else if path == "/admin" && role == Admin then AdminPage
    else DashboardPage
  }

  /** `App`: the loading state is checked first, then the signed-in user, then the path. */
  function Show(loading: bool, user: Option<Role>, path: string): Screen
  {
    if loading then Loading
    else if user.None? then Login
    else Signed(Render(path, user.value))
  }

  /** No page is shown while loading or without a user, and a signed-in user sees the page of the path. */
  lemma ShowSpec(loading: bool, user: Option<Role>, path: string)
    ensures Show(loading, user, path) == Loading <==> loading
    ensures Show(loading, user, path) == Login <==> !loading && user == None
    ensures Show(loading, user, path).Signed? <==> !loading && user.Some?
    ensures !loading && user.Some? ==> Show(loading, user, path).page == Render(path, user.value)
  {
  }

  /** The paths the `switch` names. */
  const SwitchPaths: seq<string> := ["/dashboard", "/jobs", "/tracking", "/invoices", "/reports", "/maintenance", "/admin"]

  /** Every path under `/master-data`, whatever follows, shows the master-data page; this test comes first. */
  lemma MasterDataFirst(path: string, role: Role)
    ensures Render(path, role).MasterDataPage? <==> StartsWith(path, "/master-data")
  {
  }

  /**
   * A path `/tracking/<id>` followed by nothing or by more segments shows
   * the detail page of `<id>`; in particular `/tracking/` shows it with the
   * empty id.
   */
  lemma TrackingDetailOf(id: string, rest: string, role: Role)
    requires '/' !in id
    requires rest == "" || rest[0] == '/'
    ensures Render("/tracking/" + id + rest, role) == TrackingDetailPage(id)
  {
    var path := "/tracking/" + id + rest;
    UnderTracking(id + rest);
    assert path == "/tracking/" + (id + rest);
    FirstSegment(id, rest);
  }

  lemma UnderTracking(tail: string)
    ensures StartsWith("/tracking/" + tail, "/tracking/")
    ensures !StartsWith("/tracking/" + tail, "/master-data")
    ensures ("/tracking/" + tail)[10..] == tail
  {
    StartsWithAppend("/tracking/", tail);
    assert ("/tracking/" + tail)[1] == 't';
  }

  lemma FirstSegment(id: string, rest: string)
    requires '/' !in id
    requires rest == "" || rest[0] == '/'
    ensures Split(id + rest, '/')[0] == id
  {
    if rest == "" {
      assert id + rest == id;
      SplitNone(id, '/');
    } else {
      assert id + rest == id + ['/'] + rest[1..];
      SplitCons(id, '/', rest[1..]);
    }
  }

  /** The bare `/tracking` path is the list, not the detail page. */
  lemma TrackingListPath(role: Role)
    ensures Render("/tracking", role) == TrackingPage
  {
  }

  /** The settings page is shown to administrators only; anyone else asking for it gets the dashboard. */
  lemma AdminPageOnlyForAdmins(path: string, role: Role)
    ensures Render(path, role) == AdminPage <==> path == "/admin" && role == Admin
    ensures role != Admin ==> Render("/admin", role) == DashboardPage
  {
  }

  /** A path that is not under `/master-data` or `/tracking/` and that the switch does not name shows the dashboard. */
  lemma UnknownPathShowsDashboard(path: string, role: Role)
    requires !StartsWith(path, "/master-data") && !StartsWith(path, "/tracking/")
    requires path !in SwitchPaths
    ensures Render(path, role) == DashboardPage
  {
  }

  /** The page each menu item leads to, in menu order. */
  const MenuPages: seq<Page> := [DashboardPage, JobsPage, TrackingPage, InvoicePage, ReportsPage, MasterDataPage, MaintenancePage, AdminPage]

  /** For an administrator every menu item's path shows its own page. */
  lemma MenuPathsShowTheirPages(k: nat)
    requires k < 8
    ensures Render(Navigation.NavigationItems()[k].path, Admin) == MenuPages[k]
  {
    var path := Navigation.NavigationItems()[k].path;
    if k == 0 { assert path == "/dashboard"; ShowsDashboard(); }
    else if k == 1 { assert path == "/jobs"; ShowsJobs(); }
    else if k == 2 { assert path == "/tracking"; TrackingListPath(Admin); }
    else if k == 3 { assert path == "/invoices"; ShowsInvoices(); }
    else if k == 4 { assert path == "/reports"; ShowsReports(); }
    else if k == 5 { assert path == "/master-data"; MasterDataFirst(path, Admin); StartsWithAppend("/master-data", ""); }
    else if k == 6 { assert path == "/maintenance"; ShowsMaintenance(); }
    else { assert path == "/admin"; }
  }

  /** A string that differs from `p` at some position of `p` does not start with `p`. */
  lemma DiffersAt(s: string, p: string, i: nat)
    requires i < |p| && i < |s| && s[i] != p[i]
    ensures !StartsWith(s, p)
  {
    if |p| <= |s| {
      assert s[..|p|][i] != p[i];
    }
  }

  lemma ShowsDashboard()
    ensures Render("/dashboard", Admin) == DashboardPage
  {
    DiffersAt("/dashboard", "/master-data", 1);
    DiffersAt("/dashboard", "/tracking/", 1);
  }

  lemma ShowsJobs()
    ensures Render("/jobs", Admin) == JobsPage
  {
  }

  lemma ShowsInvoices()
    ensures Render("/invoices", Admin) == InvoicePage
  {
  }

  lemma ShowsReports()
    ensures Render("/reports", Admin) == ReportsPage
  {
  }

  lemma ShowsMaintenance()
    ensures Render("/maintenance", Admin) == MaintenancePage
  {
    DiffersAt("/maintenance", "/master-data", 3);
    DiffersAt("/maintenance", "/tracking/", 1);
  }
}
