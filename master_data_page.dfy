/**
 * The master-data page of MasterDataPage.tsx: the tab named by the third
 * `/`-segment of the location hash, `vehicles` when there is none, and a
 * tab change that records the tab in the hash.
 */
module MasterDataPage {
  import opened Text
  import AppShell

  /** The five tabs, in the order the tab bar lists them. */
  const Tabs: seq<string> := ["vehicles", "drivers", "customers", "rates", "parts"]

  /** `window.location.hash.split('/')[2] || 'vehicles'`: a missing or empty segment gives `vehicles`. */
  function InitialTab(hash: string): (r: string)
    ensures r != "" && '/' !in r
  {
    var parts := Split(hash, '/');
    if |parts| >= 3 && parts[2] != "" then parts[2] else "vehicles"
  }

  /** The tab shown and the location hash. */
  datatype TabState = TabState(activeTab: string, hash: string)

  /** `handleTabChange`: shows the tab and writes `/master-data/<tab>` to the hash. */
  function TabChange(s: TabState, value: string): TabState
  {
    TabState(value, AppShell.AssignedHash(TabPath(value)))
  }

  function TabPath(value: string): string
  {
    "/master-data" + "/" + value
  }

  /**
   * A tab change survives a reload: the hash it writes brings the shell
   * back to the master-data page, and the page back to the same tab, for
   * any non-empty tab name without a `/`.
   */
  lemma TabChangeSurvivesReload(s: TabState, value: string, role: AppShell.Domain.Role)
    requires value != "" && '/' !in value
    ensures TabChange(s, value).activeTab == value
    ensures InitialTab(TabChange(s, value).hash) == value
    ensures AppShell.Render(AppShell.InitialPath(TabChange(s, value).hash), role) == AppShell.MasterDataPage
  {
    TabHashSegments(value);
    TabPathShowsMasterData(value, role);
  }

  lemma TabHashSegments(value: string)
    requires '/' !in value
    ensures Split(AppShell.AssignedHash(TabPath(value)), '/') == ["#", "master-data", value]
    ensures AppShell.InitialPath(AppShell.AssignedHash(TabPath(value))) == TabPath(value)
  {
    SegmentShape();
    assert TabPath(value) == "/" + "master-data" + "/" + value;
    HashSegments("#", "master-data", value);
  }

  lemma TabPathShowsMasterData(value: string, role: AppShell.Domain.Role)
    ensures AppShell.Render(TabPath(value), role) == AppShell.MasterDataPage
  {
    assert TabPath(value) == "/master-data" + ("/" + value);
    StartsWithAppend("/master-data", "/" + value);
  }

  lemma SegmentShape()
    ensures "/master-data" == "/" + "master-data"
    ensures '/' !in "master-data"
  {
  }

  /** The third segment of `<mark>/<seg>/<tail>`, and the path the shell reads from it. */
  lemma HashSegments(mark: string, seg: string, tail: string)
    requires '/' !in mark && '/' !in seg && '/' !in tail && |mark| == 1
    ensures Split(mark + ("/" + seg + "/" + tail), '/') == [mark, seg, tail]
    ensures AppShell.InitialPath(mark + ("/" + seg + "/" + tail)) == "/" + seg + "/" + tail
  {
    var h := mark + ("/" + seg + "/" + tail);
    assert h == mark + ['/'] + seg + ['/'] + tail;
    SplitThree(mark, seg, tail, '/');
    assert h[1..] == "/" + seg + "/" + tail;
  }

  /** Every tab of the tab bar survives a reload. */
  lemma KnownTabsSurviveReload(s: TabState, k: nat, role: AppShell.Domain.Role)
    requires k < |Tabs|
    ensures InitialTab(TabChange(s, Tabs[k]).hash) == Tabs[k]
  {
    TabNamesPlain(k);
    TabChangeSurvivesReload(s, Tabs[k], role);
  }

  lemma TabNamesPlain(k: nat)
    requires k < |Tabs|
    ensures Tabs[k] != "" && '/' !in Tabs[k]
  {
  }

  /** Opening the menu entry `/master-data`, or a hash with an empty third segment, shows the vehicles tab. */
  lemma BareHashShowsVehicles(tail: string)
    requires tail == "" || tail == "/"
    ensures InitialTab(AppShell.AssignedHash("/master-data" + tail)) == "vehicles"
  {
    SegmentShape();
    assert AppShell.AssignedHash("/master-data" + tail) == "#" + "/" + "master-data" + tail;
    ShortHash("#", "master-data", tail);
  }

  lemma ShortHash(mark: string, seg: string, tail: string)
    requires '/' !in mark && '/' !in seg && (tail == "" || tail == "/")
    ensures InitialTab(mark + "/" + seg + tail) == "vehicles"
  {
    var h := mark + "/" + seg + tail;
    if tail == "" {
      assert h == mark + ['/'] + seg;
      SplitTwo(mark, seg, '/');
    } else {
      assert h == mark + ['/'] + seg + ['/'] + "";
      SplitThree(mark, seg, "", '/');
    }
  }
}
