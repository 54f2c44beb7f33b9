/** The category tabs: the fixed table of four tabs, which one is active, and
    the click that activates one. */
module PlanetTabs {
  import opened Types
  import opened SpaceStore
  import SpaceScene

  datatype Tab = Tab(id: string, caption: string, count: nat)

  /** The tab table, in display order. The "all" count is the catalog's
      length; the other three counts come from the catalog's category lists,
      which are data outside the planet records and are taken as given. */
  function Tabs(catalog: seq<Planet>, terrestrial: nat, gasGiants: nat, iceGiants: nat): (r: seq<Tab>)
    ensures |r| == 4
    ensures r[0] == Tab("all", "All Planets", |catalog|)
    ensures r[1].id == "terrestrial" && r[1].count == terrestrial
    ensures r[2].id == "gas-giants" && r[2].count == gasGiants
    ensures r[3].id == "ice-giants" && r[3].count == iceGiants
  {
    [ Tab("all", "All Planets", |catalog|),
      Tab("terrestrial", "Terrestrial", terrestrial),
      Tab("gas-giants", "Gas Giants", gasGiants),
      Tab("ice-giants", "Ice Giants", iceGiants) ]
  }

  /** A tab is highlighted when the store's active tab equals its id. */
  predicate IsActive(s: State, tab: Tab)
  {
    s.activeTab == tab.id
  }

  /** Clicking a tab stores exactly that tab's id and changes nothing else. */
  function ClickTab(s: State, tab: Tab): (r: State)
    ensures IsActive(r, tab)
    ensures AgreeExcept(r, s, {ActiveTab})
  {
    Apply(s, SetActiveTab(tab.id))
  }

  /** The four ids are pairwise distinct. */
  lemma IdsDistinct(catalog: seq<Planet>, a: nat, b: nat, c: nat)
    ensures var tabs := Tabs(catalog, a, b, c);
      forall i, j :: 0 <= i < j < |tabs| ==> tabs[i].id != tabs[j].id
  {
  }

  /** Hence at most one tab is highlighted, and one is exactly when the active
      tab is one of the four ids. */
  lemma ExactlyOneActive(s: State, catalog: seq<Planet>, a: nat, b: nat, c: nat)
    ensures var tabs := Tabs(catalog, a, b, c);
      forall i, j :: 0 <= i < |tabs| && 0 <= j < |tabs| && IsActive(s, tabs[i]) && IsActive(s, tabs[j]) ==> i == j
    ensures var tabs := Tabs(catalog, a, b, c);
      (exists i :: 0 <= i < |tabs| && IsActive(s, tabs[i])) <==>
      s.activeTab in {"all", "terrestrial", "gas-giants", "ice-giants"}
  {
    IdsDistinct(catalog, a, b, c);
    var tabs := Tabs(catalog, a, b, c);
    if s.activeTab in {"all", "terrestrial", "gas-giants", "ice-giants"} {
      var k := if s.activeTab == "all" then 0 else if s.activeTab == "terrestrial" then 1
               else if s.activeTab == "gas-giants" then 2 else 3;
      assert IsActive(s, tabs[k]);
    }
  }

  /** After clicking the k-th tab it, and no other, is highlighted. */
  lemma ClickHighlightsOnlyThatTab(s: State, catalog: seq<Planet>, a: nat, b: nat, c: nat, k: nat)
    requires k < 4
    ensures var tabs := Tabs(catalog, a, b, c);
      var r := ClickTab(s, tabs[k]);
      forall i :: 0 <= i < |tabs| ==> (IsActive(r, tabs[i]) <==> i == k)
  {
    IdsDistinct(catalog, a, b, c);
  }

  /** With the store's default active tab, the "All Planets" tab is the one
      highlighted at start-up. */
  lemma AllActiveInitially(catalog: seq<Planet>, a: nat, b: nat, c: nat,
                           selectedMoon: Option<string>, hoveredMoon: Option<string>,
                           isMoonModalOpen: bool, isNavigating: bool, previousRoute: Option<string>)
    ensures var s := Initial(selectedMoon, hoveredMoon, isMoonModalOpen, isNavigating, previousRoute);
      var tabs := Tabs(catalog, a, b, c);
      IsActive(s, tabs[0]) && !IsActive(s, tabs[1]) && !IsActive(s, tabs[2]) && !IsActive(s, tabs[3])
  {
    var s := Initial(selectedMoon, hoveredMoon, isMoonModalOpen, isNavigating, previousRoute);
    assert Get(s, ActiveTab) == Text("all");
  }

  /** Every tab but "all" has its own branch in the scene's filter, which keeps
      exactly the planets of one type; the "all" tab keeps the whole catalog.
      No tab falls through to the catch-all. */
  lemma EveryTabHasAFilter(catalog: seq<Planet>, a: nat, b: nat, c: nat)
    ensures var tabs := Tabs(catalog, a, b, c);
      && SpaceScene.FilteredPlanets(tabs[0].id, catalog) == catalog
      && SpaceScene.TabKind(tabs[1].id) == Some("Terrestrial")
      && SpaceScene.TabKind(tabs[2].id) == Some("Gas Giant")
      && SpaceScene.TabKind(tabs[3].id) == Some("Ice Giant")
      && forall i, p :: 1 <= i < |tabs| ==>
           (p in SpaceScene.FilteredPlanets(tabs[i].id, catalog) <==>
            p in catalog && p.kind == SpaceScene.TabKind(tabs[i].id).value)
  {
    var tabs := Tabs(catalog, a, b, c);
    assert SpaceScene.TabKind(tabs[0].id) == None;
    assert SpaceScene.TabKind(tabs[1].id) == Some("Terrestrial");
    assert SpaceScene.TabKind(tabs[2].id) == Some("Gas Giant");
    assert SpaceScene.TabKind(tabs[3].id) == Some("Ice Giant");
  }
}
