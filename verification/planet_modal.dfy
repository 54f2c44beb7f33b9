/** The planet modal: closing it, the "view details" navigation, its render
    guard with the catalog lookup, and closing on Escape. */
module PlanetModal {
  import opened Types
  import opened SpaceStore
  import SpaceScene

  /** `handleClose`: the modal closes and the planet selection is cleared;
      nothing else changes. */
  function HandleClose(s: State): (r: State)
    ensures !r.isModalOpen && r.selectedPlanet == None
    ensures AgreeExcept(r, s, {IsModalOpen, SelectedPlanet})
  {
    Apply(Apply(s, SetIsModalOpen(false)), SetSelectedPlanet(None))
  }

  /** Closing an already closed modal changes nothing more. */
  lemma HandleCloseIdempotent(s: State)
    ensures HandleClose(HandleClose(s)) == HandleClose(s)
  {
    var once := HandleClose(s);
    var twice := HandleClose(once);
    Extensional(twice, once);
  }

  /** The result of a handler that may navigate: the new store and the route
      pushed onto the router, if any. */
  datatype Navigation = Navigation(state: State, pushed: Option<string>)

  /** `handleViewDetails`, given the current path: with no (truthy) selected
      planet it does nothing; otherwise it marks navigation in progress,
      records the current path as the previous route, closes the modal and
      pushes "/planet/<id>". The selection itself is kept. */
  function HandleViewDetails(s: State, currentPath: string): (r: Navigation)
    ensures !Truthy(s.selectedPlanet) ==> r == Navigation(s, None)
    ensures Truthy(s.selectedPlanet) ==>
      && r.state.isNavigating
      && r.state.previousRoute == Some(currentPath)
      && !r.state.isModalOpen
      && r.state.selectedPlanet == s.selectedPlanet
      && r.pushed == Some("/planet/" + s.selectedPlanet.value)
      && AgreeExcept(r.state, s, {IsNavigating, PreviousRoute, IsModalOpen})
  {
    if !Truthy(s.selectedPlanet) then Navigation(s, None)
    else
      var navigating := Apply(s, SetIsNavigating(true));
      var recorded := Apply(navigating, SetPreviousRoute(Some(currentPath)));
      var closed := Apply(recorded, SetIsModalOpen(false));
      Navigation(closed, Some("/planet/" + s.selectedPlanet.value))
  }

  /** The planet the modal shows, or `None` when it renders nothing: it needs
      a truthy selection, the open flag, and a catalog entry with that id; the
      FIRST such entry is shown. An
      id missing from the catalog renders nothing instead of failing. */
  function Content(s: State, catalog: seq<Planet>): (r: Option<Planet>)
    ensures r.Some? ==> Truthy(s.selectedPlanet) && s.isModalOpen
    ensures r.Some? ==> r.value in catalog && r.value.id == s.selectedPlanet.value
    ensures Truthy(s.selectedPlanet) && s.isModalOpen ==> r == FindPlanet(catalog, s.selectedPlanet.value)
    ensures r.None? <==>
      || !Truthy(s.selectedPlanet)
      || !s.isModalOpen
      || forall i :: 0 <= i < |catalog| ==> catalog[i].id != s.selectedPlanet.value
  {
    if !Truthy(s.selectedPlanet) || !s.isModalOpen then None
    else FindPlanet(catalog, s.selectedPlanet.value)
  }

  /** After closing, or after leaving for the detail page, the modal renders
      nothing. */
  lemma NothingRenderedAfterLeaving(s: State, catalog: seq<Planet>, currentPath: string)
    ensures Content(HandleClose(s), catalog) == None
    ensures Content(HandleViewDetails(s, currentPath).state, catalog) == None
  {
  }

  /** A key press while the Escape listener may be installed: the listener is
      attached only while the modal is open, and only "Escape" closes it. */
  function OnKeyDown(s: State, key: string): (r: State)
    ensures s.isModalOpen && key == "Escape" ==> r == HandleClose(s)
    ensures !s.isModalOpen || key != "Escape" ==> r == s
  {
    if s.isModalOpen && key == "Escape" then HandleClose(s) else s
  }

  /** Clicking a planet in the scene and then closing the modal leaves no
      selection and no open modal and every other field as it was, so the
      store returns to its state before the click exactly when nothing was
      selected and the modal was closed. */
  lemma ClickThenClose(s: State, id: string)
    ensures var r := HandleClose(SpaceScene.ClickPlanet(s, id));
      && r.selectedPlanet == None
      && !r.isModalOpen
      && AgreeExcept(r, s, {SelectedPlanet, IsModalOpen})
    ensures HandleClose(SpaceScene.ClickPlanet(s, id)) == s <==> s.selectedPlanet == None && !s.isModalOpen
  {
    var r := HandleClose(SpaceScene.ClickPlanet(s, id));
    AgreeExceptTrans(r, SpaceScene.ClickPlanet(s, id), s, {IsModalOpen, SelectedPlanet}, {SelectedPlanet, IsModalOpen});
    if s.selectedPlanet == None && !s.isModalOpen {
      forall f ensures Get(r, f) == Get(s, f) {
        if f !in {SelectedPlanet, IsModalOpen} {
          assert Get(r, f) == Get(s, f);
        }
      }
      Extensional(r, s);
    }
  }
}
