/** The moon modal: closing it, its three-part render guard with the two
    nested catalog lookups, the optional discovery section, and closing on
    Escape. */
module MoonModal {
  import opened Types
  import opened SpaceStore
  import PlanetDetailScene

  /** `handleClose`: the moon modal closes and the moon selection is cleared.
      The selected planet, and everything else, is left alone. */
  function HandleClose(s: State): (r: State)
    ensures !r.isMoonModalOpen && r.selectedMoon == None
    ensures r.selectedPlanet == s.selectedPlanet
    ensures AgreeExcept(r, s, {IsMoonModalOpen, SelectedMoon})
  {
    Apply(Apply(s, SetIsMoonModalOpen(false)), SetSelectedMoon(None))
  }

  /** Closing twice is closing once. */
  lemma HandleCloseIdempotent(s: State)
    ensures HandleClose(HandleClose(s)) == HandleClose(s)
  {
    var once := HandleClose(s);
    var twice := HandleClose(once);
    Extensional(twice, once);
  }

  /** Clicking a moon in the detail scene and then closing the modal restores
      the store exactly when no moon was selected and the modal was closed. */
  lemma ClickThenClose(s: State, id: string)
    ensures HandleClose(PlanetDetailScene.ClickMoon(s, id)) == s <==> s.selectedMoon == None && !s.isMoonModalOpen
  {
    var c := PlanetDetailScene.ClickMoon(s, id);
    var r := HandleClose(c);
    if s.selectedMoon == None && !s.isMoonModalOpen {
      forall f ensures Get(r, f) == Get(s, f) {
        if f !in {SelectedMoon, IsMoonModalOpen} {
          assert Get(r, f) == Get(c, f);
        }
      }
      Extensional(r, s);
    }
  }

  /** The planet and moon the modal shows, or `None` when it renders nothing.
      It needs a truthy moon selection, the open flag and a truthy planet
      selection; then a catalog planet with that id carrying a moon list; then
      a moon with the selected id in THAT planet's list. Both lookups take the
      FIRST match. */
  datatype Shown = Shown(planet: Planet, moon: Moon)

  function Content(s: State, catalog: seq<Planet>): (r: Option<Shown>)
    ensures r.Some? ==>
      && Truthy(s.selectedMoon) && s.isMoonModalOpen && Truthy(s.selectedPlanet)
      && r.value.planet in catalog
      && r.value.planet.id == s.selectedPlanet.value
      && r.value.planet.moonList.Some?
      && r.value.moon in r.value.planet.moonList.value
      && r.value.moon.id == s.selectedMoon.value
    ensures r.Some? ==>
      && Some(r.value.planet) == FindPlanet(catalog, s.selectedPlanet.value)
      && Some(r.value.moon) == FindMoon(MoonsOf(r.value.planet), s.selectedMoon.value)
  {
    if !Truthy(s.selectedMoon) || !s.isMoonModalOpen || !Truthy(s.selectedPlanet) then None
    else
      match FindPlanet(catalog, s.selectedPlanet.value)
      case None => None
      case Some(planet) =>
        match planet.moonList
        case None => None
        case Some(list) =>
          match FindMoon(list, s.selectedMoon.value)
          case None => None
          case Some(moon) => Some(Shown(planet, moon))
  }

  /** The modal renders exactly when the guard holds and the first catalog
      planet with the selected id lists a moon with the selected id. */
  lemma ContentExactly(s: State, catalog: seq<Planet>)
    ensures Content(s, catalog).Some? <==>
      && Truthy(s.selectedMoon) && s.isMoonModalOpen && Truthy(s.selectedPlanet)
      && FindPlanet(catalog, s.selectedPlanet.value).Some?
      && exists i :: 0 <= i < |MoonsOf(FindPlanet(catalog, s.selectedPlanet.value).value)| &&
           MoonsOf(FindPlanet(catalog, s.selectedPlanet.value).value)[i].id == s.selectedMoon.value
  {
    if Truthy(s.selectedMoon) && s.isMoonModalOpen && Truthy(s.selectedPlanet) {
      var found := FindPlanet(catalog, s.selectedPlanet.value);
      if found.Some? {
        var ms := MoonsOf(found.value);
        if FindMoon(ms, s.selectedMoon.value).None? {
          assert forall i :: 0 <= i < |ms| ==> ms[i].id != s.selectedMoon.value;
        }
      }
    }
  }

  /** A moon that only another planet lists is never shown: with the planet
      selection pointing at a planet whose list lacks the selected moon id,
      the modal renders nothing, even if the id exists elsewhere. */
  lemma ForeignMoonHidden(s: State, catalog: seq<Planet>, p: Planet)
    requires Truthy(s.selectedPlanet)
    requires FindPlanet(catalog, s.selectedPlanet.value) == Some(p)
    requires forall i :: 0 <= i < |MoonsOf(p)| ==> s.selectedMoon != Some(MoonsOf(p)[i].id)
    ensures Content(s, catalog) == None
  {
    ContentExactly(s, catalog);
  }

  /** The discovery section appears when either discovery field is truthy. */
  predicate DiscoveryShown(m: Moon)
  {
    Truthy(m.discoveredBy) || Truthy(m.discoveredYear)
  }

  /** Either field alone suffices to show the section; a field that is absent
      or the empty string contributes nothing. */
  lemma DiscoveryFields(m: Moon, discoverer: string, year: string)
    ensures DiscoveryShown(m.(discoveredBy := Some(discoverer), discoveredYear := None)) <==> discoverer != ""
    ensures DiscoveryShown(m.(discoveredBy := None, discoveredYear := Some(year))) <==> year != ""
    ensures !DiscoveryShown(m.(discoveredBy := Some(""), discoveredYear := Some("")))
  {
  }

  /** A key press: only "Escape", and only while the modal is open (the
      listener is attached only then), closes it. */
  function OnKeyDown(s: State, key: string): (r: State)
    ensures s.isMoonModalOpen && key == "Escape" ==> !r.isMoonModalOpen && r.selectedMoon == None
    ensures s.isMoonModalOpen && key == "Escape" ==> AgreeExcept(r, s, {IsMoonModalOpen, SelectedMoon})
    ensures !s.isMoonModalOpen || key != "Escape" ==> r == s
  {
    if s.isMoonModalOpen && key == "Escape" then HandleClose(s) else s
  }

  /** After closing, the modal renders nothing; the planet selection survives,
      so the planet modal's state is undisturbed. */
  lemma NothingRenderedAfterClose(s: State, catalog: seq<Planet>)
    ensures Content(HandleClose(s), catalog) == None
    ensures HandleClose(s).isModalOpen == s.isModalOpen
  {
  }
}
