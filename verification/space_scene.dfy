/** The overview scene: the classification-tab filter, one orbit ring and one
    planet per filtered entry, the per-planet parameters derived from the
    store, the planet pointer handlers, and the mouse-wheel zoom. */
module SpaceScene {
  import opened Types
  import opened Numbers
  import opened SpaceStore

  /** The planet `type` a tab id selects, or `None` for "all" and for any id
      the filter does not recognise. */
  function TabKind(tab: string): (k: Option<string>)
    ensures tab == "all" ==> k == None
  {
    if tab == "terrestrial" then Some("Terrestrial")
    else if tab == "gas-giants" then Some("Gas Giant")
    else if tab == "ice-giants" then Some("Ice Giant")
    else None
  }

  /** `planets.filter((p) => p.type === kind)`. */
  function OfKind(planets: seq<Planet>, kind: string): (r: seq<Planet>)
    ensures |r| <= |planets|
    ensures forall i :: 0 <= i < |r| ==> r[i].kind == kind && r[i] in planets
    ensures forall p :: p in planets && p.kind == kind ==> p in r
    ensures forall p :: multiset(r)[p] == if p.kind == kind then multiset(planets)[p] else 0
    decreases |planets|
  {
    if |planets| == 0 then []
    else
      assert planets == [planets[0]] + planets[1..];
      if planets[0].kind == kind then [planets[0]] + OfKind(planets[1..], kind)
      else OfKind(planets[1..], kind)
  }

  /** `a` is `b` with some entries removed, order kept. */
  predicate IsSubsequence<T(==)>(a: seq<T>, b: seq<T>)
    decreases |b|
  {
    |a| == 0 || (|b| > 0 && ((a[0] == b[0] && IsSubsequence(a[1..], b[1..])) || IsSubsequence(a, b[1..])))
  }

  lemma {:induction false} SubsequenceNoLonger<T>(a: seq<T>, b: seq<T>)
    requires IsSubsequence(a, b)
    ensures |a| <= |b|
    decreases |b|
  {
    if |a| > 0 {
      if a[0] == b[0] && IsSubsequence(a[1..], b[1..]) {
        SubsequenceNoLonger(a[1..], b[1..]);
      } else {
        SubsequenceNoLonger(a, b[1..]);
      }
    }
  }

  lemma {:induction false} SubsequenceOfSelf<T>(a: seq<T>)
    ensures IsSubsequence(a, a)
    decreases |a|
  {
    if |a| > 0 {
      SubsequenceOfSelf(a[1..]);
    }
  }

  /** Filtering by classification keeps the catalog's order. */
  lemma {:induction false} OfKindIsSubsequence(planets: seq<Planet>, kind: string)
    ensures IsSubsequence(OfKind(planets, kind), planets)
    decreases |planets|
  {
    if |planets| > 0 {
      OfKindIsSubsequence(planets[1..], kind);
      var rest := OfKind(planets[1..], kind);
      if planets[0].kind == kind {
        assert OfKind(planets, kind) == [planets[0]] + rest;
        assert ([planets[0]] + rest)[1..] == rest;
      }
    }
  }

  /** `filteredPlanets`: the catalog for "all" and for an unrecognised tab,
      otherwise exactly the planets of the tab's classification, in catalog
      order. */
  function FilteredPlanets(tab: string, planets: seq<Planet>): (r: seq<Planet>)
    ensures TabKind(tab).None? ==> r == planets
    ensures TabKind(tab).Some? ==>
      forall p :: p in r <==> p in planets && p.kind == TabKind(tab).value
    ensures TabKind(tab).Some? ==>
      forall p :: multiset(r)[p] == if p.kind == TabKind(tab).value then multiset(planets)[p] else 0
    ensures IsSubsequence(r, planets)
    ensures |r| <= |planets|
  {
    if tab == "all" then SubsequenceOfSelf(planets); planets
    else if tab == "terrestrial" then OfKindIsSubsequence(planets, "Terrestrial"); OfKind(planets, "Terrestrial")
    else if tab == "gas-giants" then OfKindIsSubsequence(planets, "Gas Giant"); OfKind(planets, "Gas Giant")
    else if tab == "ice-giants" then OfKindIsSubsequence(planets, "Ice Giant"); OfKind(planets, "Ice Giant")
    else SubsequenceOfSelf(planets); planets
  }

  /** Orbit radius: the distance in AU times 6 in real-scale mode, 3 otherwise. */
  function OrbitDistance(p: Planet, realScale: bool): real
  {
    p.distanceAU * (if realScale then 6.0 else 3.0)
  }

  /** Switching to real scale doubles every orbit, so the orbits keep their
      order in both modes: a planet further out in AU has the wider ring. */
  lemma RealScaleDoublesOrbits(p: Planet, q: Planet, realScale: bool)
    ensures OrbitDistance(p, true) == 2.0 * OrbitDistance(p, false)
    ensures p.distanceAU <= q.distanceAU ==> OrbitDistance(p, realScale) <= OrbitDistance(q, realScale)
  {
  }

  /** The Kepler-like angular speed `0.2 / max(0.2, sqrt(distanceAU))`; `sqrt`
      is taken as given. The speed is positive and at most 1. */
  function OrbitalSpeed(distanceAU: real, sqrt: real -> real): (w: real)
    ensures 0.0 < w <= 1.0
  {
    0.2 / Max(0.2, sqrt(distanceAU))
  }

  /** A planet whose square root of distance is no larger orbits no slower. */
  lemma CloserOrbitsFaster(a: real, b: real, sqrt: real -> real)
    requires sqrt(a) <= sqrt(b)
    ensures OrbitalSpeed(a, sqrt) >= OrbitalSpeed(b, sqrt)
  {
    var ma := Max(0.2, sqrt(a));
    var mb := Max(0.2, sqrt(b));
    assert 0.2 <= ma <= mb;
    assert 0.2 / ma >= 0.2 / mb by {
      assert 0.2 / mb * mb == 0.2 == 0.2 / ma * ma;
    }
  }

  /** The real-scale factor: Earth's radius 1 becomes 0.01 scene units. */
  const RealPlanetScale := 0.01

  /** `displayRadius`: `max(0.01, radius * 0.01)` in real-scale mode, and
      `0.15 + 0.15 * cbrt(max(radius, 0.01))` otherwise. `cbrt` is taken as
      given; the only fact used about it is that it is non-negative on
      non-negative arguments. Neither mode ever yields a degenerate sphere. */
  function DisplayRadius(radius: real, realScale: bool, cbrt: real -> real): (d: real)
    requires forall x :: 0.0 <= x ==> 0.0 <= cbrt(x)
    ensures d > 0.0
    ensures realScale ==> d >= 0.01
    ensures realScale && radius * RealPlanetScale >= 0.01 ==> d == radius * RealPlanetScale
    ensures realScale && radius * RealPlanetScale < 0.01 ==> d == 0.01
    ensures !realScale ==> d >= 0.15
  {
    if realScale then Max(0.01, radius * RealPlanetScale)
    else 0.15 + 0.15 * cbrt(Max(radius, 0.01))
  }

  /** `interactiveScale`: 1.3 when selected, else 1.15 when hovered, else 1.
      Selection takes precedence over hover. */
  function InteractiveScale(isSelected: bool, isHovered: bool): (k: real)
    ensures 1.0 <= k <= 1.3
    ensures isSelected ==> k == 1.3
    ensures !isSelected && isHovered ==> k == 1.15
    ensures k > 1.0 <==> isSelected || isHovered
  {
    if isSelected then 1.3 else if isHovered then 1.15 else 1.0
  }

  /** The name label is drawn when the planet is hovered or selected. */
  predicate LabelShown(isSelected: bool, isHovered: bool)
  {
    isHovered || isSelected
  }

  /** A planet is scaled up exactly when its label is shown; a selected planet
      is drawn larger than a merely hovered one, which is larger than one that
      is neither. */
  lemma EmphasisMatchesLabel(isSelected: bool, isHovered: bool)
    ensures InteractiveScale(isSelected, isHovered) > 1.0 <==> LabelShown(isSelected, isHovered)
    ensures InteractiveScale(true, isHovered) > InteractiveScale(false, true) > InteractiveScale(false, false)
  {
  }

  /** Strict comparison with the store's nullable ids, as in the source. */
  predicate IsSelected(s: State, p: Planet)
  {
    s.selectedPlanet == Some(p.id)
  }

  predicate IsHovered(s: State, p: Planet)
  {
    s.hoveredPlanet == Some(p.id)
  }

  /** An orbit ring: the planet it belongs to and its radius. */
  datatype Ring = Ring(planetId: string, radius: real)

  /** A rendered planet: its record, the fraction of a full turn of its
      initial angle (`index / planets.length`), its orbit radius, angular
      speed, display radius and interactive scale. */
  datatype Body = Body(planet: Planet, angleFraction: real, distance: real,
                       orbitalSpeed: real, displayRadius: real, scale: real)

  datatype Layout = Layout(rings: seq<Ring>, bodies: seq<Body>)

  /** One rendered planet: the `index`-th of the filtered list, placed at the
      fraction `index / n` of a turn where `n` is the catalog length. */
  function PlaceBody(s: State, p: Planet, index: nat, n: nat, sqrt: real -> real, cbrt: real -> real): (b: Body)
    requires index < n
    requires forall x :: 0.0 <= x ==> 0.0 <= cbrt(x)
    ensures b.planet == p && b.distance == OrbitDistance(p, s.useRealScale)
    ensures b.angleFraction == index as real / n as real && 0.0 <= b.angleFraction < 1.0
    ensures b.orbitalSpeed == OrbitalSpeed(p.distanceAU, sqrt)
    ensures b.displayRadius == DisplayRadius(p.radius, s.useRealScale, cbrt) && b.displayRadius > 0.0
    ensures b.scale == InteractiveScale(IsSelected(s, p), IsHovered(s, p)) && 1.0 <= b.scale <= 1.3
  {
    Body(p,
         index as real / n as real,
         OrbitDistance(p, s.useRealScale),
         OrbitalSpeed(p.distanceAU, sqrt),
         DisplayRadius(p.radius, s.useRealScale, cbrt),
         InteractiveScale(IsSelected(s, p), IsHovered(s, p)))
  }

  /** The overview scene for the current store: one ring and one body per
      filtered planet, in filtered order, each ring at its body's distance.
      The initial angle divides by the length of the whole catalog, not of
      the filtered list; since the filtered list is never longer, every
      fraction lies in [0, 1). */
  function SceneLayout(s: State, planets: seq<Planet>, sqrt: real -> real, cbrt: real -> real): (r: Layout)
    requires forall x :: 0.0 <= x ==> 0.0 <= cbrt(x)
    ensures var shown := FilteredPlanets(s.activeTab, planets);
      && |r.rings| == |shown|
      && |r.bodies| == |shown|
      && forall i :: 0 <= i < |shown| ==>
           && r.bodies[i].planet == shown[i]
           && r.rings[i].planetId == shown[i].id
           && r.rings[i].radius == r.bodies[i].distance == OrbitDistance(shown[i], s.useRealScale)
           && r.bodies[i].angleFraction == i as real / |planets| as real
           && 0.0 <= r.bodies[i].angleFraction < 1.0
           && r.bodies[i].orbitalSpeed == OrbitalSpeed(shown[i].distanceAU, sqrt)
           && r.bodies[i].displayRadius == DisplayRadius(shown[i].radius, s.useRealScale, cbrt)
           && r.bodies[i].scale == InteractiveScale(IsSelected(s, shown[i]), IsHovered(s, shown[i]))
  {
    var shown := FilteredPlanets(s.activeTab, planets);
    var rings := seq(|shown|, i requires 0 <= i < |shown| =>
      Ring(shown[i].id, OrbitDistance(shown[i], s.useRealScale)));
    var bodies := seq(|shown|, i requires 0 <= i < |shown| =>
      PlaceBody(s, shown[i], i, |planets|, sqrt, cbrt));
    Layout(rings, bodies)
  }

  /** The scene never has more rings than the catalog has planets, and a tab
      whose classification no planet has shows the sun alone. */
  lemma RingsMatchPlanets(s: State, planets: seq<Planet>, sqrt: real -> real, cbrt: real -> real)
    requires forall x :: 0.0 <= x ==> 0.0 <= cbrt(x)
    ensures var r := SceneLayout(s, planets, sqrt, cbrt);
      |r.rings| == |r.bodies| <= |planets|
    ensures TabKind(s.activeTab).Some? && (forall i :: 0 <= i < |planets| ==> planets[i].kind != TabKind(s.activeTab).value) ==>
      SceneLayout(s, planets, sqrt, cbrt).bodies == []
  {
  }

  /** Clicking a planet selects it and opens the planet modal. */
  function ClickPlanet(s: State, id: string): (r: State)
    ensures r.selectedPlanet == Some(id) && r.isModalOpen
    ensures AgreeExcept(r, s, {SelectedPlanet, IsModalOpen})
  {
    Apply(Apply(s, SetSelectedPlanet(Some(id))), SetIsModalOpen(true))
  }

  /** Pointer entering a planet marks it hovered. */
  function PointerEnterPlanet(s: State, id: string): (r: State)
    ensures r.hoveredPlanet == Some(id)
    ensures AgreeExcept(r, s, {HoveredPlanet})
  {
    Apply(s, SetHoveredPlanet(Some(id)))
  }

  /** Pointer leaving a planet clears the hover, whichever planet held it. */
  function PointerLeavePlanet(s: State): (r: State)
    ensures r.hoveredPlanet == None
    ensures AgreeExcept(r, s, {HoveredPlanet})
  {
    Apply(s, SetHoveredPlanet(None))
  }

  /** Entering and then leaving a planet restores the store exactly when no
      planet was hovered before. */
  lemma HoverThenLeave(s: State, id: string)
    ensures PointerLeavePlanet(PointerEnterPlanet(s, id)) == s <==> s.hoveredPlanet == None
  {
    var r := PointerLeavePlanet(PointerEnterPlanet(s, id));
    if s.hoveredPlanet == None {
      forall f ensures Get(r, f) == Get(s, f) {
        if f != HoveredPlanet {
          assert Get(r, f) == Get(PointerEnterPlanet(s, id), f);
        }
      }
      Extensional(r, s);
    }
  }

  /** The wheel step: 1.5 zoom units per event, in the direction of `deltaY`. */
  const WheelStep := 1.5

  /** `onWheel`: `clamp(zoomLevel + sign(deltaY) * 1.5, 5, 100)`. Scrolling
      down moves the camera out by 1.5, scrolling up moves it in by 1.5, each
      saturating at the bound it would cross. */
  function OnWheel(s: State, deltaY: real): (r: State)
    ensures 5.0 <= r.zoomLevel <= 100.0
    ensures deltaY > 0.0 && 5.0 <= s.zoomLevel + WheelStep <= 100.0 ==> r.zoomLevel == s.zoomLevel + WheelStep
    ensures deltaY > 0.0 && s.zoomLevel + WheelStep > 100.0 ==> r.zoomLevel == 100.0
    ensures deltaY < 0.0 && 5.0 <= s.zoomLevel - WheelStep <= 100.0 ==> r.zoomLevel == s.zoomLevel - WheelStep
    ensures deltaY < 0.0 && s.zoomLevel - WheelStep < 5.0 ==> r.zoomLevel == 5.0
    ensures AgreeExcept(r, s, {ZoomLevel})
  {
    Apply(s, SetZoomLevel(Clamp(s.zoomLevel + Sign(deltaY) as real * WheelStep, 5.0, 100.0)))
  }

  /** A wheel event with no vertical movement leaves an in-range store as it
      was. */
  lemma WheelWithoutDeltaIsIdle(s: State)
    requires 5.0 <= s.zoomLevel <= 100.0
    ensures OnWheel(s, 0.0) == s
  {
    var r := OnWheel(s, 0.0);
    forall f ensures Get(r, f) == Get(s, f) {
      if f == ZoomLevel {
        assert r.zoomLevel == s.zoomLevel;
      }
    }
    Extensional(r, s);
  }
}
