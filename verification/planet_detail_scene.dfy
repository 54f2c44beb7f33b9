/** The per-planet detail scene: the capped moon list and its summary, moon
    orbit spacing, minimum display radii, moon emphasis, the zoom override
    applied on mount and replaced on unmount, the moon pointer handlers, and
    the camera-distance easing. */
module PlanetDetailScene {
  import opened Types
  import opened Numbers
  import opened SpaceStore

  /** At most this many moons are drawn. */
  const MaxShownMoons: nat := 10

  /** `allMoons.slice(0, 10)`: the first ten moons (or all of them when there
      are fewer), in list order; a missing list reads as empty. */
  function ShownMoons(p: Planet): (r: seq<Moon>)
    ensures |r| == if |MoonsOf(p)| <= MaxShownMoons then |MoonsOf(p)| else MaxShownMoons
    ensures r <= MoonsOf(p)
  {
    var all := MoonsOf(p);
    if |all| <= MaxShownMoons then all else all[..MaxShownMoons]
  }

  /** `hasMoreMoons`: some moons are left undrawn. */
  predicate HasMoreMoons(p: Planet)
  {
    |MoonsOf(p)| > MaxShownMoons
  }

  /** Some moons are left undrawn exactly when the summary line appears, and
      then exactly ten are drawn. */
  lemma HasMoreMoonsExactly(p: Planet)
    ensures HasMoreMoons(p) <==> |ShownMoons(p)| < |MoonsOf(p)|
    ensures HasMoreMoons(p) <==> MoonSummary(p).Some?
    ensures HasMoreMoons(p) ==> |ShownMoons(p)| == MaxShownMoons
  {
  }

  /** The summary line, "Showing `shown` major moons of `total` total moons",
      is displayed only when moons were left out. */
  datatype Summary = Summary(shown: nat, total: nat)

  function MoonSummary(p: Planet): (r: Option<Summary>)
    ensures r.Some? <==> |ShownMoons(p)| < |MoonsOf(p)|
    ensures r.Some? ==> r.value.shown == MaxShownMoons && r.value.total == |MoonsOf(p)| > MaxShownMoons
  {
    if HasMoreMoons(p) then Some(Summary(|ShownMoons(p)|, |MoonsOf(p)|)) else None
  }

  /** A planet with fifteen moons draws ten and reports "10 of 15". */
  lemma FifteenMoons(p: Planet)
    requires |MoonsOf(p)| == 15
    ensures |ShownMoons(p)| == 10
    ensures MoonSummary(p) == Some(Summary(10, 15))
  {
  }

  /** The orbit radius of the moon at `index`: `3 + index * 1.5`. */
  function MoonOrbitDistance(index: nat): (d: real)
    ensures d >= 3.0
  {
    3.0 + index as real * 1.5
  }

  /** Moon orbits are strictly nested: a later moon's orbit is at least 1.5
      units further out, so no two rings (each 0.04 wide) touch. */
  lemma MoonOrbitsNested(i: nat, j: nat)
    requires i < j
    ensures MoonOrbitDistance(i) + 1.5 <= MoonOrbitDistance(j)
  {
  }

  /** The moon's angular speed `0.3 / max(0.5, sqrt(distance))`; `sqrt` is
      taken as given. It is positive and at most 0.6. */
  function MoonOrbitalSpeed(distance: real, sqrt: real -> real): (w: real)
    ensures 0.0 < w <= 0.6
  {
    0.3 / Max(0.5, sqrt(distance))
  }

  /** `planetRadius`: `max(0.5, radius * 0.3)`, never below 0.5 whatever the
      catalog says, and proportional to the radius above that floor. */
  function PlanetRadius(p: Planet): (d: real)
    ensures d >= 0.5
    ensures p.radius * 0.3 >= 0.5 ==> d == p.radius * 0.3
    ensures p.radius * 0.3 < 0.5 ==> d == 0.5
  {
    Max(0.5, p.radius * 0.3)
  }

  /** `moonRadius`: `max(0.05, radius * 0.1)`, never below 0.05. */
  function MoonRadius(m: Moon): (d: real)
    ensures d >= 0.05
    ensures m.radius * 0.1 >= 0.05 ==> d == m.radius * 0.1
    ensures m.radius * 0.1 < 0.05 ==> d == 0.05
  {
    Max(0.05, m.radius * 0.1)
  }

  /** A moon's interactive scale: 1.5 when selected, else 1.3 when hovered,
      else 1; selection takes precedence. */
  function MoonScale(isSelected: bool, isHovered: bool): (k: real)
    ensures 1.0 <= k <= 1.5
    ensures isSelected ==> k == 1.5
    ensures !isSelected && isHovered ==> k == 1.3
    ensures k > 1.0 <==> isSelected || isHovered
  {
    if isSelected then 1.5 else if isHovered then 1.3 else 1.0
  }

  /** The moon's name label is drawn when it is hovered or selected. */
  predicate MoonLabelShown(isSelected: bool, isHovered: bool)
  {
    isHovered || isSelected
  }

  /** A moon is scaled up exactly when its label is shown, and a selected
      moon is drawn larger than a merely hovered one. */
  lemma MoonEmphasisMatchesLabel(isSelected: bool, isHovered: bool)
    ensures MoonScale(isSelected, isHovered) > 1.0 <==> MoonLabelShown(isSelected, isHovered)
    ensures MoonScale(true, isHovered) > MoonScale(false, true) > MoonScale(false, false)
  {
  }

  /** A drawn moon and the ring it orbits on. */
  datatype MoonBody = MoonBody(moon: Moon, distance: real, angleFraction: real,
                               orbitalSpeed: real, radius: real, scale: real)
  datatype MoonRing = MoonRing(moonId: string, distance: real)
  datatype MoonLayout = MoonLayout(bodies: seq<MoonBody>, rings: seq<MoonRing>)

  function PlaceMoon(s: State, m: Moon, index: nat, n: nat, sqrt: real -> real): (b: MoonBody)
    requires index < n
    ensures b.moon == m && b.distance == MoonOrbitDistance(index)
    ensures b.angleFraction == index as real / n as real && 0.0 <= b.angleFraction < 1.0
    ensures b.orbitalSpeed == MoonOrbitalSpeed(b.distance, sqrt)
    ensures b.radius == MoonRadius(m) && b.radius >= 0.05
    ensures b.scale == MoonScale(s.selectedMoon == Some(m.id), s.hoveredMoon == Some(m.id))
  {
    var distance := MoonOrbitDistance(index);
    MoonBody(m, distance, index as real / n as real, MoonOrbitalSpeed(distance, sqrt), MoonRadius(m),
             MoonScale(s.selectedMoon == Some(m.id), s.hoveredMoon == Some(m.id)))
  }

  /** The moons drawn in the detail scene: one body and one ring per shown
      moon, in list order, at most ten, each ring at its body's distance, the
      initial angles spread over the shown moons. */
  function SceneMoons(s: State, p: Planet, sqrt: real -> real): (r: MoonLayout)
    ensures var shown := ShownMoons(p);
      && |r.bodies| == |shown| && |r.rings| == |shown|
      && |r.bodies| <= MaxShownMoons
      && forall i :: 0 <= i < |shown| ==>
           && r.bodies[i].moon == shown[i]
           && r.rings[i].moonId == shown[i].id
           && r.bodies[i].distance == r.rings[i].distance == MoonOrbitDistance(i)
           && r.bodies[i].angleFraction == i as real / |shown| as real
           && 0.0 <= r.bodies[i].angleFraction < 1.0
           && r.bodies[i].radius == MoonRadius(shown[i])
           && r.bodies[i].scale == MoonScale(s.selectedMoon == Some(shown[i].id), s.hoveredMoon == Some(shown[i].id))
  {
    var shown := ShownMoons(p);
    var bodies := seq(|shown|, i requires 0 <= i < |shown| => PlaceMoon(s, shown[i], i, |shown|, sqrt));
    var rings := seq(|shown|, i requires 0 <= i < |shown| => MoonRing(shown[i].id, MoonOrbitDistance(i)));
    MoonLayout(bodies, rings)
  }

  /** The zoom level the detail scene asks for when it mounts, and the one it
      writes back when it unmounts. */
  const DetailZoom := 8.0
  const OverviewZoom := 15.0

  /** The effect run on mount: zoom to 8. */
  function Mount(s: State): (r: State)
    ensures r.zoomLevel == DetailZoom
    ensures AgreeExcept(r, s, {ZoomLevel})
  {
    Apply(s, SetZoomLevel(DetailZoom))
  }

  /** The effect's cleanup on unmount: zoom to 15. */
  function Unmount(s: State): (r: State)
    ensures r.zoomLevel == OverviewZoom
    ensures AgreeExcept(r, s, {ZoomLevel})
  {
    Apply(s, SetZoomLevel(OverviewZoom))
  }

  /** The cleanup writes the fixed value 15 rather than the zoom the scene
      replaced: mounting then unmounting restores the store exactly when its
      zoom was 15 beforehand. */
  lemma MountUnmountRestores(s: State)
    ensures Unmount(Mount(s)) == s <==> s.zoomLevel == OverviewZoom
  {
    var r := Unmount(Mount(s));
    if s.zoomLevel == OverviewZoom {
      forall f ensures Get(r, f) == Get(s, f) {
        if f != ZoomLevel {
          assert Get(r, f) == Get(Mount(s), f);
        }
      }
      Extensional(r, s);
    }
  }

  /** Clicking a moon, or its orbit ring, selects it and opens the moon modal. */
  function ClickMoon(s: State, id: string): (r: State)
    ensures r.selectedMoon == Some(id) && r.isMoonModalOpen
    ensures AgreeExcept(r, s, {SelectedMoon, IsMoonModalOpen})
  {
    Apply(Apply(s, SetSelectedMoon(Some(id))), SetIsMoonModalOpen(true))
  }

  /** Pointer entering a moon or its ring marks the moon hovered. */
  function PointerEnterMoon(s: State, id: string): (r: State)
    ensures r.hoveredMoon == Some(id)
    ensures AgreeExcept(r, s, {HoveredMoon})
  {
    Apply(s, SetHoveredMoon(Some(id)))
  }

  /** Pointer leaving a moon or its ring clears the moon hover. */
  function PointerLeaveMoon(s: State): (r: State)
    ensures r.hoveredMoon == None
    ensures AgreeExcept(r, s, {HoveredMoon})
  {
    Apply(s, SetHoveredMoon(None))
  }

  /** Entering and then leaving a moon restores the store exactly when no
      moon was hovered before. */
  lemma HoverThenLeaveMoon(s: State, id: string)
    ensures PointerLeaveMoon(PointerEnterMoon(s, id)) == s <==> s.hoveredMoon == None
  {
    var r := PointerLeaveMoon(PointerEnterMoon(s, id));
    if s.hoveredMoon == None {
      forall f ensures Get(r, f) == Get(s, f) {
        if f != HoveredMoon {
          assert Get(r, f) == Get(PointerEnterMoon(s, id), f);
        }
      }
      Extensional(r, s);
    }
  }

  /** The camera moves only while it is more than this far from its target. */
  const CameraEpsilon := 0.1

  /** The scene's orbit controls keep the camera between these distances from
      the origin; they re-apply the bounds on every update. */
  const ControlsMinDistance := 3.0
  const ControlsMaxDistance := 30.0

  /** The distance the orbit controls hold the camera at. */
  function Held(d: real): (c: real)
    ensures ControlsMinDistance <= c <= ControlsMaxDistance
    ensures ControlsMinDistance <= d <= ControlsMaxDistance ==> c == d
  {
    Clamp(d, ControlsMinDistance, ControlsMaxDistance)
  }

  /** One run of the camera controller, on the camera's distance `d` from the
      origin: while `d` is more than 0.1 from the target zoom `t`, the camera
      is moved a tenth of the way towards the point at distance `t` along its
      own direction, giving the distance `|0.9 d + 0.1 t|`. A camera at the
      origin has no direction (normalising the zero vector gives the zero
      vector), so it stays there. For a non-negative target the step never
      overshoots and shrinks the gap by the factor 0.9. */
  function CameraStep(d: real, t: real): (r: real)
    requires 0.0 <= d
    ensures 0.0 <= r
    ensures d == 0.0 ==> r == 0.0
    ensures Abs(d - t) <= CameraEpsilon ==> r == d
    ensures 0.0 <= t && 0.0 < d ==> Min(d, t) <= r <= Max(d, t)
    ensures 0.0 <= t && 0.0 < d && Abs(d - t) > CameraEpsilon ==> Abs(r - t) == 0.9 * Abs(d - t)
  {
    if Abs(d - t) > CameraEpsilon && d != 0.0 then Abs(0.9 * d + 0.1 * t) else d
  }

  /** One frame: the orbit controls bring the camera into [3, 30] (they are
      updated before the scene's own frame callbacks), then the controller
      eases it towards the zoom level. */
  function Frame(d: real, t: real): (r: real)
    requires 0.0 <= d
    ensures 0.0 <= r
  {
    CameraStep(Held(d), t)
  }

  /** The camera distance after `n` frames, the zoom level held fixed. */
  function CameraAfter(d: real, t: real, n: nat): (r: real)
    requires 0.0 <= d
    ensures 0.0 <= r
    decreases n
  {
    if n == 0 then d else Frame(CameraAfter(d, t, n - 1), t)
  }

  /** One frame moves the held distance towards the target clamped into the
      controls' range, without passing it, and removes a tenth of the gap
      while the gap exceeds 0.1. */
  lemma FrameApproachesHeldTarget(d: real, t: real)
    requires 0.0 <= d && 0.0 <= t
    ensures var c := Held(d); var c' := Held(Frame(d, t)); var g := Held(t);
      && Min(c, g) <= c' <= Max(c, g)
      && (Abs(c - g) > CameraEpsilon ==> Abs(c' - g) <= 0.9 * Abs(c - g))
  {
    var c := Held(d);
    var g := Held(t);
    var r := CameraStep(c, t);
    if Abs(c - g) > CameraEpsilon {
      assert Abs(c - t) > CameraEpsilon;
      assert r == 0.9 * c + 0.1 * t;
    }
  }

  /** Over any number of frames the held distance stays between its start
      and the clamped target, and its gap to that target never grows. */
  lemma {:induction false} CameraNeverOvershoots(d: real, t: real, n: nat)
    requires 0.0 <= d && 0.0 <= t
    ensures Min(Held(d), Held(t)) <= Held(CameraAfter(d, t, n)) <= Max(Held(d), Held(t))
    ensures Abs(Held(CameraAfter(d, t, n)) - Held(t)) <= Abs(Held(d) - Held(t))
    decreases n
  {
    if n > 0 {
      var before := CameraAfter(d, t, n - 1);
      CameraNeverOvershoots(d, t, n - 1);
      FrameApproachesHeldTarget(before, t);
      assert CameraAfter(d, t, n) == Frame(before, t);
      StaysBetween(Held(d), Held(before), Held(Frame(before, t)), Held(t));
    }
  }

  /** A point between `a` and `g` followed by a point between it and `g` is
      again between `a` and `g`, and no further from `g`. */
  lemma StaysBetween(a: real, c: real, c': real, g: real)
    requires Min(a, g) <= c <= Max(a, g)
    requires Min(c, g) <= c' <= Max(c, g)
    ensures Min(a, g) <= c' <= Max(a, g)
    ensures Abs(c' - g) <= Abs(a - g)
  {
  }

  /** Either the held distance has settled within 0.1 of the clamped target,
      or every frame so far removed a tenth of a gap larger than 0.1, so at
      least 0.01. */
  lemma {:induction false} CameraGapBound(d: real, t: real, n: nat)
    requires 0.0 <= d && 0.0 <= t
    ensures var gap := Abs(Held(CameraAfter(d, t, n)) - Held(t));
      gap <= CameraEpsilon || gap <= Abs(Held(d) - Held(t)) - 0.01 * n as real
    decreases n
  {
    if n > 0 {
      CameraGapBound(d, t, n - 1);
      FrameApproachesHeldTarget(CameraAfter(d, t, n - 1), t);
    }
  }

  /** The easing converges to the zoom level clamped into [3, 30]: after
      `100 * gap` frames (or more) the held distance is within 0.1 of it. */
  lemma CameraConverges(d: real, t: real, n: nat)
    requires 0.0 <= d && 0.0 <= t
    requires n as real >= 100.0 * Abs(Held(d) - Held(t))
    ensures Abs(Held(CameraAfter(d, t, n)) - Held(t)) <= CameraEpsilon
  {
    CameraGapBound(d, t, n);
  }

  /** A zoom level inside the controls' range is reached: from the first
      frame on the camera stays in [3, 30], and after `100 * gap` frames it
      is within 0.1 of the zoom level. */
  lemma CameraReachesZoomInRange(d: real, t: real, n: nat)
    requires 0.0 <= d && ControlsMinDistance <= t <= ControlsMaxDistance
    requires 1 <= n && n as real >= 100.0 * Abs(Held(d) - t)
    ensures ControlsMinDistance <= CameraAfter(d, t, n) <= ControlsMaxDistance
    ensures Abs(CameraAfter(d, t, n) - t) <= CameraEpsilon
  {
    CameraConverges(d, t, n);
  }

  /** A zoom level more than 0.2 outside the controls' range is never
      approached: after any frame the camera is still more than 0.1 from it,
      since the controls pull it back to [3, 30] before every step. */
  lemma ZoomOutOfReach(d: real, t: real, n: nat)
    requires 0.0 <= d && 0.0 <= t
    requires t < ControlsMinDistance - 0.2 || t > ControlsMaxDistance + 0.2
    requires 1 <= n
    ensures Abs(CameraAfter(d, t, n) - t) > CameraEpsilon
  {
    var c := Held(CameraAfter(d, t, n - 1));
    assert Abs(c - t) > CameraEpsilon;
    assert CameraAfter(d, t, n) == 0.9 * c + 0.1 * t;
  }

  /** Once within 0.1 of the zoom level, and inside the controls' range, the
      camera no longer moves. */
  lemma {:induction false} CameraHoldsOnceSettled(d: real, t: real, n: nat)
    requires ControlsMinDistance <= d <= ControlsMaxDistance && Abs(d - t) <= CameraEpsilon
    ensures CameraAfter(d, t, n) == d
    decreases n
  {
    if n > 0 {
      CameraHoldsOnceSettled(d, t, n - 1);
    }
  }
}
