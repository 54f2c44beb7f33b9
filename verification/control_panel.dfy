/** The control panel's handlers: clamped speed and zoom steps, the reset
    button, the real-scale checkbox, and the two progress-bar widths. */
module ControlPanel {
  import opened Types
  import opened Numbers
  import opened SpaceStore

  const MinSpeed := 0.0
  const MaxSpeed := 5.0
  const MinZoom := 5.0
  const MaxZoom := 100.0
  /** The zoom level `resetView` restores. */
  const ResetZoom := 15.0
  /** The speed buttons step by half a unit, the zoom buttons by two. */
  const SpeedStep := 0.5
  const ZoomStep := 2.0

  /** `handleSpeedChange(delta)`: the new speed is the old one moved by `delta`
      and clamped into [0, 5]; it saturates at the nearer bound. */
  function HandleSpeedChange(s: State, delta: real): (r: State)
    ensures MinSpeed <= r.rotationSpeed <= MaxSpeed
    ensures MinSpeed <= s.rotationSpeed + delta <= MaxSpeed ==> r.rotationSpeed == s.rotationSpeed + delta
    ensures s.rotationSpeed + delta < MinSpeed ==> r.rotationSpeed == MinSpeed
    ensures s.rotationSpeed + delta > MaxSpeed ==> r.rotationSpeed == MaxSpeed
    ensures AgreeExcept(r, s, {RotationSpeed})
  {
    Apply(s, SetRotationSpeed(Clamp(s.rotationSpeed + delta, MinSpeed, MaxSpeed)))
  }

  /** `handleZoomChange(delta)`: the new zoom is the old one moved by `delta`
      and clamped into [5, 100]. */
  function HandleZoomChange(s: State, delta: real): (r: State)
    ensures MinZoom <= r.zoomLevel <= MaxZoom
    ensures MinZoom <= s.zoomLevel + delta <= MaxZoom ==> r.zoomLevel == s.zoomLevel + delta
    ensures s.zoomLevel + delta < MinZoom ==> r.zoomLevel == MinZoom
    ensures s.zoomLevel + delta > MaxZoom ==> r.zoomLevel == MaxZoom
    ensures AgreeExcept(r, s, {ZoomLevel})
  {
    Apply(s, SetZoomLevel(Clamp(s.zoomLevel + delta, MinZoom, MaxZoom)))
  }

  /** `resetView`: zoom back to 15, no selected planet, planet modal closed.
      Speed, tab, scale mode, hover and every moon field are left alone. */
  function ResetView(s: State): (r: State)
    ensures r.zoomLevel == ResetZoom
    ensures r.selectedPlanet == None
    ensures !r.isModalOpen
    ensures AgreeExcept(r, s, {ZoomLevel, SelectedPlanet, IsModalOpen})
  {
    var zoomed := Apply(s, SetZoomLevel(ResetZoom));
    var cleared := Apply(zoomed, SetSelectedPlanet(None));
    Apply(cleared, SetIsModalOpen(false))
  }

  /** The real-scale checkbox's `onChange`: the flag becomes the checkbox's
      checked value and nothing else changes. */
  function ToggleRealScale(s: State, checked: bool): (r: State)
    ensures r.useRealScale == checked
    ensures AgreeExcept(r, s, {UseRealScale})
  {
    Apply(s, SetUseRealScale(checked))
  }

  /** Checking and unchecking the box in turn restores the store. */
  lemma ToggleRealScaleRoundTrip(s: State)
    ensures ToggleRealScale(ToggleRealScale(s, !s.useRealScale), s.useRealScale) == s
  {
    var r := ToggleRealScale(ToggleRealScale(s, !s.useRealScale), s.useRealScale);
    forall f ensures Get(r, f) == Get(s, f) {
      if f != UseRealScale {
        assert Get(r, f) == Get(ToggleRealScale(s, !s.useRealScale), f);
      }
    }
    Extensional(r, s);
  }

  /** Width, in percent, of the speed bar: `(speed / 5) * 100`. */
  function SpeedBarWidth(speed: real): (w: real)
    ensures MinSpeed <= speed <= MaxSpeed ==> 0.0 <= w <= 100.0
    ensures w == 0.0 <==> speed == MinSpeed
    ensures w == 100.0 <==> speed == MaxSpeed
  {
    (speed / 5.0) * 100.0
  }

  /** Width, in percent, of the zoom bar: `((zoom - 5) / 95) * 100`. */
  function ZoomBarWidth(zoom: real): (w: real)
    ensures MinZoom <= zoom <= MaxZoom ==> 0.0 <= w <= 100.0
    ensures w == 0.0 <==> zoom == MinZoom
    ensures w == 100.0 <==> zoom == MaxZoom
  {
    ((zoom - 5.0) / 95.0) * 100.0
  }

  /** Whatever the store held, after any speed or zoom button press both bars
      are drawn within [0%, 100%]. */
  lemma BarsStayInRange(s: State, speedDelta: real, zoomDelta: real)
    ensures 0.0 <= SpeedBarWidth(HandleSpeedChange(s, speedDelta).rotationSpeed) <= 100.0
    ensures 0.0 <= ZoomBarWidth(HandleZoomChange(s, zoomDelta).zoomLevel) <= 100.0
  {
  }

  /** `resetView` twice is `resetView` once. */
  lemma ResetViewIdempotent(s: State)
    ensures ResetView(ResetView(s)) == ResetView(s)
  {
    var once := ResetView(s);
    var twice := ResetView(once);
    Extensional(twice, once);
  }

  /** The speed after a sequence of button presses, oldest first; `true` is the
      plus button (+0.5) and `false` the minus button (-0.5). */
  function PressSpeed(s: State, presses: seq<bool>): State
    decreases |presses|
  {
    if |presses| == 0 then s
    else PressSpeed(HandleSpeedChange(s, if presses[0] then SpeedStep else -SpeedStep), presses[1..])
  }

  /** The same presses counted in half-units: an integer clamped into [0, 10]. */
  function HalfSteps(k: int, presses: seq<bool>): int
    decreases |presses|
  {
    if |presses| == 0 then k
    else
      var next := if presses[0] then k + 1 else k - 1;
      HalfSteps(if next < 0 then 0 else if next > 10 then 10 else next, presses[1..])
  }

  /** Starting on the half-unit grid inside [0, 5], any sequence of speed
      presses stays on that grid and inside [0, 5]: the real-valued speed is
      always `k * 0.5` for the integer `k` the half-unit count predicts, and
      no other store field moves. */
  lemma {:induction false} SpeedPressesStayOnGrid(s: State, k: int, presses: seq<bool>)
    requires 0 <= k <= 10 && s.rotationSpeed == k as real * 0.5
    ensures 0 <= HalfSteps(k, presses) <= 10
    ensures PressSpeed(s, presses).rotationSpeed == HalfSteps(k, presses) as real * 0.5
    ensures AgreeExcept(PressSpeed(s, presses), s, {RotationSpeed})
    decreases |presses|
  {
    if |presses| > 0 {
      var delta := if presses[0] then SpeedStep else -SpeedStep;
      var next := if presses[0] then k + 1 else k - 1;
      var k' := if next < 0 then 0 else if next > 10 then 10 else next;
      var s' := HandleSpeedChange(s, delta);
      assert s'.rotationSpeed == k' as real * 0.5;
      SpeedPressesStayOnGrid(s', k', presses[1..]);
      AgreeExceptTrans(PressSpeed(s', presses[1..]), s', s, {RotationSpeed}, {RotationSpeed});
    }
  }

  /** From the store's default speed of 1, every reachable speed is one of
      0, 0.5, ..., 5. */
  lemma DefaultSpeedPresses(s: State, presses: seq<bool>)
    requires s.rotationSpeed == 1.0
    ensures MinSpeed <= PressSpeed(s, presses).rotationSpeed <= MaxSpeed
    ensures PressSpeed(s, presses).rotationSpeed == HalfSteps(2, presses) as real * 0.5
  {
    SpeedPressesStayOnGrid(s, 2, presses);
  }
}
