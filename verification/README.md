# Solar-system explorer: interaction state machine

This project models the interaction logic of a 3D solar-system explorer
written in TypeScript with React. The explorer has a global interaction store
holding the current selection, hover, rotation speed, zoom, tab, modal and
scale flags. UI components act on that store:

- a control panel with clamped speed and zoom buttons;
- the overview scene, which filters the planet catalog by tab and zooms on
  the mouse wheel;
- a planet modal and a moon modal, each with a guarded render and a catalog
  lookup;
- a per-planet detail scene that caps its moon list and eases the camera;
- a floating moon list;
- a row of category tabs.

The Dafny model keeps the store as an immutable record. Every handler is a
pure function from store to store. What a component renders is a pure
function of the store and the catalog.

Files, one module each:

- `numbers.dfy` (`Numbers`): `Max`, `Min`, `Abs`, `Clamp` (`Math.max(lo, Math.min(hi, x))`) and `Sign` (`Math.sign`).
- `types.dfy` (`Types`):
  - the `Planet` and `Moon` records, with only the attributes the logic reads;
  - `Option` for the source's nullable values;
  - `Truthy`, which gives JavaScript truthiness of a nullable string (`null` and `""` are falsy);
  - the `find`-by-id lookups.
- `space_store.dfy` (`SpaceStore`):
  - the store record and its setters;
  - `Get` and `Apply`, which read a field and apply one setter;
  - the frame predicate `AgreeExcept`, which says two stores agree on every field outside a given set;
  - the setter algebra: idempotence, commutation and last-write-wins.
- `control_panel.dfy` (`ControlPanel`): speed and zoom steps, reset, the real-scale checkbox, the progress bars, and sequences of speed presses.
- `space_scene.dfy` (`SpaceScene`): the tab filter, ring and planet construction, display radius, emphasis, planet clicks and hover, and the wheel zoom.
- `planet_detail_scene.dfy` (`PlanetDetailScene`): the capped moon list and its summary line, moon orbits and radii, the zoom set on mount and unmount, moon clicks and hover, and the camera-distance easing.
- `planet_modal.dfy` (`PlanetModal`): close, "view details" navigation, the render guard, and Escape.
- `moon_modal.dfy` (`MoonModal`): close, the three-part render guard with the planet-scoped moon lookup, the discovery section, and Escape.
- `moon_list_panel.dfy` (`MoonListPanel`): the moon click handler, the panel's open/closed state, the badge, the numbered entries and the count label.
- `planet_tabs.dfy` (`PlanetTabs`): the tab table, which tab is highlighted, and the tab click.

Numbers are modelled as exact `real`s. In the clamped speed, zoom and wheel
handlers every value involved is a multiple of 0.5 well inside the range
where binary64 is exact, so the model and the program agree there. The speed
bar's intermediate quotient `rotationSpeed / 5` (0.1, 0.3, ...) is not exact
in binary64, but on the reachable speeds 0, 0.5, ..., 5 its product with 100
rounds to the exact percentage. Elsewhere (the zoom bar's division by 95, the camera's 0.9 and 0.1,
the radius factors) the program rounds and the model does not; see
"## Left out". `Math.sqrt` and `Math.cbrt` are function parameters.
`cbrt` is assumed non-negative on non-negative arguments, and `sqrt` is
assumed nothing at all.

Five store fields are not declared in the store file but are read and set by
the components: `selectedMoon`, `hoveredMoon`, `isMoonModalOpen`,
`isNavigating` and `previousRoute`. The model adds them, inferred from that
usage. No default is shown for them, so `SpaceStore.Initial` takes their
values as parameters. Likewise `Planet.moonList` and the `Moon` record are
inferred from how the components read them.

## Model

| member | source | states |
|---|---|---|
| `SpaceStore.Apply` | store/useSpaceStore.ts:22-34 | Each setter stores its argument verbatim in its own field, with no validation: a speed outside [0, 5] or a zoom outside [5, 100] is kept as given. Every other field reads the same before and after. |
| `SpaceStore.Initial` | store/useSpaceStore.ts:20-35 | The initial store has no selected planet, speed 1, zoom 15, tab "all", the planet modal closed, no hovered planet and compressed scale. |
| `SpaceStore.AgreeExceptTrans` | store/useSpaceStore.ts:22-34 | Two frame facts compose: if a and b differ only on x, and b and c only on y, then a and c differ only on x ∪ y. |
| `SpaceStore.SetIdempotent` | store/useSpaceStore.ts:22-34 | Calling a setter twice with the same value equals calling it once. |
| `SpaceStore.SettersCommute` | store/useSpaceStore.ts:22-34 | Setters of two different fields give the same store in either order. |
| `SpaceStore.LastWriteWins` | store/useSpaceStore.ts:22-34 | Two writes to the same field leave only the second one's value. |
| `Types.FirstIndex` | components/PlanetModal.tsx:55 | The index found is that of the first element with the key. None is returned exactly when no element carries the key. |
| `Types.FindPlanet` | components/PlanetModal.tsx:55-56 | A found planet is the FIRST catalog entry with the requested id: it is at some index k, and no earlier entry has that id. The lookup yields None, not a failure, exactly when no catalog entry has that id. |
| `Types.FindMoon` | components/MoonModal.tsx:48-49 | A found moon is the FIRST moon of the searched list with the requested id. The lookup yields None exactly when that list has no moon with that id. |
| `Types.MoonsOf` | components/PlanetDetailScene.tsx:207 | A missing moon list reads as the empty list; a present one is returned as is. |
| `Numbers.Clamp` | components/ControlPanel.tsx:20 | The result lies within the bounds. A value already within them is returned unchanged. A value below is raised to the lower bound, and a value above is cut to the upper bound. |
| `Numbers.Sign` | components/SpaceScene.tsx:196 | The sign is -1, 0 or 1, and it is positive or negative exactly when its argument is. |
| `ControlPanel.HandleSpeedChange` | components/ControlPanel.tsx:19-22 | The new speed is always in [0, 5]. It moves by exactly the delta when the sum stays in range and otherwise saturates at the nearer bound. Only the speed changes. |
| `ControlPanel.HandleZoomChange` | components/ControlPanel.tsx:24-27 | The new zoom is always in [5, 100]. It moves by exactly the delta when the sum stays in range and otherwise saturates at the nearer bound. Only the zoom changes. |
| `ControlPanel.ResetView` | components/ControlPanel.tsx:29-33 | Reset gives zoom 15, no selected planet and a closed planet modal. Speed, tab, scale mode, hover and the moon fields are untouched. |
| `ControlPanel.ResetViewIdempotent` | components/ControlPanel.tsx:29-33 | Resetting twice equals resetting once. |
| `ControlPanel.ToggleRealScale` | components/ControlPanel.tsx:109-110 | The scale flag becomes the checkbox's checked value, and nothing else changes. |
| `ControlPanel.ToggleRealScaleRoundTrip` | components/ControlPanel.tsx:109-110 | Ticking the box and then unticking it (or the reverse) restores the store exactly. |
| `ControlPanel.SpeedBarWidth` | components/ControlPanel.tsx:62 | For an in-range speed the bar is between 0% and 100%. It is empty exactly at speed 0 and full exactly at speed 5. |
| `ControlPanel.ZoomBarWidth` | components/ControlPanel.tsx:91 | For an in-range zoom the bar is between 0% and 100%. It is empty exactly at zoom 5 and full exactly at zoom 100. |
| `ControlPanel.BarsStayInRange` | components/ControlPanel.tsx:53-95 | After any speed or zoom button press, both bars are drawn within [0%, 100%], whatever the store held before. |
| `ControlPanel.SpeedPressesStayOnGrid` | components/ControlPanel.tsx:53-66 | Any sequence of -0.5/+0.5 presses from a speed k·0.5 in [0, 5] keeps the speed at j·0.5 for an integer j in [0, 10], the count a clamped integer walk predicts. No other field moves. |
| `ControlPanel.DefaultSpeedPresses` | components/ControlPanel.tsx:53-66 | From the default speed 1, every speed reachable by the buttons is one of 0, 0.5, ..., 5. |
| `SpaceScene.TabKind` | components/SpaceScene.tsx:108-120 | The "all" tab selects no planet classification. |
| `SpaceScene.OfKind` | components/SpaceScene.tsx:110-118 | A planet is in the filtered list exactly when it is in the catalog with the given type. Each planet of that type occurs as often as in the catalog, and every other planet occurs zero times, so repeated entries are kept. |
| `SpaceScene.OfKindIsSubsequence` | components/SpaceScene.tsx:110-118 | Filtering by type keeps catalog order: the result is a subsequence of the catalog. |
| `SpaceScene.FilteredPlanets` | components/SpaceScene.tsx:108-120 | The tab "all", or any unrecognised tab, yields the catalog unchanged. Each category tab yields exactly the planets of its type, each as often as the catalog lists it. The result is always an order-preserving subsequence of the catalog, never longer than it. |
| `SpaceScene.OrbitalSpeed` | components/SpaceScene.tsx:162 | The angular speed is positive and at most 1 for any value the square root yields. |
| `SpaceScene.RealScaleDoublesOrbits` | components/SpaceScene.tsx:146-147 | The real-scale toggle doubles every orbit radius (6 instead of 3 units per AU). In both modes a planet further out in AU gets the wider orbit. |
| `SpaceScene.CloserOrbitsFaster` | components/SpaceScene.tsx:161-162 | A planet with the smaller square root of distance orbits no slower. |
| `SpaceScene.DisplayRadius` | components/SpaceScene.tsx:45-50 | The sphere radius is always positive. It is at least 0.01 in real-scale mode, where it equals radius × 0.01 at or above that floor and exactly 0.01 below it. In compressed mode it is at least 0.15. |
| `SpaceScene.InteractiveScale` | components/SpaceScene.tsx:47 | The scale is between 1 and 1.3. Selection gives 1.3 whatever the hover, hover alone gives 1.15, and the planet is enlarged exactly when it is selected or hovered. |
| `SpaceScene.EmphasisMatchesLabel` | components/SpaceScene.tsx:47-77 | A planet is enlarged exactly when its name label is shown. Selected is larger than hovered, which is larger than neither. |
| `SpaceScene.PlaceBody` | components/SpaceScene.tsx:157-173 | The planet at position `index` sits at its orbit distance. Its initial angle fraction is index / n, which lies in [0, 1). Its speed is the Kepler-like speed of its distance. Its radius is `DisplayRadius` of its catalog radius in the current scale mode. Its scale is `InteractiveScale` of whether the store selects or hovers it. |
| `SpaceScene.SceneLayout` | components/SpaceScene.tsx:145-173 | The scene has exactly one ring and one planet per filtered planet, in filter order. Each ring lies at its planet's orbit distance. The i-th planet's initial angle fraction is i / (catalog length), not i / (filtered length), and lies in [0, 1). Its speed, radius and scale follow its own record and whether it is selected or hovered. |
| `SpaceScene.RingsMatchPlanets` | components/SpaceScene.tsx:108-173 | The scene never has more rings or planets than the catalog has entries. A category tab whose type no planet has shows no planet at all. |
| `SpaceScene.ClickPlanet` | components/SpaceScene.tsx:58-62 | A click selects the planet and opens the planet modal, and changes nothing else. |
| `SpaceScene.PointerEnterPlanet` | components/SpaceScene.tsx:63 | Pointer enter marks the planet hovered, and changes nothing else. |
| `SpaceScene.PointerLeavePlanet` | components/SpaceScene.tsx:64 | Pointer leave clears the hover whichever planet held it, and changes nothing else. |
| `SpaceScene.HoverThenLeave` | components/SpaceScene.tsx:63-64 | Entering and then leaving a planet restores the store exactly when no planet was hovered before. |
| `SpaceScene.OnWheel` | components/SpaceScene.tsx:194-199 | The zoom stays in [5, 100]. Scrolling down adds 1.5 and scrolling up subtracts 1.5, saturating at the bound the step would cross. Only the zoom changes. |
| `SpaceScene.WheelWithoutDeltaIsIdle` | components/SpaceScene.tsx:194-199 | A wheel event with zero vertical delta leaves an in-range store exactly as it was. |
| `PlanetDetailScene.ShownMoons` | components/PlanetDetailScene.tsx:207-209 | The drawn moons are a prefix of the moon list, of length min(10, n), so they are in list order. A missing list draws none. |
| `PlanetDetailScene.MoonSummary` | components/PlanetDetailScene.tsx:284-290 | The summary appears exactly when some moons are left undrawn. It then reports 10 shown out of a total above 10. |
| `PlanetDetailScene.HasMoreMoonsExactly` | components/PlanetDetailScene.tsx:210 | `hasMoreMoons` holds exactly when some moons are left undrawn, and exactly when the summary line appears. Exactly ten are then drawn. |
| `PlanetDetailScene.FifteenMoons` | components/PlanetDetailScene.tsx:207-210 | A planet with fifteen moons draws ten and reports "10 of 15". |
| `PlanetDetailScene.MoonOrbitDistance` | components/PlanetDetailScene.tsx:238 | Every moon orbit lies at least 3 units out. |
| `PlanetDetailScene.MoonOrbitsNested` | components/PlanetDetailScene.tsx:238 | A later moon's orbit is at least 1.5 units further out than an earlier one's, so orbits strictly increase with the index. |
| `PlanetDetailScene.MoonOrbitalSpeed` | components/PlanetDetailScene.tsx:240 | A moon's angular speed is positive and at most 0.6. |
| `PlanetDetailScene.PlanetRadius` | components/PlanetDetailScene.tsx:211 | The planet radius is never below 0.5, for any catalog radius including zero or negative ones. Above that floor it is radius × 0.3. |
| `PlanetDetailScene.MoonRadius` | components/PlanetDetailScene.tsx:109 | The moon radius is never below 0.05, for any catalog radius. Above that floor it is radius × 0.1. |
| `PlanetDetailScene.MoonScale` | components/PlanetDetailScene.tsx:110 | The moon scale is between 1 and 1.5. Selection gives 1.5, hover alone gives 1.3, and the moon is enlarged exactly when it is selected or hovered. |
| `PlanetDetailScene.MoonEmphasisMatchesLabel` | components/PlanetDetailScene.tsx:110-141 | A moon is enlarged exactly when its label is shown. Selected is larger than hovered, which is larger than neither. |
| `PlanetDetailScene.PlaceMoon` | components/PlanetDetailScene.tsx:237-252 | The moon at position `index` of n sits at that index's orbit distance. Its initial angle fraction is index / n, in [0, 1). Its speed is the moon speed of that distance and its radius is `MoonRadius`, at least 0.05. Its scale is `MoonScale` of whether the store selects or hovers it. |
| `PlanetDetailScene.SceneMoons` | components/PlanetDetailScene.tsx:237-264 | There is one moon body and one ring per drawn moon, at most ten, in list order. Each body and its ring share the distance 3 + 1.5·index. The i-th moon's angle fraction is i / (number drawn), so the drawn moons are spread evenly over the circle. Radius and scale follow the moon's record and its selection and hover. |
| `PlanetDetailScene.Mount` | components/PlanetDetailScene.tsx:214-216 | Mounting the detail scene sets the zoom to 8 and nothing else. |
| `PlanetDetailScene.Unmount` | components/PlanetDetailScene.tsx:217-218 | Unmounting sets the zoom to 15 and nothing else. |
| `PlanetDetailScene.MountUnmountRestores` | components/PlanetDetailScene.tsx:214-219 | Mounting and then unmounting gives back the original store exactly when its zoom was 15 beforehand. |
| `PlanetDetailScene.ClickMoon` | components/PlanetDetailScene.tsx:59-63 | Clicking a moon or its ring selects that moon and opens the moon modal, and changes nothing else. |
| `PlanetDetailScene.PointerEnterMoon` | components/PlanetDetailScene.tsx:64 | Pointer enter marks the moon hovered, and changes nothing else. |
| `PlanetDetailScene.PointerLeaveMoon` | components/PlanetDetailScene.tsx:65 | Pointer leave clears the moon hover, and changes nothing else. |
| `PlanetDetailScene.HoverThenLeaveMoon` | components/PlanetDetailScene.tsx:122-123 | Entering and then leaving a moon restores the store exactly when no moon was hovered before. |
| `PlanetDetailScene.Held` | components/PlanetDetailScene.tsx:267-271 | The orbit controls hold the camera between 3 and 30 units from the origin, and leave a distance already in that range alone. |
| `PlanetDetailScene.CameraStep` | components/PlanetDetailScene.tsx:190-199 | A camera within 0.1 of the zoom level does not move. A camera at the origin stays there, because it has no direction to move along. Otherwise, with a non-negative zoom, the step never overshoots: the new distance lies between the old one and the zoom, and the gap shrinks by the factor 0.9. |
| `PlanetDetailScene.FrameApproachesHeldTarget` | components/PlanetDetailScene.tsx:190-199 | In one frame (controls clamp, then easing) the held distance moves towards the zoom level clamped into [3, 30], without passing it. While the gap exceeds 0.1, the frame shrinks it by at least the factor 0.9. |
| `PlanetDetailScene.CameraNeverOvershoots` | components/PlanetDetailScene.tsx:190-199 | Over any number of frames the held distance stays between its start and the clamped zoom, and its gap to the clamped zoom never grows. |
| `PlanetDetailScene.CameraGapBound` | components/PlanetDetailScene.tsx:190-199 | After n frames the held distance is either within 0.1 of the clamped zoom or at least 0.01·n closer to it than at the start. |
| `PlanetDetailScene.CameraConverges` | components/PlanetDetailScene.tsx:190-199 | After 100·gap frames or more, the held distance is within 0.1 of the zoom level clamped into [3, 30]. |
| `PlanetDetailScene.CameraReachesZoomInRange` | components/PlanetDetailScene.tsx:190-199 | For a zoom level in [3, 30], the camera is inside [3, 30] from the first frame on. After 100·gap frames (and at least one) it is within 0.1 of the zoom level. |
| `PlanetDetailScene.ZoomOutOfReach` | components/PlanetDetailScene.tsx:267-271 | For a zoom level more than 0.2 outside [3, 30] (for example 32, reachable from the control panel), the camera is still more than 0.1 away from it after every frame. |
| `PlanetDetailScene.CameraHoldsOnceSettled` | components/PlanetDetailScene.tsx:190-199 | A camera inside [3, 30] and within 0.1 of the zoom level never moves. |
| `PlanetModal.HandleClose` | components/PlanetModal.tsx:40-43 | Closing shuts the planet modal and clears the planet selection, and changes nothing else. |
| `PlanetModal.HandleCloseIdempotent` | components/PlanetModal.tsx:40-43 | Closing twice equals closing once. |
| `PlanetModal.HandleViewDetails` | components/PlanetModal.tsx:45-51 | With no selected planet (null or empty), nothing changes and no route is pushed. Otherwise it marks navigation in progress, records the current path as the previous route, closes the modal and pushes "/planet/" + id. The selection is kept, and nothing else changes. |
| `PlanetModal.Content` | components/PlanetModal.tsx:53-56 | The modal shows the FIRST catalog planet with the selected id, as the catalog lookup returns it. It renders nothing exactly when there is no selection, or the modal is closed, or no catalog entry has that id. |
| `PlanetModal.NothingRenderedAfterLeaving` | components/PlanetModal.tsx:40-56 | After closing, or after "view details", the modal renders nothing. |
| `PlanetModal.OnKeyDown` | components/PlanetModal.tsx:26-38 | Escape closes the modal only while it is open. Any other key, or any key while it is closed, changes nothing. |
| `PlanetModal.ClickThenClose` | components/PlanetModal.tsx:40-43 | Clicking a planet and then closing leaves no selection and a closed modal, with every other field as before the click. This restores the store exactly when nothing was selected and the modal was closed. |
| `MoonModal.HandleClose` | components/MoonModal.tsx:38-41 | Closing shuts the moon modal and clears the moon selection. The planet selection and everything else are left alone. |
| `MoonModal.HandleCloseIdempotent` | components/MoonModal.tsx:38-41 | Closing twice equals closing once. |
| `MoonModal.ClickThenClose` | components/MoonModal.tsx:38-41 | Clicking a moon and then closing restores the store exactly when no moon was selected and the moon modal was closed. |
| `MoonModal.Content` | components/MoonModal.tsx:43-49 | A shown moon belongs to the moon list of the catalog planet with the selected planet id, and has the selected moon id. The planet is the FIRST catalog entry with that id, and the moon is the FIRST entry of that planet's list with the moon id. All three guards held: a moon is selected, the modal is open and a planet is selected. |
| `MoonModal.ContentExactly` | components/MoonModal.tsx:43-49 | The modal renders exactly when the three guards hold, the selected planet is in the catalog, and that planet's own list has a moon with the selected id. A missing list renders nothing. |
| `MoonModal.ForeignMoonHidden` | components/MoonModal.tsx:45-49 | A moon id that the selected planet's list does not contain renders nothing, even when another planet lists it. |
| `MoonModal.DiscoveryFields` | components/MoonModal.tsx:134 | The discovery section (`DiscoveryShown`) appears when either field alone is set. A field that is absent or the empty string contributes nothing. |
| `MoonModal.OnKeyDown` | components/MoonModal.tsx:24-36 | Escape closes the moon modal only while it is open. Any other key, or any key while it is closed, changes nothing. |
| `MoonModal.NothingRenderedAfterClose` | components/MoonModal.tsx:38-49 | After closing, the moon modal renders nothing, and the planet modal's open flag is untouched. |
| `MoonListPanel.HandleMoonClick` | components/MoonListPanel.tsx:18-21 | The handler selects the moon and opens the moon modal, and changes nothing else. It is the same transition as clicking the moon in the detail scene. |
| `MoonListPanel.Step` | components/MoonListPanel.tsx:44-117 | The collapsed button opens the panel and the close button shuts it, neither touching the store. Clicking an entry runs the moon click handler and collapses the panel. |
| `MoonListPanel.CountLabel` | components/MoonListPanel.tsx:92 | The label is "Moon" exactly when the count is 1, and "Moons" otherwise. |
| `MoonListPanel.Render` | components/MoonListPanel.tsx:14-141 | A missing or empty moon list renders nothing in any panel state. Otherwise the collapsed view's badge shows the moon count, and the expanded view lists entries numbered #1..#n with each moon's id in list order, under the count label. |
| `MoonListPanel.RowsNumbered` | components/MoonListPanel.tsx:53-141 | Entry numbers start at 1 and strictly increase, and the last one equals the badge count. |
| `MoonListPanel.PickedEntryIsShown` | components/MoonListPanel.tsx:114-117 | Starting from the collapsed panel, opening it and picking the k-th entry collapses it again. The moon modal then shows that moon, provided the selected planet is the one whose list it is and the moon id is non-empty. |
| `PlanetTabs.Tabs` | components/PlanetTabs.tsx:12-17 | There are four tabs in order: "all", whose count is the catalog length, then "terrestrial", "gas-giants" and "ice-giants" with their category counts. |
| `PlanetTabs.ClickTab` | components/PlanetTabs.tsx:32 | Clicking a tab makes it the highlighted one and changes nothing else. |
| `PlanetTabs.IdsDistinct` | components/PlanetTabs.tsx:12-17 | The four tab ids are pairwise distinct. |
| `PlanetTabs.ExactlyOneActive` | components/PlanetTabs.tsx:12-28 | At most one tab is highlighted (`IsActive`: the store's active tab equals the tab id). Some tab is highlighted exactly when the active tab is one of the four ids. |
| `PlanetTabs.ClickHighlightsOnlyThatTab` | components/PlanetTabs.tsx:28-32 | After clicking a tab, it and no other tab is highlighted. |
| `PlanetTabs.AllActiveInitially` | components/PlanetTabs.tsx:28 | With the store's initial tab, "All Planets" is the one tab highlighted. |
| `PlanetTabs.EveryTabHasAFilter` | components/PlanetTabs.tsx:14-16 | "All" shows the whole catalog. Each other tab id has its own filter branch, which keeps exactly the planets of one type, so no tab falls through to the catch-all. |

## Left out

- Rendering: the WebGL scene (canvas, stars, lights, geometry, text labels), all JSX markup and styling, and framer-motion animation. These are library calls with no state logic.
- The orbit controls of the overview scene, and every part of the detail scene's orbit controls except their distance bounds of [3, 30]: rotation, panning, damping, and zooming by mouse or touch. User gestures are not events of this model.
- GLTF model loading and material tinting of the planet and moon models. These are foreign calls on an opaque scene graph.
- Per-frame positions (`cos`/`sin` of the accumulated angle) and spin, in both scenes. These are floating-point 3D numerics, so only the initial angle *fraction* and the angular speed are modelled.
- The overview scene's vector camera controller, and the vector form of the detail scene's camera `lerp`. The detail camera is modelled by its scalar distance recurrence only.
- `useEffect`/`useFrame` machinery and DOM side effects: body overflow, adding and removing the keydown listener. A key press is modelled as the transition the listener performs.
- `router.push`. It is modelled as the route string the handler pushes. What the router then does is not part of this model.
- The profile modal, the notes panel, the footer, the app pages and layout, the sitemap and the build configuration: static content or local show/hide toggles outside the interaction store.
- The contents of the planet catalog data file. The catalog is an arbitrary sequence. The three category counts shown on the tabs are parameters and are not assumed to match the filter results.
- Display-only attributes of `Planet` and `Moon` (names, colours, descriptions, diameters, ...).
- `SpaceStore.Initial`: states no default for the five inferred fields, because the store file shows none; they are parameters.
- `SpaceScene.OrbitalSpeed`: `Math.sqrt` is an uninterpreted parameter, so the contract bounds the speed but cannot relate it to the distance itself. `SpaceScene.CloserOrbitsFaster` compares square roots instead of distances.
- `SpaceScene.OrbitalSpeed`: for a negative `distanceAU` the program's speed is NaN (`Math.sqrt` of a negative number, then `Math.max(0.2, NaN)`). The model has no NaN: there the parameter `sqrt` yields some real and the speed stays in (0, 1].
- Floating point: the model computes in exact reals. The program's binary64 results differ in the last bits wherever a factor is not a binary fraction: the zoom bar's division by 95, the camera's 0.9 and 0.1, and the radius factors 0.01, 0.1, 0.15 and 0.3. The contracts about those members describe the exact values.
- `SpaceScene.DisplayRadius`: `Math.cbrt` is a parameter assumed only non-negative on non-negative arguments, so the compressed-mode radius is bounded below but not computed.
- `PlanetDetailScene.CameraStep`: models the camera's distance from the origin, not its position vector; rotation and panning by the orbit controls are not modelled.
- `PlanetDetailScene.Frame`: assumes the orbit controls apply their distance bounds once per frame, before the scene's easing callback. That order is set by the controls library, which is not part of this model.
- `PlanetDetailScene.CameraConverges`: covers only non-negative zoom levels. Every component that writes the zoom stores at least 5. For a negative target, the model's step distance `|0.9 d + 0.1 t|` need not approach the target.
- `PlanetDetailScene.MoonOrbitalSpeed`: `Math.sqrt` is a parameter, so only the bounds are stated.

## Notes on the source

- The detail page also shows the control panel, so the zoom level there can be anything in [5, 100], for example 32 after twelve "+" presses from 8. The detail scene's orbit controls keep the camera within [3, 30], so a zoom level above 30 (or below 3) is never reached. The camera settles at the bound, pulled slightly beyond it by each easing step. `PlanetDetailScene.ZoomOutOfReach` and `PlanetDetailScene.CameraConverges` state this.

- The overview scene computes each planet's initial angle as `index / planets.length`, where `planets` is the whole catalog, not the filtered list. On a category tab the shown planets therefore share only part of the circle. The fraction still lies in [0, 1), which `SpaceScene.SceneLayout` states.
- The detail scene's unmount writes the fixed zoom 15 rather than restoring the zoom it replaced. `PlanetDetailScene.MountUnmountRestores` pins down exactly when the round trip is the identity.
- The moon modal needs a selected *planet* as well as a selected moon. The moon list panel's handler sets only the moon. So from the detail page a picked moon is shown only while the store's planet selection points at that page's planet, which is the precondition of `MoonListPanel.PickedEntryIsShown`.
