/** The interaction store: one record of selection, hover, speed, zoom, tab,
    modal and scale flags, with one total setter per field. Setters do no
    validation; the handlers that call them clamp first. */
module SpaceStore {
  import opened Types

  datatype State = State(
    selectedPlanet: Option<string>,
    rotationSpeed: real,
    zoomLevel: real,
    activeTab: string,
    isModalOpen: bool,
    hoveredPlanet: Option<string>,
    useRealScale: bool,
    // The remaining five fields are read or written by the components but are
    // not declared by the store definition; they are inferred from usage.
    selectedMoon: Option<string>,
    hoveredMoon: Option<string>,
    isMoonModalOpen: bool,
    isNavigating: bool,
    previousRoute: Option<string>)

  /** The names of the store's fields. */
  datatype Field =
    | SelectedPlanet | RotationSpeed | ZoomLevel | ActiveTab | IsModalOpen
    | HoveredPlanet | UseRealScale | SelectedMoon | HoveredMoon
    | IsMoonModalOpen | IsNavigating | PreviousRoute

  /** A field's value, tagged by its type. */
  datatype Value = Ref(ref: Option<string>) | Num(num: real) | Text(text: string) | Flag(flag: bool)

  /** Reading one field of the store. */
  function Get(s: State, f: Field): Value
  {
    match f
    case SelectedPlanet => Ref(s.selectedPlanet)
    case RotationSpeed => Num(s.rotationSpeed)
    case ZoomLevel => Num(s.zoomLevel)
    case ActiveTab => Text(s.activeTab)
    case IsModalOpen => Flag(s.isModalOpen)
    case HoveredPlanet => Ref(s.hoveredPlanet)
    case UseRealScale => Flag(s.useRealScale)
    case SelectedMoon => Ref(s.selectedMoon)
    case HoveredMoon => Ref(s.hoveredMoon)
    case IsMoonModalOpen => Flag(s.isMoonModalOpen)
    case IsNavigating => Flag(s.isNavigating)
    case PreviousRoute => Ref(s.previousRoute)
  }

  /** One call of one of the store's setters, with its argument. */
  datatype Update =
    | SetSelectedPlanet(planetId: Option<string>)
    | SetRotationSpeed(speed: real)
    | SetZoomLevel(zoom: real)
    | SetActiveTab(tab: string)
    | SetIsModalOpen(open: bool)
    | SetHoveredPlanet(hovered: Option<string>)
    | SetUseRealScale(realScale: bool)
    | SetSelectedMoon(moonId: Option<string>)
    | SetHoveredMoon(hoveredMoonId: Option<string>)
    | SetIsMoonModalOpen(moonOpen: bool)
    | SetIsNavigating(navigating: bool)
    | SetPreviousRoute(route: Option<string>)

  /** The field a setter writes. */
  function FieldOf(u: Update): Field
  {
    match u
    case SetSelectedPlanet(_) => SelectedPlanet
    case SetRotationSpeed(_) => RotationSpeed
    case SetZoomLevel(_) => ZoomLevel
    case SetActiveTab(_) => ActiveTab
    case SetIsModalOpen(_) => IsModalOpen
    case SetHoveredPlanet(_) => HoveredPlanet
    case SetUseRealScale(_) => UseRealScale
    case SetSelectedMoon(_) => SelectedMoon
    case SetHoveredMoon(_) => HoveredMoon
    case SetIsMoonModalOpen(_) => IsMoonModalOpen
    case SetIsNavigating(_) => IsNavigating
    case SetPreviousRoute(_) => PreviousRoute
  }

  /** The value a setter writes. */
  function ValueOf(u: Update): Value
  {
    match u
    case SetSelectedPlanet(v) => Ref(v)
    case SetRotationSpeed(v) => Num(v)
    case SetZoomLevel(v) => Num(v)
    case SetActiveTab(v) => Text(v)
    case SetIsModalOpen(v) => Flag(v)
    case SetHoveredPlanet(v) => Ref(v)
    case SetUseRealScale(v) => Flag(v)
    case SetSelectedMoon(v) => Ref(v)
    case SetHoveredMoon(v) => Ref(v)
    case SetIsMoonModalOpen(v) => Flag(v)
    case SetIsNavigating(v) => Flag(v)
    case SetPreviousRoute(v) => Ref(v)
  }

  /** `a` and `b` hold the same value in every field outside `changed`. */
  ghost predicate AgreeExcept(a: State, b: State, changed: set<Field>)
  {
    forall f :: f !in changed ==> Get(a, f) == Get(b, f)
  }

  /** Running one setter. It is total and unvalidated: reading its field
      afterwards yields exactly the written value, whatever it is (a speed of
      -10 or a zoom of 1000 included), and every other field keeps its value. */
  function Apply(s: State, u: Update): (r: State)
    ensures Get(r, FieldOf(u)) == ValueOf(u)
    ensures forall f :: f != FieldOf(u) ==> Get(r, f) == Get(s, f)
  {
    match u
    case SetSelectedPlanet(v) => s.(selectedPlanet := v)
    case SetRotationSpeed(v) => s.(rotationSpeed := v)
    case SetZoomLevel(v) => s.(zoomLevel := v)
    case SetActiveTab(v) => s.(activeTab := v)
    case SetIsModalOpen(v) => s.(isModalOpen := v)
    case SetHoveredPlanet(v) => s.(hoveredPlanet := v)
    case SetUseRealScale(v) => s.(useRealScale := v)
    case SetSelectedMoon(v) => s.(selectedMoon := v)
    case SetHoveredMoon(v) => s.(hoveredMoon := v)
    case SetIsMoonModalOpen(v) => s.(isMoonModalOpen := v)
    case SetIsNavigating(v) => s.(isNavigating := v)
    case SetPreviousRoute(v) => s.(previousRoute := v)
  }

  /** The store as created. The five inferred fields have no default in the
      store definition, so their initial values are parameters. */
  function Initial(selectedMoon: Option<string>, hoveredMoon: Option<string>, isMoonModalOpen: bool,
                   isNavigating: bool, previousRoute: Option<string>): (r: State)
    ensures Get(r, SelectedPlanet) == Ref(None)
    ensures Get(r, RotationSpeed) == Num(1.0)
    ensures Get(r, ZoomLevel) == Num(15.0)
    ensures Get(r, ActiveTab) == Text("all")
    ensures Get(r, IsModalOpen) == Flag(false)
    ensures Get(r, HoveredPlanet) == Ref(None)
    ensures Get(r, UseRealScale) == Flag(false)
  {
    State(None, 1.0, 15.0, "all", false, None, false,
          selectedMoon, hoveredMoon, isMoonModalOpen, isNavigating, previousRoute)
  }

  /** Two store states are equal exactly when every field reads the same. */
  lemma Extensional(a: State, b: State)
    requires forall f :: Get(a, f) == Get(b, f)
    ensures a == b
  {
    assert Get(a, SelectedPlanet) == Get(b, SelectedPlanet);
    assert Get(a, RotationSpeed) == Get(b, RotationSpeed);
    assert Get(a, ZoomLevel) == Get(b, ZoomLevel);
    assert Get(a, ActiveTab) == Get(b, ActiveTab);
    assert Get(a, IsModalOpen) == Get(b, IsModalOpen);
    assert Get(a, HoveredPlanet) == Get(b, HoveredPlanet);
    assert Get(a, UseRealScale) == Get(b, UseRealScale);
    assert Get(a, SelectedMoon) == Get(b, SelectedMoon);
    assert Get(a, HoveredMoon) == Get(b, HoveredMoon);
    assert Get(a, IsMoonModalOpen) == Get(b, IsMoonModalOpen);
    assert Get(a, IsNavigating) == Get(b, IsNavigating);
    assert Get(a, PreviousRoute) == Get(b, PreviousRoute);
  }

  /** Agreement outside a set of fields is transitive and grows with the set. */
  lemma AgreeExceptTrans(a: State, b: State, c: State, x: set<Field>, y: set<Field>)
    requires AgreeExcept(a, b, x) && AgreeExcept(b, c, y)
    ensures AgreeExcept(a, c, x + y)
  {
  }

  /** Calling a setter twice with the same argument is the same as calling it once. */
  lemma SetIdempotent(s: State, u: Update)
    ensures Apply(Apply(s, u), u) == Apply(s, u)
  {
  }

  /** Setters of different fields commute: the order in which a handler calls
      them does not matter. The 144 setter pairs are split by the first setter
      into the `CommuteWith*` lemmas below, each covering twelve pairs, because
      one proof over all pairs at once is too large for the verifier. */
  lemma SettersCommute(s: State, u: Update, v: Update)
    requires FieldOf(u) != FieldOf(v)
    ensures Apply(Apply(s, u), v) == Apply(Apply(s, v), u)
  {
    match u
    case SetSelectedPlanet(x) => CommuteWithSelectedPlanet(s, x, v);
    case SetRotationSpeed(x) => CommuteWithRotationSpeed(s, x, v);
    case SetZoomLevel(x) => CommuteWithZoomLevel(s, x, v);
    case SetActiveTab(x) => CommuteWithActiveTab(s, x, v);
    case SetIsModalOpen(x) => CommuteWithIsModalOpen(s, x, v);
    case SetHoveredPlanet(x) => CommuteWithHoveredPlanet(s, x, v);
    case SetUseRealScale(x) => CommuteWithUseRealScale(s, x, v);
    case SetSelectedMoon(x) => CommuteWithSelectedMoon(s, x, v);
    case SetHoveredMoon(x) => CommuteWithHoveredMoon(s, x, v);
    case SetIsMoonModalOpen(x) => CommuteWithIsMoonModalOpen(s, x, v);
    case SetIsNavigating(x) => CommuteWithIsNavigating(s, x, v);
    case SetPreviousRoute(x) => CommuteWithPreviousRoute(s, x, v);
  }

  // One lemma per setter: it commutes with a setter of any other field.

  lemma CommuteWithSelectedPlanet(s: State, x: Option<string>, v: Update)
    requires FieldOf(v) != SelectedPlanet
    ensures Apply(Apply(s, SetSelectedPlanet(x)), v) == Apply(Apply(s, v), SetSelectedPlanet(x))
  {
  }

  lemma CommuteWithRotationSpeed(s: State, x: real, v: Update)
    requires FieldOf(v) != RotationSpeed
    ensures Apply(Apply(s, SetRotationSpeed(x)), v) == Apply(Apply(s, v), SetRotationSpeed(x))
  {
  }

  lemma CommuteWithZoomLevel(s: State, x: real, v: Update)
    requires FieldOf(v) != ZoomLevel
    ensures Apply(Apply(s, SetZoomLevel(x)), v) == Apply(Apply(s, v), SetZoomLevel(x))
  {
  }

  lemma CommuteWithActiveTab(s: State, x: string, v: Update)
    requires FieldOf(v) != ActiveTab
    ensures Apply(Apply(s, SetActiveTab(x)), v) == Apply(Apply(s, v), SetActiveTab(x))
  {
  }

  lemma CommuteWithIsModalOpen(s: State, x: bool, v: Update)
    requires FieldOf(v) != IsModalOpen
    ensures Apply(Apply(s, SetIsModalOpen(x)), v) == Apply(Apply(s, v), SetIsModalOpen(x))
  {
  }

  lemma CommuteWithHoveredPlanet(s: State, x: Option<string>, v: Update)
    requires FieldOf(v) != HoveredPlanet
    ensures Apply(Apply(s, SetHoveredPlanet(x)), v) == Apply(Apply(s, v), SetHoveredPlanet(x))
  {
  }

  lemma CommuteWithUseRealScale(s: State, x: bool, v: Update)
    requires FieldOf(v) != UseRealScale
    ensures Apply(Apply(s, SetUseRealScale(x)), v) == Apply(Apply(s, v), SetUseRealScale(x))
  {
  }

  lemma CommuteWithSelectedMoon(s: State, x: Option<string>, v: Update)
    requires FieldOf(v) != SelectedMoon
    ensures Apply(Apply(s, SetSelectedMoon(x)), v) == Apply(Apply(s, v), SetSelectedMoon(x))
  {
  }

  lemma CommuteWithHoveredMoon(s: State, x: Option<string>, v: Update)
    requires FieldOf(v) != HoveredMoon
    ensures Apply(Apply(s, SetHoveredMoon(x)), v) == Apply(Apply(s, v), SetHoveredMoon(x))
  {
  }

  lemma CommuteWithIsMoonModalOpen(s: State, x: bool, v: Update)
    requires FieldOf(v) != IsMoonModalOpen
    ensures Apply(Apply(s, SetIsMoonModalOpen(x)), v) == Apply(Apply(s, v), SetIsMoonModalOpen(x))
  {
  }

  lemma CommuteWithIsNavigating(s: State, x: bool, v: Update)
    requires FieldOf(v) != IsNavigating
    ensures Apply(Apply(s, SetIsNavigating(x)), v) == Apply(Apply(s, v), SetIsNavigating(x))
  {
  }

  lemma CommuteWithPreviousRoute(s: State, x: Option<string>, v: Update)
    requires FieldOf(v) != PreviousRoute
    ensures Apply(Apply(s, SetPreviousRoute(x)), v) == Apply(Apply(s, v), SetPreviousRoute(x))
  {
  }

  /** A later write to a field overrides an earlier one (last write wins). */
  lemma LastWriteWins(s: State, u: Update, v: Update)
    requires FieldOf(u) == FieldOf(v)
    ensures Apply(Apply(s, u), v) == Apply(s, v)
  {
  }
}
