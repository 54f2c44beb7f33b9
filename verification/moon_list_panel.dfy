/** The floating moon list of the detail page: its local open/closed flag,
    the moon click handler, the collapse on picking an entry, the count badge,
    the numbered entries and the singular/plural label. */
module MoonListPanel {
  import opened Types
  import opened SpaceStore
  import MoonModal
  import PlanetDetailScene

  /** The component's own `isOpen` state, outside the store. */
  datatype Panel = Panel(isOpen: bool)

  /** The panel starts collapsed. */
  const InitialPanel := Panel(false)

  /** `handleMoonClick(id)`: select the moon and open the moon modal, the
      same transition as clicking the moon or its ring in the detail scene. */
  function HandleMoonClick(s: State, id: string): (r: State)
    ensures r.selectedMoon == Some(id) && r.isMoonModalOpen
    ensures AgreeExcept(r, s, {SelectedMoon, IsMoonModalOpen})
    ensures r == PlanetDetailScene.ClickMoon(s, id)
  {
    PlanetDetailScene.ClickMoon(s, id)
  }

  /** The three things a user can press: the collapsed button, the panel's
      close button, and a moon entry. */
  datatype Press = OpenButton | CloseButton | Entry(moonId: string)

  /** The effect of one press on the store and on the panel. Only an entry
      touches the store; it also collapses the panel. */
  function Step(s: State, panel: Panel, press: Press): (r: (State, Panel))
    ensures press == OpenButton ==> r == (s, Panel(true))
    ensures press == CloseButton ==> r == (s, Panel(false))
    ensures press.Entry? ==> r.0 == HandleMoonClick(s, press.moonId) && !r.1.isOpen
  {
    match press
    case OpenButton => (s, Panel(true))
    case CloseButton => (s, Panel(false))
    case Entry(id) => (HandleMoonClick(s, id), Panel(false))
  }

  /** "Moon" for exactly one moon, "Moons" otherwise (zero included). */
  function CountLabel(n: nat): (w: string)
    ensures w == "Moon" <==> n == 1
    ensures w == "Moon" || w == "Moons"
  {
    if n == 1 then "Moon" else "Moons"
  }

  /** One numbered entry of the expanded list. */
  datatype Row = Row(number: nat, moonId: string)

  /** What the panel renders: nothing, the collapsed button with its count
      badge, or the expanded list with its heading and numbered entries. */
  datatype View =
    | Hidden
    | Collapsed(badge: nat)
    | Expanded(count: nat, heading: string, rows: seq<Row>)

  /** The render: a planet with a missing or empty moon list shows nothing,
      whatever the panel's state; otherwise the badge, or the entries #1..#n
      in list order, each carrying its moon's id. */
  function Render(p: Planet, panel: Panel): (v: View)
    ensures v.Hidden? <==> |MoonsOf(p)| == 0
    ensures v.Collapsed? <==> |MoonsOf(p)| > 0 && !panel.isOpen
    ensures v.Collapsed? ==> v.badge == |MoonsOf(p)|
    ensures v.Expanded? ==>
      && v.count == |v.rows| == |MoonsOf(p)|
      && v.heading == CountLabel(|MoonsOf(p)|)
      && forall i :: 0 <= i < |v.rows| ==>
           v.rows[i].number == i + 1 && v.rows[i].moonId == MoonsOf(p)[i].id
  {
    var moons := MoonsOf(p);
    if |moons| == 0 then Hidden
    else if !panel.isOpen then Collapsed(|moons|)
    else Expanded(|moons|, CountLabel(|moons|),
                  seq(|moons|, i requires 0 <= i < |moons| => Row(i + 1, moons[i].id)))
  }

  /** The entry numbers run 1, 2, ..., n without gaps or repeats, and the
      last one equals the count the collapsed badge shows. */
  lemma RowsNumbered(p: Planet)
    requires |MoonsOf(p)| > 0
    ensures var rows := Render(p, Panel(true)).rows;
      && rows[0].number == 1
      && rows[|rows| - 1].number == Render(p, Panel(false)).badge
      && forall i, j :: 0 <= i < j < |rows| ==> rows[i].number < rows[j].number
  {
  }

  /** Opening the panel and picking the k-th entry leaves the panel collapsed
      and the moon modal showing that moon, provided the selected planet is
      the one the list belongs to and the moon's id is not empty. */
  lemma PickedEntryIsShown(s: State, catalog: seq<Planet>, p: Planet, k: nat)
    requires Truthy(s.selectedPlanet)
    requires FindPlanet(catalog, s.selectedPlanet.value) == Some(p)
    requires k < |MoonsOf(p)| && MoonsOf(p)[k].id != ""
    ensures var expanded := Step(s, InitialPanel, OpenButton);
      var picked := Step(expanded.0, expanded.1, Entry(MoonsOf(p)[k].id));
      && !picked.1.isOpen
      && MoonModal.Content(picked.0, catalog).Some?
      && MoonModal.Content(picked.0, catalog).value.moon.id == MoonsOf(p)[k].id
  {
    var picked := HandleMoonClick(s, MoonsOf(p)[k].id);
    assert picked.selectedPlanet == s.selectedPlanet;
    MoonModal.ContentExactly(picked, catalog);
  }
}
