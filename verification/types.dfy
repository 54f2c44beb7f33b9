/** The catalog records the components read, and the lookups they perform on
    them. Only the attributes that some transition or derivation consults are
    kept; display-only text (name, diameter, description, ...) is dropped. */
module Types {

  /** `T | null` (or an optional property) in the source. */
  datatype Option<+T> = None | Some(value: T)

  /** JavaScript truthiness of a nullable string: `null`, `undefined` and the
      empty string are all falsy, so `if (!id)` treats "" as "no selection". */
  predicate Truthy(o: Option<string>)
  {
    o.Some? && o.value != ""
  }

  /** A moon record. The `Moon` type is not declared in the shown type file;
      these fields are inferred from how the components read it. */
  datatype Moon = Moon(
    id: string,
    radius: real,
    discoveredBy: Option<string>,
    discoveredYear: Option<string>)

  /** A planet record: `id`, `type` (here `kind`), `radius` and `distanceAU`
      from the declared type, plus the optional `moonList` the components read
      (inferred from usage). */
  datatype Planet = Planet(
    id: string,
    kind: string,
    radius: real,
    distanceAU: real,
    moonList: Option<seq<Moon>>)

  /** `planet.moonList || []`: a missing moon list reads as empty. */
  function MoonsOf(p: Planet): (ms: seq<Moon>)
    ensures p.moonList.Some? ==> ms == p.moonList.value
    ensures p.moonList.None? ==> ms == []
  {
    match p.moonList
    case None => []
    case Some(list) => list
  }

  /** Index of the first element whose key is `id` (`Array.prototype.find`
      semantics), or `None` when no element carries that key. */
  function FirstIndex<T>(xs: seq<T>, key: T -> string, id: string): (r: Option<nat>)
    ensures r.Some? ==> r.value < |xs| && key(xs[r.value]) == id
    ensures r.Some? ==> forall j :: 0 <= j < r.value ==> key(xs[j]) != id
    ensures r.None? <==> forall j :: 0 <= j < |xs| ==> key(xs[j]) != id
    decreases |xs|
  {
    if |xs| == 0 then None
    else if key(xs[0]) == id then Some(0)
    else
      match FirstIndex(xs[1..], key, id)
      case None => None
      case Some(k) => Some(k + 1)
  }

  function PlanetId(p: Planet): string
  {
    p.id
  }

  function MoonId(m: Moon): string
  {
    m.id
  }

  /** `planets.find((p) => p.id === id)`: the FIRST catalog entry with that id,
      or `None` (never a failure) when the id is absent. */
  function FindPlanet(catalog: seq<Planet>, id: string): (r: Option<Planet>)
    ensures r.Some? ==> r.value in catalog && r.value.id == id
    ensures r.Some? ==> exists k :: 0 <= k < |catalog| && r.value == catalog[k] &&
                                    forall j :: 0 <= j < k ==> catalog[j].id != id
    ensures r.None? <==> forall i :: 0 <= i < |catalog| ==> catalog[i].id != id
  {
    match FirstIndex(catalog, PlanetId, id)
    case None => None
    case Some(k) => Some(catalog[k])
  }

  /** `moonList.find((m) => m.id === id)`, searched within one planet's list. */
  function FindMoon(moons: seq<Moon>, id: string): (r: Option<Moon>)
    ensures r.Some? ==> r.value in moons && r.value.id == id
    ensures r.Some? ==> exists k :: 0 <= k < |moons| && r.value == moons[k] &&
                                    forall j :: 0 <= j < k ==> moons[j].id != id
    ensures r.None? <==> forall i :: 0 <= i < |moons| ==> moons[i].id != id
  {
    match FirstIndex(moons, MoonId, id)
    case None => None
    case Some(k) => Some(moons[k])
  }
}
