/**
 * Enrichment of the principal and the relatives (the `map` over
 * `[principal, ...familiares]`): each person gets a colour from the legend and
 * an identifier.
 */
module Enrich {
  import opened Text
  import opened Wrappers
  import opened Legend

  /** A person as handed to the tree: every field may be absent. */
  datatype Person = Person(
    id: Option<string>,
    nombre: Option<string>,
    parentesco: Option<string>,
    genero: Option<string>,
    parentId: Option<string>)

  /** A person after enrichment: `parentesco` was present, an `id` and a `color` are set. */
  datatype Node = Node(
    id: string,
    nombre: Option<string>,
    parentesco: string,
    genero: Option<string>,
    parentId: Option<string>,
    color: Color)

  /** The exception the map raises: reading `parentesco.toLowerCase()` of a
      person (by position in `[principal, ...familiares]`) that has none. */
  datatype Error = MissingParentesco(position: nat)

  datatype Result<T> = Ok(value: T) | Err(error: Error)

  /** `n.id || uuidv4()`: an absent or empty id is replaced by a fresh one. */
  function KeptId(id: Option<string>, freshId: string): (r: string)
    ensures id.Some? && id.value != "" ==> r == id.value
    ensures id.None? || id.value == "" ==> r == freshId
  {
    match id
    case Some(s) => if s != "" then s else freshId
    case None => freshId
  }

  /** `{...n, color, id}` for one person whose label is present; `colorOf`
      is the legend lookup. */
  function EnrichOne(p: Person, freshId: string, colorOf: string -> Color): (n: Node)
    requires p.parentesco.Some?
    ensures Some(n.parentesco) == p.parentesco && n.color == colorOf(n.parentesco)
    ensures n.nombre == p.nombre && n.genero == p.genero && n.parentId == p.parentId
    ensures p.id.Some? && p.id.value != "" ==> n.id == p.id.value
    ensures p.id.None? || p.id.value == "" ==> n.id == freshId
  {
    Node(KeptId(p.id, freshId), p.nombre, p.parentesco.value, p.genero, p.parentId,
         colorOf(p.parentesco.value))
  }

  /** Every person carries a relationship label. */
  predicate Labelled(people: seq<Person>) {
    forall i :: 0 <= i < |people| ==> people[i].parentesco.Some?
  }

  /** The map from position `from` on: it stops at the first person without a
      label. `uuid(i)` is the identifier `uuidv4()` yields for position `i`. */
  function EnrichFrom(people: seq<Person>, from: nat, uuid: nat -> string, colorOf: string -> Color)
    : (r: Result<seq<Node>>)
    ensures r.Err? <==> !Labelled(people)
    ensures r.Err? ==> from <= r.error.position < from + |people| &&
                       people[r.error.position - from].parentesco.None? &&
                       forall i :: 0 <= i < r.error.position - from ==> people[i].parentesco.Some?
    ensures r.Ok? ==> |r.value| == |people|
    ensures r.Ok? ==> forall i :: 0 <= i < |people| ==>
                        people[i].parentesco.Some? && r.value[i] == EnrichOne(people[i], uuid(from + i), colorOf)
    decreases |people|
  {
    if people == [] then Ok([])
    else if people[0].parentesco.None? then Err(MissingParentesco(from))
    else
      var rest := EnrichFrom(people[1..], from + 1, uuid, colorOf);
      match rest
      case Err(e) =>
        assert forall i :: 0 <= i < |people| - 1 ==> people[1..][i] == people[i + 1];
        Err(e)
      case Ok(nodes) =>
        var r := [EnrichOne(people[0], uuid(from), colorOf)] + nodes;
        assert forall i :: 1 <= i < |people| ==> people[i] == people[1..][i - 1] && r[i] == nodes[i - 1];
        Ok(r)
  }

  /** `[principal, ...familiares].map(...)` with the legend colour lookup:
      the principal is node 0 and relative `i` is node `i + 1`. */
  function EnrichAll(principal: Person, familiares: seq<Person>, uuid: nat -> string): (r: Result<seq<Node>>)
    ensures r.Err? <==> principal.parentesco.None? ||
                        exists i :: 0 <= i < |familiares| && familiares[i].parentesco.None?
    ensures r.Ok? ==> |r.value| == |familiares| + 1 &&
                      r.value[0] == EnrichOne(principal, uuid(0), LegendColor) &&
                      forall i :: 0 <= i < |familiares| ==>
                        familiares[i].parentesco.Some? &&
                        r.value[i + 1] == EnrichOne(familiares[i], uuid(i + 1), LegendColor)
  {
    var people := [principal] + familiares;
    assert forall i :: 0 <= i < |familiares| ==> people[i + 1] == familiares[i];
    EnrichFrom(people, 0, uuid, LegendColor)
  }
}
