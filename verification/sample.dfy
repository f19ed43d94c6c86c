/**
 * The demonstration data shipped with the tree generator: a principal and ten
 * relatives covering every tier, and what the layout makes of them.
 */
module Sample {
  import opened Wrappers
  import opened Legend
  import opened Enrich
  import opened Grouping
  import opened Geometry

  function Relative(id: string, nombre: string, parentesco: string, genero: string, parentId: Option<string>): Person {
    Person(Some(id), Some(nombre), Some(parentesco), Some(genero), parentId)
  }

  /** `mockPrincipal`. */
  const MockPrincipal: Person := Relative("p1", "Juan Pérez", "Principal", "M", None)

  /** `mockFamiliares`. */
  const MockFamiliares: seq<Person> := [
    Relative("f1", "María García", "Cónyuge/Pareja", "F", Some("p1")),
    Relative("f2", "Carlos Pérez", "Hijo/Hija", "M", Some("p1")),
    Relative("f3", "Ana Pérez", "Hijo/Hija", "F", Some("p1")),
    Relative("f4", "Pedro Pérez", "Padre/Madre", "M", None),
    Relative("f5", "Elena López", "Padre/Madre", "F", None),
    Relative("f6", "Luis Pérez", "Hermano/Hermana", "M", Some("p1")),
    Relative("f7", "Javier Pérez", "Abuelo/Abuela", "M", None),
    Relative("f8", "Rosa Pérez", "Abuelo/Abuela", "F", None),
    Relative("f9", "Lucía Pérez", "Tío/Tía", "F", None),
    Relative("f10", "Roberto García", "Primo/Prima", "M", None)
  ]

  /** When every bucket passes the test, the filter keeps them all, in order. */
  lemma {:induction false} FilterAllKept(slots: seq<Option<Layer>>)
    requires forall k :: 0 <= k < |slots| ==> Kept(slots[k])
    ensures |FilterLayers(slots)| == |slots|
    ensures forall k :: 0 <= k < |slots| ==> Some(FilterLayers(slots)[k]) == slots[k]
  {
    if slots != [] {
      var tail := slots[1..];
      assert forall k :: 0 <= k < |tail| ==> tail[k] == slots[k + 1];
      FilterAllKept(tail);
      assert FilterLayers(slots) == [slots[0].value] + FilterLayers(tail);
    }
  }

  /** A bucket holding a node of its layer is not empty. */
  lemma BucketHolds(nodes: seq<Node>, k: int, w: nat)
    requires w < |nodes| && LayerIndex(nodes[w].parentesco) == k
    ensures Bucket(nodes, k) != []
  {
    BucketCount(nodes, k, nodes[w]);
    assert nodes[w] in multiset(nodes);
  }

  /** The tier of a node's label is drawn under its own name. */
  lemma TierKept(nodes: seq<Node>, k: int, w: nat)
    requires 0 <= k < |LayerOrder| && w < |nodes| && nodes[w].parentesco == LayerOrder[k]
    ensures Kept(Slots(nodes)[k]) && Slots(nodes)[k].value.name == LayerOrder[k]
  {
    LayerIndexOfName(k);
    BucketHolds(nodes, k, w);
  }

  /** When every label is present, enrichment succeeds and node `i` carries
      the label of person `i` of `[principal, ...familiares]`. */
  lemma EnrichedLabels(principal: Person, familiares: seq<Person>, uuid: nat -> string)
    requires principal.parentesco.Some? && forall i :: 0 <= i < |familiares| ==> familiares[i].parentesco.Some?
    ensures EnrichAll(principal, familiares, uuid).Ok?
    ensures var nodes := EnrichAll(principal, familiares, uuid).value;
            |nodes| == |familiares| + 1 &&
            forall i :: 0 <= i < |nodes| ==> Some(nodes[i].parentesco) == ([principal] + familiares)[i].parentesco
  {
    var people := [principal] + familiares;
    assert forall i :: 0 <= i < |familiares| ==> people[i + 1] == familiares[i];
  }

  /** Nodes with a member in every tier fill all eight tiers, in
      `layerOrder`; `holders[k]` is the position of a member of tier `k`. */
  lemma TiersFilled(nodes: seq<Node>, holders: seq<nat>)
    requires |holders| == |LayerOrder|
    requires forall k :: 0 <= k < |LayerOrder| ==> holders[k] < |nodes| && nodes[holders[k]].parentesco == LayerOrder[k]
    ensures |Layers(nodes)| == |LayerOrder|
    ensures forall k :: 0 <= k < |LayerOrder| ==> Layers(nodes)[k].name == LayerOrder[k]
  {
    var slots := Slots(nodes);
    forall k | 0 <= k < |LayerOrder|
      ensures Kept(slots[k]) && slots[k].value.name == LayerOrder[k]
    {
      TierKept(nodes, k, holders[k]);
    }
    FilterAllKept(slots);
  }

  /** A company in which every label is present and every tier has a member
      enriches without error and fills all eight tiers, in `layerOrder`;
      `holders[k]` is the position in `[principal, ...familiares]` of a member
      of tier `k`. */
  lemma EveryTierFilled(principal: Person, familiares: seq<Person>, uuid: nat -> string, holders: seq<nat>)
    requires principal.parentesco.Some? && forall i :: 0 <= i < |familiares| ==> familiares[i].parentesco.Some?
    requires |holders| == |LayerOrder|
    requires forall k :: 0 <= k < |LayerOrder| ==>
               holders[k] <= |familiares| &&
               ([principal] + familiares)[holders[k]].parentesco == Some(LayerOrder[k])
    ensures EnrichAll(principal, familiares, uuid).Ok?
    ensures var layers := Layers(EnrichAll(principal, familiares, uuid).value);
            |layers| == |LayerOrder| && forall k :: 0 <= k < |LayerOrder| ==> layers[k].name == LayerOrder[k]
  {
    EnrichedLabels(principal, familiares, uuid);
    TiersFilled(EnrichAll(principal, familiares, uuid).value, holders);
  }

  /** The sample fills all eight tiers, so its final image is 1612 pixels
      tall while the canvas it is drawn on is only 1480, and the footer falls
      outside that canvas. */
  lemma SampleFillsEveryTier(uuid: nat -> string)
    ensures EnrichAll(MockPrincipal, MockFamiliares, uuid).Ok?
    ensures var layers := Layers(EnrichAll(MockPrincipal, MockFamiliares, uuid).value);
            |layers| == 8 && forall k :: 0 <= k < 8 ==> layers[k].name == LayerOrder[k]
    ensures TentativeHeight(8) == 1480 < FinalHeight(8) == 1612
    ensures FooterY(8) >= TentativeHeight(8)
  {
    // One member of each tier, in `layerOrder`, by position in the company.
    EveryTierFilled(MockPrincipal, MockFamiliares, uuid, [7, 4, 0, 1, 6, 2, 9, 10]);
    TentativeTooShort();
    FooterLostIff(8);
  }
}
