/**
 * Grouping of the enriched nodes into the tiers of the tree: the `reduce`
 * that buckets nodes by their layer index and the `filter` that keeps the
 * non-empty buckets.
 */
module Grouping {
  import opened Wrappers
  import opened Legend
  import opened Enrich

  /** `{ name, nodes }`: one tier of the tree. */
  datatype Layer = Layer(name: string, nodes: seq<Node>)

  /** The nodes whose layer index is `k`, in input order. */
  function Bucket(nodes: seq<Node>, k: int): (r: seq<Node>)
    ensures |r| <= |nodes|
    ensures forall i :: 0 <= i < |r| ==> LayerIndex(r[i].parentesco) == k
  {
    if nodes == [] then []
    else
      var init, last := nodes[..|nodes| - 1], nodes[|nodes| - 1];
      assert nodes == init + [last];
      Bucket(init, k) + (if LayerIndex(last.parentesco) == k then [last] else [])
  }

  /** A bucket holds each node of its layer as often as the input does, and
      no other node. */
  lemma {:induction false} BucketCount(nodes: seq<Node>, k: int, n: Node)
    ensures multiset(Bucket(nodes, k))[n] == if LayerIndex(n.parentesco) == k then multiset(nodes)[n] else 0
  {
    if nodes != [] {
      var init, last := nodes[..|nodes| - 1], nodes[|nodes| - 1];
      assert nodes == init + [last];
      BucketCount(init, k, n);
    }
  }

  /** The bucket `acc[k]` holds once the nodes have been reduced: absent
      while no node has index `k`. */
  function Slot(nodes: seq<Node>, k: int): Option<Layer>
    requires 0 <= k < |LayerOrder|
  {
    var b := Bucket(nodes, k);
    if b == [] then None else Some(Layer(LayerOrder[k], b))
  }

  function Slots(nodes: seq<Node>): seq<Option<Layer>> {
    seq(|LayerOrder|, k requires 0 <= k < |LayerOrder| => Slot(nodes, k))
  }

  /** Reducing one more node changes only the bucket of its layer: the node
      is appended to it, creating it if it was absent. */
  lemma SlotStep(prefix: seq<Node>, node: Node)
    ensures forall k :: 0 <= k < |LayerOrder| ==>
              Slot(prefix + [node], k) ==
                if LayerIndex(node.parentesco) == k then Some(Layer(LayerOrder[k], Bucket(prefix, k) + [node]))
                else Slot(prefix, k)
  {
    var s := prefix + [node];
    assert s[..|s| - 1] == prefix && s[|s| - 1] == node;
    forall k | 0 <= k < |LayerOrder|
      ensures Slot(s, k) == if LayerIndex(node.parentesco) == k then Some(Layer(LayerOrder[k], Bucket(prefix, k) + [node]))
                            else Slot(prefix, k)
    {
      assert Bucket(s, k) == Bucket(prefix, k) + (if LayerIndex(node.parentesco) == k then [node] else []);
      if LayerIndex(node.parentesco) == k {
        assert Bucket(s, k) != [];
      } else {
        assert Bucket(s, k) == Bucket(prefix, k);
      }
    }
  }

  /** The `reduce`: a bucket is created on the first node of its layer and
      every node with an index is pushed onto its bucket; nodes with index -1
      are passed over. */
  method GroupLayers(nodes: seq<Node>) returns (slots: seq<Option<Layer>>)
    ensures |slots| == |LayerOrder|
    ensures forall k :: 0 <= k < |slots| ==> slots[k] == Slot(nodes, k)
  {
    var acc := new Option<Layer>[|LayerOrder|](_ => None);
    for i := 0 to |nodes|
      invariant forall k :: 0 <= k < acc.Length ==> acc[k] == Slot(nodes[..i], k)
    {
      var node := nodes[i];
      assert nodes[..i + 1] == nodes[..i] + [node];
      SlotStep(nodes[..i], node);
      var index := LayerIndex(node.parentesco);
      if index >= 0 {
        if acc[index].None? {
          acc[index] := Some(Layer(LayerOrder[index], []));
        }
        acc[index] := Some(Layer(acc[index].value.name, acc[index].value.nodes + [node]));
      }
    }
    assert nodes[..|nodes|] == nodes;
    slots := acc[..];
  }

  /** The test of the `filter`: a bucket that exists and holds a node. */
  predicate Kept(slot: Option<Layer>) {
    slot.Some? && |slot.value.nodes| > 0
  }

  /** `filter(l => l && l.nodes.length > 0)`: the present, non-empty buckets in order. */
  function FilterLayers(slots: seq<Option<Layer>>): (r: seq<Layer>)
    ensures |r| <= |slots|
    ensures forall i :: 0 <= i < |r| ==> |r[i].nodes| > 0
  {
    if slots == [] then []
    else if Kept(slots[0]) then [slots[0].value] + FilterLayers(slots[1..])
    else FilterLayers(slots[1..])
  }

  /** The positions (counted from `base`) of the buckets the filter keeps. */
  function KeptPositions(slots: seq<Option<Layer>>, base: nat): seq<nat> {
    if slots == [] then []
    else
      var rest := KeptPositions(slots[1..], base + 1);
      if Kept(slots[0]) then [base] + rest else rest
  }

  /** The kept positions lie within the buckets and increase. */
  lemma {:induction false} KeptPositionsIncrease(slots: seq<Option<Layer>>, base: nat)
    ensures forall i :: 0 <= i < |KeptPositions(slots, base)| ==>
              base <= KeptPositions(slots, base)[i] < base + |slots|
    ensures forall i, j :: 0 <= i < j < |KeptPositions(slots, base)| ==>
              KeptPositions(slots, base)[i] < KeptPositions(slots, base)[j]
  {
    if slots != [] {
      KeptPositionsIncrease(slots[1..], base + 1);
    }
  }

  /** The `i`-th kept layer is the bucket at the `i`-th kept position. */
  lemma {:induction false} KeptPositionsSpec(slots: seq<Option<Layer>>, base: nat)
    ensures |KeptPositions(slots, base)| == |FilterLayers(slots)|
    ensures forall i :: 0 <= i < |KeptPositions(slots, base)| ==>
              base <= KeptPositions(slots, base)[i] < base + |slots| &&
              slots[KeptPositions(slots, base)[i] - base] == Some(FilterLayers(slots)[i])
  {
    KeptPositionsIncrease(slots, base);
    if slots != [] {
      var tail := slots[1..];
      KeptPositionsSpec(tail, base + 1);
      var rest, ks, layers := KeptPositions(tail, base + 1), KeptPositions(slots, base), FilterLayers(slots);
      var shift := if Kept(slots[0]) then 1 else 0;
      assert |ks| == |rest| + shift;
      assert |layers| == |FilterLayers(tail)| + shift;
      forall i | shift <= i < |ks|
        ensures slots[ks[i] - base] == Some(layers[i])
      {
        assert ks[i] == rest[i - shift] && layers[i] == FilterLayers(tail)[i - shift];
        assert slots[ks[i] - base] == tail[rest[i - shift] - (base + 1)];
      }
    }
  }

  /** Every bucket that passes the test is kept. */
  lemma {:induction false} KeptPositionsComplete(slots: seq<Option<Layer>>, base: nat)
    ensures forall k :: 0 <= k < |slots| && Kept(slots[k]) ==> base + k in KeptPositions(slots, base)
  {
    if slots != [] {
      var tail := slots[1..];
      KeptPositionsComplete(tail, base + 1);
      var rest := KeptPositions(tail, base + 1);
      var ks := KeptPositions(slots, base);
      assert ks == if Kept(slots[0]) then [base] + rest else rest;
      forall k | 0 <= k < |slots| && Kept(slots[k])
        ensures base + k in ks
      {
        if k > 0 {
          assert tail[k - 1] == slots[k];
          assert base + 1 + (k - 1) in rest;
        }
      }
    }
  }

  /** The tiers that are drawn, top to bottom. */
  function Layers(nodes: seq<Node>): seq<Layer> {
    FilterLayers(Slots(nodes))
  }

  /** Position in `layerOrder` of each drawn tier. */
  function LayerPositions(nodes: seq<Node>): (ks: seq<nat>)
    ensures |ks| == |Layers(nodes)|
  {
    KeptPositionsSpec(Slots(nodes), 0);
    KeptPositions(Slots(nodes), 0)
  }

  /** Every drawn tier is the non-empty bucket of the layer it is named after,
      the tiers follow `layerOrder`, and every non-empty bucket is drawn. */
  lemma LayersSpec(nodes: seq<Node>)
    ensures |LayerPositions(nodes)| == |Layers(nodes)|
    ensures forall i :: 0 <= i < |Layers(nodes)| ==>
              LayerPositions(nodes)[i] < |LayerOrder| &&
              Layers(nodes)[i] == Layer(LayerOrder[LayerPositions(nodes)[i]], Bucket(nodes, LayerPositions(nodes)[i])) &&
              Bucket(nodes, LayerPositions(nodes)[i]) != []
    ensures forall i, j :: 0 <= i < j < |Layers(nodes)| ==> LayerPositions(nodes)[i] < LayerPositions(nodes)[j]
    ensures forall k :: 0 <= k < |LayerOrder| && Bucket(nodes, k) != [] ==> k in LayerPositions(nodes)
  {
    var slots, layers, ks := Slots(nodes), Layers(nodes), LayerPositions(nodes);
    KeptPositionsSpec(slots, 0);
    KeptPositionsIncrease(slots, 0);
    forall i | 0 <= i < |layers|
      ensures ks[i] < |LayerOrder| && layers[i] == Layer(LayerOrder[ks[i]], Bucket(nodes, ks[i])) &&
              Bucket(nodes, ks[i]) != []
    {
      assert slots[ks[i]] == Slot(nodes, ks[i]) == Some(layers[i]);
    }
    KeptPositionsComplete(slots, 0);
    forall k | 0 <= k < |LayerOrder| && Bucket(nodes, k) != []
      ensures k in ks
    {
      assert slots[k] == Slot(nodes, k);
    }
  }

  /** The position of a drawn tier is the layer index of its name, and so of
      every node in it. */
  lemma LayerPositionsAreIndices(nodes: seq<Node>)
    ensures forall i :: 0 <= i < |Layers(nodes)| ==>
              LayerIndex(Layers(nodes)[i].name) == LayerPositions(nodes)[i]
  {
    LayersSpec(nodes);
    forall i | 0 <= i < |Layers(nodes)|
      ensures LayerIndex(Layers(nodes)[i].name) == LayerPositions(nodes)[i]
    {
      LayerIndexOfName(LayerPositions(nodes)[i]);
    }
  }

  /** Where a node ends up: a node with a layer index lies in exactly one
      tier, the one at its index, as often as it occurs in the input; a node
      without one lies in no tier. */
  lemma NodePlacement(nodes: seq<Node>, n: Node)
    requires n in nodes
    ensures LayerIndex(n.parentesco) >= 0 ==>
              exists i :: 0 <= i < |Layers(nodes)| && LayerPositions(nodes)[i] == LayerIndex(n.parentesco) &&
                          multiset(Layers(nodes)[i].nodes)[n] == multiset(nodes)[n]
    ensures forall i :: 0 <= i < |Layers(nodes)| && n in Layers(nodes)[i].nodes ==>
              LayerPositions(nodes)[i] == LayerIndex(n.parentesco)
    ensures LayerIndex(n.parentesco) == -1 ==> forall i :: 0 <= i < |Layers(nodes)| ==> n !in Layers(nodes)[i].nodes
  {
    LayersSpec(nodes);
    var layers, ks := Layers(nodes), LayerPositions(nodes);
    var k := LayerIndex(n.parentesco);
    if k >= 0 {
      BucketCount(nodes, k, n);
      var i :| 0 <= i < |ks| && ks[i] == k;
    }
    forall i | 0 <= i < |layers| && n in layers[i].nodes
      ensures ks[i] == k
    {
      BucketCount(nodes, ks[i], n);
    }
  }
}
