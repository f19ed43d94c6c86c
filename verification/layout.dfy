/**
 * Drawing of the tiers, top to bottom: a title per tier, its boxes in one
 * centred row, the box centres recorded under each node's id, and from the
 * second tier on a connector above every box.
 */
module Layout {
  import opened Text
  import opened Legend
  import opened Enrich
  import opened Grouping
  import opened Geometry
  import opened Drawing

  /** `nodeCenters` once the first `|nodes|` boxes of a row of `k` at height
      `y` are placed. A later box with the same id overwrites an earlier one. */
  function RowCenters(centers: map<string, Center>, nodes: seq<Node>, k: int, y: int): (r: map<string, Center>)
    ensures forall key :: key in centers ==> key in r
    ensures forall j :: 0 <= j < |nodes| ==> nodes[j].id in r
    ensures forall key :: key in centers && (forall j :: 0 <= j < |nodes| ==> nodes[j].id != key) ==>
              r[key] == centers[key]
    ensures forall j :: 0 <= j < |nodes| ==> r[nodes[j].id].topY == y
  {
    if nodes == [] then centers
    else
      var init, last := nodes[..|nodes| - 1], nodes[|nodes| - 1];
      var before := RowCenters(centers, init, k, y);
      assert forall j :: 0 <= j < |init| ==> init[j] == nodes[j];
      before[last.id := CenterOf(NodeX(k, |init|), y, last.color)]
  }

  /** No box after box `j` of the row carries its id. */
  predicate LastOfId(nodes: seq<Node>, j: int)
    requires 0 <= j < |nodes|
  {
    forall j2 :: j < j2 < |nodes| ==> nodes[j2].id != nodes[j].id
  }

  /** The centre recorded under an id is that of the last box in the row
      carrying it. */
  lemma {:induction false} RowCentersLastWins(centers: map<string, Center>, nodes: seq<Node>, k: int, y: int)
    ensures forall j :: 0 <= j < |nodes| && LastOfId(nodes, j) ==>
              RowCenters(centers, nodes, k, y)[nodes[j].id] == CenterOf(NodeX(k, j), y, nodes[j].color)
  {
    if nodes != [] {
      var init, last := nodes[..|nodes| - 1], nodes[|nodes| - 1];
      RowCentersLastWins(centers, init, k, y);
      var before, r := RowCenters(centers, init, k, y), RowCenters(centers, nodes, k, y);
      assert r == before[last.id := CenterOf(NodeX(k, |init|), y, last.color)];
      forall j | 0 <= j < |nodes| && LastOfId(nodes, j)
        ensures r[nodes[j].id] == CenterOf(NodeX(k, j), y, nodes[j].color)
      {
        if j < |init| {
          assert nodes[j] == init[j];
          forall j2 | j < j2 < |init| ensures init[j2].id != init[j].id {
            assert init[j2] == nodes[j2];
          }
          assert LastOfId(init, j);
          assert nodes[|nodes| - 1].id != nodes[j].id;
        }
      }
    }
  }

  /** The boxes of the first `|nodes|` nodes of a row of `k` at height `y`,
      each in its node's colour. */
  function RowCommands(nodes: seq<Node>, k: int, y: int): seq<Command> {
    if nodes == [] then []
    else
      var init, last := nodes[..|nodes| - 1], nodes[|nodes| - 1];
      RowCommands(init, k, y) + NodeCommands(last, NodeX(k, |init|), y, last.color)
  }

  /** The title of tier `i`: its name and node count, above its row. */
  function LayerLabel(layer: Layer, i: int): Command {
    FillText(layer.name + " (" + NatToString(|layer.nodes|) + ")", MARGIN, LayerTop(i) - 10, AlignLeft, COLOR_SECONDARY_TEXT)
  }

  /** Everything one iteration of the tier loop draws for tier `i`, given the
      centres recorded before it. The first tier has no connectors. */
  function LayerCommands(layer: Layer, i: nat, centers: map<string, Center>): seq<Command> {
    var k, y := |layer.nodes|, LayerTop(i);
    var row := [LayerLabel(layer, i)] + RowCommands(layer.nodes, k, y);
    if i > 0 then row + ConnectorCommands(layer.nodes, RowCenters(centers, layer.nodes, k, y))
    else row
  }

  /** `nodeCenters` after the given tiers are drawn. */
  function LayoutCenters(layers: seq<Layer>): map<string, Center> {
    if layers == [] then map[]
    else
      var init, last := layers[..|layers| - 1], layers[|layers| - 1];
      RowCenters(LayoutCenters(init), last.nodes, |last.nodes|, LayerTop(|init|))
  }

  /** All the tier loop draws. */
  function LayoutCommands(layers: seq<Layer>): seq<Command> {
    if layers == [] then []
    else
      var init, last := layers[..|layers| - 1], layers[|layers| - 1];
      LayoutCommands(init) + LayerCommands(last, |init|, LayoutCenters(init))
  }

  /** Every box of a row, with its texts, lies in the row's band. */
  lemma {:induction false} RowInBand(nodes: seq<Node>, k: int, y: int)
    ensures forall i :: 0 <= i < |RowCommands(nodes, k, y)| ==> InBand(RowCommands(nodes, k, y)[i], y, y + NODE_HEIGHT)
  {
    if nodes != [] {
      var init, last := nodes[..|nodes| - 1], nodes[|nodes| - 1];
      RowInBand(init, k, y);
      var a, b := RowCommands(init, k, y), NodeCommands(last, NodeX(k, |init|), y, last.color);
      var r := RowCommands(nodes, k, y);
      assert r == a + b;
      forall i | 0 <= i < |r| ensures InBand(r[i], y, y + NODE_HEIGHT) {
        if i < |a| { assert r[i] == a[i]; } else { assert r[i] == b[i - |a|]; }
      }
    }
  }

  /** The connectors of a row at height `y` rise from `y` to half a gap above it. */
  lemma RowConnectorsInBand(nodes: seq<Node>, k: int, y: int, centers: map<string, Center>)
    ensures forall j :: 0 <= j < |ConnectorCommands(nodes, RowCenters(centers, nodes, k, y))| ==>
              InBand(ConnectorCommands(nodes, RowCenters(centers, nodes, k, y))[j], y - VERTICAL_SPACING / 2, y)
  {
    var placed := RowCenters(centers, nodes, k, y);
    ConnectorsSpec(nodes, placed);
    assert forall j :: 0 <= j < |nodes| ==> nodes[j].id in placed;
  }

  /** Tier `i` lies between its title (or, from the second tier on, the top
      of its connectors) and the bottom of its boxes. */
  lemma LayerInBand(layer: Layer, i: nat, centers: map<string, Center>)
    ensures forall j :: 0 <= j < |LayerCommands(layer, i, centers)| ==>
              InBand(LayerCommands(layer, i, centers)[j],
                     LayerTop(i) - (if i == 0 then 10 else VERTICAL_SPACING / 2), LayerTop(i) + NODE_HEIGHT)
  {
    var k, y := |layer.nodes|, LayerTop(i);
    var lo, hi := y - (if i == 0 then 10 else VERTICAL_SPACING / 2), y + NODE_HEIGHT;
    var rowBoxes := RowCommands(layer.nodes, k, y);
    RowInBand(layer.nodes, k, y);
    BandWiden(rowBoxes, y, y + NODE_HEIGHT, lo, hi);
    assert InBand([LayerLabel(layer, i)][0], lo, hi);
    BandConcat([LayerLabel(layer, i)], rowBoxes, lo, hi);
    if i > 0 {
      var links := ConnectorCommands(layer.nodes, RowCenters(centers, layer.nodes, k, y));
      RowConnectorsInBand(layer.nodes, k, y, centers);
      BandWiden(links, y - VERTICAL_SPACING / 2, y, lo, hi);
      BandConcat([LayerLabel(layer, i)] + rowBoxes, links, lo, hi);
    }
  }

  /** Every tier the loop draws lies below the header line and above the
      bottom of the last row of boxes. */
  lemma {:induction false} LayoutInBand(layers: seq<Layer>)
    ensures forall j :: 0 <= j < |LayoutCommands(layers)| ==>
              InBand(LayoutCommands(layers)[j], MARGIN + HEADER_HEIGHT, LayersEndY(|layers|) - VERTICAL_SPACING)
  {
    if layers != [] {
      var init, last := layers[..|layers| - 1], layers[|layers| - 1];
      LayoutInBand(init);
      LayerInBand(last, |init|, LayoutCenters(init));
      TierBounds(|init|);
      var a, b := LayoutCommands(init), LayerCommands(last, |init|, LayoutCenters(init));
      var r := LayoutCommands(layers);
      assert r == a + b;
      forall j | 0 <= j < |r| ensures InBand(r[j], MARGIN + HEADER_HEIGHT, LayersEndY(|layers|) - VERTICAL_SPACING) {
        if j < |a| { assert r[j] == a[j]; } else { assert r[j] == b[j - |a|]; }
      }
    }
  }

  /** Placing box `j` of a row extends the commands and the centres by that box. */
  lemma RowStep(centers: map<string, Center>, nodes: seq<Node>, j: nat, y: int)
    requires j < |nodes|
    ensures RowCommands(nodes[..j + 1], |nodes|, y) ==
            RowCommands(nodes[..j], |nodes|, y) + NodeCommands(nodes[j], NodeX(|nodes|, j), y, nodes[j].color)
    ensures RowCenters(centers, nodes[..j + 1], |nodes|, y) ==
            RowCenters(centers, nodes[..j], |nodes|, y)[nodes[j].id := CenterOf(NodeX(|nodes|, j), y, nodes[j].color)]
  {
    assert nodes[..j + 1][..j] == nodes[..j];
  }

  /** The inner `forEach`: draw each box of a row, left to right from the
      centring offset, and record its centre. */
  method PlaceRow(ctx: Canvas, nodes: seq<Node>, layerY: int, centers: map<string, Center>)
    returns (placed: map<string, Center>)
    modifies ctx
    ensures ctx.commands == old(ctx.commands) + RowCommands(nodes, |nodes|, layerY)
    ensures placed == RowCenters(centers, nodes, |nodes|, layerY)
  {
    ghost var start := ctx.commands;
    var currentX := StartX(|nodes|);
    placed := centers;
    for nodeIndex := 0 to |nodes|
      invariant currentX == NodeX(|nodes|, nodeIndex)
      invariant ctx.commands == start + RowCommands(nodes[..nodeIndex], |nodes|, layerY)
      invariant placed == RowCenters(centers, nodes[..nodeIndex], |nodes|, layerY)
    {
      var node := nodes[nodeIndex];
      RowStep(centers, nodes, nodeIndex, layerY);
      NodeXStep(|nodes|, nodeIndex);
      AppendAssoc(start, RowCommands(nodes[..nodeIndex], |nodes|, layerY), NodeCommands(node, currentX, layerY, node.color));
      DrawTreeNode(ctx, node, currentX, layerY, node.color);
      assert CenterOf(NodeX(|nodes|, nodeIndex), layerY, node.color) ==
             Center(currentX + NODE_WIDTH / 2, layerY + NODE_HEIGHT / 2, layerY, layerY + NODE_HEIGHT, node.color);
      placed := placed[node.id := Center(currentX + NODE_WIDTH / 2, layerY + NODE_HEIGHT / 2, layerY, layerY + NODE_HEIGHT, node.color)];
      currentX := currentX + NODE_WIDTH + HORIZONTAL_SPACING;
    }
    assert nodes[..|nodes|] == nodes;
  }

  /** Commands drawn in two steps read as one run. */
  lemma AppendAssoc<T>(s: seq<T>, a: seq<T>, b: seq<T>)
    ensures (s + a) + b == s + (a + b)
  {
  }

  /** Drawing tier `i` extends the commands by that tier and records the
      centres of its boxes. */
  lemma LayoutStep(layers: seq<Layer>, i: nat)
    requires i < |layers|
    ensures LayoutCommands(layers[..i + 1]) ==
            LayoutCommands(layers[..i]) + LayerCommands(layers[i], i, LayoutCenters(layers[..i]))
    ensures LayoutCenters(layers[..i + 1]) ==
            RowCenters(LayoutCenters(layers[..i]), layers[i].nodes, |layers[i].nodes|, LayerTop(i))
  {
    assert layers[..i + 1][..i] == layers[..i];
  }

  /** The body of the tier loop for tier `layerIndex`: its title, its row,
      and its connectors unless it is the first; `currentY` moves one tier on. */
  method DrawLayer(ctx: Canvas, layer: Layer, layerIndex: nat, currentY: int, centers: map<string, Center>)
    returns (placed: map<string, Center>, nextY: int)
    requires currentY == LayersEndY(layerIndex)
    modifies ctx
    ensures ctx.commands == old(ctx.commands) + LayerCommands(layer, layerIndex, centers)
    ensures placed == RowCenters(centers, layer.nodes, |layer.nodes|, LayerTop(layerIndex))
    ensures nextY == LayersEndY(layerIndex + 1)
  {
    TierBounds(layerIndex);
    ghost var start := ctx.commands;
    var numNodes := |layer.nodes|;
    ctx.Draw(FillText(layer.name + " (" + NatToString(numNodes) + ")", MARGIN, currentY + 15, AlignLeft, COLOR_SECONDARY_TEXT));
    var layerY := currentY + LAYER_LABEL_HEIGHT;
    ghost var row := [LayerLabel(layer, layerIndex)] + RowCommands(layer.nodes, numNodes, layerY);
    AppendAssoc(start, [LayerLabel(layer, layerIndex)], RowCommands(layer.nodes, numNodes, layerY));
    placed := PlaceRow(ctx, layer.nodes, layerY, centers);
    assert layerY == LayerTop(layerIndex);
    if layerIndex > 0 {
      AppendAssoc(start, row, ConnectorCommands(layer.nodes, placed));
      DrawConnections(ctx, layer.nodes, placed);
      assert LayerCommands(layer, layerIndex, centers) == row + ConnectorCommands(layer.nodes, placed);
    } else {
      assert LayerCommands(layer, layerIndex, centers) == row;
    }
    nextY := layerY + NODE_HEIGHT + VERTICAL_SPACING;
  }

  /** The outer `forEach` over the tiers; `currentY` ends one gap below the
      last row. */
  method DrawLayers(ctx: Canvas, layers: seq<Layer>) returns (centers: map<string, Center>, currentY: int)
    modifies ctx
    ensures ctx.commands == old(ctx.commands) + LayoutCommands(layers)
    ensures centers == LayoutCenters(layers)
    ensures currentY == LayersEndY(|layers|)
  {
    centers := map[];
    currentY := MARGIN + HEADER_HEIGHT;
    ghost var start := ctx.commands;
    for layerIndex := 0 to |layers|
      invariant ctx.commands == start + LayoutCommands(layers[..layerIndex])
      invariant centers == LayoutCenters(layers[..layerIndex])
      invariant currentY == LayersEndY(layerIndex)
    {
      LayoutStep(layers, layerIndex);
      AppendAssoc(start, LayoutCommands(layers[..layerIndex]), LayerCommands(layers[layerIndex], layerIndex, centers));
      centers, currentY := DrawLayer(ctx, layers[layerIndex], layerIndex, currentY, centers);
      assert ctx.commands == start + LayoutCommands(layers[..layerIndex + 1]);
    }
    assert layers[..|layers|] == layers;
  }

  /** When the ids of a row are distinct, tier `i > 0` gets exactly one
      connector per box, rising from the top middle of that box; it stops
      short of the boxes of the tier above, so no line reaches a parent. */
  lemma ConnectorsFromOwnBoxes(nodes: seq<Node>, i: nat, centers: map<string, Center>)
    requires i > 0
    requires forall j1, j2 :: 0 <= j1 < j2 < |nodes| ==> nodes[j1].id != nodes[j2].id
    ensures var k, y := |nodes|, LayerTop(i);
            var links := ConnectorCommands(nodes, RowCenters(centers, nodes, k, y));
            |links| == k &&
            forall j :: 0 <= j < k ==>
              links[j] == Segment(NodeX(k, j) + NODE_WIDTH / 2, y, NodeX(k, j) + NODE_WIDTH / 2, y - VERTICAL_SPACING / 2,
                                  ConnectorColor(nodes[j].color), 2) &&
              links[j].y2 > LayerTop(i - 1) + NODE_HEIGHT
  {
    var k, y := |nodes|, LayerTop(i);
    var placed := RowCenters(centers, nodes, k, y);
    RowCentersLastWins(centers, nodes, k, y);
    assert forall j :: 0 <= j < k ==> LastOfId(nodes, j);
    ConnectorsSpec(nodes, placed);
    assert forall j :: 0 <= j < k ==> nodes[j].id in placed;
  }
}
