/**
 * The fixed dimensions of the tree image and the positions derived from them.
 * With these constants every coordinate the layout produces is an integer, so
 * the model uses `int` throughout.
 */
module Geometry {
  import opened Legend

  const CANVAS_WIDTH: int := 900
  const MARGIN: int := 30
  const HEADER_HEIGHT: int := 80
  const NODE_WIDTH: int := 180
  const NODE_HEIGHT: int := 60
  const HORIZONTAL_SPACING: int := 30
  const VERTICAL_SPACING: int := 80
  const LINE_THICKNESS: int := 3
  const NODE_RADIUS: int := 8
  /** Room left under a layer's title before its boxes (`currentY += 25`). */
  const LAYER_LABEL_HEIGHT: int := 25
  const LEGEND_BOX_SIZE: int := 18
  const LEGEND_LINE_HEIGHT: int := 28
  const LEGEND_COL_WIDTH: int := CANVAS_WIDTH / 2 - MARGIN
  /** The allowance for legend and footer in the tentative height. */
  const LEGEND_ALLOWANCE: int := 300
  /** Vertical distance from one layer's title to the next one's. */
  const LAYER_PITCH: int := LAYER_LABEL_HEIGHT + NODE_HEIGHT + VERTICAL_SPACING

  /** `numNodes * TREE_NODE_WIDTH + (numNodes - 1) * HORIZONTAL_SPACING`. */
  function ContentWidth(k: int): int {
    k * NODE_WIDTH + (k - 1) * HORIZONTAL_SPACING
  }

  /** `(CANVAS_WIDTH_ARBOL - layerContentWidth) / 2`: the division is exact, so
      the gap left of a row equals the gap right of it. */
  function StartX(k: int): (x: int)
    ensures 2 * x + ContentWidth(k) == CANVAS_WIDTH
  {
    (CANVAS_WIDTH - ContentWidth(k)) / 2
  }

  /** Left edge of node `j` in a row of `k` nodes. */
  function NodeX(k: int, j: int): int {
    StartX(k) + j * (NODE_WIDTH + HORIZONTAL_SPACING)
  }

  /** A row is centred: the gap before its first box equals the gap after its
      last, and neighbouring boxes are `HORIZONTAL_SPACING` apart. */
  lemma RowCentred(k: int)
    requires k >= 1
    ensures NodeX(k, 0) == CANVAS_WIDTH - (NodeX(k, k - 1) + NODE_WIDTH)
    ensures forall j :: 0 <= j < k - 1 ==> NodeX(k, j) + NODE_WIDTH + HORIZONTAL_SPACING == NodeX(k, j + 1)
  {
  }

  /** A row lies inside the canvas exactly when it has at most four nodes. */
  lemma RowFitsIff(k: int)
    requires k >= 1
    ensures (0 <= NodeX(k, 0) && NodeX(k, k - 1) + NODE_WIDTH <= CANVAS_WIDTH) <==> k <= 4
  {
  }

  /** Neighbouring boxes of a row are one box and one spacing apart. */
  lemma NodeXStep(k: int, j: int)
    ensures NodeX(k, j + 1) == NodeX(k, j) + NODE_WIDTH + HORIZONTAL_SPACING
  {
  }

  /** Top edge of the boxes of layer `i` (0-based among the drawn layers). */
  function LayerTop(i: int): int {
    MARGIN + HEADER_HEIGHT + i * LAYER_PITCH + LAYER_LABEL_HEIGHT
  }

  /** `totalDrawingHeight` for `L` layers: boxes and the gaps between them. */
  function TotalDrawingHeight(layerCount: nat): int {
    if layerCount == 0 then 0 else layerCount * NODE_HEIGHT + (layerCount - 1) * VERTICAL_SPACING
  }

  /** The loop that adds up `totalDrawingHeight`: a box height per layer and a
      gap after every layer but the last. */
  method DrawingHeight(layerCount: nat) returns (h: int)
    ensures h == TotalDrawingHeight(layerCount)
  {
    h := 0;
    for index := 0 to layerCount
      invariant h == index * NODE_HEIGHT + (if 0 < index == layerCount then index - 1 else index) * VERTICAL_SPACING
    {
      h := h + NODE_HEIGHT;
      if index < layerCount - 1 {
        h := h + VERTICAL_SPACING;
      }
    }
  }

  /** `TENTATIVE_CANVAS_HEIGHT`, the height of the canvas everything is drawn on. */
  function TentativeHeight(layerCount: nat): (h: int)
    ensures h == if layerCount == 0 then 440 else 360 + 140 * layerCount
  {
    2 * MARGIN + HEADER_HEIGHT + TotalDrawingHeight(layerCount) + LEGEND_ALLOWANCE
  }

  /** `currentY` once every layer is drawn: past the last layer's gap. */
  function LayersEndY(layerCount: nat): int {
    MARGIN + HEADER_HEIGHT + layerCount * LAYER_PITCH
  }

  /** Tier `i` occupies the stretch from its title (or, below the first
      tier, its connectors) to the bottom of its boxes; that stretch lies
      under the header and ends one gap above where the next tier starts. */
  lemma TierBounds(i: nat)
    ensures LayerTop(i) - (if i == 0 then 10 else VERTICAL_SPACING / 2) >= MARGIN + HEADER_HEIGHT
    ensures LayerTop(i) + NODE_HEIGHT == LayersEndY(i + 1) - VERTICAL_SPACING
    ensures LayersEndY(i) < LayersEndY(i + 1)
    ensures LayersEndY(i) + LAYER_LABEL_HEIGHT == LayerTop(i)
    ensures LayerTop(i) + NODE_HEIGHT + VERTICAL_SPACING == LayersEndY(i + 1)
  {
  }

  /** Baseline of the legend title: back half a gap, then 20 and 10 down. */
  function LegendTitleY(layerCount: nat): int {
    LayersEndY(layerCount) - VERTICAL_SPACING / 2 + 20 + 10
  }

  /** `legendY` once the title is drawn: the base of the legend grid. */
  function LegendTop(layerCount: nat): int {
    LegendTitleY(layerCount) + 10
  }

  /** Left edge of legend item `i`: two columns. */
  function LegendItemX(i: nat): int {
    MARGIN + (i % 2) * LEGEND_COL_WIDTH
  }

  /** Middle line of legend item `i`: one row per two items, starting one
      line below the base. */
  function LegendItemY(top: int, i: nat): int {
    top + (i / 2 + 1) * LEGEND_LINE_HEIGHT
  }

  /** `maxLegendY` after the legend: the lowest text baseline of the grid. */
  function LegendBottom(top: int): int {
    LegendItemY(top, |LegendData| - 1) + 5
  }

  /** `footerY`. */
  function FooterY(layerCount: nat): int {
    LegendBottom(LegendTop(layerCount)) + 20 + MARGIN / 2
  }

  /** `FINAL_CANVAS_HEIGHT`: the footer baseline plus a margin. */
  function FinalHeight(layerCount: nat): (h: int)
    ensures h == 292 + 165 * layerCount
    ensures h == FooterY(layerCount) + MARGIN
  {
    FooterY(layerCount) + MARGIN
  }

  /** Top to bottom, the page holds the tiers, the legend title, the legend
      grid and the footer, each strictly below the one before, and the final
      height leaves a margin below the footer. */
  lemma PageOrder(layerCount: nat)
    ensures LayersEndY(layerCount) - VERTICAL_SPACING < LegendTitleY(layerCount)
    ensures 0 < LegendTitleY(layerCount) < LegendTop(layerCount) + LEGEND_LINE_HEIGHT - LEGEND_BOX_SIZE / 2
    ensures LegendItemY(LegendTop(layerCount), |LegendData| - 1) + LEGEND_BOX_SIZE / 2 < FooterY(layerCount)
    ensures FooterY(layerCount) + MARGIN == FinalHeight(layerCount)
  {
  }

  /** The tentative canvas is tall enough for the final image only when there
      are at most two layers. */
  lemma TentativeCoversIff(layerCount: nat)
    ensures TentativeHeight(layerCount) >= FinalHeight(layerCount) <==> layerCount <= 2
  {
  }

  /** With three layers the final image is already 7 pixels taller than the
      canvas it is copied from; with the eight layers of the bundled sample
      it is 132 pixels taller (1612 against 1480). */
  lemma TentativeTooShort()
    ensures TentativeHeight(3) == 780 && FinalHeight(3) == 787
    ensures TentativeHeight(8) == 1480 && FinalHeight(8) == 1612
  {
  }

  /** From four layers on the footer baseline lies below the tentative canvas,
      so the footer is not in the image. */
  lemma FooterLostIff(layerCount: nat)
    ensures FooterY(layerCount) >= TentativeHeight(layerCount) <==> layerCount >= 4
  {
  }

  /** The tentative height with each layer's title room counted as well. */
  function CorrectedTentativeHeight(layerCount: nat): (h: int)
    ensures h >= FinalHeight(layerCount)
    ensures h >= FooterY(layerCount) + MARGIN
  {
    2 * MARGIN + HEADER_HEIGHT + TotalDrawingHeight(layerCount) + layerCount * LAYER_LABEL_HEIGHT + LEGEND_ALLOWANCE
  }
}
