/**
 * `generateGenealogyTreeImage`: enrich the people, group them into tiers,
 * draw header, tiers, legend and footer on a canvas of tentative height, and
 * crop the result to its final height.
 */
module Tree {
  import opened Text
  import opened Wrappers
  import opened Legend
  import opened Enrich
  import opened Grouping
  import opened Geometry
  import opened Drawing
  import opened Layout

  const API_NAME: string := "ARBOL GENEALOGICO"
  const SEPARATOR_COLOR: Color := "#CCCCCC"
  /** Border width of a legend swatch. */
  const SWATCH_LINE_WIDTH: int := 4

  /** The name interpolated into the title: an absent name prints as "undefined". */
  function TitleName(nombre: Option<string>): (r: string)
    ensures nombre.Some? ==> r == nombre.value
    ensures nombre.None? ==> r == "undefined"
  {
    if nombre.Some? then nombre.value else "undefined"
  }

  /** White background over the whole canvas, the title, the separator line. */
  function HeaderCommands(nombre: Option<string>, canvasHeight: int): seq<Command> {
    [ FillRect(0, 0, CANVAS_WIDTH, canvasHeight, BACKGROUND_COLOR),
      FillText("Árbol Genealógico: " + TitleName(nombre), CANVAS_WIDTH / 2, MARGIN + 20, AlignCenter, COLOR_TITLE),
      Segment(MARGIN, MARGIN + HEADER_HEIGHT - 10, CANVAS_WIDTH - MARGIN, MARGIN + HEADER_HEIGHT - 10, SEPARATOR_COLOR, 1) ]
  }

  /** The heading above the legend grid. */
  function LegendTitle(layerCount: nat): Command {
    FillText("Leyenda de Parentesco:", MARGIN, LegendTitleY(layerCount), AlignLeft, COLOR_TITLE)
  }

  /** Legend item `i`: a white swatch bordered in the entry's colour and the
      entry's text to its right. */
  function LegendItem(top: int, i: nat): seq<Command>
    requires i < |LegendData|
  {
    var x, y := LegendItemX(i), LegendItemY(top, i);
    [ FillRect(x, y - LEGEND_BOX_SIZE / 2, LEGEND_BOX_SIZE, LEGEND_BOX_SIZE, BACKGROUND_COLOR),
      StrokeRect(x, y - LEGEND_BOX_SIZE / 2, LEGEND_BOX_SIZE, LEGEND_BOX_SIZE, LegendData[i].color, SWATCH_LINE_WIDTH),
      FillText(LegendData[i].text, x + LEGEND_BOX_SIZE + 10, y + 5, AlignLeft, COLOR_TEXT) ]
  }

  /** The first `n` legend items. */
  function LegendCommands(top: int, n: nat): seq<Command>
    requires n <= |LegendData|
  {
    if n == 0 then [] else LegendCommands(top, n - 1) + LegendItem(top, n - 1)
  }

  /** The two footer texts, left and right, on the footer baseline. */
  function FooterCommands(layerCount: nat, today: string): seq<Command> {
    [ FillText("Fuente: " + API_NAME, MARGIN, FooterY(layerCount), AlignLeft, COLOR_SECONDARY_TEXT),
      FillText("Generado el: " + today, CANVAS_WIDTH - MARGIN, FooterY(layerCount), AlignRight, COLOR_SECONDARY_TEXT) ]
  }

  /** What is drawn below the tiers: legend title, legend, footer. */
  function LowerPageCommands(layerCount: nat, today: string): seq<Command> {
    [LegendTitle(layerCount)] + LegendCommands(LegendTop(layerCount), |LegendData|) + FooterCommands(layerCount, today)
  }

  /** What is drawn below the header. */
  function PageCommands(layers: seq<Layer>, today: string): seq<Command> {
    LayoutCommands(layers) + LowerPageCommands(|layers|, today)
  }

  /** Everything drawn on the tentative canvas, in drawing order. */
  function TreeCommands(nombre: Option<string>, layers: seq<Layer>, canvasHeight: int, today: string): seq<Command> {
    HeaderCommands(nombre, canvasHeight) + PageCommands(layers, today)
  }

  /** The result: the width and height of the tentative canvas, the height
      of the cropped image, and what was drawn. */
  datatype TreeImage = TreeImage(width: int, canvasHeight: int, height: int, commands: seq<Command>)

  /** The legend run holds the items one after the other, three commands each. */
  lemma {:induction false} LegendLayout(top: int, n: nat)
    requires n <= |LegendData|
    ensures |LegendCommands(top, n)| == 3 * n
    ensures forall i, d :: 0 <= i < n && 0 <= d < 3 ==> LegendCommands(top, n)[3 * i + d] == LegendItem(top, i)[d]
  {
    if n > 0 {
      LegendLayout(top, n - 1);
      var a, b := LegendCommands(top, n - 1), LegendItem(top, n - 1);
      assert LegendCommands(top, n) == a + b;
      forall i, d | 0 <= i < n && 0 <= d < 3
        ensures (a + b)[3 * i + d] == LegendItem(top, i)[d]
      {
        if i < n - 1 {
          assert (a + b)[3 * i + d] == a[3 * i + d];
        } else {
          assert (a + b)[3 * i + d] == b[d];
        }
      }
    }
  }

  /** Every legend entry is shown, in its own colour and with its own text. */
  lemma LegendShowsEveryEntry(top: int)
    ensures |LegendCommands(top, |LegendData|)| == 3 * |LegendData|
    ensures forall i :: 0 <= i < |LegendData| ==>
              LegendCommands(top, |LegendData|)[3 * i + 1] ==
                StrokeRect(LegendItemX(i), LegendItemY(top, i) - LEGEND_BOX_SIZE / 2, LEGEND_BOX_SIZE, LEGEND_BOX_SIZE,
                           LegendData[i].color, SWATCH_LINE_WIDTH) &&
              LegendCommands(top, |LegendData|)[3 * i + 2] ==
                FillText(LegendData[i].text, LegendItemX(i) + LEGEND_BOX_SIZE + 10, LegendItemY(top, i) + 5, AlignLeft, COLOR_TEXT)
  {
    LegendLayout(top, |LegendData|);
    var r := LegendCommands(top, |LegendData|);
    forall i | 0 <= i < |LegendData|
      ensures r[3 * i + 1] == StrokeRect(LegendItemX(i), LegendItemY(top, i) - LEGEND_BOX_SIZE / 2, LEGEND_BOX_SIZE,
                                         LEGEND_BOX_SIZE, LegendData[i].color, SWATCH_LINE_WIDTH)
      ensures r[3 * i + 2] == FillText(LegendData[i].text, LegendItemX(i) + LEGEND_BOX_SIZE + 10, LegendItemY(top, i) + 5,
                                       AlignLeft, COLOR_TEXT)
    {
      var item := LegendItem(top, i);
      assert r[3 * i + 1] == item[1] && r[3 * i + 2] == item[2];
    }
  }

  /** The legend lies between one line below its base (less half a swatch)
      and the bottom of the last swatch. */
  lemma {:induction false} LegendInBand(top: int, n: nat)
    requires n <= |LegendData|
    ensures forall j :: 0 <= j < |LegendCommands(top, n)| ==>
              InBand(LegendCommands(top, n)[j], top + LEGEND_LINE_HEIGHT - LEGEND_BOX_SIZE / 2,
                     LegendItemY(top, |LegendData| - 1) + LEGEND_BOX_SIZE / 2)
  {
    if n > 0 {
      LegendInBand(top, n - 1);
      var a, b := LegendCommands(top, n - 1), LegendItem(top, n - 1);
      var lo, hi := top + LEGEND_LINE_HEIGHT - LEGEND_BOX_SIZE / 2, LegendItemY(top, |LegendData| - 1) + LEGEND_BOX_SIZE / 2;
      assert LegendItemY(top, n - 1) <= LegendItemY(top, |LegendData| - 1);
      assert forall j :: 0 <= j < |b| ==> InBand(b[j], lo, hi);
      BandConcat(a, b, lo, hi);
    }
  }

  /** No two legend items share a position, and the last one's text
      baseline is the lowest: it is what `Math.max` leaves in `maxLegendY`. */
  lemma LegendGrid(top: int)
    ensures forall i, j :: 0 <= i < j < |LegendData| ==>
              LegendItemX(i) != LegendItemX(j) || LegendItemY(top, i) != LegendItemY(top, j)
    ensures forall i :: 0 <= i < |LegendData| ==> top < LegendItemY(top, i) + 5 <= LegendBottom(top)
  {
  }

  /** The legend `forEach`: three commands per entry, and the running
      maximum of the text baselines. */
  method DrawLegend(ctx: Canvas, legendY: int) returns (maxLegendY: int)
    modifies ctx
    ensures ctx.commands == old(ctx.commands) + LegendCommands(legendY, |LegendData|)
    ensures maxLegendY == LegendBottom(legendY)
  {
    ghost var start := ctx.commands;
    maxLegendY := legendY;
    for index := 0 to |LegendData|
      invariant ctx.commands == start + LegendCommands(legendY, index)
      invariant maxLegendY == if index == 0 then legendY else LegendItemY(legendY, index - 1) + 5
    {
      var item := LegendData[index];
      var col := index % 2;
      var row := index / 2;
      var itemX := MARGIN + col * LEGEND_COL_WIDTH;
      var itemY := legendY + (row + 1) * LEGEND_LINE_HEIGHT;
      AppendAssoc(start, LegendCommands(legendY, index), LegendItem(legendY, index));
      ghost var before := ctx.commands;
      ctx.Draw(FillRect(itemX, itemY - LEGEND_BOX_SIZE / 2, LEGEND_BOX_SIZE, LEGEND_BOX_SIZE, BACKGROUND_COLOR));
      ctx.Draw(StrokeRect(itemX, itemY - LEGEND_BOX_SIZE / 2, LEGEND_BOX_SIZE, LEGEND_BOX_SIZE, item.color, SWATCH_LINE_WIDTH));
      ctx.Draw(FillText(item.text, itemX + LEGEND_BOX_SIZE + 10, itemY + 5, AlignLeft, COLOR_TEXT));
      assert ctx.commands == before + LegendItem(legendY, index);
      maxLegendY := if maxLegendY >= itemY + 5 then maxLegendY else itemY + 5;
    }
  }

  /** The tiers lie strictly below the separator line and above the legend
      title. */
  lemma TiersBetweenHeaderAndLegend(layers: seq<Layer>)
    ensures forall j :: 0 <= j < |LayoutCommands(layers)| ==>
              InBand(LayoutCommands(layers)[j], MARGIN + HEADER_HEIGHT - 10 + 1, LegendTitleY(|layers|) - 1)
  {
    PageOrder(|layers|);
    LayoutInBand(layers);
    BandWiden(LayoutCommands(layers), MARGIN + HEADER_HEIGHT, LayersEndY(|layers|) - VERTICAL_SPACING,
              MARGIN + HEADER_HEIGHT - 10 + 1, LegendTitleY(|layers|) - 1);
  }

  /** Legend title, legend and footer lie between the bottom of the tiers
      and the footer baseline. */
  lemma LowerPageInBand(layerCount: nat, today: string)
    ensures forall j :: 0 <= j < |LowerPageCommands(layerCount, today)| ==>
              InBand(LowerPageCommands(layerCount, today)[j], LayersEndY(layerCount) - VERTICAL_SPACING, FooterY(layerCount))
  {
    PageOrder(layerCount);
    var lo, hi := LayersEndY(layerCount) - VERTICAL_SPACING, FooterY(layerCount);
    var title := [LegendTitle(layerCount)];
    assert InBand(title[0], lo, hi);
    var top := LegendTop(layerCount);
    LegendInBand(top, |LegendData|);
    var legend := LegendCommands(top, |LegendData|);
    BandWiden(legend, top + LEGEND_LINE_HEIGHT - LEGEND_BOX_SIZE / 2, LegendItemY(top, |LegendData| - 1) + LEGEND_BOX_SIZE / 2, lo, hi);
    var footer := FooterCommands(layerCount, today);
    assert InBand(footer[0], lo, hi) && InBand(footer[1], lo, hi);
    BandConcat(title, legend, lo, hi);
    BandConcat(title + legend, footer, lo, hi);
  }

  /** Below the header, the page lies between the top of the canvas and
      the footer baseline. */
  lemma PageInBand(layers: seq<Layer>, today: string)
    ensures forall j :: 0 <= j < |PageCommands(layers, today)| ==> InBand(PageCommands(layers, today)[j], 0, FooterY(|layers|))
  {
    var count := |layers|;
    PageOrder(count);
    LayoutInBand(layers);
    LowerPageInBand(count, today);
    BandWiden(LayoutCommands(layers), MARGIN + HEADER_HEIGHT, LayersEndY(count) - VERTICAL_SPACING, 0, FooterY(count));
    BandWiden(LowerPageCommands(count, today), LayersEndY(count) - VERTICAL_SPACING, FooterY(count), 0, FooterY(count));
    BandConcat(LayoutCommands(layers), LowerPageCommands(count, today), 0, FooterY(count));
  }

  /** Everything drawn after the background lies between the top of the
      canvas and the footer baseline, so within the height of the cropped
      image. Its width is not cropped: a tier of five or more boxes runs off
      the sides (see `RowFitsIff`). */
  lemma TreeInsideImage(nombre: Option<string>, layers: seq<Layer>, canvasHeight: int, today: string)
    ensures forall j :: 1 <= j < |TreeCommands(nombre, layers, canvasHeight, today)| ==>
              InBand(TreeCommands(nombre, layers, canvasHeight, today)[j], 0, FooterY(|layers|))
    ensures FooterY(|layers|) < FinalHeight(|layers|)
  {
    PageInBand(layers, today);
    PageOrder(|layers|);
    var header, page := HeaderCommands(nombre, canvasHeight), PageCommands(layers, today);
    var r := TreeCommands(nombre, layers, canvasHeight, today);
    forall j | 1 <= j < |r| ensures InBand(r[j], 0, FooterY(|layers|)) {
      if j < |header| { assert r[j] == header[j]; } else { assert r[j] == page[j - |header|]; }
    }
  }

  /** Background, title and separator line. */
  method DrawHeader(ctx: Canvas, nombre: Option<string>, canvasHeight: int)
    modifies ctx
    ensures ctx.commands == old(ctx.commands) + HeaderCommands(nombre, canvasHeight)
  {
    ghost var start := ctx.commands;
    var background := FillRect(0, 0, CANVAS_WIDTH, canvasHeight, BACKGROUND_COLOR);
    var title := FillText("Árbol Genealógico: " + TitleName(nombre), CANVAS_WIDTH / 2, MARGIN + 20, AlignCenter, COLOR_TITLE);
    var separator := Segment(MARGIN, MARGIN + HEADER_HEIGHT - 10, CANVAS_WIDTH - MARGIN, MARGIN + HEADER_HEIGHT - 10, SEPARATOR_COLOR, 1);
    AppendAssoc(start, [background], [title]);
    AppendAssoc(start, [background] + [title], [separator]);
    assert [background] + [title] + [separator] == HeaderCommands(nombre, canvasHeight);
    ctx.Draw(background);
    ctx.Draw(title);
    ctx.Draw(separator);
  }

  /** From the end of the tiers on: back half a gap, the legend title, the
      legend, and the footer below the lowest legend line. Returns `footerY`. */
  method DrawLowerPage(ctx: Canvas, layerCount: nat, currentY: int, today: string) returns (footerY: int)
    requires currentY == LayersEndY(layerCount)
    modifies ctx
    ensures ctx.commands == old(ctx.commands) + LowerPageCommands(layerCount, today)
    ensures footerY == FooterY(layerCount)
  {
    ghost var start := ctx.commands;
    var y := currentY - VERTICAL_SPACING / 2;
    y := y + 20;
    var legendY := y + 10;
    var title := FillText("Leyenda de Parentesco:", MARGIN, legendY, AlignLeft, COLOR_TITLE);
    ctx.Draw(title);
    legendY := legendY + 10;
    AppendAssoc(start, [title], LegendCommands(legendY, |LegendData|));
    var maxLegendY := DrawLegend(ctx, legendY);
    y := maxLegendY;
    ghost var upper := [title] + LegendCommands(legendY, |LegendData|);

    footerY := y + 20 + MARGIN / 2;
    var source := FillText("Fuente: " + API_NAME, MARGIN, footerY, AlignLeft, COLOR_SECONDARY_TEXT);
    var date := FillText("Generado el: " + today, CANVAS_WIDTH - MARGIN, footerY, AlignRight, COLOR_SECONDARY_TEXT);
    AppendAssoc(start + upper, [source], [date]);
    AppendAssoc(start, upper, [source] + [date]);
    assert [source] + [date] == FooterCommands(layerCount, today);
    ctx.Draw(source);
    ctx.Draw(date);
  }

  /** `generateGenealogyTreeImage(rawDocumento, principal, familiares)`.
      `uuid(i)` stands for the identifier `uuidv4()` would yield for person
      `i` and `today` for the formatted current date. The canvas is as tall as
      the corrected tentative height, which is never below the final height. */
  method GenerateTree(principal: Person, familiares: seq<Person>, uuid: nat -> string, today: string)
    returns (r: Result<TreeImage>)
    ensures r.Err? <==> principal.parentesco.None? ||
                        exists i :: 0 <= i < |familiares| && familiares[i].parentesco.None?
    ensures r.Err? ==> r == Err(EnrichAll(principal, familiares, uuid).error)
    ensures r.Ok? ==>
              var layers := Layers(EnrichAll(principal, familiares, uuid).value);
              var canvasHeight := CorrectedTentativeHeight(|layers|);
              r.value == TreeImage(CANVAS_WIDTH, canvasHeight, FinalHeight(|layers|),
                                   TreeCommands(principal.nombre, layers, canvasHeight, today)) &&
              canvasHeight >= FinalHeight(|layers|)
  {
    var enriched := EnrichAll(principal, familiares, uuid);
    if enriched.Err? {
      return Err(enriched.error);
    }
    var allNodes := enriched.value;
    var groupedLayers := GroupLayers(allNodes);
    assert groupedLayers == Slots(allNodes);
    var layers := FilterLayers(groupedLayers);

    var totalDrawingHeight := DrawingHeight(|layers|);
    // The room taken by the tier titles is counted as well (see Findings).
    var tentativeHeight := 2 * MARGIN + HEADER_HEIGHT + totalDrawingHeight + |layers| * LAYER_LABEL_HEIGHT + LEGEND_ALLOWANCE;

    var ctx := new Canvas();
    DrawHeader(ctx, principal.nombre, tentativeHeight);
    assert ctx.commands == HeaderCommands(principal.nombre, tentativeHeight);
    var nodeCenters, currentY := DrawLayers(ctx, layers);
    var footerY := DrawLowerPage(ctx, |layers|, currentY, today);
    AppendAssoc(HeaderCommands(principal.nombre, tentativeHeight), LayoutCommands(layers), LowerPageCommands(|layers|, today));

    var finalHeight := footerY + MARGIN;
    assert layers == Layers(allNodes);
    assert tentativeHeight == CorrectedTentativeHeight(|layers|);
    assert finalHeight == FinalHeight(|layers|);
    assert ctx.commands == TreeCommands(principal.nombre, layers, tentativeHeight, today);
    r := Ok(TreeImage(CANVAS_WIDTH, tentativeHeight, finalHeight, ctx.commands));
  }
}
