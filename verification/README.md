# Genealogy tree layout, modelled in Dafny

This project models the layout logic of `generateGenealogyTreeImage` in
`main.js`, the function that draws a family tree as a PNG image.

- **Enrichment.** The principal and the relatives are enriched with a colour
  from the relationship legend and an identifier.
- **Grouping.** The people are grouped into the eight fixed tiers of
  `layerOrder`, and empty tiers are dropped.
- **Drawing.** The function draws a header, one centred row of boxes per tier
  with connectors above every tier but the first, a two-column legend and a
  footer, on a canvas of tentative height.
- **Cropping.** The result is copied onto a canvas of the final height.

The 2D canvas is modelled as a recorder (`Drawing.Canvas`). Every drawing
call appends one `Command` that carries the coordinates and the style in
force. The methods that draw are proved to produce exactly the command
sequence given by a specification function. The lemmas then state what that
sequence looks like:
- which boxes appear where;
- which connectors are drawn;
- that the legend shows every entry;
- that everything lies above the footer.

With the constants of the source every coordinate is an integer, so the
model uses `int` throughout. Some closed forms:
- node `j` of a row of `k` starts at `465 - 105k + 210j`;
- tier `i` has its boxes at `135 + 165i`;
- the final height is `292 + 165L` for `L` drawn tiers.

Modules, one per file:
- `Wrappers`: the `Option` type for values that may be missing;
- `Text`: lower-casing and stripping of labels;
- `Legend`: `legendData`, `layerOrder` and both lookups;
- `Enrich`: the `map` over `[principal, ...familiares]`;
- `Grouping`: the `reduce` and the `filter`;
- `Geometry`: the constants and the positions and heights derived from them;
- `Drawing`: the canvas recorder, `drawTreeNode` and `drawConnections`;
- `Layout`: the tier loop;
- `Tree`: the whole function;
- `Sample`: the bundled demonstration data.

## Model

| member | source | states |
|---|---|---|
| Text.Lower | main.js:181 | lower-casing keeps the length, and leaves no upper-case letter |
| Text.StripSpec | main.js:181 | stripping `/áéíóúüñ` leaves none of them, brings in no new character and keeps every other character |
| Text.StripAppend | main.js:181 | stripping goes character by character: the empty key stays empty and an appended character is kept at the end exactly when it is not stripped, so the kept characters stay in order and keep their count |
| Text.NormalizeSpec | main.js:181 | a colour key holds no stripped character and no upper-case letter |
| Text.StripIdempotent | main.js:200-201 | stripping twice is stripping once |
| Text.NormalizeIdempotent | main.js:181-183 | normalising a normalised key changes nothing |
| Legend.FindEntry | main.js:182-184 | `find`: absent iff no entry's normalised text equals the key, otherwise the first entry that matches |
| Legend.LegendColor | main.js:181-187 | the colour of the legend entry whose normalised text equals the normalised label, else `COLOR_TEXT` |
| Legend.LegendColorIsFind | main.js:181-187 | the colour lookup agrees with the `find` over `legendData` as written |
| Legend.LegendKeysSpec | main.js:32-64 | the colour keys are the legend texts lower-cased and stripped |
| Legend.FindLayer | main.js:201 | `findIndex`: -1 iff no stripped tier name equals the key, otherwise the first position that matches |
| Legend.LayerIndex | main.js:199-202 | `getLayerIndex` is -1 iff the stripped label is no stripped tier name, otherwise the position of that name |
| Legend.LayerIndexIsFindIndex | main.js:199-202 | the layer lookup agrees with the `findIndex` over `layerOrder` as written |
| Legend.LayerKeysSpec | main.js:193-196 | the layer keys are the tier names stripped |
| Legend.LayerIndexOfName | main.js:193-202 | every tier name maps back to its own position |
| Legend.LowerCasePrincipalHasColor | main.js:181-187 | lower-case "principal" still gets the principal's colour |
| Legend.LowerCasePrincipalHasNoLayer | main.js:199-202 | the layer lookup is case-sensitive: "principal" gets no tier, "Principal" gets tier 2 |
| Enrich.KeptId | main.js:188 | a present non-empty id is kept, otherwise the fresh id is used |
| Enrich.EnrichOne | main.js:185-189 | label, name, gender and parent are copied; the colour is the lookup of the label; the id is kept or fresh |
| Enrich.EnrichFrom | main.js:180-190 | fails iff some person has no label, naming the first such position; otherwise node `i` is person `i` enriched with fresh id `i` |
| Enrich.EnrichAll | main.js:180-190 | fails iff the principal or a relative has no label; otherwise the principal is node 0 and relative `i` is node `i+1`, each enriched with the legend colour |
| Grouping.Bucket | main.js:205-217 | a bucket holds only nodes of its tier |
| Grouping.BucketCount | main.js:205-217 | a bucket holds each node of its tier as often as the input does, and no other node |
| Grouping.SlotStep | main.js:206-215 | reducing one more node changes only its own tier's bucket, appending the node and creating the bucket if absent |
| Grouping.GroupLayers | main.js:205-217 | the `reduce` over an 8-slot array yields, per tier, no bucket or the tier's name with its nodes in input order |
| Grouping.FilterLayers | main.js:220 | the filter keeps no more buckets than it is given, and only non-empty ones |
| Grouping.KeptPositionsIncrease | main.js:220 | the kept positions lie among the buckets and strictly increase, so the tiers keep `layerOrder` |
| Grouping.KeptPositionsSpec | main.js:220 | the `i`-th kept tier is the bucket at the `i`-th kept position, and there are as many positions as tiers |
| Grouping.KeptPositionsComplete | main.js:220 | every non-empty bucket is kept |
| Grouping.LayersSpec | main.js:205-220 | every drawn tier is the non-empty bucket of the tier it is named after; tiers follow `layerOrder`; every non-empty bucket is drawn |
| Grouping.LayerPositionsAreIndices | main.js:209-210 | a drawn tier's position is the layer index of its name |
| Grouping.NodePlacement | main.js:205-220 | a node with a layer index lies in exactly the tier at that index, as often as in the input; a node with index -1 lies in none |
| Geometry.StartX | main.js:271-274 | the gap left of a row equals the gap right of it |
| Geometry.RowCentred | main.js:271-307 | the first box starts as far from the left edge as the last ends from the right, and neighbours are one spacing apart |
| Geometry.RowFitsIff | main.js:271-274 | a row lies inside the 900px canvas iff it has at most four boxes |
| Geometry.NodeXStep | main.js:307 | `currentX` advances by one box and one spacing |
| Geometry.DrawingHeight | main.js:223-233 | the loop gives `60L + 80(L-1)` for `L >= 1` and 0 for no tier |
| Geometry.TentativeHeight | main.js:238 | the tentative height is 440 with no tier, else `360 + 140L` |
| Geometry.TierBounds | main.js:262-316 | each tier starts below the header and ends one gap above the next; its title room is 25px above its boxes |
| Geometry.FinalHeight | main.js:387-388 | the final height is `292 + 165L`, one margin below the footer baseline |
| Geometry.PageOrder | main.js:323-388 | tiers, legend title, legend grid and footer follow each other strictly downwards, and a margin is left below the footer |
| Geometry.TentativeCoversIff | main.js:236-238 | the tentative canvas is at least as tall as the final image iff there are at most two tiers |
| Geometry.TentativeTooShort | main.js:238 | three tiers give 780 against 787; eight give 1480 against 1612 |
| Geometry.FooterLostIff | main.js:374-388 | the footer baseline is off the tentative canvas iff there are four tiers or more |
| Geometry.CorrectedTentativeHeight | main.js:238 | with the tier titles counted, the tentative height always covers the final image |
| Drawing.DisplayName | main.js:97 | the name, or "Desconocido" when it is absent or empty |
| Drawing.NodeCommands | main.js:74-112 | a box is filled, bordered, named at its centre, and labelled with its relationship unless that is "principal" in any case; the white fill and the border in the tier colour are both the 180x60 rectangle at (x, y); every command lies within the box's height, and every text anchor within its width |
| Drawing.DrawTreeNode | main.js:74-112 | `drawTreeNode` appends exactly the node's commands |
| Drawing.PrincipalLabelHidden | main.js:103 | "Principal" in any case shows no relationship label; "Hijo/Hija" does |
| Drawing.PrincipalAnyCaseHidden | main.js:103 | every spelling of "principal" that differs only in letter case hides the relationship label |
| Drawing.ConnectorsSpec | main.js:121-145 | at most one segment per node, exactly one from the node's own centre when all have centres; each is vertical and 40px long |
| Drawing.DrawConnections | main.js:121-145 | `drawConnections` appends one segment per node with a recorded centre, in order, skipping the others |
| Layout.RowCenters | main.js:298-304 | every placed node has a centre at the row's top; other ids keep theirs |
| Layout.RowCentersLastWins | main.js:298-304 | an id's centre is that of the last box in the row carrying it |
| Layout.RowInBand | main.js:291-308 | every box of a row lies within the row's height |
| Layout.RowConnectorsInBand | main.js:137-143 | the connectors of a row rise from the row's top to half a gap above it |
| Layout.LayerInBand | main.js:268-316 | a tier lies between its title (or the top of its connectors) and the bottom of its boxes |
| Layout.LayoutInBand | main.js:262-320 | all tiers lie below the header and above the bottom of the last row |
| Layout.PlaceRow | main.js:291-308 | the inner loop draws box `j` at `NodeX(k, j)` and records its centre |
| Layout.DrawLayer | main.js:268-317 | one tier: its title, its row and, unless first, its connectors; `currentY` moves one pitch on |
| Layout.DrawLayers | main.js:262-320 | the tier loop draws every tier and ends `currentY` one gap below the last row |
| Layout.ConnectorsFromOwnBoxes | main.js:310-313 | with distinct ids a tier after the first gets one connector per box from its top middle; it stops short of the tier above |
| Tree.TitleName | main.js:252 | the principal's name, or "undefined" when absent |
| Tree.LegendLayout | main.js:347-368 | three commands per legend entry, in entry order |
| Tree.LegendShowsEveryEntry | main.js:355-364 | every legend entry is shown with a swatch in its own colour and its own text |
| Tree.LegendInBand | main.js:347-368 | the legend lies between its first line and its last swatch |
| Tree.LegendGrid | main.js:347-367 | two columns: no two entries share a position, and the last text baseline is the lowest |
| Tree.DrawLegend | main.js:345-368 | the legend loop draws every entry and leaves the lowest baseline in `maxLegendY` |
| Tree.TiersBetweenHeaderAndLegend | main.js:254-336 | the tiers lie strictly between the separator line and the legend title |
| Tree.LowerPageInBand | main.js:323-385 | legend title, legend and footer lie between the last row and the footer baseline |
| Tree.PageInBand | main.js:262-385 | everything below the header lies above the footer baseline |
| Tree.TreeInsideImage | main.js:387-401 | everything drawn after the background lies between the top of the canvas and the footer baseline, which is above the bottom of the cropped image |
| Tree.DrawHeader | main.js:244-260 | background, title and separator line are drawn in that order |
| Tree.DrawLowerPage | main.js:322-385 | legend title, legend and footer are drawn; the footer baseline is `FooterY` |
| Tree.GenerateTree | main.js:173-404 | fails iff a label is missing; otherwise yields the 900px-wide image of final height `292 + 165L` holding exactly the tree's commands, drawn on a canvas that covers it |
| Sample.FilterAllKept | main.js:220 | when every bucket passes the test, all are kept in order |
| Sample.EnrichedLabels | main.js:180-190 | when every label is present, enrichment succeeds and node `i` carries person `i`'s label |
| Sample.TiersFilled | main.js:205-220 | nodes with a member in every tier fill all eight tiers, in `layerOrder` |
| Sample.EveryTierFilled | main.js:205-220 | a company with a member in every tier fills all eight tiers, in `layerOrder` |
| Sample.SampleFillsEveryTier | main.js:410-472 | the bundled data fills all eight tiers, and its final image (1612) is taller than its canvas (1480) |

## Left out

- Rendering is not modelled: fonts, `lineCap`, `beginPath`, the rounding of rectangles, pixels, the `drawImage` copy and PNG encoding. Only the coordinates, sizes, texts and colours passed to the canvas are kept. `TreeImage` records the tentative and final heights instead of pixels.
- `uuidv4()` is a parameter `uuid: nat -> string` indexed by position in `[principal, ...familiares]`, so fresh ids are not necessarily distinct.
- The date text of the footer is a parameter `today`.
- `runTest`, file output, logging and the `async` wrapper are not part of this model.
- The commented-out `parentId` connector routing is dead code and not modelled.
- `previousLayerNodesCenters` is computed but never read, so it is not modelled.
- `rawDocumento` is never read.
- `loadImage` is imported but never used.
- A `null` principal, a label that is not a string, and other non-string fields cannot be expressed in the typed `Person`. Missing fields are `Option`s.
- The sparse array `acc` of the `reduce` is an eight-slot array of `Option<Layer>`. This is the same once `filter` has run.
- Text.Lower: lower-cases ASCII and Latin-1 letters only, not the rest of Unicode. This covers every legend text and tier name of the source.
- Geometry.RowFitsIff: a row of five or more boxes starts left of the canvas and runs off it. The source does not guard against this; the model states it and does not change it.
- Tree.TreeInsideImage: bounds what is drawn vertically only. Horizontally, a tier of five or more boxes runs off the sides, as Geometry.RowFitsIff states.
- Tree.GenerateTree: draws on the corrected tentative height (see Findings) instead of the height the source computes.

## Findings

| source | as written | input that shows it | evidently intended | confidence | as-written member | corrected member |
|---|---|---|---|---|---|---|
| main.js:236-238 | the tentative canvas height `2*MARGIN + HEADER_HEIGHT + totalDrawingHeight + 300` leaves out the 25px title above each tier, so it is `360 + 140L` while the image needs `292 + 165L` | any three tiers (780 against 787); the bundled sample fills all eight tiers (1480 against 1612), so the lower legend rows and the footer are drawn off the canvas and the copy to the final canvas loses them | a tentative canvas that always covers the final image, as the comment at main.js:237 claims | not executed | Geometry.TentativeCoversIff | Geometry.CorrectedTentativeHeight |
