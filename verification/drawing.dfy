/**
 * What the tree hands to the 2D canvas: a node box with its texts
 * (`drawTreeNode`) and the connector segments of a layer (`drawConnections`).
 * The canvas context is a recorder of draw commands; each command carries the
 * style (colour, line width, alignment) the context holds when it is issued.
 */
module Drawing {
  import opened Text
  import opened Wrappers
  import opened Legend
  import opened Enrich
  import opened Geometry

  datatype Align = AlignLeft | AlignCenter | AlignRight

  datatype Command =
    | FillRect(x: int, y: int, w: int, h: int, fill: Color)
    | StrokeRect(x: int, y: int, w: int, h: int, stroke: Color, lineWidth: int)
    | FillRoundRect(x: int, y: int, w: int, h: int, radius: int, fill: Color)
    | StrokeRoundRect(x: int, y: int, w: int, h: int, radius: int, stroke: Color, lineWidth: int)
    | Segment(x1: int, y1: int, x2: int, y2: int, stroke: Color, lineWidth: int)
    | FillText(text: string, x: int, y: int, align: Align, fill: Color)

  /** The canvas context: every call appends the command it draws. */
  class Canvas {
    var commands: seq<Command>

    constructor()
      ensures commands == []
    {
      commands := [];
    }

    method Draw(c: Command)
      modifies this
      ensures commands == old(commands) + [c]
    {
      commands := commands + [c];
    }
  }

  /** Highest y a command paints at (for a text, its baseline). */
  function Top(c: Command): int {
    match c
    case FillRect(_, y, _, _, _) => y
    case StrokeRect(_, y, _, _, _, _) => y
    case FillRoundRect(_, y, _, _, _, _) => y
    case StrokeRoundRect(_, y, _, _, _, _, _) => y
    case Segment(_, y1, _, y2, _, _) => if y1 <= y2 then y1 else y2
    case FillText(_, _, y, _, _) => y
  }

  /** Lowest y a command paints at (for a text, its baseline). */
  function Bottom(c: Command): int {
    match c
    case FillRect(_, y, _, h, _) => y + h
    case StrokeRect(_, y, _, h, _, _) => y + h
    case FillRoundRect(_, y, _, h, _, _) => y + h
    case StrokeRoundRect(_, y, _, h, _, _, _) => y + h
    case Segment(_, y1, _, y2, _, _) => if y1 <= y2 then y2 else y1
    case FillText(_, _, y, _, _) => y
  }

  /** The command lies within the horizontal band from `lo` to `hi`. */
  predicate InBand(c: Command, lo: int, hi: int) {
    lo <= Top(c) && Bottom(c) <= hi
  }

  /** Two runs of commands within a band make one. */
  lemma BandConcat(a: seq<Command>, b: seq<Command>, lo: int, hi: int)
    requires forall i :: 0 <= i < |a| ==> InBand(a[i], lo, hi)
    requires forall i :: 0 <= i < |b| ==> InBand(b[i], lo, hi)
    ensures forall i :: 0 <= i < |a + b| ==> InBand((a + b)[i], lo, hi)
  {
  }

  /** A run of commands within a band lies within any wider band. */
  lemma BandWiden(a: seq<Command>, lo: int, hi: int, lo': int, hi': int)
    requires forall i :: 0 <= i < |a| ==> InBand(a[i], lo, hi)
    requires lo' <= lo && hi <= hi'
    ensures forall i :: 0 <= i < |a| ==> InBand(a[i], lo', hi')
  {
  }

  /** `node.nombre || 'Desconocido'`. */
  function DisplayName(nombre: Option<string>): (r: string)
    ensures nombre.Some? && nombre.value != "" ==> r == nombre.value
    ensures nombre.None? || nombre.value == "" ==> r == "Desconocido"
  {
    if nombre.Some? && nombre.value != "" then nombre.value else "Desconocido"
  }

  /** The secondary text is drawn for a non-empty relationship other than
      "principal" in any letter case. */
  predicate ShowsRelationship(parentesco: string) {
    parentesco != "" && Lower(parentesco) != "principal"
  }

  /** The commands of `drawTreeNode(ctx, node, x, y, color)`: white box,
      coloured border, name, and the relationship in brackets when shown. */
  function NodeCommands(node: Node, x: int, y: int, color: Color): (r: seq<Command>)
    ensures |r| == if ShowsRelationship(node.parentesco) then 4 else 3
    ensures r[0] == FillRoundRect(x, y, NODE_WIDTH, NODE_HEIGHT, NODE_RADIUS, BACKGROUND_COLOR)
    ensures r[1] == StrokeRoundRect(x, y, NODE_WIDTH, NODE_HEIGHT, NODE_RADIUS, color, LINE_THICKNESS)
    ensures r[2] == FillText(DisplayName(node.nombre), x + NODE_WIDTH / 2, y + 22, AlignCenter, COLOR_TEXT)
    ensures ShowsRelationship(node.parentesco) ==>
              r[3] == FillText("(" + node.parentesco + ")", x + NODE_WIDTH / 2, y + 44, AlignCenter, color)
    ensures forall i :: 0 <= i < |r| ==> InBand(r[i], y, y + NODE_HEIGHT)
    ensures forall i :: 0 <= i < |r| && r[i].FillText? ==> x <= r[i].x <= x + NODE_WIDTH
  {
    var box := [
      FillRoundRect(x, y, NODE_WIDTH, NODE_HEIGHT, NODE_RADIUS, BACKGROUND_COLOR),
      StrokeRoundRect(x, y, NODE_WIDTH, NODE_HEIGHT, NODE_RADIUS, color, LINE_THICKNESS),
      FillText(DisplayName(node.nombre), x + NODE_WIDTH / 2, y + NODE_HEIGHT / 2 - 8, AlignCenter, COLOR_TEXT)
    ];
    if ShowsRelationship(node.parentesco) then
      box + [FillText("(" + node.parentesco + ")", x + NODE_WIDTH / 2, y + NODE_HEIGHT / 2 + 14, AlignCenter, color)]
    else
      box
  }

  /** `drawTreeNode`. */
  method DrawTreeNode(ctx: Canvas, node: Node, x: int, y: int, color: Color)
    modifies ctx
    ensures ctx.commands == old(ctx.commands) + NodeCommands(node, x, y, color)
  {
    ctx.Draw(FillRoundRect(x, y, NODE_WIDTH, NODE_HEIGHT, NODE_RADIUS, BACKGROUND_COLOR));
    ctx.Draw(StrokeRoundRect(x, y, NODE_WIDTH, NODE_HEIGHT, NODE_RADIUS, color, LINE_THICKNESS));
    ctx.Draw(FillText(DisplayName(node.nombre), x + NODE_WIDTH / 2, y + NODE_HEIGHT / 2 - 8, AlignCenter, COLOR_TEXT));
    if node.parentesco != "" && Lower(node.parentesco) != "principal" {
      ctx.Draw(FillText("(" + node.parentesco + ")", x + NODE_WIDTH / 2, y + NODE_HEIGHT / 2 + 14, AlignCenter, color));
    }
  }

  /** The principal's own box shows no relationship, whatever its letter case. */
  lemma PrincipalLabelHidden()
    ensures !ShowsRelationship("Principal")
    ensures !ShowsRelationship("principal")
    ensures !ShowsRelationship("PRINCIPAL")
    ensures ShowsRelationship("Hijo/Hija")
  {
    LowerPrincipal();
    LowerUnchanged("principal");
    assert Lower("Hijo/Hija")[0] == 'h';
  }

  /** Any spelling of "principal" that differs only in letter case hides the
      relationship. */
  lemma PrincipalAnyCaseHidden(parentesco: string)
    requires |parentesco| == |"principal"|
    requires forall i :: 0 <= i < |parentesco| ==> ToLowerChar(parentesco[i]) == "principal"[i]
    ensures !ShowsRelationship(parentesco)
  {
    assert Lower(parentesco) == "principal";
  }

  /** `nodeCenters[id]`: the box's centre and its top and bottom edges. */
  datatype Center = Center(centerX: int, centerY: int, topY: int, bottomY: int, color: Color)

  function CenterOf(x: int, y: int, color: Color): Center {
    Center(x + NODE_WIDTH / 2, y + NODE_HEIGHT / 2, y, y + NODE_HEIGHT, color)
  }

  /** `node.color || COLOR_TEXT`. */
  function ConnectorColor(color: Color): Color {
    if color == "" then COLOR_TEXT else color
  }

  /** The segment drawn for a node whose centre is `c`: from the top middle of
      its box up half a gap, to where the trunk between layers runs. */
  function Connector(c: Center, color: Color): Command {
    Segment(c.centerX, c.topY, c.centerX, c.topY - VERTICAL_SPACING / 2, ConnectorColor(color), 2)
  }

  /** The commands of `drawConnections(ctx, nodes, nodeCenters)`: one segment
      per node with a recorded centre, in order; nodes without one are skipped. */
  function ConnectorCommands(nodes: seq<Node>, centers: map<string, Center>): seq<Command> {
    if nodes == [] then []
    else
      var init, last := nodes[..|nodes| - 1], nodes[|nodes| - 1];
      ConnectorCommands(init, centers) +
        (if last.id in centers then [Connector(centers[last.id], last.color)] else [])
  }

  /** At most one segment per node, exactly one, from that node's own centre,
      when every node has a recorded centre; every segment is vertical and
      half a gap long. */
  lemma {:induction false} ConnectorsSpec(nodes: seq<Node>, centers: map<string, Center>)
    ensures |ConnectorCommands(nodes, centers)| <= |nodes|
    ensures (forall j :: 0 <= j < |nodes| ==> nodes[j].id in centers) ==>
              |ConnectorCommands(nodes, centers)| == |nodes| &&
              forall j :: 0 <= j < |nodes| ==>
                ConnectorCommands(nodes, centers)[j] == Connector(centers[nodes[j].id], nodes[j].color)
    ensures forall i :: 0 <= i < |ConnectorCommands(nodes, centers)| ==>
              var c := ConnectorCommands(nodes, centers)[i];
              c.Segment? && c.x1 == c.x2 && c.y2 == c.y1 - VERTICAL_SPACING / 2
  {
    if nodes != [] {
      var init, last := nodes[..|nodes| - 1], nodes[|nodes| - 1];
      ConnectorsSpec(init, centers);
      var a := ConnectorCommands(init, centers);
      var b := if last.id in centers then [Connector(centers[last.id], last.color)] else [];
      var r := ConnectorCommands(nodes, centers);
      assert r == a + b;
      assert forall j :: 0 <= j < |init| ==> init[j] == nodes[j];
      forall i | 0 <= i < |r|
        ensures r[i].Segment? && r[i].x1 == r[i].x2 && r[i].y2 == r[i].y1 - VERTICAL_SPACING / 2
      {
        if i < |a| { assert r[i] == a[i]; } else { assert r[i] == b[i - |a|]; }
      }
      if forall j :: 0 <= j < |nodes| ==> nodes[j].id in centers {
        forall j | 0 <= j < |nodes|
          ensures r[j] == Connector(centers[nodes[j].id], nodes[j].color)
        {
          if j < |init| { assert r[j] == a[j]; } else { assert r[j] == b[0]; }
        }
      }
    }
  }

  /** `drawConnections`. */
  method DrawConnections(ctx: Canvas, nodes: seq<Node>, centers: map<string, Center>)
    modifies ctx
    ensures ctx.commands == old(ctx.commands) + ConnectorCommands(nodes, centers)
  {
    for j := 0 to |nodes|
      invariant ctx.commands == old(ctx.commands) + ConnectorCommands(nodes[..j], centers)
    {
      var node := nodes[j];
      assert nodes[..j + 1][..j] == nodes[..j];
      if node.id in centers {
        var c := centers[node.id];
        ctx.Draw(Segment(c.centerX, c.topY, c.centerX, c.topY - VERTICAL_SPACING / 2, ConnectorColor(node.color), 2));
      }
    }
    assert nodes[..|nodes|] == nodes;
  }
}
