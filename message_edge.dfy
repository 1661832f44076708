/** The message edge renderer of MessageEdge.tsx: the badge colour by scope,
    the glyph by step type, each with its default, and the endpoints handed
    to the straight-path geometry, 80 below the actor handles. */
module MessageEdge {
  import opened Wrappers
  import opened DiagramTypes
  import opened SequenceDiagram

  /** Distance below the handle at which a message line starts and ends. */
  const EndpointDrop := 80

  const GrayBadge := "bg-gray-500"
  const BlueBadge := "bg-blue-500"
  const GreenBadge := "bg-green-500"

  /** The glyph of an unknown step type. */
  const DefaultGlyph := "→"

  /** The badge class of each scope. */
  function ScopeBadge(scope: StateScope): string
  {
    match scope
    case Local => GrayBadge
    case Subtree => BlueBadge
    case Global => GreenBadge
  }

  /** The glyph table, keyed by step type name, falling back to the arrow. */
  function GlyphFor(stepType: string): string
  {
    if stepType == "dispatch" then "→"
    else if stepType == "stateChange" then "⟳"
    else if stepType == "subscribe" then "◎"
    else if stepType == "effect" then "⚡"
    else if stepType == "render" then "🔄"
    else DefaultGlyph
  }

  /** The glyph of a step type. */
  function StepGlyph(t: StepType): string
  {
    match t
    case Dispatch => "→"
    case StateChange => "⟳"
    case Subscribe => "◎"
    case Effect => "⚡"
    case Render => "🔄"
  }

  /** The data a message edge reads; every field may be missing. */
  datatype MessageEdgeData = MessageEdgeData(labelText: Option<string>, stepType: Option<string>,
                                             scope: Option<StateScope>, yPosition: Option<int>)

  /** The endpoints handed to the straight-path geometry. */
  datatype StraightPath = StraightPath(sourceX: int, sourceY: int, targetX: int, targetY: int)

  /** What one message edge draws: its line, the badge class, the glyph and the text. */
  datatype EdgeView = EdgeView(path: StraightPath, badge: string, glyph: string, text: string)

  /** Renders one edge from the handle coordinates and its (possibly missing) data. */
  function RenderEdge(sourceX: int, sourceY: int, targetX: int, targetY: int, data: Option<MessageEdgeData>): EdgeView
  {
    var scope := if data.Some? && data.value.scope.Some? then data.value.scope.value else Local;
    var text := if data.Some? && data.value.labelText.Some? then data.value.labelText.value else "";
    var stepType := if data.Some? && data.value.stepType.Some? then data.value.stepType.value else "dispatch";
    EdgeView(StraightPath(sourceX, sourceY + EndpointDrop, targetX, targetY + EndpointDrop),
             ScopeBadge(scope), GlyphFor(stepType), text)
  }

  /** The data the layout hands to a message edge: label, step type and row,
      but `targetScope` under another key, so no `scope`. */
  function DataOfLayoutEdge(e: Edge): MessageEdgeData
  {
    MessageEdgeData(Some(e.data.labelText), Some(StepTypeName(e.data.stepType)), None, Some(e.data.yPosition))
  }

  /** The glyph table: each step type's name looks up its own glyph, and any
      other key (the empty one included) gets the arrow. */
  lemma GlyphTable(key: string)
    ensures forall t: StepType :: GlyphFor(StepTypeName(t)) == StepGlyph(t)
    ensures (forall t: StepType :: key != StepTypeName(t)) ==> GlyphFor(key) == DefaultGlyph
    ensures GlyphFor(key) != DefaultGlyph ==> exists t: StepType :: key == StepTypeName(t) && t != Dispatch
  {
    if GlyphFor(key) != DefaultGlyph {
      if key == "stateChange" { assert key == StepTypeName(StateChange); }
      else if key == "subscribe" { assert key == StepTypeName(Subscribe); }
      else if key == "effect" { assert key == StepTypeName(Effect); }
      else { assert key == StepTypeName(Render); }
    }
  }

  /** The badge classes of the three scopes are distinct. */
  lemma BadgesDistinct(s1: StateScope, s2: StateScope)
    ensures ScopeBadge(s1) == ScopeBadge(s2) <==> s1 == s2
  {
    assert GrayBadge[3] != BlueBadge[3] && GrayBadge[5] != GreenBadge[5] && BlueBadge[3] != GreenBadge[3];
  }

  /** Rendering: both endpoints keep their x and drop by 80; a missing scope
      reads as local, a missing label as "", a missing step type as dispatch;
      the row in the data is not read. */
  lemma RenderEdgeDefaults(sourceX: int, sourceY: int, targetX: int, targetY: int, data: Option<MessageEdgeData>,
                           row: Option<int>)
    ensures var v := RenderEdge(sourceX, sourceY, targetX, targetY, data);
      && v.path == StraightPath(sourceX, sourceY + 80, targetX, targetY + 80)
      && ((data.None? || data.value.scope.None?) ==> v.badge == GrayBadge)
      && (data.Some? && data.value.scope.Some? ==> v.badge == ScopeBadge(data.value.scope.value))
      && ((data.None? || data.value.labelText.None?) ==> v.text == "")
      && (data.Some? && data.value.labelText.Some? ==> v.text == data.value.labelText.value)
      && ((data.None? || data.value.stepType.None?) ==> v.glyph == StepGlyph(Dispatch))
      && (data.Some? && data.value.stepType.Some? ==> v.glyph == GlyphFor(data.value.stepType.value))
    ensures data.Some? ==>
      RenderEdge(sourceX, sourceY, targetX, targetY, Some(data.value.(yPosition := row)))
      == RenderEdge(sourceX, sourceY, targetX, targetY, data)
  {
  }

  /** For the edges the layout emits, the badge is always the local one
      whatever the target's scope, the glyph is the step type's and the text
      is the layout's label; the edge's row is not drawn. */
  lemma LayoutEdgeBadge(d: Diagram, k: nat, sourceX: int, sourceY: int, targetX: int, targetY: int)
    requires k < |LayoutOf(Some(d)).edges|
    ensures var e := LayoutOf(Some(d)).edges[k];
            var v := RenderEdge(sourceX, sourceY, targetX, targetY, Some(DataOfLayoutEdge(e)));
      && v.badge == ScopeBadge(Local)
      && v.glyph == StepGlyph(e.data.stepType)
      && v.text == e.data.labelText
  {
    GlyphTable("");
  }
}
