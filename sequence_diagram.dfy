/** The layout projection of front/src/components/diagram/SequenceDiagram.tsx:
    from a diagram to positioned actor and trigger nodes and one message edge
    per drawable step. The projection is first given as functions (the
    specification) and then computed by `ComputeLayout`, which follows the
    source's loops: a running `stepIndex`, arrays grown by `push`, and a map
    from actor id to column filled by `set`. */
module SequenceDiagram {
  import opened Wrappers
  import opened DiagramTypes
  import opened JsText
  import opened JsArray

  const ActorWidth := 150
  const ActorGap := 50
  const ColumnSpacing := ActorWidth + ActorGap
  const StepHeight := 60
  const StartY := 100
  const MinLifeline := 500
  const LifelineMargin := 200
  const TriggerShiftX := 120
  const TriggerShiftY := 40
  /** Stroke widths, in tenths of a pixel (2 and 1.5). */
  const SubscribeStrokeWidth := 20
  const PlainStrokeWidth := 15
  const SubscribeDash := "4 4"

  const Blue := "#3b82f6"
  const Purple := "#a855f7"
  const Green := "#22c55e"
  const Teal := "#14b8a6"
  const Orange := "#f97316"
  const Slate := "#64748b"
  const MiniMapFallback := "#888"

  /** `getColor`: the colour of an actor kind, refined by scope for stores. */
  function GetColor(t: ActorType, scope: Option<StateScope>): (c: string)
    ensures c in {Blue, Purple, Green, Teal, Orange, Slate}
  {
    if t == Component then Blue
    else if t == Service then Purple
    else if t == Store then
      if scope == Some(Global) then Green
      else if scope == Some(Subtree) then Teal
      else Orange
    else Slate
  }

  /** The scope a store is coloured by: a missing scope counts as local. */
  function StoreScope(scope: Option<StateScope>): StateScope
  {
    if scope.Some? then scope.value else Local
  }

  /** The MiniMap's `nodeColor`: a lookup keyed by the node's `actorType`
      string, "component" when the node has none, "#888" for an unknown key. */
  function MiniMapColor(actorType: Option<string>): string
  {
    var key := if actorType.Some? then actorType.value else "component";
    if key == "component" then Blue
    else if key == "store" then Green
    else if key == "service" then Purple
    else if key == "external" then Orange
    else MiniMapFallback
  }

  // ---------------------------------------------------------------------
  // Output of the projection

  datatype Position = Position(x: int, y: int)

  /** What an actor node carries for the ActorNode renderer. */
  datatype ActorNodeData = ActorNodeData(
    labelText: string,
    actorType: ActorType,
    scope: Option<StateScope>,
    color: Option<string>,
    lifelineHeight: int)

  /** An actor node (type "actor", draggable) or a trigger marker (type
      "input", not draggable, always with the same amber box style). */
  datatype Node =
    | ActorNode(id: string, position: Position, data: ActorNodeData)
    | TriggerNode(id: string, position: Position, labelText: string)

  /** What a message edge carries for the MessageEdge renderer. */
  datatype EdgeData = EdgeData(
    labelText: string,
    targetAction: Option<string>,
    stepType: StepType,
    targetType: ActorType,
    targetScope: StateScope,
    stateName: Option<string>,
    yPosition: int,
    sourceX: int,
    targetX: int)

  datatype EdgeStyle = EdgeStyle(stroke: string, strokeWidth: int, strokeDasharray: Option<string>)

  /** A message edge (type "message"). */
  datatype Edge = Edge(
    id: string,
    source: string,
    target: string,
    data: EdgeData,
    style: EdgeStyle,
    animated: bool)

  datatype Layout = Layout(nodes: seq<Node>, edges: seq<Edge>)

  /** The `actorType` a node's data holds, as the MiniMap reads it. */
  function NodeActorType(n: Node): Option<string>
  {
    match n
    case ActorNode(_, _, data) => Some(ActorTypeName(data.actorType))
    case TriggerNode(_, _, _) => None
  }

  // ---------------------------------------------------------------------
  // The projection as functions

  /** Number of steps of all flows, drawable or not (the `reduce`). */
  function TotalSteps(flows: seq<Flow>): nat
  {
    if flows == [] then 0 else |flows[0].steps| + TotalSteps(flows[1..])
  }

  /** `Math.max(500, totalSteps * 60 + 200)`. */
  function LifelineHeight(flows: seq<Flow>): (h: int)
    ensures h >= MinLifeline && h >= TotalSteps(flows) * StepHeight + LifelineMargin
    ensures h == MinLifeline || h == TotalSteps(flows) * StepHeight + LifelineMargin
  {
    var wanted := TotalSteps(flows) * StepHeight + LifelineMargin;
    if wanted > MinLifeline then wanted else MinLifeline
  }

  /** One actor node per actor, column i at x = 200 i. */
  function ActorNodes(actors: seq<Actor>, lifeline: int): seq<Node>
  {
    seq(|actors|, i requires 0 <= i < |actors| =>
      ActorNode(actors[i].id, Position(i * ColumnSpacing, 0),
        ActorNodeData(actors[i].name, actors[i].actorType, actors[i].scope, actors[i].color, lifeline)))
  }

  /** The `actorPositions` map after setting each actor's column in list
      order: an id that occurs twice keeps its last column. */
  function ActorPositions(actors: seq<Actor>): map<string, int>
    decreases |actors|
  {
    if actors == [] then map[]
    else ActorPositions(actors[..|actors| - 1])[actors[|actors| - 1].id := (|actors| - 1) * ColumnSpacing]
  }

  /** `actorPositions.get(id) ?? 0`. */
  function PositionOf(positions: map<string, int>, id: string): int
  {
    if id in positions then positions[id] else 0
  }

  /** A step is drawn only when both `from` and `to` are non-empty. */
  predicate Renderable(step: FlowStep)
  {
    Truthy(step.from) && Truthy(step.to)
  }

  /** Vertical position of a row of the cursor. */
  function RowY(row: int): int
  {
    StartY + row * StepHeight
  }

  /** Name of the state a step refers to, when the reference is non-empty and
      some state has that id. */
  function StateNameOf(states: seq<State>, ref: Option<string>): Option<string>
  {
    if Truthy(ref) then
      var id := ref.value;
      var found := Find(states, (s: State) => s.id == id);
      if found.Some? then Some(found.value.name) else None
    else None
  }

  /** The edge label: "Notify: <state>" for a subscribe step whose state name
      is non-empty, "dispatch" for a dispatch step, otherwise the first
      non-empty of action and description, else the step type. */
  function EdgeLabel(step: FlowStep, stateName: Option<string>): string
  {
    if step.stepType == Subscribe && Truthy(stateName) then "Notify: " + stateName.value
    else if step.stepType == Dispatch then "dispatch"
    else if Truthy(step.action) then step.action.value
    else if Truthy(step.description) then step.description.value
    else StepTypeName(step.stepType)
  }

  /** The edge a drawable step produces at a given row. */
  function StepEdge(d: Diagram, positions: map<string, int>, flowId: string, step: FlowStep, row: int): Edge
    requires Renderable(step)
  {
    var fromId := step.from.value;
    var toId := step.to.value;
    var target := Find(d.actors, (a: Actor) => a.id == toId);
    var targetType := if target.Some? then target.value.actorType else Component;
    var targetScope := if target.Some? && target.value.scope.Some? then target.value.scope.value else Local;
    var stateName := StateNameOf(d.states, step.state);
    var isDispatch := step.stepType == Dispatch;
    var isSubscribe := step.stepType == Subscribe;
    var color := if isDispatch then Slate else GetColor(targetType, Some(targetScope));
    Edge(
      flowId + "-" + step.id,
      fromId,
      toId,
      EdgeData(
        labelText := EdgeLabel(step, stateName),
        targetAction := if isSubscribe || isDispatch then step.action else None,
        stepType := step.stepType,
        targetType := if isDispatch then External else targetType,
        targetScope := if isDispatch then Local else targetScope,
        stateName := stateName,
        yPosition := RowY(row),
        sourceX := PositionOf(positions, fromId),
        targetX := PositionOf(positions, toId)),
      EdgeStyle(
        color,
        if isSubscribe then SubscribeStrokeWidth else PlainStrokeWidth,
        if isSubscribe then Some(SubscribeDash) else None),
      isSubscribe)
  }

  /** Number of drawable steps. */
  function RenderedCount(steps: seq<FlowStep>): nat
  {
    if steps == [] then 0
    else (if Renderable(steps[0]) then 1 else 0) + RenderedCount(steps[1..])
  }

  /** The edges of one flow's steps, the first drawable one at `row`. */
  function FlowEdges(d: Diagram, positions: map<string, int>, flowId: string, steps: seq<FlowStep>, row: int): seq<Edge>
  {
    if steps == [] then []
    else if Renderable(steps[0]) then
      [StepEdge(d, positions, flowId, steps[0], row)] + FlowEdges(d, positions, flowId, steps[1..], row + 1)
    else FlowEdges(d, positions, flowId, steps[1..], row)
  }

  /** The trigger marker's text. */
  function TriggerLabel(t: FlowTrigger): string
  {
    "Trigger: " + t.action + " " + (if Truthy(t.target) then "(" + t.target.value + ")" else "")
  }

  /** The trigger marker of a flow that starts at `row`: only when the
      trigger actor is non-empty and has a column. */
  function TriggerNodeOf(positions: map<string, int>, flow: Flow, row: int): Option<Node>
  {
    var actor := flow.trigger.actor;
    if actor != "" && actor in positions then
      Some(TriggerNode("trigger-" + flow.id,
                       Position(positions[actor] - TriggerShiftX, RowY(row) - TriggerShiftY),
                       TriggerLabel(flow.trigger)))
    else None
  }

  /** The row after a flow's steps and its one-row gap. */
  function NextFlowRow(flow: Flow, row: int): int
  {
    row + RenderedCount(flow.steps) + 1
  }

  /** The edges of a list of flows, the first flow starting at `row`. */
  function FlowsEdges(d: Diagram, positions: map<string, int>, flows: seq<Flow>, row: int): seq<Edge>
  {
    if flows == [] then []
    else FlowEdges(d, positions, flows[0].id, flows[0].steps, row)
         + FlowsEdges(d, positions, flows[1..], NextFlowRow(flows[0], row))
  }

  /** The flow's trigger marker, as a list of zero or one nodes. */
  function FlowMarker(positions: map<string, int>, flow: Flow, row: int): seq<Node>
  {
    match TriggerNodeOf(positions, flow, row) case Some(n) => [n] case None => []
  }

  /** The trigger markers of a list of flows, the first flow starting at `row`. */
  function FlowsTriggers(positions: map<string, int>, flows: seq<Flow>, row: int): seq<Node>
  {
    if flows == [] then []
    else FlowMarker(positions, flows[0], row) + FlowsTriggers(positions, flows[1..], NextFlowRow(flows[0], row))
  }

  /** The row the cursor reaches after a list of flows. */
  function FlowsEnd(flows: seq<Flow>, row: int): int
  {
    if flows == [] then row else FlowsEnd(flows[1..], NextFlowRow(flows[0], row))
  }

  /** The whole projection: nothing for no diagram; otherwise the actor nodes,
      then the trigger markers in flow order, and the edges in emission order. */
  function LayoutOf(diagram: Option<Diagram>): Layout
  {
    match diagram
    case None => Layout([], [])
    case Some(d) =>
      var positions := ActorPositions(d.actors);
      Layout(ActorNodes(d.actors, LifelineHeight(d.flows)) + FlowsTriggers(positions, d.flows, 0),
             FlowsEdges(d, positions, d.flows, 0))
  }

  // ---------------------------------------------------------------------
  // The projection as the source computes it

  /** `diagram.actors.forEach((actor, index) => actorPositions.set(...))`. */
  method BuildActorPositions(actors: seq<Actor>) returns (positions: map<string, int>)
    ensures positions == ActorPositions(actors)
  {
    positions := map[];
    var i := 0;
    while i < |actors|
      invariant 0 <= i <= |actors|
      invariant positions == ActorPositions(actors[..i])
    {
      assert actors[..i + 1][..i] == actors[..i];
      positions := positions[actors[i].id := i * ColumnSpacing];
      i := i + 1;
    }
    assert actors[..|actors|] == actors;
  }

  /** The inner `flow.steps.forEach`: push one edge per drawable step and
      advance the cursor for it; a step without `from` or `to` is passed over. */
  method EmitFlowSteps(d: Diagram, positions: map<string, int>, flow: Flow, edges0: seq<Edge>, start: int)
    returns (edges: seq<Edge>, stepIndex: int)
    ensures edges == edges0 + FlowEdges(d, positions, flow.id, flow.steps, start)
    ensures stepIndex == start + RenderedCount(flow.steps)
  {
    edges, stepIndex := edges0, start;
    var s := 0;
    while s < |flow.steps|
      invariant 0 <= s <= |flow.steps|
      invariant edges + FlowEdges(d, positions, flow.id, flow.steps[s..], stepIndex)
                == edges0 + FlowEdges(d, positions, flow.id, flow.steps, start)
      invariant stepIndex + RenderedCount(flow.steps[s..]) == start + RenderedCount(flow.steps)
    {
      var step := flow.steps[s];
      assert flow.steps[s..][1..] == flow.steps[s + 1..];
      if Truthy(step.from) && Truthy(step.to) {
        edges := edges + [StepEdge(d, positions, flow.id, step, stepIndex)];
        stepIndex := stepIndex + 1;
      }
      s := s + 1;
    }
  }

  /** The trigger part of the flow loop: push a marker when the trigger actor
      has a column. */
  method EmitTrigger(positions: map<string, int>, flow: Flow, triggers0: seq<Node>, stepIndex: int)
    returns (triggerNodes: seq<Node>)
    ensures triggerNodes == triggers0 + FlowMarker(positions, flow, stepIndex)
  {
    triggerNodes := triggers0;
    if flow.trigger.actor != "" && flow.trigger.actor in positions {
      var actorX := positions[flow.trigger.actor];
      var triggerY := StartY + stepIndex * StepHeight - TriggerShiftY;
      triggerNodes := triggerNodes + [TriggerNode("trigger-" + flow.id,
                                                  Position(actorX - TriggerShiftX, triggerY),
                                                  TriggerLabel(flow.trigger))];
    }
  }

  /** One flow off the front of a list of flows. */
  lemma FlowsUnfold(d: Diagram, positions: map<string, int>, flows: seq<Flow>, row: int)
    requires flows != []
    ensures FlowsEdges(d, positions, flows, row)
            == FlowEdges(d, positions, flows[0].id, flows[0].steps, row)
               + FlowsEdges(d, positions, flows[1..], NextFlowRow(flows[0], row))
    ensures FlowsTriggers(positions, flows, row)
            == FlowMarker(positions, flows[0], row) + FlowsTriggers(positions, flows[1..], NextFlowRow(flows[0], row))
  {
  }

  /** The outer `diagram.flows.forEach`: each flow's trigger marker, then its
      step edges, then the one-row gap before the next flow. */
  method EmitFlows(d: Diagram, positions: map<string, int>) returns (triggerNodes: seq<Node>, edges: seq<Edge>)
    ensures triggerNodes == FlowsTriggers(positions, d.flows, 0)
    ensures edges == FlowsEdges(d, positions, d.flows, 0)
  {
    edges := [];
    triggerNodes := [];
    var stepIndex := 0;
    var f := 0;
    while f < |d.flows|
      invariant 0 <= f <= |d.flows|
      invariant edges + FlowsEdges(d, positions, d.flows[f..], stepIndex) == FlowsEdges(d, positions, d.flows, 0)
      invariant triggerNodes + FlowsTriggers(positions, d.flows[f..], stepIndex) == FlowsTriggers(positions, d.flows, 0)
    {
      var flow := d.flows[f];
      ghost var flowStart := stepIndex;
      ghost var edgesBefore := edges;
      ghost var triggersBefore := triggerNodes;
      FlowsUnfold(d, positions, d.flows[f..], flowStart);
      assert d.flows[f..][0] == flow && d.flows[f..][1..] == d.flows[f + 1..];

      triggerNodes := EmitTrigger(positions, flow, triggerNodes, stepIndex);
      edges, stepIndex := EmitFlowSteps(d, positions, flow, edges, stepIndex);
      stepIndex := stepIndex + 1;

      ghost var ownEdges := FlowEdges(d, positions, flow.id, flow.steps, flowStart);
      ghost var restEdges := FlowsEdges(d, positions, d.flows[f + 1..], stepIndex);
      ConcatAssoc(edgesBefore, ownEdges, restEdges);
      ghost var ownMarker := FlowMarker(positions, flow, flowStart);
      ghost var restMarkers := FlowsTriggers(positions, d.flows[f + 1..], stepIndex);
      ConcatAssoc(triggersBefore, ownMarker, restMarkers);
      f := f + 1;
    }
    assert d.flows[|d.flows|..] == [];
  }

  /** The body of the `useMemo`: nodes and edges of the current diagram. */
  method ComputeLayout(diagram: Option<Diagram>) returns (nodes: seq<Node>, edges: seq<Edge>)
    ensures Layout(nodes, edges) == LayoutOf(diagram)
  {
    if diagram.None? {
      return [], [];
    }
    var d := diagram.value;
    var lifelineHeight := LifelineHeight(d.flows);
    var actorNodes := ActorNodes(d.actors, lifelineHeight);
    var positions := BuildActorPositions(d.actors);
    var triggerNodes;
    triggerNodes, edges := EmitFlows(d, positions);
    nodes := actorNodes + triggerNodes;
  }
}
