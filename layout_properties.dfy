/** What the layout projection of SequenceDiagram.tsx guarantees, proved
    about the specification functions of module SequenceDiagram (which
    `ComputeLayout` is proved to compute). */
module LayoutProperties {
  import opened Wrappers
  import opened DiagramTypes
  import opened JsText
  import opened JsArray
  import opened SequenceDiagram

  // ---------------------------------------------------------------------
  // Colours

  /** `getColor` gives the six colours to six kinds: two actors share a
      colour exactly when they have the same type and, for stores, the same
      scope (a missing scope counting as local). */
  lemma ColorLegendIsUnambiguous(t1: ActorType, s1: Option<StateScope>, t2: ActorType, s2: Option<StateScope>)
    ensures GetColor(t1, s1) == GetColor(t2, s2)
            <==> t1 == t2 && (t1 == Store ==> StoreScope(s1) == StoreScope(s2))
  {
    assert Blue[1] != Purple[1] && Blue[1] != Green[1] && Blue[1] != Teal[1] && Blue[1] != Orange[1] && Blue[1] != Slate[1];
    assert Purple[1] != Green[1] && Purple[1] != Teal[1] && Purple[1] != Orange[1] && Purple[1] != Slate[1];
    assert Green[1] != Teal[1] && Green[1] != Orange[1] && Green[1] != Slate[1];
    assert Teal[1] != Orange[1] && Teal[1] != Slate[1] && Orange[1] != Slate[1];
  }

  /** The MiniMap colours a node by its actor type alone: trigger markers
      look like components, and no node of any layout reaches the "#888"
      fallback. It agrees with `getColor` for components, services and global
      stores, and differs from it for external actors. */
  lemma MiniMapColors(n: Node, scope: Option<StateScope>)
    ensures n.TriggerNode? ==> MiniMapColor(NodeActorType(n)) == Blue
    ensures MiniMapColor(NodeActorType(n)) in {Blue, Green, Purple, Orange}
    ensures n.ActorNode? && n.data.actorType != External && (n.data.actorType == Store ==> scope == Some(Global))
            ==> MiniMapColor(NodeActorType(n)) == GetColor(n.data.actorType, scope)
    ensures n.ActorNode? && n.data.actorType == External
            ==> MiniMapColor(NodeActorType(n)) != GetColor(External, scope)
  {
    assert Orange[1] != Slate[1];
  }

  // ---------------------------------------------------------------------
  // Columns

  /** Every actor id has a column; every column belongs to an actor id; and an
      actor whose id does not occur later in the list has column 200 i. */
  lemma {:induction false} ActorPositionsSpec(actors: seq<Actor>)
    ensures forall i :: 0 <= i < |actors| ==> actors[i].id in ActorPositions(actors)
    ensures forall id :: id in ActorPositions(actors) ==> exists i :: 0 <= i < |actors| && actors[i].id == id
    ensures forall i :: 0 <= i < |actors| && (forall j :: i < j < |actors| ==> actors[j].id != actors[i].id)
                        ==> ActorPositions(actors)[actors[i].id] == i * ColumnSpacing
  {
    if actors != [] {
      var n := |actors| - 1;
      var pre := actors[..n];
      ActorPositionsSpec(pre);
      assert forall i :: 0 <= i < n ==> pre[i] == actors[i];
    }
  }

  /** The trigger markers only ever hold trigger nodes. */
  lemma {:induction false} TriggersAreMarkers(positions: map<string, int>, flows: seq<Flow>, row: int)
    ensures forall k :: 0 <= k < |FlowsTriggers(positions, flows, row)| ==> FlowsTriggers(positions, flows, row)[k].TriggerNode?
    decreases |flows|
  {
    if flows != [] {
      TriggersAreMarkers(positions, flows[1..], NextFlowRow(flows[0], row));
    }
  }

  /** Nodes: first one actor node per actor, at (200 i, 0), in list order,
      with x strictly increasing by 200, every one carrying the same lifeline
      height; then only trigger markers. When actor ids are unique, the
      column map agrees with the actor nodes' x. */
  lemma ActorColumns(d: Diagram)
    ensures |LayoutOf(Some(d)).nodes| >= |d.actors|
    ensures forall i :: 0 <= i < |d.actors| ==>
      LayoutOf(Some(d)).nodes[i] == ActorNode(d.actors[i].id, Position(i * ColumnSpacing, 0),
        ActorNodeData(d.actors[i].name, d.actors[i].actorType, d.actors[i].scope, d.actors[i].color, LifelineHeight(d.flows)))
    ensures forall i, j :: 0 <= i < j < |d.actors| ==>
      LayoutOf(Some(d)).nodes[i].position.x < LayoutOf(Some(d)).nodes[j].position.x
    ensures forall i :: 0 <= i < |d.actors| - 1 ==>
      LayoutOf(Some(d)).nodes[i + 1].position.x - LayoutOf(Some(d)).nodes[i].position.x == ColumnSpacing
    ensures forall k :: |d.actors| <= k < |LayoutOf(Some(d)).nodes| ==> LayoutOf(Some(d)).nodes[k].TriggerNode?
    ensures UniqueActorIds(d.actors) ==> forall i :: 0 <= i < |d.actors| ==>
      d.actors[i].id in ActorPositions(d.actors) && ActorPositions(d.actors)[d.actors[i].id] == LayoutOf(Some(d)).nodes[i].position.x
  {
    var positions := ActorPositions(d.actors);
    var markers := FlowsTriggers(positions, d.flows, 0);
    TriggersAreMarkers(positions, d.flows, 0);
    ActorPositionsSpec(d.actors);
    var nodes := LayoutOf(Some(d)).nodes;
    assert nodes == ActorNodes(d.actors, LifelineHeight(d.flows)) + markers;
    forall k | |d.actors| <= k < |nodes| ensures nodes[k].TriggerNode? {
      assert nodes[k] == markers[k - |d.actors|];
    }
  }

  /** No diagram, no output. */
  lemma NoDiagramNoOutput()
    ensures LayoutOf(None) == Layout([], [])
  {
  }

  // ---------------------------------------------------------------------
  // Row cursor

  /** Drawable steps of all flows. */
  function RenderedTotal(flows: seq<Flow>): nat
  {
    if flows == [] then 0 else RenderedCount(flows[0].steps) + RenderedTotal(flows[1..])
  }

  /** The drawable steps are exactly those `Filter(_, Renderable)` keeps. */
  lemma {:induction false} RenderedCountIsFilter(steps: seq<FlowStep>)
    ensures RenderedCount(steps) == |Filter(steps, Renderable)| <= |steps|
  {
    if steps != [] {
      RenderedCountIsFilter(steps[1..]);
    }
  }

  /** Edges built, in order, from drawable steps at consecutive rows from `row`. */
  predicate EdgesFromSteps(d: Diagram, positions: map<string, int>, flowId: string,
                           edges: seq<Edge>, kept: seq<FlowStep>, row: int)
  {
    && |edges| == |kept|
    && forall k :: 0 <= k < |edges| ==>
         Renderable(kept[k]) && edges[k] == StepEdge(d, positions, flowId, kept[k], row + k)
  }

  /** One more drawable step in front, one row earlier. */
  lemma EdgesFromStepsCons(d: Diagram, positions: map<string, int>, flowId: string,
                           edges: seq<Edge>, kept: seq<FlowStep>, step: FlowStep, row: int)
    requires Renderable(step) && EdgesFromSteps(d, positions, flowId, edges, kept, row + 1)
    ensures EdgesFromSteps(d, positions, flowId, [StepEdge(d, positions, flowId, step, row)] + edges, [step] + kept, row)
  {
    var all := [StepEdge(d, positions, flowId, step, row)] + edges;
    var steps := [step] + kept;
    forall k | 0 < k < |all|
      ensures Renderable(steps[k]) && all[k] == StepEdge(d, positions, flowId, steps[k], row + k)
    {
      assert all[k] == edges[k - 1] && steps[k] == kept[k - 1];
    }
  }

  /** Within a flow, the k-th edge is built from the k-th drawable step at row
      `row + k`: steps without `from` or `to` give no edge and do not move the
      cursor, and each edge moves it by one. */
  lemma {:induction false} FlowEdgesAreDrawableSteps(d: Diagram, positions: map<string, int>, flowId: string,
                                                     steps: seq<FlowStep>, row: int)
    ensures |FlowEdges(d, positions, flowId, steps, row)| == |Filter(steps, Renderable)| == RenderedCount(steps)
    ensures forall k :: 0 <= k < |FlowEdges(d, positions, flowId, steps, row)| ==>
      Renderable(Filter(steps, Renderable)[k])
      && FlowEdges(d, positions, flowId, steps, row)[k]
         == StepEdge(d, positions, flowId, Filter(steps, Renderable)[k], row + k)
  {
    FlowEdgesMatchSteps(d, positions, flowId, steps, row);
    RenderedCountIsFilter(steps);
  }

  lemma {:induction false} FlowEdgesMatchSteps(d: Diagram, positions: map<string, int>, flowId: string,
                                               steps: seq<FlowStep>, row: int)
    ensures EdgesFromSteps(d, positions, flowId, FlowEdges(d, positions, flowId, steps, row), Filter(steps, Renderable), row)
  {
    if steps != [] {
      if Renderable(steps[0]) {
        FlowEdgesMatchSteps(d, positions, flowId, steps[1..], row + 1);
        EdgesFromStepsCons(d, positions, flowId, FlowEdges(d, positions, flowId, steps[1..], row + 1),
                           Filter(steps[1..], Renderable), steps[0], row);
      } else {
        FlowEdgesMatchSteps(d, positions, flowId, steps[1..], row);
      }
    }
  }

  /** An edge's id is `flowId-stepId` and its row is the cursor it was
      built at. */
  lemma StepEdgeRow(d: Diagram, positions: map<string, int>, flowId: string, step: FlowStep, row: int)
    requires Renderable(step)
    ensures StepEdge(d, positions, flowId, step, row).id == flowId + "-" + step.id
    ensures StepEdge(d, positions, flowId, step, row).data.yPosition == RowY(row)
  {
  }

  /** Within a flow the k-th edge sits at row `row + k`, under the id of the
      k-th drawable step. */
  lemma FlowEdgesRows(d: Diagram, positions: map<string, int>, flowId: string, steps: seq<FlowStep>, row: int)
    ensures |FlowEdges(d, positions, flowId, steps, row)| == |Filter(steps, Renderable)|
    ensures forall k :: 0 <= k < |FlowEdges(d, positions, flowId, steps, row)| ==>
      FlowEdges(d, positions, flowId, steps, row)[k].data.yPosition == RowY(row + k)
      && FlowEdges(d, positions, flowId, steps, row)[k].id == flowId + "-" + Filter(steps, Renderable)[k].id
  {
    FlowEdgesAreDrawableSteps(d, positions, flowId, steps, row);
    var all := FlowEdges(d, positions, flowId, steps, row);
    var kept := Filter(steps, Renderable);
    forall k | 0 <= k < |all|
      ensures all[k].data.yPosition == RowY(row + k) && all[k].id == flowId + "-" + kept[k].id
    {
      StepEdgeRow(d, positions, flowId, kept[k], row + k);
    }
  }

  /** The cursor after a list of flows has moved once per drawable step and
      once more per flow. */
  lemma {:induction false} FlowsEndFormula(flows: seq<Flow>, row: int)
    ensures FlowsEnd(flows, row) == row + RenderedTotal(flows) + |flows|
  {
    if flows != [] {
      FlowsEndFormula(flows[1..], NextFlowRow(flows[0], row));
    }
  }

  /** The flows' edges are one per drawable step. */
  lemma {:induction false} FlowsEdgesCount(d: Diagram, positions: map<string, int>, flows: seq<Flow>, row: int)
    ensures |FlowsEdges(d, positions, flows, row)| == RenderedTotal(flows) <= TotalSteps(flows)
  {
    if flows != [] {
      FlowEdgesAreDrawableSteps(d, positions, flows[0].id, flows[0].steps, row);
      RenderedCountIsFilter(flows[0].steps);
      FlowsEdgesCount(d, positions, flows[1..], NextFlowRow(flows[0], row));
    }
  }

  /** Edges whose rows strictly increase and lie in [RowY(lo), RowY(hi)). */
  predicate RowsAscendWithin(edges: seq<Edge>, lo: int, hi: int)
  {
    && (forall k :: 0 <= k < |edges| ==> RowY(lo) <= edges[k].data.yPosition < RowY(hi))
    && (forall i, j :: 0 <= i < j < |edges| ==> edges[i].data.yPosition < edges[j].data.yPosition)
  }

  lemma RowsAscendConcat(a: seq<Edge>, b: seq<Edge>, lo: int, mid: int, hi: int)
    requires lo <= mid <= hi
    requires RowsAscendWithin(a, lo, mid) && RowsAscendWithin(b, mid, hi)
    ensures RowsAscendWithin(a + b, lo, hi)
  {
    var ab := a + b;
    forall k | 0 <= k < |ab| ensures RowY(lo) <= ab[k].data.yPosition < RowY(hi) {
      if k < |a| { assert ab[k] == a[k]; } else { assert ab[k] == b[k - |a|]; }
    }
    forall i, j | 0 <= i < j < |ab| ensures ab[i].data.yPosition < ab[j].data.yPosition {
      if j < |a| {
        assert ab[i] == a[i] && ab[j] == a[j];
      } else if i < |a| {
        assert ab[i] == a[i] && ab[j] == b[j - |a|];
      } else {
        assert ab[i] == b[i - |a|] && ab[j] == b[j - |a|];
      }
    }
  }

  /** Edge rows strictly increase in emission order, and lie between the
      starting row and the row the cursor ends at. */
  lemma {:induction false} FlowsEdgesRows(d: Diagram, positions: map<string, int>, flows: seq<Flow>, row: int)
    ensures FlowsEnd(flows, row) >= row
    ensures RowsAscendWithin(FlowsEdges(d, positions, flows, row), row, FlowsEnd(flows, row))
  {
    if flows != [] {
      var next := NextFlowRow(flows[0], row);
      var first := FlowEdges(d, positions, flows[0].id, flows[0].steps, row);
      FlowEdgesRows(d, positions, flows[0].id, flows[0].steps, row);
      RenderedCountIsFilter(flows[0].steps);
      assert RowsAscendWithin(first, row, next);
      FlowsEdgesRows(d, positions, flows[1..], next);
      RowsAscendConcat(first, FlowsEdges(d, positions, flows[1..], next), row, next, FlowsEnd(flows, row));
    }
  }

  /** Splitting the flows at index f: what the first f flows emit, followed
      by what the rest emit from the row the first f left the cursor at. */
  lemma FlowsSplit(d: Diagram, positions: map<string, int>, flows: seq<Flow>, row: int, f: nat)
    requires f <= |flows|
    ensures FlowsEdges(d, positions, flows, row)
            == FlowsEdges(d, positions, flows[..f], row) + FlowsEdges(d, positions, flows[f..], FlowsEnd(flows[..f], row))
    ensures FlowsTriggers(positions, flows, row)
            == FlowsTriggers(positions, flows[..f], row) + FlowsTriggers(positions, flows[f..], FlowsEnd(flows[..f], row))
  {
    FlowsSplitEdges(d, positions, flows, row, f);
    FlowsSplitTriggers(positions, flows, row, f);
  }

  lemma {:induction false} FlowsSplitEdges(d: Diagram, positions: map<string, int>, flows: seq<Flow>, row: int, f: nat)
    requires f <= |flows|
    ensures FlowsEdges(d, positions, flows, row)
            == FlowsEdges(d, positions, flows[..f], row) + FlowsEdges(d, positions, flows[f..], FlowsEnd(flows[..f], row))
    decreases f
  {
    if f == 0 {
      assert flows[..0] == [] && flows[0..] == flows;
    } else {
      var next := NextFlowRow(flows[0], row);
      FlowsSplitEdges(d, positions, flows[1..], next, f - 1);
      var own := FlowEdges(d, positions, flows[0].id, flows[0].steps, row);
      var front := FlowsEdges(d, positions, flows[1..][..f - 1], next);
      var back := FlowsEdges(d, positions, flows[1..][f - 1..], FlowsEnd(flows[1..][..f - 1], next));
      assert flows[..f][0] == flows[0];
      assert flows[..f][1..] == flows[1..][..f - 1];
      assert flows[1..][f - 1..] == flows[f..];
      assert FlowsEdges(d, positions, flows[..f], row) == own + front;
      assert FlowsEnd(flows[..f], row) == FlowsEnd(flows[1..][..f - 1], next);
      assert own + (front + back) == (own + front) + back;
    }
  }

  lemma {:induction false} FlowsSplitTriggers(positions: map<string, int>, flows: seq<Flow>, row: int, f: nat)
    requires f <= |flows|
    ensures FlowsTriggers(positions, flows, row)
            == FlowsTriggers(positions, flows[..f], row) + FlowsTriggers(positions, flows[f..], FlowsEnd(flows[..f], row))
    decreases f
  {
    if f == 0 {
      assert flows[..0] == [] && flows[0..] == flows;
    } else {
      var next := NextFlowRow(flows[0], row);
      FlowsSplitTriggers(positions, flows[1..], next, f - 1);
      var own := FlowMarker(positions, flows[0], row);
      var front := FlowsTriggers(positions, flows[1..][..f - 1], next);
      var back := FlowsTriggers(positions, flows[1..][f - 1..], FlowsEnd(flows[1..][..f - 1], next));
      assert flows[..f][0] == flows[0];
      assert flows[..f][1..] == flows[1..][..f - 1];
      assert flows[1..][f - 1..] == flows[f..];
      assert FlowsTriggers(positions, flows[..f], row) == own + front;
      assert FlowsEnd(flows[..f], row) == FlowsEnd(flows[1..][..f - 1], next);
      assert own + (front + back) == (own + front) + back;
    }
  }

  /** Where flow f's edges land: its cursor starts at (edges of the earlier
      flows) + f, so its k-th edge sits at row (edges before it overall) + f + k. */
  lemma FlowPlacementEdges(d: Diagram, f: nat)
    requires f < |d.flows|
    ensures var positions := ActorPositions(d.actors);
            var before := FlowsEdges(d, positions, d.flows[..f], 0);
            var start := |before| + f;
            var own := FlowEdges(d, positions, d.flows[f].id, d.flows[f].steps, start);
            && |before| == RenderedTotal(d.flows[..f])
            && LayoutOf(Some(d)).edges
               == before + own + FlowsEdges(d, positions, d.flows[f + 1..], NextFlowRow(d.flows[f], start))
            && forall k :: 0 <= k < |own| ==> own[k].data.yPosition == RowY(start + k)
  {
    var positions := ActorPositions(d.actors);
    var before := FlowsEdges(d, positions, d.flows[..f], 0);
    var start := |before| + f;
    OwnRows(d, positions, d.flows[f], start);
    FlowsEdgesAround(d, positions, d.flows, f);
    FlowsEdgesCount(d, positions, d.flows[..f], 0);
    FlowsEndFormula(d.flows[..f], 0);
  }

  /** The rows of one flow's edges from its starting row. */
  lemma OwnRows(d: Diagram, positions: map<string, int>, flow: Flow, start: int)
    ensures var own := FlowEdges(d, positions, flow.id, flow.steps, start);
      forall k :: 0 <= k < |own| ==> own[k].data.yPosition == RowY(start + k)
  {
    FlowEdgesRows(d, positions, flow.id, flow.steps, start);
  }

  /** The edges of a list of flows around flow f: those of the flows before
      it, its own from the row they leave, and those of the flows after it. */
  lemma FlowsEdgesAround(d: Diagram, positions: map<string, int>, flows: seq<Flow>, f: nat)
    requires f < |flows|
    ensures var start := FlowsEnd(flows[..f], 0);
      FlowsEdges(d, positions, flows, 0)
      == FlowsEdges(d, positions, flows[..f], 0) + FlowEdges(d, positions, flows[f].id, flows[f].steps, start)
         + FlowsEdges(d, positions, flows[f + 1..], NextFlowRow(flows[f], start))
  {
    FlowsSplitEdges(d, positions, flows, 0, f);
    var start := FlowsEnd(flows[..f], 0);
    var tail := flows[f..];
    assert tail[0] == flows[f];
    assert tail[1..] == flows[f + 1..];
    var before := FlowsEdges(d, positions, flows[..f], 0);
    var own := FlowEdges(d, positions, flows[f].id, flows[f].steps, start);
    var after := FlowsEdges(d, positions, flows[f + 1..], NextFlowRow(flows[f], start));
    assert FlowsEdges(d, positions, tail, start) == own + after;
    assert before + own + after == before + (own + after);
  }

  /** Where flow f's trigger marker lands: after the actor nodes and the
      earlier flows' markers, at the flow's starting row. */
  lemma FlowPlacementMarker(d: Diagram, f: nat)
    requires f < |d.flows|
    ensures var positions := ActorPositions(d.actors);
            var start := RenderedTotal(d.flows[..f]) + f;
            LayoutOf(Some(d)).nodes
            == ActorNodes(d.actors, LifelineHeight(d.flows)) + FlowsTriggers(positions, d.flows[..f], 0)
               + FlowMarker(positions, d.flows[f], start)
               + FlowsTriggers(positions, d.flows[f + 1..], NextFlowRow(d.flows[f], start))
  {
    var positions := ActorPositions(d.actors);
    FlowsSplit(d, positions, d.flows, 0, f);
    FlowsEndFormula(d.flows[..f], 0);
    assert d.flows[f..][0] == d.flows[f];
    assert d.flows[f..][1..] == d.flows[f + 1..];
  }

  /** The whole layout: one edge per drawable step of any flow, rows strictly
      increasing in emission order, and a lifeline at least 500 tall that is
      sized by every step, drawable or not. */
  lemma EdgesOfLayout(d: Diagram)
    ensures |LayoutOf(Some(d)).edges| == RenderedTotal(d.flows) <= TotalSteps(d.flows)
    ensures forall i, j :: 0 <= i < j < |LayoutOf(Some(d)).edges| ==>
      LayoutOf(Some(d)).edges[i].data.yPosition < LayoutOf(Some(d)).edges[j].data.yPosition
    ensures forall k :: 0 <= k < |LayoutOf(Some(d)).edges| ==> LayoutOf(Some(d)).edges[k].data.yPosition >= StartY
    ensures LifelineHeight(d.flows) >= MinLifeline
    ensures LifelineHeight(d.flows) >= StepHeight * TotalSteps(d.flows) + LifelineMargin
  {
    var positions := ActorPositions(d.actors);
    FlowsEdgesCount(d, positions, d.flows, 0);
    FlowsEdgesRows(d, positions, d.flows, 0);
    assert RowsAscendWithin(LayoutOf(Some(d)).edges, 0, FlowsEnd(d.flows, 0));
  }

  // ---------------------------------------------------------------------
  // Edges one at a time

  /** The colour, dash and label rules every edge obeys. */
  predicate WellStyled(e: Edge)
  {
    && (e.data.stepType == Dispatch ==>
          e.style.stroke == Slate && e.data.targetType == External && e.data.targetScope == Local
          && e.data.labelText == "dispatch")
    && (e.data.stepType != Dispatch ==> e.style.stroke == GetColor(e.data.targetType, Some(e.data.targetScope)))
    && (e.data.stepType == Subscribe <==> e.animated)
    && (e.data.stepType == Subscribe ==> e.style.strokeDasharray == Some(SubscribeDash) && e.style.strokeWidth == SubscribeStrokeWidth)
    && (e.data.stepType != Subscribe ==> e.style.strokeDasharray == None && e.style.strokeWidth == PlainStrokeWidth)
    && (e.data.targetAction.Some? ==> e.data.stepType == Subscribe || e.data.stepType == Dispatch)
    && (e.data.stepType == Subscribe && Truthy(e.data.stateName) ==> e.data.labelText == "Notify: " + e.data.stateName.value)
    && e.data.labelText != ""
  }

  lemma StepEdgeWellStyled(d: Diagram, positions: map<string, int>, flowId: string, step: FlowStep, row: int)
    requires Renderable(step)
    ensures WellStyled(StepEdge(d, positions, flowId, step, row))
  {
  }

  /** Every edge of every layout obeys the colour, dash and label rules. */
  lemma {:induction false} LayoutEdgesWellStyled(d: Diagram)
    ensures forall k :: 0 <= k < |LayoutOf(Some(d)).edges| ==> WellStyled(LayoutOf(Some(d)).edges[k])
  {
    FlowsWellStyled(d, ActorPositions(d.actors), d.flows, 0);
  }

  lemma {:induction false} FlowsWellStyled(d: Diagram, positions: map<string, int>, flows: seq<Flow>, row: int)
    ensures forall k :: 0 <= k < |FlowsEdges(d, positions, flows, row)| ==> WellStyled(FlowsEdges(d, positions, flows, row)[k])
  {
    if flows != [] {
      var first := FlowEdges(d, positions, flows[0].id, flows[0].steps, row);
      var rest := FlowsEdges(d, positions, flows[1..], NextFlowRow(flows[0], row));
      FlowEdgesAreDrawableSteps(d, positions, flows[0].id, flows[0].steps, row);
      FlowsWellStyled(d, positions, flows[1..], NextFlowRow(flows[0], row));
      var all := FlowsEdges(d, positions, flows, row);
      forall k | 0 <= k < |all| ensures WellStyled(all[k]) {
        if k < |first| {
          var r := Filter(flows[0].steps, Renderable);
          StepEdgeWellStyled(d, positions, flows[0].id, r[k], row + k);
          assert all[k] == first[k];
        } else {
          assert all[k] == rest[k - |first|];
        }
      }
    }
  }

  /** How a drawn step resolves its references against the diagram: ids
      that match no actor still give an edge, placed at x = 0 and coloured as
      a local component. An id that matches takes its type, scope and colour
      (unless the step is a dispatch) from the FIRST actor with that id, as
      `find` does, and its column from the LAST one, as the position map
      built with `Map.set` does. */
  lemma StepEdgeResolution(d: Diagram, flowId: string, step: FlowStep, row: int)
    requires Renderable(step)
    ensures var e := StepEdge(d, ActorPositions(d.actors), flowId, step, row);
      && e.id == flowId + "-" + step.id && e.source == step.from.value && e.target == step.to.value
      && e.data.yPosition == StartY + StepHeight * row
      && ((forall i :: 0 <= i < |d.actors| ==> d.actors[i].id != step.from.value) ==> e.data.sourceX == 0)
      && ((forall i :: 0 <= i < |d.actors| ==> d.actors[i].id != step.to.value) ==>
            e.data.targetX == 0
            && (step.stepType != Dispatch ==> e.data.targetType == Component && e.data.targetScope == Local && e.style.stroke == Blue))
      && (forall i :: 0 <= i < |d.actors| && d.actors[i].id == step.to.value
                      && (forall j :: 0 <= j < i ==> d.actors[j].id != step.to.value) ==>
            step.stepType != Dispatch ==>
              e.data.targetType == d.actors[i].actorType
              && e.data.targetScope == StoreScope(d.actors[i].scope)
              && e.style.stroke == GetColor(d.actors[i].actorType, Some(StoreScope(d.actors[i].scope))))
      && (forall i :: 0 <= i < |d.actors| && d.actors[i].id == step.to.value
                      && (forall j :: i < j < |d.actors| ==> d.actors[j].id != step.to.value) ==>
            e.data.targetX == i * ColumnSpacing)
      && (forall i :: 0 <= i < |d.actors| && d.actors[i].id == step.from.value
                      && (forall j :: i < j < |d.actors| ==> d.actors[j].id != step.from.value) ==>
            e.data.sourceX == i * ColumnSpacing)
  {
    ActorPositionsSpec(d.actors);
    var toId := step.to.value;
    var target := Find(d.actors, (a: Actor) => a.id == toId);
    forall i | 0 <= i < |d.actors| && d.actors[i].id == toId && (forall j :: 0 <= j < i ==> d.actors[j].id != toId)
      ensures target == Some(d.actors[i])
    {
      var idx := FindIndex(d.actors, (a: Actor) => a.id == toId);
      assert idx.Some?;
      assert idx.value == i;
    }
  }

  /** The label rule, stated against the diagram: a subscribe step whose
      state reference names a state with a non-empty name reads
      "Notify: <name>"; any dispatch reads "dispatch"; other steps read their
      first non-empty action or description, else their type. The target
      action is kept only for subscribe and dispatch steps. */
  lemma StepEdgeLabel(d: Diagram, positions: map<string, int>, flowId: string, step: FlowStep, row: int)
    requires Renderable(step)
    ensures var e := StepEdge(d, positions, flowId, step, row);
      && (step.stepType == Subscribe && Truthy(step.state) ==>
            forall i :: 0 <= i < |d.states| && d.states[i].id == step.state.value && d.states[i].name != ""
                        && (forall j :: 0 <= j < i ==> d.states[j].id != step.state.value)
                        ==> e.data.labelText == "Notify: " + d.states[i].name)
      && (step.stepType == Dispatch ==> e.data.labelText == "dispatch")
      && (step.stepType != Dispatch && (step.stepType != Subscribe || !Truthy(e.data.stateName)) ==>
            e.data.labelText == (if Truthy(step.action) then step.action.value
                                 else if Truthy(step.description) then step.description.value
                                 else StepTypeName(step.stepType)))
      && e.data.targetAction == (if step.stepType == Subscribe || step.stepType == Dispatch then step.action else None)
  {
    if step.stepType == Subscribe && Truthy(step.state) {
      var id := step.state.value;
      forall i | 0 <= i < |d.states| && d.states[i].id == id && d.states[i].name != ""
                 && (forall j :: 0 <= j < i ==> d.states[j].id != id)
        ensures StateNameOf(d.states, step.state) == Some(d.states[i].name)
      {
        var idx := FindIndex(d.states, (s: State) => s.id == id);
        assert idx.Some?;
        assert idx.value == i;
      }
    }
  }

  /** A flow gets a trigger marker exactly when its trigger actor is a
      non-empty id of some actor; the marker is named after the flow, sits
      40 above the flow's first row and 120 left of the column of the last
      actor with that id (the position map keeps the last), and reads
      "Trigger: <action> (<target>)", the parenthesis only for a non-empty
      target. */
  lemma TriggerMarker(d: Diagram, flow: Flow, row: int)
    ensures var t := TriggerNodeOf(ActorPositions(d.actors), flow, row);
      && (t.Some? <==> flow.trigger.actor != ""
                       && exists i :: 0 <= i < |d.actors| && d.actors[i].id == flow.trigger.actor)
      && (t.Some? ==> t.value.TriggerNode? && t.value.id == "trigger-" + flow.id
                      && t.value.position.y == RowY(row) - TriggerShiftY)
      && (t.Some? ==>
            t.value.labelText == "Trigger: " + flow.trigger.action + " "
                                 + (if Truthy(flow.trigger.target) then "(" + flow.trigger.target.value + ")" else ""))
      && (t.Some? ==>
            forall i :: 0 <= i < |d.actors| && d.actors[i].id == flow.trigger.actor
                        && (forall j :: i < j < |d.actors| ==> d.actors[j].id != flow.trigger.actor) ==>
              t.value.position.x == i * ColumnSpacing - TriggerShiftX)
  {
    ActorPositionsSpec(d.actors);
  }

  /** Whether a flow's trigger actor has a column. */
  predicate HasMarker(positions: map<string, int>, flow: Flow)
  {
    flow.trigger.actor != "" && flow.trigger.actor in positions
  }

  /** The flows that get a trigger marker, in their order. */
  function MarkedFlows(positions: map<string, int>, flows: seq<Flow>): seq<Flow>
  {
    Filter(flows, (f: Flow) => HasMarker(positions, f))
  }

  /** Trigger markers come in flow order, one per flow that has one. */
  lemma {:induction false} TriggersInFlowOrder(positions: map<string, int>, flows: seq<Flow>, row: int)
    ensures |FlowsTriggers(positions, flows, row)| == |MarkedFlows(positions, flows)|
    ensures forall k :: 0 <= k < |FlowsTriggers(positions, flows, row)| ==>
      FlowsTriggers(positions, flows, row)[k].id == "trigger-" + MarkedFlows(positions, flows)[k].id
  {
    if flows != [] {
      var next := NextFlowRow(flows[0], row);
      TriggersInFlowOrder(positions, flows[1..], next);
      var marker := FlowMarker(positions, flows[0], row);
      var restT := FlowsTriggers(positions, flows[1..], next);
      var restM := MarkedFlows(positions, flows[1..]);
      assert FlowsTriggers(positions, flows, row) == marker + restT;
      if HasMarker(positions, flows[0]) {
        assert MarkedFlows(positions, flows) == [flows[0]] + restM;
        assert marker == [TriggerNodeOf(positions, flows[0], row).value];
      } else {
        assert MarkedFlows(positions, flows) == restM;
        assert marker == [];
      }
    }
  }
}
