/** The diagram store of diagramStore.ts: one slot holding the diagram being
    edited (or none), replaced by every action. Each add appends, each update
    merges a partial record into the elements with the id, each delete drops
    the elements with the id; with no diagram every action does nothing. */
module DiagramStore {
  import opened Wrappers
  import opened DiagramTypes
  import opened JsArray
  import opened Database

  // ---------------------------------------------------------------------
  // Partial records and the spread merge `{ ...x, ...updates }`

  /** The value a merge gives one field: the update's when its key is present. */
  function Pick<T>(update: Option<T>, current: T): T
  {
    if update.Some? then update.value else current
  }

  /** The field of `{ ...first, ...second }`: the later key wins. */
  function Later<T>(first: Option<T>, second: Option<T>): Option<T>
  {
    if second.Some? then second else first
  }

  /** Picking twice is picking from the merged update. */
  lemma PickLater<T>(first: Option<T>, second: Option<T>, current: T)
    ensures Pick(second, Pick(first, current)) == Pick(Later(first, second), current)
    ensures Pick(first, Pick(first, current)) == Pick(first, current)
  {
  }

  /** `Partial<Actor>`: a missing key is None. An optional field's key may be
      present holding `undefined`, which is Some(None). */
  datatype ActorPatch = ActorPatch(
    id: Option<string>,
    actorType: Option<ActorType>,
    name: Option<string>,
    description: Option<Option<string>>,
    parent: Option<Option<string>>,
    color: Option<Option<string>>,
    scope: Option<Option<StateScope>>)

  datatype StatePatch = StatePatch(
    id: Option<string>,
    name: Option<string>,
    owner: Option<string>,
    dataType: Option<Option<string>>,
    description: Option<Option<string>>)

  datatype FlowPatch = FlowPatch(
    id: Option<string>,
    name: Option<string>,
    description: Option<Option<string>>,
    trigger: Option<FlowTrigger>,
    steps: Option<seq<FlowStep>>)

  datatype ConditionPatch = ConditionPatch(
    id: Option<string>,
    expression: Option<string>,
    description: Option<Option<string>>)

  function MergeActor(a: Actor, p: ActorPatch): Actor
  {
    Actor(Pick(p.id, a.id), Pick(p.actorType, a.actorType), Pick(p.name, a.name),
          Pick(p.description, a.description), Pick(p.parent, a.parent),
          Pick(p.color, a.color), Pick(p.scope, a.scope))
  }

  function MergeState(s: State, p: StatePatch): State
  {
    State(Pick(p.id, s.id), Pick(p.name, s.name), Pick(p.owner, s.owner),
          Pick(p.dataType, s.dataType), Pick(p.description, s.description))
  }

  function MergeFlow(f: Flow, p: FlowPatch): Flow
  {
    Flow(Pick(p.id, f.id), Pick(p.name, f.name), Pick(p.description, f.description),
         Pick(p.trigger, f.trigger), Pick(p.steps, f.steps))
  }

  function MergeCondition(c: Condition, p: ConditionPatch): Condition
  {
    Condition(Pick(p.id, c.id), Pick(p.expression, c.expression), Pick(p.description, c.description))
  }

  /** The spread of one partial record over another. */
  function CombineActorPatches(p: ActorPatch, q: ActorPatch): ActorPatch
  {
    ActorPatch(Later(p.id, q.id), Later(p.actorType, q.actorType), Later(p.name, q.name),
               Later(p.description, q.description), Later(p.parent, q.parent),
               Later(p.color, q.color), Later(p.scope, q.scope))
  }

  function CombineStatePatches(p: StatePatch, q: StatePatch): StatePatch
  {
    StatePatch(Later(p.id, q.id), Later(p.name, q.name), Later(p.owner, q.owner),
               Later(p.dataType, q.dataType), Later(p.description, q.description))
  }

  function CombineFlowPatches(p: FlowPatch, q: FlowPatch): FlowPatch
  {
    FlowPatch(Later(p.id, q.id), Later(p.name, q.name), Later(p.description, q.description),
              Later(p.trigger, q.trigger), Later(p.steps, q.steps))
  }

  function CombineConditionPatches(p: ConditionPatch, q: ConditionPatch): ConditionPatch
  {
    ConditionPatch(Later(p.id, q.id), Later(p.expression, q.expression), Later(p.description, q.description))
  }

  /** The merge algebra: the empty update changes nothing, merging twice is
      merging the combined update, and merging the same update again changes
      nothing more. */
  lemma MergeActorLaws(a: Actor, p: ActorPatch, q: ActorPatch)
    ensures MergeActor(a, ActorPatch(None, None, None, None, None, None, None)) == a
    ensures MergeActor(MergeActor(a, p), q) == MergeActor(a, CombineActorPatches(p, q))
    ensures MergeActor(MergeActor(a, p), p) == MergeActor(a, p)
  {
  }

  lemma MergeStateLaws(s: State, p: StatePatch, q: StatePatch)
    ensures MergeState(s, StatePatch(None, None, None, None, None)) == s
    ensures MergeState(MergeState(s, p), q) == MergeState(s, CombineStatePatches(p, q))
    ensures MergeState(MergeState(s, p), p) == MergeState(s, p)
  {
  }

  lemma MergeFlowLaws(f: Flow, p: FlowPatch, q: FlowPatch)
    ensures MergeFlow(f, FlowPatch(None, None, None, None, None)) == f
    ensures MergeFlow(MergeFlow(f, p), q) == MergeFlow(f, CombineFlowPatches(p, q))
    ensures MergeFlow(MergeFlow(f, p), p) == MergeFlow(f, p)
  {
  }

  lemma MergeConditionLaws(c: Condition, p: ConditionPatch, q: ConditionPatch)
    ensures MergeCondition(c, ConditionPatch(None, None, None)) == c
    ensures MergeCondition(MergeCondition(c, p), q) == MergeCondition(c, CombineConditionPatches(p, q))
    ensures MergeCondition(MergeCondition(c, p), p) == MergeCondition(c, p)
  {
  }

  // ---------------------------------------------------------------------
  // Collection edits by id

  /** `s.map(x => x.id === id ? merge(x) : x)`. */
  function UpdateById<T>(s: seq<T>, idOf: T -> string, id: string, merge: T -> T): seq<T>
  {
    MapWhere(s, x => idOf(x) == id, merge)
  }

  /** `s.filter(x => x.id !== id)`. */
  function DeleteById<T>(s: seq<T>, idOf: T -> string, id: string): seq<T>
  {
    Filter(s, x => idOf(x) != id)
  }

  /** An update keeps length and order, merges exactly the elements carrying
      the id and leaves the others as they were; with no such element it
      changes nothing. */
  lemma UpdateByIdSpec<T>(s: seq<T>, idOf: T -> string, id: string, merge: T -> T)
    ensures |UpdateById(s, idOf, id, merge)| == |s|
    ensures forall i :: 0 <= i < |s| && idOf(s[i]) == id ==> UpdateById(s, idOf, id, merge)[i] == merge(s[i])
    ensures forall i :: 0 <= i < |s| && idOf(s[i]) != id ==> UpdateById(s, idOf, id, merge)[i] == s[i]
    ensures (forall i :: 0 <= i < |s| ==> idOf(s[i]) != id) ==> UpdateById(s, idOf, id, merge) == s
  {
  }

  /** A delete leaves no element carrying the id and keeps every other one;
      it commutes with concatenation, so the survivors keep their order; with
      no such element it changes nothing; and it is idempotent. */
  lemma DeleteByIdSpec<T>(s: seq<T>, t: seq<T>, idOf: T -> string, id: string)
    ensures forall k :: 0 <= k < |DeleteById(s, idOf, id)| ==> idOf(DeleteById(s, idOf, id)[k]) != id
    ensures forall i :: 0 <= i < |s| && idOf(s[i]) != id ==> s[i] in DeleteById(s, idOf, id)
    ensures DeleteById(s + t, idOf, id) == DeleteById(s, idOf, id) + DeleteById(t, idOf, id)
    ensures (forall i :: 0 <= i < |s| ==> idOf(s[i]) != id) ==> DeleteById(s, idOf, id) == s
    ensures DeleteById(DeleteById(s, idOf, id), idOf, id) == DeleteById(s, idOf, id)
  {
    FilterConcat(s, t, x => idOf(x) != id);
    FilterIdempotent(s, x => idOf(x) != id);
    if forall i :: 0 <= i < |s| ==> idOf(s[i]) != id {
      FilterKeepsAll(s, x => idOf(x) != id);
    }
  }

  /** Deleting the id of an element just appended, when no earlier element
      carries it, restores the collection. */
  lemma AddThenDelete<T>(s: seq<T>, x: T, idOf: T -> string)
    requires forall i :: 0 <= i < |s| ==> idOf(s[i]) != idOf(x)
    ensures DeleteById(s + [x], idOf, idOf(x)) == s
  {
    DeleteByIdSpec(s, [x], idOf, idOf(x));
    assert DeleteById([x], idOf, idOf(x)) == [];
  }

  function ActorId(a: Actor): string { a.id }
  function StateId(s: State): string { s.id }
  function FlowId(f: Flow): string { f.id }
  function ConditionId(c: Condition): string { c.id }

  // ---------------------------------------------------------------------
  // Store actions as values

  /** One action of the store on a collection. */
  datatype Edit =
    | AddActor(actor: Actor) | UpdateActor(actorId: string, actorPatch: ActorPatch) | DeleteActor(actorId: string)
    | AddState(state: State) | UpdateState(stateId: string, statePatch: StatePatch) | DeleteState(stateId: string)
    | AddFlow(flow: Flow) | UpdateFlow(flowId: string, flowPatch: FlowPatch) | DeleteFlow(flowId: string)
    | AddCondition(condition: Condition)
    | UpdateCondition(conditionId: string, conditionPatch: ConditionPatch)
    | DeleteCondition(conditionId: string)

  /** The four collections of a diagram. */
  datatype Collection = Actors | States | Flows | Conditions

  function CollectionOf(e: Edit): Collection
  {
    match e
    case AddActor(_) | UpdateActor(_, _) | DeleteActor(_) => Actors
    case AddState(_) | UpdateState(_, _) | DeleteState(_) => States
    case AddFlow(_) | UpdateFlow(_, _) | DeleteFlow(_) => Flows
    case AddCondition(_) | UpdateCondition(_, _) | DeleteCondition(_) => Conditions
  }

  /** The new slot value after an action. */
  function Apply(slot: Option<Diagram>, e: Edit): Option<Diagram>
  {
    match slot
    case None => None
    case Some(d) =>
      Some(match e
        case AddActor(a) => d.(actors := d.actors + [a])
        case UpdateActor(id, p) => d.(actors := UpdateById(d.actors, ActorId, id, a => MergeActor(a, p)))
        case DeleteActor(id) => d.(actors := DeleteById(d.actors, ActorId, id))
        case AddState(s) => d.(states := d.states + [s])
        case UpdateState(id, p) => d.(states := UpdateById(d.states, StateId, id, s => MergeState(s, p)))
        case DeleteState(id) => d.(states := DeleteById(d.states, StateId, id))
        case AddFlow(f) => d.(flows := d.flows + [f])
        case UpdateFlow(id, p) => d.(flows := UpdateById(d.flows, FlowId, id, f => MergeFlow(f, p)))
        case DeleteFlow(id) => d.(flows := DeleteById(d.flows, FlowId, id))
        case AddCondition(c) => d.(conditions := d.conditions + [c])
        case UpdateCondition(id, p) =>
          d.(conditions := UpdateById(d.conditions, ConditionId, id, c => MergeCondition(c, p)))
        case DeleteCondition(id) => d.(conditions := DeleteById(d.conditions, ConditionId, id)))
  }

  /** With no diagram every action does nothing. With one, the action keeps
      the id, name, description and dates and the three collections it is
      not about; a delete of an actor therefore leaves its states and the
      steps naming it in place. */
  lemma ApplyTouchesOnlyItsCollection(slot: Option<Diagram>, e: Edit)
    ensures slot.None? <==> Apply(slot, e).None?
    ensures slot.Some? ==>
      var d := slot.value;
      var r := Apply(slot, e).value;
      && r.id == d.id && r.name == d.name && r.description == d.description
      && r.createdAt == d.createdAt && r.updatedAt == d.updatedAt
      && (CollectionOf(e) != Actors ==> r.actors == d.actors)
      && (CollectionOf(e) != States ==> r.states == d.states)
      && (CollectionOf(e) != Flows ==> r.flows == d.flows)
      && (CollectionOf(e) != Conditions ==> r.conditions == d.conditions)
  {
  }

  /** An add puts the element last and leaves the earlier ones as they were. */
  lemma AddAppends(d: Diagram, a: Actor, s: State, f: Flow, c: Condition)
    ensures var r := Apply(Some(d), AddActor(a)).value.actors;
            |r| == |d.actors| + 1 && r[..|d.actors|] == d.actors && r[|d.actors|] == a
    ensures var r := Apply(Some(d), AddState(s)).value.states;
            |r| == |d.states| + 1 && r[..|d.states|] == d.states && r[|d.states|] == s
    ensures var r := Apply(Some(d), AddFlow(f)).value.flows;
            |r| == |d.flows| + 1 && r[..|d.flows|] == d.flows && r[|d.flows|] == f
    ensures var r := Apply(Some(d), AddCondition(c)).value.conditions;
            |r| == |d.conditions| + 1 && r[..|d.conditions|] == d.conditions && r[|d.conditions|] == c
  {
    assert (d.actors + [a])[..|d.actors|] == d.actors;
    assert (d.states + [s])[..|d.states|] == d.states;
    assert (d.flows + [f])[..|d.flows|] == d.flows;
    assert (d.conditions + [c])[..|d.conditions|] == d.conditions;
  }

  /** `updateActor` keeps the list's length and order, merges the update into
      exactly the actors with the id, and leaves the rest unchanged. */
  lemma UpdateActorSpec(d: Diagram, id: string, p: ActorPatch)
    ensures var r := Apply(Some(d), UpdateActor(id, p)).value.actors;
      && |r| == |d.actors|
      && (forall i :: 0 <= i < |r| && d.actors[i].id == id ==> r[i] == MergeActor(d.actors[i], p))
      && (forall i :: 0 <= i < |r| && d.actors[i].id != id ==> r[i] == d.actors[i])
  {
    UpdateByIdSpec(d.actors, ActorId, id, a => MergeActor(a, p));
  }

  lemma UpdateStateSpec(d: Diagram, id: string, p: StatePatch)
    ensures var r := Apply(Some(d), UpdateState(id, p)).value.states;
      && |r| == |d.states|
      && (forall i :: 0 <= i < |r| && d.states[i].id == id ==> r[i] == MergeState(d.states[i], p))
      && (forall i :: 0 <= i < |r| && d.states[i].id != id ==> r[i] == d.states[i])
  {
    UpdateByIdSpec(d.states, StateId, id, s => MergeState(s, p));
  }

  lemma UpdateFlowSpec(d: Diagram, id: string, p: FlowPatch)
    ensures var r := Apply(Some(d), UpdateFlow(id, p)).value.flows;
      && |r| == |d.flows|
      && (forall i :: 0 <= i < |r| && d.flows[i].id == id ==> r[i] == MergeFlow(d.flows[i], p))
      && (forall i :: 0 <= i < |r| && d.flows[i].id != id ==> r[i] == d.flows[i])
  {
    UpdateByIdSpec(d.flows, FlowId, id, f => MergeFlow(f, p));
  }

  lemma UpdateConditionSpec(d: Diagram, id: string, p: ConditionPatch)
    ensures var r := Apply(Some(d), UpdateCondition(id, p)).value.conditions;
      && |r| == |d.conditions|
      && (forall i :: 0 <= i < |r| && d.conditions[i].id == id ==> r[i] == MergeCondition(d.conditions[i], p))
      && (forall i :: 0 <= i < |r| && d.conditions[i].id != id ==> r[i] == d.conditions[i])
  {
    UpdateByIdSpec(d.conditions, ConditionId, id, c => MergeCondition(c, p));
  }

  /** `deleteActor` removes exactly the actors with the id; adding an actor
      with an unused id and deleting it again restores the diagram. */
  lemma DeleteActorSpec(d: Diagram, id: string, a: Actor)
    ensures var r := Apply(Some(d), DeleteActor(id)).value.actors;
      && (forall k :: 0 <= k < |r| ==> r[k].id != id)
      && (forall i :: 0 <= i < |d.actors| && d.actors[i].id != id ==> d.actors[i] in r)
      && ((forall i :: 0 <= i < |d.actors| ==> d.actors[i].id != id) ==> r == d.actors)
    ensures (forall i :: 0 <= i < |d.actors| ==> d.actors[i].id != a.id) ==>
      Apply(Apply(Some(d), AddActor(a)), DeleteActor(a.id)) == Some(d)
  {
    DeleteByIdSpec(d.actors, [], ActorId, id);
    if forall i :: 0 <= i < |d.actors| ==> d.actors[i].id != a.id {
      AddThenDelete(d.actors, a, ActorId);
      var added := d.(actors := d.actors + [a]);
      assert Apply(Some(d), AddActor(a)) == Some(added);
      assert Apply(Some(added), DeleteActor(a.id)) == Some(added.(actors := d.actors));
      assert added.(actors := d.actors) == d;
    }
  }

  lemma DeleteStateSpec(d: Diagram, id: string, s: State)
    ensures var r := Apply(Some(d), DeleteState(id)).value.states;
      && (forall k :: 0 <= k < |r| ==> r[k].id != id)
      && (forall i :: 0 <= i < |d.states| && d.states[i].id != id ==> d.states[i] in r)
      && ((forall i :: 0 <= i < |d.states| ==> d.states[i].id != id) ==> r == d.states)
    ensures (forall i :: 0 <= i < |d.states| ==> d.states[i].id != s.id) ==>
      Apply(Apply(Some(d), AddState(s)), DeleteState(s.id)) == Some(d)
  {
    DeleteByIdSpec(d.states, [], StateId, id);
    if forall i :: 0 <= i < |d.states| ==> d.states[i].id != s.id {
      AddThenDelete(d.states, s, StateId);
      var added := d.(states := d.states + [s]);
      assert Apply(Some(d), AddState(s)) == Some(added);
      assert Apply(Some(added), DeleteState(s.id)) == Some(added.(states := d.states));
      assert added.(states := d.states) == d;
    }
  }

  lemma DeleteFlowSpec(d: Diagram, id: string, f: Flow)
    ensures var r := Apply(Some(d), DeleteFlow(id)).value.flows;
      && (forall k :: 0 <= k < |r| ==> r[k].id != id)
      && (forall i :: 0 <= i < |d.flows| && d.flows[i].id != id ==> d.flows[i] in r)
      && ((forall i :: 0 <= i < |d.flows| ==> d.flows[i].id != id) ==> r == d.flows)
    ensures (forall i :: 0 <= i < |d.flows| ==> d.flows[i].id != f.id) ==>
      Apply(Apply(Some(d), AddFlow(f)), DeleteFlow(f.id)) == Some(d)
  {
    DeleteByIdSpec(d.flows, [], FlowId, id);
    if forall i :: 0 <= i < |d.flows| ==> d.flows[i].id != f.id {
      AddThenDelete(d.flows, f, FlowId);
      var added := d.(flows := d.flows + [f]);
      assert Apply(Some(d), AddFlow(f)) == Some(added);
      assert Apply(Some(added), DeleteFlow(f.id)) == Some(added.(flows := d.flows));
      assert added.(flows := d.flows) == d;
    }
  }

  lemma DeleteConditionSpec(d: Diagram, id: string, c: Condition)
    ensures var r := Apply(Some(d), DeleteCondition(id)).value.conditions;
      && (forall k :: 0 <= k < |r| ==> r[k].id != id)
      && (forall i :: 0 <= i < |d.conditions| && d.conditions[i].id != id ==> d.conditions[i] in r)
      && ((forall i :: 0 <= i < |d.conditions| ==> d.conditions[i].id != id) ==> r == d.conditions)
    ensures (forall i :: 0 <= i < |d.conditions| ==> d.conditions[i].id != c.id) ==>
      Apply(Apply(Some(d), AddCondition(c)), DeleteCondition(c.id)) == Some(d)
  {
    DeleteByIdSpec(d.conditions, [], ConditionId, id);
    if forall i :: 0 <= i < |d.conditions| ==> d.conditions[i].id != c.id {
      AddThenDelete(d.conditions, c, ConditionId);
      var added := d.(conditions := d.conditions + [c]);
      assert Apply(Some(d), AddCondition(c)) == Some(added);
      assert Apply(Some(added), DeleteCondition(c.id)) == Some(added.(conditions := d.conditions));
      assert added.(conditions := d.conditions) == d;
    }
  }

  // ---------------------------------------------------------------------
  // The store

  class Store {
    /** The diagram being edited, or none. */
    var diagram: Option<Diagram>

    constructor()
      ensures diagram == None
    {
      diagram := None;
    }

    /** `setDiagram`: replaces the slot, with none as well. */
    method SetDiagram(d: Option<Diagram>)
      modifies this
      ensures diagram == d
    {
      diagram := d;
    }

    /** `saveDiagram`: with a diagram, stamps `updatedAt` with the current
        time and puts exactly that value into the table (which refuses it
        only when `createdAt` is invalid); with none, does nothing. */
    method SaveDiagram(now: int, db: DiagramDatabase) returns (outcome: Option<Result<(), string>>)
      modifies this, db
      ensures old(diagram).None? ==> diagram == None && db.records == old(db.records) && outcome.None?
      ensures old(diagram).Some? ==>
        var updated := old(diagram).value.(updatedAt := Time(now));
        && diagram == Some(updated)
        && outcome.Some?
        && (DiagramToRecord(updated).Success? ==>
              outcome.value.Success? && db.records == old(db.records)[updated.id := DiagramToRecord(updated).value])
        && (DiagramToRecord(updated).Failure? ==> outcome.value.Failure? && db.records == old(db.records))
    {
      if diagram.None? {
        outcome := None;
        return;
      }
      var updated := diagram.value.(updatedAt := Time(now));
      diagram := Some(updated);
      var saved := db.SaveDiagram(updated);
      outcome := Some(saved);
    }

    /** One action on a collection; every add, update and delete of the
        store is this with its own `Edit`. */
    method Perform(e: Edit)
      modifies this
      ensures diagram == Apply(old(diagram), e)
    {
      match diagram
      case None =>
      case Some(d) =>
        match e
        case AddActor(a) => diagram := Some(d.(actors := d.actors + [a]));
        case UpdateActor(id, p) => diagram := Some(d.(actors := UpdateById(d.actors, ActorId, id, a => MergeActor(a, p))));
        case DeleteActor(id) => diagram := Some(d.(actors := DeleteById(d.actors, ActorId, id)));
        case AddState(s) => diagram := Some(d.(states := d.states + [s]));
        case UpdateState(id, p) => diagram := Some(d.(states := UpdateById(d.states, StateId, id, s => MergeState(s, p))));
        case DeleteState(id) => diagram := Some(d.(states := DeleteById(d.states, StateId, id)));
        case AddFlow(f) => diagram := Some(d.(flows := d.flows + [f]));
        case UpdateFlow(id, p) => diagram := Some(d.(flows := UpdateById(d.flows, FlowId, id, f => MergeFlow(f, p))));
        case DeleteFlow(id) => diagram := Some(d.(flows := DeleteById(d.flows, FlowId, id)));
        case AddCondition(c) => diagram := Some(d.(conditions := d.conditions + [c]));
        case UpdateCondition(id, p) =>
          diagram := Some(d.(conditions := UpdateById(d.conditions, ConditionId, id, c => MergeCondition(c, p))));
        case DeleteCondition(id) => diagram := Some(d.(conditions := DeleteById(d.conditions, ConditionId, id)));
    }

    method AddActor(a: Actor)
      modifies this
      ensures diagram == Apply(old(diagram), Edit.AddActor(a))
    {
      Perform(Edit.AddActor(a));
    }

    method UpdateActor(id: string, p: ActorPatch)
      modifies this
      ensures diagram == Apply(old(diagram), Edit.UpdateActor(id, p))
    {
      Perform(Edit.UpdateActor(id, p));
    }

    method DeleteActor(id: string)
      modifies this
      ensures diagram == Apply(old(diagram), Edit.DeleteActor(id))
    {
      Perform(Edit.DeleteActor(id));
    }

    method AddState(s: State)
      modifies this
      ensures diagram == Apply(old(diagram), Edit.AddState(s))
    {
      Perform(Edit.AddState(s));
    }

    method UpdateState(id: string, p: StatePatch)
      modifies this
      ensures diagram == Apply(old(diagram), Edit.UpdateState(id, p))
    {
      Perform(Edit.UpdateState(id, p));
    }

    method DeleteState(id: string)
      modifies this
      ensures diagram == Apply(old(diagram), Edit.DeleteState(id))
    {
      Perform(Edit.DeleteState(id));
    }

    method AddFlow(f: Flow)
      modifies this
      ensures diagram == Apply(old(diagram), Edit.AddFlow(f))
    {
      Perform(Edit.AddFlow(f));
    }

    method UpdateFlow(id: string, p: FlowPatch)
      modifies this
      ensures diagram == Apply(old(diagram), Edit.UpdateFlow(id, p))
    {
      Perform(Edit.UpdateFlow(id, p));
    }

    method DeleteFlow(id: string)
      modifies this
      ensures diagram == Apply(old(diagram), Edit.DeleteFlow(id))
    {
      Perform(Edit.DeleteFlow(id));
    }

    method AddCondition(c: Condition)
      modifies this
      ensures diagram == Apply(old(diagram), Edit.AddCondition(c))
    {
      Perform(Edit.AddCondition(c));
    }

    method UpdateCondition(id: string, p: ConditionPatch)
      modifies this
      ensures diagram == Apply(old(diagram), Edit.UpdateCondition(id, p))
    {
      Perform(Edit.UpdateCondition(id, p));
    }

    method DeleteCondition(id: string)
      modifies this
      ensures diagram == Apply(old(diagram), Edit.DeleteCondition(id))
    {
      Perform(Edit.DeleteCondition(id));
    }
  }
}
