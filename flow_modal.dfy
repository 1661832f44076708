/** The flow editor of FlowModal.tsx: a form prefilled from the flow being
    edited (or with new-flow defaults), a step list edited in place, and a
    submit that builds the flow and adds it or updates it by id. */
module FlowModal {
  import opened Wrappers
  import opened DiagramTypes
  import opened JsText
  import opened JsArray
  import opened DiagramStore
  import opened UiStore
  import MessageEdge

  /** The select value standing for "no reference". */
  const NoneSentinel := "_none_"

  /** The step type options in menu order, each with its icon. */
  const StepTypeOptions: seq<StepType> := [Dispatch, StateChange, Subscribe, Effect, Render]
  const TriggerTypeOptions: seq<TriggerType> := [UserAction, Lifecycle, Subscription, Timer]

  function StepTypeIcon(t: StepType): string
  {
    match t
    case Dispatch => "→"
    case StateChange => "⟳"
    case Subscribe => "◎"
    case Effect => "⚡"
    case Render => "🔄"
  }

  /** The menus offer every step type and every trigger type once, and each
      step type's icon is the glyph its message edges show. */
  lemma MenusMatchTypes()
    ensures StepTypeOptions == AllStepTypes && TriggerTypeOptions == AllTriggerTypes
    ensures forall t: StepType :: StepTypeIcon(t) == MessageEdge.StepGlyph(t)
  {
  }

  /** The form's fields. */
  datatype FlowFormState = FlowFormState(
    name: string,
    description: string,
    triggerType: TriggerType,
    triggerActor: string,
    triggerAction: string,
    triggerTarget: string,
    steps: seq<FlowStep>)

  /** The flow being edited: looked up by a non-empty editing id. */
  function EditingFlow(diagram: Option<Diagram>, editingFlowId: Option<string>): Option<Flow>
  {
    if Truthy(editingFlowId) && diagram.Some? then
      Find(diagram.value.flows, (f: Flow) => f.id == editingFlowId.value)
    else None
  }

  function ActorsOf(diagram: Option<Diagram>): seq<Actor>
  {
    if diagram.Some? then diagram.value.actors else []
  }

  /** The id of the actor at `i`, when there is one. */
  function ActorIdAt(actors: seq<Actor>, i: nat): Option<string>
  {
    if i < |actors| then Some(actors[i].id) else None
  }

  /** The form's contents when it opens: the edited flow's fields, or the
      new-flow defaults. */
  function FlowPrefill(editing: Option<Flow>, actors: seq<Actor>): FlowFormState
  {
    match editing
    case Some(f) =>
      FlowFormState(f.name, if Truthy(f.description) then f.description.value else "",
                    f.trigger.triggerType, f.trigger.actor, f.trigger.action,
                    if Truthy(f.trigger.target) then f.trigger.target.value else "", f.steps)
    case None =>
      FlowFormState("", "", UserAction, if Truthy(ActorIdAt(actors, 0)) then actors[0].id else "", "click", "", [])
  }

  /** A new flow starts as a user action "click" on the first actor (or on
      no actor), with no name and no steps. */
  lemma NewFlowDefaults(actors: seq<Actor>)
    ensures var s := FlowPrefill(None, actors);
      && s.name == "" && s.description == "" && s.triggerType == UserAction && s.triggerAction == "click"
      && s.triggerTarget == "" && s.steps == []
      && s.triggerActor == (if |actors| > 0 then actors[0].id else "")
  {
  }

  /** The step `addStep` appends: a dispatch from the first actor to the
      second one (or the first again when the second is missing or has an
      empty id). */
  function NewStep(freshId: string, actors: seq<Actor>): FlowStep
  {
    FlowStep(freshId, Dispatch, ActorIdAt(actors, 0), Or(ActorIdAt(actors, 1), ActorIdAt(actors, 0)),
             None, None, None, None, None)
  }

  lemma NewStepSpec(freshId: string, actors: seq<Actor>)
    ensures var s := NewStep(freshId, actors);
      && s.id == freshId && s.stepType == Dispatch
      && s.action.None? && s.state.None? && s.payload.None? && s.description.None? && s.condition.None?
      && (|actors| == 0 ==> s.from.None? && s.to.None?)
      && (|actors| > 0 ==> s.from == Some(actors[0].id))
      && (|actors| == 1 ==> s.to == Some(actors[0].id))
      && (|actors| > 1 ==> s.to == Some(if actors[1].id != "" then actors[1].id else actors[0].id))
  {
  }

  /** `Partial<FlowStep>`; an optional field's key may hold `undefined`. */
  datatype StepPatch = StepPatch(
    id: Option<string>,
    stepType: Option<StepType>,
    from: Option<Option<string>>,
    to: Option<Option<string>>,
    action: Option<Option<string>>,
    state: Option<Option<string>>,
    payload: Option<Option<string>>,
    description: Option<Option<string>>,
    condition: Option<Option<string>>)

  function MergeStep(s: FlowStep, p: StepPatch): FlowStep
  {
    FlowStep(Pick(p.id, s.id), Pick(p.stepType, s.stepType), Pick(p.from, s.from), Pick(p.to, s.to),
             Pick(p.action, s.action), Pick(p.state, s.state), Pick(p.payload, s.payload),
             Pick(p.description, s.description), Pick(p.condition, s.condition))
  }

  /** `steps.filter((_, i) => i !== index)`. */
  function RemoveAt<T>(s: seq<T>, index: nat): seq<T>
  {
    if index < |s| then s[..index] + s[index + 1..] else s
  }

  /** Removing an index drops exactly that element and shifts the later ones
      down by one; an index past the end removes nothing. Removing the element
      just appended restores the list. */
  lemma RemoveAtSpec<T>(s: seq<T>, index: nat, x: T)
    ensures index < |s| ==> |RemoveAt(s, index)| == |s| - 1
    ensures forall k :: 0 <= k < index && k < |s| ==> RemoveAt(s, index)[k] == s[k]
    ensures forall k :: index <= k < |s| - 1 ==> RemoveAt(s, index)[k] == s[k + 1]
    ensures index >= |s| ==> RemoveAt(s, index) == s
    ensures RemoveAt(s + [x], |s|) == s
  {
    assert (s + [x])[..|s|] == s;
  }

  /** A select's value for an optional reference, and the reference a
      selected value stores. */
  function SelectValue(ref: Option<string>): string
  {
    if Truthy(ref) then ref.value else NoneSentinel
  }

  function RefOfSelect(v: string): Option<string>
  {
    if v == NoneSentinel then None else Some(v)
  }

  /** Choosing "none" stores no reference, choosing an id stores it, and
      showing a reference and choosing what is shown gives it back, unless it
      was empty (which becomes none) or was the sentinel itself. */
  lemma SentinelRoundTrip(ref: Option<string>, v: string)
    ensures RefOfSelect(NoneSentinel) == None
    ensures v != NoneSentinel ==> RefOfSelect(v) == Some(v)
    ensures (ref.None? || (ref.value != "" && ref.value != NoneSentinel)) ==> RefOfSelect(SelectValue(ref)) == ref
    ensures ref == Some("") ==> RefOfSelect(SelectValue(ref)) == None
  {
  }

  /** The flow `handleSubmit` builds: trimmed name, trimmed description or
      none, the untrimmed trigger fields with an empty target as none, and the
      steps as edited. */
  function BuildFlow(form: FlowFormState, id: string): Flow
  {
    Flow(id, Trim(form.name), TrimmedOrUndefined(form.description),
         FlowTrigger(form.triggerType, form.triggerActor, form.triggerAction,
                     if form.triggerTarget != "" then Some(form.triggerTarget) else None),
         form.steps)
  }

  /** The whole flow as an update: every key present. */
  function FullFlowPatch(f: Flow): FlowPatch
  {
    FlowPatch(Some(f.id), Some(f.name), Some(f.description), Some(f.trigger), Some(f.steps))
  }

  /** The store action a submit performs, or none when the trimmed name or
      the trigger actor is empty. Editing updates under the editing id;
      creating adds under the fresh id. */
  function SubmitAction(form: FlowFormState, editingFlowId: Option<string>, freshId: string): Option<Edit>
  {
    if Trim(form.name) == "" || form.triggerActor == "" then None
    else if Truthy(editingFlowId) then
      Some(UpdateFlow(editingFlowId.value, FullFlowPatch(BuildFlow(form, editingFlowId.value))))
    else Some(AddFlow(BuildFlow(form, freshId)))
  }

  /** Submitting does nothing exactly when the name is blank or no trigger
      actor is chosen; the fresh form is never submittable. */
  lemma SubmitActionSpec(form: FlowFormState, editingFlowId: Option<string>, freshId: string, actors: seq<Actor>)
    ensures SubmitAction(form, editingFlowId, freshId).None? <==>
      (forall k :: 0 <= k < |form.name| ==> IsWhiteSpace(form.name[k])) || form.triggerActor == ""
    ensures SubmitAction(FlowPrefill(None, actors), editingFlowId, freshId).None?
    ensures SubmitAction(form, editingFlowId, freshId).Some? && Truthy(editingFlowId) ==>
      SubmitAction(form, editingFlowId, freshId).value.UpdateFlow?
      && SubmitAction(form, editingFlowId, freshId).value.flowId == editingFlowId.value
    ensures SubmitAction(form, editingFlowId, freshId).Some? && !Truthy(editingFlowId) ==>
      SubmitAction(form, editingFlowId, freshId) == Some(AddFlow(BuildFlow(form, freshId)))
  {
  }

  /** An edit submit replaces every flow carrying the editing id by the
      built flow, and changes nothing when no flow carries it any more. */
  lemma SubmitEditReplaces(d: Diagram, form: FlowFormState, id: string, freshId: string)
    requires id != ""
    requires SubmitAction(form, Some(id), freshId).Some?
    ensures var r := Apply(Some(d), SubmitAction(form, Some(id), freshId).value).value.flows;
      && |r| == |d.flows|
      && (forall i :: 0 <= i < |r| ==> r[i] == if d.flows[i].id == id then BuildFlow(form, id) else d.flows[i])
      && ((forall i :: 0 <= i < |d.flows| ==> d.flows[i].id != id) ==> r == d.flows)
  {
    UpdateFlowSpec(d, id, FullFlowPatch(BuildFlow(form, id)));
    UpdateByIdSpec(d.flows, FlowId, id, f => MergeFlow(f, FullFlowPatch(BuildFlow(form, id))));
  }

  /** A flow in normal form (trimmed non-blank name, trimmed non-blank or no
      description, non-empty or no target, a trigger actor) is rebuilt
      unchanged from its own prefilled form. */
  lemma PrefillSubmitRoundTrip(f: Flow, actors: seq<Actor>)
    requires IsTrimmed(f.name) && f.name != "" && f.trigger.actor != ""
    requires f.description.None? || (IsTrimmed(f.description.value) && f.description.value != "")
    requires f.trigger.target.None? || f.trigger.target.value != ""
    ensures SubmitAction(FlowPrefill(Some(f), actors), Some(f.id), "").Some?
    ensures BuildFlow(FlowPrefill(Some(f), actors), f.id) == f
  {
    var form := FlowPrefill(Some(f), actors);
    assert form.name == f.name && form.triggerActor == f.trigger.actor;
    assert form.description == (if Truthy(f.description) then f.description.value else "");
    assert form.triggerTarget == (if Truthy(f.trigger.target) then f.trigger.target.value else "");
    TrimKeepsTrimmed(f.name);
    OptionalFieldRoundTrip(f.description);
    assert (if form.triggerTarget != "" then Some(form.triggerTarget) else None) == f.trigger.target;
    assert BuildFlow(form, f.id) == Flow(f.id, f.name, f.description, f.trigger, f.steps);
  }

  /** The form's state, edited through its setters. */
  class FlowForm {
    var name: string
    var description: string
    var triggerType: TriggerType
    var triggerActor: string
    var triggerAction: string
    var triggerTarget: string
    var steps: seq<FlowStep>

    function View(): FlowFormState
      reads this
    {
      FlowFormState(name, description, triggerType, triggerActor, triggerAction, triggerTarget, steps)
    }

    constructor()
      ensures View() == FlowFormState("", "", UserAction, "", "", "", [])
    {
      name, description, triggerType := "", "", UserAction;
      triggerActor, triggerAction, triggerTarget, steps := "", "", "", [];
    }

    /** The reset effect: fills the form from the flow being edited, or
        with the new-flow defaults. */
    method Prefill(store: Store, ui: UiStore)
      modifies this
      ensures View() == FlowPrefill(EditingFlow(store.diagram, ui.editingFlowId), ActorsOf(store.diagram))
    {
      var editing := EditingFlow(store.diagram, ui.editingFlowId);
      if editing.Some? {
        var f := editing.value;
        name := f.name;
        description := if Truthy(f.description) then f.description.value else "";
        triggerType := f.trigger.triggerType;
        triggerActor := f.trigger.actor;
        triggerAction := f.trigger.action;
        triggerTarget := if Truthy(f.trigger.target) then f.trigger.target.value else "";
        steps := f.steps;
      } else {
        var actors := ActorsOf(store.diagram);
        name := "";
        description := "";
        triggerType := UserAction;
        triggerActor := if Truthy(ActorIdAt(actors, 0)) then actors[0].id else "";
        triggerAction := "click";
        triggerTarget := "";
        steps := [];
      }
    }

    /** `addStep`: appends a new dispatch step and changes nothing else. */
    method AddStep(freshId: string, diagram: Option<Diagram>)
      modifies this
      ensures View() == old(View()).(steps := old(steps) + [NewStep(freshId, ActorsOf(diagram))])
    {
      steps := steps + [NewStep(freshId, ActorsOf(diagram))];
    }

    /** `updateStep`: merges the update into the step at `index` only. */
    method UpdateStep(index: nat, updates: StepPatch)
      requires index < |steps|
      modifies this
      ensures View() == old(View()).(steps := old(steps)[index := MergeStep(old(steps)[index], updates)])
      ensures |steps| == |old(steps)|
      ensures forall k :: 0 <= k < |steps| && k != index ==> steps[k] == old(steps)[k]
    {
      var newSteps := steps;
      newSteps := newSteps[index := MergeStep(newSteps[index], updates)];
      steps := newSteps;
    }

    /** `removeStep`: drops the step at `index`. */
    method RemoveStep(index: nat)
      modifies this
      ensures View() == old(View()).(steps := RemoveAt(old(steps), index))
    {
      steps := RemoveAt(steps, index);
    }

    /** `handleSubmit`: performs the submit's store action, if any, and then
        closes the flow modal; with none, nothing changes. */
    method HandleSubmit(freshId: string, store: Store, ui: UiStore)
      modifies store, ui
      ensures SubmitAction(View(), old(ui.editingFlowId), freshId).None? ==>
        store.diagram == old(store.diagram) && ui.View() == old(ui.View())
      ensures SubmitAction(View(), old(ui.editingFlowId), freshId).Some? ==>
        && store.diagram == Apply(old(store.diagram), SubmitAction(View(), old(ui.editingFlowId), freshId).value)
        && ui.View() == old(ui.View()).(isFlowModalOpen := false, editingFlowId := None)
    {
      if Trim(name) == "" || triggerActor == "" {
        return;
      }
      var editingFlowId := ui.editingFlowId;
      var isEditing := Truthy(editingFlowId);
      var id := if isEditing then editingFlowId.value else freshId;
      var flow := Flow(id, Trim(name), TrimmedOrUndefined(description),
                       FlowTrigger(triggerType, triggerActor, triggerAction,
                                   if triggerTarget != "" then Some(triggerTarget) else None),
                       steps);
      if isEditing {
        store.UpdateFlow(editingFlowId.value, FullFlowPatch(flow));
      } else {
        store.AddFlow(flow);
      }
      ui.CloseFlowModal();
    }
  }
}
