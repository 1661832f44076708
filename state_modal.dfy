/** The state editor of StateModal.tsx: name, owner, data type and
    description; submit needs a name and an owner and turns blank optional
    fields into none. */
module StateModal {
  import opened Wrappers
  import opened DiagramTypes
  import opened JsText
  import opened JsArray
  import opened DiagramStore
  import opened UiStore

  datatype StateForm = StateForm(name: string, owner: string, dataType: string, description: string)

  /** The state being edited: looked up by a non-empty editing id. */
  function EditingState(diagram: Option<Diagram>, editingStateId: Option<string>): Option<State>
  {
    if Truthy(editingStateId) && diagram.Some? then
      Find(diagram.value.states, (s: State) => s.id == editingStateId.value)
    else None
  }

  /** The form's contents when it opens: the edited state's fields, or an
      empty form owned by the first actor (or by no one). */
  function StatePrefill(editing: Option<State>, actors: seq<Actor>): StateForm
  {
    match editing
    case Some(s) =>
      StateForm(s.name, s.owner, if Truthy(s.dataType) then s.dataType.value else "",
                if Truthy(s.description) then s.description.value else "")
    case None => StateForm("", if |actors| > 0 then actors[0].id else "", "", "")
  }

  /** The state a submit builds under `id`. */
  function BuildState(form: StateForm, id: string): State
  {
    State(id, Trim(form.name), form.owner, TrimmedOrUndefined(form.dataType), TrimmedOrUndefined(form.description))
  }

  /** The update an edit sends: every field but the id. */
  function EditPatch(form: StateForm): StatePatch
  {
    StatePatch(None, Some(Trim(form.name)), Some(form.owner), Some(TrimmedOrUndefined(form.dataType)),
               Some(TrimmedOrUndefined(form.description)))
  }

  /** The store action a submit performs, or none for a blank name or no owner. */
  function StateSubmit(form: StateForm, editingStateId: Option<string>, freshId: string): Option<Edit>
  {
    if Trim(form.name) == "" || form.owner == "" then None
    else if Truthy(editingStateId) then Some(UpdateState(editingStateId.value, EditPatch(form)))
    else Some(AddState(BuildState(form, freshId)))
  }

  /** Submit needs a non-blank name and an owner; the built state has the
      trimmed name, the owner as chosen and each blank optional field as
      none; a new state has the fresh id. */
  lemma StateSubmitSpec(form: StateForm, editingStateId: Option<string>, freshId: string, actors: seq<Actor>)
    ensures StateSubmit(form, editingStateId, freshId).None? <==>
      (forall k :: 0 <= k < |form.name| ==> IsWhiteSpace(form.name[k])) || form.owner == ""
    ensures StateSubmit(StatePrefill(None, actors), editingStateId, freshId).None?
    ensures var s := BuildState(form, freshId);
      && s.id == freshId && s.name == Trim(form.name) && s.owner == form.owner
      && (s.dataType.None? <==> forall k :: 0 <= k < |form.dataType| ==> IsWhiteSpace(form.dataType[k]))
      && (s.description.None? <==> forall k :: 0 <= k < |form.description| ==> IsWhiteSpace(form.description[k]))
    ensures StateSubmit(form, editingStateId, freshId).Some? && !Truthy(editingStateId) ==>
      StateSubmit(form, editingStateId, freshId) == Some(AddState(BuildState(form, freshId)))
  {
  }

  /** An edit turns every state with the editing id into the built state
      under that same id, and leaves the others. */
  lemma StateEditSameId(d: Diagram, form: StateForm, id: string)
    requires id != "" && StateSubmit(form, Some(id), "").Some?
    ensures var r := Apply(Some(d), StateSubmit(form, Some(id), "").value).value.states;
      && |r| == |d.states|
      && forall i :: 0 <= i < |r| ==> r[i] == if d.states[i].id == id then BuildState(form, id) else d.states[i]
  {
    UpdateStateSpec(d, id, EditPatch(form));
  }

  /** A state in normal form is rebuilt unchanged from its own prefilled form. */
  lemma StatePrefillRoundTrip(s: State, actors: seq<Actor>)
    requires IsTrimmed(s.name)
    requires s.dataType.None? || (IsTrimmed(s.dataType.value) && s.dataType.value != "")
    requires s.description.None? || (IsTrimmed(s.description.value) && s.description.value != "")
    ensures BuildState(StatePrefill(Some(s), actors), s.id) == s
  {
    var form := StatePrefill(Some(s), actors);
    assert form.dataType == (if Truthy(s.dataType) then s.dataType.value else "");
    assert form.description == (if Truthy(s.description) then s.description.value else "");
    TrimKeepsTrimmed(s.name);
    OptionalFieldRoundTrip(s.dataType);
    OptionalFieldRoundTrip(s.description);
    assert BuildState(form, s.id) == State(s.id, s.name, s.owner, s.dataType, s.description);
  }

  /** `handleSubmit`: performs the submit's action, if any, and closes the
      state modal. */
  method HandleSubmit(form: StateForm, freshId: string, store: Store, ui: UiStore)
    modifies store, ui
    ensures StateSubmit(form, old(ui.editingStateId), freshId).None? ==>
      store.diagram == old(store.diagram) && ui.View() == old(ui.View())
    ensures StateSubmit(form, old(ui.editingStateId), freshId).Some? ==>
      && store.diagram == Apply(old(store.diagram), StateSubmit(form, old(ui.editingStateId), freshId).value)
      && ui.View() == old(ui.View()).(isStateModalOpen := false, editingStateId := None)
  {
    if Trim(form.name) == "" || form.owner == "" {
      return;
    }
    var editingStateId := ui.editingStateId;
    if Truthy(editingStateId) {
      store.UpdateState(editingStateId.value, EditPatch(form));
    } else {
      store.AddState(BuildState(form, freshId));
    }
    ui.CloseStateModal();
  }
}
