/** The actor editor of ActorModal.tsx: a name, a type and a description,
    prefilled from the actor being edited; submit adds a new actor or sends
    an update of exactly those three fields. */
module ActorModal {
  import opened Wrappers
  import opened DiagramTypes
  import opened JsText
  import opened JsArray
  import opened DiagramStore
  import opened UiStore

  datatype ActorForm = ActorForm(name: string, actorType: ActorType, description: string)

  /** The actor being edited: looked up by a non-empty editing id. */
  function EditingActor(diagram: Option<Diagram>, editingActorId: Option<string>): Option<Actor>
  {
    if Truthy(editingActorId) && diagram.Some? then
      Find(diagram.value.actors, (a: Actor) => a.id == editingActorId.value)
    else None
  }

  /** The form's contents when it opens. */
  function ActorPrefill(editing: Option<Actor>): ActorForm
  {
    match editing
    case Some(a) => ActorForm(a.name, a.actorType, if Truthy(a.description) then a.description.value else "")
    case None => ActorForm("", Component, "")
  }

  /** The update an edit sends: name, type and description only. */
  function EditPatch(form: ActorForm): ActorPatch
  {
    ActorPatch(None, Some(form.actorType), Some(Trim(form.name)), Some(TrimmedOrUndefined(form.description)),
               None, None, None)
  }

  /** The store action a submit performs, or none for a blank name. */
  function ActorSubmit(form: ActorForm, editingActorId: Option<string>, freshId: string): Option<Edit>
  {
    if Trim(form.name) == "" then None
    else if Truthy(editingActorId) then Some(UpdateActor(editingActorId.value, EditPatch(form)))
    else Some(AddActor(Actor(freshId, form.actorType, Trim(form.name), TrimmedOrUndefined(form.description),
                             None, None, None)))
  }

  /** A blank name does nothing; a new actor has the fresh id, the trimmed
      name, the chosen type, the trimmed description or none, and no parent,
      colour or scope; an edit updates under the editing id. */
  lemma ActorSubmitSpec(form: ActorForm, editingActorId: Option<string>, freshId: string)
    ensures ActorSubmit(form, editingActorId, freshId).None? <==>
      forall k :: 0 <= k < |form.name| ==> IsWhiteSpace(form.name[k])
    ensures ActorSubmit(form, editingActorId, freshId).Some? && !Truthy(editingActorId) ==>
      var e := ActorSubmit(form, editingActorId, freshId).value;
      && e.AddActor?
      && e.actor.id == freshId && e.actor.name == Trim(form.name) && e.actor.name != ""
      && e.actor.actorType == form.actorType
      && (e.actor.description.None? <==> forall k :: 0 <= k < |form.description| ==> IsWhiteSpace(form.description[k]))
      && e.actor.parent.None? && e.actor.color.None? && e.actor.scope.None?
    ensures ActorSubmit(form, editingActorId, freshId).Some? && Truthy(editingActorId) ==>
      ActorSubmit(form, editingActorId, freshId) == Some(UpdateActor(editingActorId.value, EditPatch(form)))
  {
  }

  /** An edit changes the edited actors' name, type and description and
      keeps their id, parent, colour and scope; the other actors are kept. */
  lemma ActorEditKeepsExtras(d: Diagram, form: ActorForm, id: string)
    requires id != "" && Trim(form.name) != ""
    ensures var r := Apply(Some(d), ActorSubmit(form, Some(id), "").value).value.actors;
      && |r| == |d.actors|
      && forall i :: 0 <= i < |r| ==>
           r[i] == if d.actors[i].id == id
                   then d.actors[i].(name := Trim(form.name), actorType := form.actorType,
                                     description := TrimmedOrUndefined(form.description))
                   else d.actors[i]
  {
    UpdateActorSpec(d, id, EditPatch(form));
  }

  /** An actor in normal form: trimmed non-blank name, trimmed non-blank or
      no description. */
  predicate NormalForm(a: Actor)
  {
    IsTrimmed(a.name) && a.name != ""
    && (a.description.None? || (IsTrimmed(a.description.value) && a.description.value != ""))
  }

  /** Opening without an actor to edit resets the form; the unedited form of
      an actor in normal form merges back into that same actor. */
  lemma ActorPrefillRoundTrip(a: Actor)
    requires NormalForm(a)
    ensures ActorPrefill(None) == ActorForm("", Component, "")
    ensures Trim(ActorPrefill(Some(a)).name) != ""
    ensures MergeActor(a, EditPatch(ActorPrefill(Some(a)))) == a
  {
    TrimKeepsTrimmed(a.name);
    if a.description.Some? {
      TrimKeepsTrimmed(a.description.value);
    }
  }

  /** Submitting the unedited form of an actor in normal form leaves the
      diagram as it was. */
  lemma UneditedSubmitKeepsDiagram(d: Diagram, a: Actor)
    requires NormalForm(a) && a.id != ""
    requires forall i :: 0 <= i < |d.actors| && d.actors[i].id == a.id ==> d.actors[i] == a
    ensures ActorSubmit(ActorPrefill(Some(a)), Some(a.id), "").Some?
    ensures Apply(Some(d), ActorSubmit(ActorPrefill(Some(a)), Some(a.id), "").value) == Some(d)
  {
    ActorPrefillRoundTrip(a);
    var patch := EditPatch(ActorPrefill(Some(a)));
    UpdateActorSpec(d, a.id, patch);
    var r := Apply(Some(d), UpdateActor(a.id, patch)).value;
    assert r.actors == d.actors;
  }

  /** `handleSubmit`: performs the submit's action, if any, and closes the
      actor modal; a blank name changes nothing. */
  method HandleSubmit(form: ActorForm, freshId: string, store: Store, ui: UiStore)
    modifies store, ui
    ensures ActorSubmit(form, old(ui.editingActorId), freshId).None? ==>
      store.diagram == old(store.diagram) && ui.View() == old(ui.View())
    ensures ActorSubmit(form, old(ui.editingActorId), freshId).Some? ==>
      && store.diagram == Apply(old(store.diagram), ActorSubmit(form, old(ui.editingActorId), freshId).value)
      && ui.View() == old(ui.View()).(isActorModalOpen := false, editingActorId := None)
  {
    if Trim(form.name) == "" {
      return;
    }
    var editingActorId := ui.editingActorId;
    if Truthy(editingActorId) {
      store.UpdateActor(editingActorId.value, EditPatch(form));
    } else {
      store.AddActor(Actor(freshId, form.actorType, Trim(form.name), TrimmedOrUndefined(form.description),
                           None, None, None));
    }
    ui.CloseActorModal();
  }
}
