/** The condition editor of ConditionModal.tsx: an expression and a
    description; submit needs a non-blank expression. The editing id is a
    parameter here, since the UI store does not hold one. */
module ConditionModal {
  import opened Wrappers
  import opened DiagramTypes
  import opened JsText
  import opened JsArray
  import opened DiagramStore

  datatype ConditionForm = ConditionForm(expression: string, description: string)

  /** The condition being edited: looked up by a non-empty editing id. */
  function EditingCondition(diagram: Option<Diagram>, editingConditionId: Option<string>): Option<Condition>
  {
    if Truthy(editingConditionId) && diagram.Some? then
      Find(diagram.value.conditions, (c: Condition) => c.id == editingConditionId.value)
    else None
  }

  function ConditionPrefill(editing: Option<Condition>): ConditionForm
  {
    match editing
    case Some(c) => ConditionForm(c.expression, if Truthy(c.description) then c.description.value else "")
    case None => ConditionForm("", "")
  }

  function EditPatch(form: ConditionForm): ConditionPatch
  {
    ConditionPatch(None, Some(Trim(form.expression)), Some(TrimmedOrUndefined(form.description)))
  }

  /** The store action a submit performs, or none for a blank expression. */
  function ConditionSubmit(form: ConditionForm, editingConditionId: Option<string>, freshId: string): Option<Edit>
  {
    if Trim(form.expression) == "" then None
    else if Truthy(editingConditionId) then Some(UpdateCondition(editingConditionId.value, EditPatch(form)))
    else Some(AddCondition(Condition(freshId, Trim(form.expression), TrimmedOrUndefined(form.description))))
  }

  /** A blank expression does nothing; otherwise the stored expression is
      trimmed and a blank description is none, under the editing id when
      editing and the fresh one when creating. Opening with nothing to edit
      clears both fields. */
  lemma ConditionSubmitSpec(form: ConditionForm, editingConditionId: Option<string>, freshId: string)
    ensures ConditionPrefill(None) == ConditionForm("", "")
    ensures ConditionSubmit(form, editingConditionId, freshId).None? <==>
      forall k :: 0 <= k < |form.expression| ==> IsWhiteSpace(form.expression[k])
    ensures ConditionSubmit(form, editingConditionId, freshId).Some? && !Truthy(editingConditionId) ==>
      var e := ConditionSubmit(form, editingConditionId, freshId).value;
      && e.AddCondition? && e.condition.id == freshId && e.condition.expression == Trim(form.expression)
      && IsTrimmed(e.condition.expression) && e.condition.expression != ""
      && (e.condition.description.None? <==>
            forall k :: 0 <= k < |form.description| ==> IsWhiteSpace(form.description[k]))
    ensures ConditionSubmit(form, editingConditionId, freshId).Some? && Truthy(editingConditionId) ==>
      ConditionSubmit(form, editingConditionId, freshId) == Some(UpdateCondition(editingConditionId.value, EditPatch(form)))
  {
  }

  /** A condition in normal form, submitted unedited, is left as it was. */
  lemma ConditionPrefillRoundTrip(c: Condition)
    requires IsTrimmed(c.expression) && c.expression != ""
    requires c.description.None? || (IsTrimmed(c.description.value) && c.description.value != "")
    ensures MergeCondition(c, EditPatch(ConditionPrefill(Some(c)))) == c
  {
    TrimKeepsTrimmed(c.expression);
    if c.description.Some? {
      TrimKeepsTrimmed(c.description.value);
    }
  }

  /** `handleSubmit`: performs the submit's action, if any. */
  method HandleSubmit(form: ConditionForm, editingConditionId: Option<string>, freshId: string, store: Store)
    modifies store
    ensures ConditionSubmit(form, editingConditionId, freshId).None? ==> store.diagram == old(store.diagram)
    ensures ConditionSubmit(form, editingConditionId, freshId).Some? ==>
      store.diagram == Apply(old(store.diagram), ConditionSubmit(form, editingConditionId, freshId).value)
  {
    if Trim(form.expression) == "" {
      return;
    }
    if Truthy(editingConditionId) {
      store.UpdateCondition(editingConditionId.value, EditPatch(form));
    } else {
      store.AddCondition(Condition(freshId, Trim(form.expression), TrimmedOrUndefined(form.description)));
    }
  }
}
