/** The UI store of uiStore.ts: three selected ids, three sidebar panel
    flags, four modal flags and the id each editing modal works on (none
    when it creates). Each action sets only the fields it names. */
module UiStore {
  import opened Wrappers

  /** A snapshot of every field of the store. */
  datatype UiState = UiState(
    selectedActorId: Option<string>,
    selectedStateId: Option<string>,
    selectedFlowId: Option<string>,
    isActorPanelOpen: bool,
    isStatePanelOpen: bool,
    isFlowPanelOpen: bool,
    isActorModalOpen: bool,
    isStateModalOpen: bool,
    isFlowModalOpen: bool,
    isJsonModalOpen: bool,
    editingActorId: Option<string>,
    editingStateId: Option<string>,
    editingFlowId: Option<string>)

  /** The state the store starts in: nothing selected, every panel open,
      every modal closed, nothing being edited. */
  const InitialUiState := UiState(None, None, None, true, true, true, false, false, false, false, None, None, None)

  /** A closed modal holds no editing id; an open one may hold one or not.
      The initial state has this property and every action keeps it. */
  predicate ClosedModalsEditNothing(s: UiState)
  {
    && (!s.isActorModalOpen ==> s.editingActorId.None?)
    && (!s.isStateModalOpen ==> s.editingStateId.None?)
    && (!s.isFlowModalOpen ==> s.editingFlowId.None?)
  }

  class UiStore {
    var selectedActorId: Option<string>
    var selectedStateId: Option<string>
    var selectedFlowId: Option<string>
    var isActorPanelOpen: bool
    var isStatePanelOpen: bool
    var isFlowPanelOpen: bool
    var isActorModalOpen: bool
    var isStateModalOpen: bool
    var isFlowModalOpen: bool
    var isJsonModalOpen: bool
    var editingActorId: Option<string>
    var editingStateId: Option<string>
    var editingFlowId: Option<string>

    function View(): UiState
      reads this
    {
      UiState(selectedActorId, selectedStateId, selectedFlowId,
              isActorPanelOpen, isStatePanelOpen, isFlowPanelOpen,
              isActorModalOpen, isStateModalOpen, isFlowModalOpen, isJsonModalOpen,
              editingActorId, editingStateId, editingFlowId)
    }

    constructor()
      ensures View() == InitialUiState
    {
      selectedActorId, selectedStateId, selectedFlowId := None, None, None;
      isActorPanelOpen, isStatePanelOpen, isFlowPanelOpen := true, true, true;
      isActorModalOpen, isStateModalOpen, isFlowModalOpen, isJsonModalOpen := false, false, false, false;
      editingActorId, editingStateId, editingFlowId := None, None, None;
    }

    method SelectActor(id: Option<string>)
      modifies this
      ensures View() == old(View()).(selectedActorId := id)
    {
      selectedActorId := id;
    }

    method SelectState(id: Option<string>)
      modifies this
      ensures View() == old(View()).(selectedStateId := id)
    {
      selectedStateId := id;
    }

    method SelectFlow(id: Option<string>)
      modifies this
      ensures View() == old(View()).(selectedFlowId := id)
    {
      selectedFlowId := id;
    }

    method ToggleActorPanel()
      modifies this
      ensures View() == old(View()).(isActorPanelOpen := !old(isActorPanelOpen))
    {
      isActorPanelOpen := !isActorPanelOpen;
    }

    method ToggleStatePanel()
      modifies this
      ensures View() == old(View()).(isStatePanelOpen := !old(isStatePanelOpen))
    {
      isStatePanelOpen := !isStatePanelOpen;
    }

    method ToggleFlowPanel()
      modifies this
      ensures View() == old(View()).(isFlowPanelOpen := !old(isFlowPanelOpen))
    {
      isFlowPanelOpen := !isFlowPanelOpen;
    }

    /** `openActorModal(editId)`: a missing id means creating. */
    method OpenActorModal(editId: Option<string>)
      modifies this
      ensures View() == old(View()).(isActorModalOpen := true, editingActorId := editId)
    {
      isActorModalOpen, editingActorId := true, editId;
    }

    method CloseActorModal()
      modifies this
      ensures View() == old(View()).(isActorModalOpen := false, editingActorId := None)
    {
      isActorModalOpen, editingActorId := false, None;
    }

    method OpenStateModal(editId: Option<string>)
      modifies this
      ensures View() == old(View()).(isStateModalOpen := true, editingStateId := editId)
    {
      isStateModalOpen, editingStateId := true, editId;
    }

    method CloseStateModal()
      modifies this
      ensures View() == old(View()).(isStateModalOpen := false, editingStateId := None)
    {
      isStateModalOpen, editingStateId := false, None;
    }

    method OpenFlowModal(editId: Option<string>)
      modifies this
      ensures View() == old(View()).(isFlowModalOpen := true, editingFlowId := editId)
    {
      isFlowModalOpen, editingFlowId := true, editId;
    }

    method CloseFlowModal()
      modifies this
      ensures View() == old(View()).(isFlowModalOpen := false, editingFlowId := None)
    {
      isFlowModalOpen, editingFlowId := false, None;
    }

    method OpenJsonModal()
      modifies this
      ensures View() == old(View()).(isJsonModalOpen := true)
    {
      isJsonModalOpen := true;
    }

    method CloseJsonModal()
      modifies this
      ensures View() == old(View()).(isJsonModalOpen := false)
    {
      isJsonModalOpen := false;
    }
  }

  /** Every action keeps a closed modal free of an editing id. */
  lemma ActionsKeepClosedModalsClean(s: UiState, id: Option<string>)
    requires ClosedModalsEditNothing(s)
    ensures ClosedModalsEditNothing(InitialUiState)
    ensures ClosedModalsEditNothing(s.(isActorModalOpen := true, editingActorId := id))
    ensures ClosedModalsEditNothing(s.(isActorModalOpen := false, editingActorId := None))
    ensures ClosedModalsEditNothing(s.(isStateModalOpen := true, editingStateId := id))
    ensures ClosedModalsEditNothing(s.(isStateModalOpen := false, editingStateId := None))
    ensures ClosedModalsEditNothing(s.(isFlowModalOpen := true, editingFlowId := id))
    ensures ClosedModalsEditNothing(s.(isFlowModalOpen := false, editingFlowId := None))
    ensures ClosedModalsEditNothing(s.(isJsonModalOpen := true))
    ensures ClosedModalsEditNothing(s.(isJsonModalOpen := false))
    ensures ClosedModalsEditNothing(s.(selectedActorId := id))
    ensures ClosedModalsEditNothing(s.(selectedStateId := id))
    ensures ClosedModalsEditNothing(s.(selectedFlowId := id))
    ensures ClosedModalsEditNothing(s.(isActorPanelOpen := !s.isActorPanelOpen))
    ensures ClosedModalsEditNothing(s.(isStatePanelOpen := !s.isStatePanelOpen))
    ensures ClosedModalsEditNothing(s.(isFlowPanelOpen := !s.isFlowPanelOpen))
  {
  }

  /** A client of the store, written as a proof: toggling each panel twice
      restores the whole store. */
  method ToggleTwiceRestores(ui: UiStore)
    modifies ui
    ensures ui.View() == old(ui.View())
  {
    ui.ToggleActorPanel();
    ui.ToggleActorPanel();
    ui.ToggleStatePanel();
    ui.ToggleStatePanel();
    ui.ToggleFlowPanel();
    ui.ToggleFlowPanel();
  }

  /** A client of the store, written as a proof: opening the actor modal for
      an id and closing it leaves every other field as it was and the modal
      with no editing id. */
  method OpenThenCloseActorModal(ui: UiStore, id: Option<string>)
    modifies ui
    ensures ui.View() == old(ui.View()).(isActorModalOpen := false, editingActorId := None)
  {
    ui.OpenActorModal(id);
    ui.CloseActorModal();
  }
}
