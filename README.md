# State Flow Visualizer — a Dafny model of its core

The State Flow Visualizer is a browser editor for "state flow" diagrams.
A diagram has four ordered collections:

- actors: components, stores, services and external systems;
- states: each owned by an actor;
- flows: each a trigger plus a sequence of steps between actors;
- conditions.

Two stores hold the editor's state. The diagram store keeps the diagram being edited and offers add, update and delete for each collection. The UI store keeps the selections, the sidebar panels and the modal dialogs. The sequence view projects a diagram onto nodes and edges: one column per actor, one row per drawable step, and a trigger marker at the start of a flow. Diagrams persist in a browser table keyed by id, with their dates stored as text. A JSON dialog exports diagrams and imports them again.

The model follows the program's structure, one module per source file:

| module | file | form |
|---|---|---|
| `DiagramTypes` | `diagram_types.dfy` | datatypes, enumeration names and their parsers |
| `SequenceDiagram` | `sequence_diagram.dfy` | the layout as functions, plus the imperative loop proved equal to them |
| `LayoutProperties` | `layout_properties.dfy` | what the layout guarantees |
| `MessageEdge` | `message_edge.dfy` | the edge renderer |
| `ActorNode` | `actor_node.dfy` | the node renderer |
| `DiagramStore` | `diagram_store.dfy` | store actions as one `Apply` function plus a `Store` class |
| `UiStore` | `ui_store.dfy` | a class |
| `Database` | `database.dfy` | record conversion, plus a `DiagramDatabase` class over a map |
| `JsonModal` | `json_modal.dfy` | import and export functions, plus a `JsonDialog` class |
| `FlowModal`, `ActorModal`, `StateModal`, `ConditionModal` | one file each | prefill and submit functions, plus methods acting on the stores |
| `Sidebar` | `sidebar.dfy` | section counts and the grouping of states by owner |

Three helper modules supply the JavaScript semantics the code relies on:

- `Wrappers`: `Option` and `Result`.
- `JsText`: truthiness, `||` and `trim`.
- `JsArray`: `find`, `filter` and the by-id `map`.

Modelling choices:

- A JavaScript `Date` is a millisecond time value or the invalid date.
- `Partial<T>` updates keep JavaScript's spread semantics. A missing key is `None`. A key that is present but holds `undefined` is `Some(None)`, and it overrides the current value.
- The current time (`new Date()`) and fresh ids (`crypto.randomUUID()`) are parameters. One submit or import uses one value of each.
- `JSON.stringify` is a parameter of the export.
- The sequence view's stroke widths, 2 and 1.5, are stored in tenths of a pixel (20 and 15).

Code notes, where the code behaves otherwise than it may appear to:

- Import, parse failure. The fallback message at front/src/components/editor/JsonModal.tsx:96 is unreachable. `JSON.parse` throws a `SyntaxError`, which is an `Error`, so the dialog always shows the parser's own message (`JsonModal.JsonDialog.HandleApplyImport`).
- Edge badge colour. The layout hands each edge its scope under the key `targetScope`. `MessageEdge.tsx` reads `scope`, so every drawn badge is the local one (`MessageEdge.LayoutEdgeBadge`).
- Lifeline length. The layout computes a lifeline height for each actor node. `ActorNode.tsx` ignores it and always draws 500 px (`ActorNode.LayoutActorStyle`).
- Lifeline height formula. The height (front/src/components/diagram/SequenceDiagram.tsx:53-57) counts the steps but not the one-row gap the cursor leaves after each flow (line 173). With four flows of three drawable steps, the height is 60·12 + 200 = 920, while the last edge sits at 100 + 60·14 = 940. The model keeps the formula as written; since `ActorNode.tsx` draws 500 px regardless, nothing drawn depends on it.

The central model functions carry no contract of their own. The lemmas in the table below specify them:

| function | source | specified by |
|---|---|---|
| `SequenceDiagram.LayoutOf` | front/src/components/diagram/SequenceDiagram.tsx:42-180 | `SequenceDiagram.ComputeLayout`, `LayoutProperties.EdgesOfLayout`, `LayoutProperties.ActorColumns`, `LayoutProperties.FlowPlacementEdges`, `LayoutProperties.FlowPlacementMarker`, `LayoutProperties.NoDiagramNoOutput` |
| `SequenceDiagram.StepEdge` | front/src/components/diagram/SequenceDiagram.tsx:114-169 | `LayoutProperties.StepEdgeResolution`, `LayoutProperties.StepEdgeLabel`, `LayoutProperties.StepEdgeWellStyled`, `LayoutProperties.StepEdgeRow` |
| `DiagramStore.Apply` | front/src/stores/diagramStore.ts:49-190 | `DiagramStore.ApplyTouchesOnlyItsCollection`, `DiagramStore.AddAppends`, the `DiagramStore.Update*Spec` and `DiagramStore.Delete*Spec` lemmas |
| `JsonModal.ImportDiagram` | front/src/components/editor/JsonModal.tsx:61-92 | `JsonModal.ImportDiagramSpec`, `JsonModal.ExportImportRoundTrip` |
| `Database.DiagramToRecord` | front/src/db/database.ts:59-65 | `Database.DiagramToRecordSpec`, `Database.RecordRoundTrip` |
| `Database.RecordToDiagram` | front/src/db/database.ts:50-56 | `Database.RecordToDiagramSpec`, `Database.RecordRoundTrip` |
| `MessageEdge.RenderEdge` | front/src/components/diagram/edges/MessageEdge.tsx:40-66 | `MessageEdge.RenderEdgeDefaults`, `MessageEdge.LayoutEdgeBadge` |
| `ActorNode.RenderActor` | front/src/components/diagram/nodes/ActorNode.tsx:24-60 | `ActorNode.RenderActorStyle`, `ActorNode.LayoutActorStyle` |
| `Sidebar.GroupsOf` | front/src/components/layout/Sidebar.tsx:154-163 | `Sidebar.GroupsSpec`, `Sidebar.GroupsConcat`, `Sidebar.OwnedStateIsListed`, `Sidebar.UnownedAreUnlisted`, `Sidebar.ListedCountIsOwnedStates` |

## Model

| member | source | states |
|---|---|---|
| `DiagramTypes.WithIdentity` | front/src/types/diagram.ts:77-81 | a diagram built from a creation input has that input and the given id and dates |
| `DiagramTypes.InputOmitsExactlyIdentity` | front/src/types/diagram.ts:64-81 | a diagram is exactly its creation input plus id, createdAt and updatedAt |
| `DiagramTypes.ParseActorType` | front/src/types/diagram.ts:5 | the parsed type names the text; no result means no actor type has that name |
| `DiagramTypes.ParseStepType` | front/src/types/diagram.ts:38 | as above, for the five step types |
| `DiagramTypes.ParseScope` | front/src/types/diagram.ts:2 | as above, for the three scopes |
| `DiagramTypes.ParseTriggerType` | front/src/types/diagram.ts:29 | as above, for the four trigger types |
| `DiagramTypes.NamesRoundTrip` | front/src/types/diagram.ts:1-46 | parsing the name of any enumeration member gives that member back |
| `DiagramTypes.EnumerationsAreExact` | front/src/types/diagram.ts:1-46 | 4 actor types, 3 scopes, 4 trigger types and 5 step types, each listed once and every member listed |
| `JsText.Trim` | front/src/components/editor/ActorModal.tsx:58 | the result is a slice of the input that neither starts nor ends with white space; it is empty exactly when the input is all white space |
| `JsText.TrimKeepsTrimmed` | front/src/components/editor/ActorModal.tsx:62 | trimming a trimmed text changes nothing, and trimming is idempotent |
| `JsText.TrimmedOrUndefined` | front/src/components/editor/ActorModal.tsx:64 | undefined exactly when the text is blank, otherwise the trimmed text, which is truthy |
| `JsArray.Find` | front/src/components/editor/ActorModal.tsx:40-42 | a found element is the first in the list that satisfies the test; nothing is found exactly when no element does |
| `JsArray.Filter` | front/src/stores/diagramStore.ts:79 | keeps only elements of the list that satisfy the test, and every element that does |
| `JsArray.MapWhere` | front/src/stores/diagramStore.ts:66-68 | same length; each element is replaced exactly when it satisfies the test |
| `SequenceDiagram.GetColor` | front/src/components/diagram/SequenceDiagram.tsx:27-36 | the colour is one of the six palette entries |
| `SequenceDiagram.LifelineHeight` | front/src/components/diagram/SequenceDiagram.tsx:53-57 | the maximum of 500 and 60 times the step count plus 200 |
| `SequenceDiagram.BuildActorPositions` | front/src/components/diagram/SequenceDiagram.tsx:74-78 | the loop builds the column map `ActorPositions` |
| `SequenceDiagram.EmitFlowSteps` | front/src/components/diagram/SequenceDiagram.tsx:114-172 | the step loop appends exactly `FlowEdges` and advances the cursor once per drawable step |
| `SequenceDiagram.EmitTrigger` | front/src/components/diagram/SequenceDiagram.tsx:86-112 | appends the flow's trigger marker, when it has one |
| `SequenceDiagram.EmitFlows` | front/src/components/diagram/SequenceDiagram.tsx:85-174 | the flow loop yields exactly the trigger markers `FlowsTriggers` and the edges `FlowsEdges` of all flows, the cursor starting at row 0 |
| `SequenceDiagram.ComputeLayout` | front/src/components/diagram/SequenceDiagram.tsx:42-180 | the imperative computation yields exactly the layout function `LayoutOf` |
| `LayoutProperties.ColorLegendIsUnambiguous` | front/src/components/diagram/SequenceDiagram.tsx:27-36 | two actors get the same colour exactly when they have the same type and, for stores, the same scope (a missing scope counts as local) |
| `LayoutProperties.MiniMapColors` | front/src/components/diagram/SequenceDiagram.tsx:230-241 | the MiniMap colours by actor type only and never reaches its gray fallback; a trigger marker has no actor type and gets component blue; it agrees with `getColor` for components, services and global stores, and differs from it for external actors |
| `LayoutProperties.ActorPositionsSpec` | front/src/components/diagram/SequenceDiagram.tsx:74-78 | every actor id has a column, every column belongs to an actor id, and a duplicated id takes the column of its last occurrence |
| `LayoutProperties.TriggersAreMarkers` | front/src/components/diagram/SequenceDiagram.tsx:95-111 | the trigger list holds only trigger nodes |
| `LayoutProperties.ActorColumns` | front/src/components/diagram/SequenceDiagram.tsx:60-72 | one actor node per actor, in list order, at x = 200·i, y = 0, with x strictly increasing in steps of 200; every later node is a trigger marker; with unique ids each actor's column is its own x |
| `LayoutProperties.NoDiagramNoOutput` | front/src/components/diagram/SequenceDiagram.tsx:43-45 | no diagram gives no nodes and no edges |
| `LayoutProperties.RenderedCountIsFilter` | front/src/components/diagram/SequenceDiagram.tsx:115 | the drawable steps are those with a non-empty from and to |
| `LayoutProperties.FlowEdgesAreDrawableSteps` | front/src/components/diagram/SequenceDiagram.tsx:114-172 | within a flow, the k-th edge is built from the k-th drawable step at row `row + k` |
| `LayoutProperties.StepEdgeRow` | front/src/components/diagram/SequenceDiagram.tsx:142-159 | an edge has id `flowId-stepId` and y = 100 + 60·row |
| `LayoutProperties.FlowEdgesRows` | front/src/components/diagram/SequenceDiagram.tsx:142-170 | the k-th edge of a flow has row `row + k` and the k-th drawable step's id |
| `LayoutProperties.FlowsEndFormula` | front/src/components/diagram/SequenceDiagram.tsx:170-173 | after all flows the cursor has advanced once per drawable step plus once per flow |
| `LayoutProperties.FlowsEdgesCount` | front/src/components/diagram/SequenceDiagram.tsx:85-174 | one edge per drawable step of all flows, at most the total step count |
| `LayoutProperties.RowsAscendConcat` | front/src/components/diagram/SequenceDiagram.tsx:85-174 | edge lists that ascend in adjacent row ranges ascend when concatenated |
| `LayoutProperties.FlowsEdgesRows` | front/src/components/diagram/SequenceDiagram.tsx:85-174 | edge rows strictly increase in emission order and lie between the start and the end cursor |
| `LayoutProperties.FlowsSplit` | front/src/components/diagram/SequenceDiagram.tsx:85-174 | what the first f flows emit, followed by what the rest emit from the cursor the first f leave |
| `LayoutProperties.FlowPlacementEdges` | front/src/components/diagram/SequenceDiagram.tsx:85-174 | flow f's edges come after the earlier flows' edges, starting at the row those flows leave |
| `LayoutProperties.FlowPlacementMarker` | front/src/components/diagram/SequenceDiagram.tsx:85-177 | flow f's marker sits after the actor nodes and the earlier flows' markers, 40 px above flow f's first row |
| `LayoutProperties.EdgesOfLayout` | front/src/components/diagram/SequenceDiagram.tsx:42-180 | the whole layout has one edge per drawable step, rows strictly increasing, every y at least 100; the computed lifeline height is at least 500 and at least 60 times the number of steps (drawable or not) plus 200 |
| `LayoutProperties.StepEdgeWellStyled` | front/src/components/diagram/SequenceDiagram.tsx:130-169 | dispatch edges are gray, labelled "dispatch" and handed on as external/local; other edges take `getColor` of their target; exactly the subscribe edges are dashed, animated and 2 px wide; only subscribe and dispatch edges carry a target action; no label is empty |
| `LayoutProperties.LayoutEdgesWellStyled` | front/src/components/diagram/SequenceDiagram.tsx:130-169 | every edge of every layout obeys those colour, dash and label rules |
| `LayoutProperties.FlowsWellStyled` | front/src/components/diagram/SequenceDiagram.tsx:130-169 | every edge of a list of flows obeys those rules |
| `LayoutProperties.StepEdgeResolution` | front/src/components/diagram/SequenceDiagram.tsx:116-128 | id, endpoints and row as emitted; an id matching no actor gives column 0 and, for a non-dispatch step, a local component's type, scope and colour; a matching id takes type, scope and colour from the first actor with it (`find`) and its column from the last (`Map.set`), for both endpoints' columns |
| `LayoutProperties.StepEdgeLabel` | front/src/components/diagram/SequenceDiagram.tsx:121-153 | a subscribe step whose state resolves is labelled "Notify: name"; otherwise dispatch, then action, description or the type name |
| `LayoutProperties.TriggerMarker` | front/src/components/diagram/SequenceDiagram.tsx:74-111 | a flow gets a marker exactly when its trigger actor is non-empty and has a column; the marker is 120 px left of the column of the last actor with that id, 40 px above the flow's first row, and reads `Trigger: <action> ` followed by `(<target>)` only for a non-empty target |
| `LayoutProperties.TriggersInFlowOrder` | front/src/components/diagram/SequenceDiagram.tsx:85-112 | one marker per flow that has one, in flow order |
| `MessageEdge.GlyphTable` | front/src/components/diagram/edges/MessageEdge.tsx:23-65 | each step type name looks up its own glyph; any other key gets the arrow; a non-arrow glyph means a non-dispatch step type |
| `MessageEdge.BadgesDistinct` | front/src/components/diagram/edges/MessageEdge.tsx:17-21 | the three scopes have three distinct badge classes |
| `MessageEdge.RenderEdgeDefaults` | front/src/components/diagram/edges/MessageEdge.tsx:40-66 | both endpoints drop by 80 px; missing data means a local badge, an empty label and the dispatch arrow; yPosition has no effect |
| `MessageEdge.LayoutEdgeBadge` | front/src/components/diagram/edges/MessageEdge.tsx:47-58 | every edge the layout emits shows the local badge, with the layout's label and the glyph of its step type |
| `ActorNode.StyleTable` | front/src/components/diagram/nodes/ActorNode.tsx:10-24 | each actor type has its own style entry; any other key gets the component entry |
| `ActorNode.RenderActorStyle` | front/src/components/diagram/nodes/ActorNode.tsx:24-60 | the style is one table entry; the lifeline is always 500 px whatever height or colour is passed; the ring is shown exactly when selected |
| `ActorNode.LayoutActorStyle` | front/src/components/diagram/nodes/ActorNode.tsx:24-53 | an actor node from the layout shows its actor's type style; with more than five steps the computed lifeline exceeds the 500 px drawn |
| `Database.DigitsRoundTrip` | front/src/db/database.ts:62-63 | reading the digits of a number gives it back (the date text stand-in) |
| `Database.TimeTextParses` | front/src/db/database.ts:53-63 | parsing the text of any time value, negative ones included, gives that time value |
| `Database.TimeTextRoundTrip` | front/src/db/database.ts:53-63 | reading a time value's text gives it back, so distinct times have distinct texts |
| `Database.DateTextRoundTrip` | front/src/db/database.ts:53-63 | a date's text is never empty and `new Date` reads it back as the same date |
| `Database.DiagramToRecordSpec` | front/src/db/database.ts:59-65 | conversion fails with "Invalid time value" exactly when a date is invalid; otherwise it keeps every other field and writes both dates as text |
| `Database.RecordToDiagramSpec` | front/src/db/database.ts:50-56 | the conversion back keeps every other field and reads each of the two dates with `new Date`: a parsable text gives its time, any other the invalid date |
| `Database.RecordRoundTrip` | front/src/db/database.ts:50-65 | a diagram with valid dates survives the round trip through its record |
| `Database.TableLaws` | front/src/db/database.ts:33-47 | after a put, reading the id gives the diagram; after a delete, nothing; other ids are unaffected |
| `Database.DiagramDatabase.constructor` | front/src/db/database.ts:13-24 | the table starts empty |
| `Database.DiagramDatabase.SaveDiagram` | front/src/db/database.ts:39-42 | puts the record under the id, or throws and leaves the table as it was |
| `Database.DiagramDatabase.DeleteDiagram` | front/src/db/database.ts:45-47 | removes that key only |
| `DiagramStore.PickLater` | front/src/stores/diagramStore.ts:67 | spreading two updates in turn is spreading their merge; spreading the same update twice is spreading it once |
| `DiagramStore.MergeActorLaws` | front/src/stores/diagramStore.ts:66-68 | an empty update leaves the actor unchanged; merging twice is merging the combined update; merging is idempotent |
| `DiagramStore.MergeStateLaws` | front/src/stores/diagramStore.ts:102-104 | the same laws for states |
| `DiagramStore.MergeFlowLaws` | front/src/stores/diagramStore.ts:138-140 | the same laws for flows |
| `DiagramStore.MergeConditionLaws` | front/src/stores/diagramStore.ts:174-176 | the same laws for conditions |
| `DiagramStore.UpdateByIdSpec` | front/src/stores/diagramStore.ts:66-68 | keeps length and order, merges exactly the elements with the id, and without one changes nothing |
| `DiagramStore.DeleteByIdSpec` | front/src/stores/diagramStore.ts:79 | no survivor has the id; every other element survives in order; without one nothing changes; deleting is idempotent |
| `DiagramStore.AddThenDelete` | front/src/stores/diagramStore.ts:49-82 | deleting a just-added element whose id was new restores the list |
| `DiagramStore.ApplyTouchesOnlyItsCollection` | front/src/stores/diagramStore.ts:49-190 | with no diagram every action does nothing; otherwise an action changes only its own collection |
| `DiagramStore.AddAppends` | front/src/stores/diagramStore.ts:49-166 | an add puts the element last and keeps the earlier ones |
| `DiagramStore.UpdateActorSpec` | front/src/stores/diagramStore.ts:60-71 | exactly the actors with the id get the update merged in |
| `DiagramStore.UpdateStateSpec` | front/src/stores/diagramStore.ts:96-107 | the same for states |
| `DiagramStore.UpdateFlowSpec` | front/src/stores/diagramStore.ts:132-143 | the same for flows |
| `DiagramStore.UpdateConditionSpec` | front/src/stores/diagramStore.ts:168-179 | the same for conditions |
| `DiagramStore.DeleteActorSpec` | front/src/stores/diagramStore.ts:73-82 | the actors with the id are removed and no others; deleting a just-added new id undoes the add |
| `DiagramStore.DeleteStateSpec` | front/src/stores/diagramStore.ts:109-118 | the same for states |
| `DiagramStore.DeleteFlowSpec` | front/src/stores/diagramStore.ts:145-154 | the same for flows |
| `DiagramStore.DeleteConditionSpec` | front/src/stores/diagramStore.ts:181-190 | the same for conditions |
| `DiagramStore.Store.constructor` | front/src/stores/diagramStore.ts:35 | the store starts with no diagram |
| `DiagramStore.Store.SetDiagram` | front/src/stores/diagramStore.ts:37 | the slot becomes the given value, including none |
| `DiagramStore.Store.SaveDiagram` | front/src/stores/diagramStore.ts:39-46 | with a diagram, stamps updatedAt with now and puts exactly that diagram into the table; with none, changes nothing |
| `DiagramStore.Store.Perform` | front/src/stores/diagramStore.ts:49-190 | the new slot is `Apply` of the old slot and the action |
| `DiagramStore.Store.AddActor` | front/src/stores/diagramStore.ts:49-58 | the slot becomes `Apply(old, AddActor)` |
| `DiagramStore.Store.UpdateActor` | front/src/stores/diagramStore.ts:60-71 | the slot becomes `Apply(old, UpdateActor)` |
| `DiagramStore.Store.DeleteActor` | front/src/stores/diagramStore.ts:73-82 | the slot becomes `Apply(old, DeleteActor)` |
| `DiagramStore.Store.AddState` | front/src/stores/diagramStore.ts:85-94 | the slot becomes `Apply(old, AddState)` |
| `DiagramStore.Store.UpdateState` | front/src/stores/diagramStore.ts:96-107 | the slot becomes `Apply(old, UpdateState)` |
| `DiagramStore.Store.DeleteState` | front/src/stores/diagramStore.ts:109-118 | the slot becomes `Apply(old, DeleteState)` |
| `DiagramStore.Store.AddFlow` | front/src/stores/diagramStore.ts:121-130 | the slot becomes `Apply(old, AddFlow)` |
| `DiagramStore.Store.UpdateFlow` | front/src/stores/diagramStore.ts:132-143 | the slot becomes `Apply(old, UpdateFlow)` |
| `DiagramStore.Store.DeleteFlow` | front/src/stores/diagramStore.ts:145-154 | the slot becomes `Apply(old, DeleteFlow)` |
| `DiagramStore.Store.AddCondition` | front/src/stores/diagramStore.ts:157-166 | the slot becomes `Apply(old, AddCondition)` |
| `DiagramStore.Store.UpdateCondition` | front/src/stores/diagramStore.ts:168-179 | the slot becomes `Apply(old, UpdateCondition)` |
| `DiagramStore.Store.DeleteCondition` | front/src/stores/diagramStore.ts:181-190 | the slot becomes `Apply(old, DeleteCondition)` |
| `UiStore.UiStore.constructor` | front/src/stores/uiStore.ts:48-64 | nothing selected, every panel open, every modal closed, nothing being edited |
| `UiStore.UiStore.SelectActor` | front/src/stores/uiStore.ts:66 | only the selected actor changes |
| `UiStore.UiStore.SelectState` | front/src/stores/uiStore.ts:67 | only the selected state changes |
| `UiStore.UiStore.SelectFlow` | front/src/stores/uiStore.ts:68 | only the selected flow changes |
| `UiStore.UiStore.ToggleActorPanel` | front/src/stores/uiStore.ts:70-71 | only the actor panel flag flips |
| `UiStore.UiStore.ToggleStatePanel` | front/src/stores/uiStore.ts:72-73 | only the state panel flag flips |
| `UiStore.UiStore.ToggleFlowPanel` | front/src/stores/uiStore.ts:74 | only the flow panel flag flips |
| `UiStore.UiStore.OpenActorModal` | front/src/stores/uiStore.ts:76-77 | opens the modal with the editing id, or none for creating; nothing else changes |
| `UiStore.UiStore.CloseActorModal` | front/src/stores/uiStore.ts:78 | closes the modal and clears the editing id; nothing else changes |
| `UiStore.UiStore.OpenStateModal` | front/src/stores/uiStore.ts:79-80 | as for the actor modal |
| `UiStore.UiStore.CloseStateModal` | front/src/stores/uiStore.ts:81 | as for the actor modal |
| `UiStore.UiStore.OpenFlowModal` | front/src/stores/uiStore.ts:82-83 | as for the actor modal |
| `UiStore.UiStore.CloseFlowModal` | front/src/stores/uiStore.ts:84 | as for the actor modal |
| `UiStore.UiStore.OpenJsonModal` | front/src/stores/uiStore.ts:85 | only the JSON modal flag is set |
| `UiStore.UiStore.CloseJsonModal` | front/src/stores/uiStore.ts:86 | only the JSON modal flag is cleared |
| `UiStore.ActionsKeepClosedModalsClean` | front/src/stores/uiStore.ts:48-86 | the initial state has no editing id on a closed modal, and every action (each select, each panel toggle, each modal open and close) keeps that so |
| `UiStore.ToggleTwiceRestores` | front/src/stores/uiStore.ts:70-74 | toggling each of the three panels twice restores the whole store |
| `UiStore.OpenThenCloseActorModal` | front/src/stores/uiStore.ts:76-78 | opening then closing the actor modal changes only its flag and editing id, which end closed and none |
| `JsonModal.ImportDiagramSpec` | front/src/components/editor/JsonModal.tsx:61-92 | fails with the fixed message exactly when id or name is missing or empty; otherwise the dates are read or set to now, non-arrays become empty, and with a current diagram its id and the time now replace the imported ones |
| `JsonModal.ExportImportRoundTrip` | front/src/components/editor/JsonModal.tsx:24-92 | importing an exported diagram with a non-empty id and name always succeeds and gives the diagram back field for field, except that each invalid date comes back as now; over a diagram being edited it takes that diagram's id and stamps `updatedAt` with now; with valid dates and no diagram being edited it is the diagram itself |
| `JsonModal.ExportedDateField` | front/src/components/editor/JsonModal.tsx:24-92 | an exported date field is read back as that date, or as now when the date was invalid |
| `JsonModal.JsonDialog.constructor` | front/src/components/editor/JsonModal.tsx:19-22 | empty text, export mode, not copied, no error |
| `JsonModal.JsonDialog.HandleExport` | front/src/components/editor/JsonModal.tsx:24-30 | with no diagram nothing changes; otherwise the text is its JSON, the mode export, and the error cleared |
| `JsonModal.JsonDialog.HandleImport` | front/src/components/editor/JsonModal.tsx:55-59 | import mode, empty text, no error |
| `JsonModal.JsonDialog.HandleApplyImport` | front/src/components/editor/JsonModal.tsx:61-98 | a parse error or invalid document shows its message and changes no store; a valid one sets the diagram to the import and closes the modal |
| `FlowModal.MenusMatchTypes` | front/src/components/editor/FlowModal.tsx:27-40 | the menus list every trigger and step type once, in order, and each step icon is the edge glyph of that type |
| `FlowModal.NewFlowDefaults` | front/src/components/editor/FlowModal.tsx:69-77 | a new flow starts as a user action "click" on the first actor, or on none, with no steps |
| `FlowModal.NewStepSpec` | front/src/components/editor/FlowModal.tsx:80-88 | a new step has the fresh id and is a dispatch from the first actor to the second, or to the first when there is no second or its id is empty; with no actors it has no endpoints; it has no other fields |
| `FlowModal.RemoveAtSpec` | front/src/components/editor/FlowModal.tsx:96-98 | removing an index drops exactly that element and shifts the later ones; an index out of range changes nothing |
| `FlowModal.SentinelRoundTrip` | front/src/components/editor/FlowModal.tsx:346-394 | choosing "none" stores no reference, choosing an id stores it, and a shown reference reads back as itself unless it was empty (which reads back as none) or the sentinel itself |
| `FlowModal.SubmitActionSpec` | front/src/components/editor/FlowModal.tsx:100-124 | nothing happens exactly when the name is blank or no trigger actor is chosen; editing updates under the editing id; creating adds the built flow |
| `FlowModal.SubmitEditReplaces` | front/src/components/editor/FlowModal.tsx:104-118 | an edit replaces every flow carrying the id by the built flow and leaves the rest |
| `FlowModal.PrefillSubmitRoundTrip` | front/src/components/editor/FlowModal.tsx:60-115 | a flow in normal form, prefilled and submitted unchanged, is rebuilt as itself |
| `FlowModal.FlowForm.constructor` | front/src/components/editor/FlowModal.tsx:46-53 | the form starts empty, as a user action, with no steps |
| `FlowModal.FlowForm.Prefill` | front/src/components/editor/FlowModal.tsx:55-78 | the form becomes the prefill of the flow being edited, or the new-flow defaults |
| `FlowModal.FlowForm.AddStep` | front/src/components/editor/FlowModal.tsx:80-88 | appends the new step and changes nothing else |
| `FlowModal.FlowForm.UpdateStep` | front/src/components/editor/FlowModal.tsx:90-94 | merges the update into the step at the index only |
| `FlowModal.FlowForm.RemoveStep` | front/src/components/editor/FlowModal.tsx:96-98 | drops the step at the index |
| `FlowModal.FlowForm.HandleSubmit` | front/src/components/editor/FlowModal.tsx:100-124 | a blank submit changes nothing; otherwise performs the submit's action and closes the flow modal |
| `ActorModal.ActorSubmitSpec` | front/src/components/editor/ActorModal.tsx:56-77 | a blank name does nothing; a new actor has the fresh id and the trimmed fields; an edit updates the name, type and description under the editing id |
| `ActorModal.ActorEditKeepsExtras` | front/src/components/editor/ActorModal.tsx:60-65 | an edit keeps the list's length; each actor with the editing id gets the trimmed name, the type and the trimmed description (or none) and keeps its id, parent, colour and scope; other actors are unchanged |
| `ActorModal.ActorPrefillRoundTrip` | front/src/components/editor/ActorModal.tsx:44-65 | a new form is empty and of type component; the unedited form of an actor in normal form merges back to the actor |
| `ActorModal.UneditedSubmitKeepsDiagram` | front/src/components/editor/ActorModal.tsx:40-77 | submitting an actor's unedited form leaves the diagram unchanged |
| `ActorModal.HandleSubmit` | front/src/components/editor/ActorModal.tsx:56-77 | a blank name changes nothing; otherwise performs the action and closes the actor modal |
| `StateModal.StateSubmitSpec` | front/src/components/editor/StateModal.tsx:52-75 | a submit needs a non-blank name and an owner; the fresh form with no actors cannot submit; creating adds the built state under the fresh id |
| `StateModal.StateEditSameId` | front/src/components/editor/StateModal.tsx:56-62 | an edit turns every state with the editing id into the built state with that same id |
| `StateModal.StatePrefillRoundTrip` | front/src/components/editor/StateModal.tsx:38-70 | a state in normal form is rebuilt as itself from its prefilled form |
| `StateModal.HandleSubmit` | front/src/components/editor/StateModal.tsx:52-75 | a refused submit changes nothing; otherwise performs the action and closes the state modal |
| `ConditionModal.ConditionSubmitSpec` | front/src/components/editor/ConditionModal.tsx:30-59 | the new form is empty; a blank expression does nothing; otherwise the stored expression and description are trimmed, under the fresh or the editing id |
| `ConditionModal.ConditionPrefillRoundTrip` | front/src/components/editor/ConditionModal.tsx:30-48 | a condition in normal form, submitted unedited, is left as it was |
| `ConditionModal.HandleSubmit` | front/src/components/editor/ConditionModal.tsx:40-56 | a blank expression changes nothing; otherwise performs the submit's action |
| `Sidebar.TablesDistinguish` | front/src/components/layout/Sidebar.tsx:9-163 | a missing scope shows the local icon; icons differ exactly when scopes do; type dots differ exactly when types do |
| `Sidebar.CountsFollowEdits` | front/src/components/layout/Sidebar.tsx:68-294 | an add raises its own section's count by one; an update changes no count; a delete sets only its own section's count to the number of elements without the id, so deleting a present unique actor id lowers the actor count by one |
| `Sidebar.DeleteUniqueId` | front/src/stores/diagramStore.ts:79 | deleting an id that exactly one actor carries removes exactly one actor |
| `Sidebar.GroupsSpec` | front/src/components/layout/Sidebar.tsx:154-163 | each group belongs to a listed actor, shows its scope icon, holds exactly the states that actor owns in order, and is never empty |
| `Sidebar.GroupsConcat` | front/src/components/layout/Sidebar.tsx:154 | groups follow actor order |
| `Sidebar.OwnedStateIsListed` | front/src/components/layout/Sidebar.tsx:154-158 | a state owned by a listed actor appears in a group of an actor with that id |
| `Sidebar.UnownedAreUnlisted` | front/src/components/layout/Sidebar.tsx:155-158 | an actor owning nothing has no group, and a state whose owner is not listed appears in no group |
| `Sidebar.NoActorsOwnNothing` | front/src/components/layout/Sidebar.tsx:154 | without actors no state is grouped |
| `Sidebar.OwnedByActorsSplit` | front/src/components/layout/Sidebar.tsx:154-157 | with unique ids, the owned states split into the first actor's and the rest's |
| `Sidebar.ListedCountIsOwnedStates` | front/src/components/layout/Sidebar.tsx:154-163 | with unique ids the groups list, in total, exactly as many states as have a listed owner |

## Left out

- Rendering: JSX, CSS classes beyond the style tables, React Flow's handles, zoom and fit, `getStraightPath`'s geometry (only its endpoints are modelled), and the empty-diagram and loading placeholders.
- React scheduling: `useMemo` and `useState` timing, and when each `useEffect` runs. Each prefill is a function or method the caller invokes.
- Persistence: Dexie's asynchrony, `getAllDiagrams` and its newest-first ordering, and the schema's secondary indexes. The table is a map from id to record.
- Date text. `toISOString`'s calendar format and the ±8.64e15 ms range of valid dates are not modelled. The stand-in text is an injective decimal form with its inverse parser.
- JSON text. `JSON.parse` and `JSON.stringify` are not modelled: the import starts from the parsed document, and the export takes the stringifier as a parameter. Also not modelled: the clipboard copy, the file download, `FileReader` uploads, non-object documents, ids or names that are not strings, dates and descriptions that are not strings (`new Date` also accepts a number such as `"createdAt": 5`), top-level keys beyond the diagram's fields (the cast keeps them in the stored diagram), and the shapes of collection elements.
- Several `new Date()` calls within one import are modelled as one time value `now`.
- Randomness: `crypto.randomUUID()` is a parameter, so ids are not proved unique.
- Prototype keys in lookups. `Record` lookups (`scopeColors`, `stepTypeLabels`, `actorTypeStyles`, `colors`) that would hit keys inherited from `Object.prototype` are not modelled; every unknown key takes the fallback.
- UI parts outside the UI store. The condition panel, `focusFlow` and the condition modal's open flag, editing id and close are used by the sidebar and the condition modal but defined nowhere in uiStore.ts. `ConditionModal.HandleSubmit` therefore takes the editing id as a parameter and does not close a modal.
- The pages: DiagramEditorPage.tsx and DiagramListPage.tsx, including list ordering, creation and routing.
- Subscribe strokes: the stroke width is kept in tenths of a pixel rather than as a decimal.
- FlowModal.FlowForm.UpdateStep: requires the index to be within the step list. The form only calls it for listed steps; in JavaScript an index past the end would make a sparse array.
