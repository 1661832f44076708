/** The JSON dialog of JsonModal.tsx: export shows the diagram as JSON;
    import validates a parsed document, fills in missing collections and
    dates, keeps the id of the diagram being edited and replaces it. */
module JsonModal {
  import opened Wrappers
  import opened DiagramTypes
  import opened JsText
  import opened Database
  import opened DiagramStore
  import opened UiStore

  /** The error shown for a document without an id or a name. */
  const InvalidDiagramMessage := "無効なダイアグラム形式です（id, nameは必須です）"

  /** A collection field as parsed: an array, or anything else. */
  datatype Loose<T> = Array(items: seq<T>) | NotArray

  /** The fields of a parsed document the import reads; a missing key is None. */
  datatype ParsedDocument = ParsedDocument(
    id: Option<string>,
    name: Option<string>,
    description: Option<string>,
    createdAt: Option<string>,
    updatedAt: Option<string>,
    actors: Loose<Actor>,
    states: Loose<State>,
    flows: Loose<Flow>,
    conditions: Loose<Condition>)

  /** What `JSON.parse` gives: a document, or a SyntaxError with its message. */
  datatype ParseResult = Parsed(doc: ParsedDocument) | SyntaxError(message: string)

  datatype Mode = ExportMode | ImportMode

  /** A date field: a non-empty text is read with `new Date(text)`; a missing
      or empty one is the current time. */
  function DateField(text: Option<string>, now: int): Date
  {
    if Truthy(text) then NewDate(text.value) else Time(now)
  }

  /** An array is kept as it is; anything else becomes empty. */
  function ItemsOrEmpty<T>(field: Loose<T>): seq<T>
  {
    if field.Array? then field.items else []
  }

  /** The diagram an import produces, or the error it shows. */
  function ImportDiagram(doc: ParsedDocument, current: Option<Diagram>, now: int): Result<Diagram, string>
  {
    if !Truthy(doc.id) || !Truthy(doc.name) then Failure(InvalidDiagramMessage)
    else
      var imported := Diagram(doc.id.value, doc.name.value, doc.description,
                              DateField(doc.createdAt, now), DateField(doc.updatedAt, now),
                              ItemsOrEmpty(doc.actors), ItemsOrEmpty(doc.states),
                              ItemsOrEmpty(doc.flows), ItemsOrEmpty(doc.conditions));
      if current.Some? then Success(imported.(id := current.value.id, updatedAt := Time(now)))
      else Success(imported)
  }

  /** The import fails exactly when the id or the name is missing or empty.
      Otherwise the name and description are the document's; each collection
      is the document's array or empty; a given date is read and a missing one
      is now; and with a diagram being edited its id is kept and `updatedAt`
      is now, while without one the document's id is used. */
  lemma ImportDiagramSpec(doc: ParsedDocument, current: Option<Diagram>, now: int)
    ensures ImportDiagram(doc, current, now).Failure? <==> doc.id.None? || doc.id.value == "" || doc.name.None? || doc.name.value == ""
    ensures ImportDiagram(doc, current, now).Failure? ==> ImportDiagram(doc, current, now).error == InvalidDiagramMessage
    ensures ImportDiagram(doc, current, now).Success? ==>
      var d := ImportDiagram(doc, current, now).value;
      && d.name == doc.name.value && d.description == doc.description
      && d.id == (if current.Some? then current.value.id else doc.id.value)
      && (doc.actors.Array? ==> d.actors == doc.actors.items) && (doc.actors.NotArray? ==> d.actors == [])
      && (doc.states.Array? ==> d.states == doc.states.items) && (doc.states.NotArray? ==> d.states == [])
      && (doc.flows.Array? ==> d.flows == doc.flows.items) && (doc.flows.NotArray? ==> d.flows == [])
      && (doc.conditions.Array? ==> d.conditions == doc.conditions.items) && (doc.conditions.NotArray? ==> d.conditions == [])
      && (Truthy(doc.createdAt) ==> d.createdAt == NewDate(doc.createdAt.value))
      && (!Truthy(doc.createdAt) ==> d.createdAt == Time(now))
      && (current.Some? || !Truthy(doc.updatedAt) ==> d.updatedAt == Time(now))
      && (current.None? && Truthy(doc.updatedAt) ==> d.updatedAt == NewDate(doc.updatedAt.value))
  {
  }

  /** What exporting a diagram and parsing the text back gives: a valid date
      appears as its ISO text and an invalid one as null. */
  function ExportedDocument(d: Diagram): ParsedDocument
  {
    ParsedDocument(Some(d.id), Some(d.name), d.description,
                   if d.createdAt.Time? then Some(TimeText(d.createdAt.ms)) else None,
                   if d.updatedAt.Time? then Some(TimeText(d.updatedAt.ms)) else None,
                   Array(d.actors), Array(d.states), Array(d.flows), Array(d.conditions))
  }

  /** Importing an exported diagram with a non-empty id and name gives it
      back, except that each invalid date becomes now (an invalid date is
      exported as null); over a diagram being edited it keeps that diagram's
      id and stamps `updatedAt` with now. */
  lemma ExportImportRoundTrip(d: Diagram, current: Option<Diagram>, now: int)
    requires d.id != "" && d.name != ""
    ensures ImportDiagram(ExportedDocument(d), current, now).Success?
    ensures var c := if d.createdAt.Time? then d.createdAt else Time(now);
            var u := if d.updatedAt.Time? then d.updatedAt else Time(now);
            ImportDiagram(ExportedDocument(d), current, now)
            == if current.Some? then Success(d.(id := current.value.id, createdAt := c, updatedAt := Time(now)))
               else Success(d.(createdAt := c, updatedAt := u))
    ensures d.createdAt.Time? && d.updatedAt.Time? && current.None? ==>
      ImportDiagram(ExportedDocument(d), current, now) == Success(d)
  {
    var doc := ExportedDocument(d);
    ExportedDateField(d.createdAt, now);
    ExportedDateField(d.updatedAt, now);
    assert Truthy(doc.id) && Truthy(doc.name);
    var imported := Diagram(d.id, d.name, d.description,
                            DateField(doc.createdAt, now), DateField(doc.updatedAt, now),
                            d.actors, d.states, d.flows, d.conditions);
    assert ImportDiagram(doc, current, now)
           == if current.Some? then Success(imported.(id := current.value.id, updatedAt := Time(now)))
              else Success(imported);
  }

  /** An exported date field reads back as the date, or as now when the date
      was invalid. */
  lemma ExportedDateField(date: Date, now: int)
    ensures DateField(if date.Time? then Some(TimeText(date.ms)) else None, now)
            == if date.Time? then date else Time(now)
  {
    if date.Time? {
      DateTextRoundTrip(date.ms);
    }
  }

  /** The dialog's own state. */
  class JsonDialog {
    var jsonContent: string
    var mode: Mode
    var copied: bool
    var error: string

    constructor()
      ensures jsonContent == "" && mode == ExportMode && !copied && error == ""
    {
      jsonContent, mode, copied, error := "", ExportMode, false, "";
    }

    /** `handleExport`: with no diagram nothing changes; otherwise the text is
        the diagram's JSON, the mode is export and the error is cleared. The
        JSON text itself is the `stringify` given. */
    method HandleExport(diagram: Option<Diagram>, stringify: Diagram -> string)
      modifies this
      ensures diagram.None? ==> jsonContent == old(jsonContent) && mode == old(mode) && error == old(error)
      ensures diagram.Some? ==> jsonContent == stringify(diagram.value) && mode == ExportMode && error == ""
      ensures copied == old(copied)
    {
      if diagram.None? {
        return;
      }
      jsonContent := stringify(diagram.value);
      mode := ExportMode;
      error := "";
    }

    /** `handleImport`: switches to an empty import text with no error. */
    method HandleImport()
      modifies this
      ensures jsonContent == "" && mode == ImportMode && error == "" && copied == old(copied)
    {
      mode := ImportMode;
      jsonContent := "";
      error := "";
    }

    /** `handleApplyImport`: a parse error shows its own message and a
        document without id or name shows the validation message, both
        leaving the diagram and the modals as they were; otherwise the
        imported diagram replaces the current one and the JSON modal closes. */
    method HandleApplyImport(parsed: ParseResult, store: Store, ui: UiStore, now: int)
      modifies this, store, ui
      ensures jsonContent == old(jsonContent) && mode == old(mode) && copied == old(copied)
      ensures parsed.SyntaxError? ==>
        error == parsed.message && store.diagram == old(store.diagram) && ui.View() == old(ui.View())
      ensures parsed.Parsed? && ImportDiagram(parsed.doc, old(store.diagram), now).Failure? ==>
        error == InvalidDiagramMessage && store.diagram == old(store.diagram) && ui.View() == old(ui.View())
      ensures parsed.Parsed? && ImportDiagram(parsed.doc, old(store.diagram), now).Success? ==>
        && store.diagram == Some(ImportDiagram(parsed.doc, old(store.diagram), now).value)
        && ui.View() == old(ui.View()).(isJsonModalOpen := false)
        && error == old(error)
    {
      if parsed.SyntaxError? {
        error := parsed.message;
        return;
      }
      var doc := parsed.doc;
      if !Truthy(doc.id) || !Truthy(doc.name) {
        error := InvalidDiagramMessage;
        return;
      }
      var createdAt := if Truthy(doc.createdAt) then NewDate(doc.createdAt.value) else Time(now);
      var updatedAt := if Truthy(doc.updatedAt) then NewDate(doc.updatedAt.value) else Time(now);
      var actors := if doc.actors.Array? then doc.actors.items else [];
      var states := if doc.states.Array? then doc.states.items else [];
      var flows := if doc.flows.Array? then doc.flows.items else [];
      var conditions := if doc.conditions.Array? then doc.conditions.items else [];
      var valid := Diagram(doc.id.value, doc.name.value, doc.description, createdAt, updatedAt,
                           actors, states, flows, conditions);
      if store.diagram.Some? {
        valid := valid.(id := store.diagram.value.id);
        valid := valid.(updatedAt := Time(now));
      }
      store.SetDiagram(Some(valid));
      ui.CloseJsonModal();
    }
  }
}
