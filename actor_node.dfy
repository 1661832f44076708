/** The actor node renderer of ActorNode.tsx: one style entry per actor
    type, with the component entry as fallback, and a fixed lifeline. */
module ActorNode {
  import opened Wrappers
  import opened DiagramTypes
  import opened SequenceDiagram
  import LayoutProperties

  /** The lifeline length every actor node draws. */
  const DrawnLifeline := 500

  /** One entry of the style table. */
  datatype ActorStyle = ActorStyle(bg: string, border: string, icon: string)

  const ComponentStyle := ActorStyle("bg-blue-50", "border-blue-500", "🧩")
  const StoreStyle := ActorStyle("bg-green-50", "border-green-500", "📦")
  const ServiceStyle := ActorStyle("bg-purple-50", "border-purple-500", "⚙️")
  const ExternalStyle := ActorStyle("bg-orange-50", "border-orange-500", "🌐")

  /** The style table keyed by actor type name; any other key gets the
      component entry. */
  function StyleFor(actorType: string): ActorStyle
  {
    if actorType == "component" then ComponentStyle
    else if actorType == "store" then StoreStyle
    else if actorType == "service" then ServiceStyle
    else if actorType == "external" then ExternalStyle
    else ComponentStyle
  }

  /** The style of each actor type. */
  function TypeStyle(t: ActorType): ActorStyle
  {
    match t
    case Component => ComponentStyle
    case Store => StoreStyle
    case Service => ServiceStyle
    case External => ExternalStyle
  }

  /** The data an actor node reads, together with the fields the layout also
      passes and the node ignores. */
  datatype ActorNodeInput = ActorNodeInput(labelText: string, actorType: string, color: Option<string>,
                                           lifelineHeight: Option<int>)

  /** What an actor node draws: the one style entry, the selection ring,
      the label, the type caption and the lifeline length. */
  datatype ActorView = ActorView(style: ActorStyle, ring: bool, labelText: string, caption: string, lifeline: int)

  function RenderActor(data: ActorNodeInput, selected: bool): ActorView
  {
    ActorView(StyleFor(data.actorType), selected, data.labelText, data.actorType, DrawnLifeline)
  }

  /** The data the layout hands to each actor node. */
  function InputOfLayoutNode(n: Node): ActorNodeInput
    requires n.ActorNode?
  {
    ActorNodeInput(n.data.labelText, ActorTypeName(n.data.actorType), n.data.color, Some(n.data.lifelineHeight))
  }

  /** The table gives each of the four types its own entry, and every other
      key the component entry. */
  lemma StyleTable(key: string)
    ensures forall t: ActorType :: StyleFor(ActorTypeName(t)) == TypeStyle(t)
    ensures (forall t: ActorType :: key != ActorTypeName(t)) ==> StyleFor(key) == ComponentStyle
    ensures forall t1: ActorType, t2: ActorType :: TypeStyle(t1) == TypeStyle(t2) <==> t1 == t2
  {
    if forall t: ActorType :: key != ActorTypeName(t) {
      assert key != ActorTypeName(Store) && key != ActorTypeName(Service) && key != ActorTypeName(External);
    }
    assert ComponentStyle.bg[3] != StoreStyle.bg[3] && ComponentStyle.bg[3] != ServiceStyle.bg[3]
           && ComponentStyle.bg[3] != ExternalStyle.bg[3] && StoreStyle.bg[3] != ServiceStyle.bg[3]
           && StoreStyle.bg[3] != ExternalStyle.bg[3] && ServiceStyle.bg[3] != ExternalStyle.bg[3];
  }

  /** Background, border and icon come from one table entry; the lifeline is
      500 whatever height, and whatever colour, the data carries. */
  lemma RenderActorStyle(data: ActorNodeInput, selected: bool, height: Option<int>, color: Option<string>)
    ensures RenderActor(data, selected).style in {ComponentStyle, StoreStyle, ServiceStyle, ExternalStyle}
    ensures RenderActor(data, selected).lifeline == DrawnLifeline
    ensures RenderActor(data.(lifelineHeight := height, color := color), selected) == RenderActor(data, selected)
    ensures RenderActor(data, selected).ring <==> selected
  {
  }

  /** For the nodes the layout emits, the style is the actor's type entry;
      once the flows hold more than 5 steps the computed lifeline is longer
      than the one drawn. */
  lemma LayoutActorStyle(d: Diagram, i: nat, selected: bool)
    requires i < |d.actors|
    ensures var n := LayoutOf(Some(d)).nodes[i];
      && n.ActorNode?
      && RenderActor(InputOfLayoutNode(n), selected).style == TypeStyle(d.actors[i].actorType)
      && (TotalSteps(d.flows) > 5 ==> n.data.lifelineHeight > RenderActor(InputOfLayoutNode(n), selected).lifeline)
  {
    LayoutProperties.ActorColumns(d);
    StyleTable("");
  }
}
