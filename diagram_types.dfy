/** The behavioural model the editor manipulates: closed enumerations and the
    records of a diagram (front/src/types/diagram.ts). Cross-references between
    records are plain id strings with no integrity guarantee. */
module DiagramTypes {
  import opened Wrappers

  /** Visibility breadth of a store's state. */
  datatype StateScope = Local | Subtree | Global

  /** Kind of participant shown as a diagram column. */
  datatype ActorType = Component | Store | Service | External

  /** What starts a flow. */
  datatype TriggerType = UserAction | Lifecycle | Subscription | Timer

  /** Kind of interaction a step records. */
  datatype StepType = Dispatch | StateChange | Subscribe | Effect | Render

  /** A JavaScript Date: a millisecond time value, or the invalid date (NaN). */
  datatype Date = Time(ms: int) | InvalidDate

  datatype Actor = Actor(
    id: string,
    actorType: ActorType,
    name: string,
    description: Option<string>,
    parent: Option<string>,
    color: Option<string>,
    scope: Option<StateScope>)

  /** A piece of state; `owner` names an actor by id. */
  datatype State = State(
    id: string,
    name: string,
    owner: string,
    dataType: Option<string>,
    description: Option<string>)

  /** `actor` names an actor by id. */
  datatype FlowTrigger = FlowTrigger(
    triggerType: TriggerType,
    actor: string,
    action: string,
    target: Option<string>)

  /** `from`, `to`, `state` and `condition` are optional references by id. */
  datatype FlowStep = FlowStep(
    id: string,
    stepType: StepType,
    from: Option<string>,
    to: Option<string>,
    action: Option<string>,
    state: Option<string>,
    payload: Option<string>,
    description: Option<string>,
    condition: Option<string>)

  datatype Condition = Condition(
    id: string,
    expression: string,
    description: Option<string>)

  datatype Flow = Flow(
    id: string,
    name: string,
    description: Option<string>,
    trigger: FlowTrigger,
    steps: seq<FlowStep>)

  /** The root document: four ordered collections plus identity and dates. */
  datatype Diagram = Diagram(
    id: string,
    name: string,
    description: Option<string>,
    createdAt: Date,
    updatedAt: Date,
    actors: seq<Actor>,
    states: seq<State>,
    flows: seq<Flow>,
    conditions: seq<Condition>)

  /** A diagram without its identity and its dates. */
  datatype CreateDiagramInput = CreateDiagramInput(
    name: string,
    description: Option<string>,
    actors: seq<Actor>,
    states: seq<State>,
    flows: seq<Flow>,
    conditions: seq<Condition>)

  /** The creation input a diagram was made from. */
  function InputOf(d: Diagram): CreateDiagramInput
  {
    CreateDiagramInput(d.name, d.description, d.actors, d.states, d.flows, d.conditions)
  }

  /** A diagram built from a creation input plus the three omitted fields. */
  function WithIdentity(input: CreateDiagramInput, id: string, createdAt: Date, updatedAt: Date): (d: Diagram)
    ensures InputOf(d) == input
    ensures d.id == id && d.createdAt == createdAt && d.updatedAt == updatedAt
  {
    Diagram(id, input.name, input.description, createdAt, updatedAt,
            input.actors, input.states, input.flows, input.conditions)
  }

  /** A diagram is exactly its creation input plus id, createdAt and updatedAt. */
  lemma InputOmitsExactlyIdentity(d: Diagram)
    ensures WithIdentity(InputOf(d), d.id, d.createdAt, d.updatedAt) == d
  {
  }

  // The string literals of each enumeration, as the source spells them.

  function ScopeName(s: StateScope): string
  {
    match s
    case Local => "local"
    case Subtree => "subtree"
    case Global => "global"
  }

  function ActorTypeName(t: ActorType): string
  {
    match t
    case Component => "component"
    case Store => "store"
    case Service => "service"
    case External => "external"
  }

  function TriggerTypeName(t: TriggerType): string
  {
    match t
    case UserAction => "userAction"
    case Lifecycle => "lifecycle"
    case Subscription => "subscription"
    case Timer => "timer"
  }

  function StepTypeName(t: StepType): string
  {
    match t
    case Dispatch => "dispatch"
    case StateChange => "stateChange"
    case Subscribe => "subscribe"
    case Effect => "effect"
    case Render => "render"
  }

  /** The enumeration member a string literal denotes, if any. */
  function ParseActorType(s: string): (r: Option<ActorType>)
    ensures r.Some? ==> ActorTypeName(r.value) == s
    ensures r.None? ==> forall t: ActorType :: ActorTypeName(t) != s
  {
    if s == "component" then Some(Component)
    else if s == "store" then Some(Store)
    else if s == "service" then Some(Service)
    else if s == "external" then Some(External)
    else None
  }

  function ParseStepType(s: string): (r: Option<StepType>)
    ensures r.Some? ==> StepTypeName(r.value) == s
    ensures r.None? ==> forall t: StepType :: StepTypeName(t) != s
  {
    if s == "dispatch" then Some(Dispatch)
    else if s == "stateChange" then Some(StateChange)
    else if s == "subscribe" then Some(Subscribe)
    else if s == "effect" then Some(Effect)
    else if s == "render" then Some(Render)
    else None
  }

  function ParseScope(s: string): (r: Option<StateScope>)
    ensures r.Some? ==> ScopeName(r.value) == s
    ensures r.None? ==> forall t: StateScope :: ScopeName(t) != s
  {
    if s == "local" then Some(Local)
    else if s == "subtree" then Some(Subtree)
    else if s == "global" then Some(Global)
    else None
  }

  function ParseTriggerType(s: string): (r: Option<TriggerType>)
    ensures r.Some? ==> TriggerTypeName(r.value) == s
    ensures r.None? ==> forall t: TriggerType :: TriggerTypeName(t) != s
  {
    if s == "userAction" then Some(UserAction)
    else if s == "lifecycle" then Some(Lifecycle)
    else if s == "subscription" then Some(Subscription)
    else if s == "timer" then Some(Timer)
    else None
  }

  /** Every enumeration member is named by a distinct literal, and parsing
      that literal gives the member back: each enumeration is exactly its
      list of literals. */
  lemma NamesRoundTrip(a: ActorType, s: StateScope, t: TriggerType, k: StepType)
    ensures ParseActorType(ActorTypeName(a)) == Some(a)
    ensures ParseScope(ScopeName(s)) == Some(s)
    ensures ParseTriggerType(TriggerTypeName(t)) == Some(t)
    ensures ParseStepType(StepTypeName(k)) == Some(k)
  {
  }

  const AllActorTypes: seq<ActorType> := [Component, Store, Service, External]
  const AllScopes: seq<StateScope> := [Local, Subtree, Global]
  const AllTriggerTypes: seq<TriggerType> := [UserAction, Lifecycle, Subscription, Timer]
  const AllStepTypes: seq<StepType> := [Dispatch, StateChange, Subscribe, Effect, Render]

  /** Four actor types, three scopes, four trigger types and five step types,
      each list complete and free of repeats. */
  lemma EnumerationsAreExact(a: ActorType, s: StateScope, t: TriggerType, k: StepType)
    ensures a in AllActorTypes && s in AllScopes && t in AllTriggerTypes && k in AllStepTypes
    ensures |AllActorTypes| == 4 && |AllScopes| == 3 && |AllTriggerTypes| == 4 && |AllStepTypes| == 5
    ensures forall i, j :: 0 <= i < j < |AllActorTypes| ==> AllActorTypes[i] != AllActorTypes[j]
    ensures forall i, j :: 0 <= i < j < |AllStepTypes| ==> AllStepTypes[i] != AllStepTypes[j]
    ensures forall i, j :: 0 <= i < j < |AllTriggerTypes| ==> AllTriggerTypes[i] != AllTriggerTypes[j]
    ensures forall i, j :: 0 <= i < j < |AllScopes| ==> AllScopes[i] != AllScopes[j]
  {
  }

  /** No two actors share an id. */
  predicate UniqueActorIds(actors: seq<Actor>)
  {
    forall i, j :: 0 <= i < j < |actors| ==> actors[i].id != actors[j].id
  }
}
