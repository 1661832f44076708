/** The sidebar of Sidebar.tsx: section counts, the actor colour dots, and
    the states listed in groups, one per actor that owns any, in actor
    order, headed by the actor's scope icon. */
module Sidebar {
  import opened Wrappers
  import opened DiagramTypes
  import opened JsArray
  import opened DiagramStore

  /** The scope icon of an actor; an actor without a scope shows the local one. */
  function ScopeIcon(scope: Option<StateScope>): string
  {
    match (if scope.Some? then scope.value else Local)
    case Local => "📍"
    case Subtree => "🌲"
    case Global => "🌍"
  }

  /** The colour dot of each actor type. */
  function ActorTypeColor(t: ActorType): string
  {
    match t
    case Component => "bg-blue-500"
    case Store => "bg-green-500"
    case Service => "bg-purple-500"
    case External => "bg-orange-500"
  }

  /** The icons and dots distinguish what they show. */
  lemma TablesDistinguish(s1: Option<StateScope>, s2: Option<StateScope>, t1: ActorType, t2: ActorType)
    ensures ScopeIcon(None) == ScopeIcon(Some(Local))
    ensures ScopeIcon(s1) == ScopeIcon(s2) <==>
      (if s1.Some? then s1.value else Local) == (if s2.Some? then s2.value else Local)
    ensures ActorTypeColor(t1) == ActorTypeColor(t2) <==> t1 == t2
  {
    assert "bg-blue-500"[3] != "bg-green-500"[3] && "bg-blue-500"[3] != "bg-purple-500"[3]
           && "bg-blue-500"[3] != "bg-orange-500"[3] && "bg-green-500"[3] != "bg-purple-500"[3]
           && "bg-green-500"[3] != "bg-orange-500"[3] && "bg-purple-500"[3] != "bg-orange-500"[3];
  }

  /** Whether some actor of the list has the id. */
  predicate IsActorId(actors: seq<Actor>, id: string)
  {
    exists i :: 0 <= i < |actors| && actors[i].id == id
  }

  /** The number shown on each section header. */
  datatype SectionCounts = SectionCounts(actors: nat, states: nat, flows: nat, conditions: nat)

  function CountsOf(d: Diagram): SectionCounts
  {
    SectionCounts(|d.actors|, |d.states|, |d.flows|, |d.conditions|)
  }

  /** Each store action moves only its own section's count: an add by one,
      an update not at all, a delete by the number of elements with the id,
      which is at most one when ids are unique and one when it is present. */
  lemma CountsFollowEdits(d: Diagram, e: Edit)
    ensures var c := CountsOf(d);
            var n := CountsOf(Apply(Some(d), e).value);
      && (e.AddActor? ==> n == c.(actors := c.actors + 1))
      && (e.AddState? ==> n == c.(states := c.states + 1))
      && (e.AddFlow? ==> n == c.(flows := c.flows + 1))
      && (e.AddCondition? ==> n == c.(conditions := c.conditions + 1))
      && (e.UpdateActor? || e.UpdateState? || e.UpdateFlow? || e.UpdateCondition? ==> n == c)
      && (e.DeleteActor? ==> n == c.(actors := |DeleteById(d.actors, ActorId, e.actorId)|))
      && (e.DeleteState? ==> n == c.(states := |DeleteById(d.states, StateId, e.stateId)|))
      && (e.DeleteFlow? ==> n == c.(flows := |DeleteById(d.flows, FlowId, e.flowId)|))
      && (e.DeleteCondition? ==> n == c.(conditions := |DeleteById(d.conditions, ConditionId, e.conditionId)|))
      && (e.DeleteActor? && UniqueActorIds(d.actors) && IsActorId(d.actors, e.actorId) ==>
            n == c.(actors := c.actors - 1))
  {
    ApplyTouchesOnlyItsCollection(Some(d), e);
    match e {
      case UpdateActor(id, p) => UpdateActorSpec(d, id, p);
      case UpdateState(id, p) => UpdateStateSpec(d, id, p);
      case UpdateFlow(id, p) => UpdateFlowSpec(d, id, p);
      case UpdateCondition(id, p) => UpdateConditionSpec(d, id, p);
      case DeleteActor(id) =>
        if UniqueActorIds(d.actors) && IsActorId(d.actors, id) {
          var i :| 0 <= i < |d.actors| && d.actors[i].id == id;
          DeleteUniqueId(d.actors, i);
        }
      case _ =>
    }
  }

  /** Deleting the id of one element of a list with unique ids removes one element. */
  lemma DeleteUniqueId(actors: seq<Actor>, i: nat)
    requires i < |actors| && UniqueActorIds(actors)
    ensures |DeleteById(actors, ActorId, actors[i].id)| == |actors| - 1
  {
    var id := actors[i].id;
    assert actors == actors[..i] + ([actors[i]] + actors[i + 1..]);
    DeleteByIdSpec(actors[..i], [actors[i]] + actors[i + 1..], ActorId, id);
    DeleteByIdSpec([actors[i]], actors[i + 1..], ActorId, id);
    DeleteByIdSpec(actors[..i], [], ActorId, id);
    DeleteByIdSpec(actors[i + 1..], [], ActorId, id);
    assert DeleteById([actors[i]], ActorId, id) == [];
  }

  /** The states an actor owns, in diagram order. */
  function OwnedStates(states: seq<State>, actorId: string): seq<State>
  {
    Filter(states, (s: State) => s.owner == actorId)
  }

  /** One group of the state list. */
  datatype StateGroup = StateGroup(actor: Actor, icon: string, states: seq<State>)

  /** The state list: for each actor in order, its states when it owns any. */
  function GroupsOf(actors: seq<Actor>, states: seq<State>): seq<StateGroup>
  {
    if actors == [] then []
    else
      var owned := OwnedStates(states, actors[0].id);
      (if |owned| > 0 then [StateGroup(actors[0], ScopeIcon(actors[0].scope), owned)] else [])
      + GroupsOf(actors[1..], states)
  }

  /** Each group belongs to an actor of the list, is headed by its scope
      icon, holds exactly the states that actor owns, in diagram order, and
      is never empty. */
  lemma {:induction false} GroupsSpec(actors: seq<Actor>, states: seq<State>)
    ensures |GroupsOf(actors, states)| <= |actors|
    ensures forall k :: 0 <= k < |GroupsOf(actors, states)| ==>
      var g := GroupsOf(actors, states)[k];
      && g.actor in actors
      && g.icon == ScopeIcon(g.actor.scope)
      && g.states == OwnedStates(states, g.actor.id)
      && |g.states| > 0
  {
    if actors != [] {
      GroupsSpec(actors[1..], states);
    }
  }

  /** Groups follow actor order: the groups of a concatenation of actor
      lists are those of the first list, then those of the second. */
  lemma {:induction false} GroupsConcat(a1: seq<Actor>, a2: seq<Actor>, states: seq<State>)
    ensures GroupsOf(a1 + a2, states) == GroupsOf(a1, states) + GroupsOf(a2, states)
  {
    if a1 == [] {
      assert a1 + a2 == a2;
    } else {
      assert (a1 + a2)[1..] == a1[1..] + a2;
      GroupsConcat(a1[1..], a2, states);
    }
  }

  /** A state owned by an actor of the list shows in a group of an actor
      with that id. */
  lemma {:induction false} OwnedStateIsListed(actors: seq<Actor>, states: seq<State>, s: State)
    requires s in states && IsActorId(actors, s.owner)
    ensures exists k :: 0 <= k < |GroupsOf(actors, states)|
                        && GroupsOf(actors, states)[k].actor.id == s.owner && s in GroupsOf(actors, states)[k].states
  {
    var head := OwnedStates(states, actors[0].id);
    var rest := GroupsOf(actors[1..], states);
    var all := GroupsOf(actors, states);
    if actors[0].id == s.owner {
      assert s in head;
      assert all[0] == StateGroup(actors[0], ScopeIcon(actors[0].scope), head);
    } else {
      var i :| 0 <= i < |actors| && actors[i].id == s.owner;
      assert actors[1..][i - 1] == actors[i];
      OwnedStateIsListed(actors[1..], states, s);
      var k :| 0 <= k < |rest| && rest[k].actor.id == s.owner && s in rest[k].states;
      var offset := if |head| > 0 then 1 else 0;
      assert all[k + offset] == rest[k];
    }
  }

  /** An actor owning no state has no group, and a state owned by no actor
      of the list shows in no group. */
  lemma UnownedAreUnlisted(actors: seq<Actor>, states: seq<State>, s: State, id: string)
    ensures OwnedStates(states, id) == [] ==> forall k :: 0 <= k < |GroupsOf(actors, states)| ==> GroupsOf(actors, states)[k].actor.id != id
    ensures !IsActorId(actors, s.owner) ==> forall k :: 0 <= k < |GroupsOf(actors, states)| ==> s !in GroupsOf(actors, states)[k].states
  {
    GroupsSpec(actors, states);
  }

  /** The number of states listed across the groups. */
  function ListedCount(groups: seq<StateGroup>): nat
  {
    if groups == [] then 0 else |groups[0].states| + ListedCount(groups[1..])
  }

  /** The states owned by some actor of the list, in diagram order. */
  function OwnedByActors(actors: seq<Actor>, states: seq<State>): seq<State>
  {
    Filter(states, (s: State) => IsActorId(actors, s.owner))
  }

  /** Without actors, no state is owned. */
  lemma {:induction false} NoActorsOwnNothing(states: seq<State>)
    ensures OwnedByActors([], states) == []
  {
    if states != [] {
      NoActorsOwnNothing(states[1..]);
    }
  }

  /** With unique ids, the states owned by an actor of the list split into
      those of the first actor and those of the rest. */
  lemma {:induction false} OwnedByActorsSplit(actors: seq<Actor>, states: seq<State>)
    requires actors != [] && UniqueActorIds(actors)
    ensures |OwnedByActors(actors, states)| == |OwnedStates(states, actors[0].id)| + |OwnedByActors(actors[1..], states)|
  {
    if states != [] {
      OwnedByActorsSplit(actors, states[1..]);
      var owner := states[0].owner;
      var rest := actors[1..];
      if IsActorId(actors, owner) {
        var m :| 0 <= m < |actors| && actors[m].id == owner;
        if m > 0 {
          assert rest[m - 1] == actors[m];
        }
      }
      if IsActorId(rest, owner) {
        var m :| 0 <= m < |rest| && rest[m].id == owner;
        assert actors[m + 1] == rest[m];
      }
    }
  }

  /** Dropping the first actor keeps the ids unique. */
  lemma UniqueActorIdsTail(actors: seq<Actor>)
    requires actors != [] && UniqueActorIds(actors)
    ensures UniqueActorIds(actors[1..])
  {
    forall i, j | 0 <= i < j < |actors| - 1
      ensures actors[1..][i].id != actors[1..][j].id
    {
      assert actors[1..][i] == actors[i + 1] && actors[1..][j] == actors[j + 1];
    }
  }

  /** The groups of a non-empty actor list list the first actor's states,
      then those of the rest's groups. */
  lemma ListedCountStep(actors: seq<Actor>, states: seq<State>)
    requires actors != []
    ensures ListedCount(GroupsOf(actors, states))
            == |OwnedStates(states, actors[0].id)| + ListedCount(GroupsOf(actors[1..], states))
  {
    var head := OwnedStates(states, actors[0].id);
    var tail := GroupsOf(actors[1..], states);
    if |head| > 0 {
      var g := StateGroup(actors[0], ScopeIcon(actors[0].scope), head);
      assert GroupsOf(actors, states) == [g] + tail;
      assert ([g] + tail)[0] == g && ([g] + tail)[1..] == tail;
      assert ListedCount([g] + tail) == |g.states| + ListedCount(tail);
    } else {
      assert [] + tail == tail;
      assert GroupsOf(actors, states) == tail;
    }
  }

  /** With unique actor ids, the groups list every state owned by an actor
      exactly once: as many entries as such states. */
  lemma {:induction false} ListedCountIsOwnedStates(actors: seq<Actor>, states: seq<State>)
    requires UniqueActorIds(actors)
    ensures ListedCount(GroupsOf(actors, states)) == |OwnedByActors(actors, states)|
  {
    if actors == [] {
      NoActorsOwnNothing(states);
    } else {
      UniqueActorIdsTail(actors);
      ListedCountIsOwnedStates(actors[1..], states);
      OwnedByActorsSplit(actors, states);
      ListedCountStep(actors, states);
    }
  }
}
