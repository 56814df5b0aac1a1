/**
 * `ActivePassiveAgentActivation`: the scheduler's registry of agents.
 * Reservations go into a list of their own; every other agent goes into a
 * dictionary keyed by `unique_id`.  The two must stay apart because a
 * reservation (and a perception) reuses the `unique_id` of the agent it
 * belongs to, so storing it in the dictionary would overwrite its owner.
 */
module Schedule {

  import opened Wrappers
  import opened Space
  import opened Lists
  import opened OrderedDict
  import opened Passive
  import opened Perception
  import opened Active

  /** Any agent the scheduler can be handed; the variant plays the part of `isinstance`. */
  datatype AgentRef =
    | PassiveRef(passive: PassiveAgent)
    | PerceptionRef(perception: PassiveAgentPerception)
    | ActiveRef(active: ActiveAgent)
    | PlanningRef(planning: ActiveAgentPlanning)
  {
    function UniqueId(): int
    {
      match this
      case PassiveRef(a) => a.uniqueId
      case PerceptionRef(a) => a.uniqueId
      case ActiveRef(a) => a.uniqueId
      case PlanningRef(a) => a.uniqueId
    }

    /** The agent's `pos`; only an active agent's position can change. */
    function Pos(): Pos
      reads if ActiveRef? then {active} else {}
    {
      match this
      case PassiveRef(a) => a.pos
      case PerceptionRef(a) => a.pos
      case ActiveRef(a) => a.pos
      case PlanningRef(a) => a.pos
    }
  }

  /** The exceptions `remove` and `getPassiveAgent` raise. */
  datatype ScheduleError = ValueError | KeyError

  class ActivePassiveAgentActivation {
    /** `_plan_agents` */
    var planAgents: seq<ActiveAgentPlanning>
    /** `_agents` */
    var agents: Dict<int, AgentRef>

    /** Every entry sits under its own `unique_id`, and no reservation is among them. */
    ghost predicate Valid()
      reads this
    {
      && agents.Valid()
      && forall id :: id in agents.entries ==>
           agents.entries[id].UniqueId() == id && !agents.entries[id].PlanningRef?
    }

    constructor()
      ensures Valid()
      ensures planAgents == [] && agents.order == [] && agents.entries == map[]
    {
      planAgents := [];
      agents := Dict([], map[]);
    }

    /** `add(agent)`: a reservation is appended to the list, anything else is stored under its id. */
    method Add(agent: AgentRef)
      requires Valid()
      modifies this
      ensures Valid()
      ensures agent.PlanningRef? ==> planAgents == old(planAgents) + [agent.planning] && agents == old(agents)
      ensures !agent.PlanningRef? ==>
        agents == old(agents).Put(agent.UniqueId(), agent) && planAgents == old(planAgents)
    {
      if agent.PlanningRef? {
        planAgents := planAgents + [agent.planning];
      } else {
        agents := agents.Put(agent.UniqueId(), agent);
      }
    }

    /**
     * `remove(agent)`: a reservation is taken out of the list once, anything
     * else has its id deleted from the dictionary.  A reservation missing from
     * the list raises `ValueError`, a missing id `KeyError`; either way nothing
     * changes.
     */
    method Remove(agent: AgentRef) returns (err: Option<ScheduleError>)
      requires Valid()
      modifies this
      ensures Valid()
      ensures agent.PlanningRef? && agent.planning !in old(planAgents) ==>
        err == Some(ValueError) && planAgents == old(planAgents) && agents == old(agents)
      ensures agent.PlanningRef? && agent.planning in old(planAgents) ==>
        err.None? && planAgents == RemoveFirst(old(planAgents), agent.planning) && agents == old(agents)
      ensures !agent.PlanningRef? && agent.UniqueId() !in old(agents.entries) ==>
        err == Some(KeyError) && planAgents == old(planAgents) && agents == old(agents)
      ensures !agent.PlanningRef? && agent.UniqueId() in old(agents.entries) ==>
        err.None? && agents == old(agents).Del(agent.UniqueId()) && planAgents == old(planAgents)
    {
      if agent.PlanningRef? {
        if agent.planning !in planAgents {
          return Some(ValueError);
        }
        planAgents := RemoveFirst(planAgents, agent.planning);
      } else {
        if agent.UniqueId() !in agents.entries {
          return Some(KeyError);
        }
        agents := agents.Del(agent.UniqueId());
      }
      return None;
    }

    /** `getPassiveAgent(id)`: the agent registered under `id`, or `KeyError` if there is none. */
    method GetPassiveAgent(id: int) returns (r: Result<AgentRef, ScheduleError>)
      requires Valid()
      ensures r.Err? <==> id !in agents.entries
      ensures r.Err? ==> r.error == KeyError
      ensures r.Ok? ==> id in agents.entries && r.value == agents.entries[id]
      ensures r.Ok? ==> r.value.UniqueId() == id && !r.value.PlanningRef?
    {
      if id !in agents.entries {
        return Err(KeyError);
      }
      return Ok(agents.entries[id]);
    }

    /**
     * `getPassiveAgentOnPos(pos)`: the first agent, in the dictionary's order,
     * standing on `pos`; `None` when no registered agent stands there.
     */
    method GetPassiveAgentOnPos(pos: Pos) returns (found: Option<AgentRef>)
      requires Valid()
      ensures found.None? <==> forall id :: id in agents.entries ==> agents.entries[id].Pos() != pos
      ensures found.Some? ==>
        exists i :: 0 <= i < |agents.order| && found.value == agents.entries[agents.order[i]]
          && found.value.Pos() == pos
          && forall j :: 0 <= j < i ==> agents.entries[agents.order[j]].Pos() != pos
    {
      var i := 0;
      while i < |agents.order|
        invariant 0 <= i <= |agents.order|
        invariant forall j :: 0 <= j < i ==> agents.entries[agents.order[j]].Pos() != pos
      {
        var each := agents.order[i];
        if agents.entries[each].Pos() == pos {
          return Some(agents.entries[each]);
        }
        i := i + 1;
      }
      return None;
    }
  }

}
