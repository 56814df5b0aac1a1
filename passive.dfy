/**
 * A soil patch (`PassiveAgent`): its state machine, its state timer, the tool
 * actions an active agent applies to it and its own per-tick `sample_stage`.
 *
 * The pure functions first say what each operation does to the pair
 * (state, timer); the class below implements the source's methods step by step
 * and is proved against them.
 */
module Passive {

  import opened Wrappers
  import opened Space
  import opened Lifecycle

  /** The observable part of a patch: `machine.current_state` and `time_at_current_state`. */
  datatype Patch = Patch(state: CropState, time: nat)

  /** The tool names `interact` dispatches on. */
  datatype Tool = PlowTool | SowTool | CureTool | Pesticides | WateringTool | HarvestingTool

  function ToolName(t: Tool): string
  {
    match t
    case PlowTool => "PLOW"
    case SowTool => "SOW"
    case CureTool => "CURE"
    case Pesticides => "PESTICIDES"
    case WateringTool => "WATERING_TOOL"
    case HarvestingTool => "HARVESTING_TOOL"
  }

  /** The `switcher` dictionary of `interact`: the tool a name stands for, or `None` for any other name. */
  function ToolNamed(name: string): (r: Option<Tool>)
    ensures r.Some? ==> ToolName(r.value) == name
    ensures r.None? ==> forall t :: ToolName(t) != name
  {
    if name == "PLOW" then Some(PlowTool)
    else if name == "SOW" then Some(SowTool)
    else if name == "CURE" then Some(CureTool)
    else if name == "PESTICIDES" then Some(Pesticides)
    else if name == "WATERING_TOOL" then Some(WateringTool)
    else if name == "HARVESTING_TOOL" then Some(HarvestingTool)
    else None
  }

  /** The dispatch table and the tool names are inverse to each other. */
  lemma ToolNamesRoundTrip(t: Tool, name: string)
    ensures ToolNamed(ToolName(t)) == Some(t)
    ensures ToolNamed(name) == Some(t) ==> ToolName(t) == name
  {
  }

  /** A sick or weedy sub-state, which a tool brings back to its healthy phase. */
  predicate IsSick(s: CropState) { s in {BabySick, GrowingSick, FloweringSick} }

  predicate HasWeeds(s: CropState) { s in {BabyWeeds, GrowingWeeds, FloweringWeeds} }

  /** The healthy state of a sub-state's phase. */
  function HealthyOf(s: CropState): CropState
    requires IsSick(s) || HasWeeds(s)
  {
    match s
    case BabySick | BabyWeeds => Baby
    case GrowingSick | GrowingWeeds => Growing
    case FloweringSick | FloweringWeeds => Flowering
  }

  /**
   * The event a tool method fires from state `s`, if its guard holds.  This is
   * the guard of each `if` in plow, sow, cure, kill_weeds, water and harvest.
   */
  function ToolEvent(t: Tool, s: CropState): (e: Option<Event>)
    ensures e.Some? ==> Source(e.value) == s
  {
    match t
    case PlowTool => if s == Start then Some(Event.Plow) else None
    case SowTool => if s == Plowed then Some(Event.Sow) else None
    case CureTool =>
      if s == BabySick then Some(SickBabyRecovery)
      else if s == GrowingSick then Some(SickGrowingRecovery)
      else if s == FloweringSick then Some(SickFloweringRecovery)
      else None
    case Pesticides =>
      if s == BabyWeeds then Some(WeedsBabyRecovery)
      else if s == GrowingWeeds then Some(WeedsGrowingRecovery)
      else if s == FloweringWeeds then Some(WeedsFloweringRecovery)
      else None
    case WateringTool => None
    case HarvestingTool => if s == Harvestable then Some(Event.Harvest) else None
  }

  /**
   * A tool applied to a patch: either nothing changes, or the patch follows one
   * edge of the table and its timer restarts at 0.
   */
  function ApplyTool(t: Tool, p: Patch): (r: Patch)
    ensures r == p || (r.time == 0 && IsEdge(p.state, r.state))
    ensures r.state == p.state ==> r == p
    ensures p.state == End ==> r == p
  {
    match ToolEvent(t, p.state)
    case None => p
    case Some(e) => Patch(Fire(e, p.state).value, 0)
  }

  /** The tool table, stated by state: which state each tool acts on and where it leads. */
  lemma ToolTable(p: Patch)
    ensures ApplyTool(PlowTool, p) == if p.state == Start then Patch(Plowed, 0) else p
    ensures ApplyTool(SowTool, p) == if p.state == Plowed then Patch(Baby, 0) else p
    ensures ApplyTool(HarvestingTool, p) == if p.state == Harvestable then Patch(End, 0) else p
    ensures ApplyTool(CureTool, p) == if IsSick(p.state) then Patch(HealthyOf(p.state), 0) else p
    ensures ApplyTool(Pesticides, p) == if HasWeeds(p.state) then Patch(HealthyOf(p.state), 0) else p
    ensures ApplyTool(WateringTool, p) == p
  {
  }

  /** Applying the same tool twice does what applying it once does. */
  lemma ApplyToolIdempotent(t: Tool, p: Patch)
    ensures ApplyTool(t, ApplyTool(t, p)) == ApplyTool(t, p)
  {
  }

  /**
   * `interact`: only an agent whose `agent_type` is 'ACTIVE' has an effect,
   * and a tool name outside the dispatch table does nothing.
   */
  function Interaction(agentType: string, toolName: string, p: Patch): (r: Patch)
    ensures agentType != "ACTIVE" || ToolNamed(toolName).None? ==> r == p
    ensures agentType == "ACTIVE" && ToolNamed(toolName).Some? ==> r == ApplyTool(ToolNamed(toolName).value, p)
  {
    if agentType == "ACTIVE" then
      match ToolNamed(toolName)
      case Some(t) => ApplyTool(t, p)
      case None => p
    else p
  }

  /** Interacting twice in a row with the same agent does what interacting once does. */
  lemma InteractionIdempotent(agentType: string, toolName: string, p: Patch)
    ensures Interaction(agentType, toolName, Interaction(agentType, toolName, p))
         == Interaction(agentType, toolName, p)
  {
    if agentType == "ACTIVE" && ToolNamed(toolName).Some? {
      ApplyToolIdempotent(ToolNamed(toolName).value, p);
    }
  }

  /** Ticks a baby patch needs before it grows (`when_baby`). */
  const BabyGrowthTime: nat := 10

  /**
   * `when_baby`, applied after the timer has been increased: growth first, then
   * the sickness draw, then the weeds draw; `sickDraw` and `weedsDraw` stand for
   * `random() < 0.001` and `random() < 0.005`.
   */
  function BabyStep(p: Patch, sickDraw: bool, weedsDraw: bool): (r: Patch)
    requires p.state == Baby
    ensures r == p || (r.time == 0 && IsEdge(Baby, r.state))
  {
    if p.time >= BabyGrowthTime then Patch(Fire(BabyGrown, p.state).value, 0)
    else if sickDraw then Patch(Fire(SickBaby, p.state).value, 0)
    else if weedsDraw then Patch(Fire(WeedsBaby, p.state).value, 0)
    else p
  }

  /**
   * `sample_stage`: the timer goes up by one, and only a baby patch can then
   * change state, along an edge of the table and with its timer restarted.
   */
  function Sampled(p: Patch, sickDraw: bool, weedsDraw: bool): (r: Patch)
    ensures r.state == p.state ==> r.time == p.time + 1
    ensures r.state != p.state ==> p.state == Baby && r.time == 0 && IsEdge(p.state, r.state)
  {
    var ticked := Patch(p.state, p.time + 1);
    if p.state == Baby then BabyStep(ticked, sickDraw, weedsDraw) else ticked
  }

  /** The baby branch in full: growth wins over both hazards, sickness over weeds. */
  lemma BabyPriority(p: Patch, sickDraw: bool, weedsDraw: bool)
    requires p.state == Baby
    ensures Sampled(p, sickDraw, weedsDraw) ==
      if p.time + 1 >= BabyGrowthTime then Patch(Growing, 0)
      else if sickDraw then Patch(BabySick, 0)
      else if weedsDraw then Patch(BabyWeeds, 0)
      else Patch(Baby, p.time + 1)
  {
  }

  /** Anything that can happen to a patch: an agent's interaction or its own tick. */
  datatype Action =
    | InteractWith(agentType: string, toolName: string)
    | Tick(sickDraw: bool, weedsDraw: bool)

  function Perform(p: Patch, a: Action): (r: Patch)
    ensures r.state != p.state ==> IsEdge(p.state, r.state)
  {
    match a
    case InteractWith(agentType, toolName) => Interaction(agentType, toolName, p)
    case Tick(sickDraw, weedsDraw) => Sampled(p, sickDraw, weedsDraw)
  }

  function Run(p: Patch, actions: seq<Action>): Patch
    decreases actions
  {
    if actions == [] then p else Run(Perform(p, actions[0]), actions[1..])
  }

  /** Over any history of interactions and ticks a patch never returns to an earlier phase. */
  lemma {:induction false} RunNeverGoesBack(p: Patch, actions: seq<Action>)
    ensures Phase(p.state) <= Phase(Run(p, actions).state)
    decreases actions
  {
    if actions != [] {
      var q := Perform(p, actions[0]);
      if q.state != p.state {
        EdgesNeverGoBack(p.state, q.state);
      }
      RunNeverGoesBack(q, actions[1..]);
    }
  }

  /** Once a patch is at `end` it stays there, whatever happens to it. */
  lemma {:induction false} EndIsAbsorbing(p: Patch, actions: seq<Action>)
    requires p.state == End
    ensures Run(p, actions).state == End
    decreases actions
  {
    if actions != [] {
      EndIsAbsorbing(Perform(p, actions[0]), actions[1..]);
    }
  }

  class PassiveAgent {
    const uniqueId: int
    const pos: Pos
    const agentType: string
    /** `machine.current_state` */
    var state: CropState
    var timeAtCurrentState: nat

    function Snapshot(): Patch
      reads this
    {
      Patch(state, timeAtCurrentState)
    }

    constructor(uniqueId: int, pos: Pos)
      ensures this.uniqueId == uniqueId && this.pos == pos && agentType == "PASSIVE"
      ensures Snapshot() == Patch(Start, 0)
    {
      this.uniqueId := uniqueId;
      this.pos := pos;
      agentType := "PASSIVE";
      state := Start;
      timeAtCurrentState := 0;
    }

    /** `interact(agent)`, given the caller's `agent_type` and `current_tool`. */
    method Interact(agentType: string, currentTool: string)
      modifies this
      ensures Snapshot() == Interaction(agentType, currentTool, old(Snapshot()))
    {
      if agentType == "ACTIVE" {
        match ToolNamed(currentTool)
        case Some(PlowTool) => Plow();
        case Some(SowTool) => Sow();
        case Some(CureTool) => Cure();
        case Some(Pesticides) => KillWeeds();
        case Some(WateringTool) => Water();
        case Some(HarvestingTool) => Harvest();
        case None =>  // the dictionary's fallback `lambda: None` does nothing
      }
    }

    method Plow()
      modifies this
      ensures Snapshot() == ApplyTool(PlowTool, old(Snapshot()))
    {
      if state == Start {
        timeAtCurrentState := 0;
        state := Fire(Event.Plow, state).value;
      }
    }

    method Sow()
      modifies this
      ensures Snapshot() == ApplyTool(SowTool, old(Snapshot()))
    {
      if state == Plowed {
        timeAtCurrentState := 0;
        state := Fire(Event.Sow, state).value;
      }
    }

    /** Three independent `if`s; once one fires, the state no longer matches the others. */
    method Cure()
      modifies this
      ensures Snapshot() == ApplyTool(CureTool, old(Snapshot()))
    {
      if state == BabySick {
        timeAtCurrentState := 0;
        state := Fire(SickBabyRecovery, state).value;
      }
      if state == GrowingSick {
        timeAtCurrentState := 0;
        state := Fire(SickGrowingRecovery, state).value;
      }
      if state == FloweringSick {
        timeAtCurrentState := 0;
        state := Fire(SickFloweringRecovery, state).value;
      }
    }

    method KillWeeds()
      modifies this
      ensures Snapshot() == ApplyTool(Pesticides, old(Snapshot()))
    {
      if state == BabyWeeds {
        timeAtCurrentState := 0;
        state := Fire(WeedsBabyRecovery, state).value;
      }
      if state == GrowingWeeds {
        timeAtCurrentState := 0;
        state := Fire(WeedsGrowingRecovery, state).value;
      }
      if state == FloweringWeeds {
        timeAtCurrentState := 0;
        state := Fire(WeedsFloweringRecovery, state).value;
      }
    }

    /** Watering has no effect yet, in a waterable state or not. */
    method Water()
      modifies this
      ensures Snapshot() == ApplyTool(WateringTool, old(Snapshot()))
    {
      if Waterable(state) {
        return;
      }
    }

    method Harvest()
      modifies this
      ensures Snapshot() == ApplyTool(HarvestingTool, old(Snapshot()))
    {
      if state == Harvestable {
        timeAtCurrentState := 0;
        state := Fire(Event.Harvest, state).value;
      }
    }

    /**
     * `sample_stage`: increase the timer, then dispatch on the state.  Only
     * `baby` has a handler that does anything; `when_growing` and
     * `when_flowering` return at once, and the `harvest` key of the dispatch
     * table is a transition, never equal to a state, so `when_harvest` is
     * never reached.
     */
    method SampleStage(sickDraw: bool, weedsDraw: bool)
      modifies this
      ensures Snapshot() == Sampled(old(Snapshot()), sickDraw, weedsDraw)
    {
      timeAtCurrentState := timeAtCurrentState + 1;
      match state
      case Baby => WhenBaby(sickDraw, weedsDraw);
      case Growing =>     // when_growing
      case Flowering =>   // when_flowering
      case _ =>
    }

    /** `when_baby`; its events raise outside `baby`, so it is only dispatched there. */
    method WhenBaby(sickDraw: bool, weedsDraw: bool)
      requires state == Baby
      modifies this
      ensures Snapshot() == BabyStep(old(Snapshot()), sickDraw, weedsDraw)
    {
      if timeAtCurrentState >= BabyGrowthTime {
        timeAtCurrentState := 0;
        state := Fire(BabyGrown, state).value;
      } else if sickDraw {
        timeAtCurrentState := 0;
        state := Fire(SickBaby, state).value;
      } else if weedsDraw {
        timeAtCurrentState := 0;
        state := Fire(WeedsBaby, state).value;
      }
    }
  }

}
