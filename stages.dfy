/**
 * The two `sample_stage` methods of agents.py that reach beyond their own
 * object: `ActiveAgent.sample_stage` (move along the plan, use the tool on the
 * patches around, extend the reservation chain) and
 * `ActiveAgentPlanning.sample_stage` (count a reservation down and retire it).
 * Both touch the scheduler, which itself depends on the agent classes, so
 * they are written here as methods taking the agent as their first argument.
 *
 * The grid and the knowledge map's projections are given as functions:
 * `isCellEmpty` for the world grid, `neighbours` for the Moore neighbourhood without its centre,
 * `projectedEmpty(step, cell)` for `getGridStateAtStep(step).is_cell_empty`,
 * and `choose(step, cells)` picks the index `random.choice` would (reduced
 * modulo the number of cells, so every choice is representable).
 */
module Stages {

  import opened Wrappers
  import opened Space
  import opened Lists
  import opened Passive
  import opened Active
  import opened Knowledge
  import opened Schedule

  /** A reservation as the chain sees it: its cell and its `steps_left`. */
  datatype Cell = Cell(pos: Pos, steps: int)

  function CellOf(p: ActiveAgentPlanning): Cell
    reads p
  {
    Cell(p.pos, p.stepsLeft)
  }

  /** `[cell for cell in neighbors if grid_at_state.is_cell_empty(cell)]` */
  function EmptyCells(cells: seq<Pos>, step: int, projectedEmpty: (int, Pos) -> bool): (r: seq<Pos>)
    ensures forall c :: c in r <==> c in cells && projectedEmpty(step, c)
  {
    if cells == [] then []
    else (if projectedEmpty(step, cells[0]) then [cells[0]] else []) + EmptyCells(cells[1..], step, projectedEmpty)
  }

  /** An agent keeps up to this many reservations ahead of itself. */
  const PlanHorizon: nat := 6

  /**
   * `range(6 - plan_count)`: enough passes to bring the agent up to six
   * reservations, and none once it holds six or more.
   */
  function Budget(planCount: nat): (r: nat)
    ensures r <= PlanHorizon
    ensures planCount < PlanHorizon ==> planCount + r == PlanHorizon
    ensures planCount >= PlanHorizon ==> r == 0
  {
    if planCount < PlanHorizon then PlanHorizon - planCount else 0
  }

  /**
   * One pass of the extension loop: a cell one step further out, next to the
   * furthest reservation and empty at that step, if there is one.
   */
  function NextCell(furthest: Cell, neighbours: Pos -> seq<Pos>, projectedEmpty: (int, Pos) -> bool,
                    choose: (int, seq<Pos>) -> nat): (r: Option<Cell>)
    ensures r.Some? ==> r.value.steps == furthest.steps + 1
    ensures r.Some? ==> r.value.pos in neighbours(furthest.pos) && projectedEmpty(r.value.steps, r.value.pos)
    ensures r.None? <==> forall c :: c in neighbours(furthest.pos) ==> !projectedEmpty(furthest.steps + 1, c)
  {
    var step := furthest.steps + 1;
    var empty := EmptyCells(neighbours(furthest.pos), step, projectedEmpty);
    if |empty| == 0 then None else Some(Cell(empty[choose(step, empty) % |empty|], step))
  }

  /** The cells the extension loop reserves, in order, when it may run `n` more times. */
  function Extension(furthest: Cell, n: nat, neighbours: Pos -> seq<Pos>, projectedEmpty: (int, Pos) -> bool,
                     choose: (int, seq<Pos>) -> nat): (r: seq<Cell>)
    ensures |r| <= n
    decreases n
  {
    if n == 0 then []
    else
      match NextCell(furthest, neighbours, projectedEmpty, choose)
      case None => Extension(furthest, n - 1, neighbours, projectedEmpty, choose)
      case Some(next) => [next] + Extension(next, n - 1, neighbours, projectedEmpty, choose)
  }

  /** The cell a chain's `k`-th link was grown from. */
  function Before(start: Cell, chain: seq<Cell>, k: nat): Cell
    requires k <= |chain|
  {
    if k == 0 then start else chain[k - 1]
  }

  /**
   * Each link is one step further out than the one before, lies next to it
   * and is empty in the projection for its own step.
   */
  ghost predicate ChainFrom(start: Cell, chain: seq<Cell>, neighbours: Pos -> seq<Pos>,
                            projectedEmpty: (int, Pos) -> bool)
  {
    forall k :: 0 <= k < |chain| ==>
      && chain[k].steps == start.steps + k + 1
      && chain[k].pos in neighbours(Before(start, chain, k).pos)
      && projectedEmpty(chain[k].steps, chain[k].pos)
  }

  /** The reservations the extension adds form a chain from the furthest one. */
  lemma {:induction false} ExtensionIsABoundedChain(furthest: Cell, n: nat, neighbours: Pos -> seq<Pos>,
                                                    projectedEmpty: (int, Pos) -> bool, choose: (int, seq<Pos>) -> nat)
    ensures ChainFrom(furthest, Extension(furthest, n, neighbours, projectedEmpty, choose), neighbours, projectedEmpty)
    decreases n
  {
    if n > 0 {
      match NextCell(furthest, neighbours, projectedEmpty, choose)
      case None =>
        ExtensionIsABoundedChain(furthest, n - 1, neighbours, projectedEmpty, choose);
      case Some(next) =>
        var rest := Extension(next, n - 1, neighbours, projectedEmpty, choose);
        ExtensionIsABoundedChain(next, n - 1, neighbours, projectedEmpty, choose);
        var chain := [next] + rest;
        assert Extension(furthest, n, neighbours, projectedEmpty, choose) == chain;
        forall k | 0 <= k < |chain|
          ensures chain[k].steps == furthest.steps + k + 1
          ensures chain[k].pos in neighbours(Before(furthest, chain, k).pos)
          ensures projectedEmpty(chain[k].steps, chain[k].pos)
        {
          if k > 0 {
            assert chain[k] == rest[k - 1];
            assert Before(furthest, chain, k) == Before(next, rest, k - 1);
          }
        }
    }
  }

  /** With no empty neighbour at the next step, every further pass fails the same way. */
  lemma {:induction false} DeadEndStaysDead(furthest: Cell, n: nat, neighbours: Pos -> seq<Pos>,
                                            projectedEmpty: (int, Pos) -> bool, choose: (int, seq<Pos>) -> nat)
    requires NextCell(furthest, neighbours, projectedEmpty, choose).None?
    ensures Extension(furthest, n, neighbours, projectedEmpty, choose) == []
    decreases n
  {
    if n > 0 {
      DeadEndStaysDead(furthest, n - 1, neighbours, projectedEmpty, choose);
    }
  }

  /**
   * The chain falls short of `n` only at a dead end: its last cell has no
   * empty neighbour one step further out.
   */
  lemma {:induction false} ExtensionStopsOnlyAtDeadEnd(furthest: Cell, n: nat, neighbours: Pos -> seq<Pos>,
                                                      projectedEmpty: (int, Pos) -> bool, choose: (int, seq<Pos>) -> nat)
    ensures var chain := Extension(furthest, n, neighbours, projectedEmpty, choose);
      |chain| < n ==> NextCell(Before(furthest, chain, |chain|), neighbours, projectedEmpty, choose).None?
    decreases n
  {
    if n > 0 {
      match NextCell(furthest, neighbours, projectedEmpty, choose)
      case None =>
        DeadEndStaysDead(furthest, n, neighbours, projectedEmpty, choose);
      case Some(next) =>
        var rest := Extension(next, n - 1, neighbours, projectedEmpty, choose);
        ExtensionStopsOnlyAtDeadEnd(next, n - 1, neighbours, projectedEmpty, choose);
        var chain := [next] + rest;
        assert Before(furthest, chain, |chain|) == Before(next, rest, |rest|);
    }
  }

  /**
   * After `i` of `budget` passes, the cells reserved so far (`done`, ending at
   * `tip`) followed by what the remaining passes would reserve make up the
   * whole extension.
   */
  ghost predicate OnTrack(start: Cell, budget: nat, i: nat, done: seq<Cell>, tip: Cell,
                          neighbours: Pos -> seq<Pos>, projectedEmpty: (int, Pos) -> bool, choose: (int, seq<Pos>) -> nat)
  {
    && i <= budget
    && done + Extension(tip, budget - i, neighbours, projectedEmpty, choose)
       == Extension(start, budget, neighbours, projectedEmpty, choose)
  }

  /** One pass of the loop moves one cell, if any, from the part still to come to the part done. */
  lemma ExtensionStep(start: Cell, budget: nat, i: nat, done: seq<Cell>, tip: Cell,
                      neighbours: Pos -> seq<Pos>, projectedEmpty: (int, Pos) -> bool, choose: (int, seq<Pos>) -> nat)
    requires i < budget
    requires OnTrack(start, budget, i, done, tip, neighbours, projectedEmpty, choose)
    ensures var next := NextCell(tip, neighbours, projectedEmpty, choose);
      next.None? ==> OnTrack(start, budget, i + 1, done, tip, neighbours, projectedEmpty, choose)
    ensures var next := NextCell(tip, neighbours, projectedEmpty, choose);
      next.Some? ==> OnTrack(start, budget, i + 1, done + [next.value], next.value, neighbours, projectedEmpty, choose)
  {
    var next := NextCell(tip, neighbours, projectedEmpty, choose);
    if next.Some? {
      var rest := Extension(next.value, budget - (i + 1), neighbours, projectedEmpty, choose);
      assert Extension(tip, budget - i, neighbours, projectedEmpty, choose) == [next.value] + rest;
      assert (done + [next.value]) + rest == done + ([next.value] + rest);
    }
  }

  /** Once all passes are done, the cells reserved are the whole extension. */
  lemma OnTrackAtEnd(start: Cell, budget: nat, done: seq<Cell>, tip: Cell,
                     neighbours: Pos -> seq<Pos>, projectedEmpty: (int, Pos) -> bool, choose: (int, seq<Pos>) -> nat)
    requires OnTrack(start, budget, budget, done, tip, neighbours, projectedEmpty, choose)
    ensures done == Extension(start, budget, neighbours, projectedEmpty, choose)
  {
    assert done + [] == done;
  }

  /** Every patch in `patches` gets `interact(agent)` once, in order. */
  method InteractAll(patches: seq<PassiveAgent>, agentType: string, currentTool: string)
    modifies patches
    ensures forall p :: p in patches ==> p.Snapshot() == Interaction(agentType, currentTool, old(p.Snapshot()))
  {
    for i := 0 to |patches|
      invariant forall p :: p in patches[..i] ==>
        p.Snapshot() == Interaction(agentType, currentTool, old(p.Snapshot()))
      invariant forall p :: p in patches && p !in patches[..i] ==> p.Snapshot() == old(p.Snapshot())
    {
      var p := patches[i];
      InteractionIdempotent(agentType, currentTool, old(p.Snapshot()));
      p.Interact(agentType, currentTool);
      assert patches[..i + 1] == patches[..i] + [p];
    }
  }

  /** `plans` reserve the cells of `chain`, one for one and in order. */
  ghost predicate Reserves(plans: seq<ActiveAgentPlanning>, chain: seq<Cell>)
    reads plans
  {
    && |plans| == |chain|
    && forall k :: 0 <= k < |plans| ==> plans[k].pos == chain[k].pos && plans[k].stepsLeft == chain[k].steps
  }

  /** The reservations of `plans`, as the plan grid holds them. */
  function Placed(plans: seq<ActiveAgentPlanning>): set<ActiveAgentPlanning>
  {
    set k | 0 <= k < |plans| :: plans[k]
  }

  lemma PlacedAppend(plans: seq<ActiveAgentPlanning>, p: ActiveAgentPlanning)
    ensures Placed(plans + [p]) == Placed(plans) + {p}
  {
    var r := plans + [p];
    forall q | q in Placed(r) ensures q in Placed(plans) + {p} {
      var k :| 0 <= k < |r| && r[k] == q;
      if k < |plans| {
        assert plans[k] == q;
      }
    }
    forall q | q in Placed(plans) + {p} ensures q in Placed(r) {
      if q == p {
        assert r[|plans|] == p;
      } else {
        var k :| 0 <= k < |plans| && plans[k] == q;
        assert r[k] == q;
      }
    }
  }

  /**
   * What the extension loop has posted so far: `newPlans` appended to the
   * owner's list in the knowledge map, placed on the plan grid and added to the
   * scheduler, and the current plan set to the reservation one step away.  The
   * reservation at index `k` is `startSteps + k + 1` steps out.
   */
  ghost predicate Posted(agent: ActiveAgent, km: KnowledgeMap, schedule: ActivePassiveAgentActivation,
                         agents0: map<int, seq<ActiveAgentPlanning>>, grid0: set<ActiveAgentPlanning>,
                         scheduled0: seq<ActiveAgentPlanning>, plan0: ActiveAgentPlanning?,
                         startSteps: int, newPlans: seq<ActiveAgentPlanning>)
    reads agent, km, schedule
  {
    && agent.uniqueId in agents0
    && km.planAgents == agents0[agent.uniqueId := agents0[agent.uniqueId] + newPlans]
    && km.planGrid == grid0 + Placed(newPlans)
    && schedule.planAgents == scheduled0 + newPlans
    && agent.plan == if 0 <= -startSteps < |newPlans| then newPlans[-startSteps] else plan0
  }

  /**
   * One pass of the `for` loop of `ActiveAgent.sample_stage`: reserve an empty
   * cell next to `current` one step further out, post it to the knowledge map
   * and the scheduler, and make it the current plan when it is one step away.
   * `null` when no neighbour is empty at that step.
   */
  method ExtendOnce(agent: ActiveAgent, km: KnowledgeMap, schedule: ActivePassiveAgentActivation,
                    tip: Cell,
                    neighbours: Pos -> seq<Pos>, projectedEmpty: (int, Pos) -> bool, choose: (int, seq<Pos>) -> nat,
                    ghost agents0: map<int, seq<ActiveAgentPlanning>>, ghost grid0: set<ActiveAgentPlanning>,
                    ghost scheduled0: seq<ActiveAgentPlanning>, ghost plan0: ActiveAgentPlanning?,
                    ghost startSteps: int, ghost newPlans: seq<ActiveAgentPlanning>)
    returns (next: ActiveAgentPlanning?)
    requires schedule.Valid()
    requires tip.steps == startSteps + |newPlans|
    requires Posted(agent, km, schedule, agents0, grid0, scheduled0, plan0, startSteps, newPlans)
    modifies agent`plan, km, schedule
    ensures schedule.Valid()
    ensures schedule.agents == old(schedule.agents)
    ensures var c := NextCell(tip, neighbours, projectedEmpty, choose);
      && (next == null <==> c.None?)
      && (next != null ==> CellOf(next) == c.value)
    ensures next == null ==> Posted(agent, km, schedule, agents0, grid0, scheduled0, plan0, startSteps, newPlans)
    ensures next != null ==>
      && fresh(next) && next.uniqueId == agent.uniqueId
      && Posted(agent, km, schedule, agents0, grid0, scheduled0, plan0, startSteps, newPlans + [next])
  {
    var step := tip.steps + 1;
    var emptyCells := EmptyCells(neighbours(tip.pos), step, projectedEmpty);
    if |emptyCells| > 0 {
      var choice := emptyCells[choose(step, emptyCells) % |emptyCells|];
      next := new ActiveAgentPlanning(agent, choice, step);
      km.UpdatePlan(next);
      schedule.Add(PlanningRef(next));
      if next.stepsLeft == 1 {
        agent.plan := next;
      }
      ghost var mine := agents0[agent.uniqueId];
      assert (mine + newPlans) + [next] == mine + (newPlans + [next]);
      PlacedAppend(newPlans, next);
      assert km.planGrid == grid0 + Placed(newPlans + [next]);
    } else {
      next := null;
    }
  }

  /**
   * The `for` loop of `ActiveAgent.sample_stage`: up to `budget` passes of
   * `ExtendOnce`, each growing the chain from the reservation the last pass
   * added.  Reservation `k` is `k + 1` steps beyond `furthest`, so the one
   * that becomes the current plan is the one at index `-furthest.steps_left`.
   */
  method ExtendPlans(agent: ActiveAgent, km: KnowledgeMap, schedule: ActivePassiveAgentActivation,
                     furthest: ActiveAgentPlanning, budget: nat,
                     neighbours: Pos -> seq<Pos>, projectedEmpty: (int, Pos) -> bool, choose: (int, seq<Pos>) -> nat)
    returns (ghost newPlans: seq<ActiveAgentPlanning>)
    requires agent.uniqueId in km.planAgents
    requires schedule.Valid()
    modifies agent`plan, km, schedule
    ensures schedule.Valid()
    ensures schedule.agents == old(schedule.agents)
    ensures Reserves(newPlans, Extension(old(CellOf(furthest)), budget, neighbours, projectedEmpty, choose))
    ensures forall k :: 0 <= k < |newPlans| ==> fresh(newPlans[k]) && newPlans[k].uniqueId == agent.uniqueId
    ensures Posted(agent, km, schedule, old(km.planAgents), old(km.planGrid), old(schedule.planAgents),
                   old(agent.plan), old(furthest.stepsLeft), newPlans)
  {
    var start := CellOf(furthest);
    var tip := start;
    assert OnTrack(start, budget, 0, [], tip, neighbours, projectedEmpty, choose) by {
      assert [] + Extension(start, budget, neighbours, projectedEmpty, choose)
          == Extension(start, budget, neighbours, projectedEmpty, choose);
    }
    newPlans := [];
    ghost var done: seq<Cell> := [];
    assert km.planAgents == km.planAgents[agent.uniqueId := km.planAgents[agent.uniqueId] + newPlans] by {
      assert km.planAgents[agent.uniqueId] + newPlans == km.planAgents[agent.uniqueId];
    }
    assert km.planGrid == km.planGrid + Placed(newPlans);
    for i := 0 to budget
      invariant schedule.Valid()
      invariant schedule.agents == old(schedule.agents)
      invariant tip.steps == start.steps + |newPlans|
      invariant OnTrack(start, budget, i, done, tip, neighbours, projectedEmpty, choose)
      invariant Reserves(newPlans, done)
      invariant forall k :: 0 <= k < |newPlans| ==> fresh(newPlans[k]) && newPlans[k].uniqueId == agent.uniqueId
      invariant Posted(agent, km, schedule, old(km.planAgents), old(km.planGrid), old(schedule.planAgents),
                       old(agent.plan), start.steps, newPlans)
    {
      ghost var nextCell := NextCell(tip, neighbours, projectedEmpty, choose);
      ExtensionStep(start, budget, i, done, tip, neighbours, projectedEmpty, choose);
      var next := ExtendOnce(agent, km, schedule, tip, neighbours, projectedEmpty, choose,
                             old(km.planAgents), old(km.planGrid), old(schedule.planAgents),
                             old(agent.plan), start.steps, newPlans);
      if next != null {
        assert CellOf(next) == nextCell.value;
        tip := CellOf(next);
        newPlans := newPlans + [next];
        done := done + [tip];
      } else {
        assert nextCell.None?;
      }
    }
    OnTrackAtEnd(start, budget, done, tip, neighbours, projectedEmpty, choose);
  }

  /** Where the chain grows from: the furthest reservation held, or the agent's own cell at step 0. */
  function ChainStart(sorted: seq<ActiveAgentPlanning>, pos: Pos): Cell
    reads sorted
  {
    if |sorted| > 0 then CellOf(sorted[|sorted| - 1]) else Cell(pos, 0)
  }

  /**
   * Plan consistency: after `ActiveAgent.sample_stage` the agent's list, the
   * sorted reservations followed by those the extension reserved, is still
   * ordered by `steps_left`, because the chain starts one step beyond the
   * last sorted reservation.
   */
  lemma PlanListStaysOrdered(plans: seq<ActiveAgentPlanning>, pos: Pos, newPlans: seq<ActiveAgentPlanning>,
                             neighbours: Pos -> seq<Pos>, projectedEmpty: (int, Pos) -> bool,
                             choose: (int, seq<Pos>) -> nat)
    requires Reserves(newPlans, Extension(ChainStart(SortedBySteps(plans), pos), Budget(|SortedBySteps(plans)|),
                                          neighbours, projectedEmpty, choose))
    ensures StepsNondecreasing(SortedBySteps(plans) + newPlans)
  {
    var sorted := SortedBySteps(plans);
    SortedByStepsIsSorted(plans);
    var start := ChainStart(sorted, pos);
    ExtensionIsABoundedChain(start, Budget(|sorted|), neighbours, projectedEmpty, choose);
    var all := sorted + newPlans;
    forall i | 0 <= i < |sorted| ensures sorted[i].stepsLeft <= start.steps {
      var last := |sorted| - 1;
      if i < last {
        assert sorted[i].stepsLeft <= sorted[last].stepsLeft;
      }
    }
    forall i, j | 0 <= i < j < |all| ensures all[i].stepsLeft <= all[j].stepsLeft {
      if j < |sorted| {
        assert all[i] == sorted[i] && all[j] == sorted[j];
      } else {
        assert all[j] == newPlans[j - |sorted|];
        if i < |sorted| {
          assert all[i] == sorted[i];
        } else {
          assert all[i] == newPlans[i - |sorted|];
        }
      }
    }
  }

  /**
   * The part of `ActiveAgent.sample_stage` before the extension loop: sort the
   * agent's reservations by `steps_left`, step onto the first one if in `TEST`
   * mode and its cell is empty, work the patches around, and pick the
   * reservation the chain grows from (a fresh one on the agent's cell at step
   * 0 when it holds none) and the plan to execute next.
   */
  method BeginStage(agent: ActiveAgent, km: KnowledgeMap, isCellEmpty: Pos -> bool,
                    neighbours: Pos -> seq<Pos>, adjacentPatches: seq<PassiveAgent>)
    returns (myPlans: seq<ActiveAgentPlanning>, furthest: ActiveAgentPlanning)
    requires agent.uniqueId in km.planAgents
    requires forall p :: p in adjacentPatches ==> p.pos in neighbours(agent.pos)
    modifies agent`pos, agent`plan, km`planAgents, adjacentPatches
    ensures myPlans == old(SortedBySteps(km.planAgents[agent.uniqueId]))
    ensures km.planAgents == old(km.planAgents)[agent.uniqueId := myPlans]
    ensures agent.pos == if agent.mode == "TEST" && |myPlans| > 0 && isCellEmpty(myPlans[0].pos)
                         then myPlans[0].pos else old(agent.pos)
    ensures CellOf(furthest) == ChainStart(myPlans, agent.pos)
    ensures agent.plan == if |myPlans| > 0 then myPlans[0] else old(agent.plan)
    ensures forall p :: p in adjacentPatches ==>
      p.Snapshot() == if agent.mode == "TEST"
                      then Interaction(agent.agentType, agent.currentTool, old(p.Snapshot()))
                      else old(p.Snapshot())
  {
    myPlans := SortedBySteps(km.planAgents[agent.uniqueId]);
    km.planAgents := km.planAgents[agent.uniqueId := myPlans];
    var planCount := |myPlans|;
    if agent.mode == "TEST" {
      if planCount > 0 && isCellEmpty(myPlans[0].pos) {
        agent.pos := myPlans[0].pos;  // grid.move_agent
      }
      InteractAll(adjacentPatches, agent.agentType, agent.currentTool);
    }
    if planCount > 0 {
      furthest := myPlans[planCount - 1];
      agent.plan := myPlans[0];
    } else {
      furthest := new ActiveAgentPlanning(agent, agent.pos, 0);
    }
  }

  /**
   * `ActiveAgent.sample_stage`.  `adjacentPatches` are the patches found in the
   * cells around the agent's position at the start of the stage (the source
   * computes that neighbourhood before it moves); gathering every such patch
   * from the grid is the caller's part, since the grid's contents are not
   * modelled.  Publishing perceptions to
   * the knowledge map is not modelled.
   */
  method ActiveAgentSampleStage(agent: ActiveAgent, km: KnowledgeMap, schedule: ActivePassiveAgentActivation,
                                isCellEmpty: Pos -> bool, adjacentPatches: seq<PassiveAgent>,
                                neighbours: Pos -> seq<Pos>, projectedEmpty: (int, Pos) -> bool,
                                choose: (int, seq<Pos>) -> nat)
    returns (ghost newPlans: seq<ActiveAgentPlanning>)
    requires agent.uniqueId in km.planAgents
    requires schedule.Valid()
    requires forall p :: p in adjacentPatches ==> p.pos in neighbours(agent.pos)
    modifies agent`pos, agent`plan, km, schedule, adjacentPatches
    ensures schedule.Valid()
    ensures var sorted := old(SortedBySteps(km.planAgents[agent.uniqueId]));
            var moved := agent.mode == "TEST" && |sorted| > 0 && isCellEmpty(sorted[0].pos);
            && agent.pos == (if moved then sorted[0].pos else old(agent.pos))
            && Reserves(newPlans, Extension(ChainStart(sorted, agent.pos), Budget(|sorted|),
                                            neighbours, projectedEmpty, choose))
            && Posted(agent, km, schedule, old(km.planAgents)[agent.uniqueId := sorted], old(km.planGrid),
                      old(schedule.planAgents), if |sorted| > 0 then sorted[0] else old(agent.plan),
                      ChainStart(sorted, agent.pos).steps, newPlans)
    ensures forall k :: 0 <= k < |newPlans| ==> fresh(newPlans[k]) && newPlans[k].uniqueId == agent.uniqueId
    ensures schedule.agents == old(schedule.agents)
    ensures forall p :: p in adjacentPatches ==>
      p.Snapshot() == if agent.mode == "TEST"
                      then Interaction(agent.agentType, agent.currentTool, old(p.Snapshot()))
                      else old(p.Snapshot())
  {
    var myPlans, furthest := BeginStage(agent, km, isCellEmpty, neighbours, adjacentPatches);
    newPlans := ExtendPlans(agent, km, schedule, furthest, Budget(|myPlans|), neighbours, projectedEmpty, choose);
  }

  /**
   * `ActiveAgentPlanning.sample_stage`: one tick closer; once `steps_left`
   * drops below zero the reservation leaves the scheduler, the plan grid and
   * its owner's list, in that order.  An exception stops the sequence where it
   * is raised, keeping the steps already taken: `ValueError` when the
   * scheduler's list lacks the reservation, `KeyError` when the owner has no
   * list, `ValueError` when the owner's list lacks it.
   */
  method PlanningSampleStage(plan: ActiveAgentPlanning, schedule: ActivePassiveAgentActivation, km: KnowledgeMap)
    returns (err: Option<ScheduleError>)
    requires schedule.Valid()
    modifies plan, schedule, km
    ensures schedule.Valid()
    ensures plan.stepsLeft == old(plan.stepsLeft) - 1
    ensures schedule.agents == old(schedule.agents)
    ensures plan.stepsLeft >= 0 ==>
      && err.None?
      && schedule.planAgents == old(schedule.planAgents)
      && km.planGrid == old(km.planGrid) && km.planAgents == old(km.planAgents)
    ensures plan.stepsLeft < 0 && plan !in old(schedule.planAgents) ==>
      && err == Some(ValueError)
      && schedule.planAgents == old(schedule.planAgents)
      && km.planGrid == old(km.planGrid) && km.planAgents == old(km.planAgents)
    ensures plan.stepsLeft < 0 && plan in old(schedule.planAgents) ==>
      && schedule.planAgents == RemoveFirst(old(schedule.planAgents), plan)
      && km.planGrid == old(km.planGrid) - {plan}
      && (plan.uniqueId !in old(km.planAgents) ==> err == Some(KeyError) && km.planAgents == old(km.planAgents))
      && (plan.uniqueId in old(km.planAgents) && plan !in old(km.planAgents[plan.uniqueId]) ==>
            err == Some(ValueError) && km.planAgents == old(km.planAgents))
      && (plan.uniqueId in old(km.planAgents) && plan in old(km.planAgents[plan.uniqueId]) ==>
            err.None? &&
            km.planAgents == old(km.planAgents)[plan.uniqueId := RemoveFirst(old(km.planAgents[plan.uniqueId]), plan)])
  {
    plan.stepsLeft := plan.stepsLeft - 1;
    if plan.stepsLeft < 0 {
      err := schedule.Remove(PlanningRef(plan));
      if err.Some? {
        return;
      }
      km.planGrid := km.planGrid - {plan};
      if plan.uniqueId !in km.planAgents {
        return Some(KeyError);
      }
      if plan !in km.planAgents[plan.uniqueId] {
        return Some(ValueError);
      }
      km.planAgents := km.planAgents[plan.uniqueId := RemoveFirst(km.planAgents[plan.uniqueId], plan)];
    }
    return None;
  }

}
