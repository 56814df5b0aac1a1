# ag_sim in Dafny: crop patches, field robots, reservations and the scheduler

This project models the agent core of `ag_sim`, an agent-based simulation of
autonomous farm robots:

- **Crop patches** (`PassiveAgent`) move through a crop lifecycle state machine,
  from `start` through `plowed` and the baby, growing and flowering phases to
  `harvestable` and `end`. Each patch keeps a timer of ticks spent in its current
  state.
- **Robots** (`ActiveAgent`) act on the patches next to them with their current
  tool: plow, sow, cure, pesticides, watering or harvest.
- **Reservations** (`ActiveAgentPlanning`) are cells a robot reserves for future
  ticks. Their `steps_left` counts down each tick.
- **Perceptions** (`PassiveAgentPerception`) are last-seen copies of a patch.
- **The scheduler** (`ActivePassiveAgentActivation`) keeps reservations in a list
  of their own. It keeps every other agent in a dictionary keyed by `unique_id`.

## Modules

| file | module | what it holds |
|---|---|---|
| `wrappers.dfy` | `Wrappers` | `Option` and `Result` |
| `space.dfy` | `Space` | grid positions |
| `lists.dfy` | `Lists` | Python's `list.remove`: take out the first occurrence |
| `ordered_dict.dfy` | `OrderedDict` | a Python `dict` with its key order: `d[k] = v`, `del d[k]` |
| `lifecycle.dfy` | `Lifecycle` | the state machine: 14 states, 26 events, firing an event, the edge table, phases |
| `passive.dfy` | `Passive` | what each tool and each tick does to a patch, as functions; the `PassiveAgent` class, proved against them |
| `perception.dfy` | `Perception` | the perception record and its `update` |
| `active.dfy` | `Active` | the `ActiveAgent` and `ActiveAgentPlanning` classes |
| `knowledge.dfy` | `Knowledge` | the stable sort by `steps_left`; the knowledge map's plan store |
| `schedule.dfy` | `Schedule` | the scheduler's registry |
| `stages.dfy` | `Stages` | `ActiveAgent.sample_stage` and `ActiveAgentPlanning.sample_stage` |

The agents reach the scheduler at run time, through `self.model.schedule`
(`ag_sim/agents.py` lines 262 and 280). The scheduler in turn imports the agent
classes (`ag_sim/schedule.py` line 3). In Dafny this would be a cycle between
modules, which is not allowed. So the two `sample_stage` methods that reach the
scheduler live in `Stages`, and take the agent as their first argument.

### Outside dependencies as parameters

The grid, the knowledge map's projections and the random draws are parameters:

- `isCellEmpty` stands for `grid.is_cell_empty`.
- `neighbours` stands for the Moore neighbourhood without the centre cell.
- `projectedEmpty(step, cell)` stands for `getGridStateAtStep(step).is_cell_empty(cell)`.
- `choose(step, cells)`, taken modulo the number of cells, is the index `random.choice` picks. One stage asks for at most one choice per step, so a function of the step loses nothing.
- `sickDraw` and `weedsDraw` are the outcomes of `random() < 0.001` and `random() < 0.005`.
- `startWithPlow` is the robot's initial `random.choice(['PLOW', 'SOW'])`.
- `adjacentPatches` are the patches found in the cells around the robot's position before it moves. The source computes that neighbourhood first. The stage requires each of them to stand on a cell of `neighbours` of that position. The grid's contents are not modelled, so gathering every patch of those cells is the caller's job.

## Model

| member | source | states |
|---|---|---|
| Lifecycle.Fire | ag_sim/agents.py:32-62 | an event fires exactly when the machine is in its source state; it then leads along an edge of the table; otherwise the result is `TransitionNotAllowed(event, state)` |
| Lifecycle.Source | ag_sim/agents.py:32-62 | the left side of each declared `a.to(b)`; no transition starts at `end` |
| Lifecycle.Target | ag_sim/agents.py:32-62 | the right side of each declared `a.to(b)`; every declared transition is an edge of the independent table, and none leads back to `start` |
| Lifecycle.Waterable | ag_sim/agents.py:28 | the `waterable_states` group holds exactly the states of the baby, growing and flowering phases |
| Lifecycle.EventFor | ag_sim/agents.py:32-62 | every edge of the table is carried by a declared event, with that source and target |
| Lifecycle.EventsAreExactlyTheEdges | ag_sim/agents.py:32-62 | the edge table and the 26 declared transitions describe the same relation, in both directions |
| Lifecycle.EndIsTerminal | ag_sim/agents.py:26-62 | no transition leaves `end`; firing any event there is refused |
| Lifecycle.EdgesNeverGoBack | ag_sim/agents.py:32-62 | every transition changes the state and never goes back to an earlier phase |
| Passive.ToolNamesRoundTrip | ag_sim/agents.py:83-84 | the six tool names of `interact`'s dispatch table and the tools are in one-to-one correspondence |
| Passive.ToolNamed | ag_sim/agents.py:83-85 | the `switcher` lookup: a known name gives the tool of that name, and `None` comes back only for a name no tool has |
| Passive.ToolEvent | ag_sim/agents.py:90-136 | a tool's guard only ever selects an event whose source is the current state |
| Passive.ApplyTool | ag_sim/agents.py:90-136 | a tool either leaves the patch unchanged, or moves it along one edge with its timer reset to 0; it never changes a patch at `end` |
| Passive.ToolTable | ag_sim/agents.py:90-136 | plow acts only on `start`, sow on `plowed`, harvest on `harvestable`; cure heals exactly the sick sub-states and pesticides exactly the weedy ones; watering does nothing |
| Passive.ApplyToolIdempotent | ag_sim/agents.py:90-136 | using the same tool twice in a row has the effect of using it once |
| Passive.Interaction | ag_sim/agents.py:81-87 | only an `ACTIVE` agent has an effect; an unknown tool name does nothing; otherwise the named tool is applied |
| Passive.InteractionIdempotent | ag_sim/agents.py:81-87 | interacting twice with the same agent has the effect of interacting once |
| Passive.BabyStep | ag_sim/agents.py:150-159 | from `baby`, the patch either stays put or takes one edge out of `baby` with its timer reset |
| Passive.BabyPriority | ag_sim/agents.py:150-159 | in `baby`, growth after 10 ticks wins over sickness, and sickness wins over weeds |
| Passive.Sampled | ag_sim/agents.py:141-168 | a tick adds one to the timer when the state stays; only a `baby` patch changes state, along an edge, with the timer reset |
| Passive.Perform | ag_sim/agents.py:81-159 | whatever happens to a patch, a change of state is an edge of the table |
| Passive.RunNeverGoesBack | ag_sim/agents.py:81-159 | over any sequence of interactions and ticks, a patch never returns to an earlier phase |
| Passive.EndIsAbsorbing | ag_sim/agents.py:81-159 | once at `end`, a patch stays at `end` whatever happens |
| Passive.PassiveAgent.constructor | ag_sim/agents.py:74-79 | a new patch is `PASSIVE`, in `start`, with timer 0 |
| Passive.PassiveAgent.Interact | ag_sim/agents.py:81-87 | the patch's new state and timer are `Interaction` of the old ones |
| Passive.PassiveAgent.Plow | ag_sim/agents.py:90-93 | the new state and timer are what `ApplyTool` gives for the plow |
| Passive.PassiveAgent.Sow | ag_sim/agents.py:95-98 | the new state and timer are what `ApplyTool` gives for sowing |
| Passive.PassiveAgent.Cure | ag_sim/agents.py:100-112 | the three guarded recoveries together do what `ApplyTool` gives for the cure |
| Passive.PassiveAgent.KillWeeds | ag_sim/agents.py:114-126 | the three guarded recoveries together do what `ApplyTool` gives for pesticides |
| Passive.PassiveAgent.Water | ag_sim/agents.py:128-131 | watering leaves the patch unchanged |
| Passive.PassiveAgent.Harvest | ag_sim/agents.py:133-136 | the new state and timer are what `ApplyTool` gives for the harvest |
| Passive.PassiveAgent.SampleStage | ag_sim/agents.py:141-147 | the new state and timer are `Sampled` of the old ones |
| Passive.PassiveAgent.WhenBaby | ag_sim/agents.py:150-159 | the new state and timer are `BabyStep` of the old ones |
| Perception.Updated | ag_sim/agents.py:180-183 | without a state, the record is unchanged; with one, the state and timer are overwritten; identity and position never change |
| Perception.LastWriterWins | ag_sim/agents.py:180-183 | an update that carries a state hides every earlier update |
| Perception.UpdateIdempotent | ag_sim/agents.py:180-183 | repeating an update changes nothing more |
| Perception.PassiveAgentPerception.constructor | ag_sim/agents.py:173-178 | a perception copies the patch's id, position, state and timer |
| Perception.PassiveAgentPerception.Update | ag_sim/agents.py:180-183 | the new record is `Updated` of the old one |
| Active.ActiveAgent.constructor | ag_sim/agents.py:193-200 | a new robot is `ACTIVE`, in mode `TEST`, has no plan, and starts with the plow or the seeder |
| Active.ActiveAgentPlanning.constructor | ag_sim/agents.py:272-275 | a reservation carries its owner's id, the cell and `steps_left` (0 by default) |
| Knowledge.InsertBySteps | ag_sim/agents.py:232 | inserting a reservation into a list loses nothing and adds nothing else |
| Knowledge.InsertByStepsIsPermutation | ag_sim/agents.py:232 | the insertion adds exactly one copy of the reservation |
| Knowledge.InsertByStepsKeepsOrder | ag_sim/agents.py:232 | inserting into a list ordered by `steps_left` keeps it ordered |
| Knowledge.SortedBySteps | ag_sim/agents.py:231-232 | the sorted list holds only reservations of the input |
| Knowledge.SortedByStepsIsPermutation | ag_sim/agents.py:231-232 | the sort is a permutation of the input |
| Knowledge.SortedByStepsIsSorted | ag_sim/agents.py:231-232 | the sorted list is ordered by `steps_left` |
| Knowledge.KnowledgeMap.UpdatePlan | ag_sim/agents.py:261 | posting a reservation appends it to its owner's list and places it on the plan grid; other owners' lists are untouched |
| Lists.IndexOf | ag_sim/schedule.py:30 | the index found holds the element, and no earlier index does |
| Lists.RemoveFirst | ag_sim/schedule.py:30 | `list.remove` drops exactly one copy, the first, and keeps the others in order |
| OrderedDict.Without | ag_sim/schedule.py:32 | deleting a key from the key order keeps every other key and only those |
| OrderedDict.WithoutAbsent | ag_sim/schedule.py:32 | a key order without the key comes back unchanged |
| OrderedDict.WithoutIsRemoveFirst | ag_sim/schedule.py:32 | in a key order without repeats, deleting a key removes that one position and keeps the other keys in their order |
| OrderedDict.Dict.Put | ag_sim/schedule.py:22 | assignment stores the value, leaves other keys alone, keeps a present key's place and appends a new key |
| OrderedDict.Dict.Del | ag_sim/schedule.py:32 | `del` removes the key from the map, removes its one position from the order keeping the other keys in their order, and leaves the other entries alone |
| OrderedDict.PutThenDelRestores | ag_sim/schedule.py:12-32 | adding a new agent and then removing it gives back the same dictionary, key order included |
| Schedule.ActivePassiveAgentActivation.constructor | ag_sim/schedule.py:7-10 | a new scheduler has no reservations and no agents |
| Schedule.ActivePassiveAgentActivation.Add | ag_sim/schedule.py:12-22 | a reservation is appended to the list; any other agent is stored under its own id; the registry stays well formed |
| Schedule.ActivePassiveAgentActivation.Remove | ag_sim/schedule.py:25-32 | a reservation leaves the list once, or the call fails with `ValueError`; any other agent's id leaves the dictionary, or the call fails with `KeyError`; a failed call changes nothing |
| Schedule.ActivePassiveAgentActivation.GetPassiveAgent | ag_sim/schedule.py:34-35 | the lookup fails with `KeyError` exactly when the id is not registered; otherwise it returns the agent stored under that id |
| Schedule.ActivePassiveAgentActivation.GetPassiveAgentOnPos | ag_sim/schedule.py:37-40 | the result is `None` exactly when no registered agent stands on the position; otherwise it is the first such agent in the dictionary's order |
| Stages.EmptyCells | ag_sim/agents.py:257 | a cell is kept exactly when it is a neighbour and is projected empty at that step |
| Stages.NextCell | ag_sim/agents.py:255-260 | a pass reserves a neighbour of the furthest cell, one step further out and projected empty then; it reserves nothing exactly when no neighbour is projected empty |
| Stages.Budget | ag_sim/agents.py:254 | `range(6 - plan_count)` allows exactly enough passes to bring the agent up to six reservations, and none once it holds six or more |
| Stages.Extension | ag_sim/agents.py:254-265 | the reference definition of the extension loop: the cells it reserves, in order; at most one per pass |
| Stages.ExtensionIsABoundedChain | ag_sim/agents.py:254-265 | the cells reserved form a chain of adjacent cells, one step apart and each projected empty at its own step |
| Stages.DeadEndStaysDead | ag_sim/agents.py:254-265 | once a pass finds no empty neighbour, every later pass fails the same way |
| Stages.ExtensionStopsOnlyAtDeadEnd | ag_sim/agents.py:254-265 | the chain falls short of the budget only when its last cell has no empty neighbour |
| Stages.PlanListStaysOrdered | ag_sim/agents.py:231-265 | plan consistency: the agent's sorted list followed by the reservations the extension adds stays ordered by `steps_left` |
| Stages.InteractAll | ag_sim/agents.py:237-241 | every patch around the robot ends up as `Interaction` of its old state |
| Stages.ExtendOnce | ag_sim/agents.py:255-265 | one pass creates a fresh reservation for `NextCell`'s cell, or nothing when `NextCell` finds none; the reservation is posted to the owner's list, the plan grid and the scheduler, and becomes the plan if it is one step away |
| Stages.ExtendPlans | ag_sim/agents.py:254-265 | the new reservations are exactly `Extension` of the furthest one, in order; they are all posted; the plan becomes the one one step away, if any |
| Stages.BeginStage | ag_sim/agents.py:229-253 | the agent's list is sorted in place; in `TEST` mode the robot steps onto its first reservation when that cell is empty, and the patches on the cells around its starting position are worked; the chain grows from the last reservation, or from the robot's cell at step 0 |
| Stages.ActiveAgentSampleStage | ag_sim/agents.py:229-265 | the whole stage: the move, the work on the patches around the starting position, and the reservations posted, in terms of the sorted list and `Extension` |
| Stages.PlanningSampleStage | ag_sim/agents.py:277-282 | `steps_left` drops by one; below zero the reservation leaves the scheduler, the plan grid and its owner's list, stopping at the first exception |

## Left out

- Publishing perceptions: lines 243-248 of `ag_sim/agents.py` post a `PassiveAgentPerception` for each nearby patch. What the knowledge map does with a perception is defined nowhere in ag_sim, so this is not modelled.
- No file of ag_sim defines or builds the knowledge map: `ag_sim/model.py` line 23 leaves it as a to-do. The model keeps only the plan side that `ag_sim/agents.py` uses: the per-agent lists and the plan grid. `update(plan)` appends to the owner's list and places the plan on the grid. `getGridStateAtStep` is the `projectedEmpty` parameter.
- Stages.ActiveAgentSampleStage, Stages.BeginStage and Stages.ExtendPlans: they require the knowledge map to hold a list for the agent. The source indexes `planAgents[unique_id]` without a guard. The map is not defined anywhere, so what happens for a missing id is unknown.
- Stages.PlanningSampleStage: it treats `planAgents` as a plain dict, so a missing owner raises `KeyError`. If the map were a `defaultdict(list)`, the lookup would instead insert an empty list for the owner, and `remove` would raise `ValueError`. The stage stops at the same point in both cases, but the knowledge map differs by that empty entry.
- The world grid, its neighbourhoods and `move_agent` are parameters. The model records the robot's new `pos`, not the grid's cell contents.
- `planGrid.remove_agent` is a set removal here. The mesa grid also clears the agent's `pos`; that is not modelled.
- Randomness: each draw is a parameter, as listed above. The probabilities themselves are not modelled.
- The dead `passive_stage` method, kept in a string literal in `ag_sim/agents.py`, is not modelled.
- `when_growing`, `when_flowering` and `when_harvest` do nothing. They are match arms of `SampleStage` with no effect. The `harvest` key of the dispatch table is a transition, not a state, so `when_harvest` is never reached.
- The mesa base classes (`Agent`, `SimultaneousActivation`), the `step`/`advance` loop and the data collection are not part of this model.
- The docstring of `remove` says it removes all instances of an agent. The code removes one list entry, the first, and the model follows the code.
- Knowledge.SortedBySteps: stability (reservations with equal `steps_left` keep their relative order) holds by construction of the insertion sort, but it is not stated as a lemma. Only permutation and order are proved.
