/**
 * The plan side of the shared knowledge map: each active agent's list of
 * reservations (`planAgents`) and the plan grid on which reservations are
 * placed.  No file of ag_sim defines or builds the knowledge map (the model
 * class still has it as a to-do), so it is given here the behaviour its
 * callers in agents.py rely on.  The sort of a plan list by `steps_left`
 * (Python's stable `list.sort`) lives here too.
 */
module Knowledge {

  import opened Active

  /** `steps_left` never decreases from head to tail. */
  ghost predicate StepsNondecreasing(plans: seq<ActiveAgentPlanning>)
    reads plans
  {
    forall i, j :: 0 <= i < j < |plans| ==> plans[i].stepsLeft <= plans[j].stepsLeft
  }

  /** Put `p` after every element whose `steps_left` is not larger than its own. */
  function InsertBySteps(p: ActiveAgentPlanning, sorted: seq<ActiveAgentPlanning>): (r: seq<ActiveAgentPlanning>)
    reads p, sorted
    ensures p in r
    ensures forall q :: q in sorted ==> q in r
    ensures forall q :: q in r ==> q == p || q in sorted
  {
    if sorted == [] || p.stepsLeft < sorted[0].stepsLeft then [p] + sorted
    else [sorted[0]] + InsertBySteps(p, sorted[1..])
  }

  lemma {:induction false} InsertByStepsIsPermutation(p: ActiveAgentPlanning, sorted: seq<ActiveAgentPlanning>)
    ensures multiset(InsertBySteps(p, sorted)) == multiset(sorted) + multiset{p}
  {
    if sorted != [] && p.stepsLeft >= sorted[0].stepsLeft {
      InsertByStepsIsPermutation(p, sorted[1..]);
      assert sorted == [sorted[0]] + sorted[1..];
    }
  }

  lemma {:induction false} InsertByStepsKeepsOrder(p: ActiveAgentPlanning, sorted: seq<ActiveAgentPlanning>)
    requires StepsNondecreasing(sorted)
    ensures StepsNondecreasing(InsertBySteps(p, sorted))
  {
    if sorted != [] && p.stepsLeft >= sorted[0].stepsLeft {
      var tail := sorted[1..];
      assert StepsNondecreasing(tail) by {
        forall i, j | 0 <= i < j < |tail| ensures tail[i].stepsLeft <= tail[j].stepsLeft {
          assert tail[i] == sorted[i + 1] && tail[j] == sorted[j + 1];
        }
      }
      InsertByStepsKeepsOrder(p, tail);
      var rest := InsertBySteps(p, tail);
      forall q | q in rest ensures sorted[0].stepsLeft <= q.stepsLeft {
        if q != p {
          var m :| 0 <= m < |tail| && tail[m] == q;
          assert q == sorted[m + 1];
        }
      }
      var r := [sorted[0]] + rest;
      assert r == InsertBySteps(p, sorted);
      forall i, j | 0 <= i < j < |r| ensures r[i].stepsLeft <= r[j].stepsLeft {
        if i > 0 {
          assert r[i] == rest[i - 1] && r[j] == rest[j - 1];
        } else {
          assert r[j] == rest[j - 1];
        }
      }
    }
  }

  /**
   * `plans.sort(key=lambda x: x.steps_left)`: an insertion sort that keeps
   * reservations with equal `steps_left` in their original order.
   */
  function SortedBySteps(plans: seq<ActiveAgentPlanning>): (r: seq<ActiveAgentPlanning>)
    reads plans
    ensures forall q :: q in r ==> q in plans
  {
    if plans == [] then []
    else
      var last := |plans| - 1;
      var prefix := SortedBySteps(plans[..last]);
      assert forall i :: 0 <= i < |prefix| ==> prefix[i] in plans by {
        forall i | 0 <= i < |prefix| ensures prefix[i] in plans {
          assert prefix[i] in plans[..last];
        }
      }
      InsertBySteps(plans[last], prefix)
  }

  /** The sort returns the same reservations, each as often as before. */
  lemma {:induction false} SortedByStepsIsPermutation(plans: seq<ActiveAgentPlanning>)
    ensures multiset(SortedBySteps(plans)) == multiset(plans)
  {
    if plans != [] {
      var last := |plans| - 1;
      var prefix := SortedBySteps(plans[..last]);
      SortedByStepsIsPermutation(plans[..last]);
      InsertByStepsIsPermutation(plans[last], prefix);
      assert SortedBySteps(plans) == InsertBySteps(plans[last], prefix);
      assert plans == plans[..last] + [plans[last]];
      assert multiset(plans) == multiset(plans[..last]) + multiset{plans[last]};
    }
  }

  /** The sort orders the reservations by `steps_left`. */
  lemma {:induction false} SortedByStepsIsSorted(plans: seq<ActiveAgentPlanning>)
    ensures StepsNondecreasing(SortedBySteps(plans))
  {
    if plans != [] {
      var last := |plans| - 1;
      SortedByStepsIsSorted(plans[..last]);
      InsertByStepsKeepsOrder(plans[last], SortedBySteps(plans[..last]));
    }
  }

  class KnowledgeMap {
    /** `planAgents`: each agent's reservations, keyed by the agent's `unique_id`. */
    var planAgents: map<int, seq<ActiveAgentPlanning>>
    /** The reservations placed on the plan grid. */
    var planGrid: set<ActiveAgentPlanning>

    constructor(agentIds: set<int>)
      ensures planAgents == map id | id in agentIds :: []
      ensures planGrid == {}
    {
      planAgents := map id | id in agentIds :: [];
      planGrid := {};
    }

    /** `update(plan)`: append the reservation to its owner's list and place it on the plan grid. */
    method UpdatePlan(plan: ActiveAgentPlanning)
      modifies this
      ensures planAgents == old(planAgents)[plan.uniqueId :=
        (if plan.uniqueId in old(planAgents) then old(planAgents)[plan.uniqueId] else []) + [plan]]
      ensures planGrid == old(planGrid) + {plan}
    {
      var mine := if plan.uniqueId in planAgents then planAgents[plan.uniqueId] else [];
      planAgents := planAgents[plan.uniqueId := mine + [plan]];
      planGrid := planGrid + {plan};
    }
  }

}
