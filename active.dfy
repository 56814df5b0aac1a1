/**
 * The mobile robots (`ActiveAgent`) and the cell reservations they post
 * (`ActiveAgentPlanning`).  A reservation carries its owner's `unique_id`, the
 * cell it reserves and `steps_left`, the number of ticks until the owner
 * should stand there.
 */
module Active {

  import opened Space

  class ActiveAgent {
    const uniqueId: int
    const agentType: string
    var pos: Pos
    var mode: string
    var currentTool: string
    /** The reservation the agent is about to execute, if any. */
    var plan: ActiveAgentPlanning?

    /** `startWithPlow` stands for `random.choice(['PLOW', 'SOW'])`. */
    constructor(uniqueId: int, pos: Pos, startWithPlow: bool)
      ensures this.uniqueId == uniqueId && this.pos == pos
      ensures agentType == "ACTIVE" && mode == "TEST" && plan == null
      ensures currentTool == if startWithPlow then "PLOW" else "SOW"
    {
      this.uniqueId := uniqueId;
      this.pos := pos;
      agentType := "ACTIVE";
      mode := "TEST";
      currentTool := if startWithPlow then "PLOW" else "SOW";
      plan := null;
    }
  }

  class ActiveAgentPlanning {
    /** The owner's `unique_id`, shared by all of its reservations. */
    const uniqueId: int
    const pos: Pos
    var stepsLeft: int

    constructor(agent: ActiveAgent, pos: Pos, steps: int := 0)
      ensures uniqueId == agent.uniqueId && this.pos == pos && stepsLeft == steps
    {
      uniqueId := agent.uniqueId;
      this.pos := pos;
      stepsLeft := steps;
    }
  }

}
