/**
 * `PassiveAgentPerception`: what the active agents last saw of a patch.  It
 * reuses the patch's `unique_id` and position, copies its state and timer
 * when created, and is overwritten in place by `update`.
 */
module Perception {

  import opened Wrappers
  import opened Space
  import opened Lifecycle
  import opened Passive

  datatype PerceptionRecord = PerceptionRecord(uniqueId: int, pos: Pos, state: CropState, time: int)

  /**
   * `update(state, time_at_current_state)`: a missing state leaves the record
   * as it was; a given one overwrites both state and timer.  Identity and
   * position are never touched.
   */
  function Updated(r: PerceptionRecord, state: Option<CropState>, time: int): (u: PerceptionRecord)
    ensures u.uniqueId == r.uniqueId && u.pos == r.pos
    ensures state.None? ==> u == r
    ensures state.Some? ==> u.state == state.value && u.time == time
  {
    match state
    case None => r
    case Some(s) => r.(state := s, time := time)
  }

  /** The last update that carries a state wins: it hides every earlier one. */
  lemma LastWriterWins(r: PerceptionRecord, first: Option<CropState>, t1: int, s2: CropState, t2: int)
    ensures Updated(Updated(r, first, t1), Some(s2), t2) == Updated(r, Some(s2), t2)
  {
  }

  /** Repeating an update changes nothing more. */
  lemma UpdateIdempotent(r: PerceptionRecord, state: Option<CropState>, time: int)
    ensures Updated(Updated(r, state, time), state, time) == Updated(r, state, time)
  {
  }

  class PassiveAgentPerception {
    const uniqueId: int
    const pos: Pos
    var state: CropState
    var timeAtCurrentState: int

    function Record(): PerceptionRecord
      reads this
    {
      PerceptionRecord(uniqueId, pos, state, timeAtCurrentState)
    }

    /** A snapshot of a patch, under the patch's own id. */
    constructor(agent: PassiveAgent)
      ensures Record() == PerceptionRecord(agent.uniqueId, agent.pos, agent.state, agent.timeAtCurrentState)
    {
      uniqueId := agent.uniqueId;
      pos := agent.pos;
      state := agent.state;
      timeAtCurrentState := agent.timeAtCurrentState;
    }

    method Update(state: Option<CropState>, timeAtCurrentState: int := 0)
      modifies this
      ensures Record() == Updated(old(Record()), state, timeAtCurrentState)
    {
      if state.Some? {
        this.state := state.value;
        this.timeAtCurrentState := timeAtCurrentState;
      }
    }
  }

}
