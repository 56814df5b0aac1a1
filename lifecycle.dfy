/**
 * The life cycle of a soil patch (`PassiveAgentStateMachine`): its fourteen
 * states and the named transitions between them.  The library that runs the
 * machine fires an event only from the event's source state and raises
 * `TransitionNotAllowed` otherwise; `Fire` models that.
 */
module Lifecycle {

  import opened Wrappers

  datatype CropState =
    | Start
    | Plowed
    | Baby | BabySick | BabyWeeds
    | Growing | GrowingSick | GrowingWeeds | UnhappyGrowing
    | Flowering | FloweringSick | FloweringWeeds
    | Harvestable
    | End

  /** The `waterable_states` group: every state of the baby, growing and flowering phases. */
  predicate Waterable(s: CropState): (r: bool)
    ensures r <==> 2 <= Phase(s) <= 4
  {
    s in {Baby, BabySick, BabyWeeds, Growing, GrowingSick, GrowingWeeds, UnhappyGrowing,
          Flowering, FloweringSick, FloweringWeeds}
  }

  /** The declared transitions, one constructor per event. */
  datatype Event =
    | Plow
    | Sow
    | SickBaby | SickBabyDeath | SickBabyRecovery
    | WeedsBaby | WeedsBabyRecovery | WeedsBabyDeath
    | BabyGrown
    | SickGrowing | SickGrowingDeath | SickGrowingRecovery
    | WeedsGrowing | WeedsGrowingRecovery | WeedsGrowingDeath
    | LowNutrition | DeathFromLowNutrition
    | GrowingToFlowering
    | SickFlowering | SickFloweringDeath | SickFloweringRecovery
    | WeedsFlowering | WeedsFloweringRecovery | WeedsFloweringDeath
    | ReadyToHarvest
    | Harvest

  /** The state an event leaves (the left side of `a.to(b)`); no event leaves `end`. */
  function Source(e: Event): (s: CropState)
    ensures s != End
  {
    match e
    case Plow => Start
    case Sow => Plowed
    case SickBaby => Baby
    case SickBabyDeath => BabySick
    case SickBabyRecovery => BabySick
    case WeedsBaby => Baby
    case WeedsBabyRecovery => BabyWeeds
    case WeedsBabyDeath => BabyWeeds
    case BabyGrown => Baby
    case SickGrowing => Growing
    case SickGrowingDeath => GrowingSick
    case SickGrowingRecovery => GrowingSick
    case WeedsGrowing => Growing
    case WeedsGrowingRecovery => GrowingWeeds
    case WeedsGrowingDeath => GrowingWeeds
    case LowNutrition => Growing
    case DeathFromLowNutrition => UnhappyGrowing
    case GrowingToFlowering => Growing
    case SickFlowering => Flowering
    case SickFloweringDeath => FloweringSick
    case SickFloweringRecovery => FloweringSick
    case WeedsFlowering => Flowering
    case WeedsFloweringRecovery => FloweringWeeds
    case WeedsFloweringDeath => FloweringWeeds
    case ReadyToHarvest => Flowering
    case Harvest => Harvestable
  }

  /**
   * The state an event enters (the right side of `a.to(b)`): always a
   * successor of its source in the edge table, and never `start`.
   */
  function Target(e: Event): (t: CropState)
    ensures IsEdge(Source(e), t)
    ensures t != Start
  {
    match e
    case Plow => Plowed
    case Sow => Baby
    case SickBaby => BabySick
    case SickBabyDeath => End
    case SickBabyRecovery => Baby
    case WeedsBaby => BabyWeeds
    case WeedsBabyRecovery => Baby
    case WeedsBabyDeath => End
    case BabyGrown => Growing
    case SickGrowing => GrowingSick
    case SickGrowingDeath => End
    case SickGrowingRecovery => Growing
    case WeedsGrowing => GrowingWeeds
    case WeedsGrowingRecovery => Growing
    case WeedsGrowingDeath => End
    case LowNutrition => UnhappyGrowing
    case DeathFromLowNutrition => End
    case GrowingToFlowering => Flowering
    case SickFlowering => FloweringSick
    case SickFloweringDeath => End
    case SickFloweringRecovery => Flowering
    case WeedsFlowering => FloweringWeeds
    case WeedsFloweringRecovery => Flowering
    case WeedsFloweringDeath => End
    case ReadyToHarvest => Harvestable
    case Harvest => End
  }

  datatype TransitionError = TransitionNotAllowed(event: Event, state: CropState)

  /** Firing an event: allowed only from its source state. */
  function Fire(e: Event, s: CropState): (r: Result<CropState, TransitionError>)
    ensures r.Ok? <==> s == Source(e)
    ensures r.Ok? ==> IsEdge(s, r.value)
    ensures r.Err? ==> r.error == TransitionNotAllowed(e, s)
  {
    if s == Source(e) then Ok(Target(e)) else Err(TransitionNotAllowed(e, s))
  }

  /**
   * The same table read by state: the states each state can move to.  This
   * is the edge list a reader checks against the declaration.
   */
  function Successors(s: CropState): set<CropState>
  {
    match s
    case Start => {Plowed}
    case Plowed => {Baby}
    case Baby => {BabySick, BabyWeeds, Growing}
    case BabySick => {End, Baby}
    case BabyWeeds => {Baby, End}
    case Growing => {GrowingSick, GrowingWeeds, UnhappyGrowing, Flowering}
    case GrowingSick => {End, Growing}
    case GrowingWeeds => {Growing, End}
    case UnhappyGrowing => {End}
    case Flowering => {FloweringSick, FloweringWeeds, Harvestable}
    case FloweringSick => {End, Flowering}
    case FloweringWeeds => {Flowering, End}
    case Harvestable => {End}
    case End => {}
  }

  predicate IsEdge(s: CropState, t: CropState)
  {
    t in Successors(s)
  }

  /** Every declared event is an edge of the table, and every edge is some event. */
  lemma EventsAreExactlyTheEdges(s: CropState, t: CropState)
    ensures IsEdge(s, t) <==> exists e :: Source(e) == s && Target(e) == t
  {
    if IsEdge(s, t) {
      var e := EventFor(s, t);
    }
  }

  /** The event that realises an edge (a witness for `EventsAreExactlyTheEdges`). */
  function EventFor(s: CropState, t: CropState): (e: Event)
    requires IsEdge(s, t)
    ensures Source(e) == s && Target(e) == t
  {
    match s
    case Baby | BabySick | BabyWeeds => BabyEventFor(s, t)
    case Growing | GrowingSick | GrowingWeeds | UnhappyGrowing => GrowingEventFor(s, t)
    case Flowering | FloweringSick | FloweringWeeds => FloweringEventFor(s, t)
    case Start => Plow
    case Plowed => Sow
    case Harvestable => Harvest
    case End => assert false; Harvest
  }

  function BabyEventFor(s: CropState, t: CropState): (e: Event)
    requires IsEdge(s, t) && Phase(s) == 2
    ensures Source(e) == s && Target(e) == t
  {
    match s
    case Baby => if t == BabySick then SickBaby else if t == BabyWeeds then WeedsBaby else BabyGrown
    case BabySick => if t == End then SickBabyDeath else SickBabyRecovery
    case BabyWeeds => if t == End then WeedsBabyDeath else WeedsBabyRecovery
  }

  function GrowingEventFor(s: CropState, t: CropState): (e: Event)
    requires IsEdge(s, t) && Phase(s) == 3
    ensures Source(e) == s && Target(e) == t
  {
    match s
    case Growing =>
      if t == GrowingSick then SickGrowing
      else if t == GrowingWeeds then WeedsGrowing
      else if t == UnhappyGrowing then LowNutrition
      else GrowingToFlowering
    case GrowingSick => if t == End then SickGrowingDeath else SickGrowingRecovery
    case GrowingWeeds => if t == End then WeedsGrowingDeath else WeedsGrowingRecovery
    case UnhappyGrowing => DeathFromLowNutrition
  }

  function FloweringEventFor(s: CropState, t: CropState): (e: Event)
    requires IsEdge(s, t) && Phase(s) == 4
    ensures Source(e) == s && Target(e) == t
  {
    match s
    case Flowering =>
      if t == FloweringSick then SickFlowering
      else if t == FloweringWeeds then WeedsFlowering
      else ReadyToHarvest
    case FloweringSick => if t == End then SickFloweringDeath else SickFloweringRecovery
    case FloweringWeeds => if t == End then WeedsFloweringDeath else WeedsFloweringRecovery
  }

  /** `end` is terminal: no event leaves it. */
  lemma EndIsTerminal(e: Event)
    ensures Source(e) != End
    ensures Fire(e, End).Err?
  {
  }

  /**
   * The macro-phase of a state: start, plowed, baby, growing, flowering,
   * harvestable, end.  Sub-states (sick, weeds, unhappy) share their phase.
   */
  function Phase(s: CropState): nat
  {
    match s
    case Start => 0
    case Plowed => 1
    case Baby | BabySick | BabyWeeds => 2
    case Growing | GrowingSick | GrowingWeeds | UnhappyGrowing => 3
    case Flowering | FloweringSick | FloweringWeeds => 4
    case Harvestable => 5
    case End => 6
  }

  /** No edge leads back to an earlier phase, and no edge is a self-loop. */
  lemma EdgesNeverGoBack(s: CropState, t: CropState)
    requires IsEdge(s, t)
    ensures Phase(s) <= Phase(t)
    ensures s != t
  {
  }

}
