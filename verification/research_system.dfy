/** The research system's observable behaviour for the FarmI slice of the
    research tree: each node's state is derived from its external condition,
    its completion and its prerequisite's state, and completing CropYieldI
    raises FarmI production. */
module ResearchSystem {
  import opened Wrappers
  import opened ResearchStates
  import FarmConfig

  /** The research nodes of the slice. */
  datatype ResearchId = TierI | RoadSandy | FarmI | CropYieldI | FarmIPowerI

  /** Distance from a root of the prerequisite tree. */
  function Depth(n: ResearchId): nat
  {
    match n
    case TierI => 0
    case RoadSandy => 0
    case FarmI => 1
    case CropYieldI => 2
    case FarmIPowerI => 2
  }

  /** The single prerequisite of a node, if it has one. TierI and RoadSandy
      are the roots; FarmI is the shared prerequisite of both of its
      dependents. */
  function Prerequisite(n: ResearchId): (r: Option<ResearchId>)
    ensures r.Some? ==> r.value != n && Depth(r.value) < Depth(n)
    ensures r.None? <==> Depth(n) == 0
    ensures Depth(n) == 2 ==> r == Some(FarmI)
  {
    match n
    case TierI => None
    case RoadSandy => None
    case FarmI => Some(TierI)
    case CropYieldI => Some(FarmI)
    case FarmIPowerI => Some(FarmI)
  }

  /** Whether `n` requires `x`, directly or through further prerequisites. */
  predicate DependsOn(n: ResearchId, x: ResearchId)
    decreases Depth(n)
  {
    match Prerequisite(n)
    case None => false
    case Some(p) => p == x || DependsOn(p, x)
  }

  /** Whether the node is gated by the military's research support. A gated
      node sits directly below FarmI and no node depends on it, so the
      support flag reaches no other node. */
  function NeedsMilitarySupport(n: ResearchId): (r: bool)
    ensures r ==> Prerequisite(n) == Some(FarmI)
    ensures r ==> forall m :: !DependsOn(m, n)
    ensures r ==> n != CropYieldI
  {
    n == FarmIPowerI
  }

  /** Everything the derived states depend on: the military support flag,
      the set of completed researches and the FarmI production quantities. */
  datatype System = System(
    militarySupport: bool,
    completed: set<ResearchId>,
    farmQuantities: seq<int>)

  /** Whether the external condition of `n` holds in `sys`. */
  predicate ConditionHolds(sys: System, n: ResearchId)
  {
    !NeedsMilitarySupport(n) || sys.militarySupport
  }

  /** The availability rule for one node: a failed condition locks the node
      even when it has been completed; otherwise a completed node is
      Researched, and an uncompleted one is Researchable exactly when its
      prerequisite is Researched. */
  function Derive(conditionHolds: bool, completed: bool, prerequisiteResearched: bool): (r: ResearchState)
    ensures r == Locked <==> !conditionHolds
    ensures r == Researched <==> conditionHolds && completed
    ensures r == Researchable <==> conditionHolds && !completed && prerequisiteResearched
    ensures r == Unavailable <==> conditionHolds && !completed && !prerequisiteResearched
  {
    if !conditionHolds then Locked
    else if completed then Researched
    else if prerequisiteResearched then Researchable
    else Unavailable
  }

  /** The state of `n` as the research system reports it. */
  function StateOf(sys: System, n: ResearchId): (r: ResearchState)
    ensures r == Researched ==> n in sys.completed
    ensures r == Researchable ==> n !in sys.completed
    ensures r != Locked <==> ConditionHolds(sys, n)
    ensures r != Locked && Prerequisite(n).None? && n !in sys.completed ==> r == Researchable
    decreases Depth(n)
  {
    Derive(ConditionHolds(sys, n), n in sys.completed, PrerequisiteResearched(sys, n))
  }

  /** A node without prerequisite counts as having its prerequisite met. */
  predicate PrerequisiteResearched(sys: System, n: ResearchId)
    decreases Depth(n), 0
  {
    match Prerequisite(n)
    case None => true
    case Some(p) => StateOf(sys, p) == Researched
  }

  /** A new game: no military support, TierI and RoadSandy already done, and
      the default FarmI production quantities. */
  function Initial(defaultQuantities: seq<int>): (sys: System)
    ensures !sys.militarySupport
    ensures sys.farmQuantities == defaultQuantities
    ensures forall n :: StateOf(sys, n) == Researched <==> n == TierI || n == RoadSandy
  {
    System(false, {TierI, RoadSandy}, defaultQuantities)
  }

  /** Turns the military's research support on or off; completion and the
      production configuration are left alone. */
  function SetMilitarySupport(sys: System, active: bool): (r: System)
    ensures r.militarySupport == active
    ensures r.completed == sys.completed
    ensures r.farmQuantities == sys.farmQuantities
  {
    sys.(militarySupport := active)
  }

  /** Researches a Researchable node: it is completed, becomes Researched,
      and, for CropYieldI, every FarmI production quantity goes up by one. */
  function Research(sys: System, x: ResearchId): (r: System)
    requires StateOf(sys, x) == Researchable
    ensures r.militarySupport == sys.militarySupport
    ensures r.completed == sys.completed + {x}
    ensures StateOf(r, x) == Researched
    ensures x == CropYieldI ==> |r.farmQuantities| == |sys.farmQuantities|
    ensures x == CropYieldI ==>
      forall i :: 0 <= i < |sys.farmQuantities| ==> r.farmQuantities[i] == sys.farmQuantities[i] + 1
    ensures x != CropYieldI ==> r.farmQuantities == sys.farmQuantities
  {
    var quantities := if x == CropYieldI then FarmConfig.RaiseProduction(sys.farmQuantities)
                      else sys.farmQuantities;
    System(sys.militarySupport, sys.completed + {x}, quantities)
  }

  /** A node is Researched exactly when it is completed and its condition
      holds; it is Locked exactly when its condition fails. */
  lemma StateOfRule(sys: System, n: ResearchId)
    ensures StateOf(sys, n) == Researched <==> n in sys.completed && ConditionHolds(sys, n)
    ensures StateOf(sys, n) == Locked <==> !ConditionHolds(sys, n)
    ensures StateOf(sys, n) == Researchable
            <==> ConditionHolds(sys, n) && n !in sys.completed && PrerequisiteResearched(sys, n)
    ensures StateOf(sys, n) == Unavailable
            <==> ConditionHolds(sys, n) && n !in sys.completed && !PrerequisiteResearched(sys, n)
  {
  }

  /** Completion is remembered while the node is Locked: whatever the support
      flag is set to, a completed node shows Researched whenever its
      condition holds and Locked otherwise. */
  lemma CompletionRemembered(sys: System, n: ResearchId, active: bool)
    requires n in sys.completed
    ensures StateOf(SetMilitarySupport(sys, active), n)
            == (if ConditionHolds(SetMilitarySupport(sys, active), n) then Researched else Locked)
    ensures StateOf(SetMilitarySupport(SetMilitarySupport(sys, false), true), n) == Researched
  {
  }

  /** The support flag gates FarmIPowerI only, and nothing depends on
      FarmIPowerI, so every other node keeps its state when the flag moves. */
  lemma {:induction false} SupportOnlyGatesFarmIPowerI(sys: System, active: bool, n: ResearchId)
    requires n != FarmIPowerI
    ensures StateOf(SetMilitarySupport(sys, active), n) == StateOf(sys, n)
    decreases Depth(n)
  {
    match Prerequisite(n)
    case None =>
    case Some(p) => SupportOnlyGatesFarmIPowerI(sys, active, p);
  }

  /** Researching never moves any node to an earlier state. */
  lemma {:induction false} ResearchNeverLowers(sys: System, x: ResearchId, m: ResearchId)
    requires StateOf(sys, x) == Researchable
    ensures Ord(StateOf(Research(sys, x), m)) >= Ord(StateOf(sys, m))
    decreases Depth(m)
  {
    match Prerequisite(m)
    case None =>
    case Some(p) =>
      ResearchNeverLowers(sys, x, p);
      OrdInjective(StateOf(Research(sys, x), p), Researched);
      OrdAtMostResearched(StateOf(sys, m));
  }

  /** Researching `x` leaves every node that neither is `x` nor depends on
      `x` exactly as it was. */
  lemma {:induction false} ResearchLeavesUnrelatedNodes(sys: System, x: ResearchId, m: ResearchId)
    requires StateOf(sys, x) == Researchable
    requires m != x && !DependsOn(m, x)
    ensures StateOf(Research(sys, x), m) == StateOf(sys, m)
    decreases Depth(m)
  {
    match Prerequisite(m)
    case None =>
    case Some(p) => ResearchLeavesUnrelatedNodes(sys, x, p);
  }

  /** Completing a prerequisite makes each uncompleted dependent whose
      condition holds Researchable. */
  lemma ResearchUnlocksDependents(sys: System, x: ResearchId, m: ResearchId)
    requires StateOf(sys, x) == Researchable
    requires Prerequisite(m) == Some(x)
    requires ConditionHolds(sys, m) && m !in sys.completed
    ensures StateOf(Research(sys, x), m) == Researchable
  {
  }

  /** A researched node is never Researchable again, so no node can be
      researched twice and the CropYieldI effect is applied at most once. */
  lemma ResearchIsOnceOnly(sys: System, x: ResearchId, active: bool)
    requires StateOf(sys, x) == Researchable
    ensures StateOf(Research(sys, x), x) != Researchable
    ensures StateOf(SetMilitarySupport(Research(sys, x), active), x) != Researchable
  {
  }
}
