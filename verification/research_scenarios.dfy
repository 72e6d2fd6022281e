/** The edit-mode research scenarios of the FarmI slice, stated over the
    derived model, and how the node guard relates to them. */
module ResearchScenarios {
  import opened Wrappers
  import opened ResearchStates
  import opened ResearchNodes
  import opened ResearchSystem

  /** The states of a new game. */
  lemma InitialStates(defaults: seq<int>)
    ensures StateOf(Initial(defaults), TierI) == Researched
    ensures StateOf(Initial(defaults), FarmI) == Researchable
    ensures StateOf(Initial(defaults), CropYieldI) == Unavailable
    ensures StateOf(Initial(defaults), FarmIPowerI) == Locked
    ensures StateOf(Initial(defaults), RoadSandy) == Researched
  {
  }

  /** The derived starting states agree with the starting states the
      CropYieldI and TierI constructors set. */
  lemma InitialStatesMatchConstructors(defaults: seq<int>)
    ensures StateOf(Initial(defaults), CropYieldI) == NewCropYieldI().state
    ensures StateOf(Initial(defaults), TierI) == NewTierI().state
  {
  }

  /** Researching FarmI without support: FarmI becomes Researched,
      CropYieldI becomes Researchable and FarmIPowerI stays Locked. */
  lemma ResearchFarmIWithoutSupport(defaults: seq<int>)
    ensures StateOf(Initial(defaults), FarmI) == Researchable
    ensures StateOf(Research(Initial(defaults), FarmI), FarmI) == Researched
    ensures StateOf(Research(Initial(defaults), FarmI), CropYieldI) == Researchable
    ensures StateOf(Research(Initial(defaults), FarmI), FarmIPowerI) == Locked
  {
  }

  /** With support, FarmIPowerI is Unavailable until FarmI is researched and
      Researchable afterwards; withdrawing support locks it again. */
  lemma ResearchFarmIWithSupport(defaults: seq<int>)
    ensures var supported := SetMilitarySupport(Initial(defaults), true);
      && StateOf(supported, FarmIPowerI) == Unavailable
      && StateOf(supported, FarmI) == Researchable
      && StateOf(Research(supported, FarmI), FarmIPowerI) == Researchable
      && StateOf(SetMilitarySupport(Research(supported, FarmI), false), FarmIPowerI) == Locked
  {
  }

  /** Researching FarmIPowerI with support, withdrawing support and restoring
      it: Locked in between, Researched again at the end. */
  lemma ResearchFarmIPowerIThenToggleSupport(defaults: seq<int>)
    ensures var supported := SetMilitarySupport(Initial(defaults), true);
      && StateOf(supported, FarmI) == Researchable
      && StateOf(Research(supported, FarmI), FarmIPowerI) == Researchable
      && var done := Research(Research(supported, FarmI), FarmIPowerI);
      && StateOf(SetMilitarySupport(done, false), FarmIPowerI) == Locked
      && StateOf(SetMilitarySupport(SetMilitarySupport(done, false), true), FarmIPowerI) == Researched
  {
  }

  /** Researching FarmI then CropYieldI: CropYieldI is Researched and every
      FarmI quantity is one above its default, with the same product count. */
  lemma ResearchCropYieldIRaisesFarmI(defaults: seq<int>)
    ensures StateOf(Research(Initial(defaults), FarmI), CropYieldI) == Researchable
    ensures var done := Research(Research(Initial(defaults), FarmI), CropYieldI);
      && StateOf(done, CropYieldI) == Researched
      && |done.farmQuantities| == |defaults|
      && forall i :: 0 <= i < |defaults| ==> done.farmQuantities[i] == defaults[i] + 1
  {
  }

  /** Every change the research operation makes to the derived state of any
      node is a single step forward, so it is one the node guard accepts:
      the researched node goes from Researchable to Researched, and its
      dependents from Unavailable to Researchable. */
  lemma ResearchIsOneGuardedStep(sys: System, x: ResearchId, m: ResearchId, node: Node)
    requires StateOf(sys, x) == Researchable
    requires node.state == StateOf(sys, m)
    ensures var after := StateOf(Research(sys, x), m);
      after != node.state ==> Successor(node.state) == Some(after) && ChangeState(node, after).state == after
  {
    ResearchNeverLowers(sys, x, m);
    var after := StateOf(Research(sys, x), m);
    ChangeStateAcceptsExactlySuccessor(node, after);
  }

  /** The node guard, as written, refuses the move from Researchable to
      Locked: a FarmIPowerI-like node that is Researchable stays Researchable
      when asked for Locked, under any number of requests. */
  lemma GuardRefusesRelock(node: Node, requests: seq<ResearchState>)
    requires node.state == Researchable
    ensures ChangeState(node, Locked).state == Researchable
    ensures ChangeStates(node, requests).state != Locked
  {
    GuardNeverRelocks(node, requests);
  }

  /** The derived rule does make that move: whenever FarmIPowerI is
      Researchable, withdrawing support locks it, and restoring support
      brings it back to Researchable. */
  lemma WithdrawnSupportRelocks(sys: System)
    requires StateOf(sys, FarmIPowerI) == Researchable
    ensures StateOf(SetMilitarySupport(sys, false), FarmIPowerI) == Locked
    ensures StateOf(SetMilitarySupport(SetMilitarySupport(sys, false), true), FarmIPowerI) == Researchable
  {
    SupportOnlyGatesFarmIPowerI(sys, false, FarmI);
    SupportOnlyGatesFarmIPowerI(SetMilitarySupport(sys, false), true, FarmI);
  }
}
