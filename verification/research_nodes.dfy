/** The per-node records CropYieldI and TierI: their constant data, their
    starting state, and the one-step guard both use to change state. */
module ResearchNodes {
  import opened Wrappers
  import opened ResearchStates

  /** The C# `short` the node cost is declared as. */
  newtype Short = x: int | -0x8000 <= x < 0x8000

  /** One research node. Name, Cost and Specifications are get-only in the
      source; only State has a (private) setter. The display description and
      the research duration are not part of this model. */
  datatype Node = Node(
    name: string,
    cost: Short,
    state: ResearchState,
    specifications: seq<string>)

  /** A freshly built CropYieldI node. */
  function NewCropYieldI(): (n: Node)
    ensures n.state == Unavailable
    ensures n.cost == 1000
    ensures n.name == "Crop Yield I"
    ensures n.specifications == [
      "Affects Farm I",
      "Opium: Output 2 > 3",
      "Vegatables: Output 14 > 15",
      "Coffee: Output 6 > 7"]
  {
    Node("Crop Yield I", 1000, Unavailable,
      ["Affects Farm I",
       "Opium: Output 2 > 3",
       "Vegatables: Output 14 > 15",
       "Coffee: Output 6 > 7"])
  }

  /** A freshly built TierI node: already researched, free, and with no
      specifications. */
  function NewTierI(): (n: Node)
    ensures n.state == Researched
    ensures n.cost == 0
    ensures n.name == "Tier I"
    ensures n.specifications == []
  {
    Node("Tier I", 0, Researched, [])
  }

  /** The state guard shared by CropYieldI and TierI: the requested state is
      taken only when its enum value is one more than the current one;
      every other request is ignored. */
  function ChangeState(node: Node, requested: ResearchState): (r: Node)
    ensures r.name == node.name && r.cost == node.cost
    ensures r.specifications == node.specifications
    ensures r.state == requested || r == node
    ensures Ord(node.state) <= Ord(r.state) <= Ord(node.state) + 1
  {
    if Ord(node.state) + 1 != Ord(requested) then node
    else node.(state := requested)
  }

  /** The guard accepts exactly the successor of the current state: the
      state changes if and only if the request names the next state. */
  lemma ChangeStateAcceptsExactlySuccessor(node: Node, requested: ResearchState)
    ensures ChangeState(node, requested).state != node.state
            <==> Successor(node.state) == Some(requested)
    ensures Successor(node.state) == Some(requested) ==> ChangeState(node, requested).state == requested
    ensures Successor(node.state) != Some(requested) ==> ChangeState(node, requested) == node
  {
    OrdInjective(requested, node.state);
    match Successor(node.state)
    case None =>
    case Some(next) => OrdInjective(requested, next);
  }

  /** Asking for the state the node is already in changes nothing. */
  lemma ChangeStateToCurrentIsNoop(node: Node)
    ensures ChangeState(node, node.state) == node
  {
  }

  /** Repeating a request has the same effect as making it once. */
  lemma ChangeStateIdempotent(node: Node, requested: ResearchState)
    ensures ChangeState(ChangeState(node, requested), requested) == ChangeState(node, requested)
  {
  }

  /** Researched is the last named state: no request moves a node out of it. */
  lemma ResearchedIgnoresEveryRequest(node: Node, requested: ResearchState)
    requires node.state == Researched
    ensures ChangeState(node, requested) == node
  {
  }

  /** The node after a sequence of ChangeState calls, made in order. */
  function ChangeStates(node: Node, requests: seq<ResearchState>): (r: Node)
    ensures r.name == node.name && r.cost == node.cost
    ensures r.specifications == node.specifications
    ensures Ord(node.state) <= Ord(r.state) <= Ord(node.state) + |requests|
    decreases |requests|
  {
    if requests == [] then node
    else ChangeStates(ChangeState(node, requests[0]), requests[1..])
  }

  /** A node that has reached Researched stays exactly as it is under any
      sequence of requests. */
  lemma {:induction false} ResearchedAbsorbsRequests(node: Node, requests: seq<ResearchState>)
    requires node.state == Researched
    ensures ChangeStates(node, requests) == node
    decreases |requests|
  {
    if requests != [] {
      ResearchedIgnoresEveryRequest(node, requests[0]);
      ResearchedAbsorbsRequests(node, requests[1..]);
    }
  }

  /** TierI starts at Researched and therefore never changes. */
  lemma TierINeverChanges(requests: seq<ResearchState>)
    ensures ChangeStates(NewTierI(), requests) == NewTierI()
    ensures ChangeStates(NewTierI(), requests).state == Researched
  {
    ResearchedAbsorbsRequests(NewTierI(), requests);
  }

  /** The guard only moves forward one step at a time, so no sequence of
      requests brings a node that is not Locked back to Locked. */
  lemma GuardNeverRelocks(node: Node, requests: seq<ResearchState>)
    requires node.state != Locked
    ensures ChangeStates(node, requests).state != Locked
  {
  }

  /** A sequence of requests that ends in Researched walks through every
      state in between, one per accepted request: reaching Researched from a
      fresh CropYieldI needs at least two requests. */
  lemma {:induction false} CropYieldINeedsTwoSteps(requests: seq<ResearchState>)
    ensures ChangeStates(NewCropYieldI(), requests).state == Researched ==> |requests| >= 2
    ensures ChangeStates(NewCropYieldI(), [Researchable, Researched]).state == Researched
  {
    var n := NewCropYieldI();
    var once := ChangeState(n, Researchable);
    assert ChangeStates(n, [Researchable, Researched])
        == ChangeStates(once, [Researched]);
  }
}
