/** The availability states a research node can be in, with the integer order
    of the enum they are declared in. */
module ResearchStates {
  import opened Wrappers

  /** The four named states, in the declaration order the model assumes:
      Locked, Unavailable, Researchable, Researched. */
  datatype ResearchState = Locked | Unavailable | Researchable | Researched

  /** The underlying enum value of a state: its position in the declaration. */
  function Ord(s: ResearchState): nat
  {
    match s
    case Locked => 0
    case Unavailable => 1
    case Researchable => 2
    case Researched => 3
  }

  /** Distinct states have distinct enum values. */
  lemma OrdInjective(a: ResearchState, b: ResearchState)
    ensures Ord(a) == Ord(b) ==> a == b
  {
  }

  /** No named state lies past Researched. */
  lemma OrdAtMostResearched(a: ResearchState)
    ensures Ord(a) <= Ord(Researched)
  {
  }

  /** The named state one step further from Locked, if there is one.
      Written by cases, independently of Ord, so that it can serve as a
      reference for the enum arithmetic of the node guard. */
  function Successor(s: ResearchState): (r: Option<ResearchState>)
    ensures r.Some? ==> Ord(r.value) == Ord(s) + 1
    ensures r.None? <==> s == Researched
  {
    match s
    case Locked => Some(Unavailable)
    case Unavailable => Some(Researchable)
    case Researchable => Some(Researched)
    case Researched => None
  }
}
