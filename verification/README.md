# Research state machine of the Cartel Tycoon remake

This project models the research nodes of the game and the availability rule
the research system applies to them, for the slice of the research tree that
the edit-mode tests exercise: TierI and RoadSandy (already researched at the
start), FarmI, and its two dependents CropYieldI and FarmIPowerI, the latter
gated by the military's research support.

It has two layers, kept apart on purpose:

- **The node guard** (`ResearchNodes`). CropYieldI and TierI each carry a
  name, a `short` cost, a state and a list of specification strings, and a
  `ChangeState` method that takes a requested state only when its enum value
  is one more than the current one, ignoring every other request. The model
  proves that the guard accepts exactly the successor state, never lowers the
  state, is idempotent, leaves the name, cost and specifications alone, and that TierI, which
  starts at Researched, never changes.
- **The derived availability rule** (`ResearchSystem`). The research system
  itself is not part of this model. Its behaviour is fixed here by the test
  assertions: a node's state is computed from three facts, whether its
  external condition (military research support) holds, whether it has been
  completed, and whether its prerequisite is Researched. A failed condition
  gives Locked even for a completed node. Otherwise a completed node is
  Researched, and an uncompleted one is Researchable when its prerequisite is
  Researched and Unavailable when it is not. Researching CropYieldI raises
  every FarmI production quantity by one.

`ResearchScenarios` states each test scenario over the derived rule, and
relates the two layers.

Assumptions the source leaves open:

- The `ResearchState` enum is taken to be declared in the order Locked,
  Unavailable, Researchable, Researched, with consecutive values; the guard's
  `State + 1` comparison is modelled through `ResearchStates.Ord`. Researched
  has no named successor, so from Researched no named request is accepted.
- FarmI's prerequisite is taken to be TierI. The tests only require that it
  is met from the start; any completed root would do.
- The FarmI default quantities are a parameter of `ResearchSystem.Initial`.
  The CropYieldI specification strings (Opium 2 to 3, Vegetables 14 to 15,
  Coffee 6 to 7), which `ResearchNodes.NewCropYieldI` states in full, are
  illustrated by the effect in `FarmConfig.SpecifiedOutputs`.
- The effects of nodes other than CropYieldI are not part of this model;
  researching them is taken to leave the FarmI quantities unchanged.
- Resolving completion before the condition would keep a researched node
  Researched when support is withdrawn. The tests
  (Assets/Tests/EditMode/ResearchSystemTests.cs lines 93-94) expect Locked in
  that case, so the condition outranks completion, and completion is
  remembered underneath.

## Model

| member | source | states |
|---|---|---|
| ResearchNodes.NewCropYieldI | Assets/Scripts/Research/ResearchNodes/CropYieldI.cs:12-28 | A new CropYieldI is named "Crop Yield I", costs 1000, starts Unavailable and lists exactly the four specification strings "Affects Farm I", "Opium: Output 2 > 3", "Vegatables: Output 14 > 15", "Coffee: Output 6 > 7" |
| ResearchNodes.NewTierI | Assets/Scripts/Research/ResearchNodes/TierI.cs:12-22 | A new TierI is named "Tier I", costs 0, starts Researched and has no specifications |
| ResearchNodes.ChangeState | Assets/Scripts/Research/ResearchNodes/CropYieldI.cs:30-35 | The result is either the requested state or the unchanged node; the state never goes down and goes up by at most one; name, cost and specifications are never touched |
| ResearchNodes.ChangeStateAcceptsExactlySuccessor | Assets/Scripts/Research/ResearchNodes/CropYieldI.cs:30-35 | The state changes if and only if the request is the next named state; then it becomes that state, otherwise the node is left exactly as it was |
| ResearchNodes.ChangeStateToCurrentIsNoop | Assets/Scripts/Research/ResearchNodes/CropYieldI.cs:32 | Requesting the current state changes nothing |
| ResearchNodes.ChangeStateIdempotent | Assets/Scripts/Research/ResearchNodes/CropYieldI.cs:30-35 | Making the same request twice gives the same node as making it once |
| ResearchNodes.ResearchedIgnoresEveryRequest | Assets/Scripts/Research/ResearchNodes/CropYieldI.cs:32 | A Researched node ignores every named request |
| ResearchNodes.ChangeStates | Assets/Scripts/Research/ResearchNodes/TierI.cs:24-29 | After any sequence of requests the get-only fields are unchanged and the state has risen by at least zero and at most one step per request |
| ResearchNodes.ResearchedAbsorbsRequests | Assets/Scripts/Research/ResearchNodes/TierI.cs:24-29 | A Researched node is unchanged by any sequence of requests |
| ResearchNodes.TierINeverChanges | Assets/Scripts/Research/ResearchNodes/TierI.cs:19-29 | A new TierI stays exactly as built, Researched, under any sequence of requests |
| ResearchNodes.GuardNeverRelocks | Assets/Scripts/Research/ResearchNodes/CropYieldI.cs:32-34 | No sequence of requests takes a node that is not Locked to Locked |
| ResearchNodes.CropYieldINeedsTwoSteps | Assets/Scripts/Research/ResearchNodes/CropYieldI.cs:19-35 | A new CropYieldI reaches Researched only after at least two requests, and the requests Researchable then Researched get it there |
| FarmConfig.RaiseProduction | Assets/Tests/EditMode/ResearchSystemTests.cs:112-115 | Every production quantity is one above its old value and the number of products is unchanged |
| FarmConfig.RaiseProductionTotal | Assets/Tests/EditMode/ResearchSystemTests.cs:112-115 | The total production grows by exactly the number of products |
| FarmConfig.SpecifiedOutputs | Assets/Scripts/Research/ResearchNodes/CropYieldI.cs:21-27 | Illustration: the effect turns the quantities 2, 14, 6 named in the specification strings into the listed 3, 15, 7 |
| ResearchSystem.Prerequisite | Assets/Tests/EditMode/ResearchSystemTests.cs:29-58 | Every prerequisite lies strictly closer to a root than its dependent; the roots are the depth-0 nodes TierI and RoadSandy; CropYieldI and FarmIPowerI both have FarmI as prerequisite |
| ResearchSystem.NeedsMilitarySupport | Assets/Tests/EditMode/ResearchSystemTests.cs:39-80 | A node gated by military support has FarmI as prerequisite, is not CropYieldI, and no node depends on it, so the flag reaches no other node |
| ResearchSystem.Initial | Assets/Tests/EditMode/ResearchSystemTests.cs:9-16 | A new game has no military support, holds the default FarmI quantities, and reports exactly TierI and RoadSandy as Researched |
| ResearchSystem.StateOf | Assets/Tests/EditMode/ResearchSystemTests.cs:12-97 | A reported Researched node is completed and a Researchable one is not; the state is Locked exactly when the node's condition fails; an uncompleted root whose condition holds is Researchable |
| ResearchSystem.Derive | Assets/Tests/EditMode/ResearchSystemTests.cs:12-97 | Locked exactly when the condition fails; Researched exactly when it holds and the node is completed; Researchable exactly when it holds, the node is not completed and the prerequisite is Researched; Unavailable in the remaining case |
| ResearchSystem.SetMilitarySupport | Assets/Tests/EditMode/ResearchSystemTests.cs:66-69 | Activating or deactivating support sets the flag and changes neither completion nor the production configuration |
| ResearchSystem.Research | Assets/Tests/EditMode/ResearchSystemTests.cs:101-115 | Researching a Researchable node completes it and makes it Researched, keeps the support flag, raises every FarmI quantity by one for CropYieldI, and (by the assumption stated above, since no other node's effect is part of this model) leaves the quantities alone for any other node |
| ResearchSystem.StateOfRule | Assets/Tests/EditMode/ResearchSystemTests.cs:40-97 | Each reported state holds exactly under its combination of condition, completion and prerequisite state, both directions |
| ResearchSystem.CompletionRemembered | Assets/Tests/EditMode/ResearchSystemTests.cs:83-97 | A completed node shows Locked while its condition fails and Researched whenever it holds, so withdrawing and restoring support returns it to Researched |
| ResearchSystem.SupportOnlyGatesFarmIPowerI | Assets/Tests/EditMode/ResearchSystemTests.cs:49-70 | Toggling support changes the state of no node other than FarmIPowerI |
| ResearchSystem.ResearchNeverLowers | Assets/Tests/EditMode/ResearchSystemTests.cs:29-37 | Researching a node never moves any node to an earlier state |
| ResearchSystem.ResearchLeavesUnrelatedNodes | Assets/Tests/EditMode/ResearchSystemTests.cs:12-26 | A property of the model rather than a tested assertion: researching a node leaves every node that is neither it nor a dependent of it in the same state (so researching FarmI leaves TierI and RoadSandy Researched) |
| ResearchSystem.ResearchUnlocksDependents | Assets/Tests/EditMode/ResearchSystemTests.cs:35-36 | After its prerequisite is researched, an uncompleted dependent whose condition holds is Researchable |
| ResearchSystem.ResearchIsOnceOnly | Assets/Tests/EditMode/ResearchSystemTests.cs:106-115 | A researched node is not Researchable again, whatever the support flag, so the CropYieldI effect cannot be applied twice |
| ResearchScenarios.InitialStates | Assets/Tests/EditMode/ResearchSystemTests.cs:12-16 | A new game reports TierI Researched, FarmI Researchable, CropYieldI Unavailable, FarmIPowerI Locked, RoadSandy Researched |
| ResearchScenarios.InitialStatesMatchConstructors | Assets/Scripts/Research/ResearchNodes/CropYieldI.cs:19 | The derived starting state of CropYieldI equals the Unavailable its constructor sets at this line, and that of TierI equals the Researched set at TierI.cs line 19 |
| ResearchScenarios.ResearchFarmIWithoutSupport | Assets/Tests/EditMode/ResearchSystemTests.cs:19-47 | Without support, researching FarmI makes FarmI Researched and CropYieldI Researchable and leaves FarmIPowerI Locked |
| ResearchScenarios.ResearchFarmIWithSupport | Assets/Tests/EditMode/ResearchSystemTests.cs:49-80 | With support, FarmIPowerI is Unavailable before FarmI is researched, Researchable after, and Locked once support is withdrawn |
| ResearchScenarios.ResearchFarmIPowerIThenToggleSupport | Assets/Tests/EditMode/ResearchSystemTests.cs:83-97 | A researched FarmIPowerI is Locked while support is withdrawn and Researched once it is restored |
| ResearchScenarios.ResearchCropYieldIRaisesFarmI | Assets/Tests/EditMode/ResearchSystemTests.cs:101-116 | After FarmI and CropYieldI, CropYieldI is Researched and each FarmI quantity is its default plus one, with the same product count |
| ResearchScenarios.ResearchIsOneGuardedStep | Assets/Scripts/Research/ResearchNodes/CropYieldI.cs:30-35 | Any change researching a node makes to the derived state of any node is a move to the next state, which the node guard accepts |
| ResearchScenarios.GuardRefusesRelock | Assets/Scripts/Research/ResearchNodes/CropYieldI.cs:30-35 | A Researchable node asked for Locked stays Researchable, and no sequence of requests reaches Locked |
| ResearchScenarios.WithdrawnSupportRelocks | Assets/Tests/EditMode/ResearchSystemTests.cs:61-70 | Whenever FarmIPowerI is Researchable, withdrawing support makes it Locked and restoring support makes it Researchable again |

## Left out

- Description: read from a global singleton or the research tree's description table, which are not part of this model.
- Duration: the `GameTimeDuration` type and any research countdown are not part of this model.
- The research system's wiring, cascade order and queues: outside this model; the derived rule recomputes every state from its inputs, which is what the tests observe.
- The military subsystem: reduced to a single support flag.
- The FarmI configuration: reduced to the sequence of production quantities. The tests observe only ProductionQuantity; any change to other product fields is not modelled.
- ResearchSystem.Research: researching a node that is not Researchable is a precondition, since no error behaviour for it is part of this model or exercised by the tests; the effects of nodes other than CropYieldI are not part of this model either, and they are taken to leave the FarmI quantities unchanged.
- Enum arithmetic that produces unnamed values (Researched + 1): only the four named states are modelled.
- Nodes other than TierI, RoadSandy, FarmI, CropYieldI and FarmIPowerI, and catalog errors (duplicate ids, cycles, unknown ids): outside the tested slice.
- The `short` cost is modelled as a 16-bit range type; no arithmetic is done on it, so wrap-around does not arise.

## Findings

| source | as written | input that shows it | evidently intended | confidence | as-written member | corrected member |
|---|---|---|---|---|---|---|
| Assets/Scripts/Research/ResearchNodes/CropYieldI.cs:30-35 | The one-step guard ignores any request that is not the next state, so a Researchable node can never become Locked through it | a Researchable FarmIPowerI-like node asked for Locked after support is withdrawn (ResearchSystemTests.cs lines 66-69) stays Researchable | The state is re-derived from condition, completion and prerequisite, so withdrawing support locks the node | low: the research system may set states by another path; not executed | ResearchScenarios.GuardRefusesRelock | ResearchScenarios.WithdrawnSupportRelocks |
