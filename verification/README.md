# AUTIG: a verified model of the fair-ordering layer

AUTIG orders transactions above a log of committed fragments. Replicas sign
extensions of their receipt logs; an order leader folds n - f of them into an
evidence state, reads off a dependency graph, releases the largest safe set in
batches and proves its choice with a certificate that the other replicas check
without building the graph. This project models that protocol in Dafny, as
`pkg/ofo/dependency.go`, `pkg/ofo/service.go`, `pkg/types/type.go` and the commit
path of `pkg/auth_adapter.go` write it, and proves what it is for.

The main theorems, hardest first:

- **Batch-order fairness** (`Fairness.BatchOrderFairness`). If at least qH replicas, each
  of whose admitted extensions are a prefix of its duplicate-free receipt log, have x
  before y, then after every run of accepted fragments, y finalized implies x finalized,
  in the same or an earlier batch. `EndToEnd.ServiceFairness` states it for honest service
  objects, which may lag behind the run.
- **The certificate check is exact** (`Verifier.VerifyStructuralCertificate`,
  `Verifier.AcceptedIsFair`). The graph-free verifier accepts exactly the certified
  proposals, and an accepted one releases exactly the safe closure (the Solid ids all of
  whose ancestors are Solid), in exactly its strongly connected components, in the one
  minimum-id-first topological order. So leaders have no discretion
  (`CertificateSpec.NoLeaderDiscretion`, `Chain.SameOutput`).
- **The builder is complete** (`Builder.BuildProposal`). On every valid state the order
  and certificate it builds satisfy the very predicate that the verifier decides. This
  rests on a verified `TarjanSCC`, a verified Kahn order, and breadth-first trees.
- **Caches are what they cache.** The pair enumeration equals the all-pairs definition
  (`EvidenceObject.EvidenceState.ApplyEvidence` with `Chain.RunValid`), and the leader's
  incremental graph equals the one rebuilt from scratch
  (`Manager.DependencyManager.Refresh`, `.RemoveFinalized`).
- **Replicas agree** (`Service.SameCommitted`, `Agreement.StateAgreement`) whatever keys and
  content each has, **followers' histories are prefixes of the leader's**
  (`Hosting.FollowersArePrefixes`) and **an honest producer's log is never lost, reordered
  or equivocated on** (`LocalOrders.CommitKeeps`, `Service.OFOService.CommitPending`).
- **The leader's pipeline** never has two candidates and never commits anything but the one
  its proposer waits for, built from one order of each scheduled replica
  (`LeaderPipeline.Pipeline.Construct`, `.Commit`); over such a run **every queued id is
  admitted within a bound** (`Waiting.BoundedAdmission`).
- **The rules, in numbers** (`Rules.RunRules`, `.OrderFromLogs`, `.AcceptsRule`, `.DoneRule`).
  After every run the graph is a count over the replicas' admitted logs and nothing else:
  an id is Solid at n - 2f logs, an edge needs n - qH + 1 of them and the majority, the
  smaller id winning ties; from these logs follow what the next fragment releases, which
  extensions it may hold, and what every record says.
- **A state identifier binds its run** (`Agreement.StateIdBindsRun`), and fragments chain
  (`Agreement.FragmentsChain`).
- **Encodings are canonical** (`Canonical.PreimagesBind`, `Canonical.TransactionsBind`,
  `Canonical.FragmentBytesIff`), and they are what the encoders write field by field
  (`Buffers.FragmentBytes` and its siblings).

## Reading guide

| module | contents |
|---|---|
| `Types`, `Collections`, `Graphs` | vocabulary and thresholds; sequences as sets, sorting; walks and reachability |
| `EvidenceSpec`, `EvidenceFacts`, `PairFacts`, `Growth` | the evidence state as a value: what a batch admits, what finalizing removes, and why every cache stays equal to its definition |
| `EvidenceObject` | `EvidenceState` as the class that updates its maps in place |
| `FairOrder`, `CertificateSpec` | the safe closure and the unique fair order; what a certificate claims and why claims suffice |
| `Kahn`, `CrossEdges`, `TreeVerifier`, `ForestVerifier`, `Verifier` | the verifier |
| `TarjanFacts`, `Tarjan`, `Condensing`, `Selection`, `TreeBuilder`, `ForestBuilder`, `Builder` | the builder |
| `GraphCache`, `Manager` | the leader's graph cache |
| `Chain`, `Conservation`, `Agreement`, `Logs`, `Rules`, `Fairness` | statements over whole runs |
| `LocalOrders`, `Service` | the producer side as a value; the replica as a class |
| `Collector`, `LeaderPipeline`, `Waiting` | the rotation; collector and proposer around the leader's service; how long an id waits |
| `Hosting`, `Adapter`, `Network`, `Blocking` | the commit protocol as a system of nodes; the message handlers on a service object; many service objects as that system; when an honest leader is refused |
| `EndToEnd` | fairness for service objects |
| `Encoding`, `Preimages`, `Canonical`, `Buffers` | byte encodings as functions, why they are unambiguous, and the encoders that append to a buffer |

Conventions. A replica's state is an object of `EvidenceState`, `DependencyManager` or
`OFOService`; `View()` is its value, and every method says which value it leaves. Runs
(`Chain.Run`) are sequences of fragments each acceptable on the state left by its
predecessors; an `OFOService` is always in the state of such a run (`Valid`). A context
(`Chain.Context`) holds what is public: parameters, signature verification, epoch, leader,
genesis. What a replica can sign and which content it has is its own: `Acceptable` speaks
of everything but content, and `EvidenceSpec.Available` of content, which grows as
transactions arrive. Map iteration order is `Collections.AnyOrder`, an arbitrary choice,
and no contract depends on it. Identifiers are 256-bit numbers, compared as `bytes.Compare`
compares their bytes (`Encoding.IdentifierOrder`). A digest is a value of a free datatype
with one constructor per hashed preimage; `Canonical.PreimagesBind` shows that distinct
values have distinct byte preimages, so this assumes of SHA-256 only that no two preimages
in use collide. Signatures are checked by arbitrary predicates of the configuration; that
nobody else signs for an honest replica is the hypothesis `LocalOrders.Unforged` where it
is needed.

Two places where the code does less than one might expect:

- A follower in the leader's state refuses the leader's candidate exactly when its slot
  holds another one, or is free and the copy at hand does not count (from another sender,
  or wrongly signed) or some content is missing (`Adapter.LeaderIsAnswered`,
  `Service.LeaderIsConfirmed`). Each refusal happens among correct replicas:
  `Blocking.RefusedWhileHeld` is a run in which the leader has abandoned a candidate that
  the follower still holds; `Blocking.RefusedWithoutContent` one in which content has not
  arrived, and in which the candidate is accepted once it has; `Blocking.RefusedAfterStray`
  one in which a copy that does not count comes first, the leader gives up, and its own
  copy then takes the follower's slot. A slot so taken stays taken until the leader commits
  that very candidate (`Blocking.BlockedUntilCommitted`), since no message tells the
  follower to let go, and forever once the leader commits something else in its place
  (`Blocking.BlockedForever`).
- A fragment without an order or certificate has the same digest as one with empty ones,
  and the parent of a root record is not part of the digest: `Canonical.SameBytes` gives
  such fragments, `Canonical.FragmentBytesIff` says exactly which share their bytes.

## Model

| member | source | states |
|---|---|---|
| Types.CheckParams | pkg/ofo/service.go:79-91 | parameters are accepted if and only if n >= 3f+1, the replica id and gamma are in range and 2 qH >= n+2f+1; then qH is the ceiling of gamma(n-f) and at most n-f |
| Types.ThresholdFacts | pkg/types/type.go:139-146 | the edge threshold is n - qH + 1 and the solid threshold n - 2f, and f+1 <= edge threshold <= qH-2f <= solid threshold <= n-f for all accepted parameters: Solid implies visible enough for an edge |
| Collections.SortTxIDs | pkg/types/type.go:19-21 | a permutation of the slice in which nothing precedes a smaller id, for slices with repetitions too; strictly ascending when there are none, hence (AscendingUnique) independent of the input order |
| Collections.AscendingUnique | pkg/types/type.go:19-21 | two strictly ascending lists of the same ids are the same list: iteration order cannot show in sorted output |
| Collections.SortedSet | pkg/ofo/dependency.go:146-153 | lists exactly the set's members in ascending order |
| EvidenceObject.EvidenceState.constructor | pkg/ofo/dependency.go:51-70 | a new state is the genesis state |
| EvidenceObject.EvidenceState.Clone | pkg/ofo/dependency.go:72-120 | a clone is a new object with the same value |
| EvidenceObject.CheckIds | pkg/ofo/dependency.go:198-227 | accepts an extension's ids if and only if they are distinct and each is finalized already, or is new at this replica and this replica has matching, valid content for it |
| EvidenceObject.CheckBatch | pkg/ofo/dependency.go:161-229 | accepts a batch if and only if it has the next sequence, n-f strictly increasing senders, every extension continues its sender's chain and is properly signed, and all content is at hand |
| EvidenceObject.EvidenceState.CountPairs | pkg/ofo/dependency.go:268-285 | scanning only new-old and new-new pairs raises exactly the weights of ordered pairs with a new member, by one, and touches exactly those pairs |
| EvidenceObject.EvidenceState.IngestOrder | pkg/ofo/dependency.go:238-288 | one extension: the whole new state, each cache as an increment of the old one |
| EvidenceObject.EvidenceState.Reclassify | pkg/ofo/dependency.go:290-308 | exactly the touched ids get the class of their visibility, and every pair of a newly active id with a live id is touched |
| EvidenceObject.EvidenceState.ApplyEvidence | pkg/ofo/dependency.go:160-311 | a rejected batch changes nothing; an accepted one leaves the state with all caches recomputed from positions, and the touched pairs are exactly those whose weight changed or with a newly active endpoint |
| EvidenceObject.EvidenceState.Release | pkg/ofo/dependency.go:582-608 | finalizing records every released id, forgets it everywhere else, and names the post-state |
| EvidenceFacts.GenesisValid | pkg/ofo/dependency.go:51-70 | all cache invariants hold at genesis |
| EvidenceFacts.AdmitOneIncrement | pkg/ofo/dependency.go:259-288 | recounting from all positions after one extension equals the old counts plus one for exactly the new ids and the new ordered pairs |
| EvidenceFacts.IngestValid | pkg/ofo/ablation_test.go:490-518 | after every accepted batch visibility, weights and classes equal their position-derived definitions |
| EvidenceFacts.FinalizedValid | pkg/ofo/dependency.go:582-608 | finalizing any batches keeps every cache equal to its definition |
| EvidenceFacts.FinalizedGraph | pkg/ofo/dependency.go:593-605 | the graph after finalizing is the graph without the released vertices: other states and edges are untouched |
| EvidenceFacts.WeightBound | pkg/ofo/ablation_test.go:490-506 | opposite weights of a pair together never exceed the visibility of either end |
| PairFacts.NewPairsSnoc | pkg/ofo/dependency.go:278-285 | each new id contributes its pairs with everything not yet scanned exactly once, and no pair twice |
| PairFacts.TouchedIs | pkg/ofo/dependency.go:265-308 | the pairs collected while scanning and reclassifying are exactly the changed-weight pairs and the pairs of newly active ids |
| Growth.StateAdvances | pkg/ofo/dependency.go:290-308 | evidence only moves a live id from Blank towards Solid, and untouched ids keep their class |
| GraphCache.EdgesChangeOnlyWhereTouched | pkg/ofo/dependency.go:391-419 | a pair that was not touched keeps its weights and its edge: refreshing the touched pairs is enough |
| Manager.DependencyManager.constructor | pkg/ofo/dependency.go:324-331 | the empty cache with the edge threshold of the parameters |
| Manager.DependencyManager.RefreshPair | pkg/ofo/dependency.go:391-415 | after it, each direction of the pair is an edge if and only if its predicate holds between nodes, all other edges stay, and the inverse stays the transpose |
| Manager.DependencyManager.Refresh | pkg/ofo/dependency.go:363-389 | a cache equal to the rebuild of the old state becomes equal to the rebuild of the new state (pkg/ofo/ablation_helpers_test.go:324-352) |
| Manager.DependencyManager.RemoveFinalized | pkg/ofo/dependency.go:610-628 | removing the released ids gives the rebuild of the finalized state |
| Manager.DependencyManager.Graph | pkg/ofo/dependency.go:421-433 | the exported graph has the cache's nodes and edges, with duplicate-free neighbour lists |
| FairOrder.SafeClosureLargest | pkg/ofo/dependency.go:442-462 | the safe closure contains every ancestor-closed set of Solid vertices |
| FairOrder.FairOrderUnique | pkg/ofo/dependency.go:712-750 | a graph has at most one minimum-id-first order of its safe components |
| FairOrder.RemovalKeepsReach | pkg/ofo/dependency.go:610-628 | removing an ancestor-closed set keeps reachability between the remaining vertices, both ways |
| FairOrder.NothingReleasable | pkg/ofo/dependency.go:442-462 | after the safe closure is removed the safe closure is empty |
| CertificateSpec.TreeReach | pkg/ofo/dependency.go:902-942 | an accepted tree proves that each member reaches, or is reached from, its root |
| CertificateSpec.BatchIsComponent | pkg/ofo/dependency.go:784-843 | connected, separated, topologically ordered claims are exactly maximal mutually reachable classes |
| CertificateSpec.BlockedByShaded | pkg/ofo/dependency.go:944-993 | from every forest record the walk to its parent, of smaller depth, ends at a non-Solid ancestor of the vertex |
| CertificateSpec.IncludedIsClosure | pkg/ofo/dependency.go:844-856 | an ancestor-closed Solid set whose excluded Solid vertices all hang below a forest is exactly the safe closure |
| CertificateSpec.CertSound | pkg/ofo/dependency.go:752-856 | certified batches are the safe closure, in its components, in minimum-id-first order |
| CertificateSpec.NoLeaderDiscretion | pkg/ofo/dependency.go:752-856 | any two certified proposals on one state have the same batches and partition, whatever their trees and forests |
| TreeVerifier.LocalIsEdge | pkg/ofo/dependency.go:870-875 | between active endpoints the local predicate is the edge relation of the graph |
| TreeVerifier.VerifyTree | pkg/ofo/dependency.go:902-942 | accepts if and only if the edges are graph edges inside the component, give one parent to each non-root and none to the root, and connect the root with every member |
| TreeVerifier.VerifyClaimedTrees | pkg/ofo/dependency.go:887-900 | accepts if and only if both trees have one edge less than the component and are such trees at its first id |
| ForestVerifier.WalkUp | pkg/ofo/dependency.go:974-987 | the walk ends, fails only for an id without record, and adds exactly the records above the id |
| ForestVerifier.VerifyBlockForest | pkg/ofo/dependency.go:944-993 | accepts if and only if records are unique and outside the output, roots are Shaded at depth zero, parents are graph predecessors one level up, and the records are exactly those on walks from excluded Solid ids |
| Verifier.CheckBatches | pkg/ofo/dependency.go:764-780 | accepts if and only if indices continue the counter, members are active Solid and ascending, and batches are disjoint |
| Verifier.CheckPartition | pkg/ofo/dependency.go:781-801 | accepts if and only if claims match the batches rank by rank, are nonempty, disjoint, tree-certified and complete |
| Verifier.SelectedIs | pkg/ofo/dependency.go:877-885 | the selected edge of a pair is the one edge the graph has between them, if any |
| Verifier.CheckOrder | pkg/ofo/dependency.go:803-843 | the pair scan with the rank and Kahn tests accepts if and only if the batches are in minimum-id-first topological order of the included subgraph |
| Verifier.CheckFrontier | pkg/ofo/dependency.go:845-854 | accepts if and only if no edge enters the included set from outside |
| Verifier.VerifyStructuralCertificate | pkg/ofo/dependency.go:752-856 | accepts if and only if order and certificate are present and certify the order on the graph of the state, for every valid state and every input |
| Verifier.AcceptedIsFair | pkg/ofo/dependency.go:752-856 | what it accepts is the fair order of the graph |
| CrossEdges.KahnTest | pkg/ofo/dependency.go:822-843 | comparing Kahn's order with the claimed ranks holds if and only if the batches are minimum-id-first in the graph itself |
| Kahn.TopoSort | pkg/ofo/dependency.go:712-750 | the queue algorithm yields the greedy order: each next component is the ready one with the smallest first id, and nothing ready is left |
| Kahn.KahnUnique | pkg/ofo/dependency.go:712-750 | there is only one such order |
| Kahn.KahnOrderFree | pkg/ofo/dependency.go:712-750 | it does not depend on the order of the adjacency lists |
| Kahn.KahnCovers | pkg/ofo/dependency.go:712-750 | on an acyclic condensation it places every component in use |
| Kahn.KahnTopological | pkg/ofo/dependency.go:712-750 | every predecessor in use is placed earlier |
| Tarjan.TarjanSCC | pkg/ofo/dependency.go:662-710 | for every graph closed under its edges: a partition of the nodes into the maximal mutually reachable classes, each ascending, emitted in reverse topological order |
| Tarjan.Search.Connect | pkg/ofo/dependency.go:669-702 | the recursive visit keeps the depth-first invariant, returns the low link of its subtree, and terminates |
| Tarjan.Search.PopTo | pkg/ofo/dependency.go:688-700 | popping down to a vertex returns exactly the stack above and including it and leaves the rest |
| Condensing.BuildCondensationAndSCCInfo | pkg/ofo/dependency.go:632-660 | numbers every node with its class, links two classes exactly when an edge crosses between them, and marks a class solid exactly when all its members are |
| Selection.TaintedIs | pkg/ofo/dependency.go:445-456 | a class contains or descends from a non-Solid vertex exactly when its members are outside the safe closure |
| Selection.Select | pkg/ofo/dependency.go:443-462 | one pass over the topological order selects exactly the classes inside the safe closure |
| Selection.PickedMinFirst | pkg/ofo/dependency.go:463-481 | the Kahn order of the selected classes is minimum-id-first in the released subgraph |
| TreeBuilder.SpanningTree | pkg/ofo/dependency.go:485-517 | breadth-first search inside a component whose root reaches it spans it: the tree is one the verifier accepts |
| ForestBuilder.HangsBelowRoot | pkg/ofo/dependency.go:533-554 | every vertex the search visits is reached from one of its Shaded roots |
| ForestBuilder.BlockForest | pkg/ofo/dependency.go:519-580 | the forest is one the verifier accepts for the safe closure: every excluded Solid vertex has its chain and no record is superfluous |
| Builder.BuildProposal | pkg/ofo/dependency.go:435-483 | on every valid state, from a cache equal to its rebuild, the proposal satisfies the certificate predicate that the verifier decides |
| Chain.RunValid | pkg/ofo/ablation_test.go:490-518 | after every run of accepted fragments all caches equal their definitions and the sequence is the number of fragments |
| Chain.ReleasesClosure | pkg/ofo/service.go:461-480 | an accepted fragment releases exactly the safe closure of its evidence state |
| Chain.SameOutput | pkg/types/type.go:204-225 | two acceptable fragments with the same evidence have the same order, components, post-state identifier and post-state |
| Chain.RunSettled | pkg/ofo/dependency.go:582-628 | after every run nothing is releasable |
| Chain.RestUntouched | pkg/ofo/dependency.go:593-605 | a fragment keeps reachability and weights between the vertices it does not release |
| Chain.EmptyRoundIsSilent | pkg/ofo/dependency.go:435-483 | after every run, a fragment with only empty extensions releases nothing |
| Conservation.LiveOrDone | pkg/ofo/dependency.go:247-257 | after every run, exactly the ids ever admitted are live or finalized, and none is both |
| Conservation.DoneIsForever | pkg/ofo/dependency.go:584-590 | no finalization record is ever changed or removed |
| Conservation.RunIndexed | pkg/ofo/dependency.go:584-592 | the batch indices in use are exactly 1 up to the counter, each nonempty and each within a single fragment |
| Conservation.StatesAdvance | pkg/ofo/dependency.go:290-308 | between any two points of a run an id that stays live never moves back from Solid or Shaded |
| Conservation.EdgesAreActive | pkg/types/type.go:139-146 | an edge that meets the threshold has two non-Blank ends |
| Rules.EdgeRule | pkg/ofo/dependency.go:417-419 | in every valid state, u->v is an edge if and only if both are active and distinct, at least n-qH+1 replicas position u before v, and more do so than the reverse, or as many and u < v |
| Rules.ClassRule | pkg/ofo/dependency.go:290-298 | in every valid state a live id is Solid if and only if at least n-2f replicas position it, Shaded if and only if at least n-qH+1 but fewer do, Blank otherwise |
| Rules.GraphFromLogs | pkg/ofo/dependency.go:363-433 | a state that agrees with the replicas' logs has exactly the graph counted from those logs, without the finalized ids |
| Rules.RunRules | pkg/ofo/dependency.go:290-308 | after every run: the graph and every class, counted from the admitted logs |
| Rules.OrderFromLogs | pkg/ofo/dependency.go:435-483 | what an accepted fragment releases, and in which order, is the fair order of the graph counted from the admitted logs with its own extensions |
| Rules.FairOrderRule | pkg/ofo/dependency.go:807-856 | a fair order spelled out over edges and reachability alone: the ids all of whose ancestors are Solid, one class of mutual reachability per batch in ascending order, and the smaller first id first wherever two batches could change places |
| Rules.AcceptsRule | pkg/ofo/dependency.go:161-229 | after every run, exactly those batches are acceptable (content aside) that hold n-f extensions in increasing replica order, each of at most the size limit of distinct ids, none unfinalized of them in that replica's log already, starting at the length and hash chain of that log, and signed |
| Rules.AdmittedRule | pkg/ofo/dependency.go:211-221 | content is at hand exactly when valid bytes with the hash of the id are stored under it |
| Rules.FragmentShape | pkg/ofo/dependency.go:764-801 | batches are numbered from 1 through all fragments of a run, claims are ranked from 0 and list the batches one by one, with trees of one edge less |
| Rules.DoneRule | pkg/ofo/dependency.go:582-592 | after every run an id is recorded under a fragment and a batch index if and only if that fragment of the run has it in the batch of that index |
| Agreement.StateAgreement | pkg/ofo/service.go:517-558 | runs of one length with the same latest digest end in the same state and agree digest by digest, for any two contexts with the same parameters, epoch and genesis state |
| Agreement.StateIdBindsRun | pkg/types/type.go:194-225 | runs of one length whose states have one identifier, in any two contexts, have one genesis state and, place by place, the same evidence, order and components |
| Agreement.FragmentsChain | pkg/ofo/service.go:393-400 | the k-th fragment of a run names sequence k, the leader, the post-state and the digest of the fragment before it, its evidence, and the state it leaves |
| Agreement.LocalOrderDigestBinds | pkg/types/type.go:168-180 | what a replica signs binds every field of its extension but the signature, and not the signature |
| Logs.RunLogAgrees | pkg/ofo/dependency.go:238-262 | after every run, a replica's positions are the places of its unfinalized ids in the concatenation of its admitted extensions |
| Logs.HeadIsChain | pkg/types/type.go:155-166 | the committed head is the hash chain over the nonempty extensions, empty ones being transparent |
| Logs.HeadBindsLog | pkg/ofo/dependency.go:187-195 | two runs, even of different contexts, with the same head of a replica admitted the same chunks of it, with the same boundaries |
| Fairness.VouchedPositions | pkg/ofo/dependency.go:246-262 | a log with x before y never positions y before x, and positions x before y once it positions y, unless x is finalized |
| Fairness.EdgeForms | pkg/ofo/dependency.go:417-419 | if qH replicas vouch for x before y and y is Solid then the edge from x to y is in the graph |
| Fairness.OutputRespects | pkg/ofo/dependency.go:807-856 | an edge into a released vertex comes from a released vertex of the same or an earlier batch |
| Fairness.BatchOrderFairness | pkg/ofo/service.go:79-88 | gamma-batch-order-fairness after every run |
| EndToEnd.AdmittedIsReceived | pkg/ofo/service.go:178-231 | what a run admitted of an honest replica is a prefix of its receipts, also when the replica lags behind in the run: it admits at most the one chunk that the replica retains |
| EndToEnd.ServiceFairness | pkg/ofo/service.go:79-88 | if qH honest services, each at some point of the run, received x before y, the run never finalizes y ahead of x |
| LocalOrders.CanonicalSorts | pkg/ofo/service.go:369-370 | sorting a batch by replica keeps exactly its orders |
| LocalOrders.CanonicalIdentity | pkg/types/type.go:182-192 | sorting an already canonical batch changes nothing, so its digest is that of the list as it stands |
| LocalOrders.TakeChunk | pkg/ofo/service.go:201-210 | the oldest receipts up to the size limit, place by place, from the far end at a malicious replica |
| LocalOrders.ReversedAt | pkg/ofo/service.go:206-210 | place k of a reversed chunk holds the id k places from its end |
| LocalOrders.FilterQueue | pkg/ofo/service.go:577-587 | what remains of the queue is it without the committed ids |
| LocalOrders.DroppingPrefix | pkg/ofo/service.go:577-587 | dropping a committed prefix of a duplicate-free queue leaves exactly the rest |
| LocalOrders.SentMeans | pkg/ofo/service.go:178-231 | what is sent, field by field: the retained ids and chain, or the oldest receipts on the committed position and head, for the next sequence and the current epoch, with the signature over it; it is retained |
| LocalOrders.ReceiveKeeps | pkg/ofo/service.go:158-163 | a first receipt keeps the honest log invariant |
| LocalOrders.SendKeeps | pkg/ofo/service.go:178-231 | so does signing a fresh or moved extension: at most one per fragment sequence |
| LocalOrders.CommitKeeps | pkg/ofo/service.go:572-594 | so does committing a fragment: committed log plus queue stays the first-receipt sequence and the retained chunk stays a prefix of the queue on the committed position and head, whether or not it was included |
| Service.NewOFOService | pkg/ofo/service.go:78-124 | fails if and only if one of the listed tests of its own arguments fails; otherwise the committed state is named by the given genesis state, the latest fragment is the given genesis fragment, epoch, leader, context identifier, n, f, size limit and authenticator are the ones passed in, and the log is empty and honest |
| Service.OFOService.constructor | pkg/ofo/service.go:100-123 | genesis state, free slot, graph cache at the leader only |
| Service.OFOService.ReceiveTransaction | pkg/ofo/service.go:149-168 | valid content that the store takes is stored and from then on resolves, nothing resolvable is lost, and the id is queued exactly when it was not observed before; anything else changes nothing |
| Service.OFOService.GenerateLocalOrder | pkg/ofo/service.go:178-231 | a retained extension is resent, re-signed only when its context moved on; else the oldest receipts are signed; a signing failure changes nothing; an honest log stays honest |
| Service.Propose | pkg/ofo/service.go:357-392 | works on clones only, fails exactly on unacceptable evidence or missing content, and yields certified states with a cache equal to the rebuild |
| Service.OFOService.ConstructCandidate | pkg/ofo/service.go:357-432 | never replaces a pending candidate; whenever the sorted batch is acceptable, its content at hand and signing works, it installs a candidate that is acceptable to every replica in that state that has the content; committed state is untouched |
| Service.Check | pkg/ofo/service.go:461-480 | replaying on clones accepts exactly the acceptable fragments whose content is at hand and yields their two states |
| Service.OFOService.VerifyCandidate | pkg/ofo/service.go:442-486 | with a pending candidate only that one is confirmed; otherwise exactly the leader's properly signed acceptable fragments whose content is at hand are, and become pending |
| Service.OFOService.CommitPending | pkg/ofo/service.go:517-558 | commits exactly the pending digest, appends its fragment to the run, frees the slot, closes its channel once, and keeps an honest log honest |
| Service.OFOService.AbandonPending | pkg/ofo/service.go:560-570 | frees the slot exactly for the pending digest, closes its channel once, and leaves the committed state |
| Service.OFOService.ApplyCommittedLocalOrder | pkg/ofo/service.go:572-594 | only the replica's own extension shortens its queue, and only a match by digest releases the retained one |
| Service.SameCommitted | pkg/ofo/service.go:517-570 | two replicas with the same parameters, epoch and genesis state and with equal sequence and latest digest hold equal evidence states, caches included, whatever their keys, content and history of candidates |
| Service.LeaderIsConfirmed | pkg/ofo/service.go:442-486 | a follower in the leader's state confirms the leader's candidate if and only if its slot holds it, or is free and the follower's own store has the content of every unfinalized id of the evidence |
| Collector.ScheduledCount | pkg/ofo/service.go:293-295 | every sequence schedules exactly n-f replicas |
| Collector.SkippedIff | pkg/ofo/service.go:293-295 | exactly the replicas that stand 1 to f places before k modulo n are skipped in sequence k |
| Collector.NeverSkippedLong | pkg/ofo/service.go:293-295 | no replica is skipped in more than f consecutive sequences |
| Collector.GatheredIsComplete | pkg/ofo/service.go:300-311 | n-f distinct scheduled senders are all scheduled senders |
| Collector.CompleteIsCanonical | pkg/ofo/service.go:369-370 | a complete batch, sorted, has the n-f strictly increasing senders that evidence needs |
| Collector.CanonicalComplete | pkg/ofo/service.go:369-370 | sorting a batch keeps it complete |
| LeaderPipeline.Pipeline.constructor | pkg/ofo/service.go:100-123 | around a genesis leader the pipeline starts idle, with all its invariants |
| LeaderPipeline.Pipeline.OnOrder | pkg/ofo/service.go:256-311 | an order is kept exactly when its own sender is scheduled, has none yet, and it names the service's committed sequence + 1; the handed batch is complete; while a round is out arrivals are drained |
| LeaderPipeline.Pipeline.Construct | pkg/ofo/service.go:328-345 | no candidate is ever in the way; the new one carries exactly one order of each scheduled replica, all naming the service's committed sequence + 1, and its signal is fresh and open |
| LeaderPipeline.Pipeline.Commit | pkg/ofo/service.go:517-558 | a commit takes effect exactly for the open candidate that the proposer waits for, extends the run by it and closes its signal; at any other stage or for any other digest nothing changes |
| LeaderPipeline.Pipeline.Abandon | pkg/ofo/service.go:560-570 | the same for abandoning, which leaves the run alone |
| LeaderPipeline.Pipeline.OnRoundDone | pkg/ofo/service.go:272-282 | a round is only started over with nothing gathered and no candidate pending |
| Waiting.ServiceLine | pkg/ofo/service.go:178-231 | an honest service is in a line that the waiting lemmas speak of: its run, queue, retained extension and signed extensions |
| Waiting.RoundAdmits | pkg/ofo/service.go:572-594 | a fragment with a complete batch admits exactly the chunk that a scheduled honest replica retains (so it did send), and leaves an unscheduled one alone |
| Waiting.BoundedAdmission | pkg/ofo/service.go:201-231 | with a positive size limit, the id at queue place k of an honest replica is in the admitted log of every run that goes on for (f+1)(k/size+2) fragments with complete, unforged batches |
| Hosting.AwaitQuorum | pkg/auth_adapter.go:374-393 | commits if and only if, for some k, the leader and the senders below n of accepting acknowledgements of this digest among the first k number at least n-f, and every refusal of it among them comes from one of those already counted |
| Hosting.ReachedIff | pkg/auth_adapter.go:374-393 | the gate that the system folds over acknowledgements reaches exactly under that count |
| Hosting.CommitExtendsPrefix | pkg/ofo/service.go:517-558 | a commit that a follower can apply extends its history by exactly the leader's next digest |
| Hosting.Reachable | pkg/auth_adapter.go:323-407 | the protocol invariant holds after every sequence of steps of replicas with their own growing content, with any loss, duplication, reordering, relayed or wrongly signed copies of candidates, and forged acknowledgements of faulty replicas |
| Hosting.FollowersArePrefixes | pkg/auth_adapter.go:323-340 | every follower's digests are a prefix of the leader's, and its state is the leader's state at that point |
| Hosting.CommittedByQuorum | pkg/auth_adapter.go:374-407 | behind every digest the leader committed stand n-f replicas including itself, the honest ones having had it pending |
| Blocking.SlotKept | pkg/ofo/service.go:517-570 | no step but the commit of its own digest frees a follower's slot |
| Blocking.BlockedUntilCommitted | pkg/ofo/service.go:458-460 | from any reachable state, a follower keeps the candidate it holds, and refuses all others, as long as the leader has not committed that very candidate |
| Blocking.BlockedForever | pkg/ofo/service.go:452-460 | once the leader has committed another fragment in the place of the one a follower holds, no continuation frees that slot or extends that history |
| Blocking.PassedBy | pkg/auth_adapter.go:391-407 | that is where a commit by the others leaves a follower that holds something else |
| Blocking.AbandonedBlocks | pkg/auth_adapter.go:354-407 | wherever a leader and a follower could both take f and g, giving up f for g leaves the follower on f, refusing g |
| Blocking.RefusedWhileHeld | pkg/ofo/service.go:458-460 | such a run of two correct replicas from genesis, both having all content |
| Blocking.RefusedWithoutContent | pkg/ofo/dependency.go:211-214 | a run from genesis in which a follower with a free slot refuses for missing content, and accepts the same candidate once the content arrived |
| Blocking.StrayBlocks | pkg/ofo/service.go:449-457 | wherever a leader and a follower could both take f, a copy that does not count makes the follower refuse it, the leader give it up, and the leader's own copy take the slot afterwards |
| Blocking.RefusedAfterStray | pkg/auth_adapter.go:323-332 | such a run of two correct replicas from genesis, both having all content |
| EvidenceSpec.StoreAdmits | pkg/auth_adapter.go:206-217 | storing keeps everything admitted, and beyond that admits exactly the stored id, exactly when its content is valid |
| EvidenceSpec.StoreRefuses | pkg/auth_adapter.go:206-217 | refuses exactly a wrong identifier and a second content for an identifier |
| Adapter.OnTransaction | pkg/ofo/service.go:149-168 | on a real service a transaction is the system's receive step |
| Adapter.OnCandidate | pkg/auth_adapter.go:323-332 | on a real service the candidate case is the system's verify step, and acknowledges acceptance exactly when the digest is then pending |
| Adapter.OnCommit | pkg/auth_adapter.go:334-340 | the commit case is the system's install step, for the leader's messages only |
| Adapter.Propose | pkg/auth_adapter.go:354-407 | commits exactly when all sends went out, such a quorum (counted over the acknowledgements) was reached in time and the digest was pending; otherwise abandons it; it is never left pending |
| Adapter.ProposerRound | pkg/ofo/service.go:322-355 | a turn changes nothing, or takes a candidate acceptable in the leader's state and ends with it committed or abandoned |
| Adapter.AnswerIs | pkg/auth_adapter.go:323-332 | an answer accepts if and only if the slot already held the candidate, or it was delivered and could be taken |
| Adapter.LeaderIsAnswered | pkg/ofo/service.go:442-486 | a follower in the leader's state refuses a copy of the leader's candidate, from any sender and with any signature, if and only if its slot holds another, or is free and the copy does not count or content is missing |
| Network.GenesisMirrors | pkg/ofo/service.go:100-106 | genesis services show the nodes of the system's start |
| Network.TransactionStep | pkg/ofo/service.go:149-168 | with any number of services showing their nodes, a transaction at one of them is the system's receive step, and all still show their nodes |
| Network.CandidateStep | pkg/auth_adapter.go:323-332 | the same for a candidate from any sender and however signed: the leader's own copy is a candidate step, any other a stray step, and the answer sent is the one the step adds |
| Network.CommitStep | pkg/auth_adapter.go:334-340 | the same for a commit message: a commit step if the leader sent it, nothing otherwise |
| Network.ConstructStep | pkg/ofo/service.go:332-342 | the same for a construction, which opens the gate on a new candidate |
| Network.ProposeSteps | pkg/auth_adapter.go:354-407 | a whole proposal at the leader's service is hearing its acknowledgements and then settling or cancelling |
| Adapter.HearingIsHearAll | pkg/auth_adapter.go:374-393 | hearing a list of acknowledgements one by one is the loop's result |
| Adapter.ProposeIsSteps | pkg/auth_adapter.go:354-407 | a whole proposal is hearing its acknowledgements and then settling or cancelling, with the same node, gate and commit messages |
| Encoding.CompareAgrees | pkg/types/type.go:15-17 | byte-wise comparison of big-endian forms of equal width is comparison of the numbers |
| Encoding.IdentifierOrder | pkg/types/type.go:15-17 | `bytes.Compare` on 32 bytes is the order used for identifiers |
| Encoding.ListUnique | pkg/types/type.go:302-307 | a counted list of uniquely readable items is uniquely readable, whatever follows it |
| Preimages.OrderUnique | pkg/types/type.go:290-300 | an encoded local order, with any bytes after it, determines the order and those bytes |
| Canonical.CertificateUnique | pkg/types/type.go:255-288 | so does an encoded certificate, up to root parents and a missing one reading as empty |
| Canonical.FragmentUnique | pkg/types/type.go:227-253 | an encoded fragment determines every field it encodes |
| Canonical.FragmentBytesIff | pkg/types/type.go:227-280 | two fragments have the same preimage if and only if they have the same encoded form |
| Canonical.SameBytes | pkg/types/type.go:236-280 | a missing order and an empty one, a missing certificate and an empty one, and two parents of a root record are different fragments with one preimage |
| Canonical.PreimagesBind | pkg/types/type.go:155-253 | preimages of log heads, orders, evidence batches, states, fragments and done sets coincide if and only if the hashed values do, across all their domain tags |
| Canonical.TransactionsBind | pkg/types/type.go:148-153 | preimages of transaction contents coincide if and only if the contents do, and never with a preimage of any other domain |
| Buffers.HeadBytes | pkg/types/type.go:155-166 | the encoder of a log head appends exactly the preimage of the head |
| Buffers.OrderBytes | pkg/types/type.go:168-180 | so does the encoder of a local order, which leaves the signature out |
| Buffers.EvidenceBytes | pkg/types/type.go:182-192 | so does the encoder of an evidence batch, which sorts it first |
| Buffers.PreStateBytes | pkg/types/type.go:194-202 | so does the encoder of a pre-state identifier |
| Buffers.PostStateBytes | pkg/types/type.go:204-225 | so does the encoder of a post-state identifier, for a missing order too |
| Buffers.FragmentBytes | pkg/types/type.go:227-253 | so does the encoder of a fragment |
| Buffers.DoneSetBytes | pkg/ofo/dependency.go:122-138 | the encoder of the finalized set, looping over sorted ids, appends the preimage of the set |
| Buffers.Buffer.PutLocalOrder | pkg/types/type.go:290-300 | appends an extension, signature included, as the functional writer does |
| Buffers.Buffer.PutCertificate | pkg/types/type.go:255-280 | appends a certificate, two zero counts for a missing one |
| Buffers.Buffer.PutRecord | pkg/types/type.go:268-279 | appends a record, zero bytes in place of the parent of a root |

## Left out

- CheckParams: gamma(n-f) is an exact real; the rounding of `math.Ceil` on floats and NaN are not modelled.
- Unsigned 64-bit wrap-around of sequences, positions and counters: numbers are unbounded, except in the encodings, whose injectivity is proved for values below 2^64.
- Canonical.PreimagesBind: assumes fixed-width hash values without collisions among the digests at hand, since SHA-256 itself is not modelled.
- Ed25519, keys and PEM files: signing and verifying are arbitrary functions, and unforgeability is a stated hypothesis.
- Nil pointers inside an evidence batch, and checks that later code can never reach (a repeated sender after the strict order test, a reference differing from its id).
- EvidenceObject.EvidenceState.Clone: copies the maps as values, so the copying loops of `clone` and aliasing between nested maps are not captured; that the two objects evolve independently is.
- Service.OFOService.ReceiveTransaction: what counts as valid content and the hash from content to identifier are arbitrary functions; the store is the in-memory one of the benchmark.
- The throwaway graph manager that a follower passes to `finalize`: it is never read.
- LeaderPipeline.Pipeline: leaves out channel capacities, the timer and shutdown; the calls of the two goroutines and the hosting layer are interleaved as wholes, which is how the service's lock orders them.
- Waiting.BoundedAdmission: is about runs with complete batches, which is what the pipeline commits; a leader that ignores the rotation is not bound by it.
- Fairness.BatchOrderFairness: speaks of replicas by their logs; it needs no assumption about the others, and unforgeability enters only through the honest log invariant.
- Ready, start and finish handshakes of the benchmark, and the message transport: candidates, acknowledgements and commits are sets from which anything may arrive at any time.
- Hosting.Reachable: the leader follows the protocol; a replica in `faulty` may acknowledge anything.
- Latency, throughput and diagnostics counters, `MeasurementDeadline`, stage timing, the workload generator, delay faults, configuration and the Python tooling: no protocol state.
- Checkpoints, recovery, pruning, order-leader handoff and liveness after stabilization: not implemented by this code.
