# Verification of the reservation fabric

This project models the capacity index, the reservation runtime and the binary codec of the
reservation fabric in Dafny and proves what they are for. `dafny verify dfyconfig.toml` checks
all of it.

It has three layers, each proved against the one below.

**The capacity index.** A lazy interval treap in a node pool answers how much capacity is left
over a window. `Treap*.dfy` models its operations on trees, with pending tags, cached
aggregates and deterministic priorities as they are, and proves that any run of operations
answers exactly like a plain function from instants to levels, that no stale aggregate is ever
read, that shape forgets history, and what keeps every stored number in 64 bits:
`TreapMachine.dfy` for whole trees, `TreapStore.dfy` for every write, the four of a push included,
and `TreapOverflow.dfy` that the second bound is exact at every capacity and ratio, and more than the
first. `IntervalAggregator.dfy` is the object itself: nodes in a pool, index links updated in place, out-parameters; each method is
proved to perform the tree operation of its name. `Envelope.dfy` puts it behind the capacity
envelope, the contract the runtime relies on.

**The runtime.** `Registry.dfy` specifies every public operation as a function on the runtime's
state (one exclusive lock makes each call one atomic step; the time and the order in which a
hash map is walked are arguments). `Fabric.dfy` is the runtime object, whose methods update maps
and counters in place and are proved to do what the specification says. `Mirror.dfy`,
`MirrorStep.dfy`, `Exactness.dfy`, `BundleExact.dfy` and `MirrorRun.dfy` prove over whole runs that
the envelopes mirror the registry and that hard capacity is never overcommitted: for each operation
a guard that holds if and only if the operation keeps both, so that a run keeps both all along if
and only if it is guarded. `Counterexamples.dfy` has a short run from an empty runtime for every
operation whose guard can fail. `Bundle.dfy` proves bundles all-or-nothing in every state and for
every input, and `BundleExact.dfy` that they never overcommit, not even on the way.
`Fencing.dfy`, `Authority.dfy` and `Fences.dfy` prove generation fencing, boot fencing, the
evidence behind live reservations and the conservation of consumption, over all runs and
without guards. `Edits.dfy` lists the writes each operation makes to the indexes, in order, and
`Machine.dfy` carries the overflow results up to the runtime along them.

What each operation does is also stated a second time, as laws that name no function specifying an
operation, only the fields of records, requests and publications and the levels at instants, and the
laws are proved of the specification for all inputs. `EffectLaws.dfy` has their vocabulary: how much room
the levels leave, and what an operation may do to them. `AdmissionLaws.dfy`, `HoldLaws.dfy`,
`BundleLaws.dfy`, `LifecycleLaws.dfy`, `ChangeLaws.dfy` and `ResourceLaws.dfy` say of every operation
exactly when it is accepted and what the whole state is afterwards.

**The codec.** `Crc.dfy` proves burst detection; `Codec.dfy` and `Records.dfy` round trips and
the rejection of every truncation; `Framing.dfy` that delivery does not depend on chunking;
`Persist.dfy`, `Flags.dfy` and `Recovery.dfy` exactly when a saved registry is accepted again and
what loading it gives back, and `Length.dfy` that the length of a modest file never stands in the way.
`LayoutLaws.dfy` and `FileLaws.dfy` give every record, file and frame byte by byte, and which bytes
are accepted as a file or a frame.

Some steps of the code do not keep the mirror or the bound, and some files it writes it cannot read.
They are modelled as they are; each has its exact condition and a lemma at a run that fails:

- An accepted resize or renewal flags the new record before adding it, so the addition returns
  early. A refused one adds a terminated reservation back.
- A replacing publication installs an empty envelope and adds back only unflagged reservations,
  whether or not they fit.
- A partially admitted request commits its full quantity.
- A hold under the identity of an applied hold replaces it, and its quantity stays in the envelope;
  a bundle, refused or not, does this to any caller's hold whose identity comes next.
- An activation that finds its resource unavailable or advanced, a transfer that is accepted and a
  resize or renewal that is refused bring a record that has ended back among those that hold
  capacity, or back into the envelope, but not both.
- A quantity in another unit than the request's is admitted, and its reservation never becomes consumed.
- A load restores the default configuration, so a history longer than the default bound survives it out of bounds.
- Writers accept empty windows, over-long strings and amounts without a unit that readers refuse,
  so one such record makes a saved file unreadable; an empty window has unlimited headroom and is
  committed like any other.
- A push writes its tag to a child in four steps, and what stands in between can exceed 64 bits
  although capacity and effective capacity together do not.

Where the comment on bundles says that holds guarantee capacity, the code assesses each member
while its own hold still counts, so a bundle may be refused for want of the room it holds; the model
follows the code. What is proved is that bundles are atomic and never overcommit.

## Model

| member | source | states |
|---|---|---|
| `TreapRun.RunRefines` | include/reservation_fabric/detail/interval.hpp:150-265 | after any sequence of range adds, capacity sets and queries the tree represents exactly the function from instants to levels that the same sequence produces on a plain function |
| `TreapRun.QueryIsExact` | include/reservation_fabric/detail/interval.hpp:244-265 | the four queries return the true extreme over every instant of the range in the span, or the largest 64-bit value (0 for peaks) if there is none, although they restructure the tree |
| `TreapRun.StepRefines` | include/reservation_fabric/detail/interval.hpp:222-265 | one operation keeps tiling, exact aggregates, canonical shape and the pool count, and changes exactly the instants it names; a query changes none |
| `TreapExact.IsolateIsExact` | include/reservation_fabric/detail/interval.hpp:202-232 | no stale aggregate is read: after both boundaries and both splits every node of the three parts has exact aggregates, although new cells are created without any |
| `TreapExact.SoundEnsureBoundary` | include/reservation_fabric/detail/interval.hpp:141-148 | a new boundary leaves inexact at most the nodes above cells that touch it |
| `TreapExact.SoundSplit` | include/reservation_fabric/detail/interval.hpp:166-180 | a split makes exact every node whose cells touch its key, whether or not that key was suspect before |
| `TreapExact.SoundRangeOp` | include/reservation_fabric/detail/interval.hpp:222-242 | between operations every aggregate in the tree is exact |
| `TreapCells.CellsEnsureBoundary` | include/reservation_fabric/detail/interval.hpp:202-220 | making a boundary cuts the straddling cell in two equal levels and changes no other cell |
| `TreapCells.SplitCleansSpine` | include/reservation_fabric/detail/interval.hpp:166-180 | a split leaves no pending tag on the right spine of its left part |
| `TreapCells.RightmostIsLast` | include/reservation_fabric/detail/interval.hpp:197-200 | over a clean spine the rightmost node, read without pushing, shows the true last cell |
| `TreapCells.CellsSplit` | include/reservation_fabric/detail/interval.hpp:166-180 | a split cuts the sequence of cells at the key, by cell start, and loses none |
| `TreapCells.CellsMerge` | include/reservation_fabric/detail/interval.hpp:150-164 | a merge concatenates the sequences of cells |
| `TreapProfile.RangeCellsProfile` | include/reservation_fabric/detail/interval.hpp:202-242 | cutting at both ends and changing the cells between keeps an exact tiling of the span and changes exactly the instants of the range |
| `TreapShape.ShapeIsCanonical` | include/reservation_fabric/detail/interval.hpp:150-195 | trees kept by split, merge and detach have a shape that depends on the set of cell starts alone |
| `TreapRun.ShapeForgetsHistory` | include/reservation_fabric/detail/interval.hpp:150-220 | two runs that name the same boundaries end in trees of one shape and pools of one size, whatever their order, values and queries |
| `TreapRun.RunStarts` | include/reservation_fabric/detail/interval.hpp:202-220 | the cell starts after a run are the origin and the boundaries strictly inside the span that the run named |
| `TreapShape.BoundaryCost` | include/reservation_fabric/detail/interval.hpp:202-220 | each new boundary takes two pool slots and adds one live cell, so the pool is twice the live cells less one |
| `TreapMachine.RunStaysInRange` | include/reservation_fabric/detail/interval.hpp:80-112 | if levels stay within their bounds after each operation, every cell value, aggregate and pending tag of the tree after each operation is within capacity bound plus effective capacity; a tag is the difference of two levels its cell really had |
| `TreapMachine.IsolateInRange` | include/reservation_fabric/detail/interval.hpp:202-232 | the trees that whole splits and merges leave inside an operation, up to its three parts, are in range too |
| `TreapMachine.InRangeFits` | include/reservation_fabric/detail/interval.hpp:70-78 | in range means inside signed 64 bits for every number stored in the tree |
| `TreapStores.RunStoresInRange` | include/reservation_fabric/detail/interval.hpp:87-242 | if hard, held and soft levels each stay within their own bound after each operation, and twice the capacity plus the effective capacity fits 64 bits, every write of every push, pull, tag and new cell in the run stores 64-bit numbers, each of the four writes of a push counted on its own |
| `TreapOverflow.NothingOverflowsIff` | include/reservation_fabric/detail/interval.hpp:87-242 | the bound is exact: at every capacity and ratio, everything stored in every run over every span whose hard commitments and holds stay within the capacity and whose soft ones stay within the effective capacity fits 64 bits if and only if twice the capacity plus the effective capacity does |
| `TreapOverflow.PushStoresTheSum` | include/reservation_fabric/detail/interval.hpp:114-121 | at every positive capacity and every ratio there is a run of eight operations that never overcommits and whose last push stores exactly twice the capacity plus the effective capacity |
| `TreapOverflow.PushCanOverflow` | include/reservation_fabric/detail/interval.hpp:114-121 | its instance at capacity 2^62 - 1 and no overbooking: capacity and effective capacity together fit 64 bits, three times the capacity is stored |
| `Int64.MulOverflow` | include/reservation_fabric/detail/interval.hpp:28-35 | the overflow test is exact for all 64-bit operands and the product is only given when it fits |
| `Int64.EffCapacityIsSaturatingFloor` | include/reservation_fabric/detail/interval.hpp:80-85 | for non-negative operands the effective capacity is the floor of the exact product, saturated, and monotone in the capacity |
| `Int64.KnownPriority` | include/reservation_fabric/detail/interval.hpp:19-26 | the priority of the first cell start is the low half of the generator's first output |
| `IntervalAggregators.IntervalAggregator.Initialize` | include/reservation_fabric/detail/interval.hpp:41-49 | only an empty span is refused; over a positive one the object represents the free function |
| `IntervalAggregators.IntervalAggregator.AddCommittedHard` | include/reservation_fabric/detail/interval.hpp:55 | the object's function changes by delta exactly on the range |
| `IntervalAggregators.IntervalAggregator.SetCapacity` | include/reservation_fabric/detail/interval.hpp:58 | the object's capacities become the value exactly on the range |
| `IntervalAggregators.IntervalAggregator.MinHard` | include/reservation_fabric/detail/interval.hpp:60 | returns the exact least hard slack and leaves the represented function as it was |
| `IntervalAggregators.IntervalAggregator.MaxCombinedSoft` | include/reservation_fabric/detail/interval.hpp:65 | returns the exact greatest combined load and leaves the represented function as it was |
| `IntervalAggregators.IntervalAggregator.Push` | include/reservation_fabric/detail/interval.hpp:114-121 | the four pushes through the pool leave the children at the four successive parts of the tag and amount to the push of the tree |
| `IntervalAggregators.IntervalAggregator.MergeRec` | include/reservation_fabric/detail/interval.hpp:150-164 | merging by index links in the pool is the merge of trees and touches only the slots of the two trees |
| `IntervalAggregators.IntervalAggregator.Split` | include/reservation_fabric/detail/interval.hpp:166-180 | splitting by index links is the split of trees and touches only the slots of the tree |
| `IntervalAggregators.IntervalAggregator.DetachMax` | include/reservation_fabric/detail/interval.hpp:182-195 | detaches the last node, and only it, from the tree |
| `IntervalAggregators.IntervalAggregator.EnsureBoundary` | include/reservation_fabric/detail/interval.hpp:202-220 | performs the tree operation of the same name in the pool, growing it by two slots when a cell is cut |
| `IntervalAggregators.IntervalAggregator.RangeAdd` | include/reservation_fabric/detail/interval.hpp:222-232 | a range add in the pool is the range operation on the tree |
| `IntervalAggregators.IntervalAggregator.MinSlack` | include/reservation_fabric/detail/interval.hpp:244-254 | a query in the pool answers and restructures as the query on the tree |
| `Envelopes.CapacityEnvelope.Init` | include/reservation_fabric/capacity.hpp:24-35 | accepts exactly a capacity in its own unit, or any when it has none, over a non-empty span; over a positive one it then shows the free function |
| `Envelopes.CapacityEnvelope.AddHeldQuantity` | include/reservation_fabric/capacity.hpp:53-56 | holds change the levels of the window by the quantity; an uninitialized envelope ignores them |
| `Envelopes.CapacityEnvelope.MinHard` | include/reservation_fabric/capacity.hpp:67-70 | headroom is the least hard slack over the window, unlimited outside the span or before initialization, and asking changes nothing |
| `MirrorRuns.ConsistentRun` | src/impl.hpp:122-190 | in every state a guarded run reaches, each level of each envelope at each instant is the sum over flagged reservations and applied holds covering it, and hard plus held never exceeds capacity |
| `MirrorRuns.StepKeepsIff` | src/runtime_commit.cpp:31-84 | an operation, any of the eighteen, keeps mirror and bound if and only if its guard holds; the guard speaks of the state before the call, and for most operations it is true |
| `MirrorRuns.GrantableIs` | src/impl.hpp:149-190 | a hold is granted if and only if it is in order, there is a place for it and some matching resource, not only the chosen one, has headroom for it |
| `MirrorRuns.ReplacementIs` | src/runtime_core.cpp:30-60 | a publication replaces if and only if it is in order, from no stale boot, and of a later generation of a known resource |
| `MirrorRuns.GuardedIff` | src/impl.hpp:122-190 | mirror and bound hold in every state along a run if and only if every guard along it holds |
| `MirrorRuns.OrdinaryCommitIsGuarded` | src/runtime_commit.cpp:31-69 | commits admitted in full, and commits of either strength against a hold of their own quantity and window even when admitted in part, are guarded |
| `BundleExactness.BundleNeverOvercommits` | src/runtime_commit.cpp:101-183 | from a consistent state a bundle overcommits nothing, hard or soft, in any state it goes through: after any number of holds, of commits, of cancellations and of releases, whatever its members and wherever it stops |
| `BundleExactness.BundleKeepsIff` | src/runtime_commit.cpp:101-183 | a bundle, whatever its members and wherever it stops, keeps mirror and bound if and only if phase two takes no identity from a hold that still weighs |
| `Counterexamples.BundleTakesHold` | src/runtime_commit.cpp:120-143 | three units held by a caller under the identity a bundle takes next: the bundle is refused and the mirror is broken |
| `MirrorRuns.FreeBundleIsGuarded` | src/runtime_commit.cpp:101-183 | a bundle whose next hold identities are free is guarded, whatever its members |
| `Mirrors.ConsistentCommit` | src/runtime_commit.cpp:31-69 | a commit that is not admitted in part, with or without a hold, keeps mirror and bound |
| `Mirrors.ConsistentAcquire` | src/impl.hpp:149-190 | acquiring a hold under an identity with no applied hold keeps mirror and bound |
| `Exactness.HardRoomIsHeadroom` | src/impl.hpp:137-141 | a hard quantity has room, as the guards ask, exactly when headroom over its window is at least the quantity |
| `Mirrors.HeadroomBounds` | src/impl.hpp:137-141 | headroom is at most the slack at every instant of the window in the span |
| `MirrorSteps.NewStateIsConsistent` | src/runtime_core.cpp:7-10 | an empty runtime satisfies the invariant, so the run results hold of every reachable state |
| `Machines.NothingOverflows` | include/reservation_fabric/detail/interval.hpp:70-242 | down the whole stack: at the end of a guarded run, for every log whose writes are exactly those the run made to an envelope's index and with any reads in between, the tree of the log shows the envelope's levels and, if twice the capacity plus the effective capacity fits 64 bits, nothing stored on the way overflows, not even inside a push |
| `Machines.NoTreeOverflows` | include/reservation_fabric/detail/interval.hpp:70-112 | when the whole of each commit has room even before its hold comes off, and hard members of bundles are taken whole or not at all, capacity plus effective capacity fitting 64 bits is enough for every number in the trees between operations, again for every such log |
| `Machines.StepGoes` | src/impl.hpp:122-135 | under its guard, the writes listed for an operation lead exactly from the envelopes before it to those after it, and every envelope in between is in order |
| `Edits.LogExplains` | include/reservation_fabric/detail/interval.hpp:41-66 | an index shows what the writes since its installation do to a free span, and every prefix of them was reached along the run |
| `Edits.ReadsDoNotMatter` | include/reservation_fabric/detail/interval.hpp:244-265 | a log shows the levels of its writes alone, prefix by prefix, whatever reads stand between them |
| `Exactness.AcceptedChangeIff` | src/runtime_lifecycle.cpp:166-216 | an accepted resize or renewal keeps the mirror, and mirror and bound together, if and only if its window misses the resource's span, because the flag is set before the contribution is added |
| `Counterexamples.AcceptedResizeBreaksMirror` | src/runtime_lifecycle.cpp:166-177 | ten units committed and resized to five, from an empty runtime: the mirror is broken |
| `Counterexamples.AcceptedRenewalBreaksMirror` | src/runtime_lifecycle.cpp:207-218 | ten units committed and renewed over the same window: the mirror is broken |
| `Exactness.RefusedChangeIff` | src/runtime_lifecycle.cpp:150-159 | a refused resize or renewal, hard or soft, keeps the mirror; it keeps the bound if and only if the reservation was contributing or its old quantity still has room |
| `Counterexamples.RefusedResizeOvercommits` | src/runtime_lifecycle.cpp:150-159 | a resize of ten cancelled units, refused because ten others are committed, leaves twenty committed over ten |
| `Exactness.CommitKeepsBoundIff` | src/runtime_commit.cpp:31-69 | a commit, hard or soft, with a hold or without, keeps the mirror, and the bound if and only if the full quantity has room once the hold is off, although only part of it may have been admitted |
| `Counterexamples.PartialCommitOvercommits` | src/runtime_commit.cpp:31-69 | six units committed, then ten of which four would do: sixteen are committed over ten |
| `Exactness.AcquireIff` | src/impl.hpp:149-190 | an acquired hold keeps mirror and bound if and only if it does not take its identity from an applied hold whose window touches the span |
| `Counterexamples.ReusedHoldBreaksMirror` | src/impl.hpp:176-186 | three units held twice under one identity: the mirror is broken |
| `Exactness.ReplacementKeepsMirrorIff` | src/runtime_core.cpp:76-90 | a replacing publication keeps the mirror if and only if nothing flagged or applied on the resource covers an instant of the new span |
| `Exactness.ReplacementKeepsIff` | src/runtime_core.cpp:76-90 | it keeps mirror and bound if and only if, besides, the reservations it adds back fit the new capacity (hard) and effective capacity (soft) at every instant of the new span |
| `Counterexamples.ReplacementBreaksMirror` | src/runtime_core.cpp:76-90 | ten units committed, then a new generation of the resource: its envelope shows none of them |
| `Counterexamples.ReplacementOvercommits` | src/runtime_core.cpp:76-90 | two cancelled reservations of ten units revived by activations of an unavailable resource are both added back to ten units: the mirror is kept, the bound is not |
| `Bundles.RefusedBundleUndoes` | src/runtime_commit.cpp:101-172 | whichever phase or member stops a bundle, every envelope is exactly as before, no new reservation contributes, no provisional hold stays applied and no hold beyond those granted is touched; nothing is asked of the caller |
| `Bundles.DoneBundleAdds` | src/runtime_commit.cpp:145-183 | a committed bundle adds exactly one contributing reservation per member, in order, raises the levels by exactly their weights and leaves held and capacity as they were |
| `Bundles.CommitAllLays` | src/runtime_commit.cpp:154-176 | phase three, stopped or not, has added exactly the members it counted and settled exactly their holds |
| `Bundles.AcquireAllLays` | src/runtime_commit.cpp:120-143 | phase two adds exactly the holds it acquired, even over identities already in use |
| `Fencing.StructRun` | src/runtime_lifecycle.cpp:161-177 | in every reachable state the live record carries the current generation and history is a bounded contiguous run of generations just below it |
| `Fences.RecordsAreNamedOnce` | src/impl.hpp:80-88 | an identity and generation name at most one record: the live one or one remembered, and exactly those within the bound are remembered |
| `Fences.SupersededStaysRefused` | src/runtime_lifecycle.cpp:225-252 | a superseded generation is refused without effect by every operation forever after |
| `Fences.GenerationsAdvanceRun` | src/runtime_lifecycle.cpp:161-177 | generations of live records never go back over any run |
| `Fences.StaleBootIsNeverFresh` | src/runtime_core.cpp:40-45 | after a worker has owned a resource under a boot, its evidence under a smaller boot is never fresh again, even if ownership moves away and back |
| `Fences.StaleBootNeverActs` | src/runtime_lifecycle.cpp:7-21 | such evidence never newly activates, consumes, releases or transfers; at most an activation sends the reservation to revalidation |
| `Fences.BootsRun` | src/runtime_core.cpp:141-149 | recorded boots never decrease and no owner's boot is above its recorded one |
| `Fences.EvidenceRun` | src/runtime_core.cpp:107-157 | in every reachable state a live reservation's resource exists and is available |
| `Fences.ActivationSeesCurrentResource` | src/runtime_lifecycle.cpp:32-60 | a step that newly makes a reservation active is its activation, on fresh evidence, inside its window, at a resource generation not above the bound one |
| `Fences.ConsumptionIsConserved` | src/runtime_lifecycle.cpp:63-92 | what a reservation shows as consumed is the ledger of amounts accepted since its commit or last resize, and never exceeds its quantity |
| `Fences.ReplayChangesNothing` | src/runtime_lifecycle.cpp:74-80 | once a consumption generation is accepted, presenting it or an older one is never accepted and changes nothing in any later state |
| `Fences.MeteredRun` | src/runtime_lifecycle.cpp:84-87 | consumed means the whole quantity; partly consumed means some of it and, when stated in the reservation's own unit, not all |
| `Fences.ExhaustionIsSeenInOwnUnit` | src/runtime_lifecycle.cpp:84-87 | using up the quantity marks the reservation consumed if and only if the quantity is stated in the reservation's unit |
| `Fences.UnitMismatchIsAdmissible` | include/reservation_fabric/request.hpp:140-157 | a concrete request that passes validation although its quantity is in another unit |
| `Counterexamples.UsedUpIsNotConsumed` | src/runtime_lifecycle.cpp:84-87 | ten bytes of a resource counted in units, committed, activated and consumed to the last: the reservation is only partly consumed |
| `Fences.NewStateIsFenced` | src/runtime_core.cpp:7-10 | an empty runtime satisfies the premises of the fencing, evidence and consumption results |
| `Fabric.ReservationFabric.constructor` | src/runtime_core.cpp:7-10 | a new runtime is empty, with the default horizon when none is configured |
| `Fabric.ReservationFabric.MatchingResources` | src/impl.hpp:104-115 | the loop collects exactly the resources that are asked for: by identity if one is named, of the class and unit, available, of at least the generation asked for |
| `Fabric.ReservationFabric.BestOf` | src/runtime_core.cpp:203-212 | the running best ends at the greatest headroom, least identity on ties, whatever the walk order |
| `Fabric.BestIsUnique` | src/runtime_core.cpp:207-211 | greatest headroom with ties broken by identity picks at most one resource, so the walk order cannot matter |
| `Fabric.ReservationFabric.AssessOne` | src/runtime_core.cpp:160-227 | admits in full, in part or not at all just as some resource asked for has room, and names the one with most room, least identity on ties; nothing changes |
| `Fabric.ReservationFabric.CreateHold` | src/impl.hpp:149-190 | performs exactly the hold acquisition of the specification, in place |
| `Fabric.ReservationFabric.ExpireHolds` | src/runtime_core.cpp:299-312 | visits every hold once, in some order, expiring exactly those due |
| `Fabric.ReservationFabric.CommitOneLocked` | src/runtime_commit.cpp:31-69 | performs exactly the commit of the specification, in place: the new record is what was asked for, on the resource that serves the request best |
| `Fabric.ReservationFabric.CommitBundle` | src/runtime_commit.cpp:101-183 | the three phases with their rollback do exactly what the specification of a bundle says, so the atomicity results are about this method |
| `Fabric.ReservationFabric.Activate` | src/runtime_lifecycle.cpp:25-61 | performs exactly the activation of the specification |
| `Fabric.ReservationFabric.Consume` | src/runtime_lifecycle.cpp:63-92 | performs exactly the consumption of the specification |
| `Fabric.ReservationFabric.Release` | src/runtime_lifecycle.cpp:94-111 | performs exactly the release of the specification |
| `Fabric.ReservationFabric.ExpireDue` | src/runtime_lifecycle.cpp:122-137 | visits every reservation once, in some order; exactly those that hold capacity and whose windows end before now are expired, and their number is returned |
| `Fabric.ReservationFabric.Resize` | src/runtime_lifecycle.cpp:139-184 | accepted exactly when the room besides the reservation's own contribution is at least the quantity, it makes that the quantity of the live record, its early-returning contribution included, and reports what was acquired or released on top of the old one |
| `Fabric.ReservationFabric.Renew` | src/runtime_lifecycle.cpp:186-223 | accepted exactly when the room over the new window besides its own contribution is at least its quantity, it makes that the window of the live record |
| `Fabric.ReservationFabric.Transfer` | src/runtime_lifecycle.cpp:225-252 | performs exactly the transfer of the specification |
| `Fabric.ReservationFabric.PublishResource` | src/runtime_core.cpp:30-95 | performs exactly the publication of the specification; a replacement visits every reservation once, in some order |
| `Fabric.ReservationFabric.InvalidateResource` | src/runtime_core.cpp:107-118 | every reservation on the resource that holds capacity must be revalidated, and nothing else changes |
| `Fabric.ReservationFabric.AdvanceGeneration` | src/runtime_core.cpp:119-136 | every live reservation on the resource must be revalidated, nothing else changes, and the number returned is that of all reservations on it that hold capacity |
| `Fabric.ReservationFabric.RevalidateResource` | src/runtime_core.cpp:137-157 | exactly the waiting reservations on the resource become pending and bound to the published generation, nothing else changes, and the number returned is theirs |
| `EffectLaws.Codes` | include/reservation_fabric/lifecycle.hpp:11-85 | which one-byte codes hold capacity, are live and have ended, and the codes of the states the runtime sets |
| `EffectLaws.Units` | include/reservation_fabric/resource.hpp:37-62 | which classes are counted in bytes, in bytes per second and in whole numbers |
| `EffectLaws.TakesIff` | src/impl.hpp:137-141 | headroom, hard or soft, is the largest quantity left at every instant of the window in the span; over no instant it is the largest 64-bit value, without an envelope zero |
| `EffectLaws.TakesBesidesIff` | src/runtime_lifecycle.cpp:150-154 | the headroom a change is checked against is the room at every instant when the reservation's own contribution is not counted |
| `EffectLaws.PeakIff` | include/reservation_fabric/capacity.hpp:75-85 | a peak is the greatest load over the window, hard and held, or with soft; over no instant it is zero |
| `EffectLaws.ContributeLaw` | src/impl.hpp:122-128 | a record not yet flagged comes onto the levels of its own strength over its window and is flagged; nothing else changes |
| `EffectLaws.WithdrawLaw` | src/impl.hpp:129-135 | a flagged record comes off them and loses its flag; nothing else changes |
| `AdmissionLaws.AdmittedIff` | src/runtime_core.cpp:160-227 | a request is admitted if and only if its fields are in order, the reservation recorded for it no longer holds capacity, and some resource it asks for, by identity, class, unit, availability and generation, has room for its quantity, or for its minimum if it allows part; in full if and only if for the whole quantity |
| `AdmissionLaws.ReportedServesBest` | src/runtime_core.cpp:202-227 | the resource reported is one that is asked for and has the room; whatever another one has room for, it has room for, and for one more if the other's identity is smaller |
| `AdmissionLaws.ServesBestIsUnique` | src/runtime_core.cpp:203-212 | at most one resource is of that kind |
| `AdmissionLaws.CommitIff` | src/runtime_commit.cpp:31-46 | a commit is done if and only if the request is in order and not repeated, some resource serves it best, and its hold, if it names one, is acquired on that resource |
| `AdmissionLaws.CommitLaw` | src/runtime_commit.cpp:8-69 | it adds exactly one record under the next identity: the request's quantity, window, strength, owner and terms, on the resource that serves best, bound to its generation, committed, with nothing activated or consumed; the quantity comes onto that resource's levels, the hold off its own; a refused one changes nothing |
| `HoldLaws.GrantedIff` | src/impl.hpp:149-174 | a hold is granted if and only if its fields are in order, there is a place for it and some resource of its kind has hard room for its quantity |
| `HoldLaws.AcquireLaw` | src/impl.hpp:168-190 | it is recorded as asked for, acquired on the resource with most room, for nine hundred seconds, and its quantity held there over its window; a refused one changes nothing |
| `HoldLaws.ReleaseHoldLaw` | src/runtime_core.cpp:285-298 | a release under the hold's own generation takes it off its levels and marks it released, once; any other changes nothing |
| `HoldLaws.ProvisionalLaw` | src/runtime_commit.cpp:71-84 | a rollback leaves a hold released and off its levels, and touches levels only if it had not ended |
| `BundleLaws.BundleLaw` | src/runtime_commit.cpp:101-183 | a bundle is done if and only if every member is admitted to begin with, a hold is granted for each in turn, and each is then committed in turn against its hold; the states in between are given; a refused hold releases those before it, a refused commit cancels what was committed and releases the holds not yet used |
| `BundleLaws.MemberSpecLaw` | src/runtime_commit.cpp:126-134 | the hold of a member asks for the member's own class, unit, quantity, window and owner under the next hold identity |
| `BundleLaws.BundleSetLaw` | src/runtime_commit.cpp:145-183 | the set of a done bundle lists the new reservations in order and belongs to the owner of the first member |
| `BundleLaws.MembersArePlaced` | src/runtime_commit.cpp:154-176 | each member of a done bundle has its own new record with its quantity, window, owner and terms, on an available resource of the identity, class, unit and generation it asks for |
| `LifecycleLaws.ActivateLaw` | src/runtime_lifecycle.cpp:25-61 | a reservation is activated if and only if the evidence is its resource's owner's under the published boot, within the window and not behind, the resource available and not past the bound generation, and the lifecycle committed, pending or activating; past that generation or unavailable it must be revalidated; nothing else changes in any case |
| `LifecycleLaws.ConsumeLaw` | src/runtime_lifecycle.cpp:63-92 | an amount is accepted if and only if the reservation is live, the amount positive, in its unit and no more than what is left, and the evidence the owner's and newer than the last; it is added, and nothing else changes; the last evidence again is a replay |
| `LifecycleLaws.ReleaseLaw` | src/runtime_lifecycle.cpp:94-111 | a reservation that has not ended is released if and only if the evidence is the owner's and not behind; it comes off its levels; an ended one is acknowledged without effect |
| `LifecycleLaws.CancelLaw` | src/runtime_lifecycle.cpp:113-120 | a reservation that has not ended is cancelled and comes off its levels, whatever its resource says |
| `LifecycleLaws.ExpireDueLaw` | src/runtime_lifecycle.cpp:122-137 | after a full walk in any order exactly the reservations that held capacity and whose windows end before now are expired, unflagged and released as of now; every other record is as before |
| `LifecycleLaws.ExpireHoldsLaw` | src/runtime_core.cpp:299-312 | after a full walk in any order exactly the acquired holds whose expiry is before now are expired and off their levels; every other hold is as before |
| `ChangeLaws.ResizeIff` | src/runtime_lifecycle.cpp:139-159 | a resize is accepted if and only if it addresses the live generation, its quantity is positive and in the reservation's unit, its policy not behind, and the room besides the reservation's own contribution is at least the quantity |
| `ChangeLaws.ResizeLaw` | src/runtime_lifecycle.cpp:139-184 | accepted, the live record is the old one with the new quantity and policy under the next generation, committed, with nothing activated or consumed; history ends in the old record, unflagged, within its bound; nothing else changes but the old contribution, which comes off the levels; refused for want of room, the contribution is put back, and refused before that nothing changes |
| `ChangeLaws.RenewIff` | src/runtime_lifecycle.cpp:186-202 | a renewal is accepted if and only if it addresses the live generation, its policy is not behind, and the room over the new window besides the reservation's own contribution is at least its quantity |
| `ChangeLaws.RenewLaw` | src/runtime_lifecycle.cpp:186-223 | likewise with the new window in place of the old one, what was consumed kept |
| `ChangeLaws.TransferLaw` | src/runtime_lifecycle.cpp:225-252 | a transfer is accepted if and only if it addresses the live generation, the reservation allows it, the new owner and its generation are named and the evidence is the resource owner's; the new owner then has the reservation under the next generation, and no level changes |
| `ResourceLaws.EmptyLaw` | src/runtime_core.cpp:7-10 | a new runtime has no record, counters, epoch and authority at one, and a horizon of 365 days unless another is configured |
| `ResourceLaws.EpochLaw` | src/runtime_core.cpp:18-23 | an epoch is taken if and only if it is not behind, and raises the authority |
| `ResourceLaws.PublishIff` | src/runtime_core.cpp:30-60 | which of the five answers a publication gets, from its own fields, the recorded boot and the recorded generation |
| `ResourceLaws.PublishLaw` | src/runtime_core.cpp:30-95 | an accepted publication records the resource field by field; a first one installs an envelope over the horizon with nothing on its levels, at the published capacity except in the windows that are out, and changes nothing else |
| `ResourceLaws.ReplaceLaw` | src/runtime_core.cpp:82-93 | after a replacement, walked in any order, exactly the reservations on the resource that hold capacity are flagged and no longer live; every other record and envelope is as before |
| `ResourceLaws.ReplacedLevels` | src/runtime_core.cpp:82-93 | the levels of the new envelope are what the newly flagged reservations weigh |
| `ResourceLaws.InvalidateLaw` | src/runtime_core.cpp:107-118 | exactly the reservations on the resource that hold capacity must be revalidated, the resource is unavailable, nothing else changes |
| `ResourceLaws.AdvanceLaw` | src/runtime_core.cpp:119-136 | a later generation is taken over with its availability and exactly the live reservations on the resource must be revalidated; nothing else changes |
| `ResourceLaws.RevalidateLaw` | src/runtime_core.cpp:137-157 | a publication not from an earlier boot makes exactly the waiting reservations on the resource pending and bound to the published generation; every other record is as before |
| `ResourceLaws.RevalidatedIsActivated` | src/runtime_core.cpp:149-155 | across operations: a reservation that waited is activated after the revalidation if and only if the evidence is from the publishing worker and boot, within the window and not behind its last activation |
| `ResourceLaws.WaitingIsNotActivated` | src/runtime_lifecycle.cpp:51-55 | no evidence activates a reservation that still waits for revalidation |
| `Crc.Crc32` | include/reservation_fabric/detail/serialization.hpp:18-28 | the two nested loops compute the fold of the register over the bytes |
| `Crc.UnshiftShift` | include/reservation_fabric/detail/serialization.hpp:22-25 | one shift of the register is a bijection |
| `Crc.FourFeeds` | include/reservation_fabric/detail/serialization.hpp:18-28 | feeding four bytes is thirty-two shifts of the register mixed with all four at once |
| `Crc.BurstDetected` | include/reservation_fabric/detail/serialization.hpp:18-28 | two strings of one length, any length, that differ only within four consecutive bytes have different check values, from any seed |
| `Crc.CheckValue` | include/reservation_fabric/detail/serialization.hpp:18-28 | on the standard's check string the register holds the complement of CBF43926 |
| `Codec.WriteRead` | include/reservation_fabric/detail/serialization.hpp:30-112 | any value of a layout's types can be written; it reads back unchanged, whatever bytes follow, if and only if every window in it is not empty, every string and list within its bound and every amount non-negative with a unit, and is refused as corrupt otherwise |
| `Codec.RoundTrip` | include/reservation_fabric/detail/serialization.hpp:30-112 | whatever fits a layout reads back unchanged, with the cursor exactly at its end, whatever bytes follow |
| `Codec.PrefixIsTruncated` | include/reservation_fabric/detail/serialization.hpp:107-109 | every strict prefix of an encoding is rejected as truncated |
| `Codec.AcceptedFits` | include/reservation_fabric/detail/serialization.hpp:61-112 | whatever a reader accepts, from any bytes, can be written again |
| `Codec.AcceptedIsStable` | include/reservation_fabric/detail/serialization.hpp:61-112 | writing what was accepted and reading it again gives the same value |
| `Codec.WindowAcceptedIff` | include/reservation_fabric/time.hpp:137-140 | two written instants read back as a window if and only if the second is later; the writer does not check |
| `Codec.TextAcceptedIff` | include/reservation_fabric/detail/serialization.hpp:72-82 | a written string reads back if and only if it is within the reader's bound; the writer does not check |
| `ByteStreams.ByteWriter.Fixed` | include/reservation_fabric/detail/serialization.hpp:34-35 | shifting out bytes appends the little-endian number |
| `ByteStreams.ByteWriter.Put` | include/reservation_fabric/detail/serialization.hpp:30-60 | the writer appends exactly the encoding of any value of the layout's types, readable or not |
| `ByteStreams.ByteReader.Fixed` | include/reservation_fabric/detail/serialization.hpp:68-69 | or-ing shifted bytes reads the little-endian number and advances past it; too few bytes are an error |
| `ByteStreams.ByteReader.Get` | include/reservation_fabric/detail/serialization.hpp:61-112 | the reader returns exactly what the layout decodes to from its cursor and advances past it |
| `Records.ReservationFitsIff` | src/runtime_persist.cpp:60-108 | a reservation in its machine ranges can always be written and can be read back exactly when its window is not empty, its amounts are sound and its provenance is within the bound |
| `Records.ReservationRoundTrip` | src/runtime_persist.cpp:60-108 | every field of a reservation survives, and a prefix is truncated |
| `Records.HoldRoundTrip` | src/runtime_persist.cpp:110-127 | likewise every field of a hold that is written |
| `Records.SetRoundTrip` | src/runtime_persist.cpp:129-143 | likewise a reservation set with its member list |
| `Records.ResourceRoundTrip` | src/runtime_persist.cpp:42-58 | likewise a resource with its envelope's span and ratio |
| `Records.RequestRoundTrip` | src/protocol.cpp:99-144 | likewise a request, optional fields included |
| `Records.PublicationRoundTrip` | src/protocol.cpp:146-165 | likewise a publication with its unavailable windows and their reasons |
| `Records.ReportRoundTrip` | src/protocol.cpp:167-204 | likewise a feasibility report with its three lists and two optional intervals |
| `Framing.Send` | src/protocol.cpp:43-59 | a frame is encoded as specified and an oversized payload refused |
| `Framing.FrameDecoder.Push` | src/protocol.cpp:61-86 | a push takes at most the one frame at the front off the buffer and otherwise leaves what arrived in it |
| `Framing.Deliver` | src/protocol.cpp:61-86 | pushing a chunk and draining with empty pushes delivers exactly the frames complete so far |
| `Framing.ScanPrefix` | src/protocol.cpp:64-75 | a strict prefix of an encoded frame is never rejected |
| `Framing.ChunkingDoesNotMatter` | src/protocol.cpp:61-86 | frames, leftover and verdict depend only on the bytes, not on how they were cut into chunks |
| `Framing.StreamIsDelivered` | src/protocol.cpp:43-86 | for every list of frames and every chunking of their encodings exactly that list is delivered, with nothing left |
| `Framing.PartialStream` | src/protocol.cpp:61-86 | until the stream is complete, exactly the whole frames are delivered and a strict prefix of the next is buffered |
| `Framing.EveryCutIsPartial` | src/protocol.cpp:61-86 | every proper prefix of a stream is whole frames followed by a strict prefix of the next |
| `Framing.BrokenForGood` | src/protocol.cpp:72-80 | once a stream is malformed, no further bytes mend it and no frame follows |
| `Framing.BrokenStaysBroken` | src/protocol.cpp:61-86 | over whole runs: once the chunks that arrived broke the decoder, any further chunks leave it broken with the same frames delivered |
| `Framing.BurstIsRejected` | src/protocol.cpp:76-80 | a frame whose type and payload were altered only within four consecutive bytes is rejected, whatever follows |
| `Framing.BadCheckIsRejected` | src/protocol.cpp:76-80 | a frame whose check value alone was altered is rejected |
| `Persistence.EntriesRoundTrip` | src/runtime_persist.cpp:181-202 | a map written in any enumeration order is the map that is read |
| `Persistence.RawReads` | src/runtime_persist.cpp:237-279 | every field of every record and every map survives a save, empty histories excepted |
| `Persistence.LoadRestores` | src/runtime_persist.cpp:147-171 | after a load the envelopes mirror the registry, whether or not they did before the save, whatever orders the maps are walked in |
| `Persistence.RecoveryIsExact` | src/runtime_persist.cpp:147-286 | if flags match lifecycles and the envelopes mirrored the registry, a load after a save changes only live lifecycles, the configuration and empty histories; the envelopes come back exactly if and only if no unavailable window was published |
| `Persistence.LoadAcceptsIff` | src/runtime_persist.cpp:175-286 | a saved registry in its machine ranges is accepted again if and only if no stored window is empty, no string or collection over its bound, no amount negative or without a unit, every envelope can be initialized and the payload's length fits 32 bits; the save checks none of it |
| `Counterexamples.EmptyWindowCannotBeLoaded` | include/reservation_fabric/request.hpp:140-157 | one commit of an empty window from an empty runtime: every guard holds, every field is in its machine range, and no file saved then is accepted |
| `Flags.FlagsStepIff` | src/runtime_lifecycle.cpp:25-61 | an operation keeps the contribution flag in agreement with the lifecycle if and only if it is none of four branches on a record that has ended: an activation of an overtaken resource, an accepted transfer, a refused resize or renewal |
| `Flags.FlagsAlongIff` | src/runtime_lifecycle.cpp:25-252 | they agree in every state along a run if and only if no operation of the run takes such a branch |
| `Counterexamples.RevivedFlagsDisagree` | src/runtime_lifecycle.cpp:32-44 | two cancelled reservations activated while their resource is unavailable: they count as holding capacity and contribute nothing |
| `Recovery.RecoveryAfterRun` | src/runtime_persist.cpp:175-286 | at the end of any guarded run from an empty runtime that takes none of these branches, with fields in their machine ranges: what is saved is accepted again exactly when it is readable, and then changes only as above |
| `Recovery.LoadedIsFenced` | src/runtime_persist.cpp:147-171 | whatever is loaded satisfies the evidence and metering invariants, and the recorded boots theirs if they did before the save |
| `Recovery.RecoveryResumes` | src/runtime_persist.cpp:147-171 | with no unavailable windows the reloaded registry is consistent again, so every run result applies to it, if and only if no history is longer than the default bound; no reservation is live in it |
| `Counterexamples.LongHistoryOutlivesItsBound` | src/runtime_persist.cpp:147-171 | sixty-five transfers under a configured bound of a hundred, saved and loaded: the history is longer than the bound it is loaded under |
| `Lengths.ModestIsSized` | src/runtime_persist.cpp:204-214 | a registry of at most two hundred entries a map, generations a history and members a set, with short provenance, always has a payload whose length fits its four bytes |
| `Recovery.KeptStep` | src/runtime_persist.cpp:42-48 | every operation, guarded or not, keeps records filed under their identities and envelopes those of their resources |
| `Persistence.WrongLengthIsRejected` | src/runtime_persist.cpp:220-233 | a saved file cut short anywhere, or with anything appended, is refused |
| `Persistence.CorruptFileIsRejected` | src/runtime_persist.cpp:234-235 | a saved file whose payload was altered only within four consecutive bytes is refused |
| `Persistence.SaveFile` | src/runtime_persist.cpp:175-214 | writes exactly the specified file, for any registry in its machine ranges |
| `Persistence.LoadFile` | src/runtime_persist.cpp:216-286 | reads, checks and re-applies exactly as specified; what it accepts starts with the magic and the version |
| `LayoutLaws.Limits` | include/reservation_fabric/detail/serialization.hpp:106 | the bounds of strings, frames, saved collections and message lists as numbers |
| `LayoutLaws.EightIs` | include/reservation_fabric/detail/serialization.hpp:35-36 | a 64-bit number is its eight bytes lowest first, a negative one those of the number below its opposite with every bit flipped |
| `LayoutLaws.ReservationWrites` | src/runtime_persist.cpp:60-79 | the bytes of a reservation are its fields' in exactly this order |
| `LayoutLaws.HoldWrites` | src/runtime_persist.cpp:110-116 | likewise of a hold |
| `LayoutLaws.SetWrites` | src/runtime_persist.cpp:129-134 | likewise of a set |
| `LayoutLaws.ResourceWrites` | src/runtime_persist.cpp:42-48 | likewise of a resource with its envelope's span and ratio |
| `LayoutLaws.RequestWrites` | src/protocol.cpp:99-121 | likewise of a request |
| `LayoutLaws.PublicationWrites` | src/protocol.cpp:146-154 | likewise of a publication |
| `LayoutLaws.ReportWrites` | src/protocol.cpp:167-188 | likewise of a feasibility report |
| `FileLaws.SavedBytes` | src/runtime_persist.cpp:175-208 | a saved registry is its thirteen header bytes and then exactly the counters and the eight counted lists in this order |
| `FileLaws.AcceptedIffSealed` | src/runtime_persist.cpp:220-235 | any bytes are accepted with a payload if and only if they are 42 41 46 52 01, the payload's length, its check value and the payload, of at least three bytes |
| `FileLaws.LoadedIsSealed` | src/runtime_persist.cpp:220-235 | whatever loads starts with exactly 42 41 46 52 01, states the length of the rest and the check value of the rest |
| `FileLaws.OtherHeadIsRejected` | src/runtime_persist.cpp:222-235 | a saved file with any change in its thirteen header bytes is refused |
| `FileLaws.LoadedIff` | src/runtime_persist.cpp:237-285 | an accepted payload loads if and only if it is one value of the layout with nothing after it and every resource in it can be given an envelope |
| `FileLaws.LoadedLaw` | src/runtime_persist.cpp:147-286 | a saved registry comes back with every record, flagged exactly when its lifecycle holds capacity and no longer live, without empty histories, under the default configuration, its envelopes over the spans they had at full capacity |
| `FileLaws.FoundIff` | src/protocol.cpp:61-86 | the decoder takes a frame off a buffer if and only if the buffer starts with 46 42 46 52 01, the type, the payload's length, its check value and the payload, within the bound |
| `FileLaws.WaitsIff` | src/protocol.cpp:64-75 | it waits if and only if the header is incomplete, or magic, version and length are right and the payload incomplete; else the stream is broken |
| `FileLaws.SentBytes` | src/protocol.cpp:43-59 | what is sent are those bytes |

## Left out

- Sockets, threads, processes, CUDA, the command line, benchmarks and file access: input and output; saving and loading are functions on bytes.
- Locks: each public call is one atomic step. Time is an argument.
- Running time of the treap: hash priorities have no worst-case bound; shape and counts are proved instead.
- The spans of `origin + horizon` and of unavailable windows are not checked for 64-bit overflow.
- Generations and counters are unbounded: the error on a generation of 2^64 - 1 and the wrap-around of counters are not modelled.
- Fabric.ReservationFabric: holds its envelopes at the value their contract promises, not as envelope objects; `Envelopes.CapacityEnvelope` is proved against the same value.
- Fabric.ReservationFabric.AssessOne: only the verdict and, when it admits, the resource; the typed rejection reasons, the bottleneck a capacity rejection names and the list of conflicting reservations are not modelled.
- Persistence.SaveFile: is specified for fields in their machine ranges; a string or collection of 2^32 entries or more, whose count the code truncates, is not.
- Persistence.LoadFile: every failure is one refusal, its messages are not told apart; it also refuses a stored horizon below zero, which the code accepts.
- IntervalAggregators.IntervalAggregator.Initialize: a negative horizon is accepted, as in the code, but nothing is promised of the cell it leaves, which ends before it starts.
- Envelopes.CapacityEnvelope.Init: likewise accepts a negative horizon and promises nothing of the envelope then.
- Fabric.ReservationFabric.constructor: a configured horizon below zero, which the code stores, is not modelled.
- ByteStreams.ByteWriter.Put: one method driven by a layout stands for the field-by-field writers, and `Get` for the readers; the layouts list the fields in their order.
- Result and evidence messages of the protocol: they are flat records of fields already covered.
- Enumerations are their one-byte codes; an unknown code is carried, as in the code.
- Bundle completeness and at most one live reservation per request identity: the code does not provide them.
- Terminal lifecycles are not claimed to be absorbing, nor resource generations to be monotone through revalidation: the code does not provide that.
- The transition table, name tables, plain getters and the inventory dump: easy, and the runtime never consults the table.
