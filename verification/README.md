# BTB-Ferret: a verified model

A Dafny model of the algorithmic cores of BTB-Ferret: the multi-level branch
target buffer with its prefetcher, the checkpoint and trace tools around the
simulator, and the load generator. `dafny verify dfyconfig.toml` checks all of it.

## What is modelled

**The branch target buffer** (`BtbModel`, `BtbRuns`). The hierarchy of L1, prefetch
buffer, L2 and optional L3, exclusive or not, with lookups, updates, training at lookup
and at commit, deferred prefetch chains and Markov prefetches, is a state machine; every
choice of the replacement policies is an argument of the operations, and `Realistic`
says which choices the arrays allow. `AssociativeCache` is the array that a level
abstracts. What is proved over all runs: coherence (`BtbCoherence`), when a commit is
safe (`BtbHazard`), how much a chain prefetches (`BtbChains`), how long lookups take
and when they throw (`BtbPrefetch`), which successors are prefetched (`BtbPolicy`), what
moves between levels (`BtbContents`) and which levels hold a branch at once
(`BtbInclusion`). `BtbScenario`, `BtbExamples` and `BtbBudgetExample`
hold concrete runs from the empty buffer. `MultiLevelBtb` is the imperative form: it
refines the state machine operation by operation and carries these results as its
invariant.

**Checkpoint migration** (`MigrationSchedule`, `CptUpgrader`). The registry builds the
dependency graph from the script files; the loop applies ready migrations round by round.

**The pipeline viewer** (`PipeView`, `Timeline`). The reorder window and the drawing
of one instruction's timeline.

**Trace and message formats** (`Bits`, `Protolib`, `Text`, `DepTrace`). Varints and
length-delimited messages, following the section "Base 128 Varints" of the Protocol
Buffers encoding; the instruction dependency trace as text.

**The load generator** (`JobRunner`). Workers, channel and collector as a transition
system over all interleavings.

**Checkpoint aggregation** (`Aggregator`), **copyright years and blocks** (`Dates`,
`CopyrightBlocks`), **the latency sweep** (`LatMemRd`), **GPU TLB wiring** (`GpuTlb`)
and **the rolling log** (`Logroll`).

## Where code and documentation disagree

The model follows the code; each of these is a theorem below.

- A branch target buffer update leaves a copy of the branch in the prefetch buffer as
  it was. When its target differs, a later lookup can answer with the old target.
  `UpdateSafeIff` gives the exact condition, `ConflictingCommitIsLost` a run.
- The Markov prefetcher charges a prefetch more than the latency of L2, so the
  subtraction that computes the cycles saved can go below zero and throw.
  `LookupThrowsIff` says exactly when, `LookupAfterMarkovThrows` gives a run.
- The exclusive hierarchy is to be kept non-redundant, but a commit and a hit in the
  prefetch buffer leave the copy in L2 or L3; the other hierarchy is to keep L2 inside L3,
  but L3 can give up a branch of L2. `RunsKeepPromiseIff` says exactly which operations do
  it, `CommitDuplicates` and `EvictionUncovers` give runs.
- A trigger that follows both successors can lead to more prefetches than the configured
  depth (`ChainsStayWithinBudget`, `BudgetIsReached`).
- `gem5/util/cpt_upgrader.py:56-61` says that depending on a downgraded tag means that
  the tag is removed first; the readiness test asks for it to be present.
  `DowngradesComeFirstIff` says when the two agree.
- A message of length zero is read as the end of the stream (`StreamRoundTrip`), and
  lengths are cut to 32 bits (`MessageRoundTripIff`).
- Printed year ranges are read back only when neighbouring years have four digits
  (`DatesRoundTripIff`).
- Aggregated addresses are right only behind complete memories (`WindowAtBaseIff`).
- A rolling log with a target that is not positive keeps every line (`Roll`), and a
  comment block that ends with the file is not reported (`FindLineBlocks`).
- A tag with both an upgrader and a downgrader can make the migration fail on a tag that
  the checkpoint does not have (`Migrate`, `TagUsedTwiceFails`).
- A negative concurrency that divides the number of jobs starts no worker and waits
  forever (`FinishesIff`).

## Model

| member | source | states |
|---|---|---|
| BtbCoherence.LookupsFindCommittedTargets | gem5/src/cpu/pred/multilevel_btb.cc:363-441 | over every run from the empty buffer in which no update contradicts the prefetch buffer, for any set of branches that the tags of every level tell apart and any choice of the replacement policies: a lookup that finds a branch anywhere in the hierarchy answers with the target committed last for it |
| BtbCoherence.StepKeepsCoherence | gem5/src/cpu/pred/multilevel_btb.cc:363-1535 | the invariant behind it: lookups with their prefetches, updates, training, direction updates, prefetch cycles and invalidations all keep the first copy a lookup would find up to date |
| BtbCoherence.RunKeepsCoherence | gem5/src/cpu/pred/multilevel_btb.cc:363-1535 | the same over whole runs |
| BtbCoherence.UpdateKeepsCoherence | gem5/src/cpu/pred/multilevel_btb.cc:510-543 | committing a target makes it the one every lookup of the branch finds, and disturbs no other branch |
| BtbCoherence.FreeUpKeepsCoherence | gem5/src/cpu/pred/multilevel_btb.cc:1143-1219 | making room in L1 (demotion to L2, spill to L3, mirroring) keeps a newer copy in front of every older one |
| BtbCoherence.FirstHitIsFresh | gem5/src/cpu/pred/multilevel_btb.cc:363-441 | in a coherent hierarchy the first level that hits holds the committed target and the branch itself |
| BtbCoherence.PromoteKeepsCoherence | gem5/src/cpu/pred/multilevel_btb.cc:553-823 | moving what a lookup found to L1 keeps the hierarchy coherent, from the buffer, L2 and L3, exclusive or not |
| BtbCoherence.FillKeepsCoherence | gem5/src/cpu/pred/multilevel_btb.cc:284-326 | a copy that enters the prefetch buffer has the committed target and hides none |
| BtbCoherence.LookupForgetsOnlyLastVictims | gem5/src/cpu/pred/multilevel_btb.cc:553-823 | a lookup forgets no branch except the victims that leave the last level, and what it finds is in L1 afterwards |
| BtbCoherence.UpdateForgetsOnlyLastVictims | gem5/src/cpu/pred/multilevel_btb.cc:510-543 | the same for an update |
| BtbHazard.UpdateSafeIff | gem5/src/cpu/pred/multilevel_btb.cc:510-543 | after every possible guarded run from the empty buffer: an update leaves every possible continuation with the committed targets if and only if the prefetch buffer does not contradict it, or the set of L1 that the branch uses has a way for every branch of the program that uses it; the code does not drop the contradicted copy |
| BtbHazard.PushOutEventually | gem5/src/cpu/pred/multilevel_btb.cc:510-543 | the failing family, constructively: further updates fill the set and push the branch out of L1, by victims the arrays can give up, and the next lookup finds the old target in the buffer |
| BtbHazard.MaskedRunKeepsCoherence | gem5/src/cpu/pred/multilevel_btb.cc:363-1535 | the safe half: over every possible run, a branch of a set with room for all stays in front of its contradicted copy |
| BtbHazard.StepFits | gem5/src/cpu/pred/multilevel_btb.cc:1143-1219 | with possible victims no set of L1 ever holds more branches than it has ways |
| BtbExamples.ConflictingCommitIsLost | gem5/src/cpu/pred/multilevel_btb.cc:510-543 | a concrete run from the empty buffer: commit A, demote it, prefetch it, commit another target, push A out of L1; the lookup answers with the first target |
| BtbExamples.UnsafeCommitExists | gem5/src/cpu/pred/multilevel_btb.cc:510-543 | the same through the general result: its premises hold after a concrete guarded run, and the commit is not safe |
| BtbChains.ChainsStayWithinBudget | gem5/src/cpu/pred/multilevel_btb.cc:1274-1535 | over every run, however chains compete for tracker slots, a trigger leads to at most its budget of prefetches: the depth (at least one), and one more when both successors may be followed, or two more when a level below answers at once and the depth is above one; and the deferred queue stays in issue order |
| BtbChains.StepKeepsBudget | gem5/src/cpu/pred/multilevel_btb.cc:1274-1535 | the invariant behind it, for each operation: what a chain has issued, what its slot has left and the order of its pending entries |
| BtbChains.JoinOk | gem5/src/cpu/pred/multilevel_btb.cc:1366-1535 | followers never get in front of a second allocating entry of their chain, except in the cycle it is due at latency zero |
| BtbBudgetExample.BudgetIsReached | gem5/src/cpu/pred/multilevel_btb.cc:1366-1535 | a concrete run from the empty buffer in which a chain issues depth plus one prefetches, another chain having taken its slot in between |
| BtbChains.NewPBitsPickOne | gem5/src/cpu/pred/multilevel_btb.cc:1027-1120 | the two-bit policy never follows both successors |
| BtbChains.DueSplits | gem5/src/cpu/pred/multilevel_btb.cc:1385-1393 | the queue prefix that is taken out is exactly the set of entries that are due |
| BtbPrefetch.LookupThrowsIff | gem5/src/cpu/pred/multilevel_btb.cc:598-705 | over every run: a lookup throws if and only if it hits a copy of the Markov prefetcher, made in cycle t0 with extra delay b, before cycle t0 + b, latency being modelled; any other hit in the buffer waits no longer than its source would have taken |
| BtbPrefetch.PrefetchNeverDelays | gem5/src/cpu/pred/multilevel_btb.cc:598-705 | hence never without the Markov prefetcher |
| BtbPrefetch.LookupsAnswerExactly | gem5/src/cpu/pred/multilevel_btb.cc:363-441 | over every run, said by where the branch is: a hit in L1, L2 or L3 takes exactly the latency of that level; a hit in the buffer takes the least number of cycles after which the copy has arrived, none when latency is not modelled; and a lookup panics or throws in no other case |
| BtbPrefetch.ChainCopiesAnswerOnTime | gem5/src/cpu/pred/multilevel_btb.cc:598-705 | over every run, a copy of the chain prefetcher is answered exactly at the later of now and its issue time plus the latency of the level it came from |
| BtbPrefetch.MarkovAfterL2HitThrows | gem5/src/cpu/pred/multilevel_btb.cc:768-771 | whatever the Markov prefetcher brings along with a hit in L2 throws when it is looked up within the latency of L2 |
| BtbPrefetch.MarkovCharges | gem5/src/cpu/pred/multilevel_btb.cc:825-916 | every copy along a Markov chain is charged at least what its trigger was charged |
| BtbExamples.LookupAfterMarkovThrows | gem5/src/cpu/pred/multilevel_btb.cc:825-916 | a concrete run from the empty buffer after which a lookup throws |
| BtbPolicy.LookupFollowsPolicy | gem5/src/cpu/pred/multilevel_btb.cc:363-441 | after every lookup, said of the queue without the decision functions: which successor of the branch was deferred, for which chain, depth and time, under the two-bit policy (exit of a forward loop, fall-through of a call, exit of a backward loop, the other way of a conditional) and under the trained bits, when it was silent, and that the branch counts as demanded |
| BtbPolicy.TriggerFollowsPolicy | gem5/src/cpu/pred/multilevel_btb.cc:1027-1120 | the same for one trigger: the queue gains exactly the successors of the policy and nothing else, and the next trigger remembers whether this branch went backward and missed L1 |
| BtbPolicy.ProcessOneDoes | gem5/src/cpu/pred/multilevel_btb.cc:1366-1535 | a due entry is issued exactly when its chain has budget or may open a slot, the branch was not demanded in this cycle, is neither in L1 nor in the buffer and a level below has it; then the copy, its arrival, the slot that pays and the followers that are deferred |
| BtbPolicy.WithAddsOne | gem5/src/cpu/pred/multilevel_btb.cc:1318-1364 | deferring adds exactly the one entry and keeps issue order |
| BtbContents.PromotionKeepsContents | gem5/src/cpu/pred/multilevel_btb.cc:598-823 | what moves to L1 is the branch that was found, with its target, kind and counter, and with its bits unless promotion cleans them |
| BtbContents.PromotionTakesCopy | gem5/src/cpu/pred/multilevel_btb.cc:598-823 | the copy that moved up is gone from the buffer, and from L2 or L3 in the exclusive hierarchy; the other hierarchy keeps it |
| BtbContents.DemotionKeepsContents | gem5/src/cpu/pred/multilevel_btb.cc:1143-1219 | the victim of L1 arrives in L2, and in L3 when it is mirrored, as it was; a fall-through bit already set there stays |
| BtbContents.SpillKeepsContents | gem5/src/cpu/pred/multilevel_btb.cc:1160-1192 | the victim of L2 arrives in L3 in the same way |
| BtbContents.UpdateCommits | gem5/src/cpu/pred/multilevel_btb.cc:510-543 | the entry a commit leaves in L1: a new branch with its target bit when bits are used, a known one with its bits, and both bits set for an indirect branch that changes its target |
| BtbContents.NextBlockTrains | gem5/src/cpu/pred/multilevel_btb.cc:363-441 | two lookups in a row: the first branch gets its target bit exactly when the second block begins at the target answered, its fall-through bit exactly when it begins behind the branch |
| BtbContents.LookupRunsMarkov | gem5/src/cpu/pred/multilevel_btb.cc:598-786 | the Markov prefetcher runs exactly after hits in the buffer and in L2, charged the latency the lookup answered |
| BtbContents.PicksFirst | gem5/src/cpu/pred/multilevel_btb.cc:866-915 | it picks the first successor that is in L2 but neither in L1 nor in the buffer, and counts those before it that were there already |
| BtbContents.HopCopies | gem5/src/cpu/pred/multilevel_btb.cc:825-916 | the copy is that of L2, arriving after the latency of L2, what the trigger took and a cycle per successor counted |
| BtbContents.MarkovReaches | gem5/src/cpu/pred/multilevel_btb.cc:825-916 | and so on along the table, each hop charged what the one before it was, up to the depth |
| BtbInclusion.StepNonRedundantIff | gem5/src/cpu/pred/multilevel_btb.cc:736-750 | the exclusive hierarchy is meant to hold a branch once: an operation keeps that if and only if it does not bring a branch to L1, by a commit or from the buffer, past a copy in L2 or L3 that making room does not push out |
| BtbInclusion.StepInclusiveIff | gem5/src/cpu/pred/BranchPredictor.py:289-292 | the other hierarchy is meant to keep L2 inside L3: an operation keeps that if and only if it does not make L3 give up a branch that stays in L2 |
| BtbInclusion.RunsKeepPromiseIff | gem5/src/cpu/pred/multilevel_btb.cc:363-1535 | over every run from the empty buffer: the promise of the configured hierarchy holds throughout if and only if no operation of the run is of that kind |
| BtbInclusion.InstallNonRedundantIff | gem5/src/cpu/pred/multilevel_btb.cc:1143-1219 | the case of making room, with the copies that leave L1, L2 and L3 |
| BtbExamples.CommitDuplicates | gem5/src/cpu/pred/multilevel_btb.cc:510-543 | a concrete run after which a branch is in L1 and in L2 of an exclusive hierarchy |
| BtbExamples.EvictionUncovers | gem5/src/cpu/pred/multilevel_btb.cc:1143-1219 | a concrete run after which a branch of L2 is not in L3 |
| BtbPrefetch.StepOnTime | gem5/src/cpu/pred/multilevel_btb.cc:284-326 | no operation leaves a chain prefetch that arrives later than a fetch from its source started now |
| BtbPrefetch.ValidBranchesAreFound | gem5/src/cpu/pred/multilevel_btb.cc:328-354 | after every run, the quick check reports a branch if and only if the lookup finds it, so the panic at the end of the lookup is unreachable behind the check |
| MultiLevelBtb.LookupAnswersRight | gem5/src/cpu/pred/multilevel_btb.cc:363-441 | in every state that operations reach: a lookup panics exactly for a branch that the quick check does not report, throws exactly for a Markov copy still too far away, and otherwise answers with the committed target after exactly the latency of its level or the cycles its copy still needs |
| MultiLevelBtb.StepKeepsSound | gem5/src/cpu/pred/multilevel_btb.cc:363-1535 | budget, arrival times and the absence of unwanted prefetches are kept by every operation |
| MultiLevelBtb.MultiLevelBTB.constructor | gem5/src/cpu/pred/multilevel_btb.cc:192-265 | an empty hierarchy, coherent for any branches that are told apart |
| MultiLevelBtb.MultiLevelBTB.MemInvalidate | gem5/src/cpu/pred/multilevel_btb.cc:267-282 | no branch is found afterwards, nothing is deferred and no chain has a slot; the invariants are kept |
| MultiLevelBtb.MultiLevelBTB.Update | gem5/src/cpu/pred/multilevel_btb.cc:510-543 | the target is in L1 and is the committed one, with the kind, counter and bits a commit leaves; coherence is kept unless the prefetch buffer contradicts it |
| MultiLevelBtb.MultiLevelBTB.FreeUpL1Entry | gem5/src/cpu/pred/multilevel_btb.cc:1143-1219 | demotes the L1 victim to L2, spills the L2 victim to L3 and mirrors in the non-exclusive hierarchy |
| MultiLevelBtb.MultiLevelBTB.LowerBound | gem5/src/cpu/pred/multilevel_btb.cc:1356-1363 | the binary search for the insertion point: everything before is earlier, nothing from there on is |
| MultiLevelBtb.MultiLevelBTB.PrefetchViaBBMap | gem5/src/cpu/pred/multilevel_btb.cc:1318-1364 | defers the prefetch of the branch that ends a basic block, at its place in issue order, unless no level below has it |
| MultiLevelBtb.MultiLevelBTB.TryInitialTrigger | gem5/src/cpu/pred/multilevel_btb.cc:1274-1316 | a chain opens exactly along the successors of the policy, stated on the queue and not through the decision functions |
| MultiLevelBtb.MultiLevelBTB.ProcessEntry | gem5/src/cpu/pred/multilevel_btb.cc:1366-1535 | one due entry: when it is issued, what is copied and when it arrives, which slot pays, and which followers are deferred |
| MultiLevelBtb.MultiLevelBTB.ProcessDeferredPrefetchQueue | gem5/src/cpu/pred/multilevel_btb.cc:1366-1535 | one cycle: all due entries in order, then no branch counts as demanded; no chain exceeds its budget, and coherence is kept |
| MultiLevelBtb.MultiLevelBTB.PickMarkovSuccessor | gem5/src/cpu/pred/multilevel_btb.cc:866-915 | the loop over the successors picks the first that is in L2 but neither in L1 nor in the buffer, and counts those that are there already |
| MultiLevelBtb.MultiLevelBTB.PrefetchMarkovSuccessor | gem5/src/cpu/pred/multilevel_btb.cc:825-916 | the recursion along the Markov table fills the buffer as the state machine does |
| MultiLevelBtb.MultiLevelBTB.LookupWithLatency | gem5/src/cpu/pred/multilevel_btb.cc:363-441 | a lookup: an answer carries the committed target and exactly the latency of the level, or the wait for the copy, and leaves the branch in L1; the queue gains the successors of the policy; exactly when it panics or throws, and the state also then |
| MultiLevelBtb.MultiLevelBTB.IsValid | gem5/src/cpu/pred/multilevel_btb.cc:328-354 | the quick check reports exactly the branches that a lookup finds |
| AssociativeCache.SetAndTag | gem5/src/cpu/pred/btb_entry.hh:92-130 | set and tag of an address, as the bits are extracted, are set and tag of its line number modulo the lines told apart, which lets a level be a map |
| AssociativeCache.Cache.FindEntry | gem5/src/base/cache/associative_cache.hh:216-230 | scanning the ways of a set finds a line exactly when the abstract level holds it, with its entry |
| AssociativeCache.Cache.FindVictim | gem5/src/base/cache/associative_cache.hh:236-254 | what is given up for a line is nothing while its set has a free way, and otherwise one of the keys of that set |
| AssociativeCache.Cache.Invalidate | gem5/src/base/cache/associative_cache.hh:260-265 | removes exactly the key that the way held |
| AssociativeCache.Cache.InsertEntry | gem5/src/base/cache/associative_cache.hh:236-284 | the level gains the line and loses exactly the victim; no tag occurs twice in a set |
| MigrationSchedule.AbortsIffCycle | gem5/util/cpt_upgrader.py:257-269 | with upgrader-only dependences the loop terminates, and aborts if and only if some nonempty set of pending tags has every member depending on a member |
| MigrationSchedule.CompletesIffLayered | gem5/util/cpt_upgrader.py:257-269 | for all dependences: everything is applied if and only if the pending tags can be put in layers without a gap, each tag ready when its layer is applied and not before |
| MigrationSchedule.AbortsIffBlocked | gem5/util/cpt_upgrader.py:144-148 | unless pending tags depend on tags about to be downgraded, it aborts if and only if some set of pending tags blocks itself |
| MigrationSchedule.AcyclicNeverAborts | gem5/util/cpt_upgrader.py:257-269 | a graph that can be numbered topologically is always migrated completely |
| MigrationSchedule.RoundsCover | gem5/util/cpt_upgrader.py:257-269 | what is applied and what is left over partition the pending tags |
| MigrationSchedule.RoundsAreProper | gem5/util/cpt_upgrader.py:257-269 | every round makes progress and no tag is in two rounds |
| MigrationSchedule.DepsInForce | gem5/util/cpt_upgrader.py:144-158 | a migration runs only when all its dependences are in the tag set |
| MigrationSchedule.RunTags | gem5/util/cpt_upgrader.py:150-158 | the final tags of every run, completed or not |
| MigrationSchedule.CompletedRun | gem5/util/cpt_upgrader.py:257-275 | on success the tags are (initial union tag_set) minus untag_set, and a rerun finds nothing to apply |
| MigrationSchedule.DowngradesFindTheirTag | gem5/util/cpt_upgrader.py:150-158 | no downgrade ever removes an absent tag |
| MigrationSchedule.TagsStayClosed | gem5/util/cpt_upgrader.py:257-269 | from a dependency-closed tag set, every intermediate tag set of an upgrade-only run is dependency-closed |
| MigrationSchedule.EveryOrderRespectsDeps | gem5/util/cpt_upgrader.py:257-269 | whatever order the ready sets are iterated in, each pending migration runs exactly once and after all its dependences |
| MigrationSchedule.DowngradesComeFirstIff | gem5/util/cpt_upgrader.py:56-61 | the documented meaning of depending on a downgraded tag (it is gone first) holds if and only if no pending migration names a downgraded tag and nothing is blocked |
| MigrationSchedule.RemovedDependenceAborts | gem5/util/cpt_upgrader.py:144-148 | the counterexample: a migration that depends on an already removed tag is never applied, and one that depends on a tag still there runs beside its removal |
| CptUpgrader.Registry.Register | gem5/util/cpt_upgrader.py:96-142 | registers one script file; the tables stay complete: every tag and legacy version of every file is found, the last file winning |
| CptUpgrader.Registry.LinkLegacy | gem5/util/cpt_upgrader.py:171-175 | chains the legacy versions; fails exactly when version 3 exists and version 2 does not |
| CptUpgrader.Registry.ResolveForward | gem5/util/cpt_upgrader.py:177-192 | succeeds if and only if every name used is registered; then each list holds what it held plus every script that named it, in any iteration order |
| CptUpgrader.Registry.LoadAll | gem5/util/cpt_upgrader.py:164-192 | the graph handed to the loop is the legacy chain, the declared and the reversed forward dependences, over registered tags only; and when loading succeeds |
| CptUpgrader.Registry.LegacyTagsFollowChain | gem5/util/cpt_upgrader.py:226-228 | a converted legacy version is closed under the chain that loading builds |
| CptUpgrader.Registry.ConvertLegacy | gem5/util/cpt_upgrader.py:221-232 | succeeds if and only if all versions from 2 on are known, and then gives exactly the tags of the scripts that name one of them; otherwise the first version that is unknown |
| CptUpgrader.Registry.CompletedIsMigrated | gem5/util/cpt_upgrader.py:213-279 | a finished migration applied, each once and after its dependences, exactly the upgrades the checkpoint lacked and the downgrades of tags it had, and the tags written are those of the checkpoint so changed |
| CptUpgrader.Registry.ApplyRound | gem5/util/cpt_upgrader.py:257-269 | one round, in any order, has the effect of the whole set at once |
| CptUpgrader.Registry.Migrate | gem5/util/cpt_upgrader.py:257-269 | the loop, for every iteration order, does the rounds of the schedule, unless one of them downgrades a tag that the checkpoint does not have; then it fails on such a tag |
| CptUpgrader.NoneMissing | gem5/util/cpt_upgrader.py:150-158 | which cannot happen when no tag has both an upgrader and a downgrader |
| CptUpgrader.TagUsedTwiceFails | gem5/util/cpt_upgrader.py:150-158 | and does happen when one has |
| CptUpgrader.Registry.ProcessFile | gem5/util/cpt_upgrader.py:213-279 | which of the outcomes every checkpoint has, the failing ones included; what is written is the checkpoint migrated, with every upgrade of a later legacy version |
| PipeView.PrintedInOrder | gem5/util/o3-pipeview.py:45-56 | if no instruction is overtaken by more than min_threshold larger sequence numbers, the whole output over all flushes is sorted |
| PipeView.WindowSortsEverything | gem5/util/o3-pipeview.py:212-244 | under the same condition the windowed output is the stable sort of the whole trace |
| PipeView.BoundIsTight | gem5/util/o3-pipeview.py:45-56 | for every choice of thresholds, one place more can break the order, and without filters the output shows it |
| PipeView.QueueContents | gem5/util/o3-pipeview.py:212-227 | over any run nothing is lost or duplicated, and the queue never exceeds max_threshold |
| PipeView.PrintsWhatIsWanted | gem5/util/o3-pipeview.py:231-277 | each retired instruction is printed as often as it was retired if its sequence number and fetch tick are in the requested ranges and it committed when only those are wanted, and not at all otherwise |
| PipeView.SortFirstSorts | gem5/util/o3-pipeview.py:231-241 | the sort used is a sort |
| PipeView.SortContents | gem5/util/o3-pipeview.py:231-241 | and a permutation |
| PipeView.Viewer.PrintInsts | gem5/util/o3-pipeview.py:231-277 | sorting, popping and filtering the queue in place is the flush of the specification |
| PipeView.Viewer.QueueInst | gem5/util/o3-pipeview.py:212-227 | queueing with a flush at the upper threshold |
| PipeView.Viewer.ViewTrace | gem5/util/o3-pipeview.py:212-277 | a whole trace prints what the specification says |
| Timeline.OneRowIffCompact | gem5/util/o3-pipeview.py:337-359 | there is a single row if and only if the compact form is used |
| Timeline.LastRowShows | gem5/util/o3-pipeview.py:337-359 | the last row of a well-timed instruction shows one of its stages, so no row is drawn for nothing |
| Timeline.ReachedStageInOneRow | gem5/util/o3-pipeview.py:369-387 | every tick of a well-timed instruction falls in exactly one row |
| Timeline.RowEventsAre | gem5/util/o3-pipeview.py:369-387 | the events of a row are in order, within the row, and exactly the stages shown there |
| Timeline.FullWidthIffDistinctColumns | gem5/util/o3-pipeview.py:388-416 | a row has exactly width cells if and only if no two drawn events share a column |
| Timeline.RowLength | gem5/util/o3-pipeview.py:388-416 | each collision makes the row one cell longer |
| Timeline.StageIsDrawnOnce | gem5/util/o3-pipeview.py:337-416 | every stage reached has its letter in exactly one row, at the column of its cycle, when that row has no collision |
| Timeline.IssueHidesDispatch | gem5/util/o3-pipeview.py:388-416 | an instruction dispatched and issued at the same tick shows the issue only |
| Timeline.ExampleRow | gem5/util/o3-pipeview.py:337-416 | the row of one instruction, letter by letter, retired and squashed |
| Timeline.Draw | gem5/util/o3-pipeview.py:388-416 | the cell-by-cell loop draws the row of the specification, for any placing of events in columns |
| Timeline.Gather | gem5/util/o3-pipeview.py:369-387 | the loop over the stages collects the events of a row in order |
| Timeline.PrintInst | gem5/util/o3-pipeview.py:281-431 | all rows of an instruction; exactly when looking at the first event of an empty row fails; never for a well-timed one |
| Protolib.VarintRoundTrip | gem5/util/protolib.py:100-159 | for every value below 2^32, decoding its encoding gives it back and uses up exactly its one to five bytes, whatever follows |
| Protolib.EncodingIsShortest | gem5/util/protolib.py:147-159 | no shorter byte string decodes to the value |
| Protolib.StreamRoundTrip | gem5/util/protolib.py:131-168 | reading a stream gives the messages before the first empty one, hence all of them if and only if none is empty |
| Protolib.CutStream | gem5/util/protolib.py:131-168 | what is read of a stream cut at any byte |
| Protolib.CutLosesOnlyTheEnd | gem5/util/protolib.py:131-168 | that is a prefix of the messages and at most one proper prefix of the next body |
| Protolib.MessageRoundTripIff | gem5/util/protolib.py:117-142 | for every length: a message is read back if and only if its length is between 1 and 2^32 - 1, or it is the last one and its length reads as a negative number; other lengths are cut to 32 bits or given up |
| Protolib.CollectDigit | gem5/util/protolib.py:112-117 | mask, shift and bitwise-or append a base-128 digit |
| Protolib.Finish | gem5/util/protolib.py:118-122 | the 32-bit result, by mask or by sign extension |
| Protolib.InFile.DecodeVarint32 | gem5/util/protolib.py:100-128 | the byte loop reads the varint of the format, reports the end of the file and overlong encodings, and says how far the cursor moved |
| Protolib.InFile.DecodeMessage | gem5/util/protolib.py:131-144 | one message or none, short at the end of the file |
| Protolib.InFile.ReadAll | gem5/util/decode_inst_dep_trace.py:163-164 | the reading loop returns exactly what the stream decodes to |
| Protolib.OutFile.EncodeVarint32 | gem5/util/protolib.py:147-159 | the byte loop writes the encoding |
| Protolib.OutFile.WriteMessage | gem5/util/protolib.py:162-168 | length and body |
| Protolib.OutFile.WriteAll | gem5/util/protolib.py:162-168 | a sequence of messages makes the stream that is read back |
| DepTrace.TraceRoundTripIff | gem5/util/decode_inst_dep_trace.py:163-215 | converting a printed trace back gives its records, defaults filled in, if and only if all of them are well-formed |
| DepTrace.LineRoundTripIff | gem5/util/encode_inst_dep_trace.py:157-208 | for one line: loads and stores carry all three memory fields, computations none, nothing is INVALID and no field is set that the text has no room for |
| DepTrace.LineFormat | gem5/util/decode_inst_dep_trace.py:167-215 | what stands in each field of the line of every well-formed record |
| DepTrace.ParsePrintedLine | gem5/util/encode_inst_dep_trace.py:157-206 | what the parser makes of every printed record, well-formed or not |
| DepTrace.ReadDeps | gem5/util/encode_inst_dep_trace.py:193-206 | the dependency loop: empty items skipped, the first bad one reported |
| DepTrace.ReadRecord | gem5/util/encode_inst_dep_trace.py:158-206 | one line, with its errors in the order in which they occur |
| DepTrace.ConvertText | gem5/util/encode_inst_dep_trace.py:157-209 | the loop over the lines, up to the first one that cannot be converted |
| DepTrace.AsciiFile.WriteRecord | gem5/util/decode_inst_dep_trace.py:167-215 | the pieces written for a record are its line |
| DepTrace.AsciiFile.WriteDeps | gem5/util/decode_inst_dep_trace.py:200-213 | a comma in front of every dependency |
| DepTrace.AsciiFile.WriteTrace | gem5/util/decode_inst_dep_trace.py:163-215 | a whole trace |
| Dates.DatesRoundTripIff | gem5/util/find_copyrights.py:115-132 | for every nonempty finite set of integers, reading back its printed form gives the set if and only if neighbouring years all have four digits |
| Dates.SpansAreCanonical | gem5/util/find_copyrights.py:195-220 | the printed ranges are ascending, disjoint and not adjacent, and cover exactly the years |
| Dates.FewestSpans | gem5/util/find_copyrights.py:195-220 | no list of ranges that covers the same years is shorter |
| Dates.ExampleDates | gem5/util/find_copyrights.py:195-220 | the text of one list of years |
| Dates.UnreadableSpanIsLost | gem5/util/find_copyrights.py:112-132 | what fails otherwise: the last year of a range whose ends have not both four digits |
| Dates.DateStr | gem5/util/find_copyrights.py:195-220 | the popping loop prints the runs of the sorted years, and fails on the empty set |
| Dates.ProcessDates | gem5/util/find_copyrights.py:115-132 | the parsing loop collects exactly the years mentioned |
| CopyrightBlocks.FindLineBlocks | gem5/util/find_copyrights.py:20-50 | for line-comment languages: the blocks are exactly the maximal runs of comment lines that the scan gets to see and that another line follows; ascending and disjoint |
| CopyrightBlocks.FindCBlocks | gem5/util/find_copyrights.py:52-106 | for C-like languages: blocks ascending and disjoint, a block comment up to its closing line, line comments up to the next notice, block comment or line of code; every line before the stop is blank or in a block; the assertion against both kinds of comment fails exactly when the line it stops at has both |
| CopyrightBlocks.StopsAtFirst | gem5/util/find_copyrights.py:52-106 | and it stops at the first line of code, or with both kinds of comment, outside block comments |
| JobRunner.RunsReturnTheSequentialTally | client/main.go:173-211 | every interleaving in which nobody can go on has received every result exactly once and returns the number of jobs with a positive result and the sum of those results |
| JobRunner.OneJobMore | client/main.go:197-203 | a failed request changes neither number; a successful one counts once, with its bytes |
| JobRunner.NoDeadlock | client/main.go:163-211 | in every reachable unfinished state somebody can go on |
| JobRunner.SendNeverBlocks | client/main.go:167-179 | the channel has room for every result a worker holds |
| JobRunner.RunsAreBounded | client/main.go:173-211 | every interleaving takes at most one step per worker and three per job |
| JobRunner.SlicesPartition | client/main.go:183-190 | every job is in the slice of exactly one worker |
| JobRunner.StepKeepsInv | client/main.go:163-211 | the invariant: what was sent is in the channel or was received, as often as it was sent, and the tally is that of what was received |
| JobRunner.FinishedHasAll | client/main.go:196-211 | what was received in the end is a permutation of what the jobs gave |
| JobRunner.FinishesIff | client/main.go:183-190 | given divisibility, the runner can finish if and only if the concurrency is positive or there are no jobs |
| JobRunner.RunJobs | client/main.go:173-211 | for every schedule: the number of jobs with a positive result and the sum of those results, or the division by zero, the fatal error or the deadlock, and exactly when |
| Aggregator.MovedPageHolds | gem5/util/checkpoint_aggregator.py:67-114 | a page address moved by the merge finds in the merged memory what its checkpoint held at the original address |
| Aggregator.MovedAddressHolds | gem5/util/checkpoint_aggregator.py:99-114 | the same for every address of every checkpoint whose predecessors are complete |
| Aggregator.WindowAtBaseIff | gem5/util/checkpoint_aggregator.py:99-114 | a memory lies where its addresses are moved to if and only if all memories before it hold all their pages |
| Aggregator.ShortMemoryMovesTheNext | gem5/util/checkpoint_aggregator.py:107-114 | the failing case, concretely |
| Aggregator.WindowsAreDisjoint | gem5/util/checkpoint_aggregator.py:99-101 | windows of different checkpoints do not meet |
| Aggregator.RangeSizeIff | gem5/util/checkpoint_aggregator.py:123-140 | range_size is the length of the merged memory if and only if all memories are complete; it is at least the wanted size and at most a page more when padding was needed |
| Aggregator.RenamingIsInjective | gem5/util/checkpoint_aggregator.py:68-70 | renaming keeps all per-CPU sections of all checkpoints apart |
| Aggregator.RestoreRenamed | gem5/util/checkpoint_aggregator.py:68-70 | renaming can be undone |
| Aggregator.CpuSectionsAreMoved | gem5/util/checkpoint_aggregator.py:67-82 | every per-CPU section of every checkpoint is in the merged configuration, renamed, its page address moved by the pages before it |
| Aggregator.OutputNamesAreDistinct | gem5/util/checkpoint_aggregator.py:67-145 | no section name occurs twice in the merged configuration |
| Aggregator.TicksAreCovered | gem5/util/checkpoint_aggregator.py:86-89 | the merged tick is no earlier than that of any checkpoint |
| Aggregator.TickIsLeast | gem5/util/checkpoint_aggregator.py:86-89 | and no later than any bound on them |
| Aggregator.OutputMeans | gem5/util/checkpoint_aggregator.py:44-145 | the output read back: page count the sum, process count, tick the least above all, each per-CPU section once with address and process number changed and nothing else, the other sections of the last checkpoint, range size, and every byte of every memory at its place |
| Aggregator.AggregateOkIff | gem5/util/checkpoint_aggregator.py:44-145 | the merge succeeds if and only if every number it needs is there and readable, and the last checkpoint has the memory section |
| Aggregator.IdIsNumber | gem5/util/checkpoint_aggregator.py:59-69 | the number put into names is that of the checkpoint, with as many digits as the largest |
| Aggregator.CopyPages | gem5/util/checkpoint_aggregator.py:107-114 | the page loop copies the pages in use, short at the end of the file |
| Aggregator.Pad | gem5/util/checkpoint_aggregator.py:123-131 | the padding loop |
| Aggregator.AggregateCheckpoints | gem5/util/checkpoint_aggregator.py:44-145 | the whole merge: when it succeeds, and then the counts, the tick, the sections and the memory of the output in terms of the checkpoints |
| LatMemRd.Ranges | gem5/configs/dram/lat_mem_rd.py:164-174 | the loop yields the sizes 2^k + j * 2^(k-2), strictly increasing, and stops at the first that reaches max_range |
| LatMemRd.PowersAreMeasured | gem5/configs/dram/lat_mem_rd.py:166-174 | every power of two from 4096 to the last size is among them |
| LatMemRd.SweepEndsAtPower | gem5/configs/dram/lat_mem_rd.py:166-174 | the sweep ends exactly at max_range when that is a power of two of at least 4096 |
| LatMemRd.IsPow2 | gem5/configs/dram/lat_mem_rd.py:157-158 | the bit trick tells exactly the powers of two |
| Bits.PowerOfTwoTest | gem5/configs/dram/lat_mem_rd.py:157-158 | n and n - 1 have no bit in common exactly for powers of two |
| GpuTlb.ConnectUnits | gem5/configs/common/GPUTLBConfig.py:228-260 | ports of each coalescer are taken from 0 on without a gap, coalescers in range, every port of every unit connected once; fails exactly without units or TLBs |
| GpuTlb.PortsAreDistinct | gem5/configs/common/GPUTLBConfig.py:228-260 | no two connections take the same port of the same coalescer |
| GpuTlb.CoalescerIs | gem5/configs/common/GPUTLBConfig.py:248-258 | the rational quotient, truncated, in whole numbers |
| GpuTlb.SideIs | gem5/configs/common/GPUTLBConfig.py:248-258 | and the rational remainder |
| Logroll.Roll | gem5/util/logroll.py:63-94 | at every read boundary the dump is the last min(target, lines read) lines in order, and all lines when the target is not positive |

## Left out

- LookupsFindCommittedTargets: the branches in use are taken to be told apart by the partial tags of every level; what two branches that alias do to each other is not covered.
- BtbInclusion.RunsKeepPromiseIff: for the same branches, those that the tags tell apart.
- PrefetchNeverDelays: covers configurations without the Markov prefetcher; LookupThrowsIff says exactly when it fails with it.
- AssociativeCache.Cache.FindVictim: a replacement policy takes an invalid way while there is one, as the default LRU policy does; the coherence results do not depend on it.
- MigrationSchedule.AbortsIffBlocked: excludes pending migrations that depend on a tag about to be downgraded, whose readiness depends on the round; CompletesIffLayered covers them.
- Aggregator.AggregateCheckpoints: option values are written as text; the source passes integers to `ConfigParser.set` (`gem5/util/checkpoint_aggregator.py:75-77`, `82`, `120-121`, `138-140`, `143`) and text to a compressed file (`:127`), both of which Python 3 refuses with an exception. Text and byte strings are not told apart, page counts are those of the configuration, and the default section is not modelled.
- Aggregator.WindowAtBaseIff: page counts are taken to be natural numbers, as the simulator writes them.
- DepTrace.ParsePrintedLine: numbers are optional signs and ASCII digits; underscores and other digits that Python accepts are not modelled.
- Timeline.LastRowShows: ticks are taken to be positive, as the simulator writes them; a fetch tick of zero means that there is none.
- CopyrightBlocks.FindLineBlocks: the choice of the scanner from the language name is not modelled.
- GpuTlb.ConnectUnits: quotients are exact fractions, without floating-point rounding; the ports of the instruction, scalar and second-level TLBs are simpler and left out.
- JobRunner.RunJobs: requests, logging and the random choice of jobs are left out; invoking a job gives an arbitrary integer.
- Protolib.InFile.DecodeMessage: the encoding of fields inside a message is not modelled, so a short body is returned where parsing it would fail.
- Branch target buffer: the compressed tag filter (modelled in its exact default), statistics and fields that only feed them, training of the Markov table (a lookup may find any table), simultaneous threads, the basic block map (any map may be given) and wrap-around of 64-bit chain numbers.
- Checkpoint migration: the bodies of the scripts, reading and writing of the file, and the backup copy.
- Pipeline viewer: parsing of trace records, colours, headers and the text columns to the right of the timeline.
- Signals that arrive between two statements of one iteration of the rolling log.
- Packet traces: the parser does not accept the optional fields that the printer writes, so there is no round trip to state.
- Simulation scripts, plotting, disk images, build tools and benchmark applications: wiring and external commands.
