# SDAG ledger: a verified model

SDAG is a DAG ledger. Units (joints) name several parents, a witness rule picks a main
chain, stabilising each main-chain unit fixes a global order of all units, and payments
are applied in that order. This project models that core in Dafny and proves what the
node relies on, for all inputs and all runs:

* **Order and consensus.** `Dag` defines units, parent edges and plain reachability.
  `StaticProps` has level, best parent, witnessed level and min witnessed level.
  `MainChain` states when an index (mci, limci, sub_mci, recorded chain) is right about
  reachability and what follows from that; `Marking` is the worker that writes it, one field
  at a time. `Ancestor` is the pruned ancestor test that reads it while it is being
  written. `GlobalOrder` lists units by main-chain index. `BestChain`, `MaxStable` and
  `StableView` walk best-parent chains, and `Validation` checks that no parent includes another.
* **Workers and ledger.** `Ledger` is the specification of the stable UTXO map and of the
  per-address index; `LedgerRun` proves what every run of applied payments keeps, and
  `Verdicts` says in terms of the good units alone which outputs are left and which unit may
  follow. `Utxo` and `Business` are the imperative code that refines it, `History` the history
  walk over the index, `Statement` what that history lists and adds up to by outputs,
  `Finalization` the skip lists, and `Pipeline`/`Rebuild` every interleaving of the three workers
  against sequential replay. `Balls` gives the value of a ball on every interleaving, and
  `Coverage` what equal balls of two nodes prove. `Admission` is the serial check that marks units final bad, `Nodes` says
  exactly when two nodes agree in spite of such marks, and `LocalMark` shows two that do not.
* **Joint cache.** `Cache` has the states, the invariant and what each elementary step
  keeps; `CacheRun` whole runs, in which checking, screening and writing a new joint are
  steps of their own; `LateParent` two runs that show what this separation and the purge allow;
  `JointCache` the class with its loops over parents, waiting children and the purge stack,
  each method one step of `CacheRun`.
* **MapLock.** The multi-key lock with its wait queue, as one class.

`dafny verify dfyconfig.toml` checks everything.

## Assumptions

* Unit hashes are distinct and parent edges acyclic, since a unit hash covers its parents
  (`Dag.WellFormed`, a ranking of the units). Hashes and addresses are numbers: only
  equality and one total order are ever used.
* One unit has no parents: genesis, whose authors cover at least 7 witnesses. Every other unit
  has one author (`Ledger.AuthorsOk`).
* Each unit carries one payment message; other messages are text. The u64 totals do not overflow.
* The consensus hypothesis is a precondition of `Marking.Worker.UpdateMainChain`: the previous
  stable unit lies on the best-parent chain of the new one.
* Best parent of genesis: reading it yields a copy with level -1; genesis gets wl = -1 and min_wl = 0.
  This makes min_wl drop from genesis to its children, and only there
  (`StaticProps.MinWitnessedLevelMonotone` is an if-and-only-if for that reason).
* A ball hash is an injective function of what it covers, so a ball is modelled as that content.
* Numbers are written once. A snapshot of a unit's properties is what any moment of the run shows
  (`Ancestor.Snapshot`), and two units may be read at different moments. The stable point a test
  starts from has its number by then (`BestChain.ReadAfter`); that all its ancestors have theirs
  follows from the order of writing (`Marking.Worker`, every moment is `MainChain.Settled`).
* One adder at a time works on a joint: it holds the lock `UNIT_IN_WORK` on the joint's hash
  (src/network/hub.rs:897). The loader at start-up takes no lock, and adds each stored joint once.
* Admission (`Pipeline.Admit`) is what the node enforces: the parents are normal, the last ball has
  been waited for until stable, and every transferred source lies under that last ball. It may mark
  the unit final bad; which units it marks depends on the unstable units this node has seen, so the
  marks are part of the state of a run and differ between runs and nodes.
* Two nodes that hold the same units hold them with the same content.

## Findings

* Verdicts are not a function of the stable units alone. Admission marks a unit final bad whenever the
  recorded last unstable unit of its author cannot be read (src/validation.rs:788,
  src/business/mod.rs:760), and a marked unit is rejected for good (src/business/mod.rs:591).
  A posted payment that fails is purged while its record stays, so every later unit of that author is
  marked on this node (`Admission.StaleForever`), and two units of one author judged at once have
  the same effect (`Admission.JudgedAtOnce`). `LocalMark.NodesPart` gives two nodes with the same order and
  different verdicts. The exact conditions: the verdicts of a node are those of replay without marks if
  and only if that replay rejects every marked unit (`Nodes.ReplayExactly`); two nodes agree if and only
  if, wherever just one has marked a unit, the other one rejects it too (`Nodes.MarksExactly`,
  `Nodes.NodesDecideAlike`), and then ledgers and balls agree as well.
* `build_unstable_main_chain_from_joint_to_min_wl` compares `level < min_wl`, which is never true at the
  joint, so its list is the joint alone (`MaxStable.MinWlBelowLevel`, `MaxStable.BuildToMinWl`).
  What is proved about `calc_max_stable_unit` does not depend on it.
* When the chain of an alternative witness meets the joint's chain only at genesis, the cut stops at the
  last level above 0 of the alternative's chain, not at genesis (`MaxStable.FloorIsMeeting`).
* The checks of `add_new_joint` and its write section are separate critical sections, and the lock
  on the joint does not cover its parents. A parent rejected in between leaves an unhandled joint
  under a known-bad parent: `CacheRun.RejectedInBetween` for every such state,
  `LateParent.FailingRun` as one run from the empty cache. Over all runs an unhandled joint has a
  known-bad parent exactly when it had one at the moment it was written
  (`CacheRun.BadParentExactly`); such a joint is never triggered, and everything else the cache
  promises still holds (`CacheRun.CacheSafety`, `CacheRun.TriggeredExactly`). For one write,
  `CacheRun.CommitExact` gives the condition.
* The purge takes a rejected joint off the waiting lists of its resolved parents only
  (src/cache/cache_impl.rs:212-219). If a joint waits for two parents and one is rejected before the
  other one is accepted, the accepted one is told of a child that is bad by then, and counts a
  reference nobody ever gives back: `CacheRun.RejectedWhileWaiting` for every such state,
  `LateParent.LosingRun` as one run from the empty cache. Over all runs the references of a normal
  joint are the unhandled joints holding it plus these lost ones (`CacheRun.CacheSafety`), a reference
  is lost exactly in this way (`CacheRun.LateExactly`), and the joint is never collected again
  (`CacheRun.LateForever`).
* `get_stable_history` reads the related units and the last own unit under separate locks
  (src/light.rs:114, src/light.rs:123). An own unit applied in between makes the related units appear
  twice (`History.MixedByOwn`); `History.MixedExactly` gives the condition.
* `get_stable_history` with limit 0 behaves like limit 1 (`History.Bound`), because the
  limit is compared after a transaction has been pushed.

## Model

| member | source | states |
|---|---|---|
| `StaticProps.CalcLevel` | src/cache/joint_data.rs:442-455 | one above the highest parent level, 0 for no parents |
| `StaticProps.FindBestJoint` | src/main_chain.rs:431-449 | none for an empty list, otherwise a member of the highest wl; among those by a witness if one is; among those of the lowest level; among those with the smallest hash |
| `StaticProps.BestMeans` | src/cache/joint_data.rs:559-579 | the best member is exactly the one these four rules pick, said by wl, authors, levels and hashes |
| `StaticProps.FindRelativeStableJoint` | src/cache/joint_data.rs:501-524 | the first unit down the best parents at which a majority of witnesses has signed; always terminates |
| `StaticProps.RelativeStableMeans` | src/cache/joint_data.rs:501-524 | down to the relative stable unit a majority of the witnesses has signed, and down to no unit above it |
| `StaticProps.WitnessedMeans` | src/cache/joint_data.rs:466-486 | wl is the level, and min_wl the wl, of the highest unit down to which a majority of the witnesses has signed; the two flags say whether these exceed those of the best parent |
| `StaticProps.MajoritiesMeet` | src/cache/joint_data.rs:501-524 | any two majorities of the witnesses have a witness in common, and no smaller number would do |
| `StaticProps.WitnessInCommon` | src/cache/joint_data.rs:501-524 | so the signatures behind the witnessed levels of any two units have one in common |
| `StaticProps.CalcStaticProps` | src/cache/joint_data.rs:457-499 | the properties of a new unit are those its parents determine, and all others stay right |
| `StaticProps.WitnessedLevelMonotone` | src/cache/joint_data.rs:466-486 | wl is below the level and never decreases along any parent edge |
| `StaticProps.WitnessedLevelOfAncestor` | src/cache/joint_data.rs:466-486 | wl never decreases from any ancestor |
| `StaticProps.MinWitnessedLevelMonotone` | src/cache/joint_data.rs:466-486 | min_wl never decreases along a best-parent edge if and only if the parent is not genesis |
| `StaticProps.RelativeStableRises` | src/cache/joint_data.rs:501-524 | the relative stable unit of a unit is at or above that of its best parent |
| `StaticProps.LatestEffectiveUnit` | src/main_chain.rs:241-247 | the nearest unit down the best parents that raised min_wl, with the joint's min_wl unless it is genesis |
| `StaticProps.EffectiveByLevels` | src/main_chain.rs:241-247 | said by levels: its min_wl exceeds that of its best parent, and no unit above it on the chain has that |
| `StaticProps.StaticPropsAgree` | src/cache/joint_data.rs:559-579 | two nodes holding the same units compute the same properties, whatever order parents arrived in |
| `StaticProps.BestUnique` | src/cache/joint_data.rs:559-579 | the preference order has one best member, independent of the order of the list |
| `MainChain.MarkedAreAncestors` | src/main_chain.rs:117-187 | the units with a valid mci are exactly the ancestors-or-self of the last main-chain unit |
| `MainChain.IndexImpliesInclusion` | src/cache/joint_data.rs:34-51 | mci(a) <= limci(u) implies that u includes a |
| `MainChain.IndexMonotone` | src/main_chain.rs:148-170 | mci and limci never decrease from ancestor to descendant |
| `MainChain.OnMainChainIsRecorded` | src/cache/joint_data.rs:240-243 | mci = limci exactly for the unit recorded at that mci |
| `MainChain.SubMciOrders` | src/main_chain.rs:138-152 | inside one mci, the unit of the lower level comes first, and of two of one level the one with the smaller hash |
| `MainChain.GlobalOrder` | src/main_chain.rs:117-187 | (mci, sub_mci) is a total order placing every ancestor before its descendant |
| `MainChain.ChainUnique` | src/main_chain.rs:93-115 | the recorded chain is determined by its last unit |
| `MainChain.MarksUnique` | src/main_chain.rs:117-187 | the whole index is determined by the chain, whatever stable points came in between |
| `MainChain.NodesAgree` | src/main_chain.rs:93-202 | two nodes with the same units and last stable unit hold the same properties and the same index |
| `Marking.CollectUnmarked` | src/main_chain.rs:117-136 | the search with duplicate queue entries terminates and finds each unmarked ancestor once |
| `Marking.BuildBatch` | src/main_chain.rs:117-146 | the unmarked ancestors, strictly sorted by level and hash |
| `Marking.MaxParentLimci` | src/main_chain.rs:154-167 | the largest limci among the parents |
| `Marking.Worker.constructor` | src/main_chain.rs:59-90 | an empty index is right |
| `Marking.Worker.WriteUnit` | src/main_chain.rs:149-170 | sub_mci, limci and mci of one unit, in this order, each written once; other threads only ever see earlier states, in each of which a unit with an mci has its limci and its ancestors their numbers |
| `Marking.Worker.SetSubMci` | src/cache/joint_data.rs:206-208 | written once; every state another thread can read is earlier than the present one and settled |
| `Marking.Worker.SetLimci` | src/cache/joint_data.rs:183-185 | the same for limci |
| `Marking.Worker.SetMci` | src/cache/joint_data.rs:191-200 | the same for mci, which comes last: the unit has its other numbers and its parents theirs |
| `Marking.Worker.WriteBatch` | src/main_chain.rs:148-174 | all of the batch numbered and pushed in order |
| `Marking.Worker.MarkStable` | src/main_chain.rs:117-187 | the index is right for the chain extended by the unit, exactly its unmarked ancestors are pushed, no number changes |
| `Marking.Worker.BuildUnstableMainChain` | src/main_chain.rs:101-115 | the best parents from the joint down to the stable point |
| `Marking.Worker.UpdateMainChain` | src/main_chain.rs:93-202 | the chain ends in the joint and the index is right for it, under the consensus hypothesis |
| `Ancestor.PartialCmpSound` | src/cache/joint_data.rs:104-121 | every answer of the index comparison is right about reachability, also on snapshots of different moments |
| `Ancestor.NotIncludedSound` | src/cache/joint_data.rs:34-51 | pruning never drops a descendant, also on snapshots of different moments |
| `Ancestor.IsAncestor` | src/cache/joint_data.rs:53-101 | true exactly when the unit is an ancestor of, or equal to, one of the joints |
| `Ancestor.FastPath` | src/cache/joint_data.rs:718-767 | every short cut of the joint comparison is right about reachability |
| `Ancestor.FreeAreUnrelated` | src/cache/joint_data.rs:709-717 | free units are below no other unit |
| `Ancestor.CompareJoints` | src/cache/joint_data.rs:709-767 | the comparison of normalised joints is exactly equality and reachability |
| `GlobalOrder.JointsByMci` | src/cache/mod.rs:385-418 | for a recorded index exactly the units of that mci, once each, in sub_mci order, although the search is cut at other mcis and units are read at different moments of later markings; nothing for an index not recorded |
| `GlobalOrder.ReadsAreFinal` | src/cache/mod.rs:385-418 | below a recorded main-chain unit everything is read with its final numbers |
| `GlobalOrder.JointsOfRange` | src/catchup.rs:236-292 | exactly the units of a range of mcis, once each, in the global order |
| `GlobalOrder.PrepareHashTree` | src/catchup.rs:222-292 | an error for an empty range, otherwise every unit after the first ball up to the last, once, in order |
| `GlobalOrder.ParentsComeFirst` | src/catchup.rs:236-292 | in any such list ancestors come before descendants |
| `GlobalOrder.OrderUnique` | src/catchup.rs:236-292 | there is one ordered list of a set of units |
| `GlobalOrder.ChannelInOrder` | src/main_chain.rs:148-174 | the business worker receives units in the global order |
| `GlobalOrder.ReplayOrder` | src/business/mod.rs:508-528 | reading mci by mci gives exactly the sequence the channel carried |
| `BestChain.WalkDown` | src/main_chain.rs:393-406 | the highest unit of a best-parent chain at or below a level |
| `BestChain.CutReaches` | src/main_chain.rs:390-420 | that walk ends at a unit exactly when the unit is on the chain |
| `BestChain.HitsMainChain` | src/main_chain.rs:373-382 | whether the chain of a joint has a unit read as main-chain unit at or above a level |
| `BestChain.ReadsRight` | src/cache/joint_data.rs:240-243 | what is read as a main-chain unit is one; one at or below the stable point is read as such |
| `BestChain.BallIsRead` | src/main_chain.rs:361-371 | a last ball not above the stable point is read as main-chain unit exactly when it is below it on its chain |
| `BestChain.AnyHitWillDo` | src/main_chain.rs:361-390 | for a last ball at or below the stable point any such hit is as good as the last ball itself, whatever is read above the stable point |
| `BestChain.IsBestAncestor` | src/main_chain.rs:353-423 | for any recorded stable point, units being read at different moments: true exactly when the last ball is on the joint's best-parent chain and on one chain with the stable point |
| `MaxStable.MinWlBelowLevel` | src/main_chain.rs:250-266 | min_wl never exceeds the level, so the guard is never met |
| `MaxStable.BuildToMinWl` | src/main_chain.rs:250-266 | a segment of the joint's chain; the joint alone for its own min_wl |
| `MaxStable.FindAlt` | src/main_chain.rs:295-314 | the first witness unit off the chain, above level 0 and not below the limit |
| `MaxStable.FirstAltMeans` | src/main_chain.rs:295-312 | the walk finds the highest unit of the chain that qualifies, and none only if there is none |
| `MaxStable.GetAllAltWitnessUnits` | src/main_chain.rs:270-317 | exactly the highest units, by a witness, off the chain, above level 0 and not below the limit, properly below some unit by a witness that the joint includes, off the chain and above the limit; without repetition; the search terminates |
| `MaxStable.AlternativeMeans` | src/main_chain.rs:270-317 | the walk from each included unit gives exactly these, said by inclusion, best-parent chains, levels and authors |
| `MaxStable.ExtendTo` | src/main_chain.rs:332-341 | the segment reaches down to the level of the alternative, and holds it exactly when it is on the joint's chain |
| `MaxStable.UpdateMcToIntersect` | src/main_chain.rs:320-350 | the chain is cut at the floor of the alternative; every unit visited on the way has the same floor |
| `MaxStable.FloorIsMeeting` | src/main_chain.rs:332-347 | the floor is the level where the chains meet, or the least positive level if they only meet at genesis |
| `MaxStable.CalcMaxStableUnit` | src/main_chain.rs:452-467 | the highest unit of the joint's own chain that no alternative pushes down further, skipping visited ones |
| `MaxStable.MaxStableUnique` | src/main_chain.rs:452-467 | the result is determined by the set of alternatives, not by their order |
| `MaxStable.SkipVisited` | src/main_chain.rs:456-462 | skipping an alternative visited earlier changes nothing |
| `MaxStable.BelowMeetings` | src/main_chain.rs:320-350 | the result is at or below the point where each alternative's chain meets the joint's, above level 0 |
| `MaxStable.MoreAlternativesLower` | src/main_chain.rs:452-467 | more alternatives never raise the result |
| `MaxStable.AloneIsMaxStable` | src/main_chain.rs:452-467 | without such a unit the joint is its own max stable unit |
| `StableView.IsStableToJoint` | src/main_chain.rs:470-491 | true exactly when the last ball is genesis, or not above the min_wl of the joint, below the max stable unit of its latest effective unit, and on one chain with the stable point |
| `StableView.EffectiveUnique` | src/main_chain.rs:241-247 | there is one latest effective unit |
| `StableView.StableDownward` | src/main_chain.rs:470-491 | what is stable in the view of a joint is on its best-parent chain, and so is everything below it stable |
| `Validation.ParentsUnrelated` | src/validation.rs:424-433 | the loop passes exactly when the parents are different and none includes another |
| `Validation.ClearIsUnrelated` | src/validation.rs:424-433 | by descending level it suffices to look for each parent among those before it |
| `Ledger.SpendSucceeds` | src/business/utxo.rs:129-153 | validated inputs are removed without error, exactly they, and the worth falls by what they held |
| `Ledger.CreateAdds` | src/business/utxo.rs:155-174 | the outputs of a unit raise each owner's worth by what they pay |
| `Ledger.CreateHolds` | src/business/utxo.rs:155-174 | the map afterwards holds exactly the old keys and the new outputs |
| `LedgerRun.ApplyKeeps` | src/business/mod.rs:641-656 | a payment that passed validation applies without error and keeps conservation, balances and references |
| `LedgerRun.ChargeCovered` | src/business/mod.rs:608-633 | the balance subtraction never underflows |
| `LedgerRun.BalanceOfPayer` | src/business/mod.rs:608-633 | the payer's incremental balance falls by exactly what leaves it and the commissions |
| `LedgerRun.BalanceOfOther` | src/business/mod.rs:209-267 | everyone else's incremental balance rises by exactly what is paid to them |
| `LedgerRun.BalanceIsWorth` | src/business/mod.rs:243-267 | after every run the incremental balance of an address is the sum of its entries in the UTXO map |
| `LedgerRun.Conservation` | src/business/utxo.rs:490-511 | after every run live outputs plus commissions paid equal the issued cap |
| `LedgerRun.OnlyGenesisIssues` | src/business/utxo.rs:319-395 | no accepted unit but genesis issues |
| `LedgerRun.SpentForever` | src/business/utxo.rs:129-215 | an output once consumed never comes back |
| `LedgerRun.AcceptedCanApply` | src/business/mod.rs:587-656 | an accepted unit is applied, and recorded as good |
| `LedgerRun.RebuildIsReplay` | src/business/mod.rs:508-528 | applying the good units alone, without validation, gives the ledger of the replay |
| `Verdicts.ReplayExplained` | src/business/utxo.rs:129-215 | over every run the unspent outputs are exactly the outputs of good units that no good unit consumes, held by whom they pay; good units consume outputs of good units only; the good units of one author are in inclusion order |
| `Verdicts.GoodUnitsAreSerial` | src/business/mod.rs:538-556 | over every run, of any two good units of one author the later includes the earlier |
| `Verdicts.NonserialIsRejected` | src/business/mod.rs:587-603 | over every run a unit that does not include an earlier good unit of one of its authors is not good |
| `Verdicts.VerdictMeans` | src/business/mod.rs:587-603 | the verdict in plain terms: not final bad from the start, includes all good units of its authors, every input an issue of genesis or an unconsumed output of a good unit that pays an author, no output named twice, sorted positive outputs, and the totals balance with headers and payload commission |
| `Verdicts.GoodIsVerdict` | src/business/mod.rs:72-141 | a unit is among the good ones exactly when its verdict was good, and stays so |
| `Utxo.UtxoCache.constructor` | src/business/utxo.rs:18-25 | an empty two-level map |
| `Utxo.UtxoCache.RemoveOutput` | src/business/utxo.rs:176-196 | an error exactly when the address does not hold the key; no empty inner map is left |
| `Utxo.UtxoCache.InsertOutput` | src/business/utxo.rs:198-215 | the key is held by the address with its data |
| `Utxo.UtxoCache.GetOutputByInput` | src/business/utxo.rs:225-246 | the unspent output an input names, or none |
| `Utxo.UtxoCache.DecreaseOutput` | src/business/utxo.rs:129-153 | spends all inputs, or reports the error the specification reports |
| `Utxo.UtxoCache.IncreaseOutput` | src/business/utxo.rs:155-174 | creates all outputs of the unit |
| `Utxo.UtxoCache.ApplyPayment` | src/business/utxo.rs:109-127 | spends then creates |
| `Utxo.UtxoCache.VerifyOutput` | src/business/utxo.rs:421-451 | the total of sorted, positive outputs to valid addresses, otherwise an error |
| `Utxo.UtxoCache.VerifyTransfer` | src/business/utxo.rs:248-317 | the amount of an unspent output of a good and stable unit owned by an author, otherwise an error |
| `Utxo.UtxoCache.VerifyIssue` | src/business/utxo.rs:319-395 | the cap for the first input of genesis, otherwise an error |
| `Utxo.UtxoCache.VerifyInput` | src/business/utxo.rs:453-488 | the total of valid inputs without repetition, otherwise an error |
| `Utxo.UtxoCache.ValidatePayment` | src/business/utxo.rs:490-511 | true exactly when inputs and outputs are valid and balance with the commissions |
| `Business.BusinessCache.constructor` | src/business/mod.rs:508-515 | the empty ledger |
| `Business.BusinessCache.GetStableBalance` | src/business/mod.rs:243-267 | the balance of the last self joint plus related outputs |
| `Business.BusinessCache.UpdateJointBalanceProps` | src/business/mod.rs:608-639 | balance, previous self unit and related units of the joint |
| `Business.BusinessCache.Discount` | src/business/mod.rs:608-639 | payments to others and commissions are taken off the balance step by step without underflow |
| `Business.BusinessCache.UpdateGlobalState` | src/business/mod.rs:185-241 | last self joint and related joints of every address |
| `Business.BusinessCache.ApplyStableJoint` | src/business/mod.rs:641-656 | a validated joint applies without error, to the ledger of the specification |
| `Business.BusinessCache.IncludesLastSelfJoint` | src/business/mod.rs:538-556 | true exactly when the joint includes the last stable joint of each author |
| `Business.BusinessCache.HandleStableJoint` | src/business/mod.rs:72-141 | a unit marked final bad is rejected, any other gets the verdict of the specification; good joints are applied, others change nothing |
| `History.HistoryComplete` | src/light.rs:106-180 | over every run the full history holds each output paid to others and each output received from others exactly once |
| `History.GrowsByOwn` | src/light.rs:121-177 | an own unit puts the outputs it pays to others on top of the history |
| `History.GrowsByOther` | src/light.rs:184-211 | a unit of someone else adds exactly what it pays the address |
| `Statement.HistoryByOutputs` | src/light.rs:106-211 | over every run the history of an address holds each transaction as many times as its unit has outputs paying that amount to that address: to others for own units, to the address for units of others, and nothing else |
| `Statement.HistoryAddsUp` | src/light.rs:106-211 | over every run what the history received, less what it sent and the commissions of own units, is the worth of the address's unspent outputs |
| `Statement.ReceivedCount` | src/light.rs:184-211 | the transactions received in one unit, each as often as an output says so |
| `Statement.SentCount` | src/light.rs:143-165 | the transactions an own unit sends, each as often as an output to someone else says so |
| `History.GetReceiveTx` | src/light.rs:184-211 | the outputs received in one unit, up to the limit |
| `History.GetSentTx` | src/light.rs:143-165 | the outputs one own unit pays to others, up to the limit |
| `History.GetReceivedFrom` | src/light.rs:112-119 | the outputs received in a list of units, up to the limit |
| `History.ListOwnUnit` | src/light.rs:127-177 | one own unit and what it was related to, up to the limit |
| `History.GetStableHistory` | src/light.rs:106-180 | the first entries, as many as the limit, of the related units at the first read followed by the walk from the last own unit at the second; terminates along the previous-self links |
| `History.MixedExactly` | src/light.rs:112-125 | read at one moment this is the full history; otherwise it is that of the second read exactly when the related units account for the same transactions at both |
| `History.MixedByOthers` | src/light.rs:112-125 | units of others applied between the reads do not show |
| `History.MixedByOwn` | src/light.rs:112-125 | an own unit applied between the reads makes the related units appear twice |
| `Finalization.GetSimilarMcis` | src/finalization.rs:150-161 | mci less each power of ten dividing it, all of them and nothing else, each below mci |
| `Finalization.SimilarUnique` | src/finalization.rs:150-161 | there is one such list |
| `Pipeline.LagDoesNotMatter` | src/business/utxo.rs:303-310 | if the spent units are stable, the stable check cannot depend on how far finalization has come |
| `Pipeline.SameVerdict` | src/business/mod.rs:72-141 | in every reachable state the next verdict is that of sequential replay with the marks set at admission |
| `Pipeline.AcceptedNeverFails` | src/business/mod.rs:587-656 | in every reachable state an accepted joint applies without error |
| `Pipeline.InterleavingsAgree` | src/business/mod.rs:72-141 | for every interleaving of the workers, verdicts and ledger equal those of replay with the marks set at admission, and of the rebuild |
| `Pipeline.ReachableInv` | src/validation.rs:461-477 | every reachable state of the workers is consistent; every admitted unit spends only stable units, and its mark is set once |
| `Pipeline.FinalizeNeverFails` | src/finalization.rs:51-183 | whatever finalising the next unit looks up is there |
| `Pipeline.FinalizationNeverFails` | src/finalization.rs:51-183 | along every run parents and skip list units are finalised first and every lookup succeeds |
| `Pipeline.StableAncestry` | src/finalization.rs:51-91 | the whole ancestry of a stable unit, and of the last stable unit, is stable with balls; that these are final is stated next |
| `Balls.ReachableBalls` | src/finalization.rs:93-148 | in every reachable state the ball of a unit is made of the balls of its parents and skip list units and of the recorded verdict |
| `Coverage.ReachableCoverage` | src/finalization.rs:93-183 | in every reachable state a ball names its unit and verdict, holds each ball as often among its parent balls as parents have it, and among its skip list balls as powers of ten dividing the main-chain index lead back to a unit that has it; no skip list off the main chain |
| `Coverage.TargetsAre` | src/finalization.rs:150-161 | the j-th skip list target exists exactly when 10^(j+1) divides the index, and is that much below it |
| `Balls.BallsUnique` | src/finalization.rs:93-148 | with the same verdicts these equations determine the ball of every unit |
| `Balls.BallsAreFinal` | src/validation.rs:494-502 | no later state of a run changes a ball or a verdict |
| `Balls.SameBallsExactly` | src/finalization.rs:93-148 | the first n balls are the same if and only if the first n verdicts are |
| `Balls.BallsFollowVerdicts` | src/validation.rs:494-502 | so at any two moments of any two interleavings |
| `Balls.FinalAncestry` | src/finalization.rs:51-91 | the whole ancestry of a stable unit, and of the last stable unit, has balls that no later state changes |
| `Coverage.EqualBallsEqualAncestry` | src/finalization.rs:93-148 | two nodes that hold the same ball for a unit, whatever units they hold and in whatever states: the unit has the same ancestors in both, and each of them the same ball and the same verdict |
| `Coverage.LastStableIsHighest` | src/finalization.rs:72-75 | in every reachable state the stable main-chain units are a prefix of the main chain and the last stable joint is the highest of them |
| `Nodes.SameOrder` | src/main_chain.rs:93-202 | two nodes with the same units and last stable unit push the same units in the same order |
| `Nodes.AcceptsAgrees` | src/business/mod.rs:587-606 | they give the same verdict, in the same state, on a unit they have marked alike, whatever order parents arrived in |
| `Nodes.ApplyAgrees` | src/business/mod.rs:641-656 | they apply a unit alike |
| `Nodes.MarksExactly` | src/business/mod.rs:587-603 | the first n verdicts of two replays with different marks are the same if and only if, wherever just one has marked a unit, the other rejects it too |
| `Nodes.AgreeIsSameLedger` | src/business/mod.rs:508-528 | their ledgers are the same if and only if these verdicts are |
| `Nodes.UnmarkedExactly` | src/business/mod.rs:587-603 | against replay without marks: if and only if that replay rejects every marked unit |
| `Nodes.ReplayExactly` | src/business/mod.rs:72-141 | the same for what a node has recorded in any reachable state |
| `Admission.MarkedExactly` | src/business/mod.rs:752-775 | a unit with messages is marked exactly when the record of its author cannot be read, or it passes and then cannot be applied |
| `Admission.JudgedExactly` | src/business/mod.rs:556-584 | the condition of each verdict, and what becomes of the author's record |
| `Admission.RecordsAscend` | src/business/mod.rs:752-775 | over every run the record of an author, as long as it is not cleared, only moves up the inclusion order |
| `Admission.AdmittedInOrder` | src/business/mod.rs:752-775 | over every run a unit judged good or temporarily bad includes every unit its author had on record before |
| `Admission.JudgedAtOnce` | src/business/mod.rs:756-760 | of two units of one author judged at once the second is marked |
| `Admission.RejectedPostStays` | src/validation.rs:132-134 | a posted unit whose messages fail is rejected and leaves its record behind |
| `Admission.StaleStays` | src/business/mod.rs:288-300 | nothing removes such a record |
| `Admission.StaleForever` | src/validation.rs:767-791 | over every run all later units of that author are final bad on this node |
| `LocalMark.NodesPart` | src/validation.rs:781-790 | two nodes, the same units and order, different verdicts |
| `Nodes.NodesDecideAlike` | src/business/mod.rs:72-141 | whatever states they have reached, they have the same first n verdicts if and only if, wherever just one has marked a unit, the other rejects it too; ledgers and balls agree if and only if verdicts do |
| `Rebuild.RebuildFromGenesis` | src/business/mod.rs:508-528 | the rebuilt state is that of sequential replay |
| `MapLock.PassRestarts` | src/utils/map_lock.rs:104-115 | dequeuing one task at a time and starting over grants what one pass over the queue grants |
| `MapLock.LastInLine` | src/utils/map_lock.rs:44-67 | a pass wakes the last task of the queue exactly when none of its keys is locked or goes to a task woken before it, and treats the tasks before it as if it were not there |
| `MapLock.NothingHeldNothingQueued` | src/utils/map_lock.rs:104-115 | nothing is queued when nothing is held |
| `MapLock.GrantKeeps` | src/utils/map_lock.rs:36-42 | granting free keys keeps granted sets disjoint and their union the locked set |
| `MapLock.DropKeeps` | src/utils/map_lock.rs:32-34 | so does releasing |
| `MapLock.Lock.constructor` | src/utils/map_lock.rs:83-96 | an empty lock |
| `MapLock.Lock.KeysIsLocked` | src/utils/map_lock.rs:23-30 | true exactly when one of the keys is locked |
| `MapLock.Lock.KeysLock` | src/utils/map_lock.rs:36-42 | all keys of the request are locked |
| `MapLock.Lock.TaskDequeue` | src/utils/map_lock.rs:44-67 | the first task of the queue whose keys are all free, or none if there is none |
| `MapLock.Lock.TryLock` | src/utils/map_lock.rs:117-140 | granted exactly when all keys are free, otherwise nothing changes |
| `MapLock.Lock.RequestLock` | src/utils/map_lock.rs:142-184 | granted exactly when all keys are free, otherwise queued last; the invariant holds |
| `MapLock.Lock.ReleaseKeys` | src/utils/map_lock.rs:104-115 | the tasks one pass over the queue can grant are granted; no queued task has all its keys free; the loop terminates |
| `Cache.InsertKeeps` | src/cache/mod.rs:281-311 | writing a joint that is unknown keeps the cache consistent, whether or not a parent has become bad |
| `Cache.PollFired` | src/cache/joint_data.rs:328-334 | looking triggers a joint exactly when it is complete and was not triggered |
| `Cache.PollKeeps` | src/cache/joint_data.rs:328-334 | looking keeps the cache consistent |
| `Cache.PromoteKeeps` | src/cache/cache_impl.rs:150-199 | moving a complete joint to normal keeps it consistent but for the joints still to be told |
| `Cache.ResolveKeeps` | src/cache/cache_impl.rs:175-184 | telling one waiting joint keeps it consistent, with one joint less to be told |
| `Cache.PurgeKeeps` | src/cache/cache_impl.rs:207-235 | one round of the purge keeps it consistent but for what is on the stack |
| `Cache.PurgeFreeKeeps` | src/cache/cache_impl.rs:316-355 | removing a free joint without unhandled references keeps it consistent |
| `CacheRun.NormalizeKeeps` | src/cache/mod.rs:314-318 | normalising keeps the cache consistent: every waiting joint has been told |
| `CacheRun.PurgeBadExact` | src/cache/cache_impl.rs:202-236 | purging removes the joint and exactly those waiting for it, directly or through others, and touches no normal or free joint and no waiting list of a joint that stays |
| `CacheRun.PurgeTakesDescendants` | src/cache/cache_impl.rs:202-236 | these are all its unhandled descendants, and besides only joints written under a bad parent and what is below those |
| `CacheRun.WaitsForParent` | src/cache/mod.rs:281-310 | an unhandled joint waits for every parent that is not normal |
| `CacheRun.NextKeeps` | src/cache/mod.rs:246-318 | every critical section keeps the cache consistent |
| `CacheRun.RunOk` | src/cache/mod.rs:246-318 | so does every run, with check, screening and write of a joint as separate steps; a joint being added stays unknown until it is written |
| `CacheRun.CacheSafety` | src/cache/cache_impl.rs:150-250 | along every run the three sets are disjoint, an unhandled joint has a bad parent exactly when it was written under one, free joints are the normal ones without children, parents of normal joints and resolved parents are normal, and the references of a normal joint are its holders plus the bad joints told of it too late |
| `CacheRun.TriggeredExactly` | src/cache/joint_data.rs:328-347 | an unhandled joint is triggered at most once, only with all parents normal, and exactly then once its adder has looked |
| `CacheRun.TriggerStep` | src/cache/cache_impl.rs:173-199 | whenever a step triggers a joint it is the first time since it was written, and its parents are all normal |
| `CacheRun.CommitExact` | src/cache/mod.rs:281-311 | the write section alone keeps the cache consistent if and only if the joint is still unknown, and brings in no bad parent if and only if it has none |
| `CacheRun.BadParentExactly` | src/cache/mod.rs:264-310 | over every run an unhandled joint has a known-bad parent exactly when it had one at the moment it was written |
| `CacheRun.RejectedInBetween` | src/cache/mod.rs:264-310 | whenever a parent is rejected between screening and write, the joint ends up unhandled under a known-bad parent |
| `CacheRun.OrphanNeverTriggered` | src/cache/cache_impl.rs:173-184 | such a joint is never triggered |
| `CacheRun.LateExactly` | src/cache/cache_impl.rs:173-184 | over every run a joint is told of a parent too late exactly when the parent was normalised while the joint, bad already, was still listed under it |
| `CacheRun.CollectableExactly` | src/cache/cache_impl.rs:360-406 | over every run a free joint has no references exactly when no unhandled joint holds it and none was told of it too late |
| `CacheRun.LateForever` | src/cache/cache_impl.rs:360-406 | a joint with such a lost reference is never collected |
| `CacheRun.RejectedWhileWaiting` | src/cache/cache_impl.rs:202-236 | whenever a joint waits for two joints in validation, and one is rejected before the other is accepted, the other one keeps a lost reference |
| `LateParent.FailingRun` | src/cache/mod.rs:246-311 | a run from the empty cache that ends there |
| `LateParent.LosingRun` | src/cache/cache_impl.rs:173-236 | a run from the empty cache after which a free joint has a reference although no joint is unhandled |
| `JointCache.SDagCache.constructor` | src/cache/cache_impl.rs:14-26 | an empty cache is consistent |
| `JointCache.SDagCache.AddMissingParent` | src/cache/cache_impl.rs:239-250 | the child is listed once under the missing parent, behind those listed already, and no other entry changes |
| `JointCache.SDagCache.SortParents` | src/cache/mod.rs:281-295 | the normal and the missing parents, in order |
| `JointCache.SDagCache.Commit` | src/cache/mod.rs:281-311 | the loops over parents, the new entry and the missing-parent lists come to the specified write |
| `JointCache.SDagCache.CheckNewJoint` | src/cache/mod.rs:214-235 | whether the joint is in one of the three sets; the step Check |
| `JointCache.SDagCache.ScreenJoint` | src/cache/mod.rs:252-279 | passes exactly a well-formed joint none of whose parents is known bad then; the step Screen |
| `JointCache.SDagCache.CommitJoint` | src/cache/mod.rs:281-311 | the step Commit keeps the cache consistent, whatever happened since the screening |
| `JointCache.SDagCache.DiscardJoint` | src/cache/mod.rs:238-242 | the step Discard: the joint and what waits for it become bad |
| `JointCache.SDagCache.IsReady` | src/cache/joint_data.rs:328-334 | true once, when the last parent is there |
| `JointCache.SDagCache.LookReady` | src/network/hub.rs:903-919 | the look of the adder is the step Look |
| `JointCache.SDagCache.NormalizeJoint` | src/cache/mod.rs:314-318 | the step Accept; returns exactly the joints it triggers |
| `JointCache.SDagCache.TransferJoint` | src/cache/cache_impl.rs:150-155 | the joint moves to normal, and those waiting for it are taken off the list |
| `JointCache.SDagCache.TellKids` | src/cache/cache_impl.rs:175-184 | the waiting joints are told in order |
| `JointCache.SDagCache.LinkParents` | src/cache/cache_impl.rs:187-198 | the joint becomes a child of its parents and the only new free joint; no count underflows |
| `JointCache.LinkCommutes` | src/cache/cache_impl.rs:173-199 | telling children and linking parents may be done in either order |
| `JointCache.SDagCache.PurgeBadJoint` | src/cache/cache_impl.rs:202-236 | the purge loop terminates and is PurgeAll |
| `JointCache.SDagCache.Unregister` | src/cache/cache_impl.rs:212-222 | references go back without underflow; unregistering under resolved parents removes nothing |
| `JointCache.SDagCache.RejectJoint` | src/validation.rs:67-77 | a joint that fails validation is purged; the step Reject |
| `JointCache.SDagCache.PurgeFreeJoint` | src/cache/cache_impl.rs:316-355 | the step Collect |
| `JointCache.SDagCache.PurgeOldTempBadFreeJoints` | src/cache/cache_impl.rs:360-406 | exactly the old temp-bad free joints without references go, in any order, and the cache stays consistent |

## Left out

- `revert_output` and the temporary business state: restoring inputs looks up owner and amount in the reverting unit, so apply and revert are no round trip as written. What that state says about the messages of a unit is a parameter of `Admission`.
- `purge_unhandled_joint` by timeout: it unregisters the joint only under its resolved parents, so stale entries stay under missing ones and the cache invariant does not cover it.
- Ancestor.CompareJoints: compares normalised joints only, because the both-free short cut assumes that child lists mirror parent lists.
- CacheRun.TriggerStep: counts triggers per insertion of a joint; a free joint that was collected and comes again starts anew.
- MaxStable.BuildToMinWl: stops at genesis for an arbitrary limit, where the source would go on reading the fake parent of genesis; for the joint's own min_wl both stop at once.
- Marking.Worker.UpdateMainChain: the worker loop that decides when to stabilise (`last_stable_level`) is not modelled; the new stable point is a parameter.
- Pipeline.ReachableInv: of the checks at admission only parents, last ball and sources are modelled; retreat of the last ball, authors, witness lists and definitions are not.
- GlobalOrder.PrepareHashTree: reads the index at one moment and lists units; the ball records built from them and the errors for unknown balls are not modelled.
- MapLock.Lock.RequestLock: the parking of the waiting coroutine and its cancellation are not modelled; keys of one request are distinct.
- That witnesses never fork the stable chain is an assumption about their behaviour, not something the code decides.
- Hashing, signatures, address checksums (a set of valid addresses stands for them), encodings, key derivation and mnemonics.
- Networking, timers, statistics, watchers, wallet and explorer.
- KV stores and cache reclamation: joints are always available in memory.
- RCU cells, lock-free lists and atomics are plain fields; panics of `unwrap` on missing input fields are errors.
- Payloads other than payments, input kinds other than transfer and issue, `data_feed` and paid witnessing.
