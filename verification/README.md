# Coldarr storage moves, verified

Coldarr moves media between fast "hot" and slow "cold" storage and finished downloads onto seed storage. It plans
moves from measured disk usage, runs them through other applications that answer late and unreliably, and decides
which downloads and leftover files may be deleted. This project models that logic in Dafny and proves what it is
for:

- **Planning** (`disk_usage`, `planner_model`, `destinations`, `reclaims`, `greedy_turns`, `branch_and_bound`,
  `reclaim_phase`, `packing_order`, `fill_phase`, `planner`, `plan_rounds`, `build`, `ledger`): clamped usage
  arithmetic on shared volumes, the greedy and the branch-and-bound reclaim placement, the look-ahead that stops a
  fill phase, and the loop of rounds that builds a phased plan.
- **What plans hold** (`plan_contents`, `fill_turns`, `plan_optimality`): in the input's own fields and in numbers,
  which items move which way, in what order and where to, and that no reclaim phase could take more.
- **Running** (`mover`, `mover_proofs`, `mover_runs`, `mover_failures`, `mover_engine`): the move engine as a state
  machine of interleaved queue steps whose environment answers freely, its invariant, what follows for whole runs,
  why entries fail, and the class whose methods take exactly those steps.
- **Both together** (`execution`, `phase_safety`, `plan_runs`, `smooth_runs`, `reservations`, `reserved_runs`,
  `reservation_gap`): a plan, run in any interleaving with any failures, is never refused for lack of room and never
  overfills a volume; and exactly when that still holds with space held back for downloads.
- **Waiting and labelling** (`settle`, `executor`, `verdicts`, `serial_runs`): when a transfer counts as landed, what
  is asked of qBittorrent before and after, and whole downloads runs through one executor.
- **Shared files** (`path_strings`, `path_names`, `downloads`, `hold_groups`, `share_clusters`, `removals`,
  `removal_rules`, `remover`, `downloads_plan`, `downloads_decided`, `downloads_gap`, `downloads_runs`,
  `seeding_rules`): two sorted-path algorithms for one overlap relation, which downloads may move or be removed,
  where moved ones land, and the seeding requirement.
- **Leftovers and schedules** (`orphans`, `disk_sizes`, `scheduler`, `schedule_times`): the orphan scan and what it
  adds up, the guarded deletion, and when tasks run.

Check everything with `dafny verify dfyconfig.toml`.

Assumptions, each a `requires` where it is used: paths on one device start with equal usage (`Coherent`), tier
paths are unique and a target is at most its max (`ValidTiers`, internal/config/config.go:645-685), the items on a
volume weigh at most what it has in use, download hashes are unique, content paths are cleaned and hold no NUL,
and the clock does not go back.

Where the code and its documentation disagree the code is modelled. A lemma shows the difference, and another says
exactly when there is none:

- `ReservationGap.GapIsRefused`: space held back for downloads is taken off the free bytes with a floor at 0
  (internal/engine/downloads.go:476-487), so what does not fit there is forgotten, and a later phase plans onto room
  those downloads will take. `ReservedRuns.RoomKept` says exactly when that cannot happen: the reservation fits, or
  the highest level a plan may reach is no more than the reservation or is within the disk's own ceiling. Downloads
  plans share the floor (internal/engine/downloads.go:564) and the condition (`DownloadsPlan.ReservedInOrder`,
  `DownloadsGap.DownloadsGapIsRefused`).
- `Remover.UnchangedProceedsExactly`: downloads nested in one another are planned to be removed together
  (internal/torrents/remove.go:18) but refused, since every member is compared with one content path.
- `DownloadMoves.InvisibleIsFinal` and `NotInARow`: the limit on landings Coldarr cannot see is on their total, not
  on how many come in a row (internal/torrents/executor.go:46-50); `InARowExactly` says when the two agree.
- `DownloadMoves.UnmovedGivenUpExactly`: a member that never moved can be reported as having stopped moving, exactly
  when its group has two members.
- `DownloadsPlan.MayCollide` and `DownloadsGap.NestedSeedsCollide`: the check for existing content looks at the disk,
  not at the plan, so two downloads can be sent to one place, also by way of seed paths one of which is inside the
  other (internal/config/config.go:645-653 forbids only equal ones); `PlannedMeetAnywhere` says which.
- `DownloadsGap.SharedVolumeMayRefuse`: a downloads plan counts space as freed within its one phase, so on a shared
  volume a failure can make a later move be refused; `DownloadsPlan.WhateverFailsExactly` says exactly when.
- `Orphans.UnfinishedPassesCheck`: the check before a deletion does not know the suffix the scan knows;
  `CheckAgainstScan` and `ListedPassesExactly` say how the two compare otherwise.
- `SeedingRules.FirstTrackerMayEase`: only a download without trackers can get an easier requirement from one;
  `FirstTrackersEaseExactly` says when.

## Model

| member | source | states |
|---|---|---|
| `DiskUsage.PercentMonotone` | internal/diskusage/diskusage.go:54-60 | More bytes used and fewer free never lowers the used percentage, at any two readings. |
| `DiskUsage.PlusMonotone` | internal/diskusage/diskusage.go:218-231 | The dominance order of disks (used at most, free at least) survives adding or freeing any amount, clamping included, and orders the percentages. |
| `DiskUsage.GroupVolumes` | internal/diskusage/diskusage.go:240-256 | Each path is listed with exactly the configured paths of its device, each once, itself included. |
| `DiskUsage.UsageTable.Apply` | internal/diskusage/diskusage.go:258-268 | The table in place becomes the old one with the bytes added on every usable path of the volume and on nothing else. |
| `DiskUsage.AppliedCoherent` | internal/diskusage/diskusage.go:258-268 | Paths of one volume that read the same still do after any bytes are applied to any path. |
| `DiskUsage.AppliedUndone` | internal/diskusage/diskusage.go:218-268 | Bytes that fit, added and then taken back, leave every sibling of the volume exactly as it was: no clamp is reached. |
| `PlannerModel.FitsMonotone` | internal/planner/planner.go:547-592 | What fits a disk fits a less full one of the same size under the same or a higher ceiling. |
| `PlannerModel.AfterCoherent` | internal/planner/planner.go:208-228 | Volume coherence holds after any list of moves has landed. |
| `PlannerModel.CountMove` | internal/planner/planner.go:224-225 | Counting a planned move turns the working table into the one with that move landed: freed on the whole source volume, used on the whole destination volume. |
| `Destinations.BestSlotIsFullest` | internal/planner/planner.go:554-592 | Under either kind of ceiling the cold destination is the path with the highest used percentage of those that can take the item, the first configured among equals; there is none exactly when no path can. |
| `Destinations.BestDestination` | internal/planner/planner.go:554-592 | The nested loops over tiers and paths return that pick. |
| `Destinations.PickFindsRoom` | internal/planner/planner.go:547-552 | A fill has a destination exactly when some cold path takes it under its max; the target is respected whenever any path can. |
| `Destinations.PickIsFullest` | internal/planner/planner.go:538-552 | The destination is the fullest path with room under its target or, no path having that, the fullest with room under its max. |
| `Destinations.PickDestination` | internal/planner/planner.go:547-552 | The two passes, target and then max, return that pick. |
| `Destinations.HotOptionsExact` | internal/planner/planner.go:607-644 | A hot path is offered to a reclaim exactly when it can hold it under its effective ceiling. |
| `Destinations.HotDestinationOptions` | internal/planner/planner.go:607-644 | The loops return those options in configured order. |
| `Destinations.BestHotDestination` | internal/planner/planner.go:648-656 | The option taken leaves no more room than any other, the first among equals. |
| `Destinations.TightestLeavesLeast` | internal/planner/planner.go:614-656 | The hot path taken leaves the least of what is free and what its ceiling allows, less the item, of all that can hold it. |
| `Destinations.NextIsMostConstrained` | internal/planner/planner.go:423-444 | The reclaim placed next has fewest hot paths, then is largest, then first; there is none exactly when no pending reclaim has a path. |
| `Destinations.NextReclaim` | internal/planner/planner.go:423-444 | The loop with its local bests returns that reclaim and its tightest path. |
| `Reclaims.GreedyCount` | internal/planner/planner.go:316-421 | placeableReclaimCount equals the number of greedy placements, for any pending list and usage. |
| `Reclaims.GreedyFeasible` | internal/planner/planner.go:316-335 | The greedy placements each fit in turn with room held for those before, and place nothing twice. |
| `Reclaims.GreedyReclaimPlacements` | internal/planner/planner.go:316-335 | The loop over the shrinking list returns those placements under the candidates' original indices. |
| `Reclaims.PlaceableReclaimCount` | internal/planner/planner.go:406-421 | The counting loop returns that number. |
| `GreedyTurns.GreedyInTurn` | internal/planner/planner.go:316-444 | Each greedy placement takes, of the reclaims not placed before it, the one with fewest hot paths, then the largest, then the first, to its tightest path, room being held for those before. |
| `GreedyTurns.GreedyRunsOut` | internal/planner/planner.go:316-335 | It stops only when, with all of that placed, no reclaim left has a hot path. |
| `BranchAndBound.Search.Run` | internal/planner/planner.go:264-301 | A search node leaves current and capacity exactly as it found them on every volume sibling, never loses a placement, visits at most a full tree, and, budget left, has covered every feasible assignment of the rest in search order. |
| `BranchAndBound.Search.Branch` | internal/planner/planner.go:288-298 | One branch: place, search on, take back; nothing with that first choice is left unexplored and capacity is restored. |
| `BranchAndBound.CanExtend` | internal/planner/planner.go:282-293 | An offered option extends the placements feasibly and in order, and undoing it restores the capacity. |
| `BranchAndBound.EveryFirstChoice` | internal/planner/planner.go:282-299 | Branching on every option and on leaving out covers every feasible assignment. |
| `BranchAndBound.CountBranch` | internal/planner/planner.go:264-299 | Node by node, the branches below a node visit no more than as many full subtrees. |
| `ReclaimPhase.SearchOrder` | internal/planner/planner.go:244-262 | The search order holds exactly the reclaims with a hot path, fewest paths first and then largest first. |
| `ReclaimPhase.AllocateReclaims` | internal/planner/planner.go:242-314 | The placements are feasible, at least as many as greedy, and - unless the node budget is spent, which needs a tree at least that large - as many as any feasible assignment in search order; what is left is exactly the rest. |
| `ReclaimPhase.NotPlaced` | internal/planner/planner.go:303-313 | The leftovers are exactly the candidates no placement names, in their order. |
| `ReclaimPhase.AttemptReclaims` | internal/planner/planner.go:208-228 | A reclaim phase's entries are each admitted with only the destination room of the earlier ones counted, take each candidate at most once and leave the usage with all of them landed; they are at least the greedy count, and as many as any feasible placements in the search order wherever a full search takes fewer than 50 000 nodes. |
| `BranchAndBound.TreeSizeIs` | internal/planner/planner.go:230 | A full search of n reclaims over m hot paths is ((m+1)^(n+1)-1)/m nodes. |
| `PackingOrder.Swap` | internal/planner/planner.go:282-293 | Under one ceiling per volume, two placements that fit one after the other fit the other way round to the same effect. |
| `PackingOrder.InSearchOrder` | internal/planner/planner.go:242-301 | Under one ceiling per volume, whatever can be placed in some order can be placed in the search order. |
| `PackingOrder.OptimalInAnyOrder` | internal/planner/planner.go:242-301 | So covering the search order is optimal over every choice of reclaims, paths and sequence. |
| `PlanOptimality.FeasibleInTurn` | internal/planner/planner.go:282-293 | Placements are feasible exactly when each, room being held for those before, has room in numbers on a hot path of a tier that takes its kind. |
| `PlanOptimality.PhasePlacesMost` | internal/planner/planner.go:208-314 | So a reclaim phase places as many reclaims as any choice of them, of paths and of sequence, wherever the tree of those with a hot path is below 50 000 nodes. |
| `PlanOptimality.RoundsPlaceMost` | internal/planner/planner.go:145-183 | And this holds of every round of every plan. |
| `PlanOptimality.GoalsGrow` | internal/planner/planner.go:142-170 | The goal the fills aim at is 1 before the first wave of reclaims, four times that after each, or all that are still pending. |
| `FillPhase.ReclaimBatchTarget` | internal/planner/planner.go:384-404 | The look-ahead loop returns the reclaims that every pick the phase could make would make room for, at most the goal. |
| `FillPhase.PickAdmits` | internal/planner/planner.go:342-366 | A picked fill is admitted under the ceiling its entry carries. |
| `FillPhase.AttemptFills` | internal/planner/planner.go:342-378 | A fill phase is a prefix of the picks the look-ahead replayed, each admitted on destination room alone; it stops as soon as, and not before, the finished phase makes room for the target, which it then does. |
| `FillPhase.StoppedInTime` | internal/planner/planner.go:342-378 | Stopping early means the target is reached and no shorter prefix reached it; not stopping means every pick was taken. |
| `Planner.PathsOf` | internal/planner/planner.go:97-125 | The usable hot or cold paths are exactly the configured ones that have a usage reading. |
| `Planner.MisplacedOnCold` | internal/planner/planner.go:489-506 | The loop returns the specified reclaims; `PlanContents.ReclaimsMustGo` and `MustGoIsReclaimed` say which they are. |
| `Planner.ColdCandidates` | internal/planner/planner.go:511-536 | The loop and the sort return the specified candidates, sorted; `PlanContents.FillsExactly` and `FillTurns.FillsColdestFirst` say in the input's own fields which they are and in what order. |
| `Planner.ItemsKept` | internal/planner/planner.go:208-228 | Placing some candidates conserves items: those in entries and those left over are together the ones there were. |
| `Build.ExtendSound` | internal/planner/planner.go:145-183 | Appending one more phase to a sound plan keeps every earlier and later entry admitted as planned. |
| `Build.ExtendContiguous` | internal/planner/planner.go:142-170 | Phase numbers stay contiguous from 0, one call to a number. |
| `Build.StillDirected` | internal/planner/planner.go:145-183 | Round after round, every entry brings a reclaim candidate from its cold path to a hot one or takes a fill candidate from its hot path to a cold one, under that tier's ceiling, and only candidates are left over. |
| `Build.RunReclaims` | internal/planner/planner.go:158-170 | The reclaim half of a round is a reclaim phase from where building stands, keeps the plan sound, conserves items, and without progress leaves no reclaim a destination. |
| `Build.RunFills` | internal/planner/planner.go:172-176 | The fill half is a fill phase from there: the picks in order up to the one that makes room for the batch the look-ahead aims at, or all of them. |
| `PlanRounds.AddRound` | internal/planner/planner.go:145-183 | A round that places something continues a run: its reclaim phase and then its fill phase start exactly from what the rounds before left - usage, pending lists, goal and phase number. |
| `PlanRounds.PayRound` | internal/planner/planner.go:172-183 | Whenever a round places fills, the next one, from where it ends, places at least the reclaims those fills were to make room for. |
| `PlanRounds.RoundsLookAhead` | internal/planner/planner.go:145-183 | In every whole run of rounds each fill batch has a next round that pays it. |
| `PlanRounds.LogIsUnique` | internal/planner/planner.go:145-183 | A plan has one log: with no two candidates one item, its entries alone determine every round, what each placed and left, and where it stopped. |
| `PlanRounds.ProgressAddsUp` | internal/planner/planner.go:136-141 | Rounds that each place something are no more than what they take out of the pending lists: the bound is never reached. |
| `Build.Rounds` | internal/planner/planner.go:136-201 | The loop always leaves by its break. The plan is the concatenation of a whole run of rounds from the candidates to the leftovers, sound with contiguous phases; every candidate ends exactly once in an entry or a leftover, and no leftover has a destination in the final usage. |
| `Build.BuildPlan` | internal/planner/planner.go:97-201 | All of that for the candidates of the input, for every input whose paths are unique and volumes coherent; what such a plan holds is told by `PlanContents` and `FillTurns`. |
| `Build.OneLog` | internal/planner/planner.go:97-201 | For an input that lists no item twice that run is the only one with the plan's entries, and in it every fill batch is paid by the next round. |
| `PlanContents.FitsIsRoom` | internal/planner/planner.go:566-592 | Something fits exactly when the bytes are free and, with them, used is at most the total and at most the ceiling's share of used plus free. |
| `PlanContents.FillsExactly` | internal/planner/planner.go:511-528 | The fills are exactly the items on a usable hot path that are scored cold, are large enough and are not cooling down. |
| `PlanContents.EntryIsAllowed` | internal/planner/planner.go:97-201 | Every entry of a built plan moves an item of the input off its root: to a cold path only one on a usable hot path that is scored cold, large enough and not cooling, to a hot path only an unprotected one on a usable cold path that is a favorite, upcoming, or monitored with its cutoff unmet. |
| `PlanContents.NothingForgotten` | internal/planner/planner.go:97-201 | Conversely every such item is in an entry that way, or left over. |
| `PlanContents.ReclaimsMustGo` | internal/planner/planner.go:489-506 | Every reclaim is such an item, with the first reason of favorite, upcoming and upgrade that applies. |
| `PlanContents.EntryHasRoom` | internal/planner/planner.go:208-378 | At its turn every entry has room in numbers on a path of a tier that takes its kind, under that tier's ceiling (97 percent for a hot tier that sets none), nothing its own phase frees being counted. |
| `PlanContents.LeftHasNoRoom` | internal/planner/planner.go:178-201 | With the whole plan landed no cold path has room for a fill left over, and no hot path for a reclaim left over. |
| `FillTurns.FillsColdestFirst` | internal/planner/planner.go:530-535 | The entries that take items to cold paths in one phase go by descending score, and by descending size among equal scores. |
| `FillTurns.FillsInTurn` | internal/planner/planner.go:342-378 | Each moves the first fill in that order that is not moved yet and has room on some cold path, room being held for those before; it goes to the fullest path under its target, or else the fullest under its max. |
| `FillTurns.FillsStop` | internal/planner/planner.go:342-404 | A fill phase is a prefix of the picks that run until no fill is left with room. It ends as soon as its landing lets as many pending reclaims be placed as the goal asks for, or as all the picks would, and not before; where that is none it takes every pick. |
| `Ledger.AfterExact` | internal/planner/planner.go:208-228 | Along a sound plan nothing is clamped: each path's projection is its first reading plus what arrives and less what leaves, when what leaves was there. |
| `Ledger.ReservedExact` | internal/planner/planner.go:208-228 | While the room held for a phase leaves anything free, that is its first free bytes less exactly what is bound for the volume, and the used bytes always grow by exactly that. |
| `Ledger.ReservedCovers` | internal/planner/planner.go:208-228 | The room held within a phase is never more than what is free once all of it has landed. |
| `Ledger.RoomToLand` | internal/planner/planner.go:208-228 | When an entry's turn comes in plan order, its whole volume has the bytes free. |
| `MoverProofs.InvStart` | internal/mover/mover.go:283-293 | A new run satisfies the engine's invariant. |
| `MoverProofs.StepKeepsInv` | internal/mover/mover.go:372-573 | Every step of every queue, with any answer from the app, the disk or the history, and every phase barrier keeps it. |
| `MoverProofs.EarlierRequestsOver` | internal/mover/mover.go:425-471 | When a queue is about to request a move, every earlier request of that queue is over. |
| `MoverProofs.AtBarrier` | internal/mover/mover.go:385-398 | At a barrier the phase counts as landed exactly when every entry of it has. |
| `MoverRuns.EveryRunInv` | internal/mover/mover.go:372-573 | Every state any interleaving can reach satisfies the invariant. |
| `MoverRuns.OneWriterPerVolume` | internal/mover/mover.go:283-293 | At any moment at most one transfer per queue (volume, or the whole run in serial mode) may be writing. |
| `MoverRuns.NoMoveAfterAbandoned` | internal/mover/mover.go:441-462 | Once an accepted or ambiguous request is given up on unconfirmed, that queue makes no further request in this or any later phase. |
| `MoverRuns.PhaseBarrier` | internal/mover/mover.go:385-398 | An entry is requested only after every entry of every lower phase has landed, and none is requested twice. |
| `MoverRuns.DoneIsFinished` | internal/mover/mover.go:385-403 | When the run is done nothing is pending or moving. |
| `MoverRuns.StatusPath` | internal/mover/mover.go:295-308 | A status only goes from pending to moving to done or failed, or from pending to failed, and a terminal one never changes. |
| `MoverRuns.BarrierOpens` | internal/mover/mover.go:385-398 | The next phase starts exactly when everything so far has landed; an entry that landed but was not recorded blocks nothing, and otherwise every later entry is failed. |
| `MoverFailures.RoomInNumbers` | internal/mover/mover.go:492-518 | The room check refuses an entry exactly when there are bytes to move and the destination cannot be read, has fewer free, or would with them be over the ceiling's share of used plus free. |
| `MoverFailures.StoppedForAReason` | internal/mover/mover.go:441-462 | In every reachable state a stopped queue has an earlier entry of this phase that was requested, is over, and was neither confirmed nor turned down. |
| `MoverFailures.FailedForAReason` | internal/mover/mover.go:372-471 | An entry that failed unrequested failed its own storage or room check, comes behind one of its queue and phase whose transfer may still be running, or is of a phase after one where something did not land; and whatever fails its own check is failed and never requested. |
| `MoverFailures.StatusMeans` | internal/mover/mover.go:531-573 | What is done has landed, what landed is failed exactly when it could not be recorded, and what failed after its request otherwise was turned down or may still be running. |
| `MoverRuns.RunsEnd` | internal/mover/mover.go:372-471 | No run has more than six steps an entry and one a phase. |
| `MoverRuns.SomethingCanHappen` | internal/mover/mover.go:372-471 | No run that is not done is stuck. |
| `MoverEngine.NewJob` | internal/mover/mover.go:283-293 | Entries join the queue of their destination's volume, or one queue in serial mode, and the phases are the plan's in ascending order. |
| `MoverEngine.RunProgress.VerifyRoom` | internal/mover/mover.go:492-518 | The room check in place is the machine's step for that reading: with no room, in numbers, the entry is failed unrequested and the queue goes on to its next one; with room it goes on to the request. |
| `MoverEngine.RunProgress.RequestMove` | internal/mover/mover.go:546-555 | A request is recorded, and what its answer does to the queue is the machine's step. |
| `MoverEngine.RunProgress.Settle` | internal/mover/mover.go:557-562 | So is the outcome of the wait: landed, or the queue stopped for good. |
| `MoverEngine.RunProgress.Record` | internal/mover/mover.go:564-572 | So is the recording, whose failure leaves the entry failed but landed. |
| `MoverEngine.RunProgress.Barrier` | internal/mover/mover.go:385-403 | So is the barrier between phases. |
| `MoverEngine.RunProgress.Run` | internal/mover/mover.go:372-403 | Whatever the interleaving and the answers, the run ends with every entry done or failed, having taken only enabled steps. |
| `Execution.SameGrouping` | internal/mover/mover.go:473-478 | The engine's volume keys and the planner's volume groups put the same paths together. |
| `Execution.FlowBound` | internal/mover/mover.go:372-471 | In any state, the net bytes on a volume are at most what the plan held there. |
| `Execution.NeverRefused` | internal/mover/mover.go:492-518 | In every state of every run of a sound plan - any same-phase moves failed, any part of each transfer written and freed - an entry whose turn comes passes the room check. |
| `PhaseSafety.NeverOverfilled` | internal/planner/planner.go:208-378 | In every such state no volume is asked for more than it has free, and none is fuller than its phase-start level or the ceiling of an entry of the phase landing there. |
| `PhaseSafety.PhaseFitsFree` | internal/planner/planner.go:208-228 | All the sizes bound for one volume in one phase total at most its free bytes when the phase begins: nothing leaving it meanwhile is counted on. |
| `PlanRuns.OutflowBounded` | internal/planner/planner.go:97-201 | A built plan takes no more off a volume than the items on it weigh: each item moves at most once. |
| `ReservedRuns.ReservedNeverRefused` | internal/mover/mover.go:492-518 | In every state of every run of a sound plan on disks with space held back, with any part of the reserved bytes written, before or after the run frees room for them, an entry passes the room check wherever RoomKept held of the disk, the reservation and the ceiling before planning. |
| `ReservedRuns.BuiltPlanNeverRefused` | internal/planner/planner.go:97-201 | So any plan Build returns on reserved usage is never refused there, in any interleaving and with any failures: in particular wherever the reservation fits in the free space. |
| `ReservationGap.GapPlan` | internal/engine/downloads.go:468-488 | Wherever RoomKept fails under a ceiling configuration allows, there is an input every plan for which moves one item off the disk and brings another onto the room that leaves, a phase later. |
| `ReservationGap.GapIsRefused` | internal/mover/mover.go:492-518 | And some run of every such plan comes to an entry the room check refuses, with no more than the reserved bytes written: RoomKept is exact for every disk, reservation and ceiling. |
| `ReservationGap.ClampedReservation` | internal/engine/downloads.go:476-487 | With numbers: 10 bytes free of 1000, 100 reserved, default ceiling; planned up to 980 used, which is 98% once the 100 are written. |
| `SmoothRuns.SmoothRunsComplete` | internal/mover/mover.go:372-403 | When the app accepts, confirms and records, no move of a sound plan ever fails, and the finished run has all of them done. |
| `Reservations.ReservationsFor` | internal/engine/downloads.go:405-439 | A healthy path is reserved exactly the bytes that counted downloads writing to its disk have left, and nothing else is reserved. |
| `Reservations.OwedTogether` | internal/engine/downloads.go:405-439 | Paths on one device are reserved the same. |
| `Reservations.OwedCovers` | internal/engine/downloads.go:405-439 | Every counted download's remaining bytes are in its disk's reservation. |
| `Reservations.OwedOneMore` | internal/engine/downloads.go:405-439 | A download counts unless it is complete, paused, errored or has nothing left, towards the device its data is on, else the one its tier path is on, else that path alone. |
| `Reservations.StillCoherent` | internal/engine/downloads.go:468-488 | Usage with reservations applied is still coherent, as planning needs. |
| `Reservations.DownloadsKeepRoom` | internal/engine/downloads.go:405-488 | From the downloads in progress to a run: however far each has got, within what it had left, an entry of a plan built with their bytes held back passes the room check wherever RoomKept held. |
| `Settling.StableRunMeans` | internal/mover/mover.go:705-721 | A stable count of k is exactly: the last k readings came after the last reset, growth had been reached by the first of them, and none changed. |
| `Settling.SettleTracker.Observe` | internal/mover/mover.go:705-721 | observe answers true exactly when the stable run since the growth and the last reset is long enough. |
| `Settling.AskedApart` | internal/mover/mover.go:603-671 | Confirmations are at least stableTarget readings apart across the growth and the no-growth path, and the first comes after that many. |
| `Settling.GrowthIsNineTenths` | internal/mover/mover.go:686-703 | The growth waited for is nine tenths of the size, in whole bytes. |
| `Settling.AskedWithoutGrowth` | internal/mover/mover.go:655-671 | While no reading has reached the growth, the app is asked after one of every stableTarget readings in a row. |
| `Settling.AskedWhenStable` | internal/mover/mover.go:640-652 | Once the growth was reached and the last stableTarget readings did not change, it was asked after one of them. |
| `Settling.QuietMoveSettles` | internal/mover/mover.go:593-600 | A transfer that never shows on the disk, everything in place at every look, lands at the stableTarget-th reading. |
| `Settling.Settle` | internal/mover/mover.go:603-678 | Whatever was remembered of the move, the wait succeeds only in an iteration that asked and was told landed, fails for good only when told so, and otherwise goes on to the deadline, having asked exactly when due (`AskedApart`, `AskedWithoutGrowth`, `AskedWhenStable`); every earlier answer was not yet, and what is remembered of other moves stays. |
| `Settling.SettledIsLanded` | internal/mover/mover.go:603-678 | Success means that the confirmation saw every member in place and the content at 99% or more of its size. |
| `SerialRuns.RunOne` | internal/mover/mover.go:531-573 | One entry, whatever was remembered of it: the checks, answers and wait decide whether it landed, is safe to go on from and is done; what is requested and logged is exactly that, and no other move's memory changes. |
| `SerialRuns.RunSerial` | internal/mover/mover.go:425-471 | Any list of entries through one executor: requests, log and statuses are those of the turns one after another, up to and including the first whose transfer may still be going on; the rest fail unasked. |
| `SerialRuns.LabelledIsLanded` | internal/torrents/executor.go:23-26 | In every run a group is labelled only after a confirmation of its own turn saw all of it in place at 99% or more of its size. |
| `SerialRuns.LandedIsLabelled` | internal/torrents/executor.go:172-193 | And every landing whose category exists or is created is labelled. |
| `SerialRuns.EarlierIsOver` | internal/mover/mover.go:441-471 | When an entry's turn comes, every earlier one was confirmed in place, was turned down or was never asked for: one move at a time. |
| `SerialRuns.UnsafeIsLast` | internal/mover/mover.go:453-461 | Within the run, behind an entry that may still be writing nothing is asked of qBittorrent, not even a label, and every entry is failed. |
| `SerialRuns.BackAtStartMoved` | internal/torrents/executor.go:36-40 | An entry is given up on as back at its start only if an earlier confirmation of its own turn saw its group moving, whatever other entries did. |
| `DownloadMoves.Executor.Move` | internal/torrents/executor.go:76-102 | A relocation is requested exactly when every member is still finished, where the plan found it and not auto-managed behind its back. |
| `DownloadMoves.Executor.ConfirmLanded` | internal/torrents/executor.go:122-170 | The loop gives the verdict on the first member out of place and remembers what that look showed, for this move only. |
| `Verdicts.GoneIsFinal` | internal/torrents/executor.go:129-133 | With all members before it arrived, one qBittorrent no longer has is final. |
| `Verdicts.AwayDecides` | internal/torrents/executor.go:134-152 | One that has not arrived decides: errored, or incomplete at its new home, is final; moving or checking is not; at its start it is final once the group was seen moving; anywhere else it is not. Only moving is remembered. |
| `Verdicts.ArrivedIsSeen` | internal/torrents/executor.go:154-169 | With all arrived, what Coldarr sees of at least 99 percent of the size has landed, less or unreadable has not yet, and the third look that cannot see it is final. |
| `Verdicts.SomeoneDecides` | internal/torrents/executor.go:128-152 | And one of these is always the case. |
| `DownloadMoves.Executor.Landed` | internal/torrents/executor.go:176-231 | Labelling creates the category only when missing and only then sets it; the move is logged whether or not that worked, and success is exactly both. |
| `DownloadMoves.MemoriesMean` | internal/torrents/executor.go:233-256 | From any memory and after any looks, moving is remembered exactly when it was or some look saw the group moving, and the unseen count grows by the number of invisible looks. |
| `DownloadMoves.BackAtStartIsFinal` | internal/torrents/executor.go:142-146 | A member back at the start is a final failure exactly when an earlier look saw the group moving. |
| `DownloadMoves.InvisibleIsFinal` | internal/torrents/executor.go:156-161 | An invisible landing is final exactly at the third invisible look in all. |
| `DownloadMoves.NotInARow` | internal/torrents/executor.go:46-50 | The limit's comment says in a row; three looks of which no two are in a row are final all the same. |
| `DownloadMoves.InARowExactly` | internal/torrents/executor.go:46-50 | The answer agrees with the in-a-row rule exactly while the total is below the limit or the run up to this look reaches it. |
| `DownloadMoves.UnbrokenIsInARow` | internal/torrents/executor.go:46-50 | It always agrees when no look after an invisible one shows anything else. |
| `DownloadMoves.UnmovedGivenUpExactly` | internal/torrents/executor.go:36-40 | A move can be given up on over a member back at its start that no look saw moving exactly when its group has two different members: the memory is per group. |
| `DownloadMoves.OneMemberMoved` | internal/torrents/executor.go:142-146 | With one member, being given up on at the start means that very download was seen moving. |
| `SeedingRules.BestOverride` | internal/torrents/seeding.go:101-110 | The override chosen matches the host and no matching one is longer; there is none exactly when none matches. |
| `SeedingRules.MatchesExactly` | internal/torrents/seeding.go:104 | An override is for its host itself and for every host that ends in a dot and it. |
| `SeedingRules.SameLengthSameHost` | internal/torrents/seeding.go:101-110 | Two matching overrides of one length are for the same host. |
| `SeedingRules.OneRule` | internal/torrents/seeding.go:78-110 | Each host goes by exactly one number of days under a valid configuration. |
| `SeedingRules.OverrideOrderIrrelevant` | internal/torrents/seeding.go:101-110 | Which one does not depend on the order of the overrides. |
| `SeedingRules.Requirement` | internal/torrents/seeding.go:78-97 | Forever exactly when some binding rule is 0 days; otherwise the maximum of the binding rules, and one of them. |
| `SeedingRules.SeedingStatus` | internal/torrents/seeding.go:45-73 | Met exactly when trackers and time are known and the time satisfies every tracker's rule with the grace on top; the requirement is the strictest binding rule and the grace in days of 86 400 seconds, the time the lesser of what is reported and what has passed since completion. |
| `SeedingRules.MoreTrackersNoEasier` | internal/torrents/seeding.go:36-38 | Adding trackers to a download that has one never turns an unmet requirement into a met one. |
| `SeedingRules.FirstTrackersEaseExactly` | internal/torrents/seeding.go:75-97 | The first trackers of a download that had none ease its requirement exactly when none asks for ever and the strictest asks for less than the default, or the default is for ever. |
| `SeedingRules.TrackerOrderIrrelevant` | internal/torrents/seeding.go:78-97 | The order the trackers are listed in changes nothing. |
| `SeedingRules.FirstTrackerMayEase` | internal/torrents/seeding.go:75-82 | As with one day under a default of ten. |
| `PathStrings.Between` | internal/torrents/classify.go:417-435 | In string order, everything between a prefix and a string that has it has it too. |
| `PathStrings.UnderTransitive` | internal/torrents/classify.go:510-512 | Containment of paths is transitive. |
| `PathStrings.FolderContiguous` | internal/torrents/remove.go:168-173 | In separator-first order everything between a folder and something inside it is inside it. |
| `PathStrings.FolderFirst` | internal/torrents/remove.go:274-276 | And a folder comes before everything inside it. |
| `PathNames.UnderIsByName` | internal/torrents/classify.go:510-512 | One path is inside another exactly when its names, one by one, begin with the other's. |
| `PathNames.BeforeDecides` | internal/torrents/remove.go:117-122 | A string comes before another exactly when, where they first differ, it ends or has the lower character. |
| `HoldGroups.BreakMissesNothing` | internal/torrents/classify.go:417-435 | Once a path no longer starts with the outer one, no later path is inside it: the early break misses nothing. |
| `HoldGroups.NestedIsForward` | internal/torrents/classify.go:417-435 | The forward double loop finds exactly the paths that overlap another path. |
| `HoldGroups.HoldAll` | internal/torrents/classify.go:457-465 | Exactly the ready members become held. |
| `HoldGroups.HoldGroups` | internal/torrents/classify.go:403-455 | Exactly the ready downloads overlapping a download at another path, or one not ready, are held and nothing else changes; so a download left ready has only ready downloads at its own path sharing its files. |
| `HoldGroups.HeldIsUnclear` | internal/torrents/classify.go:403-455 | Nested paths and blocked groups are together exactly the downloads with something in the way. |
| `HoldGroups.GroupsStayTogether` | internal/torrents/plan.go:249-251 | Whatever overlaps a download with nothing in its way has nothing in its way either. |
| `ShareClusters.CloseFolders` | internal/torrents/remove.go:178-180 | Popping the stack keeps every open folder that contains the next path and leaves the innermost one containing it on top. |
| `ShareClusters.StaysOpen` | internal/torrents/remove.go:177-189 | Every folder still needed by a later path is on the stack at each step. |
| `ShareClusters.OverlapsShareAnchor` | internal/torrents/remove.go:168-189 | Whatever already placed overlaps the next path shares its outermost open folder. |
| `ShareClusters.ClustersAreLinks` | internal/torrents/remove.go:152-191 | Two paths get one cluster number exactly when a chain of overlaps links them. |
| `ShareClusters.ShareClusters` | internal/torrents/remove.go:155-191 | The clusters are exactly the connected components of content overlap: every download with content is in one, once, and two share a cluster exactly when linked. |
| `Removals.FindRemovable` | internal/torrents/remove.go:68-88 | The hashes cleared are exactly those that pass every guard, and the held list is exactly the done ones that fail one, each with its reason. |
| `Removals.RightFromCluster` | internal/torrents/remove.go:90-116 | A cluster's removal takes exactly its cleared members and deletes files exactly when there is no other. |
| `Removals.ClustersApart` | internal/torrents/remove.go:90-116 | No download is in two removals. |
| `Removals.WithinLimit` | internal/torrents/remove.go:124-132 | Each removal is taken exactly when it fits with those taken before; the total stays within the limit and no deferred one would still fit. |
| `Removals.PlanRemovals` | internal/torrents/remove.go:67-134 | The planned and deferred removals cover each cleared download exactly once, longest-seeded first; the limit holds in downloads and no deferred removal fits. |
| `Removals.NoFileTakenFromOthers` | internal/torrents/remove.go:52-66 | A removal that deletes files takes every download whose content overlaps what it deletes, and all of them passed the guards. |
| `Removals.NoLibraryFileTouched` | internal/torrents/remove.go:136-150 | Nothing removed overlaps a library path, and everything removed was imported and has met its requirement. |
| `RemovalRules.PlannedQualify` | internal/torrents/remove.go:68-88 | What a plan removes lies on a downloads tier, has met its requirement, is waiting, ready, held or parked, is confirmed as imported, and meets no library path. |
| `RemovalRules.QualifiedArePlanned` | internal/torrents/remove.go:68-134 | And every download that is all this, with content, is in a removal. |
| `RemovalRules.HeldExactly` | internal/torrents/remove.go:78-85 | Held back are exactly the ones done seeding that lack the confirmation, and those with it that meet a library path. |
| `RemovalRules.LongestSeededFirst` | internal/torrents/remove.go:117-132 | This run's removals go by descending seeding time, and by name among equals. |
| `Remover.Client.Remove` | internal/torrents/remove.go:208-262 | Deletion is requested exactly when every hash passes the checks, and refused over one that does not; afterwards the outcome tells exactly which answer went wrong, and success is exactly that none is listed any more and it was logged. |
| `Remover.ProceedsOnDone` | internal/torrents/remove.go:219-231 | What is deleted was still listed, complete, seeding, at the removal's path and past its requirement. |
| `Remover.RefusedOverOne` | internal/torrents/remove.go:219-231 | A refusal is over one that is not. |
| `Remover.UnchangedProceedsExactly` | internal/torrents/remove.go:219-231 | With nothing changed since the plan, a removal goes through exactly when its downloads all lie at one path. |
| `Remover.NestedIsRefused` | internal/torrents/remove.go:226-227 | So a removal of nested downloads is refused as moved although nothing moved, against the documented removed together. |
| `Remover.NestedIsPlanned` | internal/torrents/remove.go:90-116 | Such removals are planned: for any two cleared downloads at different, linked paths every plan holds a removal naming both, refused whenever nothing has changed. |
| `Remover.SeasonWithEpisode` | internal/torrents/remove.go:90-116 | A season folder and an episode in it, for one. |
| `DownloadsPlan.Rebased` | internal/torrents/plan.go:164-165 | New content and location are the old ones with the tier path replaced by the seed path. |
| `DownloadsPlan.LandApart` | internal/torrents/plan.go:191-198 | From one tier path to one seed path, different contents land at different places. |
| `DownloadsPlan.PlannedMeetExactly` | internal/torrents/plan.go:191-204 | Two moves of a plan to one seed path land on one place exactly when their groups lie at the same place below their tier paths. |
| `DownloadsPlan.PlannedMeetAnywhere` | internal/torrents/plan.go:191-204 | And two moves of a plan to any seed paths, exactly when what lies below their tier paths, put below their seed paths, is the same. |
| `DownloadsPlan.SeedsApart` | internal/torrents/plan.go:191-198 | Moves to seed paths of which neither holds the other never meet. |
| `DownloadsGap.NestedSeedsCollide` | internal/torrents/plan.go:191-204 | With one seed path inside another there is an input whose one plan sends two downloads to one place by way of both. |
| `DownloadsPlan.BothArePlanned` | internal/torrents/plan.go:175-247 | For any two groups there is an input every plan of which sends both to one seed path, so whenever they lie alike below two tier paths they meet. |
| `DownloadsPlan.MayCollide` | internal/torrents/plan.go:191-204 | One such input and its plan: downloads of one name on two drives. |
| `DownloadsPlan.SeedPaths` | internal/torrents/plan.go:124-140 | The destinations are exactly the usable cold paths Coldarr can see. |
| `DownloadsPlan.Choose` | internal/torrents/plan.go:175-204 | The fullest path with room and nothing in the way under the target; failing any, the fullest under the max; none exactly when there is neither. |
| `DownloadsPlan.BuildPlan` | internal/torrents/plan.go:110-247 | Group after group is decided on the usage with everything planned before landed, and the final usage is that of the whole plan. |
| `DownloadsDecided.EachIsDecided` | internal/torrents/plan.go:142-233 | A group all of whose members are to be removed, or whose content is not inside its save path, stays; every other is moved at its turn to the fullest seed path with room and nothing in the way, under its target or else its max, or else no path has that under its max. |
| `DownloadsPlan.PlanIsGood` | internal/torrents/plan.go:110-247 | Every planned move is rebased, goes to a usable seed path, onto nothing that exists, and fits under the max once the earlier ones landed. |
| `DownloadsPlan.PlanCountsEnough` | internal/torrents/plan.go:231-232 | The plan's projection counts free space exactly and used space at least as high as what lands. |
| `DownloadsPlan.InOrderNeverRefused` | internal/mover/mover.go:492-518 | Run in order on disks no fuller than planned, a move whose predecessors all landed passes the room check. |
| `DownloadsPlan.PlannedInOrder` | internal/torrents/plan.go:110-247 | So does every move of every plan BuildPlan can return. |
| `DownloadsPlan.WhateverFailsExactly` | internal/mover/mover.go:492-518 | A move passes whichever earlier moves landed exactly when it passes with only those landed that fill its volume from elsewhere. |
| `DownloadsPlan.NeverRefusedApart` | internal/mover/mover.go:492-518 | With no earlier source on the destination's volume it passes whichever of them failed. |
| `DownloadsPlan.PlannedApart` | internal/torrents/plan.go:110-247 | So it is for a whole plan when no group comes from that volume. |
| `DownloadsRuns.SerialRunHasRoom` | internal/mover/mover.go:425-471 | In a serial run of a plan, with no group on the destination's volume, the room check at an entry's turn - on a disk with what landed so far - never turns it down; every earlier move is then in place, turned down or never asked for. |
| `DownloadsRuns.SmoothSerialRunHasRoom` | internal/mover/mover.go:425-471 | With groups on it too, none is turned down while every earlier one landed. |
| `DownloadsPlan.ReservedInOrder` | internal/engine/downloads.go:549-580 | With space held back for downloads, in order and with any part of the reserved bytes written, it passes wherever RoomKept held. |
| `DownloadsGap.GapIsPlanned` | internal/torrents/plan.go:110-247 | Wherever RoomKept fails there is an input whose one plan sends a download onto the room an earlier move of it frees. |
| `DownloadsGap.DownloadsGapIsRefused` | internal/mover/mover.go:492-518 | And that move is refused with its predecessor landed and no more than the reserved bytes written: RoomKept is exact for downloads plans too. |
| `DownloadsPlan.ReservedApart` | internal/engine/downloads.go:549-580 | With no earlier source on the volume it passes whatever was reserved and whichever moves failed. |
| `DownloadsPlan.PlannedReservedInOrder` | internal/engine/downloads.go:549-580 | Both hold of every plan BuildPlan can return on reserved usage: in order where RoomKept held ... |
| `DownloadsPlan.PlannedReservedApart` | internal/engine/downloads.go:549-580 | ... and in any order with any failures when no group comes from that volume. |
| `DownloadsGap.SharedVolumeMayRefuse` | internal/torrents/plan.go:231-232 | With one it may not: wherever freeing some bytes of a full disk makes room, there is an input whose one plan has a move onto what an earlier move frees, and it is refused when that one fails. |
| `Orphans.AllAbove` | internal/orphans/orphans.go:304-309 | Stopping at a registered folder leaves none of the path's ancestors out. |
| `Orphans.AncestorDirs` | internal/orphans/orphans.go:301-312 | The set is exactly the strict ancestors of known paths below the root. |
| `Orphans.ScanExact` | internal/orphans/orphans.go:320-406 | A scan returns exactly the entries it reaches and finds nothing to say for, each with the size of everything in it. |
| `Orphans.ScanDistinct` | internal/orphans/orphans.go:320-406 | No path is returned twice. |
| `DiskSizes.FilesExactly` | internal/orphans/orphans.go:408-425 | The list of files below a folder has exactly those that are there ... |
| `DiskSizes.FilesOnce` | internal/orphans/orphans.go:408-425 | ... each once. |
| `DiskSizes.SizeIsTotal` | internal/orphans/orphans.go:408-425 | The size of what is in a folder is the total of that list, and there is none exactly when something below cannot be read. |
| `DiskSizes.ReadableIsScanned` | internal/orphans/orphans.go:320-406 | A scan of what can all be read goes through. |
| `DiskSizes.CandidateSize` | internal/orphans/orphans.go:320-406 | What it says of an entry is that file's size, or that total. |
| `Orphans.OrphansExact` | internal/orphans/orphans.go:314-357 | In a library folder those are exactly the topmost folders that are neither known, nor inside a known path, nor above one; known paths at or above the scanned folder make no difference. |
| `Orphans.OrphansUnnested` | internal/orphans/orphans.go:314-357 | No candidate is inside another. |
| `Orphans.ListedIsUnclaimed` | internal/orphans/orphans.go:359-406 | In a download folder nothing listed is known, inside something known below that folder, a folder above it, or an unfinished file of a known download. |
| `Orphans.LeftoversExact` | internal/orphans/orphans.go:359-406 | And those are exactly the topmost such entries not inside an unfinished name either. |
| `Orphans.UnfinishedExactly` | internal/orphans/orphans.go:359-381 | An unfinished file is one named by a known download with .!qB after its name. |
| `Orphans.ListedPassesExactly` | internal/orphans/orphans.go:492-496 | What a scan made now lists passes the check before a deletion exactly when nothing known is the scanned folder or above it, and nothing known is recorded below a file. |
| `Orphans.Store.DeleteDownload` | internal/orphans/orphans.go:443-515 | Refused exactly when a guard fails: connected, listed in a download folder, the first tier of that name a downloads tier that allows deletes, the first of its paths that holds the place healthy, and nothing known at, above or below it. Otherwise exactly what is at and under it goes, and success is exactly that all of it does. |
| `Orphans.CheckTier` | internal/orphans/orphans.go:459-486 | The two loops allow exactly that: by the first tier of that name and the first of its paths that holds the place. |
| `Orphans.NothingKnownDeleted` | internal/orphans/orphans.go:492-496 | No deleted file is or is inside anything known. |
| `Orphans.CheckAgainstScan` | internal/orphans/orphans.go:492-496 | A path that passes that check would be judged by a scan made now, and left alone only as an unfinished file. |
| `Orphans.UnfinishedPassesCheck` | internal/orphans/orphans.go:378-381 | And such a file of a download known again does pass it. |
| `Scheduler.ArmNeverFires` | internal/scheduler/scheduler.go:153-177 | Arming leaves no task due at that instant, leaves one that is not due alone, and is idempotent. |
| `ScheduleTimes.DueExactly` | internal/scheduler/scheduler.go:133-203 | A task switched off is never due; one switched on is due first so many hours after its anchor, or so many calendar days after at its time of day, from then on always or every day from that time on. |
| `ScheduleTimes.FirstIsDue` | internal/scheduler/scheduler.go:133-203 | And at that first time it is due. |
| `ScheduleTimes.RunsAtFirstOnTime` | internal/webui/server.go:468-499 | Tick after tick nothing happens until the first tick that is on time, and at that one the task runs. |
| `ScheduleTimes.EverySoManyDays` | internal/scheduler/scheduler.go:179-203 | Ticked once a day at its time, a daily task is due exactly from its number of days on. |
| `Scheduler.ArmSkipsToNext` | internal/scheduler/scheduler.go:158-164 | A missed slot counts as consumed: the task next fires exactly when it would after a run on the spot. |
| `Scheduler.ArmKeepsPlace` | internal/scheduler/scheduler.go:158-164 | A restart or save while a task is not due changes nothing about when it fires. |
| `Scheduler.DueIsSpaced` | internal/scheduler/scheduler.go:133-203 | A task that is due comes a full period after anything at or before its anchor: calendar days at the clock time, or hours. |
| `Scheduler.ArmMovesForward` | internal/scheduler/scheduler.go:165-177 | Arming never moves an anchor back. |
| `Scheduler.ArmingNeverHastens` | internal/scheduler/scheduler.go:153-164 | Arming a task, at a restart or a save, never makes it fire sooner than it would have. |
| `Scheduler.EveryHistorySpaced` | internal/webui/server.go:461-499 | Under any sequence of ticks, runs by hand, restarts and schedule saves, every scheduled run comes a full period - calendar days at the clock time, or hours - after every earlier run of its task. |
| `Scheduler.OneMoreRun` | internal/webui/schedstate.go:159-167 | A scheduled run recorded when due keeps all runs of the task a full period apart. |
| `Scheduler.TracksAfterRun` | internal/webui/schedstate.go:159-167 | Anchor and last run stay those of the recorded runs. |
| `Scheduler.TracksAfterArm` | internal/webui/schedstate.go:139-153 | Arming keeps the anchor at or after every run and never touches when the task last ran. |
| `Scheduler.Server.ArmTask` | internal/webui/schedstate.go:139-153 | Only that task's anchor changes, and every run stays spaced. |
| `Scheduler.Server.RecordTaskRan` | internal/webui/schedstate.go:159-167 | The run is added, anchor and last run become its time, other tasks keep theirs. |
| `Scheduler.Server.ArmSchedules` | internal/webui/server.go:461-466 | At start-up every task is armed and nothing runs. |
| `Scheduler.Server.UpdateScheduleConfig` | internal/webui/server.go:539-576 | Saving a schedule arms that task under it and runs nothing. |
| `Scheduler.Server.Tick` | internal/webui/server.go:468-499 | On an omitted day nothing changes; otherwise exactly the due tasks that are not busy run now, and all runs stay spaced. |

## Left out

- Floating-point rounding and int64 overflow: percentages are exact reals, bytes unbounded integers.
- `UsedPercent` is derived from used and free wherever a usage is read, as everything in the repository builds it.
- Warning, reason, error and log texts, scores and the names shown for a removal's rule and tier: kept as distinct cases where they decide anything, else dropped.
- Sort stability beyond what the comparison decides: sorts are modelled by what a sort promises, a permutation in order.
- HTTP clients, JSON, persistence, mount tables, statfs and directory reads: their answers are parameters or events chosen freely.
- Locks and goroutines: a run is the interleaving of the steps taken under the lock or between calls.
- The clock: the settle wait's deadline is the end of its readings, schedules use seconds of local time without daylight saving, and the HH:MM setting is taken as parsed.
- Classification of a single download, its labels, settling days and import checks (internal/torrents/classify.go:190-395): its result is the input of the cross-seed rule.
- Grouping and ordering of ready downloads (internal/torrents/plan.go:249-295), hard-link warnings and relabelling, also after a run: the groups of a downloads plan are taken in the order given, one a content path.
- ReclaimPhase.AllocateReclaims: optimal only while the node budget lasts, as in the code; past it, at least the greedy count.
- PackingOrder.OptimalInAnyOrder: needs one ceiling per volume; with several, optimality is over the search order.
- PhaseSafety.NeverOverfilled: with several ceilings on one volume the bound is the ceiling of some entry of the phase landing there, not the lowest.
- Settling.Settle: instantiated with the downloads executor; the library executor's confirmation is an answer of the environment in the engine's machine.
- Execution.NeverRefused: for one queue per volume; serial runs are covered by `DownloadsPlan.InOrderNeverRefused` and, for exclusion and barriers, by the engine's machine.
- Removals.PlanRemovals: removed downloads with an empty content path do not occur, as in the code, which clusters none.
- Orphans.Store.DeleteDownload: the last existence check on the disk and saving the snapshot are not modelled.
- Scheduler.Server.Tick: a plan run also records the cutoff scan it starts with, and a removal run the tracker scan (internal/webui/handlers_scheduler.go:310, internal/webui/handlers_downloads.go:760); here that is a record by hand, which the theorem over whole histories covers.
- The library paths compared in removals and the paths in scans are taken cleaned; Go's path cleaning is not modelled.
- The orphan scan's collection of known paths (internal/orphans/orphans.go:205-295) and its write probe.
- Web pages, notifications, authentication, the command line, scoring and the progress estimate: no property here rests on them.
