# raft-autopilot, modelled and proved in Dafny

raft-autopilot is a control loop around a Raft cluster. It computes a health state from what Raft and
the application report, promotes and demotes servers, removes dead ones under quorum limits, and runs
all of this in goroutines guarded by three locks. This project models the four parts that decide
something and proves what they guarantee, for every input, every pattern of failing Raft calls, every
map iteration order and every interleaving.

- **Pruning** (`Registry`, `Adjudication`, `Choices`, `Classification`, `Prune`, `PruneSafety`,
  `PruneTheorems`, `PruneRuns`, `PruneMeaning`, `QuorumLoss`, `StablePruning`). The registry and its
  entries are objects, the loops are loops, Raft and the application record what was asked of them.
  `Adjudicate` and `RoundOf` specify the loops; `ClosedRound` says without any loop what a round removes,
  and the floors, caps, surviving quorums, fixed points and convergence are proved from it.
- **Reconciling** (`Reconcile`, `RoundMeaning`, `ReconcileSafety`, `RoundsFromState`). A round issues its
  `Plan` up to the first failing call; the plan and the quorum margin after every prefix are theorems.
- **State** (`ServerOrder`, `StateBuild`, `StateUpdate`, `StateTheorems`, `History`, `StablePromoter`,
  `StateRecords`). A server's state is built by overwriting, with a heap cell for the health that
  `previousHealthy` points into. `NextServerState` is the value it comes to, for the code (`Aliased`) and
  for the variant its comments describe (`Copied`). `History` follows states over sequences of updates and
  resets.
- **Lifecycle** (`Lifecycle`, `LifecycleInvariant`, `LifecycleTrace`, `LifecycleProgress`, `LifecycleReset`,
  `LifecycleJobs`, `LifecycleHistory`, `LifecycleAnswers`, `LifecycleStops`, `LifecycleWitness`). Any number
  of calls of `Start`, `Stop`, `IsRunning` and `GetState`, of executions and of state updaters, as atomic
  steps over `execLock`, `leaderLock` and `stateLock`. A timed or cancellable acquire is a step that may go
  either way.

The functions that specify the loops have meanings of their own: `RoundMeaning`, `Joining`, `PruneMeaning`
and `StateRecords` say what they come to in terms of the entries, fields and positions of their inputs.

`RaftCluster` is Raft as autopilot sees it, a configuration changed by calls that have their whole
effect or none; `Membership` and `Joining` are `AddServer` and its relatives; `Core` holds the Autopilot struct and
the application; `Sorting` is what callers know of `sort.Slice`. Ranging over a Go map is a loop that
picks any element left. A method whose `ensures` equates its result with a function of its inputs is
therefore independent of that order.

## What the code does differently from its documentation

- `previousHealthy` (state.go:341) points at the field that state.go:391 overwrites before
  state.go:396 compares. For a server already tracked the comparison never differs, so `StableSince`
  is not reset when the health flips, against types.go:147 and the comment at state.go:392-395.
  `History.TwoUpdates` is a concrete run, `History.DocumentedIffNeverFlipped` says exactly when the
  documented meaning holds, `StablePromoter.ProposedIff` what it does to promotions.
- A round of pruning may take a majority of the current voters, although the log message at
  reconcile.go:336 speaks of preventing that: the cap is computed from potential voters, not current
  ones, and it counts only voters that are potential ones, so neither stale voters nor failed voters of
  another type use it up. `PruneTheorems.QuorumSurvivesIff` is the exact condition, for every round;
  `QuorumLoss.QuorumCanBeLost` and `QuorumLoss.UncountedVotersAreNotCapped` are clusters that fail it,
  and `StablePruning.StableQuorumSurvivesIff` reads it off the sizes of the classes.
- The state is not a function of its inputs for every promoter: `GetNodeTypes` is shown the voters in
  map order, before they are sorted (state.go:236, state.go:262). `StateTheorems.StateIsForcedIff`.
- Adjudication does not always remove as many voters as its limits allow. Once the cap is used up it
  also keeps voters that would not have counted against it, and with two or fewer potential voters it
  removes none at all: `Choices.VotersMaximalIff` says exactly when its choice is a longest one,
  `Choices.MixedVotersNotMaximal` and `Choices.UncountedVotersNotMaximal` when it is not.
- The first pass over the demotions and the second skip non-voters (reconcile.go:155), not, as
  reconcile.go:138 has it, every server without voting rights: a staging server is demoted.
  `RoundMeaning.PlanIs`.
- Whoever is taken for the leader is recorded as voting whatever its suffrage (state.go:368-369), so the
  recorded voters need not be Raft's: `RoundsFromState.VotersMatchIff`.
- The addition in the trailing test of `isHealthy` (types.go:135) wraps around: with the largest
  `MaxTrailingLogs` nobody who is not ahead of the leader is healthy.
  `StateTheorems.TrailingIsMeantIff`, `StateTheorems.LargestLimitLetsNobodyPass`.
- `IsRunning` may report that nothing runs while an earlier execution still holds two locks and has
  its cleanup to finish, which Start does not expect (run.go:32-36): `LifecycleWitness.NotRunningIsNoPromise`.
  The answer is true if and only if the done channels of all earlier executions are closed, so a caller
  that starts each execution after the one before it is done may trust it:
  `LifecycleAnswers.NotRunningIsTrueIff`, `LifecycleAnswers.InTurnIsTrusted`.
- A Start that finds an execution running returns at once (run.go:18-21), although that execution may be
  cancelled and on its way out; the call is then lost. `LifecycleAnswers.StartIsHonouredIff`,
  `LifecycleAnswers.StartCanBeLost`.

## Model

| member | source | states |
|---|---|---|
| LifecycleProgress.WaitingGoesDown | run.go:14-94 | in every world that meets the invariant, when a thread waits for another (a lock held without time limit, a writer ahead of a reader, the updater joined), the other is strictly lower in a fixed order: no circular wait |
| LifecycleProgress.StartWaitsForNoCleanup | run.go:31-43 | a Start that has taken leaderLock never waits for a cleanup that still needs execLock |
| LifecycleProgress.WaitingEnds | run.go:14-196 | deadlock freedom: from every thread that is not idle, following whom it waits for reaches in at most three hops a thread that can take its next step |
| LifecycleProgress.RunsAreBounded | run.go:156-196 | in every run the number of steps is bounded by what was under way at its start and by the calls, ticks and cancellations since |
| LifecycleProgress.Settle | run.go:50-66 | from every world whatever is under way can be completed by the threads' own steps alone |
| LifecycleProgress.StillIsSettled | run.go:82-149 | when nobody can go on every call has returned, every cancelled execution has closed its channel exactly once, and the only one left is the published, running one, holding leaderLock |
| LifecycleTrace.RunsAreOrderly | run.go:96-173 | in every run: each stored state was computed from exactly the state it replaces, both reads of it included; terms under leaderLock do not interleave; an execution finishes once, after it was published, and does nothing afterwards; Stop and IsRunning never return a nil channel |
| LifecycleReset.ResetBeforeDone | run.go:121-149 | in every run: an execution that has led leaderLock has reset a.state before its channel is closed, and nobody has assigned a.state since the reset; one that has not led has not reset it |
| LifecycleJobs.JobsAreDone | run.go:151-196 | in every run and for every thread: every reconcile tick is answered by exactly one reconciliation, every reconciliation with something to prune and every removal request by one round of pruning, every update tick and every Start that finds nothing running by one stored update, but for updates given up (leaderLock not gained in time, a state that cannot be computed) and for what is still under way |
| LifecycleJobs.NothingIsLeft | run.go:151-196 | when nobody can go on, nothing is still under way |
| LifecycleTrace.UpdatesAreExclusive | run.go:121-149 | a live updater implies that its own execution is in its loop and holds leaderLock; at most one update or cleanup is in progress |
| LifecycleTrace.RecordsAreSound | autopilot.go:99-111 | status other than not-running implies a usable shutdown and an open done; not-running exactly when done was closed, once; every execution but the latest is cancelled; nothing panics |
| LifecycleInvariant.EveryStepKeepsInvariant | run.go:14-196 | every step of every thread keeps: locks are held by exactly the thread whose place in its program says so, updaters live inside their execution's loop, records and publication agree, what an update has read is what a.state is now |
| LifecycleTrace.StepIsSound | run.go:14-196 | every step keeps the invariant together with the properties of the trace |
| LifecycleWitness.NotRunningIsNoPromise | run.go:69-94 | a reachable world in which the published execution is not running while an earlier one holds leaderLock and stateLock |
| LifecycleAnswers.NotRunningIsTrueIff | run.go:69-94 | in every run, when the published execution is not running and no Start is replacing it, all that any execution has left to do is to release locks if and only if the done channels of all earlier executions are closed |
| LifecycleAnswers.InTurnIsTrusted | run.go:82-94 | the rule for callers: if every execution was started after the channel of the one before it was closed, an answer that nothing runs is true, but for releases of locks |
| LifecycleAnswers.LeaderWhenNotRunning | run.go:140-149 | the execution that then holds leaderLock still needs execLock exactly when its channel is open, and then it is an earlier one; the latest has only releases left |
| LifecycleAnswers.StartFindsTheLock | run.go:31-43 | a Start that finds nothing running finds leaderLock free, or one release from it, unless and only unless an earlier execution whose channel is open holds it; never if executions are started in turn |
| LifecycleAnswers.RunsOnIff | run.go:50-66 | once no Start or Stop is under way and everything has settled, whatever ticked meanwhile, an execution runs if and only if the published one's context was not cancelled |
| LifecycleAnswers.StartIsHonouredIff | run.go:14-44 | a Start that returns has an execution running in the end if and only if the one it found running, or started, was not cancelled yet |
| LifecycleAnswers.StartCanBeLost | run.go:18-21 | a reachable Start that finds a cancelled execution still running and returns, after which nothing runs |
| LifecycleStops.StartMakesOne | run.go:18-30 | a Start that does not find an execution running makes one, running, with a usable shutdown, an open channel and a context not cancelled |
| LifecycleStops.CancelledBy | run.go:53-66 | a context is cancelled only by its owner or by a Stop that finds its execution published and not finished |
| LifecycleStops.StopCancelsAll | run.go:53-66 | when a Stop returns, every execution there is is cancelled and none that is published says it is running |
| LifecycleStops.StopIsHonoured | run.go:53-66 | once a Stop has returned with no other Start or Stop under way and everything has settled, nothing runs |
| LifecycleStops.ChannelIsCurrent | run.go:53-94 | Stop and IsRunning hand out the open channel of the latest execution, or, if that is not running, a closed one of their own |
| LifecycleStops.BothLoopsRun | run.go:121-196 | when nobody can go on, an execution that is not cancelled is in its loop, holding leaderLock, and so is its updater |
| LifecycleWitness.OnlyTheTimeoutHelps | run.go:31-43 | a reachable world in which a Start waits for leaderLock, the holder of which waits for execLock: no thread can go on but that Start, and it only by its timeout |
| LifecycleHistory.SerialWritesAreAHistory | state.go:85-89 | if no update is lost, the assignments of a trace form a history, although each update takes the servers from one read of a.state and the first state's time from a second, unlocked one |
| LifecycleHistory.RunsAreHistories | run.go:177-196 | the states stored in any run, under any interleaving, form a history, so every theorem of History holds of them |
| LifecycleHistory.DoneLeavesEmpty | run.go:133-148 | in that history the state is empty when an execution that has led closes its channel |
| History.StableSinceOverHistory | state.go:334-398 | over every history StableSince is the time of the first update of the server's current unbroken presence in the Raft configuration; in the copied variant the time of the last update at which it appeared or its health flipped |
| History.PresenceStartMeaning | state.go:334-349 | the anchor used by the code: tracked from it to the end, and not tracked just before |
| History.LastChangeMeaning | types.go:147-148 | the documented anchor: health constant from it to the end, different (or untracked) just before |
| History.DocumentedIffNeverFlipped | types.go:147-148 | on a strictly increasing clock the code gives the documented StableSince if and only if the health has not flipped since the server joined |
| History.CopiedIsDocumented | state.go:392-395 | with the previous health copied the documented meaning always holds |
| History.TwoUpdates | state.go:391-398 | two updates, the second finding the server failed, that separate the two variants |
| History.FirstStateTimeOverHistory | state.go:85-95 | the first state's time is that of the first update since the last reset |
| History.StableSinceBounds | state.go:85-101 | on a monotone clock firstStateTime <= StableSince <= Now, in both variants |
| History.StateIsRecent | run.go:143-145 | the stored state depends only on the updates since the last reset, and is empty without one |
| History.StoringExtendsHistory | state.go:405-416 | what updateState stores extends the history that led to the state it started from |
| StateTheorems.DocumentedStableSinceIff | state.go:391-398 | for one update of a tracked server: code and documentation agree if and only if the health stayed the same or the old time equals now |
| StateBuild.BuildServerState | state.go:305-401 | the overwriting construction, with the aliased health cell, comes to NextServerState |
| StateBuild.BuildServers | state.go:283-300 | the server map of every Raft configuration, the later of two entries of an id winning |
| StateBuild.CountServers | state.go:217-243 | for every map order: healthy iff all are, the leader, the voters as exactly the servers with voting rights, and both counters equal to the cardinalities of the sets they count |
| StateBuild.ApplyNodeTypes | state.go:262-266 | for every map order the promoter's types are written to exactly the servers named that are tracked |
| StateBuild.NextStateWithInputs | state.go:205-277 | the result is a next state: some order of the voters was shown to the promoter, and the recorded voters are the sorted ones |
| StateBuild.OnlyTheNamedLeads | state.go:366-371 | exactly the server named as leader is recorded as leading, so there is at most one |
| StateRecords.EveryRecord | state.go:305-401 | field by field, of every server of the configuration: the address is Raft's; identity and node status are the application's, or the recorded identity and left; the statistics are the fetched, else the recorded, else zero; voter, non-voter, staging, none or leader; health from the leader's term and index, which are our own or those the named leader reported; since when |
| StateRecords.StateTotals | state.go:217-274 | the totals: first state's time, healthy iff all are, the named leader if it is in the configuration, the voters exactly the leader and Raft's voters, once each |
| StateRecords.RecordedTypes | state.go:262-266 | the type of each server is what the promoter answers for it when shown the unsorted state, else the application's, else the recorded one; typing changes nothing else |
| StateRecords.UpdateMeans | state.go:70-182 | one update from what was read to what is recorded: which reading each field comes from |
| StateRecords.RecordsOverHistory | state.go:305-401 | after every history every tracked server is recorded as the inputs of the last update say, under the address Raft had for it then |
| StateUpdate.DetermineLeader | state.go:120-138 | for every map order: a known server that says it leads, else the first entry at Raft's leader address |
| StateUpdate.LeaderByPosition | state.go:118-138 | the possible answers exactly: a known server that says it leads, or, when none does, the id of the first entry at Raft's leader address, and nobody only when there is none |
| StateUpdate.LeaderIsForcedIff | state.go:120-126 | the choice is unique if and only if no two known servers say they lead |
| StateUpdate.GatherNextStateInputs | state.go:70-182 | inputs are produced if and only if every source answers and the context is not cancelled; they are one reading of each source, the servers from the state GetState returned and the first state's time from a second read of a.state |
| StateUpdate.UpdateState | state.go:405-416 | with nobody else assigning a.state meanwhile: a failed computation leaves the state alone; otherwise the stored state is a next state of the one replaced |
| StateTheorems.StateIsForcedIff | state.go:205-277 | equal inputs give equal states if and only if the promoter's types do not depend on the order of the voters it is shown |
| StateTheorems.VotersAreForced | state.go:268-274 | the recorded voters are the one sorted list of the servers with voting rights, whatever the map order |
| StateTheorems.OrderCanShow | state.go:262-266 | a promoter that looks at the voters' order gives the same inputs two states |
| StateTheorems.LeaderComesFirst | state.go:231-236 | a leader heads the voters, and the recorded leader is the one server that leads |
| StateTheorems.FailureToleranceIsTight | state.go:225-250 | with a healthy quorum, any k voters can be lost leaving a healthy quorum if and only if k <= FailureTolerance; without one the tolerance is 0 and no loss, not even of none, leaves a quorum |
| StateTheorems.ToleranceIsTight | state.go:245-250 | the same of arbitrary sets of voters and healthy voters |
| StateTheorems.QuorumIsLeastOverlap | raft.go:18-20 | requiredQuorum is the least number such that any two groups of so many voters have one in common |
| StateTheorems.HealthyIff | types.go:113-140 | a recorded server is healthy if and only if the leader's term and index are known and the application knows it to be alive, it is in touch, in the leader's term and passes the trailing test |
| StateTheorems.TrailingIsMeantIff | types.go:134-137 | the trailing test means "at most MaxTrailingLogs behind" if and only if the uint64 sum does not wrap, or wraps to the leader's index or beyond |
| StateTheorems.LargestLimitLetsNobodyPass | types.go:134-137 | with the largest limit a server with a non-empty log that is not ahead of the leader is unhealthy |
| ServerOrder.LessThanIsLexicographic | state.go:436-471 | between distinct servers with at most one leader, the comparison is lexicographic in rank, health, stability (reversed for unhealthy servers) and id |
| ServerOrder.LessThanIsTotal | state.go:436-471 | hence a strict total order on distinct ids |
| ServerOrder.LeaderIsLessThanItself | state.go:440-442 | but not irreflexive: a server is less than itself if and only if it leads |
| ServerOrder.SortServers | state.go:421-425 | sorting distinct tracked ids has exactly one possible result |
| ServerOrder.RankedByRank | state.go:427-435 | in it leaders precede voters, voters precede others, healthy ones precede unhealthy ones of their rank |
| ServerOrder.RankedPairwise | state.go:427-471 | in it, of any two: the later one never leads; voters come first; among equals healthy ones first, the longer healthy before the less long, the more recently failed before the others, and then the lesser id |
| StablePromoter.CalculatePromotionsAndDemotions | stable_promoter.go:44-57 | for every map order each stable non-voter is proposed once, nobody else, with no demotion and no transfer |
| StablePromoter.FilterFailedServerRemovals | stable_promoter.go:37-39 | the filter keeps every candidate, so it is one that selects |
| StablePromoter.GetNodeTypes | stable_promoter.go:26-35 | every server, and no other, is of the voter type |
| StablePromoter.StableStateIsForced | stable_promoter.go:26-35 | with this promoter equal inputs give equal states |
| StablePromoter.EveryPromotionIsApplied | reconcile.go:86-126 | no filter of applyPromotions drops a proposed server: the round's plan is one AddVoter for each stable non-voter, with its recorded address |
| StablePromoter.PromotedHasBeenStable | types.go:191-204 | once autopilot has run longer than the stabilization time, a promoted server was in the configuration at every update since one at least that long ago; in the copied variant it was healthy at every one |
| StablePromoter.ProposedIff | types.go:151-167 | as written, a server is proposed if and only if it is a non-voter, healthy at the last update, and joined at least the stabilization time ago, however often its health flipped since |
| StablePromoter.YoungProposedIff | types.go:191-204 | before autopilot has run longer than the stabilization time, a tracked server is proposed if and only if it is a non-voter, healthy at the last update, and the clock is not behind the update at which it joined |
| StateRecords.ProposedExactly | types.go:151-204 | both cases at once, said of the updates alone: non-voter in Raft, not taken for the leader, healthy, and joined long enough ago, the required time being zero until the first update is longer ago than it |
| StateRecords.PromotedAtRaftsAddress | reconcile.go:86-126 | over every history a promotion goes to the proposed id at the address Raft had for it at the last update, whatever the application reports |
| StablePromoter.PrunedIsNotPromotable | state.go:351-364 | on the same view of the cluster no server that pruning removes is healthy or proposed |
| RoundsFromState.HistoryIsKeyed | state.go:336-364 | over every history servers are recorded under their own ids |
| RoundsFromState.VotersMatchIff | state.go:366-371 | the recorded voters are Raft's if and only if the server taken for the leader is a Raft voter or not in the configuration |
| RoundsFromState.StableRoundAddsExactly | reconcile.go:48-53 | a round with the StablePromoter in which nothing fails turns exactly the stable non-voters into voters and loses none |
| Reconcile.ReconcileRound | reconcile.go:15-75 | the whole round, early returns included: it issues its plan up to the first failing call and nothing else, and reports a failure if and only if a call failed |
| Reconcile.RunRound | reconcile.go:39-75 | the same without the early returns; an unknown transfer target is an error exactly when it is all the round had to do |
| Reconcile.ApplyPromotions | reconcile.go:86-126 | calls follow the filtered promotions until a failure; done exactly when something was issued |
| Reconcile.ApplyDemotions | reconcile.go:144-188 | calls follow the filtered demotions until a failure, or just the first one of an unhealthy server |
| Reconcile.ApplyTransfer | reconcile.go:63-75 | one transfer to a tracked server, an error for an unknown one |
| Reconcile.PromotionMembers | reconcile.go:89-109 | what is planned are exactly the listed ids that are tracked, without voting rights and healthy |
| Reconcile.DemotionMembers | reconcile.go:147-170 | what is planned are exactly the listed ids that are tracked, not non-voters, and unhealthy in a first pass |
| RoundMeaning.PlanIs | reconcile.go:39-75 | the plan exactly, by positions in the promoter's lists: first the demotion of the first listed server that is tracked, not a non-voter and unhealthy, if the number of voters is odd and there is one; then the promotions that pass, in order; only without any the demotions that pass, in order; only without those the transfer to a tracked server that does not lead; else nothing |
| RoundMeaning.FirstDemotionIs | reconcile.go:35-45 | which server the first pass demotes, and exactly when it demotes none |
| Reconcile.RoundGrammar | reconcile.go:35-75 | a plan is at most one demotion of an unhealthy server, only with an odd number of voters, then calls of one kind; a transfer is always alone; without a promotion the first demotion is issued again |
| Reconcile.FirstIsRepeated | reconcile.go:39-61 | the server of the first pass is among the demotions of the second, so a first demotion rules out a transfer |
| ReconcileSafety.PromotingKeepsMargin | reconcile.go:35-53 | in a promoting round, after every prefix of the calls, healthy voters minus required quorum is at least what it was, repeats in the change lists included |
| ReconcileSafety.FirstPromotionRaisesQuorumIff | reconcile.go:35-53 | the first promotion that has an effect raises the required quorum if and only if the number of voters was odd and no voter was demoted first |
| Classification.GetFailedServers | reconcile.go:194-260 | the four sorted lists and the registry are a function of the Raft configuration and the application's servers, for every map order |
| Classification.ClassesPartition | reconcile.go:206-244 | alive, stale voters, stale non-voters, failed voters and failed non-voters partition the Raft configuration, and contain nobody else |
| PruneMeaning.FoundServers | reconcile.go:194-260 | what the four lists hold, each exactly and in the order of the ids: unknown to the application, or known and not alive; voters or not |
| PruneMeaning.RegistryIs | reconcile.go:203-226 | the registry has every server of the configuration, voting if Raft says so, potential if the application knows it and the promoter counts its type |
| Ids.LessIsFirstDifference | reconcile.go:246-257 | ids are compared at their first difference |
| Classification.MarkKnownServers | reconcile.go:215-236 | the loop over the known servers in any order marks potential voters and collects each failed server once |
| Classification.CollectStale | reconcile.go:238-244 | the loop over what is left in any order |
| Registry.VoterRegistry.PotentialVoters | types.go:365-375 | the number of potential voters, for every map order |
| Registry.VoterRegistry.Filter | types.go:377-387 | the ids of the listed servers that are still registered, in order |
| Registry.VoterRegistry.Remove | types.go:389-395 | exactly the given ids leave the registry |
| Adjudication.AdjudicateRemoval | reconcile.go:323-349 | the loop returns Adjudicate of the registry; it dereferences a missing entry if and only if some listed id is not registered |
| Adjudication.PotentialVotersClosedForm | reconcile.go:323-349 | on voters that all count as potential: the prefix of length min(len, max(0, min(P - MinQuorum, (P - 1) / 2))) |
| Adjudication.VotersClosedForm | reconcile.go:323-349 | on any voters: nothing if P <= 2; else all uncounted and the first counted ones if the floor binds, or the prefix up to the last permitted counted one if the cap does |
| Adjudication.NonVotersClosedForm | reconcile.go:323-349 | on non-voters: every uncounted id and the first max(0, P - MinQuorum) counted ones |
| PruneMeaning.NonVotersByPosition | reconcile.go:323-349 | the same by position: an id goes if and only if it does not count or fewer than that many counted ones precede it |
| PruneMeaning.VotersByPosition | reconcile.go:323-349 | and for voters |
| Adjudication.UncountedVotersClosedForm | reconcile.go:335-345 | on voters nobody counts, such as stale voters: all when P >= 3 and none otherwise |
| Adjudication.PhaseFloorAndCap | reconcile.go:325-345 | one phase leaves at least min(P, MinQuorum) potential voters and takes at most (P - 1) / 2 voters that count |
| Adjudication.AdjudicatedIsAdmissible | reconcile.go:325-345 | the choice made respects both limits |
| Choices.NonVotersMaximal | reconcile.go:323-349 | no sublist of non-voters that respects the limits is longer |
| Choices.PotentialVotersMaximal | reconcile.go:323-349 | no sublist of voters that all count and that respects the limits is longer |
| Choices.VotersMaximalIff | reconcile.go:323-349 | on any voters no sublist that respects the limits is longer if and only if every listed voter counts, when P <= 2, and otherwise the floor binds before the cap or every voter after the one that uses the cap up counts |
| Choices.LongestChoice | reconcile.go:325-345 | the length of a longest sublist of voters that respects the limits: those that do not count, and as many of the others as both limits let go |
| Adjudication.ReachMeaning | reconcile.go:335-345 | the cap cuts a list of voters off right after the voter that uses it up, and only if one does |
| Choices.MixedVotersNotMaximal | reconcile.go:335-345 | two voters, the second of which does not count and is kept although both might go |
| Choices.UncountedVotersNotMaximal | reconcile.go:335-345 | with P <= 2 none of the voters that do not count go, although all of them might |
| Prune.PruneDeadServers | reconcile.go:270-321 | the whole call, for every answer of the application and every failure: what is asked of Raft and of the application is the round, a failing stale phase stops the rest, and a nil dereference happens only on a nil configuration or a missing entry, after exactly the phases before it |
| Prune.StalePhase | reconcile.go:294-306 | every adjudicated server is asked to be removed, once, in order, also after an error; the registry shrinks only if all worked |
| Prune.FailedPhase | reconcile.go:308-318 | what is no longer registered is dropped, and the application is asked to remove the adjudicated servers |
| Prune.GetFailedByIds | types.go:264-283 | for each id in order the listed servers that carry it |
| Prune.RemoveStaleServers | reconcile.go:362-373 | goes on after an error and reports it at the end |
| PruneSafety.RoundClosedForm | reconcile.go:294-321 | a round without its loops: all stale non-voters; stale voters all or none; failed non-voters down to the quorum; failed voters down to the quorum or up to the cap |
| PruneMeaning.PrunedCallMeans | reconcile.go:270-321 | a whole call that goes through, from the configurations read to the calls made: which stale ids were asked of Raft, and which of the listed servers, by position, of the application |
| PruneMeaning.StoppedCallMeans | reconcile.go:294-306 | a call stopped by Raft: what it had asked for in the first phase or in the first two, and nothing of the application |
| PruneTheorems.RemovesOnlyTheDeadOnce | reconcile.go:294-321 | with a filter that selects, no missing entry is looked up, nobody is removed twice, and everybody removed is in the configuration and unknown or not alive |
| PruneTheorems.IssuedInOrder | types.go:264-283 | the servers handed to RemoveFailedServer are the adjudicated ids in order |
| PruneTheorems.RoundFloor | reconcile.go:265-267 | all four phases together leave at least min(P, least quorum read) potential voters |
| PruneTheorems.SurvivingVoters | reconcile.go:294-321 | the exact number of current voters a round leaves |
| PruneTheorems.QuorumSurvives | reconcile.go:327-343 | if the current voters are exactly the potential voters, a required quorum of them outlives the round |
| PruneTheorems.QuorumSurvivesIff | reconcile.go:294-343 | for all voters: a required quorum outlives the round if and only if the stale voters, if P >= 3, and the failed voters that go, a number known beforehand, together do not exceed the spare of the current voters |
| PruneTheorems.RemovedVotersCount | reconcile.go:308-345 | that number: none with P <= 2; the uncounted ones and as many counted ones as the floor spares, if the floor binds; else all up to the last one the cap lets go |
| PruneTheorems.CountedQuorumSurvivesIff | reconcile.go:327-343 | if every current voter counts as potential, it does if and only if what the failed voters, the floor and the cap allow does not exceed the spare |
| PruneTheorems.StalePhaseKeepsQuorumIff | reconcile.go:301-306 | the stale voter phase alone leaves a required quorum if and only if P <= 2 or the stale voters are a minority |
| PruneTheorems.CapIsSpareQuorum | raft.go:83-86 | the cap (n - 1) / 2 of pruning is the n - requiredQuorum(n) of AddServer |
| PruneRuns.CallIsAStep | reconcile.go:270-321 | every call of pruneDeadServers with a filter that selects, whatever it reads and whatever fails, a nil dereference halfway included, takes the configuration down a step of removals of its round |
| PruneRuns.SelectingNeverPanics | reconcile.go:330-335 | with a filter that selects, a missing entry is never dereferenced |
| PruneRuns.RunFloor | reconcile.go:270-321 | any number of such steps leaves at least min(initial potential voters, floor on the quorums read) |
| PruneRuns.ChangesAreBounded | reconcile.go:270-321 | any number of such steps, whatever is selected, read and carried out in each, change the configuration at most as often as there were dead servers |
| PruneRuns.RoundMakesProgress | reconcile.go:294-321 | a successful round that changes anything leaves fewer dead servers |
| PruneRuns.RoundsSettle | reconcile.go:294-321 | with nothing filtered, the quorum constant and no failures, as many rounds as there are dead servers reach a fixed point |
| PruneRuns.FixedPointIff | reconcile.go:294-349 | exactly which configurations are fixed points, by class, potential voters and quorum |
| QuorumLoss.QuorumCanBeLost | reconcile.go:327-343 | a cluster in which one round leaves one voter of two |
| QuorumLoss.UncountedVotersAreNotCapped | reconcile.go:335-345 | a cluster without stale voters in which one round leaves two voters of five, whatever the quorums read: three failed voters do not count |
| StablePruning.StableQuorumSurvivesIff | stable_promoter.go:37-61 | with the StablePromoter and an application that types every server as a voter, a required quorum outlives the round if and only if an inequality on the sizes of the classes and the quorums read holds |
| StablePruning.StableRoll | stable_promoter.go:59-61 | with this promoter the potential voters are the known servers of the voter type |
| Membership.NumVoters | raft.go:25-39 | the number of voters of the configuration read, and no number only if Raft did not answer |
| Membership.AddServer | raft.go:49-115 | a refusal, like a pair that is there or an unreadable configuration, issues nothing; otherwise the plan is issued up to its first failure, and only success triggers a removal of dead servers |
| Joining.AddPlanIs | raft.go:60-109 | what an addition asks for, by position: the voters that hold the address go first, in the order of the configuration, then its other holders, then the server is added, as a voter if and only if an entry with its id votes or is staging |
| Joining.AnswerMeans | raft.go:64-86 | refused if and only if the pair is not there and the voters that need not make room are fewer than a required quorum; nothing to do if and only if the pair is there |
| Joining.EntriesAfter | raft.go:64-109 | the configuration after a completed addition, entry by entry: a new server is there as a non-voter, one that voted or was staging as a voter; the others are those that did not hold the address, unchanged |
| Joining.VotersAfterJoining | raft.go:68-109 | hence its voters: the server if and only if it voted or was staging, and the others that did not hold the address |
| Membership.ScanConfiguration | raft.go:56-81 | the loop over the configuration, cut short when the pair is there |
| Membership.AddServerKeepsQuorum | raft.go:83-103 | after every call made, a failed one included, a required quorum of the original voters is still voting |
| Membership.AddServerEffect | raft.go:88-111 | a completed addition: the pair is there, nobody else holds the address, an existing voter still votes, unrelated servers stay |
| Membership.NoVotersRefuses | raft.go:83-86 | with no voters every addition that is not in place already is refused |
| Membership.RemoveKnownServer | raft.go:119-134 | a server of the configuration read is asked to be removed, once, any other is nothing to do; an unreadable configuration is told apart |
| RaftCluster.VotersAfter | types.go:208-219 | what each Raft operation does to the voters |
| RaftCluster.Raft.Issue | raft.go:138-181 | a call has its whole effect or none, and is recorded |
| Core.Autopilot.RemoveDeadServers | autopilot.go:216-221 | one trigger is kept, further ones are dropped |
| Sorting.OrderedIsUnique | reconcile.go:246-257 | sorting distinct elements by a strict total order has one result, whatever the algorithm |

## Left out

- Raft consensus, futures and RPCs: a Raft call succeeds with its effect or fails unchanged, and the configuration changes through autopilot's own calls only while a method runs.
- The configuration, servers and statistics the application reports: arbitrary values; `AutopilotConfig` may answer differently every time. `FetchServerStats` and the `aliveServers` list passed to it are one arbitrary map.
- Promoters other than the StablePromoter: functions with arbitrary results; that a filter only selects is a hypothesis where it is needed. A filter that returns nil is not modelled.
- Ext values, Meta, Name, Version, RaftVersion, logging, option functions, error texts: the core decides nothing on them.
- Real time: `Now` is an integer, tickers fire at any moment, contexts are cancelled at any moment; fairness is not assumed, and progress is stated by explicit measures. The stabilization time reads the clock later than the promotion does.
- The inside of `semaphore.Weighted`, of `sync.RWMutex` and of channels: an acquire succeeds when the lock is free and, when timed or cancellable, may give up; a writer that asked first keeps new readers out.
- `reconciliationLock`: nothing else is done while it is held, so it cannot take part in a deadlock. `EnableReconciliation`, `DisableReconciliation`, `GetServerHealth`: one assignment or lookup each.
- Application code that calls back into autopilot from `NotifyState`, and `ComputeState` called from outside while autopilot runs.
- The conversion of `MinQuorum` from uint to int is taken not to overflow. The wrap-around of uint64 in `isHealthy` is modelled.
- The nil `a.state` that reconcile.go:28 and state.go:87 guard against: `New` and every assignment store a non-nil state.
- PruneRuns.RoundsSettle: assumes that the application's view and the quorum stay put, that the filter keeps everything and that every removal takes effect; without that PruneRuns.ChangesAreBounded holds, but a round that changes nothing may be followed by one that does.
- Sorting.SortSlice: the library's sorting algorithm is replaced by insertion; callers rely only on its contract.
