# Verification model of the WARP pool

The pool keeps a number of proxy instances alive, each behind its own egress address, and dials
through them. One coordinator goroutine owns the table of instances, the registry of egress keys, the
port allocator and the published snapshot. Each instance is a serial state machine of its own. The two
sides talk over a bounded event channel and, per instance, a bounded command channel that drops what
does not fit. This project models that protocol and the sequential pieces it stands on, and proves what
every run keeps: over every interleaving, lost tunnel, full channel, drain, disable and stop.

## How it is built

| layer | modules |
|---|---|
| values and arithmetic | `Wrappers`, `Types`, `Numbers` |
| sequential pieces | `Decimal`, `Ports`, `Backoff`, `Hash`, `Routing`, `Dialing`, `Eviction`, `EgressKeys` |
| one instance as a machine of steps, its invariants and theorems | `Instances`, `InstanceSafety`, `InstanceTheorems`, `InstanceEffects` |
| the methods of an instance, proved to do what that machine does | `InstanceCode` |
| the coordinator's registry and table as functions, and what they keep | `Registry`, `Table` |
| the methods of the coordinator, proved against those functions | `PoolCode` |
| the composed system: any party moves next | `Protocol`, `ProtocolSafety`, `SystemSafety` |
| the coordinator's turns as runs of that system | `CoordinatorSteps` |
| what follows for every run of the system | `SystemTheorems`, `ReleaseSafety`, `EntrySafety` |
| where the code falls short: exact conditions, and runs put together from `SampleRuns` | `StaleConfirms`, `DisabledKeys`, `LostSignals`, `Endings` |

A run of the system is a sequence of labels. `InstanceMoves` is one step of one instance between two
points where its goroutine can block, or something another goroutine does to it. The other labels are
the coordinator's and the user's. The coordinator gets more freedom than the code gives it: it may look
at any instance at any time, and whether a command arrives is open even when the channel has room. Only
an egress check is kept in order: its results are applied to instances it has read as Normal, and no event
is heard meanwhile.

`InstanceCode.Instance` has the shape of instance.go, loops and all. The world is a script of moves, used
up where the goroutine blocks; `InstanceCode.Live` says that the code ends where the machine ends, for
every script. `PoolCode.Pool` has the shape of pool.go, and each method's new state is a function of
module `Registry` or `Table` of the old one. Module `CoordinatorSteps` says that each turn of the coordinator, an
event, a health tick or an egress tick, each with the alignment after it, is a run of labels: it ends in
the registry and table of the pool's methods, and in instances that have got the commands those methods
send and the egresses they store. The registry and table come out the same when the instances and the user
act in between.

Some fields are history only and are never read by a branch: the number of the latest report of an
instance, the highest one answered and how many there were when it last departed, the number carried by a
Confirm, which instances a later egress check exempted or moved, the log of decisions, and the counts of
clients made and commands accepted.

## What the code does not keep

Six things a reader might expect are false of the code. Each has a theorem that says exactly when the
expectation holds, and a run in which it does not.

- *Two Normal instances never share an egress key.* A Confirm does not say which report it answers. Sent
  again by `reconfirmProbing` while the loss of the instance's client is still in the event channel, it
  makes the instance Normal on a report nobody has judged (`StaleConfirms.StaleConfirmClashes`). Every
  Normal instance of a run is on its latest report at every moment exactly if no Probing instance takes a
  Confirm that answers an older report (`StaleConfirms.RunsAreCurrentIffNeverStale`), and then the
  promise holds (`StaleConfirms.NormalInstancesAreUniqueWhenNeverStale`).
- *A Disabled instance holds no key.* A Disable taken during a drain is not announced
  (`DisabledKeys.DisabledCanHoldAKey`). Once all its events have been heard, a Disabled instance is
  registered exactly if it took its Disable during a drain, no check exempted it, and one of its reports
  was accepted since it last departed or a check moved it since
  (`DisabledKeys.DisabledIsRegisteredIffDisabledInADrain`).
- *Stop ends an instance.* In the wait of a Reprobe it ends only the wait
  (`InstanceTheorems.StopCanBeSwallowed`), and nowhere else (`InstanceTheorems.StopEndsUnlessReprobing`).
- *A lost tunnel is noticed.* The signal of the current client is dropped exactly when the buffer is full
  of stale ones (`LostSignals.CurrentLossIsDroppedOnlyBehindStaleOnes`). That happens to an instance that
  is told to replay twice while its client exits (`LostSignals.AnInstanceCanGoDeaf`), and then it stays
  Normal and registered until somebody sends it a command (`LostSignals.DeafUntilCommanded`).
- *An instance that ends leaves the table.* It says Stopped exactly if the channel has room at that moment,
  and leaves exactly if it has said so (`Endings.EndedLeavesIffItSaidStopped`). In some run it cannot
  (`Endings.AnInstanceCanBeStranded`), and then it keeps its place, its port, its status and its key for
  good (`Endings.UnsaidStopStaysForGood`, `Endings.UnsaidStopKeepsItsKey`).
- *Delays double up to the maximum.* A shift may wrap to a small positive delay that the overflow guard
  does not catch (`Backoff.BoundIsTight`). The promise holds exactly if the guard catches what wrapped
  (`Backoff.DelayIsPromisedIffGuardCatchesWrap`), hence for every start up to 2^34 ns.

docs/warp-pool/feat/egress.md describes the key over both stacks differently from egress.go; the model
follows egress.go:149-158.

## Model

| member | source | states |
|---|---|---|
| SystemTheorems.ServingInstancesAreUnique | pool.go:161-228 | in every reachable state, instances that are Normal with their latest report answered are registered unless a later check exempted them, never hold the same key, never reported the same non-whitelisted key, and never reported a failed probe |
| SystemTheorems.PromotionIsCurrentIffAnswersLatest | instance.go:324-329 | any Confirm makes a Probing instance Normal; it then serves by its latest report exactly if this or an earlier handled Confirm answers that report; no Confirm answers a report that was not made and accepted |
| StaleConfirms.RunsAreCurrentIffNeverStale | pool.go:373-379 | a run keeps every Normal instance on its latest report at every moment if and only if no Probing instance takes a Confirm for an older one |
| StaleConfirms.NormalInstancesAreUniqueWhenNeverStale | pool.go:174-204 | in such runs all Normal instances of the table are registered, unless a later check exempted them, with different keys |
| StaleConfirms.StaleConfirmClashes | pool.go:373-379 | for every setup with two different keys, some run ends with two Normal instances on one egress, one of them neither registered nor exempted; every Confirm in it is sent again only to an instance that is Probing and waits for one |
| DisabledKeys.DisabledIsRegisteredIffDisabledInADrain | pool.go:161-168 | in every run, of a Disabled instance of the table whose events have all been heard and that is not being shut down: it has an entry if and only if it took its Disable during a drain, no check exempted it, and a report of it was accepted after it last departed or a check moved it since; if it took its Disable in the main loop it owns no key either |
| EntrySafety.EntryIsExact | pool.go:161-216 | the same of every instance in every reachable state: an entry if and only if no check exempted it, and a report was accepted after its latest Lost, Drained, Replayed or Disabled event or a check moved it since |
| DisabledKeys.DisableDepartsUnlessDraining | instance.go:348-353 | whatever step disables an instance drops its client and is the taking of a Disable in the main loop, announced, or in a drain, not announced |
| ReleaseSafety.DepartedHoldsNoKey | pool.go:161-216 | in every reachable state, an instance whose Lost, Drained, Replayed or Disabled event has been heard, and that has not reported since, has no entry, owns no key and is not being checked |
| DisabledKeys.DisabledCanHoldAKey | instance.go:404-407 | some run ends with a Disabled idle instance that owns a key, with no event in the channel |
| SystemTheorems.ConfirmsGoToTheRegistered | pool.go:373-379 | in every run a Confirm is queued only when the coordinator hears a report or sends one again, for an instance that then has an entry, and it answers the report accepted last |
| SystemTheorems.RegistryIsExact | pool.go:206-216 | in every reachable state the used keys and the non-empty entries are inverse maps, the empty key is never used, and every id in the maps is in the table |
| SystemTheorems.CollisionDrainsTheNewer | pool.go:402-409 | in every reachable state, when a check finds two instances on one key the registry does not move and the one created later is drained, the one checked if neither was |
| SystemTheorems.EgressShownIsTheLatestRead | pool.go:382-389 | in every run the egress an instance shows is the latest valid one read by its own probe or by a check of it; a failed probe or check leaves it |
| SystemTheorems.EmptyCountersAreExact | pool.go:185-194 | in every reachable state an empty counter is absent, 1 or 2 and equals the Reprobe answers since the last acceptance, exemption, empty-triggered replay or removal |
| SystemTheorems.SnapshotIsExact | pool.go:424-442 | in every reachable state the snapshot lists exactly the table, strictly ordered by creation number |
| SystemTheorems.AddressesDiffer | pool.go:271-302 | in every reachable state each instance of the table has a port of its own, and no two share a listen address |
| SystemTheorems.IdsAreNeverReused | pool.go:277-279 | an id that has left the table is in it in no later state of any run |
| SystemTheorems.InstancesBehaveAsAlone | instance.go:292-319 | in every run of the system each instance is in a state that an instance alone can reach, so the theorems about one instance hold of all |
| SystemTheorems.DisabledLeavesOnlyByEnable | instance.go:354-361 | no step of the system takes an instance out of Disabled except its own handling of Enable |
| SystemTheorems.TokensAreHeldOnceEach | instance.go:471-485 | in every reachable state the tokens taken equal the instances that build or start a client, and never exceed the limit |
| SystemTheorems.EmittersWaitOnlyForTheCoordinator | instance.go:602-607 | while an instance emits, all tokens taken are in the hands of other instances; the channel never exceeds its capacity, and the next event heard lets it send, whether or not any command is accepted |
| SystemTheorems.TokenWaitersWaitOnlyForStarts | instance.go:577-587 | when all tokens are taken some other instance holds one and can go on without the channel or a second token, and the end of its attempt lets the waiter in |
| SystemTheorems.StoppedIsLast | instance.go:204-214 | in the channel Stopped is the last event of its instance, which is over, and every event comes from an instance of the table |
| SystemSafety.EveryRunIsSafe | pool.go:135-172 | the invariant of table, registry, instances, events and tokens holds in every reachable state |
| SystemSafety.ApplyKeeps | pool.go:135-172 | every label keeps that invariant |
| SystemSafety.MoveKeeps | instance.go:292-319 | a step of any one instance keeps it |
| SystemSafety.HearKeeps | pool.go:161-172 | hearing any event keeps it |
| SystemSafety.CheckKeeps | pool.go:382-413 | an egress check with any result keeps it |
| ProtocolSafety.SendKeepsLinked | instance.go:602-607 | an event put into the channel fits behind those already there: reports in order, Stopped last |
| ProtocolSafety.HeadHeard | pool.go:161-172 | taking the head event keeps the link between what the coordinator has heard and what the instances have reported |
| CoordinatorSteps.HandleEventIsARun | pool.go:161-172 | an event heard, the creations and the Stop of the alignment, as labels, leave registry, table and channel as the pool's `HandleEvent` does, and every instance as the commands it sends leave it, whichever are dropped |
| CoordinatorSteps.HealthTickIsARun | pool.go:147-150 | the same for the drains of a health check, the confirms sent again to those the pool's methods read as failing and as waiting, and the alignment |
| CoordinatorSteps.HealthTickIsGuarded | pool.go:305-379 | if what was read is how the instances stand, each command goes to an instance of which the code's question is true when it is sent |
| CoordinatorSteps.WakeIsARun | pool.go:154-155 | the same for the alignment of a wake-up, and the first one |
| CoordinatorSteps.HandleEventInterleaved | pool.go:145-146 | registry and table come out the same when the instances and the user act before, between and after the labels of an event turn |
| CoordinatorSteps.HealthTickInterleaved | pool.go:147-150 | the same for a health tick |
| CoordinatorSteps.EgressTickInterleaved | pool.go:151-153 | the same for an egress tick, each instance having been Normal when it was read |
| CoordinatorSteps.EgressTickIsARun | pool.go:151-153 | the same for an egress check of instances read as Normal, with the egresses it stores, and the alignment |
| PoolCode.Pool.HandleEvent | pool.go:161-172 | registry, table and commands after an event of any kind: a report is answered and nothing else moves; any other event is followed by a complete alignment of what it leaves, with its rounds, its reason to stop and its victim |
| PoolCode.Pool.HandleReady | pool.go:175-204 | registry and the one command sent, as `Registry.AnswerToReport` says they are |
| PoolCode.Pool.ReleaseKey | pool.go:207-216 | the entry goes, and the key with it only if the instance still owns it |
| PoolCode.Pool.RemoveInstance | pool.go:219-228 | instance, entry, counter and port are given back, and the snapshot follows |
| PoolCode.Pool.CreateInstance | pool.go:271-302 | takes a port and the next id, or changes nothing when ports are exhausted |
| PoolCode.Pool.ApplyEgress | pool.go:382-413 | registry and command as `Registry.AnswerToCheck` says they are, a failed check draining the instance checked; a valid egress read without error is stored in the instance, and no other |
| PoolCode.Pool.EgressCheck | pool.go:335-362 | the results are applied one after the other in the order they arrive: registry, commands and egresses stored |
| PoolCode.Pool.ReconfirmProbing | pool.go:373-379 | sends one Confirm to each decided instance read as Probing and waiting, and to no other |
| PoolCode.Pool.HealthCheck | pool.go:305-332 | sends one Drain to each Normal instance that fails its check, and to no other |
| PoolCode.Pool.Align | pool.go:231-246 | terminates however the statuses move; the rounds it made, what they created, why there was no other, and whom it evicted when full, on a listing read after the count |
| PoolCode.AlignNeverOvershoots | pool.go:231-246 | it creates only below the maximum, and nothing in a table above it |
| PoolCode.AlignIsExact | pool.go:231-246 | while statuses hold still it creates exactly the least of what is missing, what fits and what ports are left |
| PoolCode.AlignStopsForAReason | pool.go:237-245 | every creating round had found fewer than the minimum Normal or Probing and room for one more; the loop stopped for enough, for a full table or for want of ports, exactly as it says |
| PoolCode.Pool.ActiveCount | pool.go:249-257 | the number of instances read as Normal or Probing |
| PoolCode.Pool.EvictOnce | pool.go:260-268 | one Stop, to what the policy answers to some listing of the table if that is in the table; else none |
| PoolCode.Pool.Views | pool.go:416-422 | exactly one candidate per instance of the table, as read, in any order |
| PoolCode.StoppedIgnoresMapOrder | eviction.go:25-63 | with the oldest-first policy and no ties, the instance stopped is the same for every order in which the map is iterated: no Disabled one is spared for a Draining or Normal one, no Draining one for a Normal one, and none of its own status is older; none is stopped exactly when all are Probing |
| PoolCode.Pool.Publish | pool.go:425-432 | sorting the map from scratch gives the one possible snapshot |
| PoolCode.SortedIds | pool.go:425-432 | the ids of the table, each once, strictly ordered by creation number |
| Registry.AnswerToReport | pool.go:174-204 | a report is confirmed if and only if it has a key no other instance owns, or no key but a valid address; then its entry is its key and its empty counter is gone, otherwise no entry moves; a taken key is answered with Replay, a failed probe with Reprobe twice and then Replay |
| Registry.AnswerToCheck | pool.go:381-413 | a check sends nothing if and only if the key is whitelisted, unchanged or owned by nobody else; a failed check, or an empty key without a valid address, leaves the registry and drains the instance checked; a whitelisted key frees the entry, a new key nobody else owns becomes it |
| Registry.HandleReadyKeepsInverse | pool.go:175-204 | judging a report keeps the maps inverse and each entry the key of the egress it was made for, empty only if whitelisted |
| Registry.ReleaseKeepsInverse | pool.go:207-228 | releasing and removing keep it, and removal leaves nothing of the id |
| Registry.ApplyEgressKeepsInverse | pool.go:382-413 | a check keeps it, and drains only ids of the table |
| Registry.CollisionDrainsOne | pool.go:402-409 | whoever is newer, a collision changes nothing but sends one Drain, to one of the two, and the owner is in the table |
| Registry.OwnersAreDistinct | pool.go:195-202 | two ids with entries never have the same non-empty key |
| Registry.HandleReadyKeepsCount | pool.go:185-194 | judging a report keeps each empty counter equal to its count in the log of decisions |
| Registry.ThirdEmptyIsReplayed | pool.go:185-194 | a failed probe is answered with Reprobe twice in a row and with Replay the third time |
| Table.CreateKeepsTable | pool.go:271-302 | a creation keeps ids, ports and snapshot in step, under an id not in the table |
| Table.RemoveKeepsTable | pool.go:219-228 | so does a removal |
| Table.CreateFailsIffPortsExhausted | pool.go:271-276 | a creation fails exactly when every port is in use |
| Table.ListenAddressesDiffer | pool.go:557-613 | different ids in the table have different listen addresses, all of them legal ports |
| Table.SnapshotIsUnique | pool.go:425-442 | a set of ids has only one sorted snapshot, so map order does not show |
| Decimal.AtoiItoa | pool.go:435-442 | parsing undoes printing of the sequence number |
| Decimal.ViewLessIsCreationOrder | pool.go:435-442 | the order of the snapshot on printed ids is creation order |
| Decimal.TextOrderIsNotCreationOrder | pool.go:435-442 | plain text order would not be |
| Ports.NewAllocatorIsPartitioned | pool.go:566-579 | a new allocator exists exactly for a legal port and owns nothing |
| Ports.AcquireKeepsPartition | pool.go:582-599 | used and free offsets stay a duplicate-free partition of those handed out, the skip is never taken, and the granted offset was not in use |
| Ports.AcquireFailsIffExhausted | pool.go:582-599 | acquisition fails exactly when every port up to 65535 is in use |
| Ports.ReleaseKeepsPartition | pool.go:602-608 | release keeps the partition, also for offsets not in use |
| Ports.ReleaseUndoesAcquire | pool.go:582-608 | releasing what was just acquired gives back the same used set |
| Ports.SpareIsExact | pool.go:582-599 | the number of acquisitions that can still succeed is exact |
| Ports.AddressNamesThePort | pool.go:611-613 | an address is the host, bracketed if it has a colon, and the decimal of base plus offset, which parses back |
| Ports.AddressInjective | pool.go:611-613 | different offsets print as different addresses |
| Ports.PortAllocator.AcquirePort | pool.go:582-599 | the scanning loop computes the acquisition and its address |
| Ports.PortAllocator.ReleasePort | pool.go:602-608 | the same for release |
| InstanceCode.Live | instance.go:195-214 | a new instance run over any script of the world ends in exactly the state the machine reaches |
| InstanceCode.Instance.Manage | instance.go:292-319 | the main loop is the machine from its first `ensureClient` on, until it ends or blocks for good |
| InstanceCode.Instance.EnsureClient | instance.go:416-445 | the retry loop is the machine's rounds, over any number of failures |
| InstanceCode.Instance.StartUnderSem | instance.go:471-485 | token, build and start: a client, a failed round, or the end |
| InstanceCode.Instance.DrainLoop | instance.go:380-413 | parks commands until the timer, the context, a Stop or a Disable |
| InstanceCode.Instance.WaitBackoff | instance.go:557-574 | parks commands until the timer, the context or a Stop |
| InstanceCode.Instance.Handle | instance.go:322-366 | each command from the main loop |
| InstanceCode.Instance.HandleLost | instance.go:369-377 | report the loss, reconnect with the same state, probe |
| InstanceCode.Instance.ProbeAndReport | instance.go:590-599 | one probe, always reported, the last valid egress kept |
| InstanceCode.Instance.Emit | instance.go:602-607 | the event goes out, or the context ends; then the caller goes on |
| InstanceCode.Instance.BackoffDelay | instance.go:546-554 | the delay of the counter it reads, with 64-bit shifts, and the counter advanced |
| InstanceCode.Instance.Send | instance.go:250-261 | refused exactly if stopped or full, else appended |
| InstanceCode.Instance.CloseClient | instance.go:514-523 | a new generation, and the current client closed |
| InstanceCode.Instance.RecoverManage | instance.go:204-214 | finalize, then Stopped if there is room |
| InstanceSafety.StepSafe | instance.go:292-413 | every step keeps clients, generations, commands, statuses and accounts in order |
| InstanceSafety.RunSafe | instance.go:292-413 | so does every run |
| InstanceTheorems.ClientsAreConserved | instance.go:471-523 | every client made is the current one, the one being started or closed; at most one is unclosed, none once finalized |
| InstanceTheorems.OnlyTheCurrentClientIsLost | instance.go:309-312 | a loss is handled only for the client current at that moment, never for one the instance has closed |
| InstanceTheorems.EachGenerationIsLostOnce | instance.go:499-523 | each generation is lost at most once, in increasing order |
| InstanceTheorems.DisabledLeavesOnlyByEnable | instance.go:348-361 | a Disabled instance leaves Disabled only by handling Enable |
| InstanceTheorems.EnsureAccounts | instance.go:416-445 | after k failed rounds a success has rotated the endpoint and requested deletion k times, or k + 1 when not told to keep the state, and advanced the backoff by k |
| InstanceTheorems.DeletionPrecedesBuild | instance.go:418-437 | the deletion and rotation that belong to a round come before its build |
| InstanceTheorems.FirstTryKeepsIdentity | instance.go:354-377 | a loss recovery or Enable whose first round succeeds changes neither endpoint nor state nor backoff |
| InstanceTheorems.IdentityIsKeptExactlyByLossAndEnable | instance.go:334-420 | entering `ensureClient`, endpoint, state and backoff stay and there is no wait exactly on a loss or an Enable; one rotation, one deletion and one step of backoff exactly on a drain or a Replay |
| InstanceTheorems.EgressShownIsTheLatestValid | instance.go:590-599 | over any moves the egress shown is the latest valid one that a probe of the instance or a check has read |
| InstanceTheorems.DelaysGrowBetweenConfirms | instance.go:546-554 | over any moves without a promotion the next delay never shrinks and stays between start and maximum |
| InstanceTheorems.CommandsAreOneQueue | instance.go:298-316 | accepted commands are handled, parked and queued in one order of acceptance, none lost; only Stop and Disable overtake |
| InstanceTheorems.OvertakingHappensOnlyInWaits | instance.go:400-411 | a command overtakes if and only if it is a Stop received in a backoff wait or drain, or a Disable received in a drain |
| InstanceTheorems.StopEndsUnlessReprobing | instance.go:556-574 | a Stop received ends the instance if and only if it is not in the wait of a Reprobe |
| InstanceTheorems.StopCanBeSwallowed | instance.go:330-333 | a run in which a Stop is consumed and the instance goes on |
| InstanceEffects.FailedRoundWaits | instance.go:427-443 | for every valid timing a failed credential, build or start goes into a wait of the delay of its counter, doubled and capped for starts up to 2^34 ns, with counter, endpoint and deletions one further and no client |
| InstanceEffects.WaitEndsByTimer | instance.go:556-574 | a wait leads on only when the timer fires; a command that is not a Stop does not end it, and what does ends the instance, or only the wait of a Reprobe |
| InstanceEffects.EnteringWaitsIffIdentityGivenUp | instance.go:334-424 | entering `ensureClient` after a loss or an Enable starts at once; after a drain or a Replay it waits first, the delay of the counter |
| InstanceEffects.PromotionResetsBackoff | instance.go:324-329 | after any promotion the counter is zero and the next delay is the first |
| InstanceEffects.CommandsAct | instance.go:322-366 | a command taken in the main loop is without effect if and only if the status says so; otherwise what it leads to: status, place, wait, client, counters |
| InstanceEffects.NewInstanceStarts | instance.go:167-201 | a new instance starts at once as Probing, on the endpoint it was given, with its state kept and nothing said |
| InstanceEffects.OnlySourceBuildAndStartFail | instance.go:427-443 | a round fails exactly in the credential, when there is a source to ask, in the build or in the start |
| InstanceEffects.CancelledGoesOn | instance.go:602-607 | the end of the context is noticed exactly where the instance waits; it ends the instance, except that a report is given up and what follows it is done, and that the wait of a Reprobe just ends |
| InstanceEffects.CancelledInstanceCanEnd | instance.go:292-319 | wherever it is, a cancelled instance can come to its end in a bounded number of its own moves, without a token, room for an event, a command or a timer |
| InstanceEffects.DrainRunsOut | instance.go:389-393 | a drain that runs its time is announced and the instance is Probing |
| InstanceEffects.FinalizeReleasesAll | instance.go:610-616 | the end refuses commands, cancels, closes the client and deletes the state |
| LostSignals.CurrentLossIsDroppedOnlyBehindStaleOnes | instance.go:499-511 | the signal of the current client is dropped if and only if the buffer is full, and then all in it are stale; otherwise it is queued last |
| LostSignals.AnInstanceCanGoDeaf | instance.go:505-509 | for every valid timing and any two different keys, some run of the system, in which the coordinator sends only what its questions allow, ends with a Normal idle instance that owns a key, whose client is gone and whose loss nothing will signal |
| LostSignals.DeafUntilCommanded | instance.go:309-312 | over any moves without a command or the end of the context such an instance stays so and reports nothing |
| Endings.EndedLeavesIffItSaidStopped | instance.go:210-213 | an ending instance says Stopped if and only if the channel has room; in every reachable state it has said so if and only if it is out of the table or the event is still in the channel |
| Endings.UnsaidStopStaysForGood | pool.go:219-228 | an instance that ended without saying so is in the table in every later state, with the port and the status it ended with |
| Endings.UnsaidStopKeepsItsKey | pool.go:195-198 | its events heard, its entry stays in every later state unless a check reads an address through it, and every other instance that reports that key is told to replay |
| Endings.AnInstanceCanBeStranded | instance.go:210-213 | for every key, some such run ends with a Normal instance that is over, owns the key, and has no event on its way, while the channel is full of another's |
| Backoff.DelayIsPromisedIffGuardCatchesWrap | instance.go:546-554 | the delay is the doubled, capped one if and only if the shift does not wrap or its wrapped value is not positive or not below the maximum |
| Backoff.DelayIsCappedDoubling | instance.go:546-554 | it is for every start up to 2^34 ns |
| Backoff.DelayGrowsWithinBounds | instance.go:546-554 | then delays never decrease with the counter and stay between start and maximum |
| Backoff.DelayIsPositive | instance.go:550-552 | for every valid start the delay is positive and at most the maximum |
| Backoff.BoundIsTight | instance.go:549-552 | for every maximum, one nanosecond more wraps to 2^30 at the last shift and passes the guard, below the start and below what is promised |
| Hash.FinaliseIsABijection | dial.go:58-63 | the finaliser is a bijection on 64-bit words, with its inverse |
| Hash.XorShiftIsItsOwnInverse | dial.go:58-62 | the xor-shift by 33 undoes itself |
| Hash.Fnv64aLoop | dial.go:52-64 | the loop over bytes and the mixing rounds compute the hash |
| Hash.XorIsBitwise | dial.go:55-62 | a bit of the exclusive or is set exactly if the bits of the operands differ |
| Hash.ShiftDownDivides | dial.go:58-62 | shifting down by k divides by the k-th power of two |
| Hash.AbsorbingMeetsZero | dial.go:54-57 | a byte is mixed in before the multiplication: the state becomes zero exactly if it was the byte |
| Hash.CollisionsAreRawCollisions | dial.go:52-64 | two strings collide exactly when their raw states do |
| Hash.OneByteApartNeverCollide | dial.go:52-64 | strings of one length that differ in one byte never collide |
| Hash.NeighbouringIdsNeverTie | dial.go:130-135 | ids of one length that differ in one digit never tie for a key |
| Routing.AffinityOrder | dial.go:130-136 | clone and sort give a permutation along which the hash of key and id together never rises |
| Routing.OrderFollowsTheHash | dial.go:130-136 | the affinity orders of a key are exactly those permutations |
| Routing.KeysOneByteApartScoreApart | dial.go:130-135 | keys of one length that differ in one byte never score an instance alike |
| Routing.AffinityOrderIsUnique | dial.go:130-136 | for any scoring without ties the order depends on neither candidate order nor sort |
| Routing.RemovalDeletesOneEntry | dial.go:128-136 | removing a candidate deletes its one entry from the order |
| Routing.AdditionMovesFirstChoiceOnlyToNewcomer | dial.go:128-136 | adding one changes a key's first choice only to the newcomer |
| Dialing.NormalCandidates | dial.go:139-147 | exactly the entries read as Normal, from strictly increasing places of the snapshot |
| Dialing.RotatedIsAPermutation | dial.go:93-99 | the rotation tries every candidate exactly once, the one at the cursor first |
| Dialing.OutcomeIsDetermined | dial.go:88-106 | number of tries and outcome follow from the answers alone |
| Dialing.OutcomeIsExplained | dial.go:94-105 | all tries before the last failed; the last connected, or failed with the error returned and was the last candidate, or the context ended; the failures counted are the tries that failed |
| Dialing.RotatedAt | dial.go:93-99 | the i-th try goes to the candidate i places after the cursor, modulo their number |
| Dialing.Dialer.Dial | dial.go:88-106 | tries the rotated list in order up to the first success, the end of the context or the end of the list; returns it, or the last error; counts tries and failures exactly |
| Dialing.Dialer.DialKey | dial.go:109-126 | the same over the rendezvous order |
| Dialing.Dialer.DialView | dial.go:150-155 | one more dial, and one more failure exactly on error |
| Dialing.Dialer.DialContext | dial.go:68-73 | one cursor value per call unless closed, wrapping at 2^64 |
| Dialing.DialContextWithKey | dial.go:77-126 | a key tries the Normal instances in descending hash of key and id, and leaves the cursor alone; an empty key is round-robin |
| Dialing.SameKeySameInstance | dial.go:75-76 | without ties, with the same Normal instances answering alike, a key ends at the same instance after the same tries however the snapshot lists them |
| Dialing.RoundRobinIsFair | dial.go:88-93 | over any m consecutive cursor values each of n candidates is first floor(m/n) or ceil(m/n) times |
| Eviction.EvictOldest | eviction.go:25-50 | the first listed of those that go first: Disabled before Draining before Normal, and none of its status older; none exactly if all are Probing |
| Eviction.MinimalGoesFirst | eviction.go:52-63 | going first is the lexicographic minimum of priority and creation time |
| Eviction.VictimIgnoresCandidateOrder | eviction.go:30-63 | without ties the victim does not depend on the order of candidates |
| EgressKeys.KeysNameAddresses | egress.go:129-146 | the key of an address of the policy's family is not empty, and two are equal exactly if the addresses are |
| EgressKeys.BothKeyDeterminesStacks | egress.go:149-158 | the combined key is empty only if both stacks give none, and otherwise determines both |
| EgressKeys.WhenWhitelisted | egress.go:28-32 | for each policy exactly which probes escape the uniqueness check; a failed probe never does |

## Left out

- Networking: probing, health checks, dialling, building and starting a client are answers the world gives; what they do inside is not modelled.
- Wall-clock time: a timer may fire at any moment, creation times are ordered numbers, and the timeout a Drain carries does not show.
- Credentials and the state file: a deletion request is counted; whether the file is there and what it holds is not modelled, so a credential source may fail in any round.
- Connections in flight: registering, releasing and force-closing them is not modelled; neither is the connection wrapper the dial side returns.
- Integer widths other than the backoff shift, the cursor and the hash: the generation counter, the sequence number and the counters are unbounded, so nothing is said after 2^63 of them.
- Concurrent access: fields that other goroutines read or write atomically are read and written at steps.
- CoordinatorSteps.EgressTickIsARun: the instances stand still during the turn, and so in `HealthTickIsARun`; the interleaved forms say what is left of registry and table when they do not.
- ReleaseSafety.DepartedHoldsNoKey: as `EntrySafety.EntryIsExact`, not for instances being shut down, which may give up sending their event.
- SystemTheorems.TokenWaitersWaitOnlyForStarts: says that the wait can end, not that it does; fairness of the scheduler is not modelled.
- Dialing.RoundRobinIsFair: says nothing about the cursor value that wraps at 2^64, and takes the candidates as fixed.
- Hash.NeighbouringIdsNeverTie: is about bytes; ids elsewhere in the project are strings of characters.
- `setStatus`, `validTransition`, `setMin`, `setMax`: the user may send Enable, Drain or Disable at any time, which covers every transition they let through; the bounds are read once per alignment.
- `Close`, panic recovery, statistics, options and their validation, parsing of the listen address: easy, or outside the protocol.
- `Instance` and `Pool` in `InstanceCode` and `PoolCode`: related fields are grouped in records, and a port allocator is part of a pool; commands a pool sends and egresses it stores are recorded in order instead of put into the instances.
- Statements about distribution, such as how many keys a change of candidates moves: they are about chance.
