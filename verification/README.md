# Aurora control plane: verified models

Aurora's control plane is a set of services (`internal/app`) over in-memory stores (`internal/infra/memory`).
This project models the stateful protocols among them in Dafny and proves what each keeps over every run.

Stores and services that change fields are classes whose methods are proved against specification functions:
`Next` gives the state after one step, `Run` the state after any list of steps, and the main theorems are about
`Run`. Concurrent protocols (migration, address allocation, command dispatch) are labelled steps over a shared state,
so a run is an interleaving. A range over a Go map picks its keys in any order. Clock readings, drawn identifiers and
tokens, and the fate of remote commands are parameters of the steps. Times are nanoseconds; Go's integer division
truncates (`Domain.TruncatedDiv`) and address arithmetic wraps at 32 bits (`Ipam.Wrap`).

| module | component |
|---|---|
| `Migration`, `Copies`, `Power`, `SimulatedDriver` | workload migration over per-node hypervisor tables |
| `JobQueue` | durable jobs: leases, reclaiming, retries, back-off |
| `RateLimit` | token buckets per key |
| `Ipam`, `Allocations` | IPv4 search and the allocation store under concurrent callers |
| `Scheduler` | placement, scores, migration preflight |
| `Quota` | multi-metric reservation with rollback |
| `Storage` | pool space accounting and attachment |
| `Reconcile` | the reconciler and its report |
| `Audit` | the hash-chained ledger |
| `Sessions` | refresh-token families |
| `Backups` | guarded deletion and retention |
| `KeyRotation` | key versions |
| `NodeHealth` | node status machine and health supervisor |
| `Commands` | the command correlation table |
| `Domain`, `Sums`, `Text`, `Wrappers` | shared entities, sums over maps, text with separators, result types |

Facts that came out of the proofs and that a maintainer may want to know:

- The rate limiter's bound for one window is 2 * limit - 1, and that is met (`RateLimit.BoundIsTight`).
- The reconciler counts quotas under the names `instances`, `vcpu`, `memory_mb`, `storage_mb`; the quota engine
  stores `instance_count`, `vcpu_hours`, `ram_gb_hours`, `storage_gb_months`. No item the engine wrote is ever
  compared (`Reconcile.EngineQuotasAreNotCompared`).
- A reconciler pass writes usage counted before it marks orphaned instances, so one pass need not be enough;
  `Reconcile.OnePassSettlesIff` says when it is.
- A wrong quota item is corrected exactly when its tenant has a running or stopped instance (`Reconcile.CorrectedIff`):
  after the last one is gone the old usage stays for good (`Reconcile.IdleTenantKeepsUsage`).
- The comment on `UnregisterConnection` (internal/app/node/connection_manager.go:48) says that pending commands of
  the node fail; the code leaves them waiting for a result or their own context (`Commands.WaitEndsOnlyBy`).
- The gateway is compared as text. Spelled as an IPv4-mapped IPv6 address it is accepted, and then its own address is
  offered to instances (`Allocations.GatewayOfferedIffMapped`, `Allocations.MappedGatewayFound`).
- With overlapping pools an allocation can be refused although its pool has room; `Allocations.RefusalIffShared` says
  for which pools. The pool then stays blocked until one of its own allocations or the one in the way is released
  (`Allocations.BlockedUntilRelease`).
- Creating and resizing volumes never looks at the pool's total (`Storage.CapacityIsNotChecked`);
  `Storage.StaysWithinTotalIff` is the check that would keep it.
- A create that acts but is not reported leaves a second copy of the workload, and every later migration to that node
  rolls back (`Copies.CopiesWhenDone`, `Copies.StrayBlocksMigration`).
- A roll-back's restart is sent after its record is closed, so the next migration may be under way when it arrives: a
  cold migration can then have its workload on at both nodes (`Power.BelatedRestartHappens`). `Power.ColdSourceIsOff`
  says that nothing else turns the source on again.
- The health supervisor also watches offline nodes: one that lost its stream becomes degraded, and schedulable, on its
  way to unhealthy (`NodeHealth.OfflineBecomesSchedulableIff`, `NodeHealth.DisconnectedIsSchedulable`).
- A /31 or /32 pool is reported to have two addresses and can give out none (`Allocations.SmallNetworksHaveNone`).
- Releasing a quota gives back addresses that no reservation counts, so the clamp at zero acts there and only there
  (`Quota.ClampActsIff`).
- A version number comes back when the newest key was revoked (`KeyRotation.VersionIsReusedIff`).
- A ledger verifies when all its hashes are cleared (`Audit.ClearedLedgerVerifies`); the head-hash theorem is about
  ledgers with hashes throughout, which `Record` writes.
- The entry's identifier and user agent are not part of the audit hash (`Audit.UnhashedFields`), and a record shares
  its payload with another of its status, severity, details and time exactly when a text field holds the separator
  (`Audit.PayloadIsSharedIff`).
- Retention over all-expired verified records keeps the last listed one, which is an oldest
  (`Backups.OneSurvivor`).
- The preflight counts free memory and storage in whole megabytes and gigabytes, so it can refuse a node that the
  scheduler would pick; `Scheduler.PlaceableIsRefusedIff` says when.
- A rate-limited call that refills its bucket reports a reset time of zero or less, measured before the refill
  (`RateLimit.MemoryRateLimiter.Allow`).

## Model

| member | source | states |
|---|---|---|
| Migration.NoWorkloadIsLost | internal/app/migration/service.go:221-302 | in every interleaving of admissions and worker steps, whatever commands fail or act unreported, each instance record names a node whose driver holds the instance |
| Migration.NodeIsLastDestination | internal/app/migration/service.go:273-302 | a record's node is the destination of the last migration that relocated it, or its first node; all completed migrations and no rolled-back one are in that history |
| Migration.CompletionIsAtDestination | internal/app/migration/service.go:273-302 | the step that completes a migration leaves the record at its destination, whose driver holds the workload, powered if it ran |
| Migration.RollBackRestores | internal/app/migration/service.go:221-272 | run without interruption, a migration that rolls back leaves every record as it was and the source holding the instance, running again if the restart was delivered |
| Migration.RestartRestores | internal/app/migration/service.go:259-271 | in any interleaving, at the restart of a roll-back whose record still names the source, the source holds the instance, and runs it after a delivered restart if it ran before |
| Migration.SoloIsASchedule | internal/app/migration/service.go:221-302 | the uninterrupted body of the migration goroutine is one of the schedules the run theorems cover |
| Copies.CopiesInRun | internal/app/migration/service.go:221-302 | at every point of every run a node holds a workload exactly when the record names it, an earlier migration left a copy on it, or the migration under way has its second copy there; the three never coincide |
| Copies.CopiesWhenDone | internal/app/migration/service.go:221-302 | once its migrations are done, the copies of a workload are the record's node and exactly those left behind: there before, by creates that acted although their migration rolled back, and by clean-ups that did not act |
| Copies.StrayBlocksMigration | internal/app/migration/service.go:237-271 | a copy left on a node makes every later migration of the workload to that node roll back, whatever becomes of its create |
| Copies.TwoCopiesHappen | internal/app/migration/service.go:237-271 | runs do leave two copies: after a create that acts and is not reported, source and destination both hold the workload |
| Power.UninterruptedMigration | internal/app/migration/service.go:221-302 | for every fate of its four commands, what an uninterrupted migration leaves of the instance's record, the migration's record and the entries of its two nodes; it completes exactly when its create makes the copy and is reported |
| Power.StepActs | internal/app/migration/service.go:228-292 | what each step sends, told by the driver tables it leaves: only a cold migration of a running workload stops it at its source, the create is powered as the workload was, a roll-back starts it if it ran, the clean-up deletes it at the source; a command that does not arrive or is refused changes nothing |
| Power.CreateDecides | internal/app/migration/service.go:243-271 | a migration goes on after its create exactly when that made the copy and was reported |
| Power.StepRecords | internal/app/migration/service.go:276-282 | the instance's record is moved to the destination and set running if it ran, and no other step writes it |
| Power.AdmissionIs | internal/app/migration/service.go:138-204 | a request is admitted exactly under the five conditions, and its worker starts from what the record says then |
| Power.StopLeavesOff | internal/app/migration/service.go:226-239 | in every run a delivered stop of a cold migration of a running workload leaves the source's entry off and every other as it was |
| Power.ColdSourceIsOff | internal/app/migration/service.go:226-292 | over every run, from its delivered stop to its clean-up a cold migration's source is on exactly if an earlier migration that rolled back to that node restarts the workload there since |
| Power.UnstoppedSourceStaysOn | internal/app/migration/service.go:226-292 | a migration that sends no stop leaves a workload that runs at its source running there until the clean-up |
| Power.LandedPower | internal/app/migration/service.go:243-298 | once landed the workload is on at the destination exactly if it ran when the migration was asked for, or such a belated restart powers it on there |
| Power.ColdRunsOnce | internal/app/migration/service.go:226-292 | without such a restart a cold migration whose stop was delivered has the workload on at no node but its destination and those with left copies |
| Power.BelatedRestartHappens | internal/app/migration/service.go:226-271 | the condition is needed: every running workload has a run in which a cold migration, stop and create delivered, has it on at both nodes |
| Power.MigrationsKeepRecords | internal/app/migration/service.go:221-302 | migrations change nothing of an instance's record but its node, and each worker knows whether its workload ran |
| Power.ProgressInRun | internal/app/migration/service.go:221-302 | in every run a migration's status and progress are those of the point its worker has reached |
| Migration.ControlPlane.ExecuteMigration | internal/app/migration/service.go:221-302 | for every fate of its four commands the body ends in the state of its worker's labelled steps; `Power.UninterruptedMigration` says what that is |
| Migration.ControlPlane.Migrate | internal/app/migration/service.go:138-204 | admission succeeds exactly for a known instance with no active migration, a destination other than its node and a passed preflight; a refusal reports the first of these checks that fails and changes nothing |
| Migration.ControlPlane.GetActiveForInstance | internal/infra/memory/migration_repo.go:56-67 | finds a non-terminal migration of the instance exactly when there is one |
| Migration.ControlPlane.UpdateNodeID | internal/infra/memory/instance_repo.go:148-160 | moves a known instance's record to the node and nothing else; an unknown one is an error |
| Migration.ControlPlane.SendCommand | internal/app/node/service.go:243-253 | a command is performed by the node's driver before its dispatch returns, or never, and changes no other node; success means the driver accepted it |
| SimulatedDriver.ExecuteIsLocal | internal/infra/incus/driver.go:380-459 | a rejected command changes nothing, no command touches another instance, only delete loses one, create never overwrites |
| SimulatedDriver.Driver.CreateInstance | internal/infra/incus/driver.go:380-405 | creates the instance or reports that it exists |
| SimulatedDriver.Driver.StartInstance | internal/infra/incus/driver.go:407-420 | starts a stopped instance, with the errors of the table |
| SimulatedDriver.Driver.StopInstance | internal/infra/incus/driver.go:422-435 | stops a running instance, with the errors of the table |
| SimulatedDriver.Driver.DeleteInstance | internal/infra/incus/driver.go:449-459 | removes the instance or reports that there is none |
| SimulatedDriver.Driver.Perform | internal/app/agent/client.go:410-455 | each typed command performs its driver operation and reports that operation's error |
| SimulatedDriver.CommandOutcome | internal/infra/incus/driver.go:380-459 | the state each command leaves and the error it is refused with |
| JobQueue.RunningIffLeased | internal/infra/memory/job_repo.go:115-176 | in every run a job is running exactly when it carries a worker and a deadline, and otherwise carries neither |
| JobQueue.ClaimsAreExclusive | internal/infra/memory/job_repo.go:115-176 | between two claims of a job with no Mark event in between, the clock has passed the latest deadline, renewals included |
| JobQueue.DeadlineHeldOrPassed | internal/infra/memory/job_repo.go:161-300 | a granted deadline is either still carried by the running job or had passed when the job was reclaimed |
| JobQueue.RetryBudget | internal/infra/memory/job_repo.go:224-249 | over a job's life, operator retries included, its retry count is its number of failures, retrying jobs are within the maximum, and it enters retrying at most that often |
| JobQueue.BackoffGrows | internal/app/job/engine.go:390-411 | with any jitter, a later attempt up to the fifth waits longer than an earlier one, between 4 and 2160 seconds |
| JobQueue.MemoryJobRepo.Create | internal/infra/memory/job_repo.go:38-58 | stores a copy of the job over any other of its identifier, with three retries if none were asked for |
| JobQueue.MemoryJobRepo.Submit | internal/app/job/engine.go:118-129 | a submission stores a pending job under a fresh identifier |
| JobQueue.MemoryJobRepo.ClaimNextPending | internal/infra/memory/job_repo.go:115-159 | claims an eligible job of a wanted type, and none exactly when there is none |
| JobQueue.MemoryJobRepo.RenewLease | internal/infra/memory/job_repo.go:161-176 | extends the lease for the worker that holds it, and otherwise changes nothing |
| JobQueue.MemoryJobRepo.MarkSucceeded | internal/infra/memory/job_repo.go:205-222 | the job succeeds and its lease ends |
| JobQueue.MemoryJobRepo.MarkFailed | internal/infra/memory/job_repo.go:224-249 | counts the failure and goes to retrying within the budget, else to failed |
| JobQueue.MemoryJobRepo.MarkCanceled | internal/infra/memory/job_repo.go:251-270 | cancels a job that is not terminal |
| JobQueue.MemoryJobRepo.ReclaimAbandonedJobs | internal/infra/memory/job_repo.go:284-300 | puts exactly the running jobs with a deadline before the cutoff back to pending, and counts them |
| JobQueue.MemoryJobRepo.RetryJob | internal/app/job/engine.go:225-254 | an operator's retry resets a failed or canceled job |
| JobQueue.SubmitStores | internal/app/job/engine.go:118-129 | a submitted job is pending with three retries unless it asks otherwise; a known identifier is left alone |
| JobQueue.RenewExtends | internal/infra/memory/job_repo.go:161-176 | in every run a renewal moves the deadline of exactly a running job of that worker |
| JobQueue.MarksSettle | internal/infra/memory/job_repo.go:205-270 | success and cancellation end the lease with that status; a finished job is not canceled |
| JobQueue.FailureRetriesIff | internal/infra/memory/job_repo.go:224-249 | in every run a failed job is retried, after the delay, exactly if it may be and its failures do not exceed its maximum, and else fails |
| JobQueue.ClaimedIff | internal/infra/memory/job_repo.go:115-159 | a claim takes exactly a pending job, a retrying one whose time has come, or a running one past its deadline |
| JobQueue.ReclaimReturns | internal/infra/memory/job_repo.go:284-300 | a reclaim puts exactly the running jobs with a deadline before its cutoff back to pending, without a lease |
| JobQueue.RetryMakesClaimable | internal/app/job/engine.go:225-254 | an operator's retry makes exactly a failed or canceled job claimable at once |
| JobQueue.FinishedStays | internal/infra/memory/job_repo.go:115-270 | over every run a finished job keeps its status and is never handed out until it is marked or retried |
| JobQueue.SucceededIsFinal | internal/infra/memory/job_repo.go:115-270 | a job that has succeeded is never claimed, retried or canceled again unless a failure of it is reported after all |
| JobQueue.RetryWaits | internal/infra/memory/job_repo.go:115-249 | over every run a job sent to retrying is held back until the failure's time plus its delay |
| JobQueue.RetryIsNotEarly | internal/infra/memory/job_repo.go:115-249 | so no claim of it succeeds before that |
| JobQueue.BackoffIsNominal | internal/app/job/engine.go:390-411 | with any jitter a delay is within a fifth of 5 seconds, 30 seconds, 2 minutes, 10 minutes and, from the fifth attempt on, 30 minutes |
| RateLimit.AtMostTwiceTheLimit | internal/infra/memory/ratelimit_repo.go:32-73 | any half-open interval one window long sees at most 2 * limit - 1 allowed calls |
| RateLimit.BoundIsTight | internal/infra/memory/ratelimit_repo.go:32-73 | for every limit some run allows that many |
| RateLimit.AtMostLimitPerWindow | internal/infra/memory/ratelimit_repo.go:32-73 | from its creation a bucket allows at most limit * (1 + floor(elapsed / window)) calls |
| RateLimit.MemoryRateLimiter.Allow | internal/infra/memory/ratelimit_repo.go:32-73 | each answer is that of the call's place in its bucket's history, under the rule the bucket was created with; a reset time of zero or less means that the call refilled the bucket |
| RateLimit.MemoryRateLimiter.Reset | internal/infra/memory/ratelimit_repo.go:75-82 | forgets exactly that bucket |
| RateLimit.AllowedIff | internal/infra/memory/ratelimit_repo.go:32-73 | from the call times alone: a call is allowed exactly when fewer than the limit came before it since the call that opened its window |
| RateLimit.RefillFillsUp | internal/infra/memory/ratelimit_repo.go:51-61 | a call a window or more after the last refill is allowed and leaves one token fewer than the limit |
| RateLimit.BucketsAreApart | internal/infra/memory/ratelimit_repo.go:36 | rules whose prefixes hold no colon never share a bucket |
| Ipam.LeastFreeIsLeast | internal/app/ipam/service.go:265-293 | the search finds the least host address not taken, never network or broadcast, and fails exactly when all are taken |
| Ipam.FindNextAvailableIP | internal/app/ipam/service.go:265-293 | for every prefix length the loop over 32-bit words returns the text of the lowest address strictly inside the network that is not taken, as read back from the text, or none when all are taken |
| Ipam.NetworkFits | internal/app/ipam/service.go:265-293 | no address of a network lies beyond 32 bits, so the search never wraps |
| Ipam.SizeWord | internal/app/ipam/service.go:265-293 | the loop bound in 32-bit words is the size less one, also for a /0 network whose size word is 0 |
| Ipam.DottedInjective | internal/app/ipam/service.go:265-293 | different addresses have different texts, so comparing texts compares addresses |
| Ipam.TextOfAddressIff | internal/app/ipam/service.go:284-285 | a text reads, as four decimal octets with the most significant first, as an address exactly when it is the text printed for it |
| Ipam.LeastFreeNameIsLeast | internal/app/ipam/service.go:265-293 | what the search returns reads back as the lowest address strictly inside the network whose text is not taken |
| Allocations.OfferedIff | internal/app/ipam/service.go:129-185 | from an empty store some run of allocations comes to a host address exactly when its text is not the gateway's |
| Allocations.GatewayOfferedIffMapped | internal/app/ipam/service.go:61-85 | of the dotted-quad and IPv4-mapped texts of a gateway, both of which are accepted, exactly the mapped one lets the gateway's own address be offered |
| Allocations.MappedGatewayFound | internal/app/ipam/service.go:140-151 | it happens: in 10.0.0.0/30 with gateway ::ffff:10.0.0.1 the first search of an empty store finds 10.0.0.1 |
| Allocations.NoAddressTwice | internal/app/ipam/service.go:129-185 | however callers and releases interleave, no two active allocations share an address, even of overlapping pools, and each lies strictly inside its network and is not the gateway's text |
| Allocations.ExhaustedIffFull | internal/app/ipam/service.go:221-304 | a search reports exhaustion exactly when the active count is the reported total, less one if the gateway is a host address |
| Allocations.FoundIsFreeUnlessShared | internal/infra/memory/ipam_repo.go:108-127 | a found address is refused exactly when another pool's active allocation has it; without overlap never |
| Allocations.BlockedUntilRelease | internal/infra/memory/ipam_repo.go:108-127 | once a pool's next address is held through another pool, whatever any callers of any pools do, it goes on finding that address until an allocation of the pool or of that address is released; unless a caller already carried another of its addresses, the pool allocates nothing |
| Allocations.RefusalIffShared | internal/app/ipam/service.go:129-185 | from an empty store some run comes to a search whose address is then refused exactly when another pool shares with this one a host address that is neither one's gateway |
| Allocations.OverlapBlocks | internal/app/ipam/service.go:129-185 | of two pools over one base address the first allocation of the one blocks the other, which has room, no allocation and no caller |
| Allocations.OverlapHappens | internal/app/ipam/service.go:129-185 | it happens with 10.0.0.0/29 and 10.0.0.0/30: after one allocation in the first, a search of the second finds an address that its create is refused |
| Allocations.HostCount | internal/app/ipam/service.go:295-304 | the reported total is the number of host addresses for prefixes up to 30 |
| Allocations.IpamService.ListByPoolID | internal/infra/memory/ipam_repo.go:154-166 | the addresses of the pool's active allocations |
| Allocations.IpamService.CreateAllocation | internal/infra/memory/ipam_repo.go:108-127 | refuses an address that is active anywhere and otherwise stores it |
| Allocations.IpamService.AllocateIP | internal/app/ipam/service.go:129-185 | an uninterrupted allocation is a search followed by a create: it stores and returns a free host address that is active nowhere, and is out of addresses exactly when none is free |
| Allocations.IpamService.ReleaseIP | internal/app/ipam/service.go:187-212 | marks the allocation released |
| Allocations.IpamService.GetPoolUtilization | internal/app/ipam/service.go:221-263 | leased, reserved and spare counts, the spare count clamped at zero, and the share in use to the nearest hundredth of a percent |
| Allocations.IpamService.CountActive | internal/app/ipam/service.go:235-243 | the active allocations of the pool, leased and reserved |
| Allocations.AllocatedAddresses | internal/app/ipam/service.go:129-185 | in every interleaving each allocation's text reads back to an address strictly inside its network, and active ones to different addresses |
| Allocations.SearchOffersLowest | internal/app/ipam/service.go:139-160 | a search offers the lowest free address of its pool, and nothing exactly when none is free |
| Allocations.CreateAndRelease | internal/infra/memory/ipam_repo.go:108-152 | a create stores its caller's address unless it is active in any pool; a release ends that allocation alone |
| Allocations.SmallNetworksHaveNone | internal/app/ipam/service.go:295-304 | a /31 or /32 is reported to have two addresses and has none to offer |
| Scheduler.IndexAllocations | internal/app/scheduler/scheduler.go:67-110 | one pass gives every node the sum over its instances that are neither deleted nor pending |
| Scheduler.Evaluate | internal/app/scheduler/scheduler.go:112-230 | a node is eligible exactly when it meets the declared constraints, with score and room as defined; a refusal names a constraint that it breaks |
| Scheduler.EvaluateCandidates | internal/app/scheduler/scheduler.go:67-230 | every listed node is evaluated against its own load |
| Scheduler.SelectNode | internal/app/scheduler/scheduler.go:29-65 | fails exactly when no node meets the request, otherwise picks one of maximal score |
| Scheduler.ScoreInRange | internal/app/scheduler/scheduler.go:195-225 | before the preference boost an eligible node scores between 0 and 100 |
| Scheduler.PlacementFits | internal/app/scheduler/scheduler.go:112-230 | after the placement CPU, memory and storage limits still hold, and no other node's load changed |
| Scheduler.SortByScore | internal/app/scheduler/scheduler.go:45-60 | the same candidates, each as often, highest score first |
| Scheduler.PreflightCheck | internal/app/migration/service.go:66-134 | an unknown instance or destination is an error; otherwise it passes exactly when architectures agree, the destination meets the workload's request, and the sizes fit in whole units |
| Scheduler.PlaceableIsRefusedIff | internal/app/migration/service.go:94-134 | a node that the scheduler would pick fails the preflight exactly when its architecture differs or the workload reaches into the last partial megabyte of memory or gigabyte of storage |
| Scheduler.PlaceableIsRefused | internal/app/migration/service.go:94-134 | it happens, for a workload of a megabyte and a byte on an idle node with that much memory |
| Scheduler.MeetsIff | internal/app/scheduler/scheduler.go:112-194 | the constraints spelled out: status, flags, location, architecture regardless of case, KVM, and room in all three dimensions |
| Scheduler.CpuLimitIs | internal/app/scheduler/scheduler.go:165-177 | processors times the overcommit, or 128 |
| Scheduler.MemoryLimitIs | internal/app/scheduler/scheduler.go:169-181 | memory times the overcommit in whole bytes, or 512 GB |
| Scheduler.LessLoadedScoresHigher | internal/app/scheduler/scheduler.go:195-225 | of two nodes with the same limits the one with less on it scores higher |
| Scheduler.ScoresAtTheEnds | internal/app/scheduler/scheduler.go:195-225 | processors and memory weigh fifty points each: all when idle, none when full |
| Scheduler.PreferredGains | internal/app/scheduler/scheduler.go:195-225 | the preferred node gains fifteen points and no other any |
| Scheduler.LoadedIsNotBest | internal/app/scheduler/scheduler.go:29-225 | of two nodes alike but for their load the more loaded one never has the best score unless it is preferred |
| Scheduler.LoadGrows | internal/app/scheduler/scheduler.go:67-110 | an instance adds its figures to the load of its own node, unless it is pending or deleted |
| Scheduler.PreflightMeetsIff | internal/app/migration/service.go:66-134 | what the preflight demands, spelled out in the workload's own figures and the two nodes' architectures |
| Quota.QuotaEngine.ReserveQuota | internal/app/billing/quota.go:120-171 | all four metrics or none: on an error every usage is as before, on success each is raised by its request and within its positive limit; it succeeds exactly when every metric has room |
| Quota.QuotaEngine.ReleaseQuota | internal/app/billing/quota.go:174-194 | lowers the tenant's usages by the request, addresses included, not below zero |
| Quota.UsageIsOutstanding | internal/app/billing/quota.go:120-194 | over any run of reservations and matched releases, across plan changes, usage is the sum of what is still held; addresses, which nothing reserves, are never held |
| Quota.ClampNeverActs | internal/infra/memory/billing_repo.go:397-412 | so a matched release never takes more of what was reserved than is there |
| Quota.ClampActsIff | internal/app/billing/quota.go:174-194 | the clamp at zero acts exactly where a release gives back addresses |
| Quota.OwedWithout | internal/app/billing/quota.go:174-194 | giving back any one of several reservations lowers the sum by exactly its request |
| Quota.QuotaRepo.ReserveQuota | internal/infra/memory/billing_repo.go:362-395 | creates a missing item, adopts a positive limit, and raises the usage if there is room |
| Quota.QuotaRepo.ReleaseQuota | internal/infra/memory/billing_repo.go:397-412 | lowers the usage, not below zero |
| Quota.QuotaEngine.TryMetric | internal/app/billing/quota.go:130-168 | one metric reserved or refused, leaving the room of the other metrics as it was |
| Quota.QuotaEngine.Undo | internal/app/billing/quota.go:136-166 | the compensating release takes one metric of the request back |
| Quota.RaisedIff | internal/app/billing/quota.go:120-171 | a reservation raises each of four metrics by the request's own field, and nothing else of anyone |
| Quota.LoweredIff | internal/app/billing/quota.go:174-194 | a release lowers each of five by the request's own field, not below zero |
| Quota.GrantedIff | internal/app/billing/quota.go:120-171 | a request is granted exactly when each amount with what is used stays within or just reaches that metric's own limit, the plan's if positive and else the stored one |
| Reconcile.TwoPassesSettle | internal/app/reconcile/service.go:62-221 | at a fixed clock and with at most 500 running jobs, two real passes reach a state that no further pass changes |
| Reconcile.OnePassSettlesIff | internal/app/reconcile/service.go:87-166 | one pass is enough exactly when no compared quota item of a tenant that stays active loses usage to an orphaned instance |
| Reconcile.OnePassNeedNotSettle | internal/app/reconcile/service.go:87-166 | there is a state that one pass does not settle |
| Reconcile.SettledFindings | internal/app/reconcile/service.go:62-221 | once settled, a real pass only finds instances in error on missing nodes and stalled transfers |
| Reconcile.UsageAfterRepair | internal/app/reconcile/service.go:91-135 | the usage counted before the repair is the usage counted after it plus what orphaned instances add |
| Reconcile.EngineQuotasAreNotCompared | internal/app/reconcile/service.go:102-150 | items stored under the quota engine's metric names are never corrected |
| Reconcile.ItemChangesIff | internal/app/reconcile/service.go:137-166 | a pass changes an item exactly when it is under one of the reconciler's names, its tenant is active and its usage is wrong |
| Reconcile.CorrectedIff | internal/app/reconcile/service.go:137-166 | an item under one of those names is right after a pass exactly when it was right before or its tenant is active |
| Reconcile.IdleTenantKeepsUsage | internal/app/reconcile/service.go:96-166 | a tenant without a running or stopped instance uses nothing, and no number of passes changes its items while it stays so |
| Reconcile.DeletedInstanceStaysCounted | internal/app/reconcile/service.go:87-166 | it happens: a counted instance is deleted, and any number of later passes leave the count at one |
| Reconcile.Service.CheckInstances | internal/app/reconcile/service.go:87-135 | tallies each active tenant's usage over all instances and sets exactly the orphaned ones to error, unless dry |
| Reconcile.Service.CheckInstance | internal/app/reconcile/service.go:91-135 | one listed instance: added to the tally, set to error and reported if it is orphaned |
| Reconcile.Service.CheckQuotas | internal/app/reconcile/service.go:137-166 | sets exactly the differing items of active tenants to their tally and reports them |
| Reconcile.Service.CheckJobs | internal/app/reconcile/service.go:168-196 | reports the stale leases on the page and, if there is one and the pass is real, reclaims all expired leases |
| Reconcile.Service.CheckMigrations | internal/app/reconcile/service.go:198-219 | reports stalled transfers on the page as needing an administrator |
| Reconcile.Service.Reconcile | internal/app/reconcile/service.go:62-251 | a dry run changes no store; a real pass makes the repairs; each finding is listed once, totals are the list's length and the sum of categories, and in a real run repaired plus unsafe is the total |
| Reconcile.PassLeavesNoOrphan | internal/app/reconcile/service.go:87-135 | after a real pass nothing is recorded as running on a missing or offline node, only deleted instances and ones in error name a missing node, and an instance changes exactly if it ran on an offline node or, not deleted, names a missing one, and then only to error |
| Reconcile.InstanceIsReportedIff | internal/app/reconcile/service.go:108-133 | exactly those instances are reported |
| Reconcile.StalledIsReportedIff | internal/app/reconcile/service.go:168-219 | with at most a page of each, exactly the running jobs more than 30 seconds past their lease and the transfers without news for more than 5 minutes are reported |
| Reconcile.PassReclaims | internal/app/reconcile/service.go:168-196 | one such lease makes a real pass put every running job past its lease back to pending, without one no job changes, and none is left afterwards |
| Reconcile.UsageGrows | internal/app/reconcile/service.go:96-105 | each running or stopped instance adds one, its cores and its whole megabytes to its tenant's usage |
| Reconcile.PassSetsUsage | internal/app/reconcile/service.go:137-166 | a real pass sets the four items of a tenant with a running or stopped instance to that usage, keeps their limits and leaves all else |
| Reconcile.QuotaIsReportedIff | internal/app/reconcile/service.go:137-166 | a real pass reports exactly the items it changes, a dry run none |
| Storage.UsedIsSumOfVolumes | internal/app/storage/service.go:134-441 | in every reachable state each pool's used bytes are the sum of its volumes' sizes, a volume is attached exactly when it names an instance, and names are unique |
| Storage.DeletionNeverClamps | internal/app/storage/service.go:396-424 | a deletion gives back exactly the volume's size; the clamp at zero never acts |
| Storage.StaysWithinTotalIff | internal/app/storage/service.go:60-441 | an accepted request keeps every pool within its total exactly when it fits: a total of zero or more for a new pool, room for the size or the growth for a volume |
| Storage.RunStaysWithinTotalIff | internal/app/storage/service.go:60-441 | a run stays within the totals throughout exactly when each request it accepts fits at its point of the run |
| Storage.CapacityIsNotChecked | internal/app/storage/service.go:134-177 | it happens on both paths: for any total a run of accepted requests creates a volume, or resizes one that fitted, beyond it |
| Storage.Service.CreateStoragePool | internal/app/storage/service.go:60-103 | refused for empty names, a missing node or a taken name, and otherwise an empty pool |
| Storage.Service.CreateVolume | internal/app/storage/service.go:134-198 | refused for a bad specification, a missing pool or a taken name; otherwise stored and added to the pool's use |
| Storage.Service.AttachVolume | internal/app/storage/service.go:241-304 | attaches a free volume to an instance on the pool's node |
| Storage.Service.DetachVolume | internal/app/storage/service.go:306-347 | detaches an attached volume |
| Storage.Service.ResizeVolume | internal/app/storage/service.go:349-394 | never shrinks, and adds the difference to the pool's use |
| Storage.Service.DeleteVolume | internal/app/storage/service.go:396-441 | removes a volume that is not attached |
| Storage.MakesPoolIff | internal/app/storage/service.go:60-103 | when a pool is made, and that it starts with nothing in use |
| Storage.CreatesIff | internal/app/storage/service.go:134-198 | when a volume is made, with what fields, and that its pool's use grows by its size |
| Storage.AttachesIff | internal/app/storage/service.go:241-304 | in every run a volume is attached exactly when it is free and the instance sits on its pool's node |
| Storage.DetachesIff | internal/app/storage/service.go:306-347 | in every run exactly an attached volume of a known instance is freed |
| Storage.ResizesIff | internal/app/storage/service.go:349-394 | in every run a volume takes any size but a smaller one, and its pool's use moves by the difference |
| Storage.DeletesIff | internal/app/storage/service.go:396-441 | in every run exactly a free volume is deleted, and its pool's use falls by its size |
| Storage.AttachedIsKept | internal/app/storage/service.go:241-441 | over every run an attached volume is not deleted, handed to another instance or made smaller until it is detached |
| Audit.HeadHashFixesLedger | internal/infra/memory/memory_repos.go:685-799 | under an injective digest without separators, two fully hashed ledgers of one length that verify and end in the same hash have equal hashed payloads everywhere |
| Audit.HeadHashFixesRecordedLedger | internal/infra/memory/memory_repos.go:685-799 | ledgers that only Record has written are hashed throughout under such a digest, so their head hash fixes them |
| Audit.PayloadDeterminesFields | internal/domain/audit/audit.go:47-75 | records whose text fields have no separator share a payload exactly when they agree on every hashed field |
| Audit.SeparatorIsAmbiguous | internal/domain/audit/audit.go:47-75 | every record with the separator in its previous hash, actor, address, action, resource type, resource or request ID has a different record of the same payload, status, severity, details and time |
| Audit.PayloadIsSharedIff | internal/domain/audit/audit.go:47-75 | among records of one status, severity, details and time a payload is shared exactly when one of those texts holds the separator |
| Audit.UnhashedFields | internal/domain/audit/audit.go:47-75 | changing an entry's identifier or user agent leaves verification as it was |
| Audit.UnhashedLedgerVerifiesIff | internal/domain/audit/audit.go:77-83 | a ledger without hashes verifies exactly when no entry but the first names a previous hash |
| Audit.ClearedLedgerVerifies | internal/domain/audit/audit.go:77-83 | any ledger verifies once its hashes and previous hashes are cleared |
| Audit.InjectiveDigestExists | internal/domain/audit/audit.go:73-75 | the assumption made of the digest can be met |
| Audit.MemoryAuditRepo.Record | internal/infra/memory/memory_repos.go:685-705 | appends the completed entry, and the ledger still verifies in full |
| Audit.MemoryAuditRepo.VerifyChainIntegrity | internal/infra/memory/memory_repos.go:772-799 | succeeds exactly when each of the newest entries, as many as a positive limit asks for and else all, verifies, with their number; otherwise reports the first bad one |
| Audit.PayloadText | internal/domain/audit/audit.go:47-75 | the hashed text, field by field in its order |
| Audit.EntryOkIff | internal/infra/memory/memory_repos.go:780-795 | an entry passes when its hash, if it has one, is that of its text and it names the hash before it |
| Audit.RecordedIs | internal/infra/memory/memory_repos.go:685-705 | what is filled in: number, time and severity where missing, the link and the hash; nothing else changes |
| Sessions.LiveIsNewest | internal/app/auth/service.go:317-412 | in every run the unrevoked session of a family is the one most recently issued in it |
| Sessions.AtMostOneLive | internal/app/auth/service.go:317-412 | each family has at most one unrevoked session |
| Sessions.DeadStaysDead | internal/app/auth/service.go:317-412 | a family with no unrevoked session never gains one again |
| Sessions.ReplayEndsFamily | internal/app/auth/service.go:324-339 | presenting a revoked token leaves its family without an unrevoked session for good |
| Sessions.TokenUsedTwice | internal/app/auth/service.go:317-391 | a token used twice, with anything in between, ends its family |
| Sessions.LogoutEndsFamilyIff | internal/app/auth/service.go:394-412 | a logout ends the family exactly when it gives up the live token, or the family was ended already |
| Sessions.IdsAreUnique | internal/app/auth/service.go:317-452 | session identifiers stay unique, so revoking by identifier is unambiguous |
| Sessions.Service.RefreshSession | internal/app/auth/service.go:317-391 | rotates exactly a known, unrevoked, unexpired token of an active user; reuse is reported exactly for revoked ones |
| Sessions.Service.IssueSession | internal/app/auth/service.go:414-452 | records the first session of a family |
| Sessions.Service.LogoutSession | internal/app/auth/service.go:394-412 | revokes that session only |
| Sessions.MemorySessionRepo.Revoke | internal/infra/memory/memory_repos.go:637-651 | revokes one session with the identifier, if there is one |
| Sessions.MemorySessionRepo.RevokeFamily | internal/infra/memory/memory_repos.go:653-665 | revokes exactly the family's sessions |
| Sessions.LoginAndLogout | internal/app/auth/service.go:394-452 | a login adds one session for seven days, a logout revokes that of its token |
| Sessions.RefreshDoes | internal/app/auth/service.go:317-391 | the four outcomes of a refresh and exactly what each writes |
| Sessions.UsableForAWeek | internal/app/auth/service.go:317-452 | over every run a token can be used exactly while it is unrevoked, its user is active and at most seven days have passed since it was issued |
| Sessions.FamilyHasOneUser | internal/app/auth/service.go:317-452 | all sessions of a family are one user's |
| Backups.PruningRemoves | internal/app/backup/service.go:349-379 | pruning any listing removes exactly the unprotected expired records on it, except the last verified one listed when all verified records are among them |
| Backups.PruningKeepsAVerified | internal/app/backup/service.go:349-379 | the verified count never goes from positive to zero |
| Backups.OneSurvivor | internal/app/backup/service.go:349-379 | with at most 1000 records, an unprotected expired survivor is the only one, is the sole verified record, and no verified record was older |
| Backups.LastVerifiedIsLostIff | internal/app/backup/service.go:67-332 | of all operations only finding the last verified artifact damaged takes the last verified record away |
| Backups.ProtectedIsKept | internal/infra/memory/backup_repo.go:196-222 | a protected record stays, and stays protected, whatever follows |
| Backups.MemoryBackupRepo.Delete | internal/infra/memory/backup_repo.go:196-222 | refuses protected records and the only verified one, and otherwise deletes |
| Backups.MemoryBackupRepo.CountVerified | internal/infra/memory/backup_repo.go:183-194 | the number of verified records |
| Backups.MemoryBackupRepo.List | internal/infra/memory/backup_repo.go:76-116 | a page of distinct records, newest first, nothing left out being newer |
| Backups.Service.ApplyRetentionPolicy | internal/app/backup/service.go:349-379 | prunes the listed page by the policy's cutoff: only unprotected records older than its days go, and exactly the number removed is returned |
| Backups.PolicyRemovesOnlyOld | internal/app/backup/service.go:349-379 | a policy removes only unprotected records created more than its days ago, and an old one that stays, with at most 1000 records, stays as the only verified one |
| Backups.DeletableIffSpared | internal/infra/memory/backup_repo.go:196-222 | a record can be deleted exactly when it is unprotected and, if verified, not the only verified one |
| Backups.FirstBackupIsProtected | internal/app/backup/service.go:67-200 | a stored backup that verifies is verified, and protected exactly when no other record is; else it is failed |
| KeyRotation.KeysAreOrdered | internal/app/keyrotation/service.go:49-106 | in every reachable state each kind has at most one active key, usable versions are distinct, the active version exceeds every one in grace, and the versions issued are contiguous |
| KeyRotation.RotationTakesOver | internal/app/keyrotation/service.go:49-106 | after a rotation the new key is the one found as active and the previous one is in grace |
| KeyRotation.LatestIsUnique | internal/infra/memory/keyrotation_repo.go:90-107 | GetActive has one possible answer |
| KeyRotation.VersionIsReusedIff | internal/app/keyrotation/service.go:68-106 | a rotation issues a version number again exactly when a revoked key of the kind exceeds every usable one |
| KeyRotation.VersionTwoTwice | internal/app/keyrotation/service.go:49-207 | that happens: rotate, revoke, rotate |
| KeyRotation.MemoryKeyRotationRepo.GetActive | internal/infra/memory/keyrotation_repo.go:90-107 | a usable key of the kind with the greatest version, or none exactly when none is usable |
| KeyRotation.Service.RotateKey | internal/app/keyrotation/service.go:49-106 | retires the key found into grace and issues the next version |
| KeyRotation.Service.RevokeKey | internal/app/keyrotation/service.go:144-175 | revokes a key that is not revoked yet, with the two errors |
| KeyRotation.RotationWrites | internal/app/keyrotation/service.go:49-175 | the next version as the active key, the key found in grace for the time asked for or 24 hours, and no other key touched |
| KeyRotation.RevokedIsNotFound | internal/app/keyrotation/service.go:144-175 | over every run a revoked key stays revoked and is never found as active |
| NodeHealth.FlagsMatchStatus | internal/infra/memory/node_repo.go:92-171 | in every run draining implies the drain flag, and the maintenance flag implies maintenance, offline or revoked |
| NodeHealth.RevokedIsFinal | internal/app/node/service.go:177-341 | a revoked node stays revoked, unchanged and without a stream, whatever follows |
| NodeHealth.CounterIsStaleTicks | internal/app/nodehealth/supervisor.go:108-143 | the supervisor's counter is exactly the number of consecutive stale ticks |
| NodeHealth.TickVerdict | internal/app/nodehealth/supervisor.go:108-143 | when a tick makes or keeps a node unhealthy, exactly; degraded anew only after exactly two stale ticks; online anew only on a fresh heartbeat and not draining |
| NodeHealth.Supervisor.EvaluateNodes | internal/app/nodehealth/supervisor.go:94-144 | the loop over the listed nodes computes one tick |
| NodeHealth.Supervisor.EvaluateNode | internal/app/nodehealth/supervisor.go:108-143 | one node's count and transition |
| NodeHealth.Service.OnStreamConnected | internal/app/node/service.go:177-208 | registers the stream and sets online, or maintenance under the flag; refused of revoked nodes |
| NodeHealth.Service.OnStreamDisconnected | internal/app/node/service.go:210-228 | removes the stream and sets offline unless revoked |
| NodeHealth.Service.ProcessHeartbeat | internal/app/node/service.go:230-241 | records the heartbeat, and new capabilities if it brings any, of a node that is not revoked |
| NodeHealth.Service.ToggleMaintenance | internal/app/node/service.go:271-296 | sets the flag and the status that goes with it |
| NodeHealth.Service.ToggleDrainMode | internal/app/node/service.go:298-323 | sets the flag, and moves between online and draining only |
| NodeHealth.Service.RevokeNode | internal/app/node/service.go:325-342 | revokes the node and removes its stream |
| NodeHealth.StreamsDecide | internal/app/node/service.go:177-228 | a stream brings a node online unless it is in maintenance, its end takes it offline |
| NodeHealth.OperatorsDecide | internal/infra/memory/node_repo.go:92-171 | maintenance sets the status both ways, draining only moves between online and draining |
| NodeHealth.HeartbeatRecords | internal/app/node/service.go:230-241 | a heartbeat sets its time and the capabilities it brings, not the status |
| NodeHealth.WithdrawnIsNotSchedulable | internal/domain/node/node.go:51-54 | over every run a node set to maintenance or drain takes no placements until an operator takes that back |
| NodeHealth.SilenceDecides | internal/app/nodehealth/supervisor.go:108-143 | the limits of 15 and 35 seconds and what each tick makes of a node before, between and after them |
| NodeHealth.OfflineBecomesSchedulableIff | internal/app/nodehealth/supervisor.go:100-130 | when a tick makes an offline node degraded and with that schedulable |
| NodeHealth.DisconnectedIsSchedulable | internal/app/nodehealth/supervisor.go:100-130 | it happens: a node without a stream becomes schedulable |
| Commands.OwnResultOnly | internal/app/node/connection_manager.go:81-134 | in every interleaving a dispatcher is only answered by a result with its own correlation ID, even under repeated IDs |
| Commands.PendingIsInFlight | internal/app/node/connection_manager.go:81-134 | with distinct IDs the table's keys are exactly the dispatches in flight, each leading to its own channel |
| Commands.LeavingIsExactIff | internal/app/node/connection_manager.go:98-102 | a leaving dispatch keeps the table exact if and only if no other in flight has its ID |
| Commands.HandlersNeverBlock | internal/app/node/connection_manager.go:123-134 | a handler's send is always possible, and afterwards the channel holds exactly one result |
| Commands.FirstResultWins | internal/app/node/connection_manager.go:81-134 | a dispatcher is answered by the first result sent to it, which the buffer keeps until it is taken |
| Commands.AnswerIsFirstResult | internal/app/node/connection_manager.go:81-134 | whatever answer a caller gets back is the first result that any handler sent to its channel |
| Commands.WaitEndsOnlyBy | internal/app/node/connection_manager.go:48-120 | only a result or its own context ends a wait, not the loss of the stream |
| Commands.DisconnectedStillWaits | internal/app/node/connection_manager.go:48-120 | it happens: registered, begun, transmitted and unregistered, the dispatch is still waiting and its entry still there |
| Commands.MemoryConnectionManager.RegisterConnection | internal/app/node/connection_manager.go:36-46 | records the node's stream |
| Commands.MemoryConnectionManager.UnregisterConnection | internal/app/node/connection_manager.go:49-54 | removes the stream and nothing else |
| Commands.MemoryConnectionManager.BeginDispatch | internal/app/node/connection_manager.go:81-96 | refuses an offline node, else makes the channel and its table entry |
| Commands.MemoryConnectionManager.TransmitCommand | internal/app/node/connection_manager.go:104-107 | a command that cannot be sent ends the dispatch with an error, one that is sent starts the wait |
| Commands.MemoryConnectionManager.Await | internal/app/node/connection_manager.go:109-119 | takes the buffered result or the end of the context |
| Commands.MemoryConnectionManager.FinishDispatch | internal/app/node/connection_manager.go:98-120 | removes the entry and returns the outcome |
| Commands.MemoryConnectionManager.LookUpChannel | internal/app/node/connection_manager.go:123-126 | finds the channel of the result's ID exactly when the table has one; `Commands.ResultFindsChannel` says whose it is |
| Commands.MemoryConnectionManager.SendResult | internal/app/node/connection_manager.go:128-133 | sends without waiting, dropping a result that finds the buffer full |
| Commands.ConnectionIsLast | internal/app/node/connection_manager.go:36-54 | a node's stream is that of its last registration until it is unregistered |
| Commands.DispatchStarts | internal/app/node/connection_manager.go:81-96 | a caller is refused exactly without a stream, and else gets a new empty channel entered under its ID |
| Commands.FailuresComeBack | internal/app/node/connection_manager.go:98-120 | a failed send and an ended context come back as just that |
| Commands.ResultFindsChannel | internal/app/node/connection_manager.go:123-126 | in every run with distinct IDs an arriving result finds the channel of the dispatch in flight under its ID |
| Commands.StrayResultIsDropped | internal/app/node/connection_manager.go:123-134 | a result nobody in flight waits for changes nothing |
| Commands.ResultIsBuffered | internal/app/node/connection_manager.go:128-133 | a handler's send puts its result into an empty buffer and leaves a full one |
| Commands.BufferedComesBack | internal/app/node/connection_manager.go:98-120 | a waiting caller with a buffered result comes back with just that one |
| Commands.ResultArrives | internal/app/node/connection_manager.go:81-134 | in every interleaving with distinct IDs, once a handler that came in while a dispatch was in flight has sent, that dispatch has the first result sent to it waiting, unless it has stopped waiting |

## Left out

- PostgreSQL repositories and the migrator: their semantics live in the database; where they differ, the memory stores are followed.
- gRPC, HTTP and WebSocket transport, the agent's loop, the Incus socket driver, configuration, email and the web interface: plumbing.
- Password hashing, JWT, TOTP, certificates and encryption: library code; SHA-256 is a parameter of the audit model.
- Event bus, notifications, webhooks, console sessions, templates, firewall rules, diagnostics, pagination, invoices and metering: they would only add easy members.
- Authorization checks and the audit and event records that services write on the side: their results are discarded.
- CheckQuota, the quota engine's read-only preview, and the job engine's execution of handlers: they would only add easy members.
- Snapshots of volumes, restore plans and backup artifacts' contents: outside the accounting.
- Time stamps, reasons and messages that no decision reads (UpdatedAt, RevokedAt, error texts, progress byte counts).
- Scheduler.IndexAllocations: Go's 64-bit sums are unbounded here, as are quota counters, pool bytes and durations.
- Scheduler.Evaluate: floats are reals, and case folding of architecture names is ASCII only.
- Scheduler.SortByScore: which of equally scored candidates comes first is left open, as it is by the library sort.
- Quota.QuotaEngine.ReserveQuota: the fallback order of GetTenantPlan is a parameter (the plan found, or none), and the store's two nested maps are one map of pairs.
- Quota.UsageIsOutstanding: is about the engine with matched releases; the paths of instance creation are not modelled.
- Ipam.FindNextAvailableIP: IPv6 pools are not modelled.
- Allocations.HostCount: is about prefixes up to /30; `Allocations.SmallNetworksHaveNone` is about the other two.
- Audit.PayloadIsSharedIff: records that differ in status, severity, details or time are not compared there.
- Migration.NoWorkloadIsLost: user power and delete actions are outside the run, admission is one step, and a command acts before its dispatch returns or never.
- JobQueue.RunningIffLeased: MarkRunning, which the engine does not call, is not modelled, and neither are attempts and handlers.
- Migration.RollBackRestores: is about an execution without interruption; `Migration.RestartRestores` is its form for any interleaving.
- Migration.ControlPlane.Migrate: the scheduler's choice and the preflight's verdict are parameters; `Scheduler` models both.
- Allocations.GatewayOfferedIffMapped: of the texts that parse as an address, two are modelled.
- Reconcile.Service.Reconcile: the newest-first order of the listed pages is not modelled; any page of the allowed size is covered. Every read of the clock in one pass gives the same value.
- Sessions.LiveIsNewest: requests are sequential; concurrent refreshes of one token are not modelled, and a user's account state is the answer given at the time.
- Backups.MemoryBackupRepo.List: the library sort is replaced by repeated selection of the newest; records of equal age come in any order. Filters and offsets, which retention does not use, are not modelled.
- Backups.LastVerifiedIsLostIff: creating a backup is one step, from its record to its verification.
- KeyRotation.Service.RotateKey: key material and its use are not modelled.
- NodeHealth.Supervisor.EvaluateNodes: a tick is atomic; a status change between the listing and the transition is not modelled. Enrollment takes a fresh node; tokens, certificates and the FQDN index are not modelled.
- Commands.PendingIsInFlight: needs the caller's IDs to be distinct while in flight, as drawn UUIDs are.
