# Crash-and-resume protocols over one shared journal

This project models the protocols with which the tool provisions, deploys,
upgrades and retires a network of Dash nodes, and proves what they keep over any
number of runs. All of them follow one pattern: a runner claims a journal, writes
its intent before it acts, calls a host or a cloud service whose reply may be
lost, and records what it learned. It may die between any two steps, and the next
runner resumes from the journal.

`dafny verify dfyconfig.toml` checks everything.

## How it is modelled

**The journal.** `Journal` is the conditional-write protocol itself: a table row
updated in place by four conditional calls, runners that crash, and a network
that keeps every request ever sent and may deliver it at any time and any number
of times. Its invariant is proved over every reachable world. `Claims` is what
the holder of a claim may rely on: one stored record and the saves that have not
taken effect yet. `Journal.StepRefinesCell`, `AnsweredSaveSettles` and
`AcquireReturnsStored` connect the two, and every controller is written against
`Claims.Store`. The store of existing networks (internal/managed/store.go) makes
the same four conditional calls, with the fleet in place of the plan, so the same
results hold for it.

**Controllers.** Each is a class whose methods update the record in hand and save
it, step by step, as the Go code does. A call to a node or a cloud service
returns `Done`, `Failed` or `Killed`; a failed or killed call may or may not have
acted, and `Killed` is the crash point. The same invariant is required and
ensured by every run, so it holds over any number of runs; each module ends with
an `AllRuns` method or lemmas that say so. Ghost logs record each effect with the
state of that moment, and the safety statements are about those logs.

**Hosts.** `ManagedHost`, `CoreSwap` and `PlatformSwap` are the write-ahead
machines on one host. Containers crash and restart by themselves, except those
stopped on command. Each also has a `calm` environment, in which nothing fails
and nobody else acts: there it is proved when a run succeeds, from the states
that interrupted runs of the same operation left.

**Upgrades.** `UpgradeRecord` is the record and its strict validator,
`UpgradePlan` the withdrawal order and the target images, `UpgradeEvidence` the
preservation evidence, `UpgradeRunner` the controller. Every choice of the nodes,
the miner and the registry is made in `UpgradeRunner.Hosts`, whose ghost field
`flawed` records whether one of them failed in the present run or was not as it
should be. Answers that an action relies on are kept in ghost fields that only
the environment's own methods set, so that a check left out of the controller
leaves an action unproved; `ManagedRunner.Hosts` does the same. The measure `Remaining` counts what is left of a rollout; it never
rises from one record to a later one of the same rollout.

**Provisioning.** `Footprint` is the allocation record and the cloud,
`Provision` and `Retire` the two programs that share it. Listings are arbitrary:
nothing is assumed of them but that an accepted allocation is listed once its
attempt is as old as `StaleAllocationAfter` less the length of one pass, the time
from a listing to the last test that relies on it.

**Kernels.** `Renew` (atomic replacement of a key and a certificate), `Fleet`
(the bounded worker pool), `Quorum` and `ManagedRunner` (two-thirds arithmetic
and the controller that uses it), `Protobuf` (the bounded decoder), `Mining`
(pausing the miner around a replacement), `Deploy` (identities written once).

## Results worth knowing

- **A claim can be revived.** A release removes the owner, and a claim request is
  conditional only on there being none. A claim request repeated after its
  owner's release therefore sets that owner again, and one of its outstanding
  saves can then land although an earlier one never did.
  `Journal.RevivedClaimStoresStaleSave` is such a run;
  `Journal.CommitKeepsPrefixIff` says exactly when a commit keeps the order, and
  the prefix theorem holds for every owner that was not revived. Exclusiveness
  and the append-only history hold regardless.
- **A committed `complete` can be followed by `interrupted`.** A save whose
  acknowledgement is lost raises the revision in memory, and the interruption is
  saved after it. `UpgradeRunner.InterruptedAfterComplete` is such a run; both
  records are valid, and resuming completes again with the same images.
- **A failed pause or resume can leave the miner stopped.** The upgrade returns
  without resuming when its request to pause fails
  (`Mining.FailedPauseStopsMining`), and a failed resume is not repeated, be it
  inside the pausing loop (`FailedResumeInLoopStopsMining`) or after the
  replacement (`FailedFinalResumeStopsMining`). `Mining.MiningRunsIff` says
  exactly when mining runs again.
- **Core can be stopped under a running dependant.** A Core replacement that
  resumes after the withdrawal does not withdraw again, so a Tenderdash started
  in between is up while Core is stopped (`CoreSwap.ResumeUnderTenderdash`).
  `CoreSwap.Worker.Execute` and `CoreSwap.AllRuns` say exactly when.
- **A release without sidecar images cannot be staged over a fleet that runs
  some.** An empty list of pins reads as an absent one, so the second pass finds
  the old pins again and stops (internal/lifecycle/upgrade_runner.go:172-179 and
  248-263). `StagingExample.ReleaseWithoutSidecars` is such a run;
  `UpgradeRunner.Admissible` holds the exact condition, and
  `UpgradeRunner.Execution.Upgrade` shows that a run in which nothing goes wrong
  succeeds if and only if it holds.
- **Staged changes are journaled unchecked.** The node protocol admits a Core
  service, or one service twice, in the changes a render reports; the record's
  validator does not (`UpgradeRunner.RefusedRenders`). Such a record is refused
  before it is sent, and so is the one that would record the interruption.
  `UpgradeRunner.Execution.JournalChanges` says exactly when the record can be
  saved.
- **The quorum test overflows beyond 4,611,686,018 members** at the maximum
  power each, and then accepts any withdrawal
  (`Quorum.OneMemberMoreOverflows`, `Quorum.RefusalIsExactIff`).
- **A deployment that changes images is refused only in its turn.** Where Drive's
  pin differs from its baseline image, a `deploy` operation stops Tenderdash for
  the drain before it refuses, and never finishes
  (`ManagedHost.DeployThatMovesDrive`). `ManagedHost.Worker.Apply` proves that an
  undisturbed run succeeds if and only if the deployment keeps every image, or
  was complete before, and that one which moves Drive always ends like that. Such
  a plan passes its validation and reaches the host, but the planning command
  does not normally build it: it takes no image choices for a deployment and
  resolves the digests of the running images (internal/cli/managed.go:239,
  internal/managed/resolve.go:37-43).

## Assumptions

- Runner identities are fresh, plans passed their own validation, target names
  are unique, and digests do not collide.
- The identifier of a plan stands for that plan: it is a digest of it
  (`ManagedRunner.Hosts.plans`).
- No claim is revived by a request repeated after its owner's release (see above):
  every controller relies on `Claims.Store.Acquire`, which excludes it.
- Node observations are well formed: digests are hexadecimal, start times parse,
  restart counters are not negative (`UpgradeEvidence.WellFormed`).
- While an operation is unfinished nobody else removes or replaces the containers
  it selected. A request still executing in the container engine when its run
  died has ended before the next run begins.
- During a run nobody else starts a container that was stopped on command;
  between runs anybody may.
- In `Renew`, changes to one directory persist in the order they were made; an
  unlinked journal may come back after a power failure until the directory was
  synchronised.
- In `Mining`, only the owned miner makes blocks.

## Model

| member | source | states |
|---|---|---|
| `Journal.Table.PutIfAbsent` | internal/journal/dynamodb.go:155 | the conditional create succeeds exactly when no item exists and then stores owner, revision 0 and data |
| `Journal.Table.SetOwner` | internal/journal/dynamodb.go:174-178 | the conditional claim succeeds exactly on an unowned item of the same plan and changes nothing but the owner |
| `Journal.Table.SetData` | internal/journal/dynamodb.go:207-211 | the conditional save succeeds exactly for the stored owner at the next revision, or as an exact repetition of the stored one |
| `Journal.Table.RemoveOwner` | internal/journal/dynamodb.go:217-221 | the conditional release succeeds exactly for the stored owner and removes nothing but it |
| `Journal.Serve` | internal/journal/dynamodb.go:140-226 | a refused request changes nothing; no request removes the item or changes its plan; an owner is replaced by nothing but its own release |
| `Journal.RunInv` | internal/journal/dynamodb.go:140-226 | every world reachable by lost, delayed, repeated and reordered requests and replies satisfies the inductive invariant |
| `Journal.ClaimIsExclusive` | internal/journal/dynamodb.go:140-191 | at most one runner has a successful Acquire it has not given up, and the stored owner is that runner |
| `Journal.OwnerLeavesOnlyByItsRelease` | internal/journal/dynamodb.go:217-225 | a stored owner changes only by the delivery of a release that names it, after that runner stopped: a claim left by an ambiguous Acquire is never stolen |
| `Journal.HistoryAppendOnly` | internal/journal/dynamodb.go:207-216 | over all claims the stored records form one sequence that only grows at its end; no delayed write regresses it |
| `Journal.StoredRecordIsLastAttempt` | internal/journal/dynamodb.go:193-216 | the stored revision is the position in that sequence, the stored data its last entry, and each entry is what its owner attempted to save at that revision |
| `Journal.CommittedSavesArePrefix` | internal/journal/dynamodb.go:193-216 | within one claim the committed saves are exactly a prefix, in order, of the saves attempted, unless a stale claim request revived the owner |
| `Journal.MissingSaveBlocksLater` | internal/journal/dynamodb.go:193-216 | an attempt that never lands blocks every later one of its owner |
| `Journal.AnsweredSaveIsStored` | internal/journal/dynamodb.go:207-216 | a save that returned without error is in the stored sequence at its revision for good |
| `Journal.GrowthIsNextAttempt` | internal/journal/dynamodb.go:207-216 | the stored sequence grows only by a save of the stored owner at the next revision, and by one entry |
| `Journal.StepRefinesCell` | internal/journal/dynamodb.go:140-226 | each step of the protocol is, to the owner, one step of Claims.Cell: nothing, an attempt, the oldest outstanding save landing, or the claim given up |
| `Journal.AnsweredSaveSettles` | internal/journal/dynamodb.go:193-216 | an answered latest save leaves it stored with nothing outstanding: what the controllers rely on in Claims.Store.Save |
| `Journal.AcquireReturnsStored` | internal/journal/dynamodb.go:140-172 | a successful Acquire returns the stored record with nothing outstanding: what the controllers rely on in Claims.Store.Acquire |
| `Journal.CommitKeepsPrefixIff` | internal/journal/dynamodb.go:174-216 | a commit keeps its owner's prefix exactly when its revision directly follows that owner's last one |
| `Journal.RevivedClaimStoresStaleSave` | internal/journal/dynamodb.go:174-216 | a reachable run in which a claim request repeated after the release revives an owner and lets its second save land although its first never did |
| `Claims.Store.Acquire` | internal/journal/dynamodb.go:140-172 | the holder sees the stored record; saves of the previous claim landed in order or never will |
| `Claims.Store.Save` | internal/journal/dynamodb.go:193-216 | a save that is answered is stored; one that is not may land now, later, or never, and never before an earlier one |
| `UpgradeRecord.ValidateImages` | internal/provision/upgrade.go:62-77 | accepts exactly the complete images of exactly the plan's targets |
| `UpgradeRecord.ValidateUpgrade` | internal/provision/upgrade.go:82-191 | accepts a record exactly when runtime and progress identify one rollout, images stay within From and To, and a complete rollout has everything done and observed |
| `UpgradeRecord.ValidateTarget` | internal/provision/upgrade.go:128-183 | one target's runtime image lies within its bounds, Core is preserved or is all that moves, and its baseline and completion are recorded |
| `UpgradeRecord.ValidateChanges` | internal/provision/upgrade.go:114-125 | accepts exactly distinct known services of tracked targets |
| `UpgradeRecord.TargetsFromProgress` | internal/provision/upgrade.go:82-191 | the loop's running checks and the record-wide statement are the same |
| `UpgradePlan.UpgradeOrder` | internal/lifecycle/upgrade_runner.go:51-65 | the withdrawal order equals the order given role by role |
| `UpgradePlan.OrderVisitsTracked` | internal/lifecycle/upgrade_runner.go:51-65 | the order holds every tracked node exactly once and no other |
| `UpgradePlan.ResumeVisitsPendingFirst` | internal/lifecycle/upgrade_runner.go:449-453 | the resumed order is a permutation of the order, with the pending node first |
| `UpgradePlan.UpgradeTargets` | internal/lifecycle/upgrade_plan.go:60-146 | target images exist exactly for a supported scope and fleet size, a valid lock that keeps Core's repository and has something new for some node; they then differ from the source, move only components in scope, and every locked image in scope is the node's |
| `UpgradePlan.MovedWithinBounds` | internal/lifecycle/upgrade_plan.go:65-146 | images built for a scope stay within what the validator allows that scope |
| `UpgradeEvidence.CollectEvidence` | internal/lifecycle/upgrade_runner.go:67-157 | returns a fingerprint for every target exactly when each has its evidence; before a rollout that is a baseline the validator accepts, and during one with no node pending it means that Core and every Platform service outside the change were left alone |
| `UpgradeEvidence.CheckMembers` | internal/lifecycle/upgrade_runner.go:114-121 | accepts exactly distinct members of the registered validators |
| `UpgradeRunner.SoundIsValid` | internal/provision/upgrade.go:82-191 | the invariant of the controller implies that its record passes the validator |
| `UpgradeRunner.BegunIsSound` | internal/lifecycle/upgrade_runner.go:399-424 | the record that begins a rollout, also after a completed one, satisfies the invariant |
| `UpgradeRunner.PhaseIsSound` | internal/lifecycle/upgrade_runner.go:345-358 | so does the record of an interruption, in any state |
| `UpgradeRunner.WithdrawnIsSound` | internal/lifecycle/upgrade_runner.go:461-466 | so does the record that names the next node before it is touched |
| `UpgradeRunner.CompletedIsSound` | internal/lifecycle/upgrade_runner.go:515-519 | so does the record that completes the current node |
| `UpgradeRunner.FinishedIsSound` | internal/lifecycle/upgrade_runner.go:522-538 | so does the record that completes the rollout |
| `UpgradeRunner.TweakIsSound` | internal/lifecycle/upgrade_runner.go:254-276 | so do the records that pin sidecars and journal staged changes |
| `UpgradeRunner.StagedChanges` | internal/lifecycle/upgrade_runner.go:265-273 | recorded changes are kept, every validator not yet reached gets its staged ones as they are, and the result stays within what the validator allows exactly when each list added names distinct Platform services |
| `StagingExample.ReleaseWithoutSidecars` | internal/lifecycle/upgrade_runner.go:172-264 | on a devnet of nine validators, a rollout of a new Drive image whose release requests no sidecar image, in which nothing goes wrong: it fails, and touches no node |
| `UpgradeRunner.Execution.JournalChanges` | internal/lifecycle/upgrade_runner.go:265-276 | the record with the staged changes can be saved exactly when every list added names distinct Platform services; otherwise nothing is stored |
| `UpgradeRunner.RefusedRenders` | internal/provision/upgrade.go:114-123 | a Core service or a service named twice, which the node protocol lets through, makes the record invalid |
| `UpgradeRunner.Execution.PinSidecars` | internal/lifecycle/runtime.go:82-119 | every requested sidecar image is pinned once, in order, and pins that answer the request already are kept as they are |
| `UpgradeRunner.Execution.PrepareRollout` | internal/lifecycle/upgrade_runner.go:377-403 | a rollout begins only from a complete predecessor and unchanged source images, and its baseline is what the samples of a healthy fleet showed; in a run where nothing goes wrong it then does begin |
| `UpgradeRunner.Execution.Save` | internal/journal/dynamodb.go:77-89 | a record the validator refuses is not sent; every other save keeps what may be stored within the invariant and ahead of its predecessors |
| `UpgradeRunner.Execution.StagePlatform` | internal/lifecycle/upgrade_runner.go:225-280 | staging changes neither the current node nor what is completed; when nothing goes wrong it succeeds exactly if the release requests a sidecar image or the fleet runs none |
| `UpgradeRunner.Execution.VerifyUpgrade` | internal/lifecycle/upgrade_runner.go:282-315 | success means that the fleet was found healthy and samples taken since then are evidence for the stored record, with no node excused |
| `UpgradeRunner.Execution.Touch` | internal/lifecycle/upgrade_runner.go:461-506 | the apply request goes out only once the intent is the only stored record, in a run that staged the rollout, found the evidence and verified the fleet since it last changed a node; for a validator's Core with mining paused at one quiet height, and mining runs again unless the last request left it stopped |
| `UpgradeRunner.Execution.Confirm` | internal/lifecycle/upgrade_runner.go:507-519 | a node is completed only after the whole fleet was found healthy and preserved, and completing it strictly lowers what remains |
| `UpgradeRunner.Execution.ReplaceAll` | internal/lifecycle/upgrade_runner.go:454-521 | every node of the order ends completed, the pending one first; every request on the way is allowed, and exactly one is sent for each node left |
| `UpgradeRunner.Execution.Upgrade` | internal/lifecycle/upgrade_runner.go:317-539 | one run with a crash or lost reply anywhere keeps the invariant and never raises what remains of a rollout; success leaves the committed record complete with every node on its goal images; a run in which nothing goes wrong succeeds exactly from an admissible record; and unless the process died a miner that ran still does exactly if its last request did not leave it stopped |
| `UpgradeRunner.AllRuns` | internal/lifecycle/upgrade_runner.go:317-539 | over any number of runs of any reviewed plans every attempted save is valid and every apply request was allowed: committed intent, no other node unverified, rollout staged, fleet healthy and preserved, and a quiet window around a validator's Core |
| `UpgradeRunner.ImagesFollowIntent` | internal/lifecycle/upgrade_runner.go:405-521 | in every record that is or may come to be stored, a tracked node runs its goal images if it is completed or current, and its source images otherwise |
| `UpgradeRunner.OneNodeAtATime` | internal/lifecycle/upgrade_runner.go:454-521 | when a node is touched only completed nodes and it are on goal images, and no other node was changed since the fleet was last verified |
| `UpgradeRunner.CompletionIsUnique` | internal/lifecycle/upgrade_runner.go:449-538 | any two complete records of one rollout, however often it was interrupted, have the same images and completed nodes, and nothing remains of it |
| `UpgradeRunner.InterruptedAfterComplete` | internal/lifecycle/upgrade_runner.go:345-355 | a committed complete record can be followed by the interrupted one of the same run; both are valid and nothing remains to be done |
| `UpgradeRunner.NothingRemainsIffDone` | internal/lifecycle/upgrade_runner.go:454-521 | nothing remains exactly when every node is done |
| `ManagedHost.Worker.Apply` | internal/managed/worker.py:470-536 | one run, interrupted anywhere, keeps the history's rules; success means the pins in the recorded containers with their original configurations and everything else as planned; replay after completion changes nothing; on an undisturbed host a run succeeds exactly if the operation was complete before or keeps every image it deploys, and a deploy that moves Drive ends with Tenderdash stopped and the operation unfinished |
| `ManagedHost.DeployThatMovesDrive` | internal/managed/worker.py:480-516 | such a deploy on one undisturbed host whose Tenderdash ran |
| `ManagedHost.MovingDriveDrains` | internal/managed/worker.py:487-501 | such a deploy is always drained first, also when it resumes |
| `ManagedHost.Worker.Withdraw` | internal/managed/worker.py:496-501 | Tenderdash is down, with the intent saved first, before Drive is touched |
| `ManagedHost.Worker.AwaitDrive` | internal/managed/worker.py:506-508 | Tenderdash may be started only after Drive's listener was seen in this run |
| `ManagedHost.Worker.Converge` | internal/managed/worker.py:509-531 | one component ends on its pin and is recorded; no other component changes |
| `ManagedHost.Worker.Settle` | internal/managed/worker.py:527-531 | a component is recorded as completed only in the container that runs its pin with the original configuration |
| `ManagedHost.Worker.TurnAll` | internal/managed/worker.py:503-533 | all selected components, in dependency order, end completed; everything else is inspected again before each of them |
| `ManagedHost.Worker.Begin` | internal/managed/worker.py:480-493 | an operation opens only on the baseline it was planned for, and its marker fits the host |
| `ManagedHost.GuardPasses` | internal/managed/worker.py:410-448 | on a host nobody else touched the guard never refuses a marker an interrupted run left |
| `ManagedHost.CompletedAtBaseline` | internal/managed/worker.py:374-382 | after the last component the final baseline check holds |
| `ManagedHost.DriveReady` | internal/managed/worker.py:487-490 | without a pending drain Drive is on its pin already, or the target has no Tenderdash |
| `ManagedHost.StartingMeansDriveConverged` | internal/managed/worker.py:496-508 | a dependency of start-requested or started implies that Drive is on its pin, in its recorded container |
| `ManagedHost.CompleteInstallsPins` | internal/managed/worker.py:531-536 | a complete marker means every selected component runs its pin in the recorded container with its original configuration |
| `ManagedHost.CreatedAtMostOnce` | internal/managed/worker.py:517-527 | at most one container is created per component and operation |
| `ManagedHost.AllRuns` | internal/managed/worker.py:410-536 | over any number of interrupted runs of any operations: Drive is stopped, removed or created only while Tenderdash is down, completed containers are never stopped or removed, only selected components are touched, and only while everything else was found as planned |
| `CoreSwap.Node.Halt` | internal/node/upgrade.py:202-206 | what was stopped on command stays down |
| `CoreSwap.Worker.Withdraw` | internal/node/upgrade.py:199-207 | the step is saved only with Tenderdash, the DAPI and Drive down, Tenderdash first |
| `CoreSwap.Worker.Replace` | internal/node/upgrade.py:208-228 | Core is stopped and recreated only in that step, and the step ends only with the new image |
| `CoreSwap.Worker.ClearTheWay` | internal/node/upgrade.py:209-216 | a validator's Core is stopped only once it was seen down or at a quiet height in this run |
| `CoreSwap.Worker.Restore` | internal/node/upgrade.py:229-244 | dependants start again Drive first and Tenderdash behind its listener |
| `CoreSwap.Worker.SwapCore` | internal/node/upgrade.py:209-226 | Core is stopped, then recreated; what is up at that moment is what the run found up, but for dependants that are still held down |
| `CoreSwap.Worker.Execute` | internal/node/upgrade.py:158-257 | one run keeps the history's rules; success means the new image and every Platform service up in its recorded container; replay after completion touches nothing; Core is stopped or recreated under a dependant only when a run resumes after the withdrawal, and when nothing else happens exactly if one was up then; on an undisturbed node a run always succeeds |
| `CoreSwap.ResumeUnderTenderdash` | internal/node/upgrade.py:199-226 | a run that dies after the withdrawal, a Tenderdash started by somebody else, and the next run stopping Core under it |
| `CoreSwap.AllRuns` | internal/node/upgrade.py:158-257 | over any number of runs on a validator Core is stopped or recreated only when it was seen down or at a quiet height, and under no dependant but one that somebody else started since its withdrawal |
| `PlatformSwap.Worker.Withdraw` | internal/node/upgrade.py:374-384 | Tenderdash is down, with the intent saved first |
| `PlatformSwap.Worker.Up` | internal/node/worker.py:961-981 | a Compose call that succeeds leaves its services on the render, whatever their order |
| `PlatformSwap.Worker.Finish` | internal/node/upgrade.py:388-398 | a drained Tenderdash starts only behind Drive's listener |
| `PlatformSwap.Worker.Execute` | internal/node/upgrade.py:325-416 | one run keeps the history's rules; success means every service on the render, unselected ones in their recorded containers without a restart; replay after completion touches nothing; a run in which nothing fails succeeds exactly from the states of Ready |
| `PlatformSwap.Worker.Roll` | internal/node/upgrade.py:374-398 | when nothing fails exactly the changes come up on the render and the Tenderdash withdrawn for them comes up again |
| `PlatformSwap.StartingIsConverged` | internal/node/upgrade.py:374-398 | a dependency of start-requested or started implies Drive and every immediate change already on the render |
| `PlatformSwap.AllRuns` | internal/node/upgrade.py:325-416 | over any number of runs Drive is removed or created only while Tenderdash is down, only recorded changes are recreated, none twice in one rollout |
| `Footprint.Cloud.ListAddresses` | internal/provision/ipam.go:188-215 | the one assumption on listings: an accepted allocation is listed once its attempt is older than the stale bound less one pass |
| `Footprint.Cloud.Allocate` | internal/provision/ipam.go:39-52 | a refused allocation had no effect; any other failure leaves the outcome open |
| `Footprint.CallRecorded` | internal/provision/runner.go:171-239 | a call is issued only if it may still take effect for the first time, so none takes effect twice |
| `Provision.Provisioner.Reconcile` | internal/provision/ec2.go:123-155 | each entry follows the listing, and the run stops exactly when an instance has no journaled intent, changed identity, or an intent has no instance |
| `Provision.Provisioner.Launch` | internal/provision/runner.go:210-239 | an instance is requested only for a target never launched, with the intent as the only stored record |
| `Provision.NeverAccepted` | internal/provision/ipam.go:214-219 | an allocation intent that is stale and not listed was never accepted |
| `Provision.Provisioner.Intend` | internal/provision/ipam.go:209-225 | an allocation is attempted only when none was accepted, with the intent stored |
| `Provision.Provisioner.Request` | internal/provision/ipam.go:232-252 | only a refusal known to have had no effect clears the intent |
| `Provision.Provisioner.Attach` | internal/provision/ipam.go:274-283 | an association is requested once, with its intent stored |
| `Provision.Provisioner.EnsureAddress` | internal/provision/ipam.go:203-298 | one target ends with an associated address, and the others' listed addresses still match |
| `Provision.Provisioner.EnsureAddresses` | internal/provision/ipam.go:188-300 | all targets end with associated addresses, and nothing but addresses changes; without one primary interface each nothing is requested |
| `Provision.Provisioner.Work` | internal/provision/runner.go:164-280 | a record whose addresses are being or were released stops the run before anything changes |
| `Provision.Provisioner.Execute` | internal/provision/runner.go:128-280 | one run with a crash or lost reply anywhere keeps every stored record accountable; success means every target present, running and addressed |
| `Retire.Retirer.ProveGone` | internal/provision/ipam_release.go:136-195 | every instance is described as terminated with the plan's token and tags for its target, or reported absent by its exact identity |
| `Retire.Retirer.Survey` | internal/provision/ipam_release.go:196-236 | every address is listed, owned and detached, or absent by its exact identity |
| `Retire.ListedIsDetached` | internal/provision/ipam_release.go:196-218 | an address that passes the detached validation is attached to nothing |
| `Retire.Retirer.ReleaseListed` | internal/provision/ipam_release.go:246-262 | a release goes out only with its intent stored and with what this run was shown of the instances and the addresses as conclusive evidence |
| `Retire.Retirer.ReleaseAll` | internal/provision/ipam_release.go:237-268 | every address ends released and proved absent |
| `Retire.Retirer.Execute` | internal/provision/ipam_release.go:90-273 | one run keeps every stored record accountable; success means a committed retired record |
| `Retire.AllRuns` | internal/provision/runner.go:128-280 | any interleaving of provisioning and retirement runs keeps the account of what was requested |
| `Retire.OncePerTargetCounts` | internal/provision/runner.go:210-239 | over all runs an instance, an accepted allocation and an association happen at most once per target |
| `Retire.IntentsAreStored` | internal/provision/ec2.go:123-155 | every record that is or may come to be stored admits each instance requested and each allocation accepted |
| `Retire.ReleasesAreConclusive` | internal/provision/ipam_release.go:136-268 | no address is released until every instance of the plan was proved gone, by its own tombstone or its absence, and every address accounted for, with the intent stored; and nothing is created afterwards |
| `Retire.RetiredIsAbsent` | internal/provision/ipam_release.go:50-58 | a retired record has every allocation proved absent by its identity |
| `Retire.NewRecordIsSafe` | internal/provision/runner.go:42-49 | a new plan's record satisfies the account |
| `Renew.Seed.WriteKey` | internal/seedtls/renew.py:53-61 | an in-place write holds the data once it is answered, and anything before that |
| `Renew.Seed.BackUp` | internal/seedtls/renew.py:136-137 | the backups hold exactly the live pair |
| `Renew.Seed.Recover` | internal/seedtls/renew.py:113-126 | the journaled pair is restored; a recovery may be interrupted and repeated |
| `Renew.Seed.Install` | internal/seedtls/renew.py:129-151 | afterwards the live files are the new pair, or the old one, or the old one is what the journal restores |
| `Renew.Seed.Renew` | internal/seedtls/renew.py:158-172 | an interrupted install is undone before anything else; an answered run leaves one whole pair |
| `Renew.AllRuns` | internal/seedtls/renew.py:113-172 | over any number of runs and power failures, also one that brings an unlinked journal back, the gateway only ever reloads one whole pair |
| `Fleet.Run` | internal/bootstrap/runner.go:224-266 | for every completion order the pool's events are legal, no work is left running, and success means every host worked and was recorded |
| `Fleet.NeverMoreThanSixteen` | internal/bootstrap/runner.go:216-258 | at every moment at most sixteen hosts are being worked on |
| `Fleet.StartsInOrder` | internal/bootstrap/runner.go:232-258 | hosts start in order and at most once |
| `Fleet.NothingAfterFailedRecord` | internal/bootstrap/runner.go:252-257 | after a failed record nothing starts and nothing more is recorded |
| `Fleet.StartsFollowRecords` | internal/bootstrap/runner.go:252-257 | a host starts only once every earlier result was recorded |
| `Quorum.CanWithdraw` | internal/managed/health.go:252-285 | within the member bound the test is true exactly when every reported quorum keeps more than two thirds in healthy owned members other than the target |
| `Quorum.KeepsQuorum` | internal/managed/health.go:266-283 | the same for one quorum, summed in any order with 64-bit arithmetic |
| `Quorum.PowerStep` | internal/managed/health.go:270-279 | the sum of the powers does not depend on the order |
| `Quorum.RefusalIsExact` | internal/managed/health.go:280 | the integer test is exactly "not more than two thirds" while the doubled total fits |
| `Quorum.RefusalIsExactIff` | internal/managed/health.go:280 | exactly when the test is right |
| `Quorum.OneMemberMoreOverflows` | internal/managed/health.go:270-280 | one member beyond the bound, at the maximum power, is accepted although nothing healthy remains |
| `Quorum.PowerFits` | internal/managed/health.go:272-279 | no sum wraps around within the bound |
| `Quorum.TargetIsNotCounted` | internal/managed/health.go:256-261 | the target's own power is not counted unless another fleet validator claims its masternode |
| `ManagedRunner.Runner.Begin` | internal/managed/runner.go:211-258 | an operation begins only on an idle network, after its predecessor, right after its source was found as planned; whenever its record was saved, answered or not, it was |
| `ManagedRunner.Runner.CheckSparable` | internal/managed/runner.go:298-309 | a target of an upgrade may be withdrawn only on an observation of a healthy fleet in which, where its vote stops, every reported quorum can spare it |
| `ManagedRunner.Runner.Reserve` | internal/managed/runner.go:294-314 | a target becomes pending only while none is, and right after it was found withdrawable |
| `ManagedRunner.Runner.CheckSource` | internal/managed/runner.go:214-247 | before an operation every selected target is preserved, for a deployment its selected containers are the ones planned for, and for an upgrade the fleet is healthy |
| `ManagedRunner.Runner.Verify` | internal/managed/runner.go:353-401 | success means an observation of a healthy fleet in which every selected target is preserved and every done or current one runs its pinned digests |
| `ManagedRunner.Runner.Change` | internal/managed/runner.go:315-342 | the host is asked to apply only while the stored record names it as pending; in an upgrade its completion is committed right after such a verification against the stored record |
| `ManagedRunner.Runner.ChangeAll` | internal/managed/runner.go:286-344 | every target ends completed, the pending one first |
| `ManagedRunner.Runner.Execute` | internal/managed/runner.go:171-352 | one run with a crash or lost reply anywhere keeps the invariant; success means a committed complete record of this operation, verified last against the record it completes; a run in which nothing goes wrong succeeds exactly if it may start or resume |
| `ManagedRunner.PendingFirstIsFleet` | internal/managed/runner.go:286-289 | the resumed order is a permutation of the fleet with the pending target first |
| `ManagedRunner.AllRuns` | internal/managed/runner.go:171-401 | over any number of runs every attempted save is valid, and every record that may be stored is backed by checks that happened |
| `ManagedRunner.PendingWasSpared` | internal/managed/runner.go:298-314 | whatever record is or may come to be stored, also when the reply to its save was lost, the target it names was found withdrawable |
| `ManagedRunner.CompletedWasVerified` | internal/managed/runner.go:323-342 | every target an upgrade has completed was found withdrawable, and verified on a healthy fleet since it was last changed |
| `ManagedRunner.GoodIsValid` | internal/managed/store.go:38-64 | the invariant implies that the record passes validation |
| `Protobuf.Decode` | internal/node/worker.py:97-130 | the loops compute the recursive reading of the input |
| `Protobuf.DecodeVarint` | internal/node/worker.py:101-112 | the shift loop computes the recursive reading of a varint of at most ten bytes |
| `Protobuf.DecodeValue` | internal/node/worker.py:119-128 | one value is read by its wire type, never past the input |
| `Protobuf.RoundTrip` | internal/node/worker.py:97-130 | decoding the encoding of any message with distinct positive field numbers gives it back |
| `Protobuf.VarintRoundTrip` | internal/node/worker.py:101-112 | a varint written at any position is read back |
| `Protobuf.AcceptedIffParses` | internal/node/worker.py:97-130 | an input is accepted exactly when it is, to its last byte, a sequence of whole fields with distinct positive numbers |
| `Protobuf.CopiesAgree` | internal/managed/worker.py:86-106 | the two workers' decoders agree on every input but for the name of one error |
| `Mining.Network.PauseMiningQuietly` | internal/lifecycle/upgrade_runner.go:556-579 | the loop does what Pause says, for every sequence of answers |
| `Mining.PauseEndsQuiet` | internal/lifecycle/upgrade_runner.go:556-579 | success means the miner is stopped at a height in the quiet part of the cycle, whatever was mined meanwhile |
| `Mining.Network.ReplaceQuietly` | internal/lifecycle/upgrade_runner.go:475-493 | one replacement does what Replace says, for every sequence of answers |
| `Mining.ReplacementIsQuiet` | internal/lifecycle/upgrade_runner.go:475-493 | from the pause until mining is asked to resume the height does not change |
| `Mining.MiningRunsIff` | internal/lifecycle/upgrade_runner.go:475-493 | mining that ran before a replacement runs after it exactly when every pause that took effect was followed by a resume that did; unless the process died, exactly when the last request was neither a failed pause that took effect nor a resume that did not |
| `Mining.FailedPauseStopsMining` | internal/lifecycle/upgrade_runner.go:556-563 | a run in which the pause takes effect, its call fails, and the miner stays stopped |
| `Mining.FailedResumeInLoopStopsMining` | internal/lifecycle/upgrade_runner.go:564-571 | a run in which the resume inside the loop fails, and the miner stays stopped |
| `Mining.FailedFinalResumeStopsMining` | internal/lifecycle/upgrade_runner.go:485-493 | a run in which the resume after the replacement fails, and the miner stays stopped |
| `Mining.NoSessionInside` | internal/lifecycle/upgrade_runner.go:541-545 | no DKG session starts within such a window, nor within the thirteen blocks before it |
| `Deploy.Execution.EachCore` | internal/lifecycle/runner.go:347-363 | the first genesis is kept and every other one must agree |
| `Deploy.Execution.Wallet` | internal/lifecycle/runner.go:417-428 | payout and spork addresses are set once |
| `Deploy.Execution.EachIdentity` | internal/lifecycle/runner.go:429-441 | each validator's operator key and Platform identity are set once |
| `Deploy.Execution.Register` | internal/lifecycle/runner.go:454-480 | each validator's registration is set once, serially |
| `Deploy.Execution.Genesis` | internal/lifecycle/runner.go:559-567 | the genesis height is set once |
| `Deploy.Execution.EachPlatform` | internal/lifecycle/runner.go:573-584 | Platform is started only while nothing but the record it was sent is or may come to be stored |
| `Deploy.Execution.Execute` | internal/lifecycle/runner.go:114-259 | one run with a crash or lost reply anywhere keeps every identity that the claimed record held; success means every identity committed, unless only Core was asked for |
| `Deploy.AllRuns` | internal/lifecycle/runner.go:114-259 | over any number of runs, whatever nodes reply, no recorded identity changes and every Platform start carried only committed ones |
| `Deploy.KnownStays` | internal/lifecycle/runner.go:397-584 | a recorded genesis height keeps meaning that every other identity is recorded |
| `Deploy.WrittenOnce` | internal/lifecycle/runner.go:397-584 | once recorded, an identity is in every record that follows |

## Left out

- Command line, SSH, AWS and HTTP clients, Docker and Compose commands, probes: every call is a step that may act, fail, or act and lose its reply.
- JSON and YAML, regular expressions other than digests, image references, certificate contents: abstract data.
- Container recipes, configuration rendering and file installation: a container has an identity, an image or a render fingerprint, a configuration and a running flag.
- The health checks behind a healthy fleet, and progress reports: a health check answers yes or no; what the controllers do with the observations is modelled.
- Field checks of plans, releases, inventories and specifications: plans are taken as valid.
- Other programs that write the shared record (bootstrap, chain joins, enrollment): each controller is modelled as the only writer of its part of the record between its own runs.
- Seed adoption and rollback outside `renew.py`, which write the pair without a journal.
- Wall-clock deadlines: a wait ends after some number of polls; the only clock is that of address allocation.
- Liveness under faults: an unknown outcome is meant to stop the run. When fault-free runs succeed is proved for the two upgrade controllers and the three host operations, not for deployment, provisioning and retirement.
- The stop operation of a deployment and its stage names: they touch no identity.
- Claims.Store.Acquire: does not model a revived claim (see above); it is the view of an owner that was not revived.
- ManagedRunner.Runner.Begin: does not model enrollment, which is checked on the claimed record because operations never change it.
- ManagedRunner.AllRuns: states the quorum condition for quorums within the member bound only, because beyond it the test itself is wrong.
- UpgradeRunner.Execution.VerifyUpgrade: takes the two-sample health of the fleet as one answer.
