# Verification of the runner reconciler

A Dafny model of the scaler: a controller that keeps a fleet of Oxide instances
registered with GitHub as runners of one scale set, and converges it on the
demand GitHub reports. The model covers the reconciliation cycle, the teardown
of runners, provisioning, the inbox between listener and loop, and the shutdown
of listener and scaler. `dafny verify dfyconfig.toml` checks it.

## How it is built

* `types.dfy`, `protocol.dfy`: one runner name seen from both sides, that is, what
  GitHub and Oxide hold for it and what the controller believes, and every atomic
  action of world and controller. Each client call is one action, so the world may
  move between any two calls and between any two clock readings.
* `invariant.dfy`, `system.dfy`, `theorems.dfy`: the invariant each action keeps,
  runs over all names, and what holds over every run, restarts included.
* `cloud.dfy`: GitHub and Oxide as the program meets them. Every call may fail with
  or without having taken effect. The object carries the history of actions as a
  ghost and keeps it a legal run, so all theorems apply to what the methods do; it
  also counts errors and refusals, so that a method cannot claim a failure it did
  not meet.
* `runners.dfy`, `teardown.dfy`, `marking.dfy`, `ordering.dfy`, `capacity.dfy`,
  `provision.dfy`, `scaler.dfy`, `observe.dfy`, `drive.dfy`, `reconcile.dfy`, `run.dfy`: the
  program's own objects and loops, updated in place, with every map visited in an
  arbitrary order. Each method is tied to the records before and after it and to
  the actions it took.
* `accounts.dfy`: what those methods' decisions come to for one runner, in states and times.
* `drain.dfy`, `drained.dfy`, `tight.dfy`: how soon a fleet is gone, for traces of cycles
  and then for the cycles as run, and that it may take so long.
* `inbox.dfy`, `shutdown.dfy`: two concurrent protocols as step systems. `sizing.dfy`:
  unsigned 64-bit sizes.

## What is assumed of the environment

* A job runs only on a live registration, and GitHub never removes the registration
  of a running job. GitHub itself drops only registrations without a job.
* Nobody else creates registrations, instances or disks under the owned prefix; others
  may halt, change or remove them. A destroyed instance never comes back to life.
* A request that failed ambiguously takes effect, if at all, before the next listing
  of instances. A listing is a snapshot of the moment it is taken.
* A generated name has never been used or mentioned before. Names are opaque strings
  with an opaque prefix.
* The clock never goes back. Go's zero time is the absence of a deadline.
* The limits satisfy `0 <= min <= max`, as validation demands.

## Where the code does not do what one might expect

* Oldest first (`internal/scaler/capacity.go:78-84`): a missing creation time compares
  equal to every other. `Capacity.OldestExactlyWhen` says exactly when scale-down gives
  up the oldest, and `Capacity.NewestGoes` is a fleet that loses its newest.
* Boot-disk size (`internal/scaler/provision.go:148-168`): an image larger than
  2^34 - 1 GiB asks for a disk of zero bytes; `Sizing.BootDiskExact` has both directions.
* Deleting a drained scale set (`controller.go:92-118`) waits for closing the session to
  return, not to succeed: `Shutdown.DeletedDespiteFailedClose`.
* A restart (`internal/scaler/runner.go:77-82`) loses some registrations:
  `Theorems.RestartLosesExactly` says which, and `Theorems.RestartMayOrphan` loses one.
* The active count may stay above the target after a cycle: `Reconciling.TargetMetExactlyWhen`
  says when it does, and `Reconciling.BusyStaysAbove` is a fleet that does.

## Model

| member | source | states |
|---|---|---|
| `Theorems.NoRunningJobKilled` | internal/scaler/teardown.go:63-143 | In every run, through restarts and ambiguous failures, whenever an instance stop, instance delete or disk delete may be issued for a name, the name is owned, has no job and no registration, and has neither in any later state of any continuation. |
| `Theorems.OrderedDestruction` | internal/scaler/teardown.go:40-43 | The calls ever logged for a name: each removal names this scale set, each stop or delete is of an owned name without registration or job, the successful ones come in the order registration, stop, instance, disk, and a disk last seen in any state but detached or faulted is deleted only right after its instance in the same pass. |
| `Theorems.CapacityBound` | internal/scaler/capacity.go:23-40 | Live owned instances in the world never exceed the larger of the limit and what the world held or had in flight when the process began, ambiguous creates and restarts included. |
| `Theorems.CommittedBacked` | internal/scaler/runner.go:109-117 | When provisioning starts, every owned name that holds or may come to hold an instance is one the controller counts. |
| `Theorems.CommitStep` | internal/scaler/provision.go:44-58 | No single action raises the number of names committed to an instance above the larger of the limit and what it was. |
| `Theorems.DrainSound` | internal/scaler/reconcile.go:198-221 | If a cycle of any run leaves no record after its teardowns, the world holds no live owned instance, no owned disk and no create in flight; with a limit of zero that stays so in every continuation. |
| `Theorems.Episode` | internal/scaler/teardown.go:153-188 | All that any one action may do to a teardown record: begin it (cancelable only by scale-down of a candidate), advance it, upgrade it, or end it by a reclaim in an open window, a job signal on a cancelable one before deprovisioning, a finish with nothing left, or a restart. |
| `Theorems.PermanentNeverCancelled` | internal/scaler/teardown.go:158-169 | Over any restart-free run a permanent teardown stays permanent and its phase never goes back, until it finishes. |
| `Theorems.BusyProtected` | internal/scaler/capacity.go:67-76 | In every reachable state a runner seen busy is in no window and in no cancelable removal, and scale-down cannot pick it. |
| `Theorems.RefusalProtects` | internal/scaler/teardown.go:64-76 | In every run, a runner whose removal GitHub refuses because its job still runs is busy from then on, in no window or cancelable removal, and no candidate for scale-down. |
| `Theorems.BusyStays` | internal/scaler/runner.go:27-28 | A busy runner stays busy over every run for as long as it is tracked. |
| `Theorems.BusyLocal` | internal/scaler/runner.go:132-138 | Whatever either side does, a busy runner stays busy, unless a cycle drops it with nothing left of it or the process restarts. |
| `Theorems.ReclaimSafe` | internal/scaler/teardown.go:393-407 | A reclaimed runner never had a removal attempted in the teardown it leaves; a cancelable removal is never attempted before the delay since marking has passed. |
| `Theorems.TeardownShape` | internal/scaler/teardown.go:409-416 | In every reachable state a teardown has a deadline exactly in its window, and only cancelable teardowns are in one. |
| `Theorems.NoOrphanedRegistration` | internal/scaler/runner.go:45-47 | A name this process asked GitHub to register, and that may still serve a job, is being provisioned or tracked and not gone, unless someone took away both its instance and its disk. |
| `Theorems.RestartLosesExactly` | internal/scaler/runner.go:77-82 | Of the registrations of owned names held at a restart, the controller never tracks again, in any continuation without a job event for the name, exactly those with no instance, no disk and no create in flight. |
| `Theorems.FirstLook` | internal/scaler/reconcile.go:232-264 | After a restart a first undisturbed observation tracks exactly the owned names that have an instance or a disk. |
| `Theorems.RestartOrphans` | internal/scaler/runner.go:77-82 | Any name queued for provisioning may be registered and then lost by a restart, derived from the exact condition above. |
| `Theorems.RestartMayOrphan` | internal/scaler/runner.go:77-82 | From an empty world there is a run that registers any owned name and then loses it to a restart. |
| `Theorems.RetiredRun` | internal/scaler/teardown.go:404-407 | Once an owned, known name has no registration and none in flight, no run of the controller and the world gives it one again. |
| `Theorems.StillRetired` | internal/scaler/teardown.go:276-283 | The same between any two moments of one run. |
| `Invariant.ActionKeeps` | internal/scaler/reconcile.go:151-228 | Every action of world or controller keeps, for every name, the invariant behind the theorems: deprovisioning means the registration is gone for good, records cover the world from listing to scaling, windows are untouched and short, the call log is safe and in order. |
| `System.RunInv` | internal/scaler/reconcile.go:77-121 | The invariant holds for every name in every state of every run from a fresh process over any admissible world. |
| `System.RunTail` | internal/scaler/reconcile.go:93-120 | A run goes on from any state it has passed to the same end. |
| `Runners.ReconcileState.constructor` | internal/scaler/runner.go:77-82 | No runners, demand unknown, never audited. |
| `Runners.ReconcileState.GetRunner` | internal/scaler/runner.go:86-93 | The tracked runner of that name, or a new empty one filed under it; no other runner changes. |
| `Runners.ReconcileState.ActiveRunnerCount` | internal/scaler/runner.go:96-104 | The exact number of runners with an instance up and no teardown. |
| `Runners.ReconcileState.InstanceCount` | internal/scaler/runner.go:109-117 | The exact number of runners with an instance in any state. |
| `Runners.ReconcileState.TeardownCount` | internal/scaler/runner.go:120-128 | The exact number of runners being torn down. |
| `Runners.ReconcileState.Prune` | internal/scaler/runner.go:132-138 | Exactly the runners that are gone are dropped; the rest stand unchanged. |
| `Runners.Runner.IsActive` | internal/scaler/runner.go:38-42 | Agrees with the predicate the counts and decisions are stated in. |
| `Runners.Runner.IsGone` | internal/scaler/runner.go:45-47 | Agrees with the predicate pruning is stated in. |
| `Runners.TeardownState.BeginRemovingRegistration` | internal/scaler/teardown.go:443-446 | The phase becomes registration removal and the deadline goes; the policy stays. |
| `Runners.TeardownState.BeginDeprovisioning` | internal/scaler/teardown.go:450-453 | The phase becomes deprovisioning and the deadline goes; the policy stays. |
| `Teardowns.Teardown` | internal/scaler/teardown.go:43-148 | One pass over one runner: with no error or refusal it ends where the ideal pass does, and an instance that had to be stopped was told so; otherwise some call did fail, and the runner is left in one of the listed places; the deadline is the window's, or the poll or retry delay from the clock, or none exactly when the teardown is over; nothing was done about any other runner. |
| `Accounts.PassByState` | internal/scaler/teardown.go:88-147 | Where a clean pass past the window gets a runner, for each state its instance and disk were seen in: stopped or failed, all goes; destroyed or absent, all goes if the disk is absent, detached or faulted and else the disk is waited for; any other, it waits for the instance. |
| `Accounts.WindowKept` | internal/scaler/teardown.go:56-61 | A pass before the end of the window changes nothing and asks for that end. |
| `Teardowns.ReleaseRegistration` | internal/scaler/teardown.go:56-86 | The window, then the registration: ready means confirmed gone and nothing else changed; not ready means an open window and no change, or a removal that failed or was refused with its exact effect. |
| `Teardowns.Expired` | internal/scaler/teardown.go:56-61 | A window that has closed becomes a registration removal. |
| `Teardowns.RemoveRegistration` | internal/scaler/teardown.go:63-86 | Resources stay. A removed registration begins deprovisioning with the same policy and no deadline. A job still running makes the runner busy, ends a cancelable teardown and leaves a permanent one as it was. Any other failure changes nothing. What is left waits for the retry delay from the clock. |
| `Teardowns.RemoveRunner` | internal/scaler/teardown.go:299-317 | Success means the registration of an owned runner is gone, a refusal that its job is running; every other failure is told apart from both. |
| `Teardowns.Deprovision` | internal/scaler/teardown.go:88-147 | Without failures: halted instances are deleted, destroyed ones forgotten, disks deleted once allowed and the teardown finished; what is still up is told to stop unless stopping already. After a failure the runner is as it was, or has lost its instance and kept its disk. |
| `Teardowns.HaltInstance` | internal/scaler/teardown.go:105-117 | An instance still up is told to stop unless it is stopping; the deadline is the poll delay from the clock, or the retry delay after a failure. |
| `Teardowns.DropDisk` | internal/scaler/teardown.go:121-147 | A disk seen attached, or in another state, waits and nothing changes, unless its instance was just deleted; one detached or faulted, or whose instance was just deleted, goes and the teardown is over; a failed deletion changes nothing. |
| `Teardowns.ClearInstance` | internal/scaler/teardown.go:88-104 | A halted instance is deleted, which alone licenses an attached disk; a destroyed one is forgotten; a failed deletion leaves it. |
| `Teardowns.GoneOnceDeprovisioned` | internal/scaler/teardown.go:404-407 | In every reachable state an owned runner being deprovisioned has no registration. |
| `Teardowns.DeleteInstance` | internal/scaler/teardown.go:91-100 | The instance is forgotten exactly when its deletion succeeded, and only that newly lets an attached disk go; a failed deletion leaves the licence as it was. |
| `Teardowns.ForgetInstance` | internal/scaler/teardown.go:101-104 | A destroyed instance is forgotten, and the licence to delete an attached disk is neither given nor taken. |
| `Teardowns.DeleteDisk` | internal/scaler/teardown.go:135-141 | The disk is forgotten exactly when its deletion succeeded. |
| `Teardowns.StopInstance` | internal/scaler/teardown.go:319-328 | A stop is issued; a failure is reported. |
| `Teardowns.WindowEnds` | internal/scaler/teardown.go:412-416 | In every reachable state a tracked teardown is in its window exactly when it has a deadline. |
| `Marking.MarkForTeardown` | internal/scaler/teardown.go:153-188 | A new record of the policy asked for, an upgrade from cancelable to permanent that closes an open window, or nothing; no other runner changes. |
| `Marking.MarkInstancesForTeardown` | internal/scaler/teardown.go:192-218 | Every runner with a halted or timed-out instance past its grace period is marked permanently, nobody else is, in whatever order they are visited. |
| `Marking.MarkDisksForTeardown` | internal/scaler/teardown.go:223-239 | Every runner left with only a disk past its grace period is marked permanently, nobody else is. |
| `Marking.InstanceOverdue` | internal/scaler/teardown.go:198-216 | True whenever the instance was halted or stuck past its grace period at the start, only if it was at the end. |
| `Marking.MarkRegistrationsForTeardown` | internal/scaler/teardown.go:244-297 | Only serving runners past grace are marked, straight into deprovisioning, and only those without a registration. Every runner whose registration was gone for good at the start is, but for as many as queries failed: a failure is no excuse for another runner. A failure asks for a retry, the retry delay from the clock. |
| `Marking.MissedOne` | internal/scaler/teardown.go:264-272 | Visiting one more runner misses at most that one, and only if its query failed. |
| `Accounts.InstancesMarked` | internal/scaler/teardown.go:192-218 | An instance is condemned exactly when five minutes old, by its creation time if known, and halted, or creating or starting for ten minutes in that state or, if unknown, since its creation; between the readings of the clock. |
| `Accounts.DisksMarked` | internal/scaler/teardown.go:223-239 | A runner with a disk and no instance is condemned exactly once that is five minutes old, between the readings of the clock. |
| `Accounts.AuditMarked` | internal/scaler/teardown.go:244-290 | Only runners with an instance not halted and five minutes old are condemned by the audit, into deprovisioning; and all of them without a registration that it does not miss. |
| `Marking.AuditQuery` | internal/scaler/teardown.go:264-289 | One query: a runner is marked only if it has no registration and is whenever that was gone before; a failed query changes nothing and asks for a retry. |
| `Marking.StillDeserted` | internal/scaler/teardown.go:276-283 | A registration found gone earlier in the run is still gone when it is asked for. |
| `Marking.MarkedStep` | internal/scaler/teardown.go:193-217 | Visiting one more runner at any later time keeps the account of who has been marked. |
| `Ordering.SortFunc` | internal/scaler/capacity.go:78-84 | An arrangement of the candidates, in order of age when the comparison is an ordering of them, and of up to twelve the one insertion sort finds: what the library promises of its sort and no more. |
| `Ordering.SortedFacts` | internal/scaler/capacity.go:78-84 | Insertion sort meets what is promised of the sort, whatever the candidates. |
| `Ordering.SettledStays` | internal/scaler/capacity.go:79-84 | Sorting leaves any arrangement without adjacent inversions as it is. |
| `Ordering.OrderedExactlyWhen` | internal/scaler/capacity.go:79-84 | Every arrangement without adjacent inversions is in order of age if and only if all candidates have a creation time or those that have one share it. |
| `Ordering.ComparisonOrders` | internal/scaler/capacity.go:79-84 | Equality under the comparison carries over between candidates if and only if all have a creation time or those that have one share it. |
| `Ordering.NewestFirst` | internal/scaler/capacity.go:80-82 | Three candidates, the middle one of unknown age, that sorting leaves with the newest first. |
| `Capacity.CancelPendingScaleDowns` | internal/scaler/capacity.go:104-125 | Exactly as many runners are taken back as were asked for or could be, each still inside its window with a working instance, whatever the order; nobody else changes. |
| `Accounts.TakenBack` | internal/scaler/capacity.go:104-126 | Those taken back were up and in a cancelable window not yet closed; the others stay as they are; while demand is not met none of those is left behind. |
| `Capacity.ReactivatedCount` | internal/scaler/capacity.go:119-120 | The active count rises by exactly the number taken back. |
| `Capacity.ScaleDownTo` | internal/scaler/capacity.go:61-98 | Exactly as many candidates as exceed the target, or as there are, enter a window: the first of what the sort made of the order they were met in; every candidate at the start was considered and none that is busy, in teardown, halted or in its grace period; the deadline is no later than any window. |
| `Accounts.GivenUpWho` | internal/scaler/capacity.go:61-103 | Those given up were idle, with an instance not halted and five minutes old and no teardown, and get a cancelable window of five seconds; the others stay as they are. |
| `Accounts.NoneSpared` | internal/scaler/capacity.go:86-88 | While there are too many, none of those is left behind. |
| `Capacity.ScaledDownCount` | internal/scaler/capacity.go:86-95 | The active count falls by exactly the number picked. |
| `Capacity.PickedOldest` | internal/scaler/capacity.go:78-89 | When the candidates are in order of age, none kept is older than one picked. |
| `Capacity.OldestExactlyWhen` | internal/scaler/capacity.go:78-89 | For each number given up that leaves some: scale-down gives up the oldest, in whatever order it meets the candidates and whatever its sort may make of them, if and only if all of them have a creation time or those that have one share it. |
| `Capacity.NewestGoes` | internal/scaler/capacity.go:80-86 | A fleet of three, one of unknown age, of which giving up one always gives up the newest. |
| `Capacity.ChosenOldest` | internal/scaler/capacity.go:78-89 | Whoever scale-down chooses from orderly candidates is among the oldest. |
| `Capacity.GatherCandidates` | internal/scaler/capacity.go:66-76 | No candidate twice, none left out, none that should not be there. |
| `Provisioning.RunWorkers` | internal/scaler/provision.go:44-58 | The workers run through some interleaving of their steps until all are done, each of whose states is what the run said of every name at a moment of this call, from its first to its last; each leaves one outcome, and as many calls failed as outcomes are failures. |
| `Provisioning.NeverTooMany` | internal/scaler/provision.go:46-54 | In every interleaving, at every moment, at most five workers hold the semaphore, and no interleaving takes more than three steps a worker. |
| `Provisioning.SomeoneMoves` | internal/scaler/provision.go:51-54 | While work remains some worker can move: the semaphore cannot deadlock. |
| `Provisioning.Work` | internal/scaler/provision.go:85-108 | One step of one worker: the registration first, the instance only after it; a failure ends the worker. |
| `Provisioning.ProvisionRunners` | internal/scaler/provision.go:38-81 | As many new owned names as asked for; the records and the list of created names are those of the outcomes; fewer were created only if a call failed. |
| `Provisioning.EitherCreatedOrCondemned` | internal/scaler/provision.go:61-78 | Every attempted name ends either created with its instance and no teardown, or under a permanent teardown without one: never both, never neither. |
| `Provisioning.OutcomesDecide` | internal/scaler/provision.go:60-80 | The records depend on the outcomes alone: two schedules with the same outcomes leave the same records. |
| `Provisioning.CreatedWhich` | internal/scaler/provision.go:60-80 | The names returned are exactly those whose instance was created. |
| `Provisioning.FetchImage` | internal/scaler/provision.go:112-129 | The queries actually asked, and their answers, decide: the project image, or the silo image exactly when the project has none; no image means a query failed. |
| `Provisioning.ScaleUp` | internal/scaler/capacity.go:17-55 | Creates runners within the gap and the free capacity; no retry is asked for exactly when the whole gap was created or the instances are at the limit; a retry is the retry delay from the clock, and means that no image was found or that some attempt failed; as many calls failed as attempts did. |
| `Provisioning.BackedViews` | internal/scaler/runner.go:109-117 | The runners counted against capacity are those the run says hold an instance. |
| `Observing.ObserveRunners` | internal/scaler/reconcile.go:232-264 | On success the tracked instances and disks are those in the world, at the two recorded moments of the run, whose name carries the prefix, with busy and teardown as before; on failure the records stand; either way nothing outside was touched. |
| `Accounts.ObservedWho` | internal/scaler/reconcile.go:239-268 | After an observation the runners are those known or listed, each with exactly the resources listed under its name, as busy and as far torn down as before. |
| `Observing.ListOwnedInstances` | internal/scaler/reconcile.go:268-290 | Exactly the instances in the world at the moment of the listing whose name carries the prefix. |
| `Observing.ListOwnedDisks` | internal/scaler/reconcile.go:294-313 | Exactly the disks in the world at the moment of the listing whose name carries the prefix. |
| `Observing.FilterOwned` | internal/scaler/reconcile.go:281-287 | Exactly the resources whose name carries the prefix, as they are. |
| `Scalers.Scaler.constructor` | internal/scaler/scaler.go:70-83 | Demand unknown, empty inbox, no token. |
| `Scalers.Scaler.HandleDesiredRunnerCount` | internal/scaler/handler.go:24-38 | Records the demand, leaves a token, returns the active count last observed. |
| `Scalers.Scaler.HandleJobStarted` | internal/scaler/handler.go:44-66 | Appends the event and leaves a token; a message without a runner name does neither. |
| `Scalers.Scaler.HandleJobCompleted` | internal/scaler/handler.go:72-94 | Likewise for a completed job. |
| `Scalers.Scaler.EnqueueJobEvent` | internal/scaler/handler.go:98-103 | The event goes to the end of the inbox, and a token is left. |
| `Scalers.Scaler.Wake` | internal/scaler/handler.go:166-171 | There is a token afterwards, whether or not there was one. |
| `Scalers.ProcessJobEvents` | internal/scaler/handler.go:121-163 | Takes demand and inbox at once and applies all events in order, leaving the inbox empty. |
| `Scalers.TakeInbox` | internal/scaler/handler.go:123-127 | The demand and the whole inbox are taken, and the runners are left alone. |
| `Scalers.OwnEventsOnly` | internal/scaler/handler.go:129-155 | What becomes of a runner depends on its own events only, in their order. |
| `Scalers.EventsStick` | internal/scaler/handler.go:131-155 | Among any events of a runner, one completed job condemns it for good and one started job leaves it busy and in no cancelable removal. |
| `Accounts.EventMeans` | internal/scaler/handler.go:131-155 | A started job makes its runner busy and calls off a cancelable teardown in its window or removing the registration; a completed one makes any teardown permanent and closes its window; resources and other runners stay. |
| `Reconciling.Reconcile` | internal/scaler/reconcile.go:151-228 | A whole cycle, between the clock readings around it: each phase applied to what the one before left, on what the world held when it was listed, each teardown in a stretch of the history of its own; a due audit is made and noted and no other; as many calls failed as deserted runners were left unmarked and passes did not go clean; a cycle with no failure grows the fleet by the whole gap or to the limit; a failed observation leaves records and world alone and retries; the deadline returned is the earliest of those that audit, passes and scaling asked for, and one of them; drained is returned exactly when both limits are zero and nothing is tracked, and then the world is empty. |
| `Reconciling.NeverUncovered` | internal/scaler/reconcile.go:223-225 | When every teardown is covered and no deadline was asked for there is no teardown: the fallback cannot fire. |
| `Reconciling.OwnCovered` | internal/scaler/reconcile.go:198-204 | A deadline no later than any runner's own comes in time for all that are left. |
| `Reconciling.Target` | internal/scaler/reconcile.go:190-196 | Unknown exactly while demand is; otherwise the demand plus the minimum, or the maximum when that is less. |
| `Reconciling.ReclaimsCount` | internal/scaler/reconcile.go:193-195 | Reclaiming never passes the target, and falls short of it only when nobody is left to take back. |
| `Reconciling.ScalesCount` | internal/scaler/reconcile.go:207-215 | Scaling never takes the active count across the target, and never the instances past the limit; below the target it adds the whole gap or reaches the limit, unless it asks for a retry. |
| `Reconciling.GrownCount` | internal/scaler/provision.go:60-80 | Scaling up adds exactly one instance for each creation, and one active runner for each that is up. |
| `Reconciling.TargetMetExactlyWhen` | internal/scaler/capacity.go:61-98 | A cycle that finds too many active runners ends with no more than the target if and only if there are candidates for the whole excess; that is, while nobody outgrows the grace period, if and only if the target has room for the busy and the young. |
| `Reconciling.BusyScales` | internal/scaler/capacity.go:65-76 | Such a cycle, which gives up nobody, is one the code may take. |
| `Reconciling.BusyStaysAbove` | internal/scaler/capacity.go:67-71 | One busy runner and a target of zero: however the cycle scales, the active count stays at one. |
| `Reconciling.ScaleToTarget` | internal/scaler/reconcile.go:207-215 | Scales up below the target, down above it, not at all while it is unknown; later cycles stay covered. |
| `Reconciling.AuditIfDue` | internal/scaler/reconcile.go:180-186 | An audit ten minutes old or more is made again and noted with its time, unless a query failed; a younger one is not; as many calls fail as deserted runners are missed. |
| `Reconciling.MarkAll` | internal/scaler/reconcile.go:173-186 | Whatever is due when planning starts is marked, nobody who is not; of the runners deserted then, as many are left without a permanent teardown as calls failed at most. |
| `Reconciling.OverlookedMissed` | internal/scaler/reconcile.go:173-186 | A deserted runner that marking leaves alone is one that the audit missed. |
| `Reconciling.SoonestOfAll` | internal/scaler/reconcile.go:42-49 | The earlier of what was asked for before and what scaling asks for is the earliest of all. |
| `Driving.DriveTeardowns` | internal/scaler/reconcile.go:198-204 | Every runner goes through one pass of its own, in any order: a stretch of the history holding all that was done about it and nothing about others, timed by that history; a clean pass is the ideal one, a failed one leaves a listed place; the deadline returned is no later than any runner's own, and one of them or the one given; no more passes fail than calls did. |
| `Driving.DriveOne` | internal/scaler/teardown.go:43-148 | One runner driven: its outcome, deadline and times, with nobody else touched. |
| `Driving.PassStays` | internal/scaler/reconcile.go:35-37 | A pass keeps its stretch, times and deadline while other runners are driven. |
| `Reconciling.ProvisionedCovered` | internal/scaler/capacity.go:50-52 | A failed attempt at provisioning always asks for another cycle in time. |
| `Reconciling.Conclude` | internal/scaler/reconcile.go:217-227 | Publishes the exact active count and reports drained exactly when both limits are zero and nothing is tracked. |
| `Reconciling.FinishCycle` | internal/scaler/reconcile.go:205-221 | Records left empty by the teardowns mean an empty world. |
| `Reconciling.PruneGone` | internal/scaler/reconcile.go:205 | After the teardowns the records are those of runners that are not gone. |
| `Accounts.ActiveWho` | internal/scaler/runner.go:38-47 | The runners that count towards demand are those with an instance not halted and no teardown; those dropped have neither instance, disk nor teardown. |
| `Running.RunLoop` | internal/scaler/reconcile.go:77-121 | The loop, its handlers and its token continue the history of the inbox they were given by steps of its protocol, over any number of waits. The cycles it ran work on the records one after another, the events they heard are those the protocol applied, each answers with its own deadline, and after the first each begins for a reason that is ready. Whenever it ends drained the world is empty and the limit zero; while it waits, a pending event or demand means a token, and a teardown in progress means a deadline. |
| `Running.OneCycle` | internal/scaler/reconcile.go:83-121 | One cycle of the loop: it hears all of the inbox, and the wait that follows is given the deadline the cycle answered with: the earliest asked for, or the retry delay after a failed observation. |
| `Running.NextRan` | internal/scaler/reconcile.go:89-119 | A cycle that begins on the records the last one left, by a token, at the deadline of the last one or five minutes after it, continues the history of cycles, and adds its events to those heard. |
| `Drain.FleetFalls` | internal/scaler/reconcile.go:198-221 | With a limit of zero the rank of the fleet strictly falls from one clean cycle to the next, and at rank zero the cycle leaves nothing. |
| `Drain.OneNearer` | internal/scaler/teardown.go:43-148 | A runner needing more cycles needs one fewer at the next observation. |
| `Drain.LastCycle` | internal/scaler/teardown.go:88-147 | A runner needing no more cycles is gone after this one. |
| `Drain.DrainedInThree` | internal/scaler/reconcile.go:219-221 | Three clean cycles in a row, each at least the cancellation delay after the one before, leave nothing whatever the fleet was. |
| `DrainRun.DrainFleet` | internal/scaler/reconcile.go:217-221 | Up to three cycles of this call, at least the cancellation delay apart, from its first records and history to its last: when no call failed the drain error is returned exactly when nothing is tracked, and always if nobody was at work and the world, by its own cells at those listings, was past grace and settled in between. |
| `DrainRun.WorldDrains` | internal/scaler/reconcile.go:198-221 | Three clean rounds of one run in a world that settles from listing to listing leave nothing tracked. |
| `DrainRun.SettledFollow` | internal/scaler/teardown.go:105-117 | When whatever was stopping or told to stop has stopped and loose disks have detached, the next observation finds the fleet one cycle on. |
| `Tight.TwoMayLeaveSome` | internal/scaler/reconcile.go:198-221 | The bound is tight: a legal run of two clean rounds, past grace, settled and with nobody at work, that leaves a runner. |
| `Tight.ItHappened` | internal/scaler/reconcile.go:198-221 | The run behind it is legal, and its runner is at every step as told. |
| `Drain.WindowsShort` | internal/scaler/teardown.go:174-176 | In every reachable state no window ends later than the cancellation delay from now. |
| `Inbox.NoLostWakeUp` | internal/scaler/handler.go:166-171 | In every interleaving, something pending means a token, a handler about to leave one, or a loop bound to look. |
| `Inbox.ExactlyOnce` | internal/scaler/handler.go:121-127 | Events applied, being applied and waiting are together, in order, the events stored; the demand in use is the one last stored before the latest snapshot. |
| `Inbox.PendingIsTaken` | internal/scaler/reconcile.go:99-119 | From any wait with something pending, at most three steps of the parties themselves reach a snapshot that takes all of it, without a timer. |
| `Inbox.AtRest` | internal/scaler/reconcile.go:93-109 | A loop waiting without a token and without a handler under way has applied every event and uses the latest demand. |
| `Inbox.CycleTakesAll` | internal/scaler/handler.go:121-127 | A whole cycle takes the demand and applies, in order, all that was in the inbox. |
| `Inbox.Demand` | internal/scaler/handler.go:24-38 | The demand handler takes the steps of the protocol: it stores, then leaves the token. |
| `Inbox.Job` | internal/scaler/handler.go:44-103 | So does a job handler, which takes no step for a message without a runner name. |
| `Shutdown.ListenerFirst` | controller.go:192-195 | In every interleaving the scaler is not cancelled before the listener has returned. |
| `Shutdown.BothFinished` | controller.go:208-230 | The caller gets past both peers only with exactly the result each exited with. |
| `Shutdown.AlwaysSound` | controller.go:208-230 | Each result is in its channel or received, never both and never lost, in every interleaving. |
| `Shutdown.NeverStuck` | controller.go:217-228 | The caller can move, has returned, waits for the first event, or waits for a peer that is running and has been cancelled. |
| `Shutdown.TenSteps` | controller.go:208-230 | Every interleaving, clean-up included, has at most ten steps besides those that cancel the process. |
| `Shutdown.DeletedOnlyWhenDrained` | controller.go:92-118 | The scale set is deleted exactly when the scaler reported it drained, after both peers are gone and closing the session has returned. |
| `Shutdown.DeletedDespiteFailedClose` | controller.go:95-110 | A failure to close the session does not keep a drained scale set, and is the error returned. |
| `Shutdown.ComesToClosing` | controller.go:148-230 | A drained scaler brings the caller to that close. |
| `Shutdown.SucceedsExactlyWhen` | controller.go:148-166 | The caller succeeds exactly when the scaler drained or both peers stopped without complaint, and every clean-up call succeeded. |
| `Shutdown.WhatIsReturned` | controller.go:95-166 | The exact error returned: nothing from the peers when the scaler drained, else the failure of the scaler, else that of the listener, and each failed call of the clean-up; a cancellation is none. |
| `Sizing.BootDisk` | internal/scaler/provision.go:148-153 | The least whole number of GiB that holds both the image and the configured disk. |
| `Sizing.BootDiskExact` | internal/scaler/provision.go:168 | The bytes sent are those of that disk if and only if the image is at most the largest whole number of GiB a word can hold; for any larger image they are zero. |
| `Sizing.MemoryExact` | internal/scaler/provision.go:182 | The memory multiplication is exact if and only if the configured GiB are within the limit validation sets. |
| `Sizing.ValidatedSizesExact` | internal/scaler/config.go:106-122 | Under a validated configuration nothing wraps, and the disk holds the image, unless the image is near the end of the word. |
| `Clouds.Cloud.RemoveRunner` | internal/scaler/scaler.go:128 | GitHub refuses to remove the runner of a running job, and only then says so; a removal that succeeded leaves no such registration; any other failure may still have removed it. |
| `Clouds.Cloud.GenerateJitRunnerConfig` | internal/scaler/provision.go:90-99 | A failed request may have registered the runner, or may yet do so before the next listing. |
| `Clouds.Cloud.InstanceCreate` | internal/scaler/provision.go:160-219 | A failed create may have made the instance, its disk alone, or may yet do so before the next listing. |
| `Clouds.Cloud.NewRunnerNames` | internal/scaler/scaler.go:143-147 | Distinct names with the prefix that nobody has used or mentioned. |

## Left out

- Running.RunLoop: ends after some number of waits instead of running forever; the number is any, and its contract holds for every one.
- Running.Listen: takes messages between cycles; handlers that run during a cycle are steps of `inbox.dfy` only.
- Running.Cycling: every wait ends in a cycle or the end of the process; which of several ready reasons is picked, and how soon, is left open.
- Theorems.NoOrphanedRegistration: speaks of one process, as `Theorems.RestartOrphans` shows it must.
- Teardowns.RemoveRunner: does not tell a foreign registration from other failures, since both wait for the retry delay.
- Ordering.SortFunc: for more than twelve candidates that the comparison does not order, promises an arrangement of them and not which one the standard library comes to.
- DrainRun.DrainFleet: waits the cancellation delay between its cycles itself; that the loop starts a cycle when a timer is due is not a statement about the runtime's timers.
- Clouds.Cloud.InstanceList: pages are not modelled, a listing is one snapshot; instance and disk listings are two moments.
- The restart of the controller is an action of the runs of `system.dfy` and not of the `Cloud` object, which is one process.
- Real clients, HTTP, authentication and message sessions: replaced by the adversarial cloud; a context that expires is a call that fails.
- Logging, cloud-init rendering, base64, network parameters and hostnames of `createInstance`: no property of their own.
- SHA-256, hexadecimal and randomness of names: an opaque prefix and a fresh-name source.
- `internal/config`, `main.go`, `version.go`, the name and label checks of `scaleset.go`: only easy members.
- The failure to construct a listener in `controller.go`, which closes the session and deletes nothing.
