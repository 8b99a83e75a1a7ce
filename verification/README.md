# The durable protocols of a self-hosted stream relay

The relay takes one publisher per stream and sends it on to destinations. It runs on one host:
an application with a SQLite database, a controller inside it, an Agent that starts workers in
containers, and host programs that back up, restore and update the whole. What is hard about it
is a set of small protocols that have to keep their promises while processes die between two
writes, replies are lost, requests arrive twice or late, and older databases are restored.

This project models those protocols and proves what they promise. Each is a state machine over
durable and volatile state, with every durable write and every outside effect as a step of its
own; theorems are about every run of the machine. Beside the machine stands the code in its own
form, classes whose methods update fields in loops and branches, and each method is proved to
move only along steps of the machine, or to have exactly the effect the machine's function has.

| files | what they model |
|---|---|
| `UpdateTransaction`, `UpdateSafety`, `UpdateTheorems`, `UpdateProgress`, `UpdateCoordinator` | the host update: journal, admission gate and marker, rollback |
| `Resources`, `Agents`, `AgentHandlers` | the Agent: fencing watermark, capacity, worker table |
| `ControlLoop`, `ControlSafety`, `ControlTheorems`, `Controller` | the controller's passes against database and Agent |
| `OneTimeFactors`, `Accounts` | time-based codes and recovery codes |
| `UpdateHandOff`, `HandOffSafety`, `HandOffTheorems`, `Bridge`, `Outbox` | the way of an authorized update to the host |
| `Scheduler` | reservations and leases |
| `Ingest` | publishers, sessions and the operator's stop |
| `Mp4`, `Avc`, `FallbackClip` | the check of an uploaded clip |
| `Checksums`, `Releases` | the checksum list of a release, the release watermark |
| `Limiter`, `Reconnects`, `Installations` | the attempt limiter, the worker's retries, the installer's journal |

## How to read the results

* In the update transaction `rows` is the database and `admitted` what has been admitted so far;
  a run interleaves processes at the gate, any number of resumptions, and deaths at every point.
* In the control loop a request stays deliverable after it was sent, any number of times, until
  a restore or a power loss, which only happen with the Agent down. The runtime behaves as
  `backend/internal/runtime/fake/fake.go` does. Backups are databases of the run itself.
* Beside the functions that say how something is computed stand predicates that say the same in
  plain terms, such as `Startable`, `MayTake`, `LeftWell` or `OnTheWay`; no code uses them.
* What the outside does is chosen freely, at any step, or given as a parameter, such as `fate` of a
  disk, `clock`, `verified` for a release, or `smooth` where everything called succeeds.
* Two promises did not hold as one would first state them, and are stated exactly instead.
  The Agent renames its new watermark into place before it syncs the directory. If that sync
  fails, the same request arriving again is accepted because the token is read back
  (`AcceptedIsOnDisk`: a token accepted without being written is as durable as it was before), a
  power loss may then forget it, and a restore of a database with a smaller counter lets tokens
  decrease; `TokensCanDecrease` gives the run. What matters is the restore: accepted tokens never
  decrease as long as no accepted token is more than one past everything the restored counter, the
  backup's token and the Agent's file know (`AcceptedTokensNeverDecrease`), and a restore for which
  this fails does lead to a decrease (`TokensNeverDecreaseJustWithinReach`, both directions). The
  same holds, without the one, of the promise that a pass's token exceeds every accepted one.
  The order of passes needs no condition. The attempt limiter lets through at most
  `2 * maximum - 1`, not only `2 * maximum`, attempts in a stretch shorter than its window, and
  `TwiceLessOneIsReached` shows that this bound is reached.

## Model

| member | source | states |
|---|---|---|
| UpdateTheorems.AdmittedChangesSurvive | infra/selfhost/updater_engine.py:37-121 | whenever admission is open, after any interleaving and any deaths, the database is exactly what was admitted, and everything admitted at any earlier point is still in it |
| UpdateTheorems.RestorationIsExact | infra/selfhost/updater_engine.py:44-57 | replacing the database during rollback neither discards nor invents an admitted change |
| UpdateTheorems.UnsafeJobOwnsTheMarker | infra/selfhost/updater_engine.py:78-121 | in every state a job in an unsafe phase owns the marker, no other job is unsafe, nobody is inside the gate and whoever looks at the marker is turned away |
| UpdateTheorems.ReleaseNeverMismatches | infra/selfhost/maintenance.py:75-81 | the ownership error of the release cannot occur |
| UpdateTheorems.OutcomesAreFinal | infra/selfhost/updater_engine.py:68-72 | a terminal phase is never rewritten, whatever is resumed later |
| UpdateTheorems.FailedRecoveryStaysClosed | infra/selfhost/updater_engine.py:44-66 | a recovery that needs an administrator keeps admission closed for good |
| UpdateTheorems.AdmittedOnlyGrows | backend/internal/maintenance/gate.go:16-34 | admitted changes are only ever added to, in order |
| UpdateTheorems.CountersCountTheRun | infra/selfhost/updater_engine.py:104-121 | the counters of the invariant are the numbers of starts that occur in the run |
| UpdateTheorems.HealthComesFromTheRun | infra/selfhost/updater_engine.py:79-84 | what the invariant says about health checks are checks that passed in the run |
| UpdateTheorems.LifeOfAJob | infra/selfhost/updater_engine.py:44-121 | over a job's whole life prepare and install start at most once, restore at most eight times; a failed job was never installed; a succeeded one was installed exactly once, passed the new health after that and was never restored; a rolled-back one was restored and passed the old health after the last restore |
| UpdateTheorems.RestorationIsTried | infra/selfhost/updater_engine.py:44-49 | a rollback begins its next restoration, and asks for an administrator exactly when eight have been charged over the whole run or the recovery deadline has passed |
| UpdateTheorems.BudgetCountsCharges | infra/selfhost/updater_engine.py:48-49 | the durable budget of a job is the number of restorations charged to it in the run |
| UpdateProgress.ResumptionReachesItsGoal | infra/selfhost/updater_engine.py:68-121 | a resumption whose steps succeed, whatever others do meanwhile, ends in what it is for, with admission open: a queued job succeeds, an interrupted installation is rolled back, an interrupted preparation fails |
| UpdateSafety.NextKeepsInv | infra/selfhost/updater_engine.py:29-121 | every step of the coordinator, the gate, the clock and the administrator keeps the invariant |
| UpdateCoordinator.Coordinator.Resume | infra/selfhost/updater_engine.py:68-121 | one resumption moves along steps of the machine and ends in a terminal phase that its first phase leads to, unless the coordinator dies in it, or the fence it needs is held against it by a process inside the gate or another job's marker, and then it wrote nothing; where all calls succeed and nothing dies, a queued job in time succeeds, an interrupted installation is rolled back while time and budget last, an interrupted preparation fails, a decision gets its outcome |
| UpdateCoordinator.Coordinator.Hold | infra/selfhost/maintenance.py:51-69 | lock before marker, both or neither; refused only by a process inside the gate or another job's marker; and the place to go on from follows from the durable phase |
| UpdateCoordinator.Coordinator.Release | infra/selfhost/maintenance.py:75-81 | the marker is gone and the journal untouched, or the process died |
| UpdateCoordinator.Coordinator.Finish | infra/selfhost/updater_engine.py:37-42 | the decision is durable before admission opens, the outcome is the one of the decision, admission is open then, and nothing else in the journal changes |
| UpdateCoordinator.Coordinator.Persist | infra/selfhost/updater_engine.py:29-35 | a write of the journal is made as a whole or not at all |
| UpdateCoordinator.Coordinator.Rollback | infra/selfhost/updater_engine.py:44-57 | a rollback in time and within eight restorations charges one and ends rolled back, or if a call fails asking for an administrator; any other asks for one at once |
| UpdateCoordinator.Coordinator.Charge | infra/selfhost/updater_engine.py:45-49 | one more restoration is charged durably before it starts, if fewer than eight were and the deadline has not passed, and else an administrator is asked for |
| UpdateCoordinator.Coordinator.Abort | infra/selfhost/updater_engine.py:59-66 | an abort ends failed, or if a call fails asking for an administrator |
| UpdateCoordinator.Coordinator.Replace | infra/selfhost/updater_engine.py:111-120 | an installation ends succeeded if all calls succeed, else rolled back or asking for an administrator, never failed |
| UpdateCoordinator.Coordinator.Admit | infra/selfhost/updater_engine.py:92-104 | an expired or busy host refuses the job durably before anything is prepared |
| UpdateCoordinator.Coordinator.Confirm | infra/selfhost/updater_engine.py:79-84 | a decision whose admission is closed is confirmed by health and gets its outcome, or needs an administrator |
| UpdateCoordinator.Coordinator.RecordKnown | infra/selfhost/updater_engine.py:75-77 | a decision whose admission is open only gets its outcome written |
| UpdateCoordinator.Coordinator.EnterGate | backend/internal/maintenance/gate.go:16-34 | a process is inside exactly when neither the exclusive lock is held nor a marker is there, and else leaves no trace |
| UpdateCoordinator.Coordinator.Apply | backend/internal/maintenance/gate.go:16-34 | a change made inside the gate is in the database and counts as admitted |
| UpdateCoordinator.Coordinator.LeaveGate | backend/internal/maintenance/gate.go:28 | the shared lock of that process goes and no other |
| Resources.TotalOf | backend/internal/domain/model.go:41-46 | the sum of a table of resource vectors does not depend on the order in which it is added up |
| Resources.FitsIsAnOrder | backend/internal/domain/model.go:38-46 | to fit is a partial order in all five dimensions, and what fits into the rest fits beside the others |
| Resources.Needed | backend/internal/control/resources.go:9-28 | a worker takes one slot, in every dimension what is configured or the usual amount, and enough egress for all its outputs |
| Agents.Accept | backend/internal/node/agent.go:60-110 | nothing but the watermark changes, it never goes back, and an accepted token is at least all that was remembered |
| Agents.StartIsExact | backend/internal/node/agent.go:111-165 | a start succeeds exactly when it may, and changes that one worker only |
| Agents.StartKeepsRoom | backend/internal/node/agent.go:111-165 | a start, whatever the disk and the runtime answer, leaves the node's running workers within its capacity in every dimension |
| Agents.LaunchKeepsRoom | backend/internal/runtime/fake/fake.go:45-63 | keeping the very same worker or replacing it stays within capacity |
| Agents.StopKeepsRoom | backend/internal/runtime/fake/fake.go:64-74 | a stop stays within capacity |
| Agents.ResizeKeepsRoom | backend/internal/runtime/fake/fake.go:26-36 | new resources for a worker, running or not, of this node or another, stay within capacity if they fit beside all running workers |
| Agents.DestinationsKeepRoom | backend/internal/node/agent.go:195-247 | the destinations handler stays within capacity |
| AgentHandlers.Agent.ReadFence | backend/internal/node/agent.go:43-59 | memory catches up with the file and never falls behind itself |
| AgentHandlers.Agent.AcceptCommand | backend/internal/node/agent.go:60-110 | accepted exactly when complete, in time, no older than what is remembered and, if newer, made durable; the written-out acceptance is the function, for every failure of the disk |
| AgentHandlers.Agent.AvailableHere | backend/internal/node/agent.go:144-157 | the loop computes capacity minus the sum over the node's other running workers, in any order, and whether the allocation runs |
| AgentHandlers.Agent.AvailableAnywhere | backend/internal/node/agent.go:225-230 | the loop of the destinations handler computes capacity minus the sum over all other running workers |
| AgentHandlers.Agent.Start | backend/internal/node/agent.go:111-165 | the start handler succeeds exactly when the gate is open, the command is acceptable and matches, the resources fit beside the others, the worker is not newer and the node does not drain or already runs it; then the allocation runs under that generation and token and no other worker changes, and the node stays within capacity |
| AgentHandlers.Agent.Delete | backend/internal/node/agent.go:176-194 | succeeds exactly when the command is acceptable and the runtime works, halts that worker and no other; a worker that is not there is a success |
| AgentHandlers.Agent.Destinations | backend/internal/node/agent.go:195-247 | succeeds exactly when the command is acceptable, the worker is there and the resources fit beside all others; it then has them, and nothing else changes |
| AgentHandlers.Agent.Slate | backend/internal/node/agent.go:248-275 | succeeds exactly with an acceptable command for a worker that is there, and changes no worker |
| AgentHandlers.Agent.SetDraining | backend/internal/node/agent.go:302-319 | the draining flag changes only with an accepted command |
| ControlSafety.NextKeepsInv | backend/internal/control/controller.go:94-453 | every step of a pass, the network, the Agent, a restore and the rest of the application keeps tokens, rows, workers and capacity in order |
| ControlSafety.HandleIsWell | backend/internal/node/agent.go:60-319 | no handler touches a worker without accepting its command, and only a start brings a new one |
| ControlSafety.AcceptedInOrder | backend/internal/node/agent.go:67-69 | what the Agent accepts next is never of an older pass than what it accepted before |
| ControlSafety.StartsAreFenced | backend/internal/control/controller.go:227-247 | while a pass closes a session every start still under way for it would be refused |
| ControlSafety.InsertKeepsRows | backend/internal/control/controller.go:298-322 | a count of slots and a sum of the rest before the insert keep one live allocation per session and all of them within the node |
| ControlSafety.ReserveKeepsRows | backend/internal/control/resources.go:30-33 | a conditional change of resources keeps the live allocations within the node |
| ControlTheorems.AcceptedInPassOrder | backend/internal/node/agent.go:60-110 | over every run, with restarts, power losses and restores, commands are accepted in the order of their passes |
| ControlTheorems.DelayedCommandIsRefused | backend/internal/node/agent.go:67-69 | once a newer pass's command was accepted, a delayed one of an older pass is refused and changes no worker |
| ControlTheorems.AcceptedTokensNeverDecrease | backend/internal/node/agent.go:60-110 | over passes, restarts, power losses and restores of older databases accepted tokens never decrease, if no restore finds an accepted token more than one past all that counter, backup and file know |
| ControlTheorems.TokensNeverDecreaseJustWithinReach | infra/selfhost/backup.py:113-130 | that condition is exact: after a run that met it, a restore meets it if and only if accepted tokens never decrease however the run goes on |
| ControlTheorems.DurableTokensAreReached | backend/internal/node/agent.go:89-105 | every restore meets it as long as no power loss comes while an accepted token is not on the disk |
| ControlTheorems.AcceptedIsOnDisk | backend/internal/node/agent.go:64-110 | an accepted token is on the disk if and only if it was there before or was above the watermark file, so that it was written |
| ControlTheorems.TokensCanDecrease | backend/internal/node/agent.go:89-105 | a run in which a watermark renamed but not synced, a repeated request, a power loss and a restore make accepted tokens decrease |
| ControlTheorems.PassTokenIsNewest | backend/internal/control/controller.go:130-135 | the token a pass goes on with exceeds every token the Agent ever accepted, if every restore reached all accepted tokens |
| ControlTheorems.PassTokensAreNewestJustWithinReach | backend/internal/control/controller.go:105-135 | that condition is exact: a restore reaches all accepted tokens if and only if every later pass takes a token above them |
| ControlTheorems.EveryWorkerHasItsRow | backend/internal/control/controller.go:433-449 | a running worker always has a committed, live, wanted allocation that is at least as new |
| ControlTheorems.OneLiveRowPerSession | backend/internal/control/controller.go:220-226 | a session never has two live allocations |
| ControlTheorems.NodeIsNeverOverloaded | backend/internal/control/controller.go:298-327 | in every state both the live allocations and the running workers of the node fit its capacity |
| ControlTheorems.StaysCalm | backend/internal/control/controller.go:180-204 | from the listing of the sessions on, only wanted starts are under way and only wanted workers are left unswept |
| ControlTheorems.FinishedPassLeavesOnlyWanted | backend/internal/control/controller.go:185-205 | a pass that ends leaves running only workers whose allocation and session are wanted, if nobody stopped a session since it listed them |
| ControlTheorems.EndedStaysEnded | backend/internal/control/controller.go:244-247 | a session that has ended stays so as long as nobody else changes the sessions |
| Controlling.AdoptedOrFresh | backend/internal/control/controller.go:333-398 | a live process of the expected generation and configuration is adopted, and whatever replaces a process has a generation no process had |
| Controlling.AdjustedByCase | backend/internal/control/controller.go:333-447 | what makes an allocation run on, wait, take a new configuration, start again or fail, and what becomes of its row in each case |
| Controlling.Controller.NextFence | backend/internal/persistence/sqlite.go:211-215 | the next token is one above the durable counter, which keeps it |
| Controlling.Controller.TakeToken | backend/internal/control/controller.go:105-135 | a pass's token is the durable counter, above what it was, and past what the Agent has seen |
| Controlling.Controller.Call | backend/internal/control/controller.go:63-90 | only an answer lets a pass go on; without one the request may still come to be done |
| Controlling.Controller.FindRow | backend/internal/control/controller.go:218-226 | the query finds a live allocation of the session exactly if there is one |
| Controlling.Controller.SumLive | backend/internal/control/controller.go:312-314 | the sums of the capacity checks are the totals over the live allocations |
| Controlling.Controller.StopSession | backend/internal/control/controller.go:227-247 | on success the session has ended and has no live allocation, at once if it had none, else after an acknowledged stop of its worker; a stop that was not answered leaves all as it was |
| Controlling.Controller.StopOutput | backend/internal/control/controller.go:253-277 | the worker is asked to stop; on success the session has no live allocation and goes on waiting, else nothing was written |
| Controlling.Controller.Insert | backend/internal/control/controller.go:298-322 | an allocation is inserted exactly where slots and sums allow it and the id is new, with generation one and the pass's token |
| Controlling.Controller.ReserveBudget | backend/internal/control/resources.go:30-33 | resources change exactly when they fit beside all other live allocations |
| Controlling.Controller.ApplyConfiguration | backend/internal/control/controller.go:338-358 | new destinations and then the slate are sent, and the row takes the new digest only when the Agent carried out both and answered |
| Controlling.Controller.CommitLaunch | backend/internal/control/controller.go:394-447 | generation, digest, token and backoff are committed before the start is sent, and the start carries exactly them |
| Controlling.Controller.LaunchWorker | backend/internal/control/controller.go:441-452 | the start that is sent carries the committed generation, token and resources, and the row stays whether or not it is ever answered |
| Controlling.Controller.Exhausted | backend/internal/control/controller.go:377-393 | after five restarts the worker, and no other, is asked to stop, and an acknowledged stop fails allocation and session together |
| Controlling.Controller.Adjust | backend/internal/control/controller.go:328-453 | one look at a worker makes of its allocation what `Adjusted` says in each of the branches, and sends what `Attended` says |
| Controlling.Controller.Reconcile | backend/internal/control/controller.go:217-453 | a session that is to stop ends without a live allocation or its stop went unanswered; one without destinations loses its own; a wanted one keeps or gets an allocation exactly when its needs fit, which is then seen to case by case; nothing else is asked of any worker and no other session's allocations change |
| Controlling.Controller.ReconcileAll | backend/internal/control/controller.go:161-184 | every session that was listed is reconciled, as it was listed, and nothing done for it is undone by the others |
| Controlling.Controller.Sweep | backend/internal/control/controller.go:185-205 | every request the sweep sends is to stop a worker that was not wanted at the time; success means that every other listed worker's stop was acknowledged |
| Controlling.Controller.Once | backend/internal/control/controller.go:94-206 | a whole pass, entered through the gate, is a run of the machine; only a closed gate, an Agent out of reach or its silence about draining keep it from the sessions; each listed session to be stopped and dealt with has ended without a live allocation, each wanted one with room is adopted, reconfigured or started; if the pass succeeds and nobody stopped a session meanwhile, only wanted workers are left |
| OneTimeFactors.Verify | backend/internal/auth/totp.go:34-50 | a code is accepted for a step of the window whose code it is, and refused only if it is the code of no step of the window |
| OneTimeFactors.SecondFactor | backend/internal/application/mfa.go:84-100 | no factor passes without an authenticator, a code only for a step of the window after the last one used, and such a code does pass |
| OneTimeFactors.NextKeepsInv | backend/internal/application/mfa.go:84-419 | logins, replacement, authorization, enrollment, recovery, snapshots and restores keep every used factor spent |
| OneTimeFactors.EveryFactorOnce | backend/internal/application/mfa.go:101-110 | over every run no two grants rest on the same step of a secret or the same recovery code, and the steps of a secret strictly increase |
| OneTimeFactors.UsedStepIsRefused | infra/selfhost/backup.py:66-78 | a used step never verifies again, after any restores |
| OneTimeFactors.NothingSurvivesTheCut | backend/internal/application/mfa.go:353-419 | after owner recovery, a restore or a confirmed authenticator, over every run with requests under way, every session, recovery code, waiting authorization and enrollment comes from a step at or after that one |
| OneTimeFactors.NoFactorAfterRecovery | backend/internal/application/mfa.go:390-419 | after owner recovery there is no authenticator, code or session until a new authenticator is confirmed |
| OneTimeFactors.WindowInSeconds | backend/internal/auth/totp.go:34-50 | a code is good from thirty seconds before its half minute begins to thirty after it has ended |
| OwnerAccounts.Accounts.ConsumeFactor | backend/internal/application/mfa.go:101-110 | a factor is consumed exactly when it is still there as it was read, and nothing else changes |
| OwnerAccounts.Accounts.Grant | backend/internal/application/mfa.go:190-208 | factor and grant commit together or not at all, and each kind of grant changes its own table only |
| OwnerAccounts.Accounts.BeginSetup | backend/internal/application/mfa.go:262-282 | a first authenticator may be enrolled exactly as long as there is none, in place of an earlier enrollment, and nothing else changes |
| OwnerAccounts.Accounts.ConfirmEnrollment | backend/internal/application/mfa.go:289-386 | confirmed exactly for the right token, in time, with a valid code and an unchanged password; then everything issued before is replaced |
| OwnerAccounts.Accounts.RecoverOwner | backend/internal/application/mfa.go:390-419 | a recovered owner has a new password and no authenticator, enrollment, recovery code, session or waiting authorization |
| OwnerAccounts.Accounts.RevokeRestoredAuth | infra/selfhost/backup.py:66-78 | a restored database keeps owner and authenticator, with every acceptable step fenced, and no session, enrollment, code or waiting authorization |
| HandOffSafety.NextKeepsInv | backend/internal/application/updates.go:135-178 | every step keeps what was dispatched backed on the host and takes nothing durable back |
| HandOffTheorems.DispatchedIsHeld | backend/internal/application/updates.go:160-177 | an authorization marked dispatched, in any database ever restored, is on the host with exactly its id and digest |
| HandOffTheorems.AtMostOnePending | backend/internal/application/update_authorization.go:77-86 | at most one authorization waits |
| HandOffTheorems.BindingsLast | infra/selfhost/updater_bridge.py:125-160 | an id keeps its digest, and no receipt or job disappears, whatever is delivered again |
| HandOffTheorems.EveryWakeIsCounted | infra/selfhost/updater_bridge.py:161-183 | every wake of a receipt was counted durably before it was made; only a job without a receipt is woken uncounted |
| HandOffTheorems.EightWakes | infra/selfhost/updater_bridge.py:164-176 | a receipt makes at most eight wakes over the whole run, under different numbers from one to eight |
| HandOffTheorems.OwnersRun | infra/selfhost/updater_bridge.py:136-184 | without administrative jobs every receipt is authorized, every job belongs to its receipt, and at most one request is unfinished |
| HandOffTheorems.OneUnfinishedRequest | infra/selfhost/updater_bridge.py:136-160 | two requests whose jobs are not at their end, or that have neither job nor refusal, are the same, also after a crash between receipt and publication |
| HandOffTheorems.OnlyAuthorizedJobs | infra/selfhost/updater.py:54-99 | every job carries out what the owner authorized under the very same id and digest |
| UpdateBridge.Bridge.Start | infra/selfhost/updater_bridge.py:125-184 | unless the host dies, a new receipt exactly when all is at its end, there is room and the catalog offers it, and then it is published and woken once; a known id only looked up; another digest refused with nothing changed |
| UpdateBridge.Bridge.AllDone | infra/selfhost/updater_bridge.py:139-147 | the scan says whether every receipt is done |
| UpdateBridge.Bridge.Publish | infra/selfhost/updater_bridge.py:155-160 | the request is published after its receipt, and then a wake is counted and made, unless another published one is unfinished |
| UpdateBridge.Bridge.Count | infra/selfhost/updater_bridge.py:161-184 | unless the host dies, a receipt with fewer than eight attempts is woken under the next number, and one with eight is not |
| UpdateBridge.Bridge.ResumeRequested | infra/selfhost/updater_bridge.py:186-222 | unless the host dies, the coordinator goes on with the published request's job, or makes it with its digest exactly if it is in time, on offer, verifies, no directory is left of it and nothing else is under way, and else the request fails; without one it goes on with the current job |
| UpdateBridge.Bridge.Queue | infra/selfhost/updater.py:54-99 | unless the host dies, queued exactly if nothing else is under way and the release verifies, or the job is there already with this digest; it then has its journal and is published, and no other job changes |
| UpdateBridge.Bridge.MakeJob | infra/selfhost/updater.py:72-99 | directory first, journal last; a failure leaves nothing, a crash at most the directory |
| UpdateOutbox.Outbox.Authorize | backend/internal/application/update_authorization.go:59-113 | an exact retry is a lookup, another digest a conflict, and a new authorization needs a factor and waits alone |
| UpdateOutbox.Outbox.Dispatch | backend/internal/application/updates.go:135-178 | dispatched only on an answer with exactly this id and digest, cancelled on a refusal or an expired session, else left waiting |
| Scheduler.ExpiryKeepsConsistent | backend/internal/scheduler/scheduler.go:42-49 | an expiry keeps every running total the sum of its reservations and within capacity |
| Scheduler.PlacementKeepsConsistent | backend/internal/scheduler/scheduler.go:75-81 | a placement that fits keeps them so |
| Scheduler.CommitKeepsConsistent | backend/internal/scheduler/scheduler.go:90-95 | a commit keeps them so |
| Scheduler.ChangeMovesSums | backend/internal/scheduler/scheduler.go:90-95 | a change of state moves exactly one reservation from one sum to the other |
| Scheduler.OneLiveReservation | backend/internal/scheduler/scheduler.go:50-52 | reservations are filed under their allocation, so an allocation has at most one, live or not |
| Scheduler.PreferredIsTransitive | backend/internal/scheduler/scheduler.go:64-71 | the order of candidates is an order |
| Scheduler.ChosenIsFirst | backend/internal/scheduler/scheduler.go:64-71 | what is not preferred has more slots in use, or as many and not an earlier name |
| Scheduler.Store.constructor | backend/internal/scheduler/scheduler.go:36-38 | a store over unused nodes is consistent |
| Scheduler.Store.Expire | backend/internal/scheduler/scheduler.go:42-53 | in any order of the map the loop finds the live reservation exactly if there is one, and else has expired all that are overdue |
| Scheduler.Store.Candidates | backend/internal/scheduler/scheduler.go:54-63 | exactly the eligible nodes |
| Scheduler.Store.First | backend/internal/scheduler/scheduler.go:64-75 | no candidate is preferred to the one chosen |
| Scheduler.Store.Place | backend/internal/scheduler/scheduler.go:39-82 | the reservation that is committed or held in time, or a new one on a node that may take it with the fewest slots in use and the first name, or none because no node may; the store stays consistent |
| Scheduler.Store.Commit | backend/internal/scheduler/scheduler.go:83-97 | succeeds exactly for a reservation that is held and has time left, and moves its resources |
| Scheduler.Store.AcquireLease | backend/internal/scheduler/scheduler.go:98-111 | a lease in time is never taken over, and every grant has a larger token |
| Ingest.MoveKeepsSound | backend/internal/persistence/store.go:130-131 | moving the live session to a new connection keeps one publisher, one session and one session per connection |
| Ingest.NewKeepsSound | backend/internal/persistence/store.go:132-134 | so does a new session |
| Ingest.Store.ObserveIngest | backend/internal/persistence/store.go:78-143 | succeeds exactly when admissible and stale or neither contested nor blocked; a disconnect makes the session that has not ended wait from then on, a connect ends the wait of the live one, and no other session changes; times never go back; a session that is over stays bound and its connection starts no other |
| Ingest.Store.Bind | backend/internal/persistence/store.go:126-135 | a connect is served by the session that is over for it, the live one of the stream, or a new one, in this order |
| Ingest.Store.Expect | backend/internal/persistence/store.go:136-138 | the session of the connection that has not ended begins one wait and never begins it again; no other changes |
| Ingest.Store.StopSession | backend/internal/persistence/stop.go:18-67 | stops exactly when the session is active, the edge was seen whole and lately, and nobody is connected to the stream; each other answer has its exact condition |
| Ingest.Store.EndSession | backend/internal/control/controller.go:244-247 | the end of a session, or its failure, changes nothing else |
| Ingest.OverForGood | backend/internal/persistence/store.go:122-135 | over any sequence of observations, stops and endings, a session that was stopped or is over stays over and bound to its connection, and no other session is ever bound to that connection |
| Ingest.TimesNeverGoBack | backend/internal/persistence/store.go:98-107 | over any such sequence no connection is forgotten, moved to another stream or seen earlier than before |
| Mp4.ParseIsSound | backend/internal/application/fallback.go:143-232 | what is read was written so: a tree within the depth whose bytes are exactly the input |
| Mp4.ParseIsComplete | backend/internal/application/fallback.go:143-232 | writing any tree within the depth and reading it gives exactly that tree |
| Mp4.OpenOfHeader | backend/internal/application/fallback.go:152-168 | each of the four ways to give a size is read back |
| Mp4.HeaderOfOpen | backend/internal/application/fallback.go:152-168 | each accepted header was written in one of the four ways |
| Mp4.TagsAreNames | backend/internal/application/fallback.go:169-228 | the codes of the boxes are the four characters of their names |
| Avc.SupportedIsRecord | backend/internal/application/fallback.go:259-295 | an accepted configuration is the record of an ordinary profile with good parameter sets |
| Avc.RecordIsSupported | backend/internal/application/fallback.go:259-295 | every such record is accepted |
| Avc.SkippedIsUnits | backend/internal/application/fallback.go:269-279 | what a parameter-set loop skips is that many good parameter sets |
| Avc.UnitsAreSkipped | backend/internal/application/fallback.go:285-295 | and it skips them all |
| Avc.AcceptedIsChildren | backend/internal/application/fallback.go:244-300 | accepted children are well-formed boxes with exactly one, supported, configuration |
| Avc.ChildrenAreAccepted | backend/internal/application/fallback.go:244-300 | all such children are accepted |
| Avc.Skip | backend/internal/application/fallback.go:269-279 | the loop computes its specification without reading out of range |
| Avc.SupportedAvcConfiguration | backend/internal/application/fallback.go:244-300 | the loop over the children computes its specification |
| FallbackClip.Walker.Walk | backend/internal/application/fallback.go:143-232 | the walk with its counters succeeds exactly on trees within the limits whose boxes are good, and has counted them |
| FallbackClip.Walker.CheckLeaf | backend/internal/application/fallback.go:169-228 | the checks of handler, header and description boxes |
| FallbackClip.ValidateFallback | backend/internal/application/fallback.go:137-240 | an upload is accepted exactly when it is the bytes of a bounded tree with a short duration and one supported AVC track |
| FallbackClip.OneReading | backend/internal/application/fallback.go:143-232 | two trees with the same bytes are the same |
| Checksums.PrintedIsAcceptable | infra/selfhost/archive.py:19-27 | what the packager prints the stager accepts, within the stager's limits |
| Checksums.AcceptedTellsAll | backend/internal/release/bundle.go:155-170 | an accepted list determines every other file's name and digest |
| Checksums.CountingIsEnough | backend/internal/release/bundle.go:163-170 | as many distinct matches as other files means that each of them is listed once |
| Checksums.ScanOfPrint | backend/internal/release/bundle.go:155-158 | scanning a printed list gives back its lines |
| Checksums.Print | infra/selfhost/archive.py:23-27 | the printing loop |
| Checksums.Check | backend/internal/release/bundle.go:143-170 | the matching loop accepts exactly when every extracted file but the list is listed once with its digest and nothing else is |
| Releases.Verify | backend/internal/release/manifest.go:111-165 | accepted exactly when signed, compatible, current, an upgrade, at or above the watermark and with good artifacts, one of them for this architecture |
| Releases.Verifier.Run | backend/cmd/release-tool/main.go:191-224 | over any runs and deaths accepted sequences never decrease, none has two digests, and all but initial ones are above the installed one |
| Limiter.AtMostTwiceLessOne | backend/internal/application/security.go:113-118 | the last of any `2 * maximum` admissions in a row comes at least a window after the first, whatever is cleaned up in between |
| Limiter.RefusedOnlyWhenSpent | backend/internal/application/security.go:113-118 | an attempt is refused only if `maximum` attempts were let through within the length of a window before it |
| Limiter.TwiceLessOneIsReached | backend/internal/application/security.go:113-118 | `2 * maximum - 1` admissions within one second do occur |
| Limiter.RunFits | backend/internal/application/security.go:107-118 | counts, windows and admissions stay in step under every interleaving with the cleanup |
| Limiter.Attempted.Allow | backend/internal/application/security.go:113-118 | the upsert counts for its own key only |
| Limiter.Attempted.Admit | backend/internal/application/security.go:89-105 | admitted exactly when within all limits; the first exceeded one is counted and none after it |
| Reconnects.Service.Run | backend/internal/worker/service.go:51-125 | every destination fares, and is reported, as in a worker of its own |
| Reconnects.Service.Turn | backend/internal/worker/service.go:55-112 | one event changes its own destination only, as its function says |
| Reconnects.BoundedRetries | backend/internal/worker/service.go:82-111 | between two resets at most the maximum of reconnections is scheduled, and the count is their number |
| Reconnects.GivesUpWhenSpent | backend/internal/worker/service.go:97-102 | whoever gives up for want of attempts has scheduled the maximum since the last reset |
| Reconnects.LossIsAnswered | backend/internal/worker/service.go:82-111 | a loss that is news is tried again exactly when not refused for good and attempts are left, else given up and said so |
| Reconnects.LiveThenLost | backend/internal/worker/service.go:73-103 | an output that went live is tried again when lost, whatever had been given up before; attempts count on unless it was live for long enough |
| Reconnects.DueReconnects | backend/internal/worker/service.go:55-66 | a retry that comes due reconnects, unless the output has a newer generation, was stopped or was given up |
| Installations.Installation.Begin | infra/selfhost/installer_application.py:208-227 | the same request finds the same job, a failed one is renewed at its failed phase, another request is refused; trust is written before the journal, and a death at either write leaves the journal as it was |
| Installations.Installation.Run | infra/selfhost/installer_application.py:228-249 | over crashes and renewals operations climb the phases, at most three runs per request; a run that is late or the fourth fails the job and starts nothing, any other is counted and starts its operations; a trusted run raises only past the deadline or after an operation that did not return; success means that every operation returned, in order |
| Installations.Installation.GoOn | infra/selfhost/installer_application.py:237-244 | the loop goes on from the durable phase, writes each phase before its operation, and starts none past the deadline |

## Left out

- Docker, systemd, file permissions, certificates and the contents of snapshots: the driver's operations end well, badly or with the process, and an unfinished one leaves any database behind.
- An exception from a durable write of the journal: a write is made or the process dies. In the source an error of the last write inside `finish` would end in RECOVERY_REQUIRED with the marker gone (infra/selfhost/updater_engine.py:50-57).
- A restore is one step that lasts: it replaces database and watermark together, and a power loss in the middle of it, or before its renames reach the disk, is not modelled.
- Changes made outside the gate (expired-row cleanup, migrations at start-up) and the manual operations under `operation`: an admitted change is one made between `Enter` and its release.
- `resume_job`'s retry after running out of space and the disk reserve: a retry is another resumption.
- The checks of payload sizes, files and environment in `ValidateStart`, and command and trace ids: they concern the request's form, not fencing or capacity.
- Other nodes and regions: rows and workers of other nodes may be there and are left alone, but there is one Agent and one controller; the capacity of the node does not change.
- Destinations, secrets, tokens, slate policies and media profiles of a session: what a pass reads of them is the parameter `Reading`; `destination_runtimes` and the session phases between start and end are not kept.
- Integer widths: tokens, sequences and resources are unbounded; JSON, SQL text, HTTP routing and time zones are not modelled, and times are integers.
- Cryptography: digests name their contents, sealing a secret twice gives different texts, drawn secrets and codes have not been drawn before, and a code is any function of secret and step; the password check of a sign-in is not modelled.
- The contents of the update authorization that bind it to a session and a user; whether they are still live is a parameter.
- The engine inside the hand-off: a job's phase is queued, busy or finished there, and the update transaction is modelled on its own.
- Entry admission of the stager (names, sizes, trailer) and the list of required files: independent checks of one entry at a time.
- URL, version and digest patterns of a manifest are truth values; the decoder for duplicate JSON keys is not part of this model.
- The delays and jitter of retries: a scheduled retry comes back at any later time or never; only the bound between two resets is stated, since a stop or a stable stretch begins the count again.
- `backend/internal/ingest/lifecycle.go`: the database version of the same rules is modelled; that one records an observation before it checks for a conflict.
