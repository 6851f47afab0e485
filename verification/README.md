# git-auto-sync, modelled and proved

git-auto-sync is a daemon that watches many git repositories, commits, fetches, rebases and
pushes them in the background, and streams states and events to clients over a socket. This
project models its hard protocols and algorithms in Dafny and proves what they promise for
every input, every interleaving and every run. `dafny verify dfyconfig.toml` checks all of it.

| file | part of the system |
|---|---|
| `WatcherLifecycle.dfy` | handles chained by `done` channels, as atomic steps that interleave freely |
| `Daemon.dfy` | the daemon's locked operations on its maps, proved to be those steps |
| `SyncScheduler.dfy` | the select loop with debounce, cooldown, backoff, hold, retry and pause |
| `Commands.dfy` | asking for a sync, pausing and resuming, proved to be the scheduler's environment steps |
| `GitModel.dfy` | commits, histories, rebase and counting |
| `RepoState.dfy` | a repo's stored state, and saving and loading it |
| `SyncRun.dfy` | one sync run, its push retries and the conflict guard across runs |
| `Replication.dfy` | store, subscriptions, bounded queues, as atomic steps |
| `StateStore.dfy` | the store of repo states, proved to be the protocol's steps |
| `SocketServer.dfy` | the connection and server objects, proved to be those steps |
| `LineReader.dfy` | chunked line reading |
| `EventLog.dfy` | the ring of events and its file |
| `FollowEvents.dfy` | a client that joins history and live stream |
| `IgnoreCache.dfy` | the cache in front of `git check-ignore` |
| `EventFeed.dfy` | the menu bar app's incremental event list and index |
| `RotatingLog.dfy` | the rotating log file |
| `Basics.dfy` | what several components share |

Concurrency is modelled in two ways. Protocols between many goroutines (watchers, replication)
are state machines with one step per locked region or channel operation, and theorems quantify
over all sequences of enabled steps. A single goroutine with a hostile environment (the
scheduler, a sync run) is imperative code in which the environment takes any number of steps
between any two reads of shared state. Outcomes of git, of the file system, of the clock and of
the select statement are arbitrary: they are parameters (`World`, `Answers`, `Faults`), so every
statement holds for all of them and a particular run can be exhibited.

## Where the code does less than one would expect

Each of these is proved: when exactly the property holds, and an input for which it does not.

- Watchers are exclusive per configured path. Per folder they are if every start and restart finds
  no unfinished watcher of the folder under another name; a step keeps one name per folder if and
  only if that holds (`StepKeepsOneName`, `FoldersAreExclusive`). A repo removed under one name and
  added under another while its watcher still runs breaks it (`AliasesMayOverlap`).
- A pause command that looked its watcher up before the repo was removed and writes its state
  after the forget step leaves a state entry for good (`LateCommandOrphansState`); every other
  write is covered, and a command's write is covered exactly when `Considerate` holds.
- A retry armed after a local commit is due later than `holdUntil` by the time the commit took,
  because the wait is measured before it (`Scheduler.Defer`, `RetryIsLate`).
- The conflict guard is skipped when a git query it needs fails, even with the upstream unmoved
  (`SyncRun.Run`: guarded if and only if undisturbed; `GuardIsSkipped`).
- A repo can be left mid-rebase not only when the abort fails but also when looking for the
  rebase directory fails; both are reported as errors unless the watcher was being cancelled
  (`SyncRun.Unwind`: if and only if; `LeftMidRebase`: a run).
- If the remote branch is gone and the tracking branch cannot be looked up, the fetch counts as
  a success, and the run may succeed although HEAD is not what the remote holds. HEAD equals the
  remote at the last contact if and only if this did not happen (`SyncRun.Run`, `BlindRunSucceeds`).
- `pushed` counts commits ahead of the tracking branch. It is what the remote gained if and only
  if remote and tracking branch have equally long histories (`PushedCountIsExact`,
  `PushedCountCanDiffer`).
- A plain rebase flattens merges, so what only a local merge commit holds can be gone after it;
  patches of all other commits are kept (`RebaseKeeps`, `MergeMayVanish`).
- Loading a saved state over an entry that has a conflict does not clear it; the record survives
  the round trip if and only if no such conflict stands in the way (`LoadRestores`,
  `OldConflictStands`).
- A clean restart of the event log loses retained events longer than one line may be, and may
  hand out an id twice (`ReopenRestores`, `ReopenKeepsLastId`: if and only if conditions;
  `SomeEventDoesNotFit`, `RestartCanReissue`: such an event exists for every encoding).
- `Ensure` and loading persisted state do not notify anybody. A subscriber mirrors a repo from its
  first update or the subscriber's own snapshot until the entry is silently set; a silent step
  keeps the mirror if and only if the subscriber happens to hold the new entry already
  (`SilentStepBreaksMirror`, `EnsuredEntryIsNotAnnounced`). A snapshot taken while an update is in
  flight whose entry was removed and made anew is overwritten by that update
  (`StaleSnapshotIsOverwritten`, `StaleIsReached`).
- `followEvents` with a repo named other than as events name it prints the gap but not the live
  events: the gap query resolves the name, the live filter does not (`FollowsExactly`,
  `AliasMissesLiveEvents`, `ForgottenGapIsMissed`).
- A rotation ignores errors from moving a backup, and the next backup then overwrites it. The log
  keeps its end, whatever the files hold, if and only if no file survives that is older than a lost
  one (`SuffixIffIntact`, `MiddleIsLost`).

## Model

| member | source | states |
|---|---|---|
| WatcherProtocol.WatchersAreExclusive | daemon/main.go:217-255 | over every interleaving of start, stop, restart, remove, clean-up, forget and exit, at most one watch function runs per path, and a handle gets past its wait only after every earlier handle of the path is done |
| WatcherProtocol.StepKeepsSafe | daemon/main.go:217-407 | every atomic step keeps the chain invariant: the maps name the youngest handle, each handle waits for its immediate predecessor or has none unfinished |
| WatcherProtocol.RunsKeepSafe | daemon/main.go:217-407 | the invariant holds after any sequence of steps |
| WatcherProtocol.WaitsNeverDeadlock | daemon/main.go:243-254 | the oldest unfinished handle of a path can always take a step, so no chain of waits is stuck |
| WatcherProtocol.OnlyCurrentBegins | daemon/main.go:243-254 | in every run a watch function begins only for the handle that is its path's current watcher, so one that was stopped while it waited never starts |
| WatcherProtocol.NothingBeginsAfterCancelAll | daemon/main.go:409-434 | after the daemon has cancelled everything, no handle that existed then begins any more |
| WatcherProtocol.CurrentBegins | daemon/main.go:243-254 | as long as nobody cancels everything, a current watcher whose turn has come does begin |
| WatcherProtocol.WatchedStaysStored | daemon/main.go:227-234 | a watched path always has an entry in the store |
| WatcherProtocol.AliasesMayOverlap | daemon/main.go:331-377 | two names for one folder: a run after which two watch functions run in it |
| WatcherProtocol.StepKeepsOneName | daemon/main.go:217-255 | for every step: the unfinished handles of each folder carry one name afterwards if and only if a started or restarted path finds no unfinished handle of its folder under another name |
| WatcherProtocol.OneNameExcludes | daemon/main.go:243-254 | one name per folder means at most one watch function running per folder |
| WatcherProtocol.FoldersAreExclusive | daemon/main.go:331-377 | over any run whose starts and restarts find their folders free, at most one watch function runs per folder |
| WatcherProtocol.RunningIsCovered | daemon/main.go:379-389 | a watcher that is still alive has a path that is watched, or a forget pending on the path's youngest handle |
| WatcherProtocol.StepKeepsNoOrphan | daemon/main.go:349-389 | no step but a command's write leaves a state entry with neither a watcher nor a pending forget |
| WatcherProtocol.CommandWriteKeepsNoOrphan | daemon/commands.go:203-220 | a command's write keeps that guarantee if and only if its path is watched, being added, already stored, or due to be forgotten |
| WatcherProtocol.RunsKeepNoOrphan | daemon/main.go:349-389 | the guarantee over any run whose command writes are such |
| WatcherProtocol.RemovedStateIsForgotten | daemon/main.go:349-361 | from the empty daemon, through removals, re-adds and late watcher writes, an entry of an unwatched path has a forget pending for the path's youngest handle |
| WatcherProtocol.LateCommandOrphansState | daemon/commands.go:203-220 | a concrete run in which a late pause command leaves an entry nobody will remove |
| WatcherProtocol.LateWriteIsForgotten | daemon/main.go:379-389 | a run in which a stopped watcher brings its entry back, and the forget takes it away again |
| DaemonWatchers.UniqueRepos | daemon/main.go:170-183 | keeps exactly the first name of every folder: distinct folders, every configured folder covered, nothing invented |
| DaemonWatchers.Daemon.StartWatcherLocked | daemon/main.go:217-255 | the start step: the new handle takes over the stopping channel of the path |
| DaemonWatchers.Daemon.StopWatcherLocked | daemon/main.go:312-329 | the stop step, or nothing when the path has no watcher |
| DaemonWatchers.Daemon.RestartWatcher | daemon/main.go:391-407 | stop and start in one locked region, only if running and watched; keeps the chain invariant |
| DaemonWatchers.Daemon.CleanUpStopping | daemon/main.go:320-327 | removes the stopping channel only if it is still this handle's |
| DaemonWatchers.Daemon.ForgetWhenStopped | daemon/main.go:379-389 | forgets the state and the sync lock only if the path was not started again |
| DaemonWatchers.Daemon.StartWatchers | daemon/main.go:185-200 | watches in addition exactly the first names of the configured folders, keeps existing watchers, and is a run of start steps |
| DaemonWatchers.Daemon.ReconcileWatchers | daemon/main.go:331-377 | afterwards exactly the configured repos are watched, no two of one folder; a kept repo has a new watcher exactly if the environment changed, a dropped repo has a forget for its last watcher, and the whole is a run of protocol steps |
| SyncScheduling.AnyInterferenceIsRely | daemon/commands.go:162-220 | whatever commands, file watcher and clock do in any order, a pending wake-up is never taken back and a lifted pause leaves a kick |
| SyncScheduling.InterferenceLosesNothing | daemon/commands.go:203-220 | no interference makes an unsynced file event unaccounted for |
| SyncScheduling.Scheduler.Interfere | common/watch.go:266-305 | at each moment the others' steps happen, one recorded state per step, and no pending wake-up is taken back |
| SyncScheduling.BackoffClosedForm | common/watch.go:468-491 | repeated capped doubling equals min * 2^k capped at max |
| SyncScheduling.KthFailureDelay | common/watch.go:459-491 | the k-th consecutive failure of one kind holds the repo for min * 2^(k-1), capped |
| SyncScheduling.Scheduler.CheckExists | common/watch.go:307-314 | a missing folder marks the scheduler missing and reports it; otherwise nothing changes |
| SyncScheduling.Scheduler.OnFileEvent | common/watch.go:316-330 | the timer is due a batch window from now, or the lag after the later of now and the end of the cooldown |
| SyncScheduling.Scheduler.ArmRetry | common/watch.go:354-364 | an armed retry is never replaced; a negative delay counts as zero |
| SyncScheduling.Scheduler.Execute | common/watch.go:395-412 | one sync of the asked kind is started unless the watcher is cancelled, the cooldown follows its end, and events that arrived during the run are not lost |
| SyncScheduling.Scheduler.PassGates | common/watch.go:440-448 | passed only by a present folder and with the file timer disarmed, and by a barred repo only if it is the watcher that is cancelled |
| SyncScheduling.Scheduler.FireLocal | common/watch.go:414-436 | one local-only run starts unless paused, missing or cancelled; none starts once the repo is barred: cancelled, paused without a resume to come, or its folder gone for good; hold, backoffs and retry are not touched, and no event is lost |
| SyncScheduling.Scheduler.Settle | common/watch.go:459-491 | hold, backoff and retry after success, offline failure, other failure and a vanished folder |
| SyncScheduling.Scheduler.Fire | common/watch.go:438-491 | one full sync starts unless paused, missing or cancelled, and none once the repo is barred; hold and retry follow from its outcome; no event is lost and the backoffs stay what the history of outcomes calls for |
| SyncScheduling.Scheduler.Defer | common/watch.go:374-385 | while held, a retry gets armed if none was, due at the hold plus the time the local run took |
| SyncScheduling.Scheduler.Request | common/watch.go:374-385 | a full sync if and only if nothing is held; while held, at most a local one, a retry armed, and hold, backoffs and outcomes as they were |
| SyncScheduling.Scheduler.OnImmediate | common/watch.go:280-281 | an explicit request starts one full sync whatever is held, forced if and only if force was asked for, unless paused, missing or cancelled; none while the repo is barred |
| SyncScheduling.Scheduler.TakeRequest | common/watch.go:280-281 | takes the request and clears the force flag, which is returned if and only if it was set by then |
| SyncScheduling.Scheduler.OnTrigger | common/watch.go:282-285 | takes one event off the channel and sets the file timer afresh, unless the folder is missing |
| SyncScheduling.Scheduler.OnFileTimer | common/watch.go:286-292 | where a sync would fail: outside the hold it does and the next hold begins; inside it a retry is armed, due at the hold plus the time since the request |
| SyncScheduling.Scheduler.OnRetryTimer | common/watch.go:293-297 | the same for the retry timer, whose slot is free again |
| SyncScheduling.Scheduler.Select | common/watch.go:276-303 | one round of the loop, whichever ready case is picked, keeps the invariant and extends the logs; a ready request, poll, event or timer is carried out, and nothing starts while the repo is barred; it stops exactly when it takes the cancellation |
| SyncScheduling.Scheduler.Run | common/watch.go:266-305 | any number of rounds keep the invariant, extend the logs, and are all taken unless the folder or the watcher goes; while the repo is barred nothing starts; at the end both timers are stopped |
| SyncScheduling.WatchForChanges | common/watch.go:97-138 | over lost and returned folders the trace holds one state per step of the world up to where the last scheduler ends, which is cancelled or without its folder only if the start or the world made it so, and has else taken every round; in each state an event since the last sync attempt is accounted for, and every unrequested full sync respects the hold |
| SyncScheduling.RetryIsLate | common/watch.go:374-385 | a run of the select loop, three failing syncs and a file event during the third hold, in which the retry is due after the hold has ended |
| WatcherCommands.WatcherHandle.SyncNow | daemon/commands.go:169-185 | refused exactly when paused or missing; else the force flag and the request are set, as the scheduler's environment steps say |
| WatcherCommands.WatcherHandle.SetPaused | daemon/commands.go:203-220 | flag and shown state follow, only a change is announced, and only a lifted pause kicks, as the scheduler's environment steps say |
| WatcherCommands.ForcedRequestIsCarriedOut | daemon/commands.go:169-185 | a forced request that is taken starts a forced full sync, unless paused, missing or cancelled by then |
| GitModel.ReachAntisymmetric | common/autosync.go:184-197 | two commits that are ancestors of each other are the same commit |
| GitModel.RebaseIsPossible | common/rebase.go:54-67 | the rebase contract can be met for every pair of histories |
| GitModel.EvenMeansEqual | common/rebase.go:215-242 | zero ahead of an ancestor means equal |
| GitModel.CountsMeans | common/rebase.go:215-242 | the length of a listing without repeats is the size of the difference of the histories |
| GitModel.PushedCountIsExact | common/autosync.go:126-132 | commits ahead of tracking are what the remote gains if and only if both histories have the same size |
| GitModel.PushedCountCanDiffer | common/autosync.go:126-132 | histories for which `pushed` is not what the remote gained |
| GitModel.KeepsMeans | common/autosync.go:154-182 | keeping work, spelled out as inclusion of patches |
| GitModel.RebaseKeeps | common/rebase.go:54-67 | a finished rebase keeps every patch of a plain commit, except with a fork point those that were upstream |
| GitModel.MergeMayVanish | common/rebase.go:54-67 | a finished rebase after which what a merge commit held is gone |
| SyncRuns.SyncRun.Commit | common/commit.go:36-89 | what is to be committed comes to be one new commit with that patch on the old HEAD, and `committed` says so; a failure changes nothing, no work is lost |
| SyncRuns.SyncRun.Fetch | common/fetch.go:11-31 | the tracking branch becomes the remote's, a rewritten upstream is noticed exactly when the remote does not contain the old tracking branch, a vanished one is an error unless it cannot be looked up; the error tells offline from other failures |
| SyncRuns.SyncRun.RebaseOnto | common/rebase.go:54-96 | a rebase that can finish does, with that result on top of the upstream; one that collides is undone and reported with files and refs; else HEAD is restored or the unfinished rebase reported |
| SyncRuns.SyncRun.Unwind | common/rebase.go:69-96 | a stopped rebase: left in the middle exactly if looking for it or aborting it fails, with the error that says so; else HEAD is restored, and a plain conflict is reported as one with its files and refs |
| SyncRuns.SyncRun.RebaseCommitting | common/autosync.go:163-172 | a dirty worktree is committed and the rebase tried once more |
| SyncRuns.SyncRun.PushOnce | common/push.go:20-27 | accepted exactly if git takes it and the remote is not ahead by then, and then HEAD is the remote; a rejection can be retried, any other failure not |
| SyncRuns.SyncRun.Rebase | common/autosync.go:154-182 | on success HEAD contains the tracking branch, `ahead` counts the commits on top, `pulled` grew by the upstream commits HEAD lacked and `dropped` by what a rewritten upstream took away; an unmoved upstream means no rebase, a moved one that git can replay onto means HEAD is the result; no work is lost |
| SyncRuns.SyncRun.Push | common/push.go:13-43 | at most three attempts, and if the remote stays put the first of them that git takes lands; success means HEAD is the tracking branch as of the last contact, and an accepted push carried exactly `ahead` commits |
| SyncRuns.SyncRun.TryPush | common/push.go:19-42 | one attempt: done when taken, when the failure is final, when nothing is left to push or when the pause is cut short; otherwise the remote has been taken in and the next one is due |
| SyncRuns.SyncRun.ConflictUnchanged | common/autosync.go:184-197 | yes if and only if the queries say that the upstream is the recorded one, HEAD still contains the recorded HEAD, and lacks the upstream |
| SyncRuns.SyncRun.CheckAndIntegrate | common/autosync.go:119-133 | after the fetch: guarded if and only if the conflict is recognised; else an unhindered rebase and push put HEAD, tracking branch and remote in one place, a collision is reported, and a rebase that sticks leaves the clone in the middle |
| SyncRuns.SyncRun.Run | common/autosync.go:112-134 | after a recorded conflict: guarded without rebase or push if and only if undisturbed; success without guard ends with HEAD as the remote of the last contact if and only if that contact was not blind, `pushed` counted at the accepted push; an up-to-date clone is left as it is |
| SyncRuns.SyncRun.Preflight | common/preflight.go:48-89 | passes exactly when no check objects, outside a rebase and on an existing HEAD |
| SyncRuns.SyncRun.Prepare | common/autosync.go:76-91 | on an unborn branch that is configured the first commit is made; nothing else is changed, and nothing during a rebase |
| SyncRuns.SyncRun.Fail | common/autosync.go:271-328 | a conflict is recorded with its refs and announced exactly if new or forced; any other error leaves the recorded conflict alone; the status tells the kind of failure |
| SyncRuns.SyncRun.Conclude | common/autosync.go:62-73 | the last write of a run on success, guard, conflict, other failure and cancellation, over what a command wrote meanwhile |
| SyncRuns.SyncRun.RunLocal | common/autosync.go:93-104 | a local-only run commits what there is and no more, and a parked conflict stays parked |
| SyncRuns.SyncRun.FullRun | common/autosync.go:56-73 | state, events and history after a full run, on every exit |
| SyncRuns.SyncRun.AutoSync | common/autosync.go:33-74 | whatever others do to the remote and commands to the state: no unpublished work disappears on any exit, a repo found mid-rebase is not touched, a local-only run commits and does no more, a cancelled run takes its status back, success means HEAD is the remote as last seen and the conflict is off the record; with nobody in the way what was to be committed is in the remote's history and `pushed` is what it gained; guarded if and only if the conflict is recognised, so once HEAD contains the upstream the guard lets go; a new conflict is recorded so that the next run recognises it if and only if HEAD lacks the upstream, and a parked conflict stays parked |
| SyncRuns.SyncRun.MadeArrives | common/autosync.go:112-134 | the patch just committed is in what HEAD comes to be, with or without a rebase |
| SyncRuns.ParkedRuns | common/autosync.go:119-122 | any sequence of unforced runs, each starting where the one before ended after commits, remote activity, state writes and restarts: while each finds the upstream where it was and its queries answer, no rebase, no push, no conflict event and the same refs, and a full run that does not fail on the way ends at the guard |
| SyncRuns.ConflictThenParked | common/autosync.go:313-328 | the same from the run that records the conflict on, which counts as recorded exactly if its error is a conflict with both refs, it was not cancelled and HEAD lacks the upstream |
| SyncRuns.BlindRunSucceeds | common/fetch.go:21-27 | a run that succeeds although the remote branch is gone |
| SyncRuns.GuardIsSkipped | common/autosync.go:189-192 | a run that rebases a parked conflict again because a query failed |
| SyncRuns.ResolvedConflictIsCleared | common/autosync.go:196 | a run after the user merged the upstream: not guarded, pushed, and the conflict off the record |
| SyncRuns.LeftMidRebase | common/rebase.go:69-72 | a run that leaves the clone in the middle of a rebase because looking for it failed |
| RepoStates.RunsKeepPause | common/repostate.go:122-199 | no write of a run pauses or resumes a repo, and a paused one is not shown as syncing |
| RepoStates.ResumeUndoesPause | common/repostate.go:256-265 | a pause shows, resuming takes it back, and neither touches a recorded conflict |
| RepoStates.LoadRestores | common/repostate_persist.go:96-122 | saving, loading over an entry and saving again gives the same record if and only if the entry has no conflict the record lacks |
| RepoStates.OldConflictStands | common/repostate_persist.go:111-117 | a record that does not survive loading over a repo in conflict |
| RepoStates.MarshalPersisted | common/repostate_persist.go:34-61 | the file lists every entry of the store exactly once |
| RepoStates.LoadPersisted | common/repostate_persist.go:93-123 | the loop over the file equals loading its records one after another, skipping what is not kept |
| RepoStates.RestartRestores | daemon/state.go:13-35 | after a restart exactly the configured repos have entries; what was stored of them is back, a conflict that could be recognised still can be, and the next save writes the same record |
| Replication.StepKeepsSafe | common/socket.go:327-394 | every step of store, server, writers and handlers keeps the replication invariant |
| Replication.RunsKeepSafe | common/socket.go:327-394 | the invariant after any interleaving |
| Replication.StatesArriveInOrder | common/repostate.go:80-100 | on every connection sequence numbers grow strictly and no state is older than any earlier hello |
| Replication.EventsArriveWithoutGap | common/socket.go:327-378 | after a hello with id n a live subscriber was sent exactly n+1 up to the newest event |
| Replication.DroppedStreamHasNoGap | common/socket.go:360-366 | what a connection that is no longer fed was sent has no gap or repeat either |
| Replication.NoSendOnFinishedQueue | common/socket.go:224-231 | in no reachable state does a step send to a connection whose handler has left, and only a send changes what was sent |
| Replication.OverflowDrops | common/socket.go:56-69 | a push appends exactly one frame, or closes the connection and removes it from the subscribers |
| Replication.ClosedIsForGood | common/socket.go:49-69 | over any later run a closed connection receives nothing more and is never subscribed again |
| Replication.FailedWriterIsDropped | common/socket.go:75-95 | once its writer has failed a connection is closed, and the next push drops it |
| Replication.ClosingEndsAll | common/socket.go:405-423 | closing the server closes every connection and leaves no subscriber |
| Replication.NoFrameIsAhead | common/socket.go:368-378 | no connection was ever sent an event or hello beyond the newest event |
| Replication.SubscribersMirrorTheStore | common/repostate.go:80-100 | from a repo's update on, until its entry is silently set again, every open subscriber's view of it equals the store except while its update is in flight |
| Replication.SubscribersMirrorTheirSnapshot | common/socket.go:327-349 | the same for one subscriber from its own snapshot on, for every repo, updated or not |
| Replication.SilentStepBreaksMirror | common/repostate.go:66-72 | a silent step keeps a subscriber in agreement if and only if its view already holds the new entry |
| Replication.LoadKeepsMirror | common/repostate_persist.go:93-122 | loading over a mirrored entry keeps it mirrored if and only if the data is what it was |
| Replication.StaleSnapshotIsOverwritten | common/repostate.go:80-100 | a snapshot taken under an update in flight whose entry was made anew is overwritten by it |
| Replication.StaleIsReached | common/repostate.go:66-100 | update, remove and ensure reach such a state |
| Replication.StepKeepsAnnounced | common/repostate.go:66-78 | only Ensure on a missing entry and loading persisted state can leave a subscriber silently behind |
| Replication.EnsuredEntryIsNotAnnounced | common/repostate.go:66-72 | a concrete run after which a subscriber does not know an entry of the store |
| Replication.OrderedMeans | common/repostate.go:92-98 | the recursive order predicate, read as a statement about any two frames |
| Replication.GapFreeMeans | common/socket.go:368-378 | the recursive gap predicate, read as a statement about ids since the last hello |
| StateStores.RepoStateStore.EnsureEntry | common/repostate.go:66-72 | a missing entry is made, an existing one stays: the protocol's step |
| StateStores.RepoStateStore.Remove | common/repostate.go:74-78 | exactly that entry is gone: the protocol's step |
| StateStores.RepoStateStore.Update | common/repostate.go:80-100 | the entry has the change and the next sequence number, and is to be announced: the protocol's step |
| StateStores.RepoStateStore.UpdateExisting | common/repostate.go:310-330 | the same, or nothing at all if there is no entry |
| StateStores.RepoStateStore.Snapshot | common/repostate.go:112-120 | every entry exactly once |
| SocketServers.SocketConn.Send | common/socket.go:56-69 | never blocks: refuses when closed, appends when there is room, closes when full |
| SocketServers.SocketServer.PushLocked | common/socket.go:360-366 | the loop sends to every subscriber and keeps exactly those that took the frame |
| SocketServers.SocketServer.Emit | common/socket.go:368-378 | the next id is given and pushed in one locked region |
| SocketServers.SocketServer.Subscribe | common/socket.go:327-349 | registered exactly if reply and hello both fit; the connection becomes what the protocol's step makes of it |
| SocketServers.AnsweredIsRegistered | common/socket.go:327-349 | what a subscription makes of a connection is the protocol's step |
| SocketServers.SocketServer.TearDownLocked | common/socket.go:225-230 | out of both sets, the queue still open |
| SocketServers.SocketConn.Finish | common/socket.go:71-73 | closes the queue, only after the handler has left |
| SocketServers.SocketServer.TearDown | common/socket.go:224-231 | both, in that order: out of both sets and finished |
| SocketServers.SocketServer.Close | common/socket.go:405-423 | every connection closed, both sets empty, and a second close does nothing |
| LineReader.SegmentsSplitTheStream | common/socket.go:274-303 | the segments joined by newlines are the stream, and none holds a newline |
| LineReader.LinesClassifySegments | common/socket.go:274-303 | the lines are one result per segment, over-long ones as one error, the unterminated tail only at a clean end |
| LineReader.LinesOfRecord | common/socket.go:274-303 | a newline-terminated record reads back as one line followed by the lines of the rest |
| LineReader.LineOfRecord | common/socket.go:284-301 | byte by byte: over-long exactly above the limit, one trailing CR dropped and only one, everything else unchanged |
| LineReader.Reader.ReadChunks | common/socket.go:277-293 | the chunk loop stops at the first newline or the end, and is over-long exactly if the content exceeds the limit |
| LineReader.Reader.ReadLine | common/socket.go:274-303 | one call returns the next line of the specification and leaves the reader aligned on the following one, for every buffer size |
| LineReader.Reader.ReadAll | common/socket.go:274-303 | repeated reads yield exactly the lines of the stream and then its end |
| EventHistory.KeptIsLastN | common/events.go:234-242 | pushing a whole history leaves its last `capacity` events |
| EventHistory.RingTurns | common/events.go:240-241 | overwriting the oldest slot and moving the start drops the oldest event and appends the new one |
| EventHistory.RingGrows | common/events.go:235-239 | filling the next slot appends the event |
| EventHistory.LoadedIncreases | common/events.go:159-181 | any file, however damaged, loads as strictly increasing ids |
| EventHistory.FileRoundTrip | common/events.go:147-204 | bytes written for a log read back as its events that fit on a line |
| EventHistory.ReopenRestores | common/events.go:129-186 | reopening restores the retained events if and only if each fits on a line |
| EventHistory.ReopenKeepsLastId | common/events.go:147-186 | the id counter survives a reopen if and only if the newest event fits on a line |
| EventHistory.SecondLoadIsStable | common/events.go:129-232 | after loading and compacting any file the log increases, and a second load changes nothing if and only if its events fit |
| EventHistory.SomeCodecIsValid | common/events.go:174-204 | what is asked of an encoding can be met |
| EventHistory.OneByOneMeans | common/events.go:252-253 | from any position past the loaded events ids are counted one by one |
| EventHistory.SomeEventDoesNotFit | common/events.go:159-164 | for every encoding some event does not fit on a line |
| EventHistory.RestartCanReissue | common/events.go:147-186 | for every encoding and capacity a log that loses an event and its id on reopening |
| EventHistory.SelectMembers | common/events.go:281-298 | a selection holds exactly the wanted events |
| EventHistory.SelectIncreases | common/events.go:299-302 | a selection is in ascending id order |
| EventHistory.AnswerFromSuffix | common/events.go:286-298 | the backward scan may stop at the first old id or at the limit |
| EventHistory.EventLog.Push | common/events.go:234-242 | the ring in the array holds the old events and the new one, or drops the oldest |
| EventHistory.EventLog.At | common/events.go:244-246 | the i-th oldest retained event |
| EventHistory.EventLog.Load | common/events.go:147-186 | the history becomes what the file specifies |
| EventHistory.EventLog.Rewrite | common/events.go:188-232 | the file is the encoding of just the retained events |
| EventHistory.EventLog.Append | common/events.go:248-273 | the next id, one more event of a history numbered one by one, at most 2 * capacity lines; ring and file in step as long as writes succeed, again after the next compaction, and no file any more exactly if a due compaction fails |
| EventHistory.EventLog.Since | common/events.go:281-303 | the last `limit` retained events matching id and repo, ascending |
| EventHistory.CleanRestart | common/events.go:129-145 | closing and opening restores the retained events if and only if each fits on a line, and the id counter if and only if the newest does |
| EventFollowing.FollowsExactly | daemon.go:598-654 | every wanted event printed exactly once in order, if and only if none was forgotten before the gap query and the repo is named as events name it |
| EventFollowing.GapPrints | daemon.go:610-625 | the reply cut at the hello's id is what was retained from before the subscription |
| EventFollowing.ExpectedIncreases | daemon.go:598-654 | what is expected holds exactly the wanted events, by growing id |
| EventFollowing.ServerFeedsHistory | common/socket.go:327-378 | in every reachable state of the server, whatever part of its stream a subscriber has read, its events are the history after its subscription |
| EventFollowing.LogIsNumbered | common/events.go:248-253 | a log that appended everything since the subscription numbered it as the stream does |
| EventFollowing.PrintGap | daemon.go:619-623 | prints the reply's events up to the hello's id |
| EventFollowing.PrintLive | daemon.go:634-653 | prints the wanted events of the stream, skipping states and unreadable lines |
| EventFollowing.FollowEvents | daemon.go:598-654 | the two halves together, with the exactness condition |
| EventFollowing.FollowServer | daemon.go:598-654 | from any state of the log and any reachable server to what is printed, with the exactness condition |
| EventFollowing.AliasMissesLiveEvents | daemon.go:649-651 | a follower naming the repo otherwise misses a live event |
| EventFollowing.ForgottenGapIsMissed | daemon.go:610-625 | a follower whose gap was forgotten misses an event |
| IgnoreCache.LoneAnswerIsRight | common/ignore.go:165-168 | a live answer for the path alone is right when no live directory entry is ignored |
| IgnoreCache.RecordKeepsSound | common/ignore.go:183-188 | recording a newer answer keeps every cached path backed by entries at least as fresh for its ignored directories |
| IgnoreCache.AncestorMeans | common/ignore.go:145-148 | the recursion over directories, read as existence of an ignored one |
| IgnoreCache.QueryAnswers | common/ignore.go:182-188 | asking only about what is not cached decides the question |
| IgnoreCache.RepoIgnoreCache.LookUp | common/ignore.go:150-171 | a hit is git's answer; a miss asks about every directory that may be ignored and about nothing that is still cached |
| IgnoreCache.RepoIgnoreCache.Store | common/ignore.go:177-191 | git's answer, the cache invariant kept, nothing evicted while there is room, and the size bounded by eviction |
| IgnoreCache.RepoIgnoreCache.IsIgnored | common/ignore.go:139-192 | whatever expired, was skipped or evicted, the answer is "the path or a directory of it is ignored"; an answer younger than a minute asks git nothing, and without any such answer git is asked once; a failure changes nothing |
| IgnoreCache.RepoIgnoreCache.ShouldIgnoreFile | common/ignore.go:34-55 | which changes are skipped, with a touched .gitignore emptying the cache |
| IgnoreCache.TempNamesAre | common/ignore.go:57-61 | a name is temporary if and only if it has one of the three forms |
| EventFeed.NewestIsUnique | macos/GitAutoSyncMenuBar/Sources/AppState.swift:563-590 | what was ingested determines the list |
| EventFeed.OrderDoesNotMatter | macos/GitAutoSyncMenuBar/Sources/AppState.swift:563-590 | two feeds given the same events in any batches, order and multiplicity show the same list |
| EventFeed.BatchKeepsNewest | macos/GitAutoSyncMenuBar/Sources/AppState.swift:574-588 | merging the fresh events and keeping the last ones gives the newest of everything ever ingested, also when evicted events come again |
| EventFeed.SortSorts | macos/GitAutoSyncMenuBar/Sources/AppState.swift:576-578 | sorting distinct ids gives the same events in ascending order |
| EventFeed.IndexGrows | macos/GitAutoSyncMenuBar/Sources/AppState.swift:593-598 | appending an event to its repo's list keeps the index equal to filtering |
| EventFeed.LastIsNewest | macos/GitAutoSyncMenuBar/Sources/AppState.swift:590 | the last id of the list is the greatest ever ingested |
| EventFeed.Feed.TakeFresh | macos/GitAutoSyncMenuBar/Sources/AppState.swift:564-568 | the events whose id is not in the list, each id once, and their ids added to the set |
| EventFeed.Feed.Trim | macos/GitAutoSyncMenuBar/Sources/AppState.swift:580-588 | the last `maxEvents` events, with the id set following |
| EventFeed.Feed.Ingest | macos/GitAutoSyncMenuBar/Sources/AppState.swift:563-606 | after any batch: list = newest of everything known, ascending; id set = its ids; index = filtering it; last seen = the greater of what it was and the list's last id |
| EventFeed.Feed.ResetEvents | macos/GitAutoSyncMenuBar/Sources/AppState.swift:554-561 | everything empty again |
| EventFeed.Feed.RestoreEvents | macos/GitAutoSyncMenuBar/Sources/AppState.swift:547-552 | the cached events are ingested and the last seen id is the saved one |
| EventFeed.IngestAll | macos/GitAutoSyncMenuBar/Sources/AppState.swift:563-606 | the same over any sequence of batches; a last seen id not behind the list never falls behind it |
| RotatingLog.RotatedLog | common/logging.go:77-84 | whatever fails, the log after moving the slots is the surviving files in their old order |
| RotatingLog.SuffixIffIntact | common/logging.go:77-84 | that is a suffix of the old log, whatever the files hold, if and only if no surviving file is older than a lost one |
| RotatingLog.NoFailureIsIntact | common/logging.go:77-84 | which is so when every backup can be moved, also if the current file cannot |
| RotatingLog.MiddleIsLost | common/logging.go:78-80 | a backup that cannot be moved, and the middle of the log lost |
| RotatingLog.RotatingWriter.MoveBackups | common/logging.go:77-80 | the descending loop, with any of its calls failing: every backup that can moves up by one, also over one that cannot, and no other slot is touched |
| RotatingLog.RotatingWriter.Rotate | common/logging.go:66-85 | an empty current file with the old one as newest backup (dropped when there are no backups); on failure closed; the log is what survives |
| RotatingLog.RotatingWriter.Write | common/logging.go:91-108 | by sizes: a write that fits, or finds an empty file or no limit, is appended and touches no backup; any other moves the slots and begins a new file; the files read oldest to newest stay a suffix of everything ever written as long as every rotation was intact, files begun by a rotation stay within the larger of limit and largest write, and no slot from `maxFiles` on is touched |
| RotatingLog.WriteAll | common/logging.go:91-108 | the same over any sequence of writes, failed and cut short ones included |
| RotatingLog.WriteWhileItFits | common/logging.go:91-108 | while everything fits the current file just grows, and no backup is made, moved or removed |

## Left out

- Git subprocesses, their timeouts and the classification of their messages: outcomes are chosen nondeterministically within contracts.
- JSON, sockets, file descriptors, fsnotify, symlinks, service installation, wake-up and network detection: abstract or environment steps.
- Command line tables, doctor checks and views: only easy properties.
- 64-bit wrap-around of sequence numbers and event ids: unbounded here.
- SyncRuns.SyncRun.Commit: what goes into a commit (temporary files are left out of it) and its message are not modelled; a changed worktree is one patch.
- SyncRuns.SyncRun.Fetch: does not model an upstream in the same repository (remote "."), because nothing is then contacted.
- SyncRuns.SyncRun.Fail: events other than conflict events, notifications and the message texts are not modelled; the conditions for them are one comparison each.
- SyncRuns.SyncRun.AutoSync: the branch information that `finish` writes, and commits the user makes in the middle of a run, are not modelled; between runs they are.
- SyncRuns.SyncRun.FullRun: of the commands that write a repo's state, pause and resume are modelled; the others take the sync lock.
- EventHistory.EventLog.Append: an event whose encoding fails is not modelled, because events are always encodable.
- SyncScheduling.Scheduler.Execute: draining the trigger channel is one step, and the sync lock is not modelled, because it is shared only with aborting a rebase.
- Replication.StepKeepsSafe: the closed check and the put of one send are one step, because a frame put into a connection closed in between is never delivered.
- IgnoreCache.RepoIgnoreCache.IsIgnored: calls for one repo come one after another with a clock that does not go back, as the watcher makes them; overlapping calls are not modelled.
- EventFeed.Feed.Ingest: saving the list and backfill are not modelled; after a failed backfill a live event may already have moved the last seen id past the gap.
- DaemonWatchers.Daemon.ReconcileWatchers: one call at a time; a configuration reload by signal beside a command is not modelled, because it does not take the configuration lock.
- Mutual exclusion of aborting a rebase with syncing while a repo is removed and re-added: the lock entry is deleted on forget.
- Replication.SubscribersMirrorTheStore: restoring persisted state when the daemon starts is an ordinary silent load of the store.
- Exactly-once over the whole events command: its first reply reads events and last id in two steps, so the claim starts at `followEvents`.
