# Verified models of moby and containerd

This project models six parts of the Docker engine 17.05 and of containerd's supervisor that carry state or
arithmetic, and proves what they promise, or exactly when they do.

| part | modules |
|---|---|
| Image deletion: conflicts, untagging, pruning of parents | `ImageStore`, `ImageRequests`, `ImageDeleteProofs`, `ImageDelete` |
| The supervisor's event protocol: subscribers, notifications, replay, the retained log | `EventBus`, `EventBusProofs`, `EventBusBlocking`, `EventOrder`, `EventHub` |
| Its event loop and goroutines: exec sync channels, order of start and exit events | `ExecSync`, `ExecSyncProofs`, `ExecReuse`, `ExecOvertake`, `ExecFate`, `Supervisor` |
| The epoll monitor | `Monitor`, `EpollMonitor` |
| Compression of port ranges | `Ports`, `PortsProofs` |
| The health monitor | `Health`, `HealthProofs`, `HealthChannels`, `HealthOverlap`, `HealthMonitor` |
| Merging of environments | `Env`, `EnvProofs` |
| CPU limits: verification, update, conversion | `Cpu`, `CpuProofs`, `CpuConcurrent` |

Code that changes fields step by step is modelled by classes and loops (`ImageDelete`, `EventHub`, `Supervisor`,
`EpollMonitor`, `Ports`, `HealthMonitor`, `Env`, `Cpu`); each method is proved against a function on values, and
the properties are proved of those functions. Concurrent code has a transition system besides: a step is a region
held under one lock, or one channel operation, and the theorems are about every interleaving. Whole methods are then
shown to be runs of that system when nothing interferes.

## Where the code and its documentation differ

- The comment on `monitor` in daemon/health.go says that there is never more than one monitor thread per container.
  An old one may still be about to report when a new one starts (`HealthOverlap.MonitorsOverlap`; exactly when is
  `HealthOverlap.OneMonitorExactly`). What is guaranteed is that a closed monitor is heard no more
  (`HealthProofs.ClosedForGood`).
- updateHealthMonitor says it is called with the container locked, which the handling of an OOM event does not do. That
  does no harm by itself, because the events and starts of one container are handled one after the other
  (libcontainerd/queue_unix.go). But containerStop calls stopHealthchecks without the lock, at any time, and a stop that
  overlaps another operation on the stop channel can close it twice, which panics. `HealthOverlap.NeverCrashesExactly`
  and `StopsCrashExactly` say exactly when; `HealthChannels` has what holds in every run until then.
- Subscribers need not agree on the order of events, because notifying takes the subscriber lock only for reading
  (`EventBusProofs.SubscribersDisagree`). Which orders are bound to hold is `EventOrder.OrderKeptExactly`.
- containerExecSync is there so that the exit of a container comes after the exits of its execs. An exit that is
  handled after its container's finds no channel and crashes the supervisor (`ExecOvertake.LateExitCanCrash`), and an
  exec that is added while a namesake of an earlier registration still runs can be overtaken
  (`ExecOvertake.OvertakenExactly`). Adding an exec before the worker has made the map panics
  (`ExecOvertake.AddPanicsExactly`).
- The event log holds R - 1 events between a truncation and the append after it, one less than the retain count R.
- Port compression is not always shortest: with the ports 5, 5, 6, 6 it shows three ranges where two would do
  (`PortsProofs.FewestExactly`).
- A container limited by NanoCPUs loses its limit when a quota of -1 is accepted for it, at once and at every later
  start (`CpuProofs.NegativeQuotaLifts`). If the quota came first, the limit holds until the next start.
- An update that fails in the engine restores the configuration but not the restart manager, which keeps the policy
  that was asked for (`CpuProofs.ManagerExactly`). If another update succeeded in between, it is undone
  (`CpuConcurrent.SuccessUndone`).

## Model

| member | source | states |
|---|---|---|
| `ImageDeleteProofs.ConflictChangesNothing` | docker/moby-17.05.0-ce/daemon/image_delete.go:64-180 | A call of ImageDelete that is refused with a conflict has removed no image and no reference and reported nothing, for any stores, reference, force and prune. |
| `ImageDeleteProofs.ConflictExactly` | docker/moby-17.05.0-ce/daemon/image_delete.go:64-156 | A call whose text resolves to an image is refused with a conflict if and only if: when the text is the beginning of the ID, or of what follows its first colon, the image has children or a running container, or without force a stopped container or references that are not all in one repository with one tag; with any other text, without force, the image has a single reference and any container uses it. |
| `ImageDeleteProofs.ConflictNamed` | docker/moby-17.05.0-ce/daemon/image_delete.go:358-406 | Which conflict refuses a call by ID: a child, else a running container, else several references, else a stopped container; the first two are hard. |
| `ImageRequests.ResolvesExactly` | docker/moby-17.05.0-ce/daemon/image.go:27-68 | The image a request resolves to: a digest if stored; else the stored reference of that name, with "latest" for no tag and a digest before a tag; else the image found for the tag if it has a reference of that repository; else the one found for the text; and none exactly when all fail. |
| `ImageRequests.NamesExactly` | docker/moby-17.05.0-ce/daemon/image_delete.go:207-219 | A text counts as an ID if and only if it is a beginning of the ID or of what follows the first colon in it. |
| `ImageDeleteProofs.CallAnswers` | docker/moby-17.05.0-ce/daemon/image_delete.go:64-180 | What a call answers for any request: no such image exactly when the text resolves to nothing; by ID success exactly when nothing holds the image; by name the conflict, else an invalid or unknown reference, else success. |
| `ImageDeleteProofs.ShortIDDeletes` | docker/moby-17.05.0-ce/daemon/image_delete.go:64-180 | A short ID, with or without the algorithm, that names no stored reference deletes the image it is found for, and all its references, when nothing holds the image. |
| `ImageDeleteProofs.QuietIsSilent` | docker/moby-17.05.0-ce/daemon/image_delete.go:306-316 | A quiet deletion never returns a conflict: whatever kind of conflict is found makes the image used or not dangling. Untagging by name can therefore not be followed by a conflict. |
| `ImageDeleteProofs.LoudConflict` | docker/moby-17.05.0-ce/daemon/image_delete.go:299-350 | A loud deletion returns a conflict exactly when its own first check finds one; pruning never adds one. |
| `ImageDeleteProofs.ByIDConflict` | docker/moby-17.05.0-ce/daemon/image_delete.go:146-175 | By ID, the check made before untagging is exactly the check that decides afterwards, so no conflict follows an untag. |
| `ImageDeleteProofs.ByNameConflict` | docker/moby-17.05.0-ce/daemon/image_delete.go:76-145 | By name, a conflict is returned only before anything was untagged. |
| `ImageDeleteProofs.CallKeepsValid` | docker/moby-17.05.0-ce/daemon/image_delete.go:64-180 | One call on closed stores keeps them closed (references, recorded parents and images of running containers are stored), and a call that returns any error has changed nothing. |
| `ImageDeleteProofs.RunKeepsValid` | docker/moby-17.05.0-ce/daemon/image_delete.go:318-349 | Over any sequence of calls, every reference resolves to a stored image, every recorded parent is stored and the image of every running container is stored. |
| `ImageDeleteProofs.DeleteImageKeepsValid` | docker/moby-17.05.0-ce/daemon/image_delete.go:299-350 | The recursion keeps the stores closed and on closed stores never meets an unknown image. |
| `ImageDeleteProofs.PruneExact` | docker/moby-17.05.0-ce/daemon/image_delete.go:340-350 | A pruning deletion that removes anything removes exactly the prune chain of the image: the longest unbroken chain of ancestors each of which has no other child, no reference and no container, as seen in the stores before the call. The head has no child and no running container even when forced. |
| `ImageDeleteProofs.PruneChainUnique` | docker/moby-17.05.0-ce/daemon/image_delete.go:340-350 | An image has only one prune chain, so PruneExact determines the result. |
| `ImageDeleteProofs.PruneChainDistinct` | docker/moby-17.05.0-ce/daemon/image_delete.go:340-350 | No image occurs twice in a prune chain. |
| `ImageDeleteProofs.RemovalReport` | docker/moby-17.05.0-ce/daemon/image_delete.go:324-341 | The records of a deletion list exactly what was removed, each image once, and it removes something exactly when its check finds no conflict. |
| `ImageDeleteProofs.UntagStep` | docker/moby-17.05.0-ce/daemon/image_delete.go:97-138 | What untagging a name takes: the reference itself and, when no tag of its repository is left on the image, the digest references of that repository. |
| `ImageDeleteProofs.ByNameReport` | docker/moby-17.05.0-ce/daemon/image_delete.go:92-145 | A successful call by name reports exactly the references that went, and deletes the image if and only if no reference is left and neither a child nor a container (a stopped one only without force) holds it. |
| `ImageDeleteProofs.ByIDReport` | docker/moby-17.05.0-ce/daemon/image_delete.go:146-175 | A successful call by ID always deletes the image, and reports exactly what went. |
| `ImageDeleteProofs.CallRemovesExactly` | docker/moby-17.05.0-ce/daemon/image_delete.go:64-180 | What a successful call removes and reports, in terms of the texts and the stores before it: by ID the image always goes; by name the named reference goes, with the digest references of its repository if it was the last tag there, and the image if and only if that leaves no reference and neither a child nor a container (a stopped one only without force) holds it. |
| `ImageDelete.IsSingleReference` | docker/moby-17.05.0-ce/daemon/image_delete.go:184-205 | The loop returns true if and only if the list is nonempty, all references are of one repository and at most one is not a digest. |
| `ImageDelete.SingleReferenceOfList` | docker/moby-17.05.0-ce/daemon/image_delete.go:184-205 | That answer depends on the set of references only, not on the order in which the store lists them. |
| `ImageDelete.PruningUntagsNothing` | docker/moby-17.05.0-ce/daemon/image_delete.go:344-349 | Pruning removes no reference. |
| `ImageDelete.Daemon.RemoveAllReferencesToImageID` | docker/moby-17.05.0-ce/daemon/image_delete.go:250-266 | Removes all references of an image and appends one record for each. |
| `ImageDelete.Daemon.RemoveImageRef` | docker/moby-17.05.0-ce/daemon/image_delete.go:234-243 | Resolves the default tag and removes that one reference, or fails and changes nothing. |
| `ImageDelete.Daemon.ImageDeleteHelper` | docker/moby-17.05.0-ce/daemon/image_delete.go:299-350 | The method leaves the stores, error and appended records of the specification. |
| `ImageDelete.Daemon.UntagReference` | docker/moby-17.05.0-ce/daemon/image_delete.go:97-138 | Untags a reference, with the digest references when it was the last tag, and reports them. |
| `ImageDelete.Daemon.DeleteByReference` | docker/moby-17.05.0-ce/daemon/image_delete.go:76-145 | The branch for a name does what the specification of a call by name says. |
| `ImageDelete.Daemon.DeleteByIdentifier` | docker/moby-17.05.0-ce/daemon/image_delete.go:146-175 | The branch for an ID does what the specification of a call by ID says. |
| `ImageDelete.Daemon.ImageDelete` | docker/moby-17.05.0-ce/daemon/image_delete.go:64-180 | The whole call leaves exactly the stores, records and error of the specification. |
| `EventBusProofs.ChannelSafety` | containerd/supervisor/supervisor.go:263-317 | In every reachable state no send meets a closed channel, a channel is closed only while it is open (the deferred Unsubscribe of a storedOnly channel does nothing), closed streams stay as they are, and the counter equals the number of subscribers. |
| `EventBusProofs.MissedOnlyWhenFull` | containerd/supervisor/supervisor.go:305-317 | A subscriber misses an event only at a send that finds 2048 events waiting in its queue. |
| `EventBusProofs.StreamContents` | containerd/supervisor/supervisor.go:263-317 | A stream is a replay of older events followed by live ones, holds nothing twice, and its live part holds exactly the events notified during the subscription, less those dropped and those still being sent. |
| `EventBusProofs.ReplayContents` | containerd/supervisor/supervisor.go:263-290 | An entry is in the stream of a new subscriber if and only if it is in the log, a start time was given, its event is newer than that, and the id asked for is empty or that of the event. The entries come in log order and all wait in the queue; the channel is closed if only stored events were asked for, and subscribed otherwise. |
| `EventBusProofs.SubscribeBlocksExactly` | containerd/supervisor/supervisor.go:263-290 | Events blocks if and only if a start time was given and more than 2048 logged events are newer than that and of the container asked for. |
| `EventOrder.OrderKeptExactly` | containerd/supervisor/supervisor.go:305-317 | Once two notifications have begun, every continuation keeps the one event before the other in a subscriber's live stream if and only if the stream has them so now and the first can no longer be sent after the second, that is, it is not still to be offered while the second is too or was already delivered. A full queue does not matter. |
| `EventOrder.OrderFromBegin` | containerd/supervisor/supervisor.go:305-317 | At the moment a notification begins, a subscriber is bound to see an earlier event first if and only if that one need no longer be offered to it. |
| `EventOrder.HistoryKeptExactly` | containerd/supervisor/supervisor.go:305-317 | The live stream of a subscriber follows the history in every continuation if and only if it does so now and no two events begun can still be sent in the wrong order. |
| `EventOrder.SerialHistory` | containerd/supervisor/supervisor.go:305-317 | When no notifications have overlapped, every live stream follows the history in every continuation. |
| `EventOrder.NoOverlapInOrder` | containerd/supervisor/supervisor.go:305-317 | So events whose notifications did not overlap are always seen in their order. |
| `EventBusProofs.SubscribersDisagree` | containerd/supervisor/supervisor.go:305-317 | Because notifying takes the lock for reading only, there is a run in which two subscribers see two events in opposite orders. |
| `EventBusProofs.LogBounds` | containerd/supervisor/supervisor.go:81-132 | With a retain count R the log is a contiguous suffix of all that was logged, holds at least min(total, R) events between rounds (R - 1 between truncating and appending), at most max(n0, 2R), and the journal is a suffix of it, equal after the first truncation. |
| `EventBusProofs.UnboundedLog` | containerd/supervisor/supervisor.go:92-128 | Without a retain count the log is the whole history. |
| `EventBusProofs.WedgedForever` | containerd/supervisor/supervisor.go:263-289 | A replay that fills its queue blocks under the write lock; after that, in any continuation, no subscription changes, nothing is notified and no subscriber is sent anything any more. |
| `EventBusBlocking.NeverWedgesExactly` | containerd/supervisor/supervisor.go:263-289 | If the journal read at startup fits a queue of 2048, no run blocks a replay if and only if the retain count is between 1 and 1024. |
| `EventBusBlocking.CanWedge` | containerd/supervisor/supervisor.go:81-132 | For any other retain count there is a run from an empty journal that does. |
| `EventHub.Hub.constructor` | containerd/supervisor/supervisor.go:23-79 | The initial fields are the initial state of the event bus. |
| `EventHub.Hub.SendPast` | containerd/supervisor/supervisor.go:269-283 | The replay loop puts exactly the replayed entries into the queue, unless more than 2048 match. |
| `EventHub.Hub.Events` | containerd/supervisor/supervisor.go:263-290 | Events makes the subscription step of the event bus. |
| `EventHub.Hub.Unsubscribe` | containerd/supervisor/supervisor.go:293-301 | Unsubscribe makes its step of the event bus. |
| `EventHub.Hub.OfferAll` | containerd/supervisor/supervisor.go:308-316 | The loop over the subscribers, in any order, offers the event to each exactly once and touches no other channel. |
| `EventHub.Hub.NotifySubscribers` | containerd/supervisor/supervisor.go:305-317 | A notification without interference has the effect of all its sends. |
| `EventHub.NotifyAllReach` | containerd/supervisor/supervisor.go:305-317 | That effect is a run of the event bus. |
| `EventHub.NotifiedExactly` | containerd/supervisor/supervisor.go:305-317 | After it each subscriber with fewer than 2048 events waiting has the event as its newest, each other one has missed it, and no other channel has changed. |
| `EventHub.Hub.TruncateLog` | containerd/supervisor/supervisor.go:95-120 | Truncating keeps the newest R - 1 events and rewrites the journal with them. |
| `EventHub.Hub.LogEvent` | containerd/supervisor/supervisor.go:91-129 | One round of the event logger is its receive, truncate and append steps. |
| `EventHub.LogRoundExactly` | containerd/supervisor/supervisor.go:91-129 | A round takes the oldest event waiting and appends it to log and journal; when the counter is above the retain count R, only the newest R - 1 events are kept before and the counter restarts at one. |
| `EventHub.Hub.EventLogger` | containerd/supervisor/supervisor.go:81-132 | The loop performs rounds until its channel is empty. |
| `EventHub.LogAllReach` | containerd/supervisor/supervisor.go:81-132 | Those rounds are a run of the event bus that logs every event offered to the logger, in order. |
| `ExecSyncProofs.InitExitAfterExecExits` | containerd/supervisor/delete.go:22-53 | In every interleaving the exit of a container is notified only after the notification of the exit of each exec whose channel delete took from the map, unless another exec had taken that very channel, and every subscriber sees them in that order. |
| `ExecOvertake.OvertakenExactly` | containerd/supervisor/delete.go:22-53 | At the moment an exec is added: there is a continuation in which the exit of its container is notified before its own, although delete took its channel, if and only if an exec of the same ids, of an earlier registration, still runs (and the event bus is not blocked for good). |
| `ExecReuse.NotOvertaken` | containerd/supervisor/delete.go:22-53 | An exec that is added while no such namesake runs is never overtaken, in any continuation. |
| `ExecOvertake.CanBeOvertaken` | containerd/supervisor/exit.go:76-99 | With such a namesake: its exit takes the channel of the new exec, every other exec of the container exits, and the exit of the container is notified while the new exec runs on. |
| `ExecOvertake.ReuseBreaksOrder` | containerd/supervisor/exit.go:76-99 | Such a state is reachable: a container is registered again while an exec of its previous registration runs. |
| `ExecReuse.FoundOther` | containerd/supervisor/exit.go:82-82 | An exit that does not find its own channel in the map finds none, or that of a newer exec of a different registration. |
| `ExecSyncProofs.OneExitPerRegistration` | containerd/supervisor/delete.go:24-49 | Each registration of a container id has at most one init exit notification. |
| `ExecSyncProofs.StartBeforeExit` | containerd/supervisor/add_process.go:47-52 | The start of an exec is notified, completely, before its exit, every subscriber sees them in that order, and each is notified at most once. |
| `ExecSyncProofs.RollbackLeavesNothing` | containerd/supervisor/add_process.go:36-43 | A failed monitor registration leaves no sync channel in the map or with a waiting goroutine, and neither event was or ever will be notified. |
| `ExecFate.WaitedForExactly` | containerd/supervisor/delete.go:33-39 | The exit of a container waits for an exec if and only if, since the exec was added, its channel was never taken out of the map: its id was not added again, its map not made anew or taken, and no exec of its id rolled back. |
| `ExecFate.FateAtDispatch` | containerd/supervisor/exit.go:82-99 | When an exit is handled, its goroutine crashes the supervisor in every continuation in which it comes to its close if and only if it finds no channel in the map, or one that is closed already (while the bus is not blocked for good). |
| `ExecSyncProofs.CloseSafeExactly` | containerd/supervisor/exit.go:82-99 | When an exit goroutine comes to its close, the close is safe if and only if it found a channel in the map and no other goroutine that found the same one has closed it; otherwise the supervisor is gone for good. |
| `ExecOvertake.AddPanicsExactly` | containerd/supervisor/worker.go:45-112 | After any run, adding an exec panics if and only if no worker has made the map of its container since the exit of a container of that id was last handled. |
| `ExecOvertake.LateExitCanCrash` | containerd/supervisor/exit.go:76-99 | There is a run that does: the exit of the container is handled before the exit of one of its execs. |
| `ExecSyncProofs.ArisesInv` | containerd/supervisor/supervisor.go:319-341 | Every run of the loop, the workers and the goroutines keeps the protocol invariant and is, on the event bus, a run of the event bus. |
| `Supervisor.EventLoop.Start` | containerd/supervisor/create.go:30-76 | A start task registers the container under its id and leaves the rest to a worker. |
| `Supervisor.EventLoop.WorkerStarted` | containerd/supervisor/worker.go:104-106 | Once the container runs, the worker gives it an empty sync map. |
| `Supervisor.EventLoop.AddProcess` | containerd/supervisor/add_process.go:26-53 | The handler fails without a trace for an unknown container or process. A process the monitor refuses answers MonitorFailed and leaves no channel and no event; one it accepts answers no error, has its new channel in the map, and its start is the one new event. Without a map for the container it panics. |
| `Supervisor.AddedExactly` | containerd/supervisor/add_process.go:26-53 | The same of the effect on the whole protocol, with what stays as it was: every other channel and exec, the containers, and on refusal all of the event bus. |
| `Supervisor.AddedArises` | containerd/supervisor/add_process.go:26-53 | That effect is a run of the protocol. |
| `Supervisor.EventLoop.ExecExit` | containerd/supervisor/exit.go:76-82 | Handling the exit of an exec looks up its channel in the map, nil if there is none, and changes nothing else. |
| `Supervisor.EventLoop.ExecExited` | containerd/supervisor/exit.go:83-99 | The exit of the exec is the one event its goroutine sends; then the channel it was given is closed, or, if that is nil or closed already, the supervisor panics. |
| `Supervisor.ExitedExactly` | containerd/supervisor/exit.go:83-99 | The same of the effect on the whole protocol: nothing else of it changes. |
| `Supervisor.ExitedArises` | containerd/supervisor/exit.go:83-99 | That effect is a run of the protocol. |
| `Supervisor.EventLoop.Delete` | containerd/supervisor/delete.go:22-35 | Delete forgets the container and, unless no event is wanted, takes its whole sync map, whose channels its goroutine then waits for; for an unknown container it does nothing. |
| `Supervisor.DeletedExactly` | containerd/supervisor/delete.go:22-35 | The goroutine waits for the channels in the map of that container and for no others; every other container and map stays. |
| `Supervisor.EventLoop.Deleted` | containerd/supervisor/delete.go:35-48 | The exit of the container, with the init process, is the one event its goroutine sends. |
| `Supervisor.InitExitedExactly` | containerd/supervisor/delete.go:35-48 | The same of the effect on the whole protocol: nothing else of it changes. |
| `Supervisor.InitExitedArises` | containerd/supervisor/delete.go:35-48 | That effect, once all channels it waits for are closed, is a run of the protocol. |
| `Supervisor.EventLoop.ExitOfProcess` | containerd/supervisor/exit.go:17-65 | The exit of an exec goes to execExit, that of the init process to delete. |
| `Supervisor.EventLoop.NewExecSyncChannel` | containerd/supervisor/supervisor.go:492-496 | Adds a fresh channel, or panics when the container has no map. |
| `Supervisor.EventLoop.DeleteExecSyncChannel` | containerd/supervisor/supervisor.go:498-502 | Removes one channel from one map. |
| `Supervisor.EventLoop.GetExecSyncChannel` | containerd/supervisor/supervisor.go:504-509 | Finds the channel of an exec, or nil. |
| `Supervisor.EventLoop.GetDeleteExecSyncMap` | containerd/supervisor/supervisor.go:511-517 | Takes all channels of a container and forgets its map. |
| `Monitor.ReceiversMirrorEpoll` | containerd/supervisor/monitor_linux.go:53-138 | In every run the receivers map has exactly the descriptors of the epoll set, the counter equals its size, and no receiver is in it twice. |
| `Monitor.ReportedOnce` | containerd/supervisor/monitor_linux.go:100-119 | A process is put on exits at most once, and only once it is closed and no longer a receiver. |
| `Monitor.ClosedForGood` | containerd/supervisor/monitor_linux.go:100-119 | A closed process stays closed and cannot be monitored again. |
| `Monitor.ClosedOnlyOnHup` | containerd/supervisor/monitor_linux.go:101-118 | A process is closed only by the hangup of its own descriptor, and its exit is then sent next. |
| `Monitor.NeverSendsLocked` | containerd/supervisor/monitor_linux.go:114-138 | The mutex is never held at a channel send, so registering succeeds while a send is blocked. |
| `Monitor.WatchSucceeds` | containerd/supervisor/monitor_linux.go:53-88 | Registering makes a receiver watched if and only if its file is open, and changes nothing if and only if it is closed or already watched. |
| `Monitor.EventReported` | containerd/supervisor/monitor_linux.go:96-138 | Whatever else happens from the taking of the mutex for an event until the goroutine is done with it: the hangup of a watched process has it closed, no longer watched and sent as the one exit; an event of a watched OOM listener whose cgroup exists throughout has its container id sent, as the one id, and the listener stays watched; one whose cgroup was gone is closed and no longer watched; any other event sends nothing and leaves its receiver watched. |
| `EpollMonitor.EpollMonitor.Watch` | containerd/supervisor/monitor_linux.go:53-88 | The registration makes its step of the monitor. |
| `EpollMonitor.EpollMonitor.ProcessEvent` | containerd/supervisor/monitor_linux.go:96-138 | Handling an event has the effect of the locked region and returns the send that is deferred: the exit of a watched process that hung up, which is then closed and no longer watched; the container id of a listener whose cgroup exists; nothing otherwise. |
| `EpollMonitor.HandledReach` | containerd/supervisor/monitor_linux.go:96-138 | That effect is a run of the monitor. |
| `EpollMonitor.HandledExactly` | containerd/supervisor/monitor_linux.go:96-138 | What the locked part does in each case of descriptor, event and listener, and what it leaves to be sent. |
| `EpollMonitor.EpollMonitor.SendDeferred` | containerd/supervisor/monitor_linux.go:115-132 | The deferred send makes its step of the monitor, without the mutex. |
| `Ports.DisplayablePorts` | docker/moby-17.05.0-ce/api/common.go:55-97 | The loops leave the array sorted and return the items and the text of the specification. |
| `PortsProofs.SortCorrect` | docker/moby-17.05.0-ce/api/common.go:33-50 | Sorting gives a sorted permutation. |
| `PortsProofs.SortIsUnique` | docker/moby-17.05.0-ce/api/common.go:33-50 | A list has only one sorted permutation, so the result does not depend on the sorting algorithm. |
| `PortsProofs.NoFalseMerge` | docker/moby-17.05.0-ce/api/common.go:84-84 | As ports ascend, the uint16 sum group.last + 1 never wraps into a match. |
| `PortsProofs.Lossless` | docker/moby-17.05.0-ce/api/common.go:55-97 | Expanding all that is displayed gives exactly the numbers per key and the host mappings of the input, duplicates included. |
| `PortsProofs.EntriesKept` | docker/moby-17.05.0-ce/api/common.go:55-118 | For addresses and types without a slash, every entry of the input (with its host port if it has an address) is displayed as often as it occurs, and nothing else is. |
| `PortsProofs.ReadBack` | docker/moby-17.05.0-ce/api/common.go:99-118 | Splitting the group key again recovers address and type if and only if neither has a slash (host mappings are never split). |
| `PortsProofs.SlashConfuses` | docker/moby-17.05.0-ce/api/common.go:71-105 | With a slash in the type it does not, and two different ports share a group. |
| `PortsProofs.RangeText` | docker/moby-17.05.0-ce/api/common.go:99-118 | The text of a range names the address on the left, the numbers on both sides and the type. |
| `PortsProofs.PortText` | docker/moby-17.05.0-ce/api/common.go:66-118 | A port that is shown alone reads address:host port->container port/type, or container port/type without an address. |
| `PortsProofs.JoinMore` | docker/moby-17.05.0-ce/api/common.go:96-96 | The texts are separated by a comma and a space. |
| `PortsProofs.ItoaExactly` | docker/moby-17.05.0-ce/api/common.go:106-111 | Numbers are printed in decimal digits that denote them, without leading zeros. |
| `PortsProofs.MappingsInOrder` | docker/moby-17.05.0-ce/api/common.go:25-96 | Host mappings are displayed after all ranges, ordered by container port, address, host port and type. |
| `PortsProofs.RangesInOrder` | docker/moby-17.05.0-ce/api/common.go:76-95 | The ranges of one key are displayed in ascending order, duplicates or not. |
| `PortsProofs.StringLessExactly` | docker/moby-17.05.0-ce/api/common.go:25-39 | Strings are compared at the first place where they differ, an ended string being less. |
| `PortsProofs.FewestExactly` | docker/moby-17.05.0-ce/api/common.go:76-94 | No list of ranges and mappings that shows the same is shorter, if and only if no two successive ports of one key both occur more than once. |
| `PortsProofs.NotAlwaysFewest` | docker/moby-17.05.0-ce/api/common.go:84-94 | Four ports of one key for which a shorter display exists. |
| `PortsProofs.RangesApart` | docker/moby-17.05.0-ce/api/common.go:76-94 | When no port of a key repeats, the ranges of the key are disjoint and not adjacent. |
| `PortsProofs.DisplayedStarts` | docker/moby-17.05.0-ce/api/common.go:76-94 | Each number starts as many ranges as it occurs, less one if its predecessor occurs. |
| `PortsProofs.Balance` | docker/moby-17.05.0-ce/api/common.go:55-97 | In any list of ranges, those ending at n - 1 and those starting at n differ by the difference of the occurrences of n - 1 and n. |
| `HealthChannels.OneOpenChannel` | docker/moby-17.05.0-ce/container/health.go:32-49 | In every run until the daemon crashes, however many stops overlap, a channel is open if and only if it is the one stored and no call has just closed that, so at most one is open. |
| `HealthOverlap.NeverCrashesExactly` | docker/moby-17.05.0-ce/container/health.go:32-49 | No run with at most n operations on the stop channel at a time closes it twice, or when it is nil, if and only if n is at most 1. |
| `HealthOverlap.StopsCrashExactly` | docker/moby-17.05.0-ce/daemon/stop.go:45-50 | From any state in which nothing is under way, calls of containerStop, which does not hold the container lock, can close a channel twice if and only if the container runs and a channel is stored. |
| `HealthOverlap.CloseSafeExactly` | docker/moby-17.05.0-ce/container/health.go:42-49 | A call, of containerStop or for an event, that found an open channel stored closes safely, whatever ran since its test, if and only if no other call closed or cleared the stored channel in between without a new one being made and stored after that. |
| `HealthChannels.OnlyOwnerApplies` | docker/moby-17.05.0-ce/daemon/health.go:132-141 | In every run, however many stops overlap, a probe result passes its test exactly when it comes from the monitor of the stored channel and no call has just closed that; otherwise it is dropped and nothing changes. |
| `HealthProofs.ClosedForGood` | docker/moby-17.05.0-ce/daemon/health.go:132-141 | In every continuation, after its channel is closed a monitor applies no result any more, even while its goroutine lives, but for one that was past its test when the channel was closed. |
| `HealthChannels.MonitorsInTurn` | docker/moby-17.05.0-ce/daemon/health.go:132-141 | In every run, however many stops overlap, no two monitors share a channel and results of different monitors never interleave. |
| `HealthOverlap.SecondMonitorExactly` | docker/moby-17.05.0-ce/daemon/health.go:191-247 | At the moment a channel is to be made, with never more than one monitor goroutine so far, the monitor started with it is a second one if and only if the monitor before it has not returned. |
| `HealthOverlap.OneMonitorExactly` | docker/moby-17.05.0-ce/daemon/health.go:191-247 | A run never has more than one monitor goroutine if and only if no step of it starts one while an older one has not returned. |
| `HealthOverlap.MonitorsOverlap` | docker/moby-17.05.0-ce/daemon/health.go:191-247 | That can happen without any overlap of operations: the older monitor is about to report when the newer one starts. |
| `HealthProofs.StatusExactly` | docker/moby-17.05.0-ce/daemon/health.go:132-189 | In every run, with or without the lock, with the results since the last initialisation and `retries` as configured or 3: starting iff there was no success and fewer than `retries` failures of probes that began outside the start period; healthy iff there was a success and fewer than `retries` failures since the last; unhealthy iff the streak is at least `retries`. The streak is the failures since the last success, or the counted ones before any. The log is the last five results of all. |
| `HealthProofs.WriteExactly` | docker/moby-17.05.0-ce/daemon/health.go:143-184 | A failing result leaves status and streak alone if and only if the container is starting and the probe began less than the start period after the start of the container; any other adds one to the streak and makes the container unhealthy if that reaches `retries`. A success makes it healthy with streak 0. |
| `HealthProofs.LateMeans` | docker/moby-17.05.0-ce/daemon/health.go:161-173 | The failures outside the start period are those of probes that began the start period or more after the start of the container. |
| `HealthProofs.TrailingMeans` | docker/moby-17.05.0-ce/daemon/health.go:157-184 | The streak after a success is at least n exactly when the last n results are failures. |
| `HealthProofs.CountedMeans` | docker/moby-17.05.0-ce/daemon/health.go:161-184 | Before any success the counted failures are those outside the start period until there are `retries` of them. |
| `HealthMonitor.HealthState.OpenMonitorChannel` | docker/moby-17.05.0-ce/container/health.go:32-39 | Makes and stores a fresh open channel, or returns nil if there is one. |
| `HealthMonitor.HealthState.CloseMonitorChannel` | docker/moby-17.05.0-ce/container/health.go:42-49 | Closes and forgets the stored channel; panics exactly when that is closed already. |
| `HealthMonitor.HealthState.Record` | docker/moby-17.05.0-ce/daemon/health.go:143-184 | Applies one result to log, streak and status; a failure leaves both alone if and only if the container is starting and the probe began within the start period. |
| `HealthMonitor.MonitoredContainer.HandleProbeResult` | docker/moby-17.05.0-ce/daemon/health.go:132-189 | Discards the result if the channel is closed and applies it as `Record` does if not; logs an event exactly when the status changed. |
| `HealthOverlap.HandleIsRun` | docker/moby-17.05.0-ce/daemon/health.go:132-189 | That effect is a run of its test and its writes with nothing in between. |
| `HealthMonitor.MonitoredContainer.UpdateHealthMonitor` | docker/moby-17.05.0-ce/daemon/health.go:273-288 | Has the effect of the whole operation, and starts a monitor exactly when a channel was opened. |
| `HealthOverlap.UpdateIsRun` | docker/moby-17.05.0-ce/daemon/health.go:273-288 | That effect is a run of its steps with nothing in between. |
| `HealthProofs.UpdateExactly` | docker/moby-17.05.0-ce/daemon/health.go:253-288 | After an update a monitor channel is stored if and only if the container runs unpaused and its test starts with CMD or CMD-SHELL; otherwise the stored one is closed. |
| `HealthMonitor.MonitoredContainer.InitHealthMonitor` | docker/moby-17.05.0-ce/daemon/health.go:294-313 | Stops an old monitor, resets status and streak but not the log, and starts a new one. |
| `HealthOverlap.InitIsRun` | docker/moby-17.05.0-ce/daemon/health.go:294-313 | That effect is a run of its steps with nothing in between. |
| `HealthProofs.InitExactly` | docker/moby-17.05.0-ce/daemon/health.go:294-313 | Initialising a container with such a test starts over as starting with streak 0 and the log it had, closes the old channel, and stores a new one if the container runs unpaused; without one it does nothing. |
| `HealthMonitor.MonitoredContainer.StopHealthchecks` | docker/moby-17.05.0-ce/daemon/health.go:317-322 | Closes and forgets the stop channel, if there is one. |
| `HealthOverlap.StopIsRun` | docker/moby-17.05.0-ce/daemon/health.go:317-322 | That effect is a run of its steps with nothing in between. |
| `HealthMonitor.LimitedBuffer.Write` | docker/moby-17.05.0-ce/daemon/health.go:332-346 | After any writes the buffer holds the first 4096 bytes of all that was written, and is truncated iff there were more; the whole length is returned. |
| `HealthMonitor.LimitedBuffer.Output` | docker/moby-17.05.0-ce/daemon/health.go:349-358 | The output ends in three dots exactly when something was lost. |
| `Env.ReplaceOrAppendEnvValues` | docker/moby-17.05.0-ce/container/env.go:11-45 | The three loops return the closed form: the defaults with the last override of each name in its last default, then all assignments to other names, without empty entries. |
| `Env.RemoveEmpty` | docker/moby-17.05.0-ce/container/env.go:37-42 | The deleting loop terminates and removes exactly the empty entries. |
| `Env.UnprunedStep` | docker/moby-17.05.0-ce/container/env.go:18-34 | One override changes the slot of its name, appends, or does nothing. |
| `Env.KeyExactly` | docker/moby-17.05.0-ce/container/env.go:14-30 | The name of a setting is what comes before its first equals sign, whatever follows; a setting without one is a name. |
| `EnvProofs.OfMerge` | docker/moby-17.05.0-ce/container/env.go:11-45 | All settings of one variable in the result. |
| `EnvProofs.MergeExactly` | docker/moby-17.05.0-ce/container/env.go:11-45 | The last setting of a variable in the result is that of folding the overrides into a map, if and only if the overrides do not end by unsetting a variable that the defaults set more than once. |
| `EnvProofs.MergeRefines` | docker/moby-17.05.0-ce/container/env.go:11-45 | So always for defaults without repeated names, for any overrides. |
| `EnvProofs.UnsetUncovers` | docker/moby-17.05.0-ce/container/env.go:20-25 | Unsetting a repeated default uncovers the earlier one. |
| `EnvProofs.SurvivorsInOrder` | docker/moby-17.05.0-ce/container/env.go:36-44 | The settings that no override names are kept, all of them and in order. |
| `EnvProofs.NoEmptyEntry` | docker/moby-17.05.0-ce/container/env.go:36-42 | No empty entry is left. |
| `EnvProofs.TwiceExactly` | docker/moby-17.05.0-ce/container/env.go:11-45 | Applying the same overrides again changes nothing if and only if no variable they end by unsetting is also assigned by them or repeated in the defaults; so always for overrides made only of assignments. |
| `Cpu.VerifyContainerResources` | docker/moby-17.05.0-ce/daemon/daemon_unix.go:372-418 | Returns the adjusted limits, the warnings in order and the first error. |
| `CpuProofs.VerifyExactly` | docker/moby-17.05.0-ce/daemon/daemon_unix.go:372-418 | Which requests are accepted, as one condition; each of four limits of an accepted one is zeroed, with its warning, exactly if it is positive and not supported, and nothing else changes. |
| `Cpu.UpdatedContainer.UpdateContainer` | docker/moby-17.05.0-ce/container/container_unix.go:296-374 | Leaves the configuration, partly assigned when a later check fails, and the error of the specification. |
| `CpuProofs.UpdateAnswers` | docker/moby-17.05.0-ce/container/container_unix.go:304-374 | An update succeeds if and only if NanoCPUs do not meet a period or quota, the memory limit fits, no restart policy meets AutoRemove, and it is saved; each error implies its cause. |
| `CpuProofs.UpdateTakesOver` | docker/moby-17.05.0-ce/container/container_unix.go:321-368 | A successful update takes over each of the eleven limits and the policy that are asked for, and changes nothing else. |
| `Cpu.UpdatedContainer.UpdateOrRestore` | docker/moby-17.05.0-ce/daemon/update.go:39-88 | Puts the backup of the configuration back on every failure, but not the policy of the restart manager, and tells the engine the request. |
| `CpuProofs.OutcomeAnswers` | docker/moby-17.05.0-ce/daemon/update.go:39-88 | The call succeeds if and only if the container is not being removed, the update succeeds and, when it runs, the engine obeys; only then does the configuration change. |
| `CpuProofs.ManagerExactly` | docker/moby-17.05.0-ce/daemon/update.go:64-83 | After any run the policy of the restart manager differs from the configured one if and only if the last request that told it a policy, since the container was last started by hand, failed in the engine and asked for another policy than the one put back. |
| `CpuProofs.PartlyAssigned` | docker/moby-17.05.0-ce/container/container_unix.go:321-348 | UpdateContainer alone does not: it can fail at the memory check after assigning CPU fields. |
| `CpuProofs.NeverBoth` | docker/moby-17.05.0-ce/container/container_unix.go:304-335 | In every run of updates, and in the middle of a failing one, NanoCPUs > 0 excludes a CPU period and a CPU quota > 0. |
| `CpuConcurrent.NeverBothOverlapping` | docker/moby-17.05.0-ce/daemon/update.go:49-88 | So it does at every moment when updates overlap in any way, each copying, changing, telling the engine and perhaps putting the copy back. |
| `CpuConcurrent.RestoreUndoes` | docker/moby-17.05.0-ce/daemon/update.go:49-58 | A failing update puts back the configuration it began with, whatever other updates have changed since. |
| `CpuConcurrent.SuccessUndone` | docker/moby-17.05.0-ce/daemon/update.go:49-58 | There is a run in which a successful update is undone so. |
| `CpuConcurrent.AloneIsOutcome` | docker/moby-17.05.0-ce/daemon/update.go:39-88 | The steps of one update with no other in between are the update of the sequential model. |
| `CpuProofs.StartAccepts` | docker/moby-17.05.0-ce/daemon/start.go:74-78 | No run of updates makes the CPU check at the next start fail, warn or change anything. |
| `CpuProofs.OverflowBound` | docker/moby-17.05.0-ce/daemon/daemon_unix.go:120-126 | The uint64 product is below 2^64 for every permitted NanoCPUs if and only if there are at most 184467 CPUs. |
| `CpuProofs.QuotaExact` | docker/moby-17.05.0-ce/daemon/daemon_unix.go:120-126 | The quota is the exact floor of NanoCPUs * 100000 / 1e9 if and only if that product does not overflow. |
| `CpuProofs.SpecReadBack` | docker/moby-17.05.0-ce/daemon/daemon_unix.go:102-149 | Shares, cpusets and realtime limits are read back from the runtime's form, negative ones included, and so are period and quota unless NanoCPUs stand in for them; a limit is absent exactly if it is zero or empty. |
| `CpuProofs.HonouredExactly` | docker/moby-17.05.0-ce/daemon/daemon_unix.go:102-149 | In every run with at most 184467 CPUs, NanoCPUs are turned into their exact quota, at most NumCPU * period, if and only if CPUQuota is 0; a (negative) CPUQuota gives a quota of at least 2^63 instead. |
| `CpuProofs.NegativeQuotaLifts` | docker/moby-17.05.0-ce/daemon/update.go:74-83 | A quota of -1 is accepted beside NanoCPUs; it lifts the limit of the running container at once, and again at its next start. |
| `CpuProofs.QuotaFirstLastsUntilRestart` | docker/moby-17.05.0-ce/daemon/update.go:74-83 | In the other order the limit holds until the next start. |
| `CpuProofs.LimitLastsExactly` | docker/moby-17.05.0-ce/daemon/update_linux.go:12-23 | While a container runs, the CPU period in force is the one of its next start, and the quota is if and only if the last start or applied request that concerned the quota settled it: a start, a request for a quota, or one for NanoCPUs of at least 10000 with no quota configured (the exact condition covers NanoCPUs too small for a quota as well). |
| `CpuProofs.AppliedQuota` | docker/moby-17.05.0-ce/daemon/update_linux.go:12-23 | What one applied request does to the quota in force and to that of the next start. |

## Left out

- Image deletion: the order in which one image's references are untagged (a Go map decides it; the records list them in
  some order), and logging of image events.
- ImageDeleteProofs.RemovalReport: does not list the layers that deleting an image releases.
- ImageDelete.Daemon.ImageDeleteHelper: leaves out the records of those layers, which depend on the layer store.
- Image deletion: store internals, and concurrent pulls, tags or container creations during a call. Operations of the
  image and reference stores succeed on stored entries.
- ImageDelete.Daemon.ImageDelete: parsing of reference text and the two prefix searches in the image store are part of
  the request (`Request.reference`, `found`, `foundByTag`); what they find is a stored image.
- Event log: failures to open or encode the journal. When reopening fails, the source drops the event in hand.
- Event log: the append of the logger and its read of the log outside the lock; the logger is the only writer.
- EventHub.Hub.NotifySubscribers: the method describes a notification that no other operation interleaves with; the
  interleavings are those of the transition system in `EventBus`.
- EventHub.Hub.EventLogger: the method returns when the channel is empty, where the source waits for more.
- ExecSync: restoring containers at startup (restore), checkpoints, and the other tasks of the loop. The start of a
  container is notified by a worker goroutine and no order is claimed for it.
- ExecSyncProofs.InitExitAfterExecExits: says nothing of execs whose channel was no longer, or not yet, in the map that
  delete took.
- Events: exit statuses and other payload beyond the container, the kind, the process and the time.
- Fairness: that blocked goroutines get their turn, and the writer preference of the read-write lock.
- Monitor: errors of epoll_ctl when removing, EPOLL_CLOEXEC and waiting; flushing of OOM descriptors. Epoll is a set that
  refuses a descriptor that is present or not open and drops one that is closed.
- Ports: reading the displayed text back; what the display keeps is stated of the ranges and mappings, and their texts by
  `PortsProofs.RangeText`, `PortText`, `JoinMore` and `ItoaExactly`.
- Ports.SortInPlace: the library's sorting algorithm, of which only the result matters (`PortsProofs.SortIsUnique`).
- HealthMonitor.MonitoredContainer.UpdateHealthMonitor: describes a call that nothing interferes with; calls step by
  step, with and without the lock, are those of the transition system in `Health`.
- HealthMonitor.MonitoredContainer.StopHealthchecks: likewise.
- Health: that the events and starts of one container are handled one after the other is taken from libcontainerd, whose
  queue and client lock are not part of this model.
- Health: unlocked reads and writes are taken to happen one after the other in some order. Running a probe, its timeout
  and the intervals are steps that may happen at any time.
- Health: a change of the healthcheck configuration while a container exists, and the 64-bit width of the streak.
- Env.ReplaceOrAppendEnvValues: the source writes into the caller's slice of defaults; the model returns a new list and
  does not capture what the caller's slice holds afterwards.
- Cpu.VerifyContainerResources: the checks of memory, process, cpuset and block device limits, which come before and
  after the CPU part; the theorems about runs hold for any request whose CPU part is accepted.
- Cpu: memory and swap limits have no invariant, because an update of swap alone may go below the memory limit.
- CpuProofs.StartAccepts: speaks of the CPU checks alone, with the same kernel features as when the limits were set.
- CpuProofs.LimitLastsExactly: that the engine writes no zero into the control group is taken from containerd's
  conversion and runc's cgroup code; kernel defaults are not modelled, a limit that was never set is zero. Updates are
  made one after the other.
- Cpu.UpdatedContainer.UpdateOrRestore: an engine that fails is taken to have changed nothing, and no other update runs in
  between; overlapping updates are those of `CpuConcurrent`.
- CpuProofs.ManagerExactly: likewise for updates one after the other.
- CpuProofs.OverflowBound: the int64 product of the number of CPUs and 1e9 is taken not to overflow, which needs fewer
  than 9.2e9 CPUs.
- The HTTP client, runc and ctr commands, networking, archives and mounts, and the variants for Windows and Solaris.
