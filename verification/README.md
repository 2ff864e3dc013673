# Heron, verified

A Dafny model of the parts of Heron whose correctness depends on interleavings, on the order
of map iteration, or on text that has to survive a parser. Heron keeps local services stopped
until a request for them arrives, starts them, proxies HTTP, gRPC and TCP traffic to them, and
stops them again when they have been idle.

`dafny verify dfyconfig.toml` checks everything.

## The modules

| file | models |
|---|---|
| Lifecycle.dfy | one service as a labelled transition system: one step per mutex critical section and per outside event |
| LifecycleInvariant.dfy | the joint inductive invariant over fields, channels, contexts, timers, processes and program counters |
| LifecycleTheorems.dfy | what it gives over every run: processes, channels, idle shutdown, leases, exits, finality of stop |
| LifecycleProgress.dfy | a measure for starting and stopping, the absence of deadlock, and that no transition lasts for ever |
| LifecycleHistory.dfy | what the fields of a service and the program counters of its goroutines say about the labels before them |
| LifecycleOutcomes.dfy | how attempts and stops end: what must have returned before a service runs, why it has failed, what a stop reports |
| Service.dfy | the `Service` object: each critical section as a method, proved to be the step of its name |
| Drain.dfy, Connections.dfy | the drain handler and the connection tracker: transition systems, and their objects |
| Tcp.dfy | the raw TCP server: accept loop, handlers, wait group and `Shutdown` |
| TcpConnections.dfy | what each step does to the connections, and what a `Shutdown` has closed |
| TcpShutdown.dfy | when exactly `Shutdown` leaves a connection open |
| Shutdown.dfy | the shutdown sequence of `main` over all of these together |
| ShutdownParts.dfy | that composition seen from each part: runs of the whole are runs of every service, server and drain handler |
| Include.dfy | the recursive include loader |
| IncludeSharing.dfy | files that are reached more than once, and when they are refused |
| Endpoints.dfy, Normalize.dfy | normalisation: an endpoint by itself, and the four shared tables filled in any order |
| Settings.dfy | what each setting of an accepted configuration becomes, in the terms of the file |
| Router.dfy, Routes.dfy | routing and path rewriting, and the table an accepted configuration gets |
| EnvFile.dfy, Template.dfy, Environment.dfy | environment files, templates and their resolution |
| EnvDocument.dfy | environment files as people write them, and that they are read as what they say |
| TreeOrder.dfy | the order of the process list |
| Text.dfy, Sets.dfy, Maps.dfy, Options.dfy | shared helpers |

## How to read the model

A `World` of Lifecycle.dfy is the fields of `Service` with the part of the Go runtime they
refer to. Goroutines are program counters, channels and contexts are named by the goroutine
they belong to, and everything ever made is kept, so that an index is an identity. A label
carries whatever the program does not determine: which goroutine is next, whether a command
succeeds, whether a wait times out. A process counts as gone when it has exited or when `Kill`
has been issued, because the program does not wait for it after that.
The theorems of LifecycleOutcomes.dfy speak of the labels of a run: which command returned with
what, before which step. `close` on a nil or
closed channel, and a wait on a nil channel, set `panicked`, which the invariant excludes.

Service.dfy, Drain.dfy, Connections.dfy and Tcp.dfy hold the objects themselves. Their methods
update the fields the program updates; each is proved to take exactly the step of the
transition system, so the theorems about runs are theorems about the objects. The ghost fields
of the smaller objects are the goroutines around them.

The loaders, the validator, the parsers and the tree walk are methods with the loops of the
program, proved against a specification that mentions neither the loops nor their order. Where
the program ranges over a Go map, the method takes an arbitrary next key.

## What turned out not to hold

* `TCPServer.Shutdown` does not always leave every accepted connection closed: one that the
  accept loop has taken but not yet offered to `trackClient` is closed by the loop itself,
  possibly after `Shutdown` has returned nil. `Tcp.AcceptedMayOutliveShutdown` is such a run.
  `TcpShutdown.ShutdownClosesAllIff` gives the condition as the call begins: however the run
  goes on, everything is closed once that call has returned nil, iff at its first step no
  accept loop has a connection in hand and none is accepting on an open listener. The exception
  ends: the loop's own next steps close the connection (`TcpShutdown.LoopLetsGo`), and then
  everything is closed for ever (`TcpShutdown.LetGoForEver`).
* A configured path need not start with a slash after normalisation: `//` becomes the empty
  path (`Routes.SlashesVanish`). `Routes.PathIsNormal` says for which paths this happens.
  Routing and rewriting are therefore proved for the empty prefix as well.
* Under the prefix `/` rewriting takes the only slash away and the backend sees a path without
  one (`Routing.RootStripsTheSlash` gives the exact condition); the other results about
  rewriting exclude that prefix.
* An include file that is reached twice, along two paths or by standing twice in one list of
  resources, is refused iff it declares an app, though nothing is circular and no app has two
  declarations. `IncludeSharing.DiamondIsRefused` and `IncludeSharing.ListedTwiceIsRefused` are
  two such inputs. `IncludeSharing.UniqueInWalks` is the exact condition: no app is refused as a
  duplicate iff no two different walks from the root, each a list of positions in the lists of
  resources, lead to files that declare a common app, be they two files or one. Heron's own
  documentation (README.md:195-196) speaks only of duplicate app IDs and of circular includes.

## Model

| member | source | states |
|---|---|---|
| `LifecycleInvariant.StepInv` | internal/supervisor/service.go:52-437 | every critical section of every goroutine and every outside event keeps the joint invariant of fields, channels, contexts, timers, processes and program counters |
| `LifecycleInvariant.RunInv` | internal/supervisor/service.go:52-437 | the invariant holds in every reachable state, for every configuration, number of callers and interleaving |
| `LifecycleInvariant.DownMeansDead` | internal/supervisor/service.go:260-276 | in a stopped, failed or building service every process has exited or been killed |
| `LifecycleInvariant.DropLease` | internal/supervisor/service.go:304-309 | with a lease outstanding the counter is positive and dropping it keeps the count exact: the guard before the decrement never fires |
| `LifecycleTheorems.NoOrphan` | internal/supervisor/service.go:133-160 | every process ever launched is the service's, or is carried by the worker between launch and recording, or has exited or been killed; at most one is neither |
| `LifecycleTheorems.NothingRunsWhenDown` | internal/supervisor/service.go:385-430 | no process is left alive in a stopped, failed or building service, even when the stop landed between launch and readiness |
| `LifecycleTheorems.SingleWorker` | internal/supervisor/service.go:70-95 | exactly one worker that can act in Building/Starting, at most one in Stopping, none otherwise; exactly one stop goroutine iff Stopping |
| `LifecycleTheorems.ChannelsAreOneShot` | internal/supervisor/service.go:337-357 | no close panics; attempt, worker and stop channels are open exactly while their work is in progress, so a blocked waiter waits for work that goes on |
| `LifecycleTheorems.ClosedByOneStep` | internal/supervisor/service.go:105-112 | a closed channel was closed by exactly one step of the run and stays closed |
| `LifecycleTheorems.ClosedUpTo` | internal/supervisor/service.go:428-430 | a closed channel is closed in every later state |
| `LifecycleTheorems.RunningContextIsLive` | internal/supervisor/service.go:75-78 | while starting or running the attempt's context has not been cancelled by the service, and every other attempt's has |
| `LifecycleTheorems.QuietSinceArmed` | internal/supervisor/service.go:314-325 | since a timer whose generation is still current was armed, the service has run without leases at every step |
| `LifecycleTheorems.IdleStopNeedsFullPeriod` | internal/supervisor/service.go:326-336 | an idle callback that changes anything stops a service that has been running with zero leases since its timer was armed, at least a full idle period ago |
| `LifecycleTheorems.NoLostIdleShutdown` | internal/supervisor/service.go:155-166 | running with zero leases and idle shutdown on, a timer with the current generation is pending or fired; with idle 0 no timer ever exists |
| `LifecycleTheorems.CurrentCallbackStops` | internal/supervisor/service.go:326-336 | the callback of that timer does begin the stop |
| `LifecycleTheorems.OutstandingMeans` | internal/supervisor/service.go:66-69 | a lease is outstanding iff it was granted and its release has not been called; repeated calls count once |
| `LifecycleTheorems.LeaseConservation` | internal/supervisor/service.go:304-313 | activeRequests equals the leases granted and not released, across exits, restarts and stops |
| `LifecycleTheorems.OnlyCallersTouchLeases` | internal/supervisor/service.go:277-303 | no worker, watcher, timer or stop changes any lease: leases outlive processes |
| `LifecycleTheorems.ExitIsNoticed` | internal/supervisor/service.go:167-170 | a running service without stop command has a live watcher on exactly its process, or the committing worker about to start it |
| `LifecycleTheorems.OldWatcherIsInert` | internal/supervisor/service.go:277-303 | a watcher of an earlier process never changes a field again, however many restarts follow |
| `LifecycleTheorems.OverIsFinal` | internal/supervisor/supervisor.go:38-52 | once the lifecycle is over nothing is launched, granted, building, starting or running for ever |
| `LifecycleTheorems.StopIsFinal` | internal/supervisor/service.go:358-375 | if cancellation precedes the end of a Stop, its return and every later state find the service over |
| `LifecycleTheorems.StoppedAndCancelledIsOver` | internal/supervisor/service.go:360-363 | a Stop that finds the cancelled service stopped may return at once |
| `LifecycleTheorems.ManualStopHolds` | internal/supervisor/inspection.go:68-102 | a service stopped by hand stays stopped under every step but the resuming one of start and restart |
| `LifecycleProgress.ProtocolStepDecreases` | internal/supervisor/service.go:113-171 | each step of the start worker or stop goroutine lowers a measure over both program counters or ends the transition |
| `LifecycleProgress.OtherStepsDoNotIncrease` | internal/supervisor/service.go:52-104 | no other step raises the measure or ends the transition |
| `LifecycleProgress.NoDeadlock` | internal/supervisor/service.go:385-396 | in Building, Starting and Stopping some protocol step is enabled: stop waiting for workerDone never deadlocks with the worker |
| `LifecycleProgress.TransitionsAreShort` | internal/supervisor/service.go:385-437 | no run stays in transition for more than 15 protocol steps |
| `LifecycleProgress.EveryTransitionEnds` | internal/supervisor/service.go:113-171 | in an endless run in which no transition waits for ever for its next protocol step, the service is at some later point of every point running, stopped or failed |
| `LifecycleProgress.CanAlwaysSettle` | internal/supervisor/service.go:113-171 | from every state satisfying the invariant the two goroutines alone can settle the service |
| `LifecycleOutcomes.AcquireMeans` | internal/supervisor/service.go:53-95 | what a caller of Acquire meets in each state: a lease, a new attempt or the present one to wait for, or the end of the stop |
| `LifecycleOutcomes.RunningMeansReady` | internal/supervisor/service.go:117-166 | a running service's process was launched by a worker whose build, if configured, had succeeded, and whose readiness probe has succeeded and never failed |
| `LifecycleOutcomes.LaunchedBy` | internal/supervisor/service.go:117-140 | every process was made by one launch of its worker, after the configured build returned ok |
| `LifecycleOutcomes.LaunchedOnce` | internal/supervisor/service.go:133-137 | a worker launches at most once |
| `LifecycleOutcomes.CommitNeedsReady` | internal/supervisor/service.go:141-166 | no worker commits unless build, launch and probe returned ok |
| `LifecycleOutcomes.AttemptEnds` | internal/supervisor/service.go:113-171 | the step that ends an attempt is a commit of what was ready, a failure at exactly what had failed with no process left alive, or a stop |
| `LifecycleOutcomes.UnreadyFails` | internal/supervisor/service.go:141-154 | after a failed probe the worker never commits; its attempt ends Failed with the probe's failure and its process dead, unless a stop takes it over |
| `LifecycleOutcomes.GoodAttemptsRun` | internal/supervisor/service.go:113-171 | in an endless run in which commands return, an attempt whose build, launch and probe succeed and that nobody stops ends Running by its own commit |
| `LifecycleOutcomes.StateFollowsDiagram` | internal/supervisor/service.go:52-437 | the state changes only along the thirteen edges of the state diagram, each with its label and the error it leaves |
| `LifecycleOutcomes.StartsCounted` | internal/supervisor/service.go:160-162 | the counter of starts is the number of steps at which the service came to run |
| `LifecycleOutcomes.StopEndsAs` | internal/supervisor/service.go:398-430 | a stop ends Failed with the stop failure in startErr and stopErr iff its stop command returned an error, otherwise Stopped with no error; a stop command is run iff there is one |
| `LifecycleOutcomes.StopErrMeans` | internal/supervisor/service.go:377-384 | what waitForStop reads is the failure of the last stop's command if that stop has ended, otherwise nothing |
| `LifecycleOutcomes.WhyFailed` | internal/supervisor/service.go:96-102 | the error a failed service still has is explained by the step at which it failed: the build, launch or probe that returned an error, the exit of its process, or its stop command |
| `LifecycleOutcomes.ManagedIsNotWatched` | internal/supervisor/service.go:167-170 | an app with its own stop command is never watched and leaves Running only by a stop |
| `LifecycleOutcomes.KilledBy` | internal/supervisor/service.go:144-151 | a process is killed only by a kill action or after a wait for its exit timed out |
| `LifecycleOutcomes.HoldMeans` | internal/supervisor/inspection.go:69-81 | a kill action kills the process and takes hold, or does nothing if the app has its own stop command; stop and restart only take hold |
| `ServiceObject.Service.constructor` | internal/supervisor/service.go:44-46 | a new service is the initial state of the system and satisfies the invariant |
| `ServiceObject.Service.ScheduleIdleLocked` | internal/supervisor/service.go:314-325 | bumps the generation, disarms the old timer, arms a new one unless idle is 0 |
| `ServiceObject.Service.BeginStopLocked` | internal/supervisor/service.go:337-357 | moves to Stopping, outdates the timer, cancels and closes an attempt in progress |
| `ServiceObject.Service.AcquirePass` | internal/supervisor/service.go:53-95 | one pass of the retry loop is the Acquire step, keeps the invariant, and reports rejection, the granted lease or the channel to wait on |
| `ServiceObject.Service.AfterWait` | internal/supervisor/service.go:96-102 | after waiting, the pass fails iff the service is Failed, with the recorded error: a failed service always has one, so no waiter goes round silently |
| `ServiceObject.Service.ReleaseLease` | internal/supervisor/service.go:304-313 | the first call of a release closure is the Release step and re-arms the idle timer at zero, later calls do nothing |
| `ServiceObject.Service.StopLocked` | internal/supervisor/service.go:358-375 | the locked part of Stop is the StopCall step and returns the channel it waits on |
| `ServiceObject.Service.Idle` | internal/supervisor/service.go:326-336 | the timer callback is the IdleCallback step |
| `ServiceObject.Service.Watched` | internal/supervisor/service.go:277-303 | the watcher's critical section is the Watch step |
| `ServiceObject.Service.EnterStartingLocked` | internal/supervisor/service.go:124-130 | enters Starting only from Building |
| `ServiceObject.Service.RecordProcess` | internal/supervisor/service.go:138-140 | stores the launched process |
| `ServiceObject.Service.Committed` | internal/supervisor/service.go:155-170 | commits to Running only from Starting, closing the attempt and arming the idle timer |
| `ServiceObject.Service.StartFailed` | internal/supervisor/service.go:260-276 | fails the attempt only if it is still the current one |
| `ServiceObject.Service.StopEnds` | internal/supervisor/service.go:417-430 | takes the Publishes step, whose outcome `LifecycleOutcomes.StopEndsAs` gives, and leaves no process alive |
| `ServiceObject.Service.HoldLocked` | internal/supervisor/inspection.go:69-81 | sets the manual stop and on request kills the process there is, unless the app has its own stop command |
| `ServiceObject.Service.ResumeLocked` | internal/supervisor/inspection.go:95-97 | clears the manual stop and nothing else |
| `Drain.StepInv` | internal/proxy/drain.go:31-70 | entering, beginning to drain and leaving keep the handler's invariant |
| `Drain.DrainedForEver` | internal/proxy/drain.go:49-70 | done is closed exactly while draining with no admitted request inside, is never closed twice, and once closed nothing is inside or admitted for ever |
| `Drain.AdmittedUntilDrain` | internal/proxy/drain.go:31-61 | from the step that begins the drain on nobody is admitted |
| `Drain.DrainNeedsBegin` | internal/proxy/drain.go:31-61 | the handler drains iff that step was taken, and before it every request is admitted |
| `Drain.RunningMeans` | internal/proxy/drain.go:42-46 | the active requests are those admitted and not yet left |
| `Drain.DoneMeansAllLeft` | internal/proxy/drain.go:91-94 | whoever reads done knows that every request ever admitted has left |
| `Drain.DrainHandler.EnterRequest` | internal/proxy/drain.go:31-46 | admits and counts the request, or refuses it while draining |
| `Drain.DrainHandler.Begin` | internal/proxy/drain.go:51-61 | starts the drain and closes done at once if nothing is active |
| `Drain.DrainHandler.Release` | internal/proxy/drain.go:63-70 | uncounts the request and closes done for the last one |
| `Connections.StepInv` | internal/proxy/drain.go:108-200 | add, close, wait, wake and sweep keep the tracker's invariant; no channel is closed twice |
| `Connections.NoLostWakeup` | internal/proxy/drain.go:129-144 | a waiter still blocked on a captured channel has seen exactly the present, non-empty set |
| `Connections.SameChannelSameSet` | internal/proxy/drain.go:146-167 | while the current channel is the same the set has not changed at any step in between |
| `Connections.SweptForEver` | internal/proxy/drain.go:108-124 | after CloseAll returns the set is empty for ever and every connection ever added is closed, despite concurrent Accept and Close |
| `Connections.StepMeans` | internal/proxy/drain.go:108-167 | exactly which steps change the set, the waiters and the sweeps under way |
| `Connections.ConnectionTracker.SignalLocked` | internal/proxy/drain.go:164-167 | closes the current channel and replaces it |
| `Connections.ConnectionTracker.AddConn` | internal/proxy/drain.go:146-155 | adds the connection and signals, or refuses after CloseAll |
| `Connections.ConnectionTracker.Remove` | internal/proxy/drain.go:157-162 | removes the connection and signals |
| `Connections.ConnectionTracker.WaitLocked` | internal/proxy/drain.go:130-137 | returns, or captures the channel under the lock |
| `Connections.ConnectionTracker.CloseAllLocked` | internal/proxy/drain.go:108-115 | latches closed and snapshots the set |
| `Tcp.StepInv` | internal/proxy/tcp.go:70-207 | every step of the accept loops, handlers and Shutdown calls keeps the joint invariant |
| `Tcp.WaitGroupCounts` | internal/proxy/tcp.go:156-167 | the wait-group count is the number of tracked clients whose handler has not finished and never goes below zero |
| `Tcp.ClosingStep` | internal/proxy/tcp.go:177-182 | once closing is set it stays set, no handler starts and the count never rises |
| `Tcp.FinishedMeans` | internal/proxy/tcp.go:105-139 | when a Shutdown has returned nil every handler has left and every connection is closed except exactly one the accept loop may hold |
| `Tcp.ShutdownLeavesNothing` | internal/proxy/tcp.go:176-207 | after Shutdown returns nil and for ever after: no live handler, nothing tracked, no lease, nothing more accepted; everything accepted or dialled is closed iff the accept loop holds no connection |
| `Tcp.AcceptedMayOutliveShutdown` | internal/proxy/tcp.go:86-102 | a run in which a connection accepted just before Shutdown is open when it returns nil: closing everything is not unconditional |
| `TcpConnections.ShutdownClosesSnapshot` | internal/proxy/tcp.go:184-195 | once a Shutdown starts to wait, every connection tracked when it began is closed for ever, so every client is, and the only backends still open are those `track` is about to refuse or has refused |
| `TcpConnections.OpenStep` | internal/proxy/tcp.go:105-207 | exactly which steps open and close a client or a backend |
| `TcpConnections.TrackedStep` | internal/proxy/tcp.go:146-174 | exactly which steps track and forget one, and that nothing is tracked while closing |
| `TcpConnections.CopyingMeans` | internal/proxy/tcp.go:109-134 | a handler copies only with a lease, after a dial that succeeded, with its backend offered to `track` |
| `TcpShutdown.ShutdownClosesAllIff` | internal/proxy/tcp.go:176-207 | a Shutdown that begins now leaves everything closed in every continuation in which it returns nil iff no accept loop holds a connection now or is accepting on an open listener |
| `TcpShutdown.QuietShutdownClosesAll` | internal/proxy/tcp.go:176-207 | if so when it begins, then from its nil return on every connection ever accepted or dialled is closed |
| `TcpShutdown.ShutdownMayEndOpen` | internal/proxy/tcp.go:86-102 | if not, there are steps from here through its nil return to a state in which the loop holds an open connection |
| `TcpShutdown.LoopLetsGo` | internal/proxy/tcp.go:97-100 | a loop that still holds a connection after a nil return closes it by its own next steps, and then everything is closed |
| `TcpShutdown.LetGoForEver` | internal/proxy/tcp.go:105-139 | after a nil return, once no loop holds a connection everything accepted or dialled is closed for ever |
| `Tcp.LoopHoldsAtMostOne` | internal/proxy/tcp.go:70-83 | at most one accept loop serves, so at most one such connection exists |
| `Tcp.TCPServer.EnterServe` | internal/proxy/tcp.go:70-83 | one Serve call proceeds to accept, and only before Shutdown |
| `Tcp.TCPServer.TrackClient` | internal/proxy/tcp.go:156-167 | tracks the client and counts its handler under one lock, or refuses once closing |
| `Tcp.TCPServer.Track` | internal/proxy/tcp.go:146-154 | tracks the backend connection or refuses once closing |
| `Tcp.TCPServer.UntrackClient` | internal/proxy/tcp.go:169-174 | forgets the client's connection |
| `Tcp.TCPServer.ShutdownLocked` | internal/proxy/tcp.go:177-188 | latches closing and snapshots listener and connections |
| `Shutdown.StepInv` | cmd/heron/main.go:291-299 | every step of main, the services, the TCP servers, the drain handler and the tracker keeps the composed invariant: each outstanding lease has an owner that holds it |
| `Shutdown.NoClientLeaseAfterDrain` | cmd/heron/main.go:291-299 | if DrainServer and every TCP Shutdown return nil, no HTTP, gRPC or TCP client holds a lease of any service from the start of StopAll on, for ever |
| `Shutdown.NoGrantAfterCancel` | internal/supervisor/supervisor.go:38-40 | after StopAll has cancelled the lifecycle an acquire changes nothing |
| `Shutdown.StopAllLeavesNothingRunning` | internal/supervisor/supervisor.go:41-51 | a service whose Stop did not give up waiting is over when its part of StopAll returns: no process is alive or launched again |
| `Shutdown.StopStaysReturned` | internal/supervisor/supervisor.go:41-51 | what a Stop returned is not taken back |
| `Shutdown.ExitWaitsForAll` | internal/supervisor/supervisor.go:45-51 | main leaves StopAll only when every Stop has returned |
| `ShutdownParts.ServiceRuns` | cmd/heron/main.go:291-299 | within every run of the whole each service makes a run of its own, of the calls its requests, handlers, operators and main make, so every theorem about its runs holds there |
| `ShutdownParts.ServerRuns` | cmd/heron/main.go:291-299 | so does each TCP server |
| `ShutdownParts.DrainRuns` | cmd/heron/main.go:291-299 | and the drain handler |
| `ShutdownParts.RequestSteps` | internal/proxy/handler.go:81-100 | a request holds exactly the lease it was granted, gives it back once, and only then leaves |
| `ShutdownParts.MainSteps` | cmd/heron/main.go:291-299 | main goes through its phases in order, and only an error of one of them clears ok |
| `Include.Load` | internal/config/config.go:163-199 | loading succeeds iff every include path from the root is readable, well formed and free of repetition and no app occurs twice in the unfolded tree; then the apps with their declaring files are exactly the union; errors are genuine, and a duplicate app is that of the first place in loading order that declares a taken one, with the file that had it |
| `Include.ResourceLoader.LoadAll` | internal/config/config.go:236-264 | terminates on every finite file graph; succeeds iff all references can be followed without coming back to the stack and no app is declared twice; a reported chain is a genuine cycle |
| `Include.ResourceLoader.LoadOne` | internal/config/config.go:266-292 | the same for one file: its own apps first, then its references |
| `Include.ResourceLoader.AddApps` | internal/config/config.go:284-290 | adds the apps of a file in any order iff none is taken; otherwise names a taken app, the file that has it, and this one |
| `Include.CycleIsGenuine` | internal/config/config.go:253-258 | the chain reported for a repeated path closes on itself, follows includes and has no shorter cycle in it |
| `Include.CleanIffSound` | internal/config/config.go:236-264 | following all references succeeds iff every include path from the root has only well-formed files and repeats none |
| `Include.UniqueIff` | internal/config/config.go:284-287 | no declaration is refused iff the app sets of all places of the tree are pairwise disjoint |
| `Include.EntriesMean` | internal/config/config.go:188-198 | each loaded app belongs to the one file that declares it, and its entry names that file |
| `IncludeSharing.PlacesAreWalks` | internal/config/config.go:236-264 | the places at which loading meets a file correspond one to one to the walks from the root through the lists of resources |
| `IncludeSharing.TwiceMeansTwoWalks` | internal/config/config.go:236-264 | a file is met twice iff two different walks lead to it |
| `IncludeSharing.UniqueMeans` | internal/config/config.go:284-287 | no declaration is refused iff the files met declare different apps and a file met twice declares none |
| `IncludeSharing.UniqueInWalks` | internal/config/config.go:284-287 | the same in terms of the files alone: iff no two different walks from the root lead to declarations of a common app |
| `IncludeSharing.SharedFilesDeclareNothing` | internal/config/config.go:253-264 | in particular, a file that two different include paths lead to declares no app in an accepted configuration |
| `IncludeSharing.DiamondIsRefused` | internal/config/config.go:284-287 | two files that include a third which declares an app: sound includes, no app with two declarations, and yet refused |
| `IncludeSharing.ListedTwiceIsRefused` | internal/config/config.go:284-287 | one file that lists another twice: refused in the same way |
| `Endpoints.AppEndpointInputs` | internal/config/config.go:412-454 | accepts iff the single-endpoint fields and the table are not mixed, names are labels differing beyond case, and one endpoint is primary; yields the lower-cased table in whatever order it is visited |
| `Endpoints.OnePrimary` | internal/config/config.go:443-452 | an accepted app with endpoints has exactly one primary endpoint |
| `Normalize.Tables.NormalizeEndpoint` | internal/config/config.go:456-601 | an endpoint is accepted iff it is sound by itself and claims nothing twice and nothing taken; then the four tables hold exactly its claims more |
| `Normalize.Tables.NormalizeHttp` | internal/config/config.go:486-536 | HTTP: one of path, host or the lazy host and alias is registered, or nothing |
| `Normalize.Tables.NormalizeGrpc` | internal/config/config.go:537-571 | gRPC: the host and an alias different from it are registered |
| `Normalize.Tables.NormalizeTcp` | internal/config/config.go:572-591 | TCP: the listening port is registered if it is neither a backend nor a listening port |
| `Normalize.NormalizeApp` | internal/config/config.go:353-406 | an app is accepted iff its own checks pass, its environment included, and its endpoints are compatible with those before; the primary endpoint is copied whatever the order |
| `Normalize.Normalize` | internal/config/config.go:316-410 | for every order of apps and endpoints Normalize accepts iff globals and apps are in order and no two endpoints claim the same port, host or path; the result does not depend on the order |
| `Normalize.ResolveApp` | internal/config/config.go:387-390 | the environment of an app is what its files, its inline entries and the inherited environment resolve to, or its failure refuses the configuration |
| `Normalize.ServiceEnvironment` | internal/config/environment.go:17-40 | in every accepted configuration the environment of each app is valid and has the names of its files and inline entries only; an inline entry counts with its interpolation against inherited variables and files, otherwise the last file that sets the name decides |
| `Settings.EndpointSettings` | internal/config/config.go:456-601 | each endpoint of an accepted configuration is sound and becomes what it says: ports, prefix, health and primary are taken over, protocol and host are in lower case, paths lose the slashes at their end, missing hosts are made up |
| `Settings.SoundIff` | internal/config/config.go:456-601 | by itself an endpoint is accepted iff it is sound, in terms of its fields alone |
| `Settings.SingleInput` | internal/config/config.go:412-423 | the fields of an app are its endpoint if they give a port, and must all be empty if they do not |
| `Settings.NamedInput` | internal/config/config.go:424-454 | each endpoint of a table keeps its fields under its lower-case name; a lone one is primary |
| `Settings.GlobalsIff` | internal/config/config.go:317-342 | the global settings are accepted iff the port can be one or is missing, the log level is known or missing, and each duration is positive or missing |
| `Settings.AppIff` | internal/config/config.go:353-394 | by itself an app is accepted iff it has a launch command, a directory, inputs and an environment that are in order, and no negative idle time |
| `Settings.GlobalSettings` | internal/config/config.go:316-350 | port, log level and timeouts are those of the file or their defaults, and in range |
| `Settings.AppSettings` | internal/config/config.go:391-400 | the idle time of an app is its own, else the global one, else half an hour |
| `Normalize.OrderDoesNotShow` | internal/config/config.go:352-408 | two normalisations of one configuration, in whatever orders of apps and endpoints, have the same result |
| `Routes.AcceptedShareNothing` | internal/config/config.go:466-475 | in words: backend ports, listening ports and the wrapper's port are pairwise different, and hosts, aliases and trimmed paths are unique |
| `Routes.DisjointInWords` | internal/config/config.go:456-601 | two endpoints make no common claim iff they share no port, host, alias or path |
| `Routes.PathIsNormal` | internal/config/config.go:525-534 | a configured path becomes the root, or loses its slashes at the end; it becomes empty iff it has nothing but slashes and more than one |
| `Routes.SlashesVanish` | internal/config/config.go:525-531 | // becomes the empty path: normalised paths need not start with a slash |
| `Routes.AliasDiffers` | internal/config/config.go:489-519 | the alias of an endpoint is never its host |
| `Routes.LazyHosts` | internal/config/config.go:489-499 | an HTTP or gRPC endpoint that gives neither path nor host is not refused: a primary one gets the host of its app and an alias, another one its own host, in lower case |
| `Routes.AcceptedRoutesUnambiguously` | internal/proxy/handler.go:29-40 | the routes of an accepted configuration, listed in any order, are unambiguous: distinct normal paths and distinct lower-case hosts |
| `Routing.Router.constructor` | internal/proxy/router.go:15-26 | builds the host table and the paths sorted by falling length, ties in any order |
| `Routing.Router.Match` | internal/proxy/router.go:29-48 | for the host name without white space and port, in lower case: an exact host wins; otherwise a path prefix ending at a segment such that none is longer, or none if no prefix covers the path; in an unambiguous table a request that names a route's host, with or without a port, gets that route |
| `Routing.HostIsFound` | internal/proxy/router.go:29-48 | a request that names a route's host, with or without a port and in any case, is answered by that route |
| `Routing.OtherHostsUsePaths` | internal/proxy/router.go:33-39 | a request that names no route's host is answered by a path that covers it, or by none if none does |
| `Routing.MatchIgnoresOrder` | internal/proxy/router.go:15-39 | for unambiguous tables of the same routes in whatever order, with path ties sorted in any way, every request gets the same answer: host route, path route or none |
| `Routing.HostedIsUnique` | internal/proxy/router.go:17-21 | the host route of a name is the same in two tables of the same routes in different orders |
| `Routing.HostTableMeans` | internal/proxy/router.go:17-21 | a name is in the host table iff some route has it as its lower-case host |
| `Routing.SamePrefixLength` | internal/proxy/router.go:34-37 | two normal prefixes of one length that cover a path are the same |
| `Routing.LongestIsUnique` | internal/proxy/router.go:24-25 | the order of the routes and an unstable sort do not matter |
| `Routing.OutgoingURL.Rewrite` | internal/proxy/rewrite.go:10-26 | the path and, if present, its encoding lose the prefix unless it is to be kept |
| `Routing.RewriteUndoes` | internal/proxy/rewrite.go:14-18 | under a prefix other than the root the rewritten path starts with a slash and behind the prefix is the requested path, or is the root for the prefix itself |
| `Routing.RewriteSeparates` | internal/proxy/rewrite.go:14-18 | two requests are rewritten alike iff they are the same or the prefix with and without a slash |
| `Routing.RootStripsTheSlash` | internal/proxy/rewrite.go:14-17 | under the root prefix the result starts with a slash iff the path was empty, the root, or started with two |
| `Routing.EncodingsStayInStep` | internal/proxy/rewrite.go:19-25 | the rewritten encoding still decodes to the rewritten path iff the request spelled the prefix out |
| `EnvFile.ParseEnvValue` | internal/config/environment.go:84-115 | the scanning loop computes the value of the grammar, for bare, single- and double-quoted text |
| `EnvFile.ParseEnvFile` | internal/config/environment.go:65-82 | the line loop collects the assignments up to the first bad line, which it reports, and validates the table |
| `EnvFile.NameMeans` | internal/config/environment.go:11 | a name is a letter or an underscore with letters, digits and underscores behind it |
| `EnvFile.DoubleQuotedValue` | internal/config/environment.go:95-113 | a value printed with escapes between double quotes reads back as itself |
| `EnvFile.SingleQuotedValue` | internal/config/environment.go:95-113 | a value between single quotes reads back as itself iff it has no single quote |
| `EnvFile.BareValue` | internal/config/environment.go:86-93 | a bare value reads back as itself iff no comment starts in it |
| `EnvFile.PrintedFileParses` | internal/config/environment.go:65-82 | printing assignments one to a line and parsing gives the last-wins map, refused iff a winning value holds a NUL |
| `EnvFile.LastWinsMeans` | internal/config/environment.go:78 | the value of a name is that of its last assignment |
| `EnvFile.AcceptedFilesReprint` | internal/config/environment.go:65-82 | every accepted file can be printed from its table, in any order, and reads back unchanged |
| `EnvDocument.WrittenFileParses` | internal/config/environment.go:65-115 | a file of blank lines, comments and settings, indented or exported, bare or quoted, with comments behind them and with or without a byte order mark, gives its settings, the last of each name winning, and is refused iff a winning value holds a NUL |
| `EnvDocument.BadLineIsTold` | internal/config/environment.go:67-79 | reading stops at the first line that is no assignment or has a bad value and tells its number |
| `EnvDocument.NoEqualsSign` | internal/config/environment.go:73-75 | a line without an equals sign that is neither blank nor a comment is no assignment |
| `EnvDocument.ExportNeedsAName` | internal/config/environment.go:70-75 | nor is `export` with a blank and an equals sign behind it |
| `EnvDocument.TrailingTextIsRefused` | internal/config/environment.go:98-101 | text behind a quoted value that is no comment is refused |
| `EnvDocument.UnclosedIsRefused` | internal/config/environment.go:95-115 | a quote that is not closed is refused, an escaped quote does not close it |
| `Template.ReferenceMeans` | internal/config/environment.go:42-61 | a reference is replaced by the variable if it is set, else by its default, else refused by name; the text around it stays |
| `Template.InterpolateEnv` | internal/config/environment.go:42-61 | the loop computes the left-to-right interpolation with its first error |
| `Template.RenderedEvaluates` | internal/config/environment.go:42-61 | interpolating rendered parts gives the concatenation of their values, with no rescanning |
| `Template.AcceptsRenderings` | internal/config/environment.go:42-61 | a value is accepted with a result iff it renders plain parts whose references are set or have defaults, with that value |
| `Template.OthersAlwaysFail` | internal/config/environment.go:49-53 | a value that renders no plain parts fails in every environment |
| `Environment.ResolveEnvironment` | internal/config/environment.go:17-40 | succeeds iff no file path is blank, all files can be read and parse, all inline entries interpolate against inherited variables and files, and the result is valid; the order of the entries does not matter |
| `Environment.ResolvedMeans` | internal/config/environment.go:17-40 | the result has the names of files and inline entries only; inline entries win over files, later files over earlier ones |
| `TreeOrder.TreeOrder` | internal/tui/model.go:474-505 | terminates on any parent links; every PID exactly once; for distinct PIDs a permutation in which the rooted processes come first, in the preorder of their trees with siblings by PID |
| `TreeOrder.OrderedMeans` | internal/tui/model.go:496-504 | what the two passes of the walk give: every PID once, and for distinct PIDs the trees in order before everything else |
| `TreeOrder.Walk.Visit` | internal/tui/model.go:484-495 | the recursive closure, on shared, missing or cyclic links |
| `TreeOrder.VisitedIsPreorder` | internal/tui/model.go:484-495 | visiting a rooted process appends exactly the preorder of its subtree |
| `TreeOrder.PreorderIsSubtree` | internal/tui/model.go:490-494 | that block holds exactly the process and its descendants |
| `TreeOrder.SubtreesAreContiguous` | internal/tui/model.go:496-500 | the subtree of every rooted process is one contiguous block that starts with it |
| `TreeOrder.ParentsFirst` | internal/tui/model.go:496-500 | every process whose parent chain reaches a root comes after its parent |
| `TreeOrder.RestIsUnrooted` | internal/tui/model.go:501-503 | what follows the trees is exactly the processes whose chain never leaves the list |

## Left out

- Processes, signals, shell commands and log forwarding: a launch returns or fails, a process exits at any time, `Kill` is recorded.
- Readiness probes: they return ok or not; with no endpoint they return ok even after cancellation.
- Deadlines and contexts of callers: any wait may end early. Progress counts steps, not time; only the idle clock is modelled.
- A `go` statement is one step with the critical section before it, because nothing the new goroutine does can be seen earlier.
- Supervisor: its `closing` flag, its lookup of unknown services and actions, and the joining of errors; cancellation of the shared lifecycle and the manual stop are modelled. The race between the flag and `Action` is covered, because operators may act at any step.
- ServiceObject.Service.AcquirePass: one pass of the retry loop, not the loop, which may go round for ever while others stop the service.
- ServiceObject.Service.StopLocked: the error that `waitForStop` re-reads after waking is not tied to the stop that was waited for, because a later stop may have reset it.
- Shutdown.NoClientLeaseAfterDrain: leases taken by an operator's start action in the terminal interface are not client leases and may still be outstanding.
- HTTP and HTTP/2 transport, `httputil.ReverseProxy`, h2c and gRPC status text: of the handler only acquire and release around a request are modelled.
- The generation counter is a natural number without wrap-around at 64 bits.
- Include.Load: YAML decoding, home and symlink resolution and file reads; a file is its apps and its resolved references, the same at every read.
- Normalize.Normalize: whether `pwd` names a directory is a flag, the process's environment a parameter, and an environment file is blank, unreadable or its contents. Error texts are not modelled, only which configurations are accepted and with what result. Durations are integers.
- Routing.Router.Match: the library function that splits a port off a host is a parameter; the theorems hold for every such function.
- Routes.AcceptedRoutesUnambiguously: the order of endpoints within an app is arbitrary, not sorted by name, and the map of reverse proxies is not modelled.
- Text: white space is that of Unicode, letter case that of ASCII, characters are code points; Go's functions know the letter case of Unicode, and lengths there count bytes.
- EnvFile.PrintedFileParses: the printer is this model's own; the program has none. EnvDocument.dfy covers the forms it does not print.
- TreeOrder.TreeOrder: the order of the processes that no root reaches is only said to be that of the walk, and which of several processes with one PID is kept is not determined.
- The terminal interface apart from the process order, command-line flags, doctor output, the log store and the sampler are not part of this model.
