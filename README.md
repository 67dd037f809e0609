# flywheel — a verified model of its control core

flywheel suspends a costly backend (raw EC2 instances and Auto Scaling
groups) when it sits idle and wakes it when traffic arrives, proxying HTTP
requests to it once it is up. One authority object, `Flywheel`, owns the
lifecycle state (`status`, `ready`, `stopAt`, `lastStarted`, `lastStopped`)
and changes it one event at a time: a caller's ping (`RecvPing`), the
periodic tick (`Poll`) and a health notification (the health branch of
`Spin`). Starting and stopping are ordered chains of failable AWS calls
that halt at the first error. The HTTP front end turns every request into a
ping and chooses a response from the reply.

This project models that core in Dafny and proves its rules.

- `wrappers.dfy`: `Option`, used for Go's `error` (None is `nil`).
- `status.dfy` (module `Statuses`): the five statuses and their names.
- `cloud.dfy` (module `Cloud`): the AWS calls as values, an oracle that
  answers them, the configuration, and the halting discipline of an
  `err == nil` chain.
- `lifecycle.dfy` (module `Lifecycle`): the start and stop sequences as
  functions: the calls they issue, in order, and where they halt.
- `machine.dfy` (module `Machine`): each handler as a function on a state
  value (`Core`), and the lemmas that state the handlers' rules.
- `flywheel.dfy` (module `Authority`): the `Flywheel` class. Its fields are
  updated in place by methods that mirror the Go code step by step. Each
  method is proved to perform exactly the transition of its `Machine`
  function.
- `front.dfy` (module `Front`): `ProxyEndpoint`, the ping `SendPing` builds,
  and the response `ServeHTTP` chooses.
- `snapshot.dfy` (module `Snapshot`): the status file written at shutdown
  and read at start-up.

Modelling choices:

- Time is an integer. Each event is handled at one instant `now`, so
  `time.Now().After(x)` is `now > x` and `x.Before(time.Now())` is
  `x < now`. Go's zero `time.Time` is `ZERO_TIME` (0). Durations use the
  same unit.
- AWS is an `Oracle`: a total function from the history of issued calls
  and the next call to its error (`None` on success), plus the members a
  `DescribeAutoScalingGroups` reports. The class keeps every issued call in
  `trace`, so order and halting are stated on the trace.
- The "terminate" groups are traversed by `range` over a Go map, whose order
  is unspecified. Every operation that traverses them takes an `order`
  parameter that enumerates the map's keys once each (`Enumerates`). No
  property depends on that order.
- `ready` is written by the health watcher, which is not part of this
  model. `SetReady` stands for that write.
- The status constants are taken to be numbered from zero in the order
  STOPPED, STARTING, STARTED, STOPPING, UNHEALTHY. `StatusString` is not
  part of this model; it is taken to return the constants' own names.
- `ProxyEndpoint` appears twice in the source, identically, at
  flywheel.go:74-80 and http.go:20-26. It is modelled once.

Where the code departs from what its comments, its names and the status
file format suggest, the model follows the code:

- `Start` stamps `lastStarted` and `Stop` stamps `lastStopped` before their
  chains run, so a failed start or stop still updates that timestamp
  (flywheel.go:175, flywheel.go:270).
- A plain ping while STARTED sets `stopAt` to `now + idleTimeout`. This is
  not always later than before: an earlier ping may have set a longer
  explicit timeout (flywheel.go:129-134).
- Restoring the status from the file does not work as written; see
  Findings.

## Model

| member | source | states |
|---|---|---|
| Statuses.StatusFromName | flywheel.go:139 | the status name printed in a reply identifies the status: a recognised name maps back to the status it names |
| Cloud.AndThen | flywheel.go:179-186 | an `err == nil` step: after a failure nothing more is issued and that error is kept; after a success the next step's calls follow |
| Cloud.Chain3 | flywheel.go:178-191 | three chained steps end at the first failed one, or issue all three and report the last step's result |
| Cloud.AndThenHalts | flywheel.go:181-186 | chaining two steps keeps the halting discipline: every call before the last succeeded, and the last one's error is the one returned |
| Lifecycle.RunCalls | flywheel.go:225-227 | a run of calls issues a prefix of them, at least one if there are any, and all of them when it succeeds |
| Lifecycle.RunCallsHalts | flywheel.go:244-246 | a run of calls stops right after the first failed call and returns its error |
| Lifecycle.RunCallsAppend | flywheel.go:317-333 | running two lists back to back is running the first, then the second only if the first succeeded |
| Lifecycle.GroupRunFollowsPlan | flywheel.go:309-347 | one group's turn issues describe, then suspend ReplaceUnhealthy, then stop members (or describe then start members on start), halting at the first error |
| Lifecycle.ForEachGroupFollowsPlan | flywheel.go:235-263 | a loop over groups issues the groups' calls one group after another and halts at the first failed call |
| Lifecycle.ForEachGroupErrorSticks | flywheel.go:366-368 | once a group's turn fails, no later group is touched and that error is the loop's result |
| Lifecycle.SweepPlanSplit | flywheel.go:236-263 | each group's calls are contiguous and come after all calls of the groups before it |
| Lifecycle.RestorePlanCoversGroups | flywheel.go:216-229 | the restore loop sets each traversed group's minimum and maximum to its configured size, and makes no other call |
| Lifecycle.ShrinkPlanCoversGroups | flywheel.go:357-370 | the terminate loop sets each traversed group's minimum and maximum to zero, and makes no other call |
| Lifecycle.TerminateSweepsCoverMap | flywheel.go:216 | traversing the whole "terminate" map, in any order, restores or shrinks every configured group exactly once |
| Lifecycle.SingleCallPlanLength | flywheel.go:357-370 | the restore and terminate loops issue one call per group |
| Lifecycle.EnumerationSize | flywheel.go:357 | a `range` over the map visits as many groups as the map holds |
| Lifecycle.RawPlan | flywheel.go:200-211 | the raw-instance step issues no call when no instance is configured, and otherwise exactly one call naming all of them |
| Lifecycle.StartFollowsPlan | flywheel.go:174-197 | `Start` issues raw start, then every restore, then per group describe and start, as a prefix halted at the first error |
| Lifecycle.StopFollowsPlan | flywheel.go:269-291 | `Stop` issues raw stop, then every shrink to zero, then per group describe, suspend and stop, as a prefix halted at the first error |
| Machine.Reply | flywheel.go:138-142 | the reply copies the status, its name, both timestamps and the deadline, and carries the given error |
| Machine.Dispatch | flywheel.go:89-107 | the loop handles one event at a time; a ping and only a ping gets a reply; a health notification issues no AWS call |
| Machine.PingInTransitIsReadOnly | flywheel.go:112-145 | in STARTING, STOPPING or UNHEALTHY a ping changes nothing and is still answered with the current state and no error |
| Machine.PongReportsNewState | flywheel.go:138-142 | the reply reports the state as it is after the ping was handled, with the status's name |
| Machine.PingStartFromStopped | flywheel.go:119-122 | from STOPPED a start request runs the start chain and stamps `lastStarted`; success gives STARTING, not ready, deadline one idle timeout away; failure keeps status, `ready` and deadline and returns the error |
| Machine.PingStoppedWithoutStart | flywheel.go:119-122 | from STOPPED a ping without a start request changes nothing |
| Machine.PingStartedPrecedence | flywheel.go:124-135 | while STARTED: noop keeps everything, else a stop request runs `Stop`, else a non-zero timeout sets the deadline that far ahead, else the idle timeout does |
| Machine.StopStepOutcome | flywheel.go:269-291 | `Stop` stamps `lastStopped`; success gives STOPPING, not ready, deadline at the stop instant; failure keeps status, `ready` and deadline and returns the error |
| Machine.PingCallsOnlyFromStoppedOrStarted | flywheel.go:118-136 | a ping issues AWS calls only when starting from STOPPED or stopping from STARTED |
| Machine.PollIdleStops | flywheel.go:151-156 | an expired deadline while STARTED runs the stop chain once and enters STOPPING even when the chain failed |
| Machine.PollBeforeDeadline | flywheel.go:151-156 | while STARTED and not past the deadline, a tick changes nothing |
| Machine.PollTransitions | flywheel.go:158-170 | STARTING becomes STARTED with a fresh deadline, and STOPPING becomes STOPPED, only when ready; STOPPED and UNHEALTHY never change |
| Machine.HealthNotification | flywheel.go:95-106 | the current status is a no-op; another status is adopted; the deadline is rearmed only for STARTED with a deadline already past |
| Machine.HealthRecoveryNotStoppedAtOnce | flywheel.go:98-104 | a session recovering from UNHEALTHY with a lapsed deadline gets the deadline one idle timeout ahead, and no tick up to that deadline stops it |
| Machine.ScenarioColdStart | flywheel.go:119-122 | fresh start request replies STARTING; a tick before readiness keeps STARTING; a tick after readiness gives STARTED with a fresh deadline |
| Machine.ScenarioIdleShutdown | flywheel.go:151-162 | an idle STARTED session goes to STOPPING on a tick, then to STOPPED on the tick after readiness |
| Machine.ScenarioStopFails | flywheel.go:127-128 | a failed stop request reports the error and keeps STARTED and the deadline |
| Front.ProxyEndpoint | http.go:20-26 | the configured virtual host's backend when the host name is present, the default endpoint otherwise |
| Front.SendPing | http.go:10-18 | the ping of an HTTP request is never a noop, never a stop and never sets a timeout; only the start flag varies |
| Front.RequestsStart | http.go:64-66 | start is requested exactly when the `flywheel` parameter is present and its first value is `start` |
| Front.Respond | http.go:61-97 | a `flywheel` parameter always redirects; otherwise an error page wins; only STARTED forwards to the resolved backend; STOPPED shows the start page |
| Front.RedirectStripsOnlyDirective | http.go:68-73 | the redirect keeps the path and every other parameter with its values, drops `flywheel`, and does not request a start again |
| Front.ForwardCarriesNoDirective | http.go:90-91 | a forwarded request never carries the `flywheel` parameter |
| Front.StartLinkRoundTrip | http.go:83-87 | the STOPPED page links to the same URL with `flywheel=start`; following it requests a start and redirects back to the original URL |
| Front.HttpPingIsKeepAliveOrStart | http.go:12 | while STARTED an HTTP request only refreshes the idle deadline; it changes state only while STARTED or when asking to start from STOPPED |
| Snapshot.FromCode | flywheel.go:432 | an integer names a status exactly when it is one of the five constants' values |
| Snapshot.Save | flywheel.go:384-389 | the file carries the status name, both timestamps and a zero deadline |
| Snapshot.LoadAsWritten | flywheel.go:425-434 | as written, loading a file sets the status numbered zero (STOPPED) whatever the file says, copies both timestamps from the file and leaves every other field alone |
| Snapshot.SaveLoadAsWrittenLosesStatus | flywheel.go:432 | saving a STARTED flywheel and loading the file yields STOPPED |
| Snapshot.Load | flywheel.go:403-435 | a file naming a status restores that status and both timestamps; no file, or a name that is no status, changes nothing; `ready`, deadline and trace are never touched |
| Snapshot.SaveLoadRoundTrip | flywheel.go:374-435 | saving then loading restores the status and both timestamps and leaves every other field as it was |
| Authority.Flywheel.constructor | flywheel.go:57-71 | a new flywheel is STOPPED, not ready, with the deadline at creation time and zero timestamps |
| Authority.Flywheel.Describe | flywheel.go:239-246 | describing a group issues one call and returns its error and reported members |
| Authority.Flywheel.StartRawInstances | flywheel.go:200-211 | issues the raw-instance start plan and returns its error |
| Authority.Flywheel.StopRawInstances | flywheel.go:294-305 | issues the raw-instance stop plan and returns its error |
| Authority.Flywheel.UnterminateAutoScaling | flywheel.go:214-230 | issues the restore loop over the map in the given traversal order, returning at the first error |
| Authority.Flywheel.TerminateAutoScaling | flywheel.go:354-371 | issues the shrink-to-zero loop in the given traversal order, returning at the first error |
| Authority.Flywheel.WakeGroup | flywheel.go:239-262 | one group: describe, then start the reported members unless the describe failed |
| Authority.Flywheel.StartAutoScaling | flywheel.go:235-266 | the per-group describe-and-start loop, returning at the first error |
| Authority.Flywheel.ParkGroup | flywheel.go:312-347 | one group: describe, suspend ReplaceUnhealthy, stop the reported members, each only if the previous call succeeded |
| Authority.Flywheel.StopAutoScaling | flywheel.go:308-351 | the per-group describe-suspend-stop loop, returning at the first error |
| Authority.Flywheel.StartSequence | flywheel.go:178-186 | the start chain issues exactly the calls of `StartChain` and returns its error |
| Authority.Flywheel.StopSequence | flywheel.go:272-280 | the stop chain issues exactly the calls of `StopChain` and returns its error |
| Authority.Flywheel.Start | flywheel.go:174-197 | updates the fields exactly as `StartStep`: stamp, chain, and the STARTING transition only on success |
| Authority.Flywheel.Stop | flywheel.go:269-291 | updates the fields exactly as `StopStep`: stamp, chain, and the STOPPING transition only on success |
| Authority.Flywheel.RecvPing | flywheel.go:112-145 | returns exactly one reply and updates the fields exactly as `PingStep` |
| Authority.Flywheel.Poll | flywheel.go:149-171 | updates the fields exactly as `PollStep` |
| Authority.Flywheel.RecvHealth | flywheel.go:95-106 | updates the fields exactly as `HealthStep` |
| Authority.Flywheel.SetReady | flywheel.go:46 | the watcher's write of `ready` changes nothing else |
| Authority.Flywheel.SpinOnce | flywheel.go:89-107 | one loop turn performs `Dispatch`: the event's handler, and a reply for a ping only |
| Authority.Flywheel.ServeHTTP | http.go:61-97 | pings with the start flag from the query, updates state as `PingStep`, and answers `Respond` on the reply |
| Authority.Flywheel.WriteStatusFile | flywheel.go:374-400 | returns the saved record, which the corrected `Snapshot.Load` (not the reader as written) maps back to the current state |
| Authority.Flywheel.ReadStatusFile | flywheel.go:403-435 | updates the fields exactly as the corrected `Load` |

## Left out

- Goroutines, channels and `select` in `Spin` (flywheel.go:83-108) and the
  blocking exchange in `SendPing`: events are handled one at a time by
  `SpinOnce`, and "exactly one reply" is a method that returns one `Pong`.
- The health watcher (`HealthWatcher`) is not part of this model. Its
  notifications are inputs to `RecvHealth` and its writes of `ready` are
  `SetReady`.
- AWS SDK construction (flywheel.go:57-71) and the calls themselves: each
  call is an abstract success or error answered by the oracle.
- `resp.AutoScalingGroups[0]` (flywheel.go:248, 321) panics when a describe
  lists no group; the model takes a successful describe to report one group,
  and takes that group to be the one named in the request, so the suspend
  call of flywheel.go:325 names the requested group rather than the name
  the response reports.
- `Proxy` (http.go:28-59): transport, header copying, body streaming, and
  the fatal exit on an empty endpoint. `Respond` only names the endpoint.
- The HTML templates, `StatusString`, and `url.Values.Encode` (escaping and
  key order): a response carries the query as a map, not its text.
- JSON encoding and file I/O of the status file: a file is the record of
  its fields, and a missing, unreadable or undecodable file is `None`.
- `time.Time` details (location, monotonic reading) and `time.Duration`
  overflow: times and durations are unbounded integers.
- All `log` calls, including the one a missing status file triggers.

## Findings

| source | as written | input that shows it | evidently intended | confidence | as-written member | corrected member |
|---|---|---|---|---|---|---|
| flywheel.go:432 | `ReadStatusFile` restores the status from `Pong.Status`, which is tagged `json:"-"`, so it is never written or decoded and always reads as zero | save while STARTED, then restart: the file names STARTED, the loaded status is the constant numbered zero (STOPPED under the assumed numbering) | restore the status from the `status` name the file carries | medium, not executed; the constants' values are not part of this model | Snapshot.SaveLoadAsWrittenLosesStatus | Snapshot.SaveLoadRoundTrip |
