# Verified model of the UniUbi motion and media nodes

This project models, in Dafny, the parts of the UniUbi ROS 2 packages whose correctness depends
on timing and interleaving, and proves what they keep over whole runs.

**The control session of `MotionHighLevelClient`.** A synchronous RPC spins the executor, so
renewal ticks, renew replies and revocation events run in the middle of other calls. The
session is a transition system with three kinds of steps: a call begins, callbacks run, the
call ends with any reply (`ControlSession`). `SessionSafety` holds what every reachable state
satisfies, `Lease` the timing of the lease, `Acquisition` the deadline arithmetic of
`startControl`, `Events` the routing of robotServer events. `Client` is the class with its
mutable fields; each of its methods is proved equal to the corresponding steps.

**The worker of `MotionBridgeNode`.** `Velocity` is the latest-wins `cmd_vel` slot with rate
limit, staleness check and watchdog; `Poll` the asynchronous poll with a one-second deadline,
used for motion and battery state; `Ownership` the commands as functions on the bridge's state,
built on the client's calls. `Worker` puts them together: the FIFO of commands and the turns
of the loop. Over runs of the worker, `WorkerQueue` tells which commands are answered,
`WorkerCommands` proves stop-before-release over the whole RPC trace, and `WorkerVelocity` and
`WorkerPolling` prove that the channel and the polls go through runs of their components and
state their theorems for the whole thread. `SessionTrace` and `WorkerSession` do the same for the
client's session, and carry the lease bound and the notifications over. `BridgeNode` has the
classes with mutable fields, each method tied to these specifications. `JointLayout` covers the
motor layout and the joint states made with it.

**The RTSP driver.** `Mailbox` is one camera: a decoder thread, a publisher thread, a one-image
slot and the cached converter and encoder. `RtspConfig` is the validation of parameters and the
construction of topics.

Time is in whole milliseconds and never goes back. The network may lose, delay, repeat or
deliver replies late. Replies are the cases the code distinguishes: transport failure, bad
code, malformed, rejected, accepted. Fields named notices, forwarded, rpcs, received,
dispatched, sends, converted and the like are histories that the code does not store; they say
what was delivered.

## Findings

Properties one would expect that do not hold of the code as it is; each has its exact condition.

- A take reply that names a controller and carries a lease outside 32 bits makes the conversion
  throw out of `startControl` after the controller was stored: the client stays connected with a
  controller (`SessionSafety.StaleControllerExample`, `SessionSafety.IdleControllerEmptyIff`).
- Control granted under an empty controller name never expires by ticks
  (`Lease.UnnamedControlNeverExpires`, `Lease.UnnamedControlExample`,
  `Lease.OverdueTickExpiresIff`).
- `disconnect()` after a failed release tells the callback nothing
  (`SessionSafety.SilentDisconnectExample`, `SessionSafety.DisconnectNoticeIff`).
- `startControl` can never acquire if and only if its timeout is between 1 and 3000 ms
  (`Acquisition.NeverTakesIff`).
- `release_control` without control succeeds and discards nothing: a velocity received before it
  is still handed to `setActionParams` after it (`WorkerVelocity.ReleaseWithoutControlExample`). A successful release discards
  if and only if control is held when it starts (`WorkerVelocity.SuccessDiscardsIff`).
- docs/motion_bridge.md says that an input timeout sends one parameter set with zero velocities.
  The code does so only while control is held and the last accepted velocity was not zero
  (`Velocity.SilenceWithoutControlExample`, `Velocity.WatchIff`, `Velocity.ActiveIff`), once until
  the next dispatch or reset (`Velocity.FiredIff`).
- A command can stay unanswered: no value is ever set for commands still queued when the worker
  loop ends (`WorkerQueue.UnansweredExample`). It is answered if and only if the loop makes one more
  turn than there were commands ahead of it before it quits (`WorkerQueue.CommandAnsweredIff`).
- The connect callback is never told kDisconnected, so what the bridge does for that state is
  never done (`WorkerSession.WorkerSession`).
- The fallback layout's guard compares a sum of limb sizes that wraps around at 2^64. Parameters
  that pass it only for that reason make the second pass read past the names
  (`JointLayout.WrappedLayoutExample`); they describe a layout if and only if the sum is below 2^64
  (`JointLayout.GuardIsSoundIff`).
- Fallback layouts with more than 2^32 limbs, or joints in a limb, repeat keys
  (`JointLayout.FallbackKeysIncreaseIff`).

## Model

| member | source | states |
|---|---|---|
| `ControlSession.RenewInterval` | src/uniubi_motion_client/src/motion_high_level_client.cpp:816-820 | the renew interval is a third of the lease, rounded down, while that lies between 200 ms and 10 s; shorter leases give 200 ms and longer ones 10 s |
| `SessionSafety.ReachableSession` | src/uniubi_motion_client/src/motion_high_level_client.cpp:120-156 | in every reachable state, also while a synchronous RPC spins: without control there is no timer and no renewal in flight; request and deadline exist together; a renewal in flight belongs to the present controller and lease |
| `SessionSafety.IdleControllerEmptyIff` | src/uniubi_motion_client/src/motion_high_level_client.cpp:239-259 | "without control the controller is empty" holds at every yield point of a run if and only if no take reply of the run named a controller with a lease outside 32 bits |
| `SessionSafety.StaleControllerExample` | src/uniubi_motion_client/src/motion_high_level_client.cpp:248-251 | a concrete run in which it fails: the controller is stored before reading the lease throws |
| `SessionSafety.GenerationSafety` | src/uniubi_motion_client/src/motion_high_level_client.cpp:892-923 | whichever sent renewal the network answers in any reachable state, the reply changes the session if and only if it answers the one in flight; the controller test rejects nothing that the sequence test let through; a second answer changes nothing |
| `SessionSafety.RetiredStaysRetired` | src/uniubi_motion_client/src/motion_high_level_client.cpp:869-880 | a renewal that timed out or belongs to an earlier session is never again the one in flight, in any continuation |
| `SessionSafety.LossReasons` | src/uniubi_motion_client/src/motion_high_level_client.cpp:954-963 | every way out of control, its error and its notification: ticks and renew replies expire, status events revoke, an accepted release or disconnect() gives up; nothing else does |
| `SessionSafety.ControlEndsIff` | src/uniubi_motion_client/src/motion_high_level_client.cpp:858-963 | in every reachable state a step ends control if and only if it is an overdue tick of a named controller, a renewal refused, failed or unusable, a status event that does not confirm this controller, an accepted release, or the end of a disconnect() |
| `SessionSafety.TickRenewsIff` | src/uniubi_motion_client/src/motion_high_level_client.cpp:887-903 | a tick attempts a renewal if and only if a named controller has none in flight and the time is between the renew interval and the end of the lease; a send that succeeds is in flight for 3 s |
| `SessionSafety.TickGivesUpIff` | src/uniubi_motion_client/src/motion_high_level_client.cpp:869-880 | a renewal in flight is given up by the first tick at or after its deadline and by none before |
| `SessionSafety.LeaseHistory` | src/uniubi_motion_client/src/motion_high_level_client.cpp:135-141 | over all runs the lease is the one that the latest connect, grant or renewal named |
| `SessionSafety.ConnectsIff` | src/uniubi_motion_client/src/motion_high_level_client.cpp:120-142 | connect() connects if and only if the service is up, and reports it otherwise |
| `SessionSafety.RefusedTakeSaysSo` | src/uniubi_motion_client/src/motion_high_level_client.cpp:169-175 | a take refused changes nothing but the error, and is notified once |
| `SessionSafety.DisconnectsIff` | src/uniubi_motion_client/src/motion_high_level_client.cpp:144-156 | a client becomes disconnected exactly by disconnect(): at once without control, and else when its release has ended |
| `SessionSafety.StepError` | src/uniubi_motion_client/src/motion_high_level_client.cpp:693-787 | the last error is that of the latest step that has one - local refusal, reply, expiry, revocation - and successes and reading it clear it |
| `SessionSafety.OnlyGrantsAcquire` | src/uniubi_motion_client/src/motion_high_level_client.cpp:226-261 | control begins exactly when the reply to a take grants it, with the timer running, no renewal in flight, the activity set to that moment, and one notification |
| `SessionSafety.NotificationCoherence` | src/uniubi_motion_client/src/motion_high_level_client.cpp:253-289 | over all runs each notification carries the state the client is in, never kDisconnected; without disconnect() the last one says kControlled if and only if the client is controlled, also when a revocation lands inside a release |
| `SessionSafety.DisconnectNoticeIff` | src/uniubi_motion_client/src/motion_high_level_client.cpp:144-156 | after disconnect() the last notification is still truthful if and only if its release was accepted or control was already lost |
| `SessionSafety.SilentDisconnectExample` | src/uniubi_motion_client/src/motion_high_level_client.cpp:144-156 | a concrete run in which it is not: the release of a disconnect() gets no answer |
| `SessionSafety.ActivityHistory` | src/uniubi_motion_client/src/motion_high_level_client.cpp:822-832 | over all runs the activity time is that of the latest accepted take, start, stop, parameter change, emergency stop or renewal; failed, audio, light and query calls leave it alone |
| `SessionSafety.BusySessionsDoNotRenew` | src/uniubi_motion_client/src/motion_high_level_client.cpp:883-892 | while refreshing calls come closer together than the renew interval no renewal is sent and none is in flight |
| `Lease.TickBoundsLease` | src/uniubi_motion_client/src/motion_high_level_client.cpp:858-908 | a tick that leaves a named controller in control comes before activity + lease + 3000 |
| `Lease.LeaseOverrunBound` | src/uniubi_motion_client/src/motion_high_level_client.cpp:858-952 | with ticks at most delta apart, no step of any run finds control held lease + 3000 + delta after the latest refresh, whatever renewals, calls and callbacks are interleaved |
| `Lease.UnnamedControlNeverExpires` | src/uniubi_motion_client/src/motion_high_level_client.cpp:860-863 | with an empty controller name no sequence of ticks, however late, ends control |
| `Lease.UnnamedControlExample` | src/uniubi_motion_client/src/motion_high_level_client.cpp:248-261 | a concrete run: a take granted under an empty name outlives its lease by any time |
| `Lease.OverdueTickExpiresIff` | src/uniubi_motion_client/src/motion_high_level_client.cpp:860-880 | an overdue tick ends control if and only if the controller has a name |
| `Lease.RetryGuarantee` | src/uniubi_motion_client/src/motion_high_level_client.cpp:858-908 | after any run, an accepted control call with no renewal in flight and then an outage - nothing refreshes, releases or revokes, while failing calls, queries, confirming events and late replies may come: if the outage ends the session, at least 1 + (lease - interval - delta) / (3000 + 2 delta) renewals were attempted, and all of them sent where no send throws |
| `Lease.DefaultLeaseRetries` | src/uniubi_motion_client/src/motion_high_level_client.cpp:816-820 | with the 60 s lease and 200 ms ticks that is at least 15, all sent where no send throws |
| `Acquisition.RetryUntil` | src/uniubi_motion_client/src/motion_high_level_client.cpp:180-217 | the loop yields the record that RetriedTells speaks about |
| `Acquisition.RetriedTells` | src/uniubi_motion_client/src/motion_high_level_client.cpp:180-217 | attempts begin in turn, the first at once and each other one where its refused predecessor's sleep ended; the loop stops at the first one accepted, when that returns, and gives up only when no other could begin before the deadline; their number is at most the time allowed over the pause, rounded up |
| `Acquisition.AttemptTiming` | src/uniubi_motion_client/src/motion_high_level_client.cpp:187-216 | an attempt returns when done, at its cap or at the deadline, whichever is first; the next begins after the pause, cut short at the deadline |
| `Acquisition.AcquireTimeline` | src/uniubi_motion_client/src/motion_high_level_client.cpp:158-241 | the timing of startControl is the one TimelineTells speaks about |
| `Acquisition.TimelineTells` | src/uniubi_motion_client/src/motion_high_level_client.cpp:158-241 | at most ceil(T/1000) master-switch attempts, retried as above; the take is sent at most once, 3 s (and the sleep's overrun) after the accepted switch returned and before the deadline, and if and only if a switch was accepted and that time is before the deadline; without oversleeping it returns by the deadline |
| `Acquisition.NeverTakesIff` | src/uniubi_motion_client/src/motion_high_level_client.cpp:178-224 | no behaviour of the robot gets the take sent if and only if the timeout is positive and at most 3000 ms; with any other timeout a prompt robot is always asked |
| `Acquisition.WaitForRpcReady` | src/uniubi_motion_bridge/src/uniubi_motion_bridge_node.cpp:402-426 | the wait yields the record that ReadinessTells speaks about |
| `Acquisition.ReadinessTells` | src/uniubi_motion_bridge/src/uniubi_motion_bridge_node.cpp:402-426 | the readiness wait makes between 1 and 25 queries, and gives up only when no other one could begin within its 5 s |
| `Client.CallIsRun` | src/uniubi_motion_client/src/system_rpc_client_base.cpp:167-186 | a synchronous call is begin, any callbacks, finish: the class methods perform runs of the transition system |
| `Client.CallbacksInertWhenIdle` | src/uniubi_motion_client/src/motion_high_level_client.cpp:858-963 | callbacks that run while the executor spins can lose control but never gain it, and without control change nothing |
| `Client.StatusKeepsControlIff` | src/uniubi_motion_client/src/motion_high_level_client.cpp:1095-1110 | a status event keeps control if and only if it says controlled and names this client's own controller, where naming nobody counts as the empty name |
| `Client.TakeIsTimed` | src/uniubi_motion_client/src/motion_high_level_client.cpp:219-236 | the take is answered only if its timing lets it be sent, by the deadline; with a timeout of at most 3 s it never is |
| `Client.MotionHighLevelClient.constructor` | src/uniubi_motion_client/src/motion_high_level_client.cpp:77-113 | a new client is disconnected, with the default lease and no renewal |
| `Client.MotionHighLevelClient.TickRenew` | src/uniubi_motion_client/src/motion_high_level_client.cpp:858-908 | the whole new session is that of the specified tick |
| `Client.MotionHighLevelClient.HandleRenewResponse` | src/uniubi_motion_client/src/motion_high_level_client.cpp:910-952 | the whole new session is that of the specified reply |
| `Client.MotionHighLevelClient.LoseControl` | src/uniubi_motion_client/src/motion_high_level_client.cpp:954-963 | timer, request, controller and state are given up and the callback is told |
| `Client.MotionHighLevelClient.StopRenewTimer` | src/uniubi_motion_client/src/motion_high_level_client.cpp:844-856 | the timer, the pending request and its deadline are gone |
| `Client.MotionHighLevelClient.StartRenewTimer` | src/uniubi_motion_client/src/motion_high_level_client.cpp:834-842 | a fresh timer, no request left over |
| `Client.MotionHighLevelClient.HandleEvent` | src/uniubi_motion_client/src/motion_high_level_client.cpp:1069-1125 | the session changes by a status event only; every other accepted event is forwarded once |
| `Client.MotionHighLevelClient.Spin` | src/uniubi_motion_client/src/system_rpc_client_base.cpp:167-186 | the executor runs the callbacks in order; a tick needs a timer |
| `Client.MotionHighLevelClient.RpcCall` | src/uniubi_motion_client/src/motion_high_level_client.cpp:741-787 | callbacks, then the error for the reply that came |
| `Client.MotionHighLevelClient.Connect` | src/uniubi_motion_client/src/motion_high_level_client.cpp:120-142 | connects only from kDisconnected and when the service is up |
| `Client.MotionHighLevelClient.StartControl` | src/uniubi_motion_client/src/motion_high_level_client.cpp:158-261 | the whole new session and result: an Acquire call whose take ends, and is answered or never sent, as the timing of its script says; true if and only if the client is then controlled; a failure leaves the session as it was but for the error and one notification; an unusable grant raises |
| `Client.MotionHighLevelClient.ReleaseControl` | src/uniubi_motion_client/src/motion_high_level_client.cpp:263-289 | the whole new session, also when control is lost while the release is in flight |
| `Client.MotionHighLevelClient.Disconnect` | src/uniubi_motion_client/src/motion_high_level_client.cpp:144-156 | ends disconnected and clean, after trying to release |
| `Client.MotionHighLevelClient.MotionRpc` | src/uniubi_motion_client/src/motion_high_level_client.cpp:404-488 | start, stop, parameters and emergency stop need control and refresh the lease when accepted, at the time the reply came |
| `Client.MotionHighLevelClient.AuxiliaryRpc` | src/uniubi_motion_client/src/motion_high_level_client.cpp:555-691 | audio and light calls need control and never refresh the lease |
| `Client.MotionHighLevelClient.QueryRpc` | src/uniubi_motion_client/src/motion_high_level_client.cpp:335-402 | queries need a connection only and never refresh the lease |
| `Client.MotionHighLevelClient.GetLastError` | src/uniubi_motion_client/src/motion_high_level_client.cpp:296-301 | reading the error clears it |
| `Events.StatusIsNeverHostEvent` | src/uniubi_motion_client/src/motion_high_level_client.cpp:1078-1081 | no topic is both a status and a host-event topic, for any device ids and sources |
| `Events.HostTopicsNameTheDevice` | src/uniubi_motion_client/src/motion_high_level_client.cpp:1078-1081 | equal topics of two host clients mean equal device ids |
| `Events.EventIsolation` | src/uniubi_motion_client/src/motion_high_level_client.cpp:1069-1084 | two host clients of different robots never both react to one event, for all device ids, topics and payloads |
| `Events.StatusIff` | src/uniubi_motion_client/src/motion_high_level_client.cpp:1086-1110 | an event is taken for a control status if and only if it has the magic number, the client's own status topic and an object payload |
| `Events.RouteIff` | src/uniubi_motion_client/src/motion_high_level_client.cpp:1069-1125 | the fate of every event, exactly: ignored, control status with its two members, host event unwrapped with its name and detail, or passed on as it came |
| `Velocity.PipelineSafety` | src/uniubi_motion_bridge/src/uniubi_motion_bridge_node.cpp:787-830 | over all runs: dispatches are a duplicate-free, in-order subsequence of the finite messages; each was the newest, at most the timeout old, and received after the last reset |
| `Velocity.RateBound` | src/uniubi_motion_bridge/src/uniubi_motion_bridge_node.cpp:812-826 | between resets a window of W ms holds at most W/period + 1 dispatches |
| `Velocity.ReceivedAreFinite` | src/uniubi_motion_bridge/src/uniubi_motion_bridge_node.cpp:787-810 | the messages received over a run are exactly its finite ones, in order |
| `Velocity.NewestTakesSlot` | src/uniubi_motion_bridge/src/uniubi_motion_bridge_node.cpp:787-810 | a finite message takes the slot whatever was in it; any other changes nothing |
| `Velocity.ZeroIff` | src/uniubi_motion_bridge/src/uniubi_motion_bridge_node.cpp:840-842 | a velocity counts as zero if and only if every component is within a millionth of it |
| `Velocity.DispatchesIff` | src/uniubi_motion_bridge/src/uniubi_motion_bridge_node.cpp:812-830 | a dispatch step sends the pending velocity if and only if its time has come and it is at most the timeout old; a stale one is dropped |
| `Velocity.PendingIsDispatched` | src/uniubi_motion_bridge/src/uniubi_motion_bridge_node.cpp:812-830 | in any reachable state a dispatch step a period later sends the pending velocity, if it is fresh then |
| `Velocity.ResetFreesDispatch` | src/uniubi_motion_bridge/src/uniubi_motion_bridge_node.cpp:881-891 | after a reset the first message goes out at once |
| `Velocity.NothingCrossesReset` | src/uniubi_motion_bridge/src/uniubi_motion_bridge_node.cpp:881-891 | after a tracking reset, in any state and whatever follows, nothing received before it is ever dispatched |
| `Velocity.ActiveHasReceiveTime` | src/uniubi_motion_bridge/src/uniubi_motion_bridge_node.cpp:857-871 | an active velocity always has a receive time |
| `Velocity.ActiveIff` | src/uniubi_motion_bridge/src/uniubi_motion_bridge_node.cpp:832-855 | over any run the channel is active if and only if the last velocity accepted since the last reset, a watchdog zero included, is not zero |
| `Velocity.FiredIff` | src/uniubi_motion_bridge/src/uniubi_motion_bridge_node.cpp:872-878 | over any run, between RPCs, the watchdog is marked fired if and only if it has made an attempt since the latest dispatch and the latest reset |
| `Velocity.WatchIff` | src/uniubi_motion_bridge/src/uniubi_motion_bridge_node.cpp:857-879 | in any reachable state a watchdog step makes an attempt if and only if control is held, a non-zero velocity is in force, none was made since the latest dispatch or reset, and the newest message is older than the timeout |
| `Velocity.SilenceWithoutControlExample` | src/uniubi_motion_bridge/src/uniubi_motion_bridge_node.cpp:857-863 | a concrete run in which an active velocity falls silent without control and no attempt is made |
| `Velocity.AttemptsAreSeparated` | src/uniubi_motion_bridge/src/uniubi_motion_bridge_node.cpp:872-878 | between any two watchdog attempts lies a fresh dispatch or a reset |
| `Velocity.WatchEstablishes` | src/uniubi_motion_bridge/src/uniubi_motion_bridge_node.cpp:857-879 | one watchdog step in any reachable state establishes what SilenceIsAnswered starts from |
| `Velocity.SilenceIsAnswered` | src/uniubi_motion_bridge/src/uniubi_motion_bridge_node.cpp:857-879 | while control lasts and watchdog steps come at most gap ms apart, no step finds a non-zero velocity in force, no attempt since the latest dispatch or reset, and the newest message more than timeout + gap old |
| `Poll.AtMostOneHeld` | src/uniubi_motion_bridge/src/uniubi_motion_bridge_node.cpp:631-639 | over all runs at most one request is held locally: the pending one, until its reply arrives |
| `Poll.PublishedOnlyOnTime` | src/uniubi_motion_bridge/src/uniubi_motion_bridge_node.cpp:641-717 | each published state is the body of a reply event of the run, to a request that an update event sent less than 1000 ms before, answered once, never given up, and published by a later update, once and in order |
| `Poll.GivenUpIsNeverPublished` | src/uniubi_motion_bridge/src/uniubi_motion_bridge_node.cpp:631-639 | a request given up, by deadline or cancellation, is never published in any continuation |
| `Poll.OnTimeIff` | src/uniubi_motion_bridge/src/uniubi_motion_bridge_node.cpp:670-680 | a reply is published if and only if its callback ran before send + 1000 ms, however long the worker is kept from looking at it |
| `Poll.UnansweredWaits` | src/uniubi_motion_bridge/src/uniubi_motion_bridge_node.cpp:670-673 | an unanswered request stays pending until an update at or after its deadline gives it up |
| `Poll.PollsAreSpaced` | src/uniubi_motion_bridge/src/uniubi_motion_bridge_node.cpp:676-679 | in any part of any run in which the poll is neither re-armed nor cancelled in flight, consecutive requests go out at least a period apart |
| `Poll.PeriodStartsAtEnd` | src/uniubi_motion_bridge/src/uniubi_motion_bridge_node.cpp:676-679 | the period starts when a poll ends: by publication, by its deadline or by a broken reply |
| `Poll.RearmedPollSendsAtOnce` | src/uniubi_motion_bridge/src/uniubi_motion_bridge_node.cpp:396-398 | a re-armed poll sends at its next update, in any state |
| `Poll.PollsGoOn` | src/uniubi_motion_bridge/src/uniubi_motion_bridge_node.cpp:652-669 | after an update has ended a poll, the first enabled update a period later sends the next request, whatever comes in between, unless a send throws |
| `Poll.FreshPollSends` | src/uniubi_motion_bridge/src/uniubi_motion_bridge_node.cpp:652-669 | a fresh poll sends at its first enabled update |
| `Poll.ThrownSendRetries` | src/uniubi_motion_bridge/src/uniubi_motion_bridge_node.cpp:697-702 | a send that throws puts the request off by one period |
| `Poll.PendingEnds` | src/uniubi_motion_bridge/src/uniubi_motion_bridge_node.cpp:670-680 | in any reachable state an update ends the pending poll if and only if polling is disabled, the reply is there, or the deadline has come |
| `Ownership.ConnectFacts` | src/uniubi_motion_bridge/src/uniubi_motion_bridge_node.cpp:367-400 | connect_client sends queries only, never gains control, does nothing when control is held, and success means connected and ready |
| `Ownership.AcquireFacts` | src/uniubi_motion_bridge/src/uniubi_motion_bridge_node.cpp:428-448 | acquire_control succeeds if and only if control is held afterwards, and says truthfully whether it was acquired by this call |
| `Ownership.StartIsTransactional` | src/uniubi_motion_bridge/src/uniubi_motion_bridge_node.cpp:524-568 | entered without control and failing, start_action leaves no control or reports that it could not be released after a refused rollback; a rollback is reported if and only if the failed start had acquired control itself, as released if and only if a release was accepted; entered with control it sends no release; success sets the new action and resets velocity tracking |
| `Ownership.ReleaseFacts` | src/uniubi_motion_bridge/src/uniubi_motion_bridge_node.cpp:450-480 | release_control sends the release after an accepted stop or with no action only; success means no control, no action, empty tracking |
| `Ownership.ReleaseIsIdempotent` | src/uniubi_motion_bridge/src/uniubi_motion_bridge_node.cpp:450-459 | a repeat after a successful release sends nothing, succeeds and changes nothing, whatever callbacks ran in between |
| `Ownership.LeaveFacts` | src/uniubi_motion_bridge/src/uniubi_motion_bridge_node.cpp:335-347 | leaving the loop ends disconnected with no action, tries to stop a running action, and releases only after that or with no action |
| `Ownership.HaltFacts` | src/uniubi_motion_bridge/src/uniubi_motion_bridge_node.cpp:482-522 | stop_action and emergency_stop send their RPC if and only if control is held, and reset tracking if and only if accepted |
| `Ownership.AnswersAreTruthful` | src/uniubi_motion_bridge/src/uniubi_motion_bridge_node.cpp:428-585 | the answer of every command names an error if and only if the command failed, for all replies and callbacks |
| `Ownership.CallErrorIs` | src/uniubi_motion_client/src/motion_high_level_client.cpp:741-787 | a call succeeds if and only if it is sent and accepted; otherwise its error is the local refusal or the code for the reply |
| `Ownership.ConnectSucceedsIff` | src/uniubi_motion_bridge/src/uniubi_motion_bridge_node.cpp:367-400 | connect_client succeeds if and only if the path is ready, or the service is up and a readiness query is accepted; then it re-arms the motion poll; otherwise it reports the error of the last query |
| `Ownership.AcquireSucceedsIff` | src/uniubi_motion_bridge/src/uniubi_motion_bridge_node.cpp:428-448 | acquire_control succeeds if and only if control is held, or the path is usable and the take granted; an unusable grant raises, any other reply is an acquisition rejected |
| `Ownership.HaltSucceedsIff` | src/uniubi_motion_bridge/src/uniubi_motion_bridge_node.cpp:482-522 | stop and emergency stop succeed if and only if control is held and the robot accepts; then and only then tracking and motion poll start over; the error tells which |
| `Ownership.StartHeldIff` | src/uniubi_motion_bridge/src/uniubi_motion_bridge_node.cpp:540-568 | under control, start_action succeeds if and only if the robot accepts the start; then and only then the action is the new one; its RPCs are exactly the start and, after a failure under fresh control still held, the release |
| `Ownership.StartSucceedsIff` | src/uniubi_motion_bridge/src/uniubi_motion_bridge_node.cpp:524-568 | start_action succeeds if and only if it names an action, control is or gets held, and the start is accepted: if and only if its RPC trace has an accepted start |
| `Ownership.ParamsSucceedsIff` | src/uniubi_motion_bridge/src/uniubi_motion_bridge_node.cpp:967-978 | a parameter change succeeds if and only if control is held and the robot accepts it, and then starts tracking over |
| `Ownership.QuerySucceedsIff` | src/uniubi_motion_bridge/src/uniubi_motion_bridge_node.cpp:575-585 | a capability query succeeds if and only if the path is usable and the query accepted |
| `Ownership.ReleaseSucceedsIff` | src/uniubi_motion_bridge/src/uniubi_motion_bridge_node.cpp:450-480 | the exact RPCs of release_control, and that it succeeds if and only if control was not held or its release was accepted |
| `Ownership.SuccessIsInTrace` | src/uniubi_motion_bridge/src/uniubi_motion_bridge_node.cpp:893-979 | every command asks the robot for its own action, and succeeds if and only if the RPC trace shows it accepted |
| `Ownership.LeaveReleases` | src/uniubi_motion_bridge/src/uniubi_motion_bridge_node.cpp:335-347 | leaving the loop tries to give up control that is still held after its other calls |
| `WorkerQueue.CommandsAreFifo` | src/uniubi_motion_bridge/src/uniubi_motion_bridge_node.cpp:309-327 | over all runs each submitted command is answered at most once and in the order of submission; after the loop has ended nothing is answered, sent or changed |
| `WorkerQueue.AnswersAreServed` | src/uniubi_motion_bridge/src/uniubi_motion_bridge_node.cpp:303-327 | how many commands a run answers, told from its inputs alone |
| `WorkerQueue.CommandAnsweredIff` | src/uniubi_motion_bridge/src/uniubi_motion_bridge_node.cpp:303-327 | a command submitted with k others ahead is answered if and only if the loop makes k + 1 turns afterwards before it quits; the answer is its own |
| `WorkerQueue.AnswersAreOutcomes` | src/uniubi_motion_bridge/src/uniubi_motion_bridge_node.cpp:319-326 | every answer of a run is the outcome of its own command in the turn that executed it; an exception is answered as a failed call |
| `WorkerQueue.UnansweredExample` | src/uniubi_motion_bridge/src/uniubi_motion_bridge_node.cpp:335-347 | a run that leaves a command unanswered for good, whatever comes later |
| `WorkerQueue.CommandsGoFirst` | src/uniubi_motion_bridge/src/uniubi_motion_bridge_node.cpp:321-329 | a turn with a command waiting answers one command and dispatches no velocity |
| `Worker.ExecuteEffects` | src/uniubi_motion_bridge/src/uniubi_motion_bridge_node.cpp:367-585 | a command touches the velocity channel only by resets and the motion poll only by re-arming; every start, stop, emergency stop and parameter change that succeeds resets, and every successful release of control that is held; all others leave the channel alone |
| `WorkerVelocity.SuccessDiscardsIff` | src/uniubi_motion_bridge/src/uniubi_motion_bridge_node.cpp:450-478 | a command that succeeds empties a full velocity slot if and only if it is a start, stop, emergency stop or parameter change, or a release that begins with control held |
| `WorkerVelocity.ReleaseWithoutControlExample` | src/uniubi_motion_bridge/src/uniubi_motion_bridge_node.cpp:452-459 | a concrete run in which a release without control succeeds and a velocity received before it is dispatched after it |
| `WorkerVelocity.SendIsRun` | src/uniubi_motion_bridge/src/uniubi_motion_bridge_node.cpp:832-855 | a send step of the worker is a run of the channel: begun, messages while the RPC runs, ended |
| `WorkerVelocity.WorkerIsVelocityRun` | src/uniubi_motion_bridge/src/uniubi_motion_bridge_node.cpp:301-348 | the channel of the whole worker, commands and shutdown included, goes through a run of Velocity whose watchdog steps are those of the turns, with their times and whether control was held |
| `WorkerVelocity.WorkerPipeline` | src/uniubi_motion_bridge/src/uniubi_motion_bridge_node.cpp:301-348 | the pipeline and watchdog-separation theorems for every run of the worker |
| `WorkerVelocity.WorkerRateBound` | src/uniubi_motion_bridge/src/uniubi_motion_bridge_node.cpp:812-826 | the rate bound for every run of the worker |
| `WorkerVelocity.TurnDispatchesIff` | src/uniubi_motion_bridge/src/uniubi_motion_bridge_node.cpp:327-329 | a turn without a command dispatches the pending velocity if and only if its time has come and it is fresh |
| `WorkerVelocity.SendFollowsRobot` | src/uniubi_motion_bridge/src/uniubi_motion_bridge_node.cpp:832-855 | a velocity sent is in force afterwards if and only if control is held and the robot accepts it |
| `WorkerVelocity.TurnFires` | src/uniubi_motion_bridge/src/uniubi_motion_bridge_node.cpp:857-879 | the watchdog step of a turn fires exactly under its condition, and then sends one more setActionParams and is marked; otherwise it sends nothing |
| `WorkerVelocity.WorkerFiresIff` | src/uniubi_motion_bridge/src/uniubi_motion_bridge_node.cpp:857-879 | in any run of the worker a turn's watchdog makes an attempt if and only if control is held, a non-zero velocity is in force, none was made since the latest dispatch or reset, and the newest message is too old |
| `WorkerVelocity.WorkerAnswersSilence` | src/uniubi_motion_bridge/src/uniubi_motion_bridge_node.cpp:301-333 | after any run and one turn under control, while turns keep coming under control with watchdog steps at most gap apart, no turn finds a non-zero velocity in force, no attempt since the latest dispatch or reset, and its newest message older than timeout + gap |
| `WorkerVelocity.NothingCrossesCommand` | src/uniubi_motion_bridge/src/uniubi_motion_bridge_node.cpp:881-891 | nothing received before a start, stop, emergency stop or parameter change succeeds, or a release of control that is held, is dispatched after it, in any continuation of the worker's run |
| `WorkerPolling.WorkerIsPollRun` | src/uniubi_motion_bridge/src/uniubi_motion_bridge_node.cpp:641-785 | the motion and battery polls of the whole worker each go through a run of Poll, with the replies and updates of the worker's turns |
| `WorkerPolling.WorkerPolls` | src/uniubi_motion_bridge/src/uniubi_motion_bridge_node.cpp:641-785 | for every run of the worker: at most one request per poll, and each published state was brought by a reply of some turn less than 1000 ms after the update that sent its request |
| `WorkerPolling.WorkerPollsAreSpaced` | src/uniubi_motion_bridge/src/uniubi_motion_bridge_node.cpp:641-785 | over every run the battery requests are always a period apart, and the motion requests in every part of it in which no command re-arms the poll |
| `WorkerPolling.WorkerPollsGoOn` | src/uniubi_motion_bridge/src/uniubi_motion_bridge_node.cpp:641-785 | after a turn that ended a motion or battery poll, the first polling turn a period later has sent the next request, whatever comes in between, unless a send throws or the worker quits |
| `WorkerPolling.WorkerStartsPolling` | src/uniubi_motion_bridge/src/uniubi_motion_bridge_node.cpp:641-785 | the first polling turn of a new worker sends the first request |
| `WorkerCommands.ActionChanges` | src/uniubi_motion_bridge/src/uniubi_motion_bridge_node.cpp:705-717 | the current action changes only by the start or release a turn executes, or to the one named by a motion state that the turn publishes |
| `WorkerCommands.ReleaseOrdering` | src/uniubi_motion_bridge/src/uniubi_motion_bridge_node.cpp:450-501 | over the whole RPC trace of every run: each release follows an accepted stop in its own command or finds no action, rolls back control acquired in its own command, or belongs to the shutdown after a stop was tried |
| `WorkerSession.WorkerIsSessionRun` | src/uniubi_motion_bridge/src/uniubi_motion_bridge_node.cpp:301-348 | whatever the worker goes through, the client's session goes through a run of ControlSession, which disconnects only when the loop ends |
| `WorkerSession.WorkerSession` | src/uniubi_motion_bridge/src/uniubi_motion_bridge_node.cpp:233-246 | for every run of the worker the session invariant holds, notifications were truthful, never kDisconnected, and while the loop runs the last one tells control |
| `WorkerSession.WorkerKeepsLease` | src/uniubi_motion_bridge/src/uniubi_motion_bridge_node.cpp:301-348 | the lease overrun bound holds of the bridge thread, whatever commands, velocities and callbacks it goes through |
| `BridgeNode.CmdVelChannel.OnCmdVel` | src/uniubi_motion_bridge/src/uniubi_motion_bridge_node.cpp:787-810 | a finite message replaces the pending one; any other changes nothing |
| `BridgeNode.CmdVelChannel.ApplyVelocity` | src/uniubi_motion_bridge/src/uniubi_motion_bridge_node.cpp:832-855 | the velocity counts as active as it is non-zero, and only when accepted; messages arriving meanwhile are kept |
| `BridgeNode.CmdVelChannel.DispatchPendingVelocity` | src/uniubi_motion_bridge/src/uniubi_motion_bridge_node.cpp:812-830 | the whole channel and session after a dispatch step |
| `BridgeNode.CmdVelChannel.EnforceCmdVelWatchdog` | src/uniubi_motion_bridge/src/uniubi_motion_bridge_node.cpp:857-879 | the whole channel and session after a watchdog step; it is marked fired even if its command was refused |
| `BridgeNode.CmdVelChannel.ResetVelocityTracking` | src/uniubi_motion_bridge/src/uniubi_motion_bridge_node.cpp:881-891 | all tracking is forgotten |
| `BridgeNode.StatusPoll.CancelQuery` | src/uniubi_motion_bridge/src/uniubi_motion_bridge_node.cpp:631-639 | the sequence number moves on and the request is given up |
| `BridgeNode.StatusPoll.HandleReply` | src/uniubi_motion_bridge/src/uniubi_motion_bridge_node.cpp:659-664 | the reply counts only for its own sequence number |
| `BridgeNode.StatusPoll.Update` | src/uniubi_motion_bridge/src/uniubi_motion_bridge_node.cpp:719-785 | the whole poll after an update, as specified |
| `BridgeNode.QueriesMet` | src/uniubi_motion_bridge/src/uniubi_motion_bridge_node.cpp:402-426 | the queries a readiness wait makes: 1 to 25, all refused but the last, which is accepted unless no other could have begun in time |
| `BridgeNode.AcquireLeavesTime` | src/uniubi_motion_bridge/src/uniubi_motion_bridge_node.cpp:436-440 | acquire_control's own timeout lets a prompt robot be asked for control |
| `BridgeNode.MotionBridgeNode.ProbeUntilReady` | src/uniubi_motion_bridge/src/uniubi_motion_bridge_node.cpp:402-426 | makes exactly the queries of the readiness wait, and is ready exactly when the last is accepted |
| `BridgeNode.MotionBridgeNode.ConnectClient` | src/uniubi_motion_bridge/src/uniubi_motion_bridge_node.cpp:367-400 | the state and answer specified for connect_client, with the queries of its readiness wait |
| `BridgeNode.MotionBridgeNode.AcquireControl` | src/uniubi_motion_bridge/src/uniubi_motion_bridge_node.cpp:428-448 | the state and answer specified for acquire_control, with the take as startControl's timing lets it come |
| `BridgeNode.MotionBridgeNode.HaltAction` | src/uniubi_motion_bridge/src/uniubi_motion_bridge_node.cpp:482-522 | refines Ownership.Halt |
| `BridgeNode.MotionBridgeNode.ReleaseControl` | src/uniubi_motion_bridge/src/uniubi_motion_bridge_node.cpp:450-480 | refines Ownership.DoRelease |
| `BridgeNode.MotionBridgeNode.StartAction` | src/uniubi_motion_bridge/src/uniubi_motion_bridge_node.cpp:524-568 | the state and answer specified for start_action, rollback report included |
| `BridgeNode.MotionBridgeNode.SetActionParams` | src/uniubi_motion_bridge/src/uniubi_motion_bridge_node.cpp:967-978 | refines Ownership.SetParams |
| `BridgeNode.MotionBridgeNode.QueryCapabilities` | src/uniubi_motion_bridge/src/uniubi_motion_bridge_node.cpp:575-585 | refines Ownership.DoQuery |
| `BridgeNode.MotionBridgeNode.Enqueue` | src/uniubi_motion_bridge/src/uniubi_motion_bridge_node.cpp:349-360 | the command goes behind all others |
| `BridgeNode.MotionBridgeNode.WorkOnce` | src/uniubi_motion_bridge/src/uniubi_motion_bridge_node.cpp:303-333 | one turn of the loop, as specified by Worker.TakeTurn with the timing of its command, keeping the invariant that the worker theorems need |
| `BridgeNode.MotionBridgeNode.LeaveLoop` | src/uniubi_motion_bridge/src/uniubi_motion_bridge_node.cpp:335-347 | refines Worker.QuitLoop |
| `Mailbox.MailboxSafety` | src/uniubi_media_driver/src/uniubi_rtsp_driver_node.cpp:237-264 | under any interleaving: published images are a duplicate-free, in-order subsequence of the converted ones, and converted = published + overwritten + in the slot + in hand |
| `Mailbox.ConvertedAreDecoded` | src/uniubi_media_driver/src/uniubi_rtsp_driver_node.cpp:233-263 | no frame is lost on the way into the slot: over any run the images converted are exactly the convertible frames of the events, in order |
| `Mailbox.FrameTakesSlot` | src/uniubi_media_driver/src/uniubi_rtsp_driver_node.cpp:233-263 | a frame takes the slot, whatever was in it, if and only if its sides are 1 to 8192, a converter fits it or can be made, and it scales |
| `Mailbox.TakesIff` | src/uniubi_media_driver/src/uniubi_rtsp_driver_node.cpp:280-287 | the publisher ends if and only if it finds the stop flag up, and otherwise takes what is in the slot |
| `Mailbox.EmitsIff` | src/uniubi_media_driver/src/uniubi_rtsp_driver_node.cpp:288-346 | the raw image is published in any case, and compressed if and only if asked for and an encoder of its size is complete or can be built |
| `Mailbox.FailureStops` | src/uniubi_media_driver/src/uniubi_rtsp_driver_node.cpp:93-139 | a publisher that fails stops, and stops the node, without publishing |
| `Mailbox.NewestIsDelivered` | src/uniubi_media_driver/src/uniubi_rtsp_driver_node.cpp:278-346 | when the decoder falls quiet and nothing stops, the last image published is the last convertible frame of the events, and nothing is left over |
| `Mailbox.CachesMatch` | src/uniubi_media_driver/src/uniubi_rtsp_driver_node.cpp:237-246 | converter and encoder, its frame and its converter always match the frame or image they are applied to, through reconnects, size changes and failed rebuilds |
| `Mailbox.StopEndsPublishing` | src/uniubi_media_driver/src/uniubi_rtsp_driver_node.cpp:278-286 | once stopped, at most the image in hand is still published |
| `Mailbox.CameraWorker.PrepareConverter` | src/uniubi_media_driver/src/uniubi_rtsp_driver_node.cpp:239-246 | the converter is kept exactly while it fits the frame |
| `Mailbox.CameraWorker.StoreImage` | src/uniubi_media_driver/src/uniubi_rtsp_driver_node.cpp:259-263 | the sole pending image is overwritten |
| `Mailbox.CameraWorker.DecodePacket` | src/uniubi_media_driver/src/uniubi_rtsp_driver_node.cpp:233-267 | the frames of a packet are handled in order, unusable ones skipped |
| `Mailbox.CameraWorker.TakeImage` | src/uniubi_media_driver/src/uniubi_rtsp_driver_node.cpp:280-287 | the publisher stops, or takes what is in the slot |
| `Mailbox.CameraWorker.PrepareEncoder` | src/uniubi_media_driver/src/uniubi_rtsp_driver_node.cpp:289-320 | the encoder is kept exactly while complete and of the right size |
| `Mailbox.CameraWorker.PublishImage` | src/uniubi_media_driver/src/uniubi_rtsp_driver_node.cpp:288-346 | the image in hand is published, compressed if asked for |
| `Mailbox.WaitReconnect` | src/uniubi_media_driver/src/uniubi_rtsp_driver_node.cpp:161-170 | sleeps the whole delay in slices of at most 100 ms or leaves at the first slice that finds the flag up |
| `RtspConfig.ValidName` | src/uniubi_media_driver/src/rtsp_config.hpp:11-18 | accepts exactly a letter followed by letters, digits and underscores |
| `RtspConfig.NameExamples` | src/uniubi_media_driver/src/rtsp_config.hpp:11-18 | the names of one character are the letters, a second one may be a digit or underscore too, and nothing else is a name character |
| `RtspConfig.JoinOfSplit` | src/uniubi_media_driver/src/rtsp_config.hpp:59-65 | joining the split parts of a path gives the path back |
| `RtspConfig.SplitOfJoin` | src/uniubi_media_driver/src/rtsp_config.hpp:59-65 | splitting joined parts without slashes gives the parts back |
| `RtspConfig.TrimIsUnique` | src/uniubi_media_driver/src/rtsp_config.hpp:55-56 | popping trailing slashes leaves the one prefix that does not end in a slash |
| `RtspConfig.PrefixAccepted` | src/uniubi_media_driver/src/rtsp_config.hpp:55-67 | the splitting loop ends and accepts a prefix if and only if it is only slashes, or an optional slash, names joined by single slashes, and any slashes |
| `RtspConfig.ValidateConfig` | src/uniubi_media_driver/src/rtsp_config.hpp:28-68 | returns normally if and only if the whole configuration is acceptable, names being unique; otherwise the exception tells the first thing wrong |
| `RtspConfig.ImageTopic` | src/uniubi_media_driver/src/rtsp_config.hpp:20-26 | computes the topic of the specification |
| `RtspConfig.TopicOfNames` | src/uniubi_media_driver/src/rtsp_config.hpp:20-26 | a prefix of names gives the topic of those names, the camera and image_raw, after its leading slash if it has one |
| `RtspConfig.TopicOfSlashes` | src/uniubi_media_driver/src/rtsp_config.hpp:20-26 | a prefix of slashes only gives the topic of the camera and image_raw |
| `RtspConfig.TopicsAreDistinct` | src/uniubi_media_driver/src/uniubi_rtsp_driver_node.cpp:81-87 | in every accepted configuration all raw and compressed topics are pairwise distinct |
| `RtspConfig.TopicTokensAreNames` | src/uniubi_media_driver/src/uniubi_rtsp_driver_node.cpp:81-87 | in every accepted configuration every token of every topic is a valid name |
| `JointLayout.FallbackMapsSlots` | src/uniubi_motion_bridge/src/uniubi_motion_bridge_node.cpp:1084-1119 | limb l, joint j gets name prefixSum(l) + j, every name being used once |
| `JointLayout.FallbackKeysIncreaseIff` | src/uniubi_motion_bridge/src/uniubi_motion_bridge_node.cpp:1112-1113 | the keys are strictly increasing if and only if limb and joint numbers fit in 32 bits |
| `JointLayout.FirstsAreDistinct` | src/uniubi_motion_bridge/src/uniubi_motion_bridge_node.cpp:1054-1076 | parsed layouts have distinct keys, cover every usable motor, and keep the first one of each key |
| `JointLayout.FirstsAreInOrder` | src/uniubi_motion_bridge/src/uniubi_motion_bridge_node.cpp:1054-1076 | a parsed layout lists exactly the first usable motors of their keys, in the order of the report |
| `JointLayout.LastMotorIsLast` | src/uniubi_motion_bridge/src/uniubi_motion_bridge_node.cpp:1176-1211 | the specification's motor of a key is the last one reported with it |
| `JointLayout.JoinedIsInOrder` | src/uniubi_motion_bridge/src/uniubi_motion_bridge_node.cpp:1194-1208 | the joint states show exactly the layout entries with a motor observed, in the layout's order, under the layout's names |
| `JointLayout.CountSlots` | src/uniubi_motion_bridge/src/uniubi_motion_bridge_node.cpp:1086-1093 | the sum of the limb sizes modulo 2^64, or a size that is not positive |
| `JointLayout.GuardIsSoundIff` | src/uniubi_motion_bridge/src/uniubi_motion_bridge_node.cpp:1086-1098 | named parameters that pass the guard describe a layout if and only if the sum of the limb sizes is below 2^64; otherwise, and only then, the names run out |
| `JointLayout.WrappedLayoutExample` | src/uniubi_motion_bridge/src/uniubi_motion_bridge_node.cpp:1086-1105 | three limb sizes and one name that pass the guard without describing a layout |
| `JointLayout.FillSlots` | src/uniubi_motion_bridge/src/uniubi_motion_bridge_node.cpp:1100-1115 | builds the fallback layout, or finds an empty name, or reads past the last name; each exactly when |
| `JointLayout.JointStateSource.ConfigureFallback` | src/uniubi_motion_bridge/src/uniubi_motion_bridge_node.cpp:1084-1119 | succeeds if and only if the parameters describe a layout, reads past the names if and only if they run out, and otherwise leaves the old layout |
| `JointLayout.JointStateSource.ParseMotorLayout` | src/uniubi_motion_bridge/src/uniubi_motion_bridge_node.cpp:1030-1082 | the layout is the first usable motor of each key, in order; a failure leaves the old one |
| `JointLayout.JointStateSource.ConfigureJointStates` | src/uniubi_motion_bridge/src/uniubi_motion_bridge_node.cpp:1121-1148 | reported layout, else fallback, else none, and none when observation cannot be enabled; undefined exactly when it falls back on names that run out |
| `JointLayout.JointStateSource.PublishJointStates` | src/uniubi_motion_bridge/src/uniubi_motion_bridge_node.cpp:1176-1211 | four equally long arrays that are the layout joined, in order, with the last motor of each key; nothing when that is empty |

## Left out

- ROS, DDS, FFmpeg and service plumbing: calls into them are parameters with arbitrary outcomes.
- JSON text: parsing and writing; a reply is the case that parsing would lead to.
- Lease.LeaseOverrunBound: for a named controller; UnnamedControlNeverExpires shows why.
- Acquisition.TimelineTells: returning by the deadline is stated when no sleep overruns, or when the take is sent; a sleep that overruns returns late in the code too.
- Client.MotionHighLevelClient.StartControl: the history records one entry for the master-switch attempts and the take together; the errors of single master-switch attempts, which later steps overwrite, are not kept.
- Velocity.RateBound: in terms of the period in milliseconds, which the code truncates from the configured rate (30 Hz gives 33 ms).
- WorkerVelocity.WorkerPipeline: messages that come in during a command's own RPCs are placed before its effect, and poll replies after it; the command depends on neither, and a reset or a re-arming discards them in either order.
- WorkerPolling.WorkerPollsAreSpaced: a motion poll re-armed by a successful command may send at once, as `Poll.RearmedPollSendsAtOnce` states; that is what the re-arming is for.
- WorkerSession.WorkerKeepsLease: a call begins when its first callback runs; the time at which the request was handed over is not kept.
- WorkerQueue.CommandsAreFifo: promises, the condition variable and its 20 ms wait; an answer is recorded in order instead of fulfilling a promise.
- Ownership.DoConnect: configure_joint_states reads and clears the client's last error when its queries fail; the model leaves that error in place, and nothing a command answers depends on it.
- Ownership.DoQuery: also stands for the JSON query services; the audio and light services of the bridge are not among the commands, though the client calls behind them are in Client.
- Sequence counters of renewals and polls: naturals, not 64-bit words that wrap around.
- Poll.OnTimeIff: which fields a state or a battery message has; a usable reply is one case, and the action it names is a parameter of Worker.
- JointLayout.JointStateSource.ConfigureFallback: what the program does after reading past the names is not said.
- Status messages of the bridge, their error texts, and the velocities they show.
- Connect callback: assumed to be set and not to call the client again; the bridge's own does not.
- The settling sleep of connect(), and the retries of setMotionObservedEnable.
- Mailbox: one camera; cameras share only the stop flag. A frame is its shape, an image its size.
- JointLayout: the alias names of motor fields, the non-finite checks and the conversion of IMU, odometry and battery data, which are floating point.
- Audio queue, sample copying, frame-id prefixes, PCM scripts, command line and launch files: short bounded code without a hard property.
