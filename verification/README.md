# BeddyBytes, modelled and proved

BeddyBytes turns phones into baby monitors: baby stations announce sessions over MQTT, parent
stations find them, and a backend keeps an append-only event log from which it derives lists of
sessions and stations and usage totals. This project models the stateful parts of both halves and
proves what they promise.

**The client.** `MqttMachine` is the MQTT service of the frontend: ten states, what a caller or the
MQTT client can make happen to them, one atomic step for each, and a ghost record of every call made
on a client. `MqttInvariants` proves what every run keeps: which filters the broker has been asked
for, that no accepted publish is lost, repeated or reordered, and that statuses are fresh and come
first. `MqttConnection` reads the connection off the inputs and proves that the service goes along:
in which state it is, that it is silent while its client is down or an acknowledgement is awaited,
and how it says goodbye. `MqttService` is the same service as an object whose methods refine the
steps. `BabySession` puts the baby station's session on top, listening to the service, and proves
that it re-announces itself; `SessionAnnouncements` says in which words and when.

**The backend.** `EventLog` is the file and the cache loaded from it, with process stops between two
writes; `Follow` is the blocking follower; `Projection` and `Projections` are the catch-up by cursor,
in general and for each of the four projections. The projections themselves come in pairs, a simple
form and the code's own data:

- `UsageLedger` tells what each session is worth; `UsageTables` has the five linked maps and the
  bounded queues and why they agree with it; `UsageStories` tells from the events alone, close codes
  spelled out, when a session counts, stands still, comes back and is over; `UsageStats` is the
  object.
- `SessionBoard` has a set of active sessions and the last four dropped per account; `SessionRoster`
  has the sorted slice, the queues and the key maps; `SessionStories` tells from the events alone
  which connections are live, with which request id a session is listed, and what takes it off and
  brings it back; `SessionList` is the object.
- `BabyStations` has the four maps per account; `StationStories` tells from the events alone what puts
  a station on the list and what takes it off until when; `BabyStationList` has the objects.
- `StatusMessages` says what a log contains about a status message and when two share a key;
  `StatusSync` has the locked steps of handlers and timers; `StatusTraces` has whole messages, handled
  or cut short, across restarts, and which timeouts they lead to; `StatusHandlers` has the `Decider`,
  the timer scheduler and the message handlers.

`DroppedQueues` has the bounded queues that the first two share. `FailingRuns` has runs on which the
code misses its promises without the assumptions below.

**Two smaller cores.** `AnalyticsPayloads` has the binary payloads of the analytics script, in the
`long`, `fixed` and `string` forms of the Apache Avro specification ("Binary Encoding", "Primitive
Types" and "Complex Types"). `StoreStack` has the cache over padded chained encryption: padding as in
section 6.3 of RFC 5652, chaining as in section 6.2 of NIST SP 800-38A, over any invertible cipher on
16-byte blocks.

`Events`, `Options`, `Sums` and `Lexicographic` are shared vocabulary: the log's events, optional values,
sums over finite sets, the order of strings.

## Assumptions

The properties that need something of the inputs state it as a precondition on the trace:

- **A1** A session id always comes with the same account, host connection and start time. It is the
  directory `Homes` in `UsageLedger` (all three), `SessionBoard` (the account suffices) and
  `BabyStations` (the connection), and `SessionStories.OnlyOn` for one id.
  `SessionRoster.PutKeepsOthers` and `UsageTables.EndExactly` show where the code depends on it.
- **A2** Each connection hosts one session, `BabyStations.OneSessionEach`, and is one client's,
  `StationStories.OnlyClientOn`. Of the station list's theorems only those need it that follow a
  station through events elsewhere.
- **A3** A session is not started again after it was closed or evicted: `UsageLedger.MayStart`.
  `UsageTables.StartExactly` shows that a start keeps the total right exactly under it, but for
  sessions that would leave nothing behind. A displaced session may start again.
- **A4** Within one process the clocks are dense: `EventLog.DenseIffCursorAgrees` shows when they are.
  The restarts of `StatusSync` and `StatusTraces` assume it: the whole log loads back.

`FailingRuns` reaches each of the inputs concerned by a concrete run.

Sorted slices and single ownership of stations need none of these.

Connection and request ids come from a message's payload and may hold slashes, so that two different
messages can print the same key, and the second is then dropped as a duplicate:
`StatusMessages.ConnectionsCollide` and `MessageCollides` say exactly when.

Two more things the code does that its names do not suggest: `put` compares only the session id at the
position it finds, and a follower takes its first snapshot before its wait channel, so that an append
between the two wakes nobody (`Follow.FirstWakeUp`).

## Model

| member | source | states |
|---|---|---|
| MqttInvariants.SubscriptionCoverage | frontend/src/services/MQTTService/index.ts:300-336 | in every reachable state with a connected client, the net effect of the subscribe and unsubscribe calls made on that client since its last accepted connect event is exactly the set of filters with a count; each count is the positive number of open subscriptions on its filter, and a filter is counted exactly if it has one; while subscribing, the pending set is a non-empty part of the counted filters |
| MqttInvariants.QueueConservation | frontend/src/services/MQTTService/index.ts:840-887 | in every reachable state, the publishes and parent announcements accepted since the last drop are those already made on a client followed by those still queued: in order, each once, across drops, reconnects, partial subscribes and replays |
| MqttInvariants.StatusFreshness | frontend/src/services/MQTTService/index.ts:733-760 | at every point of every run: a connected status is the first since the last accepted connect event, names the client that connected, and has a request id no earlier status had; every publish, queued or direct, is on that client and after exactly one status |
| MqttInvariants.RequestIdsDistinct | frontend/src/services/MQTTService/index.ts:399-419 | no two connected statuses of one run carry the same request id |
| MqttInvariants.OlderClientIgnored | frontend/src/services/MQTTService/index.ts:502-536 | once a client is not the current one, its connect, reconnect, close and offline events change nothing, now or after any further inputs |
| MqttInvariants.LinkOnlyGrows | frontend/src/services/MQTTService/index.ts:228-273 | a step keeps the current client, lets it go, or opens one with a connection id never drawn before |
| MqttInvariants.ReplayKeeps | frontend/src/services/MQTTService/index.ts:878-887 | replaying a queue hands over its publishes in order, skips its subscribe commands, changes nothing else, and keeps the record in order |
| MqttInvariants.FinishConnectKeeps | frontend/src/services/MQTTService/index.ts:740-745 | becoming connected puts one fresh status in front of the whole queue |
| MqttInvariants.SubscribeKeeps | frontend/src/services/MQTTService/index.ts:960-979 | a subscription, accepted, already counted or thrown back, keeps coverage, conservation and freshness |
| MqttInvariants.CloseKeeps | frontend/src/services/MQTTService/index.ts:1082-1087 | closing a subscription, the last of its filter or not, also when it empties the pending set, keeps coverage, conservation and freshness |
| MqttInvariants.ShrinkKeeps | frontend/src/services/MQTTService/index.ts:631-670 | a shrinking pending set keeps the invariants, and an empty one completes the connect |
| MqttInvariants.CountsAfterAdding | frontend/src/services/MQTTService/index.ts:1097-1101 | one more open subscription is one more on its filter's count and on no other |
| MqttInvariants.CountsAfterRemoving | frontend/src/services/MQTTService/index.ts:1103-1112 | one open subscription fewer is one fewer on its filter's count, and the count goes with the last one |
| MqttInvariants.StepKeeps | frontend/src/services/MQTTService/index.ts:133-876 | every call and every client event keeps coverage, conservation and freshness, whatever the state |
| MqttConnection.RunFits | frontend/src/services/MQTTService/index.ts:133-876 | in every run the state is the one of the ten, for the client and account, that the inputs alone call for: a call to connect or an awaited token opens a client, a close or offline event takes a connected client offline, a reconnect event lets it connect again, a disconnect ends it; every publish, subscription, unsubscription and status goes to the client that is up by those inputs, and publishes and connects are accepted exactly when they allow it |
| MqttConnection.SilentWhileDown | frontend/src/services/MQTTService/index.ts:852-874 | in every run, from a close, offline or reconnect event of the client that connected last until its next accepted connect event, nothing is published, subscribed or unsubscribed and no status is handed over |
| MqttConnection.QueuedWhileDown | frontend/src/services/MQTTService/index.ts:425-448 | a publish or parent announcement accepted meanwhile is at the end of the queue and not handed over |
| MqttConnection.HandedWhenConnected | frontend/src/services/MQTTService/index.ts:779-798 | a publish on a connected client is handed over at once and changes no state |
| MqttConnection.CleanGoodbye | frontend/src/services/MQTTService/index.ts:819-832 | disconnecting a connected client, in any run, hands it one disconnected status with the connection and request id of its connected status, then ends it, and leaves Ready |
| MqttConnection.RunWaits | frontend/src/services/MQTTService/index.ts:593-670 | in every run, what a subscribing client has pending is exactly what it was asked for since its last accepted connect event and has not acknowledged or been asked to drop; nothing is published and no connected status handed over while there is such |
| MqttConnection.ConnectedExactly | frontend/src/services/MQTTService/index.ts:631-670 | in every run, a client that is up is Connected if and only if everything it was asked for is acknowledged or dropped |
| MqttConnection.AcknowledgedExactly | frontend/src/services/MQTTService/index.ts:654-670 | a subscribing phase ends as soon as everything pending is acknowledged, in whatever portions and order, and not before |
| MqttConnection.SubscriptionsByHand | frontend/src/services/MQTTService/index.ts:960-979 | an accepted subscription is open from then on, a closed one is not, and no other input opens or closes any |
| MqttConnection.SubscribesExactly | frontend/src/services/MQTTService/index.ts:960-979 | in every run a subscription is accepted if and only if its filter is open already or the inputs so far let publishes be taken |
| MqttService.Service.constructor | frontend/src/services/MQTTService/index.ts:1194-1198 | the initial state follows whether a login is required and whether a token is available |
| MqttService.Service.Connect | frontend/src/services/MQTTService/index.ts:136-141 | refines the step of `connect` in all ten states |
| MqttService.Service.Disconnect | frontend/src/services/MQTTService/index.ts:819-832 | refines the step of `disconnect`: the clean status from Connected only, then the end of the client |
| MqttService.Service.Publish | frontend/src/services/MQTTService/index.ts:179-206 | refines the step of a publish or parent announcement, and reports whether it throws |
| MqttService.Service.SubscribeWithCallback | frontend/src/services/MQTTService/index.ts:970-979 | refines the step of a subscription, and gives its id, or none if it throws |
| MqttService.Service.AddSubscription | frontend/src/services/MQTTService/index.ts:970-979 | adds the subscription first and takes it back on a throw, which leaves maps and state as they were |
| MqttService.Service.Subscribe | frontend/src/services/MQTTService/index.ts:960-968 | counts first and takes the count back if the state throws |
| MqttService.Service.SubscribeInState | frontend/src/services/MQTTService/index.ts:804-813 | the state's own part of a first subscription, or a throw |
| MqttService.Service.SubscribeOneMore | frontend/src/services/MQTTService/index.ts:625-629 | one more filter while subscribing, asked for at once unless it is pending |
| MqttService.Service.Close | frontend/src/services/MQTTService/index.ts:1082-1087 | refines the step of closing a subscription; closing again does nothing |
| MqttService.Service.UnsubscribeInState | frontend/src/services/MQTTService/index.ts:631-641 | the state's own part of closing the last subscription on a filter |
| MqttService.Service.IncrementTopicFilterRefCount | frontend/src/services/MQTTService/index.ts:1097-1101 | counts one more, and tells whether it is the first |
| MqttService.Service.DecrementTopicFilterRefCount | frontend/src/services/MQTTService/index.ts:1103-1112 | counts one fewer, removes the last, and tells whether it was the last |
| MqttService.Service.OpenClient | frontend/src/services/MQTTService/index.ts:228-273 | a new client with two fresh ids, and Connecting with the given queue |
| MqttService.Service.ReplayPublishCommands | frontend/src/services/MQTTService/index.ts:878-887 | the loop over the queue hands over what its specification says |
| MqttService.Service.BecomeConnected | frontend/src/services/MQTTService/index.ts:740-759 | status if announcing, then the replay, then Connected |
| MqttService.Service.SetPending | frontend/src/services/MQTTService/index.ts:631-641 | the smaller pending set, or the transition to Connected when it is empty |
| MqttService.Service.HandleAuthorizationChanged | frontend/src/services/MQTTService/index.ts:143-206 | refines the step of an authorization change in the three states that listen; a logout while waiting for a token drops the queue |
| MqttService.Service.HandleConnect | frontend/src/services/MQTTService/index.ts:300-323 | refines the step of a connect event: ignored, straight to Connected, or through SubscribingOnConnect |
| MqttService.Service.HandleReconnect | frontend/src/services/MQTTService/index.ts:399-409 | refines the step of a reconnect event: a new request id, the queue kept |
| MqttService.Service.GoOffline | frontend/src/services/MQTTService/index.ts:514-536 | the transition close and offline events share, in each of the states they concern |
| MqttService.Service.HandleClose | frontend/src/services/MQTTService/index.ts:684-694 | refines the step of a close event |
| MqttService.Service.HandleOffline | frontend/src/services/MQTTService/index.ts:696-706 | refines the step of an offline event |
| MqttService.Service.HandleSubscribeCallback | frontend/src/services/MQTTService/index.ts:654-670 | refines the step of a subscribe callback: nothing, a smaller pending set, or connected |
| BabySession.Reannouncement | frontend/src/services/BabyStation/SessionService/index.ts:73-111 | in every reachable state of session and service together in which the session runs: its filter has a positive count, an accepted connect event leads into SubscribingOnConnect, and wherever the service is past the subscribing phase the session's own announcement has been accepted since the last accepted connect event |
| SessionAnnouncements.BeginsOnceConnected | frontend/src/services/BabyStation/SessionService/index.ts:73-87 | a starting session begins exactly when its client has become Connected: it opens one subscription to "parent_stations" and has one publish accepted, on "baby_stations", with the connection id of that client, its own name, the time, and a session id never drawn before |
| SessionAnnouncements.AnnouncesAgain | frontend/src/services/BabyStation/SessionService/index.ts:101-105 | a running session has its announcement accepted once more, in the same words, exactly when its client becomes Connected out of SubscribingOnConnect, and never changes otherwise |
| SessionAnnouncements.EndLeavesNothing | frontend/src/services/BabyStation/SessionService/index.ts:107-111 | ending a running session leaves it Idle, its subscription and no other closed, and no client |
| SessionAnnouncements.StartAsks | frontend/src/services/BabyStation/SessionService/index.ts:58-61 | starting a session from Idle, and from nowhere else, is heard by the service as a call to connect |
| BabySession.NextKeeps | frontend/src/services/BabyStation/SessionService/index.ts:55-111 | every act of the session, and every input of the service with the session listening, keeps the service's invariants and the running session's promise |
| BabySession.HowConnected | frontend/src/services/MQTTService/index.ts:733-746 | the service gets past the subscribing phase only from past it, out of SubscribingOnConnect by a change to Connected it reports last, or straight from a connect event when no filter is counted |
| BabySession.PromisesKept | frontend/src/services/MQTTService/index.ts:840-876 | what was accepted since the last connect stays accepted until the next accepted connect event |
| BabySession.SubscriptionsKept | frontend/src/services/MQTTService/index.ts:1082-1087 | no input but closing it removes a subscription |
| BabySession.SessionService.StartSession | frontend/src/services/BabyStation/SessionService/index.ts:58-61 | refines the act of starting a session |
| BabySession.SessionService.EndSession | frontend/src/services/BabyStation/SessionService/index.ts:107-111 | refines the act of ending a session: closes the subscription, disconnects, and listens to both |
| BabySession.SessionService.Begin | frontend/src/services/BabyStation/SessionService/index.ts:73-87 | on the first Connected: one session id, one subscription, one announcement, and Running with them |
| BabySession.SessionService.HandleMqttServiceStateChanged | frontend/src/services/BabyStation/SessionService/index.ts:101-105 | refines the listener in each of the three session states |
| UsageTables.UsageLedgerHolds | golang/cmd/backend/UsageStats.go:48-63 | after any trace that keeps to A1 and A3, visiting maps in any order, at any time `now`: the total over the tables is end minus start over closed sessions, now minus start over active ones, disconnect minus start over frozen ones, and nothing for displaced ones |
| UsageTables.RunTied | golang/cmd/backend/UsageStats.go:120-272 | after any such trace the five maps and the queues tell the ledger's story: each session is exactly where its fate says, each connection seats at most one session, and queues and connection index hold the same entries |
| UsageTables.FinishedSession | golang/cmd/backend/UsageStats.go:140-161 | a session that is active or frozen when it ends is worth exactly end minus start from then on, whatever drops and reconnects came before and whatever comes after |
| UsageStories.DropAndBack | golang/cmd/backend/UsageStats.go:163-227 | under A1 and A3: a session that counts, whose client disconnects with any close code but 1000 and 1001, stands still at the time of that event while other things happen, and if its client connects on its connection before four other disconnects it counts again, and adds now minus its start to the total |
| UsageStories.LoggedDropAndBack | golang/cmd/backend/UsageStats.go:176-192 | with close code 0, as the log has it for every status message: a session started at 0, dropped at 10 and back at 20 makes the total at 30 exactly 30 |
| UsageStories.CleanCloses | golang/cmd/backend/UsageStats.go:176-190 | a disconnect with close code 1000 or 1001 credits the account of the event with the time from the session's start to the event, and no later event makes the session count again |
| UsageStories.EndCloses | golang/cmd/backend/UsageStats.go:140-161 | the end of a session that counts or stands still credits its account with the time from its start to the event, and no later event makes it count again |
| UsageStories.StartCounts | golang/cmd/backend/UsageStats.go:120-138 | a started session counts, from the start that its event names |
| UsageStories.CountsOn | golang/cmd/backend/UsageStats.go:120-192 | a session that counts goes on counting whatever happens to other sessions on other connections |
| UsageStories.StartDisplaces | golang/cmd/backend/UsageStats.go:130-132 | a session that counts is over, without credit, once another one starts on its connection |
| UsageStories.StartDisplacesHeld | golang/cmd/backend/UsageStats.go:133-135 | so is one that is held there |
| UsageStories.RestartAndBack | golang/cmd/backend/UsageStats.go:194-227 | a start of the server stops every session that counts at its own time, and if no more than four were active each of them counts again once its client is back |
| UsageStories.WorthOfCounting | golang/cmd/backend/UsageStats.go:48-63 | a session that counts adds now minus its start to the total over the tables |
| UsageStories.WorthOfStill | golang/cmd/backend/UsageStats.go:48-63 | one that stands still adds the time from its start to its disconnect |
| UsageTables.ClosedForever | golang/cmd/backend/UsageStats.go:120-203 | no later event changes the fate of a closed session |
| UsageTables.AfterServerStarted | golang/cmd/backend/UsageStats.go:194-203 | server.started leaves no active session on either map, and freezes exactly the sessions that were active, at its own time, beside those frozen before |
| UsageTables.OrderIndependence | golang/cmd/backend/UsageStats.go:194-227 | any two orders of visiting the active connections leave the same frozen sessions, no active one, and the same total, evictions included |
| UsageTables.StartExactly | golang/cmd/backend/UsageStats.go:120-138 | in any tied state, starting a session keeps the total equal to the ledger's if and only if A3 allows the start or what would be left behind is worth nothing |
| UsageTables.StartDifference | golang/cmd/backend/UsageStats.go:120-138 | a start that A3 does not allow counts what it leaves behind on top, and no other start does |
| UsageTables.RestartCountsTwice | golang/cmd/backend/UsageStats.go:205-227 | a session restarted after its eviction is both active and frozen, and counted twice |
| FailingRuns.CountedTwice | golang/cmd/backend/UsageStats.go:205-227 | the run of five sessions started and dropped in one account, then the first started again: it is active and frozen, and counted twice |
| UsageTables.EndExactly | golang/cmd/backend/UsageStats.go:140-161 | in any tied state, a session.ended keeps the tables tied if and only if it comes from the session's own account or the session is not held |
| UsageTables.EndElsewhereRevives | golang/cmd/backend/UsageStats.go:152-174 | a session.ended from another account credits a held session but leaves it held, so that a reconnect makes the closed session active again |
| FailingRuns.EndedAndBack | golang/cmd/backend/UsageStats.go:140-174 | the run of a start, an unclean drop, an end from another account and a reconnect: the session is credited and active |
| UsageTables.StartTied | golang/cmd/backend/UsageStats.go:120-138 | a session.started that A3 allows displaces what its connection seats or holds, and seats the session |
| UsageTables.EndTied | golang/cmd/backend/UsageStats.go:140-161 | a session.ended credits end minus start once, whether the session is active, frozen and held, or frozen and evicted |
| UsageTables.ReconnectTied | golang/cmd/backend/UsageStats.go:163-174 | a reconnect seats the held session again and nothing else |
| UsageTables.CloseOnTied | golang/cmd/backend/UsageStats.go:176-190 | a clean disconnect credits and closes the session on its connection |
| UsageTables.FreezeTied | golang/cmd/backend/UsageStats.go:205-227 | an unclean disconnect freezes the session and holds it among the account's last four |
| UsageStats.UsageStats.GetTotalDuration | golang/cmd/backend/UsageStats.go:48-63 | catches up, and returns the total over the tables of the trace read, every server.started of which visited all active connections; it is the ledger's total if the trace keeps to A1 and A3 |
| UsageStats.UsageStats.CatchUp | golang/cmd/backend/UsageStats.go:70-81 | the tables become those of the whole log, event by event, each server.started having visited every active connection |
| UsageStats.UsageStats.Advance | golang/cmd/backend/UsageStats.go:76-79 | applies the next event and moves the cursor to its clock |
| UsageStats.UsageStats.ApplyServerStarted | golang/cmd/backend/UsageStats.go:194-203 | tracks every active session of a snapshot in the order the map yields, visiting each exactly as the specification does |
| UsageStats.UsageStats.ApplySessionStarted | golang/cmd/backend/UsageStats.go:120-138 | refines the start of a session |
| UsageStats.UsageStats.ApplySessionEnded | golang/cmd/backend/UsageStats.go:140-161 | refines the end of a session |
| UsageStats.UsageStats.ApplyClientConnected | golang/cmd/backend/UsageStats.go:163-174 | refines a reconnect |
| UsageStats.UsageStats.ApplyClientDisconnected | golang/cmd/backend/UsageStats.go:176-192 | refines a disconnect, clean for close codes 1000 and 1001 |
| UsageStats.UsageStats.TrackDisconnectedSession | golang/cmd/backend/UsageStats.go:205-227 | refines tracking, with the eviction of the fifth |
| UsageStats.UsageStats.RemoveDisconnectedSessionByConnectionId | golang/cmd/backend/UsageStats.go:234-254 | the loop removes the first entry on the connection from its queue, and the queue when it is empty |
| UsageStats.UsageStats.RemoveDisconnectedSessionById | golang/cmd/backend/UsageStats.go:256-272 | the loop removes the entry with the id from the account's queue and the index |
| SessionRoster.RunTied | golang/internal/sessionlist/SessionList.go:167-335 | after any events in which an id keeps to its account (A1), slice, queues and maps are those of a simple board: a set of active sessions, the live connections, the last four dropped per account |
| SessionRoster.RosterKept | golang/internal/sessionlist/SessionList.go:89-143 | after any such events: the slice lists the board's active sessions strictly by account then id, all connected; dropped ones are not; an account's connection occurs at most once over slice and queues; queues hold at most four; index and queues have the same entries |
| SessionRoster.RunSorted | golang/internal/sessionlist/SessionList.go:89-126 | for every event sequence, with no assumption on ids, the slice is strictly sorted, so the binary searches are right |
| SessionRoster.AfterRestart | golang/internal/sessionlist/SessionList.go:265-294 | after server.started nothing is active and no connection is live, and each queue is the last four of its old entries followed by the account's active sessions in id order |
| SessionStories.LiveIsLatest | golang/internal/sessionlist/SessionList.go:341-352 | for every event sequence, with no assumption on ids: a connection is taken for live if and only if it has a connect with no later disconnect of it, whatever the request id, and no later server.started; what is kept of it is the request id and time of its latest connect |
| SessionStories.ListedAsConnected | golang/internal/sessionlist/SessionList.go:184-201 | a session listed on a live connection is listed as online with the request id and time of the latest connect of its connection, whichever came first |
| SessionStories.StartIsListed | golang/internal/sessionlist/SessionList.go:167-201 | a started session is listed with the fields of its event, online with the request id and time of the latest connect if its connection is live, and with the placeholder otherwise |
| SessionStories.StartReplaces | golang/internal/sessionlist/SessionList.go:171-175 | it is the only one listed on its connection and the only one with its id, and none is held on its connection |
| SessionStories.LatestDisconnectDelists | golang/internal/sessionlist/SessionList.go:215-238 | a disconnect with the request id of the latest connect of a listed session's connection takes the session off the list |
| SessionStories.DisconnectDelists | golang/internal/sessionlist/SessionList.go:215-238 | a disconnect with the request id a session is listed with takes it off the list and holds it, last of its account, as gone since then |
| SessionStories.OtherDisconnectKeeps | golang/internal/sessionlist/SessionList.go:227-230 | a disconnect with another request id leaves a listed session as it is |
| SessionStories.EndedIsGone | golang/internal/sessionlist/SessionList.go:207-213 | under A1: after session.ended a session is neither listed nor held until it is started again, whoever connects |
| SessionStories.StaysListed | golang/internal/sessionlist/SessionList.go:89-143 | under A1: a listed session stays listed as it is, whatever happens to other sessions on other connections |
| SessionStories.DropAndBack | golang/internal/sessionlist/SessionList.go:215-263 | a session whose client's current request disconnects, and whose client connects on its connection before four other disconnects, is listed as before but for the new request id and time |
| SessionStories.RestartAndBack | golang/internal/sessionlist/SessionList.go:265-294 | after server.started nothing is listed; if an account had no more than four sessions listed or held, each is listed again once its client is back |
| SessionStories.ListedWasStarted | golang/internal/sessionlist/SessionList.go:167-201 | whatever is listed or held has the account, id, name, connection and start of a session.started event |
| SessionRoster.PutKeepsOthers | golang/internal/sessionlist/SessionList.go:89-102 | `put` keeps every other session if and only if the one at its position does not have the same id in another account |
| FailingRuns.LostAcrossAccounts | golang/internal/sessionlist/SessionList.go:89-102 | the run of one session id started in account "b" and then in account "a": the list has lost b's session |
| SessionRoster.PutLists | golang/internal/sessionlist/SessionList.go:89-102 | under A1, `put` replaces the session with its id or inserts a new one, and the slice stays sorted |
| SessionRoster.DeleteLists | golang/internal/sessionlist/SessionList.go:104-114 | `delete` removes the session with that account and id and no other, and the slice stays sorted |
| SessionRoster.OnlyAtLowerBound | golang/internal/sessionlist/SessionList.go:116-126 | in a sorted slice the lower bound is the only place a session with that account and id can be |
| SessionRoster.StartTied | golang/internal/sessionlist/SessionList.go:167-201 | session.started follows the board: the newcomer takes over its connection and its id |
| SessionRoster.EndTied | golang/internal/sessionlist/SessionList.go:207-213 | session.ended follows the board, for active and for held sessions |
| SessionRoster.ReconnectTied | golang/internal/sessionlist/SessionList.go:240-263 | client.connected follows the board: a listed session gets the new request id, a held one becomes active again |
| SessionRoster.DropTied | golang/internal/sessionlist/SessionList.go:215-238 | client.disconnected follows the board: only the current request's disconnect drops the session |
| SessionRoster.RestartTied | golang/internal/sessionlist/SessionList.go:265-280 | server.started follows the board, session by session in slice order |
| SessionBoard.ListingUnique | golang/internal/sessionlist/SessionList.go:116-126 | a set of sessions has at most one strictly sorted listing, so sortedness and membership determine the slice |
| DroppedQueues.RemoveFirstIsOff | golang/internal/sessionlist/SessionList.go:303-316 | where connections are distinct, removing the first entry on a connection takes the connection off the queue |
| DroppedQueues.JoinedMembers | golang/internal/sessionlist/SessionList.go:285-292 | who is held once one more has joined: the newcomer and those before, except the first if there were four |
| SessionList.SessionList.List | golang/internal/sessionlist/SessionList.go:49-65 | catches up, and returns exactly the account's active sessions in id order |
| SessionList.SessionList.CatchUp | golang/internal/sessionlist/SessionList.go:67-79 | the list becomes that of the whole log |
| SessionList.SessionList.Advance | golang/internal/sessionlist/SessionList.go:73-77 | applies the next event and moves the cursor to its clock |
| SessionList.SessionList.Search | golang/internal/sessionlist/SessionList.go:116-126 | the binary search finds the lower bound |
| SessionList.SessionList.SearchAccount | golang/internal/sessionlist/SessionList.go:52-54 | the binary search finds where the account's sessions start |
| SessionList.SessionList.Put | golang/internal/sessionlist/SessionList.go:89-102 | refines insertion or replacement at the searched position |
| SessionList.SessionList.Delete | golang/internal/sessionlist/SessionList.go:104-114 | refines removal at the searched position |
| SessionList.SessionList.GetSessionByConnectionId | golang/internal/sessionlist/SessionList.go:128-143 | finds the account's first session on the connection, or none |
| SessionList.SessionList.TrackDisconnectedSession | golang/internal/sessionlist/SessionList.go:282-294 | refines the move from the slice to the bounded queue |
| SessionList.SessionList.RemoveDisconnectedSessionByConnectionId | golang/internal/sessionlist/SessionList.go:296-317 | refines removal by connection, and returns what was held |
| SessionList.SessionList.RemoveDisconnectedSessionById | golang/internal/sessionlist/SessionList.go:319-335 | refines removal by id |
| SessionList.SessionList.ApplySessionStarted | golang/internal/sessionlist/SessionList.go:167-201 | refines session.started |
| SessionList.SessionList.ApplySessionEnded | golang/internal/sessionlist/SessionList.go:207-213 | refines session.ended |
| SessionList.SessionList.ApplyClientDisconnected | golang/internal/sessionlist/SessionList.go:215-238 | refines client.disconnected |
| SessionList.SessionList.ApplyClientConnected | golang/internal/sessionlist/SessionList.go:240-263 | refines client.connected |
| SessionList.SessionList.ApplyServerStarted | golang/internal/sessionlist/SessionList.go:265-280 | refines server.started over a snapshot of the slice |
| StatusMessages.AccountKeyInjective | golang/internal/sessionlist/SessionList.go:337-339 | the map key of an account and an id determines both, if the account has no U+0000 |
| BabyStations.OneStationPerClient | golang/internal/babystationlist/BabyStationList.go:22-47 | for every event sequence, with no assumption on ids, the list never shows two stations of one client |
| BabyStations.RunOwner | golang/internal/babystationlist/BabyStationList.go:166-253 | for every event sequence each client owns at most one entry over the connections and the dropped sessions of an account together |
| BabyStations.ReconnectRoundTrip | golang/internal/babystationlist/BabyStationList.go:134-206 | under A1 and A2: a station shown drops unexpectedly with its current request id, any events happen elsewhere, its client reconnects on its connection; the list shows the same station with only the request id changed |
| StationStories.StartedIsShown | golang/internal/babystationlist/BabyStationList.go:134-183 | under A1 and A2: a session started on the connection of a connected client is shown with the name and start of its event and the client, connection and request id of the connect event, and stays so whatever happens elsewhere |
| StationStories.ConnectedIsShown | golang/internal/babystationlist/BabyStationList.go:134-183 | so is a session whose start was logged before its client connected, if the client has not connected since the server started |
| StationStories.EndedIsGone | golang/internal/babystationlist/BabyStationList.go:150-164 | for every event sequence: after session.ended the session is shown on no connection until it is started again |
| StationStories.ClosedIsGone | golang/internal/babystationlist/BabyStationList.go:191-196 | for every event sequence: after a clean disconnect with the request id it is shown with, a session is shown on no connection until it is started again |
| StationStories.TimedOutIsGone | golang/internal/babystationlist/BabyStationList.go:208-246 | for every event sequence: after a reconnect timeout no station of the client is shown until it connects, and the session it was shown with is shown nowhere until it is started again |
| StationStories.DroppedIsGone | golang/internal/babystationlist/BabyStationList.go:196-246 | under A1 and A2: a station whose connection dropped unexpectedly and whose client times out, with anything happening elsewhere in between, is shown nowhere until its session is started again |
| StationStories.DisconnectedIsHidden | golang/internal/babystationlist/BabyStationList.go:185-206 | for every event sequence: after any disconnect, whatever its reason and request id, nothing is shown on its connection until a client connects on it |
| StationStories.HiddenComesBack | golang/internal/babystationlist/BabyStationList.go:185-206 | under A1 and A2: a disconnect with another request id or a reason of its own only hides the station: its client's next connect shows it again, with only the request id changed |
| StationStories.ConnectedAnewIsGone | golang/internal/babystationlist/BabyStationList.go:174-176 | for every event sequence: a client that connects while it is shown loses the session it was shown with until that is started again |
| StationStories.RestartHides | golang/internal/babystationlist/BabyStationList.go:216-223 | for every event sequence: after server.started nothing is shown on a connection until a client connects on it, and no session until it is started |
| StationStories.OtherAccounts | golang/internal/babystationlist/BabyStationList.go:117-132 | an event changes no other account's list, unless it is server.started |
| BabyStations.ForgetLeavesNothing | golang/internal/babystationlist/BabyStationList.go:225-246 | after deleting a client's sessions and connections it owns nothing, and nobody owns anything new |
| BabyStations.StillWaiting | golang/internal/babystationlist/BabyStationList.go:185-206 | no event about other clients, connections and sessions disturbs a dropped session |
| BabyStationList.AccountSnapshot.List | golang/internal/babystationlist/BabyStationList.go:22-47 | returns each station shown exactly once with the fields of its session and connection, and under single ownership no two of one client |
| BabyStationList.AccountSnapshot.DeleteSessionsAndConnectionsForClient | golang/internal/babystationlist/BabyStationList.go:225-246 | the two loops that delete while iterating, in any order, delete what the client owns |
| BabyStationList.AccountSnapshot.DeleteConnectionsForClient | golang/internal/babystationlist/BabyStationList.go:225-236 | the first of the two loops |
| BabyStationList.AccountSnapshot.DeleteParkedForClient | golang/internal/babystationlist/BabyStationList.go:237-245 | the second of the two loops |
| BabyStationList.AccountSnapshot.DeleteSession | golang/internal/babystationlist/BabyStationList.go:248-253 | deletes the session and its connection from all four maps |
| BabyStationList.AccountSnapshot.ApplySessionStarted | golang/internal/babystationlist/BabyStationList.go:134-148 | refines session.started |
| BabyStationList.AccountSnapshot.ApplySessionEnded | golang/internal/babystationlist/BabyStationList.go:150-164 | refines session.ended |
| BabyStationList.AccountSnapshot.ApplyConnected | golang/internal/babystationlist/BabyStationList.go:166-183 | refines client.connected: the same client back on its dropped connection, or a fresh start |
| BabyStationList.AccountSnapshot.ApplyDisconnected | golang/internal/babystationlist/BabyStationList.go:185-206 | refines client.disconnected, clean, unexpected or out of date |
| BabyStationList.BabyStationList.GetOrCreateSnapshot | golang/internal/babystationlist/BabyStationList.go:255-262 | gives the account its snapshot, a new and empty one if it has none, and no two accounts the same |
| BabyStationList.BabyStationList.ApplyServerStarted | golang/internal/babystationlist/BabyStationList.go:216-223 | empties every snapshot, in whatever order |
| BabyStationList.BabyStationList.Apply | golang/internal/babystationlist/BabyStationList.go:117-132 | refines one event on the account's own snapshot, and leaves the others alone |
| BabyStationList.BabyStationList.CatchUp | golang/internal/babystationlist/BabyStationList.go:102-115 | the snapshots become those of the whole log |
| BabyStationList.BabyStationList.Advance | golang/internal/babystationlist/BabyStationList.go:106-110 | applies the next event and moves the cursor to its clock |
| EventLog.CrashTolerantLoad | golang/internal/eventlog/FileEventLog.go:46-67 | after any appends and process stops, also between writing the line and the metadata, loading keeps exactly one event per clock 1..n in order, the first one written, and n is the metadata cursor or one more |
| EventLog.FullLoad | golang/internal/eventlog/CachingDecorator.go:18-41 | if as many lines were written as the metadata says, loading keeps them all |
| EventLog.CompletedLoads | golang/internal/eventlog/FileEventLog.go:46-67 | an append completed by a running process loads ever after, in its place and with what was appended, if and only if no append was cut short since the last completed one, or that one had cut short the very same event; everything that loaded before still loads |
| EventLog.LoadsAsMany | golang/internal/eventlog/FileEventLog.go:46-67 | for any acts: the metadata counts the completed appends, and one event more loads if and only if an append was cut short since the last of them |
| EventLog.LoadsForGood | golang/internal/eventlog/CachingDecorator.go:18-41 | what once loads, loads after any further acts, in the same place |
| EventLog.DenseIffCursorAgrees | golang/internal/eventlog/CachingDecorator.go:49-63 | once something is appended, a loaded cache is dense, as reading by cursor needs, if and only if the metadata cursor equals the number of events loaded (A4) |
| FailingRuns.LoadedAhead | golang/internal/eventlog/FileEventLog.go:58-63 | a process that stops between line and metadata leaves one event to load and metadata 0; after the next append the cache holds clock 1 twice |
| EventLog.FileEventLog.Append | golang/internal/eventlog/FileEventLog.go:46-67 | writes the next clock's line, then the metadata, then closes the wait channel |
| EventLog.FileEventLog.ReadFrom | golang/internal/eventlog/FileEventLog.go:69-89 | reads the lines from a cursor on, and nothing for a negative cursor or one past the end |
| EventLog.CachingDecorator.constructor | golang/internal/eventlog/CachingDecorator.go:18-41 | the loop with its running clock loads what the specification keeps |
| EventLog.CachingDecorator.Append | golang/internal/eventlog/CachingDecorator.go:49-56 | appends to the file and then the same event to the cache |
| EventLog.CachingDecorator.GetEventIterator | golang/internal/eventlog/CachingDecorator.go:58-63 | an iterator over the cache as it is now, before the given cursor |
| EventLog.SliceEventIterator.Next | golang/internal/eventlog/CachingDecorator.go:74-77 | moves one event on and tells whether there is one |
| Follow.DeliversTheLog | golang/internal/eventlog/Follow.go:31-50 | however appends fall between a follower's steps, what it has delivered from cursor c is the block of the log that starts at clock c+1, without repeat or gap |
| Follow.DeliversTheSnapshot | golang/internal/eventlog/Follow.go:31-50 | after any steps, what is left of a snapshot comes out one event a step: n steps deliver the n events of the log after the cursor |
| Follow.NoLostWakeUp | golang/internal/eventlog/Follow.go:43-48 | a follower that has re-armed and drained its snapshot while the log is longer holds a closed channel, and its next three steps deliver the next event |
| Follow.FirstWakeUp | golang/internal/eventlog/Follow.go:12-22 | a follower that has not re-armed and has drained its first snapshot is stuck if and only if something was appended between snapshot and channel and nothing since |
| FailingRuns.StuckFromTheStart | golang/internal/eventlog/Follow.go:12-22 | the run of a snapshot, an append and a channel leaves the follower stuck |
| Follow.FollowingEventIterator.constructor | golang/internal/eventlog/Follow.go:12-22 | refines the first snapshot and then the first channel |
| Follow.FollowingEventIterator.Next | golang/internal/eventlog/Follow.go:31-50 | refines the follower's steps for any appends since the last call: delivers the event after its cursor, or re-arms and delivers, or would block and can be called again |
| Follow.FollowingEventIterator.Deliver | golang/internal/eventlog/Follow.go:32-36 | refines the delivery of the snapshot's next event |
| Follow.FollowingEventIterator.Rearm | golang/internal/eventlog/Follow.go:43-47 | refines taking the next channel and then a snapshot |
| Projection.IncrementalIsReplay | golang/internal/connectionstore/Decider.go:106-131 | for any interleaving of appends and catch-ups and any fold whose cursor may stay behind on events that change nothing, the state after a catch-up is the fold of the whole log |
| Projections.RosterReplay | golang/internal/sessionlist/SessionList.go:67-87 | SessionList after a catch-up is one replay of the whole log |
| Projections.UsageReplay | golang/cmd/backend/UsageStats.go:70-89 | UsageStats after a catch-up is one replay of the whole log that visits the map in the orders taken |
| Projections.StationReplay | golang/internal/babystationlist/BabyStationList.go:102-115 | BabyStationList after a catch-up is one replay of the whole log |
| Projections.DeciderReplay | golang/internal/connectionstore/Decider.go:106-131 | the Decider, whose cursor does not move on unrelated events, knows after a catch-up exactly the keys the log holds |
| StatusSync.ExactlyOnce | golang/internal/connectionstore/Decider.go:53-104 | for any sequence of locked steps, restarts included that find the whole log: exactly one connected event for each key a connected message was put with, one disconnected event for each disconnected key, and none for other keys |
| StatusSync.TimeoutsJustified | golang/internal/backendmqtt/ReconnectTimeout.go:76-108 | for any interleaving of locked steps: whenever a timeout is appended, also by a late firing of a cancelled goroutine, what last happened to the client is the scheduling of a timer for that connection and request |
| StatusSync.TimeoutsBounded | golang/internal/backendmqtt/ReconnectTimeout.go:61-74 | a client never times out more often than a timer was scheduled for it |
| StatusSync.TimeoutsLogged | golang/internal/backendmqtt/ReconnectTimeout.go:96-104 | the reconnect_timeout events of the log are exactly the timeouts noted, in order |
| StatusSync.FiresExactly | golang/internal/backendmqtt/ReconnectTimeout.go:76-108 | after any locked steps, a firing appends one event if and only if its goroutine has not fired and the timer registered for its client has its connection and request; the event is a reconnect timeout with that account, client, connection and request and the next clock, and afterwards no goroutine of that client is due |
| StatusTraces.MessagesExactlyOnce | golang/internal/backendmqtt/Sync.go:40-110 | whatever messages arrive, again or out of order, handled to the end or cut short by a restart: the log has exactly one connected event for each key of a connected message handled, one disconnected event for each disconnected key, and no others |
| StatusTraces.TimeoutsNameLatestDrop | golang/internal/backendmqtt/Sync.go:60-150 | every reconnect timeout in the log was appended by a firing, and carries the connection and request of the latest unclean disconnected message of its client at the time, with no connected message or announcement of that client after it |
| StatusTraces.SilentTimesOut | golang/internal/backendmqtt/ReconnectTimeout.go:61-108 | after an unclean disconnected message handled to the end, with no message or announcement of the client and no restart since, the log has, once the goroutine it started has fired, a reconnect timeout since the message that names its client, connection and request |
| StatusTraces.FiringTimesOut | golang/internal/backendmqtt/ReconnectTimeout.go:76-108 | if meanwhile no goroutine fires for that client, the log ends with that timeout, appended by that very firing |
| StatusTraces.RestartForgets | golang/internal/backendmqtt/ReconnectTimeout.go:40-43 | after a restart no timer is registered and no firing is due |
| StatusTraces.NothingMadeUp | golang/internal/backendmqtt/Sync.go:40-160 | each event of the log has its place as its clock, and the account, time and data, the reason of a disconnect included, that a handled message, announcement or other append brought; a logged disconnect has close code 0 |
| StatusTraces.AppendsReachTheLog | golang/internal/backendmqtt/Sync.go:148-160 | an announcement handled to the end, and whatever else other writers append, is the log's next event |
| StatusTraces.TimersDropped | golang/internal/backendmqtt/ReconnectTimeout.go:61-74 | a registered timer is always that of the latest unclean disconnected message of its client |
| StatusMessages.KeyInjective | golang/internal/connectionstore/Decider.go:163-165 | account and client free of slashes, as the topic keeps them: the printed key determines the whole message if the connection id has no slash either |
| StatusMessages.SameKey | golang/internal/connectionstore/Decider.go:163-165 | two messages share a key if and only if account and client are equal and so are connection id, "/requests/" and request id written one after the other |
| StatusMessages.ConnectionsCollide | golang/internal/connectionstore/Decider.go:163-165 | two connection ids of one client can share a key if and only if one of the two followed by "/requests/" begins with the other so followed |
| StatusMessages.MessageCollides | golang/internal/connectionstore/Decider.go:163-165 | a message shares its key with another one if and only if "/requests/" occurs in its tail at another place than after its connection id |
| StatusMessages.CollisionDropped | golang/internal/connectionstore/Decider.go:61-65 | of two messages that share a key the second is dropped as a duplicate, connected or disconnected |
| StatusMessages.KeysCollide | golang/internal/connectionstore/Decider.go:163-165 | with a slash in a connection id, two different messages share a key |
| StatusMessages.LogConnectedCounts | golang/internal/connectionstore/Decider.go:53-77 | handling a connected message makes its key's count one, and leaves every other count |
| StatusMessages.LogDisconnectedCounts | golang/internal/connectionstore/Decider.go:79-104 | handling a disconnected message makes its key's count one, and leaves every other count |
| StatusHandlers.Decider.CatchUp | golang/internal/connectionstore/Decider.go:106-131 | from the cursor on, the key sets become those of the whole log, and the cursor stays on the last event applied |
| StatusHandlers.Decider.Put | golang/internal/connectionstore/Decider.go:53-77 | appends the connected event unless the log has its key, and reports the duplicate |
| StatusHandlers.Decider.Delete | golang/internal/connectionstore/Decider.go:79-104 | appends the disconnected event unless the log has its key, and reports the duplicate |
| StatusHandlers.ReconnectTimeoutScheduler.CancelClient | golang/internal/backendmqtt/ReconnectTimeout.go:45-59 | refines cancelling |
| StatusHandlers.ReconnectTimeoutScheduler.Schedule | golang/internal/backendmqtt/ReconnectTimeout.go:61-74 | refines scheduling: the client's timer is replaced and a goroutine starts |
| StatusHandlers.ReconnectTimeoutScheduler.PublishReconnectTimeout | golang/internal/backendmqtt/ReconnectTimeout.go:76-108 | refines a firing: nothing unless the registered timer has the same connection and request |
| StatusHandlers.StatusHandler.HandleConnectedMessage | golang/internal/backendmqtt/Sync.go:60-70 | cancels the client's timer, then puts the connection |
| StatusHandlers.StatusHandler.HandleDisconnectedMessage | golang/internal/backendmqtt/Sync.go:91-106 | deletes the connection, then schedules unless the reason is clean, duplicate or not |
| StatusHandlers.StatusHandler.HandleAnnouncementMessage | golang/internal/backendmqtt/Sync.go:148-160 | cancels the client's timer, then appends the session |
| AnalyticsPayloads.LongRoundTrip | marketing/static/js/tinyanalytics-v0.autotrack.js:203-212 | every signed 64-bit value reads back by a zig-zag base-128 decoder, whatever bytes follow |
| AnalyticsPayloads.LongLength | marketing/static/js/tinyanalytics-v0.autotrack.js:203-212 | a long takes 1 to 10 bytes |
| AnalyticsPayloads.LongExamples | marketing/static/js/tinyanalytics-v0.autotrack.js:203-212 | 0, -1, 1, -2, 2, -64 and 64 have the bytes that the Avro specification gives for them |
| AnalyticsPayloads.VarintAt | marketing/static/js/tinyanalytics-v0.autotrack.js:206-210 | byte i holds the seven bits from bit 7i on, with the top bit set exactly if more follow; nothing is left over |
| AnalyticsPayloads.PageViewBytes | marketing/static/js/tinyanalytics-v0.autotrack.js:147-157 | a page view is its time, the byte of event type 3, and the path after its length, if the path has 1 to 2048 bytes and the whole no more than 1024, and the error that names the limit otherwise |
| AnalyticsPayloads.SessionCreatedBytes | marketing/static/js/tinyanalytics-v0.autotrack.js:159-185 | a new session is its time, the byte of event type 1, client id, session id, five strings after their lengths and the two sizes, if each string keeps its limit and the whole no more than 1024 bytes, and otherwise the error for the first limit broken |
| AnalyticsPayloads.SessionEndedBytes | marketing/static/js/tinyanalytics-v0.autotrack.js:187-195 | the end of a session is its time, the byte of event type 2 and the reason, always |
| AnalyticsPayloads.ZigZag | marketing/static/js/tinyanalytics-v0.autotrack.js:204-204 | shift, exclusive or and truncation to 64 bits give 2v for v >= 0 and -2v - 1 below |
| AnalyticsPayloads.PartsRoundTrip | marketing/static/js/tinyanalytics-v0.autotrack.js:165-182 | any sequence of longs, fixed ids and length-prefixed strings reads back from its kinds, whatever bytes follow |
| AnalyticsPayloads.PayloadRoundTrip | marketing/static/js/tinyanalytics-v0.autotrack.js:147-195 | an encoded payload decodes to its time, its type and its fields |
| AnalyticsPayloads.PayloadsDecodeUniquely | marketing/static/js/tinyanalytics-v0.autotrack.js:147-195 | two events that encode to the same payload are the same |
| AnalyticsPayloads.PiecesFlatten | marketing/static/js/tinyanalytics-v0.autotrack.js:147-195 | the byte runs a payload is put together from are the encodings of its parts in order |
| AnalyticsPayloads.EncodeLong | marketing/static/js/tinyanalytics-v0.autotrack.js:203-212 | the loop produces the specified bytes, 1 to 10 of them |
| AnalyticsPayloads.ConcatenateBytes | marketing/static/js/tinyanalytics-v0.autotrack.js:214-225 | the sized and filled buffer is the concatenation of the parts |
| AnalyticsPayloads.CopyInto | marketing/static/js/tinyanalytics-v0.autotrack.js:220-223 | sets a part at its offset and leaves what is in front of it |
| AnalyticsPayloads.EncodePayload | marketing/static/js/tinyanalytics-v0.autotrack.js:136-201 | the payload, or the first error in the order the script checks: empty path, field too long, body too large |
| StoreStack.TransparentStack | golang/internal/store/CachingDecorator.go:17-51 | all sequences of puts, gets, deletes and restarts, each restart an empty cache over the store as it is, with any random vectors, are answered as a plain map answers them, if and only if the cipher undoes itself on every block |
| StoreStack.GetsLastWrite | golang/internal/store/CachingDecorator.go:22-51 | with a cipher that undoes itself, in any sequence of operations and restarts a get is answered with what was last put under its key, or as not found if it was deleted since or never put |
| StoreStack.CacheServes | golang/internal/store/CachingDecorator.go:31-42 | what was put or found is answered from the cache, whatever lies in the store meanwhile |
| StoreStack.RereadSpoiled | golang/internal/store/EncryptingDecorator.go:44-57 | a put, a restart and a get of a block that the cipher does not undo are not answered like a map |
| StoreStack.PerformHides | golang/internal/store/CachingDecorator.go:22-51 | each operation keeps the stack equal to the plain map it hides, and answers alike |
| StoreStack.UnsealSeal | golang/internal/store/EncryptingDecorator.go:31-57 | what was padded, chained and stored behind its vector decrypts and unpads to the same bytes |
| StoreStack.DecryptEncrypt | golang/internal/store/EncryptingDecorator.go:39-54 | block chaining is undone for every sequence of whole blocks, every vector and every invertible block cipher |
| StoreStack.ChainedBlock | golang/internal/store/EncryptingDecorator.go:36-40 | each stored block is the cipher's image of the data block combined with the stored block before it, the vector for the first |
| StoreStack.PadFills | golang/internal/store/EncryptingDecorator.go:63-67 | each byte that padding adds is the number of them |
| StoreStack.UnpadPad | golang/internal/store/EncryptingDecorator.go:63-75 | padding is undone for every byte string, the empty one included |
| StoreStack.PadUnpad | golang/internal/store/EncryptingDecorator.go:69-75 | unpadding checks the last byte only: padding gives the same blocks back if and only if every dropped byte is the number of them |
| StoreStack.Pad | golang/internal/store/EncryptingDecorator.go:63-67 | padding keeps the data in front, adds 1 to 16 bytes, and ends on whole blocks |
| StoreStack.EncryptingDecorator.Put | golang/internal/store/EncryptingDecorator.go:31-42 | stores the sealed data under its key |
| StoreStack.EncryptingDecorator.CryptBlocks | golang/internal/store/EncryptingDecorator.go:35-40 | fills the buffer behind the vector block by block with the chained encryption |
| StoreStack.EncryptingDecorator.DecryptBlocks | golang/internal/store/EncryptingDecorator.go:51-54 | fills the buffer block by block with what the chained encryption was made from |
| StoreStack.EncryptingDecorator.Get | golang/internal/store/EncryptingDecorator.go:44-57 | answers not found, the unsealed data, or stops on data it cannot unseal |
| StoreStack.CachingDecorator.Put | golang/internal/store/CachingDecorator.go:22-29 | refines the put: the store first, then the cache |
| StoreStack.CachingDecorator.Get | golang/internal/store/CachingDecorator.go:31-42 | refines the get: the cache, or the store and then the cache |
| StoreStack.CachingDecorator.Delete | golang/internal/store/CachingDecorator.go:44-51 | refines the delete: the store first, then the cache |
| StoreStack.CachingDecorator.constructor | golang/internal/store/CachingDecorator.go:17-20 | an empty cache over whatever the store holds |

## Left out

- Sessions and session infos are pointers shared between slice, maps and queues in the Go code; here they are values, so updates through one of several pointers are modelled where they are read, and aliasing is not.
- Go slices share their spare capacity when cut or appended to (the queues, `pkcs7Pad`, the cached slice an iterator holds); sequences here do not share.
- Map keys made of an account, U+0000 and an id are pairs here; `StatusMessages.AccountKeyInjective` says when that is the same.
- JSON and message decoding: events and messages arrive decoded, and the handlers' early returns on malformed messages are not modelled. Fatal errors of the log and the stores are not modelled, nor are failing stores below the cache.
- uuids are a counter that never repeats; clocks, random vectors and the delay of timers are parameters.
- The mqtt.js client: only the calls made on it are recorded. A subscribe acknowledgement is not tied to a connection, so coverage is of requests made, not of requests granted; the order of several filters in one request is not kept.
- Delivery of received messages to subscription callbacks, and matching topic filters to topics.
- Listeners of the MQTT service other than the baby session. The session's listener runs as a step right after the change it hears of.
- The session's answer to a parent station's announcement, and the backend's.
- Goroutines and locks below the level of one locked section: each locked section is one step. `GetTotalDuration` reads its maps after releasing the lock, which is not modelled as an interleaving.
- The order in which `Snapshot.List` shows stations, which is the map's.
- `ConnectionRegistry` and `PendingSessionStarts`, and the announcement published when a pending session's connection arrives: bookkeeping with no bearing on the log.
- Lines of the events file that are cut short, and metadata cut short while it is rewritten.
- The UTF-8 encoding of strings in payloads: strings are given as bytes. Times, sizes and reasons are taken to be in the signed 64-bit range.
- Go's integer widths for clocks, times and durations; they are unbounded here.
- `GetCountOfActiveSessions`, `CompositeStore`, the file and S3 stores, `sortedset`, the in-memory session store, the account store, the wake lock, call and recording code, and all pages: easier or without visible logic.
- StatusHandlers.StatusHandler.HandleConnectedMessage: does not model the registry update before its second step, nor the pending announcement after it, because neither reaches the log.
- StatusHandlers.StatusHandler.HandleDisconnectedMessage: does not model the registry update before its first step, because it does not reach the log, nor the early return on an error of the log, because such errors are not modelled.
- Projections.UsageReplay: does not compare replays that visit the map in other orders, because the order decides which sessions server.started leaves held, and so which a later reconnect revives; `UsageTables.OrderIndependence` says what does not depend on it.
- Follow.FollowingEventIterator.Next: stops where the Go method would block, instead of blocking, because nothing else runs meanwhile; a follower that waits while others append is `Follow.Watch`.
- StatusTraces.TimeoutsNameLatestDrop: lets a restart fall between the two steps of a message's handling, but no other message or firing; `StatusSync.TimeoutsJustified` is for any interleaving of the steps.
