# Connection, ownership and data transformations of the mesh client

A Dafny model of the concurrent and the data-transforming core of a desktop client for Meshtastic,
MeshCore and Reticulum radios, written in TypeScript for Electron, with proofs of what that core keeps.
Paths below are relative to the root of that repository. `dafny verify dfyconfig.toml` checks everything.

## How the model is built

Code that changes state step by step is a class with the source's fields. A ghost function `View`
collects the fields into a value, pure functions say what each entry point does to that value, and every
method is proved to do exactly that: `View() == OnX(old(View()), ..)`. What happens over time is then a
run: a sequence of API calls, events of the outside world and timer firings, each allowed by `Enabled`
or `Legal` and otherwise in any order. The main results are lemmas about the state after any run from
the initial one. An `await` is the end of one step and the beginning of another, with an explicit place
for each task in between. Loops of the source are loops with invariants.

A method that equals its function says nothing about the function. So every machine also has laws that say
what an event, an input text or a call leads to without naming the function that computes it: what a close
is followed by, which paths a piece of a pattern accepts, which number a text denotes, which device a
callback gets. In the files they stand under headings such as "what each event leads to".

| file | what it models |
|---|---|
| `MqttReconnect.dfy` | reconnecting of the Meshtastic MQTT manager |
| `MeshcoreReconnect.dfy` | token-gated reconnecting of the MeshCore MQTT adapter |
| `PacketCaches.dfy` | the seen-packet cache and the cap on bad envelope signatures |
| `ChannelKeys.dfy` | merging of radio and manual channel keys |
| `ScanMutex.dfy` | the Bluetooth scan mutex and the peripheral registry |
| `NobleQueues.dfy` | connect queue, write queue and read pump of the Noble stack |
| `DeviceChooser.dfy` | the Web Bluetooth chooser session on Linux |
| `GlobRegex.dfy` | glob patterns, their compilation, and the regular expressions they compile to |
| `ReticulumConfig.dfy` | the rewriter that switches off decommissioned hubs |
| `SchemaDedupe.dfy` | the deduplication before unique indexes are built |
| `HashCasing.dfy` | the repair of destination hashes |
| `PruneCascade.dfy` | deleting contacts with their room messages |
| `RateLimiter.dfy`, `LinkPreviews.dfy` | the sliding-window limiter and the link preview fetcher that uses it |
| `Common.dfy` | small datatypes and JavaScript string operations |

## Assumptions about the outside world

- A client of mqtt.js delivers at most one `close` and nothing after it; a force-ended current client
  still owes its `close`. A timer that was cleared never fires.
- Listeners do not call back synchronously into the MQTT classes. The chooser is the exception: there
  callbacks may re-enter, and that is part of the model.
- mqtt.js may report the outcome of a subscribe or unsubscribe after its client was force-ended, a success
  included. Nothing in the repository rules this out, and the results about stale callbacks depend on it.
- Where a clock matters for a bound it does not run backwards. For the limiter `RateLimiter.AttemptWrongIff`
  says what happens on any clock.
- SQLite groups NULLs together but treats them as distinct in unique indexes, enforces the indexes it
  has, and breaks ties of `ORDER BY` in any way.

## What the code does not do

Some properties one would expect are false of the code. For each a lemma says exactly when it fails, with a
reachable example where an example helps.

- The subscribe and unsubscribe callbacks of an abandoned MQTT client are not ignored: the one still resets
  the retry count or sets `error` (`MqttReconnect.StaleSubscribeInertIff`), the other subscribes on its
  successor (`StaleUnsubscribeInertIff`). The first lets one reconnect more than the bound through, exactly
  as `RetryBudget` says (`BudgetOverrunWitness`); the second can subscribe a topic that is no longer the
  remembered one (`OutdatedSubscribeIff`).
- An automatically reconnected client does not subscribe when the remembered topic is the current one
  (`MqttReconnect.ReconnectSubscribesIff`).
- After a CONNACK timeout the MeshCore adapter has no way back without an API call or a wake-up
  (`MeshcoreReconnect.WedgedIffWatchdogGaveUp`), and its stability test reads the CONNACK time of an
  earlier session (`RenewalMisjudgedIff`).
- The delayed subscribe of an earlier MeshCore session goes to the client that is connected by then
  (`MeshcoreReconnect.DelayInertIff`).
- A wait timeout lets two holders of a Noble queue run side by side (`SlotQueue.OvertakenIffTimeoutAhead`,
  `ExclusionBreaks`).
- Cancelling the chooser by callback can end a later session that reuses the callback
  (`DeviceChooser.CallbackCancelStraysIff`).
- Deduplication deletes rows with NULL keys that the index would accept
  (`SchemaDedupe.OverDeletesIff`), the packet step can remove the last row of a reaction, even of one
  the reaction index enforced (`ReactionKeptIff`, `EnforcedReactionLost`), and an index of the right name but with legacy columns is kept
  (`MeshcoreCurrentIff`).
- The hash repair ignores padded hashes unless some hash has an upper-case letter
  (`HashCasing.CanonicalAfterIff`) and can lose verification data (`VerificationKeptIff`).
- A prune that has nothing to delete does not sweep orphaned room messages
  (`PruneCascade.PrunedAnchoredIff`).
- With a clock that steps back the limiter refuses calls its definition admits, and admits calls beyond
  its maximum (`RateLimiter.AttemptWrongIff`, `BackwardsRefusalWitness`, `BackwardsAdmissionWitness`).

## Model

| member | source | states |
|---|---|---|
| `MqttReconnect.NoWedge` | src/main/mqtt-manager.ts:577-781 | in every run, with settings present, awake and not in `error`, exactly one of two things is still to come: the reconnect timer, or the `close` of the current client |
| `MqttReconnect.StaleClientInert` | src/main/mqtt-manager.ts:644-650 | every client that is no longer current was force-ended, and its error, connect, close and offline events change no field |
| `MqttReconnect.StaleSubscribeInertIff` | src/main/mqtt-manager.ts:514-531 | the subscribe callback has no identity check: one owed by a stale client is inert exactly when it reports the connection loss, or would set what is already set |
| `MqttReconnect.StaleUnsubscribeInertIff` | src/main/mqtt-manager.ts:535-543 | neither has the unsubscribe callback: one owed by a stale client is inert exactly when no connected client is current |
| `MqttReconnect.OutdatedSubscribeIff` | src/main/mqtt-manager.ts:511-543 | an unsubscribe callback subscribes an outdated topic exactly when a client is connected and the remembered topic has changed since |
| `MqttReconnect.OutdatedSubscribeWitness` | src/main/mqtt-manager.ts:511-543 | such a run: the client is told to subscribe one topic while another is remembered |
| `MqttReconnect.DisconnectIsFinal` | src/main/mqtt-manager.ts:1187-1204 | without settings, in any run without `connect()`, no client is created, no timer armed and no settings restored |
| `MqttReconnect.DisconnectClears` | src/main/mqtt-manager.ts:1187-1204 | `disconnect()` reaches such a state from every reachable one and keeps the invariant |
| `MqttReconnect.RetryBudget` | src/main/mqtt-manager.ts:733-750 | in every run the reconnects scheduled since the last renewal equal `retryCount` and stay within the clamped maximum; those performed exceed it by at most one, and do exactly when the renewal found a timer armed, all retries since are used, and none of the timers is still armed or was cleared by a suspend |
| `MqttReconnect.BudgetOverrunWitness` | src/main/mqtt-manager.ts:526-531 | that extra reconnect is reachable: a run with one retry allowed in which two are performed |
| `MqttReconnect.CarriedStaysZero` | src/main/mqtt-manager.ts:526-531 | no renewal finds a timer armed in runs where abandoned clients report no successful subscribe |
| `MqttReconnect.CloseAtBoundRests` | src/main/mqtt-manager.ts:733-770 | a close of the current client at the bound, and only there, rests in `error` with no timer and no live client |
| `MqttReconnect.OneSuccessorPerClose` | src/main/mqtt-manager.ts:726-771 | without connect or resume calls, clients created plus the armed timer grow by at most one per close that schedules a retry, in any order of events |
| `MqttReconnect.ReconnectSubscribesIff` | src/main/mqtt-manager.ts:507-513 | an automatically reconnected client subscribes on CONNACK exactly when no topic was remembered, and does nothing at all exactly when the remembered topic is that of the prefix |
| `MqttReconnect.InvStep` | src/main/mqtt-manager.ts:577-781 | every entry point, client event and timer keeps the joint invariant of fields and history |
| `MqttReconnect.ErrorThenClose` | src/main/mqtt-manager.ts:650-676 | in every run, after an error of the live current client and then its close, the reconnect timer is armed exactly if the error was not fatal and retries are left; otherwise the session rests in `error`; a CONNACK timeout makes the retry fast |
| `MqttReconnect.DropRetriesIff` | src/main/mqtt-manager.ts:650-780 | the same after any sequence of errors, time-outs and offline events before the close |
| `MqttReconnect.ConnectStarts` | src/main/mqtt-manager.ts:334-356 | in every run `connect()` starts exactly one client with the given settings and a full budget, and does nothing exactly if the prefix has `+` or `#` |
| `MqttReconnect.TimerReconnects` | src/main/mqtt-manager.ts:765-770 | in every run the armed timer starts exactly one client with the settings of that moment |
| `MqttReconnect.ResumeRestarts` | src/main/mqtt-manager.ts:1224-1257 | a suspend clears two timers only; a resume starts exactly one client with a full budget and a fast first retry, or does nothing without settings |
| `MqttReconnect.FirstConnackSubscribes` | src/main/mqtt-manager.ts:691-719 | the CONNACK of a first session subscribes the one topic of its prefix and pings over web sockets only |
| `MqttReconnect.TopicOfPrefix` | src/main/mqtt-manager.ts:502-505 | the topic is the prefix, one slash and `#`, with or without a slash at the end of the prefix |
| `MqttReconnect.PrefixTakesEffect` | src/main/mqtt-manager.ts:550-568 | with a client connected the topic of a new prefix is remembered, and unless it was, subscribed at once or after the old one is given up |
| `MqttReconnect.PrefixRemembered` | src/main/mqtt-manager.ts:550-568 | without a connected client a new prefix is kept for the next one and nothing is sent |
| `MqttReconnect.OfflineShows` | src/main/mqtt-manager.ts:774-780 | a connected session that goes offline shows as connecting, one that is over stays over |
| `MqttReconnect.PrefixIgnored` | src/main/mqtt-manager.ts:550-558 | a blank prefix, one with a wildcard, or one without a session changes nothing |
| `MqttReconnect.SubscribeReports` | src/main/mqtt-manager.ts:514-531 | success renews the budget, a refusal sets `error`, a lost connection changes nothing |
| `MqttReconnect.CallbackDelivered` | src/main/mqtt-manager.ts:514-531 | each owed callback is delivered once |
| `MqttReconnect.AckTimeoutEnds` | src/main/mqtt-manager.ts:678-689 | a missing CONNACK force-ends the client, which stays current and owes its close |
| `MqttReconnect.RetryLimit` | src/main/mqtt-manager.ts:737-743 | the retries allowed are those configured, kept within 1 and 12, and 5 if nothing is configured |
| `MqttReconnect.MqttManager.ConnectTo` | src/main/mqtt-manager.ts:334-356 | `connect()`: rejects wildcard prefixes unchanged, otherwise disconnects, stores the settings and starts a client |
| `MqttReconnect.MqttManager.DisconnectNow` | src/main/mqtt-manager.ts:1187-1204 | `disconnect()` has exactly the specified new state |
| `MqttReconnect.MqttManager.DoConnectWith` | src/main/mqtt-manager.ts:577-583 | starting a client force-ends the previous one and arms the CONNACK timer |
| `MqttReconnect.MqttManager.HandleError` | src/main/mqtt-manager.ts:650-676 | the error handler of the specified step: what each kind of error leads to is said by `ErrorThenClose` and `DropRetriesIff` |
| `MqttReconnect.MqttManager.HandleConnect` | src/main/mqtt-manager.ts:691-719 | the connect handler: status, timers and the wildcard subscribe with the captured settings |
| `MqttReconnect.MqttManager.HandleClose` | src/main/mqtt-manager.ts:726-772 | the close handler: timers cleared, then rest, `error` at the bound, or one more retry scheduled |
| `MqttReconnect.MqttManager.HandleOffline` | src/main/mqtt-manager.ts:774-780 | the offline handler |
| `MqttReconnect.MqttManager.ReconnectTimerFires` | src/main/mqtt-manager.ts:765-770 | the reconnect timer starts a client with the current settings, if any |
| `MqttReconnect.MqttManager.ConnectAckTimerFires` | src/main/mqtt-manager.ts:678-689 | the CONNACK timer force-ends the current client that is still connecting but keeps it current, so its `close` still counts |
| `MqttReconnect.MqttManager.HandlePowerSuspend` | src/main/mqtt-manager.ts:1250-1257 | suspend clears the timers and nothing else |
| `MqttReconnect.MqttManager.HandlePowerResume` | src/main/mqtt-manager.ts:1224-1248 | resume renews the budget and starts a client at once when settings are present |
| `MqttReconnect.MqttManager.SubscribeWildcardTopic` | src/main/mqtt-manager.ts:507-548 | subscribe, switch by unsubscribing first, or nothing when the topic is the remembered one |
| `MqttReconnect.MqttManager.SubscribeNow` | src/main/mqtt-manager.ts:511-531 | a subscribe for the topic goes to the client that is current and connected at that moment |
| `MqttReconnect.MqttManager.UpdateTopicPrefix` | src/main/mqtt-manager.ts:550-568 | prefix change: rejection, trimming and the early return |
| `MqttReconnect.MqttManager.HandleSubscribeDone` | src/main/mqtt-manager.ts:514-531 | the subscribe callback acts on the manager whichever client it came from |
| `MqttReconnect.MqttManager.HandleUnsubscribeDone` | src/main/mqtt-manager.ts:535-543 | the unsubscribe callback subscribes the topic of the moment it was issued, on whatever client is current then |
| `MeshcoreReconnect.TokenGate` | src/main/meshcore-mqtt-adapter.ts:458-557 | in every run at most one of reconnect timer and token wait exists, never beside a live client; a live wait timer implies the wait flag, and awake the flag implies the timer |
| `MeshcoreReconnect.TokenOrTimeoutOnce` | src/main/meshcore-mqtt-adapter.ts:107-125 | out of a wait `updateToken` starts one client with the new token and the timeout one with the old token, and whichever comes second finds nothing to start |
| `MeshcoreReconnect.OneSuccessorPerClose` | src/main/meshcore-mqtt-adapter.ts:458-557 | without connect or resume calls, clients plus routes grow by at most one per close that opens a route, in any order of events |
| `MeshcoreReconnect.WedgedIffWatchdogGaveUp` | src/main/meshcore-mqtt-adapter.ts:336-348 | awake, with settings and not in `error`, the adapter has neither a route nor a live client exactly when its CONNACK watchdog fired |
| `MeshcoreReconnect.GivingUpReachable` | src/main/meshcore-mqtt-adapter.ts:336-348 | such a state is reachable: one connect and one CONNACK timeout |
| `MeshcoreReconnect.StaleClientInert` | src/main/meshcore-mqtt-adapter.ts:319-323 | every client that is no longer current was force-ended, and its events change no field |
| `MeshcoreReconnect.DisconnectClears` | src/main/meshcore-mqtt-adapter.ts:207-226 | `disconnect()` removes client, settings and routes from every reachable state |
| `MeshcoreReconnect.DisconnectIsFinal` | src/main/meshcore-mqtt-adapter.ts:207-226 | without settings, in any run without `connect()`, no client is created, no route opened and no settings restored |
| `MeshcoreReconnect.RetryBudget` | src/main/meshcore-mqtt-adapter.ts:476-505 | in every run `retryCount` equals the closes that opened a route since the last renewal and stays within the clamped maximum; while no close renewed it these are all closes since the last connect or resume, and the clients started stay within the maximum plus one for a power resume; runs of short sessions never renew it |
| `MeshcoreReconnect.CloseAtBoundRests` | src/main/meshcore-mqtt-adapter.ts:476-505 | a close of the current client at the bound, counting a renewal by that close, and only there, rests in `error` with no route and no live client |
| `MeshcoreReconnect.DelayInertIff` | src/main/meshcore-mqtt-adapter.ts:373-397 | the delayed subscribe has no identity check: it subscribes its topic on whatever client is current exactly when that one is connected, and changes nothing else |
| `MeshcoreReconnect.TokenTimerGuard` | src/main/meshcore-mqtt-adapter.ts:134-158 | the refresh timer is armed only while there are settings; its firing asks for a token exactly when connected and changes nothing else |
| `MeshcoreReconnect.ShortSessionsNeverRenew` | src/main/meshcore-mqtt-adapter.ts:485-489 | when every session gets CONNACK and drops in under 30 s, no close renews the budget |
| `MeshcoreReconnect.RenewalMisjudgedIff` | src/main/meshcore-mqtt-adapter.ts:469-489 | a close misjudges a session as stable exactly when that session got no CONNACK and an earlier one did at least 30 s ago, because `lastConnected` outlives its session |
| `MeshcoreReconnect.MisjudgedRenewalWitness` | src/main/meshcore-mqtt-adapter.ts:469-489 | such a run: one retry allowed, two scheduled |
| `MeshcoreReconnect.InvStep` | src/main/meshcore-mqtt-adapter.ts:243-565 | every entry point, client event and timer keeps the joint invariant of fields and history |
| `MeshcoreReconnect.RetryByTokenIff` | src/main/meshcore-mqtt-adapter.ts:507-555 | in every run, after a close that is retried, the timer opens a token wait and starts no client exactly if the settings have a token expiry, and otherwise starts exactly one client with the current settings and leaves no wait |
| `MeshcoreReconnect.CloseRetriesIff` | src/main/meshcore-mqtt-adapter.ts:468-505 | in every run the close of the current client is retried exactly if its CONNACK is 30 s ago or retries are left, and otherwise rests in `error` |
| `MeshcoreReconnect.DropRetriesIff` | src/main/meshcore-mqtt-adapter.ts:323-564 | errors, offline events, silence and token refreshes before the close do not change that |
| `MeshcoreReconnect.ConnectStarts` | src/main/meshcore-mqtt-adapter.ts:228-241 | in every run `connect()` starts exactly one client with the given settings, or ends in `error` without a session exactly if the prefix has `+` or `#` |
| `MeshcoreReconnect.ConnackArms` | src/main/meshcore-mqtt-adapter.ts:349-414 | the exact times, watchdog limit, delayed topic, ping and token timer a CONNACK sets |
| `MeshcoreReconnect.TopicOfPrefix` | src/main/meshcore-mqtt-adapter.ts:20-23 | the topic is the trimmed prefix without its slash, `msh` for none, and `/#` |
| `MeshcoreReconnect.ErrorDisarms` | src/main/meshcore-mqtt-adapter.ts:323-335 | an error before CONNACK shows at once and takes the CONNACK watchdog away |
| `MeshcoreReconnect.OfflineShows` | src/main/meshcore-mqtt-adapter.ts:558-564 | a live session that goes offline shows as disconnected and keeps its client |
| `MeshcoreReconnect.WatchdogEndsIff` | src/main/meshcore-mqtt-adapter.ts:181-193 | the connected client is force-ended exactly if the last packet is longer ago than the watchdog tolerates |
| `MeshcoreReconnect.PacketPutsOff` | src/main/meshcore-mqtt-adapter.ts:426-436 | a packet keeps the watchdog quiet for that long |
| `MeshcoreReconnect.SuspendPauses` | src/main/meshcore-mqtt-adapter.ts:636-643 | a suspend clears exactly the reconnect timer, the wait timeout and the watchdog |
| `MeshcoreReconnect.ResumeRestarts` | src/main/meshcore-mqtt-adapter.ts:646-684 | in every run a resume renews the budget and opens a wait exactly if a token is needed, and else starts one client |
| `MeshcoreReconnect.TokenKept` | src/main/meshcore-mqtt-adapter.ts:107-125 | a token outside a wait is kept for later clients, rearms the refresh and starts no client |
| `MeshcoreReconnect.DelayEnds` | src/main/meshcore-mqtt-adapter.ts:373-397 | each pause before a subscribe ends once |
| `MeshcoreReconnect.RetryLimit` | src/main/meshcore-mqtt-adapter.ts:490-496 | the retries allowed are those configured, kept within 1 and 12, and 5 if nothing is configured |
| `MeshcoreReconnect.MeshcoreMqttAdapter.DoConnectWith` | src/main/meshcore-mqtt-adapter.ts:243-318 | starting a client force-ends the previous one |
| `MeshcoreReconnect.MeshcoreMqttAdapter.BeginSession` | src/main/meshcore-mqtt-adapter.ts:349-414 | what a CONNACK of the current client sets and arms |
| `MeshcoreReconnect.MeshcoreMqttAdapter.ScheduleTokenRefresh` | src/main/meshcore-mqtt-adapter.ts:134-158 | the timer is armed exactly for a connected session whose token has more than the grace period to live |
| `MeshcoreReconnect.MeshcoreMqttAdapter.TokenRefreshTimerFires` | src/main/meshcore-mqtt-adapter.ts:153-157 | a token is asked for only when connected with settings |
| `MeshcoreReconnect.MeshcoreMqttAdapter.DelayedSubscribeFires` | src/main/meshcore-mqtt-adapter.ts:373-397 | the end of the pause after CONNACK |
| `MeshcoreReconnect.MeshcoreMqttAdapter.EndSession` | src/main/meshcore-mqtt-adapter.ts:463-479 | what the close handler clears |
| `MeshcoreReconnect.MeshcoreMqttAdapter.ScheduleReconnect` | src/main/meshcore-mqtt-adapter.ts:468-555 | the specified retry; when there is one is said by `CloseRetriesIff`, by which of the two routes by `RetryByTokenIff` |
| `MeshcoreReconnect.MeshcoreMqttAdapter.ReconnectAfterWake` | src/main/meshcore-mqtt-adapter.ts:667-684 | after a wake-up: a token wait or a client at once |
| `MeshcoreReconnect.MeshcoreMqttAdapter.ConnectTo` | src/main/meshcore-mqtt-adapter.ts:228-241 | `connect()`: disconnect, then `error` for a wildcard prefix or a new client |
| `MeshcoreReconnect.MeshcoreMqttAdapter.DisconnectNow` | src/main/meshcore-mqtt-adapter.ts:207-226 | `disconnect()` has exactly the specified new state |
| `MeshcoreReconnect.MeshcoreMqttAdapter.UpdateTokenTo` | src/main/meshcore-mqtt-adapter.ts:107-125 | `updateToken`: the new expiry is stored, the refresh timer rearmed, and a pending wait becomes a client |
| `MeshcoreReconnect.MeshcoreMqttAdapter.HandleError` | src/main/meshcore-mqtt-adapter.ts:323-335 | the error handler: a connecting session becomes disconnected, the client stays current |
| `MeshcoreReconnect.MeshcoreMqttAdapter.HandleConnect` | src/main/meshcore-mqtt-adapter.ts:349-415 | the connect handler: CONNACK time, watchdog, status, delayed subscribe, ping and token refresh |
| `MeshcoreReconnect.MeshcoreMqttAdapter.HandlePacket` | src/main/meshcore-mqtt-adapter.ts:426-436 | packets of the current client alone move `lastPacketReceivedAt` |
| `MeshcoreReconnect.MeshcoreMqttAdapter.HandleClose` | src/main/meshcore-mqtt-adapter.ts:458-557 | the close handler with the stability test, the bound and the two kinds of route |
| `MeshcoreReconnect.MeshcoreMqttAdapter.HandleOffline` | src/main/meshcore-mqtt-adapter.ts:558-564 | the offline handler |
| `MeshcoreReconnect.MeshcoreMqttAdapter.ConnectAckTimerFires` | src/main/meshcore-mqtt-adapter.ts:336-348 | the CONNACK watchdog drops the client it was armed for, if that is still connecting |
| `MeshcoreReconnect.MeshcoreMqttAdapter.ReconnectTimerFires` | src/main/meshcore-mqtt-adapter.ts:518-555 | the reconnect timer opens a token wait or starts a client |
| `MeshcoreReconnect.MeshcoreMqttAdapter.PendingReconnectTimerFires` | src/main/meshcore-mqtt-adapter.ts:526-535 | the wait timeout starts a client with the existing token |
| `MeshcoreReconnect.MeshcoreMqttAdapter.ConnectionWatchdogFires` | src/main/meshcore-mqtt-adapter.ts:181-193 | a silent connected client is force-ended after 1.5 keepalives and stays current |
| `MeshcoreReconnect.MeshcoreMqttAdapter.HandlePowerSuspend` | src/main/meshcore-mqtt-adapter.ts:636-643 | suspend clears the three timers but not the wait flag |
| `MeshcoreReconnect.MeshcoreMqttAdapter.HandlePowerResume` | src/main/meshcore-mqtt-adapter.ts:646-684 | resume renews the budget, drops the client and opens a token wait or starts a client |
| `PacketDedup.SeenPackets.IsDuplicate` | src/main/mqtt-manager.ts:1270-1296 | true only for an id recorded less than 10 minutes ago, and always for such an id unless 25,001 other ids were recorded at or after it; otherwise it records the id; the size bound of the trimming |
| `PacketDedup.SeenPackets.TrimCache` | src/main/mqtt-manager.ts:1273-1289 | trimming keeps the cache right and within the larger of the cap and half its size |
| `PacketDedup.SeenPackets.RecordPublished` | src/main/mqtt-manager.ts:830-831 | a publish records its own id without trimming |
| `PacketDedup.SeenPackets.DeleteExpired` | src/main/mqtt-manager.ts:1273-1279 | the two-pass cleanup removes exactly the expired entries |
| `PacketDedup.SeenPackets.EvictOldestHalf` | src/main/mqtt-manager.ts:1282-1289 | the eviction keeps the larger half, none of it expiring before an entry that went |
| `PacketDedup.EvictionFits` | src/main/mqtt-manager.ts:1282-1289 | an evicted id has at least 25,001 ids recorded at or after it |
| `PacketDedup.CleanupFits` | src/main/mqtt-manager.ts:1273-1279 | cleanup loses only ids whose time has passed |
| `PacketDedup.FittingAnswer` | src/main/mqtt-manager.ts:1290-1293 | the answer read off the cache is right unless the id was crowded out |
| `PacketDedup.SortedByExpiry` | src/main/mqtt-manager.ts:1286-1287 | the entries in ascending order of expiry, each once |
| `FiniteMaps.DropSortedTop` | src/main/mqtt-manager.ts:1286-1289 | dropping a prefix of the sorted entries leaves a top part of the map |
| `SignatureCap.Signatures.EnforceCap` | src/main/mqtt-manager.ts:176-197 | over the cap the survivors are exactly the top unexpired signatures by expiry, as many as the cap allows; within the cap nothing is touched |
| `SignatureCap.Signatures.DropExpired` | src/main/mqtt-manager.ts:182-184 | exactly the signatures that have expired go |
| `FiniteMaps.TopDropsLeast` | src/main/mqtt-manager.ts:185-196 | removing the entry of least expiry from a top part leaves the next smaller top part |
| `ChannelKeys.PathIndependent` | src/main/mqtt-manager.ts:359-405 | after any sequence of radio syncs and publishes, both maps with their order, the name sets and the decrypt-only keys equal those of the last sync alone on a fresh connect, and the decrypt list is computed from them |
| `ChannelKeys.UpdateForgets` | src/main/mqtt-manager.ts:359-405 | a radio sync forgets everything but the manual lines: from any two reachable states with the same lines it gives the same maps, order and names |
| `ChannelKeys.SyncPrecedence` | src/main/mqtt-manager.ts:359-431 | who wins per name: manual key over radio key, radio slot over manual slot, the last radio entry except that the public default never displaces another key; slots stay within 0 to 7 |
| `ChannelKeys.ManualFoldLookup` | src/main/mqtt-manager.ts:407-431 | the last valid manual line of a name decides its key, the last one with a slot its slot |
| `ChannelKeys.RadioFoldLookup` | src/main/mqtt-manager.ts:366-402 | the same for radio entries, with the default-key exception |
| `ChannelKeys.FirstOccurrencesOrdered` | src/main/mqtt-manager.ts:440-456 | the decrypt list holds each key once, in order of first occurrence |
| `ChannelKeys.KnownKeys` | src/main/mqtt-manager.ts:440-456 | the list contains the default key, the publish-time keys, the keys of the map and the decrypt-only keys |
| `ChannelKeys.PublishKeyIsKnown` | src/main/mqtt-manager.ts:828-841 | in every reachable state the key a publish encrypts with is in the decrypt list at that moment |
| `ChannelKeys.RunInv` | src/main/mqtt-manager.ts:344-461 | every run keeps the invariant: names accounted for, slots in range, list up to date |
| `ChannelKeys.PublishKeyOfRun` | src/main/mqtt-manager.ts:458-461 | after any run a publish uses the explicit key, else that of the last manual line for the channel, else the last sync's, where the public default yields to any other, else the default key |
| `ChannelKeys.AliasKeys` | src/main/mqtt-manager.ts:77-98 | the one-byte key 1 is the default key, 2 to 10 are the default key with that last byte, other bytes are padded with zeros |
| `ChannelKeys.LongKeys` | src/main/mqtt-manager.ts:77-98 | 16 and 32 bytes count as they are, 2 to 15 are padded with zeros, other lengths are refused |
| `ChannelKeys.ParsedTwice` | src/main/mqtt-manager.ts:77-98 | a parsed key parses to itself |
| `ChannelKeys.DefaultIff` | src/shared/meshtasticDefaultPublicPsk.ts:45-53 | a key counts as the public default exactly if the key it stands for starts with the default one |
| `ChannelKeys.SlotIff` | src/main/mqtt-manager.ts:371-374 | an index is a slot exactly if it is one of 0 to 7 modulo 2 to the 32 |
| `ChannelKeys.InvalidEntryIgnored` | src/main/mqtt-manager.ts:367-369 | a radio entry with a blank name or unusable key is passed over |
| `ChannelKeys.BareKeysListed` | src/main/mqtt-manager.ts:427-429 | the decrypt-only keys are those of the lines without a name |
| `OrderedMap.PutKeepsOrder` | src/main/mqtt-manager.ts:386-387 | setting a name keeps its place in the map; a new name comes last |
| `OrderedMap.ValueAt` | src/main/mqtt-manager.ts:450-454 | the values are tried in the order of the names |
| `OrderedMap.DropKeepsOrder` | src/main/mqtt-manager.ts:360-363 | deleting names leaves the others in order |
| `ChannelKeys.ChannelKeyTable.OnConnect` | src/main/mqtt-manager.ts:344-356 | the key part of `connect()` starts from scratch whatever was there |
| `ChannelKeys.ChannelKeyTable.UpdateChannelKeys` | src/main/mqtt-manager.ts:359-405 | a radio sync, with its loops, equals the specified state |
| `ChannelKeys.ChannelKeyTable.ForgetRadioNames` | src/main/mqtt-manager.ts:360-364 | exactly the names of the previous sync leave both maps |
| `ChannelKeys.ChannelKeyTable.DropNames` | src/main/mqtt-manager.ts:408-412 | names are deleted one by one and order is kept |
| `ChannelKeys.ChannelKeyTable.ApplyManualChannelPskLines` | src/main/mqtt-manager.ts:407-431 | the loop over the manual lines equals the fold |
| `ChannelKeys.ChannelKeyTable.EnsureDecryptKey` | src/main/mqtt-manager.ts:434-438 | a publish-time key is appended once, unless the list already holds it |
| `ChannelKeys.ChannelKeyTable.RebuildAllDecryptKeys` | src/main/mqtt-manager.ts:440-456 | the rebuild loop computes the first occurrences |
| `ScanMutex.MutexInvariant` | src/main/ble-coexistence-coordinator.ts:113-161 | under every interleaving: an acquire in flight means no owner; depth equals what the owner acquired and did not release, all others being even; a blocked waiter waits for the acquire in flight now; pauses exceed resumes by one exactly while the pause flag is up, only under Reticulum |
| `ScanMutex.PausedIffReticulum` | src/main/ble-coexistence-coordinator.ts:131-160 | with the manager set from the start, successful pauses minus resumes is 1 exactly while Reticulum owns the scan |
| `ScanMutex.FailedPauseFrees` | src/main/ble-coexistence-coordinator.ts:130-141 | a failed pause leaves the lock free and every waiter able to continue |
| `ScanMutex.AcquireAnswered` | src/main/ble-coexistence-coordinator.ts:113-142 | in every run a call, and one woken again, waits exactly if another is in its critical section, fails exactly if none is and another owner has the scan, and else gets it, or first pauses Noble exactly as Reticulum with a manager |
| `ScanMutex.WaiterAfterPause` | src/main/ble-coexistence-coordinator.ts:114-141 | a call that waited for a pause shares the scan if it succeeded and the owner is the same, fails if it succeeded and the owner is another, and takes the failed one's place if it failed |
| `ScanMutex.YieldEndsSessionsIff` | src/main/ble-coexistence-coordinator.ts:172-184 | a granted yield ends the GATT sessions exactly with a manager on a platform that needs it, and holds the scan meanwhile |
| `ScanMutex.MutualExclusion` | src/main/ble-coexistence-coordinator.ts:113-196 | when releases come from holders, depth is the number of holders and all holders have the owner's name; a failed yield gives back its own hold only |
| `ScanMutex.ShapeRun` | src/main/ble-coexistence-coordinator.ts:113-161 | both invariants hold along every run |
| `ScanMutex.ExclusiveRun` | src/main/ble-coexistence-coordinator.ts:113-196 | the holder count is kept along every run without stray releases |
| `ScanMutex.BleCoexistenceCoordinator.SetNobleManager` | src/main/ble-coexistence-coordinator.ts:62-64 | from then on acquires by Reticulum pause it |
| `ScanMutex.BleCoexistenceCoordinator.AcquireScan` | src/main/ble-coexistence-coordinator.ts:113-142 | a call up to its first await |
| `ScanMutex.BleCoexistenceCoordinator.EnterAcquire` | src/main/ble-coexistence-coordinator.ts:114-135 | the decision taken at entry and again after each wake-up |
| `ScanMutex.BleCoexistenceCoordinator.PauseSettled` | src/main/ble-coexistence-coordinator.ts:130-141 | the rest of the critical section, with its `finally` |
| `ScanMutex.BleCoexistenceCoordinator.ReleaseScanOf` | src/main/ble-coexistence-coordinator.ts:144-161 | release by name: ignored, counted down, or freed with a resume |
| `ScanMutex.BleCoexistenceCoordinator.ContinueYield` | src/main/ble-coexistence-coordinator.ts:172-184 | after a granted yield the GATT sessions are ended where the platform needs it |
| `ScanMutex.BleCoexistenceCoordinator.DisconnectSettled` | src/main/ble-coexistence-coordinator.ts:185-196 | a failed or timed-out disconnect releases the scan and surfaces the error |
| `PeripheralRegistry.OwnershipIsKept` | src/main/ble-coexistence-coordinator.ts:79-95 | in every run a registered peripheral stays with its owner until that owner unregisters it |
| `PeripheralRegistry.Registry.RegisterPeripheral` | src/main/ble-coexistence-coordinator.ts:79-87 | conflict exactly when another owner holds the address; otherwise it is registered |
| `PeripheralRegistry.Registry.UnregisterPeripheral` | src/main/ble-coexistence-coordinator.ts:89-95 | only the owner's unregister removes the address |
| `SlotQueue.OvertakenIffTimeoutAhead` | src/main/noble-ble-manager.ts:1212-1227 | in every run, while a call has not released its slot, a later call runs, ran or can be let in exactly if among the calls after it one timed out and one behind that did not |
| `SlotQueue.OrderBrokenOnlyByTimeout` | src/main/noble-ble-manager.ts:1212-1227 | so a later call starts before an earlier one exited only past a call that timed out in between; without timeouts holders are exclusive and FIFO |
| `SlotQueue.ExclusionBreaks` | src/main/noble-ble-manager.ts:1219-1227 | with a wait timeout two calls do run side by side |
| `SlotQueue.ExitedSettles` | src/main/noble-ble-manager.ts:1212-1227 | a slot is settled exactly when its call finished or timed out, so no waiter is stuck |
| `SlotQueue.NeverStuck` | src/main/noble-ble-manager.ts:1212-1227 | up to any waiting call, one is running or can be granted |
| `SlotQueue.ConnectQueue.Join` | src/main/noble-ble-manager.ts:1214-1218 | a call installs its slot behind the previous one |
| `SlotQueue.ConnectQueue.WaitSettled` | src/main/noble-ble-manager.ts:1219-1227 | granted, or timed out with the own slot released |
| `SlotQueue.ConnectQueue.Leave` | src/main/noble-ble-manager.ts:1711-1712 | the `finally` of the critical section settles the slot |
| `WriteQueue.WritesArePrefixes` | src/main/noble-ble-manager.ts:1748-1756 | in every run the bytes handed over for a call are a prefix of its payload, the whole of it if the call succeeds |
| `WriteQueue.ChunksWithinLimit` | src/main/noble-ble-manager.ts:1742-1752 | every chunk is non-empty and within the limit the link had for its call, and that within 512 bytes |
| `WriteQueue.WritesInCallOrder` | src/main/noble-ble-manager.ts:1731-1759 | without timeouts the bytes on the link are those prefixes one call after the other |
| `WriteQueue.WriteExitedSettles` | src/main/noble-ble-manager.ts:1738-1759 | exactly the exited calls settled their slot, even after a wait timeout |
| `BleAttWriteLimit.MaxWriteRequestPayloadBytes` | src/shared/bleAttWriteLimit.ts:29-31 | between 20 and 512 bytes, and with the three octets of its header within the effective MTU |
| `BleAttWriteLimit.AttMtuOrDefault` | src/shared/bleAttWriteLimit.ts:14-23 | an effective MTU between 23 and 517 that never exceeds a valid report |
| `BleAttWriteLimit.SanitizedOnce` | src/main/noble-ble-manager.ts:1742-1747 | falling back to the remembered sanitized MTU gives the limit of the report itself |
| `BleAttWriteLimit.PayloadByMtu` | src/shared/bleAttWriteLimit.ts:14-31 | 20 bytes without a report or below the default, three less than the reported MTU, 512 at most |
| `WriteQueue.OnlyLastChunkShort` | src/main/noble-ble-manager.ts:1748-1752 | in every run all chunks of a call have the full length its limit allows, but for the one that completes the payload |
| `WriteQueue.TurnHandsFirst` | src/main/noble-ble-manager.ts:1739-1752 | a call that gets its turn takes the limit of that moment and, if connected and not empty, hands over its first chunk at once |
| `WriteQueue.WholeUnlessChunkFails` | src/main/noble-ble-manager.ts:1748-1756 | a call ends without error exactly when its last chunk is acknowledged |
| `WriteQueue.GoodRun` | src/main/noble-ble-manager.ts:1727-1759 | the four invariants behind it hold along every run |
| `WriteQueue.NobleWriter.Enqueue` | src/main/noble-ble-manager.ts:1733-1737 | a write installs its slot behind the previous one |
| `WriteQueue.NobleWriter.WaitTimedOut` | src/main/noble-ble-manager.ts:1738-1759 | a timed-out wait releases the slot |
| `WriteQueue.NobleWriter.WaitGranted` | src/main/noble-ble-manager.ts:1739-1748 | the checks after the wait, the limit from the MTU of the moment, and the first chunk |
| `WriteQueue.NobleWriter.WriteChunk` | src/main/noble-ble-manager.ts:1748-1752 | one chunk, the next bytes up to the limit |
| `WriteQueue.NobleWriter.ChunkSettled` | src/main/noble-ble-manager.ts:1751-1756 | a failed or orphaned chunk ends the call, an acknowledged one continues or completes it |
| `WriteQueue.NobleWriter.Finally` | src/main/noble-ble-manager.ts:1757-1759 | the slot is released on every exit |
| `ReadPump.RequestIsServed` | src/main/noble-ble-manager.ts:677-744 | in every run of a live session at most one pump runs, a request without a read since keeps it active, and each of its steps starts a read or comes closer, within two |
| `ReadPump.DataReadsOn` | src/main/noble-ble-manager.ts:695-739 | while reads return data the pump of a live session reads on, one read per round, up to 512 reads, whatever is requested meanwhile |
| `ReadPump.EmptyReadEnds` | src/main/noble-ble-manager.ts:729-735 | an empty read ends the pump, or starts it over if a request came in; an empty first read is repeated after a pause where the platform asks for it |
| `ReadPump.FailedReadBacksOff` | src/main/noble-ble-manager.ts:717-728 | a failed read backs off and then starts over if a request came in or the platform asks for it, and else ends the pump |
| `ReadPump.DrainIsBounded` | src/main/noble-ble-manager.ts:695-740 | the 512th read of a drain ends it even with data |
| `ReadPump.RequestStarts` | src/main/noble-ble-manager.ts:677-687 | a request starts a pump with its first read, or leaves word for the one that runs |
| `ReadPump.TornDownReadsNothing` | src/main/noble-ble-manager.ts:703-705 | a session being torn down starts no further read |
| `ReadPump.InvRun` | src/main/noble-ble-manager.ts:677-744 | the invariant behind it holds along every run |
| `ReadPump.PumpSession.RequestFromRadioReadPump` | src/main/noble-ble-manager.ts:677-687 | a request raises the flag and starts a pump only if none is active |
| `ReadPump.PumpSession.OuterLoop` | src/main/noble-ble-manager.ts:692-694 | the outer test and the exits before the first read |
| `ReadPump.PumpSession.InnerLoop` | src/main/noble-ble-manager.ts:695-712 | one turn up to its read, with the tear-down exits |
| `ReadPump.PumpSession.ReadSettled` | src/main/noble-ble-manager.ts:708-740 | data, an empty read and an error, with the early re-poll |
| `ReadPump.PumpSession.PauseElapsed` | src/main/noble-ble-manager.ts:724-739 | what follows each pause |
| `ReadPump.PumpSession.Finally` | src/main/noble-ble-manager.ts:741-743 | the flag drops on every exit |
| `Glob.MatchSimpleGlobMeaning` | src/architecture/sourcePolicy.ts:34-39 | for every pattern and every path without line terminators, the compiled expression accepts exactly the paths in the pattern's language, both with forward slashes |
| `Glob.CompiledMeaning` | src/architecture/sourcePolicy.ts:41-86 | for every pattern and every path the compiled source accepts exactly the token language, `**` running over all but line terminators |
| `Glob.CompiledParses` | src/architecture/sourcePolicy.ts:41-86 | the compiled source parses back to exactly the intended terms between the anchors |
| `Glob.TokensParse` | src/architecture/sourcePolicy.ts:41-86 | whatever the tokens, the emitted pieces parse piece by piece: no piece merges with the next |
| `Glob.AlternativesParse` | src/architecture/sourcePolicy.ts:66-78 | escaped brace alternatives parse to their literal characters |
| `Glob.NodesMatch` | src/architecture/sourcePolicy.ts:41-86 | continuation matching of the terms equals splitting the path into texts of the tokens |
| `Glob.DirsMatch` | src/architecture/sourcePolicy.ts:46-50 | `**/` matches nothing or any text that ends in a slash |
| `Glob.OneOfMatches` | src/architecture/sourcePolicy.ts:66-78 | a brace set matches exactly one of its alternatives, literally |
| `Glob.TerminatorFree` | src/architecture/sourcePolicy.ts:34-39 | without line terminators the restriction on `**` disappears |
| `Glob.DirsFront` | src/architecture/sourcePolicy.ts:46-50 | for every pattern `p`: `**/` and `p` accept exactly the paths `p` accepts and those with a rest `p` accepts behind one of their slashes, nothing before it ending a line |
| `Glob.TextFront` | src/architecture/sourcePolicy.ts:50-53 | `**` and `p`, no slash between them, accept exactly the paths with a rest `p` accepts, nothing before it ending a line |
| `Glob.NameFront` | src/architecture/sourcePolicy.ts:56-60 | `*` and `p`, not another `*`, accept exactly the paths with a rest `p` accepts and no slash before it |
| `Glob.CharFront` | src/architecture/sourcePolicy.ts:61-65 | `?` and `p` accept exactly one character, no slash, and what `p` accepts |
| `Glob.BracesFront` | src/architecture/sourcePolicy.ts:66-78 | `{..}` and `p` accept exactly one of the texts between the commas and what `p` accepts |
| `Glob.LiteralFront` | src/architecture/sourcePolicy.ts:66-81 | any other character, and a brace never closed, accepts itself and what `p` accepts |
| `Glob.NothingMatches` | src/architecture/sourcePolicy.ts:41-86 | the empty pattern accepts the empty path alone |
| `Glob.PlainFront` | src/architecture/sourcePolicy.ts:79-81 | text without `*`, `?` and `{` in front of `p` accepts exactly itself and what `p` accepts |
| `Glob.DirectoryFront` | src/architecture/sourcePolicy.ts:46-50 | a directory, `**/` and `p` accept a file of `p` directly inside the directory, and nothing outside it |
| `Glob.ForwardAlike` | src/architecture/sourcePolicy.ts:35-36 | two texts agree with forward slashes exactly if they differ only between the two kinds of slash |
| `Glob.GlobToRegExp` | src/architecture/sourcePolicy.ts:41-86 | the index loop emits exactly the compiled source, the one the rows above say what it accepts of, for every pattern put together from those pieces |
| `Glob.CompileStep` | src/architecture/sourcePolicy.ts:44-82 | each turn emits the first token of the rest and advances past it |
| `Glob.CompileNext` | src/architecture/sourcePolicy.ts:45-81 | the branches of the loop body emit the piece of the first token; which paths each piece accepts is said by `DirsFront` to `LiteralFront` |
| `Regex.StarSpan` | src/architecture/sourcePolicy.ts:46-60 | a starred single matches any span of accepted characters (section 22.2.2 of ECMA-262) |
| `Regex.CharsMatch` | src/architecture/sourcePolicy.ts:73-75 | a run of literal characters matches exactly itself |
| `ReticulumConfig.RewriteCommutesWithParsing` | src/main/reticulum-decommissioned-hubs.ts:26-98 | parsing the output gives the input's blocks, line for line and field for field, with `enabled` false in exactly the flagged ones |
| `ReticulumConfig.OtherLinesKept` | src/main/reticulum-decommissioned-hubs.ts:77-95 | the line count is kept; exactly the enabled fields between header and last line of a flagged block are replaced, by the same key and indentation with `No`; all other lines are identical |
| `ReticulumConfig.SecondRunIdle` | src/main/reticulum-decommissioned-hubs.ts:26-98 | a second run disables nothing and returns the same text |
| `ReticulumConfig.ChangedIffReported` | src/main/reticulum-decommissioned-hubs.ts:26-98 | the text changes exactly when a name is reported |
| `ReticulumConfig.ScanSpans` | src/main/reticulum-decommissioned-hubs.ts:40-72 | the parsed blocks ascend, and the non-skipped lines a block owns are exactly those from its header to its last line |
| `ReticulumConfig.ScanCommutes` | src/main/reticulum-decommissioned-hubs.ts:40-72 | switching off enabled fields commutes with every prefix of the scan |
| `ReticulumConfig.DisabledReads` | src/main/reticulum-config-ini.ts:8-22 | a rewritten line still reads as a field with the same key and the value `No` |
| `ReticulumConfig.BlocksSayLast` | src/main/reticulum-decommissioned-hubs.ts:40-72 | every parsed block says, field by field, what the last line of the block with that key says, and its name is the last non-blank one or the header's |
| `ReticulumConfig.MaskIsDisable` | src/main/reticulum-decommissioned-hubs.ts:77-83 | since start lines are distinct, a block is switched off exactly when it is itself flagged |
| `ReticulumConfig.HeaderIsNoEnabledField` | src/main/reticulum-decommissioned-hubs.ts:84-93 | a header line never reads as an enabled field, so the rewrite may start at it |
| `ReticulumConfig.HubSwitchedOff` | src/main/reticulum-decommissioned-hubs.ts:26-98 | an interface written out in full, whatever its name: it is reported, under its trimmed name, and its `enabled` line turned to `No`, exactly if it is an enabled TCP client with the hub's host and port 4965; otherwise the text stays as it is |
| `ReticulumConfig.ParsesNumeral` | src/main/reticulum-decommissioned-hubs.ts:67-70 | after white space the decimal numeral of any number, bare or with a sign, before anything that is no digit, reads as that number |
| `ReticulumConfig.ParsesNothing` | src/main/reticulum-decommissioned-hubs.ts:67-70 | without a digit there it reads as no number |
| `ReticulumConfig.ReadsField` | src/main/reticulum-config-ini.ts:8-22 | a key, an equals sign and a value, whatever the spacing and the case of the key, read as that field |
| `ReticulumConfig.QuotesDropped` | src/main/reticulum-config-ini.ts:15-20 | one pair of equal quotes around a value is dropped, and nothing else |
| `ReticulumConfig.ReadsHeader` | src/main/reticulum-decommissioned-hubs.ts:44-47 | `[[name]]`, indented or not, opens the block of that name |
| `ReticulumConfig.ReadsComment` | src/main/reticulum-decommissioned-hubs.ts:42-43 | lines that start with `#` or `;` are skipped |
| `ReticulumConfig.ReadsOn` | src/main/reticulum-config-ini.ts:3-6 | a value is on exactly if it is yes, true or 1 in any case |
| `ReticulumConfig.ReadsHost` | src/shared/reticulumDecommissionedHubs.ts:24-30 | a host counts without regard to case, white space around it, and one pair of brackets |
| `ReticulumConfig.NamesInOrder` | src/main/reticulum-decommissioned-hubs.ts:77-83 | names are reported block by block, in the order of the text |
| `ReticulumConfig.AssignField` | src/main/reticulum-decommissioned-hubs.ts:61-70 | the chain of field assignments equals a choice by key |
| `ReticulumConfig.ParseBlocks` | src/main/reticulum-decommissioned-hubs.ts:31-72 | the scanning loop, with `current` and `flush`, computes the blocks |
| `ReticulumConfig.Disable` | src/main/reticulum-decommissioned-hubs.ts:26-98 | the rewriting loops return the specified text and names, so for an interface written out in full those of `HubSwitchedOff` |
| `ReticulumConfig.DisableSpan` | src/main/reticulum-decommissioned-hubs.ts:84-94 | the inner loop over a block's lines |
| `ReticulumConfig.DisableLine` | src/main/reticulum-decommissioned-hubs.ts:85-93 | the body of the inner loop |
| `Text.SplitParts` | src/main/reticulum-decommissioned-hubs.ts:30 | splitting at newlines and joining gives the text back |
| `Text.SplitJoin` | src/main/reticulum-decommissioned-hubs.ts:97 | joining lines without newlines and splitting gives the lines back |
| `SchemaDedupe.UpgradeOutcome` | src/main/db-schema-sync.ts:560-663 | under the engine's index enforcement the three steps succeed exactly when the MeshCore table exists, and then leave exactly the cleaned tables with every index built and satisfied |
| `SchemaDedupe.UpgradeIdempotent` | src/main/db-schema-sync.ts:560-663 | running the steps again changes nothing |
| `SchemaDedupe.DedupeSurvivors` | src/main/db-schema-sync.ts:648-656 | exactly the rows outside the index predicate and the least-id row of each key group survive, unchanged |
| `SchemaDedupe.DedupeSeparates` | src/main/db-schema-sync.ts:648-662 | afterwards no two rows share a group, hence the unique index can be built |
| `SchemaDedupe.KeysKept` | src/main/db-schema-sync.ts:648-656 | no step loses a key of its own: each group keeps its least-id row |
| `SchemaDedupe.DeletionKeeps` | src/main/db-schema-sync.ts:1059-1061 | deletions of later steps keep earlier uniqueness |
| `SchemaDedupe.HavingIsWhere` | src/main/db-schema-sync.ts:619-627 | the packet step's `HAVING` on a grouped column equals filtering before grouping |
| `SchemaDedupe.PacketsAreDeduped` | src/main/db-schema-sync.ts:619-627 | so the packet statement is the same deduplication |
| `SchemaDedupe.PacketGroup` | src/main/db-schema-sync.ts:619-633 | the packet index groups the packets of one sender with one packet id |
| `SchemaDedupe.ReactionGroup` | src/main/db-schema-sync.ts:648-662 | the reaction index groups the reactions of one sender to one message with one emoji |
| `SchemaDedupe.WithSenderGroup` | src/main/db-schema-sync.ts:575-598 | the first MeshCore index groups messages of one known sender with one time, channel and text |
| `SchemaDedupe.NullSenderGroup` | src/main/db-schema-sync.ts:584-603 | the second groups messages of unknown senders with one time, channel and text |
| `SchemaDedupe.DedupeIdleIff` | src/main/db-schema-sync.ts:648-656 | a step deletes nothing exactly when no two rows share a group |
| `SchemaDedupe.OverDeletesIff` | src/main/db-schema-sync.ts:619-633 | on a table the index already accepts, a step deletes something exactly when two rows share a group whose key holds a NULL |
| `SchemaDedupe.OverDeletionWitness` | src/main/db-schema-sync.ts:619-633 | two packets of an unknown sender with one id: the index accepts both, the step keeps one |
| `SchemaDedupe.MeshcoreSurvives` | src/main/db-schema-sync.ts:575-592 | a MeshCore message survives exactly if it leads its group, with or without a sender |
| `SchemaDedupe.MeshcoreClean` | src/main/db-schema-sync.ts:575-603 | both MeshCore indexes can be built after the two statements |
| `SchemaDedupe.MeshcoreCurrentIff` | src/main/db-schema-sync.ts:562-570 | only the names are looked at: the indexes have the current columns afterwards exactly when one name was missing or both already had them |
| `SchemaDedupe.MessageSurvivesIff` | src/main/db-schema-sync.ts:610-663 | whichever indexes exist, which messages survive both steps |
| `SchemaDedupe.ReactionKeptIff` | src/main/db-schema-sync.ts:610-663 | whichever indexes exist, a reaction key survives exactly when some row with it is left by the packet step: that index exists, or the row leads its packet group or has no packet id |
| `SchemaDedupe.ReactionLostWitness` | src/main/db-schema-sync.ts:610-663 | a text and a reaction under one packet id: whatever other indexes exist, without the packet index the reaction's key is gone |
| `SchemaDedupe.EnforcedReactionLost` | src/main/db-schema-sync.ts:610-663 | in particular when the older reaction index already enforced it |
| `SchemaDedupe.MessageStore.EnsureMessagesPacketDedup` | src/main/db-schema-sync.ts:610-634 | the packet step with its guards |
| `SchemaDedupe.MessageStore.EnsureMessagesReactionDedup` | src/main/db-schema-sync.ts:641-663 | the reaction step with its guards |
| `SchemaDedupe.MessageStore.EnsureMeshcoreMessagesDedupIndex` | src/main/db-schema-sync.ts:560-604 | drop, dedupe and rebuild, skipped when both names exist |
| `SchemaDedupe.MessageStore.DeleteMeshcoreDuplicates` | src/main/db-schema-sync.ts:575-592 | the two delete statements |
| `SchemaDedupe.MessageStore.CreateUniqueIndex` | src/main/db-schema-sync.ts:594-603 | `CREATE UNIQUE INDEX IF NOT EXISTS`, failing on a missing table or a conflict |
| `SchemaDedupe.MessageStore.StructuralUpgrades` | src/main/db-schema-sync.ts:1058-1061 | the order of the steps, ending at the first failure |
| `HashCasing.OneRowPerKey` | src/main/db-schema-sync.ts:948-1040 | a triggered repair leaves one row per lower-case 32-hex key: every hex row sits at its key, every key keeps a row, and non-hex rows are untouched |
| `HashCasing.MergedRow` | src/main/db-schema-sync.ts:1010-1038 | the row of a rewritten group has the OR of `favorited` and `is_contact`, the maximum (truncated) `last_heard`, the first non-blank name and the first icons of its rows |
| `HashCasing.QuietRow` | src/main/db-schema-sync.ts:1011-1012 | a group that is one canonical row already is not touched |
| `HashCasing.SecondRunIdle` | src/main/db-schema-sync.ts:948-1040 | another run changes nothing, in whatever order the rows come |
| `HashCasing.VerificationKeptIff` | src/main/db-schema-sync.ts:985-1007 | verification columns come from the canonical row if it existed and are reset otherwise, whatever the variants said |
| `HashCasing.CanonicalAfterIff` | src/main/db-schema-sync.ts:950-956 | the trigger looks at case only: all hex rows are canonical afterwards exactly when it fired or they already were |
| `HashCasing.CanonicalOf` | src/main/db-schema-sync.ts:974-978 | a hash stands for the lower-case form of its 32 hexadecimal digits, white space around them aside, and for nothing else |
| `HashCasing.TriggeredIff` | src/main/db-schema-sync.ts:950-956 | the repair runs exactly if some hash has a capital letter |
| `HashCasing.GroupInOrder` | src/main/db-schema-sync.ts:974-982 | groups list their rows in the order of the query |
| `HashCasing.TruncTowardsZero` | src/main/db-schema-sync.ts:1027 | times are truncated towards zero |
| `HashCasing.MergeLatest` | src/main/db-schema-sync.ts:1025-1028 | the accumulated time is the latest of the truncated ones |
| `HashCasing.MergeFlags` | src/main/db-schema-sync.ts:1029-1030 | the accumulated flags are the OR of the rows |
| `HashCasing.UpsertedLatest` | src/main/db-schema-sync.ts:991-997 | comparing with the existing row in the upsert keeps the maximum |
| `HashCasing.UpsertedCombines` | src/main/db-schema-sync.ts:985-1008 | the conflict clause computes exactly the row that combines both |
| `HashCasing.MergedHash` | src/main/db-schema-sync.ts:1035-1038 | merging one group settles its hashes and leaves the others alone |
| `HashCasing.DestinationTable.RepairHashCasing` | src/main/db-schema-sync.ts:948-1040 | the whole repair meets its row-by-row specification |
| `HashCasing.DestinationTable.GroupRows` | src/main/db-schema-sync.ts:974-982 | the loop that groups the rows by key, in order of first sight |
| `HashCasing.DestinationTable.MergeGroups` | src/main/db-schema-sync.ts:1010-1039 | the loop over the groups |
| `HashCasing.DestinationTable.MergeGroup` | src/main/db-schema-sync.ts:1011-1038 | one group: skipped, or merged, variants deleted and the row upserted |
| `HashCasing.DestinationTable.MergeRows` | src/main/db-schema-sync.ts:1014-1033 | the accumulating loop |
| `HashCasing.DestinationTable.DeleteVariants` | src/main/db-schema-sync.ts:1035-1037 | the deleting loop |
| `HashCasing.DestinationTable.Upsert` | src/main/db-schema-sync.ts:985-1008 | the row at the key combines the merged values with those in place: OR of the flags, the later time, the first value present, the verification in place; all other rows are untouched |
| `PruneCascade.PrunedCount` | src/main/database.ts:307-321 | when a prune deletes, the number of contacts becomes the maximum of `maxCount` and the favourites |
| `PruneCascade.PrunedOrder` | src/main/database.ts:322-330 | no favourite goes, survivors are unchanged, and no deleted contact orders after a surviving non-favourite |
| `PruneCascade.OldestGoFirst` | src/main/database.ts:322-330 | who goes: no favourite; contacts with a plausible time before all others and the longest unheard first; then the others, an unknown time counting as zero |
| `PruneCascade.IdleIff` | src/main/database.ts:312-321 | nothing is deleted exactly when the table fits or holds favourites only |
| `PruneCascade.RemoveAnchors` | src/main/database.ts:219-228 | after a cascade exactly the messages outside rooms and those of surviving rooms remain, so every room message points at a Room contact |
| `PruneCascade.PrunedAnchoredIff` | src/main/database.ts:307-343 | after a prune all room messages are anchored exactly when it deleted or they were already |
| `PruneCascade.PrunedTwice` | src/main/database.ts:307-343 | a second prune to the same size finds nothing to do |
| `PruneCascade.SweepSubsumesRooms` | src/main/database.ts:254-265 | the per-room deletes make no difference to what the final sweep leaves |
| `PruneCascade.ContactStore.PruneByCount` | src/main/database.ts:307-343 | the prune with its early returns; the result counts the contacts deleted |
| `PruneCascade.ContactStore.DeleteWithCascade` | src/main/database.ts:254-265 | the cascade around a contact delete |
| `PruneCascade.ContactStore.DeleteMessagesForRooms` | src/main/database.ts:205-216 | the loop over rooms with its counter |
| `PruneCascade.ContactStore.DeleteContacts` | src/main/database.ts:336-341 | the loop over ids with its counter |
| `PruneCascade.ContactStore.DeleteOrphans` | src/main/database.ts:219-228 | afterwards every room message points at a Room contact, and exactly the orphans are gone |
| `PruneCascade.ContactStore.DeleteContact` | src/main/database.ts:239-246 | deleting one contact always sweeps, even for an unknown id |
| `DeviceChooser.CalledExactlyOnce` | src/main/linuxWebBluetoothDeviceSelection.ts:31-176 | in every run, whatever the callbacks do themselves, each generation is open, was dropped by `clear`, or its first callback was called exactly once, with '' or an id found in that generation |
| `DeviceChooser.AimedCancel` | src/main/linuxWebBluetoothDeviceSelection.ts:85-154 | a cancel or timer of one generation ends that generation if it is the open one and otherwise leaves everything as it was |
| `DeviceChooser.TimerIsLive` | src/main/linuxWebBluetoothDeviceSelection.ts:85-97 | an armed timer always belongs to the open session |
| `DeviceChooser.AllCalledWithoutClear` | src/main/linuxWebBluetoothDeviceSelection.ts:104-120 | without `clear` every generation but the open one has had its callback called exactly once |
| `DeviceChooser.CallbackCancelStraysIff` | src/main/linuxWebBluetoothDeviceSelection.ts:159-162 | cancelling by callback ends another generation exactly when that one is open and was begun with the same callback |
| `DeviceChooser.NestingIsOrder` | src/main/linuxWebBluetoothDeviceSelection.ts:104-120 | calls made from inside a callback behave as calls made after it, to any depth |
| `DeviceChooser.ReportIsTrue` | src/main/linuxWebBluetoothDeviceSelection.ts:136-154 | `applyCancel` reports cancelled exactly when the callback was reached, and names the generation it ended |
| `DeviceChooser.RunInv` | src/main/linuxWebBluetoothDeviceSelection.ts:31-176 | every run keeps the session invariant |
| `DeviceChooser.PickHandsOver` | src/main/linuxWebBluetoothDeviceSelection.ts:104-111 | in every run a pick of a device found in the open session hands exactly that device to the retained callback, '' hands over '', and any other id changes nothing |
| `DeviceChooser.CancelHandsOver` | src/main/linuxWebBluetoothDeviceSelection.ts:114-162 | every way to cancel hands '' to the callback of the open session and ends it; without a session nothing happens |
| `DeviceChooser.ArmedTimerCancels` | src/main/linuxWebBluetoothDeviceSelection.ts:85-97 | an armed timer that fires cancels the session it was armed for |
| `DeviceChooser.ClearCallsNothing` | src/main/linuxWebBluetoothDeviceSelection.ts:164-168 | `clear` ends the session without a call |
| `DeviceChooser.DiscoveryOpens` | src/main/linuxWebBluetoothDeviceSelection.ts:55-79 | a discovery opens the next generation with its callback or keeps the open one with its own, and adds its ids to those found |
| `DeviceChooser.IdsListed` | src/main/linuxWebBluetoothDeviceSelection.ts:66-68 | the ids found are the ones listed, but for '' |
| `DeviceChooser.LastListingNames` | src/main/linuxWebBluetoothDeviceSelection.ts:66-73 | the last listing of a device names it, `Unknown Device` standing in for a missing name |
| `DeviceChooser.UnlistedKeeps` | src/main/linuxWebBluetoothDeviceSelection.ts:66-73 | a device that is not listed keeps its name |
| `DeviceChooser.DeviceSelection.BeginOrMergeDiscovery` | src/main/linuxWebBluetoothDeviceSelection.ts:55-79 | a discovery opens a session or merges into it, and the first callback stays |
| `DeviceChooser.DeviceSelection.MergeDevices` | src/main/linuxWebBluetoothDeviceSelection.ts:66-73 | the loop over the discovered devices |
| `DeviceChooser.DeviceSelection.ArmStaleTimeout` | src/main/linuxWebBluetoothDeviceSelection.ts:85-97 | arming replaces the timer, or clears it without a session |
| `DeviceChooser.DeviceSelection.StaleTimerFires` | src/main/linuxWebBluetoothDeviceSelection.ts:90-96 | the timer closure with its guard |
| `DeviceChooser.DeviceSelection.ResolveSelection` | src/main/linuxWebBluetoothDeviceSelection.ts:104-111 | the retained callback is called once with the very id that was picked, or nothing happens; which, is said by `PickHandsOver` |
| `DeviceChooser.DeviceSelection.InvokeCallback` | src/main/linuxWebBluetoothDeviceSelection.ts:107-109 | the session is closed before the callback is called |
| `DeviceChooser.DeviceSelection.CancelSelection` | src/main/linuxWebBluetoothDeviceSelection.ts:114-120 | cancel calls the callback with '' |
| `DeviceChooser.DeviceSelection.CancelIfGeneration` | src/main/linuxWebBluetoothDeviceSelection.ts:125-129 | cancel by generation |
| `DeviceChooser.DeviceSelection.ApplyCancelRequest` | src/main/linuxWebBluetoothDeviceSelection.ts:136-154 | generation cancel or forced cancel, and what is reported |
| `DeviceChooser.DeviceSelection.CancelIfCallback` | src/main/linuxWebBluetoothDeviceSelection.ts:159-162 | cancel by callback |
| `DeviceChooser.DeviceSelection.ClearSelection` | src/main/linuxWebBluetoothDeviceSelection.ts:164-168 | clear drops the session without a call |
| `RateLimiter.LimiterIsIdeal` | src/main/ipcRateLimit.ts:24-35 | on a clock that does not run backwards the limiter admits exactly when fewer than max admissions lie in [now - window, now] |
| `RateLimiter.WindowBound` | src/main/ipcRateLimit.ts:24-35 | over any such run every closed window holds at most max admissions |
| `RateLimiter.ExpireCounts` | src/main/ipcRateLimit.ts:25-30 | dropping from the front leaves exactly the admissions of the current window |
| `RateLimiter.KeptLength` | src/main/ipcRateLimit.ts:24-35 | on any clock, what is compared with max is the count of the window, plus kept timestamps outside it, minus dropped admissions inside it |
| `RateLimiter.AttemptWrongIff` | src/main/ipcRateLimit.ts:24-35 | in every run on any clock, exactly when an attempt is refused against the definition, and exactly when one is admitted and fills its window beyond max |
| `RateLimiter.DecisionsAgreeIff` | src/main/ipcRateLimit.ts:24-35 | limiter and definition take the same decisions exactly if no attempt goes wrong in one of these ways |
| `RateLimiter.BackwardsRefusalWitness` | src/main/ipcRateLimit.ts:25-30 | with a clock that steps back a call is wrongly refused |
| `RateLimiter.BackwardsAdmissionWitness` | src/main/ipcRateLimit.ts:25-30 | with a clock that steps back a window holds four admissions where three are allowed |
| `RateLimiter.Limiter.TakeToken` | src/main/fetchLinkPreview.ts:293-305 | the shifting loop, the test and the push |
| `LinkPreviews.OneFetchPerLink` | src/main/fetchLinkPreview.ts:127-139 | in every run two fetches for one link never overlap |
| `LinkPreviews.CacheBound` | src/main/fetchLinkPreview.ts:119-125 | in every run the preview cache holds at most 256 entries |
| `LinkPreviews.AnswersAreRight` | src/main/fetchLinkPreview.ts:662-688 | a cached answer is the outcome of a fetch of that link completed less than 15 minutes ago, a joiner joins an unsettled fetch of that link, and a fetch starts only when none is under way |
| `LinkPreviews.AnswerIff` | src/main/fetchLinkPreview.ts:662-688 | in every run a request is answered from the cache exactly if the entry is not stale, joins exactly if it is and a fetch of the link has not settled, and else starts or is refused as the limiter says |
| `LinkPreviews.ServedUntilStale` | src/main/fetchLinkPreview.ts:662-686 | a completed fetch is served from the cache from then on, until it is 15 minutes old or another fetch completes |
| `LinkPreviews.OthersKept` | src/main/fetchLinkPreview.ts:119-125 | storing a preview evicts the oldest entries only, and only from a full cache, leaving 255 |
| `LinkPreviews.StartedRuns` | src/main/fetchLinkPreview.ts:127-139 | a fetch that starts is joined by whoever asks next |
| `LinkPreviews.FailureForgotten` | src/main/fetchLinkPreview.ts:134-136 | a failed fetch leaves the cache alone, and once settled the link may be fetched again |
| `LinkPreviews.StartsBounded` | src/main/fetchLinkPreview.ts:662-688 | on a clock that does not run backwards at most 20 fetches start in any closed minute, however many requests are made |
| `LinkPreviews.LimiterRuns` | src/main/fetchLinkPreview.ts:673-676 | exactly the requests that pass the cache and the fetches in flight consume tokens |
| `LinkPreviews.StepInv` | src/main/fetchLinkPreview.ts:662-688 | every event keeps the invariant |
| `LinkPreviews.PreviewFetcher.FetchLinkPreview` | src/main/fetchLinkPreview.ts:662-688 | the synchronous part of a request |
| `LinkPreviews.PreviewFetcher.WithInflightDedup` | src/main/fetchLinkPreview.ts:127-139 | join the promise of the link or start one |
| `LinkPreviews.PreviewFetcher.Complete` | src/main/fetchLinkPreview.ts:682-686 | the end of a fetch: room made, outcome cached |
| `LinkPreviews.PreviewFetcher.Reject` | src/main/fetchLinkPreview.ts:134-136 | a fetch that failed caches nothing |
| `LinkPreviews.PreviewFetcher.SettlePromise` | src/main/fetchLinkPreview.ts:134-136 | the `finally` handler deletes by link |
| `LinkPreviews.PreviewFetcher.EvictOldest` | src/main/fetchLinkPreview.ts:119-125 | the eviction loop |

## Left out

- Electron windows, IPC handlers, menus, dialogs, the power monitor's wiring, logging and emitted UI messages: glue without an invariant.
- Sockets, mqtt.js, Noble, SQLite and the JavaScript regular expression engine themselves: they appear as events or as the small semantics stated above.
- Reconnect delays and jitter, and the fast-reconnect delay chosen from `preferFastMqttReconnect` (the flag itself is modelled): only the order of events matters here.
- MqttReconnect.MqttManager.HandleConnect: the two web-socket ping intervals are one flag, and message and publish traffic is not part of the machine.
- The outcome callback of the MeshCore subscribe and the log flags: they only emit messages. How long the pause before it and the token timer last is not modelled.
- MeshcoreReconnect.MeshcoreMqttAdapter.ConnectTo: `lastSettings` is a value, so a caller that later mutates the object it passed in is not captured.
- `maxRetries` is an optional integer: NaN and fractions are not modelled.
- PacketDedup.SeenPackets.IsDuplicate: the order of equal expiry times is left open, as the model keeps a map without insertion order.
- The node cache, the sampled logs and the decoding of envelopes in `mqtt-manager.ts`: independent of what is proved here.
- ChannelKeys.ChannelKeyTable.UpdateChannelKeys: keys come as decoded bytes and manual lines as parsed lines; base64 and the line grammar are not part of this model.
- AES-CTR encryption and protobuf encoding of published packets: only the choice of the key is modelled.
- PeripheralRegistry.Registry.RegisterPeripheral: addresses come normalized; `assertCanConnect` only reads and would add an easy member.
- That Noble itself never scans while Reticulum owns the scan, and that the manager balances its calls: the code does not promise it.
- The read pump started after a write is a separate request.
- ReadPump.PumpSession.ReadSettled: exceptions of listeners that receive the data are not modelled; the platform condition for re-polling is a parameter of each step.
- Coalescing of simultaneous connects to one peripheral, GATT discovery and session tear-down in `noble-ble-manager.ts`: outside the queue discipline.
- Glob.MatchSimpleGlobMeaning: paths with line terminators are excluded, as `.` does not match them; `CompiledMeaning` states what holds for all paths. Characters are Unicode scalars, so `?` takes a supplementary character as one where the source takes one UTF-16 unit.
- Regex: the parser covers the fragment the compiler can emit and refuses the rest of the grammar.
- File access, atomic renaming and error logging around the config rewriter.
- Lower-casing beyond what comparison with ASCII text can observe, and ports beyond the exactness of a double: neither can change which block is flagged.
- Row columns that a schema step neither reads nor groups by are carried along as they are; SQLite's type affinity is not modelled.
- The other structural upgrades, and the idempotence of the whole upgrade, which depends on the clock.
- HashCasing.DestinationTable.RepairHashCasing: hashes are texts, so rows with a NULL hash, which the source skips, do not occur; infinite times, which the source ignores, do not either.
- The remaining cascade deletes (by age, never advertised) share the cascade and differ in their condition only.
- PruneCascade.ContactStore.PruneByCount: transactions and the search-index triggers are not modelled; the ordered query is a parameter that must be one of its possible results.
- DeviceChooser.DeviceSelection.StaleTimerFires: the delay is not modelled, the timer may fire at any time while armed.
- LinkPreviews.PreviewFetcher.FetchLinkPreview: one clock reading serves the cache test and the token; DNS pinning, redirects, parsing and the image cache, whose size the code does not bound, are not modelled.
- RateLimiter.Limiter.TakeToken: `checkOrThrow` throws where the method answers false.
