# FlexConnect: a verified model of the daemon's protocols

FlexConnect is a VPN daemon with an AnyConnect client inside. This project models the parts of it
whose correctness depends on order, on crashes or on interleaving, and proves what they are for.
`dafny verify dfyconfig.toml` checks all of it.

| file | what it models |
|---|---|
| `ProfileStore.dfy` | the intent protocol that keeps the state file and the secret store together: durable states, replay, what start-up accepts |
| `ProfileRecovery.dfy` | what starts of the daemon, interrupted or not, make of the states a crash leaves behind |
| `ProfileSections.dfy` | the critical sections in which commands write the state file, and what may come between them |
| `ProfileService.dfy` | the daemon's profile commands on in-memory fields and two stores that can fail |
| `EventStream.dfy` | the event ring, the watcher queues and watches that resume, against an unbounded log |
| `Supervisor.dfy` | connection attempts, disconnects, shutdown and the automatic reconnect timer |
| `BackendSlots.dfy` | the backend's hand-over between the connection being set up and the one in use |
| `RouteTable.dfy` | prefixes, the kernel routing table and the reconciliation of one group of routes |
| `NetworkJournal.dfy` | the platform manager, the ownership journal around it and the recovery from it |
| `DynamicRoutes.dfy` | DNS answers, lease tables and the worker that keeps host routes equal to the leases |
| `RouteMerge.dfy` | merging server and local route lists; reported against applied routes |
| `Cstp.dfy` | CSTP frames built in place, the receiving loop, pooled buffers |
| `UserFlows.dfy` | the flow table of the user-space dialer |
| `TunnelShutdown.dfy` | close hook, ordered shutdown and drain of the tunnel workers |

## How it is built

**Crashes.** A store object (`ProfileService.Stores`, `RouteTable.Machine`) records every durable
state it passes through in a ghost trail. `Within(n, plan)` says that every state since entry `n`
lies in `plan`, so a contract about `Within` is a contract about every crash point. A call that
reports an error may have taken effect or not. Stores and machines that are `reliable` report none:
for those the contracts also say exactly when an operation succeeds.

**Interleavings.** A protocol is a state, a datatype of atomic steps, `Apply`, and `Run` over any
list of steps; a step is one critical section. The theorems quantify over all lists. Beside each
machine stands a class with the fields of the original object whose methods are the critical
sections; their contracts equate the object's `View()` with the step function, or with the effect
the source promises.

**Fields.** A field no modelled check looks at is left out or kept as one opaque value. Integers
that only count (revisions, generations, attempts) are unbounded; where the width matters it is
written out: the wrap of `since + 1` at 64 bits, the 16-bit length field of a frame.

## Where the code falls short of its promise

Each is proved, with the condition under which the promise does hold or the case in which it
does not.

- A start checks the state file before it replays an open intent, and the replay of a delete does
  not prune the references to the profile. One crash right after the intent of a delete is enough:
  the next start completes the delete, and the file it leaves is refused by the start after it if
  and only if something referred to the profile (`CompletedReplayLoadsIff`,
  `StartAfterInterruptedDelete`). If that replay is interrupted in turn, the intent stays open and
  the secret stored for good. Every crash and every chain of interrupted starts completes a delete
  and leaves a file that loads if and only if machine mode is not bound to the profile and the
  delete had pruned the references or there were none (`DeleteIsCrashAtomicIff`,
  `InterruptedReplayIsStuck`, `DeletingTheCurrentProfileCanStick`). If the daemon does start again,
  the delete is complete (`AcceptedStartCompletesDelete`).
- A delete does not look for an open intent and overwrites it. Its states are all safe if and only
  if machine mode is not bound to the profile and the failed transaction had left no secret of its
  own behind; otherwise that secret stays stored, with no profile and no intent to name it
  (`DeletePointsAreSafeIff`, `DeleteOverOpenCreate`).
- Connecting, changing the control mode, the second half of a create and a delete write in a later
  critical section than the one they check in. The file they write is accepted by the next start
  if and only if the guard still holds when they write; the one thing in between that breaks it is
  the removal of the named profile, or for a removal the binding of machine mode to it
  (`RunIsLoadableIff`, `GuardSurvivesIff`, `DeleteBetweenCheckAndWrite`).
- A second Close of a network manager finds the groups empty although a first one could not delete
  a route, and removes the journal. Going by the reports of the calls, closing again is recoverable
  if and only if the first Close reported success (`ClosingAgainIsCoveredIff`,
  `SecondCloseStrandsARoute`). Tunnel setup does call Close a second time, after a failed Set.
- Routes are looked up as IPv4 routes when they are deleted, while a server may name IPv6 prefixes.
  Deleting such a route reports success and changes nothing, so Close and recovery remove the journal
  while the route stays. The journal lists everything after every Close if and only if all installed
  routes are IPv4 (`CloseListsEverythingIff`, `WideRouteOutlivesItsJournal`).
- Recovery looks for excluded routes on the physical link. A journal of a configuration that excludes
  routes but names no such link is never recovered and never goes; when no call fails, recovery
  succeeds exactly if every listed text is a prefix and the link is there unless nothing is listed
  through it (`RecoverNetworkJournal`, `ExcludesWithoutLinkAreStuck`).
- A cancelled Connect disconnects first and then waits for the set-up to end, whatever it yields. A
  set-up that succeeds after that leaves a live session nobody owns, and it is never disconnected. Once
  all calls have returned, the active connection is the only one with a live session if and only if
  no live session began that late (`QuietBackendHoldsOnlyTheActiveIff`, `LeakIsForGood`,
  `CancelledConnectLeaksItsSession`).
- A server route written with a dotted mask keeps its host bits in the applied lists and loses them
  in the reported ones (`NormalizeTwiceIff`, `PlanReportsAppliedIff`, `DottedServerRouteIsMisreported`).
- A loss that is reported while an attempt is pending and not cancelled is not remembered. After a
  loss the state can become Connected without a new attempt if and only if there was such an attempt
  (`LossIsHonouredIff`).
- The size check after a TUN read admits up to eight bytes more than a frame has room for; a packet
  of that size makes the in-place framing run out of its slice (`Cstp.SendPacket`). Packets up to
  the accepted packet size never do.
- A controller that is started on a session that is already closed runs the close hook itself and
  waits for a worker it has not started. The drain can complete if and only if the session did not
  close before the hook was set (`CompletesIff`, `StartOnClosedSessionHangs`).

The comment on frame types says a liveness response repeats the contents of the request; the code
sends it empty, and the model follows the code (`Cstp.ServeTLS`).

## Model

| member | source | states |
|---|---|---|
| ProfileStore.LookupAfterPut | internal/appd/daemon.go:277-281 | storing a profile makes it the one its id finds and changes no other lookup |
| ProfileStore.LookupAfterRemove | internal/appd/daemon.go:346-348 | removing a profile changes no other lookup |
| ProfileStore.ReplayIsRestartable | internal/appd/daemon.go:301-372 | a replay stopped at any effect and taken up again ends in the state of an uninterrupted one and passes only states that one passes; whether it is taken up again is for the checks of start-up to say |
| ProfileRecovery.AcceptedStartRecovers | internal/appd/daemon.go:157-223 | whenever the daemon starts again, after any number of interrupted starts, it ends in the state of one uninterrupted replay |
| ProfileRecovery.RestartsConvergeIff | internal/appd/daemon.go:157-223 | every chain of interrupted starts is accepted in the end and settles in the recovered state if and only if no point of the replay fails the checks of start-up |
| ProfileStore.CommitIsAtomic | internal/appd/daemon.go:245-299 | from every effect of a commit, replay leads to the old or to the new state, and to the old one exactly until the new password is stored |
| ProfileStore.CommitKeepsConsistency | internal/appd/daemon.go:245-299 | a commit keeps exactly one secret for each profile and leaves no orphan |
| ProfileStore.CommitChangesOneSecret | internal/appd/daemon.go:245-299 | a commit stores the new password for its own profile, or keeps the old one if none was given, and every other profile keeps its secret |
| ProfileRecovery.CommitReplaysLoad | internal/appd/daemon.go:245-343 | every point of every replay of an interrupted create or update passes the checks of start-up |
| ProfileRecovery.CreateOrUpdateIsCrashAtomic | internal/appd/daemon.go:157-372 | after a crash at any effect of create or update and any interrupted starts no start is refused, and a complete one leaves exactly the old or exactly the new profiles with exactly the matching secrets and no intent |
| ProfileRecovery.EarlyDeleteReplaysLoadIff | internal/appd/daemon.go:344-371 | the replay of a delete interrupted right after its intent passes the checks at every point if and only if nothing refers to the profile |
| ProfileRecovery.LateDeleteReplaysLoadIff | internal/appd/daemon.go:834-863 | the replay of a delete interrupted later does if and only if machine mode is not bound to the profile |
| ProfileRecovery.DeleteIsCrashAtomicIff | internal/appd/daemon.go:157-223 | every crash after the intent and every chain of interrupted starts ends with exactly that profile and its secret gone and a file that loads, if and only if machine mode is not bound to it and the references were pruned or there were none |
| ProfileRecovery.AcceptedStartCompletesDelete | internal/appd/daemon.go:157-223 | without that condition, whenever the daemon starts again exactly that profile and its secret are gone |
| ProfileRecovery.InterruptedReplayIsStuck | internal/appd/daemon.go:345-352 | the failing family: the replay's first write leaves a file that every later start refuses, with the intent open and the secret stored |
| ProfileRecovery.CompletedReplayLoadsIff | internal/appd/daemon.go:344-371 | after one crash right after the intent, an uninterrupted start completes the delete, and the next start accepts what it leaves if and only if nothing refers to the profile |
| ProfileRecovery.DeletingTheCurrentProfileCanStick | internal/appd/daemon.go:190-194 | a smallest state of that family |
| ProfileStore.PutKeepsLoadable | internal/appd/daemon.go:165-214 | storing a profile that does not change hands keeps the file acceptable to start-up |
| ProfileStore.RemoveKeepsLoadable | internal/appd/daemon.go:165-214 | removing a profile keeps the file acceptable if and only if nothing refers to it |
| ProfileStore.PruneKeepsLoadable | internal/appd/daemon.go:834-847 | removing a profile together with its references keeps the file acceptable unless machine mode is bound to it |
| ProfileStore.PrunedForgetsOnly | internal/appd/daemon.go:834-847 | a delete keeps the selections of every owner but those of that profile, the order of the others, the mode and the machine profile, and a current profile that is another one; the sole remaining profile becomes current |
| ProfileStore.CommitWritesLoadable | internal/appd/daemon.go:245-299 | every state file a commit writes passes all checks of start-up |
| ProfileStore.DeleteWritesLoadable | internal/appd/daemon.go:827-863 | every state file a delete writes passes all checks of start-up |
| ProfileRecovery.CommitPointsAreSafe | internal/appd/daemon.go:245-299 | every state of a commit is accepted by start-up and recovers to stores that agree, whatever is on disk when it begins |
| ProfileRecovery.DeletePointsAreSafe | internal/appd/daemon.go:827-863 | so is every state of a delete of a profile machine mode is not bound to |
| ProfileRecovery.DeletePointsAreSafeIff | internal/appd/daemon.go:827-863 | with or without an open intent of a failed transaction, every state of a delete is safe if and only if machine mode is not bound to the profile and no secret of that transaction is left over, and the delete ends with stores that agree if and only if none is |
| ProfileRecovery.InPlaceIsConsistentIff | internal/appd/daemon.go:245-299 | that is so exactly when every stored secret belongs to a profile in memory, that is when the stores agree but for the open intent |
| ProfileRecovery.DeleteOverOpenCreate | internal/appd/v2.go:36-42 | the failing half: a create fails after its secret was stored, another profile is deleted, and the secret stays without a profile or an intent |
| ProfileRecovery.StartStaysSafeIff | internal/appd/daemon.go:157-223 | an uninterrupted start from a safe state ends with stores that agree, and in a safe state if and only if the file it leaves passes the checks |
| ProfileRecovery.StartAfterInterruptedDelete | internal/appd/daemon.go:344-371 | which it does not after a delete of a referenced profile that stopped right after its intent |
| ProfileRecovery.SafeStatesRecover | internal/appd/daemon.go:157-223 | from such a state, whenever the daemon starts again its two stores agree |
| ProfileSections.SectionIsLoadableIff | internal/appd/v2.go:260-265 | a section that writes leaves an acceptable file if and only if its guard holds when it runs |
| ProfileSections.EachCheckCounts | internal/appd/daemon.go:165-214 | of an accepted file change the schema, the current profile, a selection, the mode or add a profile: it is accepted if and only if the new value is good |
| ProfileSections.RunIsLoadableIff | internal/appd/v2.go:240-609 | for sections of any commands in any order, with any stale arguments, every file written is acceptable if and only if every guard held when its section ran |
| ProfileSections.GuardSurvivesIff | internal/appd/v2.go:559-591 | a guard that held when a command checked it still holds when it writes, if and only if the named profile was not removed, or for a removal machine mode was not bound to it |
| ProfileSections.LateWriteIsLoadable | internal/appd/v2.go:244-266 | so a late write is accepted after any sections in between that do not break its guard |
| ProfileSections.DeleteBetweenCheckAndWrite | internal/appd/v2.go:559-591 | the run that fails: a machine profile deleted while the connection is taken down for machine mode |
| ProfileService.Service.Persist | internal/appd/daemon.go:225-243 | the whole in-memory state is written in one replace, which on error may have happened |
| ProfileService.Service.Commit | internal/appd/daemon.go:245-299 | every durable state of a create or update, and what a later write of the memory would leave, is a commit point; success means the last one, and on reliable stores it fails exactly for an open intent or a missing reference, which change nothing |
| ProfileService.Service.ReplayUpsert | internal/appd/daemon.go:309-343 | every durable state is a recovery point, and success means the recovered state |
| ProfileService.Service.ReplayDelete | internal/appd/daemon.go:344-371 | the same for a delete intent |
| ProfileService.Service.RecoverIntent | internal/appd/daemon.go:301-372 | replay dispatches on version and kind, passes recovery points only, and ends recovered with no intent; on reliable stores it fails exactly for an intent it does not know |
| ProfileService.Service.Load | internal/appd/daemon.go:157-223 | start-up rejects a state file that fails a check without touching it, and otherwise ends with the recovered state in memory and on disk; the daemon runs safely from there if the recovered file passes the checks too, which after a delete it may not |
| ProfileService.Service.DeleteProfile | internal/appd/daemon.go:791-874 | every durable state of a delete is a delete point; on success exactly the profile, the references to it and its secret are gone, each other selection, the mode and another current profile stay; on reliable stores it fails exactly when the profile is not stored |
| ProfileService.Service.BeginCreate | internal/appd/v2.go:296-347 | the first half appends exactly the requested profile with its owner; a refused actor changes nothing; on reliable stores it succeeds exactly for an allowed and valid request |
| ProfileService.Service.CreateProfileFor | internal/appd/v2.go:296-361 | the second half selects the new profile for a user and makes it current for an administrator; with any other commands in between, the file is acceptable if and only if the profile is still there in its hands |
| ProfileService.Service.SelectCreated | internal/appd/v2.go:348-359 | it sets one selection, or none for a machine profile, and the current profile for an administrator; every other owner keeps its own; and exactly when the file is acceptable |
| ProfileService.Service.CreateProfile | internal/appd/daemon.go:638-680 | success appends one profile under a new id with its password under a new reference, and nothing else changes but an empty current id |
| ProfileService.Service.UpdateProfile | internal/appd/daemon.go:690-748 | an update replaces the settings of the profile stored under the id and nothing else, touches no secret without a new password, stores a given one, and every state on the way is safe; on reliable stores it fails exactly for an unknown id, bad values, an open intent or a failed random source |
| ProfileService.Service.UpdateProfileFor | internal/appd/v2.go:376-388 | an update happens only for an actor who may change that profile when the command begins; with any other commands between test and write, it ends with the new settings stored and no intent, or fails, and every state on the way is safe |
| ProfileService.Service.DeleteProfileFor | internal/appd/v2.go:420-434 | the profile machine mode is bound to when the command begins cannot be deleted; with any other commands between test and delete, the file is acceptable if and only if the mode was not bound to it then, and the stores agree if and only if no secret of a failed transaction was left over |
| ProfileService.Service.RemoveProfileNow | internal/appd/daemon.go:812-873 | success removes exactly that profile, the references to it and its secret, keeps all else, and ends with stores that agree if and only if no secret of an open transaction was left over; every state on the way is safe if besides machine mode is not bound to it |
| ProfileService.Service.ConnectFor | internal/appd/v2.go:240-276 | connecting makes the checked profile current and records the selection of its owner; with any other commands between check and write, the file is acceptable if and only if the profile is still stored in its hands |
| ProfileService.Service.SelectForConnect | internal/appd/v2.go:248-266 | the second section makes the profile current and sets at most the actor's own selection, every other owner keeps its own; and exactly when the file is acceptable |
| ProfileService.Service.SetControlMode | internal/appd/v2.go:549-592 | the mode is bound to a machine profile that was checked first; with any other commands while the connection is taken down, the file is acceptable if and only if the profile is still a stored machine profile; on reliable stores it succeeds exactly for an administrator, a known mode, such a profile and a connection that could be taken down |
| ProfileService.Service.WriteControlMode | internal/appd/v2.go:577-591 | the state the second section writes, and exactly when that is acceptable |
| ProfileService.Service.WhoMayWrite | internal/appd/v2.go:36-70 | the system always may; others only without an open intent and with both stores working, in machine mode only administrators; nobody without an identity |
| ProfileService.Service.WhoMayMutate | internal/appd/v2.go:99-107 | machine profiles are for administrators, a user's own for that user only |
| EventStream.SinceOfEvents | internal/appd/v2.go:652-660 | replaying the ring after a revision yields exactly the log's events after it |
| EventStream.RunKeepsInv | internal/appd/daemon.go:1648-1669 | in every run the ring is exactly the last 1024 events of the unbounded log and each watcher's queues hold exactly what it was promised |
| EventStream.SubscriptionStart | internal/appd/v2.go:643-663 | a subscription starts with a snapshot if and only if the client is new, of another epoch, or more than 1024 events behind (the largest revision number wraps and counts as behind) |
| EventStream.WatchStreamIsGapless | internal/appd/v2.go:637-698 | under every interleaving a watcher receives a snapshot or exactly the log after its revision, then every later event in order, up to where it was dropped |
| EventStream.RegisteredIff | internal/appd/daemon.go:1658-1668 | in every run a watch is still registered if and only if its client did not leave and no event found 32 events in its queue |
| EventStream.ForwarderDelivers | internal/appd/v2.go:673-697 | after enough turns of its forwarder everything on its way to a client has arrived in order, and the channel is closed if and only if the watch is not registered |
| EventStream.UndroppedWatchGetsEverything | internal/appd/v2.go:637-698 | so a client that stays and whose queue no event finds full receives everything it is entitled to |
| EventStream.EventHub.Emit | internal/appd/daemon.go:1648-1669 | an event gets the next number, ends the ring, and is appended to the queue of each registered watch with room; a full one is unregistered with its queue as it was; the others are left alone |
| EventStream.EventHub.Broadcast | internal/appd/daemon.go:1658-1668 | the loop hands the event over so, whatever the order |
| EventStream.EventHub.WatchSince | internal/appd/v2.go:637-672 | the start of a watch is the one the specification gives, and the watch is registered with an empty queue |
| EventStream.EventHub.Forward | internal/appd/v2.go:673-697 | a turn of the forwarder delivers the next notification on its way, if any, and closes the channel once none is left and the watch is not registered |
| Supervisor.ConnectedIsConsistent | internal/appd/daemon.go:1834-1953 | in every run Connected means one profile, recorded and shown alike, and no attempt pending |
| Supervisor.OnlyLatestAttemptPublishes | internal/appd/daemon.go:1872-1953 | only the attempt started last, with its context open, publishes, and it connects its own profile |
| Supervisor.LateResultsNeverConnect | internal/appd/daemon.go:959-1057 | after a disconnect, a shutdown or another attempt, a session an earlier attempt returns changes nothing and an error it returns does not make the state Connected, in any continuation |
| Supervisor.LossIsHonouredIff | internal/appd/daemon.go:1218-1346 | after a loss the state can become Connected without a new attempt if and only if an attempt was pending and not cancelled when the loss was reported |
| Supervisor.LossBeforePublicationIsForgotten | internal/appd/daemon.go:1936-1953 | the failing half as a run |
| Supervisor.AtMostOneCallbackPasses | internal/appd/daemon.go:1503-1520 | in every run at most one scheduled reconnect callback can pass the guard |
| Supervisor.ManualCommandDiscardsCallbacks | internal/appd/daemon.go:1602-1613 | a callback scheduled before a manual connect or disconnect never reaches the backend |
| Supervisor.RetryChainIsBounded | internal/appd/daemon.go:1562-1593 | each retry chain reaches the backend at most three times |
| Supervisor.FailedRetryAdvancesOrEnds | internal/appd/daemon.go:1562-1593 | a retryable failure below the bound arms exactly the next callback of its chain, the only one that can pass, if and only if reconnecting still makes sense, and otherwise changes nothing; any other failure ends in the error state with no timer and no callback that can pass |
| Supervisor.UndisturbedAttemptConnects | internal/appd/daemon.go:1817-1953 | in every reachable state with nothing under way, an attempt that nothing disturbs ends with its profile connected and shown |
| Supervisor.LostConnectionComesBack | internal/appd/daemon.go:1467-1561 | a loss arms one callback, and if nothing disturbs it the same profile is connected again, with no timer and no command left |
| Supervisor.LossIsShown | internal/appd/daemon.go:1218-1346 | a loss clears the record and the status at once and shows whether it is an error, a repair or a disconnect |
| Supervisor.ConnectionService.StartAttempt | internal/appd/daemon.go:1817-1860 | an attempt is recorded if nothing is connected or under way, from another connected profile, and while reconnecting only by the reconnect of the shown profile; a refused one changes nothing |
| Supervisor.ConnectionService.FailAttempt | internal/appd/daemon.go:1867-1896 | an error of a superseded attempt changes nothing; one of the pending attempt ends disconnected if it was cancelled and in the error state otherwise |
| Supervisor.ConnectionService.PublishAttempt | internal/appd/daemon.go:1936-1953 | a session is published only for the pending attempt with an open context |
| Supervisor.ConnectionService.BeginDisconnect | internal/appd/daemon.go:1004-1030 | a disconnect cancels the pending attempt and, when manual, discards the reconnects |
| Supervisor.ConnectionService.BeginClose | internal/appd/daemon.go:959-980 | shutdown does so once |
| Supervisor.ConnectionService.StartReconnect | internal/appd/daemon.go:1467-1501 | a timer is armed under a new generation only while the profile is still wanted and not connected |
| Supervisor.ConnectionService.RunScheduledReconnect | internal/appd/daemon.go:1503-1532 | a callback goes on exactly when its generation, profile and sequence are current and reconnecting still makes sense |
| Supervisor.ConnectionService.FinishScheduledReconnect | internal/appd/daemon.go:1535-1593 | success ends the chain, a retryable failure arms the next step, anything else ends in the error state |
| Supervisor.ReconnectDelay | internal/appd/daemon.go:1622-1637 | 2, 4, 8, 16, 32 and from the sixth attempt on 60 seconds, which is doubling up to one minute |
| BackendSlots.NoDroppedConnection | internal/vpn/anyconnect/backend.go:39-199 | in every run each live session is the active one, or some call still owes it a Disconnect, or it began after its call had been cancelled and had disconnected what there was; and no two connections are in the slots together |
| BackendSlots.QuietBackendHoldsOnlyTheActiveIff | internal/vpn/anyconnect/backend.go:39-199 | once all calls have returned, the active connection is the only one with a live session if and only if no live session began after its call had been cancelled |
| BackendSlots.LeakIsForGood | internal/vpn/anyconnect/backend.go:65-81 | a session that did begin that late is used and disconnected by nobody in any continuation, unless it ends by itself |
| BackendSlots.CancelledConnectLeaksItsSession | internal/anyconnect/rpc/connect.go:38-65 | the run of a user who disconnects before the dial: both Disconnect calls find nothing, and the set-up then succeeds |
| BackendSlots.UndisturbedConnectSucceeds | internal/vpn/anyconnect/backend.go:39-119 | in every reachable state with a free connecting slot, a Connect that nothing disturbs ends with its connection active and its session live, and the session it replaced closed |
| BackendSlots.InUseUntilTaken | internal/vpn/anyconnect/backend.go:39-199 | a connection in use stays active with its session live until a new Connect, a Disconnect or the end of the session: no late step of another call touches it |
| BackendSlots.TakenConnectionIsNeverPublished | internal/vpn/anyconnect/backend.go:178-199 | a connection a disconnect took while it was being set up never becomes active |
| BackendSlots.Backend.Begin | internal/vpn/anyconnect/backend.go:39-51 | the connecting slot is claimed only when empty, and the active connection is taken out of use and is the first thing the call disconnects |
| BackendSlots.Backend.Publish | internal/vpn/anyconnect/backend.go:110-119 | a connection that still owns the connecting slot becomes the active one and leaves that slot; one that does not changes no slot and is to be disconnected |
| BackendSlots.Backend.ClearConnecting | internal/vpn/anyconnect/backend.go:138-144 | only the owner empties the slot |
| BackendSlots.Backend.Take | internal/vpn/anyconnect/backend.go:178-199 | a disconnect takes both connections at once |
| Prefixes.MaskedTwice | internal/osnet/types.go:173-191 | masking a prefix twice is masking it once and keeps it valid |
| Prefixes.MaskedIsNetworkIff | internal/osnet/types.go:173-191 | masking keeps width and length and yields the one multiple of the network's size at or below the address |
| Prefixes.MaskAlikeIff | internal/osnet/types.go:173-191 | two prefixes of one length mask alike if and only if they contain the same addresses, bit by bit |
| Prefixes.MaskedContainsTheSame | internal/osnet/types.go:173-191 | a masked prefix contains the same addresses as before |
| RouteTable.DiffPrefixes | internal/osnet/types.go:173-191 | additions and deletions are duplicate-free and are the two set differences between what is owned and the networks of the listed prefixes |
| RouteTable.SyncRoutes | internal/osnet/manager_linux.go:166-196 | success means exactly the networks of the listed prefixes, and on a reliable machine it fails exactly if one of them that is new is in the table already; at every exit the owned set is exactly what the group has in the table and foreign routes are untouched, if and only if no prefix failed to convert after something was added and no prefix that is not IPv4 was dropped |
| NetworkJournal.WithoutIsSubtraction | internal/osnet/types.go:193-211 | leaving out the server route subtracts it from the excluded prefixes |
| NetworkJournal.WithoutPrefixes | internal/osnet/types.go:193-211 | the loop with its lookup set computes that |
| NetworkJournal.UnionPrefixes | internal/osnet/journal.go:107-120 | the union has the elements of both lists, each once |
| NetworkJournal.JournalListsConfig | internal/osnet/journal.go:137-150 | a journal built from a configuration lists exactly the routes the configuration may install |
| NetworkJournal.InstalledMeans | internal/osnet/manager_linux.go:96-112 | an installed configuration owns the network of the server, those of the included prefixes, and with a physical link those of the excluded ones but the server's |
| NetworkJournal.PlatformManager.SyncGroup | internal/osnet/manager_linux.go:105-126 | reconciling one group leaves the others alone and the manager knowing every IPv4 route it has |
| NetworkJournal.PlatformManager.Set | internal/osnet/manager_linux.go:63-118 | success means exactly the configured routes; at every point nothing else is installed; on a reliable machine it fails exactly for a server without a physical link or a route that is in the table already |
| NetworkJournal.PlatformManager.SetDynamicRoutes | internal/osnet/manager_linux.go:120-127 | success means exactly the given host routes, the excluded ones only with a physical link; other groups keep theirs; on a reliable machine it fails exactly if a new one is in the table already |
| NetworkJournal.PlatformManager.Close | internal/osnet/manager_linux.go:129-164 | success means exactly the owned IPv4 routes are gone; failure forgets them all the same |
| NetworkJournal.CloseIsCoveredIff | internal/osnet/journal.go:128-135 | a Close can be recovered at every point if and only if the manager still knows all installed IPv4 routes |
| NetworkJournal.CloseListsEverythingIff | internal/osnet/manager_linux.go:242-262 | the journal lists everything that is installed after every Close if and only if all of it is IPv4 |
| NetworkJournal.WideRouteOutlivesItsJournal | internal/osnet/manager_linux.go:251-254 | the smallest case in which it does not: one IPv6 prefix, closed without a failure |
| NetworkJournal.NarrowMomentsListEverything | internal/osnet/journal.go:137-150 | in every recoverable moment in which we have IPv4 routes only, the journal lists everything that is installed |
| NetworkJournal.ClosingAgainIsCoveredIff | internal/osnet/journal.go:60-66 | going by reports: every history of closes with the same reports stays recoverable if and only if there was at most one or the first reported success |
| NetworkJournal.SecondCloseStrandsARoute | internal/osnet/journal.go:128-135 | the history that fails: an IPv4 route stuck in a first Close, or in the clean-up of a failed Set, and a second Close that reports success |
| NetworkJournal.JournaledManager.CloseLocked | internal/osnet/journal.go:128-135 | the outcome of a Close is the one its calls determine |
| NetworkJournal.JournaledManager.Set | internal/osnet/journal.go:49-77 | at every point, failed writes included, the journal on disk lists every IPv4 route installed, and everything for a configuration of IPv4 prefixes; success means exactly the configuration, and on a reliable machine comes exactly when the platform manager would accept it |
| NetworkJournal.JournaledManager.SetDynamicRoutes | internal/osnet/journal.go:79-105 | the same at every point of a change of the host routes; success means exactly the given ones |
| NetworkJournal.JournaledManager.PlanDynamic | internal/osnet/journal.go:82-87 | the planned journal lists the old and the new host routes |
| NetworkJournal.JournaledManager.Close | internal/osnet/journal.go:122-135 | in any state the outcome is the one its calls determine; while the manager knows what is installed every point is recoverable, and success leaves no journal and only what is not IPv4 |
| NetworkJournal.JournaledManager.ServeTunnel | internal/osnet/journal.go:49-135 | a whole tunnel: after Set, any number of changes of the dynamic routes whether they succeed or not, and a Close that reports success, no journal and no IPv4 route is left, and every point on the way is recoverable; on a reliable machine it is installed exactly when no route of it is in the table already, and then closes |
| NetworkJournal.RecoverNetworkJournal | internal/osnet/journal.go:154-166 | from any such point recovery can be interrupted and repeated, touches listed routes only, and success leaves no journal and of our routes exactly those that are not IPv4; when no call fails it succeeds if and only if every entry is a prefix and the physical link is there unless nothing is listed through it, and without that it never does |
| NetworkJournal.ExcludesWithoutLinkAreStuck | internal/osnet/manager_linux.go:242-245 | a journal that never can be recovered: excluded routes of a configuration without a physical link |
| NetworkJournal.DeleteListed | internal/osnet/journal_recover_linux.go:27-51 | success means none of the listed IPv4 routes is left; a missing physical link is a failure, a missing tunnel device is not; when no call fails that and a text that is no prefix are the only failures |
| DnsAnswers.InArrayGeneric | internal/anyconnect/utils/utils.go:28-37 | a name matches when some listed domain equals it or is a parent of it |
| DnsAnswers.UnderIff | internal/anyconnect/utils/utils.go:28-37 | a name lies under a domain when it is the domain or some host, a dot and the domain |
| DnsAnswers.CollectNames | internal/anyconnect/tunnel/tun.go:350-363 | one pass over the answers collects the allowed names |
| DnsAnswers.AllowedIsChained | internal/anyconnect/tunnel/tun.go:350-363 | a name is allowed if and only if an in-order chain of aliases leads to it from the query |
| DnsAnswers.CollectAddresses | internal/anyconnect/tunnel/tun.go:364-382 | the loop collects the accepted addresses and the shortest lifetime |
| DnsAnswers.CollectedAreAccepted | internal/anyconnect/tunnel/tun.go:365-377 | an address is collected if and only if an accepted answer carries it |
| DnsAnswers.LifetimeIsShortest | internal/anyconnect/tunnel/tun.go:378-391 | the lifetime is the shortest accepted one, kept between thirty seconds and an hour |
| DnsAnswers.ResolvedExactly | internal/anyconnect/tunnel/tun.go:325-385 | a response gives the query an address if and only if an in-order alias chain leads to an address answer with it |
| DnsAnswers.ResolvesIff | internal/anyconnect/tunnel/tun.go:325-388 | a packet is used if and only if it is a response to one internet address question with an accepted name and some answer gives that name an address |
| DnsAnswers.ResolvedLifetime | internal/anyconnect/tunnel/tun.go:364-391 | the lifetime is that of the shortest lived answer used, thirty seconds at least and an hour at most |
| DynamicRoutes.StoreHoldsProspective | internal/anyconnect/tunnel/tun.go:425-442 | the addresses counted before a lease is stored are exactly those held afterwards, because a name lives in one table only |
| DynamicRoutes.CountMissesTheOtherTable | internal/anyconnect/tunnel/tun.go:425-442 | with a name in both tables the count would be too low |
| DynamicRoutes.RunKeepsInv | internal/anyconnect/tunnel/tun.go:304-404 | in every reachable state both tables hold at most 4096 addresses together, each name is in the table its domains select, and each lease lasts thirty seconds to an hour from its grant |
| DynamicRoutes.SharedAddressStays | internal/anyconnect/tunnel/tun.go:474-487 | after an expiry pass an address is held if and only if a lease that expires later holds it |
| DynamicRoutes.HeardGrantsOnly | internal/anyconnect/tunnel/tun.go:338-404 | a packet that resolves within the limit sets exactly one lease, in the table the domain lists select, with the resolved addresses and their lifetime from now; any other packet changes nothing |
| DynamicRoutes.TickedKeepsExactly | internal/anyconnect/tunnel/tun.go:474-487 | a pass keeps exactly the leases that expire later, as they were |
| DynamicRoutes.ExpiryLowerBound | internal/anyconnect/tunnel/tun.go:474-487 | whatever the times of the events before, every lease left by a pass expires later than that pass |
| DynamicRoutes.ExpiryUpperBound | internal/anyconnect/tunnel/tun.go:392-404 | in every reachable state no lease expires more than an hour after the latest packet, in whatever order the times come |
| DynamicRoutes.CollectDynamicRoutes | internal/anyconnect/tunnel/tun.go:572-583 | the collected addresses are exactly those held by some lease |
| DynamicRoutes.ProspectiveDynamicRouteCount | internal/anyconnect/tunnel/tun.go:425-442 | the count is the number of different addresses there would be |
| DynamicRoutes.ExpireTable | internal/anyconnect/tunnel/tun.go:474-487 | exactly the leases that expire later stay, and a change is reported exactly when one went |
| DynamicRoutes.RouteWorker.Heard | internal/anyconnect/tunnel/tun.go:313-316 | the tables change as the specification says, the journal keeps covering the table, and while the reported health is good the dynamic host routes are exactly the held addresses |
| DynamicRoutes.RouteWorker.Ticked | internal/anyconnect/tunnel/tun.go:317-320 | the same for an expiry pass |
| DynamicRoutes.RouteWorker.GrantLease | internal/anyconnect/tunnel/tun.go:392-404 | one lease is set, and nothing else changes, exactly when the limit allows it; a refusal is reported |
| DynamicRoutes.RouteWorker.Reconcile | internal/anyconnect/tunnel/tun.go:444-455 | good health is reported only when the host routes equal the leases, and on a reliable machine exactly if no new one is in the table already |
| DynamicRoutes.RouteWorker.InstalledAreHeld | internal/anyconnect/tunnel/tun.go:444-455 | while health is good a host route of ours is in the table if and only if a lease holds its address or the configuration has it |
| RouteMerge.NormalizeTwiceIff | internal/router/planner.go:100-109 | normalising a destination twice is normalising it once, unless it has a dotted mask and host bits |
| RouteMerge.NormalizeKeepsAddresses | internal/router/planner.go:100-109 | what parses becomes a prefix for the same addresses: the network of a prefix, a dotted mask as it is, a bare address as its host prefix; what does not parse stays |
| RouteMerge.MergeIsMerge | internal/router/planner.go:67-98 | the indexed loop yields one entry for each destination, in first-occurrence order, each being the last one written |
| RouteMerge.MergeIsUnique | internal/router/planner.go:67-98 | that description leaves no choice |
| RouteMerge.AppendRoutes | internal/router/planner.go:70-91 | appending with the index map extends the merge |
| RouteMerge.MergeRoutes | internal/router/planner.go:67-98 | the four lists are merged in order of precedence |
| RouteMerge.Precedence | internal/router/planner.go:82-96 | the merge holds exactly the winner of each destination: local before server, exclude before include, with its metric and source |
| RouteMerge.MergeRouteLists | internal/router/planner.go:46-58 | the merge is split by action |
| RouteMerge.ListsPartition | internal/router/planner.go:46-58 | the two lists have no duplicates, nothing in common, and hold exactly the destinations whose winner has their action |
| RouteMerge.Plan | internal/router/planner.go:24-41 | the report holds exactly the winners, all enabled |
| RouteMerge.Session.ApplyProfileOverrides | internal/anyconnect/tunnel/tunnel.go:241-270 | the session's lists are the merged ones; a profile that refuses the server's routes refuses its dynamic domains; only an accepted server can turn an empty list into a default route |
| RouteMerge.ReportedEqualsAppliedIff | internal/router/planner.go:24-58 | merging the applied lists again returns them, order included, if and only if the server's lists have no host bits behind a dotted mask |
| RouteMerge.PlanReportsAppliedIff | internal/anyconnect/tunnel/tunnel.go:247-257 | for every profile that passed validation the report equals the applied lists if and only if the profile refuses the server's routes or they have no host bits behind a dotted mask |
| RouteMerge.DottedServerRouteIsMisreported | internal/router/planner.go:100-109 | a route for which it does not |
| RouteMerge.ValidateRoutes | internal/profileio/profileio.go:114-126 | accepts exactly short lists of IPv4 prefixes, which have no host bits behind a dotted mask |
| Cstp.RoundTripIff | internal/anyconnect/tunnel/tls.go:108-132 | a frame is read back, consuming exactly its bytes, if and only if its payload fits the length field |
| Cstp.WireLayout | internal/anyconnect/tunnel/tls.go:163-178 | a frame is "STF", 1, the length high byte first, the kind, a zero and the payload |
| Cstp.DecodedIsWire | internal/anyconnect/tunnel/tls.go:108-132 | whatever decodes is the wire form of what it decodes to |
| Cstp.DecodeAllIsWire | internal/anyconnect/tunnel/tls.go:108-132 | the frames read from any stream, written again, are the stream up to the bytes left |
| Cstp.StreamRoundTrip | internal/anyconnect/tunnel/tls.go:108-132 | any number of frames are read back as they were sent, whatever incomplete frame follows |
| Cstp.WireIsInjective | internal/anyconnect/tunnel/tls.go:163-178 | no two lists of frames look the same on the wire |
| Cstp.EffectiveMTU | internal/anyconnect/tunnel/tunnel.go:274-291 | the smaller of the two packet sizes, 1399 standing for a missing one of the profile, accepted exactly when both are in range |
| Cstp.Payload.ShiftUp | internal/anyconnect/tunnel/tls.go:167-169 | the overlapping move keeps the data |
| Cstp.Payload.FrameData | internal/anyconnect/tunnel/tls.go:163-173 | the in-place shift and header turn the payload into its frame within the same capacity |
| Cstp.Payload.FrameControl | internal/anyconnect/tunnel/tls.go:174-178 | a control frame is a header of its kind without a payload |
| Cstp.ReadCSTPFrame | internal/anyconnect/tunnel/tls.go:108-132 | reading into a payload follows the decoder, errors included, and replaces the buffer only when it is too small |
| Cstp.ServeTLS | internal/anyconnect/tunnel/tls.go:37-103 | the loop delivers the data frames in order, answers each liveness request once, and stops at the first frame or error that ends the session, for that reason |
| Cstp.ExplanationIsUnique | internal/anyconnect/tunnel/tls.go:64-101 | that determines what the session does with a stream |
| Cstp.EachFrameOnce | internal/anyconnect/tunnel/tls.go:64-101 | every data frame is delivered once and in its place, every liveness request answered once and empty |
| Cstp.WhatEndsASession | internal/anyconnect/tunnel/tls.go:64-101 | a session gets through data, liveness and keep-alive frames and stops at a disconnect, a termination, any other kind or an incomplete frame, for that reason |
| Cstp.PayloadPools.GetPayloadBuffer | internal/anyconnect/tunnel/buffer.go:34-43 | a buffer has exactly the capacity of its packet size plus 256 and starts as a data payload |
| Cstp.PayloadPools.PutPayloadBuffer | internal/anyconnect/tunnel/buffer.go:45-53 | a buffer goes to the pool of its own capacity or is dropped; every pool keeps only its capacity |
| Cstp.SendPacket | internal/anyconnect/tunnel/tun.go:151-193 | every packet up to the accepted size reaches the wire as its frame; exactly the sizes in the last eight bytes the check admits do not fit |
| UserFlows.AnswersIsSymmetric | internal/anyconnect/tunnel/usernet.go:263-322 | a packet answers another if and only if the other answers it |
| UserFlows.AnswersIffExchanges | internal/anyconnect/tunnel/usernet.go:303-322 | a packet answers another if and only if both are version 4 TCP or UDP with their ports present, of one protocol, and the addresses and ports of one are those of the other exchanged, byte for byte |
| UserFlows.LiveIffOpened | internal/anyconnect/tunnel/usernet.go:263-301 | whatever was pruned and overwritten, a key is live if and only if a packet it answers was recorded at most five minutes ago |
| UserFlows.UserFlowRouter.PruneLocked | internal/anyconnect/tunnel/usernet.go:294-301 | exactly the expired flows go |
| UserFlows.UserFlowRouter.RecordOutbound | internal/anyconnect/tunnel/usernet.go:263-280 | a version 4 TCP or UDP packet with its ports present, and no other, is added to the history the table stands for |
| UserFlows.UserFlowRouter.MatchesInbound | internal/anyconnect/tunnel/usernet.go:282-292 | a packet matches if and only if its bytes exchange addresses and ports with a packet sent at most five minutes ago |
| TunnelShutdown.RunKeepsInv | internal/anyconnect/tunnel/controller.go:53-154 | the invariant behind the results below, for every interleaving |
| TunnelShutdown.HookRunsOnce | internal/anyconnect/session/session.go:406-471 | the hook runs at most once, and exactly once when setting it and closing are both over |
| TunnelShutdown.ClosedInOrder | internal/anyconnect/tunnel/controller.go:111-149 | the manager is closed once, after the route worker left; the device once, and later; the session counts as drained only after both and after all four workers left |
| TunnelShutdown.TooEarlyIsForever | internal/anyconnect/tunnel/controller.go:65-73 | a session closed before the hook is set never has its manager or device closed |
| TunnelShutdown.CompletesIff | internal/anyconnect/tunnel/controller.go:53-149 | in every reachable state the drain can complete if and only if that did not happen |
| TunnelShutdown.StartOnClosedSessionHangs | internal/anyconnect/session/session.go:455-466 | the shortest run in which it did |
| TunnelShutdown.Tunnel.SetCloseHook | internal/anyconnect/session/session.go:455-471 | the hook is installed, or run at once exactly when the session is closed |
| TunnelShutdown.Tunnel.TakeHook | internal/anyconnect/session/session.go:423-428 | the closing thread finds the hook exactly when it was installed |
| TunnelShutdown.Tunnel.CloseBoth | internal/anyconnect/tunnel/controller.go:127-145 | manager and device are each closed for the first and only time |
| TunnelShutdown.Tunnel.CloseDone | internal/anyconnect/tunnel/controller.go:137-144 | the channel closes exactly when the wait group is down to zero, and then everything is closed |

## Left out

- ProfileRecovery.CreateOrUpdateIsCrashAtomic: starts from consistent stores that load, without an open intent and with a reference nobody uses, which is how the callers enter a commit.
- ProfileService.Service.OtherReference: a delete over an open intent that leaves a secret behind is not among the commands in between; after it the stores disagree (`ProfileRecovery.DeletePointsAreSafeIff`).
- ProfileService.Service.CreateProfile: that a new secret reference is not in the store is the promise of the random source.
- ProfileService.Service.OtherCommands: runs whole commands in between; interleavings of several commands that are all broken into are covered by `ProfileSections.RunIsLoadableIff`.
- ProfileService.Service.Load: only the checks on scope, owner, packet size, selections and control mode; the remaining field checks and the normalisation of profiles are one opaque value.
- ProfileService.Service.UpdateProfileFor: the fields of a profile that no check here reads, and the reconnect an update of the active profile triggers; that the profile is still in the same hands when the second section writes.
- ProfileService.Service.WhoMayWrite: a daemon that is closing, a failed clean-up, the health of the supervisor, and another user who owns the daemon, which refuse a command too.
- ProfileService.Service.ConnectFor: the arbitration of who owns the daemon, and dialling itself.
- ProfileService.Service.SetControlMode: whether the running connection could be taken down is a parameter.
- EventStream.EventHub.Forward: a forwarder that blocks for ever on a client that does not read, and the redaction of an event for its reader.
- Supervisor.LateResultsNeverConnect: the network-repair generation and the filter on connection ids of backend events; a backend event is any loss at any time.
- Supervisor.ManualCommandDiscardsCallbacks: callbacks that the event loop schedules after the manual command from an event it had read before; they are not discarded.
- Supervisor.ConnectionService.StartAttempt: that new attempt ids differ from all earlier ones is the promise of the random source.
- BackendSlots.NoDroppedConnection: the underlay monitor and the health channel, except that the monitor may fail; and what a Disconnect before the session does to the authentication in progress: a set-up may yield a session or none at any time after it.
- RouteTable.SyncRoutes: the metrics and gateways of routes; a group has one link, gateway and priority.
- NetworkJournal.PlatformManager.Set: address, link and resolver calls are steps that may fail without a trace in the routing table; a link index counts as a physical link with its gateway.
- NetworkJournal.JournaledManager.Set: one Set for each manager on a clean table; a second Set rebuilds the journal from nothing.
- NetworkJournal.RecoverNetworkJournal: that the kernel drops the routes of a tunnel device that is gone is taken from the kernel.
- DnsAnswers.ResolvedExactly: packet parsing and the normalisation of names; names and records arrive parsed, and a refused name is one that is missing.
- DynamicRoutes.RouteWorker.Reconcile: a session without a network manager, and a retry of a failed reconciliation, which the code does not have either.
- RouteMerge.ReportedEqualsAppliedIff: is about local lists without host bits behind a dotted mask, which profile validation guarantees (`RouteMerge.ValidateRoutes`).
- RouteMerge.NormalizeTwiceIff: the spelling of an address; a destination is given by how it parses, and texts that do not parse are equal when their trimmed text is.
- Cstp.ServeTLS: a session that is closed from the other side while a payload is handed on; each payload has a buffer of its own instead of a pooled one.
- Cstp.PayloadPools.PutPayloadBuffer: putting the same buffer back twice, which its callers must not do.
- TunnelShutdown.ClosedInOrder: errors of the two closes, and when they become visible to readers of the session.
- TunnelShutdown.CompletesIff: says a completing schedule exists in every state, not that the scheduler takes it.
- Windows and Darwin network managers and the one-byte framing of DTLS: the same shape as the modelled ones.
- `Service.UpdateRoutes`, which stores route lists without validation, and `SwitchProfile`: not part of the local API.
- The operation registry, traffic counters, diagnostics, logs and health reports.
- TLS and DTLS sockets, authentication, D-Bus, netlink and file encoding: effects that may fail.
- The command line, the tray, the updater and the network check: no protocol of their own.
