# A verified model of the Phoenix channels client

A Phoenix channels client keeps one web socket to a server and multiplexes any number of channels over it.
This project models the client's four hardest parts and proves what they promise, for every input and every
run.

**The socket and channel listeners.** One task owns the web socket; one task per channel joins, leaves and rejoins
through it. They talk through a command queue, one-shot answers and a connectivity broadcast that holds one
message. `SocketProtocol.dfy` and `ChannelProtocol.dfy` say what one iteration of each loop does, as a function
from a state and the input its select took to the next state and the visible effects in order. `SocketListener.dfy`
and `ChannelListener.dfy` are the code's own form: objects that replace their state, insert into, remove from and
drain nested hash maps, and answer parked callers one by one. The socket's methods are proved to do what the
protocol functions say of the flat maps; the channel's handlers say what becomes of the parked callers, the
attempt, the belief and the intent, and that is proved to pin the protocol's step down. `Listen` produces exactly
the runs that the theorems are about. `SocketSteps.dfy` tells from a state and an input alone which frame a step
sends, whom it relays to and answers, and what it remembers. The theorems over all runs are in `SocketLedger.dfy`
(conservation of joins and calls), `SocketAnswers.dfy` (who is answered by what), `SocketTimers.dfy` (deadlines),
`SocketBroadcast.dfy`, `ReconnectRuns.dfy` and `ChannelRuns.dfy` (waiters, intent, backoff). `World.dfy` puts the
socket and its channels together; `Routing.dfy`, `LagRuns.dfy`, `LeaveRuns.dfy`, `RejoinRuns.dfy` and
`ChannelFailures.dfy` prove what holds in all of their runs, and `Agreement.dfy` and `BroadcastRuns.dfy` what holds
in those in which no channel lags behind the broadcast. `MidJoinDisconnect.dfy`, `LagExamples.dfy`,
`StaleTimer.dfy` and `ExpiredJoin.dfy` show that their hardest cases come up, by runs that start as in
`Scenarios.dfy`.

**Presence tracking.** `Presences.dfy` gives the closed form of a snapshot and a diff, `PresenceListener.dfy` the
loops over unordered maps that compute it while sending events, `PresenceTheorems.dfy` what follows: replay,
convergence of replicas, and when a snapshot is reached.

**The message codec.** `BinaryCodec.dfy` has both binary layouts and `JsonCodec.dfy` the five-field JSON form,
each with the missing server side written as a specification. `Messages.dfy` has events and statuses, `Utf8.dfy`
the well-formed text of binary fields.

**Backoff.** `Backoff.dfy` has the arithmetic that `Rejoin` and `Reconnect` share.

## Findings

These are facts about the code that a reader might not expect; each is a theorem below.

- A timer left over from an earlier join can time out a later join of the same channel before that join's own
  deadline: a rejected join that the channel repeats on its own is enough (`StaleTimer.RejoinTimesOutEarly`). It
  happens to no join that was sent when no earlier timer was left (`SocketTimers.TimedOutEarlyExactly`).
- A channel can lose the announcement it waits for. It then takes nothing until it is asked to shut down, even
  though the socket is connected (`LagRuns.StuckUntilShutdown`, `LagExamples.StuckWhileConnected`). That happens by an
  announcement that reaches a waiting channel which has not read the one before, and by nothing else
  (`LagRuns.BecomesStuck`); a channel that waits for a connected socket can go on exactly if this did not happen and it
  is not misled in the next sense (`LagRuns.WaiterIsReadyExactly`).
- A channel that hears `Connected` while joined goes back to waiting for a socket that is connected. Of the channels
  with nothing unread, exactly those are wrong about connectivity (`LagRuns.WrongExactlyWhenMisled`). It takes lag to
  hear that, be the channel joined, joining or only waiting to join when the announcement passed it by
  (`LagExamples.MisledWhenOvertaken`, `LagExamples.MisledAfterJoining`); without lag the arms that expect `Connected`
  anywhere but while waiting for the socket are never taken (`Agreement.UpIsHeardOnlyWhileWaiting`).
- Such a misled channel, and no other, can hear of a requested disconnect while it waits for the socket, and then keeps
  its intent to rejoin (`LagRuns.WaiterHearsDownExactlyWhenMisled`, `LagExamples.MisledKeepsIntent`;
  src/rust/channel/listener.rs:668-669).
- When the write of a channel's own join fails, the channel task ends with an error while the socket goes on to
  reconnect, and nothing else ends it so (`ChannelFailures.FailsExactlyByFailedSend`,
  `ChannelFailures.ReconnectsWithoutChannel`).
- A disconnect that is answered while the socket waits to reconnect does not stop it from reconnecting
  (`ReconnectRuns.DisconnectHoldsUnlessReconnecting`).
- A join command that has already expired when it is taken while leaving drops the leave callers without an answer
  (`ChannelRuns.LeavingAWaitingStateAnswersAll`), and its own caller too (`ChannelRuns.StepConserves`);
  `ExpiredJoin.ExpiredJoinWhileLeaving` is a run in which it does.
- The left arm of a joined channel is never ready, in any run (`Routing.JoinedNeverHearsLeft`).
- A snapshot that names a key without metas is not reached where that key was held with some
  (`PresenceTheorems.SnapshotIsReached`). Keys that a snapshot drops send no `Leave`
  (`PresenceTheorems.PartitionRefinesPlainDiff`).
- A `Leave` carries what survives as `current`. The comment at src/ffi/presences.rs:240 says it is the presence
  before the leave; the model follows src/rust/presences/listener.rs:233-243.
- Decoding never undoes binary encoding (`BinaryCodec.ClientFramesMisread`), and no reply survives a JSON round
  trip (`JsonCodec.RoundTrip`).

## Model

| member | source | states |
|---|---|---|
| `Backoff.OneMoreWait` | src/rust/socket/listener.rs:1162-1187 | The table and the saturating counter add up, wait by wait, to 0, T, 3T, 8T and then 10T more each; saturation never shows |
| `SocketLedger.StepConserves` | src/rust/socket/listener.rs:473-622 | In any step, what was pending or is taken is afterwards pending or ended, for every sender, joins and calls alike |
| `SocketLedger.Ledger` | src/rust/socket/listener.rs:91-146 | Over every run each join and call taken is in exactly one place: pending once, or ended (answered or dropped) once |
| `SocketLedger.PendingCallWasSent` | src/rust/socket/listener.rs:577-622 | A pending call was sent: an earlier step handed the web socket a push with exactly its topic, join reference, event and payload, which asks for a reply under its reference |
| `SocketAnswers.JoinEndsHaveCauses` | src/rust/socket/listener.rs:932-992 | Each way a join can end has its own cause; drops come only from being overwritten under the same key, its own failed send, or a fatal socket error |
| `SocketAnswers.CallEndsHaveCauses` | src/rust/socket/listener.rs:898-922 | Each way a call can end has its own cause; a payload comes only from a reply to its exact triple while no join is pending under its topic and join reference |
| `SocketAnswers.RepliesAnswerExactly` | src/rust/socket/listener.rs:898-922 | A reply answers a call or a join if and only if it matches; a pending join takes precedence and heartbeat replies answer nobody |
| `SocketAnswers.ServerPayloadReachesItsOwnCall` | src/rust/socket/listener.rs:577-622 | Over every run, a server payload reaches a call only through a reply that repeats the topic, join reference and reference of the very frame that an earlier step sent for that call |
| `SocketAnswers.LeavingConnectedAnswersEverything` | src/rust/socket/listener.rs:266-307 | Giving a connection up without failing answers every pending join and call as disconnected |
| `SocketSteps.EffectsExactly` | src/rust/socket/listener.rs:473-676 | In any step, a frame is sent if and only if the input asks for it, with exactly its topic, join reference, event, payload and reference (a join as `phx_join`, a leave as `phx_leave` with null, a heartbeat only if none is outstanding); a push or broadcast is relayed if and only if it is the message received and its channel is joined or its topic has a broadcaster; a left channel is told, and a connect, disconnect or leave answered, if and only if the state and the input call for that answer |
| `SocketSteps.TransmitsFirst` | src/rust/socket/listener.rs:473-676 | A step sends at most one frame, before all its other effects |
| `SocketSteps.ConnectedGoesOnExactly` | src/rust/socket/listener.rs:309-460 | A connected socket waits to reconnect if and only if a write failed, the server closed or a retryable error came, with its own timeout and no sleep at first; it fails, disconnects or shuts down each by one input |
| `SocketSteps.UnconnectedGoesOnExactly` | src/rust/socket/listener.rs:698-781 | A socket without a connection gets an empty one, with the right timeout, if and only if an attempt was made and succeeded; a failed attempt is a wait, and nothing else but a shutdown or the end changes it |
| `SocketSteps.HeartbeatRememberedExactly` | src/rust/socket/listener.rs:650-676 | A heartbeat is outstanding after a step if and only if it was and the step is not the control reply with its reference, or it was sent under that reference while none was |
| `SocketSteps.TimersKeptExactly` | src/rust/socket/listener.rs:500-514 | A connection gets a timer with each sent join, for its key and deadline, and loses one only as it fires |
| `SocketSteps.BroadcastersKeptExactly` | src/rust/socket/listener.rs:932-992 | A topic has a broadcaster after a step if and only if it had one or a pending join of it was accepted |
| `SocketSteps.DisconnectsInOrder` | src/rust/socket/listener.rs:266-307 | In any step the joins that are failed as disconnected precede the calls, and the caller of a disconnect or a leave is answered last |
| `BroadcastRuns.BroadcastIsRelayed` | src/rust/socket/listener.rs:1087-1092 | Without lag, a joined channel with nothing unread is sent every broadcast on its topic, and that changes nothing else |
| `SocketTimers.RunKeepsInvariant` | src/rust/socket/listener.rs:494-516 | In every reachable state each pending join is under its own key and has an unfired timer with its key and deadline, and each joined topic has a broadcaster |
| `SocketTimers.NoJoinOutlivesItsDeadline` | src/rust/socket/listener.rs:518-529 | Once all timers due by t have fired, no pending join has a deadline up to t |
| `SocketTimers.TimedOutEarlyExactly` | src/rust/socket/listener.rs:1094-1103 | For any run and any join sent next: some continuation ends that join, pending all the while, by a timer before its own deadline if and only if an earlier timer of the same channel was left when it was sent |
| `SocketTimers.StepBringsNoEarlierTimer` | src/rust/socket/listener.rs:473-529 | No step but another join of the same channel brings a timer earlier than a given deadline |
| `StaleTimer.RejoinTimesOutEarly` | src/rust/channel/listener.rs:294-345 | For every channel there is a run in which the server rejects its join, it rejoins on its own, and the first join's timer ends the second before its deadline |
| `SocketBroadcast.StepAnnounces` | src/rust/socket/listener.rs:244-270 | A step broadcasts exactly one event on entering or leaving Connected without failing, the one that names why, and none otherwise |
| `SocketBroadcast.BroadcastAlternates` | src/rust/socket/listener.rs:91-146 | Over every run the broadcast alternates from Connected on, ends in Connected exactly while connected or failed, and nothing follows a shutdown |
| `SocketBroadcast.StatesFollow` | src/rust/socket/listener.rs:94-136 | Which states can follow which: failure only from Connected, the end only through ShuttingDown or with all handles gone |
| `ReconnectRuns.ReconnectBackoff` | src/rust/socket/listener.rs:186-264 | Over every run, after n waits in a row attempts are min(n, 65535), the timeout is the last explicit attempt's, and without a user strategy the time slept is the closed form |
| `ReconnectRuns.DisconnectHoldsUnlessReconnecting` | src/rust/socket/listener.rs:223-242 | A disconnect is always answered, and some continuation announces Connected without an explicit connect if and only if the socket was waiting to reconnect |
| `NestedMaps.FlatDeterminesNested` | src/rust/socket/listener.rs:878-896 | Two nested maps without empty inner maps are equal if and only if their flat maps are |
| `NestedMaps.Flat3DeterminesNested` | src/rust/socket/listener.rs:878-896 | The same three levels deep |
| `NestedMaps.InsertIsFlat` | src/rust/socket/listener.rs:500-504 | Inserting through entry and default is insertion into the flat map and leaves no empty inner map |
| `NestedMaps.Insert3IsFlat` | src/rust/socket/listener.rs:604-610 | The same three levels deep |
| `NestedMaps.RemoveByReferenceByTopic` | src/rust/socket/listener.rs:1046-1073 | Removal returns what the flat map held, is removal from the flat map, and leaves no empty inner map |
| `NestedMaps.RemoveReplyTx` | src/rust/socket/listener.rs:1006-1044 | The same three levels deep |
| `SocketListener.DrainJoins` | src/rust/socket/listener.rs:271-277 | The nested drain visits every pending join exactly once and ends it |
| `SocketListener.DrainCalls` | src/rust/socket/listener.rs:284-306 | The threefold drain visits every pending call exactly once and ends it |
| `SocketListener.Connected.HandleReply` | src/rust/socket/listener.rs:898-922 | Seen through the flat maps, the nested connection does what the protocol says of a reply and keeps no empty map |
| `SocketListener.Connected.FinishJoin` | src/rust/socket/listener.rs:932-992 | A join's reply registers the channel and a broadcaster, or rejects, as the protocol says |
| `SocketListener.Connected.RegisterJoin` | src/rust/socket/listener.rs:500-514 | A sent join is pending under its key with a timer, and the one it overwrites is dropped |
| `SocketListener.Connected.RemoveJoined` | src/rust/socket/listener.rs:994-1004 | A left channel is forgotten and told, if it was there |
| `SocketListener.Connected.HandlePush` | src/rust/socket/listener.rs:1075-1085 | A push is relayed exactly to the channel joined under its topic and join reference |
| `SocketListener.Connected.HandleBroadcast` | src/rust/socket/listener.rs:1087-1092 | A broadcast is relayed, once and to nothing else, if and only if its topic has a broadcaster |
| `SocketListener.Connected.JoinTimedOut` | src/rust/socket/listener.rs:1094-1103 | A fired timer ends whatever join is pending under its key and nothing else |
| `SocketListener.Listener.SendDisconnected` | src/rust/socket/listener.rs:266-307 | The broadcast goes out before any join fails, joins before calls, in some complete order of each |
| `SocketListener.Listener.WaitToReconnect` | src/rust/socket/listener.rs:256-264 | Losing the connection drains it and waits for the first reconnect with the connection's own timeout |
| `SocketListener.Listener.SocketConnect` | src/rust/socket/listener.rs:698-781 | A successful attempt gives an empty connection, a failed one the next wait |
| `SocketListener.Listener.StartJoin` | src/rust/socket/listener.rs:473-516 | A join is registered only if it was sent; otherwise the connection is given up and then the join dropped |
| `SocketListener.Listener.Leave` | src/rust/socket/listener.rs:531-568 | A leave that was sent removes and tells the channel, then the caller; one that was not gives the connection up first |
| `SocketListener.Listener.Call` | src/rust/socket/listener.rs:577-622 | The first effect is a push with exactly the topic, join reference, event, payload and reference of the call; it is pending only if that was sent and otherwise answered before the connection is given up |
| `SocketListener.Listener.Cast` | src/rust/socket/listener.rs:624-648 | A cast changes nothing, unless it cannot be sent |
| `SocketListener.Listener.Heartbeat` | src/rust/socket/listener.rs:650-676 | A heartbeat is sent only when none is outstanding and is remembered only if sent |
| `SocketListener.Listener.HandleMessage` | src/rust/socket/listener.rs:357-391 | A decoded message acts as the protocol says of its kind |
| `SocketListener.Listener.HandleSocketResult` | src/rust/socket/listener.rs:309-460 | Closing, a failed pong and retryable errors lose the connection, ignorable ones do not, fatal ones end the task and drop every sender |
| `SocketListener.Listener.Disconnect` | src/rust/socket/listener.rs:223-248 | The disconnect is broadcast and everything drained before its caller is answered |
| `SocketListener.Listener.Shutdown` | src/rust/socket/listener.rs:783-797 | A shutdown drains the connection and begins to end the loop |
| `SocketListener.Listener.Iterate` | src/rust/socket/listener.rs:94-136 | One iteration of the object is one step of the protocol, state and effects |
| `SocketListener.Listener.Listen` | src/rust/socket/listener.rs:91-146 | The loop's states and effects are those of a run, so every theorem about runs is about the object |
| `ChannelRuns.FanOutInOrder` | src/rust/channel/listener.rs:783-803 | Parked callers are answered in the order they came, each once and all alike |
| `ChannelRuns.StepConserves` | src/rust/channel/listener.rs:213-275 | In any step every caller that was parked or is taken is parked, answered or lost, and the losses are the two listed ones |
| `ChannelRuns.WaiterConservation` | src/rust/channel/listener.rs:94-196 | The same over every run, counted for each caller |
| `ChannelRuns.LeavingAWaitingStateAnswersAll` | src/rust/channel/listener.rs:438-506 | Leaving Joining answers all that were parked there; leaving Leaving does so if and only if it is not by an expired join |
| `ChannelRuns.LeaveEndsAreTold` | src/rust/channel/listener.rs:995-1000 | A caller hears that the leave is done if and only if it was parked and the leave was written, and of a web socket error if and only if it was parked and the write failed; the channel has left either way |
| `LeaveRuns.LeaveEndsAsWritten` | src/rust/channel/listener.rs:160-168 | In every run, lagging or not, what a channel hears of its leave is how the write of that very leave command, under its own topic and join reference, came out at an earlier move of the socket |
| `ChannelRuns.PassesThroughExactly` | src/rust/channel/listener.rs:508-547 | In any step the socket is asked to send if and only if a send was taken and it still listens, exactly that send with its caller; an event is published if and only if it was pushed or broadcast, once and unchanged |
| `ExpiredJoin.ExpiredJoinWhileLeaving` | src/rust/channel/listener.rs:254-275 | For every channel there is a run in which a leave caller is parked and an expired join is taken, and both go unanswered |
| `ChannelRuns.IntentFollowsInputs` | src/rust/channel/listener.rs:656-756 | For each input, whether the channel afterwards means to be joined, and with exactly which timeout and attempts |
| `ChannelRuns.RejoinBackoff` | src/rust/channel/listener.rs:928-957 | Over every run, after n waits in a row attempts are min(n, 65535), the timeout is the last explicit join's, and the time slept is the closed form |
| `ChannelRuns.RejoinKeepsTimeout` | src/rust/channel/listener.rs:342-387 | An automatic rejoin gives the server as long as the last explicit join did |
| `ChannelListener.SendJoinPayloadToChannelTxs` | src/rust/channel/listener.rs:783-792 | The drain answers the parked joins as the protocol lists them |
| `ChannelListener.SendToChannelTxs` | src/rust/channel/listener.rs:794-803 | The drain answers the parked leaves as the protocol lists them |
| `ChannelListener.HearConnectivity` | src/rust/channel/listener.rs:656-756 | The channel believes what it heard unless it had an attempt and heard Connected; everyone parked is answered, and nothing stays parked; the intent survives all but a requested disconnect or shutdown |
| `ChannelListener.Shutdown` | src/rust/channel/listener.rs:758-781 | Whoever is parked, for a join or a leave, hears of the shutdown once and in order, whatever the state |
| `ChannelListener.SocketShutdown` | src/rust/channel/listener.rs:389-418 | Whoever is parked hears that the socket is gone, and the loop ends with an error |
| `ChannelListener.RequestSocketJoin` | src/rust/channel/listener.rs:347-387 | There is an attempt exactly if the socket took the request, which carries created-at plus the retry's timeout; only after it do parked leavers hear that a join came first |
| `ChannelListener.Listener.UpdateState` | src/rust/channel/listener.rs:198-211 | What the join and leave handlers promise is enough to know the whole step that a command makes |
| `ChannelListener.JoinChannel` | src/rust/channel/listener.rs:213-252 | A channel that means to be joined keeps its attempt and its intent and either parks or answers the caller; one that does not starts an attempt, unless the command has expired |
| `ChannelListener.SocketJoinIfNotTimedOut` | src/rust/channel/listener.rs:254-275 | An expired command asks nothing, answers nobody and leaves a rejoin that is due at once; any other starts an attempt of its own caller |
| `ChannelListener.JoinedResultReceived` | src/rust/channel/listener.rs:277-340 | All parked callers hear the same, which tells the ends of an attempt apart except a drop from a shutdown; joined exactly if accepted, and otherwise the attempt is counted |
| `ChannelListener.LeaveChannel` | src/rust/channel/listener.rs:438-506 | The socket is asked exactly if there is an attempt; the caller is parked, or answered at once, and parked joiners are told only if the socket took the request |
| `ChannelListener.ReceivePushed` | src/rust/channel/listener.rs:420-435 | Every push is published; the state is kept exactly unless the server closes, and then a rejoin with the join's timeout is due at once |
| `ChannelListener.LeaveEnded` | src/rust/channel/listener.rs:995-1000 | Everyone parked for the leave hears, in order and once, what became of its write |
| `ChannelListener.Listener.Iterate` | src/rust/channel/listener.rs:94-178 | What the handlers promise, the end of a leave included, pins the step down: one iteration of the object is one step of the protocol, state and effects |
| `ChannelListener.Listener.Listen` | src/rust/channel/listener.rs:94-196 | The loop's states and effects are those of a run, so every theorem about runs is about the object |
| `SocketEffects.EntriesHaveCauses` | src/rust/socket/listener.rs:932-1004 | Where every entry of the next connection's joins and joined channels comes from, and why one disappears |
| `SocketEffects.StepAnnouncesFirst` | src/rust/socket/listener.rs:266-277 | In every step the broadcast precedes every join that is failed as disconnected |
| `Routing.RunKeepsRouting` | src/rust/channel/listener.rs:347-387 | In every run, lagging or not, the socket knows a channel's current attempt only under that channel's key, and no queued command of the channel is newer |
| `Routing.JoiningIsNeverOrphaned` | src/rust/channel/listener.rs:120-127 | In every run the join a channel waits for is queued, pending or decided, and never overwritten by another |
| `Routing.JoinedNeverHearsLeft` | src/rust/channel/listener.rs:142-166 | In no run is the left arm of a joined channel ready |
| `ChannelFailures.FailsExactlyByFailedSend` | src/rust/channel/listener.rs:277-292 | In every run, while the socket goes on, a step ends the channel with an error if and only if it takes the end of its own join dropped by a failed write |
| `ChannelFailures.ReconnectsWithoutChannel` | src/rust/socket/listener.rs:494-516 | For every channel there is a run in which that happens and the socket is connected again |
| `Agreement.CalmRunKeepsInvariant` | src/rust/channel/listener.rs:656-756 | The invariant behind the results below is kept by every move of every run without lag |
| `Agreement.ChannelsAgreeWithSocket` | src/rust/channel/listener.rs:100-178 | Without lag, a live channel's belief updated by its unread event is the socket's state; with nothing unread it waits for the socket if and only if that is not connected |
| `Agreement.UpIsHeardOnlyWhileWaiting` | src/rust/channel/listener.rs:656-756 | Without lag, Connected is heard if and only if the channel waits for the socket |
| `Agreement.JoinedIsRouted` | src/rust/socket/listener.rs:1075-1085 | Without lag, a joined channel with nothing unread is where the socket sends the pushes for its key |
| `Agreement.DisconnectIsHeardBeforeRejoining` | src/rust/channel/listener.rs:128-139 | Without lag, a channel whose join was failed by a disconnect next hears of the disconnect or shuts down |
| `Agreement.NoUnwantedRejoin` | src/rust/channel/listener.rs:128-139 | Without lag, once a requested disconnect has reached a channel, even in the middle of a join, or once it has left, no later move of it asks the socket to join before it has taken an explicit join |
| `RejoinRuns.NoJoinWithoutIntent` | src/rust/channel/listener.rs:198-252 | In every run, lagging or not, a channel that does not mean to be joined, as when it has left, asks the socket for no join before it has taken an explicit one, and does not come to mean it |
| `RejoinRuns.DisconnectEndsIntentExactly` | src/rust/channel/listener.rs:656-756 | In every run, hearing of a requested disconnect leaves the channel without intent if and only if it was not misled or had none |
| `MidJoinDisconnect.DisconnectedWhileJoining` | src/rust/channel/listener.rs:120-127 | For every channel there is a run without lag in which the disconnect reaches it in the middle of a join, whose failure is then ready for it: the case the last two results are about comes up |
| `LagRuns.HeardIsBelieved` | src/rust/channel/listener.rs:656-756 | Whenever an event can be heard, the channel afterwards believes it if and only if it is not Connected heard while joined |
| `LagRuns.RunTracks` | src/rust/channel/listener.rs:100-178 | In every run, lagging or not, what a channel was last told leads through what is still undelivered to the socket's real state, and misled channels wait for the socket |
| `LagRuns.WrongExactlyWhenMisled` | src/rust/channel/listener.rs:100-178 | In every run, a live channel with nothing unread is wrong about the socket if and only if the last event it heard was Connected while joined; it then waits for a connected socket |
| `LagRuns.WaiterHearsDownExactlyWhenMisled` | src/rust/channel/listener.rs:664-673 | In every run, a channel that waits for the socket hears of a disconnect if and only if it is misled |
| `LagRuns.StuckUntilShutdown` | src/rust/channel/listener.rs:105-111 | In every run, a channel that lost the event it waits for stays as it is and takes nothing until it is asked to shut down, whatever the socket announces |
| `LagRuns.WaiterIsReadyExactly` | src/rust/channel/listener.rs:105-111 | In every run, a channel that waits for the socket has a ready arm if and only if it is not stuck and the socket is connected or the channel misled, but not both; so with a connected socket, if and only if it is neither stuck nor misled |
| `LagRuns.BecomesStuck` | src/rust/socket/listener.rs:63 | A channel becomes stuck if and only if an announcement reaches it while it waits for the socket with an unread one |
| `LagRuns.JoinedSinceAccepted` | src/rust/channel/listener.rs:294-316 | In every run, a joined channel that was not joined before has had a join accepted in between, and stayed joined since |
| `LagRuns.JoiningIsMisledExactly` | src/rust/channel/listener.rs:120-127 | In every run, a channel that is joining while events pass it by comes out of an event it hears wrong if and only if that is Connected and a join was accepted in between and kept |
| `LagExamples.StuckWhileConnected` | src/rust/socket/listener.rs:63 | For every channel there is a run in which it is stuck while the socket is connected |
| `LagExamples.MisledWhenOvertaken` | src/rust/socket/listener.rs:63 | For every channel there are runs in which Connected overwrites an unread event while it is joined, or joining, and it ends up waiting for a connected socket |
| `LagExamples.MisledAfterJoining` | src/rust/socket/listener.rs:63 | The same where it was only waiting to join at the overwrite |
| `LagExamples.MisledKeepsIntent` | src/rust/channel/listener.rs:668-669 | For every channel there is a run in which it hears of a requested disconnect while it waits for the socket, and keeps its intent to rejoin |
| `PresenceListener.FilterOut` | src/rust/presences/listener.rs:155-168 | The filters and the retain keep exactly the metas whose references are not listed, in order |
| `PresenceListener.Replica.JoinOne` | src/rust/presences/listener.rs:202-226 | The key holds the joined metas as sent, then those old metas, by position and in order, whose reference was not joined; just that is announced with what was there, and other keys keep theirs |
| `PresenceListener.Replica.LeaveOne` | src/rust/presences/listener.rs:229-249 | What stays under the key are the old metas, by position and in order, whose reference was not left; that is announced, an emptied key dropped, and an absent key does nothing |
| `PresenceListener.Replica.SyncDiff` | src/rust/presences/listener.rs:195-250 | In whatever order the maps are visited: a meta is held afterwards if and only if its reference was not left and it was joined or is an old one whose reference was not joined; each joined key and each present left key is announced exactly once, with its metas |
| `PresenceListener.Replica.Sync` | src/rust/presences/listener.rs:136-193 | A snapshot amounts to that diff on the keys it keeps, with joins and leaves computed key by key |
| `PresenceListener.Replica.PresenceState` | src/rust/presences/listener.rs:89-109 | A snapshot that decodes is synced; one that does not changes nothing |
| `PresenceListener.Replica.PresenceDiff` | src/rust/presences/listener.rs:111-131 | A diff that decodes is merged; one that does not changes nothing |
| `PresenceTheorems.JoinedMetas` | src/rust/presences/listener.rs:202-226 | What a join stores and announces: the joined metas first and as sent, then by position exactly the old ones whose reference was not joined, in old order and as often |
| `PresenceTheorems.LeftMetas` | src/rust/presences/listener.rs:229-249 | What a leave stores and announces: by position exactly the metas whose reference was not left; the key goes if and only if there are none |
| `PresenceTheorems.DiffedMetas` | src/rust/presences/listener.rs:195-250 | After a diff a reference that was joined and not left carries the joined meta, any other that was not left the old one, and there is nothing else |
| `PresenceTheorems.DiffedKeys` | src/rust/presences/listener.rs:195-250 | A key is there after a diff if and only if it was or was joined, and some meta of it stays if it was left; a key the diff does not name keeps its metas |
| `PresenceTheorems.EventsReplay` | src/rust/presences/listener.rs:195-250 | Folding the sent Joins and then Leaves over the old map gives exactly the new one, whatever their order |
| `PresenceTheorems.SnapshotEventsReplay` | src/rust/presences/listener.rs:136-193 | Folding the events of a snapshot over the old map restricted to the snapshot's keys gives exactly the new map |
| `PresenceTheorems.DiffKeepsUniqueReferences` | src/rust/presences/listener.rs:195-250 | A diff never makes a reference appear twice under a key |
| `PresenceTheorems.DiffActsOnViews` | src/rust/presences/listener.rs:195-250 | What a diff does to keys and references depends on keys and references alone |
| `PresenceTheorems.SyncedReferences` | src/rust/presences/listener.rs:150-184 | Unseen new metas followed by surviving old ones have exactly the snapshot's references |
| `PresenceTheorems.SnapshotIsReached` | src/rust/presences/listener.rs:136-193 | A snapshot's keys and references are reached if and only if no key it names without metas was held with some; under each key are the unseen metas, then the survivors |
| `PresenceTheorems.RepeatedSnapshotIsSilent` | src/rust/presences/listener.rs:136-193 | The same snapshot again changes nothing and announces nothing, if and only if it was reached |
| `PresenceTheorems.ReplicasConverge` | src/rust/presences/listener.rs:89-131 | Two replicas with any pasts agree on keys and references after a common reachable snapshot and any number of common updates |
| `PresenceTheorems.PartitionRefinesPlainDiff` | src/rust/presences/listener.rs:142-193 | Partitioning first gives the same map as the diff on the whole old map, and withholds exactly the Leaves of wholly departed keys |
| `Messages.PhoenixNamesAreDistinct` | src/ffi/message.rs:68-79 | The six built-in event names are pairwise different |
| `Messages.NamesInBytes` | src/ffi/message.rs:68-94 | The bytes of the built-in event names, the statuses, the reply keys and the topic of control messages |
| `Messages.PhoenixReadsBack` | src/ffi/message.rs:80-94 | A built-in event is parsed from its own name and from no other |
| `Messages.EventsReadBack` | src/rust/message.rs:793-833 | Text survives parse and print; an event survives print and parse if and only if it is not a user event with a built-in name |
| `Messages.StatusesReadBack` | src/rust/message.rs:632-660 | A reply status survives print and parse |
| `BinaryCodec.DecodeBinary` | src/rust/message.rs:457-564 | A byte string is accepted if and only if a server could have printed it, and is read as that frame |
| `BinaryCodec.DecodeBroadcast` | src/rust/message.rs:465-487 | Consuming the slice field by field is the parser of broadcast frames, errors included |
| `BinaryCodec.DecodeReply` | src/rust/message.rs:488-529 | The same for reply frames |
| `BinaryCodec.DecodePush` | src/rust/message.rs:530-561 | The same for push frames |
| `BinaryCodec.Slice.Take` | src/rust/message.rs:574-581 | Taking n bytes succeeds if and only if there are n, and splits the slice there |
| `BinaryCodec.Slice.TakeFirst` | src/rust/message.rs:591-595 | Taking a byte succeeds if and only if there is one |
| `BinaryCodec.ParseServerInvertsPrint` | src/rust/message.rs:457-564 | Parsing gives a frame if and only if that frame is one a server can send and prints to the input |
| `BinaryCodec.FailureNamesFirstBadField` | src/rust/message.rs:465-561 | A failure is that of the first field that is cut short or not text, and says which of the two it is |
| `BinaryCodec.FailsBeforeFields` | src/rust/message.rs:457-487 | No bytes, an unknown kind, and a frame too short for its sizes are each refused as what they are, and the first two errors mean nothing else |
| `BinaryCodec.ServerPushReadsAs` | src/rust/message.rs:530-561 | The bytes of a push name, in this order, its join reference, topic and event, for every three texts and payload |
| `BinaryCodec.ServerReplyReadsAs` | src/rust/message.rs:488-529 | Those of a reply its join reference, reference, topic and status |
| `BinaryCodec.ServerBroadcastReadsAs` | src/rust/message.rs:465-487 | Those of a broadcast its topic and event |
| `Utf8.ValidUtf8IsEncoded` | src/rust/message.rs:465-561 | The grammar of text fields accepts exactly the encodings of sequences of Unicode scalar values |
| `BinaryCodec.EncodeBinary` | src/rust/message.rs:151-255 | Encoding succeeds if and only if all four texts are at most 255 bytes; the bytes are then 0, the four sizes, and, taken from the fields of each kind of message, join reference, reference, topic and event text, and the payload, and reading them recovers all five |
| `BinaryCodec.ClientFrameNames` | src/rust/message.rs:151-255 | Which text of a client frame is which field of the message, for each of the four kinds: no join reference and the topic "phoenix" for a control message, neither reference for a broadcast |
| `BinaryCodec.ParseClientInvertsPrint` | src/rust/message.rs:148-255 | The client layout is unambiguous: parsing gives a frame if and only if that frame prints to the input |
| `BinaryCodec.SameBytesSameFields` | src/rust/message.rs:151-255 | Two messages have the same binary form if and only if they have the same four texts and payload |
| `BinaryCodec.DecodedPrintsBack` | src/rust/message.rs:457-564 | A decoded message prints back to the input if and only if it is not a reply with a status text other than the two known ones |
| `BinaryCodec.ServerRoundTrip` | src/rust/message.rs:457-564 | A message printed by a server decodes to itself if and only if its event is not a user event with a built-in name |
| `BinaryCodec.ClientFramesMisread` | src/rust/message.rs:151-255 | A client frame read as a server's never gives the message back: exactly how it slips, when it decodes at all, and how much the payload grows |
| `JsonCodec.DecodeJson` | src/rust/message.rs:342-454 | A value is accepted if and only if it is a server's way of writing the message that is returned |
| `JsonCodec.DecodeAcceptsWhatIsWritten` | src/rust/message.rs:342-454 | The same of the decoding function, for every value and message |
| `JsonCodec.RefusedExactly` | src/rust/message.rs:342-454 | Each error is given if and only if its own field is the last that is wrong, or the fields are right and it is a reply without status and response or a control message with a user event |
| `JsonCodec.EncodedReadsBack` | src/rust/message.rs:266-339 | What every JSON message reads back as, errors included: an unreferenced control as a broadcast on "phoenix", a server-shaped reply as its reply |
| `JsonCodec.RoundTrip` | src/rust/message.rs:266-454 | Encoding and decoding is the identity if and only if the message is a broadcast, an unambiguous push or a referenced built-in control, with an event its text reads as |
| `JsonCodec.ServerRepliesReadBack` | src/rust/message.rs:403-425 | A reply written as a server writes it reads back as itself |
| `JsonCodec.DecodedWritesBack` | src/rust/message.rs:342-454 | Writing a decoded message gives its value back, if and only if it is no reply and no control with another topic |

## Left out

- Ledger: assumes that no generated reference is used for two calls of a run, as references are random.
- ChannelsAgreeWithSocket: holds for runs in which no live channel has an unread event when the next one is sent, and in which the socket has not failed; WrongExactlyWhenMisled says what holds in all runs.
- NoUnwantedRejoin: is about runs without lag, like ChannelsAgreeWithSocket, because a disconnect that was delivered and not yet read can be overwritten; once it is heard, or the channel has left, NoJoinWithoutIntent says the same of all runs.
- RunKeepsRouting: assumes that no two channels have the same topic and join reference, as join references are random.
- ReconnectBackoff: the durations that a user's reconnect strategy returns are inputs, so the total slept is stated without one.
- EncodeBinary: the listeners unwrap the result of encoding, so a binary message with a field over 255 bytes would end their task; the runs do not include that panic.
- SocketShutdown: a request to a socket task that has ended is answered as a socket shutdown; where that task ended without an error and its handle was never taken, the code instead panics the channel task (src/rust/socket.rs:47, 68, 88, 108) and drops its callers.
- WebSocket, TCP, TLS and HTTP: an input says whether a write or a connection attempt succeeded, and whether an error is retryable, ignorable or fatal.
- The tokio runtime, wakers and real clocks: time is a number that inputs carry, timers may fire at any moment from the model's view, and each iteration of a loop is one step.
- Atomicity inside an iteration: what a socket iteration makes visible reaches the channels one effect at a time, but a command arrives at the socket in one move.
- Queue capacities: command queues are unbounded and first in first out, so a full queue never makes a sender wait; a relayed push never waits for its channel.
- Dropping a joined channel's left sender when a connection ends or its entry is overwritten: it disables an arm that is never ready anyway; what selecting on that closed answer again does after a fatal socket error is not modelled.
- Progress: a lagging channel can wait indefinitely, so only safety is stated.
- The spawn arm of the socket listener: it changes no socket state, and appears only as a move of the combined system.
- JSON text: values are taken as parsed and numbers as reals; the wording of decoding errors is reduced to their kind.
- `str::from_utf8`: replaced by the grammar of well-formed UTF-8 in section 4 of RFC 3629, which ValidUtf8IsEncoded ties to scalar values.
- Presence payloads: decoding them from JSON, the list command, and lag of the presence listener's own events.
- Observable statuses, debug output and logging: they would only add easy members.
- The FFI wrappers, error enum conversions, and the bindings: copies of the types above, constructor by constructor.
