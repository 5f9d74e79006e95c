# Verified model of the Scaffolding room protocol

`qomicex-connector` lets a host open a game room (the center) that guests join over a small framed request/response
protocol. This project models its protocol core in Dafny and proves what every run of it keeps.

- **Wire format and calls** (`Utf8`, `Keys`, `ProtocolSerializer`, `Framing`, `Flows`, `RpcChannel`, `TcpClient`): byte
  frames with a one-byte type length and a four-byte body length; one cursor parser and one stream parser against one decoding function;
  a guest and a connection task joined by two byte FIFOs that cut bytes anywhere, and which answer each send gets,
  failed sends included.
- **Dispatch and negotiation** (`ProtocolTable`): duplicate-key check, handler table, advertisement, negotiation, and the
  way of a key from the guest to the handler registered under it; `EndToEnd` runs a whole session, from the first ping
  on and with handlers that keep state, over the byte FIFOs.
- **The running center** (`CenterMachine`, `CenterInvariant`, `CenterFrames`, `CenterTheorems`, `CenterTraces`,
  `CenterKicks`, `EvictorLoop`, `CenterShutdown`): any number of connection tasks, the heartbeat evictor, any number of
  kicks and the consumer of disconnect events interleave freely; each lock section, channel operation, clock reading and
  token access is one step, and a handler or a peer may hold a connection up. `CenterTraces`, `CenterKicks` and
  `EvictorLoop` read what happened off the steps of a run. `Registry` and `Roster` hold the same operations as objects
  updated in place; `StrandedGuests`, `EvictionSoundness`, `EvictionDeadlines` and `HealthyGuests` prove the results about
  players and timing, `CenterCounterexamples` shows runs without their assumptions.
- **`CancellationToken`** (`CancellationToken`): flag and wake-up list with a double check, under every interleaving.
- **Room codes and discovery** (`RoomCodes`, `CenterDiscovery`, `HeartbeatLoop`): the checksum as divisibility by 7 in base
  34, generating and parsing codes, printing and finding the center's port, the guest's timed loop.

`dafny verify dfyconfig.toml` checks everything.

## What the code does differently from its documentation

- README.md:132 of the repository says a refused client is dropped by the 15 s heartbeat window. A connection that never had
  an accepted ping has no heartbeat entry, so no scan ever lists it (client_conn.rs:194-201;
  `EvictionSoundness.NeverPingedIsNeverEvicted`). The deadlines therefore speak of connections with an accepted ping.
- `parse` accepts codes whose checksum is wrong (`RoomCodes.ParseIgnoresChecksum`).
- After a timed-out read the guest's client keeps its stream: every later answer comes as many places late as sends have
  failed, and a send gets its own if and only if none has (`RpcChannel.AnswersLagByFailures`, `OwnAnswerExactly`).
- A ping whose response cannot be written can leave its guest on the list with nothing to remove it
  (`CenterCounterexamples.UnwrittenPingResponseStrandsTheGuest`): exactly when its connection has recorded no machine yet
  and no other connection and no unread event stands for that machine (`StrandedGuests.LostResponseStrandsExactly`). A ping
  without a machine id puts a guest on the list that no disconnect removes (`NamelessPingStrandsTheGuest`,
  `NamelessGuestStaysForGood`).
- A cancelled connection does not end while its handler does not return or its peer does not take the response: neither
  token is looked at there (client_conn.rs:122-145; `CenterCounterexamples.CancelledConnectionHangs`).
  `CenterShutdown.StoppingCanMoveExactly` says exactly when it can go on.
- A guest that reconnects from the same address and port while the evictor is working off its list can lose the new
  connection (`CenterCounterexamples.ReusedAddressCutsAFreshConnection`); `EvictionSoundness.EvictionIsJustifiedExactly` says
  exactly when an eviction is justified. In the same way `disconnect_machine` can cut a connection of another machine
  (`CenterCounterexamples.LateKickCutsAnotherMachine`), and only so (`CenterKicks.KickCutsItsMachine`).

## Model

| member | source | states |
|---|---|---|
| `CenterTheorems.TokenOwnership` | crates/qomicex-connector/src/center/client_conn.rs:51-212 | In every run at most one actor (evictor, any kick, the connection's own cleanup) takes a connection's token from the active map, exactly one once the cleanup has passed that removal; only the evictor or a kick leads to cancellation; a serving connection missing from the map has a cancelled token or an actor holding it |
| `CenterTheorems.KickReturnsWhetherItWon` | crates/qomicex-connector/src/center/client_conn.rs:53-73 | A finished `disconnect_machine` call returned true exactly when it took some connection's token, that token is cancelled, and it took no other |
| `CenterKicks.SearchFindsExactly` | crates/qomicex-connector/src/center/client_conn.rs:54-62 | In every run a call can find a client if and only if a connection with that client id has last recorded the machine the call was made for and not yet removed it; and it finds nobody, and so returns false, if and only if there is none |
| `CenterKicks.TakingWinsExactly` | crates/qomicex-connector/src/center/client_conn.rs:63-72 | A call that has found a client gets the token of the connection last accepted under that client id if and only if that one is inserted, not yet removed and its token not taken; otherwise it returns false and has changed nothing |
| `CenterKicks.KickCutsItsMachine` | crates/qomicex-connector/src/center/client_conn.rs:53-73 | In every run a connection whose token a call has taken had recorded, in a ping that was read, accepted and answered, the machine the call was made for, unless an earlier connection had the same client id |
| `CenterKicks.KickCutsTheRecordedMachine` | crates/qomicex-connector/src/center/client_conn.rs:53-73 | If such a connection has recorded one machine only, that is what is on record for it |
| `CenterKicks.PartiesAreWhatTheyCameAs` | crates/qomicex-connector/src/center/tcp_server.rs:98-112 | Read off the steps of a run: connections carry the client ids and addresses they were accepted with, `reused` says whether an earlier one had the client id, calls carry the machine they were made for, and the server is cancelled once somebody has cancelled it |
| `CenterCounterexamples.LateKickCutsAnotherMachine` | crates/qomicex-connector/src/center/client_conn.rs:53-73 | A reachable state in which a call for one machine has taken the token of another machine's connection, accepted from the same remote address between the call's search and its removal |
| `CenterTheorems.OneDisconnectEventEach` | crates/qomicex-connector/src/center/client_conn.rs:173-223 | Exactly the ended connections have sent a disconnect event, one each; the consumer receives them in order, each carrying the last machine id its connection recorded, or the empty text; a client id with no living connection is in none of the four maps, whatever pings and sweeps overlapped |
| `CenterTheorems.NothingLeft` | crates/qomicex-connector/src/center/client_conn.rs:177-180 | Under the invariant, a client id no living connection has is in none of the four maps |
| `CenterTheorems.BoundedWorkAfterCancellation` | crates/qomicex-connector/src/center/client_conn.rs:117-168 | However a run continues after the server's or the connection's token is cancelled, the connection writes at most one more response, and none if it is not past both checks of its turn |
| `CenterShutdown.CancelledConnectionEnds` | crates/qomicex-connector/src/center/client_conn.rs:117-181 | However a run continues after cancellation, the connection makes at most 15 more steps of its own and has ended after the 15th; no other party's step costs it one; and until it has ended it can move if and only if neither its handler nor the peer that has to take its response holds it up |
| `CenterShutdown.StoppingCanMoveExactly` | crates/qomicex-connector/src/center/client_conn.rs:122-145 | A cancelled connection that has not ended has a step of its own if and only if it is not held up in a handler that does not return or a response that its peer does not take; no token is looked at there |
| `CenterShutdown.WithheldStays` | crates/qomicex-connector/src/center/client_conn.rs:122-145 | Until the hold-up is over no step of anybody moves such a connection on, cancelled or not, and its machine and address entries stay in the registry |
| `CenterCounterexamples.CancelledConnectionHangs` | crates/qomicex-connector/src/center/client_conn.rs:122-145 | A reachable state in which a connection that the evictor has cancelled hangs in the response its peer does not take: no step of its own, its machine and address entries there, its guest on the list |
| `CenterShutdown.StoppingRunUsesSteps` | crates/qomicex-connector/src/center/client_conn.rs:117-181 | In every run of a cancelled connection its own steps use up an allowance that no other party's step touches |
| `CenterTheorems.RegistryDescribesServingConnections` | crates/qomicex-connector/src/center/client_conn.rs:105-166 | For every serving connection in every run: the machine map has exactly what it last recorded, the address map its source address, and its heartbeat and token entries, if there, are its own |
| `CenterTraces.AcceptedPingsAreRecorded` | crates/qomicex-connector/src/center/client_conn.rs:122-166 | Read off the steps of a run: a connection records a heartbeat right after a ping was read, accepted and its response written, and only then, and a machine id right after that if the ping names one, and only then; the time and the machine on record are those of its last such steps |
| `CenterTraces.RejectedPingsLeaveNothing` | crates/qomicex-connector/src/center/client_conn.rs:147-166 | A connection of which no ping was ever accepted has neither a heartbeat nor a machine on record, and while it lives its client id is in neither map, however often it pings |
| `CenterTraces.ConnectionsLeaveForAReason` | crates/qomicex-connector/src/center/client_conn.rs:117-145 | Read off the steps of a run: a connection leaves its loop only after a failed read or write, or at a look at the tokens, and then its token or the server's is cancelled |
| `CenterTheorems.StoppingStep` | crates/qomicex-connector/src/center/client_conn.rs:117-168 | Every step keeps a cancelled connection stopping and never raises the number of responses it may still write |
| `CenterInvariant.StepKeepsTokens` | crates/qomicex-connector/src/center/client_conn.rs:53-73 | Every step of any party keeps the invariant on token ownership |
| `CenterInvariant.StepKeepsEntries` | crates/qomicex-connector/src/center/client_conn.rs:105-181 | Every step keeps: heartbeat, address and machine entries belong to a living connection that has still to remove them, and say what it last recorded |
| `CenterInvariant.StepKeepsEvents` | crates/qomicex-connector/src/center/client_conn.rs:177-182 | Every step keeps: one event for each ended connection, in order, none lost or repeated, from the channel through the consumer's hand |
| `CenterInvariant.RunKeepsInv` | crates/qomicex-connector/src/center/client_conn.rs:95-212 | The three invariants hold after every run from a state where they hold |
| `CenterInvariant.NoEntriesYet` | crates/qomicex-connector/src/center/client_conn.rs:105-114 | A client id no living connection has is in none of the heartbeat, machine and address maps |
| `CenterInvariant.OwnEntries` | crates/qomicex-connector/src/center/client_conn.rs:147-180 | Which entries a living connection's client id has in the maps are that connection's own |
| `CenterFrames.OtherUntouched` | crates/qomicex-connector/src/center/client_conn.rs:95-212 | A step changes, in a connection that is not its own, at most the fate of its token, the scan's verdict and whether it is held up |
| `StrandedGuests.NoStrandedGuest` | crates/qomicex-connector/src/center/scaffolding_center.rs:181-321 | With the standard ping behaviour, one fixed non-empty machine id a connection and no harmful loss of a ping response, in every reachable state each guest on the list has a living connection that reported (or is just processing) its id, or a disconnect event not consumed yet |
| `StrandedGuests.StepKeepsNoneStranded` | crates/qomicex-connector/src/center/scaffolding_center.rs:288-321 | Every step under those assumptions keeps: well-formed list, no foreign reports, every guest backed |
| `StrandedGuests.LostResponseStrandsExactly` | crates/qomicex-connector/src/center/client_conn.rs:142-166 | When the response to a ping cannot be written, every guest stays backed if and only if the connection has recorded its machine before, or another one carries that machine, or an event for it is still to come, or no guest of it is on the list |
| `StrandedGuests.BackingAfterLoss` | crates/qomicex-connector/src/center/client_conn.rs:142-181 | After the loss a machine is backed if and only if this connection had recorded it, another one carries it, or an event for it is still to come |
| `StrandedGuests.NamelessGuestStaysForGood` | crates/qomicex-connector/src/center/scaffolding_center.rs:181-184 | Once a guest without a machine id is on the list it stays, whatever connects, pings, disconnects and is consumed, unless it is removed by name |
| `StrandedGuests.SparedGuestStays` | crates/qomicex-connector/src/center/scaffolding_center.rs:288-321 | A guest stays on the list through every run that neither removes its machine by name nor consumes an event for it |
| `StrandedGuests.ListChanges` | crates/qomicex-connector/src/center/scaffolding_center.rs:220-321 | In every run under those assumptions a consumed event takes exactly the guest of the machine it names off the list, an empty one nobody, a removal exactly the guest of its machine, and the host is appended as host |
| `StrandedGuests.ListStays` | crates/qomicex-connector/src/center/scaffolding_center.rs:220-321 | No other step but a handled ping changes the list |
| `CenterCounterexamples.UnwrittenPingResponseStrandsTheGuest` | crates/qomicex-connector/src/center/client_conn.rs:142-166 | A reachable state in which a guest with a real machine id stays on the list, its connection ended and its event consumed, because the response to its first ping could not be written |
| `CenterCounterexamples.NamelessPingStrandsTheGuest` | crates/qomicex-connector/src/center/scaffolding_center.rs:181-184 | For any ping without a machine id, a reachable state in which its guest is on the list, its connection has ended with every response written, and nothing backs it any more: the connection's own event, read, named no machine |
| `EvictionSoundness.EvictionIsSound` | crates/qomicex-connector/src/center/client_conn.rs:188-212 | In every run a connection whose token the evictor took had its last accepted ping more than 15 s behind it at some scan, or uses a client id an earlier connection had |
| `EvictionSoundness.NeverPingedIsNeverEvicted` | crates/qomicex-connector/src/center/client_conn.rs:194-201 | In every run a connection of which no ping was accepted, or none recorded, has no heartbeat entry while it serves, and unless its client id was used before the evictor never takes its token |
| `EvictionSoundness.EvictionIsJustifiedExactly` | crates/qomicex-connector/src/center/client_conn.rs:194-208 | When the evictor is about to take a connection's token, a scan had found that connection too old if and only if it was accepted before the scan being worked off |
| `CenterCounterexamples.ReusedAddressCutsAFreshConnection` | crates/qomicex-connector/src/center/client_conn.rs:194-208 | A reachable state in which the evictor has cut a new connection that no scan found too old, because it came from the same remote address between scan and removal |
| `EvictionDeadlines.SilentConnectionIsCut` | crates/qomicex-connector/src/center/client_conn.rs:188-212 | If the evictor wakes on time and works in no time, a serving connection whose last accepted ping is more than 20 s old has had its token taken, and it is cancelled or a kick is about to cancel it |
| `EvictionDeadlines.EvictionIsOnTime` | crates/qomicex-connector/src/center/client_conn.rs:188-212 | A connection the evictor cancels after having listed it had its last accepted ping more than 15 s and at most 20 s ago, or at this very instant |
| `EvictionDeadlines.StepOnTime` | crates/qomicex-connector/src/center/client_conn.rs:188-212 | Every timely step keeps the deadlines of all heartbeats, connections and pending removals |
| `EvictorLoop.ScansAreSpaced` | crates/qomicex-connector/src/center/client_conn.rs:188-193 | In every run the evictor reads the clock for its first scan after 5 s and for each later one at least 5 s after the one before |
| `EvictorLoop.EvictorGoesOn` | crates/qomicex-connector/src/center/client_conn.rs:188-212 | In every run the evictor has a step if and only if it has not stopped and is not asleep with its time not come and the server not cancelled; it has stopped if and only if it took that step |
| `EvictorLoop.StoppedForGood` | crates/qomicex-connector/src/center/client_conn.rs:190-191 | Once stopped the evictor makes no step in any continuation |
| `HealthyGuests.HealthyGuestIsNotEvicted` | crates/qomicex-connector/src/guest/scaffolding_guest.rs:636-703 | Guest loop and center loop together: if reply delay, negotiation, lock wait and forward delay of each round add up to at most 10 s, no scan in any run lists the guest's connection, and only a reused client id lets the evictor take its token; pings may be recorded after the guest has sent later ones |
| `HealthyGuests.JointStepKeepsHealthy` | crates/qomicex-connector/src/guest/scaffolding_guest.rs:219-247 | Every joint step keeps: the time until the next accepted ping ends within 15 s of the last one, however many pings are under way |
| `HealthyGuests.GuestRestsFiveSeconds` | crates/qomicex-connector/src/core/heartbeat.rs:41-47 | After a reply the guest sends its next ping 5 s later at the earliest |
| `HeartbeatLoop.HeartbeatService.Run` | crates/qomicex-connector/src/core/heartbeat.rs:35-54 | The first callback starts after one interval, each later one an interval after the end of the one before; the first failure is the last call and is reported once; a cancellation ends the loop unreported |
| `Registry.ClientRegistry.DisconnectMachine` | crates/qomicex-connector/src/center/client_conn.rs:53-73 | Without interference: true exactly when a token was cancelled; then one client of that machine, and only it, leaves the active map; false when no client of the machine is active; otherwise nothing changes |
| `Registry.ClientRegistry.EvictTimedOut` | crates/qomicex-connector/src/center/client_conn.rs:193-209 | One round without interference removes exactly the clients with a heartbeat older than 15 s from the heartbeat and active maps and cancels exactly the tokens found there |
| `Registry.ClientRegistry.CollectTimedOut` | crates/qomicex-connector/src/center/client_conn.rs:194-201 | The listing holds each client with a too old heartbeat once, and no other |
| `Registry.ClientRegistry.FindMachine` | crates/qomicex-connector/src/center/client_conn.rs:54-61 | Returns some client that recorded the machine, or none exactly when there is none |
| `Registry.ClientRegistry.MachineSourceIp` | crates/qomicex-connector/src/center/client_conn.rs:77-86 | The recorded address of some client that reported the machine, and there is one whenever some client reported it and each that did has an address |
| `Registry.ClientRegistry.TakeActive` | crates/qomicex-connector/src/center/client_conn.rs:64 | Removes and returns the client's token, if any, and touches nothing else |
| `Registry.ClientRegistry.TakeMachine` | crates/qomicex-connector/src/center/client_conn.rs:180 | Removes and returns the client's machine id, if any, and touches nothing else |
| `Registry.ClientRegistry.ServeAlone` | crates/qomicex-connector/src/center/client_conn.rs:105-182 | From its first insertion to its last removal a connection nobody interferes with leaves all four maps as they were, and reports the machine of its last accepted ping that named one |
| `Roster.PlayerList.OnPlayerPing` | crates/qomicex-connector/src/center/scaffolding_center.rs:288-306 | The new list is the specified update of the old one and is published |
| `Roster.PlayerList.OnClientDisconnected` | crates/qomicex-connector/src/center/scaffolding_center.rs:309-321 | The new list is the old one without the first entry of the machine, unless that is the host, and is published |
| `Roster.PlayerList.AddHost` | crates/qomicex-connector/src/center/scaffolding_center.rs:220-221 | The host is appended and the list published |
| `Roster.PlayerList.Position` | crates/qomicex-connector/src/center/scaffolding_center.rs:289 | The first position of a machine id, or none |
| `Roster.RosterInvariant` | crates/qomicex-connector/src/center/scaffolding_center.rs:220-321 | After any sequence of pings, disconnects and removals with at most one start: guests have pairwise distinct machine ids and there is at most one host |
| `Roster.HostStays` | crates/qomicex-connector/src/center/scaffolding_center.rs:309-319 | The host entry is never removed or given another kind |
| `Roster.EasytierIdStays` | crates/qomicex-connector/src/center/scaffolding_center.rs:290-298 | An entry's EasyTier id never goes from present to absent while the entry stays |
| `Roster.GoneRemovesTheGuest` | crates/qomicex-connector/src/center/scaffolding_center.rs:311-318 | A disconnect removes the machine's guest and leaves every other entry in order |
| `Roster.PingTouchesOneMachine` | crates/qomicex-connector/src/center/scaffolding_center.rs:289-303 | A ping changes no entry of another machine |
| `Roster.PingIsRecorded` | crates/qomicex-connector/src/center/scaffolding_center.rs:289-303 | A ping about a listed machine changes its first entry in place and nothing else: name and vendor become the ping's, the EasyTier id becomes the ping's if it gave one and else stays what it was, kind and machine stay |
| `Roster.NewcomerIsAppended` | crates/qomicex-connector/src/center/scaffolding_center.rs:299-303 | A ping about an unlisted machine appends its player, as a guest, with the ping's name, vendor and EasyTier id |
| `Roster.EntryTellsLastPings` | crates/qomicex-connector/src/center/scaffolding_center.rs:288-321 | After any run of pings, disconnects, removals and starts the machine's first entry, unless somebody removed it, has the name and vendor of that machine's last ping and the EasyTier id of the last one that gave one, and otherwise what it had before |
| `Players.RosterAndRegistryAgree` | crates/qomicex-connector/src/protocols/mod.rs:192-206 | The roster and the registry read the same machine id out of a ping body, the empty text standing for none, and the registry records one whenever there is such a field |
| `Players.GuestPingIsRead` | crates/qomicex-connector/src/guest/scaffolding_guest.rs:294-300 | The center reads name, machine, vendor and EasyTier id out of a guest's ping as the guest put them in, and records that machine |
| `Players.NumbersAreRead` | crates/qomicex-connector/src/protocols/mod.rs:178-184 | An integer in place of a text is read as its decimal form, from which it can be read back |
| `Players.UnreadableIsMissing` | crates/qomicex-connector/src/protocols/mod.rs:186-206 | A field that is neither text nor number is read as if it were missing |
| `ProtocolSerializer.SerializeRequest` | crates/qomicex-connector/src/core/protocol_serializer.rs:19-27 | Builds the request frame of the specification |
| `ProtocolSerializer.SerializeResponse` | crates/qomicex-connector/src/core/protocol_serializer.rs:30-36 | Builds the response frame of the specification |
| `ProtocolSerializer.RequestLayout` | crates/qomicex-connector/src/core/protocol_serializer.rs:19-27 | Byte for byte: the length of the type modulo 256, the type in ASCII, the length of the body modulo 2^32 in four bytes big-endian, the body |
| `ProtocolSerializer.ResponseLayout` | crates/qomicex-connector/src/core/protocol_serializer.rs:30-36 | Byte for byte: the status, the length of the body modulo 2^32 in four bytes big-endian, the body |
| `ProtocolSerializer.Cursor.ReadExact` | crates/qomicex-connector/src/core/protocol_serializer.rs:39-52 | Succeeds exactly if enough bytes remain; returns them and advances by their number; a failure moves nothing |
| `ProtocolSerializer.ByteStream.ReadExact` | crates/qomicex-connector/src/core/protocol_serializer.rs:95-111 | Succeeds exactly if enough bytes arrive before the end; consumes them; a failure has consumed everything |
| `ProtocolSerializer.ParseRequest` | crates/qomicex-connector/src/core/protocol_serializer.rs:68-82 | The cursor parser computes the outcome of the one decoding function |
| `ProtocolSerializer.ParseResponse` | crates/qomicex-connector/src/core/protocol_serializer.rs:85-92 | The same for responses |
| `ProtocolSerializer.DeserializeRequest` | crates/qomicex-connector/src/core/protocol_serializer.rs:114-128 | The stream parser has the outcome of the same decoding function and consumes the frame, or everything at a premature end |
| `ProtocolSerializer.DeserializeResponse` | crates/qomicex-connector/src/core/protocol_serializer.rs:131-139 | The same for responses |
| `ProtocolSerializer.U32RoundTrip` | crates/qomicex-connector/src/core/protocol_serializer.rs:24 | Four big-endian bytes carry a length modulo 2^32 |
| `ProtocolSerializer.RequestRoundTrip` | crates/qomicex-connector/src/core/protocol_serializer.rs:12-82 | Decoding a request's frame followed by anything gives back key and body and stops at the frame's end if and only if the key is ASCII and at most 255 characters and the body is under 2^32 bytes |
| `ProtocolSerializer.RequestFieldsRoundTrip` | crates/qomicex-connector/src/core/protocol_serializer.rs:55-82 | The split fields come back too if and only if in addition the namespace has no colon |
| `ProtocolSerializer.ResponseRoundTrip` | crates/qomicex-connector/src/core/protocol_serializer.rs:30-92 | Decoding a response's frame followed by anything gives the response back if and only if the body is under 2^32 bytes |
| `Utf8.LossyOfEncode` | crates/qomicex-connector/src/core/protocol_serializer.rs:118 | Replacing UTF-8 decoding gives back every text that was encoded |
| `Utf8.LossyIsExact` | crates/qomicex-connector/src/core/protocol_serializer.rs:72 | Bytes that decode without a replacement character are exactly the UTF-8 form of what they decode to |
| `Utf8.GarbageIsContained` | crates/qomicex-connector/src/core/protocol_serializer.rs:118 | Ill-formed bytes before a text never spoil the text behind them |
| `ProtocolSerializer.AsciiBytesAreUtf8` | crates/qomicex-connector/src/core/protocol_serializer.rs:12-16 | The ASCII bytes of a text are the UTF-8 bytes of that text with every other character replaced by `?`, and of the text itself if it is ASCII |
| `ProtocolSerializer.LossyOfAsciiBytes` | crates/qomicex-connector/src/core/protocol_serializer.rs:12-16 | The replacing decoder reads the ASCII bytes of a text back character by character, `?` for those that are not ASCII, so as that text if and only if it is ASCII; a colon survives in any case |
| `Keys.SplitKey` | crates/qomicex-connector/src/guest/scaffolding_guest.rs:715-722 | There is a cut exactly if the key has a colon; it is at the first one, and joining the parts restores the key |
| `Keys.SplitOfKey` | crates/qomicex-connector/src/core/protocol_serializer.rs:55-65 | Cutting undoes joining if and only if the namespace has no colon |
| `Keys.Split` | crates/qomicex-connector/src/guest/scaffolding_guest.rs:336-339 | The parts hold no separator and join to the original text |
| `Keys.SplitOfJoin` | crates/qomicex-connector/src/guest/scaffolding_guest.rs:322-339 | A non-empty list comes back from its joined form if and only if no element holds the separator |
| `Framing.FramesAreSelfDelimiting` | crates/qomicex-connector/src/core/protocol_serializer.rs:114-128 | Any concatenation of in-limit request frames, cut into any chunks, is read as exactly those requests with nothing left over |
| `Framing.ChunkingIsInvisible` | crates/qomicex-connector/src/core/protocol_serializer.rs:95-128 | For every byte string, however cut, the reading loop serves the same requests, keeps the same leftover and breaks at the same place |
| `Framing.NoPrefixDecodes` | crates/qomicex-connector/src/core/protocol_serializer.rs:114-128 | No strict prefix of an in-limit request frame decodes |
| `Framing.NoResponsePrefixDecodes` | crates/qomicex-connector/src/core/protocol_serializer.rs:131-139 | No strict prefix of a response frame decodes |
| `Framing.RequestDecisionIsFinal` | crates/qomicex-connector/src/core/protocol_serializer.rs:114-128 | Bytes behind a complete or malformed frame do not change how it is read |
| `Framing.ReadAll` | crates/qomicex-connector/src/center/client_conn.rs:117-126 | The reading loop on a stream serves exactly the requests of its frames and ends at the first malformed frame, or at the end |
| `RpcChannel.ByteLevelRefinesCalls` | crates/qomicex-connector/src/guest/tcp_client.rs:59-104 | In every run over two byte FIFOs with any fragmentation and no failed send there are states, from the start state on, each made by dispatching the next request on the one before: the i-th send returned the answer of that dispatch, the application is in the state after those dispatched, at most one request is outstanding, and the bytes in flight are a suffix of its frame or of its answer's |
| `RpcChannel.AnswersLagByFailures` | crates/qomicex-connector/src/guest/tcp_client.rs:82-103 | In every run whose failed sends had written their request and read nothing, a send that returns an answer returns that of the request as many places before its own as sends have failed before it, and is in its own answer's place if and only if none has; the answers are those of one dispatch after the other, each on the state the one before has left |
| `RpcChannel.OwnAnswerExactly` | crates/qomicex-connector/src/guest/tcp_client.rs:82-103 | With pairwise different answers a send returns its own request's answer if and only if no send failed before it |
| `RpcChannel.AnyFailuresCanHappen` | crates/qomicex-connector/src/guest/tcp_client.rs:88-103 | For every choice of which sends fail there is a run in which exactly these do, and the others return |
| `RpcChannel.AnySendCanFail` | crates/qomicex-connector/src/guest/tcp_client.rs:77-103 | A pending send can fail at any moment, and then what is under way in both directions stays under way |
| `RpcChannel.RequestIsReadByField` | crates/qomicex-connector/src/core/protocol_serializer.rs:114-123 | Each read of a request asks for exactly the rest of the field it is in: length byte, type, body length, body |
| `RpcChannel.ResponseIsReadByField` | crates/qomicex-connector/src/core/protocol_serializer.rs:131-137 | Likewise for a response: status, body length, body |
| `RpcChannel.RunLags` | crates/qomicex-connector/src/center/client_conn.rs:116-168 | Every run whose failed sends had written their request and read nothing keeps: each direction carries exactly the frames begun and not taken, in order, and every answer returned lags by the failures before it |
| `RpcChannel.CallsNeverStick` | crates/qomicex-connector/src/guest/tcp_client.rs:82-92 | Whatever has failed before, until a call returns some step of it is possible |
| `RpcChannel.CallsReturn` | crates/qomicex-connector/src/guest/tcp_client.rs:82-92 | Every step of a call uses up a finite allowance, whatever has failed before, so a call that does not fail returns |
| `RpcChannel.PairingIsLostAfterAFailure` | crates/qomicex-connector/src/guest/tcp_client.rs:88-103 | For any two requests there is a run in which the first send fails and the second returns the first one's answer, since the stream is kept |
| `TcpClients.TcpClient.Connect` | crates/qomicex-connector/src/guest/tcp_client.rs:45-53 | A successful attempt replaces the stream, a failed one leaves the client as it was |
| `TcpClients.TcpClient.Send` | crates/qomicex-connector/src/guest/tcp_client.rs:59-104 | Not connected: an error and nothing written; write failure: a prefix written and nothing read; otherwise exactly the frame is written and exactly one response read; a premature end is a timeout or a protocol error; the stream is kept in every case |
| `TcpClients.SendAndReceive` | crates/qomicex-connector/src/guest/tcp_client.rs:59-104 | A well-formed answer on the socket is returned whole and nothing behind it is touched |
| `ProtocolTable.CheckKeys` | crates/qomicex-connector/src/center/scaffolding_center.rs:138-148 | The start-up check passes exactly if standard and custom keys are all distinct; otherwise it names the first custom key that repeats an earlier one |
| `ProtocolTable.NoHandlerIsShadowed` | crates/qomicex-connector/src/center/tcp_server.rs:45-48 | With distinct keys every handler is found in the table under its key, and the table holds nothing else |
| `ProtocolTable.ServeOne` | crates/qomicex-connector/src/center/client_conn.rs:122-145 | One turn reads one frame and answers with the frame of its handler's response in the current state, whose next state it leaves, or of status 255 for an unknown key; a bad frame is the turn's error |
| `ProtocolTable.UnknownKeyIsRefused` | crates/qomicex-connector/src/center/client_conn.rs:136-140 | A request under a key nobody has registered is answered with status 255 and a text that names the key, and changes nothing |
| `ProtocolTable.Guest.NegotiateProtocols` | crates/qomicex-connector/src/guest/scaffolding_guest.rs:316-344 | A failed send changes nothing; an answer with status 0 sets the negotiated list to the common keys; another answer leaves it |
| `ProtocolTable.Guest.EnsureNegotiated` | crates/qomicex-connector/src/guest/scaffolding_guest.rs:612-626 | Passes exactly for a negotiated key |
| `ProtocolTable.Guest.Exchange` | crates/qomicex-connector/src/guest/scaffolding_guest.rs:557-571 | The body of an answer with status 0, or which error |
| `ProtocolTable.Guest.SendKey` | crates/qomicex-connector/src/guest/scaffolding_guest.rs:582-608 | Nothing is written for a key that is not negotiated or has no colon; otherwise the frame of that key is written and the answer's body or error returned |
| `ProtocolTable.NegotiationKeepsOrder` | crates/qomicex-connector/src/core/protocol_negotiator.rs:9-15 | The negotiated list is the guest's list at exactly the positions whose key the center has, in order and with repetitions |
| `ProtocolTable.NegotiatedIsCommon` | crates/qomicex-connector/src/core/protocol_negotiator.rs:9-15 | A key is negotiated if and only if both sides have it |
| `ProtocolTable.AdvertisementArrives` | crates/qomicex-connector/src/protocols/mod.rs:87-92 | The guest reads the advertised list back if and only if no advertised key holds a NUL |
| `ProtocolTable.InquiryOffersKeys` | crates/qomicex-connector/src/guest/scaffolding_guest.rs:316-330 | The guest's inquiry goes to `c:protocols` and carries its keys, readable back if and only if none holds a NUL |
| `ProtocolTable.StartedKeysAreDistinct` | crates/qomicex-connector/src/center/scaffolding_center.rs:139-176 | After a passed key check the handlers' keys are distinct and `c:player_easytier_id` is not among them |
| `ProtocolTable.NegotiationAgreesWithTable` | crates/qomicex-connector/src/center/scaffolding_center.rs:138-176 | With NUL-free keys the negotiated keys are exactly the common ones, no handler is shadowed, and each negotiated key but `c:player_easytier_id`, which has none, has a handler |
| `ProtocolTable.DeliveryRunsTheRegisteredHandler` | crates/qomicex-connector/src/guest/scaffolding_guest.rs:553-577 | For a registered key with a colon the request reaches the center under exactly that key if and only if it is ASCII, at most 255 long and the body fits; then the handler registered under it answers |
| `EndToEnd.SessionRunsTheHandlers` | crates/qomicex-connector/src/guest/scaffolding_guest.rs:219-344 | A whole session over the byte FIFOs, with handlers that keep state. In every run without a failed send there are states, from the start state on: each send, ping and inquiry included, was answered with what the handler registered under exactly its key makes of exactly its request in the state before it, and the state after it is the one that handler left; the inquiry lets the guest negotiate exactly the common keys; a call under `c:player_easytier_id`, which is negotiated and has no handler, is refused in words; the application is in the state after those dispatched |
| `EndToEnd.CallRunsItsHandler` | crates/qomicex-connector/src/center/client_conn.rs:127-140 | A request sent under a key with a colon and a handler is answered, and the state changed, by the handler registered under it, in whatever state |
| `EndToEnd.EasytierCallIsRefused` | crates/qomicex-connector/src/center/client_conn.rs:136-140 | A call under the one advertised key without a handler is refused and changes nothing |
| `EndToEnd.InquiryRunsTheProtocolsHandler` | crates/qomicex-connector/src/protocols/mod.rs:87-92 | The guest's inquiry runs the `c:protocols` handler and is answered with the advertised keys |
| `CancellationTokens.NoLostWakeup` | crates/qomicex-connector/src/util.rs:37-52 | For any number of waiters and cancellers in any interleaving: once a `cancel()` has completed no waiter is parked without a pending notification; and a waiter returns only if the token is cancelled |
| `CancellationTokens.CancelledForGood` | crates/qomicex-connector/src/util.rs:32-40 | No continuation of a run clears the flag |
| `CancellationTokens.WaitersReturn` | crates/qomicex-connector/src/util.rs:43-52 | After a completed `cancel()` every waiter can move until it has returned, in at most two moves of its own, and nobody holds it back |
| `CancellationTokens.RunKeepsInv` | crates/qomicex-connector/src/util.rs:37-52 | The invariant behind these holds after every run |
| `CancellationTokens.TokenState.Cancel` | crates/qomicex-connector/src/util.rs:37-40 | Without interference the flag is set and every `Notified` created before is woken |
| `CancellationTokens.TokenState.Subscribe` | crates/qomicex-connector/src/util.rs:43-51 | Without interference a waiter returns at once exactly if the token is cancelled; otherwise it holds a `Notified` that is not woken yet and that every later `cancel()` wakes |
| `RoomCodes.AlternatingIsValue` | crates/qomicex-connector/src/models/room_code.rs:109-118 | The alternating digit sum and the little-endian base-34 value agree modulo 7 |
| `RoomCodes.ValidateChecksum` | crates/qomicex-connector/src/models/room_code.rs:109-118 | The loop accepts exactly the strings over the alphabet whose base-34 value is divisible by 7 |
| `RoomCodes.SubstitutionKeepsValidity` | crates/qomicex-connector/src/models/room_code.rs:109-118 | A valid half with one character replaced stays valid if and only if the new one is in the alphabet and the digits differ by a multiple of 7 |
| `RoomCodes.SwapKeepsValidity` | crates/qomicex-connector/src/models/room_code.rs:109-118 | Swapping two neighbours of a valid half keeps it valid if and only if their digits differ by a multiple of 7 |
| `RoomCodes.EveryPrefixCompletes` | crates/qomicex-connector/src/models/room_code.rs:78-84 | Every prefix over the alphabet can be completed to a valid half by one character |
| `RoomCodes.DigitIsFind` | crates/qomicex-connector/src/models/room_code.rs:112 | `Digit` gives a character's one position in the alphabet, and none outside it |
| `RoomCodes.ClassIsAlphabet` | crates/qomicex-connector/src/models/room_code.rs:19-26 | The parser's character class and the generator's alphabet are the same characters |
| `RoomCodes.Encode8` | crates/qomicex-connector/src/models/room_code.rs:99-106 | Each byte becomes the alphabet character at its value modulo 34 |
| `RoomCodes.EncodedIsDigits` | crates/qomicex-connector/src/models/room_code.rs:99-106 | Encoded bytes lie in the alphabet and their digits are the bytes modulo 34 |
| `RoomCodes.GenerateHalf` | crates/qomicex-connector/src/models/room_code.rs:78-84 | The rejection loop returns the first delivered buffer whose half is valid, and consumes no more; it finds none exactly if there is none |
| `RoomCodes.Generate` | crates/qomicex-connector/src/models/room_code.rs:76-95 | A generated code is printed from the first accepted buffer of each source, the first source's half in the name part and the second's in the secret part; it parses to itself, both halves are valid, and so is the 16-character value; one comes out exactly if each source holds a valid half |
| `RoomCodes.ParsesExactly` | crates/qomicex-connector/src/models/room_code.rs:64-73 | A text parses with these parts if and only if it is `U/`, name part, `-`, secret part, and both parts have the right form |
| `RoomCodes.NameAndSecretDetermineCode` | crates/qomicex-connector/src/models/room_code.rs:53-73 | Two parsed codes with the same network name and secret are the same |
| `RoomCodes.RawCodeParses` | crates/qomicex-connector/src/models/room_code.rs:93-94 | The printed form of any two halves over the alphabet parses |
| `RoomCodes.JoinedHalves` | crates/qomicex-connector/src/models/room_code.rs:93 | Two valid halves make a 16-character value divisible by 7 |
| `RoomCodes.ParseIgnoresChecksum` | crates/qomicex-connector/src/models/room_code.rs:64-73 | A code whose half fails the checksum parses |
| `CenterDiscovery.HostnameRoundTrip` | crates/qomicex-connector/src/center/scaffolding_center.rs:207 | Printing a port into the host name and reading it back gives that port if and only if it is in 1025..65535 |
| `CenterDiscovery.FallbackHostname` | crates/qomicex-connector/src/center/scaffolding_center.rs:207 | The fallback port is printed as `scaffolding-mc-server-25000` |
| `CenterDiscovery.CenterPortExactly` | crates/qomicex-connector/src/core/center_discovery.rs:36-42 | A host name stands for a port if and only if it is the prefix followed by a numeral of that number, leading zeros allowed, and the number is in range |
| `CenterDiscovery.NumberOfDecimal` | crates/qomicex-connector/src/center/scaffolding_center.rs:207 | Decimal printing and reading are inverse |
| `CenterDiscovery.ScanPorts` | crates/qomicex-connector/src/center/scaffolding_center.rs:126-136 | The scan takes the lowest bindable port of 1025..65534, or 25000 when none is; its host name reads back as that port |
| `CenterDiscovery.TryParseCenter` | crates/qomicex-connector/src/core/center_discovery.rs:34-50 | The first node that stands for a center, or none exactly if no node does; overflowing and out-of-range numbers are skipped |
| `CenterDiscovery.FindHost` | crates/qomicex-connector/src/core/center_discovery.rs:34-50 | A guest finds the printed port at the host's node if no earlier node stands for a center |
| `CenterDiscovery.Discover` | crates/qomicex-connector/src/core/center_discovery.rs:54-91 | Success comes from the first fruitful scan, cancellation from a fruitless scan after which the token was cancelled, a timeout from 60 fruitless ones |

## Left out

- EasyTier instances, their configuration, and the relay node list: wrappers over a library and a network client.
- Real sockets, DNS, port binding, network interfaces and the command line: sockets are byte FIFOs, the port scan asks an
  arbitrary set of bindable ports.
- JSON text: bodies are already parsed values; the printed form of a floating-point number is carried with it.
- The regular-expression engine and the random source: the patterns are character-class predicates, random bytes are
  input. Digits outside ASCII, which the host name pattern admits, are skipped by the number parser as they are here.
- Tokio's scheduler, memory orderings, poisoned or busy player-list locks and task panics: steps are atomic and sequentially
  consistent, and list locks succeed. `Notify` is taken by its documented guarantee.
- `TcpServer::start` and `stop` as an object: accepting a connection, spawning its task and cancelling the server token are
  steps of `CenterMachine`; the listener itself is not part of this model.
- The center's own `disconnect_machine` and `machine_source_ip` wrappers: while the accept loop runs the server slot is empty
  (scaffolding_center.rs:191-199), so they find nothing; kicks are modelled at the registry.
- Lag of the published player list: snapshot and send are not one atomic operation (scaffolding_center.rs:324-326); the object
  `Roster.PlayerList` publishes without interference and the running center has no published list.
- Logging and error texts, except the body of the unknown-protocol answer.
- Port forwarding rules, `map_minecraft_port`, `get_server_port`, the simple handlers and the two-byte port body: easy members.
- CenterMachine's biased `select`: a waiting task may still read after its token is cancelled, which allows more runs than the
  code; the bound on work after cancellation holds for these too.
- CenterMachine's connections: overlapping connections have distinct client ids, as remote addresses do; a client id may be
  used again after its connection has ended.
- StrandedGuests.NoStrandedGuest: assumes no custom ping hook and no external `handle_player_ping` call; in `CenterMachine`
  itself the hook is arbitrary.
- EvictionDeadlines.SilentConnectionIsCut: assumes that the evictor wakes exactly on time and its work takes no time, and
  speaks of runs in which the server is not cancelled.
- CenterShutdown.CancelledConnectionEnds: a hold-up begins and ends whenever the environment likes; that it ends is not
  assumed, and nothing is said about how long it takes.
- HealthyGuests.HealthyGuestIsNotEvicted: assumes that time between accepted pings passes only in the guest's sleep and in
  the delays that the 10 s cover.
- RpcChannel.AnswersLagByFailures: speaks of failed sends that had written their whole request and read nothing, as a read
  that times out before the answer begins; what a send gets after one that failed in the middle of a frame is not
  characterised. A connection task that meets a malformed request stands still instead of leaving its loop.
- ProtocolTable.Guest.SendKey: covers `send_json` (empty body) and `send_json_req`; writing and reading the JSON payload is
  not modelled.
