# Bridge between a firmware's XR link and the LoRaHAM daemon: model and proofs

A MeshCom firmware speaks the XR protocol over TCP to the bridge; the bridge drives
one LoRaHAM radio daemon over a framed DATA socket and a text CONF socket. A radio
frame must never be sent twice, reported falsely, or forgotten, whatever the
firmware, the daemon, the sockets and the clock do. This project models the code
that carries this guarantee and proves it over every run.

## How it is built

- `Bytes`, `Frames`, `Messages`, `ConfText`, `Radio`, `BoundedFifo`, `RfLog`: the data
  paths. Framing for the daemon (both directions) and for XR is one codec-indexed
  definition; the parser, the output queue and the log formatter are imperative.
- `World`: the environment. A `Script` holds the answers that successive socket
  calls, dials and nonces will get; it is arbitrary. The trace records everything
  that crosses a boundary.
- `Model`: the backend, the session, the connection and the server loop as functions
  on values. `Run(setup, turns)` is the server after any sequence of loop turns.
- `Bridge`, `Server`: the objects of the source (`LorahamBackend`, `XrSession`,
  `XrConnection`, `XrServer`) with in-place updates and the source's loops. Every
  method is proved to compute the corresponding function of `Model`; `Serve` ends in
  the state `Run` describes. The scalar fields of an object are kept in one
  record, `my`.
- `Monitors`: four observers of the trace (transmit ledger, dialogue, reception,
  configuration desk). None looks at the bridge's state; each raises an alarm when a
  promise is broken.
- `Joint`, `Growth`, `Ownership`, `Reception`, `Conversation`, `Settlement`, `Passive`,
  `Invariance`: the invariants that tie the state to the observers, and that every
  step keeps them.
- `Past`, `TxSafety`, `RxLaws`, `ConfigLaws`, `DialogueLaws`, `Timing`, `Expiry`: what
  follows for every run, stated on the trace.
- `Protocol`, `Wording`, `Dialect`, `Spelled`: the wire formats, limits and texts written
  out as numbers and literals, that the bridge's functions agree with them, and the main
  laws stated in these terms alone. `Clockwork`: the times of all events of a run.
- `Exchange`, `Scenario`: what does happen. Packets and configurations get through every
  split into partial writes and reads, and a family of complete runs reaches the states
  the other theorems speak of.

The clock is a parameter. A turn has one reading for its input stage, one for the
backend poll, one for the tick and one for a teardown, where the source may read it
again within a stage.

## What was found

- The comment at `src/xr/xr_session.h:14-15` says that a transmit timeout produces a
  TX_RESULT. The code produces none, and the model follows the code
  (`Timing.TxCeilingSilent`, `TxSafety.ResultExplained`).
- The configure token is commented as nonzero. It is zero exactly when the 32-bit
  counter wraps (`ConfigLaws.TokenNonzeroIff`, `ConfigLaws.TokenWraps`), and a run gets
  there (`Scenario.WrapReached`).
- `src/backend/loraham/loraham_backend.h:53-56` says that a configure only restarts
  from Disconnected. The code also accepts one in Ready and replaces the link
  (`ConfigLaws.BeginEffect`, `Scenario.ReadyReconfigures`). When the dial then fails, the
  old link is closed while the state stays Ready, exactly in that case
  (`ConfigLaws.StrandsIff`, `Scenario.ReadyStrands`), until the next poll finds the socket
  closed (`ConfigLaws.StrandedEnds`). The composed server never asks for a configure in
  Ready (`TxSafety.JointInvariant`, `TxSafety.WireClosed`).
- `stop()` alone would forget a pending packet; the order in the connection's
  destructor is what makes it safe (`TxSafety.StopForgetsIff`, `Scenario.StopForgets`,
  `Ownership.TeardownOwns`).
- The 1024-byte CONF bound can fire on a legal text with a long line, depending on
  how it is cut into reads (`ConfText.BoundFiresIff`, `ConfText.SplitDecides`,
  `ConfText.LongLineMisfits`).
- The readiness test takes the first `RADIO=` anywhere in the line, also at the end of
  another field's name (`ConfText.SuffixTaken`, `ConfText.FieldMisread`). It reads the
  field named RADIO exactly when the first occurrence starts a field
  (`ConfText.FieldRead`, `ConfText.FieldReadIff`).

## Model

| member | source | states |
|---|---|---|
| `TxSafety.OwnershipSafe` | src/backend/loraham/loraham_backend.cpp:32-51 | At every point of every run: while a complete packet has been written and no answer to it dispatched, no further byte goes to the daemon, no link is opened and no configure begins |
| `TxSafety.OwnershipKnown` | src/backend/loraham/loraham_backend.cpp:189-214 | After every turn the backend is TxPending, Draining or Faulted exactly when a packet is owed, holds exactly that payload while it can still be answered, and is Faulted exactly when its fate was lost |
| `TxSafety.FaultPermanent` | src/backend/loraham/loraham_backend.cpp:467-481 | Once Faulted, the backend is Faulted after every later turn, whatever happens |
| `TxSafety.Conservation` | src/backend/loraham/loraham_backend.cpp:457-481 | RF accounting over every run: packets handed over = "ok" log lines + refusals + "unconfirmed" log lines + the one outstanding, in order, in number and as multisets of payloads |
| `TxSafety.WireIntegrity` | src/backend/loraham/loraham_backend.cpp:153-187 | The raw bytes of the current link are complete encoded TX packets followed by the written part of the packet in progress; that part is there only while TxWriting; the packets of all links are the ledger's |
| `TxSafety.WireHistory` | src/backend/loraham/loraham_backend.cpp:153-162 | The incremental ledger agrees with parsing the raw byte stream of each link, for every trace without alarm |
| `TxSafety.WireClosed` | src/backend/loraham/loraham_backend.cpp:483-493 | Bytes are only written on a link whose configuration succeeded on it, and a link is only opened after the one before was closed |
| `TxSafety.NeverTwice` | src/backend/loraham/loraham_backend.cpp:164-187 | The packets the daemon receives in any run, parsed from the raw bytes of all links, are an order-preserving selection of distinct TX_REQUESTs, payload for payload: no packet twice, none unasked |
| `TxSafety.EachForItsRequest` | src/backend/loraham/loraham_backend.cpp:164-187 | Every packet completed in any run has its own request before it, with the same payload and no other completion in between |
| `TxSafety.RequestsDistinct` | src/xr/xr_session.cpp:308-319 | Two completed packets answer two different requests, in the order of the requests |
| `TxSafety.ResultExplained` | src/xr/xr_session.cpp:334-354 | Every TX_RESULT of every run answers one TX_REQUEST of the same session, with its sequence number and the mapped outcome of the first answer dispatched after the last byte of exactly its payload was accepted; no other result and no end of session lies in between |
| `TxSafety.ResultsDistinct` | src/xr/xr_session.cpp:351-354 | Two TX_RESULTs answer two different requests, in order: at most one result for each request |
| `Spelled.ResultCodes` | src/xr/xr_session.cpp:334-354 | Every TX_RESULT (type 10) of every run carries the sequence number of a TX_REQUEST whose packet the daemon has read from the raw bytes, and the code for the first thing the daemon then said about it: 0 exactly for a type 4 frame of 4 bytes with status byte 0, 1 exactly for status byte 2, 3 for any other status byte and for ERROR |
| `TxSafety.AnswersPassedOn` | src/backend/loraham/loraham_backend.cpp:253-281 | An operational session is in flight exactly for the request no answer has come for: no answer is withheld |
| `TxSafety.JointInvariant` | src/xr/xr_session.cpp:221-332 | Session phase and backend state agree after every turn: idle backend before configuring, equal tokens and configuration while settling, in flight exactly while transmitting, and then equal epochs, so that the fence lets the result through |
| `TxSafety.StopForgetsIff` | src/backend/loraham/loraham_backend.cpp:495-508 | stop() on its own loses a packet if and only if the backend is TxPending, and then the next configure would be accepted |
| `TxSafety.TurnFaulted` | src/backend/loraham/loraham_backend.h:46-51 | No turn of the server leaves Faulted |
| `RxLaws.StreamRefined` | src/backend/loraham/loraham_backend.cpp:301-330 | On a live link the frames dispatched are exactly those of the whole byte stream received on it, however it was cut into reads and across the hand-over to draining; the parser holds exactly the incomplete rest |
| `RxLaws.FramesInOrder` | src/backend/loraham/loraham_backend.cpp:305-317 | At any point of any run the frame dispatched next is the next frame of the link's stream |
| `RxLaws.DigestSplit` | src/backend/loraham/loraham_backend.cpp:308-327 | Two reads have the same effect as one read of the concatenation, including where the loop leaves |
| `RxLaws.RxFaithful` | src/xr/xr_session.cpp:340-349 | An operational session has been queued exactly the acceptable packets heard since its configuration succeeded, in order; a closed one a prefix of them; the firmware decodes from each frame the RSSI, SNR and payload the daemon reported |
| `Spelled.PacketsDelivered` | src/xr/xr_session.cpp:340-349 | Exactly the type 1 frames of 5 to 259 bytes heard while a session is operational are queued for it as RX_PACKETs, in order, and from each the firmware reads the RSSI, SNR and payload at the daemon frame's own offsets; a closed session got the first of them |
| `RxLaws.AllLogged` | src/backend/loraham/loraham_backend.cpp:225-227 | The RF log has every packet received, in order, whether or not a session is there |
| `Spelled.PacketsLogged` | src/backend/loraham/loraham_backend.cpp:219-227 | The RF log entries are exactly the type 1 frames of 4 to 259 bytes heard, in order, with the RSSI, SNR and payload at their offsets |
| `ConfigLaws.ConfigSound` | src/backend/loraham/loraham_backend.cpp:127-140 | Every CONFIG_RESULT success of every run echoes the configuration of the last CONFIGURE frame, after an operation whose five command lines were written once each in order on its link and whose replies were skippable lines up to a STATUS line saying ready |
| `Spelled.SuccessGrounded` | src/backend/loraham/loraham_backend.cpp:127-140 | Every CONFIG_RESULT success of every run echoes the 17 bytes last asked for, a configuration within the daemon's limits begun on a link to the radio that covers its frequency; the text written on that link is the five commands, the SET line demanding exactly it by field names; the text read is lines that are empty, OK or TX=, CAD=, RSSI= broadcasts, then a STATUS line with RADIO=READY |
| `ConfigLaws.AppliedEarned` | src/backend/loraham/loraham_backend.cpp:127-140 | Every completion reported as applied, whether or not a session still listens, was earned: all commands written, a ready STATUS read |
| `ConfigLaws.ReadyEarned` | src/backend/loraham/loraham_backend.cpp:396-398 | In every run the backend is Ready, writing, pending or draining only on a link with an earned completion since that link opened, and no link event after it |
| `ConfigLaws.PacketsEarned` | src/backend/loraham/loraham_backend.cpp:164-187 | Every byte written to the DATA socket lies behind such a completion |
| `Spelled.BytesGrounded` | src/backend/loraham/loraham_backend.cpp:396-403 | Every byte written to the DATA socket lies behind such texts on the same link |
| `ConfigLaws.CompletesOnce` | src/backend/loraham/loraham_backend.cpp:127-149 | Between two completions an operation with the second's token began: none completes twice or without having begun |
| `ConfigLaws.ConfigureCompletes` | src/backend/loraham/loraham_backend.cpp:522-535 | In every run: an operation in progress before turn k is completed, under its own token, or its connection dropped, before the end of any later turn that polls at or after its deadline; it never leaves Connecting or Configuring silently |
| `ConfigLaws.DrainEnds` | src/backend/loraham/loraham_backend.cpp:333-341 | In every run: a backend draining before turn k has closed its link by the end of any later turn that polls at or after the drain deadline |
| `ConfigLaws.DrainSilent` | src/backend/loraham/loraham_backend.cpp:333-369 | Polling while draining tells no session anything, whatever the daemon sends; draining ends in Disconnected or Faulted, and at the deadline in Faulted |
| `ConfigLaws.BeginEffect` | src/backend/loraham/loraham_backend.cpp:32-91 | An accepted configure closes the link there is, opens one and begins one operation without completing any; one refused before dialling leaves backend and trace as they were; one whose dial fails leaves the backend as it was with its link, if there was one, closed |
| `ConfigLaws.StrandsIff` | src/backend/loraham/loraham_posix_transport.cpp:131-145 | A configure leaves the backend Ready without a link if and only if it was Ready, the request valid and the dial failed; in every other case the state agrees with the link the trace shows |
| `ConfigLaws.StrandedEnds` | src/backend/loraham/loraham_posix_transport.cpp:122-129 | The next poll, whose closed socket answers with an error, disconnects such a backend and closes its session for a backend failure |
| `ConfigLaws.TokenNonzeroIff` | src/backend/loraham/loraham_backend.cpp:89-90 | The token of an accepted configure is nonzero if and only if the 32-bit counter does not wrap |
| `ConfigLaws.TokenWraps` | src/backend/loraham/loraham_backend.cpp:89-90 | A state in which it wraps: accepted, connecting, and reported as refused |
| `DialogueLaws.OutputGrammar` | src/xr/xr_session.cpp:173-288 | In every run the frames of a connection form a prefix of HELLO_ACK, AUTH_OK or CHALLENGE and OK or FAIL, CONFIG_RESULT, traffic, with a FAIL or failed CONFIG_RESULT last; the phase is where the frames are, and the close reason is the first one |
| `DialogueLaws.ClosedIsSilent` | src/xr/xr_session.cpp:126-134 | Nothing is queued, closed again or configured after a close; no close is for an internal error |
| `DialogueLaws.AuthenticatedFirst` | src/xr/xr_session.cpp:193-219 | With a password set, a configure begins only after the MAC of the session's own nonce was received |
| `DialogueLaws.AuthDecides` | src/xr/xr_session.cpp:207-219 | A response is answered with AUTH_OK exactly when it is the MAC of the nonce, else with AUTH_FAIL and the end of the session; the backend is not touched |
| `DialogueLaws.NoEntropyCloses` | src/xr/xr_session.cpp:193-195 | Without a nonce the session ends for an authentication error after HELLO_ACK |
| `DialogueLaws.PingsAnswered` | src/xr/xr_session.cpp:399-407 | Between two PINGs of a session there is a well-formed PONG |
| `DialogueLaws.OutputIntact` | src/xr/xr_session.cpp:136-142 | Bytes sent and bytes queued are the frames of the dialogue encoded in order, within the queue's bound, and the firmware's parser reads exactly these frames from them |
| `DialogueLaws.DroppedComplete` | src/xr/xr_connection.cpp:69-72 | A connection counts as finished only when the socket failed, or the session is closed and every byte of every frame was sent |
| `DialogueLaws.DroppedPromptly` | src/xr/xr_server.cpp:158-162 | After every turn no failed connection and no closed session with nothing left to send remains |
| `DialogueLaws.UnexpectedCloses` | src/xr/xr_session.cpp:173-186 | A malformed, unexpected or ERROR frame closes the session at once with the matching reason and no output; no other frame closes it for such a reason |
| `DialogueLaws.ConsumeSplit` | src/xr/xr_session.cpp:144-171 | Feeding two pieces has the same effect as feeding their concatenation |
| `Past.TurnExtends` | src/xr/xr_server.cpp:128-168 | A turn only appends to the trace |
| `Past.RunExtends` | src/xr/xr_server.cpp:183-187 | A longer run continues the trace of a shorter one |
| `Exchange.PumpTxAmount` | src/backend/loraham/loraham_backend.cpp:153-162 | The write loop puts out exactly what the socket takes and no more, from where it stopped, and reports completion exactly at the last byte |
| `Exchange.RequestReachesDaemon` | src/backend/loraham/loraham_backend.cpp:164-187 | A TX_REQUEST in Ready, through any partial first write and any number of polls with any partial writes: the daemon has received exactly as many bytes of the encoded packet as its socket took, and owns it as soon as that is all |
| `Exchange.AnswerReachesFirmware` | src/backend/loraham/loraham_backend.cpp:253-281 | Any answer to a pending packet returns to Ready and queues the TX_RESULT with the request's sequence number, the rest of the session unchanged, when the output queue has room |
| `Exchange.StatusDecides` | src/backend/loraham/loraham_backend.cpp:101-149 | A configure waiting for its replies, over any split of them into reads and polls: unchanged while no STATUS line is complete; operational with the echo on a ready one; link and session ended with a failure on any other, on an error and on an overlong line |
| `Exchange.TextDecides` | src/backend/loraham/loraham_backend.cpp:371-420 | For a reply text that fits the bound the outcome is the scanner's verdict on the whole text, whatever the split |
| `Spelled.ReplyDecides` | src/backend/loraham/loraham_backend.cpp:381-417 | A configure waiting for replies succeeds on a text whose first line that is not empty, OK or a broadcast is a ready STATUS, fails when that line is a STATUS that is not ready or any other line, ERR included, and waits while there is none, whatever the split; every text is one of these |
| `Spelled.IdleLineEnds` | src/backend/loraham/loraham_backend.cpp:284-289 | With no configure in progress, any complete line that is not empty or a broadcast ends the link and closes the session, OK, ERR and STATUS included |
| `Spelled.ChatterPasses` | src/backend/loraham/loraham_backend.cpp:388-390 | Empty lines and broadcasts do not |
| `Exchange.RequestFails` | src/xr/xr_session.cpp:308-319 | A TX_REQUEST that is empty or whose write fails closes the session for a backend failure without a result; the empty one leaves the backend as it was, the failed write closes the link |
| `Scenario.HandshakeDone` | src/xr/xr_session.cpp:186-219 | With or without a password, a run of the server reaches the configure phase |
| `Scenario.HandshakeAgain` | src/xr/xr_session.cpp:186-219 | So does every run that stands idle without a client, continued by the same handshake |
| `Scenario.Configured` | src/backend/loraham/loraham_backend.cpp:32-140 | A run reaches Ready for every valid configuration |
| `Scenario.ReadyReports` | src/backend/loraham/loraham_framing.cpp:133-141 | One reply that these runs can be given: STATUS RADIO=READY |
| `Scenario.PacketReaches` | src/xr/xr_session.cpp:308-319 | For every valid configuration, sequence number and payload a run reaches TxPending with exactly that packet handed over |
| `Scenario.ConcreteRun` | src/xr/xr_session.cpp:308-319 | One such run with every input given: the assumptions of these theorems can be met together |
| `Scenario.AnswerReturns` | src/backend/loraham/loraham_backend.cpp:253-281 | For every answer of the daemon that run goes on to Ready with the matching TX_RESULT queued last |
| `Scenario.StopForgets` | src/backend/loraham/loraham_backend.cpp:495-508 | At that reachable state stop() alone closes the link with the daemon still owning the packet, and the backend would take the next configure |
| `Scenario.ReadyReconfigures` | src/backend/loraham/loraham_backend.cpp:32-91 | At a reachable Ready state a configure is accepted: the link is closed, a new one opened and the operation begun, with no alarm of the ledger |
| `Scenario.ReadyStrands` | src/backend/loraham/loraham_posix_transport.cpp:131-138 | At the same state a configure whose dial fails is reported as not begun, and leaves the backend Ready with its link closed |
| `Scenario.RoundsCount` | src/backend/loraham/loraham_backend.cpp:89-90 | After k clients that each begin a configure and leave, the server is idle with its token counter at k modulo 2^32, for every k |
| `Scenario.WrapReached` | src/backend/loraham/loraham_backend.cpp:89-90 | A run on which the counter wraps: the configure is begun and the backend connects, while the session is told that it was refused and is closed |
| `Timing.OpenHasDeadline` | src/xr/xr_session.cpp:362-373 | Every open session has a next deadline |
| `Timing.TickExact` | src/xr/xr_session.cpp:375-408 | A tick changes nothing if and only if it is before the next deadline |
| `Timing.TimeoutExact` | src/xr/xr_server.cpp:170-181 | The poll timeout is at most 100 ms, never oversleeps a deadline, is zero exactly when one has passed, and is shorter than 100 ms only to meet one |
| `Timing.PollAhead` | src/backend/loraham/loraham_backend.cpp:517-545 | After a poll no backend deadline is due |
| `Timing.NoSpin` | src/xr/xr_server.cpp:128-181 | With positive timeouts, after any turn with a clock that does not run backwards the backend's deadline is after the poll's reading and the session's after the tick's, and the next timeout is positive for every clock reading up to the poll's |
| `Timing.TxCeilingSilent` | src/xr/xr_session.cpp:389-397 | At the transmit ceiling the session closes as uncertain, nothing is queued, a packet the daemon owns is drained with its deadline set, an incomplete one is dropped with its link |
| `Timing.TickDoes` | src/xr/xr_session.cpp:375-408 | A due tick closes an overdue handshake for its armed reason and a missing PONG for PongTimeout, and queues the eight bytes of a PING when its time has come |
| `Timing.PollExact` | src/backend/loraham/loraham_backend.cpp:510-545 | With nothing to read, write or connect, a poll ends a configure or a drain at or after the reported deadline and changes nothing before it; the deadline reported is the configure or drain deadline |
| `Timing.DeadlineFirst` | src/backend/loraham/loraham_backend.cpp:517-541 | A passed deadline comes before any input: the configure fails, the drain faults and logs its packet as unconfirmed |
| `Clockwork.AlwaysOnTime` | src/xr/xr_session.cpp:120-124 | On every run every armed deadline is exactly the time of the event that began its wait plus that wait's timeout: handshake, auth, config, PING, PONG, transmit ceiling, configure and drain |
| `Clockwork.NeverEarly` | src/xr/xr_session.cpp:375-408 | On every run a PING and each of the five timeout closes comes at least the whole timeout after the event that began its wait (opening, challenge, AUTH_OK or CONFIGURE, success or PONG, PING, TX_REQUEST), which is still going on |
| `Clockwork.TurnOnTime` | src/xr/xr_server.cpp:128-168 | Every turn keeps all deadlines exact and raises no early timeout |
| `Clockwork.DrainLasts` | src/backend/loraham/loraham_backend.cpp:333-341 | On every run a drain faults before its timeout, counted from when the packet was left, only if the DATA socket fails or its stream is malformed |
| `Clockwork.ApplyLasts` | src/backend/loraham/loraham_backend.cpp:517-535 | On every run a configure ends before its timeout, counted from its beginning, only if a connect or a write fails or a reply is read |
| `Expiry.WaitEnds` | src/xr/xr_session.cpp:375-408 | In every run: a session that waits for the result of a request, or for a PONG, before turn k has by the end of any later turn that ticks at or after the deadline of that wait the TX_RESULT with the request's sequence number, respectively a well-formed PONG, or the session's end in the trace since |
| `Expiry.TurnLasts` | src/xr/xr_server.cpp:128-168 | No turn drops or prolongs such a wait silently: it goes on with the same deadline, or its end is recorded |
| `Timing.DeadlinesWithin` | src/xr/xr_session.cpp:283-319 | In every run every pending deadline (handshake phases, TX ceiling, PING, PONG, configure, drain) is at most its own timeout away, and a handshake deadline carries its phase's close reason |
| `Timing.HandshakeBound` | src/xr/xr_session.cpp:109-124 | With ticks at most d apart, a session still in its handshake after a tick was accepted less than handshake + auth + 2 config + 3 d before it, for every client and daemon |
| `Timing.HandshakeEnds` | src/xr/xr_session.cpp:109-124 | The same bound counted from the connection's own opening in the trace: from then on every tick finds the session operational or closed |
| `Timing.AcceptedOpened` | src/xr/xr_server.cpp:84-113 | The accept time counted from the turns is the opening time the trace records |
| `Invariance.FrameAll` | src/xr/xr_session.cpp:173-261 | Handling any frame keeps all invariants and the daemon stream |
| `Invariance.ConsumeAll` | src/xr/xr_session.cpp:144-171 | Feeding any bytes keeps all invariants |
| `Invariance.DisconnectAll` | src/backend/loraham/loraham_backend.cpp:430-455 | Losing the link keeps all invariants and ends the link |
| `Invariance.DispatchAll` | src/backend/loraham/loraham_backend.cpp:218-282 | Dispatching the next frame keeps all invariants and the position in the stream |
| `Invariance.DigestAll` | src/backend/loraham/loraham_backend.cpp:308-327 | The pop loop keeps all invariants and ends with an incomplete frame or out of its state |
| `Invariance.ReadDataAll` | src/backend/loraham/loraham_backend.cpp:301-330 | The receive loop keeps all invariants for every sequence of reads |
| `Invariance.OperationalAll` | src/backend/loraham/loraham_backend.cpp:284-331 | An operational poll keeps all invariants |
| `Invariance.DrainAll` | src/backend/loraham/loraham_backend.cpp:333-369 | A draining poll keeps all invariants |
| `Invariance.AdvanceConfigureAll` | src/backend/loraham/loraham_backend.cpp:101-125 | Progress of a configure keeps all invariants |
| `Invariance.AdvanceConnectAll` | src/backend/loraham/loraham_backend.cpp:93-99 | Progress of a connect keeps all invariants |
| `Invariance.PollAll` | src/backend/loraham/loraham_backend.cpp:517-545 | Any poll keeps all invariants |
| `Invariance.ReadClientGood` | src/xr/xr_connection.cpp:36-53 | Reading the client socket keeps all invariants |
| `Invariance.FlushGood` | src/xr/xr_connection.cpp:57-67 | Flushing keeps all invariants |
| `Invariance.TickGood` | src/xr/xr_session.cpp:375-408 | A tick keeps all invariants |
| `Invariance.OpenGood` | src/xr/xr_connection.cpp:13-20 | Accepting a connection keeps all invariants |
| `Invariance.TeardownGood` | src/xr/xr_connection.cpp:22-34 | Abandon, detach, stop keeps all invariants, in every state |
| `Invariance.AcceptGood` | src/xr/xr_server.cpp:84-113 | Any number of arrivals keeps all invariants |
| `Invariance.TurnGood` | src/xr/xr_server.cpp:128-168 | A turn of the loop keeps all invariants |
| `Invariance.RunGood` | src/xr/xr_server.cpp:183-187 | Every reachable state satisfies all invariants |
| `Ownership.PumpTxBooks` | src/backend/loraham/loraham_backend.cpp:153-162 | Writing hands the packet over exactly when its last byte is accepted |
| `Ownership.FrameOwns` | src/xr/xr_session.cpp:173-261 | A firmware frame keeps the account of what is owned and requested |
| `Ownership.DispatchOwns` | src/backend/loraham/loraham_backend.cpp:218-282 | A daemon frame settles the account of exactly the packet it answers |
| `Ownership.DisconnectOwns` | src/backend/loraham/loraham_backend.cpp:430-455 | A lost link loses a packet only into the unconfirmed log |
| `Ownership.TeardownOwns` | src/xr/xr_connection.cpp:22-34 | Teardown in the source's order loses no packet, in any state |
| `Reception.DispatchHears` | src/backend/loraham/loraham_backend.cpp:218-240 | Dispatch queues for an operational session exactly the frame due and logs every packet |
| `Conversation.FrameTalks` | src/xr/xr_session.cpp:173-332 | Every frame handler keeps the session's phase in step with its output |
| `Settlement.ReadStatusAsks` | src/backend/loraham/loraham_backend.cpp:114-124 | The verdict on a configure is that of the whole reply text, however it was cut |
| `Bridge.XrSession.Close` | src/xr/xr_session.cpp:126-134 | The first close sets reason and phase, disarms and clears the in-flight mark; later ones change nothing |
| `Bridge.XrSession.Emit` | src/xr/xr_session.cpp:136-142 | Queues one encoded frame, or closes for overflow when it does not fit |
| `Bridge.XrSession.Arm` | src/xr/xr_session.cpp:120-124 | Sets the deadline and its reason |
| `Bridge.XrSession.Open` | src/xr/xr_session.cpp:109-118 | A fresh session in its first phase, with the handshake deadline, and a started backend |
| `Bridge.XrSession.Attach` | src/xr/xr_connection.cpp:17-18 | The backend's sink, then open |
| `Bridge.XrSession.OnRx` | src/xr/xr_session.cpp:340-349 | Queues an acceptable packet, only when operational |
| `Bridge.XrSession.OnTxComplete` | src/xr/xr_session.cpp:351-354 | Queues the result of the request in flight, once |
| `Bridge.XrSession.OnBackendFailure` | src/xr/xr_session.cpp:356-360 | Closes without a result |
| `Bridge.XrSession.OnConfigureComplete` | src/xr/xr_session.cpp:263-281 | Only for the session's own operation: success exactly when the effective configuration is the requested one |
| `Bridge.XrSession.EnterReady` | src/xr/xr_session.cpp:283-288 | Operational, disarmed, first PING scheduled |
| `Bridge.XrSession.HandleHello` | src/xr/xr_session.cpp:186-205 | HELLO_ACK, then challenge or AUTH_OK |
| `Bridge.XrSession.Challenge` | src/xr/xr_session.cpp:193-197 | A fresh nonce, its challenge, and the auth deadline; no entropy closes |
| `Bridge.XrSession.HandleAuth` | src/xr/xr_session.cpp:207-219 | AUTH_OK for the MAC of the nonce, else AUTH_FAIL and close |
| `Bridge.XrSession.HandleConfigure` | src/xr/xr_session.cpp:221-247 | Begins the backend operation, or answers the failure and closes |
| `Bridge.XrSession.HandlePong` | src/xr/xr_session.cpp:292-306 | Accepts an awaited PONG, closes for another |
| `Bridge.XrSession.HandleTxRequest` | src/xr/xr_session.cpp:308-319 | One request in flight; a refused submit closes without a result |
| `Bridge.XrSession.HandleReadyFrame` | src/xr/xr_session.cpp:290-332 | PONG and TX_REQUEST only |
| `Bridge.XrSession.HandleInPhase` | src/xr/xr_session.cpp:184-261 | The phase's own frame, or close |
| `Bridge.XrSession.HandleGreeting` | src/xr/xr_session.cpp:186-261 | HELLO and AUTH_RESPONSE in their phases; any other frame closes |
| `Bridge.XrSession.HandleFrame` | src/xr/xr_session.cpp:173-261 | Validation, direction and phase checks in order |
| `Bridge.XrSession.TakeFrame` | src/xr/xr_session.cpp:150-157 | One frame popped and handled |
| `Bridge.XrSession.Feed` | src/xr/xr_session.cpp:144-171 | The push and pop loop computes the frame-by-frame function of held and new bytes, and ends |
| `Bridge.XrSession.SendPing` | src/xr/xr_session.cpp:402-406 | PING and the PONG deadline |
| `Bridge.XrSession.Tick` | src/xr/xr_session.cpp:375-408 | The deadline that is due, in the source's order |
| `Bridge.XrSession.NextDeadline` | src/xr/xr_session.cpp:362-373 | The earliest armed deadline |
| `Bridge.LorahamBackend.PumpTxWrite` | src/backend/loraham/loraham_backend.cpp:153-162 | The resumable write loop: offset and accepted bytes |
| `Bridge.LorahamBackend.FlushConf` | src/backend/loraham/loraham_backend.cpp:103-110 | The resumable command write loop |
| `Bridge.LorahamBackend.ReadLines` | src/backend/loraham/loraham_backend.cpp:381-417 | The line loop computes the verdict of the text held and keeps the rest |
| `Bridge.LorahamBackend.PumpConf` | src/backend/loraham/loraham_backend.cpp:371-420 | The CONF receive loop with its 1024-byte bound |
| `Bridge.LorahamBackend.ResetLink` | src/backend/loraham/loraham_backend.cpp:483-493 | Closed, unconfigured, buffers and parser empty |
| `Bridge.LorahamBackend.LogTxOutcome` | src/backend/loraham/loraham_backend.cpp:462-465 | Logs the payload of the packet held |
| `Bridge.LorahamBackend.EnterFault` | src/backend/loraham/loraham_backend.cpp:467-481 | Logs the packet as unconfirmed, then Faulted and closed |
| `Bridge.LorahamBackend.HandleDisconnect` | src/backend/loraham/loraham_backend.cpp:430-455 | Fault with a packet owed, else reset; the session is told unless draining |
| `Bridge.LorahamBackend.ConfigSucceed` | src/backend/loraham/loraham_backend.cpp:127-140 | Ready, new epoch, completion with the pending configuration |
| `Bridge.LorahamBackend.ConfigFail` | src/backend/loraham/loraham_backend.cpp:142-149 | Reset and failed completion |
| `Bridge.LorahamBackend.BeginConfigure` | src/backend/loraham/loraham_backend.cpp:32-91 | Refusals in order, then the dial, which replaces a link that is up, else connecting with the five commands queued |
| `Bridge.LorahamBackend.StartConfigure` | src/backend/loraham/loraham_backend.cpp:77-90 | The five command lines, cleared buffers, deadline and token |
| `Bridge.LorahamBackend.AdvanceConfigure` | src/backend/loraham/loraham_backend.cpp:101-125 | Write, then read the status |
| `Bridge.LorahamBackend.ReadStatus` | src/backend/loraham/loraham_backend.cpp:114-124 | Completion by the STATUS verdict |
| `Bridge.LorahamBackend.AdvanceConnect` | src/backend/loraham/loraham_backend.cpp:93-99 | Connect progress |
| `Bridge.LorahamBackend.SubmitTx` | src/backend/loraham/loraham_backend.cpp:164-187 | One encoded packet, written as far as possible; a failed write resets |
| `Bridge.LorahamBackend.AbandonPendingTx` | src/backend/loraham/loraham_backend.cpp:189-214 | Draining with a deadline, or a reset of an incomplete write |
| `Bridge.LorahamBackend.Stop` | src/backend/loraham/loraham_backend.cpp:495-508 | Keeps a draining or faulted backend, resets any other |
| `Bridge.LorahamBackend.DispatchRx` | src/backend/loraham/loraham_backend.cpp:219-240 | Logs, then forwards in receive-capable states |
| `Bridge.LorahamBackend.DispatchAnswer` | src/backend/loraham/loraham_backend.cpp:253-281 | Ends the pending packet or the drain; forwards within the epoch |
| `Bridge.LorahamBackend.Dispatch` | src/backend/loraham/loraham_backend.cpp:218-282 | The daemon's three frame types |
| `Bridge.LorahamBackend.TakeFrame` | src/backend/loraham/loraham_backend.cpp:308-320 | One frame popped and dispatched |
| `Bridge.LorahamBackend.ReadFrames` | src/backend/loraham/loraham_backend.cpp:307-327 | The pop and push loop computes the digest of held and new bytes, and ends |
| `Bridge.LorahamBackend.ReadOnce` | src/backend/loraham/loraham_backend.cpp:302-329 | One read, its frames, and whether to go on |
| `Bridge.LorahamBackend.ReadData` | src/backend/loraham/loraham_backend.cpp:301-330 | The receive loop |
| `Bridge.LorahamBackend.ResumeTx` | src/backend/loraham/loraham_backend.cpp:290-299 | Resumes an interrupted write |
| `Bridge.LorahamBackend.AdvanceOperational` | src/backend/loraham/loraham_backend.cpp:284-331 | CONF, write, DATA, in this order |
| `Bridge.LorahamBackend.DrainConfInput` | src/backend/loraham/loraham_backend.cpp:422-428 | Discards CONF input |
| `Bridge.LorahamBackend.AdvanceDrain` | src/backend/loraham/loraham_backend.cpp:333-369 | Deadline first, then input |
| `Bridge.LorahamBackend.Poll` | src/backend/loraham/loraham_backend.cpp:517-545 | The step of the current state |
| `Bridge.LorahamBackend.NextDeadline` | src/backend/loraham/loraham_backend.cpp:510-515 | The configure or drain deadline |
| `Bridge.Env.Dial` | src/backend/loraham/loraham_posix_transport.cpp:131-145 | A link that is up is closed, then a refused or accepted connect, all recorded |
| `Bridge.Env.PollConnect` | src/backend/loraham/loraham_transport.h:37-39 | Connect progress |
| `Bridge.Env.ConfSendSome` | src/backend/loraham/loraham_transport.h:41-43 | A partial send: error, or at most the bytes offered |
| `Bridge.Env.DataSendSome` | src/backend/loraham/loraham_transport.h:41-44 | A partial send: error, or at most the bytes offered |
| `Bridge.Env.ConfRecv` | src/backend/loraham/loraham_transport.h:46-48 | Gone, nothing, or at most 512 characters |
| `Bridge.Env.DataRecv` | src/backend/loraham/loraham_transport.h:46-49 | Gone, nothing, or at most 512 bytes |
| `Bridge.Trim` | src/backend/loraham/loraham_backend.cpp:385-387 | The trimming loop cuts exactly the trailing blanks |
| `Server.XrConnection.constructor` | src/xr/xr_connection.cpp:13-20 | Attaches and opens a new session |
| `Server.XrConnection.Offer` | src/xr/xr_connection.cpp:58-61 | One send, and the bytes it took dropped |
| `Server.XrConnection.SendOnce` | src/xr/xr_connection.cpp:58-66 | One round of the flush loop |
| `Server.XrConnection.Flush` | src/xr/xr_connection.cpp:57-67 | Sends the queue in order as far as the socket takes it |
| `Server.XrConnection.Take` | src/xr/xr_connection.cpp:40-44 | One chunk handed to the session, and whether to read on |
| `Server.XrConnection.Step` | src/xr/xr_server.cpp:158-162 | Tick, then flush |
| `Server.XrConnection.ReadSocket` | src/xr/xr_connection.cpp:37-51 | Reads and feeds until drained, closed or failed |
| `Server.XrConnection.ServiceRead` | src/xr/xr_connection.cpp:36-53 | Read, then flush |
| `Server.XrConnection.IsFinished` | src/xr/xr_connection.cpp:69-72 | Failed, or closed and flushed |
| `Server.XrConnection.Destroy` | src/xr/xr_connection.cpp:22-34 | Abandon, detach, stop |
| `Server.XrServer.TryAccept` | src/xr/xr_server.cpp:84-113 | At most one client; every other arrival is closed |
| `Server.XrServer.ServiceSocket` | src/xr/xr_server.cpp:151-155 | Input and output of the client known before poll |
| `Server.XrServer.PumpBackend` | src/xr/xr_server.cpp:157-167 | The backend is polled with or without a client |
| `Server.XrServer.FinishTurn` | src/xr/xr_server.cpp:158-162 | Tick, flush, drop when finished |
| `Server.XrServer.Intake` | src/xr/xr_server.cpp:149-155 | Accept, then the sockets of the connection there was |
| `Server.XrServer.Progress` | src/xr/xr_server.cpp:157-167 | Backend, then time |
| `Server.XrServer.PollOnce` | src/xr/xr_server.cpp:128-168 | One turn, in the source's order, is the model's turn |
| `Server.XrServer.Serve` | src/xr/xr_server.cpp:183-187 | The loop over any turns reaches exactly the state all theorems above are about |
| `Server.XrServer.NextTimeout` | src/xr/xr_server.cpp:170-181 | The nearest deadline, capped at 100 ms |
| `Frames.PopEncode` | src/backend/loraham/loraham_framing.cpp:22-58 | Popping an encoded frame gives the frame back, for all three codecs |
| `Frames.PopSound` | src/backend/loraham/loraham_framing.cpp:76-101 | A popped frame is legal, and re-encoding it gives the bytes consumed |
| `Frames.ParseAppend` | src/backend/loraham/loraham_framing.cpp:76-101 | Parsing a concatenation continues from the rest of the first part |
| `Frames.ParseSound` | src/backend/loraham/loraham_framing.cpp:76-101 | A stream is the encoding of its frames followed by an incomplete or malformed rest |
| `Frames.ParseComplete` | third_party/external_radio_protocol/external_radio_protocol.cpp:203-219 | Parsing the encoding of legal frames gives exactly these frames |
| `Frames.ChunkingInvisible` | src/backend/loraham/loraham_framing.cpp:62-101 | For every stream and every split: same frames, same rest, same error point |
| `Protocol.FramesRead` | src/backend/loraham/loraham_framing.cpp:76-101 | Each of the three streams is read by its header bytes, types, byte order and limits written out as numbers |
| `Protocol.FramesUnderstood` | src/backend/loraham/loraham_framing.cpp:22-58 | A peer that reads so gets every frame back from the bytes the bridge writes |
| `Frames.FrameParser.constructor` | src/backend/loraham/loraham_framing.cpp:60-60 | One maximum frame of storage, empty |
| `Frames.FrameParser.Reset` | src/backend/loraham/loraham_framing.cpp:60-60 | Empties the parser |
| `Frames.FrameParser.Push` | src/backend/loraham/loraham_framing.cpp:62-74 | Takes as many leading bytes as fit, after those held |
| `Frames.FrameParser.Refill` | src/backend/loraham/loraham_backend.cpp:321-326 | After NEED_MORE there is room: the push takes something and loses nothing |
| `Frames.FrameParser.PopOne` | src/backend/loraham/loraham_framing.cpp:76-101 | The first frame of the bytes held, the rest shifted down; NEED_MORE leaves room |
| `Frames.FrameParser.ShiftDown` | src/backend/loraham/loraham_framing.cpp:97-99 | In-place removal of the first bytes |
| `Messages.RxPacketRoundTrip` | src/backend/loraham/loraham_framing.cpp:103-114 | Decoding an encoded RX packet gives signed RSSI, SNR and payload back |
| `Messages.XrRxRoundTrip` | third_party/external_radio_protocol/external_radio_protocol.cpp:258-268 | The firmware's decoder reads from the big-endian XR frame what was read from the little-endian daemon frame |
| `Messages.PackConfigRoundTrip` | third_party/external_radio_protocol/external_radio_protocol.cpp:95-120 | Unpacking the echoed configuration gives it back |
| `Protocol.ConfigsRead` | third_party/external_radio_protocol/external_radio_protocol.cpp:108-120 | A CONFIGURE is read from its 17 bytes at their offsets |
| `Protocol.ConfigsEchoed` | third_party/external_radio_protocol/external_radio_protocol.cpp:95-106 | The success frame carries the code 0 and the same 17 bytes |
| `Protocol.ValidationExact` | third_party/external_radio_protocol/external_radio_protocol.cpp:125-200 | A frame is accepted exactly when type, length, single fields and sequence number follow the protocol's tables, in numbers |
| `Protocol.DirectionExact` | src/xr/xr_session.cpp:43-56 | The types a firmware may send are exactly 1, 4, 6, 9, 12 and 13 |
| `Protocol.FixedFrames` | src/xr/xr_session.cpp:186-245 | The frames without content of their own, in numbers |
| `Protocol.ResultRoundTrip` | third_party/external_radio_protocol/external_radio_protocol.cpp:466-476 | The firmware reads from a TX_RESULT the outcome and sequence number it was made for |
| `Protocol.AnswersRead` | src/backend/loraham/loraham_framing.cpp:116-131 | Which daemon frames answer a packet and with which outcome, by type, length and status byte |
| `Protocol.CodesRead` | src/xr/xr_session.cpp:58-66 | The code the firmware is sent for each |
| `Protocol.PacketsRead` | src/backend/loraham/loraham_framing.cpp:103-114 | A daemon frame carries a packet for the firmware exactly when it has type 1 and 5 to 259 bytes, with RSSI and SNR at their little-endian offsets |
| `Protocol.PacketsUnderstood` | third_party/external_radio_protocol/external_radio_protocol.cpp:258-268 | The firmware reads the same from the frame queued for it |
| `ConfText.ReadyMeans` | src/backend/loraham/loraham_framing.cpp:133-141 | A status line is ready if and only if its first RADIO= field is exactly RADIO=READY |
| `ConfText.SuffixTaken` | src/backend/loraham/loraham_framing.cpp:133-141 | A line whose first RADIO= is the end of another field name is taken for ready |
| `ConfText.FieldRead` | src/backend/loraham/loraham_framing.cpp:133-141 | When the first RADIO= of a line starts a field, or there is none, the code's verdict is that of the field named RADIO |
| `ConfText.FieldMisread` | src/backend/loraham/loraham_framing.cpp:133-141 | When it starts no field, some continuation of the line is ready to the code although no field is named RADIO |
| `ConfText.FieldReadIff` | src/backend/loraham/loraham_framing.cpp:133-141 | The code reads the field named RADIO for every continuation of the line up to its first RADIO= if and only if that occurrence starts a field |
| `ConfText.ScanAnnounced` | src/backend/loraham/loraham_backend.cpp:381-417 | Skippable lines, then a STATUS line, give its verdict and keep the rest |
| `ConfText.ScanFinds` | src/backend/loraham/loraham_backend.cpp:381-417 | A status verdict comes only from such a text |
| `Dialect.VerdictExact` | src/backend/loraham/loraham_backend.cpp:381-417 | The verdict on any text, with and without a configure in progress, is that of its first line outside the list: empty, TX=, CAD=, RSSI= and, in a configure, OK, each after removing trailing carriage returns, blanks and tabs; both directions |
| `Dialect.ClassifyRead` | src/backend/loraham/loraham_backend.cpp:388-412 | Which lines are passed over, which are a STATUS and when it is ready, in literal texts |
| `Dialect.TrimStrips` | src/backend/loraham/loraham_backend.cpp:385-387 | Trimming removes exactly the trailing blanks |
| `ConfText.ScanAppend` | src/backend/loraham/loraham_backend.cpp:371-420 | More input extends a verdict and never changes it |
| `ConfText.ChunkingIrrelevant` | src/backend/loraham/loraham_backend.cpp:371-420 | While the bound does not fire, the verdict depends only on the text, not on the reads |
| `ConfText.BoundFiresIff` | src/backend/loraham/loraham_backend.cpp:378-379 | The 1024-byte bound can fire on a text, under some split into reads, if and only if some partial line plus the next read exceeds it |
| `ConfText.SplitDecides` | src/backend/loraham/loraham_backend.cpp:378-379 | One text that is read under one split and refused by the bound under another |
| `ConfText.LongLineMisfits` | src/backend/loraham/loraham_backend.cpp:378-379 | It can fire on every line longer than the bound |
| `ConfText.ShortLinesFit` | src/backend/loraham/loraham_backend.cpp:378-379 | It never fires on a text with lines of at most 512 bytes |
| `Radio.SetCommandIsLine` | src/backend/loraham/loraham_config.cpp:90-115 | Every valid configuration prints as one newline-terminated line under 256 bytes |
| `Protocol.LimitsExact` | src/backend/loraham/loraham_config.cpp:75-88 | A configuration is valid exactly within the limits written out as numbers |
| `Protocol.BandExact` | src/backend/loraham/loraham_config.cpp:62-66 | A frequency selects exactly the radio that covers it |
| `Radio.SetCommandRoundTrip` | src/backend/loraham/loraham_config.cpp:90-115 | Reading the printed fields back gives exactly the configuration |
| `Dialect.SetDemands` | src/backend/loraham/loraham_config.cpp:90-115 | For every configuration within the limits the line starts with SET MODE=LORA, names FREQ, BW, SF, CR, CRC, PREAMBLE, SYNC, LDRO and POWER once each, and read by these names demands exactly it |
| `Radio.SetCommandInjective` | src/backend/loraham/loraham_config.cpp:74-115 | Distinct valid configurations print differently |
| `BoundedFifo.BoundedBuffer.constructor` | src/util/bounded_buffer.h:20-20 | An empty queue of the given capacity |
| `BoundedFifo.BoundedBuffer.Size` | src/util/bounded_buffer.h:23-23 | The number of queued bytes |
| `BoundedFifo.BoundedBuffer.Append` | src/util/bounded_buffer.h:28-34 | Appends at the end, or refuses and changes nothing exactly when the capacity would be exceeded; the backing store stays within twice the capacity |
| `BoundedFifo.BoundedBuffer.Peek` | src/util/bounded_buffer.h:37-37 | The queued bytes |
| `BoundedFifo.BoundedBuffer.Consume` | src/util/bounded_buffer.h:40-43 | Drops from the front |
| `BoundedFifo.BoundedBuffer.Clear` | src/util/bounded_buffer.h:45-45 | Empties the queue |
| `BoundedFifo.BoundedBuffer.CompactIfNeeded` | src/util/bounded_buffer.h:50-60 | Moves the live bytes to the front without changing the queue |
| `RfLog.Put` | src/util/rflog.cpp:40-43 | Writes inside the buffer only, and advances by the whole text |
| `RfLog.PutHex` | src/util/rflog.cpp:49-52 | Lower-case digits, two a byte, while they fit |
| `RfLog.PutAscii` | src/util/rflog.cpp:54-59 | Printable characters or dots, while they fit |
| `RfLog.Terminate` | src/util/rflog.cpp:61-68 | The whole line, or its first cap - 2 characters and a newline, NUL-terminated |
| `RfLog.AppendPayload` | src/util/rflog.cpp:46-69 | The bounded line after any leading fields |
| `RfLog.Format` | src/util/rflog.cpp:160-178 | For every payload and buffer: the bounded line and its length; nothing below 8 characters |
| `RfLog.FormatRx` | src/util/rflog.cpp:160-168 | The RX line with its own fields |
| `RfLog.FormatTx` | src/util/rflog.cpp:170-178 | The TX line with its own fields |
| `RfLog.HexRoundTrip` | src/util/rflog.cpp:49-52 | The hex field decodes to the payload |
| `RfLog.LineCarriesPayload` | src/util/rflog.cpp:46-69 | The hex field of an untruncated line decodes to the payload |
| `RfLog.OneRecord` | src/util/rflog.cpp:61-68 | The newline is last and only there, and there is no NUL in the line |
| `RfLog.HeadsClean` | src/util/rflog.cpp:160-178 | The leading fields contain no newline and no NUL, given a clean time stamp |
| `RfLog.RxHeadReads` | src/util/rflog.cpp:160-168 | Read by names, the RX line gives the RSSI, the SNR and the length |
| `RfLog.TxHeadReads` | src/util/rflog.cpp:170-178 | Read by names, the TX line gives the outcome and the length, and no signal |
| `RfLog.AsciiReads` | src/util/rflog.cpp:54-59 | A byte is shown exactly when it is printable and neither quote nor backslash |
| `RfLog.CutLast` | src/util/rflog.cpp:61-68 | A cut line is the longest that fits |

## Left out

- HMAC-SHA256, the random generator and the constant-time compare: the MAC is an arbitrary function of the nonce, the nonce an arbitrary answer of the environment.
- POSIX sockets, socket paths, `listen` and accept errors: only what the calls may answer is modelled; a failed `accept` is an arrival that does not happen.
- RF log file handling, time stamps and rollover: the formatter is modelled with a given time stamp; the runs record a log event, not a file.
- Floating point in the printed numbers: `%.6f` and `%.2f` of an integer over a power of ten are modelled as exact decimal printing.
- The RTT of a PONG, the late-PONG warning counter and the stored applied configuration: diagnostics that nothing reads back.
- Command line, logging and the fake backend: they would only add easy members.
- The firmware side of the XR codec (its session and its builders): only its decoders are used, to state what the firmware reads.
- 64-bit wrap of the clock and of deadline sums: times are unbounded.
- What the radio transmits: that a daemon answer belongs to the outstanding packet is the daemon's promise, as the source assumes.
- A closed session whose queue the firmware never drains keeps its connection until the socket fails, as in the source; nothing is claimed about when it is dropped.
- Timing.HandshakeBound: counts only turns whose poll() succeeded as ticks, and requires the tick's clock reading not to precede the input stage's.
