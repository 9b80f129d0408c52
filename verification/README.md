# Flipforge Bridge: a model in Dafny

Flipforge Bridge carries a raw RPC byte stream from a TCP client to a Flipper over an acknowledged,
framed UART link. This project models the firmware's protocol core and proves what it is there for:
the bytes arrive unaltered, in order and once, however TCP cuts the stream, whatever the tasks'
interleaving, and whenever the link dies.

`dafny verify dfyconfig.toml` checks everything.

## What is modelled

- **Bytes and partial writes** (`Bytes`, `BridgeIo`). Bytes are the integers 0 to 255; 16-bit and
  32-bit fields are bounded integers written little-endian; XOR and OR are defined on binary digits.
  The write loop runs over any callback; responses go out through it.
- **The Expansion frame codec** (`ExpansionProtocol`, `ExpansionCodec`). The frame language as pure
  functions, and the encoder and the byte-at-a-time decoder as code over buffers. The frame layout is
  that of Flipper's "Expansion Module Protocol".
- **The Expansion state machine** (`ExpansionStateMachine`). The class with its two fields, and the
  exact set of event words behind each state.
- **Link establishment and retries** (`ExpansionSupervisor`). Baud negotiation over any rate list and
  any replies, and the supervisor's retry loop.
- **The management protocol** (`BridgeMessage`, `BridgeSession`, `BridgeServer`, `ServerRuns`). The
  message codec, the session, the dispatcher and the receive loop, which switches to raw mode in the
  middle of a received buffer. `BridgeServer.Serve` is the whole-stream specification of a
  connection; `BridgeServer.Client.Run` is the loop proved against it; `ServerRuns` holds what
  follows for whole connections.
- **The client slot** (`ClientSlot`). The accept loop, any number of client tasks and the flag they
  share; at most one task is live, which is why the transport's model has one client.
- **The transport's concurrency** (`ExpansionTransport`, `TransportInvariant`, `Transport...Steps`,
  `TransportRuns`, `TransportSafety`, `TransportStatus`, `TransportReceive`, `TransportReplies`,
  `TransportStreams`, `TransportUart`, `TransportWitness`). One step system with a program counter per
  task. Every mutex-protected region, semaphore operation, event-bit operation, stream-buffer
  operation and frame transfer is one atomic step, and any task that can move may move next. Timeouts
  are steps that may always be taken. The state holds the source's variables (`machine`, LOST,
  `awaiting_status`, `last_status`, the binary semaphore, the stream buffer, the proxy's input) and
  history variables that no step ever tests.
- **The raw proxy and the whole connection** (`FrameStreams`, `RpcProxy`, `EndToEnd`). Data frames
  written chunk by chunk by the real encoder, heard by the real decoder's specification. `EndToEnd`
  joins the halves: clients of the transport are connections, the proxy's input is what the receive
  loop hands over of them, and the UART output of all tasks is decoded. What a connection's
  surroundings answer is not tied to the transport's state in such a run: the results hold whatever
  they answer.
- **The client tool** (`BridgeClientTool`). The Python client's own constants, packing and
  authentication material, and its dialogue with the bridge.

Surroundings are parameters: what `send`, `recv`, the UART and the HMAC answer, the random nonces, the
JSON text, and whether tasks and event groups can be created.

### Assumptions about the Flipper and the wire

The Flipper answers each request frame with at most one Status, None only when it acts on the request
and BaudRate only about a rate; it acts on Data and StopRpc only inside an RPC session and on StartRpc
only outside one; it may fall silent for good at any time. The wire is first in, first out, with
unbounded delay: a frame that is never delivered has been lost, and then so is everything behind it.
A detection pulse empties it and ends the Flipper's session. `epoch` counts the pulses.

### The transport's steps and the source

| steps | source |
|---|---|
| `Claim`, `Release` | main/bridge_server.c:41-56 |
| `CheckReady`, `ApplyBegin`, `ApplyStarted`, `Fail` | main/expansion_transport.c:564-585, main/bridge_server.c:167-189 |
| `DrainToken`, `Drained`, `Arm`, `Send`, `TakeToken`, `GiveUp`, `Collect` | main/expansion_transport.c:205-232 |
| `Submit`, `NextChunk` | main/expansion_transport.c:609-632 |
| `SkipProxy`, `RunProxy`, `LeaveProxy`, `Joined`, `WriterExit` | main/rpc_proxy.c:40-128 |
| `CheckEnded`, `CheckRunning`, `ApplyEnd`, `ApplyStopped`, `ClearBuffer` | main/expansion_transport.c:587-607 |
| `WriterTake` | main/expansion_transport.c:634-653 |
| `RxLook`, `RxIdle`, `RxError`, `RxFrame`, `RxRecord`, `RxGive`, `RxCheckState`, `RxCheckRoom`, `RxStore`, `RxAck`, `RxDrop` | main/expansion_transport.c:234-300 |
| `LoseLink`, `Heartbeat` | main/expansion_transport.c:302-333 |
| `SupClear` to `SupTimeout` | main/expansion_transport.c:354-488 |
| `PeerTake`, `PeerSend`, `PeerDie` | the Flipper |

## Findings

- Once LOST is set, `end_rpc` can report success although the Flipper has not left its session: it
  takes a late Status of an earlier chunk for its own. `TransportWitness.LateStatusEndsTheWrongCall`
  is a complete run that does so. `TransportStatus.StopIsFinal` shows that it takes both a LOST that
  was set before `end_rpc` armed its request and a chunk that was sent and never acknowledged, which
  the proxy knows from its own result; a LOST raised during the wait does no harm. With both, the
  stop may still be final, because the chunk may never have reached the Flipper or never be answered:
  no condition on the state at arming decides it.
- An acknowledged chunk, in contrast, has always been received, even with LOST set
  (`TransportSafety.SuccessIsReceipt`).
- The status behind a success is always recorded inside the call, and decoded inside it as well,
  unless a start or stop request is armed with LOST set while the rx task already holds a None
  (`TransportStatus.SuccessIsDecodedInside`). That does happen:
  `TransportWitness.StatusCanBeDecodedBefore` is a complete run.
- Data that the Flipper sends between its acknowledgement of the start request and the bridge's own
  `RpcStarted` can be met in StartingRpc with the link intact
  (`TransportWitness.DataCanOvertakeStarted`), and then costs the link: a data frame is stored exactly
  when the state at its check is RpcReady and it fits (`TransportReceive.DataFrameFate`), and otherwise
  nothing more is taken in (`TransportReceive.DroppedLinkStaysClosed`).
- The management decoder takes any command byte, the encoder only 1 to 7: an unknown command closes
  the connection without a response, and so does an info or status text that does not fit
  (`ServerRuns.SilentRequests`). `docs/PROTOCOL.md` mentions neither.
- What an unexpected payload draws depends on the command: Hello and Authenticate get InvalidState,
  BeginRpcProxy gets Unavailable and asks for a reconnection, info, status and EndRpcProxy get
  Malformed, and Ping echoes it (`ServerRuns.InvalidStateExactly`, `ServerRuns.UnavailableExactly`,
  `ServerRuns.MalformedExactly`). The model follows the code.
- The client tool is more lenient than the bridge's own decoder: it also takes responses with odd
  flags above one and with payloads over 512 bytes (`BridgeClientTool.ReadingOfParsed`).
- Neither encoder checks all that its decoder checks (flags and status of a message, the value of a
  Status frame); round trips are stated for what the decoder can accept.
- One corrupted byte can pass for another valid frame if it is a framing byte: the type
  (`ExpansionProtocol.FramingByteCorruptionCanPass`) or the size of a Data frame
  (`ExpansionProtocol.SizeByteCorruptionCanPass`). It passes exactly when the announced length has
  arrived, the checksum over it matches and the content byte is in range; every other single-byte
  corruption passes for no frame (`ExpansionProtocol.SingleByteCorruptionPasses`).
- The machine's own retry limit is never reached, because the machine is reinitialised before every
  attempt (`TransportSafety.TimeoutBacksOff`); the supervisor's counter is the real bound.

## Model

| member | source | states |
|---|---|---|
| `Bytes.ReadAfterWriteU32` | main/bridge_session.c:12-26 | reading back a 32-bit little-endian field returns the number written |
| `Bytes.WriteAfterReadU32` | main/bridge_session.c:12-26 | writing back a 32-bit field that was read reproduces its four bytes |
| `Bytes.WriteAfterReadU16` | main/bridge_session.c:7-21 | writing back a 16-bit field that was read reproduces its two bytes |
| `Bytes.ChecksumConcat` | main/expansion_protocol.c:17-22 | the XOR fold of a concatenation is the XOR of the folds |
| `BridgeIo.WriteAll` | main/bridge_io.c:3-22 | for any callback: each call is offered the bytes left; the slices are exactly the counts accepted; the loop goes on while bytes are left and no result is refused (zero, a hard error or an over-reported count), and fails exactly at the first refused one; the result is the specified outcome, a prefix of the input and all of it exactly on success; it terminates because retryable errors are finite |
| `BridgeIo.OutcomeExactly` | main/bridge_io.c:3-22 | the outcome in terms of the results alone: calls go on while each is interrupted or takes some of what is left, the sum of their counts is taken from the front, it succeeds exactly when the sum is everything, and the call that ends it early did neither |
| `BridgeIo.BufferCanAccept` | main/bridge_io.c:24-26 | holds exactly when the incoming bytes fit beside the buffered ones |
| `ExpansionProtocol.AcceptedLanguage` | main/expansion_protocol.c:100-159 | the byte strings accepted as a frame are exactly the encodings of well-formed frames |
| `ExpansionProtocol.FrameLayout` | main/expansion_protocol.c:24-68 | every frame byte by byte: type number, content, little-endian rate, length byte of Data, and the XOR |
| `ExpansionProtocol.VerdictInBytes` | main/expansion_protocol.c:74-159 | when each verdict arises, in terms of the bytes: Malformed exactly for an unknown type, a Data length over 64, or a complete frame with matching XOR and a status over 2 or control over 1; ChecksumError exactly for a complete frame whose XOR is not zero; NeedMore exactly while the frame is not complete |
| `ExpansionProtocol.EncodedPrefixIsIncomplete` | main/expansion_protocol.c:74-115 | on every proper prefix of an encoding the decoder still waits |
| `ExpansionProtocol.CorruptionDetected` | main/expansion_protocol.c:121-125 | a corruption that keeps the framing bytes and whose differences have a nonzero XOR is answered ChecksumError at the last byte, NeedMore before it |
| `ExpansionProtocol.SingleByteCorruptionDetected` | main/expansion_protocol.c:17-22 | every change of one byte outside the framing bytes is caught |
| `ExpansionProtocol.FramingByteCorruptionCanPass` | main/expansion_protocol.c:74-98 | a concrete frame whose corrupted type byte makes a shorter valid frame |
| `ExpansionProtocol.SizeByteCorruptionCanPass` | main/expansion_protocol.c:88-94 | a concrete Data frame whose corrupted size byte makes a shorter valid Data frame |
| `ExpansionProtocol.FirstReportIsFrame` | main/expansion_protocol.c:100-159 | whatever arrives, the decoder's first report is a frame exactly when the announced length has arrived, the XOR over it is zero and a status or control byte is in range; then it is the frame those bytes encode |
| `ExpansionProtocol.SingleByteCorruptionPasses` | main/expansion_protocol.c:74-125 | one changed byte, with any bytes behind the frame: the decoder reports a frame exactly when it is a framing byte and the result looks valid in that sense |
| `ExpansionProtocol.DecodeEncodeAll` | main/expansion_protocol.c:24-159 | feeding any list of encoded well-formed frames returns that list, whatever follows |
| `ExpansionProtocol.DecodedStreamIsEncoding` | main/expansion_protocol.c:100-159 | conversely, any input is the encoding of the frames reported, then the unfinished or offending bytes, then the bytes not looked at |
| `ExpansionCodec.ChecksumOf` | main/expansion_protocol.c:17-22 | the accumulating loop computes the XOR fold |
| `ExpansionCodec.EncodeBody` | main/expansion_protocol.c:31-63 | succeeds exactly for encodable frames that fit; then the buffer starts with the frame's body and is otherwise unchanged |
| `ExpansionCodec.EncodeFrame` | main/expansion_protocol.c:24-68 | succeeds exactly for encodable frames that fit; then the buffer starts with the whole encoding and is otherwise unchanged |
| `ExpansionCodec.Decoder.SetExpected` | main/expansion_protocol.c:74-98 | knows the frame length exactly when the bytes so far announce one, and then sets it |
| `ExpansionCodec.Decoder.Push` | main/expansion_protocol.c:100-159 | one byte: the verdict of the frame language on all bytes since the last boundary, and what is kept; the overflow, length-mismatch and unknown-type branches are unreachable |
| `ExpansionCodec.Receive` | main/expansion_transport.c:238-256 | pushing bytes one by one yields the frames, the failure and the leftover of the whole-stream decoding |
| `ExpansionStateMachine.ExpansionStateMachine.FailConnection` | main/expansion_state_machine.c:11-21 | the in-place failure handling is the specification's step on Timeout |
| `ExpansionStateMachine.ExpansionStateMachine.Apply` | main/expansion_state_machine.c:23-80 | the in-place switch gives the state, counter, acceptance and action of the specification's step |
| `ExpansionStateMachine.RefusedChangesNothing` | main/expansion_state_machine.c:23-80 | a refused event is no failure, leaves state and counter as they are and emits nothing |
| `ExpansionStateMachine.ActionOfEvent` | main/expansion_state_machine.c:11-80 | the action of every accepted event |
| `ExpansionStateMachine.ActionBalance` | main/expansion_state_machine.c:55-72 | start and stop actions are emitted exactly when the number of open RPC starts changes |
| `ExpansionStateMachine.TraceCharacterisation` | main/expansion_state_machine.c:23-80 | for each state, the event words that lead to it from the start of an attempt are exactly: opener, Heartbeat, Rejected*, Accepted, whole sessions, and the prefix of a session the state stands for |
| `ExpansionStateMachine.RunCharacterisation` | main/expansion_state_machine.c:5-80 | after any sequence of initialisations and events the accepted ones form such a word, starts minus stops is 1 exactly in StartingRpc and RpcReady, and the counter is the failures since the last reset capped at three |
| `ExpansionSupervisor.PreferredRatesDescend` | main/expansion_transport.c:29-38 | the preferred rates are strictly descending |
| `ExpansionSupervisor.SearchGivesUp` | main/expansion_transport.c:379-411 | NOT_SUPPORTED exactly when every rate is rejected; otherwise the search stops at some rate |
| `ExpansionSupervisor.SearchSucceeds` | main/expansion_transport.c:379-411 | success at a rate exactly when it is the first not rejected, was answered None and the UART took it |
| `ExpansionSupervisor.GreatestSupportedRate` | main/expansion_transport.c:379-411 | against a Flipper with a fixed set of rates: the greatest supported one, or NOT_SUPPORTED exactly when there is none |
| `ExpansionSupervisor.AttemptExactly` | main/expansion_transport.c:354-412 | when an attempt succeeds, which takes a configured UART, the pulse, a Heartbeat as greeting and an accepted rate, and when each error result arises |
| `ExpansionSupervisor.Supervisor.Negotiate` | main/expansion_transport.c:379-411 | the loop over the rates computes that search; success leaves the machine Ready with the rate in use |
| `ExpansionSupervisor.Supervisor.Establish` | main/expansion_transport.c:354-412 | one attempt on a freshly initialised machine: its outcome, the negotiated rate and the state on success, and a counter still at zero |
| `ExpansionSupervisor.Supervisor.Serve` | main/expansion_transport.c:447-484 | an attempt and the connection it opens: the back-off delays, and that every timeout schedules a reconnection |
| `ExpansionSupervisor.BehaviourExactly` | main/expansion_transport.c:429-488 | the log, over all turns, is exactly the one where the k-th attempt uses the k-th turn and is logged as success or failure by its outcome, each failure in a row adds 250 ms of delay, a lost connection starts a row, three in a row wait for a wake, and it ends only by a stop, by a third failure that is not woken, or when the turns run out |
| `ExpansionSupervisor.Supervisor.Run` | main/expansion_transport.c:429-488 | the supervisor's loop behaves so, turn by turn |
| `ExpansionSupervisor.BehaviourIsPaid` | main/expansion_transport.c:434-485 | the amortised account behind the retry bound holds at every moment |
| `ExpansionSupervisor.RetryBound` | main/expansion_transport.c:434-485 | at every moment failed attempts are at most 3(1 + wakes) + 2 successes, and the delays since the last reset add up to at most 1500 ms |
| `BridgeMessage.ParseEncoded` | main/bridge_session.c:79-101 | decoding the encoding of a well-formed message, whatever follows, returns it and takes exactly its bytes |
| `BridgeMessage.EncodeParsed` | main/bridge_session.c:46-74 | a decoded message is well-formed and re-encodes to the bytes it came from |
| `BridgeMessage.ParseStable` | main/bridge_session.c:32-77 | no verdict depends on later bytes, and a waiting stream waits on every prefix |
| `BridgeMessage.VerdictInBytes` | main/bridge_session.c:46-74 | the verdict in terms of the bytes: nothing before fourteen; then Malformed exactly for another magic, other flags or an unknown status, TooLarge exactly for a size over 512 behind a good header, both after fourteen bytes; else the message exactly when its payload is there |
| `BridgeMessage.EncodeMessage` | main/bridge_session.c:79-101 | succeeds exactly for commands 1 to 7 with a payload that fits; writes the whole encoding, or leaves the buffer alone |
| `BridgeMessage.Decoder.Append` | main/bridge_session.c:45-74 | one byte into the buffer: the parser's verdict on everything since the last boundary, what is kept, and for a message the payload array with its zeroed tail |
| `BridgeMessage.Decoder.Push` | main/bridge_session.c:32-77 | a chunk of any size: the parser's verdict on the buffered and new bytes, every byte consumed unless a message or an error ends it, what is kept, and the payload array with its zeroed tail; the buffer-full branch is unreachable |
| `BridgeSession.MaterialInjective` | main/bridge_session.c:154-168 | the material is 97 bytes long and equal only for equal nonces and session ids |
| `BridgeSession.ConstantTimeEqual` | main/bridge_session.c:170-175 | the OR-fold over all positions is equality |
| `BridgeSession.BridgeSession.AcceptHello` | main/bridge_session.c:114-121 | accepted exactly while awaiting a Hello; then the nonce is stored, otherwise nothing changes |
| `BridgeSession.BridgeSession.Authenticate` | main/bridge_session.c:129-138 | accepted exactly while awaiting authentication and when the proof equals the expected one; otherwise nothing changes |
| `BridgeSession.BridgeSession.BeginProxy` | main/bridge_session.c:140-144 | accepted exactly when authenticated; otherwise nothing changes |
| `BridgeSession.BridgeSession.Close` | main/bridge_session.c:146-152 | the session is closed and its nonces and id are zeroed |
| `BridgeSession.BridgeSession.AuthMaterial` | main/bridge_session.c:154-168 | writes the material into a buffer that is large enough, nothing otherwise |
| `BridgeServer.Client.SendResponse` | main/bridge_server.c:58-92 | the encoded response goes through the write loop: what the socket takes of it, and whether that was all of it; nothing for a response the encoder refuses |
| `BridgeServer.Client.HandleAuthenticated` | main/bridge_server.c:105-198 | session, bytes sent, transport calls and outcome are those of the specification's decision |
| `BridgeServer.Client.HandleManagement` | main/bridge_server.c:200-248 | the same for the whole dispatcher |
| `BridgeServer.Client.ServeNext` | main/bridge_server.c:283-319 | one decoder call and what follows from it advance the connection exactly as its whole-stream specification does |
| `BridgeServer.Client.Run` | main/bridge_server.c:250-332 | for every stream and every split into chunks, the receive loop sends, logs and ends as the whole-stream specification says, and hands raw mode exactly the bytes not yet consumed: the rest of the chunk that holds the last consumed byte, then the later chunks as they are |
| `ServerRuns.ServeChained` | main/bridge_server.c:268-321 | each request meets the session its predecessor left, and only the last may close or go raw |
| `ServerRuns.BytesAccounted` | main/bridge_server.c:283-321 | the stream is the encodings of the requests handled, a refused header if there is one, and the rest: nothing dropped, repeated or parsed twice |
| `ServerRuns.RequestsInOrder` | main/bridge_server.c:283-303 | the requests handled are the messages of the stream from its start, in order, each met by its own surroundings |
| `ServerRuns.WaitsOnlyForMore` | main/bridge_server.c:268-321 | a connection that waits has handled every message of its stream, and what is left is only the start of one |
| `ServerRuns.RefusedHeaderAnswered` | main/bridge_server.c:304-318 | a refused header is the fourteen bytes behind the requests; the error frame answers Hello with id 0 and says TooLarge exactly when only the size is wrong, else Malformed |
| `ServerRuns.ProxyingImpliesAuthentication` | main/bridge_server.c:200-248 | raw mode takes exactly one accepted Hello, a later proof equal to the keyed hash over its nonce and this session's values, no failed proof, and a final empty BeginRpcProxy met by a ready link |
| `ServerRuns.OkExactlyAsDocumented` | docs/PROTOCOL.md:25-37 | a request is answered Ok exactly when the protocol document's table and the session allow it, with the documented payload; only such answers to Hello, Authenticate and BeginRpcProxy move the session |
| `ServerRuns.SessionNeverMovesBack` | main/bridge_session.c:114-152 | over a connection the session state never moves backwards |
| `ServerRuns.DueResponseEchoes` | main/bridge_server.c:70-92 | a response echoes command and id, carries the response flag and can be decoded |
| `ServerRuns.ResponsesInOrder` | main/bridge_server.c:105-248 | the bytes sent are a prefix of one response per request in order, then the error frame of a refused header, and all of them while the connection waits or has gone raw |
| `ServerRuns.ResponsesParseBack` | main/bridge_session.c:32-101 | the same decoder reads the responses back one by one |
| `ServerRuns.SilentRequests` | main/bridge_session.c:84-88 | in every connection a request is due no response exactly when its command is outside 1 to 7, or it is an authenticated info or status request whose text does not fit; it then ends the connection with no byte sent for it |
| `ServerRuns.MalformedExactly` | main/bridge_server.c:205-207 | Malformed is the answer exactly to nonzero flags or status, and to a payload on an authenticated info, status or EndRpcProxy request |
| `ServerRuns.UnavailableExactly` | main/bridge_server.c:167-178 | Unavailable is the answer exactly to an authenticated BeginRpcProxy with a payload, without a ready link or with a failing start; exactly the first two ask for a reconnection |
| `ServerRuns.InvalidStateExactly` | main/bridge_server.c:213-229 | InvalidState is the answer exactly to a Hello or Authenticate in the wrong session state or with the wrong payload size, and to an unknown command once authenticated |
| `ServerRuns.UnauthorizedExactly` | main/bridge_server.c:224-247 | Unauthorized is the answer exactly to a proof that does not match, which alone ends the connection, and to other commands before authentication |
| `ServerRuns.UnsupportedExactly` | main/bridge_server.c:208-211 | UnsupportedProtocol is the answer exactly to another version with no flag and no status set |
| `ServerRuns.RepliesAreThese` | main/bridge_server.c:105-248 | no other status is answered to a request, and an answer that is not Ok carries nothing |
| `ServerRuns.CallsExactly` | main/bridge_server.c:167-189 | the transport is called only for an authenticated BeginRpcProxy: to reconnect, or to start a session, and to end it exactly when the answer cannot be sent |
| `ClientSlot.OneClient` | main/bridge_server.c:41-56 | for every interleaving of accepts, failed creations and tasks: at most one client task is live, and a connection is answered Busy exactly when one is live as it asks for the slot |
| `ServerRuns.StartedSessionIsHandedOver` | main/bridge_server.c:167-189 | an RPC session started for a connection is its last business: handed to the proxy, or ended at once because the response could not be sent |
| `ServerRuns.SentGrows` | main/bridge_server.c:268-321 | more input never changes what was already answered |
| `TransportInvariant.BootInv` | main/expansion_transport.c:490-521 | the invariant holds at start-up |
| `TransportRxSteps.StoreIsComplete` | main/expansion_transport.c:271-286 | after the room check the stream buffer takes the whole frame, although the writer runs beside it |
| `TransportRxSteps.RxRecordKeeps` | main/expansion_transport.c:259-268 | recording a status, or giving the link up for an unsolicited one, keeps the invariant |
| `TransportCallSteps.SendKeeps` | main/expansion_transport.c:218-224 | writing a request keeps the invariant, whether or not the frame went out |
| `TransportCallSteps.CollectKeeps` | main/expansion_transport.c:226-231 | closing the window and acting on the status keeps the invariant |
| `TransportCallSteps.ApplyStartedKeeps` | main/expansion_transport.c:578-582 | the transition to RpcReady, or its refusal, keeps the invariant |
| `TransportSupervisorSteps.SupPulseKeeps` | main/expansion_transport.c:364-372 | a detection pulse keeps the invariant, even under a session of the old epoch |
| `TransportRuns.StepKeeps` | main/expansion_transport.c:205-653 | every step of every party keeps the invariant |
| `TransportRuns.Reachable` | main/expansion_transport.c:205-653 | every state of every run satisfies the invariant |
| `TransportRuns.RefinesPipe` | main/expansion_transport.c:609-632 | seen from the streams, every step is one step of a one-place pipe or none: more is submitted, the next chunk of at most 64 bytes is received once all before it is acknowledged, or exactly what was received is acknowledged |
| `TransportSafety.StopAndWaitHolds` | main/expansion_transport.c:609-632 | at every moment acknowledged bytes are a prefix of the received ones, those of the submitted ones, and at most one chunk is received but not acknowledged |
| `TransportSafety.StreamsGrow` | main/expansion_transport.c:609-632 | within a session no stream is ever cut back, so nothing is repeated or reordered |
| `TransportSafety.SubmissionsReachFlipper` | main/expansion_transport.c:609-632 | from the opening of a session on, the Flipper has received a prefix of exactly the bytes handed to send_rpc, ahead of the acknowledged ones by at most one chunk |
| `TransportSafety.SuccessIsReceipt` | main/expansion_transport.c:622-628 | a chunk reported as sent has been received in its place and once, even if LOST is set |
| `TransportSafety.ChunksAreFull` | main/expansion_transport.c:615-620 | a chunk that is sent is the next 64 submitted bytes, or all that are left |
| `TransportStatus.StartIsFresh` | main/expansion_transport.c:572-582 | a granted start means that the Flipper is in a new session or has died since, that this session has received nothing, and that all it has sent is on its way unless LOST is set or the rx task is dropping the link |
| `TransportStatus.StopIsFinal` | main/expansion_transport.c:593-604 | if LOST was clear, or every chunk sent had been acknowledged, when end_rpc armed its request, a granted stop means that the Flipper has left its session and no request, status or data is on the wire, even if LOST has been set since |
| `TransportStatus.NoStaleSuccess` | main/expansion_transport.c:205-232 | success with status None means the rx task recorded a None between this call's arming and its reading, with no other call in between |
| `TransportStatus.SuccessIsDecodedInside` | main/expansion_transport.c:259-268 | and it decoded that None in the same interval, except for a start or stop request armed with LOST set while the rx task holds a None |
| `TransportReceive.ReceiveConservation` | main/expansion_transport.c:269-292 | within a session: enqueued is delivered plus buffered; delivered, enqueued and sent are prefixes in that order, all of this session; acknowledged lags enqueued by at most one frame; nothing is missing while the link holds |
| `TransportReceive.BufferBounds` | main/expansion_transport.c:271-277 | the buffer never exceeds 8192 bytes, and only a session has a writer |
| `TransportReceive.StoreNeverPartial` | main/expansion_transport.c:278-286 | in every run a store takes the whole frame |
| `TransportSafety.CleanHandover` | main/bridge_server.c:298-332 | once a client has left, on whatever path, the machine is in no RPC state, unless LOST is set |
| `TransportSafety.LostIsClearedWhenDown` | main/expansion_transport.c:447 | LOST is only cleared in Disconnected or Backoff, with the rx task stopped |
| `TransportSafety.TimeoutBacksOff` | main/expansion_state_machine.c:11-21 | the machine's counter never exceeds 1 and every timeout leads to Backoff |
| `TransportReceive.DataFrameFate` | main/expansion_transport.c:269-296 | in every run a data frame taken off the wire is stored, whole, exactly when the state at its check is RpcReady and it fits at the check after that; otherwise the rx task drops the link |
| `TransportReceive.StatusFrameFate` | main/expansion_transport.c:257-268 | in every run a status taken off the wire is recorded for the call that is awaiting one when the rx task looks, and drops the link if none is |
| `TransportReceive.DroppedLinkStaysClosed` | main/expansion_transport.c:293-300 | once it does, it takes no frame any more and can only end with LOST set, until the supervisor clears LOST for a new attempt |
| `TransportReceive.WatchedLinkIsServed` | main/expansion_transport.c:459-475 | while a link is up, either its rx task runs or LOST is set, whatever ended that task or kept it from being created |
| `TransportStreams.SessionStreams` | main/expansion_transport.c:609-632 | from the opening of a session on: the UART output of all tasks decodes to exactly the frames put there; acknowledged, received, written, submitted and raw bytes are nested prefixes with at most one chunk between the first and the third; whenever the proxy is between two calls everything it took is acknowledged |
| `TransportUart.UartCarriesRequests` | main/expansion_transport.c:572-632 | since the latest pulse the bytes all tasks put on the UART decode to whole frames; the requests among them, read as Control 0 for a start, Control 1 for a stop, Data and BaudRate, are in order exactly those the Flipper has taken and then those on their way; the statuses among them are exactly 0 for data taken in and 1 for data without room or a malformed handshake answer |
| `TransportUart.FlipperActsOnFrames` | main/expansion_transport.c:564-607 | whatever the Flipper takes is the next such frame of the decoded UART output; its session opens exactly when it accepts Control 0, ends exactly when it accepts Control 1, and receives exactly the Data it accepts |
| `TransportUart.OneNonePerFrame` | main/expansion_transport.c:278-292 | since the opening of a session one status None is put out for each data frame whose bytes are acknowledged, and these bytes are the front of what is stored, all but at most one frame |
| `TransportWitness.LateStatusEndsTheWrongCall` | main/expansion_transport.c:587-607 | a run in which, LOST set, end_rpc succeeds while the Flipper's session is open |
| `TransportWitness.StatusCanBeDecodedBefore` | main/expansion_transport.c:205-232 | a run in which, LOST set, end_rpc succeeds on a None decoded before it armed its request, and none is decoded inside the call |
| `TransportWitness.DataCanOvertakeStarted` | main/expansion_transport.c:293-296 | a run in which the rx task holds data in StartingRpc with LOST clear |
| `TransportWitness.SessionsAreReachable` | main/rpc_proxy.c:94-110 | a run in which a client proxies over an intact link |
| `FrameStreams.WholeFramesAreHeard` | main/expansion_protocol.c:24-159 | the decoder makes of UART output made of whole frames exactly those frames, with nothing left over |
| `RpcProxy.Uplink.Request` | main/expansion_transport.c:205-232 | one Data request: the other tasks' frames and then, if it is written, exactly its frame are added to the UART output; success exactly when it is acknowledged with None |
| `RpcProxy.Uplink.SendRpc` | main/expansion_transport.c:609-632 | succeeds exactly when the session runs and every request it makes is acknowledged; it then makes one request per chunk of 64 bytes and puts out exactly those; a failure comes with the first chunk not acknowledged, with exactly the chunks before it acknowledged and that one ahead if it was written; without a session nothing is sent |
| `RpcProxy.Uplink.Forward` | main/rpc_proxy.c:94-110 | either all pieces taken are acknowledged, with exact counts of calls and requests, and it ends because there are no more or the writer gave up; or it stops in the last piece at the first call without a session or the first chunk not acknowledged, with exactly the pieces and chunks before that acknowledged and that chunk ahead if it was written; it succeeds exactly in the first case, when the writer or a hang-up ends it |
| `RpcProxy.Uplink.RelayedExactly` | main/rpc_proxy.c:94-110 | everything handed over is acknowledged exactly when the calls for its own pieces find the session running and the requests for its own chunks are acknowledged, whatever becomes of later ones |
| `RpcProxy.WriterTask` | main/rpc_proxy.c:40-62 | for any results of receive_rpc and any sockets: the client is sent exactly what the specification says, piece by piece through the write loop, until a write fails, the session is over or the writer is stopped |
| `RpcProxy.ReturnExactly` | main/rpc_proxy.c:40-62 | what the client is sent is every piece before the first lost session or failed write, then what that write takes; the writer is still going exactly when there is none, however often it waited in vain |
| `RpcProxy.ReturnIsPrefix` | main/rpc_proxy.c:40-62 | what the client is sent is a prefix of the pieces received, and all of them while the writer keeps going |
| `EndToEnd.RawStream` | main/bridge_server.c:298-303 | in raw mode the TCP stream is the requests handled, the last of them BeginRpcProxy, followed by the raw bytes |
| `EndToEnd.Proxy` | main/rpc_proxy.c:64-128 | what the Flipper decodes is exactly the frames the proxy put out, whose data is a prefix of the raw bytes and at most one chunk ahead of the acknowledged ones; how many calls and requests are made, and how far they get, is as for `Forward`; without a running session or a writer task nothing is sent |
| `EndToEnd.ServeConnection` | main/bridge_server.c:250-332 | whatever the segmentation and the link, the data the Flipper decodes is a prefix of exactly the bytes after the accepted BeginRpcProxy request; result and extent are decided by the connection's own calls and requests, the writer, the hang-up and the end of the session, down to the first one that fails; before that request, or without a running session or a writer task, nothing reaches the UART |
| `EndToEnd.HealthyDeliversAll` | main/rpc_proxy.c:94-110 | if the calls for the raw pieces find the session running, the requests for their chunks are acknowledged and the writer keeps going meanwhile, all raw bytes are put out with exactly one request per chunk, whatever becomes of the link later |
| `EndToEnd.ServeHealthyConnection` | main/bridge_server.c:250-332 | on a link that is healthy for as long as this connection needs it, the Flipper decodes exactly its raw bytes; it succeeds exactly when the writer or a hang-up ends it and the session can be ended |
| `EndToEnd.RawBytesReachFlipper` | main/rpc_proxy.c:94-110 | for every run of the transport with any connections as its clients: a session belongs to the connection claimed last, the UART output since its opening decodes to whole frames whose data is a prefix of exactly the bytes after that connection's BeginRpcProxy, the Flipper has received a prefix of that data, the acknowledged bytes are behind by at most one chunk, and when the proxy has used up its input all of them have been received |
| `TransportReplies.SessionReplies` | main/expansion_transport.c:634-653 | since the opening of a session the writer task was handed exactly the bytes that count as delivered, which are a prefix of what the Flipper sent in it |
| `EndToEnd.RepliesReachClient` | main/rpc_proxy.c:40-62 | in the other direction, for every such run: the client of a raw connection is sent one response per request, in order, and then a prefix of what the Flipper sent in the session: all that the writer was handed if no write has failed and the session lasts, else everything before the result that stopped it and what its write took |
| `BridgeClientTool.SameLayout` | tools/bridge_client.py:42-45 | the tool's packed header and payload are byte for byte the bridge's encoding |
| `BridgeClientTool.SameMaterial` | tools/bridge_client.py:62-69 | from its own context, version, nonce and the challenge, the tool hashes the same bytes as the bridge |
| `BridgeClientTool.Connection.ReceiveExact` | tools/bridge_client.py:32-39 | returns exactly the next bytes however they are fragmented, and fails exactly when too few arrive, with all of those read |
| `BridgeClientTool.Connection.SendMessage` | tools/bridge_client.py:42-45 | sends the bridge's encoding of the request, or refuses a payload over 512 bytes |
| `BridgeClientTool.Connection.ReceiveMessage` | tools/bridge_client.py:48-59 | for every input and fragmentation, result and bytes read are those of the specified reading |
| `BridgeClientTool.ReadingOfParsed` | tools/bridge_client.py:48-59 | against the bridge's parser, for every input: where that finds a message, the reading accepts exactly the success response to this request and takes exactly its bytes; where it waits, the reading fails; of what it refuses, the reading accepts exactly odd flags above one and payloads over 512 bytes |
| `BridgeClientTool.BeginAnswered` | main/bridge_server.c:200-248 | the three requests draw exactly three success responses and raw mode with the following bytes |
| `BridgeClientTool.Authenticate` | tools/bridge_client.py:62-71 | against a bridge that answers, the tool authenticates with exactly its two messages |
| `BridgeClientTool.RunRpc` | tools/bridge_client.py:97-103 | then begins the proxy and sends the request bytes as they are |
| `BridgeClientTool.HonestClientGetsThrough` | tools/bridge_client.py:62-103 | same secret, ready link, any fragmentation: the tool gets through with three success responses, and the bridge hands over exactly the request |

## Left out

- TransportStatus.StopIsFinal: only if LOST was clear or every chunk acknowledged when the request was armed; otherwise it can fail, see `TransportWitness.LateStatusEndsTheWrongCall`.
- TransportSafety.StopAndWaitHolds: compares the streams from the start of a session until a start request of the next one goes out; after that the Flipper's record belongs to the next session.
- TransportStatus.SuccessIsDecodedInside: not for a start or stop request armed with LOST set and a None in the rx task's hands; there it is false, see `TransportWitness.StatusCanBeDecodedBefore`.
- TransportReceive.ReceiveConservation: speaks of the time from RpcStarted until the client has left its session.
- The Data frame is a sequence of its exact length; the zeroed tail of its C array is not modelled.
- Null arguments, allocation of the transport and frame types outside the five of the protocol.
- A partly written frame: a frame goes out whole or not at all, and what is lost takes everything behind it along.
- `request_mutex`, `tx_mutex` and `state_mutex` time-outs: only one client calls at a time, and each protected region is one step.
- Forced deletion of tasks in `stop_io_tasks` and `expansion_transport_destroy`, and the STOP bit: only the cooperative exit of the rx and heartbeat tasks is modelled.
- Heartbeat cadence, acknowledgement time-outs and socket time-outs: they are steps that may be taken at any time. The back-off delays are the only timing kept.
- The moment at which the UART changes its rate after Ready becomes visible.
- Interrupted and idle receive calls in management mode, and the idle time-out: a chunk list that ends stands for all of them.
- The accept loop's own socket calls and delays; the transport's model has one client slot, which `ClientSlot` justifies.
- HMAC-SHA256 and the random source: a function and arbitrary values.
- The text of the info and status responses: an arbitrary payload, refused when it would not fit.
- Metrics, logging and the activity LED.
- Pairing console, credential storage, Wi-Fi, TinyUSB and the packaging script.
- The client tool's argument handling, timing report and the reading of the RPC response.
