/** The transport's tasks as one step system. Every mutex-protected region, semaphore operation,
    event-bit operation, buffer operation and frame transfer is one atomic step; any task that can
    move may move next. The state holds the variables of the source and, below them, history
    variables that no step ever tests. */
module ExpansionTransport {
  import opened Bytes
  import opened ExpansionStateMachine
  import P = ExpansionProtocol
  import BridgeIo

  const BUFFER_BYTES := 8192
  const READ_BYTES := 1024

  /** What send_wait_status sends: every request is answered by at most one status. */
  datatype Request = StartRpc | StopRpc | SendData(chunk: seq<Byte>)

  /** Bridge to Flipper: the frames the Flipper answers. Heartbeats and acknowledgements are not
      answered, so they are not queued here. */
  datatype Up = AskBaud | Ask(request: Request)

  /** Flipper to bridge. Heartbeats change nothing in the bridge. */
  datatype Down = Status(code: Byte) | Data(bytes: seq<Byte>)

  /** The Flipper's side of the link. */
  datatype Phase = Handshake | Idle | InRpc | Dead

  /** Program counter of the client task. */
  datatype Client =
    | Free                                      // the client slot is free
    | Managing                                  // a client is connected, no RPC call in progress
    | Beginning                                 // the state was Ready; BeginRpc comes next
    | Draining(request: Request)                // send_wait_status: drain old semaphore tokens
    | Arming(request: Request)                  //   set awaiting_status
    | Sending(request: Request)                 //   write the frame
    | Waiting(request: Request)                 //   wait for the semaphore
    | Collecting(request: Request, ok: bool)    //   clear awaiting_status, read last_status
    | Starting                                  // start acknowledged; RpcStarted comes next
    | Failing(request: Request)                 // the call failed; LOST is set next
    | Begun                                     // RPC session running, proxy not yet
    | Proxying                                  // proxy loop, between send_rpc calls
    | Submitting                                // inside send_rpc, between two chunks
    | Joining                                   // waiting for the writer task
    | Checking                                  // end_rpc: first state read
    | Checking2                                 //   second state read
    | Ending                                    //   EndRpc comes next
    | Stopping                                  //   stop acknowledged; RpcStopped comes next
    | Clearing                                  //   buffer reset comes next
    | Leaving                                   // the slot is released next

  /** Program counter of the rx task. */
  datatype Rx =
    | Off | Top | Reading
    | GotStatus(code: Byte) | Giving
    | GotData(bytes: seq<Byte>) | Checked(bytes: seq<Byte>) | Storing(bytes: seq<Byte>) | Acking(bytes: seq<Byte>)
    | Dropping

  /** Program counter of the supervisor task. */
  datatype Supervisor =
    | ClearBits | InitMachine | ApplyStart | Pulse
    | AwaitHeartbeat | AskRate | AwaitRate | RateAccepted
    | SetUp | ResetBuffer | Spawn | Watch | Join
    | Expire                                    // link lost: apply Timeout
    | Abort                                     // attempt failed: apply Timeout

  datatype Sys = Sys(
    machine: Machine, lost: bool, awaiting: bool, last: Byte, token: bool,
    client: Client, raw: Option<seq<seq<Byte>>>, pieces: seq<seq<Byte>>, rest: seq<Byte>, writer: bool, rx: Rx, sup: Supervisor,
    up: seq<Up>, down: seq<Down>, phase: Phase, buffer: seq<Byte>,
    // history
    epoch: nat,                // detection pulses so far
    clientEpoch: nat,          // the epoch of the client's latest accepted BeginRpc
    recorded: Option<Byte>,    // the status the rx task recorded in the current request window
    settled: bool,             // it did so after the request was sent
    clean: bool,               // LOST was clear or no chunk unacknowledged when it was opened
    startSent: bool,           // a start request was sent in this epoch
    latest: bool,              // a session was started and no start request was sent since
    source: seq<Byte>,         // the raw bytes of the connection that opened the latest session
    submitted: seq<Byte>,      // bytes accepted by send_rpc in that session
    wired: seq<Byte>,          // of these, the ones that went out on the UART
    acked: seq<Byte>,          // of these, the acknowledged ones
    tried: seq<Byte>,          // the latest chunk sent and not acknowledged
    got: seq<Byte>,            // bytes the Flipper's latest RPC session received
    offered: seq<Byte>,        // bytes the Flipper's latest RPC session sent
    enqueued: seq<Byte>,       // bytes put into the buffer in the current session
    credited: seq<Byte>,       // of these, the ones acknowledged to the Flipper
    delivered: seq<Byte>,      // bytes handed to the writer task in the current session
    purged: bool)              // the supervisor reset the buffer under the current session

  const BOOT := Sys(
    INITIAL, false, false, P.ERROR_NONE, false, Free, None, [], [], false, Off, ClearBits, [], [], Dead, [],
    0, 0, None, false, false, false, false, [], [], [], [], [], [], [], [], [], [], false)

  function Apply(s: Sys, e: Event): Outcome {
    Step(s.machine, e)
  }

  // ----- the client task -----

  /** A client connects. If its connection goes raw, `raw` is what the proxy gets of it: the rest of
      the buffer received last, then the chunks not yet received. */
  function Claim(s: Sys, raw: Option<seq<seq<Byte>>>): Sys { s.(client := Managing, raw := raw) }

  /** handle_authenticated_command and begin_rpc read the state first. */
  function CheckReady(s: Sys): Sys {
    s.(client := if s.machine.state == Ready then Beginning else s.client)
  }

  function ApplyBegin(s: Sys): Sys {
    var o := Apply(s, BeginRpc);
    s.(machine := o.machine, client := if o.accepted then Draining(StartRpc) else Managing,
       clientEpoch := if o.accepted then s.epoch else s.clientEpoch)
  }

  function DrainToken(s: Sys): Sys { s.(token := false) }

  function Drained(s: Sys): Sys
    requires s.client.Draining?
  {
    s.(client := Arming(s.client.request))
  }

  function Arm(s: Sys): Sys
    requires s.client.Arming?
  {
    s.(client := Sending(s.client.request), awaiting := true, last := P.ERROR_UNKNOWN, recorded := None,
       clean := !s.lost || s.tried == [])
  }

  /** send_frame may report an error although the frame went out. */
  function Send(s: Sys, written: bool, ok: bool): Sys
    requires s.client.Sending?
  {
    var r := s.client.request;
    s.(client := if ok then Waiting(r) else Collecting(r, false),
       up := if written then s.up + [Ask(r)] else s.up,
       startSent := s.startSent || (written && r == StartRpc),
       latest := s.latest && !(written && r == StartRpc),
       tried := if r.SendData? then r.chunk else s.tried,
       wired := if written && r.SendData? then s.wired + r.chunk else s.wired,
       settled := false)
  }

  function TakeToken(s: Sys): Sys
    requires s.client.Waiting?
  {
    s.(client := Collecting(s.client.request, true), token := false)
  }

  function GiveUp(s: Sys): Sys
    requires s.client.Waiting?
  {
    s.(client := Collecting(s.client.request, false))
  }

  predicate Succeeded(s: Sys)
    requires s.client.Collecting?
  {
    s.client.ok && s.last == P.ERROR_NONE
  }

  function Collect(s: Sys): Sys
    requires s.client.Collecting?
  {
    var r := s.client.request;
    var carried := Succeeded(s) && r.SendData?;
    s.(awaiting := false,
       client := if !Succeeded(s) then Failing(r)
                 else match r
                      case StartRpc => Starting
                      case StopRpc => Stopping
                      case SendData(_) => Submitting,
       acked := if carried then s.acked + r.chunk else s.acked,
       tried := if carried then [] else s.tried,
       rest := if !carried then s.rest else if |r.chunk| <= |s.rest| then s.rest[|r.chunk|..] else [])
  }

  function RawBytes(raw: Option<seq<seq<Byte>>>): seq<Byte> {
    if raw.Some? then BridgeIo.Flatten(raw.value) else []
  }

  /** The session record starts afresh when the session does. */
  function ApplyStarted(s: Sys): Sys {
    var o := Apply(s, RpcStarted);
    s.(machine := o.machine, client := if o.accepted then Begun else Failing(StartRpc),
       rest := if o.accepted then [] else s.rest,
       latest := s.latest || o.accepted,
       source := if o.accepted then RawBytes(s.raw) else s.source,
       wired := if o.accepted then [] else s.wired,
       submitted := if o.accepted then [] else s.submitted,
       acked := if o.accepted then [] else s.acked,
       tried := if o.accepted then [] else s.tried,
       enqueued := if o.accepted then [] else s.enqueued,
       credited := if o.accepted then [] else s.credited,
       delivered := if o.accepted then [] else s.delivered,
       purged := s.purged && !o.accepted)
  }

  function Fail(s: Sys): Sys
    requires s.client.Failing?
  {
    s.(lost := true,
       client := match s.client.request
                 case StartRpc => Managing
                 case StopRpc => Leaving
                 case SendData(_) => Joining)
  }

  /** Response or allocation failure: end_rpc without a proxy. */
  function SkipProxy(s: Sys): Sys { s.(client := Checking) }

  function RunProxy(s: Sys): Sys
    requires s.raw.Some?
  {
    var running := s.machine.state == RpcReady;
    s.(client := if running then Proxying else Leaving, pieces := s.raw.value, writer := s.writer || running)
  }

  /** The proxy's next piece of input, if there is any in it, goes to send_rpc, which checks the
      state once, before its first chunk. */
  function Submit(s: Sys): Sys
    requires s.pieces != []
  {
    var bytes := s.pieces[0];
    var accepted := bytes != [] && s.machine.state == RpcReady;
    s.(client := if bytes == [] then s.client else if accepted then Submitting else Joining,
       pieces := s.pieces[1..],
       rest := if accepted then bytes else s.rest,
       submitted := if accepted then s.submitted + bytes else s.submitted)
  }

  function NextChunk(s: Sys): Sys {
    s.(client := if s.rest == [] then Proxying
                 else Draining(SendData(if |s.rest| < P.MAX_DATA then s.rest else s.rest[..P.MAX_DATA])))
  }

  function LeaveProxy(s: Sys): Sys { s.(client := Joining) }

  function Joined(s: Sys): Sys { s.(client := Checking) }

  function CheckEnded(s: Sys): Sys {
    s.(client := if s.machine.state == Ready then Leaving else Checking2)
  }

  function CheckRunning(s: Sys): Sys {
    s.(client := if s.machine.state == RpcReady then Ending else Leaving)
  }

  function ApplyEnd(s: Sys): Sys {
    var o := Apply(s, EndRpc);
    s.(machine := o.machine, client := if o.accepted then Draining(StopRpc) else Leaving)
  }

  function ApplyStopped(s: Sys): Sys {
    var o := Apply(s, RpcStopped);
    s.(machine := o.machine, client := if o.accepted then Clearing else Failing(StopRpc))
  }

  function ClearBuffer(s: Sys): Sys { s.(client := Leaving, buffer := []) }

  function Disconnect(s: Sys): Sys { s.(client := Leaving) }

  function Release(s: Sys): Sys { s.(client := Free) }

  // ----- the writer task -----

  function WriterTake(s: Sys, n: nat): Sys
    requires n <= |s.buffer|
  {
    s.(buffer := s.buffer[n..], delivered := s.delivered + s.buffer[..n])
  }

  function WriterExit(s: Sys): Sys { s.(writer := false) }

  // ----- the rx task -----

  function RxLook(s: Sys): Sys {
    s.(rx := if s.lost then Off else Reading)
  }

  function RxIdle(s: Sys): Sys { s.(rx := Top) }

  function RxError(s: Sys): Sys { s.(rx := Dropping) }

  function RxFrame(s: Sys): Sys
    requires s.down != []
  {
    s.(down := s.down[1..], rx := match s.down[0] case Status(c) => GotStatus(c) case Data(b) => GotData(b))
  }

  function RxRecord(s: Sys): Sys
    requires s.rx.GotStatus?
  {
    s.(rx := if s.awaiting then Giving else Dropping,
       last := if s.awaiting then s.rx.code else s.last,
       recorded := if s.awaiting then Some(s.rx.code) else s.recorded,
       settled := s.settled || (s.awaiting && !s.client.Sending?))
  }

  function RxGive(s: Sys): Sys { s.(rx := Top, token := true) }

  function RxCheckState(s: Sys): Sys
    requires s.rx.GotData?
  {
    s.(rx := if s.machine.state == RpcReady then Checked(s.rx.bytes) else Dropping)
  }

  function RxCheckRoom(s: Sys): Sys
    requires s.rx.Checked?
  {
    s.(rx := if BridgeIo.BufferCanAccept(|s.buffer|, |s.rx.bytes|, BUFFER_BYTES) then Storing(s.rx.bytes) else Dropping)
  }

  /** The stream buffer takes what fits. */
  function RxStore(s: Sys): Sys
    requires s.rx.Storing?
  {
    var b := s.rx.bytes;
    var room: int := BUFFER_BYTES - |s.buffer|;
    var n := if room < 0 then 0 else if room < |b| then room else |b|;
    s.(buffer := s.buffer + b[..n], enqueued := s.enqueued + b[..n], rx := if n == |b| then Acking(b) else Dropping)
  }

  /** send_status, like send_frame, may report an error although the frame went out. */
  function RxAck(s: Sys, written: bool, ok: bool): Sys
    requires s.rx.Acking?
  {
    s.(rx := if ok then Top else Dropping, credited := if written then s.credited + s.rx.bytes else s.credited)
  }

  function RxDrop(s: Sys): Sys { s.(rx := Off, lost := true) }

  /** The heartbeat task gives the link up. */
  function LoseLink(s: Sys): Sys { s.(lost := true) }

  // ----- the supervisor task -----

  function SupClear(s: Sys): Sys { s.(lost := false, sup := InitMachine) }

  function SupInit(s: Sys): Sys { s.(machine := INITIAL, sup := ApplyStart) }

  function SupStart(s: Sys): Sys {
    var o := Apply(s, Start);
    s.(machine := o.machine, sup := if o.accepted then Pulse else Abort)
  }

  /** The detection pulse opens a new epoch: the Flipper drops its old session, and nothing sent
      before is delivered after. */
  function SupPulse(s: Sys, answered: bool): Sys {
    s.(epoch := s.epoch + 1, up := [], down := [], phase := if answered then Handshake else Dead,
       startSent := false, sup := AwaitHeartbeat)
  }

  function SupAbort(s: Sys): Sys { s.(sup := Abort) }

  function SupHeartbeat(s: Sys): Sys {
    var o := Apply(s, HeartbeatReceived);
    s.(machine := o.machine, sup := if o.accepted then AskRate else Abort)
  }

  function SupAskBaud(s: Sys): Sys { s.(up := s.up + [AskBaud], sup := AwaitRate) }

  /** Whatever arrives first is taken as the answer; `more` tells whether a lower rate is left. */
  function SupBaudReply(s: Sys, more: bool): Sys
    requires s.down != []
  {
    s.(down := s.down[1..],
       sup := if s.down[0] == Status(P.ERROR_NONE) then RateAccepted
              else if s.down[0] == Status(P.ERROR_BAUD) && more then AskRate
              else Abort)
  }

  function SupAccepted(s: Sys): Sys {
    var o := Apply(s, BaudAccepted);
    s.(machine := o.machine, sup := if o.accepted then SetUp else Abort)
  }

  function SupSetUp(s: Sys): Sys { s.(sup := ResetBuffer) }

  function SupReset(s: Sys): Sys { s.(buffer := [], purged := true, sup := Spawn) }

  /** The heartbeat task is only created after the rx task. */
  function SupSpawn(s: Sys, rxCreated: bool, heartbeatCreated: bool): Sys {
    s.(rx := if rxCreated then Top else Off, lost := s.lost || !rxCreated || !heartbeatCreated, sup := Watch)
  }

  function SupSeesLoss(s: Sys): Sys { s.(sup := Join) }

  function SupJoined(s: Sys): Sys { s.(sup := Expire) }

  function SupTimeout(s: Sys): Sys { s.(machine := Apply(s, Timeout).machine, sup := ClearBits) }

  // ----- the Flipper -----

  /** Which requests a conforming peer may act on, phase by phase. */
  predicate MayAccept(phase: Phase, f: Up) {
    match f
    case AskBaud => phase == Handshake
    case Ask(StartRpc) => phase == Idle
    case Ask(StopRpc) => phase == InRpc
    case Ask(SendData(_)) => phase == InRpc
  }

  /** At most one status per request; None only when it acts on the request, BaudRate only about a rate. */
  predicate MayReply(f: Up, accept: bool, reply: Option<Byte>) {
    && (reply == Some(P.ERROR_NONE) ==> accept)
    && (reply == Some(P.ERROR_BAUD) ==> f == AskBaud)
    && (reply.Some? ==> reply.value <= P.ERROR_BAUD)
  }

  function PeerTake(s: Sys, accept: bool, reply: Option<Byte>): Sys
    requires s.up != []
  {
    var f := s.up[0];
    var opens := accept && f == Ask(StartRpc);
    var receives := accept && f.Ask? && f.request.SendData?;
    s.(up := s.up[1..],
       down := if reply.Some? then s.down + [Status(reply.value)] else s.down,
       phase := if opens then InRpc else if accept && !receives then Idle else s.phase,
       got := if opens then [] else if receives then s.got + f.request.chunk else s.got,
       offered := if opens then [] else s.offered)
  }

  function PeerSend(s: Sys, bytes: seq<Byte>): Sys {
    s.(down := s.down + [Data(bytes)], offered := s.offered + bytes)
  }

  function PeerDie(s: Sys): Sys { s.(phase := Dead) }

  // ----- the steps -----

  /** Of the client and writer tasks. */
  datatype ClientMove =
    | AClaim(raw: Option<seq<seq<Byte>>>) | ACheckReady | AApplyBegin | ADrainToken | ADrained | AArm | ASend(written: bool, ok: bool)
    | ATakeToken | AGiveUp | ACollect | AApplyStarted | AFail | ASkipProxy | ARunProxy
    | ASubmit | ANextChunk | ALeaveProxy | AJoined | ACheckEnded | ACheckRunning | AApplyEnd
    | AApplyStopped | AClearBuffer | ADisconnect | ARelease | AWriterTake(n: nat) | AWriterExit

  /** Of the rx and heartbeat tasks. */
  datatype RxMove =
    | ARxLook | ARxIdle | ARxError | ARxFrame | ARxRecord | ARxGive | ARxCheckState | ARxCheckRoom(told: bool) | ARxStore
    | ARxAck(written: bool, ok: bool) | ARxDrop | ALoseLink
    | AHeartbeat

  /** Of the supervisor task. */
  datatype SupervisorMove =
    | ASupClear | ASupInit | ASupStart | ASupPulse(answered: bool) | ASupAbort(malformed: bool) | ASupHeartbeat
    | ASupAskBaud(rate: U32)
    | ASupBaudReply(more: bool) | ASupAccepted | ASupSetUp | ASupReset
    | ASupSpawn(rxCreated: bool, heartbeatCreated: bool) | ASupSeesLoss | ASupJoined | ASupTimeout

  /** Of the Flipper. */
  datatype PeerMove =
    | APeerTake(accept: bool, reply: Option<Byte>) | APeerSend(sent: seq<Byte>) | APeerDie

  datatype Move =
    | OfClient(client: ClientMove) | OfRx(rx: RxMove) | OfSupervisor(supervisor: SupervisorMove) | OfPeer(peer: PeerMove)

  predicate ClientEnabled(s: Sys, a: ClientMove) {
    match a
    case AClaim(_) => s.client == Free
    case ACheckReady => s.client == Managing
    case AApplyBegin => s.client == Beginning
    case ADrainToken => s.client.Draining? && s.token
    case ADrained => s.client.Draining? && !s.token
    case AArm => s.client.Arming?
    case ASend(written, ok) => s.client.Sending? && (ok ==> written)
    case ATakeToken => s.client.Waiting? && s.token
    case AGiveUp => s.client.Waiting?
    case ACollect => s.client.Collecting?
    case AApplyStarted => s.client.Starting?
    case AFail => s.client.Failing?
    case ASkipProxy => s.client == Begun
    case ARunProxy => s.client == Begun && s.raw.Some?
    case ASubmit => s.client == Proxying && s.pieces != []
    case ANextChunk => s.client == Submitting
    case ALeaveProxy => s.client == Proxying
    case AJoined => s.client == Joining && !s.writer
    case ACheckEnded => s.client == Checking
    case ACheckRunning => s.client == Checking2
    case AApplyEnd => s.client == Ending
    case AApplyStopped => s.client.Stopping?
    case AClearBuffer => s.client == Clearing
    case ADisconnect => s.client == Managing
    case ARelease => s.client == Leaving
    case AWriterTake(n) => s.writer && 0 < n <= |s.buffer| && n <= READ_BYTES
    case AWriterExit => s.writer
  }

  predicate RxEnabled(s: Sys, a: RxMove) {
    match a
    case ARxLook => s.rx == Top
    case ARxIdle => s.rx.Reading?
    case ARxError => s.rx.Reading?
    case ARxFrame => s.rx.Reading? && s.down != []
    case ARxRecord => s.rx.GotStatus?
    case ARxGive => s.rx == Giving
    case ARxCheckState => s.rx.GotData?
    case ARxCheckRoom(_) => s.rx.Checked?
    case ARxStore => s.rx.Storing?
    case ARxAck(written, ok) => s.rx.Acking? && (ok ==> written)
    case ARxDrop => s.rx == Dropping
    case ALoseLink => s.sup.Watch? || s.sup.Join?
    case AHeartbeat => s.sup.Watch? || s.sup.Join?
  }

  predicate SupervisorEnabled(s: Sys, a: SupervisorMove) {
    match a
    case ASupClear => s.sup == ClearBits
    case ASupInit => s.sup == InitMachine
    case ASupStart => s.sup == ApplyStart
    case ASupPulse(_) => s.sup == Pulse
    case ASupAbort(_) => (s.sup.Pulse? || s.sup.AwaitHeartbeat? || s.sup.AskRate? || s.sup.AwaitRate? || s.sup.SetUp?)
    case ASupHeartbeat => s.sup == AwaitHeartbeat
    case ASupAskBaud(_) => s.sup == AskRate
    case ASupBaudReply(_) => s.sup.AwaitRate? && s.down != []
    case ASupAccepted => s.sup == RateAccepted
    case ASupSetUp => s.sup == SetUp
    case ASupReset => s.sup == ResetBuffer
    case ASupSpawn(_, _) => s.sup == Spawn
    case ASupSeesLoss => s.sup == Watch && s.lost
    case ASupJoined => s.sup == Join && s.rx == Off
    case ASupTimeout => (s.sup.Expire? || s.sup.Abort?)
  }

  predicate PeerEnabled(s: Sys, a: PeerMove) {
    match a
    case APeerTake(accept, reply) => s.up != [] && (accept ==> MayAccept(s.phase, s.up[0])) && MayReply(s.up[0], accept, reply)
    case APeerSend(sent) => s.phase == InRpc && |sent| <= P.MAX_DATA
    case APeerDie => true
  }

  predicate Enabled(s: Sys, a: Move) {
    match a
    case OfClient(c) => ClientEnabled(s, c)
    case OfRx(r) => RxEnabled(s, r)
    case OfSupervisor(v) => SupervisorEnabled(s, v)
    case OfPeer(p) => PeerEnabled(s, p)
  }

  function ClientNext(s: Sys, a: ClientMove): Sys
    requires ClientEnabled(s, a)
  {
    match a
    case AClaim(raw) => Claim(s, raw)
    case ACheckReady => CheckReady(s)
    case AApplyBegin => ApplyBegin(s)
    case ADrainToken => DrainToken(s)
    case ADrained => Drained(s)
    case AArm => Arm(s)
    case ASend(written, ok) => Send(s, written, ok)
    case ATakeToken => TakeToken(s)
    case AGiveUp => GiveUp(s)
    case ACollect => Collect(s)
    case AApplyStarted => ApplyStarted(s)
    case AFail => Fail(s)
    case ASkipProxy => SkipProxy(s)
    case ARunProxy => RunProxy(s)
    case ASubmit => Submit(s)
    case ANextChunk => NextChunk(s)
    case ALeaveProxy => LeaveProxy(s)
    case AJoined => Joined(s)
    case ACheckEnded => CheckEnded(s)
    case ACheckRunning => CheckRunning(s)
    case AApplyEnd => ApplyEnd(s)
    case AApplyStopped => ApplyStopped(s)
    case AClearBuffer => ClearBuffer(s)
    case ADisconnect => Disconnect(s)
    case ARelease => Release(s)
    case AWriterTake(n) => WriterTake(s, n)
    case AWriterExit => WriterExit(s)
  }

  function RxNext(s: Sys, a: RxMove): Sys
    requires RxEnabled(s, a)
  {
    match a
    case ARxLook => RxLook(s)
    case ARxIdle => RxIdle(s)
    case ARxError => RxError(s)
    case ARxFrame => RxFrame(s)
    case ARxRecord => RxRecord(s)
    case ARxGive => RxGive(s)
    case ARxCheckState => RxCheckState(s)
    case ARxCheckRoom(_) => RxCheckRoom(s)
    case ARxStore => RxStore(s)
    case ARxAck(written, ok) => RxAck(s, written, ok)
    case ARxDrop => RxDrop(s)
    case ALoseLink => LoseLink(s)
    case AHeartbeat => s
  }

  function SupervisorNext(s: Sys, a: SupervisorMove): Sys
    requires SupervisorEnabled(s, a)
  {
    match a
    case ASupClear => SupClear(s)
    case ASupInit => SupInit(s)
    case ASupStart => SupStart(s)
    case ASupPulse(answered) => SupPulse(s, answered)
    case ASupAbort(_) => SupAbort(s)
    case ASupHeartbeat => SupHeartbeat(s)
    case ASupAskBaud(_) => SupAskBaud(s)
    case ASupBaudReply(more) => SupBaudReply(s, more)
    case ASupAccepted => SupAccepted(s)
    case ASupSetUp => SupSetUp(s)
    case ASupReset => SupReset(s)
    case ASupSpawn(rxCreated, heartbeatCreated) => SupSpawn(s, rxCreated, heartbeatCreated)
    case ASupSeesLoss => SupSeesLoss(s)
    case ASupJoined => SupJoined(s)
    case ASupTimeout => SupTimeout(s)
  }

  function PeerNext(s: Sys, a: PeerMove): Sys
    requires PeerEnabled(s, a)
  {
    match a
    case APeerTake(accept, reply) => PeerTake(s, accept, reply)
    case APeerSend(sent) => PeerSend(s, sent)
    case APeerDie => PeerDie(s)
  }

  function Next(s: Sys, a: Move): Sys
    requires Enabled(s, a)
  {
    match a
    case OfClient(c) => ClientNext(s, c)
    case OfRx(r) => RxNext(s, r)
    case OfSupervisor(v) => SupervisorNext(s, v)
    case OfPeer(p) => PeerNext(s, p)
  }

  /** Move i is enabled and leads to the next state. */
  ghost predicate StepAt(states: seq<Sys>, moves: seq<Move>, i: nat)
    requires |states| == |moves| + 1 && i < |moves|
  {
    Enabled(states[i], moves[i]) && states[i + 1] == Next(states[i], moves[i])
  }

  /** A run from boot. */
  ghost predicate IsRun(states: seq<Sys>, moves: seq<Move>) {
    && |states| == |moves| + 1 && states[0] == BOOT
    && forall i: nat | i < |moves| :: StepAt(states, moves, i)
  }
}
