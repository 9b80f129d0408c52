/** What holds in every run of the transport, whatever the interleaving of its tasks, a conforming
    Flipper and a link that may be cut at any time. */
module TransportRuns {
  import opened Bytes
  import opened ExpansionStateMachine
  import opened ExpansionTransport
  import opened TransportInvariant
  import ClientSteps = TransportClientSteps
  import CallSteps = TransportCallSteps
  import RxSteps = TransportRxSteps
  import SupervisorSteps = TransportSupervisorSteps
  import PeerSteps = TransportPeerSteps
  import P = ExpansionProtocol

  /** The steps of send_wait_status, the state machine events and the writer's reads. */
  predicate InCall(a: ClientMove) {
    match a
    case AApplyBegin | AArm | ASend(_, _) | ACollect | AApplyStarted | AFail | AApplyEnd | AApplyStopped | AWriterTake(_) => true
    case _ => false
  }

  lemma CallStepKeeps(s: Sys, a: ClientMove)
    requires Inv(s) && ClientEnabled(s, a) && InCall(a)
    ensures Inv(ClientNext(s, a))
  {
    match a
    case AApplyBegin => CallSteps.ApplyBeginKeeps(s);
    case AArm => CallSteps.ArmKeeps(s);
    case ASend(written, ok) => CallSteps.SendKeeps(s, written, ok);
    case ACollect => CallSteps.CollectKeeps(s);
    case AApplyStarted => CallSteps.ApplyStartedKeeps(s);
    case AFail => CallSteps.FailKeeps(s);
    case AApplyEnd => CallSteps.ApplyEndKeeps(s);
    case AApplyStopped => CallSteps.ApplyStoppedKeeps(s);
    case AWriterTake(n) => CallSteps.WriterTakeKeeps(s, n);
  }

  /** The client's moves from its connection to the end of the proxy's sending. */
  predicate InProgress(a: ClientMove) {
    match a
    case AClaim(_) | ACheckReady | ADrainToken | ADrained | ATakeToken | AGiveUp | ASkipProxy | ARunProxy | ASubmit |
      ANextChunk => true
    case _ => false
  }

  lemma ProgressStepKeeps(s: Sys, a: ClientMove)
    requires Inv(s) && ClientEnabled(s, a) && InProgress(a)
    ensures Inv(ClientNext(s, a))
  {
    match a
    case AClaim(raw) => ClientSteps.ClaimKeeps(s, raw);
    case ACheckReady => ClientSteps.CheckReadyKeeps(s);
    case ADrainToken => ClientSteps.DrainTokenKeeps(s);
    case ADrained => ClientSteps.DrainedKeeps(s);
    case ATakeToken => ClientSteps.TakeTokenKeeps(s);
    case AGiveUp => ClientSteps.GiveUpKeeps(s);
    case ASkipProxy => ClientSteps.SkipProxyKeeps(s);
    case ARunProxy => ClientSteps.RunProxyKeeps(s);
    case ASubmit => ClientSteps.SubmitKeeps(s);
    case ANextChunk => ClientSteps.NextChunkKeeps(s);
  }

  lemma LeavingStepKeeps(s: Sys, a: ClientMove)
    requires Inv(s) && ClientEnabled(s, a) && !InCall(a) && !InProgress(a)
    ensures Inv(ClientNext(s, a))
  {
    match a
    case ALeaveProxy => ClientSteps.LeaveProxyKeeps(s);
    case AJoined => ClientSteps.JoinedKeeps(s);
    case ACheckEnded => ClientSteps.CheckEndedKeeps(s);
    case ACheckRunning => ClientSteps.CheckRunningKeeps(s);
    case AClearBuffer => ClientSteps.ClearBufferKeeps(s);
    case ADisconnect => ClientSteps.DisconnectKeeps(s);
    case ARelease => ClientSteps.ReleaseKeeps(s);
    case AWriterExit => ClientSteps.WriterExitKeeps(s);
  }

  lemma ClientStepKeeps(s: Sys, a: ClientMove)
    requires Inv(s) && ClientEnabled(s, a)
    ensures Inv(ClientNext(s, a))
  {
    if InCall(a) {
      CallStepKeeps(s, a);
    } else if InProgress(a) {
      ProgressStepKeeps(s, a);
    } else {
      LeavingStepKeeps(s, a);
    }
  }

  lemma RxStepKeeps(s: Sys, a: RxMove)
    requires Inv(s) && RxEnabled(s, a)
    ensures Inv(RxNext(s, a))
  {
    match a
    case ARxLook => RxSteps.RxLookKeeps(s);
    case ARxIdle => RxSteps.RxIdleKeeps(s);
    case ARxError => RxSteps.RxErrorKeeps(s);
    case ARxFrame => RxSteps.RxFrameKeeps(s);
    case ARxRecord => RxSteps.RxRecordKeeps(s);
    case ARxGive => RxSteps.RxGiveKeeps(s);
    case ARxCheckState => RxSteps.RxCheckStateKeeps(s);
    case ARxCheckRoom(_) => RxSteps.RxCheckRoomKeeps(s);
    case ARxStore => RxSteps.RxStoreKeeps(s);
    case ARxAck(written, ok) => RxSteps.RxAckKeeps(s, written, ok);
    case ARxDrop => RxSteps.RxDropKeeps(s);
    case ALoseLink => RxSteps.LoseLinkKeeps(s);
    case AHeartbeat =>
  }

  lemma SupervisorStepKeeps(s: Sys, a: SupervisorMove)
    requires Inv(s) && SupervisorEnabled(s, a)
    ensures Inv(SupervisorNext(s, a))
  {
    match a
    case ASupClear => SupervisorSteps.SupClearKeeps(s);
    case ASupInit => SupervisorSteps.SupInitKeeps(s);
    case ASupStart => SupervisorSteps.SupStartKeeps(s);
    case ASupPulse(answered) => SupervisorSteps.SupPulseKeeps(s, answered);
    case ASupAbort(_) => SupervisorSteps.SupAbortKeeps(s);
    case ASupHeartbeat => SupervisorSteps.SupHeartbeatKeeps(s);
    case ASupAskBaud(_) => SupervisorSteps.SupAskBaudKeeps(s);
    case ASupBaudReply(more) => SupervisorSteps.SupBaudReplyKeeps(s, more);
    case ASupAccepted => SupervisorSteps.SupAcceptedKeeps(s);
    case ASupSetUp => SupervisorSteps.SupSetUpKeeps(s);
    case ASupReset => SupervisorSteps.SupResetKeeps(s);
    case ASupSpawn(rxCreated, heartbeatCreated) => SupervisorSteps.SupSpawnKeeps(s, rxCreated, heartbeatCreated);
    case ASupSeesLoss => SupervisorSteps.SupSeesLossKeeps(s);
    case ASupJoined => SupervisorSteps.SupJoinedKeeps(s);
    case ASupTimeout => SupervisorSteps.SupTimeoutKeeps(s);
  }

  lemma PeerStepKeeps(s: Sys, a: PeerMove)
    requires Inv(s) && PeerEnabled(s, a)
    ensures Inv(PeerNext(s, a))
  {
    match a
    case APeerTake(accept, reply) => PeerSteps.PeerTakeKeeps(s, accept, reply);
    case APeerSend(sent) => PeerSteps.PeerSendKeeps(s, sent);
    case APeerDie => PeerSteps.PeerDieKeeps(s);
  }

  lemma StepKeeps(s: Sys, a: Move)
    requires Inv(s) && Enabled(s, a)
    ensures Inv(Next(s, a))
  {
    match a
    case OfClient(c) => ClientStepKeeps(s, c);
    case OfRx(r) => RxStepKeeps(s, r);
    case OfSupervisor(v) => SupervisorStepKeeps(s, v);
    case OfPeer(p) => PeerStepKeeps(s, p);
  }

  /** Every reachable state satisfies the invariant. */
  lemma {:induction false} Reachable(states: seq<Sys>, moves: seq<Move>, i: nat)
    requires IsRun(states, moves) && i < |states|
    ensures Inv(states[i])
  {
    if i == 0 {
      BootInv();
    } else {
      Reachable(states, moves, i - 1);
      assert StepAt(states, moves, i - 1);
      StepKeeps(states[i - 1], moves[i - 1]);
    }
  }

  // ----- kinds of steps -----

  predicate IsArm(a: Move) { a.OfClient? && a.client.AArm? }

  predicate IsCollect(a: Move) { a.OfClient? && a.client.ACollect? }

  predicate IsRecord(a: Move) { a.OfRx? && a.rx.ARxRecord? }

  // ----- what the steps of each task leave alone -----

  /** The one-place pipe that send_rpc and the Flipper implement together. */
  datatype Pipe = Pipe(submitted: seq<Byte>, got: seq<Byte>, acked: seq<Byte>)

  const EMPTY_PIPE := Pipe([], [], [])

  function PipeOf(s: Sys): Pipe { Pipe(s.submitted, s.got, s.acked) }

  /** The client's steps that touch the streams. */
  predicate Carries(a: ClientMove) {
    a.ASend? || a.ASubmit? || a.AApplyStarted? || a.ACollect?
  }

  lemma ClientKeepsRecord(s: Sys, a: ClientMove)
    requires ClientEnabled(s, a) && !a.AArm?
    ensures ClientNext(s, a).recorded == s.recorded && ClientNext(s, a).clean == s.clean
  {
    match a
    case AClaim(_) | ACheckReady | AApplyBegin | ADrainToken | ADrained | AArm | ASend(_, _) | ATakeToken |
      AGiveUp | ACollect | AApplyStarted | AFail | ASkipProxy | ARunProxy | ASubmit | ANextChunk |
      ALeaveProxy | AJoined | ACheckEnded | ACheckRunning | AApplyEnd | AApplyStopped | AClearBuffer |
      ADisconnect | ARelease | AWriterTake(_) | AWriterExit =>
  }

  lemma OthersKeepWindow(s: Sys, a: ClientMove)
    requires ClientEnabled(s, a) && !a.AArm? && !InCall(a)
    ensures Armed(ClientNext(s, a).client) ==> Armed(s.client)
  {
    match a
    case AClaim(_) | ACheckReady | ADrainToken | ADrained | ATakeToken | AGiveUp | ASkipProxy | ARunProxy | ASubmit |
      ANextChunk | ALeaveProxy | AJoined | ACheckEnded | ACheckRunning | AClearBuffer | ADisconnect | ARelease |
      AWriterExit =>
  }

  /** Of the client's steps, only arming opens a request window, and collecting closes it. */
  lemma ClientKeepsWindow(s: Sys, a: ClientMove)
    requires ClientEnabled(s, a) && !a.AArm?
    ensures Armed(ClientNext(s, a).client) ==> Armed(s.client) && !a.ACollect?
  {
    if InCall(a) {
      match a
      case AApplyBegin | AArm | ASend(_, _) | ACollect | AApplyStarted | AFail | AApplyEnd | AApplyStopped |
        AWriterTake(_) =>
    } else {
      OthersKeepWindow(s, a);
    }
  }

  /** The steps a client may take while a request window is open and stays open. */
  lemma ArmedMoves(s: Sys, a: ClientMove)
    requires ClientEnabled(s, a) && Armed(s.client)
    ensures a.ASend? || a.ATakeToken? || a.AGiveUp? || a.ACollect? || a.AWriterTake? || a.AWriterExit?
  {
  }

  lemma ClientKeepsRequest(s: Sys, a: ClientMove)
    requires ClientEnabled(s, a) && Armed(s.client) && Armed(ClientNext(s, a).client)
    ensures ClientNext(s, a).client.request == s.client.request
  {
    ArmedMoves(s, a);
    match a
    case ASend(written, ok) => assert ClientNext(s, a) == Send(s, written, ok);
    case ATakeToken => assert ClientNext(s, a) == TakeToken(s);
    case AGiveUp => assert ClientNext(s, a) == GiveUp(s);
    case ACollect => assert ClientNext(s, a) == Collect(s);
    case AWriterTake(n) => assert ClientNext(s, a) == WriterTake(s, n);
    case AWriterExit => assert ClientNext(s, a) == WriterExit(s);
  }

  lemma ClientLost(s: Sys, a: ClientMove)
    requires ClientEnabled(s, a)
    ensures ClientNext(s, a).lost == (s.lost || a.AFail?)
  {
    match a
    case AClaim(_) | ACheckReady | AApplyBegin | ADrainToken | ADrained | AArm | ASend(_, _) | ATakeToken |
      AGiveUp | ACollect | AApplyStarted | AFail | ASkipProxy | ARunProxy | ASubmit | ANextChunk |
      ALeaveProxy | AJoined | ACheckEnded | ACheckRunning | AApplyEnd | AApplyStopped | AClearBuffer |
      ADisconnect | ARelease | AWriterTake(_) | AWriterExit =>
  }

  lemma ClientCarriesNothing(s: Sys, a: ClientMove)
    requires ClientEnabled(s, a) && !Carries(a)
    ensures PipeOf(ClientNext(s, a)) == PipeOf(s) && ClientNext(s, a).latest == s.latest
  {
    match a
    case AClaim(_) | ACheckReady | AApplyBegin | ADrainToken | ADrained | AArm | ATakeToken |
      AGiveUp | AFail | ASkipProxy | ARunProxy | ANextChunk |
      ALeaveProxy | AJoined | ACheckEnded | ACheckRunning | AApplyEnd | AApplyStopped | AClearBuffer |
      ADisconnect | ARelease | AWriterTake(_) | AWriterExit =>
  }

  lemma RxKeepsPipe(s: Sys, a: RxMove)
    requires RxEnabled(s, a)
    ensures PipeOf(RxNext(s, a)) == PipeOf(s)
  {
    match a
    case ARxLook | ARxIdle | ARxError | ARxFrame | ARxRecord | ARxGive | ARxCheckState | ARxCheckRoom(_) |
      ARxStore | ARxAck(_, _) | ARxDrop | ALoseLink | AHeartbeat =>
  }

  lemma RxKeepsSession(s: Sys, a: RxMove)
    requires RxEnabled(s, a)
    ensures RxNext(s, a).latest == s.latest && RxNext(s, a).client == s.client && RxNext(s, a).clean == s.clean
  {
    match a
    case ARxLook | ARxIdle | ARxError | ARxFrame | ARxRecord | ARxGive | ARxCheckState | ARxCheckRoom(_) |
      ARxStore | ARxAck(_, _) | ARxDrop | ALoseLink | AHeartbeat =>
  }

  lemma RxRecords(s: Sys, a: RxMove)
    requires RxEnabled(s, a)
    ensures RxNext(s, a).recorded == if a.ARxRecord? && s.awaiting then Some(s.rx.code) else s.recorded
  {
    match a
    case ARxLook | ARxIdle | ARxError | ARxFrame | ARxRecord | ARxGive | ARxCheckState | ARxCheckRoom(_) |
      ARxStore | ARxAck(_, _) | ARxDrop | ALoseLink | AHeartbeat =>
  }

  lemma RxRaisesLost(s: Sys, a: RxMove)
    requires RxEnabled(s, a)
    ensures RxNext(s, a).lost == (s.lost || a.ARxDrop? || a.ALoseLink?)
  {
    match a
    case ARxLook | ARxIdle | ARxError | ARxFrame | ARxRecord | ARxGive | ARxCheckState | ARxCheckRoom(_) |
      ARxStore | ARxAck(_, _) | ARxDrop | ALoseLink | AHeartbeat =>
  }

  /** Only the rx task records a status. */
  lemma RxEffects(s: Sys, a: RxMove)
    requires RxEnabled(s, a)
    ensures PipeOf(RxNext(s, a)) == PipeOf(s) && RxNext(s, a).latest == s.latest && RxNext(s, a).client == s.client
    ensures RxNext(s, a).recorded == if a.ARxRecord? && s.awaiting then Some(s.rx.code) else s.recorded
    ensures RxNext(s, a).lost == (s.lost || a.ARxDrop? || a.ALoseLink?) && RxNext(s, a).clean == s.clean
  {
    RxKeepsPipe(s, a);
    RxKeepsSession(s, a);
    RxRecords(s, a);
    RxRaisesLost(s, a);
  }

  lemma SupervisorKeepsPipe(s: Sys, a: SupervisorMove)
    requires SupervisorEnabled(s, a)
    ensures PipeOf(SupervisorNext(s, a)) == PipeOf(s)
  {
    match a
    case ASupClear | ASupInit | ASupStart | ASupPulse(_) | ASupAbort(_) | ASupHeartbeat | ASupAskBaud(_) |
      ASupBaudReply(_) | ASupAccepted | ASupSetUp | ASupReset | ASupSpawn(_, _) | ASupSeesLoss | ASupJoined |
      ASupTimeout =>
  }

  lemma SupervisorKeepsSession(s: Sys, a: SupervisorMove)
    requires SupervisorEnabled(s, a)
    ensures SupervisorNext(s, a).latest == s.latest && SupervisorNext(s, a).client == s.client
  {
    match a
    case ASupClear | ASupInit | ASupStart | ASupPulse(_) | ASupAbort(_) | ASupHeartbeat | ASupAskBaud(_) |
      ASupBaudReply(_) | ASupAccepted | ASupSetUp | ASupReset | ASupSpawn(_, _) | ASupSeesLoss | ASupJoined |
      ASupTimeout =>
  }

  lemma SupervisorRecordsNothing(s: Sys, a: SupervisorMove)
    requires SupervisorEnabled(s, a)
    ensures SupervisorNext(s, a).recorded == s.recorded && SupervisorNext(s, a).clean == s.clean
  {
    match a
    case ASupClear | ASupInit | ASupStart | ASupPulse(_) | ASupAbort(_) | ASupHeartbeat | ASupAskBaud(_) |
      ASupBaudReply(_) | ASupAccepted | ASupSetUp | ASupReset | ASupSpawn(_, _) | ASupSeesLoss | ASupJoined |
      ASupTimeout =>
  }

  lemma OnlyClearClearsLost(s: Sys, a: SupervisorMove)
    requires SupervisorEnabled(s, a)
    ensures s.lost && !a.ASupClear? ==> SupervisorNext(s, a).lost
  {
    match a
    case ASupClear | ASupInit | ASupStart | ASupPulse(_) | ASupAbort(_) | ASupHeartbeat | ASupAskBaud(_) |
      ASupBaudReply(_) | ASupAccepted | ASupSetUp | ASupReset | ASupSpawn(_, _) | ASupSeesLoss | ASupJoined |
      ASupTimeout =>
  }

  /** Only the supervisor clears LOST. */
  lemma SupervisorEffects(s: Sys, a: SupervisorMove)
    requires SupervisorEnabled(s, a)
    ensures PipeOf(SupervisorNext(s, a)) == PipeOf(s) && SupervisorNext(s, a).latest == s.latest
    ensures SupervisorNext(s, a).client == s.client && SupervisorNext(s, a).recorded == s.recorded
    ensures s.lost && !a.ASupClear? ==> SupervisorNext(s, a).lost
    ensures SupervisorNext(s, a).clean == s.clean
  {
    SupervisorKeepsPipe(s, a);
    SupervisorKeepsSession(s, a);
    SupervisorRecordsNothing(s, a);
    OnlyClearClearsLost(s, a);
  }

  lemma PeerEffects(s: Sys, a: PeerMove)
    requires PeerEnabled(s, a)
    ensures PeerNext(s, a).client == s.client && PeerNext(s, a).recorded == s.recorded && PeerNext(s, a).clean == s.clean
    ensures PeerNext(s, a).lost == s.lost && PeerNext(s, a).latest == s.latest && PeerNext(s, a).submitted == s.submitted
  {
    match a
    case APeerTake(_, _) | APeerSend(_) | APeerDie =>
  }

  /** Only its own steps and its creation move the rx task. */
  lemma ClientKeepsRx(s: Sys, a: ClientMove)
    requires ClientEnabled(s, a)
    ensures ClientNext(s, a).rx == s.rx && ClientNext(s, a).sup == s.sup
  {
    match a
    case AClaim(_) | ACheckReady | AApplyBegin | ADrainToken | ADrained | AArm | ASend(_, _) | ATakeToken |
      AGiveUp | ACollect | AApplyStarted | AFail | ASkipProxy | ARunProxy | ASubmit | ANextChunk |
      ALeaveProxy | AJoined | ACheckEnded | ACheckRunning | AApplyEnd | AApplyStopped | AClearBuffer |
      ADisconnect | ARelease | AWriterTake(_) | AWriterExit =>
  }

  lemma SupervisorKeepsRx(s: Sys, a: SupervisorMove)
    requires SupervisorEnabled(s, a)
    ensures !a.ASupSpawn? ==> SupervisorNext(s, a).rx == s.rx
    ensures a.ASupSpawn? ==> s.sup.Spawn?
  {
    match a
    case ASupClear | ASupInit | ASupStart | ASupPulse(_) | ASupAbort(_) | ASupHeartbeat | ASupAskBaud(_) |
      ASupBaudReply(_) | ASupAccepted | ASupSetUp | ASupReset | ASupSpawn(_, _) | ASupSeesLoss | ASupJoined |
      ASupTimeout =>
  }

  lemma PeerKeepsRx(s: Sys, a: PeerMove)
    requires PeerEnabled(s, a)
    ensures PeerNext(s, a).rx == s.rx && PeerNext(s, a).sup == s.sup
  {
    match a
    case APeerTake(_, _) | APeerSend(_) | APeerDie =>
  }

  // ----- from the bridge to the Flipper -----

  /** More is submitted. */
  predicate Submits(p: Pipe, q: Pipe) {
    p.submitted <= q.submitted && q == p.(submitted := q.submitted)
  }

  /** The Flipper receives the next chunk, and only when everything before it is acknowledged. */
  predicate Receives(p: Pipe, q: Pipe) {
    && p.got == p.acked && p.got <= q.got <= p.submitted
    && 0 < |q.got| - |p.got| <= P.MAX_DATA
    && q == p.(got := q.got)
  }

  /** Exactly what was received is acknowledged. */
  predicate Acknowledges(p: Pipe, q: Pipe) {
    q == p.(acked := p.got)
  }

  predicate PipeStep(p: Pipe, q: Pipe) {
    q == p || Submits(p, q) || Receives(p, q) || Acknowledges(p, q)
  }

  predicate Opens(s: Sys, a: Move) {
    a.OfClient? && a.client.AApplyStarted? && s.machine.state == StartingRpc
  }

  lemma ChunkIsPipeStep(s: Sys, chunk: seq<Byte>)
    requires StopAndWait(s) && s.up != [] && s.up[0] == Ask(SendData(chunk)) && s.latest && chunk != []
    ensures s.got == s.acked && s.got + chunk <= s.submitted && |chunk| <= P.MAX_DATA
  {
    assert Chunks(s.up) == [chunk] + Chunks(s.up[1..]);
    assert |Chunks(s.up)| == 1 ==> Chunks(s.up)[0] == chunk;
  }

  lemma TakeIsPipeStep(s: Sys, accept: bool, reply: Option<Byte>)
    requires StopAndWait(s) && s.up != [] && (accept ==> MayAccept(s.phase, s.up[0])) && s.latest
    ensures PipeStep(PipeOf(s), PipeOf(PeerTake(s, accept, reply)))
  {
    var t := PeerTake(s, accept, reply);
    match s.up[0]
    case Ask(SendData(chunk)) =>
      if accept && chunk != [] {
        ChunkIsPipeStep(s, chunk);
        assert t.got == s.got + chunk;
      } else {
        assert s.got + [] == s.got;
      }
    case _ =>
  }

  lemma CollectIsPipeStep(s: Sys)
    requires Window(s) && Outbound(s) && s.client.Collecting?
    ensures s.latest ==> PipeStep(PipeOf(s), PipeOf(Collect(s)))
    ensures Succeeded(s) && s.client.request.SendData? ==> s.got == s.acked + s.client.request.chunk == Collect(s).acked
  {
  }

  lemma StartedIsOpening(s: Sys)
    requires StartGranted(s) && Control(s) && s.client.Starting?
    ensures s.machine.state == StartingRpc ==> PipeOf(ApplyStarted(s)) == EMPTY_PIPE
    ensures s.machine.state != StartingRpc ==> ApplyStarted(s) == s.(client := Failing(StartRpc))
  {
  }

  lemma SubmitIsPipeStep(s: Sys)
    requires s.pieces != []
    ensures PipeStep(PipeOf(s), PipeOf(Submit(s))) && Submit(s).latest == s.latest
  {
  }

  lemma SendIsPipeStep(s: Sys, written: bool, ok: bool)
    requires s.client.Sending?
    ensures PipeOf(Send(s, written, ok)) == PipeOf(s) && (Send(s, written, ok).latest ==> s.latest)
  {
  }

  lemma CarryIsPipeStep(s: Sys, a: ClientMove)
    requires Control(s) && Window(s) && StartGranted(s) && Outbound(s)
    requires ClientEnabled(s, a) && Carries(a) && ClientNext(s, a).latest
    ensures Opens(s, OfClient(a)) ==> PipeOf(ClientNext(s, a)) == EMPTY_PIPE
    ensures !Opens(s, OfClient(a)) ==> s.latest && PipeStep(PipeOf(s), PipeOf(ClientNext(s, a)))
  {
    match a
    case ASend(written, ok) => SendIsPipeStep(s, written, ok);
    case ASubmit => SubmitIsPipeStep(s);
    case AApplyStarted => StartedIsOpening(s);
    case ACollect => CollectIsPipeStep(s);
  }

  lemma PeerRefinesPipe(s: Sys, a: PeerMove)
    requires StopAndWait(s) && PeerEnabled(s, a) && PeerNext(s, a).latest
    ensures s.latest && PipeStep(PipeOf(s), PipeOf(PeerNext(s, a)))
  {
    match a
    case APeerTake(accept, reply) => TakeIsPipeStep(s, accept, reply);
    case APeerSend(_) | APeerDie =>
  }

  /** Whatever task moves, the streams of a session make one step of the pipe or none: submitted
      bytes reach the Flipper in order, once, one chunk at a time. */
  lemma RefinesPipe(s: Sys, a: Move)
    requires Inv(s) && Enabled(s, a) && Next(s, a).latest
    ensures Opens(s, a) ==> PipeOf(Next(s, a)) == EMPTY_PIPE
    ensures !Opens(s, a) ==> s.latest && PipeStep(PipeOf(s), PipeOf(Next(s, a)))
  {
    match a
    case OfClient(c) =>
      if Carries(c) {
        CarryIsPipeStep(s, c);
      } else {
        ClientCarriesNothing(s, c);
      }
    case OfRx(r) => RxEffects(s, r);
    case OfSupervisor(v) => SupervisorEffects(s, v);
    case OfPeer(p) => PeerRefinesPipe(s, p);
  }

  /** What one step adds to the submitted bytes. */
  function Added(s: Sys, a: Move): seq<Byte> {
    if a.OfClient? && a.client.ASubmit? && s.pieces != [] && s.machine.state == RpcReady then s.pieces[0] else []
  }

  lemma ClientSubmits(s: Sys, a: ClientMove)
    requires StartGranted(s) && Control(s) && ClientEnabled(s, a) && Carries(a) && !Opens(s, OfClient(a))
    ensures ClientNext(s, a).submitted == s.submitted + Added(s, OfClient(a))
  {
    match a
    case ASend(written, ok) => SendIsPipeStep(s, written, ok);
    case ASubmit =>
    case AApplyStarted => StartedIsOpening(s);
    case ACollect =>
  }

  /** Only send_rpc submits, and it submits exactly what it was given. */
  lemma OnlySubmitsSubmit(s: Sys, a: Move)
    requires Inv(s) && Enabled(s, a) && !Opens(s, a)
    ensures Next(s, a).submitted == s.submitted + Added(s, a)
  {
    match a
    case OfClient(c) =>
      if Carries(c) {
        ClientSubmits(s, c);
      } else {
        ClientCarriesNothing(s, c);
      }
    case OfRx(r) => RxEffects(s, r);
    case OfSupervisor(v) => SupervisorEffects(s, v);
    case OfPeer(p) => PeerEffects(s, p);
  }
}
