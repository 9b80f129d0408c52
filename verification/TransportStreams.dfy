/** The bytes of a session from the proxy's input to the UART: where they come from, and what the
    tasks together write. */
module TransportStreams {
  import opened Bytes
  import opened ExpansionStateMachine
  import opened ExpansionTransport
  import opened TransportInvariant
  import opened TransportRuns
  import BridgeIo
  import ClientSteps = TransportClientSteps
  import FrameStreams
  import P = ExpansionProtocol

  // ----- from the proxy's input to send_rpc -----

  predicate InProxy(c: Client) {
    c.Proxying? || c.Submitting? || DataCall(c)
  }

  /** What was submitted is the raw bytes so far; while the proxy runs, its remaining input is the
      rest of them. */
  predicate Sourced(s: Sys) {
    && s.submitted <= s.source
    && (s.client.Begun? ==> s.submitted == [] && s.source == RawBytes(s.raw))
    && (InProxy(s.client) ==> s.source == s.submitted + BridgeIo.Flatten(s.pieces))
  }

  /** The variables that Sourced is about, the program counter apart. */
  datatype Feed = Feed(raw: Option<seq<seq<Byte>>>, pieces: seq<seq<Byte>>, source: seq<Byte>, submitted: seq<Byte>)

  function FeedOf(s: Sys): Feed { Feed(s.raw, s.pieces, s.source, s.submitted) }

  predicate Feeds(a: ClientMove) {
    a.AClaim? || a.ARunProxy? || a.ASubmit? || a.AApplyStarted?
  }

  lemma OthersFeedNothing(s: Sys, a: ClientMove)
    requires ClientEnabled(s, a) && !Feeds(a)
    ensures FeedOf(ClientNext(s, a)) == FeedOf(s)
  {
    match a
    case ACheckReady | AApplyBegin | ADrainToken | ADrained | AArm | ASend(_, _) | ATakeToken | AGiveUp | ACollect |
      AFail | ASkipProxy | ANextChunk | ALeaveProxy | AJoined | ACheckEnded | ACheckRunning | AApplyEnd |
      AApplyStopped | AClearBuffer | ADisconnect | ARelease | AWriterTake(_) | AWriterExit =>
  }

  predicate InRequest(a: ClientMove) {
    a.ADrainToken? || a.ADrained? || a.AArm? || a.ASend? || a.ATakeToken? || a.AGiveUp? || a.ACollect? || a.ANextChunk?
  }

  lemma RequestsStayInPlace(s: Sys, a: ClientMove)
    requires ClientEnabled(s, a) && InRequest(a)
    ensures InProxy(ClientNext(s, a).client) ==> InProxy(s.client)
  {
    match a
    case ADrainToken | ADrained | AArm | ASend(_, _) | ATakeToken | AGiveUp | ACollect | ANextChunk =>
  }

  lemma OthersStayInPlace(s: Sys, a: ClientMove)
    requires ClientEnabled(s, a) && !Feeds(a) && !InRequest(a)
    ensures InProxy(ClientNext(s, a).client) ==> InProxy(s.client)
  {
    match a
    case ACheckReady | AApplyBegin | AFail | ASkipProxy | ALeaveProxy | AJoined | ACheckEnded | ACheckRunning |
      AApplyEnd | AApplyStopped | AClearBuffer | ADisconnect | ARelease | AWriterTake(_) | AWriterExit =>
  }

  lemma OthersDoNotBegin(s: Sys, a: ClientMove)
    requires ClientEnabled(s, a) && !Feeds(a)
    ensures ClientNext(s, a).client.Begun? ==> s.client.Begun?
  {
    match a
    case ACheckReady | AApplyBegin | ADrainToken | ADrained | AArm | ASend(_, _) | ATakeToken | AGiveUp | ACollect |
      AFail | ASkipProxy | ANextChunk | ALeaveProxy | AJoined | ACheckEnded | ACheckRunning | AApplyEnd |
      AApplyStopped | AClearBuffer | ADisconnect | ARelease | AWriterTake(_) | AWriterExit =>
  }

  lemma FirstPiece(whole: seq<Byte>, before: seq<Byte>, pieces: seq<seq<Byte>>)
    requires pieces != [] && whole == before + BridgeIo.Flatten(pieces)
    ensures whole == before + pieces[0] + BridgeIo.Flatten(pieces[1..]) && before + pieces[0] <= whole
    ensures pieces[0] == [] ==> whole == before + BridgeIo.Flatten(pieces[1..])
  {
    BridgeIo.FlattenCons(pieces);
    Regroup(before, pieces[0], BridgeIo.Flatten(pieces[1..]));
    assert pieces[0] == [] ==> before + pieces[0] == before;
  }

  lemma SubmitSourced(s: Sys)
    requires Sourced(s) && s.client == Proxying && s.pieces != []
    ensures Sourced(Submit(s))
  {
    FirstPiece(s.source, s.submitted, s.pieces);
    ClientSteps.SubmitCases(s);
  }

  lemma RunProxySourced(s: Sys)
    requires Sourced(s) && s.client == Begun && s.raw.Some?
    ensures Sourced(RunProxy(s))
  {
    assert [] + BridgeIo.Flatten(s.raw.value) == BridgeIo.Flatten(s.raw.value);
  }

  lemma ClientSourced(s: Sys, a: ClientMove)
    requires Sourced(s) && ClientEnabled(s, a)
    ensures Sourced(ClientNext(s, a))
  {
    if Feeds(a) {
      match a
      case AClaim(_) =>
      case ARunProxy => RunProxySourced(s);
      case ASubmit => SubmitSourced(s);
      case AApplyStarted =>
    } else {
      OthersFeedNothing(s, a);
      if InRequest(a) {
        RequestsStayInPlace(s, a);
      } else {
        OthersStayInPlace(s, a);
      }
      OthersDoNotBegin(s, a);
    }
  }

  lemma RxFeedsNothing(s: Sys, a: RxMove)
    requires RxEnabled(s, a)
    ensures FeedOf(RxNext(s, a)) == FeedOf(s) && RxNext(s, a).client == s.client
  {
    match a
    case ARxLook | ARxIdle | ARxError | ARxFrame | ARxRecord | ARxGive | ARxCheckState | ARxCheckRoom(_) |
      ARxStore | ARxAck(_, _) | ARxDrop | ALoseLink | AHeartbeat =>
  }

  lemma SupervisorFeedsNothing(s: Sys, a: SupervisorMove)
    requires SupervisorEnabled(s, a)
    ensures FeedOf(SupervisorNext(s, a)) == FeedOf(s) && SupervisorNext(s, a).client == s.client
  {
    match a
    case ASupClear | ASupInit | ASupStart | ASupPulse(_) | ASupAbort(_) | ASupHeartbeat | ASupAskBaud(_) |
      ASupBaudReply(_) | ASupAccepted | ASupSetUp | ASupReset | ASupSpawn(_, _) | ASupSeesLoss | ASupJoined |
      ASupTimeout =>
  }

  lemma PeerFeedsNothing(s: Sys, a: PeerMove)
    requires PeerEnabled(s, a)
    ensures FeedOf(PeerNext(s, a)) == FeedOf(s) && PeerNext(s, a).client == s.client
  {
    match a
    case APeerTake(_, _) | APeerSend(_) | APeerDie =>
  }

  lemma StepSourced(s: Sys, a: Move)
    requires Sourced(s) && Enabled(s, a)
    ensures Sourced(Next(s, a))
  {
    match a
    case OfClient(c) => ClientSourced(s, c);
    case OfRx(r) => RxFeedsNothing(s, r);
    case OfSupervisor(v) => SupervisorFeedsNothing(s, v);
    case OfPeer(p) => PeerFeedsNothing(s, p);
  }

  // ----- from send_rpc to the UART -----

  /** The data that went out is what was acknowledged, and the latest chunk if it was written; the
      Flipper has received no more than that. */
  predicate Wired(s: Sys) {
    s.latest ==>
      && (s.wired == s.acked || s.wired == s.acked + s.tried)
      && s.got <= s.wired
      && (Chunks(s.up) != [] ==> s.wired == s.acked + s.tried)
      && (Quiet(s.client) ==> s.wired == s.acked)
  }

  lemma ChunksOfTail(up: seq<Up>)
    requires up != []
    ensures Chunks(up) == ChunkOf(up[0]) + Chunks(up[1..])
    ensures Chunks(up[1..]) != [] ==> Chunks(up) != []
    ensures |Chunks(up)| == 1 && ChunkOf(up[0]) != [] ==> Chunks(up[1..]) == [] && Chunks(up) == ChunkOf(up[0])
  {
  }

  lemma SendWired(s: Sys, written: bool, ok: bool)
    requires StopAndWait(s) && ChunkInHand(s) && Wired(s) && s.client.Sending? && (ok ==> written)
    ensures Wired(Send(s, written, ok))
  {
    UpAppend(s.up, Ask(s.client.request));
    assert s.acked + [] == s.acked;
  }

  lemma CollectWired(s: Sys)
    requires Window(s) && Outbound(s) && Wired(s) && s.client.Collecting?
    ensures Wired(Collect(s))
  {
  }

  lemma ApplyStartedWired(s: Sys)
    requires Control(s) && StartGranted(s) && Wired(s) && s.client.Starting?
    ensures Wired(ApplyStarted(s))
  {
    ChunksAreSessionRequests(s.up);
  }

  lemma PeerTakeWired(s: Sys, accept: bool, reply: Option<Byte>)
    requires StopAndWait(s) && Wired(s) && s.up != [] && (accept ==> MayAccept(s.phase, s.up[0]))
    ensures Wired(PeerTake(s, accept, reply))
  {
    ChunksOfTail(s.up);
  }

  /** The variables that Wired is about, the program counter apart. */
  datatype Line = Line(latest: bool, wired: seq<Byte>, acked: seq<Byte>, tried: seq<Byte>, got: seq<Byte>, up: seq<Up>)

  function LineOf(s: Sys): Line { Line(s.latest, s.wired, s.acked, s.tried, s.got, s.up) }

  predicate Writes(a: ClientMove) {
    a.ASend? || a.ACollect? || a.AApplyStarted?
  }

  lemma OthersWriteNothing(s: Sys, a: ClientMove)
    requires ClientEnabled(s, a) && !Writes(a)
    ensures LineOf(ClientNext(s, a)) == LineOf(s)
  {
    match a
    case AClaim(_) | ACheckReady | AApplyBegin | ADrainToken | ADrained | AArm | ATakeToken | AGiveUp | AFail |
      ASkipProxy | ARunProxy | ASubmit | ANextChunk | ALeaveProxy | AJoined | ACheckEnded | ACheckRunning |
      AApplyEnd | AApplyStopped | AClearBuffer | ADisconnect | ARelease | AWriterTake(_) | AWriterExit =>
  }

  lemma RequestsStayQuiet(s: Sys, a: ClientMove)
    requires ClientEnabled(s, a) && !Writes(a) && (InRequest(a) || Feeds(a))
    ensures Quiet(ClientNext(s, a).client) ==> Quiet(s.client)
  {
    match a
    case ADrainToken | ADrained | AArm | ATakeToken | AGiveUp | ANextChunk | AClaim(_) | ARunProxy | ASubmit =>
  }

  lemma LeaversStayQuiet(s: Sys, a: ClientMove)
    requires ClientEnabled(s, a) && !Writes(a) && !InRequest(a) && !Feeds(a)
    ensures Quiet(ClientNext(s, a).client) ==> Quiet(s.client)
  {
    match a
    case ACheckReady | AApplyBegin | AFail | ASkipProxy | ALeaveProxy | AJoined | ACheckEnded | ACheckRunning |
      AApplyEnd | AApplyStopped | AClearBuffer | ADisconnect | ARelease | AWriterTake(_) | AWriterExit =>
  }

  lemma OthersStayQuiet(s: Sys, a: ClientMove)
    requires ClientEnabled(s, a) && !Writes(a)
    ensures Quiet(ClientNext(s, a).client) ==> Quiet(s.client)
  {
    if InRequest(a) || Feeds(a) {
      RequestsStayQuiet(s, a);
    } else {
      LeaversStayQuiet(s, a);
    }
  }

  lemma ClientWired(s: Sys, a: ClientMove)
    requires Control(s) && Window(s) && StartGranted(s) && Outbound(s) && Wired(s) && ClientEnabled(s, a)
    ensures Wired(ClientNext(s, a))
  {
    if Writes(a) {
      match a
      case ASend(written, ok) => SendWired(s, written, ok);
      case ACollect => CollectWired(s);
      case AApplyStarted => ApplyStartedWired(s);
    } else {
      OthersWriteNothing(s, a);
      OthersStayQuiet(s, a);
    }
  }

  lemma RxWritesNothing(s: Sys, a: RxMove)
    requires RxEnabled(s, a)
    ensures LineOf(RxNext(s, a)) == LineOf(s)
  {
    match a
    case ARxLook | ARxIdle | ARxError | ARxFrame | ARxRecord | ARxGive | ARxCheckState | ARxCheckRoom(_) |
      ARxStore | ARxAck(_, _) | ARxDrop | ALoseLink | AHeartbeat =>
  }

  lemma SupervisorWritesNothing(s: Sys, a: SupervisorMove)
    requires SupervisorEnabled(s, a) && !a.ASupPulse? && !a.ASupAskBaud?
    ensures LineOf(SupervisorNext(s, a)) == LineOf(s)
  {
    match a
    case ASupClear | ASupInit | ASupStart | ASupAbort(_) | ASupHeartbeat | ASupBaudReply(_) | ASupAccepted |
      ASupSetUp | ASupReset | ASupSpawn(_, _) | ASupSeesLoss | ASupJoined | ASupTimeout =>
  }

  lemma SupervisorWired(s: Sys, a: SupervisorMove)
    requires Wired(s) && SupervisorEnabled(s, a)
    ensures Wired(SupervisorNext(s, a))
  {
    SupervisorFeedsNothing(s, a);
    match a
    case ASupPulse(_) =>
    case ASupAskBaud(_) =>
      UpAppend(s.up, AskBaud);
      assert Chunks(s.up) + [] == Chunks(s.up);
    case _ => SupervisorWritesNothing(s, a);
  }

  lemma PeerWired(s: Sys, a: PeerMove)
    requires StopAndWait(s) && Wired(s) && PeerEnabled(s, a)
    ensures Wired(PeerNext(s, a))
  {
    match a
    case APeerTake(accept, reply) => PeerTakeWired(s, accept, reply);
    case APeerSend(_) | APeerDie =>
  }

  lemma StepWired(s: Sys, a: Move)
    requires Inv(s) && Wired(s) && Enabled(s, a)
    ensures Wired(Next(s, a))
  {
    match a
    case OfClient(c) => ClientWired(s, c);
    case OfRx(r) =>
      RxWritesNothing(s, r);
      RxFeedsNothing(s, r);
    case OfSupervisor(v) => SupervisorWired(s, v);
    case OfPeer(p) => PeerWired(s, p);
  }

  // ----- the UART output of a run -----

  function FrameOf(r: Request): P.Frame {
    match r
    case StartRpc => P.Control(P.START_RPC)
    case StopRpc => P.Control(P.STOP_RPC)
    case SendData(chunk) => P.Data(chunk)
  }

  /** The frames a step puts on the UART. */
  function Puts(s: Sys, a: Move): seq<P.Frame> {
    match a
    case OfClient(ASend(written, _)) => if written && s.client.Sending? then [FrameOf(s.client.request)] else []
    case OfRx(ARxCheckRoom(told)) =>
      if told && s.rx.Checked? && !BridgeIo.BufferCanAccept(|s.buffer|, |s.rx.bytes|, BUFFER_BYTES) then [P.Status(P.ERROR_UNKNOWN)] else []
    case OfRx(ARxAck(written, _)) => if written then [P.Status(P.ERROR_NONE)] else []
    case OfRx(AHeartbeat) => [P.Heartbeat]
    case OfSupervisor(ASupAskBaud(rate)) => [P.BaudRate(rate)]
    case OfSupervisor(ASupAbort(malformed)) => if malformed then [P.Status(P.ERROR_UNKNOWN)] else []
    case _ => []
  }

  lemma PutsAreWellFormed(s: Sys, a: Move)
    requires ChunkInHand(s) && Enabled(s, a)
    ensures P.AllWellFormed(Puts(s, a))
  {
  }

  lemma SendWires(s: Sys, written: bool, ok: bool)
    requires s.client.Sending?
    ensures Send(s, written, ok).wired == s.wired + FrameStreams.Carried(Puts(s, OfClient(ASend(written, ok))))
  {
    FrameStreams.CarriedByOne(FrameOf(s.client.request));
    assert s.wired + [] == s.wired;
  }

  /** A step that puts frames without data. */
  lemma OthersCarryNoData(s: Sys, a: Move)
    requires !(a.OfClient? && a.client.ASend?)
    ensures FrameStreams.Carried(Puts(s, a)) == []
  {
    FrameStreams.NoDataCarriesNothing(Puts(s, a));
  }

  lemma SupervisorWires(s: Sys, a: SupervisorMove)
    requires SupervisorEnabled(s, a)
    ensures SupervisorNext(s, a).wired == s.wired
  {
    if !a.ASupPulse? && !a.ASupAskBaud? {
      SupervisorWritesNothing(s, a);
    }
  }

  lemma ClientWires(s: Sys, a: ClientMove)
    requires Control(s) && StartGranted(s) && ClientEnabled(s, a) && !a.ASend? && !Opens(s, OfClient(a))
    ensures ClientNext(s, a).wired == s.wired
  {
    if a.AApplyStarted? {
      StartedIsOpening(s);
    } else if !a.ACollect? {
      OthersWriteNothing(s, a);
    }
  }

  lemma PeerWires(s: Sys, a: PeerMove)
    requires PeerEnabled(s, a)
    ensures PeerNext(s, a).wired == s.wired
  {
    match a
    case APeerTake(_, _) | APeerSend(_) | APeerDie =>
  }

  lemma OthersWire(s: Sys, a: Move)
    requires Control(s) && StartGranted(s) && Enabled(s, a) && !(a.OfClient? && a.client.ASend?) && !Opens(s, a)
    ensures Next(s, a).wired == s.wired
  {
    match a
    case OfClient(c) => ClientWires(s, c);
    case OfRx(r) => RxWritesNothing(s, r);
    case OfSupervisor(v) => SupervisorWires(s, v);
    case OfPeer(p) => PeerWires(s, p);
  }

  /** `wired` is the data of the frames put on the UART since the session was opened. */
  lemma StepWires(s: Sys, a: Move)
    requires Control(s) && StartGranted(s) && Enabled(s, a) && !Opens(s, a)
    ensures Next(s, a).wired == s.wired + FrameStreams.Carried(Puts(s, a))
  {
    if a.OfClient? && a.client.ASend? {
      SendWires(s, a.client.written, a.client.ok);
    } else {
      OthersWire(s, a);
      OthersCarryNoData(s, a);
      assert s.wired + [] == s.wired;
    }
  }

  // ----- whole runs -----

  lemma BootStreams()
    ensures Sourced(BOOT) && Wired(BOOT)
  {
  }

  lemma RunStepSourced(states: seq<Sys>, moves: seq<Move>, i: nat)
    requires IsRun(states, moves) && i < |moves| && Sourced(states[i])
    ensures Sourced(states[i + 1])
  {
    assert StepAt(states, moves, i);
    StepSourced(states[i], moves[i]);
  }

  lemma RunStepWired(states: seq<Sys>, moves: seq<Move>, i: nat)
    requires IsRun(states, moves) && i < |moves| && Wired(states[i])
    ensures Wired(states[i + 1])
  {
    assert StepAt(states, moves, i);
    Reachable(states, moves, i);
    StepWired(states[i], moves[i]);
  }

  lemma {:induction false} StreamsHold(states: seq<Sys>, moves: seq<Move>, i: nat)
    requires IsRun(states, moves) && i < |states|
    ensures Sourced(states[i]) && Wired(states[i])
  {
    if i == 0 {
      BootStreams();
    } else {
      StreamsHold(states, moves, i - 1);
      RunStepSourced(states, moves, i - 1);
      RunStepWired(states, moves, i - 1);
    }
  }

  /** The frames put on the UART from move i up to move k. */
  function UartFrames(states: seq<Sys>, moves: seq<Move>, i: nat, k: nat): seq<P.Frame>
    requires i <= k <= |moves| && |states| == |moves| + 1
    decreases k
  {
    if i == k then [] else UartFrames(states, moves, i, k - 1) + Puts(states[k - 1], moves[k - 1])
  }

  /** What a step after the opening of a session does to its streams. */
  predicate StreamStep(s: Sys, a: Move, t: Sys) {
    && t.wired == s.wired + FrameStreams.Carried(Puts(s, a))
    && P.AllWellFormed(Puts(s, a))
    && t.source == s.source
  }

  lemma ClientKeepsSource(s: Sys, a: ClientMove)
    requires ClientEnabled(s, a) && !a.AApplyStarted?
    ensures ClientNext(s, a).source == s.source
  {
    if !Feeds(a) {
      OthersFeedNothing(s, a);
    }
  }

  lemma StepKeepsSource(s: Sys, a: Move)
    requires Control(s) && StartGranted(s) && Enabled(s, a) && !Opens(s, a)
    ensures Next(s, a).source == s.source
  {
    match a
    case OfClient(c) =>
      if c.AApplyStarted? {
        StartedIsOpening(s);
      } else {
        ClientKeepsSource(s, c);
      }
    case OfRx(r) => RxFeedsNothing(s, r);
    case OfSupervisor(v) => SupervisorFeedsNothing(s, v);
    case OfPeer(p) => PeerFeedsNothing(s, p);
  }

  lemma RunStreamStep(states: seq<Sys>, moves: seq<Move>, i: nat)
    requires IsRun(states, moves) && i < |moves| && !Opens(states[i], moves[i])
    ensures StreamStep(states[i], moves[i], states[i + 1])
  {
    Reachable(states, moves, i);
    assert StepAt(states, moves, i);
    StepWires(states[i], moves[i]);
    PutsAreWellFormed(states[i], moves[i]);
    StepKeepsSource(states[i], moves[i]);
  }

  predicate StreamStepAt(states: seq<Sys>, moves: seq<Move>, m: nat)
    requires |states| == |moves| + 1 && m < |moves|
  {
    StreamStep(states[m], moves[m], states[m + 1])
  }

  lemma OneMoreStep(frames: seq<P.Frame>, s: Sys, a: Move, t: Sys)
    requires P.AllWellFormed(frames) && s.wired == FrameStreams.Carried(frames) && StreamStep(s, a, t)
    ensures P.AllWellFormed(frames + Puts(s, a)) && t.wired == FrameStreams.Carried(frames + Puts(s, a)) && t.source == s.source
  {
    FrameStreams.CarriedConcat(frames, Puts(s, a));
  }

  lemma {:induction false} StreamStepsAddUp(states: seq<Sys>, moves: seq<Move>, i: nat, k: nat)
    requires i <= k <= |moves| && |states| == |moves| + 1 && states[i].wired == []
    requires forall m: nat | i <= m < k :: StreamStepAt(states, moves, m)
    ensures P.AllWellFormed(UartFrames(states, moves, i, k))
    ensures states[k].wired == FrameStreams.Carried(UartFrames(states, moves, i, k)) && states[k].source == states[i].source
    decreases k
  {
    if i < k {
      StreamStepsAddUp(states, moves, i, k - 1);
      assert StreamStepAt(states, moves, k - 1);
      OneMoreStep(UartFrames(states, moves, i, k - 1), states[k - 1], moves[k - 1], states[k]);
    }
  }

  lemma OpeningSetsStreams(states: seq<Sys>, moves: seq<Move>, i: nat)
    requires IsRun(states, moves) && i < |moves| && Opens(states[i], moves[i])
    ensures states[i + 1].wired == [] && states[i + 1].source == RawBytes(states[i].raw)
  {
    assert StepAt(states, moves, i);
  }

  /** A session was opened by move i, and no other since, up to state k. */
  ghost predicate SessionSpans(states: seq<Sys>, moves: seq<Move>, i: nat, k: nat) {
    && IsRun(states, moves) && i < k < |states| && Opens(states[i], moves[i])
    && forall m | i < m < k :: !Opens(states[m], moves[m])
  }

  lemma SessionStreamSteps(states: seq<Sys>, moves: seq<Move>, i: nat, k: nat)
    requires SessionSpans(states, moves, i, k)
    ensures P.AllWellFormed(UartFrames(states, moves, i + 1, k))
    ensures states[k].wired == FrameStreams.Carried(UartFrames(states, moves, i + 1, k))
    ensures states[k].source == RawBytes(states[i].raw)
  {
    OpeningSetsStreams(states, moves, i);
    forall m: nat | i + 1 <= m < k ensures StreamStepAt(states, moves, m) {
      RunStreamStep(states, moves, m);
    }
    StreamStepsAddUp(states, moves, i + 1, k);
  }

  /** All the streams of a session at once, each a prefix of the next: acknowledged, received,
      written to the UART, submitted, and the raw bytes of the connection that opened it. */
  predicate StreamsNest(s: Sys, raw: seq<Byte>) {
    && s.acked <= s.got <= s.wired <= s.submitted <= raw
    && |s.wired| <= |s.acked| + P.MAX_DATA
    && (s.client.Proxying? ==> s.acked == s.submitted && raw == s.acked + BridgeIo.Flatten(s.pieces))
  }

  lemma StateStreamsNest(s: Sys)
    requires StopAndWait(s) && ChunkInHand(s) && Sourced(s) && Wired(s) && s.latest
    ensures StreamsNest(s, s.source)
  {
  }

  /** From the opening of a session on, in every run: the Flipper's decoder makes of the bridge's UART
      output exactly the frames put there, their data is a prefix of the connection's raw bytes, and
      the Flipper's session has received a prefix of that data, with the acknowledged bytes behind by
      at most one chunk. Whenever the proxy is between two calls, all it has taken is acknowledged;
      so once its input is used up, all raw bytes have been received. */
  lemma SessionStreams(states: seq<Sys>, moves: seq<Move>, i: nat, k: nat)
    requires SessionSpans(states, moves, i, k) && states[k].latest
    ensures StreamsNest(states[k], RawBytes(states[i].raw))
    ensures var frames := UartFrames(states, moves, i + 1, k);
            && P.AllWellFormed(frames)
            && P.DecodeStream([], P.EncodeAll(frames)) == P.Stream(frames, [], [], [])
            && FrameStreams.Carried(frames) == states[k].wired
  {
    SessionStreamSteps(states, moves, i, k);
    Reachable(states, moves, k);
    StreamsHold(states, moves, k);
    StateStreamsNest(states[k]);
    FrameStreams.WholeFramesAreHeard(UartFrames(states, moves, i + 1, k));
  }
}
