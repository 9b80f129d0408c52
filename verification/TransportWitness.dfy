/** Concrete runs of the transport. They show that sessions do come about, what early data costs, and
    that the guarantees about a stop request cannot be had once LOST is set. */
module TransportWitness {
  import opened Bytes
  import opened ExpansionStateMachine
  import opened ExpansionTransport
  import opened TransportStatus
  import TransportRuns
  import BridgeIo
  import P = ExpansionProtocol

  ghost predicate Reachable(s: Sys) {
    exists states, moves :: IsRun(states, moves) && states[|moves|] == s
  }

  lemma BootIsReachable()
    ensures Reachable(BOOT)
  {
    var states: seq<Sys>, moves: seq<Move> := [BOOT], [];
    assert IsRun(states, moves) && states[|moves|] == BOOT;
  }

  lemma RunGoesOn(states: seq<Sys>, moves: seq<Move>, a: Move, t: Sys)
    requires IsRun(states, moves) && Enabled(states[|moves|], a) && t == Next(states[|moves|], a)
    ensures IsRun(states + [t], moves + [a])
  {
    var more, longer := states + [t], moves + [a];
    forall i: nat | i < |longer| ensures StepAt(more, longer, i) {
      assert more[i] == states[i];
      if i < |moves| {
        assert StepAt(states, moves, i);
        assert more[i + 1] == states[i + 1] && longer[i] == moves[i];
      }
    }
  }

  lemma Goes(s: Sys, a: Move, t: Sys)
    requires Reachable(s) && Enabled(s, a) && t == Next(s, a)
    ensures Reachable(t)
  {
    var states, moves :| IsRun(states, moves) && states[|moves|] == s;
    RunGoesOn(states, moves, a, t);
    assert (states + [t])[|moves + [a]|] == t;
  }

  lemma ByClient(s: Sys, a: ClientMove, t: Sys)
    requires Reachable(s) && ClientEnabled(s, a) && t == ClientNext(s, a)
    ensures Reachable(t)
  {
    Goes(s, OfClient(a), t);
  }

  lemma ByRx(s: Sys, a: RxMove, t: Sys)
    requires Reachable(s) && RxEnabled(s, a) && t == RxNext(s, a)
    ensures Reachable(t)
  {
    Goes(s, OfRx(a), t);
  }

  lemma BySupervisor(s: Sys, a: SupervisorMove, t: Sys)
    requires Reachable(s) && SupervisorEnabled(s, a) && t == SupervisorNext(s, a)
    ensures Reachable(t)
  {
    Goes(s, OfSupervisor(a), t);
  }

  lemma ByPeer(s: Sys, a: PeerMove, t: Sys)
    requires Reachable(s) && PeerEnabled(s, a) && t == PeerNext(s, a)
    ensures Reachable(t)
  {
    Goes(s, OfPeer(a), t);
  }

  lemma OnePiece()
    ensures RawBytes(Some([[7]])) == [7]
  {
    var pieces: seq<seq<Byte>> := [];
    BridgeIo.FlattenSnoc(pieces, [7]);
    assert pieces + [[7]] == [[7]] && BridgeIo.Flatten(pieces) + [7] == [7];
  }

  const PULSED: Sys := BOOT.(
    sup := AwaitHeartbeat, machine := Machine(InitialUart, 0), epoch := 1, phase := Handshake)

  lemma PulsedIsReachable()
    ensures Reachable(PULSED)
  {
    BootIsReachable();
    var s0 := BOOT;
    var s1 := s0.(sup := InitMachine);
    BySupervisor(s0, ASupClear, s1);
    var s2 := s1.(sup := ApplyStart);
    BySupervisor(s1, ASupInit, s2);
    var s3 := s2.(machine := Machine(InitialUart, 0), sup := Pulse);
    BySupervisor(s2, ASupStart, s3);
    var s4 := s3.(epoch := 1, phase := Handshake, sup := AwaitHeartbeat);
    BySupervisor(s3, ASupPulse(true), s4);
    assert s4 == PULSED;
  }

  const ASKED: Sys := PULSED.(
    machine := Machine(NegotiatingBaud, 0), sup := AwaitRate, up := [AskBaud])

  lemma AskedIsReachable()
    ensures Reachable(ASKED)
  {
    PulsedIsReachable();
    var s0 := PULSED;
    var s1 := s0.(machine := Machine(NegotiatingBaud, 0), sup := AskRate);
    BySupervisor(s0, ASupHeartbeat, s1);
    var s2 := s1.(up := [AskBaud], sup := AwaitRate);
    BySupervisor(s1, ASupAskBaud(230400), s2);
    assert s2 == ASKED;
  }

  const NEGOTIATED: Sys := ASKED.(sup := RateAccepted, up := [], down := [], phase := Idle)

  lemma NegotiatedIsReachable()
    ensures Reachable(NEGOTIATED)
  {
    AskedIsReachable();
    var s0 := ASKED;
    var s1 := s0.(up := [], down := [Status(P.ERROR_NONE)], phase := Idle);
    ByPeer(s0, APeerTake(true, Some(P.ERROR_NONE)), s1);
    var s2 := s1.(down := [], sup := RateAccepted);
    BySupervisor(s1, ASupBaudReply(true), s2);
    assert s2 == NEGOTIATED;
  }

  /** The link is up. */
  const CONNECTED: Sys := NEGOTIATED.(
    machine := Machine(Ready, 0), sup := Watch, purged := true, rx := Top)

  lemma ConnectedIsReachable()
    ensures Reachable(CONNECTED)
  {
    NegotiatedIsReachable();
    var s0 := NEGOTIATED;
    var s1 := s0.(machine := Machine(Ready, 0), sup := SetUp);
    BySupervisor(s0, ASupAccepted, s1);
    var s2 := s1.(sup := ResetBuffer);
    BySupervisor(s1, ASupSetUp, s2);
    var s3 := s2.(purged := true, sup := Spawn);
    BySupervisor(s2, ASupReset, s3);
    var s4 := s3.(rx := Top, sup := Watch);
    BySupervisor(s3, ASupSpawn(true, true), s4);
    assert s4 == CONNECTED;
  }

  const BEGUN: Sys := CONNECTED.(
    client := Draining(StartRpc), raw := Some([[7]]), machine := Machine(StartingRpc, 0), clientEpoch := 1)

  lemma BegunIsReachable()
    ensures Reachable(BEGUN)
  {
    ConnectedIsReachable();
    var s0 := CONNECTED;
    var s1 := s0.(client := Managing, raw := Some([[7]]));
    ByClient(s0, AClaim(Some([[7]])), s1);
    var s2 := s1.(client := Beginning);
    ByClient(s1, ACheckReady, s2);
    var s3 := s2.(machine := Machine(StartingRpc, 0), client := Draining(StartRpc), clientEpoch := 1);
    ByClient(s2, AApplyBegin, s3);
    assert s3 == BEGUN;
  }

  const START_SENT: Sys := BEGUN.(
    client := Waiting(StartRpc), awaiting := true, last := P.ERROR_UNKNOWN, clean := true,
    up := [Ask(StartRpc)], startSent := true)

  lemma StartSentIsReachable()
    ensures Reachable(START_SENT)
  {
    BegunIsReachable();
    var s0 := BEGUN;
    var s1 := s0.(client := Arming(StartRpc));
    ByClient(s0, ADrained, s1);
    var s2 := s1.(client := Sending(StartRpc), awaiting := true, last := P.ERROR_UNKNOWN, clean := true);
    ByClient(s1, AArm, s2);
    var s3 := s2.(client := Waiting(StartRpc), up := [Ask(StartRpc)], startSent := true);
    ByClient(s2, ASend(true, true), s3);
    assert s3 == START_SENT;
  }

  const START_GRANTED: Sys := START_SENT.(
    up := [], down := [Status(P.ERROR_NONE)], phase := InRpc, rx := Reading)

  lemma StartGrantedIsReachable()
    ensures Reachable(START_GRANTED)
  {
    StartSentIsReachable();
    var s0 := START_SENT;
    var s1 := s0.(up := [], down := [Status(P.ERROR_NONE)], phase := InRpc);
    ByPeer(s0, APeerTake(true, Some(P.ERROR_NONE)), s1);
    var s2 := s1.(rx := Reading);
    ByRx(s1, ARxLook, s2);
    assert s2 == START_GRANTED;
  }

  const START_ANSWERED: Sys := START_GRANTED.(
    down := [], rx := Top, last := P.ERROR_NONE, recorded := Some(P.ERROR_NONE), settled := true, token := true)

  lemma StartAnsweredIsReachable()
    ensures Reachable(START_ANSWERED)
  {
    StartGrantedIsReachable();
    var s0 := START_GRANTED;
    var s1 := s0.(rx := GotStatus(P.ERROR_NONE), down := []);
    ByRx(s0, ARxFrame, s1);
    var s2 := s1.(rx := Giving, last := P.ERROR_NONE, recorded := Some(P.ERROR_NONE), settled := true);
    ByRx(s1, ARxRecord, s2);
    var s3 := s2.(rx := Top, token := true);
    ByRx(s2, ARxGive, s3);
    assert s3 == START_ANSWERED;
  }

  /** A client has an RPC session and runs the raw proxy. */
  const RUNNING: Sys := START_ANSWERED.(
    client := Proxying, token := false, awaiting := false, machine := Machine(RpcReady, 0), latest := true,
    source := [7], purged := false, pieces := [[7]], writer := true)

  lemma RunningIsReachable()
    ensures Reachable(RUNNING)
  {
    StartAnsweredIsReachable();
    OnePiece();
    var s0 := START_ANSWERED;
    var s1 := s0.(client := Collecting(StartRpc, true), token := false);
    ByClient(s0, ATakeToken, s1);
    var s2 := s1.(client := Starting, awaiting := false);
    ByClient(s1, ACollect, s2);
    var s3 := s2.(machine := Machine(RpcReady, 0), client := Begun, latest := true, source := [7], purged := false);
    ByClient(s2, AApplyStarted, s3);
    var s4 := s3.(client := Proxying, pieces := [[7]], writer := true);
    ByClient(s3, ARunProxy, s4);
    assert s4 == RUNNING;
  }

  const SUBMITTED: Sys := RUNNING.(client := Submitting, pieces := [], rest := [7], submitted := [7])

  lemma SubmittedIsReachable()
    ensures Reachable(SUBMITTED)
  {
    RunningIsReachable();
    ByClient(RUNNING, ASubmit, SUBMITTED);
  }

  const CHUNK_READY: Sys := SUBMITTED.(client := Arming(SendData([7])))

  lemma ChunkReadyIsReachable()
    ensures Reachable(CHUNK_READY)
  {
    SubmittedIsReachable();
    var s0 := SUBMITTED;
    var s1 := s0.(client := Draining(SendData([7])));
    ByClient(s0, ANextChunk, s1);
    var s2 := s1.(client := Arming(SendData([7])));
    ByClient(s1, ADrained, s2);
    assert s2 == CHUNK_READY;
  }

  const CHUNK_SENT: Sys := CHUNK_READY.(
    client := Waiting(SendData([7])), awaiting := true, last := P.ERROR_UNKNOWN, recorded := None,
    clean := true, up := [Ask(SendData([7]))], tried := [7], wired := [7], settled := false)

  lemma ChunkSentIsReachable()
    ensures Reachable(CHUNK_SENT)
  {
    ChunkReadyIsReachable();
    var s0 := CHUNK_READY;
    var s1 := s0.(client := Sending(SendData([7])), awaiting := true, last := P.ERROR_UNKNOWN, recorded := None, clean := true);
    ByClient(s0, AArm, s1);
    var s2 := s1.(client := Waiting(SendData([7])), up := [Ask(SendData([7]))], tried := [7], wired := [7], settled := false);
    ByClient(s1, ASend(true, true), s2);
    assert s2 == CHUNK_SENT;
  }

  /** A chunk is sent, but its status does not come in time: send_rpc gives the link up while the rx
      task is already past its look at LOST. */
  const GIVEN_UP: Sys := CHUNK_SENT.(
    rx := Reading, client := Joining, awaiting := false, lost := true)

  lemma GivenUpIsReachable()
    ensures Reachable(GIVEN_UP)
  {
    ChunkSentIsReachable();
    var s0 := CHUNK_SENT;
    var s1 := s0.(rx := Reading);
    ByRx(s0, ARxLook, s1);
    var s2 := s1.(client := Collecting(SendData([7]), false));
    ByClient(s1, AGiveUp, s2);
    var s3 := s2.(client := Failing(SendData([7])), awaiting := false);
    ByClient(s2, ACollect, s3);
    var s4 := s3.(client := Joining, lost := true);
    ByClient(s3, AFail, s4);
    assert s4 == GIVEN_UP;
  }

  const UNLINKED: Sys := GIVEN_UP.(
    writer := false, client := Checking2)

  lemma UnlinkedIsReachable()
    ensures Reachable(UNLINKED)
  {
    GivenUpIsReachable();
    var s0 := GIVEN_UP;
    var s1 := s0.(writer := false);
    ByClient(s0, AWriterExit, s1);
    var s2 := s1.(client := Checking);
    ByClient(s1, AJoined, s2);
    var s3 := s2.(client := Checking2);
    ByClient(s2, ACheckEnded, s3);
    assert s3 == UNLINKED;
  }

  const STOP_READY: Sys := UNLINKED.(
    client := Draining(StopRpc), machine := Machine(StoppingRpc, 0))

  lemma StopReadyIsReachable()
    ensures Reachable(STOP_READY)
  {
    UnlinkedIsReachable();
    var s0 := UNLINKED;
    var s1 := s0.(client := Ending);
    ByClient(s0, ACheckRunning, s1);
    var s2 := s1.(machine := Machine(StoppingRpc, 0), client := Draining(StopRpc));
    ByClient(s1, AApplyEnd, s2);
    assert s2 == STOP_READY;
  }

  /** end_rpc sends its request all the same. */
  const STOP_SENT: Sys := STOP_READY.(
    client := Waiting(StopRpc), awaiting := true, last := P.ERROR_UNKNOWN, recorded := None, clean := false,
    up := [Ask(SendData([7])), Ask(StopRpc)], settled := false)

  lemma StopSentIsReachable()
    ensures Reachable(STOP_SENT)
  {
    StopReadyIsReachable();
    var s0 := STOP_READY;
    var s1 := s0.(client := Arming(StopRpc));
    ByClient(s0, ADrained, s1);
    var s2 := s1.(client := Sending(StopRpc), awaiting := true, last := P.ERROR_UNKNOWN, recorded := None, clean := false);
    ByClient(s1, AArm, s2);
    var s3 := s2.(client := Waiting(StopRpc), up := [Ask(SendData([7])), Ask(StopRpc)], settled := false);
    ByClient(s2, ASend(true, true), s3);
    assert s3 == STOP_SENT;
  }

  const CHUNK_TAKEN: Sys := STOP_SENT.(
    up := [Ask(StopRpc)], down := [Status(P.ERROR_NONE)], got := [7])

  lemma ChunkTakenIsReachable()
    ensures Reachable(CHUNK_TAKEN)
  {
    StopSentIsReachable();
    ByPeer(STOP_SENT, APeerTake(true, Some(P.ERROR_NONE)), CHUNK_TAKEN);
  }

  const STATUS_TAKEN: Sys := CHUNK_TAKEN.(
    down := [], rx := Giving, last := P.ERROR_NONE, recorded := Some(P.ERROR_NONE), settled := true)

  lemma StatusTakenIsReachable()
    ensures Reachable(STATUS_TAKEN)
  {
    ChunkTakenIsReachable();
    var s0 := CHUNK_TAKEN;
    var s1 := s0.(rx := GotStatus(P.ERROR_NONE), down := []);
    ByRx(s0, ARxFrame, s1);
    var s2 := s1.(rx := Giving, last := P.ERROR_NONE, recorded := Some(P.ERROR_NONE), settled := true);
    ByRx(s1, ARxRecord, s2);
    assert s2 == STATUS_TAKEN;
  }

  /** The status of the chunk arrives, and end_rpc takes it for its own. */
  const STOPPED: Sys := STATUS_TAKEN.(
    rx := Top, token := false, client := Stopping, awaiting := false)

  lemma StoppedIsReachable()
    ensures Reachable(STOPPED)
  {
    StatusTakenIsReachable();
    var s0 := STATUS_TAKEN;
    var s1 := s0.(rx := Top, token := true);
    ByRx(s0, ARxGive, s1);
    var s2 := s1.(client := Collecting(StopRpc, true), token := false);
    ByClient(s1, ATakeToken, s2);
    var s3 := s2.(client := Stopping, awaiting := false);
    ByClient(s2, ACollect, s3);
    assert s3 == STOPPED;
  }

  /** end_rpc is about to report success, yet the Flipper has not even looked at the stop request. */
  predicate StoppedTooEarly(s: Sys) {
    s.client.Stopping? && s.machine.state == StoppingRpc && s.lost && s.phase == InRpc && s.up == [Ask(StopRpc)]
  }

  /** Once LOST is set, end_rpc may take a late status that belongs to an earlier chunk for its own. */
  lemma LateStatusEndsTheWrongCall()
    ensures exists s :: Reachable(s) && StoppedTooEarly(s)
  {
    StoppedIsReachable();
    assert StoppedTooEarly(STOPPED);
  }

  /** Sessions do come about, with the link intact. */
  lemma SessionsAreReachable()
    ensures exists s :: Reachable(s) && s.client.Proxying? && s.machine.state == RpcReady && !s.lost && s.phase == InRpc
  {
    RunningIsReachable();
    assert RUNNING.client.Proxying?;
  }

  /** The Flipper has granted the start and sends data at once, before the client is back from its call. */
  const EARLY_DATA: Sys := START_ANSWERED.(
    down := [], offered := [9], rx := GotData([9]))

  lemma EarlyDataIsReachable()
    ensures Reachable(EARLY_DATA)
  {
    StartAnsweredIsReachable();
    var s0 := START_ANSWERED;
    var s1 := s0.(down := [Data([9])], offered := [9]);
    ByPeer(s0, APeerSend([9]), s1);
    var s2 := s1.(rx := Reading);
    ByRx(s1, ARxLook, s2);
    var s3 := s2.(rx := GotData([9]), down := []);
    ByRx(s2, ARxFrame, s3);
    assert s3 == EARLY_DATA;
  }

  /** Data can overtake RpcStarted on an intact link: the rx task meets it in StartingRpc. */
  lemma DataCanOvertakeStarted()
    ensures exists s :: Reachable(s) && s.rx.GotData? && s.machine.state == StartingRpc && !s.lost
  {
    EarlyDataIsReachable();
    assert EARLY_DATA.rx.GotData?;
  }

  /** The late status of the chunk is decoded before end_rpc arms its own request. */
  const STATUS_HELD: Sys := STOP_READY.(
    up := [], down := [], got := [7], rx := GotStatus(P.ERROR_NONE), client := Arming(StopRpc))

  lemma StatusHeldIsReachable()
    ensures Reachable(STATUS_HELD)
  {
    StopReadyIsReachable();
    var s0 := STOP_READY;
    var s1 := s0.(up := [], down := [Status(P.ERROR_NONE)], got := [7]);
    ByPeer(s0, APeerTake(true, Some(P.ERROR_NONE)), s1);
    var s2 := s1.(rx := GotStatus(P.ERROR_NONE), down := []);
    ByRx(s1, ARxFrame, s2);
    var s3 := s2.(client := Arming(StopRpc));
    ByClient(s2, ADrained, s3);
    assert s3 == STATUS_HELD;
  }

  /** A success whose status was decoded before the call armed its request. */
  ghost predicate DecodedBefore(states: seq<Sys>, moves: seq<Move>, j: nat, i: nat) {
    && IsRun(states, moves) && i < |moves| && TransportRuns.IsCollect(moves[i]) && OpenedAt(moves, i, j)
    && states[i].client == Collecting(StopRpc, true) && states[i].last == P.ERROR_NONE
    && !DecodedWithin(states, moves, j, i, P.ERROR_NONE)
  }

  lemma NothingDecoded(states: seq<Sys>, moves: seq<Move>, n: nat)
    requires |states| == |moves| + 1 && n + 6 == |moves|
    requires moves[n..] == [OfClient(AArm), OfRx(ARxRecord), OfRx(ARxGive), OfClient(ASend(true, true)), OfClient(ATakeToken),
                            OfClient(ACollect)]
    ensures TransportRuns.IsCollect(moves[n + 5]) && OpenedAt(moves, n + 5, n) && !DecodedWithin(states, moves, n, n + 5, P.ERROR_NONE)
  {
    var last := moves[n..];
    assert moves[n] == last[0] && moves[n + 1] == last[1] && moves[n + 2] == last[2] && moves[n + 3] == last[3]
        && moves[n + 4] == last[4] && moves[n + 5] == last[5];
  }

  /** A run whose last moves, from move n on, are those. */
  ghost predicate EndsWith(states: seq<Sys>, moves: seq<Move>, n: nat, tail: seq<Move>, s: Sys) {
    IsRun(states, moves) && n <= |moves| && moves[n..] == tail && states[|moves|] == s
  }

  lemma GoesOn(states: seq<Sys>, moves: seq<Move>, n: nat, tail: seq<Move>, s: Sys, a: Move, t: Sys)
    requires EndsWith(states, moves, n, tail, s) && Enabled(s, a) && t == Next(s, a)
    ensures EndsWith(states + [t], moves + [a], n, tail + [a], t)
  {
    RunGoesOn(states, moves, a, t);
    assert (moves + [a])[n..] == moves[n..] + [a];
  }

  const RECORDED: Sys := STATUS_HELD.(
    client := Sending(StopRpc), awaiting := true, last := P.ERROR_NONE, recorded := Some(P.ERROR_NONE), clean := false, rx := Top, settled := false, token := true)

  const TAKEN: Sys := RECORDED.(
    client := Collecting(StopRpc, true), up := [Ask(StopRpc)], settled := false, token := false)

  lemma RecordLate(states: seq<Sys>, moves: seq<Move>, n: nat) returns (longer: seq<Sys>, more: seq<Move>)
    requires EndsWith(states, moves, n, [], STATUS_HELD)
    ensures states <= longer && |longer| == |states| + 3 == |more| + 1
    ensures EndsWith(longer, more, n, [OfClient(AArm), OfRx(ARxRecord), OfRx(ARxGive)], RECORDED)
  {
    longer, more := states, moves;
    var s0, tail := STATUS_HELD, more[n..];
    var s1 := s0.(client := Sending(StopRpc), awaiting := true, last := P.ERROR_UNKNOWN, recorded := None, clean := false);
    GoesOn(longer, more, n, tail, s0, OfClient(AArm), s1);
    longer, more, tail := longer + [s1], more + [OfClient(AArm)], tail + [OfClient(AArm)];
    var s2 := s1.(rx := Giving, last := P.ERROR_NONE, recorded := Some(P.ERROR_NONE), settled := false);
    GoesOn(longer, more, n, tail, s1, OfRx(ARxRecord), s2);
    longer, more, tail := longer + [s2], more + [OfRx(ARxRecord)], tail + [OfRx(ARxRecord)];
    var s3 := s2.(rx := Top, token := true);
    GoesOn(longer, more, n, tail, s2, OfRx(ARxGive), s3);
    longer, more, tail := longer + [s3], more + [OfRx(ARxGive)], tail + [OfRx(ARxGive)];
    assert s3 == RECORDED;
  }

  lemma TakeLate(states: seq<Sys>, moves: seq<Move>, n: nat) returns (longer: seq<Sys>, more: seq<Move>)
    requires EndsWith(states, moves, n, [OfClient(AArm), OfRx(ARxRecord), OfRx(ARxGive)], RECORDED)
    ensures states <= longer && |longer| == |states| + 2 == |more| + 1
    ensures EndsWith(longer, more, n, [OfClient(AArm), OfRx(ARxRecord), OfRx(ARxGive), OfClient(ASend(true, true)), OfClient(ATakeToken)], TAKEN)
  {
    longer, more := states, moves;
    var s3, tail := RECORDED, more[n..];
    var s4 := s3.(client := Waiting(StopRpc), up := [Ask(StopRpc)], settled := false);
    GoesOn(longer, more, n, tail, s3, OfClient(ASend(true, true)), s4);
    longer, more, tail := longer + [s4], more + [OfClient(ASend(true, true))], tail + [OfClient(ASend(true, true))];
    var s5 := s4.(client := Collecting(StopRpc, true), token := false);
    GoesOn(longer, more, n, tail, s4, OfClient(ATakeToken), s5);
    longer, more, tail := longer + [s5], more + [OfClient(ATakeToken)], tail + [OfClient(ATakeToken)];
    assert s5 == TAKEN;
  }

  /** With LOST set, a stop request can succeed on a status that was decoded before it was armed. */
  lemma StatusCanBeDecodedBefore()
    ensures exists states: seq<Sys>, moves: seq<Move>, j: nat, i: nat :: DecodedBefore(states, moves, j, i)
  {
    StatusHeldIsReachable();
    var states, moves :| IsRun(states, moves) && states[|moves|] == STATUS_HELD;
    var n := |moves|;
    assert moves[n..] == [];
    states, moves := RecordLate(states, moves, n);
    states, moves := TakeLate(states, moves, n);
    var last := OfClient(ACollect);
    var end := Next(TAKEN, last);
    GoesOn(states, moves, n, moves[n..], TAKEN, last, end);
    assert (states + [end])[n + 5] == TAKEN;
    NothingDecoded(states + [end], moves + [last], n);
    assert DecodedBefore(states + [end], moves + [last], n, n + 5);
  }
}
