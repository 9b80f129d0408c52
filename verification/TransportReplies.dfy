/** What the writer task takes out of the stream buffer during a session. */
module TransportReplies {
  import opened Bytes
  import opened ExpansionStateMachine
  import opened ExpansionTransport
  import opened TransportInvariant
  import opened TransportRuns
  import BridgeIo
  import TransportReceive
  import TransportStreams

  /** What a step hands to the writer task. */
  function TakenBy(s: Sys, a: Move): seq<seq<Byte>> {
    match a
    case OfClient(AWriterTake(n)) => if n <= |s.buffer| then [s.buffer[..n]] else []
    case _ => []
  }

  predicate Takes(a: ClientMove) { a.AWriterTake? }

  lemma OthersDeliverNothing(s: Sys, a: ClientMove)
    requires ClientEnabled(s, a) && !Takes(a) && !a.AApplyStarted?
    ensures ClientNext(s, a).delivered == s.delivered
  {
    match a
    case AClaim(_) | ACheckReady | AApplyBegin | ADrainToken | ADrained | AArm | ASend(_, _) | ATakeToken | AGiveUp |
      ACollect | AFail | ASkipProxy | ARunProxy | ASubmit | ANextChunk | ALeaveProxy | AJoined | ACheckEnded |
      ACheckRunning | AApplyEnd | AApplyStopped | AClearBuffer | ADisconnect | ARelease | AWriterExit =>
  }

  lemma FlattenOne(bytes: seq<Byte>)
    ensures BridgeIo.Flatten([bytes]) == bytes
  {
    BridgeIo.FlattenSnoc([], bytes);
    assert [] + [bytes] == [bytes] && [] + bytes == bytes;
  }

  lemma TakeDelivers(s: Sys, n: nat)
    requires n <= |s.buffer|
    ensures WriterTake(s, n).delivered == s.delivered + BridgeIo.Flatten([s.buffer[..n]])
  {
    FlattenOne(s.buffer[..n]);
  }

  lemma ClientDelivers(s: Sys, a: ClientMove)
    requires Control(s) && StartGranted(s) && ClientEnabled(s, a) && !Opens(s, OfClient(a))
    ensures ClientNext(s, a).delivered == s.delivered + BridgeIo.Flatten(TakenBy(s, OfClient(a)))
  {
    assert s.delivered + [] == s.delivered;
    if Takes(a) {
      TakeDelivers(s, a.n);
    } else if a.AApplyStarted? {
      StartedIsOpening(s);
    } else {
      OthersDeliverNothing(s, a);
    }
  }

  lemma RxDeliversNothing(s: Sys, a: RxMove)
    requires RxEnabled(s, a)
    ensures RxNext(s, a).delivered == s.delivered
  {
    match a
    case ARxLook | ARxIdle | ARxError | ARxFrame | ARxRecord | ARxGive | ARxCheckState | ARxCheckRoom(_) |
      ARxStore | ARxAck(_, _) | ARxDrop | ALoseLink | AHeartbeat =>
  }

  lemma SupervisorDeliversNothing(s: Sys, a: SupervisorMove)
    requires SupervisorEnabled(s, a)
    ensures SupervisorNext(s, a).delivered == s.delivered
  {
    match a
    case ASupClear | ASupInit | ASupStart | ASupPulse(_) | ASupAbort(_) | ASupHeartbeat | ASupAskBaud(_) |
      ASupBaudReply(_) | ASupAccepted | ASupSetUp | ASupReset | ASupSpawn(_, _) | ASupSeesLoss | ASupJoined |
      ASupTimeout =>
  }

  lemma PeerDeliversNothing(s: Sys, a: PeerMove)
    requires PeerEnabled(s, a)
    ensures PeerNext(s, a).delivered == s.delivered
  {
    match a
    case APeerTake(_, _) | APeerSend(_) | APeerDie =>
  }

  lemma StepDelivers(s: Sys, a: Move)
    requires Control(s) && StartGranted(s) && Enabled(s, a) && !Opens(s, a)
    ensures Next(s, a).delivered == s.delivered + BridgeIo.Flatten(TakenBy(s, a))
  {
    assert s.delivered + [] == s.delivered;
    match a
    case OfClient(c) => ClientDelivers(s, c);
    case OfRx(r) => RxDeliversNothing(s, r);
    case OfSupervisor(v) => SupervisorDeliversNothing(s, v);
    case OfPeer(p) => PeerDeliversNothing(s, p);
  }

  /** The pieces handed to the writer task from move i up to move k. */
  function PiecesTaken(states: seq<Sys>, moves: seq<Move>, i: nat, k: nat): seq<seq<Byte>>
    requires i <= k <= |moves| && |states| == |moves| + 1
    decreases k
  {
    if i == k then [] else PiecesTaken(states, moves, i, k - 1) + TakenBy(states[k - 1], moves[k - 1])
  }

  predicate DeliversAt(states: seq<Sys>, moves: seq<Move>, m: nat)
    requires |states| == |moves| + 1 && m < |moves|
  {
    states[m + 1].delivered == states[m].delivered + BridgeIo.Flatten(TakenBy(states[m], moves[m]))
  }

  lemma RunDeliversAt(states: seq<Sys>, moves: seq<Move>, m: nat)
    requires IsRun(states, moves) && m < |moves| && !Opens(states[m], moves[m])
    ensures DeliversAt(states, moves, m)
  {
    Reachable(states, moves, m);
    assert StepAt(states, moves, m);
    StepDelivers(states[m], moves[m]);
  }

  lemma {:induction false} DeliveriesAddUp(states: seq<Sys>, moves: seq<Move>, i: nat, k: nat)
    requires i <= k <= |moves| && |states| == |moves| + 1 && states[i].delivered == []
    requires forall m: nat | i <= m < k :: DeliversAt(states, moves, m)
    ensures states[k].delivered == BridgeIo.Flatten(PiecesTaken(states, moves, i, k))
    decreases k
  {
    if i < k {
      DeliveriesAddUp(states, moves, i, k - 1);
      assert DeliversAt(states, moves, k - 1);
      BridgeIo.FlattenConcat(PiecesTaken(states, moves, i, k - 1), TakenBy(states[k - 1], moves[k - 1]));
    }
  }

  lemma OpeningDeliversNothing(states: seq<Sys>, moves: seq<Move>, i: nat)
    requires IsRun(states, moves) && i < |moves| && Opens(states[i], moves[i])
    ensures states[i + 1].delivered == []
  {
    assert StepAt(states, moves, i);
  }

  /** Since the opening of a session the writer task was handed exactly what counts as delivered; while
      the session lasts, that is a prefix of what the Flipper has sent in it. */
  lemma SessionReplies(states: seq<Sys>, moves: seq<Move>, i: nat, k: nat)
    requires TransportStreams.SessionSpans(states, moves, i, k)
    ensures states[k].delivered == BridgeIo.Flatten(PiecesTaken(states, moves, i + 1, k))
    ensures HasSession(states[k].client) ==> states[k].delivered <= states[k].offered
  {
    OpeningDeliversNothing(states, moves, i);
    forall m: nat | i + 1 <= m < k ensures DeliversAt(states, moves, m) {
      RunDeliversAt(states, moves, m);
    }
    DeliveriesAddUp(states, moves, i + 1, k);
    if HasSession(states[k].client) {
      TransportReceive.ReceiveConservation(states, moves, k);
    }
  }
}
