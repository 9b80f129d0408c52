/** Every step of the client and writer tasks keeps the invariant. */
module TransportClientSteps {
  import opened Bytes
  import opened ExpansionStateMachine
  import opened ExpansionTransport
  import opened TransportInvariant
  import P = ExpansionProtocol

  // ----- moves that only advance the client's program counter -----

  /** The two program counters stand for the same part of a session, and the later one promises
      no more about the chunk in hand. */
  predicate SameRole(c: Client, d: Client) {
    && SessionStage(c) == SessionStage(d) && StartStage(c) == StartStage(d) && StopStage(c) == StopStage(d)
    && Gone(c) == Gone(d) && c.Clearing? == d.Clearing? && c.Failing? == d.Failing?
    && c.Starting? == d.Starting? && c.Stopping? == d.Stopping?
    && Armed(c) == Armed(d) && Sent(c) == Sent(d) && c.Sending? == d.Sending?
    && (Armed(c) ==> c.request == d.request)
    && (Quiet(d) ==> Quiet(c))
  }

  predicate ClientMoves(s: Sys, t: Sys) {
    && t == s.(client := t.client, token := t.token, writer := t.writer, raw := t.raw, pieces := t.pieces, rest := t.rest,
            submitted := t.submitted)
    && SameRole(s.client, t.client)
    && s.submitted <= t.submitted
    && (t.writer ==> WriterStage(t.client))
    && ChunkInHand(t)
  }

  lemma ClientMovesControl(s: Sys, t: Sys)
    requires Inv(s) && ClientMoves(s, t)
    ensures Control(t)
  {
  }

  lemma ClientMovesWindow(s: Sys, t: Sys)
    requires Inv(s) && ClientMoves(s, t)
    ensures Window(t)
  {
  }

  lemma ClientMovesOneOutstanding(s: Sys, t: Sys)
    requires Inv(s) && ClientMoves(s, t)
    ensures OneOutstanding(t)
  {
  }

  lemma ClientMovesNoStartYet(s: Sys, t: Sys)
    requires Inv(s) && ClientMoves(s, t)
    ensures NoStartYet(t)
  {
  }

  lemma ClientMovesTasks(s: Sys, t: Sys)
    requires Inv(s) && ClientMoves(s, t)
    ensures Tasks(t)
  {
    ClientMovesControl(s, t);
    ClientMovesWindow(s, t);
    ClientMovesOneOutstanding(s, t);
    ClientMovesNoStartYet(s, t);
  }

  lemma ClientMovesStopGranted(s: Sys, t: Sys)
    requires Inv(s) && ClientMoves(s, t)
    ensures StopGranted(t)
  {
  }

  lemma ClientMovesHandover(s: Sys, t: Sys)
    requires Inv(s) && ClientMoves(s, t)
    ensures Handover(t)
  {
    ClientMovesStopGranted(s, t);
  }

  lemma ClientMovesOutbound(s: Sys, t: Sys)
    requires Inv(s) && ClientMoves(s, t)
    ensures Outbound(t)
  {
  }

  lemma ClientMovesInbound(s: Sys, t: Sys)
    requires Inv(s) && ClientMoves(s, t)
    ensures Inbound(t)
  {
  }

  lemma ClientMovesKeep(s: Sys, t: Sys)
    requires Inv(s) && ClientMoves(s, t)
    ensures Inv(t)
  {
    ClientMovesTasks(s, t);
    ClientMovesHandover(s, t);
    ClientMovesOutbound(s, t);
    ClientMovesInbound(s, t);
  }

  /** The client leaves its session or its connection: no state is left behind without LOST. */
  predicate Retires(s: Sys, t: Sys) {
    && t == s.(client := t.client, buffer := t.buffer, lost := t.lost, pieces := t.pieces)
    && Gone(t.client) && !s.writer && !Armed(s.client) && !s.client.Starting? && !s.client.Stopping?
    && (s.lost ==> t.lost)
    && (s.client.Failing? ==> t.lost)
    && s.machine.state != RpcReady && (RpcState(s.machine.state) ==> t.lost)
    && (t.buffer == s.buffer || t.buffer == [])
    && (s.client.Clearing? ==> t.buffer == [])
  }

  lemma RetiresTasks(s: Sys, t: Sys)
    requires Inv(s) && Retires(s, t)
    ensures Tasks(t)
  {
  }

  lemma RetiresHandover(s: Sys, t: Sys)
    requires Inv(s) && Retires(s, t)
    ensures Handover(t)
  {
  }

  lemma RetiresKeeps(s: Sys, t: Sys)
    requires Inv(s) && Retires(s, t)
    ensures Inv(t)
  {
    RetiresHandover(s, t);
    RetiresTasks(s, t);
  }

  lemma ClaimKeeps(s: Sys, raw: Option<seq<seq<Byte>>>)
    requires Inv(s) && s.client == Free
    ensures Inv(Claim(s, raw))
  {
    ClientMovesKeep(s, Claim(s, raw));
  }

  lemma CheckReadyCases(s: Sys)
    ensures CheckReady(s) == if s.machine.state == Ready then s.(client := Beginning) else s
  {
  }

  lemma CheckReadyKeeps(s: Sys)
    requires Inv(s) && s.client == Managing
    ensures Inv(CheckReady(s))
  {
    CheckReadyCases(s);
    if s.machine.state == Ready {
      BeginningKeeps(s);
    }
  }

  lemma BeginningTasks(s: Sys)
    requires Inv(s) && s.client == Managing && s.machine.state == Ready
    ensures Tasks(s.(client := Beginning))
  {
  }

  lemma BeginningHandover(s: Sys)
    requires Inv(s) && s.client == Managing && s.machine.state == Ready
    ensures Handover(s.(client := Beginning))
  {
  }

  lemma BeginningKeeps(s: Sys)
    requires Inv(s) && s.client == Managing && s.machine.state == Ready
    ensures Inv(s.(client := Beginning))
  {
    BeginningTasks(s);
    BeginningHandover(s);
  }

  lemma DrainTokenKeeps(s: Sys)
    requires Inv(s) && s.client.Draining? && s.token
    ensures Inv(DrainToken(s))
  {
    ClientMovesKeep(s, DrainToken(s));
  }

  lemma DrainedKeeps(s: Sys)
    requires Inv(s) && s.client.Draining? && !s.token
    ensures Inv(Drained(s))
  {
    ClientMovesKeep(s, Drained(s));
  }

  lemma TakeTokenKeeps(s: Sys)
    requires Inv(s) && s.client.Waiting? && s.token
    ensures Inv(TakeToken(s))
  {
    ClientMovesKeep(s, TakeToken(s));
  }

  lemma GiveUpKeeps(s: Sys)
    requires Inv(s) && s.client.Waiting?
    ensures Inv(GiveUp(s))
  {
    ClientMovesKeep(s, GiveUp(s));
  }

  lemma SkipProxyKeeps(s: Sys)
    requires Inv(s) && s.client == Begun
    ensures Inv(SkipProxy(s))
  {
    ClientMovesKeep(s, SkipProxy(s));
  }

  lemma RunProxyKeeps(s: Sys)
    requires Inv(s) && s.client == Begun && s.raw.Some?
    ensures Inv(RunProxy(s))
  {
    if s.machine.state == RpcReady {
      ClientMovesKeep(s, s.(client := Proxying, pieces := s.raw.value, writer := true));
    } else {
      RetiresKeeps(s, s.(client := Leaving, pieces := s.raw.value));
    }
  }

  lemma SubmitCases(s: Sys)
    requires s.client == Proxying && s.pieces != []
    ensures var (bytes, later) := (s.pieces[0], s.pieces[1..]);
            Submit(s) == if bytes == [] then s.(pieces := later)
                         else if s.machine.state == RpcReady
                         then s.(client := Submitting, pieces := later, rest := bytes, submitted := s.submitted + bytes)
                         else s.(client := Joining, pieces := later)
  {
  }

  lemma AcceptedMoves(s: Sys, bytes: seq<Byte>, later: seq<seq<Byte>>)
    requires Inv(s) && s.client == Proxying && s.machine.state == RpcReady && bytes != []
    ensures Inv(s.(client := Submitting, pieces := later, rest := bytes, submitted := s.submitted + bytes))
  {
    ClientMovesKeep(s, s.(client := Submitting, pieces := later, rest := bytes, submitted := s.submitted + bytes));
  }

  lemma SubmitKeeps(s: Sys)
    requires Inv(s) && s.client == Proxying && s.pieces != []
    ensures Inv(Submit(s))
  {
    var (bytes, later) := (s.pieces[0], s.pieces[1..]);
    SubmitCases(s);
    if bytes == [] {
      ClientMovesKeep(s, s.(pieces := later));
    } else if s.machine.state == RpcReady {
      AcceptedMoves(s, bytes, later);
    } else {
      ClientMovesKeep(s, s.(client := Joining, pieces := later));
    }
  }

  function FrontOf(rest: seq<Byte>): seq<Byte> {
    if |rest| < P.MAX_DATA then rest else rest[..P.MAX_DATA]
  }

  lemma NextChunkCases(s: Sys)
    ensures NextChunk(s) == s.(client := if s.rest == [] then Proxying else Draining(SendData(FrontOf(s.rest))))
  {
  }

  lemma NoChunkLeft(s: Sys)
    requires Inv(s) && s.client == Submitting && s.rest == []
    ensures Inv(s.(client := Proxying))
  {
    assert s.acked + [] == s.acked;
    ClientMovesKeep(s, s.(client := Proxying));
  }

  lemma ChunkLeft(s: Sys)
    requires Inv(s) && s.client == Submitting && s.rest != []
    ensures Inv(s.(client := Draining(SendData(FrontOf(s.rest)))))
  {
    ClientMovesKeep(s, s.(client := Draining(SendData(FrontOf(s.rest)))));
  }

  lemma NextChunkKeeps(s: Sys)
    requires Inv(s) && s.client == Submitting
    ensures Inv(NextChunk(s))
  {
    NextChunkCases(s);
    if s.rest == [] {
      NoChunkLeft(s);
    } else {
      ChunkLeft(s);
    }
  }

  lemma LeaveProxyKeeps(s: Sys)
    requires Inv(s) && s.client == Proxying
    ensures Inv(LeaveProxy(s))
  {
    ClientMovesKeep(s, LeaveProxy(s));
  }

  lemma JoinedKeeps(s: Sys)
    requires Inv(s) && s.client == Joining && !s.writer
    ensures Inv(Joined(s))
  {
    ClientMovesKeep(s, Joined(s));
  }

  lemma CheckEndedKeeps(s: Sys)
    requires Inv(s) && s.client == Checking
    ensures Inv(CheckEnded(s))
  {
    if s.machine.state == Ready {
      RetiresKeeps(s, s.(client := Leaving));
    } else {
      ClientMovesKeep(s, s.(client := Checking2));
    }
  }

  lemma CheckRunningKeeps(s: Sys)
    requires Inv(s) && s.client == Checking2
    ensures Inv(CheckRunning(s))
  {
    if s.machine.state == RpcReady {
      ClientMovesKeep(s, s.(client := Ending));
    } else {
      RetiresKeeps(s, s.(client := Leaving));
    }
  }

  lemma ClearBufferKeeps(s: Sys)
    requires Inv(s) && s.client == Clearing
    ensures Inv(ClearBuffer(s))
  {
    RetiresKeeps(s, ClearBuffer(s));
  }

  lemma DisconnectKeeps(s: Sys)
    requires Inv(s) && s.client == Managing
    ensures Inv(Disconnect(s))
  {
    ClientMovesKeep(s, Disconnect(s));
  }

  lemma ReleaseKeeps(s: Sys)
    requires Inv(s) && s.client == Leaving
    ensures Inv(Release(s))
  {
    ClientMovesKeep(s, Release(s));
  }

  lemma WriterExitKeeps(s: Sys)
    requires Inv(s) && s.writer
    ensures Inv(WriterExit(s))
  {
    ClientMovesKeep(s, WriterExit(s));
  }
}
