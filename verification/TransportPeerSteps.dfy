/** Every step of a conforming Flipper keeps the invariant. */
module TransportPeerSteps {
  import opened Bytes
  import opened ExpansionStateMachine
  import opened ExpansionTransport
  import opened TransportInvariant
  import P = ExpansionProtocol

  // ----- the Flipper takes a request and may answer it -----

  function Replied(down: seq<Down>, reply: Option<Byte>): seq<Down> {
    if reply.Some? then down + [Status(reply.value)] else down
  }

  /** All that matters about the answer: it is queued last, it is at most one status, it grants
      something or not, and it carries no data. */
  predicate Answered(before: seq<Down>, down: seq<Down>, replied: bool, granted: bool) {
    && Statuses(down) == Statuses(before) + One(replied)
    && Grants(down) == Grants(before) + One(granted)
    && (granted ==> replied)
    && Payload(down) == Payload(before)
    && (Grants(before) == 0 ==> BehindGrant(down) == [])
    && (Small(before) ==> Small(down))
  }

  lemma RepliedIsAnswered(down: seq<Down>, reply: Option<Byte>)
    ensures Answered(down, Replied(down, reply), reply.Some?, reply.Some? && reply.value != P.ERROR_UNKNOWN)
  {
    if reply.Some? {
      DownAppend(down, Status(reply.value));
    } else {
      DownAppend(down, Status(P.ERROR_NONE));
    }
  }

  /** Of the refusals, only BaudRate counts as a grant, and only a rate request is refused so. */
  function Refused(s: Sys, down: seq<Down>): Sys
    requires s.up != []
  {
    s.(up := s.up[1..], down := down)
  }

  lemma RefusedOneOutstanding(s: Sys, down: seq<Down>, replied: bool, granted: bool)
    requires Inv(s) && s.up != []
    requires Answered(s.down, down, replied, granted) && (granted ==> s.up[0] == AskBaud)
    ensures OneOutstanding(Refused(s, down))
  {
    GrantsAreStatuses(s.down);
    GrantsAreStatuses(down);
  }

  lemma RefusedTasks(s: Sys, down: seq<Down>, replied: bool, granted: bool)
    requires Inv(s) && s.up != []
    requires Answered(s.down, down, replied, granted) && (granted ==> s.up[0] == AskBaud)
    ensures Tasks(Refused(s, down))
  {
    RefusedOneOutstanding(s, down, replied, granted);
    GrantsAreStatuses(s.down);
    GrantsAreStatuses(down);
  }

  lemma RefusedStopGranted(s: Sys, down: seq<Down>, replied: bool, granted: bool)
    requires Inv(s) && s.up != []
    requires Answered(s.down, down, replied, granted) && (granted ==> s.up[0] == AskBaud)
    ensures StopGranted(Refused(s, down))
  {
    GrantsAreStatuses(s.down);
    GrantsAreStatuses(down);
  }

  lemma RefusedHygiene(s: Sys, down: seq<Down>, replied: bool, granted: bool)
    requires Hygiene(s) && s.up != []
    requires Answered(s.down, down, replied, granted) && (granted ==> s.up[0] == AskBaud)
    ensures Hygiene(Refused(s, down))
  {
    GrantsAreStatuses(s.down);
    GrantsAreStatuses(down);
  }

  lemma RefusedStartGranted(s: Sys, down: seq<Down>, replied: bool, granted: bool)
    requires Inv(s) && s.up != []
    requires Answered(s.down, down, replied, granted) && (granted ==> s.up[0] == AskBaud)
    ensures StartGranted(Refused(s, down))
  {
    GrantsAreStatuses(s.down);
    GrantsAreStatuses(down);
  }

  lemma RefusedHandover(s: Sys, down: seq<Down>, replied: bool, granted: bool)
    requires Inv(s) && s.up != []
    requires Answered(s.down, down, replied, granted) && (granted ==> s.up[0] == AskBaud)
    ensures Handover(Refused(s, down))
  {
    RefusedHygiene(s, down, replied, granted);
    RefusedStartGranted(s, down, replied, granted);
    RefusedStopGranted(s, down, replied, granted);
  }

  lemma RefusedStopAndWait(s: Sys, down: seq<Down>, replied: bool, granted: bool)
    requires Inv(s) && s.up != []
    requires Answered(s.down, down, replied, granted) && (granted ==> s.up[0] == AskBaud)
    ensures StopAndWait(Refused(s, down))
  {
    GrantsAreStatuses(s.down);
    GrantsAreStatuses(down);
  }

  lemma RefusedChunkInHand(s: Sys, down: seq<Down>, replied: bool, granted: bool)
    requires Inv(s) && s.up != []
    requires Answered(s.down, down, replied, granted) && (granted ==> s.up[0] == AskBaud)
    ensures ChunkInHand(Refused(s, down))
  {
    GrantsAreStatuses(s.down);
    GrantsAreStatuses(down);
  }

  lemma RefusedAttribution(s: Sys, down: seq<Down>, replied: bool, granted: bool)
    requires Inv(s) && s.up != []
    requires Answered(s.down, down, replied, granted) && (granted ==> s.up[0] == AskBaud)
    ensures Attribution(Refused(s, down))
  {
    GrantsAreStatuses(s.down);
    GrantsAreStatuses(down);
  }

  lemma RefusedOutbound(s: Sys, down: seq<Down>, replied: bool, granted: bool)
    requires Inv(s) && s.up != []
    requires Answered(s.down, down, replied, granted) && (granted ==> s.up[0] == AskBaud)
    ensures Outbound(Refused(s, down))
  {
    RefusedStopAndWait(s, down, replied, granted);
    RefusedChunkInHand(s, down, replied, granted);
    RefusedAttribution(s, down, replied, granted);
  }

  lemma RefusedStreams(s: Sys, down: seq<Down>, replied: bool, granted: bool)
    requires Inv(s) && s.up != []
    requires Answered(s.down, down, replied, granted) && (granted ==> s.up[0] == AskBaud)
    ensures Outbound(Refused(s, down)) && Inbound(Refused(s, down))
  {
    RefusedOutbound(s, down, replied, granted);
  }

  lemma RefusedKeeps(s: Sys, down: seq<Down>, replied: bool, granted: bool)
    requires Inv(s) && s.up != []
    requires Answered(s.down, down, replied, granted) && (granted ==> s.up[0] == AskBaud)
    ensures Inv(Refused(s, down))
  {
    RefusedTasks(s, down, replied, granted);
    RefusedHandover(s, down, replied, granted);
    RefusedStreams(s, down, replied, granted);
  }

  function Rate(s: Sys, down: seq<Down>): Sys
    requires s.up != [] && s.up[0] == AskBaud && s.phase == Handshake
  {
    s.(up := s.up[1..], down := down, phase := Idle)
  }

  lemma RateOneOutstanding(s: Sys, down: seq<Down>, replied: bool, granted: bool)
    requires Inv(s) && s.up != [] && s.up[0] == AskBaud && s.phase == Handshake
    requires Answered(s.down, down, replied, granted)
    ensures OneOutstanding(Rate(s, down))
  {
    GrantsAreStatuses(s.down);
    GrantsAreStatuses(down);
  }

  lemma RateTasks(s: Sys, down: seq<Down>, replied: bool, granted: bool)
    requires Inv(s) && s.up != [] && s.up[0] == AskBaud && s.phase == Handshake
    requires Answered(s.down, down, replied, granted)
    ensures Tasks(Rate(s, down))
  {
    RateOneOutstanding(s, down, replied, granted);
    GrantsAreStatuses(s.down);
    GrantsAreStatuses(down);
  }

  lemma RateHygiene(s: Sys, down: seq<Down>, replied: bool, granted: bool)
    requires Inv(s) && s.up != [] && s.up[0] == AskBaud && s.phase == Handshake
    requires Answered(s.down, down, replied, granted)
    ensures Hygiene(Rate(s, down))
  {
    GrantsAreStatuses(s.down);
    GrantsAreStatuses(down);
  }

  lemma RateStartGranted(s: Sys, down: seq<Down>, replied: bool, granted: bool)
    requires Inv(s) && s.up != [] && s.up[0] == AskBaud && s.phase == Handshake
    requires Answered(s.down, down, replied, granted)
    ensures StartGranted(Rate(s, down))
  {
    GrantsAreStatuses(s.down);
    GrantsAreStatuses(down);
  }

  lemma RateStopGranted(s: Sys, down: seq<Down>, replied: bool, granted: bool)
    requires Inv(s) && s.up != [] && s.up[0] == AskBaud && s.phase == Handshake
    requires Answered(s.down, down, replied, granted)
    ensures StopGranted(Rate(s, down))
  {
    GrantsAreStatuses(s.down);
    GrantsAreStatuses(down);
  }

  lemma RateHandover(s: Sys, down: seq<Down>, replied: bool, granted: bool)
    requires Inv(s) && s.up != [] && s.up[0] == AskBaud && s.phase == Handshake
    requires Answered(s.down, down, replied, granted)
    ensures Handover(Rate(s, down))
  {
    RateHygiene(s, down, replied, granted);
    RateStartGranted(s, down, replied, granted);
    RateStopGranted(s, down, replied, granted);
  }

  lemma RateStreams(s: Sys, down: seq<Down>, replied: bool, granted: bool)
    requires Inv(s) && s.up != [] && s.up[0] == AskBaud && s.phase == Handshake
    requires Answered(s.down, down, replied, granted)
    ensures Outbound(Rate(s, down)) && Inbound(Rate(s, down))
  {
    GrantsAreStatuses(s.down);
    GrantsAreStatuses(down);
  }

  lemma RateKeeps(s: Sys, down: seq<Down>, replied: bool, granted: bool)
    requires Inv(s) && s.up != [] && s.up[0] == AskBaud && s.phase == Handshake
    requires Answered(s.down, down, replied, granted)
    ensures Inv(Rate(s, down))
  {
    RateTasks(s, down, replied, granted);
    RateHandover(s, down, replied, granted);
    RateStreams(s, down, replied, granted);
  }

  function Start(s: Sys, down: seq<Down>): Sys
    requires s.up != [] && s.up[0] == Ask(StartRpc) && s.phase == Idle
  {
    s.(up := s.up[1..], down := down, phase := InRpc, got := [], offered := [])
  }

  lemma StartOneOutstanding(s: Sys, down: seq<Down>, replied: bool, granted: bool)
    requires Inv(s) && s.up != [] && s.up[0] == Ask(StartRpc) && s.phase == Idle
    requires Answered(s.down, down, replied, granted)
    ensures OneOutstanding(Start(s, down))
  {
    GrantsAreStatuses(s.down);
    GrantsAreStatuses(down);
  }

  lemma StartTasks(s: Sys, down: seq<Down>, replied: bool, granted: bool)
    requires Inv(s) && s.up != [] && s.up[0] == Ask(StartRpc) && s.phase == Idle
    requires Answered(s.down, down, replied, granted)
    ensures Tasks(Start(s, down))
  {
    StartOneOutstanding(s, down, replied, granted);
    GrantsAreStatuses(s.down);
    GrantsAreStatuses(down);
  }

  lemma StartHandover(s: Sys, down: seq<Down>, replied: bool, granted: bool)
    requires Inv(s) && s.up != [] && s.up[0] == Ask(StartRpc) && s.phase == Idle
    requires Answered(s.down, down, replied, granted)
    ensures Handover(Start(s, down))
  {
    GrantsAreStatuses(s.down);
    GrantsAreStatuses(down);
  }

  lemma StartStreams(s: Sys, down: seq<Down>, replied: bool, granted: bool)
    requires Inv(s) && s.up != [] && s.up[0] == Ask(StartRpc) && s.phase == Idle
    requires Answered(s.down, down, replied, granted)
    ensures Outbound(Start(s, down)) && Inbound(Start(s, down))
  {
    GrantsAreStatuses(s.down);
    GrantsAreStatuses(down);
  }

  lemma StartKeeps(s: Sys, down: seq<Down>, replied: bool, granted: bool)
    requires Inv(s) && s.up != [] && s.up[0] == Ask(StartRpc) && s.phase == Idle
    requires Answered(s.down, down, replied, granted)
    ensures Inv(Start(s, down))
  {
    StartTasks(s, down, replied, granted);
    StartHandover(s, down, replied, granted);
    StartStreams(s, down, replied, granted);
  }

  function Stop(s: Sys, down: seq<Down>): Sys
    requires s.up != [] && s.up[0] == Ask(StopRpc) && s.phase == InRpc
  {
    s.(up := s.up[1..], down := down, phase := Idle)
  }

  lemma StopOneOutstanding(s: Sys, down: seq<Down>, replied: bool, granted: bool)
    requires Inv(s) && s.up != [] && s.up[0] == Ask(StopRpc) && s.phase == InRpc
    requires Answered(s.down, down, replied, granted)
    ensures OneOutstanding(Stop(s, down))
  {
    GrantsAreStatuses(s.down);
    GrantsAreStatuses(down);
  }

  lemma StopTasks(s: Sys, down: seq<Down>, replied: bool, granted: bool)
    requires Inv(s) && s.up != [] && s.up[0] == Ask(StopRpc) && s.phase == InRpc
    requires Answered(s.down, down, replied, granted)
    ensures Tasks(Stop(s, down))
  {
    StopOneOutstanding(s, down, replied, granted);
    GrantsAreStatuses(s.down);
    GrantsAreStatuses(down);
  }

  lemma StopHandover(s: Sys, down: seq<Down>, replied: bool, granted: bool)
    requires Inv(s) && s.up != [] && s.up[0] == Ask(StopRpc) && s.phase == InRpc
    requires Answered(s.down, down, replied, granted)
    ensures Handover(Stop(s, down))
  {
    GrantsAreStatuses(s.down);
    GrantsAreStatuses(down);
  }

  lemma StopStreams(s: Sys, down: seq<Down>, replied: bool, granted: bool)
    requires Inv(s) && s.up != [] && s.up[0] == Ask(StopRpc) && s.phase == InRpc
    requires Answered(s.down, down, replied, granted)
    ensures Outbound(Stop(s, down)) && Inbound(Stop(s, down))
  {
    GrantsAreStatuses(s.down);
    GrantsAreStatuses(down);
  }

  lemma StopKeeps(s: Sys, down: seq<Down>, replied: bool, granted: bool)
    requires Inv(s) && s.up != [] && s.up[0] == Ask(StopRpc) && s.phase == InRpc
    requires Answered(s.down, down, replied, granted)
    ensures Inv(Stop(s, down))
  {
    StopTasks(s, down, replied, granted);
    StopHandover(s, down, replied, granted);
    StopStreams(s, down, replied, granted);
  }

  function Chunk(s: Sys, down: seq<Down>): Sys
    requires s.up != [] && s.up[0].Ask? && s.up[0].request.SendData? && s.phase == InRpc
  {
    s.(up := s.up[1..], down := down, got := s.got + s.up[0].request.chunk)
  }

  lemma ChunkControl(s: Sys, down: seq<Down>, replied: bool, granted: bool)
    requires Inv(s) && s.up != [] && s.up[0].Ask? && s.up[0].request.SendData? && s.phase == InRpc
    requires Answered(s.down, down, replied, granted)
    ensures Control(Chunk(s, down))
  {
    GrantsAreStatuses(s.down);
    GrantsAreStatuses(down);
  }

  lemma ChunkWindow(s: Sys, down: seq<Down>, replied: bool, granted: bool)
    requires Inv(s) && s.up != [] && s.up[0].Ask? && s.up[0].request.SendData? && s.phase == InRpc
    requires Answered(s.down, down, replied, granted)
    ensures Window(Chunk(s, down))
  {
    GrantsAreStatuses(s.down);
    GrantsAreStatuses(down);
  }

  lemma ChunkOneOutstanding(s: Sys, down: seq<Down>, replied: bool, granted: bool)
    requires Inv(s) && s.up != [] && s.up[0].Ask? && s.up[0].request.SendData? && s.phase == InRpc
    requires Answered(s.down, down, replied, granted)
    ensures OneOutstanding(Chunk(s, down))
  {
    GrantsAreStatuses(s.down);
    GrantsAreStatuses(down);
  }

  lemma ChunkNoStartYet(s: Sys, down: seq<Down>, replied: bool, granted: bool)
    requires Inv(s) && s.up != [] && s.up[0].Ask? && s.up[0].request.SendData? && s.phase == InRpc
    requires Answered(s.down, down, replied, granted)
    ensures NoStartYet(Chunk(s, down))
  {
    GrantsAreStatuses(s.down);
    GrantsAreStatuses(down);
  }

  lemma ChunkTasks(s: Sys, down: seq<Down>, replied: bool, granted: bool)
    requires Inv(s) && s.up != [] && s.up[0].Ask? && s.up[0].request.SendData? && s.phase == InRpc
    requires Answered(s.down, down, replied, granted)
    ensures Tasks(Chunk(s, down))
  {
    ChunkControl(s, down, replied, granted);
    ChunkWindow(s, down, replied, granted);
    ChunkOneOutstanding(s, down, replied, granted);
    ChunkNoStartYet(s, down, replied, granted);
  }

  lemma ChunkHandover(s: Sys, down: seq<Down>, replied: bool, granted: bool)
    requires Inv(s) && s.up != [] && s.up[0].Ask? && s.up[0].request.SendData? && s.phase == InRpc
    requires Answered(s.down, down, replied, granted)
    ensures Handover(Chunk(s, down))
  {
    GrantsAreStatuses(s.down);
    GrantsAreStatuses(down);
  }

  lemma ChunkOutbound(s: Sys, down: seq<Down>, replied: bool, granted: bool)
    requires Inv(s) && s.up != [] && s.up[0].Ask? && s.up[0].request.SendData? && s.phase == InRpc
    requires Answered(s.down, down, replied, granted)
    ensures Outbound(Chunk(s, down))
  {
    var chunk := s.up[0].request.chunk;
    assert Chunks(s.up) == [chunk] + Chunks(s.up[1..]);
    assert |Chunks(s.up)| == 1 ==> Chunks(s.up[1..]) == [] && Chunks(s.up)[0] == chunk;
    assert |s.up| == 1 ==> s.up[1..] == [];
    GrantsAreStatuses(s.down);
    GrantsAreStatuses(down);
  }

  lemma ChunkStreams(s: Sys, down: seq<Down>, replied: bool, granted: bool)
    requires Inv(s) && s.up != [] && s.up[0].Ask? && s.up[0].request.SendData? && s.phase == InRpc
    requires Answered(s.down, down, replied, granted)
    ensures Outbound(Chunk(s, down)) && Inbound(Chunk(s, down))
  {
    ChunkOutbound(s, down, replied, granted);
  }

  lemma ChunkKeeps(s: Sys, down: seq<Down>, replied: bool, granted: bool)
    requires Inv(s) && s.up != [] && s.up[0].Ask? && s.up[0].request.SendData? && s.phase == InRpc
    requires Answered(s.down, down, replied, granted)
    ensures Inv(Chunk(s, down))
  {
    ChunkTasks(s, down, replied, granted);
    ChunkHandover(s, down, replied, granted);
    ChunkStreams(s, down, replied, granted);
  }

  lemma TakeCases(s: Sys, accept: bool, reply: Option<Byte>)
    requires s.up != [] && (accept ==> MayAccept(s.phase, s.up[0]))
    ensures PeerTake(s, accept, reply) ==
            var down := Replied(s.down, reply);
            if accept then Accepted(s, down) else Refused(s, down)
  {
  }

  function Accepted(s: Sys, down: seq<Down>): Sys
    requires s.up != [] && MayAccept(s.phase, s.up[0])
  {
    match s.up[0]
    case AskBaud => Rate(s, down)
    case Ask(StartRpc) => Start(s, down)
    case Ask(StopRpc) => Stop(s, down)
    case Ask(SendData(_)) => Chunk(s, down)
  }

  lemma AcceptedKeeps(s: Sys, down: seq<Down>, replied: bool, granted: bool)
    requires Inv(s) && s.up != [] && MayAccept(s.phase, s.up[0]) && Answered(s.down, down, replied, granted)
    ensures Inv(Accepted(s, down))
  {
    match s.up[0]
    case AskBaud => RateKeeps(s, down, replied, granted);
    case Ask(StartRpc) => StartKeeps(s, down, replied, granted);
    case Ask(StopRpc) => StopKeeps(s, down, replied, granted);
    case Ask(SendData(_)) => ChunkKeeps(s, down, replied, granted);
  }

  lemma PeerTakeKeeps(s: Sys, accept: bool, reply: Option<Byte>)
    requires Inv(s) && s.up != [] && (accept ==> MayAccept(s.phase, s.up[0])) && MayReply(s.up[0], accept, reply)
    ensures Inv(PeerTake(s, accept, reply))
  {
    var down, replied, granted := Replied(s.down, reply), reply.Some?, reply.Some? && reply.value != P.ERROR_UNKNOWN;
    RepliedIsAnswered(s.down, reply);
    TakeCases(s, accept, reply);
    if accept {
      AcceptedKeeps(s, down, replied, granted);
    } else {
      RefusedKeeps(s, down, replied, granted);
    }
  }

  // ----- the Flipper sends data, or is lost -----

  lemma PeerSendTasks(s: Sys, sent: seq<Byte>)
    requires Inv(s) && s.phase == InRpc && |sent| <= P.MAX_DATA
    ensures Tasks(PeerSend(s, sent))
  {
    DownAppend(s.down, Data(sent));
  }

  lemma SentIsInFlight(s: Sys, sent: seq<Byte>)
    ensures Flight(PeerSend(s, sent)) == Flight(s) + sent
  {
    DownAppend(s.down, Data(sent));
    assert Held(s) + (Payload(s.down) + sent) == Held(s) + Payload(s.down) + sent;
  }

  lemma PeerSendHandover(s: Sys, sent: seq<Byte>)
    requires Inv(s) && s.phase == InRpc && |sent| <= P.MAX_DATA
    ensures Handover(PeerSend(s, sent))
  {
    SentIsInFlight(s, sent);
    DownAppend(s.down, Data(sent));
  }

  lemma PeerSendOutbound(s: Sys, sent: seq<Byte>)
    requires Inv(s) && s.phase == InRpc && |sent| <= P.MAX_DATA
    ensures Outbound(PeerSend(s, sent))
  {
    DownAppend(s.down, Data(sent));
  }

  lemma PeerSendBufferSafe(s: Sys, sent: seq<Byte>)
    requires Inv(s) && s.phase == InRpc && |sent| <= P.MAX_DATA
    ensures BufferSafe(PeerSend(s, sent))
  {
  }

  lemma PeerSendInbound(s: Sys, sent: seq<Byte>)
    requires Inv(s) && s.phase == InRpc && |sent| <= P.MAX_DATA
    ensures Inbound(PeerSend(s, sent))
  {
    PeerSendBufferSafe(s, sent);
    SentIsInFlight(s, sent);
    assert s.enqueued + (Flight(s) + sent) == s.enqueued + Flight(s) + sent;
  }

  lemma PeerSendKeeps(s: Sys, sent: seq<Byte>)
    requires Inv(s) && s.phase == InRpc && |sent| <= P.MAX_DATA
    ensures Inv(PeerSend(s, sent))
  {
    PeerSendTasks(s, sent);
    PeerSendHandover(s, sent);
    PeerSendOutbound(s, sent);
    PeerSendInbound(s, sent);
  }

  lemma PeerDieOneOutstanding(s: Sys)
    requires Inv(s)
    ensures OneOutstanding(PeerDie(s))
  {
  }

  lemma PeerDieTasks(s: Sys)
    requires Inv(s)
    ensures Tasks(PeerDie(s))
  {
    PeerDieOneOutstanding(s);
  }

  lemma PeerDieHygiene(s: Sys)
    requires Inv(s)
    ensures Hygiene(PeerDie(s))
  {
  }

  lemma PeerDieStartGranted(s: Sys)
    requires Inv(s)
    ensures StartGranted(PeerDie(s))
  {
  }

  lemma PeerDieStopGranted(s: Sys)
    requires Inv(s)
    ensures StopGranted(PeerDie(s))
  {
  }

  lemma PeerDieHandover(s: Sys)
    requires Inv(s)
    ensures Handover(PeerDie(s))
  {
    PeerDieHygiene(s);
    PeerDieStartGranted(s);
    PeerDieStopGranted(s);
  }

  lemma PeerDieKeeps(s: Sys)
    requires Inv(s)
    ensures Inv(PeerDie(s))
  {
    PeerDieTasks(s);
    PeerDieHandover(s);
  }
}
