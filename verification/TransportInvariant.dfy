/** The inductive invariant of the transport's step system. */
module TransportInvariant {
  import opened Bytes
  import opened ExpansionStateMachine
  import opened ExpansionTransport
  import P = ExpansionProtocol

  // ----- what is in flight -----

  function Rates(up: seq<Up>): nat {
    if up == [] then 0 else (if up[0] == AskBaud then 1 else 0) + Rates(up[1..])
  }

  function Starts(up: seq<Up>): nat {
    if up == [] then 0 else (if up[0] == Ask(StartRpc) then 1 else 0) + Starts(up[1..])
  }

  predicate IsSessionRequest(f: Up) {
    f.Ask? && f.request != StartRpc
  }

  /** Data and stop requests. */
  function SessionRequests(up: seq<Up>): nat {
    if up == [] then 0 else (if IsSessionRequest(up[0]) then 1 else 0) + SessionRequests(up[1..])
  }

  function ChunkOf(f: Up): seq<seq<Byte>> {
    if f.Ask? && f.request.SendData? then [f.request.chunk] else []
  }

  function Chunks(up: seq<Up>): seq<seq<Byte>> {
    if up == [] then [] else ChunkOf(up[0]) + Chunks(up[1..])
  }

  /** No data or stop request is queued behind a start request. */
  predicate StartsLast(up: seq<Up>) {
    up == [] || ((up[0] == Ask(StartRpc) ==> SessionRequests(up[1..]) == 0) && StartsLast(up[1..]))
  }

  /** No data or stop request is queued ahead of a start request. */
  predicate StartsFirst(up: seq<Up>) {
    Starts(up) == 0 || (!IsSessionRequest(up[0]) && StartsFirst(up[1..]))
  }

  predicate IsGrant(f: Down) {
    f.Status? && f.code != P.ERROR_UNKNOWN
  }

  function Statuses(down: seq<Down>): nat {
    if down == [] then 0 else (if down[0].Status? then 1 else 0) + Statuses(down[1..])
  }

  function Grants(down: seq<Down>): nat {
    if down == [] then 0 else (if IsGrant(down[0]) then 1 else 0) + Grants(down[1..])
  }

  function PayloadOf(f: Down): seq<Byte> {
    if f.Data? then f.bytes else []
  }

  function Payload(down: seq<Down>): seq<Byte> {
    if down == [] then [] else PayloadOf(down[0]) + Payload(down[1..])
  }

  /** The data queued behind the first grant. */
  function BehindGrant(down: seq<Down>): seq<Byte> {
    if down == [] then [] else if IsGrant(down[0]) then Payload(down[1..]) else BehindGrant(down[1..])
  }

  predicate Small(down: seq<Down>) {
    forall i | 0 <= i < |down| :: down[i].Data? ==> |down[i].bytes| <= P.MAX_DATA
  }

  lemma {:induction false} UpAppend(up: seq<Up>, f: Up)
    ensures Rates(up + [f]) == Rates(up) + (if f == AskBaud then 1 else 0)
    ensures Starts(up + [f]) == Starts(up) + (if f == Ask(StartRpc) then 1 else 0)
    ensures SessionRequests(up + [f]) == SessionRequests(up) + (if IsSessionRequest(f) then 1 else 0)
    ensures Chunks(up + [f]) == Chunks(up) + ChunkOf(f)
    ensures StartsLast(up) && (IsSessionRequest(f) ==> Starts(up) == 0) ==> StartsLast(up + [f])
    ensures StartsFirst(up) && f != Ask(StartRpc) ==> StartsFirst(up + [f])
  {
    if up == [] {
      assert up + [f] == [f] && [f][1..] == [];
    } else {
      assert (up + [f])[1..] == up[1..] + [f];
      UpAppend(up[1..], f);
      assert ChunkOf(up[0]) + (Chunks(up[1..]) + ChunkOf(f)) == Chunks(up) + ChunkOf(f);
    }
  }

  lemma {:induction false} CountsAppend(down: seq<Down>, f: Down)
    ensures Statuses(down + [f]) == Statuses(down) + (if f.Status? then 1 else 0)
    ensures Grants(down + [f]) == Grants(down) + (if IsGrant(f) then 1 else 0)
    ensures Grants(down) == 0 ==> BehindGrant(down) == [] && BehindGrant(down + [f]) == []
  {
    if down == [] {
      assert down + [f] == [f] && [f][1..] == [];
    } else {
      assert (down + [f])[1..] == down[1..] + [f];
      CountsAppend(down[1..], f);
    }
  }

  lemma {:induction false} PayloadAppend(down: seq<Down>, f: Down)
    ensures Payload(down + [f]) == Payload(down) + PayloadOf(f)
  {
    var whole := down + [f];
    assert Payload(whole) == PayloadOf(whole[0]) + Payload(whole[1..]);
    if down == [] {
      assert whole[1..] == [];
      assert PayloadOf(f) + [] == [] + PayloadOf(f);
    } else {
      assert whole[1..] == down[1..] + [f];
      PayloadAppend(down[1..], f);
      Regroup(PayloadOf(down[0]), Payload(down[1..]), PayloadOf(f));
    }
  }

  lemma DownAppend(down: seq<Down>, f: Down)
    ensures Statuses(down + [f]) == Statuses(down) + (if f.Status? then 1 else 0)
    ensures Grants(down + [f]) == Grants(down) + (if IsGrant(f) then 1 else 0)
    ensures Payload(down + [f]) == Payload(down) + PayloadOf(f)
    ensures Grants(down) == 0 ==> BehindGrant(down) == [] && BehindGrant(down + [f]) == []
  {
    CountsAppend(down, f);
    PayloadAppend(down, f);
  }

  lemma {:induction false} GrantsAreStatuses(down: seq<Down>)
    ensures Grants(down) <= Statuses(down)
  {
    if down != [] {
      GrantsAreStatuses(down[1..]);
    }
  }

  lemma {:induction false} ChunksAreSessionRequests(up: seq<Up>)
    ensures |Chunks(up)| <= SessionRequests(up)
    ensures Rates(up) + Starts(up) + SessionRequests(up) == |up|
    ensures SessionRequests(up) == 0 ==> StartsFirst(up)
  {
    if up != [] {
      ChunksAreSessionRequests(up[1..]);
    }
  }

  // ----- stages -----

  /** From draining to collecting, for one kind of request. */
  predicate Calling(c: Client) {
    c.Draining? || c.Arming? || c.Sending? || c.Waiting? || c.Collecting?
  }

  /** The request has been armed: statuses are expected. */
  predicate Armed(c: Client) {
    c.Sending? || c.Waiting? || c.Collecting?
  }

  predicate Sent(c: Client) {
    c.Waiting? || c.Collecting?
  }

  predicate StartStage(c: Client) {
    ((Calling(c) || c.Failing?) && c.request == StartRpc) || c.Starting?
  }

  predicate StopStage(c: Client) {
    ((Calling(c) || c.Failing?) && c.request == StopRpc) || c.Stopping?
  }

  predicate DataCall(c: Client) {
    Calling(c) && c.request.SendData?
  }

  predicate SessionStage(c: Client) {
    || (c.Begun? || c.Proxying? || c.Submitting? || c.Joining? || c.Checking? || c.Checking2? || c.Ending?)
    || ((Calling(c) || c.Failing?) && c.request.SendData?)
  }

  predicate HasSession(c: Client) {
    SessionStage(c) || StopStage(c) || c.Clearing?
  }

  /** In a session with no chunk outstanding and none given up. */
  predicate Quiet(c: Client) {
    (c.Begun? || c.Proxying? || c.Submitting?) || (DataCall(c) && !Sent(c))
  }

  /** On the way from the proxy to the stop request. */
  predicate WindingDown(c: Client) {
    (c.Joining? || c.Checking? || c.Checking2? || c.Ending?) || ((c.Draining? || c.Arming?) && c.request == StopRpc)
  }

  /** In a session with every chunk acknowledged, and none under way. */
  predicate Idling(s: Sys) {
    Quiet(s.client) || (WindingDown(s.client) && s.tried == [])
  }

  predicate WriterStage(c: Client) {
    (c.Proxying? || c.Submitting? || c.Joining?) || DataCall(c) || (c.Failing? && c.request.SendData?)
  }

  predicate Gone(c: Client) {
    (c.Managing? || c.Leaving? || c.Free?)
  }

  /** The client's latest session belongs to the current epoch. */
  predicate Current(s: Sys) {
    s.clientEpoch == s.epoch
  }

  /** The supervisor has pulsed and not given the attempt up. */
  predicate Alive(s: Sys) {
    (s.sup.AwaitHeartbeat? || s.sup.AskRate? || s.sup.AwaitRate? || s.sup.RateAccepted? || s.sup.SetUp? || s.sup.ResetBuffer? || s.sup.Spawn? || s.sup.Watch? || s.sup.Join?)
  }

  predicate Negotiating(s: Sys) {
    (s.sup.AwaitHeartbeat? || s.sup.AskRate? || s.sup.AwaitRate? || s.sup.RateAccepted?)
  }

  predicate Connected(s: Sys) {
    (s.sup.SetUp? || s.sup.ResetBuffer? || s.sup.Spawn? || s.sup.Watch? || s.sup.Join? || s.sup.Expire?)
  }

  predicate RpcState(x: State) {
    (x.StartingRpc? || x.RpcReady? || x.StoppingRpc?)
  }

  /** The rx task may still take something in during this epoch. */
  predicate CanGo(s: Sys) {
    || s.rx.Reading? || s.rx.GotStatus? || s.rx.GotData? || s.rx.Checked? || s.rx.Storing?
    || (Alive(s) && !s.lost && !s.rx.Dropping?)
  }

  function One(b: bool): nat { if b then 1 else 0 }

  /** Requests and statuses between the bridge's write and the bridge's read. */
  function Outstanding(s: Sys): nat {
    |s.up| + Statuses(s.down) + One(s.rx.GotStatus?)
  }

  /** Statuses that grant something, or may: a rate request is counted before its answer. */
  function Granting(s: Sys): nat {
    Rates(s.up) + Grants(s.down) + One(s.rx.GotStatus? && s.rx.code != P.ERROR_UNKNOWN)
  }

  function ClientOwed(s: Sys): nat { One(Sent(s.client) && !s.settled) }

  function SupOwed(s: Sys): nat { One(s.sup.AwaitRate?) }

  /** Data from the Flipper that has left it and is not in the buffer yet. */
  function Held(s: Sys): seq<Byte> {
    if s.rx.GotData? || s.rx.Checked? || s.rx.Storing? then s.rx.bytes else []
  }

  function Flight(s: Sys): seq<Byte> { Held(s) + Payload(s.down) }

  predicate Extends(whole: seq<Byte>, part: seq<Byte>) { part <= whole }

  // ----- the invariant -----

  predicate SupervisorState(s: Sys) {
    match s.sup
    case ClearBits => (s.machine.state.Disconnected? || s.machine.state.Backoff?)
    case InitMachine => (s.machine.state.Disconnected? || s.machine.state.Backoff?)
    case ApplyStart => s.machine.state == Disconnected
    case Pulse => s.machine.state == InitialUart
    case AwaitHeartbeat => s.machine.state == InitialUart
    case AskRate => s.machine.state == NegotiatingBaud
    case AwaitRate => s.machine.state == NegotiatingBaud
    case RateAccepted => s.machine.state == NegotiatingBaud
    case Abort => true
    case _ => s.machine.state == Ready || RpcState(s.machine.state)
  }

  /** Who may be where: the supervisor fixes the state outside sessions, the client inside them. */
  predicate Control(s: Sys) {
    && s.machine.attempts <= (if (s.sup.ClearBits? || s.sup.InitMachine?) then 1 else 0)
    && SupervisorState(s)
    && (!s.rx.Off? ==> (s.sup.Watch? || s.sup.Join?))
    && s.clientEpoch <= s.epoch
    && (Negotiating(s) ==> !Current(s))
    && (RpcState(s.machine.state) ==> Current(s))
    && (s.machine.state == RpcReady ==> SessionStage(s.client))
    && (s.machine.state == StartingRpc ==> StartStage(s.client) || (s.lost && Gone(s.client)))
    && (s.machine.state == StoppingRpc ==> StopStage(s.client) || (s.lost && Gone(s.client)))
    && (Current(s) && Connected(s) ==>
          && (SessionStage(s.client) ==> s.machine.state == RpcReady)
          && (StartStage(s.client) ==> s.machine.state == StartingRpc)
          && (StopStage(s.client) ==> s.machine.state == StoppingRpc))
    && (Current(s) && (HasSession(s.client) || StartRecorded(s)) ==>
          && !(s.sup.SetUp? || s.sup.ResetBuffer? || s.sup.Spawn?)
          && (s.sup.Abort? ==> s.machine.state != Ready && !RpcState(s.machine.state)))
    && (s.writer ==> WriterStage(s.client))
    && ((s.sup.Join? || s.sup.Expire?) ==> s.lost)
    && (s.sup.Watch? && s.rx.Off? ==> s.lost)
  }

  /** A status was recorded for the start request, or its success was already read. */
  predicate StartRecorded(s: Sys) {
    (Armed(s.client) && s.client.request == StartRpc && s.recorded.Some?) || s.client.Starting?
  }

  predicate Window(s: Sys) {
    && (s.awaiting <==> Armed(s.client))
    && (s.awaiting ==> s.last == if s.recorded.Some? then s.recorded.value else P.ERROR_UNKNOWN)
  }

  /** At most one request is outstanding, its own; or the link is already given up. */
  predicate OneOutstanding(s: Sys) {
    && (Alive(s) ==>
          || Outstanding(s) <= ClientOwed(s) + SupOwed(s)
          || s.lost || s.client.Failing?
          || ((s.client.Starting? || s.client.Stopping?) && !Current(s)))
    && (Alive(s) && Current(s) && Armed(s.client) && s.recorded.Some? && (s.client.Sending? || !s.settled) ==> s.lost && !CanGo(s))
    && (Alive(s) && Current(s) && ((Armed(s.client) && s.recorded.Some?) || s.client.Starting? || Idling(s)) ==>
          Outstanding(s) == 0 || !CanGo(s))
    && (Current(s) && s.client.Sending? && s.client.request.SendData? ==> s.recorded.None?)
  }

  /** Until a start request is sent in an epoch, the Flipper opens no RPC session in it. */
  predicate NoStartYet(s: Sys) {
    && (!s.startSent ==> s.phase != InRpc && Starts(s.up) == 0)
    && (Alive(s) && !s.startSent ==> Granting(s) <= SupOwed(s))
    && (!Current(s) && HasSession(s.client) ==> !s.startSent)
  }

  /** Between sessions, nothing of an old session can reach a new one. */
  predicate Hygiene(s: Sys) {
    CanGo(s) && s.machine.state != RpcReady && s.machine.state != StoppingRpc ==>
      && StartsLast(s.up)
      && (s.phase == InRpc || Granting(s) > SupOwed(s) ==> s.got == [] && SessionRequests(s.up) == 0)
      && (s.phase == Handshake || s.phase == Idle ==> Flight(s) == [] && Granting(s) <= SupOwed(s))
      && (s.phase == InRpc ==> s.offered == Flight(s))
      && (s.phase == Dead ==> s.offered == Flight(s) || (Flight(s) == [] && Granting(s) <= SupOwed(s)))
  }

  /** Once the start is granted, the Flipper's session is new and empty. */
  predicate StartGranted(s: Sys) {
    Current(s) && StartRecorded(s) && (s.client.Starting? || s.recorded == Some(P.ERROR_NONE)) ==>
      && s.got == [] && SessionRequests(s.up) == 0
      && (s.phase == InRpc || s.phase == Dead)
      && (CanGo(s) ==> s.offered == Flight(s))
  }

  /** Stop-and-wait: what the Flipper got against what was acknowledged and submitted, from the
      start of a session until a start request of the next one is sent. */
  predicate StopAndWait(s: Sys) {
    && (HasSession(s.client) ==> s.latest)
    && (s.latest && !Current(s) ==> !s.startSent)
    && (s.latest ==>
          && |s.tried| <= P.MAX_DATA
          && Extends(s.submitted, s.acked + s.tried)
          && (s.got == s.acked || s.got == s.acked + s.tried)
          && (Quiet(s.client) ==> s.got == s.acked && s.tried == [])
          && (Sent(s.client) && s.client.request.SendData? ==> s.tried == s.client.request.chunk)
          && (s.client.Failing? && s.client.request.SendData? ==> s.tried != [])
          && (Chunks(s.up) == [] || (Chunks(s.up) == [s.tried] && s.got == s.acked && !Quiet(s.client)))
          && (Starts(s.up) > 0 ==> s.got == [] && s.acked == [] && s.enqueued == [] && !CanGo(s) && StartsFirst(s.up)))
  }

  /** The chunk in hand is the front of what send_rpc still has to send. */
  predicate ChunkInHand(s: Sys) {
    && ((s.client.Begun? || s.client.Proxying?) ==> s.submitted == s.acked)
    && (s.client == Submitting ==> s.submitted == s.acked + s.rest)
    && (DataCall(s.client) ==>
          && s.submitted == s.acked + s.rest
          && s.client.request.chunk <= s.rest && 0 < |s.client.request.chunk| <= P.MAX_DATA
          && (|s.client.request.chunk| == P.MAX_DATA || s.client.request.chunk == s.rest))
  }

  /** A status that can still be recorded for a chunk answers that chunk. */
  predicate Attribution(s: Sys) {
    && (s.client.Sending? && s.client.request.SendData? ==> s.recorded != Some(P.ERROR_NONE))
    && (Sent(s.client) && s.client.request.SendData? ==>
      && (s.recorded == Some(P.ERROR_NONE) ==>
            s.settled && s.got == s.acked + s.tried && Chunks(s.up) == [] && Starts(s.up) == 0)
      && (Current(s) && CanGo(s) && s.recorded.None? ==>
            || (s.up == [Ask(s.client.request)] && Outstanding(s) == 1)
            || (s.up == [] && Outstanding(s) <= 1 && (Granting(s) > 0 ==> s.got == s.acked + s.tried))))
  }

  /** The stop request has been granted. */
  predicate StopRecorded(s: Sys) {
    (Armed(s.client) && s.client.request == StopRpc && s.recorded == Some(P.ERROR_NONE)) || s.client.Stopping?
  }

  /** A grant of the stop request means the Flipper has left the session and sends nothing more,
      provided LOST was clear, or no chunk unacknowledged, when the request was armed. */
  predicate StopGranted(s: Sys) {
    && (Current(s) && s.clean && s.client.Sending? && s.client.request == StopRpc ==>
          s.recorded.None? && (CanGo(s) ==> Outstanding(s) == 0))
    && (Current(s) && CanGo(s) && s.clean && Sent(s.client) && s.client.request == StopRpc && s.recorded.None? ==>
          || (s.up == [Ask(StopRpc)] && Outstanding(s) == 1)
          || (&& s.up == [] && Outstanding(s) <= 1
              && (Granting(s) > 0 ==> s.phase != InRpc && (if s.rx.GotStatus? then Payload(s.down) else BehindGrant(s.down)) == []))
          )
    && (Current(s) && s.clean && StopRecorded(s) ==>
          s.up == [] && Statuses(s.down) == 0 && !s.rx.GotStatus? && Flight(s) == [] && s.phase != InRpc)
    && (Current(s) && CanGo(s) && StopRecorded(s) ==> s.clean)
    && (Current(s) && Alive(s) && (Armed(s.client) || s.client.Stopping?) && !s.clean ==> s.lost)
  }

  predicate Buffering(s: Sys) {
    s.rx.Checked? || s.rx.Storing? || s.rx.Acking?
  }

  /** Buffer bounds and who may fill the buffer. */
  predicate BufferSafe(s: Sys) {
    && |s.buffer| <= BUFFER_BYTES
    && (s.rx.Storing? ==> |s.buffer| + |s.rx.bytes| <= BUFFER_BYTES)
    && Small(s.down)
    && ((s.rx.GotData? || Buffering(s)) ==> |s.rx.bytes| <= P.MAX_DATA)
    && (Buffering(s) ==> s.machine.state == RpcReady || s.machine.state == StoppingRpc)
    && (Current(s) && ((Armed(s.client) && s.client.request == StopRpc && s.recorded.Some?) || s.client.Stopping?) ==> !Buffering(s))
    && ((s.sup.Spawn? || s.sup.Watch? || s.sup.Join? || s.sup.Expire?) && (s.machine.state.Ready? || s.machine.state.StartingRpc?) && !s.client.Clearing? ==> s.buffer == [])
  }

  /** Within a session: what was enqueued, delivered and acknowledged to the Flipper. */
  predicate Receiving(s: Sys) {
    HasSession(s.client) ==>
      && (!s.purged ==> s.enqueued == s.delivered + s.buffer)
      && (s.purged ==> !Current(s) && s.buffer == [] && Extends(s.enqueued, s.delivered))
      && Extends(s.offered, s.enqueued)
      && (Current(s) && CanGo(s) ==> s.offered == s.enqueued + Flight(s))
      && Extends(s.enqueued, s.credited) && |s.enqueued| <= |s.credited| + P.MAX_DATA
      && (s.rx.Acking? ==> s.enqueued == s.credited + s.rx.bytes)
      && (Current(s) && CanGo(s) && !s.rx.Acking? ==> s.enqueued == s.credited)
  }

  predicate Tasks(s: Sys) {
    Control(s) && Window(s) && OneOutstanding(s) && NoStartYet(s)
  }

  predicate Handover(s: Sys) {
    Hygiene(s) && StartGranted(s) && StopGranted(s)
  }

  predicate Outbound(s: Sys) {
    StopAndWait(s) && ChunkInHand(s) && Attribution(s)
  }

  predicate Inbound(s: Sys) {
    BufferSafe(s) && Receiving(s)
  }

  predicate Inv(s: Sys) {
    Tasks(s) && Handover(s) && Outbound(s) && Inbound(s)
  }

  lemma BootInv()
    ensures Inv(BOOT)
  {
  }
}
