/** A whole connection: management, then the raw proxy, up to what the Flipper's decoder sees. */
module EndToEnd {
  import opened Bytes
  import opened FrameStreams
  import opened RpcProxy
  import BridgeIo
  import BridgeServer
  import opened BridgeSession
  import ServerRuns
  import P = ExpansionProtocol
  import Transport = ExpansionTransport
  import ClientSteps = TransportClientSteps
  import TransportInvariant
  import TransportReplies
  import TransportRuns
  import TransportStreams

  // ----- the TCP stream of a connection -----

  /** In raw mode the TCP stream is the requests handled, the last of them BeginRpcProxy, followed
      by the rest. */
  lemma RawStream(config: BridgeServer.Config, session: Session, s: seq<Byte>, envs: nat -> BridgeServer.Env)
    ensures var r := BridgeServer.Serve(config, session, s, envs, 0);
            r.exit.Raw? ==>
              ServerRuns.PayloadsFit(r.log) && s == ServerRuns.RequestBytes(r.log) + r.rest && ServerRuns.EndsWithBegin(r.log)
  {
    var r := BridgeServer.Serve(config, session, s, envs, 0);
    if r.exit.Raw? {
      ServerRuns.BytesAccounted(config, session, s, envs, 0);
      var bad :| ServerRuns.AccountedWith(r, s, bad);
      assert bad + r.rest == r.rest;
      ServerRuns.ServeChained(config, session, s, envs, 0);
      ServerRuns.ProxyDecision(config, r.log[|r.log| - 1]);
    }
  }

  /** The pieces handed to the proxy are the bytes not used by the management phase. */
  lemma {:induction false} PiecesAreRest(chunks: seq<seq<Byte>>, used: nat)
    requires used <= |BridgeIo.Flatten(chunks)|
    ensures BridgeIo.Flatten(BridgeServer.RawPieces(chunks, used)) == BridgeIo.Flatten(chunks)[used..]
  {
    if chunks != [] {
      BridgeIo.FlattenCons(chunks);
      if used <= |chunks[0]| {
        var pieces := [chunks[0][used..]] + chunks[1..];
        BridgeIo.FlattenCons(pieces);
        assert pieces[1..] == chunks[1..];
      } else {
        PiecesAreRest(chunks[1..], used - |chunks[0]|);
      }
    }
  }

  // ----- one connection through to the UART -----

  /** What the decoder at the other end makes of some UART output: whole frames only, whose data is a
      prefix of the raw bytes, ahead of the acknowledged ones by at most one chunk; or all of them. */
  ghost predicate Hears(output: seq<Byte>, raw: seq<Byte>, acked: nat, all: bool) {
    var heard := P.DecodeStream([], output);
    && heard.pending == [] && heard.bad == []
    && Carried(heard.frames) <= raw
    && acked <= |Carried(heard.frames)| <= acked + P.MAX_DATA
    && (all ==> Carried(heard.frames) == raw && acked == |raw|)
  }

  lemma NewFramesAreHeard(before: seq<P.Frame>, put: seq<P.Frame>, wire: seq<Byte>)
    requires P.AllWellFormed(before) && P.AllWellFormed(before + put) && wire == P.EncodeAll(before + put)
    ensures P.EncodeAll(before) <= wire
    ensures P.DecodeStream([], wire[|P.EncodeAll(before)|..]) == P.Stream(put, [], [], [])
  {
    forall i | 0 <= i < |put| ensures P.WellFormed(put[i]) {
      assert (before + put)[|before| + i] == put[i];
    }
    EncodeAllAppend(before, put);
    assert wire[|P.EncodeAll(before)|..] == P.EncodeAll(put);
    WholeFramesAreHeard(put);
  }

  lemma FlattenTaken(pieces: seq<seq<Byte>>, taken: nat)
    requires taken <= |pieces|
    ensures BridgeIo.Flatten(pieces[..taken]) <= BridgeIo.Flatten(pieces)
    ensures taken == |pieces| ==> pieces[..taken] == pieces
  {
    BridgeIo.FlattenConcat(pieces[..taken], pieces[taken..]);
    assert pieces == pieces[..taken] + pieces[taken..];
  }

  /** The carried data of a relay that took the first pieces only. */
  ghost predicate Carries(put: seq<P.Frame>, raw: seq<Byte>, acked: nat, all: bool) {
    && Carried(put) <= raw && acked <= |Carried(put)| <= acked + P.MAX_DATA
    && (all ==> Carried(put) == raw && acked == |raw|)
  }

  lemma RelayedCarries(uplink: Uplink, i: nat, j: nat, c: nat, d: nat, raw: seq<seq<Byte>>, taken: nat, acked: nat,
                       put: seq<P.Frame>, sent: bool)
    requires taken <= |raw| && uplink.Relayed(i, j, c, d, raw[..taken], acked, put, sent)
    ensures Carries(put, BridgeIo.Flatten(raw), acked, sent && taken == |raw|)
  {
    assert Detail(0);
    FlattenTaken(raw, taken);
    if !sent {
      PartCarries(uplink, i, j, c, d, raw[..taken], acked, put);
    }
  }

  lemma PartCarries(uplink: Uplink, i: nat, j: nat, c: nat, d: nat, pieces: seq<seq<Byte>>, acked: nat, put: seq<P.Frame>)
    requires uplink.RelayedPart(i, j, c, d, pieces, acked, put)
    ensures Carried(put) <= BridgeIo.Flatten(pieces) && acked <= |Carried(put)| <= acked + P.MAX_DATA
  {
    var before, last := pieces[..|pieces| - 1], pieces[|pieces| - 1];
    AddPiece(before, last);
    assert before + [last] == pieces;
    var first := i + TotalChunks(before);
    if uplink.running(d - 1) {
      NextBoundary(|last|, j - 1 - first);
    }
  }

  lemma RelayedIsHeard(uplink: Uplink, i: nat, j: nat, c: nat, d: nat, raw: seq<seq<Byte>>, taken: nat, acked: nat,
                       before: seq<P.Frame>, put: seq<P.Frame>, start: seq<Byte>, wire: seq<Byte>, sent: bool)
    requires P.AllWellFormed(before) && P.AllWellFormed(before + put)
    requires start == P.EncodeAll(before) && wire == P.EncodeAll(before + put)
    requires taken <= |raw| && uplink.Relayed(i, j, c, d, raw[..taken], acked, put, sent)
    ensures sent <==> uplink.AllAcked(i, j) && uplink.AllRunning(c, d)
    ensures start <= wire && P.DecodeStream([], wire[|start|..]) == P.Stream(put, [], [], [])
    ensures Hears(wire[|start|..], BridgeIo.Flatten(raw), acked, sent && taken == |raw|)
  {
    uplink.RelayedExactly(i, j, c, d, raw[..taken], acked, put, sent);
    RelayedCarries(uplink, i, j, c, d, raw, taken, acked, put, sent);
    NewFramesAreHeard(before, put, wire);
  }

  /** The proxy's surroundings: whether it finds the session running and gets its writer task, when
      that gives up, whether the peer hangs up in the end, and whether end_rpc then succeeds or finds
      nothing left to end. */
  datatype Surroundings = Surroundings(started: bool, writerDone: nat -> bool, hangup: bool, stopped: bool)

  /** How the proxy ended, having taken so many chunks after the left-over bytes: the result and what
      was received are decided by the acknowledgements, the session state at each call and the
      surroundings. */
  predicate ProxyEnded(uplink: Uplink, i: nat, c: nat, around: Surroundings, chunks: nat, taken: nat, ok: bool)
    reads uplink
  {
    && Open(around.writerDone, taken) && taken <= chunks
    && (Sent(uplink, i, c) ==> taken == chunks || around.writerDone(taken))
    && (ok <==> Sent(uplink, i, c) && (around.writerDone(taken) || around.hangup) && around.stopped)
  }

  /** Since then every call found the session running and every request was acknowledged. */
  predicate Sent(uplink: Uplink, i: nat, c: nat)
    reads uplink
  {
    uplink.AllAcked(i, uplink.requests) && uplink.AllRunning(c, uplink.calls)
  }

  /** What the proxy came to: how it ended, and what it put on the UART, down to the last request. */
  ghost predicate ProxyOutcome(uplink: Uplink, i: nat, c: nat, raw: seq<seq<Byte>>, around: Surroundings,
                               taken: nat, acked: nat, put: seq<P.Frame>, ok: bool)
    reads uplink
  {
    && taken < |raw| && ProxyEnded(uplink, i, c, around, |raw| - 1, taken, ok)
    && uplink.Relayed(i, uplink.requests, c, uplink.calls, raw[..taken + 1], acked, put, Sent(uplink, i, c))
  }

  /** The link carries this much: the calls for the pieces find the session running, the requests for
      their chunks are acknowledged, and the writer keeps going meanwhile. */
  ghost predicate Healthy(uplink: Uplink, i: nat, c: nat, raw: seq<seq<Byte>>, around: Surroundings)
    requires raw != []
  {
    && uplink.AllAcked(i, i + TotalChunks(raw)) && uplink.AllRunning(c, c + NonEmpty(raw))
    && Open(around.writerDone, |raw| - 1)
  }

  lemma {:induction false} CountsGrow(raw: seq<seq<Byte>>, taken: nat)
    requires taken <= |raw|
    ensures TotalChunks(raw[..taken]) <= TotalChunks(raw) && NonEmpty(raw[..taken]) <= NonEmpty(raw)
  {
    if taken < |raw| {
      CountsGrow(raw[..|raw| - 1], taken);
      assert raw[..|raw| - 1][..taken] == raw[..taken];
    } else {
      assert raw[..taken] == raw;
    }
  }

  /** A link that is healthy for these pieces, whatever becomes of it later, gets all of them through. */
  lemma HealthyDeliversAll(uplink: Uplink, i: nat, c: nat, raw: seq<seq<Byte>>, around: Surroundings,
                           taken: nat, acked: nat, put: seq<P.Frame>, ok: bool)
    requires ProxyOutcome(uplink, i, c, raw, around, taken, acked, put, ok) && Healthy(uplink, i, c, raw, around)
    ensures Sent(uplink, i, c) && taken == |raw| - 1
    ensures Carried(put) == BridgeIo.Flatten(raw) && uplink.requests == i + TotalChunks(raw)
  {
    uplink.RelayedExactly(i, uplink.requests, c, uplink.calls, raw[..taken + 1], acked, put, Sent(uplink, i, c));
    assert Detail(0);
    CountsGrow(raw, taken + 1);
    FlattenTaken(raw, taken + 1);
  }

  /** Raw mode of one connection: the proxy gets the rest of the current buffer and all later
      chunks. */
  method Proxy(uplink: Uplink, raw: seq<seq<Byte>>, around: Surroundings)
    returns (ok: bool, taken: nat, acked: nat, ghost put: seq<P.Frame>)
    requires uplink.Valid() && raw != []
    modifies uplink`requests, uplink`calls, uplink`wire, uplink`frames
    ensures uplink.Valid() && old(uplink.wire) <= uplink.wire
    ensures if around.started then
              && ProxyOutcome(uplink, old(uplink.requests), old(uplink.calls), raw, around, taken, acked, put, ok)
              && P.DecodeStream([], uplink.wire[|old(uplink.wire)|..]) == P.Stream(put, [], [], [])
              && Hears(uplink.wire[|old(uplink.wire)|..], BridgeIo.Flatten(raw), acked,
                       Sent(uplink, old(uplink.requests), old(uplink.calls)) && taken == |raw| - 1)
            else !ok && uplink.wire == old(uplink.wire) && uplink.requests == old(uplink.requests)
  {
    if !around.started {
      return false, 0, 0, [];
    }
    ghost var before, start := uplink.frames, uplink.wire;
    uplink.WireIsEncoding();
    var sent;
    ok, sent, taken, acked, put := uplink.Forward(raw[0], raw[1..], around.writerDone, around.hangup);
    ok := ok && around.stopped;
    uplink.WireIsEncoding();
    assert [raw[0]] + raw[1..] == raw;
    RelayedIsHeard(uplink, old(uplink.requests), uplink.requests, old(uplink.calls), uplink.calls, raw, taken + 1, acked, before, put,
                   start, uplink.wire, sent);
  }

  /** client_task: whatever the segmentation of the TCP stream and whatever becomes of the link, the
      data the Flipper decodes from the UART is a prefix of exactly the bytes that follow the accepted
      BeginRpcProxy request, and what is acknowledged is behind by at most one chunk. How far it goes
      is decided by the connection's own calls and requests: everything up to the first one that
      fails, or all of it. Before that request nothing reaches the UART. */
  method ServeConnection(client: BridgeServer.Client, uplink: Uplink, chunks: seq<seq<Byte>>, around: Surroundings)
    returns (exit: BridgeServer.Exit, ok: bool, taken: nat, acked: nat, ghost raw: seq<seq<Byte>>, ghost put: seq<P.Frame>)
    requires client.Valid() && client.decoder.Pending() == []
    requires client.sent == [] && client.calls == [] && client.log == []
    requires uplink.Valid()
    modifies client`sent, client`calls, client`handled, client`log, client.session, client.decoder, client.decoder.bytes
    modifies uplink`requests, uplink`calls, uplink`wire, uplink`frames
    ensures var served := BridgeServer.Serve(client.config, old(client.session.Value()), BridgeIo.Flatten(chunks), client.envs, 0);
            && exit == served.exit && old(uplink.wire) <= uplink.wire
            && (!exit.Raw? || !around.started ==> uplink.wire == old(uplink.wire) && uplink.requests == old(uplink.requests) && !ok)
            && (exit.Raw? && around.started ==>
                  && BridgeServer.HandsOver(raw, chunks, served.rest)
                  && ProxyOutcome(uplink, old(uplink.requests), old(uplink.calls), raw, around, taken, acked, put, ok)
                  && P.DecodeStream([], uplink.wire[|old(uplink.wire)|..]) == P.Stream(put, [], [], [])
                  && Hears(uplink.wire[|old(uplink.wire)|..], served.rest, acked,
                           Sent(uplink, old(uplink.requests), old(uplink.calls)) && taken == |raw| - 1))
  {
    var pieces;
    ghost var served;
    exit, pieces, served := client.Run(chunks);
    raw, ok, taken, acked, put := pieces, false, 0, 0, [];
    if exit.Raw? {
      ok, taken, acked, put := Proxy(uplink, pieces, around);
    }
  }

  /** Nothing is lost on a link that is healthy for as long as this connection needs it: the Flipper
      decodes exactly the raw bytes, and the connection succeeds if the peer hangs up at the end and
      the session can be ended. */
  method ServeHealthyConnection(client: BridgeServer.Client, uplink: Uplink, chunks: seq<seq<Byte>>, around: Surroundings,
                                ghost served: BridgeServer.Served, ghost raw: seq<seq<Byte>>)
    returns (exit: BridgeServer.Exit, ok: bool)
    requires client.Valid() && client.decoder.Pending() == []
    requires client.sent == [] && client.calls == [] && client.log == []
    requires uplink.Valid() && around.started
    requires served == BridgeServer.Serve(client.config, client.session.Value(), BridgeIo.Flatten(chunks), client.envs, 0)
    requires served.exit.Raw? ==> BridgeServer.HandsOver(raw, chunks, served.rest) && Healthy(uplink, uplink.requests, uplink.calls, raw, around)
    modifies client`sent, client`calls, client`handled, client`log, client.session, client.decoder, client.decoder.bytes
    modifies uplink`requests, uplink`calls, uplink`wire, uplink`frames
    ensures exit == served.exit && old(uplink.wire) <= uplink.wire
    ensures if exit.Raw? then
              && Hears(uplink.wire[|old(uplink.wire)|..], served.rest, |served.rest|, true)
              && (ok <==> (around.writerDone(|raw| - 1) || around.hangup) && around.stopped)
            else uplink.wire == old(uplink.wire)
  {
    var taken, acked;
    ghost var pieces, put;
    exit, ok, taken, acked, pieces, put := ServeConnection(client, uplink, chunks, around);
    if exit.Raw? {
      HealthyDeliversAll(uplink, old(uplink.requests), old(uplink.calls), raw, around, taken, acked, put, ok);
    }
  }

  // ----- many connections on one transport -----

  /** A connection as the network presents it: its chunks, and the answers of the surroundings. */
  datatype Connection = Connection(config: BridgeServer.Config, start: Session, chunks: seq<seq<Byte>>, envs: nat -> BridgeServer.Env)

  function ServedOf(c: Connection): BridgeServer.Served {
    BridgeServer.Serve(c.config, c.start, BridgeIo.Flatten(c.chunks), c.envs, 0)
  }

  /** What the proxy is handed of a connection, as computed by the receive loop. */
  function Handed(c: Connection): Option<seq<seq<Byte>>> {
    HandedAfter(c.chunks, ServedOf(c))
  }

  function HandedAfter(chunks: seq<seq<Byte>>, r: BridgeServer.Served): Option<seq<seq<Byte>>> {
    var used: int := |BridgeIo.Flatten(chunks)| - |r.rest|;
    if r.exit.Raw? && used >= 0 then Some(BridgeServer.RawPieces(chunks, used)) else None
  }

  /** The bytes of a connection that are meant for the Flipper. */
  function RawOf(c: Connection): seq<Byte> {
    RawAfter(ServedOf(c))
  }

  function RawAfter(r: BridgeServer.Served): seq<Byte> {
    if r.exit.Raw? then r.rest else []
  }

  lemma RestIsSuffix(requests: seq<Byte>, rest: seq<Byte>, tcp: seq<Byte>)
    requires tcp == requests + rest
    ensures |tcp| - |rest| == |requests| && tcp[|requests|..] == rest
  {
  }

  /** The connection's bytes in raw mode: requests, then what is meant for the Flipper. */
  ghost predicate IsSplit(c: Connection, r: BridgeServer.Served) {
    && ServerRuns.PayloadsFit(r.log) && ServerRuns.EndsWithBegin(r.log)
    && BridgeIo.Flatten(c.chunks) == ServerRuns.RequestBytes(r.log) + r.rest
  }

  lemma ConnectionSplits(c: Connection)
    ensures ServedOf(c).exit.Raw? ==> IsSplit(c, ServedOf(c))
  {
    RawStream(c.config, c.start, BridgeIo.Flatten(c.chunks), c.envs);
  }

  lemma SplitIsHanded(c: Connection, r: BridgeServer.Served)
    requires IsSplit(c, r)
    ensures var used: int := |BridgeIo.Flatten(c.chunks)| - |r.rest|;
            used >= 0 && BridgeIo.Flatten(BridgeServer.RawPieces(c.chunks, used)) == r.rest
  {
    var used := |ServerRuns.RequestBytes(r.log)|;
    RestIsSuffix(ServerRuns.RequestBytes(r.log), r.rest, BridgeIo.Flatten(c.chunks));
    PiecesAreRest(c.chunks, used);
  }

  lemma HandedAfterIsRaw(c: Connection, r: BridgeServer.Served)
    requires r.exit.Raw? ==> IsSplit(c, r)
    ensures Transport.RawBytes(HandedAfter(c.chunks, r)) == RawAfter(r) && (HandedAfter(c.chunks, r).Some? <==> r.exit.Raw?)
  {
    if r.exit.Raw? {
      SplitIsHanded(c, r);
    }
  }

  lemma HandedIsRaw(c: Connection)
    ensures Transport.RawBytes(Handed(c)) == RawOf(c) && (Handed(c).Some? <==> ServedOf(c).exit.Raw?)
  {
    ConnectionSplits(c);
    HandedAfterIsRaw(c, ServedOf(c));
  }

  predicate Claims(a: Transport.Move) {
    a.OfClient? && a.client.AClaim?
  }

  /** A run of the transport whose clients are these connections: the one that is claimed by move j
      is `connections(j)`, and if the receive loop hands it over, the proxy gets what it hands over. */
  ghost predicate JointRun(states: seq<Transport.Sys>, moves: seq<Transport.Move>, connections: nat -> Connection) {
    && Transport.IsRun(states, moves)
    && forall j: nat | j < |moves| && Claims(moves[j]) :: moves[j].client.raw == Handed(connections(j))
  }

  lemma FeedingKeepsRaw(s: Transport.Sys, c: Transport.ClientMove)
    requires Transport.ClientEnabled(s, c) && TransportStreams.Feeds(c) && !c.AClaim?
    ensures Transport.ClientNext(s, c).raw == s.raw
  {
    match c
    case ARunProxy | AApplyStarted =>
    case ASubmit => ClientSteps.SubmitCases(s);
  }

  lemma OnlyClaimsChangeRaw(s: Transport.Sys, a: Transport.Move)
    requires Transport.Enabled(s, a) && !Claims(a)
    ensures Transport.Next(s, a).raw == s.raw
  {
    match a
    case OfClient(c) =>
      if TransportStreams.Feeds(c) {
        FeedingKeepsRaw(s, c);
      } else {
        TransportStreams.OthersFeedNothing(s, c);
        assert TransportStreams.FeedOf(Transport.ClientNext(s, c)).raw == TransportStreams.FeedOf(s).raw;
      }
    case OfRx(r) => TransportStreams.RxFeedsNothing(s, r);
    case OfSupervisor(v) => TransportStreams.SupervisorFeedsNothing(s, v);
    case OfPeer(p) => TransportStreams.PeerFeedsNothing(s, p);
  }

  lemma ClientLeavesFree(s: Transport.Sys, c: Transport.ClientMove)
    requires Transport.ClientEnabled(s, c) && !c.AClaim? && s.client.Free?
    ensures Transport.ClientNext(s, c).client.Free?
  {
    match c
    case ACheckReady | AApplyBegin | ADrainToken | ADrained | AArm | ASend(_, _) | ATakeToken | AGiveUp | ACollect |
      AFail | ASkipProxy | ARunProxy | ASubmit | AApplyStarted | ANextChunk | ALeaveProxy | AJoined | ACheckEnded |
      ACheckRunning | AApplyEnd | AApplyStopped | AClearBuffer | ADisconnect | ARelease | AWriterTake(_) | AWriterExit =>
  }

  lemma OnlyClaimsLeaveFree(s: Transport.Sys, a: Transport.Move)
    requires Transport.Enabled(s, a) && !Claims(a) && s.client.Free?
    ensures Transport.Next(s, a).client.Free?
  {
    match a
    case OfClient(c) => ClientLeavesFree(s, c);
    case OfRx(r) => TransportStreams.RxFeedsNothing(s, r);
    case OfSupervisor(v) => TransportStreams.SupervisorFeedsNothing(s, v);
    case OfPeer(p) => TransportStreams.PeerFeedsNothing(s, p);
  }

  /** Move j is the last claim before state i. */
  predicate LastClaim(moves: seq<Transport.Move>, j: nat, i: nat) {
    j < i <= |moves| && Claims(moves[j]) && forall m | j < m < i :: !Claims(moves[m])
  }

  /** Only claims take the client slot and bring raw bytes in. */
  predicate ClaimStep(s: Transport.Sys, a: Transport.Move, t: Transport.Sys) {
    if Claims(a) then t.raw == a.client.raw else t.raw == s.raw && (s.client.Free? ==> t.client.Free?)
  }

  lemma RunClaimStep(states: seq<Transport.Sys>, moves: seq<Transport.Move>, i: nat)
    requires Transport.IsRun(states, moves) && i < |moves|
    ensures ClaimStep(states[i], moves[i], states[i + 1])
  {
    var s, a := states[i], moves[i];
    assert Transport.StepAt(states, moves, i);
    if !Claims(a) {
      OnlyClaimsChangeRaw(s, a);
      if s.client.Free? {
        OnlyClaimsLeaveFree(s, a);
      }
    }
  }

  lemma {:induction false} ClaimedBy(states: seq<Transport.Sys>, moves: seq<Transport.Move>, i: nat) returns (j: nat)
    requires Transport.IsRun(states, moves) && i < |states| && !states[i].client.Free?
    ensures LastClaim(moves, j, i) && states[i].raw == moves[j].client.raw
  {
    assert i > 0;
    RunClaimStep(states, moves, i - 1);
    if Claims(moves[i - 1]) {
      j := i - 1;
    } else {
      j := ClaimedBy(states, moves, i - 1);
    }
  }

  /** What holds of a session at a later moment, for the connection that opened it. */
  ghost predicate Reaches(s: Transport.Sys, frames: seq<P.Frame>, c: Connection) {
    && TransportStreams.StreamsNest(s, RawOf(c))
    && P.AllWellFormed(frames) && P.DecodeStream([], P.EncodeAll(frames)) == P.Stream(frames, [], [], [])
    && Carried(frames) == s.wired
    && (s.client.Proxying? && s.pieces == [] ==> s.acked == s.got == Carried(frames) == RawOf(c))
  }

  /** The halves together, for every interleaving of the tasks, the Flipper and any number of
      connections. A session is opened by move i and no other up to state k. Then it belongs to the
      connection claimed last before i, and the bridge's UART output since the opening decodes to
      whole frames whose data is a prefix of exactly the bytes that follow that connection's accepted
      BeginRpcProxy request; the Flipper's session has received a prefix of that data, and the
      acknowledged bytes are behind by at most one chunk. When the proxy has used up its input and is
      about to receive more, all of them have been received. A connection that does not go raw sends
      the Flipper nothing. */
  lemma RawBytesReachFlipper(connections: nat -> Connection, states: seq<Transport.Sys>, moves: seq<Transport.Move>, i: nat, k: nat)
    returns (j: nat)
    requires JointRun(states, moves, connections) && TransportStreams.SessionSpans(states, moves, i, k) && states[k].latest
    ensures LastClaim(moves, j, i)
    ensures Reaches(states[k], TransportStreams.UartFrames(states, moves, i + 1, k), connections(j))
    ensures var c := connections(j);
            if ServedOf(c).exit.Raw? then IsSplit(c, ServedOf(c)) && RawOf(c) == ServedOf(c).rest else RawOf(c) == []
  {
    assert Transport.StepAt(states, moves, i);
    OpenerIsThere(states[i], moves[i]);
    j := ClaimedBy(states, moves, i);
    HandedIsRaw(connections(j));
    ConnectionSplits(connections(j));
    TransportStreams.SessionStreams(states, moves, i, k);
    if states[k].client.Proxying? && states[k].pieces == [] {
      UsedUpIsAll(states[k], RawOf(connections(j)));
    }
  }

  lemma OpenerIsThere(s: Transport.Sys, a: Transport.Move)
    requires Transport.Enabled(s, a) && TransportRuns.Opens(s, a)
    ensures !s.client.Free?
  {
  }

  lemma UsedUpIsAll(s: Transport.Sys, raw: seq<Byte>)
    requires TransportStreams.StreamsNest(s, raw) && s.client.Proxying? && s.pieces == []
    ensures s.acked == s.got == s.wired == raw
  {
    assert s.acked + [] == s.acked;
  }

  // ----- and back -----

  /** What a connection's client is sent, up to some moment of its session: the management responses,
      then what the writer task makes of its results. */
  function TcpOutput(c: Connection, results: seq<Received>, sockets: nat -> BridgeIo.Socket): seq<Byte> {
    ServedOf(c).sent + Return(results, sockets).output
  }

  /** In the other direction, for every run: the pieces the writer task has received since the opening
      are those it took out of the stream buffer. Then the client of a raw connection is sent one
      response per request, in order, and after them a prefix of what the Flipper has sent in the
      session: all that the writer was handed while no write has failed and the session lasts, however
      often it waited in vain and however the sockets split the writes; else everything before the
      result that stopped it, and what its write took. */
  lemma RepliesReachClient(connections: nat -> Connection, states: seq<Transport.Sys>, moves: seq<Transport.Move>, i: nat, k: nat,
                           results: seq<Received>, sockets: nat -> BridgeIo.Socket)
    returns (j: nat, replies: seq<Byte>, n: nat)
    requires JointRun(states, moves, connections) && TransportStreams.SessionSpans(states, moves, i, k)
    requires TransportInvariant.HasSession(states[k].client)
    requires PiecesOf(results) == TransportReplies.PiecesTaken(states, moves, i + 1, k)
    ensures LastClaim(moves, j, i)
    ensures TcpOutput(connections(j), results, sockets) == ServedOf(connections(j)).sent + replies
    ensures replies <= states[k].delivered <= states[k].offered
    ensures PassesUpTo(results, sockets, n)
    ensures replies == BridgeIo.Flatten(PiecesOf(results[..n])) + LastWrite(results, sockets, n)
    ensures n == |results| ==> replies == states[k].delivered
    ensures var c := connections(j);
            var r := ServedOf(c);
            r.exit.Raw? ==>
              && ServerRuns.AllWellFormed(ServerRuns.Due(c.config, r)) && |ServerRuns.Due(c.config, r)| == |r.log|
              && r.sent == ServerRuns.EncodeAll(ServerRuns.Due(c.config, r))
  {
    assert Transport.StepAt(states, moves, i);
    OpenerIsThere(states[i], moves[i]);
    j := ClaimedBy(states, moves, i);
    replies := Return(results, sockets).output;
    ReturnIsPrefix(results, sockets);
    n := ReturnExactly(results, sockets);
    TransportReplies.SessionReplies(states, moves, i, k);
    var c := connections(j);
    ServerRuns.ResponsesInOrder(c.config, c.start, BridgeIo.Flatten(c.chunks), c.envs, 0);
  }
}
