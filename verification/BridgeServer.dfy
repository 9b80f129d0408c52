/** One client connection: the dispatcher, the receive loop around the resumable decoder, and the
    switch to raw mode in the middle of a received buffer. */
module BridgeServer {
  import opened Bytes
  import BridgeIo
  import BridgeMessage
  import opened BridgeSession

  type Message = BridgeMessage.Message
  type Mac = s: seq<Byte> | |s| == HMAC_BYTES witness Zeros(HMAC_BYTES)

  /** The pairing secret and the keyed hash, which may fail. */
  datatype Config = Config(secret: seq<Byte>, hmac: (seq<Byte>, seq<Byte>) -> Option<Mac>)

  /** What the surroundings answer while one request is handled: the transport state, the outcome of
      the RPC start, the JSON text of an info or status request, and how the socket takes the
      response. */
  datatype Env = Env(ready: bool, beginOk: bool, json: Option<seq<Byte>>, socket: BridgeIo.Socket)

  datatype Call = RequestReconnect | BeginRpc(ok: bool) | EndRpc

  datatype Reply = Reply(status: Byte, payload: seq<Byte>)

  /** The dispatcher's decision before anything is sent. `fatal` ends the connection after the
      reply; `proxy` asks for raw mode once the reply is out. */
  datatype Decision = Decision(session: Session, reply: Option<Reply>, fatal: bool, proxy: bool, calls: seq<Call>)

  function Answer(session: Session, status: Byte, payload: seq<Byte>): Decision {
    Decision(session, Some(Reply(status, payload)), false, false, [])
  }

  function Decide(config: Config, session: Session, request: Message, env: Env): Decision {
    if request.flags != 0 || request.status != BridgeMessage.OK then Answer(session, BridgeMessage.MALFORMED, [])
    else if request.version != BridgeMessage.VERSION then Answer(session, BridgeMessage.UNSUPPORTED, [])
    else if request.command == BridgeMessage.HELLO then DecideHello(session, request)
    else if request.command == BridgeMessage.AUTHENTICATE then DecideProof(config, session, request)
    else if session.state != Authenticated then Answer(session, BridgeMessage.UNAUTHORIZED, [])
    else DecideAuthenticated(session, request, env)
  }

  function DecideHello(session: Session, request: Message): Decision {
    if |request.payload| != NONCE_BYTES || session.state != AwaitingHello then
      Answer(session, BridgeMessage.INVALID_STATE, [])
    else
      Answer(session.(state := AwaitingAuthentication, clientNonce := request.payload),
             BridgeMessage.OK, session.bridgeNonce + session.sessionId)
  }

  function DecideProof(config: Config, session: Session, request: Message): Decision {
    if session.state != AwaitingAuthentication || |request.payload| != HMAC_BYTES then
      Answer(session, BridgeMessage.INVALID_STATE, [])
    else if config.hmac(config.secret, Material(session.clientNonce, session.bridgeNonce, session.sessionId))
            == Some(request.payload) then
      Answer(session.(state := Authenticated), BridgeMessage.OK, [])
    else
      Answer(session, BridgeMessage.UNAUTHORIZED, []).(fatal := true)
  }

  function DecideAuthenticated(session: Session, request: Message, env: Env): Decision {
    if request.command == BridgeMessage.PING then Answer(session, BridgeMessage.OK, request.payload)
    else if request.command == BridgeMessage.BEGIN_PROXY then
      if request.payload != [] || !env.ready then
        Answer(session, BridgeMessage.UNAVAILABLE, []).(calls := [RequestReconnect])
      else if !env.beginOk then
        Answer(session, BridgeMessage.UNAVAILABLE, []).(calls := [BeginRpc(false)])
      else
        Answer(session.(state := Proxying), BridgeMessage.OK, []).(proxy := true, calls := [BeginRpc(true)])
    else if request.command in {BridgeMessage.GET_INFO, BridgeMessage.GET_STATUS, BridgeMessage.END_PROXY} then
      if request.payload != [] then Answer(session, BridgeMessage.MALFORMED, [])
      else if request.command == BridgeMessage.END_PROXY then Answer(session, BridgeMessage.OK, [])
      else if env.json.None? || |env.json.value| >= BridgeMessage.MAX_PAYLOAD then
        Decision(session, None, true, false, [])
      else Answer(session, BridgeMessage.OK, env.json.value)
    else Answer(session, BridgeMessage.INVALID_STATE, [])
  }

  function ResponseTo(request: Message, reply: Reply): Message {
    BridgeMessage.Message(BridgeMessage.VERSION, request.command, BridgeMessage.RESPONSE_FLAG,
                          reply.status, request.id, reply.payload)
  }

  /** The bytes the socket takes of one write, and whether it took them all. */
  function Written(bytes: seq<Byte>, socket: BridgeIo.Socket): (r: (seq<Byte>, bool))
    ensures r.0 <= bytes && (r.1 <==> r.0 == bytes)
  {
    BridgeIo.Outcome(socket, bytes, 0)
  }

  /** A response the encoder refuses is never sent and counts as a failure. */
  function Transmit(request: Message, reply: Reply, socket: BridgeIo.Socket): (seq<Byte>, bool) {
    var response := ResponseTo(request, reply);
    if BridgeMessage.Encodable(response) then Written(BridgeMessage.Encode(response), socket) else ([], false)
  }

  /** The request that stands in for a message whose header could not be accepted. */
  const FALLBACK: Message := BridgeMessage.Message(BridgeMessage.VERSION, BridgeMessage.HELLO, 0, BridgeMessage.OK, 0, [])

  datatype Handled = Handled(session: Session, sent: seq<Byte>, ok: bool, proxy: bool, calls: seq<Call>)

  function Handle(config: Config, session: Session, request: Message, env: Env): Handled {
    var d := Decide(config, session, request, env);
    if d.reply.None? then Handled(d.session, [], false, false, d.calls)
    else
      var (sent, ok) := Transmit(request, d.reply.value, env.socket);
      Handled(d.session, sent, ok && !d.fatal, d.proxy && ok,
              d.calls + (if d.proxy && !ok then [EndRpc] else []))
  }

  datatype Exit =
    | Waiting                                      // the input ended inside a message
    | HeaderRefused(verdict: BridgeMessage.Decoded) // the decoder reported an error
    | HandlerFailed                                // the handler asked to close
    | Raw                                          // raw mode

  datatype Entry = Entry(request: Message, session: Session, env: Env)

  /** One connection served over a whole byte stream: everything sent, the transport calls, the
      requests handled with the session they met, how it ended and the bytes after that point. */
  datatype Served = Served(sent: seq<Byte>, calls: seq<Call>, log: seq<Entry>, last: Session, exit: Exit, rest: seq<Byte>)

  function Serve(config: Config, session: Session, s: seq<Byte>, envs: nat -> Env, n: nat): Served
    decreases |s|
  {
    var p := BridgeMessage.Parse(s);
    match p.verdict
    case NeedMore => Served([], [], [], session, Waiting, s)
    case Ready(request) =>
      var h := Handle(config, session, request, envs(n));
      var entry := Entry(request, session, envs(n));
      var rest := s[p.length..];
      if !h.ok then Served(h.sent, h.calls, [entry], h.session, HandlerFailed, rest)
      else if h.proxy then Served(h.sent, h.calls, [entry], h.session, Raw, rest)
      else Continue(h.sent, h.calls, [entry], Serve(config, h.session, rest, envs, n + 1))
    case _ =>
      var status := if p.verdict.TooLarge? then BridgeMessage.TOO_LARGE else BridgeMessage.MALFORMED;
      Served(Transmit(FALLBACK, Reply(status, []), envs(n).socket).0, [], [], session, HeaderRefused(p.verdict), s[p.length..])
  }

  function Continue(sent: seq<Byte>, calls: seq<Call>, log: seq<Entry>, r: Served): Served {
    r.(sent := sent + r.sent, calls := calls + r.calls, log := log + r.log)
  }

  /** What the proxy is handed once the management phase has used so many bytes: the rest of the
      chunk that holds the last of them, then the chunks not yet received. */
  function RawPieces(chunks: seq<seq<Byte>>, used: nat): seq<seq<Byte>> {
    if chunks == [] then []
    else if used <= |chunks[0]| then [chunks[0][used..]] + chunks[1..]
    else RawPieces(chunks[1..], used - |chunks[0]|)
  }

  class Client {
    const config: Config
    const envs: nat -> Env
    const session: BridgeSession
    const decoder: BridgeMessage.Decoder
    var handled: nat        // requests handled so far: selects the surroundings' answers
    var sent: seq<Byte>     // bytes the socket has taken
    var calls: seq<Call>    // calls made on the transport
    ghost var log: seq<Entry>
    ghost const future: (Session, seq<Byte>, nat) -> Served   // Serve, for this connection

    ghost predicate Valid()
      reads this, session, decoder, decoder.bytes
    {
      && decoder.Valid() && Sized(session.Value()) && handled == |log|
      && forall s, input, n: nat {:trigger Serve(config, s, input, envs, n)} :: future(s, input, n) == Serve(config, s, input, envs, n)
    }

    constructor (config: Config, envs: nat -> Env, bridgeNonce: seq<Byte>, sessionId: seq<Byte>)
      requires |bridgeNonce| == NONCE_BYTES && |sessionId| == SESSION_ID_BYTES
      ensures Valid() && fresh(session) && fresh(decoder) && fresh(decoder.bytes)
      ensures session.Value() == Fresh(bridgeNonce, sessionId) && decoder.Pending() == []
      ensures sent == [] && calls == [] && log == [] && this.config == config && this.envs == envs
    {
      this.config := config;
      this.envs := envs;
      session := new BridgeSession(bridgeNonce, sessionId);
      decoder := new BridgeMessage.Decoder();
      handled, sent, calls, log := 0, [], [], [];
      future := (s, input, n: nat) => Serve(config, s, input, envs, n);
    }

    /** Encodes into a stack buffer and writes it out. */
    method SendResponse(request: Message, reply: Reply, socket: BridgeIo.Socket) returns (ok: bool)
      modifies this`sent
      ensures (sent, ok) == (old(sent) + Transmit(request, reply, socket).0, Transmit(request, reply, socket).1)
    {
      assert sent + [] == sent;
      if |reply.payload| > BridgeMessage.MAX_PAYLOAD { return false; }
      var buffer := new Byte[BridgeMessage.MAX_MESSAGE](_ => 0);
      var encoded, size := BridgeMessage.EncodeMessage(ResponseTo(request, reply), buffer);
      if !encoded { return false; }
      assert buffer[..size] == BridgeMessage.Encode(ResponseTo(request, reply));
      var taken, writes;
      ok, taken, writes := BridgeIo.WriteAll(socket, buffer[..size]);
      sent := sent + BridgeIo.Flatten(taken);
    }

    method HandleAuthenticated(request: Message, env: Env) returns (ok: bool, beginProxy: bool)
      requires session.state == Authenticated
      modifies this`sent, this`calls, session
      ensures var d := DecideAuthenticated(old(session.Value()), request, env);
        && session.Value() == d.session
        && (d.reply.None? ==> !ok && !beginProxy && sent == old(sent) && calls == old(calls) + d.calls)
        && (d.reply.Some? ==>
            var (bytes, complete) := Transmit(request, d.reply.value, env.socket);
            && sent == old(sent) + bytes && ok == complete && beginProxy == (d.proxy && complete)
            && calls == old(calls) + d.calls + (if d.proxy && !complete then [EndRpc] else []))
    {
      beginProxy := false;
      if request.command == BridgeMessage.GET_INFO || request.command == BridgeMessage.GET_STATUS {
        if request.payload != [] {
          ok := SendResponse(request, Reply(BridgeMessage.MALFORMED, []), env.socket);
          return;
        }
        if env.json.None? || |env.json.value| >= BridgeMessage.MAX_PAYLOAD { return false, false; }
        ok := SendResponse(request, Reply(BridgeMessage.OK, env.json.value), env.socket);
      } else if request.command == BridgeMessage.PING {
        ok := SendResponse(request, Reply(BridgeMessage.OK, request.payload), env.socket);
      } else if request.command == BridgeMessage.BEGIN_PROXY {
        if request.payload != [] || !env.ready {
          calls := calls + [RequestReconnect];
          ok := SendResponse(request, Reply(BridgeMessage.UNAVAILABLE, []), env.socket);
          return;
        }
        calls := calls + [BeginRpc(env.beginOk)];
        if !env.beginOk {
          ok := SendResponse(request, Reply(BridgeMessage.UNAVAILABLE, []), env.socket);
          return;
        }
        var begun := session.BeginProxy();
        if !begun {
          assert false;
        }
        beginProxy := true;
        ok := SendResponse(request, Reply(BridgeMessage.OK, []), env.socket);
        if !ok {
          beginProxy := false;
          calls := calls + [EndRpc];
        }
      } else if request.command == BridgeMessage.END_PROXY {
        var status := if request.payload != [] then BridgeMessage.MALFORMED else BridgeMessage.OK;
        ok := SendResponse(request, Reply(status, []), env.socket);
      } else {
        ok := SendResponse(request, Reply(BridgeMessage.INVALID_STATE, []), env.socket);
      }
    }

    method HandleHello(request: Message, env: Env) returns (ok: bool)
      requires Sized(session.Value())
      modifies this`sent, session
      ensures var d := DecideHello(old(session.Value()), request);
        && Sized(d.session) && session.Value() == d.session
        && (sent, ok) == (old(sent) + Transmit(request, d.reply.value, env.socket).0, Transmit(request, d.reply.value, env.socket).1)
    {
      var accepted := false;
      if |request.payload| == NONCE_BYTES {
        accepted := session.AcceptHello(request.payload);
      }
      if !accepted {
        ok := SendResponse(request, Reply(BridgeMessage.INVALID_STATE, []), env.socket);
        return;
      }
      ok := SendResponse(request, Reply(BridgeMessage.OK, session.bridgeNonce + session.sessionId), env.socket);
    }

    method HandleProof(request: Message, env: Env) returns (ok: bool)
      requires Sized(session.Value())
      modifies this`sent, session
      ensures var d := DecideProof(config, old(session.Value()), request);
        && Sized(d.session) && session.Value() == d.session
        && sent == old(sent) + Transmit(request, d.reply.value, env.socket).0
        && ok == (Transmit(request, d.reply.value, env.socket).1 && !d.fatal)
    {
      if session.state != AwaitingAuthentication || |request.payload| != HMAC_BYTES {
        ok := SendResponse(request, Reply(BridgeMessage.INVALID_STATE, []), env.socket);
        return;
      }
      var material := new Byte[128](_ => 0);
      var size := session.AuthMaterial(material);
      var expected := config.hmac(config.secret, material[..size]);
      var valid := false;
      if expected.Some? {
        valid := session.Authenticate(expected.value, request.payload);
      }
      if !valid {
        var _ := SendResponse(request, Reply(BridgeMessage.UNAUTHORIZED, []), env.socket);
        return false;
      }
      ok := SendResponse(request, Reply(BridgeMessage.OK, []), env.socket);
    }

    method HandleManagement(request: Message, env: Env) returns (ok: bool, beginProxy: bool)
      requires Sized(session.Value())
      modifies this`sent, this`calls, session
      ensures Sized(session.Value())
      ensures Handled(session.Value(), sent, ok, beginProxy, calls)
           == var h := Handle(config, old(session.Value()), request, env);
              h.(sent := old(sent) + h.sent, calls := old(calls) + h.calls)
    {
      beginProxy := false;
      if request.flags != 0 || request.status != BridgeMessage.OK {
        ok := SendResponse(request, Reply(BridgeMessage.MALFORMED, []), env.socket);
        return;
      }
      if request.version != BridgeMessage.VERSION {
        ok := SendResponse(request, Reply(BridgeMessage.UNSUPPORTED, []), env.socket);
        return;
      }
      if request.command == BridgeMessage.HELLO {
        ok := HandleHello(request, env);
        return;
      }
      if request.command == BridgeMessage.AUTHENTICATE {
        ok := HandleProof(request, env);
        return;
      }
      if session.state != Authenticated {
        ok := SendResponse(request, Reply(BridgeMessage.UNAUTHORIZED, []), env.socket);
        return;
      }
      ok, beginProxy := HandleAuthenticated(request, env);
    }

    /** The whole connection is what has happened so far, then serving the input still to come. */
    ghost predicate Remains(whole: Served, input: seq<Byte>)
      reads this, session
    {
      whole == Continue(sent, calls, log, future(session.Value(), input, handled))
    }

    /** The input starts with a message: handle it. */
    method Dispatch(request: Message, ghost input: seq<Byte>, ghost rest: seq<Byte>, ghost whole: Served)
      returns (exit: Exit)
      requires Valid() && Remains(whole, input)
      requires BridgeMessage.Parse(input).verdict == BridgeMessage.Ready(request)
      requires input[BridgeMessage.Parse(input).length..] == rest
      modifies this`sent, this`calls, this`handled, this`log, session
      ensures Valid()
      ensures exit.Waiting? ==> Remains(whole, rest)
      ensures !exit.Waiting? ==> whole == Served(sent, calls, log, session.Value(), exit, rest)
    {
      ghost var sent0, calls0, log0, before := sent, calls, log, session.Value();
      var env := envs(handled);
      ServeReady(config, before, input, envs, handled, request, rest);
      var ok, beginProxy := HandleManagement(request, env);
      ghost var h := Handle(config, before, request, env);
      log := log + [Entry(request, before, env)];
      handled := handled + 1;
      if !ok { return HandlerFailed; }
      if beginProxy { return Raw; }
      ContinueTwice(sent0, calls0, log0, h.sent, h.calls, [Entry(request, before, env)],
                    Serve(config, h.session, rest, envs, handled));
      return Waiting;
    }

    /** The input starts with a header the decoder refused: say so and stop. */
    method Refuse(decoded: BridgeMessage.Decoded, ghost input: seq<Byte>, ghost rest: seq<Byte>, ghost whole: Served)
      returns (exit: Exit)
      requires Valid() && Remains(whole, input)
      requires decoded == BridgeMessage.Parse(input).verdict && !decoded.NeedMore? && !decoded.Ready?
      requires input[BridgeMessage.Parse(input).length..] == rest
      modifies this`sent
      ensures Valid()
      ensures exit == HeaderRefused(decoded) && whole == Served(sent, calls, log, session.Value(), exit, rest)
    {
      assert whole == Continue(sent, calls, log, Serve(config, session.Value(), input, envs, handled));
      var status := if decoded.TooLarge? then BridgeMessage.TOO_LARGE else BridgeMessage.MALFORMED;
      var _ := SendResponse(FALLBACK, Reply(status, []), envs(handled).socket);
      assert calls + [] == calls && log + [] == log;
      return HeaderRefused(decoded);
    }

    /** One decoder call: it waits for more, or takes a message or a refused header off the input. */
    method PushNext(bytes: seq<Byte>, ghost later: seq<Byte>, ghost input: seq<Byte>)
      returns (decoded: BridgeMessage.Decoded, consumed: nat, ghost next: seq<Byte>)
      requires decoder.Valid() && bytes != [] && input == decoder.Pending() + bytes + later
      modifies decoder, decoder.bytes
      ensures decoder.Valid() && 0 < consumed <= |bytes|
      ensures next == decoder.Pending() + bytes[consumed..] + later
      ensures decoded.NeedMore? ==> next == input
      ensures !decoded.NeedMore? ==> decoded == BridgeMessage.Parse(input).verdict
      ensures !decoded.NeedMore? ==> input[BridgeMessage.Parse(input).length..] == next == bytes[consumed..] + later
    {
      ghost var p := decoder.Pending();
      var payload := new Byte[BridgeMessage.MAX_PAYLOAD](_ => 0);
      decoded, consumed := decoder.Push(bytes, payload);
      AfterPush(p, bytes, later, decoded, consumed);
      next := decoder.Pending() + bytes[consumed..] + later;
      assert [] + bytes[consumed..] + later == bytes[consumed..] + later;
    }

    /** One decoder call and, when it yields a message, its dispatch. */
    method ServeNext(bytes: seq<Byte>, ghost later: seq<Byte>, ghost input: seq<Byte>, ghost whole: Served)
      returns (exit: Exit, consumed: nat, ghost next: seq<Byte>)
      requires Valid() && bytes != []
      requires Remains(whole, input) && input == decoder.Pending() + bytes + later
      modifies this`sent, this`calls, this`handled, this`log, session, decoder, decoder.bytes
      ensures Valid()
      ensures 0 < consumed <= |bytes|
      ensures exit.Waiting? ==> Remains(whole, next) && next == decoder.Pending() + bytes[consumed..] + later
      ensures !exit.Waiting? ==> whole == Served(sent, calls, log, session.Value(), exit, bytes[consumed..] + later)
    {
      var decoded;
      decoded, consumed, next := PushNext(bytes, later, input);
      if decoded.NeedMore? {
        return Waiting, consumed, next;
      }
      exit := React(decoded, input, next, whole);
    }

    method React(decoded: BridgeMessage.Decoded, ghost input: seq<Byte>, ghost rest: seq<Byte>, ghost whole: Served)
      returns (exit: Exit)
      requires Valid() && Remains(whole, input)
      requires decoded == BridgeMessage.Parse(input).verdict && !decoded.NeedMore?
      requires input[BridgeMessage.Parse(input).length..] == rest
      modifies this`sent, this`calls, this`handled, this`log, session
      ensures Valid()
      ensures exit.Waiting? ==> Remains(whole, rest)
      ensures !exit.Waiting? ==> whole == Served(sent, calls, log, session.Value(), exit, rest)
    {
      if decoded.Ready? {
        exit := Dispatch(decoded.message, input, rest, whole);
      } else {
        exit := Refuse(decoded, input, rest, whole);
      }
    }

    /** One received chunk: decode, dispatch and, in raw mode, leave the rest of the chunk alone. */
    method ServeChunk(chunk: seq<Byte>, ghost later: seq<Byte>, ghost input: seq<Byte>, ghost whole: Served)
      returns (exit: Exit, leftover: seq<Byte>, ghost next: seq<Byte>)
      requires Valid() && Remains(whole, input) && input == decoder.Pending() + chunk + later
      modifies this`sent, this`calls, this`handled, this`log, session, decoder, decoder.bytes
      ensures Valid()
      ensures exit.Waiting? ==> leftover == [] && Remains(whole, next) && next == decoder.Pending() + later
      ensures !exit.Waiting? ==> whole == Served(sent, calls, log, session.Value(), exit, leftover + later)
      ensures !exit.Waiting? ==> IsRestOf(leftover, chunk)
    {
      var offset := 0;
      next := input;
      ChunkWhole(chunk);
      while offset < |chunk|
        invariant offset <= |chunk|
        invariant Valid() && Remains(whole, next) && next == decoder.Pending() + chunk[offset..] + later
      {
        var consumed;
        exit, consumed, next := ServeNext(chunk[offset..], later, next, whole);
        ChunkAfter(chunk, offset, consumed);
        offset := offset + consumed;
        if !exit.Waiting? { return exit, chunk[offset..], next; }
      }
      ChunkDone(decoder.Pending(), chunk, later);
      return Waiting, [], next;
    }

    /** With nothing left but the start of a message, the connection waits. */
    lemma Rests(whole: Served, pending: seq<Byte>)
      requires Valid() && Remains(whole, pending) && BridgeMessage.Parse(pending).verdict.NeedMore?
      ensures whole == Served(sent, calls, log, session.Value(), Waiting, pending)
    {
      assert whole == Continue(sent, calls, log, Serve(config, session.Value(), pending, envs, handled));
      assert sent + [] == sent && calls + [] == calls && log + [] == log;
    }

    /** The receive loop: chunk after chunk until the connection is decided. */
    method ReceiveLoop(chunks: seq<seq<Byte>>, ghost input: seq<Byte>, ghost whole: Served)
      returns (exit: Exit, leftover: seq<Byte>, next: nat)
      requires Valid() && Remains(whole, input) && input == decoder.Pending() + BridgeIo.Flatten(chunks)
      modifies this`sent, this`calls, this`handled, this`log, session, decoder, decoder.bytes
      ensures next <= |chunks|
      ensures exit.Waiting? ==> whole == Served(sent, calls, log, session.Value(), Waiting, whole.rest)
      ensures !exit.Waiting? ==>
        whole == Served(sent, calls, log, session.Value(), exit, leftover + BridgeIo.Flatten(chunks[next..]))
      ensures !exit.Waiting? ==> 0 < next && IsRestOf(leftover, chunks[next - 1])
    {
      ghost var rest := input;
      next := 0;
      assert chunks[0..] == chunks;
      while next < |chunks|
        invariant next <= |chunks|
        invariant Valid() && Remains(whole, rest) && rest == decoder.Pending() + BridgeIo.Flatten(chunks[next..])
      {
        ghost var later := BridgeIo.Flatten(chunks[next + 1..]);
        NextChunk(decoder.Pending(), chunks, next);
        exit, leftover, rest := ServeChunk(chunks[next], later, rest, whole);
        next := next + 1;
        if !exit.Waiting? { return; }
      }
      assert chunks[next..] == [] && rest == decoder.Pending();
      Rests(whole, rest);
      return Waiting, [], next;
    }

    /** The connection from the first byte to raw mode or the end. `chunks` is what successive
        receive calls return; `raw` is what the proxy gets: the rest of the current buffer first,
        then the chunks not yet received, exactly as they were split. */
    method Run(chunks: seq<seq<Byte>>) returns (exit: Exit, raw: seq<seq<Byte>>, ghost served: Served)
      requires Valid() && decoder.Pending() == [] && sent == [] && calls == [] && log == []
      modifies this`sent, this`calls, this`handled, this`log, session, decoder, decoder.bytes
      ensures served == Serve(config, old(session.Value()), BridgeIo.Flatten(chunks), envs, 0)
      ensures (sent, calls, log, exit) == (served.sent, served.calls, served.log, served.exit)
      ensures exit.Raw? ==> HandsOver(raw, chunks, served.rest)
      ensures !exit.Raw? ==> raw == []
      ensures session.state == Closed
    {
      ghost var input := BridgeIo.Flatten(chunks);
      served := Serve(config, session.Value(), input, envs, 0);
      ContinueNothing(served);
      assert [] + input == input;
      var leftover, next;
      exit, leftover, next := ReceiveLoop(chunks, input, served);
      raw := if exit.Raw? then [leftover] + chunks[next..] else [];
      if exit.Raw? {
        HandedPieces(chunks, next, leftover, served.rest);
      }
      session.Close();
    }
  }

  /** What one decoder call says about the whole input, buffered bytes first. */
  lemma AfterPush(p: seq<Byte>, bytes: seq<Byte>, later: seq<Byte>, decoded: BridgeMessage.Decoded, consumed: nat)
    requires BridgeMessage.Parse(p).verdict.NeedMore? && bytes != [] && consumed <= |bytes|
    requires BridgeMessage.Parse(p + bytes) == BridgeMessage.Parsed(decoded, |p| + consumed)
    ensures consumed > 0
    ensures decoded.NeedMore? ==> p + bytes + bytes[consumed..] + later == p + bytes + later
    ensures !decoded.NeedMore? ==> BridgeMessage.Parse(p + bytes + later).verdict == decoded
    ensures !decoded.NeedMore? ==>
      (p + bytes + later)[BridgeMessage.Parse(p + bytes + later).length..] == bytes[consumed..] + later
  {
    BridgeMessage.ParseStable(p + bytes, later);
    BridgeMessage.ParseStable(p, bytes);
    if decoded.NeedMore? {
      assert bytes[consumed..] == [];
    } else if consumed == 0 {
      assert p + bytes == p + bytes;
      BridgeMessage.ParseStable((p + bytes)[..|p|], bytes);
    }
  }

  /** Part of a received chunk has been used, and this is left. */
  predicate IsRestOf(leftover: seq<Byte>, chunk: seq<Byte>) {
    |leftover| < |chunk| && leftover == chunk[|chunk| - |leftover|..]
  }

  lemma {:induction false} PiecesAfter(chunks: seq<seq<Byte>>, next: nat, leftover: seq<Byte>)
    requires 0 < next <= |chunks| && IsRestOf(leftover, chunks[next - 1])
    ensures var rest := |leftover + BridgeIo.Flatten(chunks[next..])|;
            rest <= |BridgeIo.Flatten(chunks)|
            && RawPieces(chunks, |BridgeIo.Flatten(chunks)| - rest) == [leftover] + chunks[next..]
  {
    BridgeIo.FlattenCons(chunks);
    if next > 1 {
      PiecesAfter(chunks[1..], next - 1, leftover);
      assert chunks[1..][next - 1..] == chunks[next..];
      PiecesUsed(chunks, next, leftover);
    }
  }

  /** What the proxy is handed, for a stream of which `rest` is unused. */
  ghost predicate HandsOver(raw: seq<seq<Byte>>, chunks: seq<seq<Byte>>, rest: seq<Byte>) {
    && raw != [] && BridgeIo.Flatten(raw) == rest && |rest| <= |BridgeIo.Flatten(chunks)|
    && raw == RawPieces(chunks, |BridgeIo.Flatten(chunks)| - |rest|)
  }

  lemma HandedPieces(chunks: seq<seq<Byte>>, next: nat, leftover: seq<Byte>, rest: seq<Byte>)
    requires 0 < next <= |chunks| && IsRestOf(leftover, chunks[next - 1])
    requires rest == leftover + BridgeIo.Flatten(chunks[next..])
    ensures HandsOver([leftover] + chunks[next..], chunks, rest)
  {
    var raw := [leftover] + chunks[next..];
    BridgeIo.FlattenCons(raw);
    assert raw[1..] == chunks[next..];
    PiecesAfter(chunks, next, leftover);
  }

  lemma PiecesUsed(chunks: seq<seq<Byte>>, next: nat, leftover: seq<Byte>)
    requires 1 < next <= |chunks| && IsRestOf(leftover, chunks[next - 1])
    ensures |leftover + BridgeIo.Flatten(chunks[next..])| + |chunks[0]| < |BridgeIo.Flatten(chunks)|
  {
    var before := chunks[..next - 1];
    BridgeIo.FlattenConcat(before, chunks[next - 1..]);
    assert before + chunks[next - 1..] == chunks;
    BridgeIo.FlattenRest(chunks, next - 1);
    BridgeIo.FlattenCons(before);
    assert |BridgeIo.Flatten(before)| >= |chunks[0]|;
  }

  lemma ServeReady(config: Config, session: Session, s: seq<Byte>, envs: nat -> Env, n: nat, request: Message, rest: seq<Byte>)
    requires BridgeMessage.Parse(s).verdict == BridgeMessage.Ready(request)
    requires s[BridgeMessage.Parse(s).length..] == rest
    ensures var h := Handle(config, session, request, envs(n));
      var entry := Entry(request, session, envs(n));
      Serve(config, session, s, envs, n)
      == if !h.ok then Served(h.sent, h.calls, [entry], h.session, HandlerFailed, rest)
         else if h.proxy then Served(h.sent, h.calls, [entry], h.session, Raw, rest)
         else Continue(h.sent, h.calls, [entry], Serve(config, h.session, rest, envs, n + 1))
  {
  }

  lemma ContinueTwice(sent: seq<Byte>, calls: seq<Call>, log: seq<Entry>,
                      sent': seq<Byte>, calls': seq<Call>, log': seq<Entry>, r: Served)
    ensures Continue(sent, calls, log, Continue(sent', calls', log', r)) == Continue(sent + sent', calls + calls', log + log', r)
  {
    assert sent + (sent' + r.sent) == sent + sent' + r.sent;
    assert calls + (calls' + r.calls) == calls + calls' + r.calls;
    assert log + (log' + r.log) == log + log' + r.log;
  }

  lemma ContinueNothing(r: Served)
    ensures Continue([], [], [], r) == r
  {
    assert [] + r.sent == r.sent && [] + r.calls == r.calls && [] + r.log == r.log;
  }

  lemma ChunkWhole(chunk: seq<Byte>)
    ensures chunk[0..] == chunk
  {
  }

  lemma ChunkAfter(chunk: seq<Byte>, offset: nat, consumed: nat)
    requires offset + consumed <= |chunk|
    ensures chunk[offset..][consumed..] == chunk[offset + consumed..]
  {
  }

  lemma NextChunk(pending: seq<Byte>, chunks: seq<seq<Byte>>, i: nat)
    requires i < |chunks|
    ensures pending + BridgeIo.Flatten(chunks[i..]) == pending + chunks[i] + BridgeIo.Flatten(chunks[i + 1..])
  {
    BridgeIo.FlattenRest(chunks, i);
    assert pending + (chunks[i] + BridgeIo.Flatten(chunks[i + 1..])) == pending + chunks[i] + BridgeIo.Flatten(chunks[i + 1..]);
  }

  lemma ChunkDone(pending: seq<Byte>, chunk: seq<Byte>, later: seq<Byte>)
    ensures pending + chunk[|chunk|..] + later == pending + later
  {
  }
}
