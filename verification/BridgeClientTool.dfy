/** The client tool: its own view of the wire format and of the authentication material, and the
    proof that an honest client gets through to raw mode. */
module BridgeClientTool {
  import opened Bytes
  import opened BridgeSession
  import BridgeIo
  import BridgeMessage
  import BridgeServer
  import ServerRuns

  type Message = BridgeMessage.Message

  // ----- the tool's own constants -----

  function Ascii(text: string): (bytes: seq<Byte>)
    requires forall i | 0 <= i < |text| :: text[i] as int < 128
    ensures |bytes| == |text| && forall i | 0 <= i < |text| :: bytes[i] == text[i] as int
  {
    seq(|text|, i requires 0 <= i < |text| => text[i] as int)
  }

  const MAGIC := Ascii("FBRG")
  const VERSION: Byte := 1
  const HELLO: Byte := 1
  const AUTHENTICATE: Byte := 2
  const BEGIN_PROXY: Byte := 5
  const OK: Byte := 0
  const TOOL_CONTEXT := Ascii("Flipforge Bridge Auth v1")

  /** The tool and the bridge agree on them. */
  lemma SameConstants()
    ensures MAGIC == BridgeMessage.MAGIC && VERSION == BridgeMessage.VERSION && OK == BridgeMessage.OK
    ensures HELLO == BridgeMessage.HELLO && AUTHENTICATE == BridgeMessage.AUTHENTICATE && BEGIN_PROXY == BridgeMessage.BEGIN_PROXY
    ensures TOOL_CONTEXT == AUTH_CONTEXT
  {
    var text := "Flipforge Bridge Auth v1";
    assert |text| == |AUTH_CONTEXT| && forall i | 0 <= i < |text| :: text[i] as int == AUTH_CONTEXT[i];
  }

  // ----- the tool's header format -----

  /** Fixed-width little-endian numbers, as the "<" format writes them. */
  function LittleEndian(n: nat, width: nat): seq<Byte> {
    if width == 0 then [] else [n % 256] + LittleEndian(n / 256, width - 1)
  }

  /** The header "<4sBBBBIH" behind the tool's magic. */
  function Pack(version: Byte, command: Byte, flags: Byte, status: Byte, id: U32, size: U16): seq<Byte> {
    MAGIC + LittleEndian(version, 1) + LittleEndian(command, 1) + LittleEndian(flags, 1) + LittleEndian(status, 1)
    + LittleEndian(id, 4) + LittleEndian(size, 2)
  }

  lemma OneByte(b: Byte)
    ensures LittleEndian(b, 1) == [b]
  {
  }

  lemma TwoBytes(n: U16)
    ensures LittleEndian(n, 2) == WriteU16(n)
  {
    OneByte(n / 256);
    assert LittleEndian(n, 2) == [n % 256] + LittleEndian(n / 256, 1);
  }

  /** Splitting a number in two halves of two bytes. */
  lemma Halves(n: U32)
    ensures n % 0x1_0000 % 256 == n % 256 && n % 0x1_0000 / 256 == n / 256 % 256 && n / 256 / 256 == n / 0x1_0000
  {
    var high, low := n / 0x1_0000, n % 0x1_0000;
    assert n == 256 * (256 * high + low / 256) + low % 256;
    assert n / 256 == 256 * high + low / 256 && n % 256 == low % 256;
  }

  lemma FourBytes(n: U32)
    ensures LittleEndian(n, 4) == WriteU32(n)
  {
    Halves(n);
    TwoBytes(n / 0x1_0000);
    assert LittleEndian(n, 4) == [n % 256] + ([n / 256 % 256] + LittleEndian(n / 0x1_0000, 2)) by {
      assert LittleEndian(n, 4) == [n % 256] + LittleEndian(n / 256, 3);
      assert LittleEndian(n / 256, 3) == [n / 256 % 256] + LittleEndian(n / 256 / 256, 2);
    }
    assert WriteU16(n % 0x1_0000) == [n % 256, n / 256 % 256];
  }

  function Request(command: Byte, id: U32, payload: seq<Byte>): Message {
    BridgeMessage.Message(BridgeMessage.VERSION, command, 0, BridgeMessage.OK, id, payload)
  }

  function Success(command: Byte, id: U32, payload: seq<Byte>): Message {
    BridgeMessage.Message(BridgeMessage.VERSION, command, BridgeMessage.RESPONSE_FLAG, BridgeMessage.OK, id, payload)
  }

  /** The tool's header and payload are byte for byte the bridge's encoding. */
  lemma SameLayout(m: Message)
    requires |m.payload| <= BridgeMessage.MAX_PAYLOAD
    ensures Pack(m.version, m.command, m.flags, m.status, m.id, |m.payload|) + m.payload
            == BridgeMessage.Encode(m)
  {
    SameConstants();
    OneByte(m.version);
    OneByte(m.command);
    OneByte(m.flags);
    OneByte(m.status);
    FourBytes(m.id);
    TwoBytes(|m.payload|);
  }

  /** Both sides hash the same bytes: what the tool puts together from its own context, version and
      nonce and the challenge is the bridge's material. */
  lemma SameMaterial(nonce: seq<Byte>, bridgeNonce: seq<Byte>, sessionId: seq<Byte>)
    ensures TOOL_CONTEXT + [VERSION] + nonce + (bridgeNonce + sessionId) == Material(nonce, bridgeNonce, sessionId)
  {
    SameConstants();
    Regroup(AUTH_CONTEXT + [VERSION] + nonce, bridgeNonce, sessionId);
  }

  // ----- a connection, seen from the tool -----

  /** `bridge(s)` is what the bridge has sent once it has received s; `pieces(i)` decides how much
      the i-th recv returns. */
  class Connection {
    const bridge: seq<Byte> -> seq<Byte>
    const pieces: nat -> nat
    var outgoing: seq<Byte>
    var position: nat       // bytes read so far
    var receives: nat

    ghost predicate Valid()
      reads this
    {
      && position <= |bridge(outgoing)|
      && forall s, more {:trigger bridge(s + more)} :: bridge(s) <= bridge(s + more)
    }

    function Available(): seq<Byte>
      requires position <= |bridge(outgoing)|
      reads this
    {
      bridge(outgoing)[position..]
    }

    constructor (bridge: seq<Byte> -> seq<Byte>, pieces: nat -> nat)
      requires forall s, more {:trigger bridge(s + more)} :: bridge(s) <= bridge(s + more)
      ensures Valid() && this.bridge == bridge && outgoing == [] && position == 0
    {
      this.bridge, this.pieces, outgoing, position, receives := bridge, pieces, [], 0, 0;
    }

    /** Some of the bytes that have arrived, at least one if there are any. */
    method Recv(limit: nat) returns (chunk: seq<Byte>)
      requires Valid() && limit > 0
      modifies this`position, this`receives
      ensures Valid() && |chunk| <= limit && (chunk == [] <==> old(Available()) == [])
      ensures old(Available()) == chunk + Available()
    {
      var all := Available();
      var most := if |all| < limit then |all| else limit;
      var size := if most == 0 then 0 else 1 + pieces(receives) % most;
      chunk := all[..size];
      position, receives := position + size, receives + 1;
    }

    /** Exactly `size` bytes however they are fragmented, or failure, with everything read, when
        fewer ever arrive. */
    method ReceiveExact(size: nat) returns (ok: bool, output: seq<Byte>)
      requires Valid()
      modifies this`position, this`receives
      ensures Valid()
      ensures ok <==> |old(Available())| >= size
      ensures old(Available()) == output + Available()
      ensures if ok then |output| == size else Available() == []
    {
      ok, output := true, [];
      assert [] + Available() == Available();
      while |output| < size
        invariant Valid() && |output| <= size && old(Available()) == output + Available()
        decreases size - |output|
      {
        var chunk := Recv(size - |output|);
        if chunk == [] {
          return false, output;
        }
        assert output + (chunk + Available()) == output + chunk + Available();
        output := output + chunk;
      }
    }

    method SendMessage(command: Byte, id: U32, payload: seq<Byte>) returns (ok: bool)
      requires Valid()
      modifies this`outgoing
      ensures Valid()
      ensures ok <==> |payload| <= BridgeMessage.MAX_PAYLOAD
      ensures ok ==> outgoing == old(outgoing) + BridgeMessage.Encode(Request(command, id, payload))
      ensures !ok ==> outgoing == old(outgoing)
    {
      if |payload| > BridgeMessage.MAX_PAYLOAD {
        return false;
      }
      SameLayout(Request(command, id, payload));
      outgoing := outgoing +
        (Pack(VERSION, command, 0, 0, id, |payload|) + payload);
      return true;
    }

    /** What comes back and how much is read are exactly as specified, for every input. */
    method ReceiveMessage(command: Byte, id: U32) returns (payload: Option<seq<Byte>>)
      requires Valid()
      modifies this`position, this`receives
      ensures Valid()
      ensures payload == Reading(old(Available()), command, id).payload
      ensures Available() == old(Available())[Reading(old(Available()), command, id).used..]
    {
      var ok, header := ReceiveExact(BridgeMessage.HEADER);
      ghost var all := old(Available());
      if !ok {
        return None;
      }
      assert header == all[..BridgeMessage.HEADER] && Available() == all[BridgeMessage.HEADER..];
      assert header[..4] == all[..4] && header[8..12] == all[8..12] && header[12..14] == all[12..14];
      if header[..4] != MAGIC || header[4] != VERSION || header[5] != command || header[6] % 2 == 0 {
        return None;
      }
      var size := ReadU16(header[12..14]);
      var body;
      ok, body := ReceiveExact(size);
      assert all == header + (body + Available());
      if !ok {
        return None;
      }
      assert body == all[BridgeMessage.HEADER..BridgeMessage.HEADER + size];
      assert Available() == all[BridgeMessage.HEADER + size..];
      if ReadU32(header[8..12]) != id || header[7] != OK {
        return None;
      }
      return Some(body);
    }

    /** One request and its response. `answer` is what the bridge replies, if it does. */
    method Ask(command: Byte, id: U32, payload: seq<Byte>, ghost answer: Message) returns (result: Option<seq<Byte>>)
      requires Valid() && |payload| <= BridgeMessage.MAX_PAYLOAD
      modifies this`outgoing, this`position, this`receives
      ensures Valid() && outgoing == old(outgoing) + BridgeMessage.Encode(Request(command, id, payload))
      ensures old(Available()) == [] && BridgeMessage.WellFormed(answer) && Accepts(answer, command, id)
              && bridge(outgoing) == bridge(old(outgoing)) + BridgeMessage.Encode(answer)
              ==> result == Some(answer.payload) && Available() == []
    {
      var _ := SendMessage(command, id, payload);
      if position == |bridge(old(outgoing))| && BridgeMessage.WellFormed(answer)
         && bridge(outgoing) == bridge(old(outgoing)) + BridgeMessage.Encode(answer) {
        assert Available() == BridgeMessage.Encode(answer) == BridgeMessage.Encode(answer) + [];
        BridgeMessage.ParseEncoded(answer, []);
        ReadingOfParsed(Available(), command, id);
      }
      result := ReceiveMessage(command, id);
    }
  }

  /** What receive_message makes of the bytes that arrive, and how many of them it reads. */
  datatype Result = Result(payload: Option<seq<Byte>>, used: nat)

  function Reading(s: seq<Byte>, command: Byte, id: U32): (r: Result)
    ensures r.used <= |s|
  {
    if |s| < BridgeMessage.HEADER then Result(None, |s|)
    else if s[..4] != MAGIC || s[4] != VERSION || s[5] != command || s[6] % 2 == 0 then Result(None, BridgeMessage.HEADER)
    else
      var end := BridgeMessage.HEADER + BridgeMessage.PayloadSize(s);
      if |s| < end then Result(None, |s|)
      else if ReadU32(s[8..12]) != id || s[7] != OK then Result(None, end)
      else Result(Some(s[BridgeMessage.HEADER..end]), end)
  }

  /** The tool against the bridge's own parser, on every input. Where the parser finds a message the
      tool returns its payload exactly when it answers the request with success, and where the
      parser waits the tool fails; but the tool is more lenient, and takes exactly two kinds of
      response that the parser refuses: odd flags above one, and payloads over 512 bytes. */
  lemma ReadingOfParsed(s: seq<Byte>, command: Byte, id: U32)
    ensures var p, r := BridgeMessage.Parse(s), Reading(s, command, id);
      && (p.verdict.NeedMore? ==> r.payload.None?)
      && (p.verdict.Ready? ==> (r.payload.Some? <==> Accepts(p.verdict.message, command, id)))
      && (p.verdict.Ready? && r.payload.Some? ==> r.payload.value == p.verdict.message.payload && r.used == p.length)
      && (!p.verdict.Ready? ==> (r.payload.Some? <==> TakenAnyway(s, command, id)))
  {
    SameConstants();
  }

  predicate TakenAnyway(s: seq<Byte>, command: Byte, id: U32) {
    && |s| >= BridgeMessage.HEADER && |s| >= BridgeMessage.HEADER + BridgeMessage.PayloadSize(s)
    && s[..4] == BridgeMessage.MAGIC && Accepts(BridgeMessage.MessageAt(s), command, id)
    && (s[6] > BridgeMessage.RESPONSE_FLAG || BridgeMessage.PayloadSize(s) > BridgeMessage.MAX_PAYLOAD)
  }

  predicate Accepts(m: Message, command: Byte, id: U32) {
    && m.version == BridgeMessage.VERSION && m.command == command && m.flags % 2 == 1
    && m.id == id && m.status == BridgeMessage.OK
  }

  // ----- the dialogue with an honest bridge -----

  lemma Answered(config: BridgeServer.Config, session: Session, m: Message, tail: seq<Byte>, envs: nat -> BridgeServer.Env, n: nat)
    requires BridgeMessage.WellFormed(m)
    ensures var h := BridgeServer.Handle(config, session, m, envs(n));
      var entry := BridgeServer.Entry(m, session, envs(n));
      BridgeServer.Serve(config, session, BridgeMessage.Encode(m) + tail, envs, n)
      == if !h.ok then BridgeServer.Served(h.sent, h.calls, [entry], h.session, BridgeServer.HandlerFailed, tail)
         else if h.proxy then BridgeServer.Served(h.sent, h.calls, [entry], h.session, BridgeServer.Raw, tail)
         else BridgeServer.Continue(h.sent, h.calls, [entry], BridgeServer.Serve(config, h.session, tail, envs, n + 1))
  {
    BridgeMessage.ParseEncoded(m, tail);
    assert (BridgeMessage.Encode(m) + tail)[|BridgeMessage.Encode(m)|..] == tail;
    BridgeServer.ServeReady(config, session, BridgeMessage.Encode(m) + tail, envs, n, m, tail);
  }

  /** The socket takes whatever it is given, however it splits it. */
  ghost predicate TakesAll(socket: BridgeIo.Socket) {
    forall bytes :: BridgeServer.Written(bytes, socket) == (bytes, true)
  }

  /** Everything the parties and the surroundings are assumed to do right. */
  ghost predicate Cooperative(config: BridgeServer.Config, start: Session, envs: nat -> BridgeServer.Env, n: nat,
                              secret: seq<Byte>, mac: (seq<Byte>, seq<Byte>) -> BridgeServer.Mac) {
    && start.state == AwaitingHello && |start.bridgeNonce| == NONCE_BYTES && |start.sessionId| == SESSION_ID_BYTES
    && config.secret == secret && (forall m :: config.hmac(secret, m) == Some(mac(secret, m)))
    && TakesAll(envs(n).socket) && TakesAll(envs(n + 1).socket) && TakesAll(envs(n + 2).socket)
    && envs(n + 2).ready && envs(n + 2).beginOk
  }

  const HELLO_ID: U32 := 1
  const AUTHENTICATE_ID: U32 := 2
  const BEGIN_ID: U32 := 3

  function HelloOf(nonce: seq<Byte>): Message { Request(BridgeMessage.HELLO, HELLO_ID, nonce) }

  function ProofOf(proof: seq<Byte>): Message { Request(BridgeMessage.AUTHENTICATE, AUTHENTICATE_ID, proof) }

  const BEGIN: Message := Request(BridgeMessage.BEGIN_PROXY, BEGIN_ID, [])

  function Challenge(start: Session): Message {
    Success(BridgeMessage.HELLO, HELLO_ID, start.bridgeNonce + start.sessionId)
  }

  const AUTHENTICATED: Message := Success(BridgeMessage.AUTHENTICATE, AUTHENTICATE_ID, [])

  const BEGUN: Message := Success(BridgeMessage.BEGIN_PROXY, BEGIN_ID, [])

  function AfterHello(start: Session, nonce: seq<Byte>): Session {
    start.(state := AwaitingAuthentication, clientNonce := nonce)
  }

  lemma HelloHandled(config: BridgeServer.Config, start: Session, nonce: seq<Byte>, env: BridgeServer.Env)
    requires start.state == AwaitingHello && |nonce| == NONCE_BYTES && TakesAll(env.socket)
    requires |start.bridgeNonce| == NONCE_BYTES && |start.sessionId| == SESSION_ID_BYTES
    ensures BridgeServer.Handle(config, start, HelloOf(nonce), env)
            == BridgeServer.Handled(AfterHello(start, nonce), BridgeMessage.Encode(Challenge(start)), true, false, [])
  {
  }

  lemma ProofHandled(config: BridgeServer.Config, session: Session, proof: BridgeServer.Mac, env: BridgeServer.Env)
    requires session.state == AwaitingAuthentication && TakesAll(env.socket)
    requires config.hmac(config.secret, Material(session.clientNonce, session.bridgeNonce, session.sessionId)) == Some(proof)
    ensures BridgeServer.Handle(config, session, ProofOf(proof), env)
            == BridgeServer.Handled(session.(state := Authenticated), BridgeMessage.Encode(AUTHENTICATED), true, false, [])
  {
  }

  lemma BeginHandled(config: BridgeServer.Config, session: Session, env: BridgeServer.Env)
    requires session.state == Authenticated && TakesAll(env.socket) && env.ready && env.beginOk
    ensures BridgeServer.Handle(config, session, BEGIN, env)
            == BridgeServer.Handled(session.(state := Proxying), BridgeMessage.Encode(BEGUN), true, true, [BridgeServer.BeginRpc(true)])
  {
  }

  /** A connection that starts with a request answered by `answer` and leaves the session `next`. */
  ghost predicate Follows(s: BridgeServer.Served, answer: Message, r: BridgeServer.Served)
    requires |answer.payload| <= BridgeMessage.MAX_PAYLOAD
  {
    s.sent == BridgeMessage.Encode(answer) + r.sent && s.exit == r.exit && s.rest == r.rest && |s.log| == 1 + |r.log|
  }

  lemma AnsweredFollows(config: BridgeServer.Config, session: Session, m: Message, tail: seq<Byte>,
                        envs: nat -> BridgeServer.Env, n: nat, next: Session, answer: Message)
    requires BridgeMessage.WellFormed(m) && |answer.payload| <= BridgeMessage.MAX_PAYLOAD
    requires BridgeServer.Handle(config, session, m, envs(n))
             == BridgeServer.Handled(next, BridgeMessage.Encode(answer), true, false, [])
    ensures Follows(BridgeServer.Serve(config, session, BridgeMessage.Encode(m) + tail, envs, n), answer,
                    BridgeServer.Serve(config, next, tail, envs, n + 1))
  {
    Answered(config, session, m, tail, envs, n);
  }

  lemma AfterFirst(config: BridgeServer.Config, start: Session, envs: nat -> BridgeServer.Env, n: nat, nonce: seq<Byte>, tail: seq<Byte>)
    requires start.state == AwaitingHello && |nonce| == NONCE_BYTES && TakesAll(envs(n).socket)
    requires |start.bridgeNonce| == NONCE_BYTES && |start.sessionId| == SESSION_ID_BYTES
    ensures Follows(BridgeServer.Serve(config, start, BridgeMessage.Encode(HelloOf(nonce)) + tail, envs, n), Challenge(start),
                    BridgeServer.Serve(config, AfterHello(start, nonce), tail, envs, n + 1))
  {
    HelloHandled(config, start, nonce, envs(n));
    AnsweredFollows(config, start, HelloOf(nonce), tail, envs, n, AfterHello(start, nonce), Challenge(start));
  }

  lemma AfterSecond(config: BridgeServer.Config, session: Session, envs: nat -> BridgeServer.Env, n: nat, proof: BridgeServer.Mac,
                    tail: seq<Byte>)
    requires session.state == AwaitingAuthentication && TakesAll(envs(n).socket)
    requires config.hmac(config.secret, Material(session.clientNonce, session.bridgeNonce, session.sessionId)) == Some(proof)
    ensures Follows(BridgeServer.Serve(config, session, BridgeMessage.Encode(ProofOf(proof)) + tail, envs, n), AUTHENTICATED,
                    BridgeServer.Serve(config, session.(state := Authenticated), tail, envs, n + 1))
  {
    ProofHandled(config, session, proof, envs(n));
    AnsweredFollows(config, session, ProofOf(proof), tail, envs, n, session.(state := Authenticated), AUTHENTICATED);
  }

  lemma AfterThird(config: BridgeServer.Config, session: Session, envs: nat -> BridgeServer.Env, n: nat, tail: seq<Byte>)
    requires session.state == Authenticated && TakesAll(envs(n).socket) && envs(n).ready && envs(n).beginOk
    ensures var s := BridgeServer.Serve(config, session, BridgeMessage.Encode(BEGIN) + tail, envs, n);
            && s.sent == BridgeMessage.Encode(BEGUN) && s.exit == BridgeServer.Raw && s.rest == tail && |s.log| == 1
  {
    Answered(config, session, BEGIN, tail, envs, n);
    BeginHandled(config, session, envs(n));
  }

  lemma AfterNothing(config: BridgeServer.Config, session: Session, envs: nat -> BridgeServer.Env, n: nat)
    ensures BridgeServer.Serve(config, session, [], envs, n).sent == []
  {
  }

  /** Whatever follows, the first two requests are answered first. */
  lemma FirstTwo(config: BridgeServer.Config, start: Session, envs: nat -> BridgeServer.Env, n: nat, secret: seq<Byte>,
                 mac: (seq<Byte>, seq<Byte>) -> BridgeServer.Mac, nonce: seq<Byte>, tail: seq<Byte>)
    requires Cooperative(config, start, envs, n, secret, mac) && |nonce| == NONCE_BYTES
    ensures var proof := mac(secret, Material(nonce, start.bridgeNonce, start.sessionId));
            var r := BridgeServer.Serve(config, AfterHello(start, nonce).(state := Authenticated), tail, envs, n + 2);
            var s := BridgeServer.Serve(config, start, BridgeMessage.Encode(HelloOf(nonce)) + (BridgeMessage.Encode(ProofOf(proof)) + tail), envs, n);
            && s.sent == BridgeMessage.Encode(Challenge(start)) + (BridgeMessage.Encode(AUTHENTICATED) + r.sent)
            && s.exit == r.exit && s.rest == r.rest && |s.log| == 2 + |r.log|
  {
    var proof := mac(secret, Material(nonce, start.bridgeNonce, start.sessionId));
    AfterFirst(config, start, envs, n, nonce, BridgeMessage.Encode(ProofOf(proof)) + tail);
    AfterSecond(config, AfterHello(start, nonce), envs, n + 1, proof, tail);
  }

  /** The tool's side of the dialogue, message by message. */
  datatype Script = Script(hello: seq<Byte>, proof: seq<Byte>, begin: seq<Byte>)

  function ScriptFor(start: Session, secret: seq<Byte>, mac: (seq<Byte>, seq<Byte>) -> BridgeServer.Mac, nonce: seq<Byte>): Script
    requires |nonce| == NONCE_BYTES
  {
    var proof := mac(secret, Material(nonce, start.bridgeNonce, start.sessionId));
    Script(BridgeMessage.Encode(HelloOf(nonce)), BridgeMessage.Encode(ProofOf(proof)), BridgeMessage.Encode(BEGIN))
  }

  /** The three success responses. */
  function ResponsesOf(start: Session): Script
    requires |start.bridgeNonce| == NONCE_BYTES && |start.sessionId| == SESSION_ID_BYTES
  {
    Script(BridgeMessage.Encode(Challenge(start)), BridgeMessage.Encode(AUTHENTICATED), BridgeMessage.Encode(BEGUN))
  }

  function Joined(s: Script): seq<Byte> {
    s.hello + s.proof + s.begin
  }

  lemma HelloAnswered(config: BridgeServer.Config, start: Session, envs: nat -> BridgeServer.Env, n: nat, secret: seq<Byte>,
                      mac: (seq<Byte>, seq<Byte>) -> BridgeServer.Mac, nonce: seq<Byte>)
    requires Cooperative(config, start, envs, n, secret, mac) && |nonce| == NONCE_BYTES
    ensures BridgeServer.Serve(config, start, ScriptFor(start, secret, mac, nonce).hello, envs, n).sent == ResponsesOf(start).hello
  {
    var hello := BridgeMessage.Encode(HelloOf(nonce));
    AfterFirst(config, start, envs, n, nonce, []);
    AfterNothing(config, AfterHello(start, nonce), envs, n + 1);
    assert hello + [] == hello;
  }

  lemma ProofAnswered(config: BridgeServer.Config, start: Session, envs: nat -> BridgeServer.Env, n: nat, secret: seq<Byte>,
                      mac: (seq<Byte>, seq<Byte>) -> BridgeServer.Mac, nonce: seq<Byte>)
    requires Cooperative(config, start, envs, n, secret, mac) && |nonce| == NONCE_BYTES
    ensures var script := ScriptFor(start, secret, mac, nonce);
            BridgeServer.Serve(config, start, script.hello + script.proof, envs, n).sent
            == ResponsesOf(start).hello + ResponsesOf(start).proof
  {
    var script := ScriptFor(start, secret, mac, nonce);
    FirstTwo(config, start, envs, n, secret, mac, nonce, []);
    AfterNothing(config, AfterHello(start, nonce).(state := Authenticated), envs, n + 2);
    assert script.hello + (script.proof + []) == script.hello + script.proof;
    assert BridgeMessage.Encode(AUTHENTICATED) + [] == BridgeMessage.Encode(AUTHENTICATED);
  }

  /** The three requests draw exactly three success responses and take the bridge to raw mode; what
      follows them is the raw stream. */
  lemma BeginAnswered(config: BridgeServer.Config, start: Session, envs: nat -> BridgeServer.Env, n: nat, secret: seq<Byte>,
                      mac: (seq<Byte>, seq<Byte>) -> BridgeServer.Mac, nonce: seq<Byte>, request: seq<Byte>)
    requires Cooperative(config, start, envs, n, secret, mac) && |nonce| == NONCE_BYTES
    ensures var script := ScriptFor(start, secret, mac, nonce);
            var r := BridgeServer.Serve(config, start, script.hello + script.proof + script.begin + request, envs, n);
            r.sent == Joined(ResponsesOf(start)) && r.exit == BridgeServer.Raw && r.rest == request && |r.log| == 3
  {
    var script := ScriptFor(start, secret, mac, nonce);
    FirstTwo(config, start, envs, n, secret, mac, nonce, script.begin + request);
    AfterThird(config, AfterHello(start, nonce).(state := Authenticated), envs, n + 2, request);
    Regroup(script.proof, script.begin, request);
    Regroup(script.hello, script.proof + script.begin, request);
    Regroup(script.hello, script.proof, script.begin);
    Regroup(BridgeMessage.Encode(Challenge(start)), BridgeMessage.Encode(AUTHENTICATED), BridgeMessage.Encode(BEGUN));
  }

  /** The other end answers the script with these three responses, one after each request. */
  ghost predicate Answers(bridge: seq<Byte> -> seq<Byte>, script: Script, responses: Script) {
    && bridge([]) == []
    && bridge(script.hello) == responses.hello
    && bridge(script.hello + script.proof) == responses.hello + responses.proof
    && bridge(script.hello + script.proof + script.begin) == responses.hello + responses.proof + responses.begin
  }

  lemma ServingAnswers(bridge: seq<Byte> -> seq<Byte>, config: BridgeServer.Config, start: Session, envs: nat -> BridgeServer.Env,
                       n: nat, script: Script, responses: Script)
    requires forall s :: bridge(s) == BridgeServer.Serve(config, start, s, envs, n).sent
    requires BridgeServer.Serve(config, start, [], envs, n).sent == []
    requires BridgeServer.Serve(config, start, script.hello, envs, n).sent == responses.hello
    requires BridgeServer.Serve(config, start, script.hello + script.proof, envs, n).sent == responses.hello + responses.proof
    requires BridgeServer.Serve(config, start, script.hello + script.proof + script.begin, envs, n).sent
             == responses.hello + responses.proof + responses.begin
    ensures Answers(bridge, script, responses)
  {
  }

  lemma CooperationAnswers(bridge: seq<Byte> -> seq<Byte>, config: BridgeServer.Config, start: Session, envs: nat -> BridgeServer.Env,
                           n: nat, secret: seq<Byte>, mac: (seq<Byte>, seq<Byte>) -> BridgeServer.Mac, nonce: seq<Byte>)
    requires Cooperative(config, start, envs, n, secret, mac) && |nonce| == NONCE_BYTES
    requires forall s :: bridge(s) == BridgeServer.Serve(config, start, s, envs, n).sent
    ensures Answers(bridge, ScriptFor(start, secret, mac, nonce), ResponsesOf(start))
  {
    AfterNothing(config, start, envs, n);
    HelloAnswered(config, start, envs, n, secret, mac, nonce);
    ProofAnswered(config, start, envs, n, secret, mac, nonce);
    AllAnswered(config, start, envs, n, secret, mac, nonce);
    ServingAnswers(bridge, config, start, envs, n, ScriptFor(start, secret, mac, nonce), ResponsesOf(start));
  }

  lemma AllAnswered(config: BridgeServer.Config, start: Session, envs: nat -> BridgeServer.Env, n: nat, secret: seq<Byte>,
                    mac: (seq<Byte>, seq<Byte>) -> BridgeServer.Mac, nonce: seq<Byte>)
    requires Cooperative(config, start, envs, n, secret, mac) && |nonce| == NONCE_BYTES
    ensures var script := ScriptFor(start, secret, mac, nonce);
            BridgeServer.Serve(config, start, script.hello + script.proof + script.begin, envs, n).sent
            == ResponsesOf(start).hello + ResponsesOf(start).proof + ResponsesOf(start).begin
  {
    var script := ScriptFor(start, secret, mac, nonce);
    BeginAnswered(config, start, envs, n, secret, mac, nonce, []);
    assert script.hello + script.proof + script.begin + [] == script.hello + script.proof + script.begin;
  }

  /** The tool's authentication. */
  method Authenticate(connection: Connection, mac: (seq<Byte>, seq<Byte>) -> BridgeServer.Mac, secret: seq<Byte>, nonce: seq<Byte>,
                      ghost start: Session)
    returns (ok: bool)
    requires connection.Valid() && connection.outgoing == [] && connection.Available() == []
    requires |nonce| == NONCE_BYTES && |start.bridgeNonce| == NONCE_BYTES && |start.sessionId| == SESSION_ID_BYTES
    modifies connection`outgoing, connection`position, connection`receives
    ensures connection.Valid()
    ensures var script := ScriptFor(start, secret, mac, nonce);
            Answers(connection.bridge, script, ResponsesOf(start)) ==>
              ok && connection.outgoing == script.hello + script.proof && connection.Available() == []
  {
    ghost var script := ScriptFor(start, secret, mac, nonce);
    SameMaterial(nonce, start.bridgeNonce, start.sessionId);
    assert [] + script.hello == script.hello && [] + BridgeMessage.Encode(Challenge(start)) == BridgeMessage.Encode(Challenge(start));
    var challenge := connection.Ask(HELLO, HELLO_ID, nonce, Challenge(start));
    if challenge.None? || |challenge.value| != NONCE_BYTES + SESSION_ID_BYTES {
      return false;
    }
    var material := TOOL_CONTEXT + [VERSION] + nonce + challenge.value;
    var answer := connection.Ask(AUTHENTICATE, AUTHENTICATE_ID, mac(secret, material), AUTHENTICATED);
    return answer.Some?;
  }

  /** The tool's RPC command up to its request: the three messages, then the request bytes as they
      are. */
  method RunRpc(connection: Connection, mac: (seq<Byte>, seq<Byte>) -> BridgeServer.Mac, secret: seq<Byte>, nonce: seq<Byte>,
                request: seq<Byte>, ghost start: Session)
    returns (ok: bool)
    requires connection.Valid() && connection.outgoing == [] && connection.Available() == []
    requires |nonce| == NONCE_BYTES && |start.bridgeNonce| == NONCE_BYTES && |start.sessionId| == SESSION_ID_BYTES
    modifies connection`outgoing, connection`position, connection`receives
    ensures var script := ScriptFor(start, secret, mac, nonce);
            Answers(connection.bridge, script, ResponsesOf(start)) ==>
              ok && connection.outgoing == script.hello + script.proof + script.begin + request
  {
    ok := Authenticate(connection, mac, secret, nonce, start);
    if !ok {
      return false;
    }
    var answer := connection.Ask(BEGIN_PROXY, BEGIN_ID, [], BEGUN);
    if answer.None? {
      return false;
    }
    connection.outgoing := connection.outgoing + request;
  }

  /** Whatever the fragmentation of the responses, the tool gets through to a cooperating bridge: it
      draws exactly the three success responses, and the bridge hands over exactly the request. */
  method HonestClientGetsThrough(connection: Connection, mac: (seq<Byte>, seq<Byte>) -> BridgeServer.Mac, secret: seq<Byte>,
                                 nonce: seq<Byte>, request: seq<Byte>, ghost config: BridgeServer.Config, ghost start: Session,
                                 ghost envs: nat -> BridgeServer.Env, ghost n: nat)
    returns (ok: bool)
    requires connection.position == 0 && connection.outgoing == [] && |nonce| == NONCE_BYTES
    requires Cooperative(config, start, envs, n, secret, mac)
    requires forall s :: connection.bridge(s) == BridgeServer.Serve(config, start, s, envs, n).sent
    modifies connection`outgoing, connection`position, connection`receives
    ensures ok
    ensures var r := BridgeServer.Serve(config, start, connection.outgoing, envs, n);
            r.sent == Joined(ResponsesOf(start)) && r.exit == BridgeServer.Raw && r.rest == request && |r.log| == 3
  {
    forall s, more {:trigger connection.bridge(s + more)} ensures connection.bridge(s) <= connection.bridge(s + more) {
      ServerRuns.SentGrows(config, start, s, more, envs, n);
    }
    CooperationAnswers(connection.bridge, config, start, envs, n, secret, mac, nonce);
    ok := RunRpc(connection, mac, secret, nonce, request, start);
    BeginAnswered(config, start, envs, n, secret, mac, nonce, request);
  }
}
