/** What holds over a whole connection, for every byte stream and every behaviour of the surroundings. */
module ServerRuns {
  import opened Bytes
  import BridgeIo
  import BridgeMessage
  import opened BridgeSession
  import opened BridgeServer

  // ----- the log is a chain of dispatches -----

  function DecisionFor(config: Config, e: Entry): Decision {
    Decide(config, e.session, e.request, e.env)
  }

  function HandledFor(config: Config, e: Entry): Handled {
    Handle(config, e.session, e.request, e.env)
  }

  /** Request i neither closed the connection nor asked for raw mode, and the next one met the
      session it left. */
  predicate Linked(config: Config, log: seq<Entry>, i: nat)
    requires i + 1 < |log|
  {
    var h := HandledFor(config, log[i]);
    h.ok && !h.proxy && log[i + 1].session == h.session
  }

  /** Each request met the session left by the previous one, and the last one decided the end. */
  ghost predicate Chained(config: Config, start: Session, r: Served) {
    && (r.log != [] ==> r.log[0].session == start)
    && (forall i: nat | i + 1 < |r.log| :: Linked(config, r.log, i))
    && (r.log == [] ==> r.last == start && r.exit != Raw && r.exit != HandlerFailed)
    && (r.log != [] ==>
         var h := HandledFor(config, r.log[|r.log| - 1]);
         r.last == h.session && (r.exit == HandlerFailed <==> !h.ok) && (r.exit == Raw <==> h.ok && h.proxy))
  }

  lemma ChainedContinue(config: Config, e: Entry, r: Served)
    requires HandledFor(config, e).ok && !HandledFor(config, e).proxy
    requires Chained(config, HandledFor(config, e).session, r)
    ensures Chained(config, e.session, Continue(HandledFor(config, e).sent, HandledFor(config, e).calls, [e], r))
  {
    var log := [e] + r.log;
    forall i: nat | i + 1 < |log| ensures Linked(config, log, i) {
      if i > 0 {
        assert Linked(config, r.log, i - 1);
        LinkedShifts(config, e, r.log, i - 1);
      }
    }
    assert r.log != [] ==> log[|log| - 1] == r.log[|r.log| - 1];
  }

  lemma LinkedShifts(config: Config, e: Entry, log: seq<Entry>, i: nat)
    requires i + 1 < |log| && Linked(config, log, i)
    ensures Linked(config, [e] + log, i + 1)
  {
    assert ([e] + log)[i + 1] == log[i] && ([e] + log)[i + 2] == log[i + 1];
  }

  lemma {:induction false} ServeChained(config: Config, session: Session, s: seq<Byte>, envs: nat -> Env, n: nat)
    ensures Chained(config, session, Serve(config, session, s, envs, n))
    decreases |s|
  {
    var p := BridgeMessage.Parse(s);
    if p.verdict.Ready? {
      var e := Entry(p.verdict.message, session, envs(n));
      var h := HandledFor(config, e);
      if h.ok && !h.proxy {
        ServeChained(config, h.session, s[p.length..], envs, n + 1);
        ChainedContinue(config, e, Serve(config, h.session, s[p.length..], envs, n + 1));
      }
    }
  }

  // ----- byte conservation -----

  predicate PayloadsFit(log: seq<Entry>) {
    forall i | 0 <= i < |log| :: |log[i].request.payload| <= BridgeMessage.MAX_PAYLOAD
  }

  function RequestBytes(log: seq<Entry>): seq<Byte>
    requires PayloadsFit(log)
  {
    if log == [] then [] else BridgeMessage.Encode(log[0].request) + RequestBytes(log[1..])
  }

  ghost predicate Accounted(r: Served, s: seq<Byte>) {
    && PayloadsFit(r.log)
    && exists bad: seq<Byte> :: AccountedWith(r, s, bad)
  }

  ghost predicate AccountedWith(r: Served, s: seq<Byte>, bad: seq<Byte>)
    requires PayloadsFit(r.log)
  {
    && |bad| == (if r.exit.HeaderRefused? then BridgeMessage.HEADER else 0)
    && (r.exit.HeaderRefused? ==> BridgeMessage.Parse(bad).verdict == r.exit.verdict)
    && s == RequestBytes(r.log) + (bad + r.rest)
  }

  lemma AccountedContinue(e: Entry, h: Handled, r: Served, rest: seq<Byte>)
    requires |e.request.payload| <= BridgeMessage.MAX_PAYLOAD && Accounted(r, rest)
    ensures Accounted(Continue(h.sent, h.calls, [e], r), BridgeMessage.Encode(e.request) + rest)
  {
    var bad :| AccountedWith(r, rest, bad);
    var q := Continue(h.sent, h.calls, [e], r);
    assert q.log[0] == e && q.log[1..] == r.log;
    assert AccountedWith(q, BridgeMessage.Encode(e.request) + rest, bad);
  }

  lemma AccountedLast(e: Entry, r: Served)
    requires |e.request.payload| <= BridgeMessage.MAX_PAYLOAD && r.log == [e] && !r.exit.HeaderRefused?
    ensures Accounted(r, BridgeMessage.Encode(e.request) + r.rest)
  {
    assert r.log[1..] == [];
    assert RequestBytes(r.log) == BridgeMessage.Encode(e.request) + RequestBytes([]);
    assert AccountedWith(r, BridgeMessage.Encode(e.request) + r.rest, []);
  }

  lemma SplitFirst(s: seq<Byte>)
    requires BridgeMessage.Parse(s).verdict.Ready?
    ensures var m := BridgeMessage.Parse(s).verdict.message;
      |m.payload| <= BridgeMessage.MAX_PAYLOAD && s == BridgeMessage.Encode(m) + s[BridgeMessage.Parse(s).length..]
  {
    BridgeMessage.EncodeParsed(s);
  }

  lemma RefusedByHeader(s: seq<Byte>)
    requires BridgeMessage.Parse(s).verdict.Malformed? || BridgeMessage.Parse(s).verdict.TooLarge?
    ensures BridgeMessage.Parse(s[..BridgeMessage.HEADER]) == BridgeMessage.Parse(s)
  {
    BridgeMessage.VerdictInBytes(s);
    BridgeMessage.VerdictInBytes(s[..BridgeMessage.HEADER]);
  }

  /** Nothing is handled: the input ends in a message, or its first header is refused. */
  lemma AccountedUnserved(r: Served, s: seq<Byte>)
    requires !BridgeMessage.Parse(s).verdict.Ready? && r.log == []
    requires var p := BridgeMessage.Parse(s);
             if p.verdict.NeedMore? then r.exit == Waiting && r.rest == s
             else r.exit == HeaderRefused(p.verdict) && r.rest == s[p.length..]
    ensures Accounted(r, s)
  {
    var bad := if r.exit.Waiting? then [] else s[..BridgeMessage.HEADER];
    assert s == [] + (bad + r.rest);
    if r.exit.HeaderRefused? {
      RefusedByHeader(s);
    }
    assert AccountedWith(r, s, bad);
  }

  /** The stream is the encodings of the requests handled, then the refused header if there is one,
      then the rest: nothing is dropped, repeated or parsed twice. In raw mode the rest is every
      byte after the accepted BeginRpcProxy request. */
  lemma {:induction false} BytesAccounted(config: Config, session: Session, s: seq<Byte>, envs: nat -> Env, n: nat)
    ensures Accounted(Serve(config, session, s, envs, n), s)
    decreases |s|
  {
    var p := BridgeMessage.Parse(s);
    var r := Serve(config, session, s, envs, n);
    if p.verdict.Ready? {
      var e, rest := Entry(p.verdict.message, session, envs(n)), s[p.length..];
      SplitFirst(s);
      ServeReady(config, session, s, envs, n, e.request, rest);
      var h := HandledFor(config, e);
      if h.ok && !h.proxy {
        BytesAccounted(config, h.session, rest, envs, n + 1);
        AccountedContinue(e, h, Serve(config, h.session, rest, envs, n + 1), rest);
      } else {
        AccountedLast(e, r);
      }
    } else {
      AccountedUnserved(r, s);
    }
  }

  // ----- authentication -----

  predicate AcceptedHello(config: Config, e: Entry) {
    e.request.command == BridgeMessage.HELLO
    && DecisionFor(config, e).reply.Some? && DecisionFor(config, e).reply.value.status == BridgeMessage.OK
  }

  predicate AcceptedProof(config: Config, e: Entry) {
    e.request.command == BridgeMessage.AUTHENTICATE
    && DecisionFor(config, e).reply.Some? && DecisionFor(config, e).reply.value.status == BridgeMessage.OK
  }

  predicate FailedProof(config: Config, e: Entry) {
    e.request.command == BridgeMessage.AUTHENTICATE
    && DecisionFor(config, e).reply == Some(Reply(BridgeMessage.UNAUTHORIZED, []))
  }

  /** The proof is the keyed hash of the context, the version, the nonce of that Hello and the
      bridge's own nonce and session id. */
  predicate ProofOf(config: Config, start: Session, hello: Message, proof: Message) {
    && |hello.payload| == NONCE_BYTES
    && config.hmac(config.secret, Material(hello.payload, start.bridgeNonce, start.sessionId)) == Some(proof.payload)
  }

  /** How the session met by request k came about. */
  ghost predicate Provenance(config: Config, start: Session, log: seq<Entry>, s: Session, k: nat)
    requires k <= |log|
  {
    && s.bridgeNonce == start.bridgeNonce && s.sessionId == start.sessionId
    && (forall i | 0 <= i < k :: !FailedProof(config, log[i]))
    && match s.state
       case AwaitingHello => forall i | 0 <= i < k :: !AcceptedHello(config, log[i])
       case AwaitingAuthentication => exists i :: HelloAt(config, log, s, i, k)
       case Authenticated => exists i, j :: i < j < k && HelloAt(config, log, s, i, k) && ProofAt(config, start, log, i, j)
       case _ => false
  }

  ghost predicate HelloAt(config: Config, log: seq<Entry>, s: Session, i: int, k: nat)
    requires k <= |log|
  {
    && 0 <= i < k && AcceptedHello(config, log[i]) && log[i].request.payload == s.clientNonce
    && |s.clientNonce| == NONCE_BYTES
    && forall h | 0 <= h < k && h != i :: !AcceptedHello(config, log[h])
  }

  ghost predicate ProofAt(config: Config, start: Session, log: seq<Entry>, i: int, j: int) {
    0 <= i < j < |log| && AcceptedProof(config, log[j]) && ProofOf(config, start, log[i].request, log[j].request)
  }

  /** What one request that leaves the connection open does to the session. */
  lemma ManagedStep(config: Config, e: Entry)
    requires HandledFor(config, e).ok && !HandledFor(config, e).proxy
    ensures var s, t := e.session, HandledFor(config, e).session;
      && t.bridgeNonce == s.bridgeNonce && t.sessionId == s.sessionId && !FailedProof(config, e)
      && (AcceptedHello(config, e) ==>
            s.state == AwaitingHello && |e.request.payload| == NONCE_BYTES
            && t == s.(state := AwaitingAuthentication, clientNonce := e.request.payload))
      && (AcceptedProof(config, e) ==>
            s.state == AwaitingAuthentication && t == s.(state := Authenticated)
            && config.hmac(config.secret, Material(s.clientNonce, s.bridgeNonce, s.sessionId)) == Some(e.request.payload))
      && (!AcceptedHello(config, e) && !AcceptedProof(config, e) ==> t == s)
  {
  }

  lemma HelloStays(config: Config, log: seq<Entry>, s: Session, t: Session, i: int, k: nat)
    requires k < |log| && HelloAt(config, log, s, i, k) && !AcceptedHello(config, log[k]) && t.clientNonce == s.clientNonce
    ensures HelloAt(config, log, t, i, k + 1)
  {
  }

  lemma HelloIsFirst(config: Config, log: seq<Entry>, t: Session, k: nat)
    requires k < |log| && (forall i | 0 <= i < k :: !AcceptedHello(config, log[i])) && AcceptedHello(config, log[k])
    requires t.clientNonce == log[k].request.payload && |t.clientNonce| == NONCE_BYTES
    ensures HelloAt(config, log, t, k, k + 1)
  {
  }

  lemma ProvenanceStep(config: Config, start: Session, log: seq<Entry>, k: nat)
    requires k < |log| && Provenance(config, start, log, log[k].session, k)
    requires HandledFor(config, log[k]).ok && !HandledFor(config, log[k]).proxy
    ensures Provenance(config, start, log, HandledFor(config, log[k]).session, k + 1)
  {
    var e := log[k];
    var s, t := e.session, HandledFor(config, e).session;
    ManagedStep(config, e);
    match s.state
    case AwaitingHello =>
      if AcceptedHello(config, e) {
        HelloIsFirst(config, log, t, k);
      }
    case AwaitingAuthentication =>
      var i :| HelloAt(config, log, s, i, k);
      HelloStays(config, log, s, t, i, k);
      if AcceptedProof(config, e) {
        assert ProofAt(config, start, log, i, k);
      }
    case Authenticated =>
      var i, j :| i < j < k && HelloAt(config, log, s, i, k) && ProofAt(config, start, log, i, j);
      HelloStays(config, log, s, t, i, k);
  }

  lemma {:induction false} ProvenanceAt(config: Config, start: Session, r: Served, k: nat)
    requires start.state == AwaitingHello && Chained(config, start, r) && k < |r.log|
    ensures Provenance(config, start, r.log, r.log[k].session, k)
  {
    if k > 0 {
      ProvenanceAt(config, start, r, k - 1);
      assert Linked(config, r.log, k - 1);
      ProvenanceStep(config, start, r.log, k - 1);
    }
  }

  ghost predicate AuthenticatedBy(config: Config, start: Session, log: seq<Entry>, i: nat, j: nat) {
    && i < j < |log| - 1
    && AcceptedHello(config, log[i]) && (forall h | 0 <= h < |log| - 1 && h != i :: !AcceptedHello(config, log[h]))
    && AcceptedProof(config, log[j]) && ProofOf(config, start, log[i].request, log[j].request)
    && (forall h | 0 <= h < |log| - 1 :: !FailedProof(config, log[h]))
  }

  /** The last request is an empty BeginRpcProxy met by a ready link that starts the session. */
  predicate EndsWithBegin(log: seq<Entry>) {
    |log| > 0 && var last := log[|log| - 1];
    last.request.command == BridgeMessage.BEGIN_PROXY && last.request.payload == [] && last.env.ready && last.env.beginOk
  }

  lemma RawNeedsProof(config: Config, start: Session, r: Served) returns (i: nat, j: nat)
    requires start.state == AwaitingHello && Chained(config, start, r) && r.exit == Raw
    ensures AuthenticatedBy(config, start, r.log, i, j) && EndsWithBegin(r.log)
  {
    var n := |r.log| - 1;
    ProvenanceAt(config, start, r, n);
    var last := r.log[n];
    assert HandledFor(config, last).proxy;
    ProxyDecision(config, last);
    i, j :| i < j < n && HelloAt(config, r.log, last.session, i, n) && ProofAt(config, start, r.log, i, j);
  }

  lemma ProxyDecision(config: Config, e: Entry)
    requires HandledFor(config, e).proxy
    ensures e.session.state == Authenticated && e.request.command == BridgeMessage.BEGIN_PROXY
    ensures e.request.payload == [] && e.env.ready && e.env.beginOk
  {
  }

  /** Reaching raw mode takes exactly one accepted Hello, then a proof computed from its nonce and
      this session's values under the pairing secret, no failed proof anywhere, and finally an empty
      BeginRpcProxy request met by a ready link. */
  lemma ProxyingImpliesAuthentication(config: Config, start: Session, s: seq<Byte>, envs: nat -> Env, r: Served)
    returns (i: nat, j: nat)
    requires start.state == AwaitingHello && r == Serve(config, start, s, envs, 0) && r.exit == Raw
    ensures AuthenticatedBy(config, start, r.log, i, j) && EndsWithBegin(r.log)
  {
    ServeChained(config, start, s, envs, 0);
    i, j := RawNeedsProof(config, start, r);
  }

  lemma RankNeverFalls(config: Config, e: Entry)
    ensures Rank(HandledFor(config, e).session.state) >= Rank(e.session.state)
  {
  }

  predicate Climbs(log: seq<Entry>, i: nat)
    requires i + 1 < |log|
  {
    Rank(log[i].session.state) <= Rank(log[i + 1].session.state)
  }

  lemma ChainClimbs(config: Config, start: Session, r: Served, i: nat)
    requires Chained(config, start, r) && i + 1 < |r.log|
    ensures Climbs(r.log, i)
  {
    assert Linked(config, r.log, i);
    RankNeverFalls(config, r.log[i]);
  }

  lemma {:induction false} ClimbingNeverFalls(log: seq<Entry>, i: nat, j: nat)
    requires i <= j < |log| && forall k: nat | k + 1 < |log| :: Climbs(log, k)
    ensures Rank(log[i].session.state) <= Rank(log[j].session.state)
    decreases j
  {
    if i < j {
      ClimbingNeverFalls(log, i, j - 1);
      assert Climbs(log, j - 1);
    }
  }

  /** The session state never moves backwards. */
  lemma SessionNeverMovesBack(config: Config, start: Session, s: seq<Byte>, envs: nat -> Env, r: Served, i: nat, j: nat)
    requires r == Serve(config, start, s, envs, 0) && i <= j < |r.log|
    ensures Rank(r.log[i].session.state) <= Rank(r.log[j].session.state)
  {
    ServeChained(config, start, s, envs, 0);
    forall k: nat | k + 1 < |r.log| ensures Climbs(r.log, k) {
      ChainClimbs(config, start, r, k);
    }
    ClimbingNeverFalls(r.log, i, j);
  }

  // ----- responses -----

  /** The one response a request is due: none when its command cannot be echoed. */
  function DueResponse(config: Config, e: Entry): seq<Message> {
    var d := DecisionFor(config, e);
    if d.reply.Some? && BridgeMessage.Encodable(ResponseTo(e.request, d.reply.value)) then [ResponseTo(e.request, d.reply.value)]
    else []
  }

  function DueResponses(config: Config, log: seq<Entry>): seq<Message> {
    if log == [] then [] else DueResponse(config, log[0]) + DueResponses(config, log[1..])
  }

  /** The error frame sent when a header is refused. */
  function ErrorFrames(exit: Exit): seq<Message> {
    match exit
    case HeaderRefused(v) =>
      [ResponseTo(FALLBACK, Reply(if v.TooLarge? then BridgeMessage.TOO_LARGE else BridgeMessage.MALFORMED, []))]
    case _ => []
  }

  predicate AllWellFormed(ms: seq<Message>) {
    forall i | 0 <= i < |ms| :: BridgeMessage.WellFormed(ms[i])
  }

  function EncodeAll(ms: seq<Message>): seq<Byte>
    requires AllWellFormed(ms)
  {
    if ms == [] then [] else BridgeMessage.Encode(ms[0]) + EncodeAll(ms[1..])
  }

  /** A reply echoes the command and the request id and carries the response flag. */
  lemma DueResponseEchoes(config: Config, e: Entry)
    ensures AllWellFormed(DueResponse(config, e)) && |DueResponse(config, e)| <= 1
    ensures forall m | m in DueResponse(config, e) ::
      m.version == 1 && m.command == e.request.command && m.id == e.request.id && m.flags == BridgeMessage.RESPONSE_FLAG
  {
  }

  lemma {:induction false} EncodeAllConcat(a: seq<Message>, b: seq<Message>)
    requires AllWellFormed(a) && AllWellFormed(b)
    ensures AllWellFormed(a + b) && EncodeAll(a + b) == EncodeAll(a) + EncodeAll(b)
  {
    if a == [] {
      assert a + b == b;
    } else {
      EncodeAllConcat(a[1..], b);
      assert (a + b)[1..] == a[1..] + b;
      assert (a + b)[0] == a[0];
      Regroup(BridgeMessage.Encode(a[0]), EncodeAll(a[1..]), EncodeAll(b));
    }
  }

  /** What goes out for one request: the whole encoding of its due response when the handler
      carries on, a prefix of it otherwise. */
  lemma OneResponse(config: Config, e: Entry)
    ensures AllWellFormed(DueResponse(config, e))
    ensures HandledFor(config, e).sent <= EncodeAll(DueResponse(config, e))
    ensures HandledFor(config, e).ok ==> HandledFor(config, e).sent == EncodeAll(DueResponse(config, e))
    ensures HandledFor(config, e).ok ==> |DueResponse(config, e)| == 1
  {
    DueResponseEchoes(config, e);
    var due := DueResponse(config, e);
    if due != [] {
      assert due[1..] == [];
      assert EncodeAll(due) == BridgeMessage.Encode(due[0]) + EncodeAll([]);
      assert EncodeAll(due) == BridgeMessage.Encode(due[0]);
    }
  }

  /** The protocol document's table: when a request succeeds, given the session it meets. */
  predicate Succeeds(config: Config, e: Entry) {
    var m, s := e.request, e.session;
    && m.version == BridgeMessage.VERSION && m.flags == 0 && m.status == BridgeMessage.OK
    && (m.command == BridgeMessage.HELLO ==> s.state == AwaitingHello && |m.payload| == NONCE_BYTES)
    && (m.command == BridgeMessage.AUTHENTICATE ==>
          s.state == AwaitingAuthentication && |m.payload| == HMAC_BYTES
          && config.hmac(config.secret, Material(s.clientNonce, s.bridgeNonce, s.sessionId)) == Some(m.payload))
    && (m.command != BridgeMessage.HELLO && m.command != BridgeMessage.AUTHENTICATE ==> s.state == Authenticated)
    && (BridgeMessage.GET_INFO <= m.command <= BridgeMessage.END_PROXY ==> m.payload == [])
    && (m.command == BridgeMessage.BEGIN_PROXY ==> e.env.ready && e.env.beginOk)
    && (m.command == BridgeMessage.GET_INFO || m.command == BridgeMessage.GET_STATUS ==>
          e.env.json.Some? && |e.env.json.value| < BridgeMessage.MAX_PAYLOAD)
    && BridgeMessage.HELLO <= m.command <= BridgeMessage.PING
  }

  function SuccessPayload(e: Entry): seq<Byte> {
    var c := e.request.command;
    if c == BridgeMessage.HELLO then e.session.bridgeNonce + e.session.sessionId
    else if c == BridgeMessage.PING then e.request.payload
    else if (c == BridgeMessage.GET_INFO || c == BridgeMessage.GET_STATUS) && e.env.json.Some? then e.env.json.value
    else []
  }

  /** A request is answered Ok exactly when the table says so, and with the payload it says; and
      only such an answer to Hello, Authenticate or BeginRpcProxy moves the session. */
  lemma OkExactlyAsDocumented(config: Config, e: Entry)
    ensures var d := DecisionFor(config, e);
      && (d.reply.Some? && d.reply.value.status == BridgeMessage.OK <==> Succeeds(config, e))
      && (Succeeds(config, e) ==> d.reply.value.payload == SuccessPayload(e))
      && (d.session != e.session ==>
            Succeeds(config, e) && e.request.command in {BridgeMessage.HELLO, BridgeMessage.AUTHENTICATE, BridgeMessage.BEGIN_PROXY})
  {
  }

  predicate KnownCommand(m: Message) {
    BridgeMessage.HELLO <= m.command <= BridgeMessage.PING
  }

  /** The request gets past the checks on flags, status and version. */
  predicate Admitted(m: Message) {
    m.flags == 0 && m.status == BridgeMessage.OK && m.version == BridgeMessage.VERSION
  }

  /** The request reaches the dispatcher for authenticated sessions. */
  predicate Privileged(e: Entry) {
    Admitted(e.request) && e.session.state == Authenticated
    && e.request.command != BridgeMessage.HELLO && e.request.command != BridgeMessage.AUTHENTICATE
  }

  predicate WantsJson(e: Entry) {
    Privileged(e) && (e.request.command == BridgeMessage.GET_INFO || e.request.command == BridgeMessage.GET_STATUS)
    && e.request.payload == []
  }

  /** A command the encoder cannot echo, or an info or status text that does not fit. */
  predicate Unanswerable(e: Entry) {
    !KnownCommand(e.request) || (WantsJson(e) && (e.env.json.None? || |e.env.json.value| >= BridgeMessage.MAX_PAYLOAD))
  }

  lemma SilenceExactly(config: Config, e: Entry)
    requires Sized(e.session) && |e.request.payload| <= BridgeMessage.MAX_PAYLOAD
    ensures DueResponse(config, e) == [] <==> Unanswerable(e)
    ensures Unanswerable(e) ==> !HandledFor(config, e).ok && HandledFor(config, e).sent == []
  {
  }

  lemma StaysSized(config: Config, e: Entry)
    requires Sized(e.session)
    ensures Sized(HandledFor(config, e).session)
  {
  }

  lemma {:induction false} SessionsSized(config: Config, start: Session, r: Served, i: nat)
    requires Sized(start) && Chained(config, start, r) && i < |r.log|
    ensures Sized(r.log[i].session)
  {
    if i > 0 {
      SessionsSized(config, start, r, i - 1);
      StaysSized(config, r.log[i - 1]);
      assert Linked(config, r.log, i - 1);
    }
  }

  /** In every connection a request is due no response in two cases only: the decoder takes any
      command byte but the encoder cannot echo an unknown one, and the text of an info or status
      request may not fit. Such a request ends the connection without a byte sent for it. */
  lemma SilentRequests(config: Config, start: Session, s: seq<Byte>, envs: nat -> Env, r: Served, i: nat)
    requires Sized(start) && r == Serve(config, start, s, envs, 0) && i < |r.log|
    ensures DueResponse(config, r.log[i]) == [] <==> Unanswerable(r.log[i])
    ensures Unanswerable(r.log[i]) ==> i == |r.log| - 1 && r.exit == HandlerFailed && HandledFor(config, r.log[i]).sent == []
  {
    ServeChained(config, start, s, envs, 0);
    SessionsSized(config, start, r, i);
    BytesAccounted(config, start, s, envs, 0);
    SilenceExactly(config, r.log[i]);
    assert i < |r.log| - 1 ==> Linked(config, r.log, i);
  }

  /** When a connection ends with a refused header, these are the fourteen bytes that follow the
      requests handled; the error frame answers Hello with request id 0 and says 6, too large, exactly
      when nothing is wrong with them but a size over 512, else 1, malformed. */
  lemma RefusedHeaderAnswered(config: Config, session: Session, s: seq<Byte>, envs: nat -> Env, r: Served) returns (bad: seq<Byte>)
    requires r == Serve(config, session, s, envs, 0) && r.exit.HeaderRefused?
    ensures |bad| == 14 && PayloadsFit(r.log) && s == RequestBytes(r.log) + (bad + r.rest)
    ensures BridgeMessage.GoodHeader(bad) ==> BridgeMessage.SizeField(bad) > 512
    ensures ErrorFrames(r.exit) == [BridgeMessage.Message(1, 1, 1, if BridgeMessage.GoodHeader(bad) then 6 else 1, 0, [])]
    ensures InOrder(config, r)
  {
    BytesAccounted(config, session, s, envs, 0);
    bad :| AccountedWith(r, s, bad);
    RefusedVerdict(config, session, s, envs, 0);
    BridgeMessage.VerdictInBytes(bad);
    ResponsesInOrder(config, session, s, envs, 0);
  }

  lemma {:induction false} RefusedVerdict(config: Config, session: Session, s: seq<Byte>, envs: nat -> Env, n: nat)
    ensures var exit := Serve(config, session, s, envs, n).exit;
            exit.HeaderRefused? ==> exit.verdict.Malformed? || exit.verdict.TooLarge?
    decreases |s|
  {
    var p := BridgeMessage.Parse(s);
    if p.verdict.Ready? {
      var e, rest := Entry(p.verdict.message, session, envs(n)), s[p.length..];
      ServeReady(config, session, s, envs, n, e.request, rest);
      var h := HandledFor(config, e);
      if h.ok && !h.proxy {
        RefusedVerdict(config, h.session, rest, envs, n + 1);
      }
    }
  }

  predicate Replies(config: Config, e: Entry, status: Byte) {
    var reply := DecisionFor(config, e).reply;
    reply.Some? && reply.value.status == status
  }

  /** Malformed is the answer to flags or a status that a request must not have, and to a payload
      on an authenticated info, status or EndRpcProxy request; to nothing else. */
  lemma MalformedExactly(config: Config, e: Entry)
    ensures Replies(config, e, BridgeMessage.MALFORMED) <==>
            e.request.flags != 0 || e.request.status != BridgeMessage.OK
            || (Privileged(e) && e.request.payload != []
                && e.request.command in {BridgeMessage.GET_INFO, BridgeMessage.GET_STATUS, BridgeMessage.END_PROXY})
  {
  }

  /** Unavailable is the answer to an authenticated BeginRpcProxy with a payload, a link that is not
      ready or a start that fails. The first two also ask the transport to reconnect, and nothing
      else does. */
  lemma UnavailableExactly(config: Config, e: Entry)
    ensures Replies(config, e, BridgeMessage.UNAVAILABLE) <==>
            Privileged(e) && e.request.command == BridgeMessage.BEGIN_PROXY
            && (e.request.payload != [] || !e.env.ready || !e.env.beginOk)
    ensures RequestReconnect in DecisionFor(config, e).calls <==>
            Privileged(e) && e.request.command == BridgeMessage.BEGIN_PROXY && (e.request.payload != [] || !e.env.ready)
  {
  }

  /** InvalidState is the answer to a Hello or Authenticate whose session state or payload size is
      wrong, and to an unknown command once authenticated. */
  lemma InvalidStateExactly(config: Config, e: Entry)
    ensures Replies(config, e, BridgeMessage.INVALID_STATE) <==>
            || (Admitted(e.request) && e.request.command == BridgeMessage.HELLO
                && (e.session.state != AwaitingHello || |e.request.payload| != NONCE_BYTES))
            || (Admitted(e.request) && e.request.command == BridgeMessage.AUTHENTICATE
                && (e.session.state != AwaitingAuthentication || |e.request.payload| != HMAC_BYTES))
            || (Privileged(e) && !KnownCommand(e.request))
  {
  }

  /** Unauthorized is the answer to a proof that does not match, which also ends the connection, and
      to any other command before authentication. */
  lemma UnauthorizedExactly(config: Config, e: Entry)
    ensures Replies(config, e, BridgeMessage.UNAUTHORIZED) <==>
            Admitted(e.request) && e.request.command != BridgeMessage.HELLO
            && if e.request.command == BridgeMessage.AUTHENTICATE
               then e.session.state == AwaitingAuthentication && |e.request.payload| == HMAC_BYTES && !Succeeds(config, e)
               else e.session.state != Authenticated
    ensures DecisionFor(config, e).reply.Some? && DecisionFor(config, e).fatal <==>
            e.request.command == BridgeMessage.AUTHENTICATE && Replies(config, e, BridgeMessage.UNAUTHORIZED)
  {
  }

  /** UnsupportedProtocol is the answer exactly to a request of another version that has no flag and no
      status set. */
  lemma UnsupportedExactly(config: Config, e: Entry)
    ensures Replies(config, e, 2) <==> e.request.flags == 0 && e.request.status == 0 && e.request.version != 1
  {
  }

  /** No other status is ever answered to a request, and an answer that is not Ok carries nothing. */
  lemma RepliesAreThese(config: Config, e: Entry)
    ensures var reply := DecisionFor(config, e).reply;
            reply.Some? ==> reply.value.status in {0, 1, 2, 3, 5, 7} && (reply.value.status != 0 ==> reply.value.payload == [])
  {
  }

  /** The calls on the transport: none but for an authenticated BeginRpcProxy, and then one: a
      reconnection is asked for, or a start is tried; a start whose answer cannot be sent is ended. */
  lemma CallsExactly(config: Config, e: Entry)
    ensures var begins := Privileged(e) && e.request.command == BridgeMessage.BEGIN_PROXY;
            HandledFor(config, e).calls ==
              if !begins then []
              else if e.request.payload != [] || !e.env.ready then [RequestReconnect]
              else if !e.env.beginOk then [BeginRpc(false)]
              else if HandledFor(config, e).ok then [BeginRpc(true)]
              else [BeginRpc(true), EndRpc]
  {
  }

  /** Request i is message i, met by its own surroundings. */
  ghost predicate Matches(log: seq<Entry>, messages: seq<Message>, envs: nat -> Env, n: nat, i: nat) {
    i < |log| && i < |messages| && log[i].request == messages[i] && log[i].env == envs(n + i)
  }

  lemma MatchesLater(e: Entry, log: seq<Entry>, m: Message, messages: seq<Message>, envs: nat -> Env, n: nat, i: nat)
    requires Matches(log, messages, envs, n + 1, i)
    ensures Matches([e] + log, [m] + messages, envs, n, i + 1)
  {
    assert ([e] + log)[i + 1] == log[i] && ([m] + messages)[i + 1] == messages[i];
  }

  ghost predicate AllMatch(log: seq<Entry>, messages: seq<Message>, envs: nat -> Env, n: nat) {
    forall i: nat | i < |log| :: Matches(log, messages, envs, n, i)
  }

  lemma AllMatchLater(e: Entry, log: seq<Entry>, m: Message, messages: seq<Message>, envs: nat -> Env, n: nat)
    requires e.request == m && e.env == envs(n) && AllMatch(log, messages, envs, n + 1)
    ensures AllMatch([e] + log, [m] + messages, envs, n)
  {
    forall i: nat | i < |[e] + log| ensures Matches([e] + log, [m] + messages, envs, n, i) {
      if i > 0 {
        MatchesLater(e, log, m, messages, envs, n, i - 1);
      }
    }
  }

  /** The requests handled are the messages of the stream from its start, in order, each met by its
      own surroundings. */
  lemma {:induction false} RequestsInOrder(config: Config, session: Session, s: seq<Byte>, envs: nat -> Env, n: nat)
    ensures AllMatch(Serve(config, session, s, envs, n).log, Messages(s), envs, n)
    decreases |s|
  {
    if BridgeMessage.Parse(s).verdict.Ready? {
      var m, rest := BridgeMessage.Parse(s).verdict.message, s[BridgeMessage.Parse(s).length..];
      var h := Handle(config, session, m, envs(n));
      MessagesHead(s);
      LogHead(config, session, s, envs, n);
      if h.ok && !h.proxy {
        RequestsInOrder(config, h.session, rest, envs, n + 1);
        AllMatchLater(Entry(m, session, envs(n)), Serve(config, h.session, rest, envs, n + 1).log, m, Messages(rest), envs, n);
      } else {
        AllMatchLater(Entry(m, session, envs(n)), [], m, Messages(rest), envs, n);
      }
    }
  }

  /** A connection that waits has handled every message of its stream; what is left is only the start
      of one. So together with the other exits, nothing that could be handled is left unhandled. */
  lemma {:induction false} WaitsOnlyForMore(config: Config, session: Session, s: seq<Byte>, envs: nat -> Env, n: nat)
    ensures var r := Serve(config, session, s, envs, n);
            r.exit == Waiting ==> BridgeMessage.Parse(r.rest).verdict.NeedMore? && |r.log| == |Messages(s)|
    decreases |s|
  {
    if BridgeMessage.Parse(s).verdict.Ready? {
      var m, rest := BridgeMessage.Parse(s).verdict.message, s[BridgeMessage.Parse(s).length..];
      var h := Handle(config, session, m, envs(n));
      ServeReady(config, session, s, envs, n, m, rest);
      MessagesHead(s);
      LogHead(config, session, s, envs, n);
      if h.ok && !h.proxy {
        WaitsOnlyForMore(config, h.session, rest, envs, n + 1);
      }
    }
  }

  lemma MessagesHead(s: seq<Byte>)
    requires BridgeMessage.Parse(s).verdict.Ready?
    ensures Messages(s) == [BridgeMessage.Parse(s).verdict.message] + Messages(s[BridgeMessage.Parse(s).length..])
  {
  }

  lemma LogHead(config: Config, session: Session, s: seq<Byte>, envs: nat -> Env, n: nat)
    requires BridgeMessage.Parse(s).verdict.Ready?
    ensures var p := BridgeMessage.Parse(s);
            var h := Handle(config, session, p.verdict.message, envs(n));
            Serve(config, session, s, envs, n).log
            == [Entry(p.verdict.message, session, envs(n))]
               + (if h.ok && !h.proxy then Serve(config, h.session, s[p.length..], envs, n + 1).log else [])
  {
    ServeReady(config, session, s, envs, n, BridgeMessage.Parse(s).verdict.message, s[BridgeMessage.Parse(s).length..]);
  }

  function Due(config: Config, r: Served): seq<Message> {
    DueResponses(config, r.log) + ErrorFrames(r.exit)
  }

  ghost predicate InOrder(config: Config, r: Served) {
    && AllWellFormed(Due(config, r)) && r.sent <= EncodeAll(Due(config, r))
    && (r.exit == Waiting || r.exit == Raw ==> r.sent == EncodeAll(Due(config, r)) && |Due(config, r)| == |r.log|)
  }

  lemma InOrderContinue(config: Config, e: Entry, r: Served)
    requires HandledFor(config, e).ok && InOrder(config, r)
    ensures InOrder(config, Continue(HandledFor(config, e).sent, HandledFor(config, e).calls, [e], r))
  {
    var q := Continue(HandledFor(config, e).sent, HandledFor(config, e).calls, [e], r);
    OneResponse(config, e);
    assert q.log[0] == e && q.log[1..] == r.log;
    assert Due(config, q) == DueResponse(config, e) + Due(config, r);
    EncodeAllConcat(DueResponse(config, e), Due(config, r));
  }

  lemma InOrderLast(config: Config, e: Entry, r: Served)
    requires r.log == [e] && r.sent == HandledFor(config, e).sent
    requires r.exit == HandlerFailed || (r.exit == Raw && HandledFor(config, e).ok)
    ensures InOrder(config, r)
  {
    OneResponse(config, e);
    assert r.log[1..] == [];
    assert DueResponses(config, r.log) == DueResponse(config, e) + DueResponses(config, []);
    assert Due(config, r) == DueResponse(config, e);
  }

  lemma InOrderRefused(config: Config, r: Served, socket: BridgeIo.Socket)
    requires r.log == [] && r.exit.HeaderRefused?
    requires r.sent == Transmit(FALLBACK, Reply(if r.exit.verdict.TooLarge? then BridgeMessage.TOO_LARGE else BridgeMessage.MALFORMED, []), socket).0
    ensures InOrder(config, r)
  {
    var due := Due(config, r);
    assert due == ErrorFrames(r.exit) && due[1..] == [];
    assert EncodeAll(due) == BridgeMessage.Encode(due[0]) + EncodeAll([]);
    assert EncodeAll(due) == BridgeMessage.Encode(due[0]);
  }

  /** The bytes sent are a prefix of the encodings of one response per request, in request order,
      then the error frame of a refused header; and they are all of them while the connection waits
      for more or has gone raw. */
  lemma {:induction false} ResponsesInOrder(config: Config, session: Session, s: seq<Byte>, envs: nat -> Env, n: nat)
    ensures InOrder(config, Serve(config, session, s, envs, n))
    decreases |s|
  {
    var p := BridgeMessage.Parse(s);
    var r := Serve(config, session, s, envs, n);
    if p.verdict.Ready? {
      var e, rest := Entry(p.verdict.message, session, envs(n)), s[p.length..];
      ServeReady(config, session, s, envs, n, e.request, rest);
      var h := HandledFor(config, e);
      if h.ok && !h.proxy {
        ResponsesInOrder(config, h.session, rest, envs, n + 1);
        InOrderContinue(config, e, Serve(config, h.session, rest, envs, n + 1));
      } else {
        InOrderLast(config, e, r);
      }
    } else if p.verdict.NeedMore? {
      assert Due(config, r) == [];
    } else {
      InOrderRefused(config, r, envs(n).socket);
    }
  }

  /** Every message on a stream, as the peer's decoder reports them. */
  function Messages(s: seq<Byte>): seq<Message>
    decreases |s|
  {
    var p := BridgeMessage.Parse(s);
    if p.verdict.Ready? then [p.verdict.message] + Messages(s[p.length..]) else []
  }

  lemma MessagesFirst(m: Message, rest: seq<Byte>)
    requires BridgeMessage.WellFormed(m)
    ensures Messages(BridgeMessage.Encode(m) + rest) == [m] + Messages(rest)
  {
    BridgeMessage.ParseEncoded(m, rest);
    assert (BridgeMessage.Encode(m) + rest)[|BridgeMessage.Encode(m)|..] == rest;
  }

  /** The same decoder parses the responses back, one by one, whatever follows. */
  lemma {:induction false} ResponsesParseBack(ms: seq<Message>, tail: seq<Byte>)
    requires AllWellFormed(ms)
    ensures Messages(EncodeAll(ms) + tail) == ms + Messages(tail)
  {
    if ms == [] {
      assert EncodeAll(ms) + tail == tail && ms + Messages(tail) == Messages(tail);
    } else {
      ResponsesParseBack(ms[1..], tail);
      EncodeAllFirst(ms, tail);
      MessagesFirst(ms[0], EncodeAll(ms[1..]) + tail);
      FirstAndRest(ms, Messages(tail));
    }
  }

  lemma FirstAndRest(ms: seq<Message>, more: seq<Message>)
    requires ms != []
    ensures [ms[0]] + (ms[1..] + more) == ms + more
  {
  }

  lemma EncodeAllFirst(ms: seq<Message>, tail: seq<Byte>)
    requires AllWellFormed(ms) && ms != []
    ensures EncodeAll(ms) + tail == BridgeMessage.Encode(ms[0]) + (EncodeAll(ms[1..]) + tail)
  {
  }

  // ----- RPC sessions are handed over or ended -----

  function Starts(calls: seq<Call>): nat {
    if calls == [] then 0 else (if calls[0] == BeginRpc(true) then 1 else 0) + Starts(calls[1..])
  }

  ghost predicate HandedOver(r: Served) {
    && (r.exit == Raw <==> Starts(r.calls) == 1 && r.calls[|r.calls| - 1] == BeginRpc(true))
    && (Starts(r.calls) > 0 && r.exit != Raw ==>
          && Starts(r.calls) == 1 && r.exit == HandlerFailed
          && |r.calls| >= 2 && r.calls[|r.calls| - 2..] == [BeginRpc(true), EndRpc])
  }

  lemma HandedOverContinue(h: Handled, log: seq<Entry>, r: Served)
    requires |h.calls| <= 1 && Starts(h.calls) == 0 && HandedOver(r)
    ensures HandedOver(Continue(h.sent, h.calls, log, r))
  {
    StartsConcat(h.calls, r.calls);
    var calls := h.calls + r.calls;
    if |r.calls| >= 2 {
      assert calls[|calls| - 2..] == r.calls[|r.calls| - 2..];
    }
    if r.calls == [] {
      assert calls == h.calls;
    }
  }

  lemma HandlerCalls(config: Config, e: Entry)
    ensures var h := HandledFor(config, e);
      if DecisionFor(config, e).proxy
      then h.ok == h.proxy && h.calls == (if h.ok then [BeginRpc(true)] else [BeginRpc(true), EndRpc])
      else !h.proxy && |h.calls| <= 1 && Starts(h.calls) == 0
  {
    var h := HandledFor(config, e);
    if h.calls != [] && |h.calls| == 1 {
      assert h.calls[1..] == [];
    }
  }

  /** An RPC session started for a connection is its last business: it is handed to the raw proxy,
      or ended at once because the response could not be sent. */
  lemma {:induction false} StartedSessionIsHandedOver(config: Config, session: Session, s: seq<Byte>, envs: nat -> Env, n: nat)
    ensures HandedOver(Serve(config, session, s, envs, n))
    decreases |s|
  {
    var p := BridgeMessage.Parse(s);
    var r := Serve(config, session, s, envs, n);
    if p.verdict.Ready? {
      var e, rest := Entry(p.verdict.message, session, envs(n)), s[p.length..];
      ServeReady(config, session, s, envs, n, e.request, rest);
      HandlerCalls(config, e);
      var h := HandledFor(config, e);
      if h.ok && !h.proxy {
        StartedSessionIsHandedOver(config, h.session, rest, envs, n + 1);
        HandedOverContinue(h, [e], Serve(config, h.session, rest, envs, n + 1));
      } else {
        assert [BeginRpc(true)][1..] == [] && [BeginRpc(true), EndRpc][1..] == [EndRpc] && [EndRpc][1..] == [];
        assert |r.calls| == 2 ==> r.calls[|r.calls| - 2..] == r.calls;
      }
    }
  }

  lemma StartsConcat(a: seq<Call>, b: seq<Call>)
    requires |a| <= 1
    ensures Starts(a + b) == Starts(a) + Starts(b)
  {
    if a == [] {
      assert a + b == b;
    } else {
      assert (a + b)[1..] == b && a[1..] == [];
    }
  }

  // ----- what was sent stays sent -----

  /** More input never changes what was already answered. */
  lemma {:induction false} SentGrows(config: Config, session: Session, a: seq<Byte>, b: seq<Byte>, envs: nat -> Env, n: nat)
    ensures Serve(config, session, a, envs, n).sent <= Serve(config, session, a + b, envs, n).sent
    decreases |a|
  {
    var p := BridgeMessage.Parse(a);
    BridgeMessage.ParseStable(a, b);
    if p.verdict.Ready? {
      var e, rest := Entry(p.verdict.message, session, envs(n)), a[p.length..];
      assert (a + b)[p.length..] == rest + b;
      ServeReady(config, session, a, envs, n, e.request, rest);
      ServeReady(config, session, a + b, envs, n, e.request, rest + b);
      var h := HandledFor(config, e);
      if h.ok && !h.proxy {
        SentGrows(config, h.session, rest, b, envs, n + 1);
        PrefixAfter(h.sent, Serve(config, h.session, rest, envs, n + 1).sent, Serve(config, h.session, rest + b, envs, n + 1).sent);
      }
    }
  }
}
