/** The management session: its states, the authentication material and the comparison of proofs. */
module BridgeSession {
  import opened Bytes
  import BridgeMessage

  const NONCE_BYTES := 32
  const SESSION_ID_BYTES := 8
  const HMAC_BYTES := 32
  const MATERIAL_BYTES := 97

  /** ASCII "Flipforge Bridge Auth v1". */
  const AUTH_CONTEXT: seq<Byte> :=
    [70, 108, 105, 112, 102, 111, 114, 103, 101, 32, 66, 114, 105, 100, 103, 101, 32, 65, 117, 116, 104, 32, 118, 49]

  datatype State = AwaitingHello | AwaitingAuthentication | Authenticated | Proxying | Closed

  datatype Session = Session(state: State, clientNonce: seq<Byte>, bridgeNonce: seq<Byte>, sessionId: seq<Byte>)

  predicate Sized(s: Session) {
    |s.clientNonce| == NONCE_BYTES && |s.bridgeNonce| == NONCE_BYTES && |s.sessionId| == SESSION_ID_BYTES
  }

  function Rank(s: State): nat {
    match s
    case AwaitingHello => 0
    case AwaitingAuthentication => 1
    case Authenticated => 2
    case Proxying => 3
    case Closed => 4
  }

  function Fresh(bridgeNonce: seq<Byte>, sessionId: seq<Byte>): Session {
    Session(AwaitingHello, Zeros(NONCE_BYTES), bridgeNonce, sessionId)
  }

  /** The 97 bytes both sides authenticate. */
  function Material(clientNonce: seq<Byte>, bridgeNonce: seq<Byte>, sessionId: seq<Byte>): seq<Byte> {
    AUTH_CONTEXT + [BridgeMessage.VERSION] + clientNonce + bridgeNonce + sessionId
  }

  /** Different nonces or session ids never share their material. */
  lemma MaterialInjective(s: Session, t: Session)
    requires Sized(s) && Sized(t)
    ensures |Material(s.clientNonce, s.bridgeNonce, s.sessionId)| == MATERIAL_BYTES
    ensures Material(s.clientNonce, s.bridgeNonce, s.sessionId) == Material(t.clientNonce, t.bridgeNonce, t.sessionId)
        <==> s.clientNonce == t.clientNonce && s.bridgeNonce == t.bridgeNonce && s.sessionId == t.sessionId
  {
    var m := Material(s.clientNonce, s.bridgeNonce, s.sessionId);
    var n := Material(t.clientNonce, t.bridgeNonce, t.sessionId);
    assert m[25..57] == s.clientNonce && m[57..89] == s.bridgeNonce && m[89..97] == s.sessionId;
    assert n[25..57] == t.clientNonce && n[57..89] == t.bridgeNonce && n[89..97] == t.sessionId;
  }

  /** The OR-fold over all positions is equality: no early exit, no difference cancelled. */
  method ConstantTimeEqual(lhs: seq<Byte>, rhs: seq<Byte>, size: nat) returns (equal: bool)
    requires size <= |lhs| && size <= |rhs|
    ensures equal <==> lhs[..size] == rhs[..size]
  {
    var difference: Byte := 0;
    for index := 0 to size
      invariant difference == 0 <==> lhs[..index] == rhs[..index]
    {
      XorLaws(lhs[index], rhs[index]);
      assert lhs[..index + 1] == lhs[..index] + [lhs[index]];
      assert rhs[..index + 1] == rhs[..index] + [rhs[index]];
      difference := Or(difference, Xor(lhs[index], rhs[index]));
    }
    equal := difference == 0;
  }

  class BridgeSession {
    var state: State
    var clientNonce: seq<Byte>
    var bridgeNonce: seq<Byte>
    var sessionId: seq<Byte>

    function Value(): Session
      reads this
    {
      Session(state, clientNonce, bridgeNonce, sessionId)
    }

    constructor (bridgeNonce: seq<Byte>, sessionId: seq<Byte>)
      ensures Value() == Fresh(bridgeNonce, sessionId)
    {
      this.state := AwaitingHello;
      this.clientNonce := Zeros(NONCE_BYTES);
      this.bridgeNonce := bridgeNonce;
      this.sessionId := sessionId;
    }

    method AcceptHello(nonce: seq<Byte>) returns (ok: bool)
      modifies this
      ensures ok <==> old(state) == AwaitingHello
      ensures Value() == if ok then old(Value()).(state := AwaitingAuthentication, clientNonce := nonce) else old(Value())
    {
      if state != AwaitingHello { return false; }
      clientNonce := nonce;
      state := AwaitingAuthentication;
      return true;
    }

    method MarkAuthenticated() returns (ok: bool)
      modifies this
      ensures ok <==> old(state) == AwaitingAuthentication
      ensures Value() == if ok then old(Value()).(state := Authenticated) else old(Value())
    {
      if state != AwaitingAuthentication { return false; }
      state := Authenticated;
      return true;
    }

    method Authenticate(expected: seq<Byte>, provided: seq<Byte>) returns (ok: bool)
      requires |expected| == |provided| == HMAC_BYTES
      modifies this
      ensures ok <==> old(state) == AwaitingAuthentication && expected == provided
      ensures Value() == if ok then old(Value()).(state := Authenticated) else old(Value())
    {
      if state != AwaitingAuthentication { return false; }
      var equal := ConstantTimeEqual(expected, provided, HMAC_BYTES);
      assert expected[..HMAC_BYTES] == expected && provided[..HMAC_BYTES] == provided;
      if !equal { return false; }
      ok := MarkAuthenticated();
    }

    method BeginProxy() returns (ok: bool)
      modifies this
      ensures ok <==> old(state) == Authenticated
      ensures Value() == if ok then old(Value()).(state := Proxying) else old(Value())
    {
      if state != Authenticated { return false; }
      state := Proxying;
      return true;
    }

    method Close()
      modifies this
      ensures Value() == Session(Closed, Zeros(NONCE_BYTES), Zeros(NONCE_BYTES), Zeros(SESSION_ID_BYTES))
    {
      clientNonce := Zeros(NONCE_BYTES);
      bridgeNonce := Zeros(NONCE_BYTES);
      sessionId := Zeros(SESSION_ID_BYTES);
      state := Closed;
    }

    /** Lays the material out in a caller's buffer, or reports 0 when it does not fit. */
    method AuthMaterial(output: array<Byte>) returns (size: nat)
      requires Sized(Value())
      modifies output
      ensures size == if output.Length >= MATERIAL_BYTES then MATERIAL_BYTES else 0
      ensures size > 0 ==> output[..size] == Material(clientNonce, bridgeNonce, sessionId)
      ensures size == 0 ==> output[..] == old(output[..])
    {
      if output.Length < MATERIAL_BYTES { return 0; }
      var offset := CopyNext(output, 0, AUTH_CONTEXT);
      offset := CopyNext(output, offset, [BridgeMessage.VERSION]);
      offset := CopyNext(output, offset, clientNonce);
      offset := CopyNext(output, offset, bridgeNonce);
      offset := CopyNext(output, offset, sessionId);
      return MATERIAL_BYTES;
    }
  }
}
