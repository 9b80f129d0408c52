/** The management message codec: the wire format as a whole-stream parser, the encoder, and the
    resumable decoder that is fed arbitrary chunks. */
module BridgeMessage {
  import opened Bytes

  const HEADER := 14
  const MAX_PAYLOAD := 512
  const MAX_MESSAGE := HEADER + MAX_PAYLOAD
  const MAGIC: seq<Byte> := [0x46, 0x42, 0x52, 0x47]
  const VERSION: Byte := 1
  const RESPONSE_FLAG: Byte := 1

  const HELLO: Byte := 1
  const AUTHENTICATE: Byte := 2
  const GET_INFO: Byte := 3
  const GET_STATUS: Byte := 4
  const BEGIN_PROXY: Byte := 5
  const END_PROXY: Byte := 6
  const PING: Byte := 7

  const OK: Byte := 0
  const MALFORMED: Byte := 1
  const UNSUPPORTED: Byte := 2
  const UNAUTHORIZED: Byte := 3
  const UNAVAILABLE: Byte := 5
  const TOO_LARGE: Byte := 6
  const INVALID_STATE: Byte := 7

  /** Command and status are raw bytes, as in the decoder: it accepts any command. */
  datatype Message = Message(version: Byte, command: Byte, flags: Byte, status: Byte, id: U32, payload: seq<Byte>)

  datatype Decoded = NeedMore | Ready(message: Message) | Malformed | TooLarge

  /** The first thing on a byte stream, and how many bytes it takes. */
  datatype Parsed = Parsed(verdict: Decoded, length: nat)

  /** The encoder refuses unknown commands and long payloads; it does not look at flags or status. */
  predicate Encodable(m: Message) {
    HELLO <= m.command <= PING && |m.payload| <= MAX_PAYLOAD
  }

  /** What survives the trip through the decoder. */
  predicate WellFormed(m: Message) {
    |m.payload| <= MAX_PAYLOAD && m.flags <= RESPONSE_FLAG && m.status <= INVALID_STATE
  }

  function HeaderOf(m: Message): (h: seq<Byte>)
    requires |m.payload| <= MAX_PAYLOAD
    ensures |h| == HEADER
  {
    MAGIC + [m.version, m.command, m.flags, m.status] + WriteU32(m.id) + WriteU16(|m.payload|)
  }

  function Encode(m: Message): (e: seq<Byte>)
    requires |m.payload| <= MAX_PAYLOAD
    ensures HEADER <= |e| == HEADER + |m.payload| <= MAX_MESSAGE
  {
    HeaderOf(m) + m.payload
  }

  /** Flags other than the response bit, an unknown status or a wrong magic. */
  predicate BadHeader(h: seq<Byte>)
    requires |h| >= HEADER
  {
    h[..4] != MAGIC || h[6] > RESPONSE_FLAG || h[7] > INVALID_STATE
  }

  function PayloadSize(h: seq<Byte>): U16
    requires |h| >= HEADER
  {
    ReadU16(h[12..14])
  }

  function MessageAt(s: seq<Byte>): Message
    requires |s| >= HEADER && HEADER + PayloadSize(s) <= |s|
  {
    Message(s[4], s[5], s[6], s[7], ReadU32(s[8..12]), s[HEADER..HEADER + PayloadSize(s)])
  }

  /** The simple whole-stream parser: look at the header once 14 bytes are there, then at the
      message once its payload is there. */
  function Parse(s: seq<Byte>): (r: Parsed)
    ensures r.verdict.NeedMore? ==> r.length == |s| < MAX_MESSAGE
    ensures !r.verdict.NeedMore? ==> HEADER <= r.length <= |s|
  {
    if |s| < HEADER then Parsed(NeedMore, |s|)
    else if BadHeader(s) then Parsed(Malformed, HEADER)
    else if PayloadSize(s) > MAX_PAYLOAD then Parsed(TooLarge, HEADER)
    else if |s| < HEADER + PayloadSize(s) then Parsed(NeedMore, |s|)
    else Parsed(Ready(MessageAt(s)), HEADER + PayloadSize(s))
  }

  lemma HeaderFields(m: Message, tail: seq<Byte>)
    requires |m.payload| <= MAX_PAYLOAD
    ensures var s := Encode(m) + tail;
      && s[..4] == MAGIC && s[4..8] == [m.version, m.command, m.flags, m.status]
      && s[8..12] == WriteU32(m.id) && s[12..14] == WriteU16(|m.payload|)
      && s[HEADER..HEADER + |m.payload|] == m.payload
  {
  }

  /** Decoding the encoding of any well-formed message, whatever bytes follow, returns the message
      and takes exactly the bytes of its encoding. */
  lemma ParseEncoded(m: Message, tail: seq<Byte>)
    requires WellFormed(m)
    ensures Parse(Encode(m) + tail) == Parsed(Ready(m), |Encode(m)|)
  {
    var s := Encode(m) + tail;
    HeaderFields(m, tail);
    ReadAfterWriteU32(m.id);
    assert s[4] == s[4..8][0] && s[5] == s[4..8][1] && s[6] == s[4..8][2] && s[7] == s[4..8][3];
    assert PayloadSize(s) == |m.payload|;
  }

  /** Conversely, a decoded message re-encodes to the bytes it was decoded from. */
  lemma EncodeParsed(s: seq<Byte>)
    requires Parse(s).verdict.Ready?
    ensures var m := Parse(s).verdict.message;
      WellFormed(m) && Encode(m) == s[..Parse(s).length]
  {
    var m := Parse(s).verdict.message;
    WriteAfterReadU32(s[8..12]);
    WriteAfterReadU16(s[12..14]);
    assert s[..HEADER] == s[..4] + s[4..8] + s[8..12] + s[12..14];
    assert s[4..8] == [s[4], s[5], s[6], s[7]];
    assert s[..HEADER + |m.payload|] == s[..HEADER] + s[HEADER..HEADER + |m.payload|];
  }

  /** The verdict depends on no byte after the ones it takes, and a stream that is still waiting
      stays waiting on every prefix. */
  lemma ParseStable(s: seq<Byte>, t: seq<Byte>)
    ensures !Parse(s).verdict.NeedMore? ==> Parse(s + t) == Parse(s)
    ensures Parse(s + t).verdict.NeedMore? ==> Parse(s).verdict.NeedMore?
    ensures !Parse(s + t).verdict.NeedMore? && Parse(s + t).length > |s| ==> Parse(s).verdict.NeedMore?
  {
    if |s| >= HEADER {
      assert (s + t)[..4] == s[..4] && (s + t)[8..12] == s[8..12] && (s + t)[12..14] == s[12..14];
      if HEADER + PayloadSize(s) <= |s| {
        assert (s + t)[HEADER..HEADER + PayloadSize(s)] == s[HEADER..HEADER + PayloadSize(s)];
      }
    }
  }

  /** "FBRG", no flag but the response bit, and a known status. */
  predicate GoodHeader(s: seq<Byte>)
    requires |s| >= 14
  {
    s[0] == 0x46 && s[1] == 0x42 && s[2] == 0x52 && s[3] == 0x47 && s[6] <= 1 && s[7] <= 7
  }

  function SizeField(s: seq<Byte>): nat
    requires |s| >= 14
  {
    var low: int, high: int := s[12], s[13];
    low + 256 * high
  }

  /** The verdict in terms of the bytes: the first fourteen decide whether the header is refused and
      how, and the size in them decides how many more the message takes. */
  lemma VerdictInBytes(s: seq<Byte>)
    ensures |s| < 14 ==> Parse(s) == Parsed(NeedMore, |s|)
    ensures |s| >= 14 ==>
              var size := SizeField(s);
              && (Parse(s) == Parsed(Malformed, 14) <==> !GoodHeader(s))
              && (Parse(s) == Parsed(TooLarge, 14) <==> GoodHeader(s) && size > 512)
              && (Parse(s) == Parsed(NeedMore, |s|) <==> GoodHeader(s) && size <= 512 && |s| < 14 + size)
              && (Parse(s).verdict.Ready? && Parse(s).length == 14 + size <==> GoodHeader(s) && size <= 512 && |s| >= 14 + size)
  {
    if |s| >= 14 {
      assert s[..4] == [s[0], s[1], s[2], s[3]];
      assert s[12..14] == [s[12], s[13]];
    }
  }

  method WriteHeader(m: Message, output: array<Byte>)
    requires |m.payload| <= MAX_PAYLOAD && output.Length >= HEADER
    modifies output
    ensures output[..] == HeaderOf(m) + old(output[HEADER..])
  {
    CopyInto(output, 0, MAGIC);
    output[4] := m.version;
    output[5] := m.command;
    output[6] := m.flags;
    output[7] := m.status;
    assert output[..8] == MAGIC + [m.version, m.command, m.flags, m.status];
    CopyInto(output, 8, WriteU32(m.id));
    assert output[..12] == MAGIC + [m.version, m.command, m.flags, m.status] + WriteU32(m.id);
    CopyInto(output, 12, WriteU16(|m.payload|));
    assert output[..HEADER] == HeaderOf(m) && output[HEADER..] == old(output[HEADER..]);
    assert output[..] == output[..HEADER] + output[HEADER..];
  }

  /** Encodes into a caller's buffer whose length is the capacity; a refusal leaves it untouched. */
  method EncodeMessage(m: Message, output: array<Byte>) returns (ok: bool, size: nat)
    modifies output
    ensures ok <==> Encodable(m) && |Encode(m)| <= output.Length
    ensures ok ==> size == |Encode(m)| && output[..] == Encode(m) + old(output[size..])
    ensures !ok ==> output[..] == old(output[..])
  {
    if |m.payload| > MAX_PAYLOAD || m.command < HELLO || m.command > PING {
      return false, 0;
    }
    var required := HEADER + |m.payload|;
    if output.Length < required {
      return false, 0;
    }
    WriteHeader(m, output);
    assert output[..HEADER] == HeaderOf(m);
    CopyInto(output, HEADER, m.payload);
    return true, required;
  }

  /** A message's payload array: the payload, then zeros. */
  function PayloadArray(m: Message): (a: seq<Byte>)
    requires |m.payload| <= MAX_PAYLOAD
    ensures |a| == MAX_PAYLOAD
  {
    m.payload + Zeros(MAX_PAYLOAD - |m.payload|)
  }

  /** Clears the array and copies the payload in. */
  method FillPayload(output: array<Byte>, payload: seq<Byte>)
    requires |payload| <= output.Length
    modifies output
    ensures output[..] == payload + Zeros(output.Length - |payload|)
  {
    for i := 0 to output.Length
      invariant forall j | 0 <= j < i :: output[j] == 0
    {
      output[i] := 0;
    }
    CopyInto(output, 0, payload);
    assert output[..|payload|] == payload && output[|payload|..] == Zeros(output.Length - |payload|);
    assert output[..] == output[..|payload|] + output[|payload|..];
  }

  class Decoder {
    const bytes: array<Byte>
    var used: nat
    var expected: nat

    ghost predicate Valid()
      reads this, bytes
    {
      && bytes.Length == MAX_MESSAGE
      && used < MAX_MESSAGE
      && Parse(bytes[..used]).verdict.NeedMore?
      && expected == (if used < HEADER then 0 else HEADER + PayloadSize(bytes[..used]))
    }

    /** The bytes received since the last message boundary. */
    ghost function Pending(): seq<Byte>
      requires Valid()
      reads this, bytes
    {
      bytes[..used]
    }

    constructor ()
      ensures Valid() && Pending() == [] && fresh(bytes)
    {
      bytes := new Byte[MAX_MESSAGE](_ => 0);
      used, expected := 0, 0;
    }

    method Reset()
      requires bytes.Length == MAX_MESSAGE
      modifies this, bytes
      ensures Valid() && Pending() == []
    {
      for i := 0 to bytes.Length {
        bytes[i] := 0;
      }
      used, expected := 0, 0;
    }

    /** The message that has arrived. */
    method Complete(ghost p: seq<Byte>, output: array<Byte>) returns (result: Decoded)
      requires bytes.Length == MAX_MESSAGE && output != bytes && output.Length == MAX_PAYLOAD
      requires HEADER <= used == expected <= MAX_MESSAGE && p == bytes[..used] && !BadHeader(p) && used == HEADER + PayloadSize(p)
      modifies output
      ensures result == Parse(p).verdict && result.Ready?
      ensures |result.message.payload| <= MAX_PAYLOAD && output[..] == PayloadArray(result.message)
    {
      assert bytes[8..12] == p[8..12] && bytes[HEADER..used] == p[HEADER..used];
      result := Ready(Message(bytes[4], bytes[5], bytes[6], bytes[7], ReadU32(bytes[8..12]), bytes[HEADER..used]));
      FillPayload(output, bytes[HEADER..used]);
    }

    /** Appends one byte and judges the result: the body of the loop in Push. A message also fills
        the caller's payload array, which is otherwise left alone. */
    method Append(byte: Byte, output: array<Byte>) returns (result: Decoded)
      requires Valid() && output != bytes && output.Length == MAX_PAYLOAD
      modifies this, bytes, output
      ensures Valid()
      ensures result.Ready? ==> |result.message.payload| <= MAX_PAYLOAD && output[..] == PayloadArray(result.message)
      ensures !result.Ready? ==> output[..] == old(output[..])
      ensures result == Parse(old(Pending()) + [byte]).verdict
      ensures Pending() == if result.NeedMore? then old(Pending()) + [byte] else []
    {
      ghost var p := Pending() + [byte];
      ParseStable(Pending(), [byte]);
      bytes[used] := byte;
      used := used + 1;
      assert bytes[..used] == p;
      if used == HEADER {
        if bytes[..4] != MAGIC || bytes[6] > RESPONSE_FLAG || bytes[7] > INVALID_STATE {
          assert bytes[..4] == p[..4];
          Reset();
          return Malformed;
        }
        var payloadSize := ReadU16(bytes[12..14]);
        assert bytes[..4] == p[..4] && bytes[12..14] == p[12..14];
        if payloadSize > MAX_PAYLOAD {
          Reset();
          return TooLarge;
        }
        expected := HEADER + payloadSize;
      }
      assert used >= HEADER ==> expected == HEADER + PayloadSize(p) && !BadHeader(p) by {
        if used > HEADER {
          var q := p[..|p| - 1];
          assert q[..4] == p[..4] && q[12..14] == p[12..14];
        }
      }
      if expected > 0 && used == expected {
        result := Complete(p, output);
        Reset();
        return;
      }
      return NeedMore;
    }

    /** Consumes the chunk up to the end of the first message or error in it. The buffer-full branch
        cannot happen: the assertion in it is proved. */
    method Push(chunk: seq<Byte>, output: array<Byte>) returns (result: Decoded, consumed: nat)
      requires Valid() && output != bytes && output.Length == MAX_PAYLOAD
      modifies this, bytes, output
      ensures Valid()
      ensures result.Ready? ==> |result.message.payload| <= MAX_PAYLOAD && output[..] == PayloadArray(result.message)
      ensures !result.Ready? ==> output[..] == old(output[..])
      ensures consumed <= |chunk|
      ensures result == Parse(old(Pending()) + chunk).verdict
      ensures |old(Pending())| + consumed == Parse(old(Pending()) + chunk).length
      ensures result.NeedMore? ==> consumed == |chunk|
      ensures Pending() == if result.NeedMore? then old(Pending()) + chunk else []
    {
      ghost var before := Pending();
      consumed := 0;
      while consumed < |chunk|
        invariant consumed <= |chunk|
        invariant Valid()
        invariant Pending() == before + chunk[..consumed] && output[..] == old(output[..])
      {
        if used >= bytes.Length {
          assert false;
        }
        ghost var seen := Pending() + [chunk[consumed]];
        assert seen == before + chunk[..consumed + 1];
        assert seen + chunk[consumed + 1..] == before + chunk;
        ParseStable(seen, chunk[consumed + 1..]);
        ParseStable(Pending(), [chunk[consumed]]);
        result := Append(chunk[consumed], output);
        consumed := consumed + 1;
        if !result.NeedMore? {
          return;
        }
      }
      assert before + chunk[..consumed] == before + chunk;
      return NeedMore, consumed;
    }
  }
}
