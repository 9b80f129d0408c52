/** The Expansion encoder and decoder as the source runs them: buffers filled in place. */
module ExpansionCodec {
  import opened Bytes
  import opened ExpansionProtocol

  method ChecksumOf(bytes: array<Byte>, size: nat) returns (checksum: Byte)
    requires size <= bytes.Length
    ensures checksum == Checksum(bytes[..size])
  {
    checksum := 0;
    for index := 0 to size
      invariant checksum == Checksum(bytes[..index])
    {
      assert bytes[..index + 1][..index] == bytes[..index];
      checksum := Xor(checksum, bytes[index]);
    }
  }

  /** The type-specific part of the encoder: everything before the checksum. */
  method EncodeBody(frame: Frame, output: array<Byte>) returns (ok: bool, bodySize: nat)
    requires output.Length >= 2
    modifies output
    ensures ok <==> Encodable(frame) && |Body(frame)| < output.Length
    ensures ok ==> bodySize == |Body(frame)| && output[..] == Body(frame) + old(output[bodySize..])
  {
    ok, bodySize := true, 1;
    match frame {
      case Heartbeat =>
        output[0] := TYPE_HEARTBEAT;
      case Status(s) =>
        output[0] := TYPE_STATUS;
        bodySize := 2;
        if output.Length < bodySize + 1 { return false, 0; }
        output[1] := s;
      case BaudRate(rate) =>
        output[0] := TYPE_BAUD;
        bodySize := 5;
        if output.Length < bodySize + 1 { return false, 0; }
        CopyInto(output, 1, WriteU32(rate));
      case Control(c) =>
        output[0] := TYPE_CONTROL;
        bodySize := 2;
        if output.Length < bodySize + 1 || c > STOP_RPC { return false, 0; }
        output[1] := c;
      case Data(payload) =>
        output[0] := TYPE_DATA;
        if |payload| > MAX_DATA { return false, 0; }
        bodySize := 2 + |payload|;
        if output.Length < bodySize + 1 { return false, 0; }
        output[1] := |payload|;
        CopyInto(output, 2, payload);
    }
  }

  /** Encodes into a caller's buffer whose length is the capacity. */
  method EncodeFrame(frame: Frame, output: array<Byte>) returns (ok: bool, size: nat)
    modifies output
    ensures ok <==> Encodable(frame) && |Encode(frame)| <= output.Length
    ensures ok ==> size == |Encode(frame)| && output[..] == Encode(frame) + old(output[size..])
  {
    if output.Length < 2 {
      return false, 0;
    }
    var bodySize;
    ok, bodySize := EncodeBody(frame, output);
    if !ok || output.Length < bodySize + 1 {
      return false, 0;
    }
    assert output[..bodySize] == Body(frame) && output[bodySize + 1..] == old(output[bodySize + 1..]);
    AppendChecksum(output, bodySize);
    return true, bodySize + 1;
  }

  method AppendChecksum(output: array<Byte>, bodySize: nat)
    requires bodySize < output.Length
    modifies output
    ensures output[..] == old(output[..bodySize] + [Checksum(output[..bodySize])] + output[bodySize + 1..])
  {
    var checksum := ChecksumOf(output, bodySize);
    output[bodySize] := checksum;
  }

  class Decoder {
    const bytes: array<Byte>
    var used: nat
    var expected: nat

    ghost predicate Valid()
      reads this, bytes
    {
      && bytes.Length == DECODER_BYTES
      && used <= DECODER_BYTES
      && Incomplete(bytes[..used])
      && expected == (if used == 0 then 0 else Announced(bytes[..used]).value)
    }

    /** The bytes received since the last frame boundary. */
    ghost function Pending(): seq<Byte>
      requires Valid()
      reads this, bytes
    {
      bytes[..used]
    }

    constructor ()
      ensures Valid() && Pending() == [] && fresh(bytes)
    {
      bytes := new Byte[DECODER_BYTES](_ => 0);
      used, expected := 0, 0;
    }

    method Reset()
      requires bytes.Length == DECODER_BYTES
      modifies this, bytes
      ensures Valid() && Pending() == []
    {
      for i := 0 to bytes.Length {
        bytes[i] := 0;
      }
      used, expected := 0, 0;
    }

    /** Fixes the frame length as soon as the bytes so far announce it. */
    method SetExpected() returns (known: bool)
      requires bytes.Length == DECODER_BYTES && 0 < used <= DECODER_BYTES
      requires used > 1 ==> Announced(bytes[..used - 1]).Some? && expected == Announced(bytes[..used - 1]).value
      modifies this`expected
      ensures known <==> Announced(bytes[..used]).Some?
      ensures known ==> expected == Announced(bytes[..used]).value
    {
      if used == 1 {
        if bytes[0] == TYPE_HEARTBEAT {
          expected := 2;
        } else if bytes[0] == TYPE_STATUS || bytes[0] == TYPE_CONTROL {
          expected := 3;
        } else if bytes[0] == TYPE_BAUD {
          expected := 6;
        } else if bytes[0] == TYPE_DATA {
          expected := 0;
        } else {
          return false;
        }
      } else if used == 2 && bytes[0] == TYPE_DATA {
        if bytes[1] > MAX_DATA {
          return false;
        }
        expected := 3 + bytes[1];
      }
      return true;
    }

    /** The verdict on a complete frame. The unknown type after a matching checksum cannot happen: the
        assertion in that branch is proved. */
    method Judge(ghost p: seq<Byte>) returns (result: Decoded)
      requires 0 < used == expected <= bytes.Length && p == bytes[..used] && Announced(p) == Some(expected)
      ensures result == Classify(p) && result != NeedMore
    {
      var bodySize := expected - 1;
      var checksum := ChecksumOf(bytes, bodySize);
      assert bytes[..bodySize] == p[..bodySize];
      if checksum != bytes[bodySize] {
        return ChecksumError;
      }
      if bytes[0] == TYPE_HEARTBEAT {
        result := Ready(Heartbeat);
      } else if bytes[0] == TYPE_STATUS {
        result := if bytes[1] > ERROR_BAUD then Malformed else Ready(Status(bytes[1]));
      } else if bytes[0] == TYPE_BAUD {
        assert bytes[1..5] == p[1..5];
        result := Ready(BaudRate(ReadU32(bytes[1..5])));
      } else if bytes[0] == TYPE_CONTROL {
        result := if bytes[1] > STOP_RPC then Malformed else Ready(Control(bytes[1]));
      } else if bytes[0] == TYPE_DATA {
        assert bytes[2..2 + bytes[1]] == p[2..|p| - 1];
        result := Ready(Data(bytes[2..2 + bytes[1]]));
      } else {
        assert false;
      }
    }

    /** One received byte. The overflow branch and the length mismatch cannot happen: the assertions
        in those branches are proved. */
    method Push(byte: Byte) returns (result: Decoded)
      requires Valid()
      modifies this, bytes
      ensures Valid()
      ensures result == Classify(old(Pending()) + [byte])
      ensures Pending() == if result == NeedMore then old(Pending()) + [byte] else []
    {
      ghost var before := Pending();
      ghost var p := before + [byte];
      if used >= bytes.Length {
        assert false;
      }
      bytes[used] := byte;
      used := used + 1;
      assert bytes[..used] == p;
      assert bytes[..used - 1] == before;
      var known := SetExpected();
      if !known {
        Reset();
        return Malformed;
      }
      if expected == 0 || used < expected {
        NeedMoreIsIncomplete(p);
        return NeedMore;
      }
      if used != expected {
        assert false;
      }
      result := Judge(p);
      Reset();
    }
  }

  /** The whole-stream decoding, one byte further. */
  lemma StreamStep(frames: seq<Frame>, pending: seq<Byte>, input: seq<Byte>, next: nat)
    requires Incomplete(pending) && next < |input|
    ensures var p := pending + [input[next]];
            var whole := Prepend(frames, DecodeStream(pending, input[next..]));
            match Classify(p)
            case NeedMore => Incomplete(p) && whole == Prepend(frames, DecodeStream(p, input[next + 1..]))
            case Ready(f) => whole == Prepend(frames + [f], DecodeStream([], input[next + 1..]))
            case _ => whole == Stream(frames, [], p, input[next + 1..])
  {
    var rest, p := input[next..], pending + [input[next]];
    assert rest[0] == input[next] && rest[1..] == input[next + 1..];
    if Classify(p).Ready? {
      Regroup(frames, [Classify(p).frame], DecodeStream([], rest[1..]).frames);
    } else if Classify(p) == NeedMore {
      NeedMoreIsIncomplete(p);
    } else {
      assert frames + [] == frames;
    }
  }

  /** A receive loop: push bytes one at a time until the input ends or a byte draws an error. */
  method Receive(decoder: Decoder, input: seq<Byte>) returns (frames: seq<Frame>, failed: bool, ghost stream: Stream)
    requires decoder.Valid()
    modifies decoder, decoder.bytes
    ensures decoder.Valid()
    ensures stream == DecodeStream(old(decoder.Pending()), input)
    ensures frames == stream.frames
    ensures failed <==> stream.bad != []
    ensures !failed ==> decoder.Pending() == stream.pending
  {
    frames, failed := [], false;
    stream := DecodeStream(decoder.Pending(), input);
    var next := 0;
    while next < |input|
      invariant 0 <= next <= |input|
      invariant decoder.Valid()
      invariant stream == Prepend(frames, DecodeStream(decoder.Pending(), input[next..]))
    {
      StreamStep(frames, decoder.Pending(), input, next);
      var result := decoder.Push(input[next]);
      next := next + 1;
      match result {
        case NeedMore =>
        case Ready(frame) =>
          frames := frames + [frame];
        case _ =>
          failed := true;
          return;
      }
    }
  }
}
