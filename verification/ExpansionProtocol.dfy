/** The Expansion frame codec: an encoder into a caller's buffer and a byte-at-a-time decoder,
    each proved against a pure description of the frame language. */
module ExpansionProtocol {
  import opened Bytes

  const MAX_DATA := 64
  const DECODER_BYTES := MAX_DATA + 3

  const TYPE_HEARTBEAT: Byte := 1
  const TYPE_STATUS: Byte := 2
  const TYPE_BAUD: Byte := 3
  const TYPE_CONTROL: Byte := 4
  const TYPE_DATA: Byte := 5

  const ERROR_NONE: Byte := 0
  const ERROR_UNKNOWN: Byte := 1
  const ERROR_BAUD: Byte := 2

  const START_RPC: Byte := 0
  const STOP_RPC: Byte := 1

  datatype Frame =
    | Heartbeat
    | Status(status: Byte)
    | BaudRate(baud: U32)
    | Control(control: Byte)
    | Data(payload: seq<Byte>)

  /** What the decoder reports after a byte. */
  datatype Decoded = NeedMore | Ready(frame: Frame) | Malformed | ChecksumError

  /** What the encoder accepts: it does not look at a status value. */
  predicate Encodable(f: Frame) {
    match f
    case Control(c) => c <= STOP_RPC
    case Data(p) => |p| <= MAX_DATA
    case _ => true
  }

  /** What a conforming peer may send: Encodable, with a status the decoder knows. */
  predicate WellFormed(f: Frame) {
    Encodable(f) && (f.Status? ==> f.status <= ERROR_BAUD)
  }

  function Body(f: Frame): (b: seq<Byte>)
    requires Encodable(f)
    ensures |b| > 0
  {
    match f
    case Heartbeat => [TYPE_HEARTBEAT]
    case Status(s) => [TYPE_STATUS, s]
    case BaudRate(r) => [TYPE_BAUD] + WriteU32(r)
    case Control(c) => [TYPE_CONTROL, c]
    case Data(p) => [TYPE_DATA, |p|] + p
  }

  /** The frame language: a body followed by the XOR of its bytes. */
  function Encode(f: Frame): (e: seq<Byte>)
    requires Encodable(f)
    ensures 2 <= |e| <= DECODER_BYTES
  {
    Body(f) + [Checksum(Body(f))]
  }

  /** The frame length announced by the bytes so far: Some(0) when it is still unknown,
      None when no frame starts this way. */
  function Announced(p: seq<Byte>): Option<nat>
    requires |p| > 0
  {
    if p[0] == TYPE_HEARTBEAT then Some(2)
    else if p[0] == TYPE_STATUS || p[0] == TYPE_CONTROL then Some(3)
    else if p[0] == TYPE_BAUD then Some(6)
    else if p[0] != TYPE_DATA then None
    else if |p| == 1 then Some(0)
    else if p[1] > MAX_DATA then None
    else Some(3 + p[1])
  }

  /** The content of a complete frame whose checksum matches. */
  function Content(p: seq<Byte>): Decoded
    requires |p| > 0 && Announced(p) == Some(|p|)
  {
    if p[0] == TYPE_HEARTBEAT then Ready(Heartbeat)
    else if p[0] == TYPE_STATUS then (if p[1] > ERROR_BAUD then Malformed else Ready(Status(p[1])))
    else if p[0] == TYPE_BAUD then Ready(BaudRate(ReadU32(p[1..5])))
    else if p[0] == TYPE_CONTROL then (if p[1] > STOP_RPC then Malformed else Ready(Control(p[1])))
    else Ready(Data(p[2..|p| - 1]))
  }

  /** The verdict on the bytes received since the last frame boundary. */
  function Classify(p: seq<Byte>): Decoded
    requires |p| > 0
  {
    match Announced(p)
    case None => Malformed
    case Some(n) =>
      if n == 0 || |p| < n then NeedMore
      else if |p| > n then Malformed
      else if Checksum(p[..n - 1]) != p[n - 1] then ChecksumError
      else Content(p)
  }

  /** Bytes a decoder may be holding between two pushes. */
  predicate Incomplete(p: seq<Byte>) {
    p == [] || (Classify(p) == NeedMore && |p| < DECODER_BYTES)
  }

  // ----- the accepted language is exactly the encoder's image -----

  lemma AcceptsEncoded(f: Frame)
    requires WellFormed(f)
    ensures Classify(Encode(f)) == Ready(f)
  {
    var e := Encode(f);
    var n := |e|;
    assert e[..n - 1] == Body(f);
    match f
    case BaudRate(r) =>
      assert e[1..5] == WriteU32(r);
      ReadAfterWriteU32(r);
    case Data(p) =>
      assert e[2..n - 1] == p;
    case _ =>
  }

  lemma AcceptedIsEncoded(p: seq<Byte>)
    requires |p| > 0 && Classify(p).Ready?
    ensures WellFormed(Classify(p).frame) && Encode(Classify(p).frame) == p
  {
    AcceptedBody(p);
    assert p == p[..|p| - 1] + [p[|p| - 1]];
  }

  lemma AcceptedBody(p: seq<Byte>)
    requires |p| > 0 && Classify(p).Ready?
    ensures WellFormed(Classify(p).frame) && Body(Classify(p).frame) == p[..|p| - 1]
    ensures Checksum(p[..|p| - 1]) == p[|p| - 1]
  {
    if p[0] == TYPE_BAUD {
      WriteAfterReadU32(p[1..5]);
      assert p[..5] == [p[0]] + p[1..5];
    } else if p[0] == TYPE_DATA {
      assert p[..|p| - 1] == [p[0], p[1]] + p[2..|p| - 1];
    }
  }

  /** A complete frame is recognised if and only if it is the image of a well-formed frame. */
  lemma AcceptedLanguage(p: seq<Byte>, f: Frame)
    requires |p| > 0
    ensures Classify(p) == Ready(f) <==> WellFormed(f) && p == Encode(f)
  {
    if Classify(p) == Ready(f) {
      AcceptedIsEncoded(p);
    }
    if WellFormed(f) && p == Encode(f) {
      AcceptsEncoded(f);
    }
  }

  /** No frame is a proper prefix of another: the decoder waits for the last byte. */
  lemma EncodedPrefixIsIncomplete(f: Frame, k: nat)
    requires Encodable(f) && k < |Encode(f)|
    ensures Incomplete(Encode(f)[..k])
  {
  }

  lemma ChecksumSnoc(s: seq<Byte>, b: Byte)
    ensures Checksum(s + [b]) == Xor(Checksum(s), b)
  {
    assert (s + [b])[..|s|] == s;
  }

  lemma ChecksumOfOne(a: Byte)
    ensures Checksum([a]) == a
  {
    ChecksumSnoc([], a);
    assert [] + [a] == [a];
    XorLaws(0, a);
    XorLaws(a, 0);
  }

  lemma ChecksumOfTwo(a: Byte, b: Byte)
    ensures Checksum([a, b]) == Xor(a, b)
  {
    ChecksumOfOne(a);
    ChecksumSnoc([a], b);
    assert [a] + [b] == [a, b];
  }

  lemma RateLayout(r: U32)
    ensures r / 0x100_0000 < 256 && WriteU32(r) == [r % 256, r / 256 % 256, r / 0x1_0000 % 256, r / 0x100_0000]
  {
    var high, low := r / 0x1_0000, r % 0x1_0000;
    assert r == 256 * (256 * high + low / 256) + low % 256;
    assert r / 256 == 256 * high + low / 256 && r % 256 == low % 256;
    assert WriteU16(low) == [low % 256, low / 256] && WriteU16(high) == [high % 256, high / 256];
  }

  /** The frames byte by byte: type, content and the XOR of both. */
  lemma FrameLayout(f: Frame)
    requires Encodable(f)
    ensures match f
            case Heartbeat => Encode(f) == [1, 1]
            case Status(c) => Encode(f) == [2, c, Xor(2, c)]
            case BaudRate(r) =>
              var body := [3, r % 256, r / 256 % 256, r / 0x1_0000 % 256, r / 0x100_0000];
              Encode(f) == body + [Checksum(body)]
            case Control(c) => Encode(f) == [4, c, Xor(4, c)]
            case Data(bytes) => Encode(f) == [5, |bytes|] + bytes + [Checksum([5, |bytes|] + bytes)]
  {
    match f
    case Heartbeat => ChecksumOfOne(1);
    case Status(c) => ChecksumOfTwo(2, c);
    case Control(c) => ChecksumOfTwo(4, c);
    case BaudRate(r) =>
      RateLayout(r);
      assert Body(f) == [3, r % 256, r / 256 % 256, r / 0x1_0000 % 256, r / 0x100_0000];
    case Data(_) =>
  }

  /** The length of the frame that starts so, 0 when one byte of Data does not tell. */
  function FrameLength(p: seq<Byte>): nat
    requires p != [] && 1 <= p[0] <= 5
  {
    if p[0] == 1 then 2
    else if p[0] == 3 then 6
    else if p[0] != 5 then 3
    else if |p| == 1 then 0
    else
      var size: int := p[1];
      3 + size
  }

  /** No frame starts so: an unknown type, or a Data frame of more than 64 bytes. */
  predicate Impossible(p: seq<Byte>)
    requires p != []
  {
    p[0] < 1 || p[0] > 5 || (p[0] == 5 && |p| > 1 && p[1] > 64)
  }

  /** Every verdict in terms of the bytes, for whatever a decoder can be holding. */
  lemma VerdictInBytes(p: seq<Byte>)
    requires p != [] && Incomplete(p[..|p| - 1])
    ensures var complete := !Impossible(p) && |p| == FrameLength(p);
            var unknown := (p[0] == 2 && |p| > 1 && p[1] > 2) || (p[0] == 4 && |p| > 1 && p[1] > 1);
            && (Classify(p) == NeedMore <==> !Impossible(p) && !complete)
            && (Classify(p) == ChecksumError <==> complete && Checksum(p) != 0)
            && (Classify(p) == Malformed <==> Impossible(p) || (complete && Checksum(p) == 0 && unknown))
            && (Classify(p).Ready? <==> complete && Checksum(p) == 0 && !unknown)
  {
    ChecksumZeroIffMatching(p);
    if |p| > 1 {
      var q := p[..|p| - 1];
      assert q[0] == p[0] && (|q| > 1 ==> q[1] == p[1]);
    }
  }

  // ----- error detection -----

  /** Two byte strings announce the same frame length at every point. */
  predicate SameFraming(p: seq<Byte>, q: seq<Byte>) {
    && |p| == |q|
    && (|p| > 0 ==> p[0] == q[0])
    && (|p| > 1 && p[0] == TYPE_DATA ==> p[1] == q[1])
  }

  function Difference(p: seq<Byte>, q: seq<Byte>): (d: seq<Byte>)
    requires |p| == |q|
    ensures |d| == |p|
  {
    seq(|p|, i requires 0 <= i < |p| => Xor(p[i], q[i]))
  }

  lemma {:induction false} ChecksumOfDifference(p: seq<Byte>, q: seq<Byte>)
    requires |p| == |q|
    ensures Checksum(Difference(p, q)) == Xor(Checksum(p), Checksum(q))
  {
    if p == [] {
      XorLaws(0, 0);
    } else {
      var n := |p| - 1;
      assert Difference(p, q)[..n] == Difference(p[..n], q[..n]);
      ChecksumOfDifference(p[..n], q[..n]);
      var a, b, x, y := Checksum(p[..n]), Checksum(q[..n]), p[n], q[n];
      // (a ^ b) ^ (x ^ y) == (a ^ x) ^ (b ^ y)
      XorAssociative(a, b, Xor(x, y));
      XorAssociative(b, x, y);
      XorLaws(b, x);
      XorAssociative(x, b, y);
      XorAssociative(a, x, Xor(b, y));
    }
  }

  lemma ChecksumZeroIffMatching(p: seq<Byte>)
    requires |p| > 0
    ensures Checksum(p) == 0 <==> Checksum(p[..|p| - 1]) == p[|p| - 1]
  {
    XorLaws(Checksum(p[..|p| - 1]), p[|p| - 1]);
  }

  lemma CorruptedLength(f: Frame, q: seq<Byte>)
    requires WellFormed(f) && SameFraming(Encode(f), q)
    ensures Announced(q) == Some(|q|) == Announced(Encode(f))
    ensures Checksum(Encode(f)) == 0
  {
    AcceptsEncoded(f);
    ChecksumZeroIffMatching(Encode(f));
  }

  lemma MismatchIffNonzero(q: seq<Byte>)
    requires |q| > 1 && Announced(q) == Some(|q|)
    ensures Classify(q) == ChecksumError <==> Checksum(q) != 0
    ensures forall k | 0 <= k < |q| :: Incomplete(q[..k])
  {
    ChecksumZeroIffMatching(q);
  }

  /** Exactly which corruptions the checksum catches when the framing bytes survive. */
  lemma CorruptionDetected(f: Frame, q: seq<Byte>)
    requires WellFormed(f) && SameFraming(Encode(f), q)
    ensures forall k | 0 <= k < |q| :: Incomplete(q[..k])
    ensures Classify(q) == ChecksumError <==> Checksum(Difference(Encode(f), q)) != 0
  {
    CorruptedLength(f, q);
    MismatchIffNonzero(q);
    ChecksumOfDifference(Encode(f), q);
    XorLaws(0, Checksum(q));
    XorLaws(Checksum(q), 0);
  }

  lemma {:induction false} ChecksumOfSingle(d: seq<Byte>, i: nat)
    requires i < |d| && forall j | 0 <= j < |d| && j != i :: d[j] == 0
    ensures Checksum(d) == d[i]
    decreases |d|
  {
    var n := |d| - 1;
    if i == n {
      ChecksumOfZeros(d[..n]);
      XorLaws(0, d[n]);
      XorLaws(d[n], 0);
    } else {
      ChecksumOfSingle(d[..n], i);
      XorLaws(d[i], 0);
    }
  }

  lemma {:induction false} ChecksumOfZeros(d: seq<Byte>)
    requires forall j | 0 <= j < |d| :: d[j] == 0
    ensures Checksum(d) == 0
  {
    if d != [] {
      ChecksumOfZeros(d[..|d| - 1]);
      XorLaws(0, 0);
    }
  }

  /** Every single-byte corruption outside the framing bytes is reported as a checksum error. */
  lemma SingleByteCorruptionDetected(f: Frame, i: nat, b: Byte)
    requires WellFormed(f) && i < |Encode(f)| && b != Encode(f)[i]
    requires i >= (if f.Data? then 2 else 1)
    ensures Classify(Encode(f)[i := b]) == ChecksumError
  {
    var e := Encode(f);
    var q := e[i := b];
    var d := Difference(e, q);
    forall j | 0 <= j < |d| && j != i ensures d[j] == 0 {
      XorLaws(e[j], e[j]);
    }
    ChecksumOfSingle(d, i);
    XorLaws(e[i], b);
    CorruptionDetected(f, q);
  }

  /** The framing condition is needed: one changed type byte turns a status into a heartbeat. */
  lemma FramingByteCorruptionCanPass()
    ensures Encode(Status(1)) == [2, 1, 3]
    ensures Classify([2, 1, 3][0 := 1][..2]) == Ready(Heartbeat)
  {
    var b: Byte := 2;
    assert Body(Status(1)) == [2, 1];
    assert [2 as Byte, 1][..1] == [2] && [2 as Byte][..0] == [];
    assert Checksum([2]) == Xor(Checksum([]), 2);
    XorLaws(0, 2);
    XorLaws(2, 0);
    assert Xor(2, 1) == 3 by {
      assert XorBits(2, 1) == 0 + 1 + 2 * XorBits(1, 0);
      XorBitsLaws(1, 0);
    }
    assert Checksum([2, 1]) == Xor(Checksum([2]), 1);
    var h: seq<Byte> := [2, 1, 3][0 := 1][..2];
    assert h == [1, 1] && h[..1] == [1];
    assert [1 as Byte][..0] == [];
    assert Checksum([1]) == Xor(Checksum([]), 1);
    XorLaws(0, 1);
    XorLaws(1, 0);
  }

  // ----- whole streams -----

  /** What a receive loop has seen: the frames in order, the bytes of the frame in progress,
      the bytes that drew an error (the loop stops there) and the bytes never looked at. */
  datatype Stream = Stream(frames: seq<Frame>, pending: seq<Byte>, bad: seq<Byte>, unread: seq<Byte>)

  function DecodeStream(pending: seq<Byte>, input: seq<Byte>): (r: Stream)
    requires Incomplete(pending)
    decreases |input|
  {
    if input == [] then Stream([], pending, [], [])
    else
      var p := pending + [input[0]];
      match Classify(p)
      case NeedMore =>
        NeedMoreIsIncomplete(p);
        DecodeStream(p, input[1..])
      case Ready(f) =>
        var rest := DecodeStream([], input[1..]);
        Prepend([f], rest)
      case _ => Stream([], [], p, input[1..])
  }

  lemma NeedMoreIsIncomplete(p: seq<Byte>)
    requires |p| > 0 && Classify(p) == NeedMore
    ensures |p| < DECODER_BYTES
  {
  }

  predicate AllEncodable(fs: seq<Frame>) {
    forall i | 0 <= i < |fs| :: Encodable(fs[i])
  }

  predicate AllWellFormed(fs: seq<Frame>)
    ensures AllWellFormed(fs) ==> AllEncodable(fs)
  {
    forall i | 0 <= i < |fs| :: WellFormed(fs[i])
  }

  function EncodeAll(fs: seq<Frame>): seq<Byte>
    requires AllEncodable(fs)
  {
    if fs == [] then [] else Encode(fs[0]) + EncodeAll(fs[1..])
  }

  function Prepend(fs: seq<Frame>, r: Stream): Stream {
    r.(frames := fs + r.frames)
  }

  lemma DecodeStep(p: seq<Byte>, b: Byte, rest: seq<Byte>)
    requires Incomplete(p) && (Classify(p + [b]) == NeedMore ==> Incomplete(p + [b]))
    ensures Classify(p + [b]) == NeedMore ==> DecodeStream(p, [b] + rest) == DecodeStream(p + [b], rest)
    ensures Classify(p + [b]).Ready? ==>
      DecodeStream(p, [b] + rest) == Prepend([Classify(p + [b]).frame], DecodeStream([], rest))
  {
    assert ([b] + rest)[1..] == rest;
  }

  /** A byte string that is a frame, and only as a whole. */
  ghost predicate IsFrame(e: seq<Byte>, f: Frame) {
    |e| > 0 && Classify(e) == Ready(f) && forall k | 0 <= k < |e| :: Incomplete(e[..k])
  }

  lemma EncodedIsFrame(f: Frame)
    requires WellFormed(f)
    ensures IsFrame(Encode(f), f)
  {
    AcceptsEncoded(f);
    forall k | 0 <= k < |Encode(f)| ensures Incomplete(Encode(f)[..k]) {
      EncodedPrefixIsIncomplete(f, k);
    }
  }

  lemma {:induction false} DecodeOneFrame(e: seq<Byte>, f: Frame, k: nat, rest: seq<Byte>)
    requires IsFrame(e, f) && k < |e|
    ensures DecodeStream(e[..k], e[k..] + rest) == Prepend([f], DecodeStream([], rest))
    decreases |e| - k
  {
    CutAt(e, k, rest);
    if k + 1 == |e| {
      DecodeStep(e[..k], e[k], rest);
    } else {
      assert Incomplete(e[..k + 1]);
      DecodeOneFrame(e, f, k + 1, rest);
      DecodeStep(e[..k], e[k], e[k + 1..] + rest);
    }
  }

  lemma CutAt(e: seq<Byte>, k: nat, rest: seq<Byte>)
    requires k < |e|
    ensures e[..k] + [e[k]] == e[..k + 1] && e[k..] + rest == [e[k]] + (e[k + 1..] + rest)
    ensures k + 1 == |e| ==> e[..k + 1] == e && e[k + 1..] + rest == rest
  {
  }

  /** Feeding the concatenation of any list of well-formed encoded frames returns that list,
      whatever follows. */
  lemma {:induction false} DecodeEncodeAll(fs: seq<Frame>, rest: seq<Byte>)
    requires AllWellFormed(fs)
    ensures DecodeStream([], EncodeAll(fs) + rest) == Prepend(fs, DecodeStream([], rest))
  {
    if fs == [] {
      assert EncodeAll(fs) + rest == rest;
      assert fs + DecodeStream([], rest).frames == DecodeStream([], rest).frames;
    } else {
      var tail := EncodeAll(fs[1..]) + rest;
      DecodeEncodeAll(fs[1..], rest);
      DecodeFirstOf(fs[0], tail);
      EncodeAllConcat(fs, rest);
      PrependTwice(fs, DecodeStream([], rest));
    }
  }

  lemma EncodeAllConcat(fs: seq<Frame>, rest: seq<Byte>)
    requires AllEncodable(fs) && fs != []
    ensures EncodeAll(fs) + rest == Encode(fs[0]) + (EncodeAll(fs[1..]) + rest)
  {
  }

  lemma PrependTwice(fs: seq<Frame>, r: Stream)
    requires fs != []
    ensures Prepend([fs[0]], Prepend(fs[1..], r)) == Prepend(fs, r)
  {
    assert [fs[0]] + (fs[1..] + r.frames) == fs + r.frames;
  }

  lemma DecodeFirstOf(f: Frame, tail: seq<Byte>)
    requires WellFormed(f)
    ensures DecodeStream([], Encode(f) + tail) == Prepend([f], DecodeStream([], tail))
  {
    EncodedIsFrame(f);
    DecodeOneFrame(Encode(f), f, 0, tail);
    assert Encode(f)[..0] == [] && Encode(f)[0..] == Encode(f);
  }

  /** The bytes a decoder reports on, in the order it saw them. */
  ghost predicate Accounts(r: Stream, all: seq<Byte>) {
    && AllWellFormed(r.frames)
    && all == EncodeAll(r.frames) + (r.pending + (r.bad + r.unread))
    && Incomplete(r.pending)
    && (r.bad == [] ==> r.unread == [])
    && (r.bad != [] ==> r.pending == [] && Classify(r.bad) in {Malformed, ChecksumError}
                        && Incomplete(r.bad[..|r.bad| - 1]))
  }

  lemma AccountsPrepend(f: Frame, r: Stream, all: seq<Byte>)
    requires WellFormed(f) && Accounts(r, all)
    ensures Accounts(Prepend([f], r), Encode(f) + all)
  {
    EncodeAllConcat([f] + r.frames, r.pending + (r.bad + r.unread));
    assert ([f] + r.frames)[1..] == r.frames;
  }

  /** Conversely, whatever arrives is the encoding of the frames reported, then the unfinished or
      offending bytes, then the bytes not looked at. Nothing is skipped or read twice. */
  lemma {:induction false} DecodedStreamIsEncoding(pending: seq<Byte>, input: seq<Byte>)
    requires Incomplete(pending)
    ensures Accounts(DecodeStream(pending, input), pending + input)
    decreases |input|
  {
    if input == [] {
      assert pending + input == EncodeAll([]) + (pending + ([] + []));
    } else {
      var p := pending + [input[0]];
      assert pending + input == p + input[1..];
      assert p[..|p| - 1] == pending;
      match Classify(p)
      case NeedMore =>
        NeedMoreIsIncomplete(p);
        DecodedStreamIsEncoding(p, input[1..]);
      case Ready(f) =>
        AcceptedIsEncoded(p);
        DecodedStreamIsEncoding([], input[1..]);
        assert [] + input[1..] == input[1..];
        AccountsPrepend(f, DecodeStream([], input[1..]), input[1..]);
      case _ =>
        assert p + input[1..] == EncodeAll([]) + ([] + (p + input[1..]));
    }
  }

  // ----- which corruptions pass -----

  /** The bytes start like a frame of some announced length that has arrived, whose checksum matches
      and whose content byte is in range. */
  predicate LooksValid(s: seq<Byte>) {
    && s != [] && Announced(s).Some? && 0 < Announced(s).value <= |s|
    && Checksum(s[..Announced(s).value]) == 0
    && (s[0] == TYPE_STATUS ==> s[1] <= ERROR_BAUD) && (s[0] == TYPE_CONTROL ==> s[1] <= STOP_RPC)
  }

  lemma AnnouncedByPrefix(s: seq<Byte>, n: nat)
    requires 1 < n <= |s|
    ensures Announced(s[..n]) == Announced(s)
  {
  }

  lemma ValidIsFrame(s: seq<Byte>)
    requires LooksValid(s)
    ensures Classify(s[..Announced(s).value]).Ready?
  {
    var p := s[..Announced(s).value];
    AnnouncedByPrefix(s, |p|);
    ChecksumZeroIffMatching(p);
  }

  lemma FrameLooksValid(f: Frame, tail: seq<Byte>)
    requires WellFormed(f)
    ensures LooksValid(Encode(f) + tail) && Announced(Encode(f) + tail) == Some(|Encode(f)|)
  {
    var s, e := Encode(f) + tail, Encode(f);
    AcceptsEncoded(f);
    ChecksumZeroIffMatching(e);
    assert s[..|e|] == e;
    AnnouncedByPrefix(s, |e|);
  }

  lemma ValidIsReported(s: seq<Byte>)
    requires LooksValid(s)
    ensures var r := DecodeStream([], s);
            r.frames != [] && WellFormed(r.frames[0]) && Encode(r.frames[0]) == s[..Announced(s).value]
  {
    var n := Announced(s).value;
    ValidIsFrame(s);
    AcceptedIsEncoded(s[..n]);
    DecodeFirstOf(Classify(s[..n]).frame, s[n..]);
    assert s == s[..n] + s[n..];
  }

  lemma ReportedIsValid(s: seq<Byte>)
    requires DecodeStream([], s).frames != []
    ensures LooksValid(s)
  {
    var r := DecodeStream([], s);
    DecodedStreamIsEncoding([], s);
    assert [] + s == s;
    var later := r.pending + (r.bad + r.unread);
    EncodeAllConcat(r.frames, later);
    FrameLooksValid(r.frames[0], EncodeAll(r.frames[1..]) + later);
  }

  /** Whatever arrives, the decoder's first report is a frame exactly when the bytes look valid, and
      then it is the frame whose encoding they start with. */
  lemma FirstReportIsFrame(s: seq<Byte>)
    ensures DecodeStream([], s).frames != [] <==> LooksValid(s)
    ensures LooksValid(s) ==> WellFormed(DecodeStream([], s).frames[0]) && Encode(DecodeStream([], s).frames[0]) == s[..Announced(s).value]
  {
    if LooksValid(s) {
      ValidIsReported(s);
    } else if DecodeStream([], s).frames != [] {
      ReportedIsValid(s);
    }
  }

  predicate IsFramingByte(f: Frame, i: nat) {
    i == 0 || (f.Data? && i == 1)
  }

  lemma CaughtIsNotValid(q: seq<Byte>, tail: seq<Byte>)
    requires q != [] && Classify(q) == ChecksumError
    ensures !LooksValid(q + tail)
  {
    var s := q + tail;
    assert s[..|q|] == q;
    AnnouncedByPrefix(s, |q|);
    ChecksumZeroIffMatching(q);
  }

  /** One changed byte of one frame, with any bytes behind it: the decoder reports a frame exactly
      when the byte is a framing byte, the type or the size of a Data frame, and the result looks
      valid. Every other single-byte corruption passes for no frame. */
  lemma SingleByteCorruptionPasses(f: Frame, i: nat, b: Byte, tail: seq<Byte>)
    requires WellFormed(f) && i < |Encode(f)| && b != Encode(f)[i]
    ensures DecodeStream([], Encode(f)[i := b] + tail).frames != []
            <==> IsFramingByte(f, i) && LooksValid(Encode(f)[i := b] + tail)
  {
    FirstReportIsFrame(Encode(f)[i := b] + tail);
    if !IsFramingByte(f, i) {
      SingleByteCorruptionDetected(f, i, b);
      CaughtIsNotValid(Encode(f)[i := b], tail);
    }
  }

  lemma ChecksumOfThree(a: Byte, b: Byte, c: Byte)
    ensures Checksum([a, b, c]) == Xor(Xor(a, b), c)
  {
    ChecksumOfTwo(a, b);
    ChecksumSnoc([a, b], c);
    assert [a, b] + [c] == [a, b, c];
  }

  lemma ChecksumOfFour(a: Byte, b: Byte, c: Byte, d: Byte)
    ensures Checksum([a, b, c, d]) == Xor(Xor(Xor(a, b), c), d)
  {
    ChecksumOfThree(a, b, c);
    ChecksumSnoc([a, b, c], d);
    assert [a, b, c] + [d] == [a, b, c, d];
  }

  lemma SmallXors()
    ensures Xor(5, 2) == 7 && Xor(7, 0) == 7 && Xor(7, 4) == 3
    ensures Xor(5, 1) == 4 && Xor(4, 0) == 4
  {
    assert XorBits(2, 1) == 1 + 2 * XorBits(1, 0);
    assert XorBits(5, 2) == 1 + 2 * XorBits(2, 1);
    XorBitsLaws(2, 0);
    assert XorBits(5, 1) == 0 + 2 * XorBits(2, 0);
    XorBitsLaws(1, 0);
    XorBitsLaws(1, 1);
    assert XorBits(3, 2) == 1 + 2 * XorBits(1, 1);
    assert XorBits(7, 4) == 1 + 2 * XorBits(3, 2);
    XorLaws(7, 0);
    XorLaws(4, 0);
  }

  /** A Data frame with one byte of payload. */
  lemma OneByteOfData(q: seq<Byte>, payload: Byte)
    requires |q| == 4 && q[0] == TYPE_DATA && q[1] == 1 && q[2] == payload && Checksum(q[..3]) == q[3]
    ensures Classify(q) == Ready(Data([payload]))
  {
    assert q[2..3] == [payload];
  }

  lemma TwoBytesOfData(a: Byte, b: Byte)
    ensures Encode(Data([a, b])) == [TYPE_DATA, 2, a, b, Xor(Xor(Xor(TYPE_DATA, 2), a), b)]
  {
    assert Body(Data([a, b])) == [TYPE_DATA, 2, a, b];
    ChecksumOfFour(TYPE_DATA, 2, a, b);
  }

  /** The size byte of a Data frame can pass as well: one changed size byte leaves a shorter one. */
  lemma SizeByteCorruptionCanPass()
    ensures Encode(Data([0, 4])) == [5, 2, 0, 4, 3]
    ensures Classify([5, 2, 0, 4, 3][1 := 1][..4]) == Ready(Data([0]))
  {
    SmallXors();
    TwoBytesOfData(0, 4);
    var q: seq<Byte> := [5, 2, 0, 4, 3][1 := 1][..4];
    assert q[..3] == [5, 1, 0];
    ChecksumOfThree(5, 1, 0);
    OneByteOfData(q, 0);
  }
}
