/** The raw proxy: bytes received from TCP leave on the UART as acknowledged Data frames, and what
    the Flipper's decoder makes of the UART output is the raw part of the TCP stream. */
module RpcProxy {
  import opened Bytes
  import opened FrameStreams
  import BridgeIo
  import Codec = ExpansionCodec
  import P = ExpansionProtocol

  // ----- cutting into chunks -----

  /** Where the k-th chunk of so many bytes starts. */
  function Boundary(size: nat, k: nat): (offset: nat)
    ensures offset <= size
  {
    if k * P.MAX_DATA < size then k * P.MAX_DATA else size
  }

  function ChunkCount(size: nat): nat {
    (size + P.MAX_DATA - 1) / P.MAX_DATA
  }

  lemma SliceOn(bytes: seq<Byte>, start: nat, end: nat)
    requires start <= end <= |bytes|
    ensures bytes[..start] + bytes[start..end] == bytes[..end] && bytes[..start] + [] == bytes[..start]
  {
  }

  function ChunkSize(size: nat, offset: nat): nat
    requires offset <= size
  {
    if size - offset < P.MAX_DATA then size - offset else P.MAX_DATA
  }

  lemma NextBoundary(size: nat, k: nat)
    requires Boundary(size, k) < size
    ensures Boundary(size, k) == k * P.MAX_DATA && k < ChunkCount(size)
    ensures Boundary(size, k + 1) == if size - k * P.MAX_DATA < P.MAX_DATA then size else k * P.MAX_DATA + P.MAX_DATA
  {
  }

  lemma LastBoundary(size: nat, k: nat)
    requires k <= ChunkCount(size)
    ensures Boundary(size, k) == size <==> k == ChunkCount(size)
  {
  }

  /** The writer had not given up before any of the first n receive calls. */
  predicate Open(writerDone: nat -> bool, n: nat) {
    forall i: nat | i < n :: !writerDone(i)
  }

  function TotalChunks(pieces: seq<seq<Byte>>): nat {
    if pieces == [] then 0 else TotalChunks(pieces[..|pieces| - 1]) + ChunkCount(|pieces[|pieces| - 1]|)
  }

  function NonEmpty(pieces: seq<seq<Byte>>): nat {
    if pieces == [] then 0 else NonEmpty(pieces[..|pieces| - 1]) + (if pieces[|pieces| - 1] == [] then 0 else 1)
  }

  // ----- sending -----

  /** What happens to one Data request: whether the frame goes out, and the status recorded for it
      (None when sending failed or no status came in time). */
  datatype Ack = Ack(written: bool, status: Option<Byte>)

  predicate Acknowledged(a: Ack) {
    a.written && a.status == Some(P.ERROR_NONE)
  }

  /** The sending side of an RPC session. Other tasks put whole frames on the UART too; `others(i)`
      are the ones that go out before the i-th request. */
  class Uplink {
    const others: nat -> seq<P.Frame>
    const acks: nat -> Ack
    const running: nat -> bool     // whether the i-th call finds the state RpcReady
    var requests: nat
    var calls: nat
    var wire: seq<Byte>
    ghost var frames: seq<P.Frame>

    /** The UART output is the encoding of whole frames. */
    ghost predicate Valid()
      reads this
    {
      forall k | Detail(k) ::
        && (forall i: nat :: P.AllWellFormed(others(i)) && NoData(others(i)))
        && P.AllWellFormed(frames) && wire == P.EncodeAll(frames)
    }

    constructor (others: nat -> seq<P.Frame>, acks: nat -> Ack, running: nat -> bool)
      requires forall i: nat :: P.AllWellFormed(others(i)) && NoData(others(i))
      ensures Valid() && wire == [] && frames == [] && requests == calls == 0
      ensures this.others == others && this.acks == acks && this.running == running
    {
      this.others, this.acks, this.running := others, acks, running;
      requests, calls, wire, frames := 0, 0, [], [];
    }

    lemma WireIsEncoding()
      requires Valid()
      ensures P.AllWellFormed(frames) && wire == P.EncodeAll(frames)
    {
      assert Detail(0);
    }

    lemma OthersAreFrames(i: nat)
      requires Valid()
      ensures P.AllWellFormed(others(i)) && NoData(others(i))
    {
      assert Detail(0);
    }

    predicate AllAcked(from: nat, to: nat) {
      forall i: nat | from <= i < to :: Acknowledged(acks(i))
    }

    predicate AllRunning(from: nat, to: nat) {
      forall i: nat | from <= i < to :: running(i)
    }

    /** What the i-th request puts on the UART. */
    function Output(i: nat, chunk: seq<Byte>): seq<P.Frame> {
      others(i) + (if acks(i).written then [P.Data(chunk)] else [])
    }

    /** What the requests for the first n chunks put there. */
    function Outputs(from: nat, bytes: seq<Byte>, n: nat): seq<P.Frame> {
      if n == 0 then []
      else Outputs(from, bytes, n - 1) + Output(from + n - 1, bytes[Boundary(|bytes|, n - 1)..Boundary(|bytes|, n)])
    }

    /** What one send over the requests `from` to `to` comes to: every chunk acknowledged, or all but
        the last one tried, which is ahead if its frame went out. */
    ghost predicate SentAs(from: nat, to: nat, bytes: seq<Byte>, ok: bool, acked: nat, put: seq<P.Frame>) {
      && from <= to <= from + ChunkCount(|bytes|) && put == Outputs(from, bytes, to - from)
      && if ok then
           to == from + ChunkCount(|bytes|) && AllAcked(from, to) && acked == |bytes| && Carried(put) == bytes
         else
           && from < to && AllAcked(from, to - 1) && !Acknowledged(acks(to - 1))
           && acked == Boundary(|bytes|, to - 1 - from) < |bytes|
           && Carried(put) == bytes[..if acks(to - 1).written then Boundary(|bytes|, to - from) else acked]
    }

    /** send_wait_status for one chunk. */
    method Request(chunk: seq<Byte>) returns (ok: bool)
      requires Valid() && |chunk| <= P.MAX_DATA
      modifies this`requests, this`wire, this`frames
      ensures Valid() && requests == old(requests) + 1
      ensures frames == old(frames) + Output(old(requests), chunk)
      ensures ok <==> Acknowledged(acks(old(requests)))
    {
      assert Detail(0);
      var before, ack := others(requests), acks(requests);
      requests := requests + 1;
      wire := wire + P.EncodeAll(before);
      EncodeAllAppend(frames, before);
      frames := frames + before;
      assert before + [] == before;
      if ack.written {
        var frame := P.Data(chunk);
        var output := new Byte[P.MAX_DATA + 3](_ => 0);
        var _, size := Codec.EncodeFrame(frame, output);
        wire := wire + output[..size];
        assert output[..size] == P.Encode(frame);
        EncodeOne(frame);
        EncodeAllAppend(frames, [frame]);
        Regroup(old(frames), before, [frame]);
        frames := frames + [frame];
      }
      ok := Acknowledged(ack);
    }

    lemma OutputCarries(i: nat, chunk: seq<Byte>)
      requires NoData(others(i))
      ensures Carried(Output(i, chunk)) == if acks(i).written then chunk else []
    {
      NoDataCarriesNothing(others(i));
      var more := if acks(i).written then [P.Data(chunk)] else [];
      CarriedConcat(others(i), more);
      if acks(i).written {
        CarriedByOne(P.Data(chunk));
      }
    }

    lemma OutputsNext(from: nat, bytes: seq<Byte>, n: nat)
      requires NoData(others(from + n)) && Boundary(|bytes|, n) < |bytes|
      requires Carried(Outputs(from, bytes, n)) == bytes[..Boundary(|bytes|, n)]
      ensures Carried(Outputs(from, bytes, n + 1))
              == bytes[..if acks(from + n).written then Boundary(|bytes|, n + 1) else Boundary(|bytes|, n)]
    {
      NextBoundary(|bytes|, n);
      CarriesOn(Outputs(from, bytes, n), from + n, bytes, Boundary(|bytes|, n), Boundary(|bytes|, n + 1));
    }

    lemma CarriesOn(put: seq<P.Frame>, i: nat, bytes: seq<Byte>, start: nat, end: nat)
      requires start <= end <= |bytes| && NoData(others(i)) && Carried(put) == bytes[..start]
      ensures Carried(put + Output(i, bytes[start..end])) == bytes[..if acks(i).written then end else start]
    {
      var chunk := bytes[start..end];
      var output := Output(i, chunk);
      CarriedConcat(put, output);
      assert Carried(output) == if acks(i).written then chunk else [] by { OutputCarries(i, chunk); }
      SliceOn(bytes, start, end);
    }

    /** So many chunks are sent and acknowledged. */
    ghost predicate SentSoFar(from: nat, to: nat, bytes: seq<Byte>, acked: nat, put: seq<P.Frame>) {
      && from <= to <= from + ChunkCount(|bytes|) && AllAcked(from, to)
      && acked == Boundary(|bytes|, to - from) && put == Outputs(from, bytes, to - from) && Carried(put) == bytes[..acked]
    }

    lemma SentNothing(from: nat, bytes: seq<Byte>)
      ensures SentSoFar(from, from, bytes, 0, [])
    {
    }

    lemma SentNext(from: nat, to: nat, bytes: seq<Byte>, acked: nat, put: seq<P.Frame>)
      requires SentSoFar(from, to, bytes, acked, put) && acked < |bytes| && NoData(others(to))
      ensures var size := ChunkSize(|bytes|, acked);
              var output := Output(to, bytes[acked..acked + size]);
              if Acknowledged(acks(to)) then SentSoFar(from, to + 1, bytes, acked + size, put + output)
              else SentAs(from, to + 1, bytes, false, acked, put + output)
    {
      NextBoundary(|bytes|, to - from);
      OutputsNext(from, bytes, to - from);
    }

    lemma SentAll(from: nat, to: nat, bytes: seq<Byte>, acked: nat, put: seq<P.Frame>)
      requires SentSoFar(from, to, bytes, acked, put) && acked == |bytes|
      ensures SentAs(from, to, bytes, true, acked, put)
    {
      LastBoundary(|bytes|, to - from);
      assert bytes[..acked] == bytes;
    }

    /** The next chunk: one round of the loop. */
    method SendChunk(bytes: seq<Byte>, acked: nat, ghost first: seq<P.Frame>, ghost from: nat, ghost put: seq<P.Frame>)
      returns (ok: bool, acked': nat, ghost put': seq<P.Frame>)
      requires Valid() && frames == first + put && SentSoFar(from, requests, bytes, acked, put) && acked < |bytes|
      modifies this`requests, this`wire, this`frames
      ensures Valid() && frames == first + put' && (ok ==> acked' > acked)
      ensures if ok then SentSoFar(from, requests, bytes, acked', put') else SentAs(from, requests, bytes, false, acked', put')
    {
      var size := ChunkSize(|bytes|, acked);
      ghost var output := Output(requests, bytes[acked..acked + size]);
      OthersAreFrames(requests);
      SentNext(from, requests, bytes, acked, put);
      Regroup(first, put, output);
      ok := Request(bytes[acked..acked + size]);
      put' := put + output;
      acked' := if ok then acked + size else acked;
    }

    /** Sends the bytes chunk by chunk, each after the previous one is acknowledged, and stops at the
        first chunk that is not. */
    method SendRpc(bytes: seq<Byte>) returns (ok: bool, acked: nat, ghost put: seq<P.Frame>)
      requires Valid()
      modifies this`requests, this`calls, this`wire, this`frames
      ensures Valid() && calls == old(calls) + 1 && frames == old(frames) + put
      ensures ok <==> running(old(calls)) && AllAcked(old(requests), requests)
      ensures if running(old(calls)) then SentAs(old(requests), requests, bytes, ok, acked, put)
              else requests == old(requests) && acked == 0 && put == []
    {
      acked, put, calls := 0, [], calls + 1;
      if !running(calls - 1) {
        return false, acked, put;
      }
      assert frames + [] == frames && old(requests) == requests;
      SentNothing(requests, bytes);
      while acked < |bytes|
        invariant Valid() && frames == old(frames) + put && calls == old(calls) + 1
        invariant SentSoFar(old(requests), requests, bytes, acked, put)
      {
        ok, acked, put := SendChunk(bytes, acked, old(frames), old(requests), put);
        if !ok {
          return false, acked, put;
        }
      }
      SentAll(old(requests), requests, bytes, acked, put);
      return true, acked, put;
    }

    /** What the calls so far come to, for the pieces handed over: all of it acknowledged, or a
        failure in the last piece. */
    ghost predicate Relayed(i: nat, j: nat, c: nat, d: nat, pieces: seq<seq<Byte>>, acked: nat, put: seq<P.Frame>, ok: bool) {
      forall k | Detail(k) ::
        && i <= j && c <= d
        && if ok then AllAcked(i, j) && AllRunning(c, d) && RelayedAll(j - i, d - c, pieces, acked, put)
           else RelayedPart(i, j, c, d, pieces, acked, put)
    }

    ghost predicate RelayedAll(made: nat, called: nat, pieces: seq<seq<Byte>>, acked: nat, put: seq<P.Frame>) {
      && made == TotalChunks(pieces) && called == NonEmpty(pieces)
      && Carried(put) == BridgeIo.Flatten(pieces) && acked == |BridgeIo.Flatten(pieces)|
    }

    /** Everything before the last piece was acknowledged, with one request per chunk; the last call
        was made for the last piece and is the first to fail. */
    ghost predicate RelayedPart(i: nat, j: nat, c: nat, d: nat, pieces: seq<seq<Byte>>, acked: nat, put: seq<P.Frame>) {
      && pieces != [] && c < d == c + NonEmpty(pieces) && AllRunning(c, d - 1)
      && var before := pieces[..|pieces| - 1];
         FailedIn(i, i + TotalChunks(before), j, running(d - 1), BridgeIo.Flatten(before), pieces[|pieces| - 1], acked, put)
    }

    /** That call found the session gone and sent nothing, or its last request is the first one not
        acknowledged: then exactly the chunks before it are acknowledged, and it is ahead if its
        frame went out. */
    ghost predicate FailedIn(i: nat, first: nat, j: nat, up: bool, before: seq<Byte>, last: seq<Byte>, acked: nat, put: seq<P.Frame>) {
      if !up then last != [] && j == first && AllAcked(i, j) && acked == |before| && Carried(put) == before
      else
        && i <= first < j <= first + ChunkCount(|last|) && AllAcked(i, j - 1) && !Acknowledged(acks(j - 1))
        && Boundary(|last|, j - 1 - first) < |last| && acked == |before| + Boundary(|last|, j - 1 - first)
        && Carried(put) == before + last[..Boundary(|last|, if acks(j - 1).written then j - first else j - 1 - first)]
    }

    /** rpc_proxy_run: the bytes left over from the management phase, then what recv returns. An
        empty chunk stands for an interrupted or idle recv; after the last one the peer has closed
        (`hangup`) or recv fails. `writerDone(i)` tells whether the writer has given up before the
        i-th recv. `sent` says whether everything handed over was acknowledged. */
    method Forward(initial: seq<Byte>, chunks: seq<seq<Byte>>, writerDone: nat -> bool, hangup: bool)
      returns (ok: bool, sent: bool, taken: nat, acked: nat, ghost put: seq<P.Frame>)
      requires Valid()
      modifies this`requests, this`calls, this`wire, this`frames
      ensures Valid() && frames == old(frames) + put && taken <= |chunks|
      ensures Relayed(old(requests), requests, old(calls), calls, ([initial] + chunks)[..taken + 1], acked, put, sent)
      ensures Open(writerDone, taken)
      ensures sent ==> taken == |chunks| || writerDone(taken)
      ensures ok <==> sent && (writerDone(taken) || hangup)
    {
      ghost var n;
      sent, taken, acked, put, n := ForwardPieces(initial, chunks, writerDone);
      ok := sent && (writerDone(taken) || hangup);
    }

    /** Its loop; n pieces are handed over. */
    method ForwardPieces(initial: seq<Byte>, chunks: seq<seq<Byte>>, writerDone: nat -> bool)
      returns (sent: bool, taken: nat, acked: nat, ghost put: seq<P.Frame>, ghost n: nat)
      requires Valid()
      modifies this`requests, this`calls, this`wire, this`frames
      ensures Valid() && frames == old(frames) + put && n == taken + 1 && taken <= |chunks|
      ensures Relayed(old(requests), requests, old(calls), calls, ([initial] + chunks)[..n], acked, put, sent)
      ensures Open(writerDone, taken)
      ensures sent ==> taken == |chunks| || writerDone(taken)
    {
      ghost var pieces := [initial] + chunks;
      taken, acked, put, n := 0, 0, [], 0;
      assert frames + [] == frames && pieces[..n] == [];
      RelayedNothing(requests, calls);
      sent, acked, put := PassNext(pieces, initial, n, acked, old(frames), old(requests), old(calls), put);
      n := n + 1;
      while sent && !writerDone(taken) && taken < |chunks|
        invariant Valid() && frames == old(frames) + put && n == taken + 1 && taken <= |chunks|
        invariant Relayed(old(requests), requests, old(calls), calls, pieces[..n], acked, put, sent)
        invariant Open(writerDone, taken)
      {
        sent, acked, put := PassNext(pieces, chunks[taken], n, acked, old(frames), old(requests), old(calls), put);
        taken, n := taken + 1, n + 1;
      }
    }

    method PassNext(ghost pieces: seq<seq<Byte>>, bytes: seq<Byte>, ghost n: nat, acked: nat, ghost first: seq<P.Frame>, ghost i: nat,
                    ghost c: nat, ghost put: seq<P.Frame>)
      returns (ok: bool, acked': nat, ghost put': seq<P.Frame>)
      requires Valid() && frames == first + put && n < |pieces| && pieces[n] == bytes
      requires Relayed(i, requests, c, calls, pieces[..n], acked, put, true)
      modifies this`requests, this`calls, this`wire, this`frames
      ensures Valid() && frames == first + put'
      ensures Relayed(i, requests, c, calls, pieces[..n + 1], acked', put', ok)
    {
      assert pieces[..n] + [bytes] == pieces[..n + 1];
      ok, acked', put' := Pass(bytes, pieces[..n], acked, first, i, c, put);
    }

    /** Hands the next piece over, unless it is empty. */
    method Pass(bytes: seq<Byte>, ghost pieces: seq<seq<Byte>>, acked: nat, ghost first: seq<P.Frame>, ghost i: nat, ghost c: nat,
                ghost put: seq<P.Frame>)
      returns (ok: bool, acked': nat, ghost put': seq<P.Frame>)
      requires Valid() && frames == first + put
      requires Relayed(i, requests, c, calls, pieces, acked, put, true)
      modifies this`requests, this`calls, this`wire, this`frames
      ensures Valid() && frames == first + put'
      ensures Relayed(i, requests, c, calls, pieces + [bytes], acked', put', ok)
    {
      ok, acked', put' := true, acked, put;
      if bytes == [] {
        RelayedIdle(i, requests, c, calls, pieces, acked, put);
      } else {
        ghost var j, d, sent := requests, calls, [];
        var more;
        ok, more, sent := SendRpc(bytes);
        Regroup(first, put, sent);
        acked', put' := acked + more, put + sent;
        RelayedSent(i, j, requests, c, d, pieces, bytes, acked, put, ok, more, sent);
      }
    }

    /** So everything handed over is acknowledged exactly when its own calls find the session running
        and its own requests are acknowledged, whatever becomes of later ones. */
    lemma RelayedExactly(i: nat, j: nat, c: nat, d: nat, pieces: seq<seq<Byte>>, acked: nat, put: seq<P.Frame>, ok: bool)
      requires Relayed(i, j, c, d, pieces, acked, put, ok)
      ensures ok <==> AllAcked(i, j) && AllRunning(c, d)
      ensures ok <==> AllAcked(i, i + TotalChunks(pieces)) && AllRunning(c, c + NonEmpty(pieces))
    {
      assert Detail(0);
      if !ok && running(d - 1) {
        AddPiece(pieces[..|pieces| - 1], pieces[|pieces| - 1]);
      }
    }

    lemma RelayedNothing(i: nat, c: nat)
      ensures Relayed(i, i, c, c, [], 0, [], true)
    {
    }

    lemma RelayedIdle(i: nat, j: nat, c: nat, d: nat, pieces: seq<seq<Byte>>, acked: nat, put: seq<P.Frame>)
      requires Relayed(i, j, c, d, pieces, acked, put, true)
      ensures Relayed(i, j, c, d, pieces + [[]], acked, put, true)
    {
      assert Detail(0);
      AddPiece(pieces, []);
      assert BridgeIo.Flatten(pieces) + [] == BridgeIo.Flatten(pieces);
    }

    lemma RelayedDown(i: nat, j: nat, c: nat, d: nat, pieces: seq<seq<Byte>>, bytes: seq<Byte>, acked: nat, put: seq<P.Frame>)
      requires Relayed(i, j, c, d, pieces, acked, put, true)
      requires bytes != [] && !running(d)
      ensures Relayed(i, j, c, d + 1, pieces + [bytes], acked, put, false)
    {
      assert Detail(0);
      AddPiece(pieces, bytes);
    }

    lemma RelayedUp(i: nat, j: nat, j': nat, c: nat, d: nat, pieces: seq<seq<Byte>>, bytes: seq<Byte>, acked: nat,
                    put: seq<P.Frame>, more: nat, sent: seq<P.Frame>)
      requires Relayed(i, j, c, d, pieces, acked, put, true)
      requires bytes != [] && running(d) && SentAs(j, j', bytes, true, more, sent)
      ensures Relayed(i, j', c, d + 1, pieces + [bytes], acked + more, put + sent, true)
    {
      assert Detail(0);
      AddPiece(pieces, bytes);
      CarriedConcat(put, sent);
    }

    lemma RelayedFailed(i: nat, j: nat, j': nat, c: nat, d: nat, pieces: seq<seq<Byte>>, bytes: seq<Byte>, acked: nat,
                        put: seq<P.Frame>, more: nat, sent: seq<P.Frame>)
      requires Relayed(i, j, c, d, pieces, acked, put, true)
      requires bytes != [] && running(d) && SentAs(j, j', bytes, false, more, sent)
      ensures Relayed(i, j', c, d + 1, pieces + [bytes], acked + more, put + sent, false)
    {
      assert Detail(0);
      AddPiece(pieces, bytes);
      CarriedConcat(put, sent);
    }

    lemma RelayedSent(i: nat, j: nat, j': nat, c: nat, d: nat, pieces: seq<seq<Byte>>, bytes: seq<Byte>, acked: nat,
                      put: seq<P.Frame>, ok: bool, more: nat, sent: seq<P.Frame>)
      requires Relayed(i, j, c, d, pieces, acked, put, true) && bytes != [] && j <= j'
      requires if running(d) then SentAs(j, j', bytes, ok, more, sent) else !ok && j' == j && more == 0 && sent == []
      ensures Relayed(i, j', c, d + 1, pieces + [bytes], acked + more, put + sent, ok)
    {
      if running(d) && ok {
        RelayedUp(i, j, j', c, d, pieces, bytes, acked, put, more, sent);
      } else if running(d) {
        RelayedFailed(i, j, j', c, d, pieces, bytes, acked, put, more, sent);
      } else {
        RelayedDown(i, j, c, d, pieces, bytes, acked, put);
        assert put + sent == put;
      }
    }
  }

  // ----- the writer task -----

  /** What one call of receive_rpc returns: some bytes, nothing in time, or no session any more. */
  datatype Received = Piece(bytes: seq<Byte>) | Idle | Over

  /** The pieces among the results. */
  function PiecesOf(results: seq<Received>): seq<seq<Byte>> {
    if results == [] then []
    else PiecesOf(results[..|results| - 1]) + (if results[|results| - 1].Piece? then [results[|results| - 1].bytes] else [])
  }

  /** What the writer task does with such results, its i-th write going to `sockets(i)`: the bytes
      the client is sent, and whether it is still going. */
  datatype Returned = Returned(output: seq<Byte>, going: bool)

  function Return(results: seq<Received>, sockets: nat -> BridgeIo.Socket): Returned {
    if results == [] then Returned([], true)
    else
      var n := |results| - 1;
      var before := Return(results[..n], sockets);
      if !before.going then before
      else
        match results[n]
        case Piece(bytes) =>
          var w := BridgeIo.Outcome(sockets(n), bytes, 0);
          Returned(before.output + w.0, w.1)
        case Idle => before
        case Over => Returned(before.output, false)
  }

  lemma ReturnNext(results: seq<Received>, sockets: nat -> BridgeIo.Socket, n: nat)
    requires n < |results|
    ensures results[..n + 1][..n] == results[..n] && results[..n + 1][n] == results[n]
  {
  }

  lemma {:induction false} ReturnStays(results: seq<Received>, sockets: nat -> BridgeIo.Socket, n: nat)
    requires n <= |results| && !Return(results[..n], sockets).going
    ensures Return(results, sockets) == Return(results[..n], sockets)
  {
    if n < |results| {
      var m := |results| - 1;
      assert results[..m][..n] == results[..n];
      ReturnStays(results[..m], sockets, n);
    } else {
      assert results[..n] == results;
    }
  }

  /** proxy_writer_task: every piece received goes to the client through the write loop, until a write
      fails, the session is over, or the results end because the proxy asks it to stop. */
  method WriterTask(results: seq<Received>, sockets: nat -> BridgeIo.Socket) returns (output: seq<Byte>, going: bool)
    ensures Returned(output, going) == Return(results, sockets)
  {
    output, going := [], true;
    assert results[..0] == [];
    for i := 0 to |results|
      invariant going && Returned(output, going) == Return(results[..i], sockets)
    {
      ReturnNext(results, sockets, i);
      match results[i] {
        case Piece(bytes) =>
          var taken, writes;
          going, taken, writes := BridgeIo.WriteAll(sockets(i), bytes);
          output := output + BridgeIo.Flatten(taken);
        case Idle =>
        case Over =>
          going := false;
      }
      if !going {
        ReturnStays(results, sockets, i + 1);
        return;
      }
    }
    assert results[..|results|] == results;
  }

  /** Nothing is changed, dropped in between or added: the client is sent a prefix of the pieces, and
      all of them while the writer keeps going. */
  lemma {:induction false} ReturnIsPrefix(results: seq<Received>, sockets: nat -> BridgeIo.Socket)
    ensures var r, all := Return(results, sockets), BridgeIo.Flatten(PiecesOf(results));
            r.output <= all && (r.going ==> r.output == all)
  {
    if results != [] {
      var n := |results| - 1;
      ReturnIsPrefix(results[..n], sockets);
      var before, pieces := Return(results[..n], sockets), PiecesOf(results[..n]);
      if results[n].Piece? {
        BridgeIo.FlattenSnoc(pieces, results[n].bytes);
        if before.going {
          PrefixAfter(before.output, BridgeIo.Outcome(sockets(n), results[n].bytes, 0).0, results[n].bytes);
        }
      } else {
        assert pieces + [] == pieces;
      }
    }
  }

  /** After such a result the writer goes on: nothing came in time, or all of a piece went out. */
  predicate Passes(r: Received, socket: BridgeIo.Socket) {
    r.Idle? || (r.Piece? && BridgeIo.Outcome(socket, r.bytes, 0).1)
  }

  /** The first n results pass, and the next one, if there is one, does not. */
  ghost predicate PassesUpTo(results: seq<Received>, sockets: nat -> BridgeIo.Socket, n: nat) {
    && n <= |results| && (forall i: nat | i < n :: Passes(results[i], sockets(i)))
    && (n < |results| ==> !Passes(results[n], sockets(n)))
  }

  /** What is still written of the result that stops the writer. */
  function LastWrite(results: seq<Received>, sockets: nat -> BridgeIo.Socket, n: nat): seq<Byte> {
    if n < |results| && results[n].Piece? then BridgeIo.Outcome(sockets(n), results[n].bytes, 0).0 else []
  }

  lemma PassesOneMore(results: seq<Received>, sockets: nat -> BridgeIo.Socket, n: nat)
    requires results != [] && PassesUpTo(results[..|results| - 1], sockets, n)
    ensures var m := |results| - 1;
            if n == m && Passes(results[m], sockets(m)) then PassesUpTo(results, sockets, m + 1) else PassesUpTo(results, sockets, n)
    ensures n < |results| - 1 ==> LastWrite(results, sockets, n) == LastWrite(results[..|results| - 1], sockets, n)
  {
    var before := results[..|results| - 1];
    assert forall i: nat | i < |before| :: before[i] == results[i];
  }

  /** Exactly what the client is sent: every piece before the first result that does not pass, a lost
      session or a piece whose write fails, and then what that write takes; and the writer is still
      going exactly when every result passes. */
  lemma {:induction false} ReturnExactly(results: seq<Received>, sockets: nat -> BridgeIo.Socket) returns (n: nat)
    ensures PassesUpTo(results, sockets, n)
    ensures Return(results, sockets)
            == Returned(BridgeIo.Flatten(PiecesOf(results[..n])) + LastWrite(results, sockets, n), n == |results|)
  {
    n := 0;
    if results != [] {
      var m := |results| - 1;
      n := ReturnExactly(results[..m], sockets);
      PassesOneMore(results, sockets, n);
      assert results[..m][..n] == results[..n];
      if n == m {
        AllButLastPass(results, sockets);
        if Passes(results[m], sockets(m)) {
          n := m + 1;
          assert results[..n] == results;
        }
      }
    } else {
      assert results[..n] == [] && PiecesOf([]) == [];
    }
  }

  lemma AllButLastPass(results: seq<Received>, sockets: nat -> BridgeIo.Socket)
    requires results != []
    requires var m := |results| - 1;
             Return(results[..m], sockets) == Returned(BridgeIo.Flatten(PiecesOf(results[..m])) + LastWrite(results[..m], sockets, m), true)
    ensures var m := |results| - 1;
            Return(results, sockets) == if Passes(results[m], sockets(m)) then Returned(BridgeIo.Flatten(PiecesOf(results)), true)
                                        else Returned(BridgeIo.Flatten(PiecesOf(results[..m])) + LastWrite(results, sockets, m), false)
  {
    var m := |results| - 1;
    var all := BridgeIo.Flatten(PiecesOf(results[..m]));
    assert all + [] == all;
    ReturnSnoc(results, sockets);
    PiecesSnoc(results);
  }

  lemma ReturnSnoc(results: seq<Received>, sockets: nat -> BridgeIo.Socket)
    requires results != []
    ensures var m := |results| - 1;
            var before, last := Return(results[..m], sockets), results[m];
            Return(results, sockets)
            == if !before.going then before
               else if last.Piece? then Returned(before.output + LastWrite(results, sockets, m), Passes(last, sockets(m)))
               else Returned(before.output, last.Idle?)
  {
  }

  lemma PiecesSnoc(results: seq<Received>)
    requires results != []
    ensures var m := |results| - 1;
            BridgeIo.Flatten(PiecesOf(results))
            == BridgeIo.Flatten(PiecesOf(results[..m])) + (if results[m].Piece? then results[m].bytes else [])
  {
    var m := |results| - 1;
    var pieces := PiecesOf(results[..m]);
    if results[m].Piece? {
      BridgeIo.FlattenSnoc(pieces, results[m].bytes);
    } else {
      assert pieces + [] == pieces;
    }
  }

  lemma AddPiece(pieces: seq<seq<Byte>>, bytes: seq<Byte>)
    ensures BridgeIo.Flatten(pieces + [bytes]) == BridgeIo.Flatten(pieces) + bytes
    ensures TotalChunks(pieces + [bytes]) == TotalChunks(pieces) + ChunkCount(|bytes|)
    ensures NonEmpty(pieces + [bytes]) == NonEmpty(pieces) + (if bytes == [] then 0 else 1)
    ensures (pieces + [bytes])[..|pieces|] == pieces
  {
    assert (pieces + [bytes])[..|pieces|] == pieces;
    BridgeIo.FlattenSnoc(pieces, bytes);
  }
}
