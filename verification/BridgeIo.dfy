/** The partial-write loop around an arbitrary write callback, and the buffer guard. */
module BridgeIo {
  import opened Bytes

  /** What one callback invocation reports. */
  datatype CallResult = CallResult(written: int, retryable: bool)

  predicate IsRetry(r: CallResult) {
    r.written < 0 && r.retryable
  }

  /** A result that ends the loop with failure: nothing written, a hard error, or a count larger
      than what was offered. */
  predicate IsRefused(r: CallResult, offered: nat) {
    !IsRetry(r) && (r.written <= 0 || r.written > offered)
  }

  function Flatten(slices: seq<seq<Byte>>): seq<Byte> {
    if slices == [] then [] else Flatten(slices[..|slices| - 1]) + slices[|slices| - 1]
  }

  lemma FlattenSnoc(slices: seq<seq<Byte>>, last: seq<Byte>)
    ensures Flatten(slices + [last]) == Flatten(slices) + last
  {
    assert (slices + [last])[..|slices|] == slices;
  }

  lemma {:induction false} FlattenConcat(a: seq<seq<Byte>>, b: seq<seq<Byte>>)
    ensures Flatten(a + b) == Flatten(a) + Flatten(b)
  {
    if b == [] {
      assert a + b == a;
    } else {
      var n := |b| - 1;
      FlattenConcat(a, b[..n]);
      FlattenSnoc(a + b[..n], b[n]);
      assert a + b == a + b[..n] + [b[n]];
      assert Flatten(a) + Flatten(b[..n]) + b[n] == Flatten(a) + (Flatten(b[..n]) + b[n]);
    }
  }

  lemma FlattenCons(slices: seq<seq<Byte>>)
    requires slices != []
    ensures Flatten(slices) == slices[0] + Flatten(slices[1..])
  {
    FlattenConcat([slices[0]], slices[1..]);
    assert [slices[0]] + slices[1..] == slices;
    FlattenSnoc([], slices[0]);
    assert [] + [slices[0]] == [slices[0]];
  }

  lemma FlattenRest(slices: seq<seq<Byte>>, i: nat)
    requires i < |slices|
    ensures Flatten(slices[i..]) == slices[i] + Flatten(slices[i + 1..])
  {
    FlattenCons(slices[i..]);
    assert slices[i..][1..] == slices[i + 1..];
  }

  /** A write callback: `results(i)` is what it reports on its i-th call. */
  datatype Callback = Callback(results: nat -> CallResult, lastRetry: nat)

  /** Retryable errors are finite: there are none at or after `lastRetry`. */
  type Socket = c: Callback | forall i: nat :: i >= c.lastRetry ==> !IsRetry(c.results(i))
    witness Callback(_ => CallResult(0, false), 0)

  predicate IsTaken(r: CallResult, offered: nat) {
    0 < r.written <= offered
  }

  /** How many of `size` bytes the first n calls take, each call being offered what is left. */
  function Offset(results: nat -> CallResult, size: nat, n: nat): (offset: nat)
    ensures offset <= size
  {
    if n == 0 then 0
    else
      var before := Offset(results, size, n - 1);
      if IsTaken(results(n - 1), size - before) then before + results(n - 1).written else before
  }

  /** What the next call is then offered. */
  function Offered(results: nat -> CallResult, size: nat, n: nat): nat {
    size - Offset(results, size, n)
  }

  /** The slices the first n calls take. */
  function Taken(results: nat -> CallResult, bytes: seq<Byte>, n: nat): seq<seq<Byte>> {
    if n == 0 then []
    else
      var before := Offset(results, |bytes|, n - 1);
      Taken(results, bytes, n - 1)
        + (if IsTaken(results(n - 1), |bytes| - before) then [bytes[before..before + results(n - 1).written]] else [])
  }

  /** Together the slices are the bytes up to the offset reached. */
  lemma {:induction false} TakenInOrder(results: nat -> CallResult, bytes: seq<Byte>, n: nat)
    ensures Flatten(Taken(results, bytes, n)) == bytes[..Offset(results, |bytes|, n)]
  {
    if n > 0 {
      TakenInOrder(results, bytes, n - 1);
      var before, slices := Offset(results, |bytes|, n - 1), Taken(results, bytes, n - 1);
      if IsTaken(results(n - 1), |bytes| - before) {
        TakesNext(slices, bytes, before, before + results(n - 1).written);
      } else {
        assert slices + [] == slices;
      }
    }
  }

  lemma TakesNext(slices: seq<seq<Byte>>, bytes: seq<Byte>, from: nat, to: nat)
    requires from <= to <= |bytes| && Flatten(slices) == bytes[..from]
    ensures Flatten(slices + [bytes[from..to]]) == bytes[..to]
  {
    FlattenSnoc(slices, bytes[from..to]);
    assert bytes[..from] + bytes[from..to] == bytes[..to];
  }

  /** The first n calls were each offered something and none was refused. */
  predicate Unrefused(results: nat -> CallResult, size: nat, n: nat) {
    n == 0 || (Unrefused(results, size, n - 1) && Offered(results, size, n - 1) > 0
               && !IsRefused(results(n - 1), Offered(results, size, n - 1)))
  }

  /** The outcome for the bytes from the n-th call on: what is taken, and whether that is all. */
  function Outcome(socket: Socket, bytes: seq<Byte>, n: nat): (r: (seq<Byte>, bool))
    ensures r.0 <= bytes && (r.1 <==> r.0 == bytes)
    decreases |bytes|, if n < socket.lastRetry then socket.lastRetry - n else 0
  {
    if bytes == [] then ([], true)
    else
      var result := socket.results(n);
      if IsTaken(result, |bytes|) then
        var rest := Outcome(socket, bytes[result.written..], n + 1);
        assert bytes == bytes[..result.written] + bytes[result.written..];
        (bytes[..result.written] + rest.0, rest.1)
      else if IsRetry(result) then Outcome(socket, bytes, n + 1)
      else ([], false)
  }

  /** After so many calls the outcome is what has been taken, then the outcome for the rest. */
  predicate Remains(socket: Socket, bytes: seq<Byte>, offset: nat, calls: nat)
    requires offset <= |bytes|
  {
    var rest := Outcome(socket, bytes[offset..], calls);
    Outcome(socket, bytes, 0) == (bytes[..offset] + rest.0, rest.1)
  }

  lemma RemainsAtStart(socket: Socket, bytes: seq<Byte>)
    ensures Remains(socket, bytes, 0, 0)
  {
    assert bytes[0..] == bytes;
    assert bytes[..0] + Outcome(socket, bytes, 0).0 == Outcome(socket, bytes, 0).0;
  }

  lemma RemainsAfterTaking(socket: Socket, bytes: seq<Byte>, offset: nat, calls: nat)
    requires offset < |bytes| && Remains(socket, bytes, offset, calls)
    requires IsTaken(socket.results(calls), |bytes| - offset)
    ensures Remains(socket, bytes, offset + socket.results(calls).written, calls + 1)
  {
    var left, n := bytes[offset..], socket.results(calls).written;
    var later := Outcome(socket, left[n..], calls + 1);
    assert left[n..] == bytes[offset + n..];
    assert Outcome(socket, left, calls) == (left[..n] + later.0, later.1);
    Regroup(bytes[..offset], left[..n], later.0);
    assert bytes[..offset] + left[..n] == bytes[..offset + n];
  }

  lemma {:induction false} RemainsUnrefused(socket: Socket, bytes: seq<Byte>, n: nat)
    requires Unrefused(socket.results, |bytes|, n)
    ensures Remains(socket, bytes, Offset(socket.results, |bytes|, n), n)
  {
    if n == 0 {
      RemainsAtStart(socket, bytes);
    } else {
      RemainsUnrefused(socket, bytes, n - 1);
      var offset := Offset(socket.results, |bytes|, n - 1);
      if IsTaken(socket.results(n - 1), |bytes| - offset) {
        RemainsAfterTaking(socket, bytes, offset, n - 1);
      }
    }
  }

  /** How the loop ended after so many calls: either the bytes are all taken and no call was
      refused, or the last call, and no earlier one, was refused. */
  predicate Ended(results: nat -> CallResult, size: nat, calls: nat, ok: bool) {
    if ok then Unrefused(results, size, calls) && Offset(results, size, calls) == size
    else
      && calls > 0 && Unrefused(results, size, calls - 1) && Offered(results, size, calls - 1) > 0
      && IsRefused(results(calls - 1), Offered(results, size, calls - 1))
  }

  /** However the loop ends, that is the outcome. */
  lemma EndedIsOutcome(socket: Socket, bytes: seq<Byte>, calls: nat, ok: bool)
    requires Ended(socket.results, |bytes|, calls, ok)
    ensures Outcome(socket, bytes, 0) == (bytes[..Offset(socket.results, |bytes|, calls)], ok)
  {
    var n := if ok then calls else calls - 1;
    RemainsUnrefused(socket, bytes, n);
    var offset := Offset(socket.results, |bytes|, n);
    assert bytes[..offset] + [] == bytes[..offset];
    if ok {
      assert bytes[offset..] == [];
    }
  }

  /** Every call is offered the bytes left and exactly the accepted counts are taken, until nothing
      is left or a result is refused. */
  method WriteAll(socket: Socket, bytes: seq<Byte>) returns (ok: bool, taken: seq<seq<Byte>>, calls: nat)
    ensures Ended(socket.results, |bytes|, calls, ok)
    ensures taken == Taken(socket.results, bytes, calls)
    ensures (Flatten(taken), ok) == Outcome(socket, bytes, 0)
  {
    var offset: nat := 0;
    taken, calls := [], 0;
    while offset < |bytes|
      invariant offset == Offset(socket.results, |bytes|, calls)
      invariant taken == Taken(socket.results, bytes, calls)
      invariant Unrefused(socket.results, |bytes|, calls)
      decreases |bytes| - offset, if calls < socket.lastRetry then socket.lastRetry - calls else 0
    {
      var r := socket.results(calls);
      if r.written > 0 && r.written <= |bytes| - offset {
        taken := taken + [bytes[offset..offset + r.written]];
        offset := offset + r.written;
        calls := calls + 1;
      } else if r.written < 0 && r.retryable {
        calls := calls + 1;
      } else {
        calls := calls + 1;
        TakenInOrder(socket.results, bytes, calls);
        EndedIsOutcome(socket, bytes, calls, false);
        return false, taken, calls;
      }
    }
    TakenInOrder(socket.results, bytes, calls);
    EndedIsOutcome(socket, bytes, calls, true);
    return true, taken, calls;
  }

  // ----- in terms of the results alone -----

  /** What the first n results add up to, interruptions not counted. */
  function Sum(results: nat -> CallResult, n: nat): nat {
    if n == 0 then 0 else Sum(results, n - 1) + (if results(n - 1).written > 0 then results(n - 1).written else 0)
  }

  /** The first n calls each had bytes left to offer, and were interrupted or took some of them. */
  predicate WentOn(results: nat -> CallResult, size: nat, n: nat) {
    n == 0 || (WentOn(results, size, n - 1) && Sum(results, n - 1) < size
               && GoesOn(results(n - 1), size - Sum(results, n - 1)))
  }

  predicate GoesOn(r: CallResult, offered: nat) {
    (r.written < 0 && r.retryable) || 0 < r.written <= offered
  }

  lemma {:induction false} WentOnIsUnrefused(results: nat -> CallResult, size: nat, n: nat)
    requires Unrefused(results, size, n)
    ensures WentOn(results, size, n) && Sum(results, n) == Offset(results, size, n)
  {
    if n > 0 {
      WentOnIsUnrefused(results, size, n - 1);
    }
  }

  lemma {:induction false} LoopEnds(socket: Socket, size: nat, n: nat) returns (calls: nat, ok: bool)
    requires Unrefused(socket.results, size, n)
    ensures Ended(socket.results, size, calls, ok)
    decreases Offered(socket.results, size, n), if n < socket.lastRetry then socket.lastRetry - n else 0
  {
    if Offered(socket.results, size, n) == 0 {
      calls, ok := n, true;
    } else if IsRefused(socket.results(n), Offered(socket.results, size, n)) {
      calls, ok := n + 1, false;
    } else {
      calls, ok := LoopEnds(socket, size, n + 1);
    }
  }

  /** The outcome in terms of the results: n calls go on, and what they add up to is taken from the
      front; it is everything exactly when the sum is, and otherwise the next call neither takes any
      of what is left nor is interrupted. */
  lemma OutcomeExactly(socket: Socket, bytes: seq<Byte>) returns (n: nat)
    ensures WentOn(socket.results, |bytes|, n) && Sum(socket.results, n) <= |bytes|
    ensures Outcome(socket, bytes, 0) == (bytes[..Sum(socket.results, n)], Sum(socket.results, n) == |bytes|)
    ensures Sum(socket.results, n) < |bytes| ==> !GoesOn(socket.results(n), |bytes| - Sum(socket.results, n))
  {
    var calls, ok := LoopEnds(socket, |bytes|, 0);
    EndedIsOutcome(socket, bytes, calls, ok);
    n := if ok then calls else calls - 1;
    WentOnIsUnrefused(socket.results, |bytes|, n);
  }

  /** A socket that takes one byte at a time, interrupted or not, takes everything. */
  lemma {:induction false} SteadySocketTakesAll(socket: Socket, bytes: seq<Byte>, n: nat)
    requires forall i: nat :: IsRetry(socket.results(i)) || socket.results(i).written == 1
    ensures Outcome(socket, bytes, n) == (bytes, true)
    decreases |bytes|, if n < socket.lastRetry then socket.lastRetry - n else 0
  {
    if bytes != [] {
      if IsRetry(socket.results(n)) {
        SteadySocketTakesAll(socket, bytes, n + 1);
      } else {
        SteadySocketTakesAll(socket, bytes[1..], n + 1);
        assert bytes == bytes[..1] + bytes[1..];
      }
    }
  }

  /** The guard holds exactly when the incoming bytes fit beside the bytes already buffered. */
  function BufferCanAccept(used: nat, incoming: nat, capacity: nat): (fits: bool)
    ensures fits <==> used + incoming <= capacity
  {
    used <= capacity && incoming <= capacity - used
  }
}
