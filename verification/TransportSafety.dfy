/** The transport's guarantees about the bytes sent and about hand-over and recovery: what holds at every
    point of every run. */
module TransportSafety {
  import opened Bytes
  import opened ExpansionStateMachine
  import opened ExpansionTransport
  import opened TransportInvariant
  import opened TransportRuns
  import P = ExpansionProtocol

  // ----- bridge to Flipper -----

  /** Acknowledged bytes are a prefix of the bytes the Flipper received, and those of the bytes
      submitted; at most one chunk is received and not yet acknowledged. It holds from the start of
      a session until a start request of the next one goes out, whatever becomes of the link. */
  lemma StopAndWaitHolds(states: seq<Sys>, moves: seq<Move>, i: nat)
    requires IsRun(states, moves) && i < |states|
    ensures var s := states[i];
            && (HasSession(s.client) ==> s.latest)
            && (s.latest ==> s.acked <= s.got <= s.submitted && |s.got| <= |s.acked| + P.MAX_DATA)
  {
    Reachable(states, moves, i);
  }

  /** No stream of the pipe is ever cut back. */
  predicate Grows(p: Pipe, q: Pipe) {
    p.submitted <= q.submitted && p.got <= q.got && p.acked <= q.acked
  }

  lemma PipeStepGrows(p: Pipe, q: Pipe)
    requires PipeStep(p, q) && p.acked <= p.got
    ensures Grows(p, q)
  {
  }

  predicate KeepsStreams(s: Sys, t: Sys) {
    t.latest ==> s.latest && Grows(PipeOf(s), PipeOf(t))
  }

  lemma AckedIsGot(s: Sys)
    requires Inv(s) && s.latest
    ensures s.acked <= s.got
  {
  }

  lemma StepGrows(states: seq<Sys>, moves: seq<Move>, i: nat)
    requires IsRun(states, moves) && i < |moves| && !Opens(states[i], moves[i])
    ensures KeepsStreams(states[i], states[i + 1])
  {
    assert StepAt(states, moves, i);
    Reachable(states, moves, i);
    if states[i + 1].latest {
      RefinesPipe(states[i], moves[i]);
      AckedIsGot(states[i]);
      PipeStepGrows(PipeOf(states[i]), PipeOf(states[i + 1]));
    }
  }

  predicate KeepsStreamsAt(states: seq<Sys>, m: nat)
    requires m + 1 < |states|
  {
    KeepsStreams(states[m], states[m + 1])
  }

  lemma {:induction false} GrowthAddsUp(states: seq<Sys>, i: nat, k: nat)
    requires i <= k < |states| && states[k].latest
    requires forall m: nat | i <= m < k :: KeepsStreamsAt(states, m)
    ensures KeepsStreams(states[i], states[k])
    decreases k
  {
    if i < k {
      assert KeepsStreamsAt(states, k - 1);
      GrowthAddsUp(states, i, k - 1);
    }
  }

  /** Within one session nothing is taken back, repeated or reordered. */
  lemma StreamsGrow(states: seq<Sys>, moves: seq<Move>, i: nat, k: nat)
    requires IsRun(states, moves) && i <= k < |states| && states[k].latest
    requires forall m | i <= m < k :: !Opens(states[m], moves[m])
    ensures states[i].latest && Grows(PipeOf(states[i]), PipeOf(states[k]))
  {
    forall m: nat | i <= m < k ensures KeepsStreamsAt(states, m) {
      StepGrows(states, moves, m);
    }
    GrowthAddsUp(states, i, k);
  }

  /** A chunk reported as sent has been received, in its place and once, even if LOST is set. */
  lemma SuccessIsReceipt(states: seq<Sys>, moves: seq<Move>, i: nat, chunk: seq<Byte>)
    requires IsRun(states, moves) && i < |moves| && IsCollect(moves[i])
    requires states[i].client == Collecting(SendData(chunk), true) && states[i].last == P.ERROR_NONE
    ensures states[i + 1].acked == states[i].acked + chunk == states[i].got == states[i + 1].got
  {
    assert StepAt(states, moves, i);
    Reachable(states, moves, i);
    CollectIsPipeStep(states[i]);
  }

  /** A chunk that is sent is the next 64 submitted bytes, or all that are left. */
  lemma ChunksAreFull(states: seq<Sys>, moves: seq<Move>, i: nat, chunk: seq<Byte>)
    requires IsRun(states, moves) && i < |moves| && moves[i].OfClient? && moves[i].client.ASend?
    requires states[i].client == Sending(SendData(chunk))
    ensures var left := states[i].rest;
            states[i].submitted == states[i].acked + left && chunk == left[..if |left| < 64 then |left| else 64]
  {
    Reachable(states, moves, i);
  }

  /** The bytes handed to send_rpc, and accepted, from move i up to move k. */
  function SubmittedBy(states: seq<Sys>, moves: seq<Move>, i: nat, k: nat): seq<Byte>
    requires i <= k <= |moves| && |states| == |moves| + 1
    decreases k
  {
    if i == k then [] else SubmittedBy(states, moves, i, k - 1) + Added(states[k - 1], moves[k - 1])
  }

  predicate Adds(s: Sys, a: Move, t: Sys) {
    t.submitted == s.submitted + Added(s, a)
  }

  lemma StepSubmits(states: seq<Sys>, moves: seq<Move>, i: nat)
    requires IsRun(states, moves) && i < |moves| && !Opens(states[i], moves[i])
    ensures Adds(states[i], moves[i], states[i + 1])
  {
    assert StepAt(states, moves, i);
    Reachable(states, moves, i);
    OnlySubmitsSubmit(states[i], moves[i]);
  }

  predicate AddsAt(states: seq<Sys>, moves: seq<Move>, m: nat)
    requires |states| == |moves| + 1 && m < |moves|
  {
    Adds(states[m], moves[m], states[m + 1])
  }

  lemma {:induction false} SubmissionsAddUp(states: seq<Sys>, moves: seq<Move>, i: nat, k: nat)
    requires i <= k <= |moves| && |states| == |moves| + 1 && states[i].submitted == []
    requires forall m: nat | i <= m < k :: AddsAt(states, moves, m)
    ensures states[k].submitted == SubmittedBy(states, moves, i, k)
    decreases k
  {
    if i < k {
      SubmissionsAddUp(states, moves, i, k - 1);
      assert AddsAt(states, moves, k - 1);
    }
  }

  lemma SessionSubmits(states: seq<Sys>, moves: seq<Move>, i: nat, k: nat)
    requires IsRun(states, moves) && i < k < |states| && Opens(states[i], moves[i])
    requires forall m | i < m < k :: !Opens(states[m], moves[m])
    ensures states[k].submitted == SubmittedBy(states, moves, i + 1, k)
  {
    OpeningIsEmpty(states, moves, i);
    forall m: nat | i + 1 <= m < k ensures AddsAt(states, moves, m) {
      StepSubmits(states, moves, m);
    }
    SubmissionsAddUp(states, moves, i + 1, k);
  }

  /** From the step that opens a session on, whatever else happens: the Flipper has received a prefix
      of exactly the bytes handed to send_rpc since then, and what is acknowledged is a prefix of
      that, behind by at most one chunk. */
  lemma SubmissionsReachFlipper(states: seq<Sys>, moves: seq<Move>, i: nat, k: nat)
    requires IsRun(states, moves) && i < k < |states| && Opens(states[i], moves[i])
    requires forall m | i < m < k :: !Opens(states[m], moves[m])
    requires states[k].latest
    ensures states[k].acked <= states[k].got <= SubmittedBy(states, moves, i + 1, k)
    ensures |states[k].got| <= |states[k].acked| + P.MAX_DATA
  {
    SessionSubmits(states, moves, i, k);
    StopAndWaitHolds(states, moves, k);
  }

  lemma OpeningIsEmpty(states: seq<Sys>, moves: seq<Move>, i: nat)
    requires IsRun(states, moves) && i < |moves| && Opens(states[i], moves[i])
    ensures states[i + 1].submitted == []
  {
    assert StepAt(states, moves, i);
    Reachable(states, moves, i);
    StartedIsOpening(states[i]);
  }

  // ----- hand-over and recovery -----

  /** Once a client has left, on whatever path, no RPC state is left behind, unless the link is
      already given up. */
  lemma CleanHandover(states: seq<Sys>, moves: seq<Move>, i: nat)
    requires IsRun(states, moves) && i < |states| && Gone(states[i].client)
    ensures !RpcState(states[i].machine.state) || (states[i].lost && states[i].machine.state != RpcReady)
  {
    Reachable(states, moves, i);
  }

  /** LOST is only cleared while the link is down. */
  lemma LostIsClearedWhenDown(states: seq<Sys>, moves: seq<Move>, i: nat)
    requires IsRun(states, moves) && i < |moves| && states[i].lost && !states[i + 1].lost
    ensures states[i].machine.state == Disconnected || states[i].machine.state == Backoff
    ensures states[i + 1].machine == states[i].machine && states[i].rx == Off
  {
    var s, a := states[i], moves[i];
    assert StepAt(states, moves, i);
    Reachable(states, moves, i);
    match a
    case OfClient(c) => ClientLost(s, c);
    case OfRx(r) => RxEffects(s, r);
    case OfSupervisor(v) => SupervisorEffects(s, v);
    case OfPeer(p) => PeerEffects(s, p);
  }

  /** The machine is reinitialised before every attempt, so its own retry limit is never reached:
      every timeout leads to Backoff. */
  lemma TimeoutBacksOff(states: seq<Sys>, moves: seq<Move>, i: nat)
    requires IsRun(states, moves) && i < |moves|
    ensures states[i].machine.attempts <= 1
    ensures moves[i] == OfSupervisor(ASupTimeout) ==> states[i + 1].machine == Machine(Backoff, 1)
  {
    assert StepAt(states, moves, i);
    Reachable(states, moves, i);
  }
}
