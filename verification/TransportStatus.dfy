/** Which status a call of send_wait_status goes by, and what a granted start or stop means. */
module TransportStatus {
  import opened Bytes
  import opened ExpansionStateMachine
  import opened ExpansionTransport
  import opened TransportInvariant
  import opened TransportRuns
  import P = ExpansionProtocol

  // ----- no stale success -----

  /** Move j armed the request window that is open before move i. */
  ghost predicate OpenedAt(moves: seq<Move>, i: nat, j: nat) {
    && j < i <= |moves| && IsArm(moves[j])
    && forall m | j < m < i :: !IsArm(moves[m]) && !IsCollect(moves[m])
  }

  /** Between moves j and i the rx task recorded that status while one was awaited. */
  ghost predicate RecordedWithin(states: seq<Sys>, moves: seq<Move>, j: nat, i: nat, code: Byte)
    requires |states| == |moves| + 1 && i <= |moves|
  {
    exists k :: j < k < i && IsRecord(moves[k]) && states[k].awaiting && states[k].rx == GotStatus(code)
  }

  function RecordedAfter(s: Sys, a: Move): Option<Byte> {
    if IsRecord(a) && s.awaiting && s.rx.GotStatus? then Some(s.rx.code) else s.recorded
  }

  /** LOST is clear, or every chunk that was sent has been acknowledged. */
  predicate Orderly(s: Sys) {
    !s.lost || s.tried == []
  }

  /** Only arming opens a window, only collecting closes it, and only the rx task records. */
  predicate WindowStep(s: Sys, a: Move, t: Sys) {
    && (IsArm(a) ==> t.recorded.None? && s.client.Arming? && t.client == Sending(s.client.request) && t.clean == Orderly(s))
    && (!IsArm(a) ==> t.recorded == RecordedAfter(s, a) && t.clean == s.clean)
    && (!IsArm(a) && Armed(t.client) ==> Armed(s.client) && !IsCollect(a) && t.client.request == s.client.request)
  }

  lemma StepsAreWindowSteps(s: Sys, a: Move)
    requires Enabled(s, a)
    ensures WindowStep(s, a, Next(s, a))
  {
    match a
    case OfClient(c) =>
      if !c.AArm? {
        ClientKeepsRecord(s, c);
        ClientKeepsWindow(s, c);
        if Armed(ClientNext(s, c).client) {
          ClientKeepsRequest(s, c);
        }
      }
    case OfRx(r) => RxEffects(s, r);
    case OfSupervisor(v) => SupervisorEffects(s, v);
    case OfPeer(p) => PeerEffects(s, p);
  }

  ghost predicate WindowRun(states: seq<Sys>, moves: seq<Move>) {
    && |states| == |moves| + 1 && !Armed(states[0].client)
    && forall i | 0 <= i < |moves| :: WindowStep(states[i], moves[i], states[i + 1])
  }

  lemma RunsAreWindowRuns(states: seq<Sys>, moves: seq<Move>)
    requires IsRun(states, moves)
    ensures WindowRun(states, moves)
  {
    forall i | 0 <= i < |moves| ensures WindowStep(states[i], moves[i], states[i + 1]) {
      assert StepAt(states, moves, i);
      StepsAreWindowSteps(states[i], moves[i]);
    }
  }

  lemma RecordedLater(states: seq<Sys>, moves: seq<Move>, j: nat, i: nat, code: Byte)
    requires |states| == |moves| + 1 && i < |moves| && RecordedWithin(states, moves, j, i, code)
    ensures RecordedWithin(states, moves, j, i + 1, code)
  {
    var k :| j < k < i && IsRecord(moves[k]) && states[k].awaiting && states[k].rx == GotStatus(code);
    assert j < k < i + 1 && IsRecord(moves[k]);
  }

  /** The window a client is in was opened by one arming, for its request, and whatever is recorded
      was recorded since. */
  lemma {:induction false} WindowHistory(states: seq<Sys>, moves: seq<Move>, i: nat) returns (j: nat)
    requires WindowRun(states, moves) && i < |states| && Armed(states[i].client)
    ensures OpenedAt(moves, i, j) && states[j].client == Arming(states[i].client.request)
    ensures states[i].recorded.Some? ==> RecordedWithin(states, moves, j, i, states[i].recorded.value)
  {
    assert i > 0;
    var s, a, t := states[i - 1], moves[i - 1], states[i - 1 + 1];
    assert WindowStep(s, a, t);
    if IsArm(a) {
      j := i - 1;
    } else {
      j := WindowHistory(states, moves, i - 1);
      if IsRecord(a) && s.awaiting && s.rx.GotStatus? {
        assert j < i - 1 < i && IsRecord(moves[i - 1]) && states[i - 1].rx == GotStatus(s.rx.code);
      } else if t.recorded.Some? {
        RecordedLater(states, moves, j, i - 1, t.recorded.value);
      }
    }
  }

  lemma OneOpening(moves: seq<Move>, i: nat, j: nat, k: nat)
    requires OpenedAt(moves, i, j) && OpenedAt(moves, i, k)
    ensures j == k
  {
  }

  /** Whenever send_wait_status reports success with status None, the rx task recorded a None while
      this very call was awaiting one, whatever tokens or statuses were left from earlier calls. */
  lemma NoStaleSuccess(states: seq<Sys>, moves: seq<Move>, i: nat, r: Request)
    requires IsRun(states, moves) && i < |moves| && IsCollect(moves[i])
    requires states[i].client == Collecting(r, true) && states[i].last == P.ERROR_NONE
    ensures exists j: nat :: OpenedAt(moves, i, j) && RecordedWithin(states, moves, j, i, P.ERROR_NONE)
  {
    Reachable(states, moves, i);
    RunsAreWindowRuns(states, moves);
    var j := WindowHistory(states, moves, i);
  }

  // ----- where the status was decoded -----

  predicate IsFrame(a: Move) { a.OfRx? && a.rx.ARxFrame? }

  /** Between moves j and i the rx task decoded a frame with that status. */
  ghost predicate DecodedWithin(states: seq<Sys>, moves: seq<Move>, j: nat, i: nat, code: Byte)
    requires |states| == |moves| + 1 && i <= |moves|
  {
    exists f :: j < f < i && IsFrame(moves[f]) && states[f].down != [] && states[f].down[0] == Status(code)
  }

  /** How the rx task comes to hold a status. */
  predicate HoldStep(s: Sys, a: Move, t: Sys) {
    t.rx.GotStatus? && t.rx != s.rx ==> IsFrame(a) && s.down != [] && s.down[0] == Status(t.rx.code)
  }

  lemma RxHolds(s: Sys, a: RxMove)
    requires RxEnabled(s, a)
    ensures HoldStep(s, OfRx(a), RxNext(s, a))
  {
    match a
    case ARxLook | ARxIdle | ARxError | ARxFrame | ARxRecord | ARxGive | ARxCheckState | ARxCheckRoom(_) |
      ARxStore | ARxAck(_, _) | ARxDrop | ALoseLink | AHeartbeat =>
  }

  lemma StepHolds(s: Sys, a: Move)
    requires Enabled(s, a)
    ensures HoldStep(s, a, Next(s, a))
  {
    match a
    case OfClient(c) => ClientKeepsRx(s, c);
    case OfRx(r) => RxHolds(s, r);
    case OfSupervisor(v) => SupervisorKeepsRx(s, v);
    case OfPeer(p) => PeerKeepsRx(s, p);
  }

  ghost predicate HoldRun(states: seq<Sys>, moves: seq<Move>) {
    && |states| == |moves| + 1
    && forall i | 0 <= i < |moves| :: HoldStep(states[i], moves[i], states[i + 1])
  }

  lemma RunsAreHoldRuns(states: seq<Sys>, moves: seq<Move>)
    requires IsRun(states, moves)
    ensures HoldRun(states, moves)
  {
    forall i | 0 <= i < |moves| ensures HoldStep(states[i], moves[i], states[i + 1]) {
      assert StepAt(states, moves, i);
      StepHolds(states[i], moves[i]);
    }
  }

  /** A status held at a later moment was held all along, or decoded since. */
  lemma {:induction false} HeldOrDecoded(states: seq<Sys>, moves: seq<Move>, j: nat, k: nat, code: Byte)
    requires HoldRun(states, moves) && j < k < |states| && IsArm(moves[j]) && states[k].rx == GotStatus(code)
    ensures DecodedWithin(states, moves, j, k, code) || states[j].rx == GotStatus(code)
    decreases k
  {
    assert HoldStep(states[k - 1], moves[k - 1], states[k - 1 + 1]);
    if states[k].rx != states[k - 1].rx {
      assert IsFrame(moves[k - 1]) && states[k - 1].down[0] == Status(code);
    } else if j < k - 1 {
      HeldOrDecoded(states, moves, j, k - 1, code);
      if DecodedWithin(states, moves, j, k - 1, code) {
        var f :| j < f < k - 1 && IsFrame(moves[f]) && states[f].down != [] && states[f].down[0] == Status(code);
        assert j < f < k && IsFrame(moves[f]);
      }
    }
  }

  lemma DecodedEarlier(states: seq<Sys>, moves: seq<Move>, j: nat, k: nat, i: nat, code: Byte)
    requires |states| == |moves| + 1 && k <= i <= |moves| && DecodedWithin(states, moves, j, k, code)
    ensures DecodedWithin(states, moves, j, i, code)
  {
    var f :| j < f < k && IsFrame(moves[f]) && states[f].down != [] && states[f].down[0] == Status(code);
    assert j < f < i && IsFrame(moves[f]);
  }

  /** When a chunk is armed, or anything with LOST clear, the rx task holds no None. */
  lemma NoNoneHeldAtArming(s: Sys)
    requires Inv(s) && s.client.Arming? && (s.client.request.SendData? || !s.lost)
    ensures s.rx != GotStatus(P.ERROR_NONE)
  {
  }

  /** The status behind a success was decoded inside the call, between its arming and its reading,
      except in one case: a start or stop request armed with LOST already set, while the rx task held
      a status decoded before. */
  lemma SuccessIsDecodedInside(states: seq<Sys>, moves: seq<Move>, j: nat, i: nat, r: Request)
    requires IsRun(states, moves) && i < |moves| && IsCollect(moves[i]) && OpenedAt(moves, i, j)
    requires states[i].client == Collecting(r, true) && states[i].last == P.ERROR_NONE
    ensures DecodedWithin(states, moves, j, i, P.ERROR_NONE) ||
            (!r.SendData? && states[j].lost && states[j].rx == GotStatus(P.ERROR_NONE))
  {
    Reachable(states, moves, i);
    RunsAreWindowRuns(states, moves);
    var arming := WindowHistory(states, moves, i);
    OneOpening(moves, i, j, arming);
    var k :| j < k < i && IsRecord(moves[k]) && states[k].awaiting && states[k].rx == GotStatus(P.ERROR_NONE);
    RunsAreHoldRuns(states, moves);
    HeldOrDecoded(states, moves, j, k, P.ERROR_NONE);
    if DecodedWithin(states, moves, j, k, P.ERROR_NONE) {
      DecodedEarlier(states, moves, j, k, i, P.ERROR_NONE);
    } else {
      Reachable(states, moves, j);
      if r.SendData? || !states[j].lost {
        NoNoneHeldAtArming(states[j]);
      }
    }
  }

  // ----- what a granted start and a granted stop mean -----

  /** A granted start means a new session on the Flipper's side, unless the Flipper has died since:
      it has received nothing, and all it has sent is still on its way, unless the rx task has met
      something it cannot accept or LOST is set. */
  lemma StartIsFresh(states: seq<Sys>, moves: seq<Move>, i: nat)
    requires IsRun(states, moves) && i < |states|
    requires states[i].client.Starting? && states[i].machine.state == StartingRpc
    ensures var s := states[i];
            && s.got == [] && SessionRequests(s.up) == 0
            && (s.phase == InRpc || s.phase == Dead)
            && (s.offered == Flight(s) || s.lost || s.rx.Dropping?)
  {
    Reachable(states, moves, i);
  }

  lemma {:induction false} CleanSince(states: seq<Sys>, moves: seq<Move>, j: nat, i: nat)
    requires WindowRun(states, moves) && j < i < |states| && IsArm(moves[j])
    requires forall m | j < m < i :: !IsArm(moves[m])
    ensures states[i].clean == Orderly(states[j])
    decreases i
  {
    assert WindowStep(states[i - 1], moves[i - 1], states[i - 1 + 1]);
    if j < i - 1 {
      CleanSince(states, moves, j, i - 1);
    }
  }

  lemma CleanStopIsFinal(s: Sys)
    requires Inv(s) && s.client.Stopping? && s.machine.state == StoppingRpc && s.clean
    ensures s.phase != InRpc && s.up == [] && Statuses(s.down) == 0 && Flight(s) == []
  {
  }

  /** end_rpc succeeds, and when its request was armed, by move j, LOST was clear or every chunk sent
      had been acknowledged: then the Flipper has left its session, and no request, status or byte of
      data is on the wire. It does not matter whether LOST has been set since. */
  lemma StopIsFinal(states: seq<Sys>, moves: seq<Move>, j: nat, i: nat)
    requires IsRun(states, moves) && j < i < |states| && IsArm(moves[j]) && Orderly(states[j])
    requires forall m | j < m < i :: !IsArm(moves[m])
    requires states[i].client.Stopping? && states[i].machine.state == StoppingRpc
    ensures states[i].phase != InRpc && states[i].up == [] && Statuses(states[i].down) == 0 && Flight(states[i]) == []
  {
    RunsAreWindowRuns(states, moves);
    CleanSince(states, moves, j, i);
    Reachable(states, moves, i);
    CleanStopIsFinal(states[i]);
  }
}
