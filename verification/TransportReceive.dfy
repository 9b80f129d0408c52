/** What becomes of the Flipper's data: conservation within a session, and the fate of every frame. */
module TransportReceive {
  import opened Bytes
  import opened ExpansionStateMachine
  import opened ExpansionTransport
  import opened TransportInvariant
  import opened TransportRuns
  import RxSteps = TransportRxSteps
  import P = ExpansionProtocol

  // ----- Flipper to bridge -----

  /** Within a session, what was put into the buffer is what the writer was handed followed by what
      the buffer still holds; all of it was sent by this session's Flipper, in order; and what was
      acknowledged to the Flipper is in the buffer or beyond, lagging by at most one frame. */
  lemma ReceiveConservation(states: seq<Sys>, moves: seq<Move>, i: nat)
    requires IsRun(states, moves) && i < |states| && HasSession(states[i].client)
    ensures var s := states[i];
            && s.delivered <= s.enqueued <= s.offered
            && (s.enqueued == s.delivered + s.buffer || (s.purged && s.buffer == []))
            && s.credited <= s.enqueued && |s.enqueued| <= |s.credited| + P.MAX_DATA
            && (Current(s) ==> !s.purged)
            && (Current(s) && CanGo(s) ==> s.offered == s.delivered + s.buffer + Flight(s))
  {
    Reachable(states, moves, i);
  }

  /** The writer only reads in a session, and the buffer never holds more than its size. */
  lemma BufferBounds(states: seq<Sys>, moves: seq<Move>, i: nat)
    requires IsRun(states, moves) && i < |states|
    ensures |states[i].buffer| <= BUFFER_BYTES
    ensures states[i].writer ==> HasSession(states[i].client)
  {
    Reachable(states, moves, i);
  }

  /** Storing a frame that was let in is never partial, although the writer runs beside it. */
  lemma StoreNeverPartial(states: seq<Sys>, moves: seq<Move>, i: nat)
    requires IsRun(states, moves) && i < |moves| && moves[i] == OfRx(ARxStore)
    ensures states[i].rx.Storing? && states[i + 1].buffer == states[i].buffer + states[i].rx.bytes
    ensures states[i + 1].rx == Acking(states[i].rx.bytes)
  {
    assert StepAt(states, moves, i);
    Reachable(states, moves, i);
    RxSteps.StoreIsComplete(states[i]);
  }

  // ----- the fate of a data frame -----

  /** The rx task has a data frame in hand that is not in the buffer yet. */
  predicate Holding(rx: Rx, bytes: seq<Byte>) {
    rx == GotData(bytes) || rx == Checked(bytes) || rx == Storing(bytes)
  }

  predicate Fits(s: Sys, bytes: seq<Byte>) { |s.buffer| + |bytes| <= BUFFER_BYTES }

  predicate IsRx(a: Move, r: RxMove) { a == OfRx(r) }

  predicate ChecksRoom(a: Move) { a.OfRx? && a.rx.ARxCheckRoom? }

  /** What becomes of the frame in hand, step by step. */
  predicate HandStep(s: Sys, a: Move, t: Sys) {
    && (s.rx.GotData? ==>
          t.rx == if !IsRx(a, ARxCheckState) then s.rx
                  else if s.machine.state == RpcReady then Checked(s.rx.bytes) else Dropping)
    && (s.rx.Checked? ==>
          t.rx == if !ChecksRoom(a) then s.rx else if Fits(s, s.rx.bytes) then Storing(s.rx.bytes) else Dropping)
    && (s.rx.Storing? ==>
          if !IsRx(a, ARxStore) then t.rx == s.rx
          else t.rx == Acking(s.rx.bytes) && t.buffer == s.buffer + s.rx.bytes)
    && (s.rx.GotStatus? ==>
          if !IsRx(a, ARxRecord) then t.rx == s.rx
          else if s.awaiting then t.rx == Giving && t.last == s.rx.code else t.rx == Dropping)
    && (IsRx(a, ARxError) ==> t.rx == Dropping)
    && (IsRx(a, ARxFrame) ==>
          s.down != [] && t.rx == match s.down[0] case Status(c) => GotStatus(c) case Data(b) => GotData(b))
  }

  lemma RxHandStep(s: Sys, a: RxMove)
    requires BufferSafe(s) && RxEnabled(s, a)
    ensures HandStep(s, OfRx(a), RxNext(s, a))
  {
    match a
    case ARxStore =>
      assert s.rx.bytes[..|s.rx.bytes|] == s.rx.bytes;
    case ARxLook | ARxIdle | ARxError | ARxFrame | ARxRecord | ARxGive | ARxCheckState | ARxCheckRoom(_) |
      ARxAck(_, _) | ARxDrop | ALoseLink | AHeartbeat =>
  }

  lemma StepIsHandStep(s: Sys, a: Move)
    requires Inv(s) && Enabled(s, a)
    ensures HandStep(s, a, Next(s, a))
  {
    match a
    case OfClient(c) => ClientKeepsRx(s, c);
    case OfRx(r) => RxHandStep(s, r);
    case OfSupervisor(v) => SupervisorKeepsRx(s, v);
    case OfPeer(p) => PeerKeepsRx(s, p);
  }

  ghost predicate HandRun(states: seq<Sys>, moves: seq<Move>) {
    && |states| == |moves| + 1
    && forall i | 0 <= i < |moves| :: HandStep(states[i], moves[i], states[i + 1])
  }

  lemma RunsAreHandRuns(states: seq<Sys>, moves: seq<Move>)
    requires IsRun(states, moves)
    ensures HandRun(states, moves)
  {
    forall i | 0 <= i < |moves| ensures HandStep(states[i], moves[i], states[i + 1]) {
      assert StepAt(states, moves, i);
      Reachable(states, moves, i);
      StepIsHandStep(states[i], moves[i]);
    }
  }

  /** The frame is in hand from state m up to state k, where it no longer is. */
  ghost predicate InHand(states: seq<Sys>, m: nat, k: nat, bytes: seq<Byte>) {
    && m < k < |states| && !Holding(states[k].rx, bytes)
    && forall n | m <= n < k :: Holding(states[n].rx, bytes)
  }

  ghost predicate StoredBy(states: seq<Sys>, moves: seq<Move>, k: nat, bytes: seq<Byte>)
    requires 0 < k < |states| == |moves| + 1
  {
    IsRx(moves[k - 1], ARxStore) && states[k].rx == Acking(bytes) && states[k].buffer == states[k - 1].buffer + bytes
  }

  lemma {:induction false} StoringFate(states: seq<Sys>, moves: seq<Move>, m: nat, k: nat, bytes: seq<Byte>)
    requires HandRun(states, moves) && InHand(states, m, k, bytes) && states[m].rx == Storing(bytes)
    ensures StoredBy(states, moves, k, bytes)
    decreases k - m
  {
    assert HandStep(states[m], moves[m], states[m + 1]);
    if m + 1 < k {
      assert Holding(states[m + 1].rx, bytes);
      StoringFate(states, moves, m + 1, k, bytes);
    }
  }

  /** The room was checked at move r. */
  ghost predicate RoomAt(states: seq<Sys>, moves: seq<Move>, m: nat, k: nat, bytes: seq<Byte>, r: nat)
    requires 0 < k < |states| == |moves| + 1
  {
    && m <= r < k && ChecksRoom(moves[r])
    && if Fits(states[r], bytes) then StoredBy(states, moves, k, bytes) else states[k].rx == Dropping
  }

  lemma {:induction false} CheckedFate(states: seq<Sys>, moves: seq<Move>, m: nat, k: nat, bytes: seq<Byte>) returns (r: nat)
    requires HandRun(states, moves) && InHand(states, m, k, bytes) && states[m].rx == Checked(bytes)
    ensures RoomAt(states, moves, m, k, bytes, r)
    decreases k - m
  {
    assert HandStep(states[m], moves[m], states[m + 1]);
    if ChecksRoom(moves[m]) {
      r := m;
      if m + 1 < k {
        assert Holding(states[m + 1].rx, bytes);
        StoringFate(states, moves, m + 1, k, bytes);
      }
    } else {
      assert m + 1 < k && Holding(states[m + 1].rx, bytes);
      r := CheckedFate(states, moves, m + 1, k, bytes);
    }
  }

  ghost predicate RoomChecked(states: seq<Sys>, moves: seq<Move>, m: nat, k: nat, bytes: seq<Byte>)
    requires 0 < k < |states| == |moves| + 1
  {
    exists r: nat :: RoomAt(states, moves, m, k, bytes, r)
  }

  /** The state was checked at move c and, if it was RpcReady, the room after it. */
  ghost predicate FateAt(states: seq<Sys>, moves: seq<Move>, m: nat, k: nat, bytes: seq<Byte>, c: nat)
    requires 0 < k < |states| == |moves| + 1
  {
    && m <= c < k && IsRx(moves[c], ARxCheckState)
    && if states[c].machine.state == RpcReady then RoomChecked(states, moves, c + 1, k, bytes)
       else states[k].rx == Dropping
  }

  lemma {:induction false} GotDataFate(states: seq<Sys>, moves: seq<Move>, m: nat, k: nat, bytes: seq<Byte>) returns (c: nat)
    requires HandRun(states, moves) && InHand(states, m, k, bytes) && states[m].rx == GotData(bytes)
    ensures FateAt(states, moves, m, k, bytes, c)
    decreases k - m
  {
    assert HandStep(states[m], moves[m], states[m + 1]);
    if IsRx(moves[m], ARxCheckState) {
      c := m;
      if m + 1 < k {
        assert Holding(states[m + 1].rx, bytes);
        var r := CheckedFate(states, moves, m + 1, k, bytes);
      }
    } else {
      assert m + 1 < k && Holding(states[m + 1].rx, bytes);
      c := GotDataFate(states, moves, m + 1, k, bytes);
    }
  }

  /** In every run, a data frame taken off the wire by move i is stored, whole, if and only if the
      state read at its check is RpcReady and there is room for it at the check after that; otherwise
      the rx task ends up dropping the link. */
  lemma DataFrameFate(states: seq<Sys>, moves: seq<Move>, i: nat, k: nat, bytes: seq<Byte>) returns (c: nat)
    requires IsRun(states, moves) && i < |moves| && IsRx(moves[i], ARxFrame)
    requires states[i].down != [] ==> states[i].down[0] == Data(bytes)
    requires InHand(states, i + 1, k, bytes)
    ensures FateAt(states, moves, i + 1, k, bytes, c)
  {
    RunsAreHandRuns(states, moves);
    assert HandStep(states[i], moves[i], states[i + 1]);
    c := GotDataFate(states, moves, i + 1, k, bytes);
  }

  /** The rx task has a status in hand from state m up to state k, where it no longer has. */
  ghost predicate StatusInHand(states: seq<Sys>, m: nat, k: nat, code: Byte) {
    && m < k < |states| && states[k].rx != GotStatus(code)
    && forall n | m <= n < k :: states[n].rx == GotStatus(code)
  }

  /** In every run, a status taken off the wire by move i is recorded for the call that is awaiting one
      when the rx task looks; if none is, the rx task drops the link. So it does for bytes that are no
      frame. */
  lemma StatusFrameFate(states: seq<Sys>, moves: seq<Move>, i: nat, k: nat, code: Byte)
    requires IsRun(states, moves) && i < |moves| && IsRx(moves[i], ARxFrame)
    requires states[i].down != [] ==> states[i].down[0] == Status(code)
    requires StatusInHand(states, i + 1, k, code)
    ensures IsRx(moves[k - 1], ARxRecord)
    ensures if states[k - 1].awaiting then states[k].rx == Giving && states[k].last == code else states[k].rx == Dropping
  {
    RunsAreHandRuns(states, moves);
    assert states[k - 1].rx == GotStatus(code);
    assert HandStep(states[k - 1], moves[k - 1], states[k - 1 + 1]);
  }

  lemma BadBytesDropTheLink(states: seq<Sys>, moves: seq<Move>, i: nat)
    requires IsRun(states, moves) && i < |moves| && IsRx(moves[i], ARxError)
    ensures states[i + 1].rx == Dropping
  {
    RunsAreHandRuns(states, moves);
    assert HandStep(states[i], moves[i], states[i + 1]);
  }

  /** While the supervisor watches a link, the rx task is there to serve it, or LOST is set: whatever
      ended it, or if it could never be created. */
  lemma WatchedLinkIsServed(states: seq<Sys>, moves: seq<Move>, i: nat)
    requires IsRun(states, moves) && i < |states| && states[i].sup.Watch?
    ensures states[i].rx.Off? ==> states[i].lost
  {
    Reachable(states, moves, i);
  }

  /** The link is being dropped, or has been and not been taken up again. */
  predicate Closed(s: Sys) {
    s.rx.Dropping? || (s.rx.Off? && s.lost && (s.sup.Watch? || s.sup.Join? || s.sup.Expire? || s.sup.ClearBits?))
  }

  predicate Reopens(a: Move) { a.OfSupervisor? && a.supervisor.ASupClear? }

  /** A step of a closed link: no frame is taken, and dropping ends the rx task with LOST set. */
  predicate ClosedStep(s: Sys, a: Move, t: Sys) {
    Closed(s) && !Reopens(a) ==>
      && Closed(t) && !(a.OfRx? && a.rx.ARxFrame?)
      && (s.rx.Dropping? && t.rx != s.rx ==> t.rx.Off? && t.lost)
  }

  lemma RxStaysClosed(s: Sys, a: RxMove)
    requires Control(s) && RxEnabled(s, a)
    ensures ClosedStep(s, OfRx(a), RxNext(s, a))
  {
    match a
    case ARxLook | ARxIdle | ARxError | ARxFrame | ARxRecord | ARxGive | ARxCheckState | ARxCheckRoom(_) |
      ARxStore | ARxAck(_, _) | ARxDrop | ALoseLink | AHeartbeat =>
  }

  lemma SupervisorStaysClosed(s: Sys, a: SupervisorMove)
    requires Control(s) && SupervisorEnabled(s, a)
    ensures ClosedStep(s, OfSupervisor(a), SupervisorNext(s, a))
  {
    match a
    case ASupClear | ASupInit | ASupStart | ASupPulse(_) | ASupAbort(_) | ASupHeartbeat | ASupAskBaud(_) |
      ASupBaudReply(_) | ASupAccepted | ASupSetUp | ASupReset | ASupSpawn(_, _) | ASupSeesLoss | ASupJoined |
      ASupTimeout =>
  }

  lemma StepStaysClosed(s: Sys, a: Move)
    requires Control(s) && Enabled(s, a)
    ensures ClosedStep(s, a, Next(s, a))
  {
    match a
    case OfClient(c) =>
      ClientKeepsRx(s, c);
      ClientLost(s, c);
    case OfRx(r) => RxStaysClosed(s, r);
    case OfSupervisor(v) => SupervisorStaysClosed(s, v);
    case OfPeer(p) =>
      PeerKeepsRx(s, p);
      PeerEffects(s, p);
  }

  ghost predicate ClosedRun(states: seq<Sys>, moves: seq<Move>) {
    && |states| == |moves| + 1
    && forall i | 0 <= i < |moves| :: ClosedStep(states[i], moves[i], states[i + 1])
  }

  lemma RunsAreClosedRuns(states: seq<Sys>, moves: seq<Move>)
    requires IsRun(states, moves)
    ensures ClosedRun(states, moves)
  {
    forall i | 0 <= i < |moves| ensures ClosedStep(states[i], moves[i], states[i + 1]) {
      assert StepAt(states, moves, i);
      Reachable(states, moves, i);
      StepStaysClosed(states[i], moves[i]);
    }
  }

  lemma {:induction false} StaysClosed(states: seq<Sys>, moves: seq<Move>, k: nat, m: nat)
    requires ClosedRun(states, moves) && k <= m < |states| && Closed(states[k])
    requires forall n | k <= n < m :: !Reopens(moves[n])
    ensures Closed(states[m])
    decreases m
  {
    if k < m {
      StaysClosed(states, moves, k, m - 1);
      assert ClosedStep(states[m - 1], moves[m - 1], states[m - 1 + 1]);
    }
  }

  /** Once the rx task drops the link it takes no frame any more, and the only way it goes on is to
      end with LOST set, until the supervisor clears LOST for a new attempt. */
  lemma DroppedLinkStaysClosed(states: seq<Sys>, moves: seq<Move>, k: nat, m: nat)
    requires IsRun(states, moves) && k <= m < |moves| && states[k].rx == Dropping
    requires forall n | k <= n <= m :: !Reopens(moves[n])
    ensures Closed(states[m]) && ClosedStep(states[m], moves[m], states[m + 1])
  {
    RunsAreClosedRuns(states, moves);
    StaysClosed(states, moves, k, m);
  }
}
