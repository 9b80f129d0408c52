/** Every step of the rx and heartbeat tasks keeps the invariant. */
module TransportRxSteps {
  import opened Bytes
  import opened ExpansionStateMachine
  import opened ExpansionTransport
  import opened TransportInvariant
  import P = ExpansionProtocol

  // ----- moves that only advance the rx task's program counter -----

  /** The rx task neither takes a frame nor hands one over; it may only lose what it holds, and
      then it takes in nothing more. */
  predicate RxMoves(s: Sys, t: Sys) {
    && t == s.(rx := t.rx, lost := t.lost, token := t.token)
    && (s.lost ==> t.lost)
    && (s.rx.Off? ==> t.rx.Off?) && (t.rx.Off? ==> s.rx.Off? || t.lost)
    && (CanGo(t) ==> CanGo(s) && !s.rx.Acking? && Held(t) == Held(s))
    && !s.rx.GotStatus? && !t.rx.GotStatus? && !t.rx.Acking?
    && BufferSafe(t)
  }

  lemma RxMovesControl(s: Sys, t: Sys)
    requires Inv(s) && RxMoves(s, t)
    ensures Control(t)
  {
  }

  lemma RxMovesWindow(s: Sys, t: Sys)
    requires Inv(s) && RxMoves(s, t)
    ensures Window(t)
  {
  }

  lemma RxMovesOneOutstanding(s: Sys, t: Sys)
    requires Inv(s) && RxMoves(s, t)
    ensures OneOutstanding(t)
  {
  }

  lemma RxMovesNoStartYet(s: Sys, t: Sys)
    requires Inv(s) && RxMoves(s, t)
    ensures NoStartYet(t)
  {
  }

  lemma RxMovesTasks(s: Sys, t: Sys)
    requires Inv(s) && RxMoves(s, t)
    ensures Tasks(t)
  {
    RxMovesControl(s, t);
    RxMovesWindow(s, t);
    RxMovesOneOutstanding(s, t);
    RxMovesNoStartYet(s, t);
  }

  lemma RxMovesHandover(s: Sys, t: Sys)
    requires Inv(s) && RxMoves(s, t)
    ensures Handover(t)
  {
  }

  lemma RxMovesOutbound(s: Sys, t: Sys)
    requires Inv(s) && RxMoves(s, t)
    ensures Outbound(t)
  {
  }

  lemma RxMovesInbound(s: Sys, t: Sys)
    requires Inv(s) && RxMoves(s, t)
    ensures Inbound(t)
  {
  }

  lemma RxMovesKeep(s: Sys, t: Sys)
    requires Inv(s) && RxMoves(s, t)
    ensures Inv(t)
  {
    RxMovesTasks(s, t);
    RxMovesHandover(s, t);
    RxMovesOutbound(s, t);
    RxMovesInbound(s, t);
  }

  lemma RxLookKeeps(s: Sys)
    requires Inv(s) && s.rx == Top
    ensures Inv(RxLook(s))
  {
    RxMovesKeep(s, RxLook(s));
  }

  lemma RxIdleKeeps(s: Sys)
    requires Inv(s) && s.rx.Reading?
    ensures Inv(RxIdle(s))
  {
    RxMovesKeep(s, RxIdle(s));
  }

  lemma RxErrorKeeps(s: Sys)
    requires Inv(s) && s.rx.Reading?
    ensures Inv(RxError(s))
  {
    RxMovesKeep(s, RxError(s));
  }

  lemma RxGiveKeeps(s: Sys)
    requires Inv(s) && s.rx == Giving
    ensures Inv(RxGive(s))
  {
    RxMovesKeep(s, RxGive(s));
  }

  lemma RefusedKeeps(s: Sys)
    requires Inv(s) && (s.rx.GotData? || s.rx.Checked?)
    ensures Inv(s.(rx := Dropping))
  {
    RxMovesKeep(s, s.(rx := Dropping));
  }

  lemma RunningKeeps(s: Sys)
    requires Inv(s) && s.rx.GotData? && s.machine.state == RpcReady
    ensures Inv(s.(rx := Checked(s.rx.bytes)))
  {
    RxMovesKeep(s, s.(rx := Checked(s.rx.bytes)));
  }

  lemma RoomKeeps(s: Sys)
    requires Inv(s) && s.rx.Checked? && |s.buffer| + |s.rx.bytes| <= BUFFER_BYTES
    ensures Inv(s.(rx := Storing(s.rx.bytes)))
  {
    RxMovesKeep(s, s.(rx := Storing(s.rx.bytes)));
  }

  lemma CheckCases(s: Sys)
    ensures s.rx.GotData? ==> RxCheckState(s) == s.(rx := if s.machine.state == RpcReady then Checked(s.rx.bytes) else Dropping)
    ensures s.rx.Checked? ==>
              RxCheckRoom(s) == s.(rx := if |s.buffer| + |s.rx.bytes| <= BUFFER_BYTES then Storing(s.rx.bytes) else Dropping)
  {
  }

  lemma RxCheckStateKeeps(s: Sys)
    requires Inv(s) && s.rx.GotData?
    ensures Inv(RxCheckState(s))
  {
    CheckCases(s);
    if s.machine.state == RpcReady {
      RunningKeeps(s);
    } else {
      RefusedKeeps(s);
    }
  }

  lemma RxCheckRoomKeeps(s: Sys)
    requires Inv(s) && s.rx.Checked?
    ensures Inv(RxCheckRoom(s))
  {
    CheckCases(s);
    if |s.buffer| + |s.rx.bytes| <= BUFFER_BYTES {
      RoomKeeps(s);
    } else {
      RefusedKeeps(s);
    }
  }

  lemma RxDropKeeps(s: Sys)
    requires Inv(s) && s.rx == Dropping
    ensures Inv(RxDrop(s))
  {
    RxMovesKeep(s, RxDrop(s));
  }

  /** LOST can be raised at any time: it only stops the rx task from taking in more. */
  lemma LoseLinkKeeps(s: Sys)
    requires Inv(s)
    ensures Inv(LoseLink(s))
  {
    LoseLinkTasks(s);
    LoseLinkHygiene(s);
    LoseLinkStartGranted(s);
    LoseLinkStopGranted(s);
    LoseLinkOutbound(s);
    LoseLinkInbound(s);
  }

  lemma LoseLinkTasks(s: Sys)
    requires Tasks(s)
    ensures Tasks(LoseLink(s))
  {
  }

  lemma LoseLinkHygiene(s: Sys)
    requires Hygiene(s)
    ensures Hygiene(LoseLink(s))
  {
  }

  lemma LoseLinkStartGranted(s: Sys)
    requires StartGranted(s)
    ensures StartGranted(LoseLink(s))
  {
  }

  lemma LoseLinkStopGranted(s: Sys)
    requires StopGranted(s)
    ensures StopGranted(LoseLink(s))
  {
  }

  lemma LoseLinkOutbound(s: Sys)
    requires Outbound(s)
    ensures Outbound(LoseLink(s))
  {
  }

  lemma LoseLinkInbound(s: Sys)
    requires Inbound(s)
    ensures Inbound(LoseLink(s))
  {
  }

  // ----- a frame is taken -----

  lemma RxFrameTasks(s: Sys)
    requires Inv(s) && s.rx.Reading? && s.down != []
    ensures Tasks(RxFrame(s))
  {
    GrantsAreStatuses(s.down[1..]);
  }

  lemma RxFrameHygiene(s: Sys)
    requires Inv(s) && s.rx.Reading? && s.down != []
    ensures Hygiene(RxFrame(s))
  {
    GrantsAreStatuses(s.down[1..]);
  }

  lemma RxFrameHandover(s: Sys)
    requires Inv(s) && s.rx.Reading? && s.down != []
    ensures Handover(RxFrame(s))
  {
    RxFrameHygiene(s);
    GrantsAreStatuses(s.down[1..]);
  }

  lemma RxFrameOutbound(s: Sys)
    requires Inv(s) && s.rx.Reading? && s.down != []
    ensures Outbound(RxFrame(s))
  {
    GrantsAreStatuses(s.down[1..]);
  }

  lemma RxFrameBufferSafe(s: Sys)
    requires Inv(s) && s.rx.Reading? && s.down != []
    ensures BufferSafe(RxFrame(s))
  {
    assert s.down[0].Data? ==> |s.down[0].bytes| <= P.MAX_DATA;
  }

  lemma RxFrameFlight(s: Sys)
    requires s.rx.Reading? && s.down != []
    ensures Flight(RxFrame(s)) == Flight(s)
  {
    assert [] + Payload(s.down) == Payload(s.down);
    assert [] + Payload(s.down[1..]) == Payload(s.down[1..]);
  }

  lemma RxFrameInbound(s: Sys)
    requires Inv(s) && s.rx.Reading? && s.down != []
    ensures Inbound(RxFrame(s))
  {
    RxFrameBufferSafe(s);
    RxFrameFlight(s);
  }

  lemma RxFrameKeeps(s: Sys)
    requires Inv(s) && s.rx.Reading? && s.down != []
    ensures Inv(RxFrame(s))
  {
    RxFrameTasks(s);
    RxFrameHandover(s);
    RxFrameOutbound(s);
    RxFrameInbound(s);
  }

  // ----- a status is recorded -----

  function Recorded(s: Sys): Sys
    requires s.rx.GotStatus?
  {
    s.(rx := Giving, last := s.rx.code, recorded := Some(s.rx.code), settled := s.settled || !s.client.Sending?)
  }

  lemma RecordedTasks(s: Sys)
    requires Inv(s) && s.rx.GotStatus? && s.awaiting
    ensures Tasks(Recorded(s))
  {
  }

  lemma RecordedHygiene(s: Sys)
    requires Inv(s) && s.rx.GotStatus? && s.awaiting
    ensures Hygiene(Recorded(s))
  {
  }

  lemma RecordedStartGranted(s: Sys)
    requires Inv(s) && s.rx.GotStatus? && s.awaiting
    ensures StartGranted(Recorded(s))
  {
  }

  lemma RecordedStopGranted(s: Sys)
    requires Inv(s) && s.rx.GotStatus? && s.awaiting
    ensures StopGranted(Recorded(s))
  {
  }

  lemma RecordedOutbound(s: Sys)
    requires Inv(s) && s.rx.GotStatus? && s.awaiting
    ensures Outbound(Recorded(s))
  {
  }

  lemma RecordedInbound(s: Sys)
    requires Inv(s) && s.rx.GotStatus? && s.awaiting
    ensures Inbound(Recorded(s))
  {
  }

  lemma UnsolicitedTasks(s: Sys)
    requires Inv(s) && s.rx.GotStatus? && !s.awaiting
    ensures Tasks(s.(rx := Dropping))
  {
  }

  lemma UnsolicitedKeeps(s: Sys)
    requires Inv(s) && s.rx.GotStatus? && !s.awaiting
    ensures Inv(s.(rx := Dropping))
  {
    UnsolicitedTasks(s);
  }

  lemma RecordCases(s: Sys)
    requires s.rx.GotStatus?
    ensures RxRecord(s) == if s.awaiting then Recorded(s) else s.(rx := Dropping)
  {
  }

  lemma RecordedKeeps(s: Sys)
    requires Inv(s) && s.rx.GotStatus? && s.awaiting
    ensures Inv(Recorded(s))
  {
    RecordedTasks(s);
    RecordedHygiene(s);
    RecordedStartGranted(s);
    RecordedStopGranted(s);
    RecordedOutbound(s);
    RecordedInbound(s);
  }

  lemma RxRecordKeeps(s: Sys)
    requires Inv(s) && s.rx.GotStatus?
    ensures Inv(RxRecord(s))
  {
    RecordCases(s);
    if s.awaiting {
      RecordedKeeps(s);
    } else {
      UnsolicitedKeeps(s);
    }
  }

  // ----- data is stored and acknowledged -----

  /** There was room when it was checked, and the only other user of the buffer makes room: the
      stream buffer takes the whole frame. */
  lemma StoreIsComplete(s: Sys)
    requires Inv(s) && s.rx.Storing?
    ensures RxStore(s) == s.(buffer := s.buffer + s.rx.bytes, enqueued := s.enqueued + s.rx.bytes, rx := Acking(s.rx.bytes))
  {
    assert s.rx.bytes[..|s.rx.bytes|] == s.rx.bytes;
  }

  lemma RxStoreTasks(s: Sys)
    requires Inv(s) && s.rx.Storing?
    ensures Tasks(RxStore(s))
  {
    StoreIsComplete(s);
  }

  lemma RxStoreHandover(s: Sys)
    requires Inv(s) && s.rx.Storing?
    ensures Handover(RxStore(s))
  {
    StoreIsComplete(s);
  }

  lemma RxStoreOutbound(s: Sys)
    requires Inv(s) && s.rx.Storing?
    ensures Outbound(RxStore(s))
  {
    StoreIsComplete(s);
  }

  lemma RxStoreBufferSafe(s: Sys)
    requires Inv(s) && s.rx.Storing?
    ensures BufferSafe(RxStore(s))
  {
    StoreIsComplete(s);
  }

  lemma Shift(delivered: seq<Byte>, buffer: seq<Byte>, bytes: seq<Byte>, later: seq<Byte>)
    ensures delivered + (buffer + bytes) == delivered + buffer + bytes
    ensures delivered + buffer + (bytes + later) == delivered + buffer + bytes + ([] + later)
  {
  }

  lemma RxStoreInbound(s: Sys)
    requires Inv(s) && s.rx.Storing?
    ensures Inbound(RxStore(s))
  {
    StoreIsComplete(s);
    RxStoreBufferSafe(s);
    var t := RxStore(s);
    if HasSession(s.client) {
      assert Current(s) && CanGo(s) && !s.purged && s.enqueued == s.credited;
      Shift(s.delivered, s.buffer, s.rx.bytes, Payload(s.down));
      assert Flight(t) == [] + Payload(s.down);
      assert t.enqueued == t.delivered + t.buffer;
      assert t.offered == t.enqueued + Flight(t);
    }
  }

  lemma RxStoreKeeps(s: Sys)
    requires Inv(s) && s.rx.Storing?
    ensures Inv(RxStore(s))
  {
    RxStoreTasks(s);
    RxStoreHandover(s);
    RxStoreOutbound(s);
    RxStoreInbound(s);
  }

  lemma RxAckedTasks(s: Sys, ok: bool)
    requires Inv(s) && s.rx.Acking?
    ensures Tasks(RxAck(s, true, ok))
  {
  }

  lemma RxAckedHandover(s: Sys, ok: bool)
    requires Inv(s) && s.rx.Acking?
    ensures Handover(RxAck(s, true, ok))
  {
  }

  lemma RxAckedOutbound(s: Sys, ok: bool)
    requires Inv(s) && s.rx.Acking?
    ensures Outbound(RxAck(s, true, ok))
  {
  }

  lemma RxAckedInbound(s: Sys, ok: bool)
    requires Inv(s) && s.rx.Acking?
    ensures Inbound(RxAck(s, true, ok))
  {
  }

  lemma RxAckKeeps(s: Sys, written: bool, ok: bool)
    requires Inv(s) && s.rx.Acking? && (ok ==> written)
    ensures Inv(RxAck(s, written, ok))
  {
    if written {
      RxAckedTasks(s, ok);
      RxAckedHandover(s, ok);
      RxAckedOutbound(s, ok);
      RxAckedInbound(s, ok);
    } else {
      RxMovesKeep(s, RxAck(s, false, false));
    }
  }
}
