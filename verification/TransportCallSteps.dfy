/** The steps of send_wait_status and the state machine events of a session keep the invariant.
    Each step is proved part by part of the invariant. */
module TransportCallSteps {
  import opened Bytes
  import opened ExpansionStateMachine
  import opened ExpansionTransport
  import opened TransportInvariant
  import TransportClientSteps

  function BeginAccepted(s: Sys): Sys {
    s.(machine := Machine(StartingRpc, s.machine.attempts), client := Draining(StartRpc), clientEpoch := s.epoch)
  }

  lemma BeginAcceptedTasks(s: Sys)
    requires Inv(s) && s.client == Beginning && s.machine.state == Ready
    ensures Tasks(BeginAccepted(s))
  {
  }

  lemma BeginAcceptedHandover(s: Sys)
    requires Inv(s) && s.client == Beginning && s.machine.state == Ready
    ensures Handover(BeginAccepted(s))
  {
  }

  lemma BeginAcceptedOutbound(s: Sys)
    requires Inv(s) && s.client == Beginning && s.machine.state == Ready
    ensures Outbound(BeginAccepted(s))
  {
  }

  lemma BeginAcceptedInbound(s: Sys)
    requires Inv(s) && s.client == Beginning && s.machine.state == Ready
    ensures Inbound(BeginAccepted(s))
  {
  }

  lemma BeginAcceptedKeeps(s: Sys)
    requires Inv(s) && s.client == Beginning && s.machine.state == Ready
    ensures Inv(BeginAccepted(s))
  {
    BeginAcceptedTasks(s);
    BeginAcceptedHandover(s);
    BeginAcceptedOutbound(s);
    BeginAcceptedInbound(s);
  }

  lemma BeginRefusedKeeps(s: Sys)
    requires Inv(s) && s.client == Beginning && s.machine.state != Ready
    ensures Inv(s.(client := Managing))
  {
    TransportClientSteps.RetiresKeeps(s, s.(client := Managing));
  }

  lemma BeginCases(s: Sys)
    requires s.client == Beginning
    ensures ApplyBegin(s) == if s.machine.state == Ready then BeginAccepted(s) else s.(client := Managing)
  {
  }

  lemma ApplyBeginKeeps(s: Sys)
    requires Inv(s) && s.client == Beginning
    ensures Inv(ApplyBegin(s))
  {
    BeginCases(s);
    if s.machine.state == Ready {
      BeginAcceptedKeeps(s);
    } else {
      BeginRefusedKeeps(s);
    }
  }

  lemma ArmTasks(s: Sys)
    requires Inv(s) && s.client.Arming?
    ensures Tasks(Arm(s))
  {
  }

  lemma ArmHandover(s: Sys)
    requires Inv(s) && s.client.Arming?
    ensures Handover(Arm(s))
  {
  }

  lemma ArmOutbound(s: Sys)
    requires Inv(s) && s.client.Arming?
    ensures Outbound(Arm(s))
  {
  }

  lemma ArmInbound(s: Sys)
    requires Inv(s) && s.client.Arming?
    ensures Inbound(Arm(s))
  {
  }

  lemma ArmKeeps(s: Sys)
    requires Inv(s) && s.client.Arming?
    ensures Inv(Arm(s))
  {
    ArmTasks(s);
    ArmHandover(s);
    ArmOutbound(s);
    ArmInbound(s);
  }

  function Tried(s: Sys, r: Request): seq<Byte> {
    if r.SendData? then r.chunk else s.tried
  }

  /** Nothing was written. */
  function SendFailed(s: Sys, r: Request): Sys {
    s.(client := Collecting(r, false), tried := Tried(s, r), settled := false)
  }

  /** The frame went out, whatever send_frame reports. */
  function SendWritten(s: Sys, r: Request, c: Client): Sys {
    s.(client := c, up := s.up + [Ask(r)], startSent := s.startSent || r == StartRpc,
       latest := s.latest && r != StartRpc, tried := Tried(s, r),
       wired := if r.SendData? then s.wired + r.chunk else s.wired, settled := false)
  }

  lemma SendFailedControl(s: Sys, r: Request)
    requires Inv(s) && s.client == Sending(r)
    ensures Control(SendFailed(s, r))
  {
  }

  lemma SendFailedWindow(s: Sys, r: Request)
    requires Inv(s) && s.client == Sending(r)
    ensures Window(SendFailed(s, r))
  {
  }

  lemma SendFailedOneOutstanding(s: Sys, r: Request)
    requires Inv(s) && s.client == Sending(r)
    ensures OneOutstanding(SendFailed(s, r))
  {
  }

  lemma SendFailedNoStartYet(s: Sys, r: Request)
    requires Inv(s) && s.client == Sending(r)
    ensures NoStartYet(SendFailed(s, r))
  {
  }

  lemma SendFailedTasks(s: Sys, r: Request)
    requires Inv(s) && s.client == Sending(r)
    ensures Tasks(SendFailed(s, r))
  {
    SendFailedControl(s, r);
    SendFailedWindow(s, r);
    SendFailedOneOutstanding(s, r);
    SendFailedNoStartYet(s, r);
  }

  lemma SendFailedHandover(s: Sys, r: Request)
    requires Inv(s) && s.client == Sending(r)
    ensures Handover(SendFailed(s, r))
  {
    GrantsAreStatuses(s.down);
  }

  lemma SendFailedOutbound(s: Sys, r: Request)
    requires Inv(s) && s.client == Sending(r)
    ensures Outbound(SendFailed(s, r))
  {
    GrantsAreStatuses(s.down);
  }

  lemma SendFailedInbound(s: Sys, r: Request)
    requires Inv(s) && s.client == Sending(r)
    ensures Inbound(SendFailed(s, r))
  {
  }

  lemma SendWrittenOneOutstanding(s: Sys, r: Request, c: Client)
    requires Tasks(s) && s.client == Sending(r) && (c == Waiting(r) || c == Collecting(r, false))
    ensures OneOutstanding(SendWritten(s, r, c))
  {
    UpAppend(s.up, Ask(r));
  }

  lemma SendWrittenNoStartYet(s: Sys, r: Request, c: Client)
    requires Tasks(s) && s.client == Sending(r) && (c == Waiting(r) || c == Collecting(r, false))
    ensures NoStartYet(SendWritten(s, r, c))
  {
    UpAppend(s.up, Ask(r));
  }

  lemma SendWrittenControl(s: Sys, r: Request, c: Client)
    requires Tasks(s) && s.client == Sending(r) && (c == Waiting(r) || c == Collecting(r, false))
    ensures Control(SendWritten(s, r, c)) && Window(SendWritten(s, r, c))
  {
  }

  lemma SendWrittenTasks(s: Sys, r: Request, c: Client)
    requires Inv(s) && s.client == Sending(r) && (c == Waiting(r) || c == Collecting(r, false))
    ensures Tasks(SendWritten(s, r, c))
  {
    SendWrittenControl(s, r, c);
    SendWrittenOneOutstanding(s, r, c);
    SendWrittenNoStartYet(s, r, c);
  }

  lemma SendWrittenHygiene(s: Sys, r: Request, c: Client)
    requires Inv(s) && s.client == Sending(r) && (c == Waiting(r) || c == Collecting(r, false))
    ensures Hygiene(SendWritten(s, r, c))
  {
    UpAppend(s.up, Ask(r));
    GrantsAreStatuses(s.down);
  }

  lemma SendWrittenStartGranted(s: Sys, r: Request, c: Client)
    requires Inv(s) && s.client == Sending(r) && (c == Waiting(r) || c == Collecting(r, false))
    ensures StartGranted(SendWritten(s, r, c))
  {
    UpAppend(s.up, Ask(r));
    GrantsAreStatuses(s.down);
  }

  lemma SendWrittenStopGranted(s: Sys, r: Request, c: Client)
    requires Inv(s) && s.client == Sending(r) && (c == Waiting(r) || c == Collecting(r, false))
    ensures StopGranted(SendWritten(s, r, c))
  {
    UpAppend(s.up, Ask(r));
    GrantsAreStatuses(s.down);
    assert s.up == [] ==> s.up + [Ask(r)] == [Ask(r)];
  }

  lemma SendChunkStopAndWait(s: Sys, r: Request, c: Client)
    requires Inv(s) && s.client == Sending(r) && (c == Waiting(r) || c == Collecting(r, false)) && r.SendData?
    ensures StopAndWait(SendWritten(s, r, c))
  {
    UpAppend(s.up, Ask(r));
    FrontIsNext(s.submitted, s.acked, r.chunk, s.rest);
    assert [] + ChunkOf(Ask(r)) == [r.chunk];
  }

  lemma FrontIsNext(submitted: seq<Byte>, acked: seq<Byte>, chunk: seq<Byte>, rest: seq<Byte>)
    requires submitted == acked + rest && chunk <= rest
    ensures acked + chunk <= submitted
  {
    assert rest == chunk + rest[|chunk|..];
    Regroup(acked, chunk, rest[|chunk|..]);
  }

  lemma SendOtherStopAndWait(s: Sys, r: Request, c: Client)
    requires Inv(s) && s.client == Sending(r) && (c == Waiting(r) || c == Collecting(r, false)) && !r.SendData?
    ensures StopAndWait(SendWritten(s, r, c))
  {
    UpAppend(s.up, Ask(r));
    assert Chunks(s.up) + ChunkOf(Ask(r)) == Chunks(s.up);
  }

  lemma SendWrittenStopAndWait(s: Sys, r: Request, c: Client)
    requires Inv(s) && s.client == Sending(r) && (c == Waiting(r) || c == Collecting(r, false))
    ensures StopAndWait(SendWritten(s, r, c))
  {
    if r.SendData? {
      SendChunkStopAndWait(s, r, c);
    } else {
      SendOtherStopAndWait(s, r, c);
    }
  }

  lemma SendWrittenAttribution(s: Sys, r: Request, c: Client)
    requires Inv(s) && s.client == Sending(r) && (c == Waiting(r) || c == Collecting(r, false))
    ensures Attribution(SendWritten(s, r, c))
  {
    UpAppend(s.up, Ask(r));
    GrantsAreStatuses(s.down);
    assert s.up == [] ==> s.up + [Ask(r)] == [Ask(r)];
  }

  lemma SendWrittenOutbound(s: Sys, r: Request, c: Client)
    requires Inv(s) && s.client == Sending(r) && (c == Waiting(r) || c == Collecting(r, false))
    ensures Outbound(SendWritten(s, r, c))
  {
    SendWrittenStopAndWait(s, r, c);
    SendWrittenAttribution(s, r, c);
  }

  lemma SendWrittenInbound(s: Sys, r: Request, c: Client)
    requires Inv(s) && s.client == Sending(r) && (c == Waiting(r) || c == Collecting(r, false))
    ensures Inbound(SendWritten(s, r, c))
  {
  }

  lemma SendFailedKeeps(s: Sys, r: Request)
    requires Inv(s) && s.client == Sending(r)
    ensures Inv(SendFailed(s, r))
  {
    SendFailedTasks(s, r);
    SendFailedHandover(s, r);
    SendFailedOutbound(s, r);
    SendFailedInbound(s, r);
  }

  lemma SendWrittenKeeps(s: Sys, r: Request, c: Client)
    requires Inv(s) && s.client == Sending(r) && (c == Waiting(r) || c == Collecting(r, false))
    ensures Inv(SendWritten(s, r, c))
  {
    SendWrittenTasks(s, r, c);
    SendWrittenHygiene(s, r, c);
    SendWrittenStartGranted(s, r, c);
    SendWrittenStopGranted(s, r, c);
    SendWrittenOutbound(s, r, c);
    SendWrittenInbound(s, r, c);
  }

  lemma SendCases(s: Sys, written: bool, ok: bool, r: Request)
    requires s.client == Sending(r) && (ok ==> written)
    ensures Send(s, written, ok) ==
            if written then SendWritten(s, r, if ok then Waiting(r) else Collecting(r, false)) else SendFailed(s, r)
  {
  }

  lemma SendKeeps(s: Sys, written: bool, ok: bool)
    requires Inv(s) && s.client.Sending? && (ok ==> written)
    ensures Inv(Send(s, written, ok))
  {
    var r := s.client.request;
    SendCases(s, written, ok, r);
    if written {
      SendWrittenKeeps(s, r, if ok then Waiting(r) else Collecting(r, false));
    } else {
      SendFailedKeeps(s, r);
    }
  }

  function CollectFailed(s: Sys): Sys
    requires s.client.Collecting?
  {
    s.(awaiting := false, client := Failing(s.client.request))
  }

  function CollectStop(s: Sys): Sys { s.(awaiting := false, client := Stopping) }

  function CollectStart(s: Sys): Sys { s.(awaiting := false, client := Starting) }

  function CollectData(s: Sys, chunk: seq<Byte>): Sys
    requires |chunk| <= |s.rest|
  {
    s.(awaiting := false, client := Submitting, acked := s.acked + chunk, tried := [], rest := s.rest[|chunk|..])
  }

  lemma CollectFailedTasks(s: Sys)
    requires Inv(s) && s.client.Collecting?
    ensures Tasks(CollectFailed(s))
  {
  }

  lemma CollectFailedHygiene(s: Sys)
    requires Inv(s) && s.client.Collecting?
    ensures Hygiene(CollectFailed(s))
  {
  }

  lemma CollectFailedStartGranted(s: Sys)
    requires Inv(s) && s.client.Collecting?
    ensures StartGranted(CollectFailed(s))
  {
  }

  lemma CollectFailedStopGranted(s: Sys)
    requires Inv(s) && s.client.Collecting?
    ensures StopGranted(CollectFailed(s))
  {
  }

  lemma CollectFailedHandover(s: Sys)
    requires Inv(s) && s.client.Collecting?
    ensures Handover(CollectFailed(s))
  {
    CollectFailedHygiene(s);
    CollectFailedStartGranted(s);
    CollectFailedStopGranted(s);
  }

  lemma CollectFailedOutbound(s: Sys)
    requires Inv(s) && s.client.Collecting?
    ensures Outbound(CollectFailed(s))
  {
  }

  lemma CollectFailedInbound(s: Sys)
    requires Inv(s) && s.client.Collecting?
    ensures Inbound(CollectFailed(s))
  {
  }

  lemma CollectStartTasks(s: Sys)
    requires Inv(s) && s.client.Collecting? && Succeeded(s) && s.client.request == StartRpc
    ensures Tasks(CollectStart(s))
  {
  }

  lemma CollectStartHandover(s: Sys)
    requires Inv(s) && s.client.Collecting? && Succeeded(s) && s.client.request == StartRpc
    ensures Handover(CollectStart(s))
  {
  }

  lemma CollectStartOutbound(s: Sys)
    requires Inv(s) && s.client.Collecting? && Succeeded(s) && s.client.request == StartRpc
    ensures Outbound(CollectStart(s))
  {
  }

  lemma CollectStartInbound(s: Sys)
    requires Inv(s) && s.client.Collecting? && Succeeded(s) && s.client.request == StartRpc
    ensures Inbound(CollectStart(s))
  {
  }

  lemma CollectStopTasks(s: Sys)
    requires Inv(s) && s.client.Collecting? && Succeeded(s) && s.client.request == StopRpc
    ensures Tasks(CollectStop(s))
  {
  }

  lemma CollectStopHandover(s: Sys)
    requires Inv(s) && s.client.Collecting? && Succeeded(s) && s.client.request == StopRpc
    ensures Handover(CollectStop(s))
  {
  }

  lemma CollectStopOutbound(s: Sys)
    requires Inv(s) && s.client.Collecting? && Succeeded(s) && s.client.request == StopRpc
    ensures Outbound(CollectStop(s))
  {
  }

  lemma CollectStopInbound(s: Sys)
    requires Inv(s) && s.client.Collecting? && Succeeded(s) && s.client.request == StopRpc
    ensures Inbound(CollectStop(s))
  {
  }

  lemma CollectDataTasks(s: Sys, chunk: seq<Byte>)
    requires Inv(s) && s.client.Collecting? && Succeeded(s) && s.client.request == SendData(chunk)
    ensures Tasks(CollectData(s, chunk))
  {
  }

  lemma CollectDataHandover(s: Sys, chunk: seq<Byte>)
    requires Inv(s) && s.client.Collecting? && Succeeded(s) && s.client.request == SendData(chunk)
    ensures Handover(CollectData(s, chunk))
  {
  }

  lemma CollectDataOutbound(s: Sys, chunk: seq<Byte>)
    requires Inv(s) && s.client.Collecting? && Succeeded(s) && s.client.request == SendData(chunk)
    ensures Outbound(CollectData(s, chunk))
  {
    assert s.rest == chunk + s.rest[|chunk|..];
    assert s.acked + chunk + [] == s.acked + chunk;
    assert s.acked + (chunk + s.rest[|chunk|..]) == s.acked + chunk + s.rest[|chunk|..];
  }

  lemma CollectDataInbound(s: Sys, chunk: seq<Byte>)
    requires Inv(s) && s.client.Collecting? && Succeeded(s) && s.client.request == SendData(chunk)
    ensures Inbound(CollectData(s, chunk))
  {
  }

  lemma CollectFailedKeeps(s: Sys)
    requires Inv(s) && s.client.Collecting?
    ensures Inv(CollectFailed(s))
  {
    CollectFailedTasks(s);
    CollectFailedHandover(s);
    CollectFailedOutbound(s);
    CollectFailedInbound(s);
  }

  lemma CollectStartKeeps(s: Sys)
    requires Inv(s) && s.client.Collecting? && Succeeded(s) && s.client.request == StartRpc
    ensures Inv(CollectStart(s))
  {
    CollectStartTasks(s);
    CollectStartHandover(s);
    CollectStartOutbound(s);
    CollectStartInbound(s);
  }

  lemma CollectStopKeeps(s: Sys)
    requires Inv(s) && s.client.Collecting? && Succeeded(s) && s.client.request == StopRpc
    ensures Inv(CollectStop(s))
  {
    CollectStopTasks(s);
    CollectStopHandover(s);
    CollectStopOutbound(s);
    CollectStopInbound(s);
  }

  lemma CollectDataKeeps(s: Sys, chunk: seq<Byte>)
    requires Inv(s) && s.client.Collecting? && Succeeded(s) && s.client.request == SendData(chunk)
    ensures |chunk| <= |s.rest| && Inv(CollectData(s, chunk))
  {
    CollectDataTasks(s, chunk);
    CollectDataHandover(s, chunk);
    CollectDataOutbound(s, chunk);
    CollectDataInbound(s, chunk);
  }

  lemma CollectCases(s: Sys)
    requires s.client.Collecting?
    ensures !Succeeded(s) ==> Collect(s) == CollectFailed(s)
    ensures Succeeded(s) && s.client.request.StartRpc? ==> Collect(s) == CollectStart(s)
    ensures Succeeded(s) && s.client.request.StopRpc? ==> Collect(s) == CollectStop(s)
    ensures Succeeded(s) && s.client.request.SendData? && |s.client.request.chunk| <= |s.rest| ==>
              Collect(s) == CollectData(s, s.client.request.chunk)
  {
  }

  lemma CollectKeeps(s: Sys)
    requires Inv(s) && s.client.Collecting?
    ensures Inv(Collect(s))
  {
    CollectCases(s);
    if !Succeeded(s) {
      CollectFailedKeeps(s);
    } else {
      match s.client.request
      case StartRpc => CollectStartKeeps(s);
      case StopRpc => CollectStopKeeps(s);
      case SendData(chunk) => CollectDataKeeps(s, chunk);
    }
  }

  function StartedAccepted(s: Sys): Sys {
    s.(machine := Machine(RpcReady, s.machine.attempts), client := Begun, rest := [], latest := true,
       source := RawBytes(s.raw), submitted := [], wired := [], acked := [], tried := [], enqueued := [], credited := [],
       delivered := [], purged := false)
  }

  function StartedRefused(s: Sys): Sys { s.(client := Failing(StartRpc)) }

  lemma StartedAcceptedTasks(s: Sys)
    requires Inv(s) && s.client == Starting && s.machine.state == StartingRpc
    ensures Tasks(StartedAccepted(s))
  {
  }

  lemma StartedAcceptedHandover(s: Sys)
    requires Inv(s) && s.client == Starting && s.machine.state == StartingRpc
    ensures Handover(StartedAccepted(s))
  {
  }

  lemma StartedAcceptedOutbound(s: Sys)
    requires Inv(s) && s.client == Starting && s.machine.state == StartingRpc
    ensures Outbound(StartedAccepted(s))
  {
    ChunksAreSessionRequests(s.up);
  }

  lemma StartedAcceptedInbound(s: Sys)
    requires Inv(s) && s.client == Starting && s.machine.state == StartingRpc
    ensures Inbound(StartedAccepted(s))
  {
  }

  lemma StartedRefusedTasks(s: Sys)
    requires Inv(s) && s.client == Starting && s.machine.state != StartingRpc
    ensures Tasks(StartedRefused(s))
  {
  }

  lemma StartedRefusedHandover(s: Sys)
    requires Inv(s) && s.client == Starting && s.machine.state != StartingRpc
    ensures Handover(StartedRefused(s))
  {
  }

  lemma StartedRefusedOutbound(s: Sys)
    requires Inv(s) && s.client == Starting && s.machine.state != StartingRpc
    ensures Outbound(StartedRefused(s))
  {
  }

  lemma StartedRefusedInbound(s: Sys)
    requires Inv(s) && s.client == Starting && s.machine.state != StartingRpc
    ensures Inbound(StartedRefused(s))
  {
  }

  lemma ApplyStartedKeeps(s: Sys)
    requires Inv(s) && s.client == Starting
    ensures Inv(ApplyStarted(s))
  {
    if s.machine.state == StartingRpc {
      assert ApplyStarted(s) == StartedAccepted(s);
      StartedAcceptedTasks(s);
      StartedAcceptedHandover(s);
      StartedAcceptedOutbound(s);
      StartedAcceptedInbound(s);
    } else {
      assert ApplyStarted(s) == StartedRefused(s);
      StartedRefusedTasks(s);
      StartedRefusedHandover(s);
      StartedRefusedOutbound(s);
      StartedRefusedInbound(s);
    }
  }

  lemma FailDataTasks(s: Sys)
    requires Inv(s) && s.client.Failing? && s.client.request.SendData?
    ensures Tasks(s.(lost := true, client := Joining))
  {
  }

  lemma FailDataHandover(s: Sys)
    requires Inv(s) && s.client.Failing? && s.client.request.SendData?
    ensures Handover(s.(lost := true, client := Joining))
  {
  }

  lemma FailDataKeeps(s: Sys)
    requires Inv(s) && s.client.Failing? && s.client.request.SendData?
    ensures Inv(s.(lost := true, client := Joining))
  {
    FailDataTasks(s);
    FailDataHandover(s);
  }

  lemma FailCases(s: Sys)
    requires s.client.Failing?
    ensures Fail(s) == s.(lost := true, client := if s.client.request.StartRpc? then Managing
                                                  else if s.client.request.StopRpc? then Leaving else Joining)
  {
  }

  lemma FailKeeps(s: Sys)
    requires Inv(s) && s.client.Failing?
    ensures Inv(Fail(s))
  {
    FailCases(s);
    if s.client.request.SendData? {
      FailDataKeeps(s);
    } else {
      TransportClientSteps.RetiresKeeps(s, Fail(s));
    }
  }

  function EndAccepted(s: Sys): Sys {
    s.(machine := Machine(StoppingRpc, s.machine.attempts), client := Draining(StopRpc))
  }

  lemma EndAcceptedTasks(s: Sys)
    requires Inv(s) && s.client == Ending && s.machine.state == RpcReady
    ensures Tasks(EndAccepted(s))
  {
  }

  lemma EndAcceptedHandover(s: Sys)
    requires Inv(s) && s.client == Ending && s.machine.state == RpcReady
    ensures Handover(EndAccepted(s))
  {
  }

  lemma EndAcceptedOutbound(s: Sys)
    requires Inv(s) && s.client == Ending && s.machine.state == RpcReady
    ensures Outbound(EndAccepted(s))
  {
  }

  lemma EndAcceptedInbound(s: Sys)
    requires Inv(s) && s.client == Ending && s.machine.state == RpcReady
    ensures Inbound(EndAccepted(s))
  {
  }

  lemma EndCases(s: Sys)
    requires s.client == Ending
    ensures ApplyEnd(s) == if s.machine.state == RpcReady then EndAccepted(s) else s.(client := Leaving)
  {
  }

  lemma ApplyEndKeeps(s: Sys)
    requires Inv(s) && s.client == Ending
    ensures Inv(ApplyEnd(s))
  {
    EndCases(s);
    if s.machine.state == RpcReady {
      EndAcceptedTasks(s);
      EndAcceptedHandover(s);
      EndAcceptedOutbound(s);
      EndAcceptedInbound(s);
    } else {
      TransportClientSteps.RetiresKeeps(s, s.(client := Leaving));
    }
  }

  function StoppedAccepted(s: Sys): Sys {
    s.(machine := Machine(Ready, s.machine.attempts), client := Clearing)
  }

  function StoppedRefused(s: Sys): Sys { s.(client := Failing(StopRpc)) }

  lemma StoppedAcceptedTasks(s: Sys)
    requires Inv(s) && s.client == Stopping && s.machine.state == StoppingRpc
    ensures Tasks(StoppedAccepted(s))
  {
  }

  lemma StoppedAcceptedHandover(s: Sys)
    requires Inv(s) && s.client == Stopping && s.machine.state == StoppingRpc
    ensures Handover(StoppedAccepted(s))
  {
    GrantsAreStatuses(s.down);
  }

  lemma StoppedAcceptedOutbound(s: Sys)
    requires Inv(s) && s.client == Stopping && s.machine.state == StoppingRpc
    ensures Outbound(StoppedAccepted(s))
  {
  }

  lemma StoppedAcceptedInbound(s: Sys)
    requires Inv(s) && s.client == Stopping && s.machine.state == StoppingRpc
    ensures Inbound(StoppedAccepted(s))
  {
  }

  lemma StoppedRefusedTasks(s: Sys)
    requires Inv(s) && s.client == Stopping && s.machine.state != StoppingRpc
    ensures Tasks(StoppedRefused(s))
  {
  }

  lemma StoppedRefusedHandover(s: Sys)
    requires Inv(s) && s.client == Stopping && s.machine.state != StoppingRpc
    ensures Handover(StoppedRefused(s))
  {
  }

  lemma StoppedRefusedOutbound(s: Sys)
    requires Inv(s) && s.client == Stopping && s.machine.state != StoppingRpc
    ensures Outbound(StoppedRefused(s))
  {
  }

  lemma StoppedRefusedInbound(s: Sys)
    requires Inv(s) && s.client == Stopping && s.machine.state != StoppingRpc
    ensures Inbound(StoppedRefused(s))
  {
  }

  lemma ApplyStoppedKeeps(s: Sys)
    requires Inv(s) && s.client == Stopping
    ensures Inv(ApplyStopped(s))
  {
    if s.machine.state == StoppingRpc {
      assert ApplyStopped(s) == StoppedAccepted(s);
      StoppedAcceptedTasks(s);
      StoppedAcceptedHandover(s);
      StoppedAcceptedOutbound(s);
      StoppedAcceptedInbound(s);
    } else {
      assert ApplyStopped(s) == StoppedRefused(s);
      StoppedRefusedTasks(s);
      StoppedRefusedHandover(s);
      StoppedRefusedOutbound(s);
      StoppedRefusedInbound(s);
    }
  }

  lemma WriterTakeTasks(s: Sys, n: nat)
    requires Inv(s) && s.writer && 0 < n <= |s.buffer|
    ensures Tasks(WriterTake(s, n))
  {
  }

  lemma WriterTakeHandover(s: Sys, n: nat)
    requires Inv(s) && s.writer && 0 < n <= |s.buffer|
    ensures Handover(WriterTake(s, n))
  {
  }

  lemma WriterTakeOutbound(s: Sys, n: nat)
    requires Inv(s) && s.writer && 0 < n <= |s.buffer|
    ensures Outbound(WriterTake(s, n))
  {
  }

  lemma WriterTakeInbound(s: Sys, n: nat)
    requires Inv(s) && s.writer && 0 < n <= |s.buffer|
    ensures Inbound(WriterTake(s, n))
  {
    assert s.delivered + s.buffer[..n] + s.buffer[n..] == s.delivered + s.buffer;
  }

  lemma WriterTakeKeeps(s: Sys, n: nat)
    requires Inv(s) && s.writer && 0 < n <= |s.buffer|
    ensures Inv(WriterTake(s, n))
  {
    WriterTakeTasks(s, n);
    WriterTakeHandover(s, n);
    WriterTakeOutbound(s, n);
    WriterTakeInbound(s, n);
  }
}
