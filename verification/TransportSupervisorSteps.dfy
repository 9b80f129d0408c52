/** Every step of the supervisor task keeps the invariant. */
module TransportSupervisorSteps {
  import opened Bytes
  import opened ExpansionStateMachine
  import opened ExpansionTransport
  import opened TransportInvariant

  // ----- before the pulse: the link is closed, nothing is taken in -----

  lemma SupClearTasks(s: Sys)
    requires Inv(s) && s.sup == ClearBits
    ensures Tasks(SupClear(s))
  {
  }

  lemma SupClearKeeps(s: Sys)
    requires Inv(s) && s.sup == ClearBits
    ensures Inv(SupClear(s))
  {
    SupClearTasks(s);
  }

  lemma SupInitTasks(s: Sys)
    requires Inv(s) && s.sup == InitMachine
    ensures Tasks(SupInit(s))
  {
  }

  lemma SupInitKeeps(s: Sys)
    requires Inv(s) && s.sup == InitMachine
    ensures Inv(SupInit(s))
  {
    SupInitTasks(s);
  }

  lemma SupStartTasks(s: Sys)
    requires Inv(s) && s.sup == ApplyStart
    ensures Tasks(s.(machine := Machine(InitialUart, s.machine.attempts), sup := Pulse))
  {
  }

  lemma SupStartKeeps(s: Sys)
    requires Inv(s) && s.sup == ApplyStart
    ensures Inv(SupStart(s))
  {
    SupStartTasks(s);
    assert SupStart(s) == s.(machine := Machine(InitialUart, s.machine.attempts), sup := Pulse);
  }

  lemma SupPulseKeeps(s: Sys, answered: bool)
    requires Inv(s) && s.sup == Pulse
    ensures Inv(SupPulse(s, answered))
  {
  }

  // ----- negotiation: only the supervisor talks to the Flipper -----

  lemma SupAbortTasks(s: Sys)
    requires Inv(s) && (s.sup.Pulse? || s.sup.AwaitHeartbeat? || s.sup.AskRate? || s.sup.AwaitRate? || s.sup.SetUp?)
    ensures Tasks(SupAbort(s))
  {
  }

  lemma SupAbortHandover(s: Sys)
    requires Inv(s) && (s.sup.Pulse? || s.sup.AwaitHeartbeat? || s.sup.AskRate? || s.sup.AwaitRate? || s.sup.SetUp?)
    ensures Handover(SupAbort(s))
  {
  }

  lemma SupAbortKeeps(s: Sys)
    requires Inv(s) && (s.sup.Pulse? || s.sup.AwaitHeartbeat? || s.sup.AskRate? || s.sup.AwaitRate? || s.sup.SetUp?)
    ensures Inv(SupAbort(s))
  {
    SupAbortHandover(s);
    SupAbortTasks(s);
  }

  lemma SupHeartbeatCases(s: Sys)
    requires s.sup == AwaitHeartbeat && s.machine == Machine(InitialUart, 0)
    ensures SupHeartbeat(s) == s.(machine := Machine(NegotiatingBaud, 0), sup := AskRate)
  {
  }

  lemma SupHeartbeatTasks(s: Sys)
    requires Inv(s) && s.sup == AwaitHeartbeat && s.machine == Machine(InitialUart, 0)
    ensures Tasks(s.(machine := Machine(NegotiatingBaud, 0), sup := AskRate))
  {
  }

  lemma SupHeartbeatHandover(s: Sys)
    requires Inv(s) && s.sup == AwaitHeartbeat && s.machine == Machine(InitialUart, 0)
    ensures Handover(s.(machine := Machine(NegotiatingBaud, 0), sup := AskRate))
  {
  }

  lemma SupHeartbeatOutbound(s: Sys)
    requires Inv(s) && s.sup == AwaitHeartbeat && s.machine == Machine(InitialUart, 0)
    ensures Outbound(s.(machine := Machine(NegotiatingBaud, 0), sup := AskRate))
  {
  }

  lemma SupHeartbeatInbound(s: Sys)
    requires Inv(s) && s.sup == AwaitHeartbeat && s.machine == Machine(InitialUart, 0)
    ensures Inbound(s.(machine := Machine(NegotiatingBaud, 0), sup := AskRate))
  {
  }

  lemma SupHeartbeatKeeps(s: Sys)
    requires Inv(s) && s.sup == AwaitHeartbeat
    ensures Inv(SupHeartbeat(s))
  {
    SupHeartbeatCases(s);
    SupHeartbeatTasks(s);
    SupHeartbeatHandover(s);
    SupHeartbeatOutbound(s);
    SupHeartbeatInbound(s);
  }

  lemma SupAskBaudTasks(s: Sys)
    requires Inv(s) && s.sup == AskRate
    ensures Tasks(SupAskBaud(s))
  {
    UpAppend(s.up, AskBaud);
  }

  lemma SupAskBaudKeeps(s: Sys)
    requires Inv(s) && s.sup == AskRate
    ensures Inv(SupAskBaud(s))
  {
    SupAskBaudTasks(s);
    UpAppend(s.up, AskBaud);
  }

  lemma SupBaudReplyOneOutstanding(s: Sys, more: bool)
    requires Inv(s) && s.sup.AwaitRate? && s.down != []
    ensures OneOutstanding(SupBaudReply(s, more))
  {
  }

  lemma SupBaudReplyTasks(s: Sys, more: bool)
    requires Inv(s) && s.sup.AwaitRate? && s.down != []
    ensures Tasks(SupBaudReply(s, more))
  {
    SupBaudReplyOneOutstanding(s, more);
  }

  lemma SupBaudReplyHandover(s: Sys, more: bool)
    requires Inv(s) && s.sup.AwaitRate? && s.down != []
    ensures Handover(SupBaudReply(s, more))
  {
  }

  lemma SupBaudReplyKeeps(s: Sys, more: bool)
    requires Inv(s) && s.sup.AwaitRate? && s.down != []
    ensures Inv(SupBaudReply(s, more))
  {
    SupBaudReplyTasks(s, more);
    SupBaudReplyHandover(s, more);
  }

  lemma SupAcceptedCases(s: Sys)
    requires s.sup == RateAccepted && s.machine.state == NegotiatingBaud
    ensures SupAccepted(s) == s.(machine := Machine(Ready, 0), sup := SetUp)
  {
  }

  lemma SupAcceptedTasks(s: Sys)
    requires Inv(s) && s.sup == RateAccepted && s.machine.state == NegotiatingBaud
    ensures Tasks(s.(machine := Machine(Ready, 0), sup := SetUp))
  {
  }

  lemma SupAcceptedHandover(s: Sys)
    requires Inv(s) && s.sup == RateAccepted && s.machine.state == NegotiatingBaud
    ensures Handover(s.(machine := Machine(Ready, 0), sup := SetUp))
  {
  }

  lemma SupAcceptedOutbound(s: Sys)
    requires Inv(s) && s.sup == RateAccepted && s.machine.state == NegotiatingBaud
    ensures Outbound(s.(machine := Machine(Ready, 0), sup := SetUp))
  {
  }

  lemma SupAcceptedInbound(s: Sys)
    requires Inv(s) && s.sup == RateAccepted && s.machine.state == NegotiatingBaud
    ensures Inbound(s.(machine := Machine(Ready, 0), sup := SetUp))
  {
  }

  lemma SupAcceptedKeeps(s: Sys)
    requires Inv(s) && s.sup == RateAccepted
    ensures Inv(SupAccepted(s))
  {
    SupAcceptedCases(s);
    SupAcceptedTasks(s);
    SupAcceptedHandover(s);
    SupAcceptedOutbound(s);
    SupAcceptedInbound(s);
  }

  // ----- connected -----

  lemma SupSetUpTasks(s: Sys)
    requires Inv(s) && s.sup == SetUp
    ensures Tasks(SupSetUp(s))
  {
  }

  lemma SupSetUpKeeps(s: Sys)
    requires Inv(s) && s.sup == SetUp
    ensures Inv(SupSetUp(s))
  {
    SupSetUpTasks(s);
  }

  lemma SupResetTasks(s: Sys)
    requires Inv(s) && s.sup == ResetBuffer
    ensures Tasks(SupReset(s))
  {
  }

  lemma SupResetKeeps(s: Sys)
    requires Inv(s) && s.sup == ResetBuffer
    ensures Inv(SupReset(s))
  {
    SupResetTasks(s);
  }

  lemma SupSpawnTasks(s: Sys, rxCreated: bool, heartbeatCreated: bool)
    requires Inv(s) && s.sup == Spawn
    ensures Tasks(SupSpawn(s, rxCreated, heartbeatCreated))
  {
  }

  lemma SupSpawnKeeps(s: Sys, rxCreated: bool, heartbeatCreated: bool)
    requires Inv(s) && s.sup == Spawn
    ensures Inv(SupSpawn(s, rxCreated, heartbeatCreated))
  {
    SupSpawnTasks(s, rxCreated, heartbeatCreated);
  }

  lemma SupSeesLossTasks(s: Sys)
    requires Inv(s) && s.sup == Watch && s.lost
    ensures Tasks(SupSeesLoss(s))
  {
  }

  lemma SupSeesLossHandover(s: Sys)
    requires Inv(s) && s.sup == Watch && s.lost
    ensures Handover(SupSeesLoss(s))
  {
  }

  lemma SupSeesLossKeeps(s: Sys)
    requires Inv(s) && s.sup == Watch && s.lost
    ensures Inv(SupSeesLoss(s))
  {
    SupSeesLossTasks(s);
    SupSeesLossHandover(s);
  }

  lemma SupJoinedTasks(s: Sys)
    requires Inv(s) && s.sup == Join && s.rx == Off
    ensures Tasks(SupJoined(s))
  {
  }

  lemma SupJoinedKeeps(s: Sys)
    requires Inv(s) && s.sup == Join && s.rx == Off
    ensures Inv(SupJoined(s))
  {
    SupJoinedTasks(s);
  }

  /** The link was given up, or the attempt failed: in either case it is Backoff after the timeout. */
  lemma SupTimeoutTasks(s: Sys)
    requires Inv(s) && (s.sup.Expire? || s.sup.Abort?)
    ensures Tasks(SupTimeout(s))
  {
  }

  lemma SupTimeoutHandover(s: Sys)
    requires Inv(s) && (s.sup.Expire? || s.sup.Abort?)
    ensures Handover(SupTimeout(s))
  {
  }

  lemma SupTimeoutKeeps(s: Sys)
    requires Inv(s) && (s.sup.Expire? || s.sup.Abort?)
    ensures Inv(SupTimeout(s))
  {
    SupTimeoutHandover(s);
    SupTimeoutTasks(s);
  }
}
