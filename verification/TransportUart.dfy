/** The bytes on the UART against what the Flipper acts on: every request it takes is a frame the bridge
    wrote, in order, and every status the bridge writes answers something it received. */
module TransportUart {
  import opened Bytes
  import opened ExpansionStateMachine
  import opened ExpansionTransport
  import opened TransportInvariant
  import opened TransportRuns
  import opened TransportStreams
  import BridgeIo
  import FrameStreams
  import TransportReceive
  import P = ExpansionProtocol

  // ----- the Flipper's side of the protocol -----

  /** What the Flipper makes of a frame: Control 0 starts an RPC session, Control 1 stops it, Data and
      BaudRate ask for what they say, and Heartbeat and Status ask for nothing. */
  function Reads(f: P.Frame): seq<Up> {
    match f
    case Control(c) => if c == 0 then [Ask(StartRpc)] else if c == 1 then [Ask(StopRpc)] else []
    case Data(bytes) => [Ask(SendData(bytes))]
    case BaudRate(_) => [AskBaud]
    case Heartbeat => []
    case Status(_) => []
  }

  function ReadAll(fs: seq<P.Frame>): seq<Up> {
    if fs == [] then [] else ReadAll(fs[..|fs| - 1]) + Reads(fs[|fs| - 1])
  }

  /** The frames that ask for something. */
  function Requests(fs: seq<P.Frame>): seq<P.Frame> {
    if fs == [] then []
    else Requests(fs[..|fs| - 1]) + (if Reads(fs[|fs| - 1]) == [] then [] else [fs[|fs| - 1]])
  }

  /** The codes of the Status frames. */
  function StatusCodes(fs: seq<P.Frame>): seq<Byte> {
    if fs == [] then []
    else StatusCodes(fs[..|fs| - 1]) + (if fs[|fs| - 1].Status? then [fs[|fs| - 1].status] else [])
  }

  lemma {:induction false} ReadAllConcat(a: seq<P.Frame>, b: seq<P.Frame>)
    ensures ReadAll(a + b) == ReadAll(a) + ReadAll(b)
  {
    LastOfConcat(a, b);
    if b == [] {
      assert ReadAll(a) + [] == ReadAll(a);
    } else {
      var n := |b| - 1;
      ReadAllConcat(a, b[..n]);
      Regroup(ReadAll(a), ReadAll(b[..n]), Reads(b[n]));
    }
  }

  lemma {:induction false} StatusCodesConcat(a: seq<P.Frame>, b: seq<P.Frame>)
    ensures StatusCodes(a + b) == StatusCodes(a) + StatusCodes(b)
  {
    LastOfConcat(a, b);
    if b == [] {
      assert StatusCodes(a) + [] == StatusCodes(a);
    } else {
      var n := |b| - 1;
      StatusCodesConcat(a, b[..n]);
      Regroup(StatusCodes(a), StatusCodes(b[..n]), if b[n].Status? then [b[n].status] else []);
    }
  }

  lemma LastOfConcat<T>(a: seq<T>, b: seq<T>)
    ensures b == [] ==> a + b == a
    ensures b != [] ==> (a + b)[..|a + b| - 1] == a + b[..|b| - 1] && (a + b)[|a + b| - 1] == b[|b| - 1]
  {
  }

  lemma ReadsOne(f: P.Frame)
    ensures ReadAll([f]) == Reads(f) && StatusCodes([f]) == if f.Status? then [f.status] else []
  {
    assert [f][..0] == [];
    assert ReadAll([]) == [] && StatusCodes([]) == [];
  }

  lemma {:induction false} RequestsRead(fs: seq<P.Frame>, n: nat)
    requires n < |ReadAll(fs)|
    ensures |Requests(fs)| == |ReadAll(fs)| && Reads(Requests(fs)[n]) == [ReadAll(fs)[n]]
  {
    RequestsCount(fs);
    var m := |fs| - 1;
    if n < |ReadAll(fs[..m])| {
      RequestsRead(fs[..m], n);
    } else {
      RequestsCount(fs[..m]);
    }
  }

  lemma {:induction false} RequestsCount(fs: seq<P.Frame>)
    ensures |Requests(fs)| == |ReadAll(fs)|
  {
    if fs != [] {
      RequestsCount(fs[..|fs| - 1]);
    }
  }

  // ----- one step -----

  /** What the Flipper takes in a step. */
  function TakenIn(s: Sys, a: Move): seq<Up> {
    if a.OfPeer? && a.peer.APeerTake? && s.up != [] then [s.up[0]] else []
  }

  /** The codes of the statuses a step owes: 0 for data taken in, 1 for data there is no room for and
      for a malformed answer during the handshake. */
  function Owes(s: Sys, a: Move): seq<Byte> {
    match a
    case OfRx(ARxAck(written, _)) => if written then [0] else []
    case OfRx(ARxCheckRoom(told)) => if told && s.rx.Checked? && |s.buffer| + |s.rx.bytes| > BUFFER_BYTES then [1] else []
    case OfSupervisor(ASupAbort(malformed)) => if malformed then [1] else []
    case _ => []
  }

  predicate IsPulse(a: Move) {
    a.OfSupervisor? && a.supervisor.ASupPulse?
  }

  lemma OnePutReads(s: Sys, a: Move, f: P.Frame)
    requires Puts(s, a) == [f]
    ensures ReadAll(Puts(s, a)) == Reads(f) && StatusCodes(Puts(s, a)) == if f.Status? then [f.status] else []
  {
    ReadsOne(f);
  }

  lemma FrameOfReads(r: Request)
    ensures Reads(FrameOf(r)) == [Ask(r)]
  {
  }

  /** What is on its way to the Flipper, and what a step writes, is what it takes and what is left. */
  predicate Balances(s: Sys, a: Move, t: Sys) {
    s.up + ReadAll(Puts(s, a)) == TakenIn(s, a) + t.up
  }

  lemma SendUp(s: Sys, written: bool, ok: bool)
    requires s.client.Sending?
    ensures Send(s, written, ok).up == if written then s.up + [Ask(s.client.request)] else s.up
  {
  }

  lemma AddingBalances(s: Sys, a: Move, t: Sys, read: seq<Up>)
    requires ReadAll(Puts(s, a)) == read && TakenIn(s, a) == [] && t.up == s.up + read
    ensures Balances(s, a, t)
  {
  }

  lemma SendBalances(s: Sys, written: bool, ok: bool)
    requires s.client.Sending?
    ensures Balances(s, OfClient(ASend(written, ok)), Send(s, written, ok))
  {
    var a, r := OfClient(ASend(written, ok)), s.client.request;
    SendUp(s, written, ok);
    if written {
      OnePutReads(s, a, FrameOf(r));
      FrameOfReads(r);
      AddingBalances(s, a, Send(s, written, ok), [Ask(r)]);
    } else {
      QuietBalances(s, a, Send(s, written, ok));
    }
  }

  lemma QuietBalances(s: Sys, a: Move, t: Sys)
    requires ReadAll(Puts(s, a)) == [] && TakenIn(s, a) == [] && t.up == s.up
    ensures Balances(s, a, t)
  {
  }

  lemma ClientUp(s: Sys, a: ClientMove)
    requires ClientEnabled(s, a) && !a.ASend?
    ensures ClientNext(s, a).up == s.up
  {
    if a.ACollect? || a.AApplyStarted? {
    } else {
      OthersWriteNothing(s, a);
      assert LineOf(ClientNext(s, a)).up == LineOf(s).up;
    }
  }

  lemma ClientBalances(s: Sys, a: ClientMove)
    requires ClientEnabled(s, a)
    ensures Balances(s, OfClient(a), ClientNext(s, a))
  {
    if a.ASend? {
      SendBalances(s, a.written, a.ok);
    } else {
      ClientUp(s, a);
      QuietBalances(s, OfClient(a), ClientNext(s, a));
    }
  }

  lemma RxBalances(s: Sys, a: RxMove)
    requires RxEnabled(s, a)
    ensures Balances(s, OfRx(a), RxNext(s, a))
  {
    RxWritesNothing(s, a);
    assert LineOf(RxNext(s, a)).up == LineOf(s).up;
    if Puts(s, OfRx(a)) != [] {
      OnePutReads(s, OfRx(a), Puts(s, OfRx(a))[0]);
    }
    QuietBalances(s, OfRx(a), RxNext(s, a));
  }

  lemma SupervisorBalances(s: Sys, a: SupervisorMove)
    requires SupervisorEnabled(s, a) && !a.ASupPulse?
    ensures Balances(s, OfSupervisor(a), SupervisorNext(s, a))
  {
    if a.ASupAskBaud? {
      OnePutReads(s, OfSupervisor(a), P.BaudRate(a.rate));
    } else {
      SupervisorWritesNothing(s, a);
      assert LineOf(SupervisorNext(s, a)).up == LineOf(s).up;
      if Puts(s, OfSupervisor(a)) != [] {
        OnePutReads(s, OfSupervisor(a), Puts(s, OfSupervisor(a))[0]);
      }
      QuietBalances(s, OfSupervisor(a), SupervisorNext(s, a));
    }
  }

  lemma PeerBalances(s: Sys, a: PeerMove)
    requires PeerEnabled(s, a)
    ensures Balances(s, OfPeer(a), PeerNext(s, a))
  {
    if a.APeerTake? {
      assert s.up == [s.up[0]] + s.up[1..] && s.up + [] == s.up;
    } else {
      QuietBalances(s, OfPeer(a), PeerNext(s, a));
    }
  }

  lemma StepBalances(s: Sys, a: Move)
    requires Enabled(s, a) && !IsPulse(a)
    ensures Balances(s, a, Next(s, a))
  {
    match a
    case OfClient(c) => ClientBalances(s, c);
    case OfRx(r) => RxBalances(s, r);
    case OfSupervisor(v) => SupervisorBalances(s, v);
    case OfPeer(p) => PeerBalances(s, p);
  }

  lemma StepOwes(s: Sys, a: Move)
    requires Enabled(s, a)
    ensures StatusCodes(Puts(s, a)) == Owes(s, a)
  {
    if Puts(s, a) != [] {
      OnePutReads(s, a, Puts(s, a)[0]);
    }
  }

  // ----- whole runs -----

  /** What the Flipper takes from move i up to move k. */
  function Taken(states: seq<Sys>, moves: seq<Move>, i: nat, k: nat): seq<Up>
    requires i <= k <= |moves| && |states| == |moves| + 1
    decreases k
  {
    if i == k then [] else Taken(states, moves, i, k - 1) + TakenIn(states[k - 1], moves[k - 1])
  }

  /** The status codes owed from move i up to move k. */
  function Owed(states: seq<Sys>, moves: seq<Move>, i: nat, k: nat): seq<Byte>
    requires i <= k <= |moves| && |states| == |moves| + 1
    decreases k
  {
    if i == k then [] else Owed(states, moves, i, k - 1) + Owes(states[k - 1], moves[k - 1])
  }

  ghost predicate UartStepAt(states: seq<Sys>, moves: seq<Move>, m: nat)
    requires |states| == |moves| + 1 && m < |moves|
  {
    forall d | Detail(d) ::
      && (!IsPulse(moves[m]) ==> Balances(states[m], moves[m], states[m + 1]))
      && StatusCodes(Puts(states[m], moves[m])) == Owes(states[m], moves[m])
      && P.AllWellFormed(Puts(states[m], moves[m]))
  }

  lemma RunUartStep(states: seq<Sys>, moves: seq<Move>, m: nat)
    requires IsRun(states, moves) && m < |moves|
    ensures UartStepAt(states, moves, m)
  {
    Reachable(states, moves, m);
    assert StepAt(states, moves, m);
    if !IsPulse(moves[m]) {
      StepBalances(states[m], moves[m]);
    }
    StepOwes(states[m], moves[m]);
    PutsAreWellFormed(states[m], moves[m]);
  }

  lemma NextFrames(states: seq<Sys>, moves: seq<Move>, i: nat, k: nat)
    requires i < k <= |moves| && |states| == |moves| + 1
    ensures UartFrames(states, moves, i, k) == UartFrames(states, moves, i, k - 1) + Puts(states[k - 1], moves[k - 1])
    ensures Taken(states, moves, i, k) == Taken(states, moves, i, k - 1) + TakenIn(states[k - 1], moves[k - 1])
    ensures Owed(states, moves, i, k) == Owed(states, moves, i, k - 1) + Owes(states[k - 1], moves[k - 1])
    ensures Credited(states, moves, i, k) == Credited(states, moves, i, k - 1) + CreditedIn(states[k - 1], moves[k - 1])
  {
  }

  /** So much of a run balances. */
  ghost predicate Balanced(states: seq<Sys>, moves: seq<Move>, i: nat, k: nat)
    requires i <= k <= |moves| && |states| == |moves| + 1
  {
    forall d | Detail(d) ::
      states[i].up + ReadAll(UartFrames(states, moves, i, k)) == Taken(states, moves, i, k) + states[k].up
  }

  lemma NothingBalances(states: seq<Sys>, moves: seq<Move>, i: nat)
    requires i <= |moves| && |states| == |moves| + 1
    ensures Balanced(states, moves, i, i) && Answered(states, moves, i, i)
  {
    assert states[i].up + [] == states[i].up && [] + states[i].up == states[i].up;
  }

  lemma BalancesNext(up: seq<Up>, frames: seq<P.Frame>, put: seq<P.Frame>, taken: seq<Up>, more: seq<Up>, before: seq<Up>, after: seq<Up>)
    requires up + ReadAll(frames) == taken + before && before + ReadAll(put) == more + after
    ensures up + ReadAll(frames + put) == taken + more + after
  {
    ReadAllConcat(frames, put);
    Regroup(up, ReadAll(frames), ReadAll(put));
    Regroup(taken, before, ReadAll(put));
    Regroup(taken, more, after);
  }

  lemma OneMoreBalances(states: seq<Sys>, moves: seq<Move>, i: nat, k: nat)
    requires i < k <= |moves| && |states| == |moves| + 1 && Balanced(states, moves, i, k - 1) && UartStepAt(states, moves, k - 1)
    requires !IsPulse(moves[k - 1])
    ensures Balanced(states, moves, i, k)
  {
    assert Detail(0);
    NextFrames(states, moves, i, k);
    BalancesNext(states[i].up, UartFrames(states, moves, i, k - 1), Puts(states[k - 1], moves[k - 1]), Taken(states, moves, i, k - 1),
                 TakenIn(states[k - 1], moves[k - 1]), states[k - 1].up, states[k].up);
  }

  /** So much of a run puts out whole frames, with the statuses owed. */
  ghost predicate Answered(states: seq<Sys>, moves: seq<Move>, i: nat, k: nat)
    requires i <= k <= |moves| && |states| == |moves| + 1
  {
    forall d | Detail(d) ::
      var frames := UartFrames(states, moves, i, k);
      P.AllWellFormed(frames) && StatusCodes(frames) == Owed(states, moves, i, k)
  }

  lemma OwedNext(frames: seq<P.Frame>, put: seq<P.Frame>)
    requires P.AllWellFormed(frames) && P.AllWellFormed(put)
    ensures P.AllWellFormed(frames + put) && StatusCodes(frames + put) == StatusCodes(frames) + StatusCodes(put)
  {
    StatusCodesConcat(frames, put);
  }

  lemma OneMoreOwed(states: seq<Sys>, moves: seq<Move>, i: nat, k: nat)
    requires i < k <= |moves| && |states| == |moves| + 1 && Answered(states, moves, i, k - 1) && UartStepAt(states, moves, k - 1)
    ensures Answered(states, moves, i, k)
  {
    assert Detail(0);
    NextFrames(states, moves, i, k);
    OwedNext(UartFrames(states, moves, i, k - 1), Puts(states[k - 1], moves[k - 1]));
  }

  /** So do all steps from move i up to move k. */
  ghost predicate UartSteps(states: seq<Sys>, moves: seq<Move>, i: nat, k: nat)
    requires i <= k <= |moves| && |states| == |moves| + 1
    decreases k
  {
    i == k || (UartSteps(states, moves, i, k - 1) && UartStepAt(states, moves, k - 1))
  }

  lemma {:induction false} RunUartSteps(states: seq<Sys>, moves: seq<Move>, i: nat, k: nat)
    requires IsRun(states, moves) && i <= k <= |moves|
    ensures UartSteps(states, moves, i, k)
    decreases k
  {
    if i == k {
      NoUartSteps(states, moves, i);
    } else {
      RunUartSteps(states, moves, i, k - 1);
      RunUartStep(states, moves, k - 1);
      MoreUartSteps(states, moves, i, k);
    }
  }

  lemma NoUartSteps(states: seq<Sys>, moves: seq<Move>, i: nat)
    requires i <= |moves| && |states| == |moves| + 1
    ensures UartSteps(states, moves, i, i)
  {
  }

  lemma MoreUartSteps(states: seq<Sys>, moves: seq<Move>, i: nat, k: nat)
    requires i < k <= |moves| && |states| == |moves| + 1 && UartSteps(states, moves, i, k - 1) && UartStepAt(states, moves, k - 1)
    ensures UartSteps(states, moves, i, k)
  {
  }

  lemma {:induction false} UartAddsUp(states: seq<Sys>, moves: seq<Move>, i: nat, k: nat)
    requires i <= k <= |moves| && |states| == |moves| + 1 && UartSteps(states, moves, i, k)
    requires forall m: nat | i <= m < k :: !IsPulse(moves[m])
    ensures Balanced(states, moves, i, k) && Answered(states, moves, i, k)
    decreases k
  {
    if i == k {
      NothingBalances(states, moves, i);
    } else {
      UartAddsUp(states, moves, i, k - 1);
      OneMoreBalances(states, moves, i, k);
      OneMoreOwed(states, moves, i, k);
    }
  }

  /** A pulse is sent by move i, and no other up to state k. */
  ghost predicate EpochSpans(states: seq<Sys>, moves: seq<Move>, i: nat, k: nat) {
    && IsRun(states, moves) && i < k < |states| && IsPulse(moves[i])
    && forall m: nat | i < m < k :: !IsPulse(moves[m])
  }

  /** What a decoder makes of the bytes all tasks together put on the UART since that pulse. */
  function Heard(states: seq<Sys>, moves: seq<Move>, i: nat, k: nat): P.Stream
    requires i < k <= |moves| && |states| == |moves| + 1 && P.AllWellFormed(UartFrames(states, moves, i + 1, k))
  {
    P.DecodeStream([], P.EncodeAll(UartFrames(states, moves, i + 1, k)))
  }

  /** In every run, since the latest pulse: the bytes on the UART decode to whole frames; the requests
      among them, read by the numbers of the protocol, are in order exactly those the Flipper has
      taken and then those still on their way; and the statuses among them are exactly those owed. */
  lemma UartCarriesRequests(states: seq<Sys>, moves: seq<Move>, i: nat, k: nat)
    requires EpochSpans(states, moves, i, k)
    ensures P.AllWellFormed(UartFrames(states, moves, i + 1, k))
    ensures var heard := Heard(states, moves, i, k);
            && heard.pending == [] && heard.bad == []
            && ReadAll(heard.frames) == Taken(states, moves, i + 1, k) + states[k].up
            && StatusCodes(heard.frames) == Owed(states, moves, i + 1, k)
  {
    EpochAddsUp(states, moves, i, k);
    FrameStreams.WholeFramesAreHeard(UartFrames(states, moves, i + 1, k));
  }

  lemma EpochAddsUp(states: seq<Sys>, moves: seq<Move>, i: nat, k: nat)
    requires EpochSpans(states, moves, i, k)
    ensures P.AllWellFormed(UartFrames(states, moves, i + 1, k))
    ensures ReadAll(UartFrames(states, moves, i + 1, k)) == Taken(states, moves, i + 1, k) + states[k].up
    ensures StatusCodes(UartFrames(states, moves, i + 1, k)) == Owed(states, moves, i + 1, k)
  {
    RunUartSteps(states, moves, i + 1, k);
    UartAddsUp(states, moves, i + 1, k);
    PulseEmptiesWire(states, moves, i);
    BalancedFromEmpty(states, moves, i + 1, k);
    assert Detail(0);
  }

  lemma BalancedFromEmpty(states: seq<Sys>, moves: seq<Move>, i: nat, k: nat)
    requires i <= k <= |moves| && |states| == |moves| + 1 && Balanced(states, moves, i, k) && states[i].up == []
    ensures ReadAll(UartFrames(states, moves, i, k)) == Taken(states, moves, i, k) + states[k].up
  {
    assert Detail(0);
    var read := ReadAll(UartFrames(states, moves, i, k));
    assert [] + read == read;
  }

  lemma PulseEmptiesWire(states: seq<Sys>, moves: seq<Move>, i: nat)
    requires IsRun(states, moves) && i < |moves| && IsPulse(moves[i])
    ensures states[i + 1].up == []
  {
    assert StepAt(states, moves, i);
  }

  /** What a frame does to the Flipper that takes it: a session opens exactly when it accepts
      Control 0, ends exactly when it accepts Control 1, and receives exactly the Data it accepts. */
  predicate Acts(s: Sys, accept: bool, f: P.Frame, t: Sys) {
    && (s.phase != InRpc && t.phase == InRpc <==> accept && f == P.Control(0))
    && (s.phase == InRpc && t.phase != InRpc <==> accept && f == P.Control(1))
    && t.got == (if accept && f == P.Control(0) then [] else if accept && f.Data? then s.got + f.payload else s.got)
  }

  lemma TakeActs(s: Sys, accept: bool, reply: Option<Byte>, f: P.Frame)
    requires PeerEnabled(s, APeerTake(accept, reply)) && Reads(f) == [s.up[0]]
    ensures Acts(s, accept, f, PeerNext(s, APeerTake(accept, reply)))
  {
  }

  /** Whenever the Flipper takes a request, it is the next frame of the decoded UART output that asks
      for something, and it does to the Flipper what that frame says. */
  lemma FlipperActsOnFrames(states: seq<Sys>, moves: seq<Move>, i: nat, k: nat, accept: bool, reply: Option<Byte>) returns (f: P.Frame)
    requires EpochSpans(states, moves, i, k) && k < |moves| && moves[k] == OfPeer(APeerTake(accept, reply))
    ensures P.AllWellFormed(UartFrames(states, moves, i + 1, k))
    ensures var requests, n := Requests(Heard(states, moves, i, k).frames), |Taken(states, moves, i + 1, k)|;
            n < |requests| && f == requests[n]
    ensures Acts(states[k], accept, f, states[k + 1])
  {
    UartCarriesRequests(states, moves, i, k);
    assert StepAt(states, moves, k);
    var frames, n := Heard(states, moves, i, k).frames, |Taken(states, moves, i + 1, k)|;
    assert ReadAll(frames)[n] == states[k].up[0];
    RequestsRead(frames, n);
    f := Requests(frames)[n];
    TakeActs(states[k], accept, reply, f);
  }

  // ----- acknowledgements and what they acknowledge -----

  /** The data frame a step acknowledges. */
  function CreditedIn(s: Sys, a: Move): seq<seq<Byte>> {
    match a
    case OfRx(ARxAck(written, _)) => if written && s.rx.Acking? then [s.rx.bytes] else []
    case _ => []
  }

  function Credited(states: seq<Sys>, moves: seq<Move>, i: nat, k: nat): seq<seq<Byte>>
    requires i <= k <= |moves| && |states| == |moves| + 1
    decreases k
  {
    if i == k then [] else Credited(states, moves, i, k - 1) + CreditedIn(states[k - 1], moves[k - 1])
  }

  /** How many of the codes are None. */
  function Nones(codes: seq<Byte>): nat {
    if codes == [] then 0 else Nones(codes[..|codes| - 1]) + (if codes[|codes| - 1] == 0 then 1 else 0)
  }

  lemma {:induction false} NonesConcat(a: seq<Byte>, b: seq<Byte>)
    ensures Nones(a + b) == Nones(a) + Nones(b)
  {
    LastOfConcat(a, b);
    if b != [] {
      NonesConcat(a, b[..|b| - 1]);
    }
  }

  lemma OtherClientsCreditNothing(s: Sys, a: ClientMove)
    requires ClientEnabled(s, a) && !a.AApplyStarted?
    ensures ClientNext(s, a).credited == s.credited
  {
    match a
    case AClaim(_) | ACheckReady | AApplyBegin | ADrainToken | ADrained | AArm | ASend(_, _) | ATakeToken | AGiveUp |
      ACollect | AFail | ASkipProxy | ARunProxy | ASubmit | ANextChunk | ALeaveProxy | AJoined | ACheckEnded |
      ACheckRunning | AApplyEnd | AApplyStopped | AClearBuffer | ADisconnect | ARelease | AWriterTake(_) | AWriterExit =>
  }

  lemma ClientCreditsNothing(s: Sys, a: ClientMove)
    requires Control(s) && StartGranted(s) && ClientEnabled(s, a) && !Opens(s, OfClient(a))
    ensures ClientNext(s, a).credited == s.credited
  {
    if a.AApplyStarted? {
      StartedIsOpening(s);
    } else {
      OtherClientsCreditNothing(s, a);
    }
  }

  lemma RxCredits(s: Sys, a: RxMove)
    requires RxEnabled(s, a)
    ensures RxNext(s, a).credited == s.credited + BridgeIo.Flatten(CreditedIn(s, OfRx(a)))
  {
    if a.ARxAck? {
      AckCredits(s, a.written, a.ok);
    } else {
      OtherRxCreditsNothing(s, a);
      assert s.credited + [] == s.credited;
    }
  }

  lemma AckCredits(s: Sys, written: bool, ok: bool)
    requires s.rx.Acking?
    ensures RxAck(s, written, ok).credited == s.credited + BridgeIo.Flatten(CreditedIn(s, OfRx(ARxAck(written, ok))))
  {
    if written {
      BridgeIo.FlattenSnoc([], s.rx.bytes);
      assert [] + [s.rx.bytes] == [s.rx.bytes] && [] + s.rx.bytes == s.rx.bytes;
    } else {
      assert s.credited + [] == s.credited;
    }
  }

  lemma OtherRxCreditsNothing(s: Sys, a: RxMove)
    requires RxEnabled(s, a) && !a.ARxAck?
    ensures RxNext(s, a).credited == s.credited
  {
    match a
    case ARxLook | ARxIdle | ARxError | ARxFrame | ARxRecord | ARxGive | ARxCheckState | ARxCheckRoom(_) |
      ARxStore | ARxDrop | ALoseLink | AHeartbeat =>
  }

  lemma SupervisorCreditsNothing(s: Sys, a: SupervisorMove)
    requires SupervisorEnabled(s, a)
    ensures SupervisorNext(s, a).credited == s.credited
  {
    match a
    case ASupClear | ASupInit | ASupStart | ASupPulse(_) | ASupAbort(_) | ASupHeartbeat | ASupAskBaud(_) |
      ASupBaudReply(_) | ASupAccepted | ASupSetUp | ASupReset | ASupSpawn(_, _) | ASupSeesLoss | ASupJoined |
      ASupTimeout =>
  }

  lemma PeerCreditsNothing(s: Sys, a: PeerMove)
    requires PeerEnabled(s, a)
    ensures PeerNext(s, a).credited == s.credited
  {
    match a
    case APeerTake(_, _) | APeerSend(_) | APeerDie =>
  }

  /** What is credited grows by the frames acknowledged, one None for each. */
  ghost predicate CreditsAt(states: seq<Sys>, moves: seq<Move>, m: nat)
    requires |states| == |moves| + 1 && m < |moves|
  {
    forall d | Detail(d) ::
      && states[m + 1].credited == states[m].credited + BridgeIo.Flatten(CreditedIn(states[m], moves[m]))
      && Nones(StatusCodes(Puts(states[m], moves[m]))) == |CreditedIn(states[m], moves[m])|
  }

  lemma StepCredits(s: Sys, a: Move)
    requires Control(s) && StartGranted(s) && Enabled(s, a) && !Opens(s, a)
    ensures Next(s, a).credited == s.credited + BridgeIo.Flatten(CreditedIn(s, a))
  {
    assert s.credited + [] == s.credited;
    match a
    case OfClient(c) => ClientCreditsNothing(s, c);
    case OfRx(r) => RxCredits(s, r);
    case OfSupervisor(v) => SupervisorCreditsNothing(s, v);
    case OfPeer(p) => PeerCreditsNothing(s, p);
  }

  lemma NonesOfOne(code: Byte)
    ensures Nones([code]) == (if code == 0 then 1 else 0) && Nones([]) == 0
  {
    var codes := [code];
    assert codes[..|codes| - 1] == [];
  }

  lemma OwedNones(s: Sys, a: Move)
    requires Enabled(s, a)
    ensures if a.OfRx? && a.rx.ARxAck? then Owes(s, a) == (if a.rx.written then [0] else [])
            else Owes(s, a) == [] || Owes(s, a) == [1]
    ensures |CreditedIn(s, a)| == if a.OfRx? && a.rx.ARxAck? && a.rx.written then 1 else 0
  {
  }

  lemma OwedPerFrame(s: Sys, a: Move)
    requires Enabled(s, a)
    ensures Nones(StatusCodes(Puts(s, a))) == |CreditedIn(s, a)|
  {
    StepOwes(s, a);
    OwedNones(s, a);
    NonesOfOne(0);
    NonesOfOne(1);
  }

  lemma RunCreditsAt(states: seq<Sys>, moves: seq<Move>, m: nat)
    requires IsRun(states, moves) && m < |moves| && !Opens(states[m], moves[m])
    ensures CreditsAt(states, moves, m)
  {
    Reachable(states, moves, m);
    assert StepAt(states, moves, m);
    StepCredits(states[m], moves[m]);
    OwedPerFrame(states[m], moves[m]);
    PutsAreWellFormed(states[m], moves[m]);
  }

  /** So much of a run has credited these frames, with one None each. */
  ghost predicate CreditedBy(states: seq<Sys>, moves: seq<Move>, i: nat, k: nat)
    requires i <= k <= |moves| && |states| == |moves| + 1
  {
    forall d | Detail(d) ::
      && states[k].credited == BridgeIo.Flatten(Credited(states, moves, i, k))
      && Nones(StatusCodes(UartFrames(states, moves, i, k))) == |Credited(states, moves, i, k)|
  }

  lemma OneMoreCredit(states: seq<Sys>, moves: seq<Move>, i: nat, k: nat)
    requires i < k <= |moves| && |states| == |moves| + 1 && CreditsAt(states, moves, k - 1) && CreditedBy(states, moves, i, k - 1)
    ensures CreditedBy(states, moves, i, k)
  {
    assert Detail(0);
    NextFrames(states, moves, i, k);
    CreditsNext(UartFrames(states, moves, i, k - 1), Puts(states[k - 1], moves[k - 1]), Credited(states, moves, i, k - 1),
                CreditedIn(states[k - 1], moves[k - 1]), states[k - 1].credited);
  }

  lemma CreditsNext(frames: seq<P.Frame>, put: seq<P.Frame>, pieces: seq<seq<Byte>>, more: seq<seq<Byte>>, credited: seq<Byte>)
    requires credited == BridgeIo.Flatten(pieces)
    requires Nones(StatusCodes(frames)) == |pieces| && Nones(StatusCodes(put)) == |more|
    ensures credited + BridgeIo.Flatten(more) == BridgeIo.Flatten(pieces + more)
    ensures Nones(StatusCodes(frames + put)) == |pieces + more|
  {
    BridgeIo.FlattenConcat(pieces, more);
    StatusCodesConcat(frames, put);
    NonesConcat(StatusCodes(frames), StatusCodes(put));
  }

  ghost predicate CreditSteps(states: seq<Sys>, moves: seq<Move>, i: nat, k: nat)
    requires i <= k <= |moves| && |states| == |moves| + 1
    decreases k
  {
    i == k || (CreditSteps(states, moves, i, k - 1) && CreditsAt(states, moves, k - 1))
  }

  lemma {:induction false} RunCreditSteps(states: seq<Sys>, moves: seq<Move>, i: nat, k: nat)
    requires IsRun(states, moves) && i <= k <= |moves| && forall m: nat | i <= m < k :: !Opens(states[m], moves[m])
    ensures CreditSteps(states, moves, i, k)
    decreases k
  {
    if i == k {
      NoCreditSteps(states, moves, i);
    } else {
      RunCreditSteps(states, moves, i, k - 1);
      RunCreditsAt(states, moves, k - 1);
      MoreCreditSteps(states, moves, i, k);
    }
  }

  lemma NoCreditSteps(states: seq<Sys>, moves: seq<Move>, i: nat)
    requires i <= |moves| && |states| == |moves| + 1
    ensures CreditSteps(states, moves, i, i)
  {
  }

  lemma MoreCreditSteps(states: seq<Sys>, moves: seq<Move>, i: nat, k: nat)
    requires i < k <= |moves| && |states| == |moves| + 1 && CreditSteps(states, moves, i, k - 1) && CreditsAt(states, moves, k - 1)
    ensures CreditSteps(states, moves, i, k)
  {
  }

  lemma {:induction false} CreditsAddUp(states: seq<Sys>, moves: seq<Move>, i: nat, k: nat)
    requires i <= k <= |moves| && |states| == |moves| + 1 && states[i].credited == [] && CreditSteps(states, moves, i, k)
    ensures CreditedBy(states, moves, i, k)
    decreases k
  {
    if i == k {
      NothingCredited(states, moves, i);
    } else {
      CreditsAddUp(states, moves, i, k - 1);
      OneMoreCredit(states, moves, i, k);
    }
  }

  lemma NothingCredited(states: seq<Sys>, moves: seq<Move>, i: nat)
    requires i <= |moves| && |states| == |moves| + 1 && states[i].credited == []
    ensures CreditedBy(states, moves, i, i)
  {
  }

  /** Since the opening of a session, one None is put on the UART for each of the data frames whose
      bytes, one after the other, are what is acknowledged; and while the session lasts that is the
      front of what is stored, and so of what the Flipper has sent, all but at most its last frame. */
  lemma OneNonePerFrame(states: seq<Sys>, moves: seq<Move>, i: nat, k: nat)
    requires SessionSpans(states, moves, i, k)
    ensures states[k].credited == BridgeIo.Flatten(Credited(states, moves, i + 1, k))
    ensures P.AllWellFormed(UartFrames(states, moves, i + 1, k))
    ensures Nones(StatusCodes(P.DecodeStream([], P.EncodeAll(UartFrames(states, moves, i + 1, k))).frames))
            == |Credited(states, moves, i + 1, k)|
    ensures HasSession(states[k].client) ==>
              states[k].credited <= states[k].enqueued <= states[k].offered && |states[k].enqueued| <= |states[k].credited| + 64
  {
    SessionStreamSteps(states, moves, i, k);
    OpeningCreditsNothing(states, moves, i);
    RunCreditSteps(states, moves, i + 1, k);
    CreditsAddUp(states, moves, i + 1, k);
    assert Detail(0);
    FrameStreams.WholeFramesAreHeard(UartFrames(states, moves, i + 1, k));
    if HasSession(states[k].client) {
      TransportReceive.ReceiveConservation(states, moves, k);
    }
  }

  lemma OpeningCreditsNothing(states: seq<Sys>, moves: seq<Move>, i: nat)
    requires IsRun(states, moves) && i < |moves| && Opens(states[i], moves[i])
    ensures states[i + 1].credited == []
  {
    assert StepAt(states, moves, i);
  }
}
