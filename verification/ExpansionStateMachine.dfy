/** The Expansion link state machine and the exact set of event traces behind each state. */
module ExpansionStateMachine {
  const MAX_RETRIES := 3

  datatype State = Disconnected | InitialUart | NegotiatingBaud | Ready | StartingRpc | RpcReady | StoppingRpc | Backoff

  datatype Event =
    | Start | HeartbeatReceived | BaudAccepted | BaudRejected | BeginRpc | RpcStarted
    | EndRpc | RpcStopped | Timeout | FrameError | BackoffElapsed

  datatype Action =
    | NoAction | DetectPulse | RequestBaud | TryLowerBaud | SwitchBaud | SendStartRpc | SendStopRpc
    | ScheduleReconnect

  datatype Machine = Machine(state: State, attempts: nat)

  datatype Outcome = Outcome(machine: Machine, accepted: bool, action: Action)

  const INITIAL := Machine(Disconnected, 0)

  predicate IsFailure(e: Event) {
    e == Timeout || e == FrameError
  }

  /** The event a state accepts and where it leads; failures are handled apart. */
  function Step(m: Machine, e: Event): Outcome {
    if IsFailure(e) then
      if m.attempts >= MAX_RETRIES then Outcome(m.(state := Disconnected), true, NoAction)
      else Outcome(Machine(Backoff, m.attempts + 1), true, ScheduleReconnect)
    else if m.state.Disconnected? && e.Start? then Outcome(m.(state := InitialUart), true, DetectPulse)
    else if m.state.InitialUart? && e.HeartbeatReceived? then Outcome(m.(state := NegotiatingBaud), true, RequestBaud)
    else if m.state.NegotiatingBaud? && e.BaudRejected? then Outcome(m, true, TryLowerBaud)
    else if m.state.NegotiatingBaud? && e.BaudAccepted? then Outcome(Machine(Ready, 0), true, SwitchBaud)
    else if m.state.Ready? && e.BeginRpc? then Outcome(m.(state := StartingRpc), true, SendStartRpc)
    else if m.state.StartingRpc? && e.RpcStarted? then Outcome(m.(state := RpcReady), true, NoAction)
    else if m.state.RpcReady? && e.EndRpc? then Outcome(m.(state := StoppingRpc), true, SendStopRpc)
    else if m.state.StoppingRpc? && e.RpcStopped? then Outcome(m.(state := Ready), true, NoAction)
    else if m.state.Backoff? && e.BackoffElapsed? then Outcome(m.(state := InitialUart), true, DetectPulse)
    else Outcome(m, false, NoAction)
  }

  /** The action of every accepted event: by the event alone, except that a failure schedules a
      reconnection until the limit. */
  lemma ActionOfEvent(m: Machine, e: Event)
    requires Step(m, e).accepted
    ensures Step(m, e).action == match e
                                 case Start => DetectPulse
                                 case BackoffElapsed => DetectPulse
                                 case HeartbeatReceived => RequestBaud
                                 case BaudRejected => TryLowerBaud
                                 case BaudAccepted => SwitchBaud
                                 case BeginRpc => SendStartRpc
                                 case EndRpc => SendStopRpc
                                 case RpcStarted => NoAction
                                 case RpcStopped => NoAction
                                 case Timeout => if m.attempts >= 3 then NoAction else ScheduleReconnect
                                 case FrameError => if m.attempts >= 3 then NoAction else ScheduleReconnect
  {
  }

  class ExpansionStateMachine {
    var state: State
    var reconnectAttempts: nat

    function Value(): Machine
      reads this
    {
      Machine(state, reconnectAttempts)
    }

    constructor ()
      ensures Value() == INITIAL
    {
      state, reconnectAttempts := Disconnected, 0;
    }

    method Init()
      modifies this
      ensures Value() == INITIAL
    {
      state := Disconnected;
      reconnectAttempts := 0;
    }

    method FailConnection() returns (action: Action)
      modifies this
      ensures Value() == Step(old(Value()), Timeout).machine && action == Step(old(Value()), Timeout).action
    {
      if reconnectAttempts >= MAX_RETRIES {
        state := Disconnected;
        action := NoAction;
      } else {
        reconnectAttempts := reconnectAttempts + 1;
        state := Backoff;
        action := ScheduleReconnect;
      }
    }

    method Apply(event: Event) returns (accepted: bool, action: Action)
      modifies this
      ensures Outcome(Value(), accepted, action) == Step(old(Value()), event)
    {
      accepted, action := true, NoAction;
      if event == Timeout || event == FrameError {
        action := FailConnection();
        return;
      }
      match state {
        case Disconnected =>
          if event != Start { return false, NoAction; }
          state := InitialUart;
          action := DetectPulse;
        case InitialUart =>
          if event != HeartbeatReceived { return false, NoAction; }
          state := NegotiatingBaud;
          action := RequestBaud;
        case NegotiatingBaud =>
          if event == BaudRejected { return true, TryLowerBaud; }
          if event != BaudAccepted { return false, NoAction; }
          state := Ready;
          reconnectAttempts := 0;
          action := SwitchBaud;
        case Ready =>
          if event != BeginRpc { return false, NoAction; }
          state := StartingRpc;
          action := SendStartRpc;
        case StartingRpc =>
          if event != RpcStarted { return false, NoAction; }
          state := RpcReady;
        case RpcReady =>
          if event != EndRpc { return false, NoAction; }
          state := StoppingRpc;
          action := SendStopRpc;
        case StoppingRpc =>
          if event != RpcStopped { return false, NoAction; }
          state := Ready;
        case Backoff =>
          if event != BackoffElapsed { return false, NoAction; }
          state := InitialUart;
          action := DetectPulse;
      }
    }
  }

  // ----- the words accepted between two failures -----

  /** The state reached from `from` when every event of the word is accepted, None otherwise. */
  datatype Reached = Reached(state: State) | Stuck

  function Replay(from: State, word: seq<Event>): Reached {
    if word == [] then Reached(from)
    else
      var n := |word| - 1;
      match Replay(from, word[..n])
      case Stuck => Stuck
      case Reached(s) =>
        var o := Step(Machine(s, 0), word[n]);
        if !IsFailure(word[n]) && o.accepted then Reached(o.machine.state) else Stuck
  }

  /** A link attempt opens with Start, or with BackoffElapsed after a failure. */
  predicate Origin(from: State) {
    from == Disconnected || from == Backoff
  }

  function Opener(from: State): Event {
    if from == Backoff then BackoffElapsed else Start
  }

  /** Opener HeartbeatReceived BaudRejected* */
  predicate NegotiationWord(from: State, w: seq<Event>) {
    && |w| >= 2 && w[0] == Opener(from) && w[1] == HeartbeatReceived
    && forall i | 2 <= i < |w| :: w[i] == BaudRejected
  }

  const SESSION: seq<Event> := [BeginRpc, RpcStarted, EndRpc, RpcStopped]

  /** (BeginRpc RpcStarted EndRpc RpcStopped)* */
  predicate SessionsWord(w: seq<Event>) {
    w == [] || (|w| >= 4 && w[|w| - 4..] == SESSION && SessionsWord(w[..|w| - 4]))
  }

  /** A negotiation that ends after `k` events with BaudAccepted, then complete RPC sessions. */
  predicate ReadyWordAt(from: State, w: seq<Event>, k: nat) {
    k < |w| && NegotiationWord(from, w[..k]) && w[k] == BaudAccepted && SessionsWord(w[k + 1..])
  }

  ghost predicate ReadyWord(from: State, w: seq<Event>) {
    exists k: nat :: ReadyWordAt(from, w, k)
  }

  /** A word of Ready followed by the first `k` events of a session. */
  ghost predicate InSession(from: State, w: seq<Event>, k: nat) {
    k <= 4 && k <= |w| && w[|w| - k..] == SESSION[..k] && ReadyWord(from, w[..|w| - k])
  }

  ghost predicate WordOf(from: State, s: State, w: seq<Event>) {
    match s
    case Disconnected => from == s && w == []
    case Backoff => from == s && w == []
    case InitialUart => w == [Opener(from)]
    case NegotiatingBaud => NegotiationWord(from, w)
    case Ready => ReadyWord(from, w)
    case StartingRpc => InSession(from, w, 1)
    case RpcReady => InSession(from, w, 2)
    case StoppingRpc => InSession(from, w, 3)
  }

  lemma AcceptedMakesReadyWord(from: State, w: seq<Event>)
    requires NegotiationWord(from, w)
    ensures ReadyWord(from, w + [BaudAccepted])
  {
    var v := w + [BaudAccepted];
    assert v[..|w|] == w && v[|w| + 1..] == [];
    assert ReadyWordAt(from, v, |w|);
  }

  lemma NoSessionYet(from: State, w: seq<Event>)
    ensures InSession(from, w, 0) <==> ReadyWord(from, w)
  {
    assert w[..|w|] == w;
  }

  lemma SessionAdvances(from: State, v: seq<Event>, k: nat)
    requires k < 4 && InSession(from, v, k)
    ensures InSession(from, v + [SESSION[k]], k + 1)
  {
    var w := v + [SESSION[k]];
    assert w[|w| - (k + 1)..] == v[|v| - k..] + [SESSION[k]] == SESSION[..k + 1];
    assert w[..|w| - (k + 1)] == v[..|v| - k];
  }

  lemma SessionRetreats(from: State, w: seq<Event>, k: nat)
    requires 0 < k && InSession(from, w, k)
    ensures w[|w| - 1] == SESSION[k - 1] && InSession(from, w[..|w| - 1], k - 1)
  {
    var v, t := w[..|w| - 1], w[|w| - k..];
    assert w[|w| - 1] == t[k - 1] == SESSION[..k][k - 1];
    assert v[|v| - (k - 1)..] == t[..k - 1] == SESSION[..k - 1];
    assert v[..|v| - (k - 1)] == w[..|w| - k];
  }

  lemma SessionCompletes(from: State, w: seq<Event>)
    requires InSession(from, w, 4)
    ensures ReadyWord(from, w)
  {
    var k: nat :| ReadyWordAt(from, w[..|w| - 4], k);
    LastFour(w, k);
    assert SESSION[..4] == SESSION;
    SessionAppended(w[k + 1..]);
    assert ReadyWordAt(from, w, k);
  }

  /** Taking four events off the end of a word, and off its part behind position k. */
  lemma LastFour(w: seq<Event>, k: nat)
    requires k + 5 <= |w|
    ensures var v, t := w[..|w| - 4], w[k + 1..];
            v[..k] == w[..k] && v[k] == w[k] && |t| >= 4 && t[..|t| - 4] == v[k + 1..] && t[|t| - 4..] == w[|w| - 4..]
  {
  }

  lemma SessionAppended(t: seq<Event>)
    requires |t| >= 4 && t[|t| - 4..] == SESSION && SessionsWord(t[..|t| - 4])
    ensures SessionsWord(t)
  {
  }

  /** A word of Ready ends with BaudAccepted after a negotiation, or with a whole session. */
  lemma ReadyWordEnd(from: State, w: seq<Event>)
    requires ReadyWord(from, w)
    ensures |w| > 0
    ensures (w[|w| - 1] == BaudAccepted && NegotiationWord(from, w[..|w| - 1])) || InSession(from, w, 4)
  {
    var k: nat :| ReadyWordAt(from, w, k);
    var t := w[k + 1..];
    if t != [] {
      LastFour(w, k);
      assert SESSION[..4] == SESSION;
      assert ReadyWordAt(from, w[..|w| - 4], k);
    }
  }

  /** The accepted moves as a table, failures apart. */
  predicate Moves(s: State, e: Event, next: State) {
    match s
    case Disconnected => e == Start && next == InitialUart
    case Backoff => e == BackoffElapsed && next == InitialUart
    case InitialUart => e == HeartbeatReceived && next == NegotiatingBaud
    case NegotiatingBaud => (e == BaudRejected && next == NegotiatingBaud) || (e == BaudAccepted && next == Ready)
    case Ready => e == BeginRpc && next == StartingRpc
    case StartingRpc => e == RpcStarted && next == RpcReady
    case RpcReady => e == EndRpc && next == StoppingRpc
    case StoppingRpc => e == RpcStopped && next == Ready
  }

  lemma MovesAreSteps(m: Machine, e: Event, next: State)
    ensures Moves(m.state, e, next) <==> !IsFailure(e) && Step(m, e).accepted && Step(m, e).machine.state == next
  {
  }

  /** How far into a session a state is. */
  function Progress(s: State): nat {
    match s
    case StartingRpc => 1
    case RpcReady => 2
    case StoppingRpc => 3
    case _ => 0
  }

  lemma NegotiationAdvances(from: State, v: seq<Event>)
    requires NegotiationWord(from, v)
    ensures NegotiationWord(from, v + [BaudRejected])
  {
  }

  lemma OpeningAdvances(from: State, before: State, v: seq<Event>, e: Event, s: State)
    requires Origin(from) && WordOf(from, before, v) && Moves(before, e, s)
    requires before in {Disconnected, Backoff, InitialUart, NegotiatingBaud}
    ensures WordOf(from, s, v + [e])
  {
    match before
    case NegotiatingBaud =>
      if s == Ready {
        AcceptedMakesReadyWord(from, v);
      } else {
        NegotiationAdvances(from, v);
      }
    case _ =>
  }

  lemma WordSuccessor(from: State, before: State, v: seq<Event>, e: Event, s: State)
    requires Origin(from) && WordOf(from, before, v) && Moves(before, e, s)
    ensures WordOf(from, s, v + [e])
  {
    if before in {Disconnected, Backoff, InitialUart, NegotiatingBaud} {
      OpeningAdvances(from, before, v, e, s);
    } else {
      NoSessionYet(from, v);
      var k := Progress(before);
      assert e == SESSION[k];
      SessionAdvances(from, v, k);
      if k == 3 {
        SessionCompletes(from, v + [e]);
      }
    }
  }

  lemma WordPredecessor(from: State, s: State, w: seq<Event>) returns (before: State)
    requires Origin(from) && w != [] && WordOf(from, s, w)
    ensures WordOf(from, before, w[..|w| - 1]) && Moves(before, w[|w| - 1], s)
  {
    if s == InitialUart {
      before := from;
    } else if s == NegotiatingBaud {
      before := if |w| == 2 then InitialUart else NegotiatingBaud;
    } else if s == Ready {
      ReadyWordEnd(from, w);
      before := if InSession(from, w, 4) then StoppingRpc else NegotiatingBaud;
      if InSession(from, w, 4) {
        SessionRetreats(from, w, 4);
      }
    } else {
      SessionRetreats(from, w, Progress(s));
      NoSessionYet(from, w[..|w| - 1]);
      before := if s == StartingRpc then Ready else if s == RpcReady then StartingRpc else RpcReady;
    }
  }

  lemma ReplayOneMore(from: State, v: seq<Event>, e: Event, s: State, next: State)
    requires Replay(from, v) == Reached(s) && Moves(s, e, next)
    ensures Replay(from, v + [e]) == Reached(next)
  {
    assert (v + [e])[..|v|] == v;
    MovesAreSteps(Machine(s, 0), e, next);
  }

  lemma ReplayLast(from: State, w: seq<Event>, s: State) returns (before: State)
    requires w != [] && Replay(from, w) == Reached(s)
    ensures Replay(from, w[..|w| - 1]) == Reached(before) && Moves(before, w[|w| - 1], s)
  {
    before := Replay(from, w[..|w| - 1]).state;
    MovesAreSteps(Machine(before, 0), w[|w| - 1], s);
  }

  lemma {:induction false} ReplayGivesWord(from: State, s: State, w: seq<Event>)
    requires Origin(from) && Replay(from, w) == Reached(s)
    ensures WordOf(from, s, w)
    decreases |w|
  {
    if w != [] {
      var v := w[..|w| - 1];
      var before := ReplayLast(from, w, s);
      ReplayGivesWord(from, before, v);
      WordSuccessor(from, before, v, w[|w| - 1], s);
      assert w == v + [w[|w| - 1]];
    }
  }

  lemma {:induction false} WordGivesReplay(from: State, s: State, w: seq<Event>)
    requires Origin(from) && WordOf(from, s, w)
    ensures Replay(from, w) == Reached(s)
    decreases |w|
  {
    if w != [] {
      var v := w[..|w| - 1];
      var before := WordPredecessor(from, s, w);
      WordGivesReplay(from, before, v);
      ReplayOneMore(from, v, w[|w| - 1], before, s);
      assert w == v + [w[|w| - 1]];
    } else {
      EmptyWord(from, s);
    }
  }

  lemma EmptyWord(from: State, s: State)
    requires WordOf(from, s, [])
    ensures from == s
  {
  }

  /** The word decides the state and the state fixes the word: the events accepted since a link
      attempt opened end in state s if and only if they form one of the words of s. */
  lemma TraceCharacterisation(from: State, s: State, w: seq<Event>)
    requires Origin(from)
    ensures Replay(from, w) == Reached(s) <==> WordOf(from, s, w)
  {
    if Replay(from, w) == Reached(s) {
      ReplayGivesWord(from, s, w);
    }
    if WordOf(from, s, w) {
      WordGivesReplay(from, s, w);
    }
  }

  // ----- whole runs, with reinitialisation and failures -----

  datatype Input = Init | Apply(event: Event)

  /** What a run leaves behind: the machine, the origin and accepted events of the current
      attempt, the actions it emitted, and the failures since an Init or an accepted baud rate. */
  datatype History = History(machine: Machine, from: State, word: seq<Event>, actions: seq<Action>, failures: nat)

  function After(h: History, input: Input): History {
    match input
    case Init => History(INITIAL, Disconnected, [], [], 0)
    case Apply(e) =>
      var o := Step(h.machine, e);
      if IsFailure(e) then History(o.machine, o.machine.state, [], [], h.failures + 1)
      else if !o.accepted then h
      else History(o.machine, h.from, h.word + [e], h.actions + [o.action], if e == BaudAccepted then 0 else h.failures)
  }

  function Run(inputs: seq<Input>): History {
    if inputs == [] then History(INITIAL, Disconnected, [], [], 0)
    else After(Run(inputs[..|inputs| - 1]), inputs[|inputs| - 1])
  }

  function Count(actions: seq<Action>, a: Action): nat {
    if actions == [] then 0
    else Count(actions[..|actions| - 1], a) + (if actions[|actions| - 1] == a then 1 else 0)
  }

  lemma RefusedChangesNothing(m: Machine, e: Event)
    requires !Step(m, e).accepted
    ensures !IsFailure(e) && Step(m, e).machine == m && Step(m, e).action == NoAction
    ensures Replay(m.state, [e]) == Stuck
  {
    assert [e][..0] == [];
  }

  /** RPC starts not yet matched by a stop. */
  function Outstanding(s: State): int {
    if s in {StartingRpc, RpcReady} then 1 else 0
  }

  ghost predicate Replays(h: History) {
    && Origin(h.from) && Replay(h.from, h.word) == Reached(h.machine.state)
    && Count(h.actions, SendStartRpc) - Count(h.actions, SendStopRpc)
       == Outstanding(h.machine.state)
    && h.machine.attempts == (if h.failures < MAX_RETRIES then h.failures else MAX_RETRIES)
  }

  lemma CountOneMore(actions: seq<Action>, last: Action, a: Action)
    ensures Count(actions + [last], a) == Count(actions, a) + (if last == a then 1 else 0)
  {
    assert (actions + [last])[..|actions|] == actions;
  }

  lemma ActionBalance(m: Machine, e: Event)
    requires !IsFailure(e) && Step(m, e).accepted
    ensures var o := Step(m, e);
      && Outstanding(o.machine.state) - Outstanding(m.state)
         == (if o.action == SendStartRpc then 1 else 0) - (if o.action == SendStopRpc then 1 else 0)
      && o.machine.attempts == if e == BaudAccepted then 0 else m.attempts
  {
  }

  lemma AcceptedEventReplays(h: History, e: Event)
    requires Replays(h) && !IsFailure(e) && Step(h.machine, e).accepted
    ensures Replays(After(h, Apply(e)))
  {
    var o := Step(h.machine, e);
    var next := o.machine.state;
    MovesAreSteps(h.machine, e, next);
    ReplayOneMore(h.from, h.word, e, h.machine.state, next);
    CountOneMore(h.actions, o.action, SendStartRpc);
    CountOneMore(h.actions, o.action, SendStopRpc);
    ActionBalance(h.machine, e);
    assert After(h, Apply(e)).word == h.word + [e] && After(h, Apply(e)).actions == h.actions + [o.action];
  }

  lemma {:induction false} RunReplays(inputs: seq<Input>)
    ensures Replays(Run(inputs))
  {
    if inputs != [] {
      var n := |inputs| - 1;
      var h := Run(inputs[..n]);
      RunReplays(inputs[..n]);
      if inputs[n].Apply? && !IsFailure(inputs[n].event) && Step(h.machine, inputs[n].event).accepted {
        AcceptedEventReplays(h, inputs[n].event);
      }
    }
  }

  /** After any sequence of initialisations and events, accepted or not: the accepted events of the
      current attempt form a word of the current state, an RPC start is outstanding exactly in
      StartingRpc and RpcReady, and the retry counter is the number of failures capped at three. */
  lemma RunCharacterisation(inputs: seq<Input>)
    ensures var h := Run(inputs);
      && Origin(h.from) && WordOf(h.from, h.machine.state, h.word)
      && Count(h.actions, SendStartRpc) - Count(h.actions, SendStopRpc)
         == Outstanding(h.machine.state)
      && h.machine.attempts == (if h.failures < MAX_RETRIES then h.failures else MAX_RETRIES)
  {
    RunReplays(inputs);
    var h := Run(inputs);
    TraceCharacterisation(h.from, h.machine.state, h.word);
  }
}
