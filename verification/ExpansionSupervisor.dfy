/** Link establishment, baud negotiation and the supervisor's retry policy. */
module ExpansionSupervisor {
  import opened Bytes
  import opened ExpansionStateMachine
  import P = ExpansionProtocol

  const RETRY_BASE_MS := 250
  const PREFERRED_RATES: seq<U32> := [230400, 115200, 57600, 38400, 19200, 9600]

  predicate Descending(rates: seq<U32>) {
    forall i, j | 0 <= i < j < |rates| :: rates[i] > rates[j]
  }

  lemma PreferredRatesDescend()
    ensures Descending(PREFERRED_RATES)
  {
  }

  // ----- one negotiation -----

  /** What happens to the request for one rate: whether it could be sent, the frame that came back
      (None when receiving failed), and whether the UART then took the rate. */
  datatype Exchange = Exchange(sent: bool, response: Option<P.Frame>, switched: bool)

  datatype Result = Established(rate: U32) | Failed | DriverError | NoHeartbeat | SendError | InvalidResponse | NotSupported

  predicate Rejects(x: Exchange) {
    x.sent && x.response == Some(P.Status(P.ERROR_BAUD))
  }

  predicate Accepts(x: Exchange) {
    x.sent && x.response == Some(P.Status(P.ERROR_NONE))
  }

  /** How the search ends at an exchange that is not a rejection. */
  function Settle(rate: U32, x: Exchange): Result {
    if !x.sent then SendError
    else if !Accepts(x) then InvalidResponse
    else if !x.switched then DriverError
    else Established(rate)
  }

  /** The search from the i-th rate on. */
  function Search(rates: seq<U32>, exchanges: nat -> Exchange, i: nat): Result
    decreases |rates| - i
  {
    if i >= |rates| then NotSupported
    else if Rejects(exchanges(i)) then Search(rates, exchanges, i + 1)
    else Settle(rates[i], exchanges(i))
  }

  /** The search from the i-th rate on stops at the k-th: the first that is not rejected. */
  ghost predicate StopsAt(rates: seq<U32>, exchanges: nat -> Exchange, i: nat, k: nat) {
    && i <= k < |rates| && !Rejects(exchanges(k))
    && forall j: nat | i <= j < k :: Rejects(exchanges(j))
  }

  ghost predicate AllRejected(rates: seq<U32>, exchanges: nat -> Exchange, i: nat) {
    forall j: nat | i <= j < |rates| :: Rejects(exchanges(j))
  }

  lemma {:induction false} SearchSettlesAt(rates: seq<U32>, exchanges: nat -> Exchange, i: nat, k: nat)
    requires StopsAt(rates, exchanges, i, k)
    ensures Search(rates, exchanges, i) == Settle(rates[k], exchanges(k))
    decreases k - i
  {
    if i < k {
      SearchSettlesAt(rates, exchanges, i + 1, k);
    }
  }

  /** The search gives up exactly when every rate is rejected; otherwise it stops somewhere. */
  lemma {:induction false} SearchGivesUp(rates: seq<U32>, exchanges: nat -> Exchange, i: nat)
    requires i <= |rates|
    ensures Search(rates, exchanges, i) == NotSupported <==> AllRejected(rates, exchanges, i)
    ensures AllRejected(rates, exchanges, i) || exists k: nat :: StopsAt(rates, exchanges, i, k)
    decreases |rates| - i
  {
    if i < |rates| {
      if Rejects(exchanges(i)) {
        SearchGivesUp(rates, exchanges, i + 1);
        if !AllRejected(rates, exchanges, i + 1) {
          var k: nat :| StopsAt(rates, exchanges, i + 1, k);
          assert StopsAt(rates, exchanges, i, k);
        }
      } else {
        assert StopsAt(rates, exchanges, i, i);
      }
    }
  }

  /** Success means: the first rate not rejected was accepted, and it is the one in use. */
  lemma SearchSucceeds(rates: seq<U32>, exchanges: nat -> Exchange, rate: U32)
    ensures Search(rates, exchanges, 0) == Established(rate) <==>
            exists k: nat :: StopsAt(rates, exchanges, 0, k) && rates[k] == rate && Accepts(exchanges(k)) && exchanges(k).switched
  {
    SearchGivesUp(rates, exchanges, 0);
    forall k: nat | StopsAt(rates, exchanges, 0, k) ensures Search(rates, exchanges, 0) == Settle(rates[k], exchanges(k)) {
      SearchSettlesAt(rates, exchanges, 0, k);
    }
  }

  /** A Flipper that accepts exactly the rates it supports, over a link that delivers. */
  ghost predicate Honest(rates: seq<U32>, exchanges: nat -> Exchange, supported: set<U32>) {
    forall i: nat | i < |rates| ::
      exchanges(i) == Exchange(true, Some(P.Status(if rates[i] in supported then P.ERROR_NONE else P.ERROR_BAUD)), true)
  }

  ghost predicate IsGreatestSupported(rates: seq<U32>, supported: set<U32>, rate: U32) {
    rate in rates && rate in supported && forall q | q in rates && q in supported :: q <= rate
  }

  /** Against such a Flipper the outcome is the greatest supported rate of the list, or
      NotSupported when there is none. */
  lemma GreatestSupportedRate(rates: seq<U32>, exchanges: nat -> Exchange, supported: set<U32>)
    requires Descending(rates) && Honest(rates, exchanges, supported)
    ensures Search(rates, exchanges, 0) == NotSupported <==> forall q | q in rates :: q !in supported
    ensures Search(rates, exchanges, 0) != NotSupported ==>
              Search(rates, exchanges, 0).Established? &&
              IsGreatestSupported(rates, supported, Search(rates, exchanges, 0).rate)
  {
    SearchGivesUp(rates, exchanges, 0);
    if AllRejected(rates, exchanges, 0) {
      forall q | q in rates ensures q !in supported {
        var j: nat :| j < |rates| && rates[j] == q;
        assert Rejects(exchanges(j));
      }
    } else {
      var k: nat :| StopsAt(rates, exchanges, 0, k);
      SearchSettlesAt(rates, exchanges, 0, k);
      assert rates[k] in rates && rates[k] in supported;
      forall q | q in rates && q in supported ensures q <= rates[k] {
        var j: nat :| j < |rates| && rates[j] == q;
        assert !Rejects(exchanges(j));
      }
    }
  }

  // ----- one attempt -----

  /** The environment of one attempt. */
  datatype Link = Link(configured: bool, pulsed: bool, greeting: Option<P.Frame>, exchanges: nat -> Exchange)

  function Attempt(rates: seq<U32>, link: Link): Result {
    if !link.configured || !link.pulsed then DriverError
    else if link.greeting != Some(P.Heartbeat) then NoHeartbeat
    else Search(rates, link.exchanges, 0)
  }

  /** When an attempt succeeds, and when each error arises: the first thing that goes wrong decides. */
  lemma AttemptExactly(rates: seq<U32>, link: Link, rate: U32)
    ensures var r := Attempt(rates, link);
            var greeted := link.configured && link.pulsed && link.greeting == Some(P.Heartbeat);
            && (r == Established(rate) <==>
                  greeted && exists k: nat :: StopsAt(rates, link.exchanges, 0, k) && rates[k] == rate
                                              && Accepts(link.exchanges(k)) && link.exchanges(k).switched)
            && (r == NoHeartbeat <==> link.configured && link.pulsed && link.greeting != Some(P.Heartbeat))
            && (r == NotSupported <==> greeted && AllRejected(rates, link.exchanges, 0))
            && (r == DriverError <==>
                  !link.configured || !link.pulsed
                  || (greeted && exists k: nat :: StopsAt(rates, link.exchanges, 0, k)
                                                  && Accepts(link.exchanges(k)) && !link.exchanges(k).switched))
            && (r == SendError <==> greeted && exists k: nat :: StopsAt(rates, link.exchanges, 0, k) && !link.exchanges(k).sent)
            && (r == InvalidResponse <==>
                  greeted && exists k: nat :: StopsAt(rates, link.exchanges, 0, k)
                                              && link.exchanges(k).sent && !Accepts(link.exchanges(k)))
            && r != Failed
  {
    var exchanges := link.exchanges;
    SearchGivesUp(rates, exchanges, 0);
    if !AllRejected(rates, exchanges, 0) {
      var k: nat :| StopsAt(rates, exchanges, 0, k);
      SearchSettlesAt(rates, exchanges, 0, k);
      forall m: nat | StopsAt(rates, exchanges, 0, m) ensures m == k {
        OneStop(rates, exchanges, k, m);
      }
    } else {
      forall m: nat ensures !StopsAt(rates, exchanges, 0, m) {
      }
    }
  }

  lemma OneStop(rates: seq<U32>, exchanges: nat -> Exchange, k: nat, m: nat)
    requires StopsAt(rates, exchanges, 0, k) && StopsAt(rates, exchanges, 0, m)
    ensures m == k
  {
  }

  // ----- the retry policy -----

  /** One turn of the supervisor's loop: whether an explicit wake (rather than a stop) ends a wait,
      the attempt, and whether a loss (rather than a stop) ends the connection. */
  datatype Turn = Turn(woken: bool, link: Link, lost: bool)

  datatype Entry = Woken | AttemptFailed(delay: nat, action: Action) | Connected | LinkLost(delay: nat, action: Action)

  /** What the supervisor does, from a number of attempts on. */
  function Behaviour(rates: seq<U32>, attempts: nat, turns: seq<Turn>): seq<Entry>
    decreases |turns|, attempts
  {
    if turns == [] then []
    else if attempts >= MAX_RETRIES then
      if turns[0].woken then [Woken] + Behaviour(rates, 0, turns) else []
    else if Attempt(rates, turns[0].link).Established? then
      if turns[0].lost then [Connected, LinkLost(RETRY_BASE_MS, ScheduleReconnect)] + Behaviour(rates, 1, turns[1..])
      else [Connected]
    else
      [AttemptFailed(RETRY_BASE_MS * (attempts + 1), ScheduleReconnect)] + Behaviour(rates, attempts + 1, turns[1..])
  }

  function Wakes(log: seq<Entry>): nat {
    if log == [] then 0 else Wakes(log[..|log| - 1]) + (if log[|log| - 1].Woken? then 1 else 0)
  }

  function Successes(log: seq<Entry>): nat {
    if log == [] then 0 else Successes(log[..|log| - 1]) + (if log[|log| - 1].Connected? then 1 else 0)
  }

  function Failures(log: seq<Entry>): nat {
    if log == [] then 0 else Failures(log[..|log| - 1]) + (if log[|log| - 1].AttemptFailed? then 1 else 0)
  }

  /** The back-off delays since `attempts` was last reset. */
  function SinceReset(log: seq<Entry>): nat {
    if log == [] then 0
    else match log[|log| - 1]
         case Woken => 0
         case Connected => 0
         case AttemptFailed(delay, _) => SinceReset(log[..|log| - 1]) + delay
         case LinkLost(delay, _) => SinceReset(log[..|log| - 1]) + delay
  }

  /** What n back-off delays in a row add up to. */
  function Backoffs(n: nat): nat {
    if n == 0 then 0 else Backoffs(n - 1) + RETRY_BASE_MS * n
  }

  /** A log in which every failure is paid for: three per wake and one start, two per success. */
  predicate Paid(log: seq<Entry>, attempts: nat) {
    && attempts <= MAX_RETRIES
    && Failures(log) + (MAX_RETRIES - attempts) <= MAX_RETRIES * (1 + Wakes(log)) + 2 * Successes(log)
    && SinceReset(log) == Backoffs(attempts)
  }

  lemma Extend(log: seq<Entry>, e: Entry)
    ensures Wakes(log + [e]) == Wakes(log) + (if e.Woken? then 1 else 0)
    ensures Successes(log + [e]) == Successes(log) + (if e.Connected? then 1 else 0)
    ensures Failures(log + [e]) == Failures(log) + (if e.AttemptFailed? then 1 else 0)
    ensures SinceReset(log + [e]) == match e
                                     case Woken => 0
                                     case Connected => 0
                                     case AttemptFailed(delay, _) => SinceReset(log) + delay
                                     case LinkLost(delay, _) => SinceReset(log) + delay
  {
    assert (log + [e])[..|log|] == log;
  }

  ghost predicate IsPaid(log: seq<Entry>) {
    exists attempts: nat :: Paid(log, attempts)
  }

  ghost predicate AlwaysPaid(log: seq<Entry>) {
    forall n | 0 <= n <= |log| :: IsPaid(log[..n])
  }

  lemma PaysForNext(log: seq<Entry>, a: nat, e: Entry, b: nat)
    requires AlwaysPaid(log) && Paid(log, a)
    requires match e
             case Woken => a == MAX_RETRIES && b == 0
             case Connected => a < MAX_RETRIES && b == 0
             case AttemptFailed(delay, _) => a < MAX_RETRIES && b == a + 1 && delay == RETRY_BASE_MS * b
             case LinkLost(delay, _) => a == 0 && b == 1 && delay == RETRY_BASE_MS
    ensures AlwaysPaid(log + [e]) && Paid(log + [e], b)
  {
    Extend(log, e);
    var whole := log + [e];
    assert Paid(whole, b);
    forall n | 0 <= n <= |whole| ensures IsPaid(whole[..n]) {
      if n <= |log| {
        assert whole[..n] == log[..n];
      } else {
        assert whole[..n] == whole;
      }
    }
  }

  lemma {:induction false} BehaviourIsPaid(rates: seq<U32>, log: seq<Entry>, attempts: nat, turns: seq<Turn>)
    requires AlwaysPaid(log) && Paid(log, attempts)
    ensures AlwaysPaid(log + Behaviour(rates, attempts, turns))
    decreases |turns|, attempts + 1
  {
    if turns == [] || (attempts >= MAX_RETRIES && !turns[0].woken) {
      assert log + [] == log;
    } else if attempts >= MAX_RETRIES {
      PaysForNext(log, attempts, Woken, 0);
      BehaviourIsPaid(rates, log + [Woken], 0, turns);
      Regroup(log, [Woken], Behaviour(rates, 0, turns));
    } else if Attempt(rates, turns[0].link).Established? {
      ConnectionIsPaid(rates, log, attempts, turns);
    } else {
      var e := AttemptFailed(RETRY_BASE_MS * (attempts + 1), ScheduleReconnect);
      PaysForNext(log, attempts, e, attempts + 1);
      BehaviourIsPaid(rates, log + [e], attempts + 1, turns[1..]);
      Regroup(log, [e], Behaviour(rates, attempts + 1, turns[1..]));
    }
  }

  lemma {:induction false} ConnectionIsPaid(rates: seq<U32>, log: seq<Entry>, attempts: nat, turns: seq<Turn>)
    requires AlwaysPaid(log) && Paid(log, attempts) && attempts < MAX_RETRIES
    requires turns != [] && Attempt(rates, turns[0].link).Established?
    ensures AlwaysPaid(log + Behaviour(rates, attempts, turns))
    decreases |turns|, 0
  {
    PaysForNext(log, attempts, Connected, 0);
    if turns[0].lost {
      var e, rest := LinkLost(RETRY_BASE_MS, ScheduleReconnect), Behaviour(rates, 1, turns[1..]);
      PaysForNext(log + [Connected], 0, e, 1);
      BehaviourIsPaid(rates, log + [Connected] + [e], 1, turns[1..]);
      Regroup(log + [Connected], [e], rest);
      Regroup(log, [Connected], [e] + rest);
      assert [Connected, e] + rest == [Connected] + ([e] + rest);
    }
  }

  lemma NothingIsPaid()
    ensures AlwaysPaid([]) && Paid([], 0)
  {
    var empty: seq<Entry> := [];
    assert empty[..0] == empty && Paid(empty, 0);
  }

  lemma PaidIsBounded(log: seq<Entry>)
    requires IsPaid(log)
    ensures Failures(log) <= MAX_RETRIES * (1 + Wakes(log)) + 2 * Successes(log) && SinceReset(log) <= 1500
  {
  }

  /** At every moment of every run: failed attempts are bounded by the explicit wakes and the
      successes so far, and the delays since the last reset add up to at most 1500 ms. */
  lemma RetryBound(rates: seq<U32>, turns: seq<Turn>, n: nat)
    requires n <= |Behaviour(rates, 0, turns)|
    ensures var log := Behaviour(rates, 0, turns)[..n];
            Failures(log) <= MAX_RETRIES * (1 + Wakes(log)) + 2 * Successes(log) && SinceReset(log) <= 1500
  {
    var whole := Behaviour(rates, 0, turns);
    NothingIsPaid();
    BehaviourIsPaid(rates, [], 0, turns);
    assert [] + whole == whole;
    PaidIsBounded(whole[..n]);
  }

  // ----- what the log is -----

  /** The turns used so far: one per attempt. */
  function Tries(log: seq<Entry>): nat {
    Successes(log) + Failures(log)
  }

  /** Failed attempts and lost connections since the last wake or success. */
  function Streak(log: seq<Entry>): nat {
    if log == [] || log[|log| - 1].Woken? || log[|log| - 1].Connected? then 0 else Streak(log[..|log| - 1]) + 1
  }

  predicate IsUp(log: seq<Entry>) {
    log != [] && log[|log| - 1].Connected?
  }

  /** Which entry may follow so much of the log. */
  predicate MayFollow(rates: seq<U32>, turns: seq<Turn>, before: seq<Entry>, e: Entry) {
    var n := Tries(before);
    if IsUp(before) then 0 < n <= |turns| && turns[n - 1].lost && e == LinkLost(250, ScheduleReconnect)
    else
      && n < |turns|
      && if Streak(before) == 3 then turns[n].woken && e == Woken
         else e == if Attempt(rates, turns[n].link).Established? then Connected
                   else AttemptFailed(250 * (Streak(before) + 1), ScheduleReconnect)
  }

  /** When the log may end: a connection ends by a stop, the turns run out, or three failures in a
      row meet no wake. */
  predicate MayEnd(turns: seq<Turn>, log: seq<Entry>) {
    var n := Tries(log);
    if IsUp(log) then 0 < n <= |turns| && !turns[n - 1].lost
    else n == |turns| || (n < |turns| && Streak(log) == 3 && !turns[n].woken)
  }

  ghost predicate Follows(rates: seq<U32>, turns: seq<Turn>, log: seq<Entry>) {
    forall n: nat | n < |log| :: FollowsAt(rates, turns, log, n)
  }

  predicate FollowsAt(rates: seq<U32>, turns: seq<Turn>, log: seq<Entry>, n: nat)
    requires n < |log|
  {
    MayFollow(rates, turns, log[..n], log[n])
  }

  lemma CountNext(log: seq<Entry>, e: Entry)
    ensures Tries(log + [e]) == Tries(log) + (if e.Connected? || e.AttemptFailed? then 1 else 0)
    ensures Streak(log + [e]) == if e.Woken? || e.Connected? then 0 else Streak(log) + 1
    ensures IsUp(log + [e]) == e.Connected?
  {
    Extend(log, e);
    assert (log + [e])[..|log|] == log;
  }

  lemma FollowsNext(rates: seq<U32>, turns: seq<Turn>, log: seq<Entry>, e: Entry)
    requires Follows(rates, turns, log) && MayFollow(rates, turns, log, e)
    ensures Follows(rates, turns, log + [e])
  {
    var whole := log + [e];
    forall n: nat | n < |whole| ensures FollowsAt(rates, turns, whole, n) {
      assert whole[..n] == log[..n];
      if n == |log| {
        assert log[..n] == log;
      } else {
        assert FollowsAt(rates, turns, log, n);
      }
    }
  }

  /** Between two turns: so many are used and so many failures in a row are behind. */
  ghost predicate Between(rates: seq<U32>, turns: seq<Turn>, log: seq<Entry>, attempts: nat, next: nat) {
    && Follows(rates, turns, log) && !IsUp(log) && attempts == Streak(log) <= 3 && next == Tries(log) <= |turns|
  }

  ghost predicate Complete(rates: seq<U32>, turns: seq<Turn>, log: seq<Entry>) {
    Follows(rates, turns, log) && MayEnd(turns, log)
  }

  lemma {:induction false} BehaviourCompletes(rates: seq<U32>, turns: seq<Turn>, log: seq<Entry>, attempts: nat, next: nat)
    requires Between(rates, turns, log, attempts, next)
    ensures Complete(rates, turns, log + Behaviour(rates, attempts, turns[next..]))
    decreases |turns| - next, attempts + 1
  {
    if next == |turns| || (attempts >= 3 && !turns[next].woken) {
      EndLogged(rates, turns, log, attempts, next);
    } else if attempts >= 3 {
      WakeLogged(rates, turns, log, attempts, next);
      BehaviourCompletes(rates, turns, log + [Woken], 0, next);
    } else if Attempt(rates, turns[next].link).Established? {
      ConnectionCompletes(rates, turns, log, attempts, next);
    } else {
      FailureLogged(rates, turns, log, attempts, next);
      BehaviourCompletes(rates, turns, log + [AttemptFailed(250 * (attempts + 1), ScheduleReconnect)], attempts + 1, next + 1);
    }
  }

  lemma EndLogged(rates: seq<U32>, turns: seq<Turn>, log: seq<Entry>, attempts: nat, next: nat)
    requires Between(rates, turns, log, attempts, next) && (next == |turns| || (attempts >= 3 && !turns[next].woken))
    ensures Complete(rates, turns, log + Behaviour(rates, attempts, turns[next..]))
  {
    assert log + [] == log;
  }

  lemma WakeLogged(rates: seq<U32>, turns: seq<Turn>, log: seq<Entry>, attempts: nat, next: nat)
    requires Between(rates, turns, log, attempts, next) && attempts >= 3 && next < |turns| && turns[next].woken
    ensures Between(rates, turns, log + [Woken], 0, next)
    ensures log + Behaviour(rates, attempts, turns[next..]) == log + [Woken] + Behaviour(rates, 0, turns[next..])
  {
    FollowsNext(rates, turns, log, Woken);
    CountNext(log, Woken);
    Regroup(log, [Woken], Behaviour(rates, 0, turns[next..]));
  }

  lemma FailureLogged(rates: seq<U32>, turns: seq<Turn>, log: seq<Entry>, attempts: nat, next: nat)
    requires Between(rates, turns, log, attempts, next) && attempts < 3
    requires next < |turns| && !Attempt(rates, turns[next].link).Established?
    ensures var e := AttemptFailed(250 * (attempts + 1), ScheduleReconnect);
            && Between(rates, turns, log + [e], attempts + 1, next + 1)
            && log + Behaviour(rates, attempts, turns[next..]) == log + [e] + Behaviour(rates, attempts + 1, turns[next + 1..])
  {
    var e := AttemptFailed(250 * (attempts + 1), ScheduleReconnect);
    FollowsNext(rates, turns, log, e);
    CountNext(log, e);
    assert turns[next..][1..] == turns[next + 1..];
    Regroup(log, [e], Behaviour(rates, attempts + 1, turns[next + 1..]));
  }

  lemma {:induction false} ConnectionCompletes(rates: seq<U32>, turns: seq<Turn>, log: seq<Entry>, attempts: nat, next: nat)
    requires Between(rates, turns, log, attempts, next) && attempts < 3
    requires next < |turns| && Attempt(rates, turns[next].link).Established?
    ensures Complete(rates, turns, log + Behaviour(rates, attempts, turns[next..]))
    decreases |turns| - next, 0
  {
    ConnectionLogged(rates, turns, log, attempts, next);
    if turns[next].lost {
      var lost := log + [Connected] + [LinkLost(250, ScheduleReconnect)];
      BehaviourCompletes(rates, turns, lost, 1, next + 1);
      BehaviourOfLoss(rates, turns, log, attempts, next);
    }
  }

  lemma ConnectionLogged(rates: seq<U32>, turns: seq<Turn>, log: seq<Entry>, attempts: nat, next: nat)
    requires Between(rates, turns, log, attempts, next) && attempts < 3
    requires next < |turns| && Attempt(rates, turns[next].link).Established?
    ensures if turns[next].lost
            then Between(rates, turns, log + [Connected] + [LinkLost(250, ScheduleReconnect)], 1, next + 1)
            else Complete(rates, turns, log + [Connected])
  {
    var up := log + [Connected];
    FollowsNext(rates, turns, log, Connected);
    CountNext(log, Connected);
    if turns[next].lost {
      FollowsNext(rates, turns, up, LinkLost(250, ScheduleReconnect));
      CountNext(up, LinkLost(250, ScheduleReconnect));
    }
  }

  lemma BehaviourOfLoss(rates: seq<U32>, turns: seq<Turn>, log: seq<Entry>, attempts: nat, next: nat)
    requires attempts < 3 && next < |turns| && turns[next].lost && Attempt(rates, turns[next].link).Established?
    ensures log + Behaviour(rates, attempts, turns[next..])
            == log + [Connected] + [LinkLost(250, ScheduleReconnect)] + Behaviour(rates, 1, turns[next + 1..])
  {
    var e, rest := LinkLost(250, ScheduleReconnect), Behaviour(rates, 1, turns[next + 1..]);
    assert turns[next..][1..] == turns[next + 1..];
    Regroup(log, [Connected, e], rest);
    assert log + [Connected] + [e] == log + [Connected, e];
  }

  lemma OneMayFollow(rates: seq<U32>, turns: seq<Turn>, before: seq<Entry>, e: Entry, f: Entry)
    requires MayFollow(rates, turns, before, e) && MayFollow(rates, turns, before, f)
    ensures e == f
  {
  }

  /** Only one log is complete. */
  lemma {:induction false} CompleteAgree(rates: seq<U32>, turns: seq<Turn>, a: seq<Entry>, b: seq<Entry>, n: nat)
    requires Follows(rates, turns, a) && Follows(rates, turns, b) && n <= |a| && n <= |b|
    ensures a[..n] == b[..n]
  {
    if n > 0 {
      CompleteAgree(rates, turns, a, b, n - 1);
      assert FollowsAt(rates, turns, a, n - 1) && FollowsAt(rates, turns, b, n - 1);
      AgreeNext(rates, turns, a, b, n);
    }
  }

  lemma AgreeNext(rates: seq<U32>, turns: seq<Turn>, a: seq<Entry>, b: seq<Entry>, n: nat)
    requires 0 < n <= |a| && n <= |b| && a[..n - 1] == b[..n - 1]
    requires FollowsAt(rates, turns, a, n - 1) && FollowsAt(rates, turns, b, n - 1)
    ensures a[..n] == b[..n]
  {
    OneMayFollow(rates, turns, a[..n - 1], a[n - 1], b[n - 1]);
    assert a[..n] == a[..n - 1] + [a[n - 1]] && b[..n] == b[..n - 1] + [b[n - 1]];
  }

  lemma NoPrefixEnds(rates: seq<U32>, turns: seq<Turn>, log: seq<Entry>, n: nat)
    requires Follows(rates, turns, log) && n < |log|
    ensures !MayEnd(turns, log[..n])
  {
    assert FollowsAt(rates, turns, log, n);
  }

  lemma NoneGoesOn(rates: seq<U32>, turns: seq<Turn>, a: seq<Entry>, b: seq<Entry>)
    requires Complete(rates, turns, a) && Complete(rates, turns, b)
    ensures |b| <= |a|
  {
    if |a| < |b| {
      CompleteAgree(rates, turns, a, b, |a|);
      assert a[..|a|] == a;
      NoPrefixEnds(rates, turns, b, |a|);
    }
  }

  /** What the supervisor does is exactly this. One attempt per turn, the k-th with the k-th turn's
      link: it is logged Connected if it is Established, else as a failure with a delay of 250 ms for
      each failure in a row. A lost connection is the first failure of the next row. After three in a
      row nothing happens until a wake. The log ends only when a connection is stopped, the turns run
      out, or three failures in a row are not woken. */
  lemma BehaviourExactly(rates: seq<U32>, turns: seq<Turn>, log: seq<Entry>)
    ensures log == Behaviour(rates, 0, turns) <==> Complete(rates, turns, log)
  {
    var whole := Behaviour(rates, 0, turns);
    BehaviourCompletes(rates, turns, [], 0, 0);
    assert turns[0..] == turns && [] + whole == whole;
    if Complete(rates, turns, log) {
      NoneGoesOn(rates, turns, log, whole);
      NoneGoesOn(rates, turns, whole, log);
      CompleteAgree(rates, turns, log, whole, |log|);
      assert log[..|log|] == log && whole[..|whole|] == whole;
    }
  }

  class Supervisor {
    const rates: seq<U32>
    const machine: ExpansionStateMachine
    var negotiated: U32

    constructor (rates: seq<U32>, machine: ExpansionStateMachine)
      ensures this.rates == rates && this.machine == machine
    {
      this.rates, this.machine, negotiated := rates, machine, 0;
    }

    /** One attempt, on a machine initialised for it. It ends in Ready exactly on success or when
        the UART refuses the accepted rate. */
    method Establish(link: Link) returns (result: Result)
      modifies machine, `negotiated
      ensures result == Attempt(rates, link)
      ensures result.Established? ==> negotiated == result.rate && machine.Value() == Machine(Ready, 0)
      ensures !result.Established? ==> negotiated == 0
      ensures machine.reconnectAttempts == 0
    {
      machine.Init();
      negotiated := 0;
      var accepted, action := machine.Apply(Start);
      if !accepted || action != DetectPulse {
        return Failed;
      }
      if !link.configured || !link.pulsed {
        return DriverError;
      }
      if link.greeting != Some(P.Heartbeat) {
        return NoHeartbeat;
      }
      accepted, action := machine.Apply(HeartbeatReceived);
      if !accepted {
        return Failed;
      }
      result := Negotiate(link.exchanges);
    }

    method Negotiate(exchanges: nat -> Exchange) returns (result: Result)
      requires machine.Value() == Machine(NegotiatingBaud, 0) && negotiated == 0
      modifies machine, `negotiated
      ensures result == Search(rates, exchanges, 0)
      ensures result.Established? ==> negotiated == result.rate && machine.Value() == Machine(Ready, 0)
      ensures !result.Established? ==> negotiated == 0
      ensures machine.reconnectAttempts == 0
    {
      for index := 0 to |rates|
        invariant machine.Value() == Machine(NegotiatingBaud, 0) && negotiated == 0
        invariant Search(rates, exchanges, 0) == Search(rates, exchanges, index)
      {
        var exchange := exchanges(index);
        if !exchange.sent {
          return SendError;
        }
        if exchange.response.None? || !exchange.response.value.Status? {
          return InvalidResponse;
        }
        if exchange.response.value.status == P.ERROR_BAUD {
          var _, _ := machine.Apply(BaudRejected);
          continue;
        }
        if exchange.response.value.status != P.ERROR_NONE {
          return InvalidResponse;
        }
        var accepted, _ := machine.Apply(BaudAccepted);
        if !accepted {
          return InvalidResponse;
        }
        if !exchange.switched {
          return DriverError;
        }
        negotiated := rates[index];
        return Established(rates[index]);
      }
      return NotSupported;
    }

    /** One attempt and, if it succeeds, the connection it opens. Every timeout it applies
        schedules a reconnection: the machine's own give-up branch is never taken. */
    method Serve(turn: Turn, before: nat) returns (entries: seq<Entry>, attempts: nat, stopped: bool)
      requires before < MAX_RETRIES
      modifies machine, `negotiated
      ensures var established := Attempt(rates, turn.link).Established?;
              && (stopped <==> established && !turn.lost)
              && attempts == (if stopped then 0 else if established then 1 else before + 1)
              && entries == if stopped then [Connected]
                            else if established then [Connected, LinkLost(RETRY_BASE_MS, ScheduleReconnect)]
                            else [AttemptFailed(RETRY_BASE_MS * attempts, ScheduleReconnect)]
    {
      attempts := before;
      var result := Establish(turn.link);
      if !result.Established? {
        attempts := attempts + 1;
        var _, action := machine.Apply(Timeout);
        return [AttemptFailed(RETRY_BASE_MS * attempts, action)], attempts, false;
      }
      attempts := 0;
      if !turn.lost {
        return [Connected], attempts, true;
      }
      var _, action := machine.Apply(Timeout);
      attempts := attempts + 1;
      return [Connected, LinkLost(RETRY_BASE_MS * attempts, action)], attempts, false;
    }

    /** The supervisor's loop. */
    method Run(turns: seq<Turn>) returns (log: seq<Entry>)
      modifies this, machine
      ensures log == Behaviour(rates, 0, turns)
    {
      log := [];
      var attempts, next := 0, 0;
      while next < |turns|
        invariant 0 <= next <= |turns| && 0 <= attempts <= MAX_RETRIES
        invariant Behaviour(rates, 0, turns) == log + Behaviour(rates, attempts, turns[next..])
      {
        ghost var todo := turns[next..];
        assert todo[0] == turns[next] && todo[1..] == turns[next + 1..];
        if attempts >= MAX_RETRIES {
          if !turns[next].woken {
            assert log + [] == log;
            return;
          }
          Regroup(log, [Woken], Behaviour(rates, 0, todo));
          attempts := 0;
          log := log + [Woken];
        }
        var entries, stopped;
        ghost var before := attempts;
        entries, attempts, stopped := Serve(turns[next], attempts);
        next := next + 1;
        if stopped {
          log := log + entries;
          return;
        }
        assert Behaviour(rates, before, todo) == entries + Behaviour(rates, attempts, todo[1..]);
        Regroup(log, entries, Behaviour(rates, attempts, todo[1..]));
        log := log + entries;
      }
    }
  }
}
