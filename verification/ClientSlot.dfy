/** The one client slot: the accept loop, any number of client tasks and the flag they share. */
module ClientSlot {

  /** A client task serves its connection, cleans up, gives the slot back and then only ends. */
  datatype Task = Serving | Closing | Ended

  /** The accept loop: waiting, with an accepted connection in hand, with the slot claimed for it, or
      about to answer Busy. */
  datatype Server = Accepting | Accepted | Claimed | Refusing

  datatype Slot = Slot(active: bool, server: Server, tasks: seq<Task>)

  datatype Move =
    | Accept
    | TestAndSet                 // claim_client
    | Refuse                     // reject_busy_client
    | Spawn(ok: bool)            // allocation and task creation; on failure the slot is given back
    | Close(i: nat)              // task i leaves its receive loop or the proxy
    | GiveBack(i: nat)           // task i reaches release_client

  const BOOT := Slot(false, Accepting, [])

  predicate Enabled(s: Slot, a: Move) {
    match a
    case Accept => s.server.Accepting?
    case TestAndSet => s.server.Accepted?
    case Refuse => s.server.Refusing?
    case Spawn(_) => s.server.Claimed?
    case Close(i) => i < |s.tasks| && s.tasks[i].Serving?
    case GiveBack(i) => i < |s.tasks| && s.tasks[i].Closing?
  }

  function Next(s: Slot, a: Move): Slot
    requires Enabled(s, a)
  {
    match a
    case Accept => s.(server := Accepted)
    case TestAndSet => s.(active := true, server := if s.active then Refusing else Claimed)
    case Refuse => s.(server := Accepting)
    case Spawn(ok) => s.(active := ok, server := Accepting, tasks := if ok then s.tasks + [Serving] else s.tasks)
    case Close(i) => s.(tasks := s.tasks[i := Closing])
    case GiveBack(i) => s.(active := false, tasks := s.tasks[i := Ended])
  }

  predicate StepAt(states: seq<Slot>, moves: seq<Move>, i: nat)
    requires |states| == |moves| + 1 && i < |moves|
  {
    Enabled(states[i], moves[i]) && states[i + 1] == Next(states[i], moves[i])
  }

  ghost predicate IsRun(states: seq<Slot>, moves: seq<Move>) {
    && |states| == |moves| + 1 && states[0] == BOOT
    && forall i: nat | i < |moves| :: StepAt(states, moves, i)
  }

  predicate Live(s: Slot, i: int) {
    0 <= i < |s.tasks| && !s.tasks[i].Ended?
  }

  /** The flag is set exactly while the accept loop or one task has the slot, and only one does. */
  ghost predicate Exclusive(s: Slot) {
    && (forall i, j | Live(s, i) && Live(s, j) :: i == j)
    && (s.server.Claimed? ==> forall i :: !Live(s, i))
    && (s.active <==> s.server.Claimed? || exists i :: Live(s, i))
  }

  lemma SpawnKeeps(s: Slot, ok: bool)
    requires Exclusive(s) && Enabled(s, Spawn(ok))
    ensures Exclusive(Next(s, Spawn(ok)))
  {
    var t := Next(s, Spawn(ok));
    if ok {
      assert Live(t, |s.tasks|);
      forall i | Live(t, i) ensures i == |s.tasks| {
        if i < |s.tasks| {
          assert Live(s, i);
        }
      }
    } else {
      forall i ensures !Live(t, i) {
        assert !Live(s, i);
      }
    }
  }

  lemma CloseKeeps(s: Slot, k: nat)
    requires Exclusive(s) && Enabled(s, Close(k))
    ensures Exclusive(Next(s, Close(k)))
  {
    var t := Next(s, Close(k));
    assert Live(s, k) && Live(t, k);
    assert forall i :: Live(t, i) <==> Live(s, i);
  }

  lemma GiveBackKeeps(s: Slot, k: nat)
    requires Exclusive(s) && Enabled(s, GiveBack(k))
    ensures Exclusive(Next(s, GiveBack(k)))
  {
    var t := Next(s, GiveBack(k));
    assert Live(s, k);
    forall i ensures !Live(t, i) {
      if i != k {
        assert !Live(s, i);
      }
    }
  }

  lemma StepKeeps(s: Slot, a: Move)
    requires Exclusive(s) && Enabled(s, a)
    ensures Exclusive(Next(s, a))
  {
    match a
    case Accept | TestAndSet | Refuse => assert forall i :: Live(Next(s, a), i) <==> Live(s, i);
    case Spawn(ok) => SpawnKeeps(s, ok);
    case Close(i) => CloseKeeps(s, i);
    case GiveBack(i) => GiveBackKeeps(s, i);
  }

  lemma {:induction false} AlwaysExclusive(states: seq<Slot>, moves: seq<Move>, k: nat)
    requires IsRun(states, moves) && k < |states|
    ensures Exclusive(states[k])
  {
    if k > 0 {
      AlwaysExclusive(states, moves, k - 1);
      assert StepAt(states, moves, k - 1);
      StepKeeps(states[k - 1], moves[k - 1]);
    }
  }

  /** However connections arrive, task creation fails and tasks interleave, at most one client task
      is live, and a connection is answered Busy exactly when one is live at the moment it asks for
      the slot. */
  lemma OneClient(states: seq<Slot>, moves: seq<Move>, k: nat)
    requires IsRun(states, moves) && k < |states|
    ensures forall i, j | Live(states[k], i) && Live(states[k], j) :: i == j
    ensures k < |moves| && moves[k].TestAndSet? ==>
              (states[k + 1].server.Refusing? <==> exists i :: Live(states[k], i))
  {
    AlwaysExclusive(states, moves, k);
    assert k < |moves| ==> StepAt(states, moves, k);
  }
}
