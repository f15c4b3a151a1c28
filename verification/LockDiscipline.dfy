/** How the payment transactions hold and wait for Redlocks. */
module LockDiscipline {
  import opened Interleaving
  import opened Locks

  /** The Redlock a client is about to ask for, if any. */
  function Wanted(cl: Client): set<Lock> {
    match cl.phase
    case Waiting => {Outer(cl.job)}
    case Ready(n) => if n < |cl.script| then {RowLock(cl.script[n].row)} else {}
    case _ => {}
  }

  /** At most one row's lock at a time, and no lock below or beside one already held. */
  lemma PhaseInOrder(cl: Client)
    requires PhaseOk(cl)
    ensures LocksOf(cl) <= {Outer(cl.job)} + InnerLocks(cl) && |InnerLocks(cl)| <= 1
    ensures Wanted(cl) != {} ==> LocksOf(cl) == if cl.phase.Waiting? then {} else {Outer(cl.job)}
  {
  }

  lemma WantedAboveOuter(cl: Client, held: Lock, wanted: Lock)
    requires !cl.phase.Waiting? && held == Outer(cl.job) && wanted in Wanted(cl)
    ensures Rank(held) < Rank(wanted)
  {
  }

  /** A client holds its outer lock and at most one row's lock, asks only for locks above all it holds,
      and holds nothing before its first lock and after its last release. */
  lemma HoldsInOrder(s: System, c: nat)
    requires RedlocksOk(s.redlocks, s.clients) && c in s.clients && PhaseOk(s.clients[c])
    ensures var cl := s.clients[c];
            && HeldBy(s.redlocks, c) <= {Outer(cl.job)} + InnerLocks(cl) && |InnerLocks(cl)| <= 1
            && (forall held, wanted | held in HeldBy(s.redlocks, c) && wanted in Wanted(cl) ::
               Rank(held) < Rank(wanted))
            && (cl.phase.Waiting? || cl.phase.Closed? ==> HeldBy(s.redlocks, c) == {})
  {
    var cl := s.clients[c];
    assert HeldBy(s.redlocks, c) == LocksOf(cl);
    PhaseInOrder(cl);
    forall held, wanted | held in LocksOf(cl) && wanted in Wanted(cl) ensures Rank(held) < Rank(wanted) {
      WantedAboveOuter(cl, held, wanted);
    }
  }

  /** `c` cannot go on before `d` releases a Redlock. */
  ghost predicate WaitsOn(s: System, c: nat, d: nat) {
    && c in s.clients && d in s.clients
    && exists l :: l in Wanted(s.clients[c]) && l in HeldBy(s.redlocks, d)
  }

  ghost predicate WaitsOnNext(s: System, circle: seq<nat>, i: nat)
    requires i < |circle|
  {
    WaitsOn(s, circle[i], circle[(i + 1) % |circle|])
  }

  /** No clients wait for one another's Redlocks in a circle, however many they are. */
  lemma NoCircularWait(s: System, circle: seq<nat>)
    requires SystemOk(s) && circle != []
    ensures exists i | 0 <= i < |circle| :: !WaitsOnNext(s, circle, i)
  {
    var n := |circle|;
    if forall i | 0 <= i < n :: WaitsOnNext(s, circle, i) {
      assert WaitsOnNext(s, circle, n - 1) && WaitsOnNext(s, circle, 0) && WaitsOnNext(s, circle, 1 % n);
      WaitedOnHoldsOuterOnly(s, circle[n - 1], circle[0]);
      WaitedOnHoldsOuterOnly(s, circle[0], circle[1 % n]);
      assert false;
    }
  }

  /** A client that is waited on, and waits itself, is past its first lock and holds only that one:
      whoever waits on it still waits for a first lock, so holds nothing. */
  lemma WaitedOnHoldsOuterOnly(s: System, c: nat, d: nat)
    requires SystemOk(s) && WaitsOn(s, c, d) && Wanted(s.clients[d]) != {}
    ensures s.clients[c].phase.Waiting? && s.clients[d].phase.Ready?
  {
    assert ClientOk(s.db, s.clients[d]);
    assert HeldBy(s.redlocks, d) == LocksOf(s.clients[d]);
  }

  lemma Prepend(s: System, a: Action, way: seq<Action>)
    requires Enabled(s, a) && Execution(Next(s, a), way)
    ensures Execution(s, [a] + way) && Final(s, [a] + way) == Final(Next(s, a), way)
  {
    assert ([a] + way)[1..] == way;
  }

  /** Steps by which a client `c` whose transaction threw an error leaves. */
  predicate Unwinding(a: Action, c: nat) {
    a in {Fail(c), UnlockFailed(c), Rollback(c), UnlockOuter(c)}
  }

  /** How far a client is from having left. */
  function Distance(phase: Phase): nat {
    match phase
    case Failed(inner, _) => if inner == {} then 2 else 3
    case Closing(_) => 1
    case Closed(_) => 0
    case _ => 4
  }

  /** The client is inside a transaction that has not committed, or leaves one that did not. */
  predicate Unsuccessful(phase: Phase) {
    !phase.Waiting? && (phase.Closing? || phase.Closed? ==> !phase.committed)
  }

  function Unwind(phase: Phase, c: nat): Action {
    if phase.Closing? then UnlockOuter(c)
    else if phase.Failed? then (if phase.inner == {} then Rollback(c) else UnlockFailed(c))
    else Fail(c)
  }

  lemma UnwindProgress(s: System, c: nat)
    requires c in s.clients && Unsuccessful(s.clients[c].phase) && !s.clients[c].phase.Closed?
    ensures var a := Unwind(s.clients[c].phase, c);
            && Unwinding(a, c) && Enabled(s, a)
            && c in Next(s, a).clients && Unsuccessful(Next(s, a).clients[c].phase)
            && (Distance(Next(s, a).clients[c].phase) < Distance(s.clients[c].phase))
  {
  }

  lemma UnwindOnce(s: System, c: nat) returns (a: Action)
    requires SystemOk(s) && c in s.clients && Unsuccessful(s.clients[c].phase) && !s.clients[c].phase.Closed?
    ensures Unwinding(a, c) && Enabled(s, a)
    ensures SystemOk(Next(s, a)) && Committed(Next(s, a)) == Committed(s)
    ensures c in Next(s, a).clients && Unsuccessful(Next(s, a).clients[c].phase)
    ensures Distance(Next(s, a).clients[c].phase) < Distance(s.clients[c].phase)
  {
    a := Unwind(s.clients[c].phase, c);
    UnwindProgress(s, c);
    StepRefines(s, a);
  }

  /** By `way`, steps of its own, `c` leaves with nothing locked and nothing committed. */
  ghost predicate LeavesBy(s: System, c: nat, way: seq<Action>) {
    && (forall a | a in way :: Unwinding(a, c))
    && Execution(s, way)
    && var t := Final(s, way);
       && HeldBy(t.redlocks, c) == {} && RowsHeldBy(t.rowlocks, c) == {}
       && Committed(t) == Committed(s)
       && c in t.clients && t.clients[c].phase == Closed(false)
  }

  ghost predicate CanLeave(s: System, c: nat) {
    exists way :: LeavesBy(s, c, way)
  }

  lemma LeavesAfter(s: System, a: Action, c: nat)
    requires Enabled(s, a) && Unwinding(a, c) && Committed(Next(s, a)) == Committed(s)
    requires CanLeave(Next(s, a), c)
    ensures CanLeave(s, c)
  {
    var way :| LeavesBy(Next(s, a), c, way);
    Prepend(s, a, way);
    assert LeavesBy(s, c, [a] + way);
  }

  lemma HasLeft(s: System, c: nat)
    requires SystemOk(s) && c in s.clients && s.clients[c].phase == Closed(false)
    ensures LeavesBy(s, c, [])
  {
    assert ClientOk(s.db, s.clients[c]);
    assert HeldBy(s.redlocks, c) == LocksOf(s.clients[c]) == {};
    assert RowsHeldBy(s.rowlocks, c) == s.clients[c].before.Keys == {};
  }

  /** Whatever goes wrong inside a transaction, and however far it got, its client can by its own steps alone unlock,
      roll back and leave; then it holds no Redlock and no row, and the committed database is as it was. */
  lemma {:induction false} FailureReleasesEverything(s: System, c: nat)
    requires SystemOk(s) && c in s.clients && Unsuccessful(s.clients[c].phase)
    ensures CanLeave(s, c)
    decreases Distance(s.clients[c].phase)
  {
    if s.clients[c].phase.Closed? {
      HasLeft(s, c);
      assert LeavesBy(s, c, []);
    } else {
      var a := UnwindOnce(s, c);
      FailureReleasesEverything(Next(s, a), c);
      LeavesAfter(s, a, c);
    }
  }

  // ---------------------------------------------------------------- every lock is given back once

  function Times(b: bool): nat {
    if b then 1 else 0
  }

  predicate Acquires(s: System, a: Action, c: nat, l: Lock)
    requires Enabled(s, a)
  {
    match a
    case LockOuter(d) => d == c && l == Outer(s.clients[d].job)
    case LockRow(d) => d == c && l == RowLock(s.clients[d].script[s.clients[d].phase.next].row)
    case _ => false
  }

  predicate Releases(s: System, a: Action, c: nat, l: Lock)
    requires Enabled(s, a)
  {
    (a.UnlockRow? || a.UnlockFailed? || a.UnlockOuter?) && a.c == c && l in Released(s, a)
  }

  /** How often `c` acquires `l`. */
  function Acquired(s: System, actions: seq<Action>, c: nat, l: Lock): nat
    requires Execution(s, actions)
    decreases |actions|
  {
    if actions == [] then 0
    else Times(Acquires(s, actions[0], c, l)) + Acquired(Next(s, actions[0]), actions[1..], c, l)
  }

  /** How often `c` gives `l` back. */
  function GivenBack(s: System, actions: seq<Action>, c: nat, l: Lock): nat
    requires Execution(s, actions)
    decreases |actions|
  {
    if actions == [] then 0
    else Times(Releases(s, actions[0], c, l)) + GivenBack(Next(s, actions[0]), actions[1..], c, l)
  }

  predicate Holds(s: System, c: nat, l: Lock) {
    l in s.redlocks && s.redlocks[l] == c
  }

  lemma StepBalancesLocks(s: System, a: Action, c: nat, l: Lock)
    requires RedlocksOk(s.redlocks, s.clients) && Enabled(s, a)
    requires !a.Outside? && a.c in s.clients ==> PhaseOk(s.clients[a.c])
    ensures Times(Holds(s, c, l)) + Times(Acquires(s, a, c, l)) ==
            Times(Holds(Next(s, a), c, l)) + Times(Releases(s, a, c, l))
  {
    if a.UnlockRow? || a.UnlockFailed? || a.UnlockOuter? {
      ReleasedLocks(s, a);
      assert l in LocksOf(s.clients[a.c]) <==> l in HeldBy(s.redlocks, a.c);
    } else if !a.Outside? && !a.LockOuter? && !a.LockRow? {
      SameLocks(s, a);
    }
  }

  lemma {:induction false} LocksBalance(s: System, actions: seq<Action>, c: nat, l: Lock)
    requires SystemOk(s) && Execution(s, actions)
    ensures Times(Holds(s, c, l)) + Acquired(s, actions, c, l) ==
            Times(Holds(Final(s, actions), c, l)) + GivenBack(s, actions, c, l)
    decreases |actions|
  {
    if actions != [] {
      assert !actions[0].Outside? && actions[0].c in s.clients ==> ClientOk(s.db, s.clients[actions[0].c]);
      StepBalancesLocks(s, actions[0], c, l);
      StepRefines(s, actions[0]);
      LocksBalance(Next(s, actions[0]), actions[1..], c, l);
    }
  }

  /** On whatever path a client has left, it has given back each lock exactly as often as it acquired it. */
  lemma EveryLockGivenBack(s: System, actions: seq<Action>, c: nat, l: Lock)
    requires SystemOk(s) && Execution(s, actions) && c !in s.clients
    requires c in Final(s, actions).clients && Final(s, actions).clients[c].phase.Closed?
    ensures Acquired(s, actions, c, l) == GivenBack(s, actions, c, l)
  {
    LocksBalance(s, actions, c, l);
    ExecutionRefines(s, actions);
    NothingHeld(s, c, l);
    NothingHeld(Final(s, actions), c, l);
  }

  lemma NothingHeld(s: System, c: nat, l: Lock)
    requires RedlocksOk(s.redlocks, s.clients)
    requires c in s.clients ==> s.clients[c].phase.Closed?
    ensures !Holds(s, c, l)
  {
    assert Holds(s, c, l) ==> l in HeldBy(s.redlocks, c);
  }
}
