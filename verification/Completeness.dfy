/** The converse of the refinement: every run of successful atomic operations is what some interleaved execution
    commits. */
module Completeness {
  import opened Interleaving
  import opened Locks
  import opened Reservation
  import opened Selection
  import opened Shop
  import Undo

  /** Whatever a payment refers to still has its rows, since no operation removes a row. */
  ghost predicate Backed(db: Db) {
    forall p | p in db.payments && db.payments[p].orderId in db.orders ::
        Known(db.rows, Takes(db.orders[db.payments[p].orderId]))
  }

  lemma BackedStep(db: Db, op: Op)
    requires Backed(db) && Lifecycle(db) && Can(db, op)
    ensures Backed(After(db, op))
  {
    var db' := After(db, op);
    forall p | p in db'.payments && db'.payments[p].orderId in db'.orders
      ensures Known(db'.rows, Takes(db'.orders[db'.payments[p].orderId]))
    {
      RowsStay(db, op);
      var o := db'.payments[p].orderId;
      assert o in db.orders && Takes(db'.orders[o]) == Takes(db.orders[o]) by {
        OrdersStay(db, op, o);
      }
    }
  }

  lemma RowsStay(db: Db, op: Op)
    requires Can(db, op)
    ensures db.rows.Keys <= After(db, op).rows.Keys
  {
  }

  lemma OrdersStay(db: Db, op: Op, o: nat)
    requires Coherent(db) && Can(db, op) && o in After(db, op).orders
    requires exists p :: p in After(db, op).payments && After(db, op).payments[p].orderId == o
    ensures o in db.orders && After(db, op).orders[o].(status := db.orders[o].status) == db.orders[o]
  {
  }

  /** All clients but `c` have left. */
  ghost predicate Alone(s: System, c: nat) {
    c in s.clients && forall d | d in s.clients && d != c :: s.clients[d].phase.Closed?
  }

  ghost predicate Quiet(s: System) {
    forall d | d in s.clients :: s.clients[d].phase.Closed?
  }

  lemma NoOtherRedlocks(s: System, c: nat, l: Lock)
    requires RedlocksOk(s.redlocks, s.clients) && Alone(s, c) && l in s.redlocks
    ensures l in LocksOf(s.clients[c])
  {
    assert l in HeldBy(s.redlocks, s.redlocks[l]);
  }

  lemma NoOtherRowlocks(s: System, c: nat, r: Row)
    requires RowlocksOk(s.rowlocks, s.clients) && Alone(s, c) && r in s.rowlocks
    requires forall d | d in s.clients && s.clients[d].phase.Closed? :: s.clients[d].before == map[]
    ensures s.rowlocks[r] == c
  {
    assert r in RowsHeldBy(s.rowlocks, s.rowlocks[r]);
  }

  lemma ClosedHoldNothing(s: System)
    requires SystemOk(s)
    ensures forall d | d in s.clients && s.clients[d].phase.Closed? :: s.clients[d].before == map[]
  {
    forall d | d in s.clients && s.clients[d].phase.Closed? ensures s.clients[d].before == map[] {
      ClosedHoldsNothing(s.db, s.clients[d]);
    }
  }

  lemma ClosedHoldsNothing(db: Db, cl: Client)
    requires ClientOk(db, cl) && cl.phase.Closed?
    ensures cl.before == map[]
  {
  }

  /** The only client present meets no lock but its own. */
  lemma NoOtherLocks(s: System, c: nat, l: Lock, r: Row)
    requires SystemOk(s) && Alone(s, c)
    ensures l in s.redlocks ==> l in LocksOf(s.clients[c])
    ensures r in s.rowlocks ==> s.rowlocks[r] == c
  {
    ClosedHoldNothing(s);
    if l in s.redlocks {
      NoOtherRedlocks(s, c, l);
    }
    if r in s.rowlocks {
      NoOtherRowlocks(s, c, r);
    }
  }

  /** What is in place in a row is what is committed there, less what the client has taken so far. */
  lemma InPlace(s: System, c: nat, r: Row)
    requires SystemOk(s) && Alone(s, c) && Working(s.clients[c].phase) && r in s.db.rows
    ensures var cl := s.clients[c];
            Done(cl.phase) <= |cl.script| && s.db.rows[r] == Committed(s).rows[r] + Change(cl, Done(cl.phase), r)
  {
    var cl := s.clients[c];
    NoOtherLocks(s, c, RowLock(r), r);
    assert ClientOk(s.db, cl);
    assert r in cl.before <==> r in RowsHeldBy(s.rowlocks, c);
    if r !in cl.before {
      DemandElsewhere(cl.script[..Done(cl.phase)], r);
    }
  }

  /** A script whose summed demand is covered never meets an insufficient row on the way. */
  lemma CoveredOnTheWay(order: Order, rows: map<Row, int>, n: nat)
    requires Affordable(rows, Takes(order)) && n < |Takes(order)|
    ensures Takes(order)[n].amount <= rows[Takes(order)[n].row] - Demand(Takes(order)[..n], Takes(order)[n].row)
  {
    var ts := Takes(order);
    var r := ts[n].row;
    assert ts[n] in ts;
    assert ts[..n + 1][..n] == ts[..n];
    if n == |order.items| {
      assert ts[..n + 1] == ts;
    } else {
      var items := ItemTakes(order.items);
      assert ts[..n + 1] == items[..n + 1];
      DemandPrefix(items, n + 1, r);
      TakesDemand(order, r);
    }
  }

  lemma ReadsWhenEnough(s: System, c: nat)
    requires c in s.clients && s.clients[c].phase.Inside? && PhaseOk(s.clients[c])
    requires var t := s.clients[c].script[s.clients[c].phase.next];
             && t.row in s.db.rows && (t.row in s.rowlocks ==> s.rowlocks[t.row] == c)
             && (s.clients[c].job.PayJob? ==> t.amount <= s.db.rows[t.row])
             && (t.row.Balance? ==> t.row.userId in s.db.users || s.clients[c].job.PayJob?)
    ensures Enabled(s, ReadRow(c))
  {
  }

  lemma CanRead(s: System, c: nat, paymentId: nat)
    requires SystemOk(s) && Alone(s, c) && s.clients[c].phase.Inside?
    requires Can(Committed(s), OpOf(s.clients[c], paymentId)) && Known(Committed(s).rows, s.clients[c].script)
    ensures Enabled(s, ReadRow(c))
  {
    var cl := s.clients[c];
    assert ClientOk(s.db, cl);
    var t := cl.script[cl.phase.next];
    assert t in cl.script;
    LastTake(s.db, cl.job);
    NoOtherLocks(s, c, RowLock(t.row), t.row);
    if cl.job.PayJob? {
      EnoughInPlace(s, c);
    }
    ReadsWhenEnough(s, c);
  }

  lemma EnoughInPlace(s: System, c: nat)
    requires SystemOk(s) && Alone(s, c) && s.clients[c].phase.Inside? && s.clients[c].job.PayJob?
    requires PhaseOk(s.clients[c]) && WorkOk(s.db, s.clients[c])
    requires Affordable(Committed(s).rows, s.clients[c].script)
    ensures var t := s.clients[c].script[s.clients[c].phase.next];
            t.row in s.db.rows && t.amount <= s.db.rows[t.row]
  {
    var cl := s.clients[c];
    var t := cl.script[cl.phase.next];
    assert t in cl.script;
    InPlace(s, c, t.row);
    CoveredOnTheWay(s.db.orders[cl.job.orderId], Committed(s).rows, cl.phase.next);
  }

  /** What the client does next if nothing fails. */
  function Forward(cl: Client, c: nat, paymentId: nat): Action {
    match cl.phase
    case Waiting => LockOuter(c)
    case Guarding => Guard(c)
    case Ready(n) => if n < |cl.script| then LockRow(c) else Commit(c, paymentId)
    case Inside(_) => ReadRow(c)
    case Checked(_) => UpdateRow(c)
    case Taken(_) => UnlockRow(c)
    case _ => UnlockOuter(c)
  }

  function Stage(phase: Phase): nat {
    match phase
    case Waiting => 4
    case Guarding => 3
    case Closing(_) => 1
    case Closed(_) => 0
    case _ => 2
  }

  function Ahead(cl: Client): int {
    match cl.phase
    case Ready(n) => 4 * (|cl.script| - n)
    case Inside(n) => 4 * (|cl.script| - n) - 1
    case Checked(n) => 4 * (|cl.script| - n) - 2
    case Taken(n) => 4 * (|cl.script| - n) - 3
    case _ => 0
  }

  /** The client `c` is on its way to commit `OpOf(cl, paymentId)`, which the committed rows allow. */
  ghost predicate OnItsWay(s: System, c: nat, paymentId: nat) {
    SystemOk(s) && Bound(s, c, paymentId)
  }

  ghost predicate Bound(s: System, c: nat, paymentId: nat) {
    && Alone(s, c) && Coming(s.clients[c].phase)
    && paymentId !in s.db.payments
    && Can(Committed(s), OpOf(s.clients[c], paymentId))
    && Backed(Committed(s))
  }

  predicate Coming(phase: Phase) {
    phase.Waiting? || phase.Guarding? || Working(phase)
  }

  lemma ScriptKnown(s: System, c: nat, paymentId: nat)
    requires OnItsWay(s, c, paymentId)
    ensures Admitted(s.db, s.clients[c].job)
    ensures Known(Committed(s).rows, ScriptOf(s.db, s.clients[c].job))
    ensures Working(s.clients[c].phase) ==> s.clients[c].script == ScriptOf(s.db, s.clients[c].job)
  {
    assert ClientOk(s.db, s.clients[c]);
  }

  /** The lock that the client asks for next; none before a commit. */
  function NextLock(cl: Client): Lock {
    if cl.phase.Ready? && cl.phase.next < |cl.script| then RowLock(cl.script[cl.phase.next].row) else Outer(cl.job)
  }

  lemma LocksWhenFree(s: System, c: nat, paymentId: nat)
    requires c in s.clients && (s.clients[c].phase.Waiting? || s.clients[c].phase.Ready?) && PhaseOk(s.clients[c])
    requires Forward(s.clients[c], c, paymentId).Commit? || NextLock(s.clients[c]) !in s.redlocks
    requires Admitted(s.db, s.clients[c].job) && paymentId !in s.db.payments
    ensures Enabled(s, Forward(s.clients[c], c, paymentId))
  {
  }

  lemma CanLock(s: System, c: nat, paymentId: nat)
    requires OnItsWay(s, c, paymentId) && Admitted(s.db, s.clients[c].job)
    requires s.clients[c].phase.Waiting? || s.clients[c].phase.Ready?
    ensures Enabled(s, Forward(s.clients[c], c, paymentId))
  {
    PhaseFine(s, c);
    NoOtherLocks(s, c, NextLock(s.clients[c]), Stock(0));
    LocksWhenFree(s, c, paymentId);
  }

  lemma CanGoForward(s: System, c: nat, paymentId: nat)
    requires OnItsWay(s, c, paymentId)
    ensures Enabled(s, Forward(s.clients[c], c, paymentId))
  {
    var cl := s.clients[c];
    ScriptKnown(s, c, paymentId);
    if cl.phase.Inside? {
      CanRead(s, c, paymentId);
    } else if cl.phase.Waiting? || cl.phase.Ready? {
      CanLock(s, c, paymentId);
    } else {
      assert ClientOk(s.db, cl);
    }
  }

  predicate Closer(cl: Client, was: Client) {
    Stage(cl.phase) < Stage(was.phase) || (Stage(cl.phase) == Stage(was.phase) && 0 <= Ahead(cl) < Ahead(was))
  }

  /** Each step brings the client closer to its commit, and that is the only one that shows. */
  lemma GoesForward(s: System, c: nat, paymentId: nat)
    requires c in s.clients && Coming(s.clients[c].phase) && PhaseOk(s.clients[c])
    requires Enabled(s, Forward(s.clients[c], c, paymentId))
    ensures var a := Forward(s.clients[c], c, paymentId);
            c in Next(s, a).clients
            && var was, cl := s.clients[c], Next(s, a).clients[c];
            && Next(s, a).clients == s.clients[c := cl] && cl.job == was.job && Closer(cl, was)
            && (if a.Commit? then cl.phase == Closing(true) && Effect(s, a) == [OpOf(was, paymentId)]
                else Effect(s, a) == [] && Next(s, a).db.payments == s.db.payments && Coming(cl.phase))
  {
  }

  lemma StillBound(s: System, t: System, c: nat, paymentId: nat)
    requires Bound(s, c, paymentId) && Committed(t) == Committed(s)
    requires c in t.clients && t.clients == s.clients[c := t.clients[c]]
    requires t.clients[c].job == s.clients[c].job && Coming(t.clients[c].phase) && t.db.payments == s.db.payments
    ensures Bound(t, c, paymentId)
  {
    StillAlone(s, t, c);
  }

  /** A step that is not the commit keeps the client on its way. */
  lemma StaysOnItsWay(s: System, c: nat, paymentId: nat)
    requires OnItsWay(s, c, paymentId) && !Forward(s.clients[c], c, paymentId).Commit?
    ensures var a := Forward(s.clients[c], c, paymentId);
            && Enabled(s, a) && Effect(s, a) == [] && OnItsWay(Next(s, a), c, paymentId)
            && Next(s, a).clients[c].job == s.clients[c].job && Closer(Next(s, a).clients[c], s.clients[c])
  {
    var a := Forward(s.clients[c], c, paymentId);
    CanGoForward(s, c, paymentId);
    PhaseFine(s, c);
    GoesForward(s, c, paymentId);
    StepRefines(s, a);
    StillBound(s, Next(s, a), c, paymentId);
  }

  lemma PhaseFine(s: System, c: nat)
    requires SystemOk(s) && c in s.clients
    ensures PhaseOk(s.clients[c])
  {
    assert ClientOk(s.db, s.clients[c]);
  }

  lemma StillAlone(s: System, t: System, c: nat)
    requires Alone(s, c) && c in t.clients && t.clients == s.clients[c := t.clients[c]]
    ensures Alone(t, c)
  {
  }

  lemma CommitsNow(s: System, c: nat, paymentId: nat)
    requires OnItsWay(s, c, paymentId) && Forward(s.clients[c], c, paymentId).Commit?
    ensures var a := Forward(s.clients[c], c, paymentId);
            && Enabled(s, a) && Effect(s, a) == [OpOf(s.clients[c], paymentId)]
            && Alone(Next(s, a), c) && Next(s, a).clients[c].phase.Closing?
  {
    CanGoForward(s, c, paymentId);
    PhaseFine(s, c);
    GoesForward(s, c, paymentId);
    StillAlone(s, Next(s, Forward(s.clients[c], c, paymentId)), c);
  }

  ghost predicate Leads(s: System, t: System, way: seq<Action>, ops: seq<Op>) {
    Execution(s, way) && Final(s, way) == t && Effects(s, way) == ops
  }

  lemma LeadsOn(s: System, a: Action, t: System, way: seq<Action>, ops: seq<Op>)
    requires Enabled(s, a) && Leads(Next(s, a), t, way, ops)
    ensures Leads(s, t, [a] + way, Effect(s, a) + ops)
  {
    assert ([a] + way)[1..] == way;
  }

  /** Nothing in the way of the client, it commits its operation and leaves. */
  lemma {:induction false} Commits(s: System, c: nat, paymentId: nat) returns (way: seq<Action>, t: System)
    requires OnItsWay(s, c, paymentId)
    ensures Leads(s, t, way, [OpOf(s.clients[c], paymentId)])
    ensures Quiet(t)
    decreases Stage(s.clients[c].phase), Ahead(s.clients[c])
  {
    var a := Forward(s.clients[c], c, paymentId);
    var op := OpOf(s.clients[c], paymentId);
    if a.Commit? {
      CommitsNow(s, c, paymentId);
      way, t := Leaves(Next(s, a), c);
      LeadsOn(s, a, t, way, []);
      assert [op] + [] == [op];
    } else {
      StaysOnItsWay(s, c, paymentId);
      way, t := Commits(Next(s, a), c, paymentId);
      LeadsOn(s, a, t, way, [op]);
      assert [] + [op] == [op];
    }
    way := [a] + way;
  }

  lemma Leaves(s: System, c: nat) returns (way: seq<Action>, t: System)
    requires Alone(s, c) && s.clients[c].phase.Closing?
    ensures Leads(s, t, way, []) && Quiet(t)
  {
    way := [UnlockOuter(c)];
    t := Next(s, UnlockOuter(c));
    assert Leads(t, t, [], []);
    LeadsOn(s, UnlockOuter(c), t, [], []);
    assert way + [] == way;
  }

  /** A new client that comes for `op`, and the identifier that its payment will get. */
  lemma Arrives(s: System, op: Op, c: nat, paymentId: nat)
    requires SystemOk(s) && Quiet(s) && Backed(Committed(s)) && Can(Committed(s), op)
    requires op.Pay? || op.Cancel?
    requires c !in s.clients && paymentId !in s.db.payments && (op.Pay? ==> paymentId == op.paymentId)
    ensures Enabled(s, Arrive(c, JobOf(op))) && Effect(s, Arrive(c, JobOf(op))) == []
    ensures var t := Next(s, Arrive(c, JobOf(op)));
            OnItsWay(t, c, paymentId) && OpOf(t.clients[c], paymentId) == op
  {
    var t := Next(s, Arrive(c, JobOf(op)));
    ArrivalGoes(s, op, c);
    StepRefines(s, Arrive(c, JobOf(op)));
    ArrivedBound(s, t, op, c, paymentId);
  }

  lemma ArrivalGoes(s: System, op: Op, c: nat)
    requires c !in s.clients && (op.Pay? || op.Cancel?)
    ensures Enabled(s, Arrive(c, JobOf(op))) && Effect(s, Arrive(c, JobOf(op))) == []
    ensures Next(s, Arrive(c, JobOf(op))).clients == s.clients[c := Client(JobOf(op), Waiting, [], map[], [])]
    ensures Next(s, Arrive(c, JobOf(op))).db == s.db
  {
  }

  lemma ArrivedBound(s: System, t: System, op: Op, c: nat, paymentId: nat)
    requires Quiet(s) && Backed(Committed(s)) && Can(Committed(s), op) && (op.Pay? || op.Cancel?)
    requires paymentId !in s.db.payments && (op.Pay? ==> paymentId == op.paymentId)
    requires t.db == s.db && Committed(t) == Committed(s)
    requires t.clients == s.clients[c := Client(JobOf(op), Waiting, [], map[], [])]
    ensures Bound(t, c, paymentId) && OpOf(t.clients[c], paymentId) == op
  {
  }

  function JobOf(op: Op): Job
    requires op.Pay? || op.Cancel?
  {
    if op.Pay? then PayJob(op.userId, op.orderId) else CancelJob(op.userId, op.paymentId)
  }

  lemma NothingLocked(s: System, r: Row)
    requires SystemOk(s) && Quiet(s)
    ensures r !in s.rowlocks
  {
    ClosedHoldNothing(s);
    NoRowlocks(s.rowlocks, s.clients, r);
  }

  lemma NoRowlocks(rowlocks: map<Row, nat>, clients: map<nat, Client>, r: Row)
    requires RowlocksOk(rowlocks, clients) && forall d | d in clients :: clients[d].before == map[]
    ensures r !in rowlocks
  {
    assert r in rowlocks ==> r in RowsHeldBy(rowlocks, rowlocks[r]);
  }

  /** With nobody else around, whatever the database allows is done. */
  lemma Serves(s: System, op: Op) returns (way: seq<Action>, t: System)
    requires SystemOk(s) && Quiet(s) && Backed(Committed(s)) && Can(Committed(s), op)
    ensures Leads(s, t, way, [op]) && Quiet(t)
  {
    if op.Pay? || op.Cancel? {
      var c, paymentId := Above(s.clients.Keys), if op.Pay? then op.paymentId else Above(s.db.payments.Keys);
      var a := Arrive(c, JobOf(op));
      Arrives(s, op, c, paymentId);
      way, t := Commits(Next(s, a), c, paymentId);
      LeadsOn(s, a, t, way, [op]);
      assert [] + [op] == [op];
      way := [a] + way;
    } else {
      if op.TopUp? || op.Deduct? {
        NothingLocked(s, Balance(op.userId));
      }
      way, t := [Outside(op)], Next(s, Outside(op));
      assert Leads(t, t, [], []);
      LeadsOn(s, Outside(op), t, [], []);
      assert way + [] == way && [op] + [] == [op];
    }
  }

  lemma LeadsFromNext(s: System, t: System, way: seq<Action>, ops: seq<Op>)
    requires Leads(s, t, way, ops) && way != []
    ensures Enabled(s, way[0]) && Effect(s, way[0]) <= ops
    ensures Leads(Next(s, way[0]), t, way[1..], ops[|Effect(s, way[0])|..])
  {
    assert ops == Effect(s, way[0]) + Effects(Next(s, way[0]), way[1..]);
  }

  lemma {:induction false} LeadsFurther(s: System, t: System, u: System, way: seq<Action>, further: seq<Action>,
      a: seq<Op>, b: seq<Op>)
    requires Leads(s, t, way, a) && Leads(t, u, further, b)
    ensures Leads(s, u, way + further, a + b)
    decreases |way|
  {
    if way == [] {
      assert way + further == further && a + b == b;
    } else {
      LeadsFromNext(s, t, way, a);
      var effect := Effect(s, way[0]);
      LeadsFurther(Next(s, way[0]), t, u, way[1..], further, a[|effect|..], b);
      LeadsOn(s, way[0], u, way[1..] + further, a[|effect|..] + b);
      Regrouped(way, further, 1);
      Regrouped(a, b, |effect|);
      assert [way[0]] == way[..1] && effect == a[..|effect|];
    }
  }

  lemma Regrouped<T>(a: seq<T>, b: seq<T>, n: nat)
    requires n <= |a|
    ensures a[..n] + (a[n..] + b) == a + b
  {
  }

  lemma {:induction false} RunBacked(db: Db, ops: seq<Op>)
    requires Backed(db) && Lifecycle(db) && Undo.Committed(db, ops)
    ensures Backed(Run(db, ops)) && Lifecycle(Run(db, ops))
    decreases |ops|
  {
    if ops != [] {
      var n := |ops| - 1;
      RunBacked(db, ops[..n]);
      BackedStep(Run(db, ops[..n]), ops[n]);
      LifecycleStep(Run(db, ops[..n]), ops[n]);
    }
  }

  lemma AfterServing(s: System, t: System, way: seq<Action>, ops: seq<Op>)
    requires SystemOk(s) && Backed(Committed(s)) && Leads(s, t, way, ops)
    ensures SystemOk(t) && Backed(Committed(t)) && Committed(t) == Run(Committed(s), ops)
  {
    ExecutionRefines(s, way);
    SystemLifecycle(s);
    RunBacked(Committed(s), ops);
  }

  lemma {:induction false} ServesAll(s: System, ops: seq<Op>) returns (way: seq<Action>, t: System)
    requires SystemOk(s) && Quiet(s) && Backed(Committed(s)) && Undo.Committed(Committed(s), ops)
    ensures Leads(s, t, way, ops) && Quiet(t)
    decreases |ops|
  {
    if ops == [] {
      way, t := [], s;
    } else {
      var n := |ops| - 1;
      var earlier, mid := ServesAll(s, ops[..n]);
      AfterServing(s, mid, earlier, ops[..n]);
      var last;
      last, t := Serves(mid, ops[n]);
      LeadsFurther(s, mid, t, earlier, last, ops[..n], [ops[n]]);
      assert ops[..n] + [ops[n]] == ops;
      way := earlier + last;
    }
  }

  lemma SystemLifecycle(s: System)
    requires SystemOk(s)
    ensures Lifecycle(Committed(s))
  {
    LifecycleIgnoresRows(s.db, Committed(s));
  }

  ghost predicate Commitable(db: Db, ops: seq<Op>) {
    exists way :: Execution(Idle(db), way) && Effects(Idle(db), way) == ops
  }

  /** The runs of successful atomic operations are exactly what the interleaved executions commit. */
  lemma ExecutionsAreExactlyRuns(db: Db, ops: seq<Op>)
    requires Lifecycle(db) && Backed(db)
    ensures Commitable(db, ops) <==> Undo.Committed(db, ops)
  {
    IdleOk(db);
    if Undo.Committed(db, ops) {
      var way, t := ServesAll(Idle(db), ops);
      assert Execution(Idle(db), way) && Effects(Idle(db), way) == ops;
    }
    if Commitable(db, ops) {
      var way :| Execution(Idle(db), way) && Effects(Idle(db), way) == ops;
      ExecutionRefines(Idle(db), way);
    }
  }
}
