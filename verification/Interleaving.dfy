/** Any number of clients running `processPayment` and `cancelPayment` at once, one operation at a time.
    Rows are updated in place and locked until the transaction ends; an aborted transaction restores what it found.
    Seen through its committed rows, every such execution is a run of the atomic operations of `Shop`. */
module Interleaving {
  import opened Locks
  import opened Shop
  import Undo

  datatype Job = PayJob(userId: nat, orderId: nat) | CancelJob(userId: nat, paymentId: nat)

  datatype Phase =
    | Waiting                                   // for the lock of its order or payment
    | Guarding                                  // about to check the guards
    | Ready(next: nat)                          // about to lock the row of take `next`, or to commit after the last
    | Inside(next: nat)                         // has that lock
    | Checked(next: nat)                        // has read the row, and found enough
    | Taken(next: nat)                          // has updated the row
    | Failed(inner: set<Lock>, done: nat)       // an error was thrown
    | Closing(committed: bool)                  // the transaction is over
    | Closed(committed: bool)

  /** `script` is what the transaction takes or gives back; `before` holds the rows as it found them,
      and `notes` the history rows it has inserted. */
  datatype Client = Client(job: Job, phase: Phase, script: seq<Take>, before: map<Row, int>, notes: seq<HistoryRow>)

  datatype System = System(db: Db, redlocks: map<Lock, nat>, rowlocks: map<Row, nat>, clients: map<nat, Client>)

  datatype Action =
    | Arrive(c: nat, job: Job)
    | LockOuter(c: nat)
    | Refuse(c: nat)
    | Guard(c: nat)
    | LockRow(c: nat)
    | ReadRow(c: nat)
    | UpdateRow(c: nat)
    | UnlockRow(c: nat)
    | Commit(c: nat, paymentId: nat)
    | Fail(c: nat)
    | UnlockFailed(c: nat)
    | Rollback(c: nat)
    | UnlockOuter(c: nat)
    | Outside(op: Op)

  function Outer(job: Job): Lock {
    match job
    case PayJob(_, orderId) => OrderLock(orderId)
    case CancelJob(_, paymentId) => PaymentLock(paymentId)
  }

  predicate Working(phase: Phase) {
    phase.Ready? || phase.Inside? || phase.Checked? || phase.Taken?
  }

  /** How many takes have changed their row. */
  function Done(phase: Phase): nat {
    match phase
    case Ready(n) => n
    case Inside(n) => n
    case Checked(n) => n
    case Taken(n) => n + 1
    case Failed(_, n) => n
    case _ => 0
  }

  function InnerLocks(cl: Client): set<Lock> {
    match cl.phase
    case Failed(inner, _) => inner
    case Inside(n) => if n < |cl.script| then {RowLock(cl.script[n].row)} else {}
    case Checked(n) => if n < |cl.script| then {RowLock(cl.script[n].row)} else {}
    case Taken(n) => if n < |cl.script| then {RowLock(cl.script[n].row)} else {}
    case _ => {}
  }

  function LocksOf(cl: Client): set<Lock> {
    InnerLocks(cl) + if cl.phase.Waiting? || cl.phase.Closed? then {} else {Outer(cl.job)}
  }

  /** A payment lowers its rows, a cancellation raises them. */
  function Change(cl: Client, n: nat, r: Row): int
    requires n <= |cl.script|
  {
    if cl.job.PayJob? then -Demand(cl.script[..n], r) else Demand(cl.script[..n], r)
  }

  // ---------------------------------------------------------------- the steps

  predicate At(s: System, c: nat) {
    c in s.clients
  }

  predicate Enabled(s: System, a: Action) {
    match a
    case Arrive(c, job) => c !in s.clients
    case LockOuter(c) => At(s, c) && s.clients[c].phase.Waiting? && Outer(s.clients[c].job) !in s.redlocks
    case Refuse(c) => At(s, c) && s.clients[c].phase.Waiting?
    case Guard(c) => At(s, c) && s.clients[c].phase.Guarding? && Admitted(s.db, s.clients[c].job)
    case LockRow(c) =>
      && At(s, c) && s.clients[c].phase.Ready? && s.clients[c].phase.next < |s.clients[c].script|
      && RowLock(s.clients[c].script[s.clients[c].phase.next].row) !in s.redlocks
    case ReadRow(c) =>
      && At(s, c) && s.clients[c].phase.Inside? && s.clients[c].phase.next < |s.clients[c].script|
      && Readable(s, c, s.clients[c].script[s.clients[c].phase.next])
    case UpdateRow(c) =>
      && At(s, c) && s.clients[c].phase.Checked? && s.clients[c].phase.next < |s.clients[c].script|
      && s.clients[c].script[s.clients[c].phase.next].row in s.db.rows
    case UnlockRow(c) => At(s, c) && s.clients[c].phase.Taken? && s.clients[c].phase.next < |s.clients[c].script|
    case Commit(c, paymentId) =>
      && At(s, c) && s.clients[c].phase == Ready(|s.clients[c].script|)
      && paymentId !in s.db.payments
      && Admitted(s.db, s.clients[c].job)
    case Fail(c) => At(s, c) && (s.clients[c].phase.Guarding? || Working(s.clients[c].phase))
    case UnlockFailed(c) => At(s, c) && s.clients[c].phase.Failed? && s.clients[c].phase.inner != {}
    case Rollback(c) => At(s, c) && s.clients[c].phase.Failed? && s.clients[c].phase.inner == {}
    case UnlockOuter(c) => At(s, c) && s.clients[c].phase.Closing?
    case Outside(op) =>
      && !op.Pay? && !op.Cancel?
      && (op.TopUp? || op.Deduct? ==> Balance(op.userId) !in s.rowlocks)
      && Can(Committed(s), op)
  }

  /** The guards at the head of both transactions. */
  predicate Admitted(db: Db, job: Job) {
    match job
    case PayJob(userId, orderId) => PayGuard(db, userId, orderId)
    case CancelJob(userId, paymentId) =>
      CancelGuard(db, userId, paymentId) && db.payments[paymentId].orderId in db.orders
  }

  function ScriptOf(db: Db, job: Job): seq<Take>
    requires Admitted(db, job)
  {
    match job
    case PayJob(_, orderId) => Takes(db.orders[orderId])
    case CancelJob(_, paymentId) => Takes(db.orders[db.payments[paymentId].orderId])
  }

  /** A transaction reads a row that no other transaction has locked; a payment must find enough in it,
      and a refund must find the user's account. */
  predicate Readable(s: System, c: nat, t: Take)
    requires At(s, c)
  {
    && t.row in s.db.rows
    && (t.row in s.rowlocks ==> s.rowlocks[t.row] == c)
    && (s.clients[c].job.PayJob? ==> t.amount <= s.db.rows[t.row])
    && (s.clients[c].job.CancelJob? && t.row.Balance? ==> t.row.userId in s.db.users)
  }

  function Moved(s: System, c: nat, phase: Phase): System
    requires At(s, c)
  {
    s.(clients := s.clients[c := s.clients[c].(phase := phase)])
  }

  /** The transaction of `c` is over: its row locks and its undo information go. */
  function Finished(s: System, c: nat, committed: bool): System
    requires At(s, c)
  {
    s.(
      rowlocks := map r | r in s.rowlocks && s.rowlocks[r] != c :: s.rowlocks[r],
      clients := s.clients[c := s.clients[c].(phase := Closing(committed), before := map[], notes := [])])
  }

  function Next(s: System, a: Action): System
    requires Enabled(s, a)
  {
    match a
    case Arrive(c, job) => s.(clients := s.clients[c := Client(job, Waiting, [], map[], [])])
    case LockOuter(c) => Moved(s, c, Guarding).(redlocks := s.redlocks[Outer(s.clients[c].job) := c])
    case Refuse(c) => Moved(s, c, Closed(false))
    case Guard(c) =>
      s.(clients := s.clients[c := s.clients[c].(phase := Ready(0), script := ScriptOf(s.db, s.clients[c].job))])
    case LockRow(c) =>
      var n := s.clients[c].phase.next;
      Moved(s, c, Inside(n)).(redlocks := s.redlocks[RowLock(s.clients[c].script[n].row) := c])
    case ReadRow(c) =>
      var cl := s.clients[c];
      var r := cl.script[cl.phase.next].row;
      var found := if r in cl.before then cl.before else cl.before[r := s.db.rows[r]];
      s.(
        rowlocks := s.rowlocks[r := c],
        clients := s.clients[c := cl.(phase := Checked(cl.phase.next), before := found)])
    case UpdateRow(c) =>
      var cl := s.clients[c];
      var t := cl.script[cl.phase.next];
      var value := s.db.rows[t.row] + if cl.job.PayJob? then -t.amount else t.amount;
      var note := HistoryRow(if cl.job.PayJob? then USE else REFUND, t.amount, value);
      s.(
        db := s.db.(rows := s.db.rows[t.row := value]),
        clients := s.clients[c := cl.(
          phase := Taken(cl.phase.next),
          notes := if t.row.Balance? then cl.notes + [note] else cl.notes)])
    case UnlockRow(c) =>
      var n := s.clients[c].phase.next;
      Moved(s, c, Ready(n + 1)).(redlocks := s.redlocks - {RowLock(s.clients[c].script[n].row)})
    case Commit(c, paymentId) => Finished(s, c, true).(db := Written(s.db, s.clients[c], paymentId))
    case Fail(c) => Moved(s, c, Failed(InnerLocks(s.clients[c]), Done(s.clients[c].phase)))
    case UnlockFailed(c) =>
      Moved(s, c, Failed({}, s.clients[c].phase.done)).(redlocks := s.redlocks - s.clients[c].phase.inner)
    case Rollback(c) =>
      var before := s.clients[c].before;
      Finished(s, c, false).(
        db := s.db.(rows := map r | r in s.db.rows :: if r in before then before[r] else s.db.rows[r]))
    case UnlockOuter(c) =>
      Moved(s, c, Closed(s.clients[c].phase.committed)).(redlocks := s.redlocks - {Outer(s.clients[c].job)})
    case Outside(op) =>
      s.(db := if op.CreateOrder? then s.db.(orders := s.db.orders[op.orderId := op.order])
               else assert Can(s.db, op); After(s.db, op))
  }

  /** The last writes of a transaction: the payment, the order, and the history it inserted. */
  function Written(db: Db, cl: Client, paymentId: nat): Db
    requires Admitted(db, cl.job)
  {
    var logged := db.(history := db.history[cl.job.userId := HistoryOf(db, cl.job.userId) + cl.notes]);
    match cl.job
    case PayJob(userId, orderId) =>
      var order := db.orders[orderId];
      logged.(
        payments := db.payments[paymentId := Payment(orderId, userId, order.finalAmount, PaymentStatus.COMPLETED)],
        orders := db.orders[orderId := order.(status := OrderStatus.PAID)])
    case CancelJob(userId, id) =>
      var payment := db.payments[id];
      logged.(
        payments := db.payments[id := payment.(status := PaymentStatus.CANCELLED)],
        orders := db.orders[payment.orderId := db.orders[payment.orderId].(status := OrderStatus.CANCELLED)])
  }

  // ---------------------------------------------------------------- the committed rows

  /** What a row held before the transaction that has it locked. */
  function CommittedRow(s: System, r: Row): int
    requires r in s.db.rows
  {
    if r in s.rowlocks && s.rowlocks[r] in s.clients && r in s.clients[s.rowlocks[r]].before
    then s.clients[s.rowlocks[r]].before[r]
    else s.db.rows[r]
  }

  function Committed(s: System): Db {
    s.db.(rows := map r | r in s.db.rows :: CommittedRow(s, r))
  }

  // ---------------------------------------------------------------- what every step keeps

  function HeldBy(redlocks: map<Lock, nat>, c: nat): set<Lock> {
    set l | l in redlocks && redlocks[l] == c
  }

  /** A Redlock is recorded for exactly the client whose phase says that it holds it. */
  ghost predicate RedlocksOk(redlocks: map<Lock, nat>, clients: map<nat, Client>) {
    && (forall l | l in redlocks :: redlocks[l] in clients)
    && (forall c | c in clients :: HeldBy(redlocks, c) == LocksOf(clients[c]))
  }

  function RowsHeldBy(rowlocks: map<Row, nat>, c: nat): set<Row> {
    set r | r in rowlocks && rowlocks[r] == c
  }

  /** A row is locked by exactly the client that remembers what it found there. */
  ghost predicate RowlocksOk(rowlocks: map<Row, nat>, clients: map<nat, Client>) {
    && (forall r | r in rowlocks :: rowlocks[r] in clients)
    && (forall c | c in clients :: RowsHeldBy(rowlocks, c) == clients[c].before.Keys)
  }

  ghost predicate PhaseOk(cl: Client) {
    match cl.phase
    case Ready(n) => n <= |cl.script|
    case Inside(n) => n < |cl.script|
    case Checked(n) => n < |cl.script| && cl.script[n].row in cl.before
    case Taken(n) => n < |cl.script|
    case Failed(inner, n) => n <= |cl.script| && |inner| <= 1 && forall l | l in inner :: l.RowLock?
    case _ => cl.before == map[] && cl.notes == []
  }

  /** Each row that a client has locked differs from what it found there by what it has done so far;
      no row that a payment has lowered is negative. */
  ghost predicate RowsOk(rows: map<Row, int>, cl: Client)
    requires PhaseOk(cl)
  {
    && (forall r | r in cl.before :: r in rows && rows[r] == cl.before[r] + Change(cl, Done(cl.phase), r))
    && (forall i | 0 <= i < Done(cl.phase) :: cl.script[i].row in cl.before)
    && (cl.job.PayJob? ==> forall i | 0 <= i < Done(cl.phase) :: rows[cl.script[i].row] >= 0)
  }

  /** A working transaction still has its guards, has locked each row it changed, and covers what it is to take. */
  ghost predicate WorkOk(db: Db, cl: Client)
    requires PhaseOk(cl)
  {
    && Admitted(db, cl.job)
    && cl.script == ScriptOf(db, cl.job)
    && (cl.phase.Checked? && cl.job.PayJob? ==>
          var t := cl.script[cl.phase.next];
          t.row in db.rows && t.amount <= db.rows[t.row])
    && (cl.job.CancelJob? && Reached(cl) == |cl.script| ==> cl.job.userId in db.users)
    && cl.notes == (if Done(cl.phase) < |cl.script| then [] else [Note(db.rows, cl)])
  }

  /** How many takes have passed their check. */
  function Reached(cl: Client): nat {
    Done(cl.phase) + if cl.phase.Checked? then 1 else 0
  }

  /** The history row of a transaction that has moved its money. */
  function Note(rows: map<Row, int>, cl: Client): HistoryRow {
    if cl.script == [] then HistoryRow(CHARGE, 0, 0)
    else
      var money := cl.script[|cl.script| - 1];
      HistoryRow(if cl.job.PayJob? then USE else REFUND, money.amount, Held(rows, money.row))
  }

  /** The script is that of the client's order; it outlives the guards, since what an order asks for never changes. */
  ghost predicate ScriptOk(db: Db, cl: Client) {
    cl.script != [] ==>
      match cl.job
      case PayJob(_, orderId) =>
        orderId in db.orders && cl.script == Takes(db.orders[orderId])
      case CancelJob(_, paymentId) =>
        && paymentId in db.payments && db.payments[paymentId].orderId in db.orders
        && cl.script == Takes(db.orders[db.payments[paymentId].orderId])
  }

  ghost predicate ClientOk(db: Db, cl: Client) {
    && PhaseOk(cl)
    && ScriptOk(db, cl)
    && RowsOk(db.rows, cl)
    && (Working(cl.phase) ==> WorkOk(db, cl))
  }

  ghost predicate SystemOk(s: System) {
    && RedlocksOk(s.redlocks, s.clients)
    && RowlocksOk(s.rowlocks, s.clients)
    && (forall c | c in s.clients :: ClientOk(s.db, s.clients[c]))
    && Lifecycle(s.db)
  }

  // ---------------------------------------------------------------- Redlocks

  function LocksAt(clients: map<nat, Client>, c: nat): set<Lock> {
    if c in clients then LocksOf(clients[c]) else {}
  }

  /** Taking free locks and releasing locks of its own changes what `c` holds, and nobody else's locks. */
  lemma HeldAfter(redlocks: map<Lock, nat>, after: map<Lock, nat>, c: nat, taken: set<Lock>, released: set<Lock>,
      d: nat)
    requires taken !! redlocks.Keys && released <= HeldBy(redlocks, c)
    requires forall l :: l in after <==> l in taken || (l in redlocks && l !in released)
    requires forall l | l in after :: after[l] == if l in taken then c else redlocks[l]
    ensures HeldBy(after, d) == if d == c then HeldBy(redlocks, c) + taken - released else HeldBy(redlocks, d)
  {
  }

  /** Client `c` changes, taking free locks and releasing locks of its own. */
  lemma Relocked(redlocks: map<Lock, nat>, after: map<Lock, nat>, clients: map<nat, Client>, c: nat, cl: Client,
                 taken: set<Lock>, released: set<Lock>)
    requires RedlocksOk(redlocks, clients)
    requires LocksOf(cl) == LocksAt(clients, c) + taken - released
    requires taken !! redlocks.Keys && released <= LocksAt(clients, c)
    requires forall l :: l in after <==> l in taken || (l in redlocks && l !in released)
    requires forall l | l in after :: after[l] == if l in taken then c else redlocks[l]
    ensures RedlocksOk(after, clients[c := cl])
  {
    var clients' := clients[c := cl];
    assert LocksAt(clients, c) == HeldBy(redlocks, c);
    forall d | d in clients' ensures HeldBy(after, d) == LocksOf(clients'[d]) {
      HeldAfter(redlocks, after, c, taken, released, d);
    }
  }

  lemma TakingStep(s: System, a: Action)
    requires RedlocksOk(s.redlocks, s.clients) && Enabled(s, a) && (a.LockOuter? || a.LockRow?)
    ensures RedlocksOk(Next(s, a).redlocks, Next(s, a).clients)
  {
    var cl := Next(s, a).clients[a.c];
    var lock := if a.LockOuter? then Outer(cl.job) else RowLock(cl.script[cl.phase.next].row);
    assert LocksOf(cl) == LocksOf(s.clients[a.c]) + {lock};
    Relocked(s.redlocks, Next(s, a).redlocks, s.clients, a.c, cl, {lock}, {});
  }

  lemma PhaseReleases(cl: Client, phase: Phase)
    requires PhaseOk(cl)
    requires match cl.phase
             case Taken(n) => phase == Ready(n + 1)
             case Failed(_, n) => phase == Failed({}, n)
             case _ => false
    ensures LocksOf(cl.(phase := phase)) == LocksOf(cl) - InnerLocks(cl)
  {
    assert Outer(cl.job) !in InnerLocks(cl);
  }

  lemma ReleasedLocks(s: System, a: Action)
    requires Enabled(s, a) && (a.UnlockRow? || a.UnlockFailed? || a.UnlockOuter?) && PhaseOk(s.clients[a.c])
    ensures LocksOf(Next(s, a).clients[a.c]) == LocksOf(s.clients[a.c]) - Released(s, a)
    ensures Released(s, a) <= LocksOf(s.clients[a.c])
    ensures Next(s, a).redlocks == s.redlocks - Released(s, a)
    ensures Next(s, a).clients == s.clients[a.c := Next(s, a).clients[a.c]]
  {
    if !a.UnlockOuter? {
      PhaseReleases(s.clients[a.c], Next(s, a).clients[a.c].phase);
    }
  }

  function Released(s: System, a: Action): set<Lock>
    requires Enabled(s, a) && (a.UnlockRow? || a.UnlockFailed? || a.UnlockOuter?)
  {
    if a.UnlockOuter? then {Outer(s.clients[a.c].job)} else InnerLocks(s.clients[a.c])
  }

  lemma ReleasingStep(s: System, a: Action)
    requires RedlocksOk(s.redlocks, s.clients) && Enabled(s, a) && (a.UnlockRow? || a.UnlockFailed? || a.UnlockOuter?)
    requires PhaseOk(s.clients[a.c])
    ensures RedlocksOk(Next(s, a).redlocks, Next(s, a).clients)
  {
    ReleasedLocks(s, a);
    Relocked(s.redlocks, Next(s, a).redlocks, s.clients, a.c, Next(s, a).clients[a.c], {}, Released(s, a));
  }

  lemma KeepingStep(s: System, a: Action)
    requires RedlocksOk(s.redlocks, s.clients) && Enabled(s, a) && !a.Outside?
    requires !(a.LockOuter? || a.LockRow? || a.UnlockRow? || a.UnlockFailed? || a.UnlockOuter?)
    requires a.c in s.clients ==> PhaseOk(s.clients[a.c])
    ensures RedlocksOk(Next(s, a).redlocks, Next(s, a).clients)
  {
    SameLocks(s, a);
    Relocked(s.redlocks, s.redlocks, s.clients, a.c, Next(s, a).clients[a.c], {}, {});
  }

  lemma SameLocks(s: System, a: Action)
    requires Enabled(s, a) && !a.Outside?
    requires !(a.LockOuter? || a.LockRow? || a.UnlockRow? || a.UnlockFailed? || a.UnlockOuter?)
    ensures a.c in Next(s, a).clients && LocksOf(Next(s, a).clients[a.c]) == LocksAt(s.clients, a.c)
    ensures Next(s, a).redlocks == s.redlocks
    ensures Next(s, a).clients == s.clients[a.c := Next(s, a).clients[a.c]]
  {
  }

  /** Every step takes and releases exactly the locks that the change of phase says. */
  lemma RedlocksStep(s: System, a: Action)
    requires RedlocksOk(s.redlocks, s.clients) && Enabled(s, a)
    requires forall c | c in s.clients :: PhaseOk(s.clients[c])
    ensures RedlocksOk(Next(s, a).redlocks, Next(s, a).clients)
  {
    if a.Outside? {
    } else if a.LockOuter? || a.LockRow? {
      TakingStep(s, a);
    } else if a.UnlockRow? || a.UnlockFailed? || a.UnlockOuter? {
      ReleasingStep(s, a);
    } else {
      KeepingStep(s, a);
    }
  }

  // ---------------------------------------------------------------- the other clients

  /** A client that keeps its guards is unaffected by whatever leaves its locked rows alone. */
  lemma BystanderOk(db: Db, db': Db, cl: Client)
    requires ClientOk(db, cl)
    requires forall r | r in cl.before :: r in db'.rows && db'.rows[r] == db.rows[r]
    requires db'.users == db.users
    requires Working(cl.phase) ==> Admitted(db', cl.job) && ScriptOf(db', cl.job) == ScriptOf(db, cl.job)
    requires ScriptOk(db', cl)
    ensures ClientOk(db', cl)
  {
  }

  /** The order of a COMPLETED payment is PAID, so nobody is working on paying for it. */
  lemma CompletedMeansPaid(db: Db, p: nat)
    requires Lifecycle(db) && p in db.payments && db.payments[p].status == PaymentStatus.COMPLETED
    ensures db.payments[p].orderId in db.orders && db.orders[db.payments[p].orderId].status == OrderStatus.PAID
  {
  }

  /** Two transactions that have passed their guards under different locks concern different orders and payments. */
  lemma DifferentOrders(db: Db, a: Job, b: Job)
    requires Lifecycle(db) && Admitted(db, a) && Admitted(db, b) && Outer(a) != Outer(b)
    ensures OrderOf(db, a) != OrderOf(db, b)
  {
    if a.CancelJob? {
      CompletedMeansPaid(db, a.paymentId);
    }
    if b.CancelJob? {
      CompletedMeansPaid(db, b.paymentId);
    }
  }

  function OrderOf(db: Db, job: Job): nat
    requires Admitted(db, job)
  {
    match job
    case PayJob(_, orderId) => orderId
    case CancelJob(_, paymentId) => db.payments[paymentId].orderId
  }

  /** A commit leaves the guards of every other working transaction standing. */
  lemma CommitSparesOthers(db: Db, cl: Client, paymentId: nat, other: Job)
    requires Lifecycle(db) && Admitted(db, cl.job) && Admitted(db, other) && Outer(cl.job) != Outer(other)
    requires paymentId !in db.payments
    ensures Admitted(Written(db, cl, paymentId), other)
    ensures ScriptOf(Written(db, cl, paymentId), other) == ScriptOf(db, other)
  {
    DifferentOrders(db, cl.job, other);
  }

  /** Two clients past their first lock hold different ones. */
  lemma DifferentOuters(s: System, c: nat, d: nat)
    requires RedlocksOk(s.redlocks, s.clients) && c in s.clients && d in s.clients && c != d
    requires Working(s.clients[c].phase) && Working(s.clients[d].phase)
    ensures Outer(s.clients[c].job) != Outer(s.clients[d].job)
  {
    assert Outer(s.clients[c].job) in HeldBy(s.redlocks, c);
    assert Outer(s.clients[d].job) in HeldBy(s.redlocks, d);
  }

  lemma CommitKeepsScripts(db: Db, cl: Client, paymentId: nat, other: Client)
    requires Admitted(db, cl.job) && paymentId !in db.payments && ScriptOk(db, other)
    ensures ScriptOk(Written(db, cl, paymentId), other)
  {
  }

  lemma CommitBystander(s: System, a: Action, d: nat)
    requires SystemOk(s) && a.Commit? && Enabled(s, a) && d in s.clients && d != a.c
    ensures ClientOk(Next(s, a).db, s.clients[d])
  {
    var was, cl := s.clients[a.c], s.clients[d];
    var db' := Written(s.db, was, a.paymentId);
    assert ClientOk(s.db, cl);
    CommitKeepsScripts(s.db, was, a.paymentId, cl);
    if Working(cl.phase) {
      DifferentOuters(s, a.c, d);
      CommitSparesOthers(s.db, was, a.paymentId, cl.job);
    }
    assert db'.rows == s.db.rows && db'.users == s.db.users;
    BystanderOk(s.db, db', cl);
  }

  /** Guards and scripts stand while orders, payments and users stay. */
  lemma GuardsStand(db: Db, db': Db, cl: Client)
    requires db'.users == db.users && db'.payments == db.payments
    requires forall o | o in db.orders :: o in db'.orders && db'.orders[o] == db.orders[o]
    requires ScriptOk(db, cl) && (Working(cl.phase) ==> Admitted(db, cl.job))
    ensures ScriptOk(db', cl)
    ensures Working(cl.phase) ==> Admitted(db', cl.job) && ScriptOf(db', cl.job) == ScriptOf(db, cl.job)
  {
  }

  /** What neither commits nor comes from outside changes rows only; what comes from outside adds orders only. */
  lemma TablesStand(s: System, a: Action)
    requires Enabled(s, a) && !a.Commit?
    ensures Next(s, a).db.users == s.db.users && Next(s, a).db.payments == s.db.payments
    ensures forall o | o in s.db.orders :: o in Next(s, a).db.orders && Next(s, a).db.orders[o] == s.db.orders[o]
  {
  }

  /** Rows that another client has locked are not among those that a step writes. */
  lemma LockedRowStands(s: System, a: Action, d: nat, r: Row)
    requires RowlocksOk(s.rowlocks, s.clients) && Enabled(s, a) && d in s.clients && (a.Outside? || d != a.c)
    requires a.UpdateRow? ==> PhaseOk(s.clients[a.c])
    requires r in s.clients[d].before && r in s.db.rows
    ensures r in Next(s, a).db.rows && Next(s, a).db.rows[r] == s.db.rows[r]
  {
    assert r in RowsHeldBy(s.rowlocks, d);
    if a.Outside? {
      OutsideSpares(s, a, r);
    } else if a.UpdateRow? {
      UpdateSpares(s, a, r);
    } else if a.Rollback? {
      assert r !in RowsHeldBy(s.rowlocks, a.c);
      RollbackSpares(s, a, r);
    } else {
      RowsStand(s, a);
    }
  }

  lemma OutsideSpares(s: System, a: Action, r: Row)
    requires Enabled(s, a) && a.Outside? && r in s.rowlocks && r in s.db.rows
    ensures r in Next(s, a).db.rows && Next(s, a).db.rows[r] == s.db.rows[r]
  {
  }

  lemma UpdateSpares(s: System, a: Action, r: Row)
    requires RowlocksOk(s.rowlocks, s.clients) && Enabled(s, a) && a.UpdateRow? && PhaseOk(s.clients[a.c])
    requires r in s.rowlocks && s.rowlocks[r] != a.c && r in s.db.rows
    ensures r in Next(s, a).db.rows && Next(s, a).db.rows[r] == s.db.rows[r]
  {
    assert s.clients[a.c].script[s.clients[a.c].phase.next].row in RowsHeldBy(s.rowlocks, a.c);
  }

  lemma RollbackSpares(s: System, a: Action, r: Row)
    requires Enabled(s, a) && a.Rollback? && r !in s.clients[a.c].before && r in s.db.rows
    ensures r in Next(s, a).db.rows && Next(s, a).db.rows[r] == s.db.rows[r]
  {
  }

  lemma RowsStand(s: System, a: Action)
    requires Enabled(s, a) && !a.Outside? && !a.UpdateRow? && !a.Rollback?
    ensures Next(s, a).db.rows == s.db.rows
  {
  }

  lemma BystandersOk(s: System, a: Action, d: nat)
    requires SystemOk(s) && Enabled(s, a) && d in s.clients && (a.Outside? || d != a.c)
    ensures ClientOk(Next(s, a).db, s.clients[d])
  {
    if a.Commit? {
      CommitBystander(s, a, d);
    } else {
      QuietBystander(s, a, d);
    }
  }

  lemma QuietBystander(s: System, a: Action, d: nat)
    requires RowlocksOk(s.rowlocks, s.clients) && (forall c | c in s.clients :: ClientOk(s.db, s.clients[c]))
    requires Enabled(s, a) && !a.Commit? && d in s.clients && (a.Outside? || d != a.c)
    ensures ClientOk(Next(s, a).db, s.clients[d])
  {
    var cl := s.clients[d];
    assert ClientOk(s.db, cl);
    TablesStand(s, a);
    GuardsStand(s.db, Next(s, a).db, cl);
    forall r | r in cl.before ensures r in Next(s, a).db.rows && Next(s, a).db.rows[r] == s.db.rows[r] {
      assert a.UpdateRow? ==> ClientOk(s.db, s.clients[a.c]);
      LockedRowStands(s, a, d, r);
    }
    BystanderOk(s.db, Next(s, a).db, cl);
  }

  // ---------------------------------------------------------------- row locks

  lemma ReadRowlocks(s: System, a: Action)
    requires RowlocksOk(s.rowlocks, s.clients) && a.ReadRow? && Enabled(s, a)
    ensures RowlocksOk(Next(s, a).rowlocks, Next(s, a).clients)
  {
    var s' := Next(s, a);
    var r := s.clients[a.c].script[s.clients[a.c].phase.next].row;
    assert RowsHeldBy(s'.rowlocks, a.c) == RowsHeldBy(s.rowlocks, a.c) + {r};
    forall d | d in s.clients && d != a.c ensures RowsHeldBy(s'.rowlocks, d) == s.clients[d].before.Keys {
      assert RowsHeldBy(s'.rowlocks, d) == RowsHeldBy(s.rowlocks, d);
    }
  }

  lemma FinishedRowlocks(s: System, c: nat, committed: bool)
    requires RowlocksOk(s.rowlocks, s.clients) && At(s, c)
    ensures RowlocksOk(Finished(s, c, committed).rowlocks, Finished(s, c, committed).clients)
  {
    var s' := Finished(s, c, committed);
    assert RowsHeldBy(s'.rowlocks, c) == {};
    forall d | d in s.clients && d != c ensures RowsHeldBy(s'.rowlocks, d) == s.clients[d].before.Keys {
      assert RowsHeldBy(s'.rowlocks, d) == RowsHeldBy(s.rowlocks, d);
    }
  }

  /** A step that neither locks nor unlocks rows. */
  predicate KeepsRows(a: Action) {
    !a.ReadRow? && !a.Commit? && !a.Rollback? && !a.Outside?
  }

  lemma SameRowlocks(s: System, a: Action)
    requires Enabled(s, a) && KeepsRows(a)
    ensures Next(s, a).rowlocks == s.rowlocks
    ensures a.c in Next(s, a).clients && Next(s, a).clients == s.clients[a.c := Next(s, a).clients[a.c]]
    ensures Next(s, a).clients[a.c].before == if a.c in s.clients then s.clients[a.c].before else map[]
  {
  }

  lemma RowlocksStep(s: System, a: Action)
    requires RowlocksOk(s.rowlocks, s.clients) && Enabled(s, a)
    ensures RowlocksOk(Next(s, a).rowlocks, Next(s, a).clients)
  {
    if KeepsRows(a) {
      SameRowlocks(s, a);
      assert a.c !in s.clients ==> RowsHeldBy(s.rowlocks, a.c) == {};
    } else if a.ReadRow? {
      ReadRowlocks(s, a);
    } else if !a.Outside? {
      FinishedRowlocks(s, a.c, a.Commit?);
    }
  }

  // ---------------------------------------------------------------- the acting client

  /** The phase changes that move no data. */
  predicate MovesOn(cl: Client, phase: Phase) {
    match cl.phase
    case Waiting => phase == Guarding || phase == Closed(false)
    case Guarding => phase == Failed({}, 0)
    case Ready(n) => (n < |cl.script| && phase == Inside(n)) || phase == Failed({}, n)
    case Inside(n) => n < |cl.script| && phase == Failed({RowLock(cl.script[n].row)}, n)
    case Checked(n) => n < |cl.script| && phase == Failed({RowLock(cl.script[n].row)}, n)
    case Taken(n) => n < |cl.script| && (phase == Ready(n + 1) || phase == Failed({RowLock(cl.script[n].row)}, n + 1))
    case Failed(_, n) => phase == Failed({}, n)
    case Closing(committed) => phase == Closed(committed)
    case _ => false
  }

  lemma MovedOn(db: Db, cl: Client, phase: Phase)
    requires ClientOk(db, cl) && MovesOn(cl, phase)
    ensures ClientOk(db, cl.(phase := phase))
  {
    assert Done(phase) == Done(cl.phase);
  }

  lemma QuietMoves(s: System, a: Action)
    requires Enabled(s, a) && Quiet(a)
    requires a.c in s.clients ==> PhaseOk(s.clients[a.c])
    ensures Next(s, a).db == s.db && a.c in Next(s, a).clients
    ensures a.Arrive? || MovesOn(s.clients[a.c], Next(s, a).clients[a.c].phase)
    ensures a.Arrive? || Next(s, a).clients[a.c] == s.clients[a.c].(phase := Next(s, a).clients[a.c].phase)
  {
  }

  lemma QuietActor(s: System, a: Action)
    requires Enabled(s, a) && Quiet(a) && (a.c in s.clients ==> ClientOk(s.db, s.clients[a.c]))
    ensures Next(s, a).db == s.db && a.c in Next(s, a).clients && ClientOk(s.db, Next(s, a).clients[a.c])
  {
    QuietMoves(s, a);
    if !a.Arrive? {
      MovedOn(s.db, s.clients[a.c], Next(s, a).clients[a.c].phase);
    }
  }

  predicate Quiet(a: Action) {
    a.Arrive? || a.LockOuter? || a.Refuse? || a.LockRow? || a.UnlockRow? || a.Fail? || a.UnlockFailed? || a.UnlockOuter?
  }

  lemma GuardActor(s: System, a: Action)
    requires Enabled(s, a) && a.Guard? && ClientOk(s.db, s.clients[a.c])
    ensures ClientOk(s.db, Next(s, a).clients[a.c])
  {
  }

  lemma ReadActor(s: System, a: Action)
    requires Enabled(s, a) && a.ReadRow? && ClientOk(s.db, s.clients[a.c]) && Coherent(s.db)
    ensures ClientOk(s.db, Next(s, a).clients[a.c])
  {
    var was, cl := s.clients[a.c], Next(s, a).clients[a.c];
    var r := was.script[was.phase.next].row;
    if r !in was.before {
      DemandElsewhere(was.script[..was.phase.next], r);
    }
    if was.phase.next + 1 == |was.script| {
      LastTake(s.db, was.job);
    }
  }

  /** The money is the last thing a transaction moves, and the only balance. */
  lemma LastTake(db: Db, job: Job)
    requires Coherent(db) && Admitted(db, job)
    ensures ScriptOf(db, job) != []
    ensures forall i | 0 <= i < |ScriptOf(db, job)| :: ScriptOf(db, job)[i].row.Balance? <==>
            i == |ScriptOf(db, job)| - 1
    ensures ScriptOf(db, job)[|ScriptOf(db, job)| - 1] ==
            Take(Balance(job.userId), db.orders[OrderOf(db, job)].finalAmount)
  {
  }

  function Updated(rows: map<Row, int>, cl: Client): map<Row, int>
    requires cl.phase.Checked? && cl.phase.next < |cl.script| && cl.script[cl.phase.next].row in rows
  {
    var t := cl.script[cl.phase.next];
    rows[t.row := rows[t.row] + if cl.job.PayJob? then -t.amount else t.amount]
  }

  /** One more take of the script is done, whether its row was changed before or not. */
  lemma UpdatedRows(rows: map<Row, int>, cl: Client, cl': Client)
    requires PhaseOk(cl) && RowsOk(rows, cl) && cl.phase.Checked? && cl.phase.next < |cl.script|
    requires cl.script[cl.phase.next].row in rows
    requires cl.job.PayJob? ==> cl.script[cl.phase.next].amount <= rows[cl.script[cl.phase.next].row]
    requires cl'.job == cl.job && cl'.script == cl.script && cl'.before == cl.before
             && cl'.phase == Taken(cl.phase.next)
    ensures RowsOk(Updated(rows, cl), cl')
  {
    var n := cl.phase.next;
    assert cl.script[..n + 1][..n] == cl.script[..n];
    forall r | r in cl.before ensures Change(cl', n + 1, r) == Change(cl, n, r) + Updated(rows, cl)[r] - rows[r] {
    }
  }

  lemma UpdateActor(s: System, a: Action)
    requires Enabled(s, a) && a.UpdateRow? && ClientOk(s.db, s.clients[a.c]) && Coherent(s.db)
    ensures ClientOk(Next(s, a).db, Next(s, a).clients[a.c])
  {
    UpdatedRows(s.db.rows, s.clients[a.c], Next(s, a).clients[a.c]);
    UpdatedWork(s, a);
  }

  /** The transaction goes on working; its last take is the money, whose history row it has inserted. */
  lemma UpdatedWork(s: System, a: Action)
    requires Enabled(s, a) && a.UpdateRow? && Coherent(s.db)
    requires PhaseOk(s.clients[a.c]) && WorkOk(s.db, s.clients[a.c])
    ensures PhaseOk(Next(s, a).clients[a.c]) && WorkOk(Next(s, a).db, Next(s, a).clients[a.c])
  {
    LastTake(s.db, s.clients[a.c].job);
  }

  lemma FinishingActor(s: System, a: Action)
    requires Enabled(s, a) && (a.Commit? || a.Rollback?) && ClientOk(s.db, s.clients[a.c])
    ensures ClientOk(Next(s, a).db, Next(s, a).clients[a.c])
  {
    if a.Commit? {
      CommitKeepsScripts(s.db, s.clients[a.c], a.paymentId, s.clients[a.c]);
    }
  }

  lemma ActorOk(s: System, a: Action)
    requires Enabled(s, a) && !a.Outside? && Coherent(s.db)
    requires a.c in s.clients ==> ClientOk(s.db, s.clients[a.c])
    ensures a.c in Next(s, a).clients && ClientOk(Next(s, a).db, Next(s, a).clients[a.c])
  {
    match a {
      case Guard(_) => GuardActor(s, a);
      case ReadRow(_) => ReadActor(s, a);
      case UpdateRow(_) => UpdateActor(s, a);
      case Commit(_, _) => FinishingActor(s, a);
      case Rollback(_) => FinishingActor(s, a);
      case _ => QuietActor(s, a);
    }
  }

  // ---------------------------------------------------------------- refinement of the atomic operations

  /** The committed rows do not see a step that leaves data and undo information alone. */
  lemma SameCommitted(s: System, s': System)
    requires s'.db == s.db && s'.rowlocks == s.rowlocks
    requires forall c | c in s.clients :: c in s'.clients && s'.clients[c].before == s.clients[c].before
    requires forall r | r in s.rowlocks :: s.rowlocks[r] in s.clients
    ensures Committed(s') == Committed(s)
  {
  }

  lemma ReadCommitted(s: System, a: Action)
    requires RowlocksOk(s.rowlocks, s.clients) && a.ReadRow? && Enabled(s, a)
    ensures Committed(Next(s, a)) == Committed(s)
  {
    forall r | r in s.db.rows ensures CommittedRow(Next(s, a), r) == CommittedRow(s, r) {
      assert r in s.clients[a.c].before ==> r in RowsHeldBy(s.rowlocks, a.c);
    }
  }

  lemma UpdateCommitted(s: System, a: Action)
    requires RowlocksOk(s.rowlocks, s.clients) && a.UpdateRow? && Enabled(s, a) && PhaseOk(s.clients[a.c])
    ensures Committed(Next(s, a)) == Committed(s)
  {
    var row := s.clients[a.c].script[s.clients[a.c].phase.next].row;
    assert row in RowsHeldBy(s.rowlocks, a.c);
    forall r | r in s.db.rows ensures CommittedRow(Next(s, a), r) == CommittedRow(s, r) {
      assert r in s.rowlocks && s.rowlocks[r] in s.clients ==> r in RowsHeldBy(s.rowlocks, s.rowlocks[r]);
    }
  }

  /** Restoring what the transaction found gives the committed rows back in place. */
  lemma RollbackCommitted(s: System, a: Action)
    requires RowlocksOk(s.rowlocks, s.clients) && a.Rollback? && Enabled(s, a)
    ensures Committed(Next(s, a)) == Committed(s)
  {
    forall r | r in s.db.rows ensures CommittedRow(Next(s, a), r) == CommittedRow(s, r) {
      assert r in s.clients[a.c].before <==> r in RowsHeldBy(s.rowlocks, a.c);
    }
  }

  /** What a commit makes visible in each row: everything its script says. */
  lemma CommitRow(s: System, a: Action, r: Row)
    requires RowlocksOk(s.rowlocks, s.clients) && a.Commit? && Enabled(s, a) && r in s.db.rows
    requires PhaseOk(s.clients[a.c]) && RowsOk(s.db.rows, s.clients[a.c])
    ensures CommittedRow(Next(s, a), r) == CommittedRow(s, r) + Change(s.clients[a.c], |s.clients[a.c].script|, r)
  {
    var cl := s.clients[a.c];
    assert cl.script[..|cl.script|] == cl.script;
    assert r in cl.before <==> r in RowsHeldBy(s.rowlocks, a.c);
    if r !in cl.before {
      DemandElsewhere(cl.script, r);
    }
  }

  function OpOf(cl: Client, paymentId: nat): Op {
    match cl.job
    case PayJob(userId, orderId) => Pay(userId, orderId, paymentId)
    case CancelJob(userId, id) => Cancel(userId, id)
  }

  /** At its commit, everything the atomic operation asks for holds of the committed rows. */
  lemma CommitCan(s: System, a: Action)
    requires RowlocksOk(s.rowlocks, s.clients) && a.Commit? && Enabled(s, a)
    requires ClientOk(s.db, s.clients[a.c]) && Coherent(s.db)
    ensures Can(Committed(s), OpOf(s.clients[a.c], a.paymentId))
  {
    var cl := s.clients[a.c];
    assert cl.script[..|cl.script|] == cl.script;
    forall i | 0 <= i < |cl.script|
      ensures cl.script[i].row in Committed(s).rows
      ensures cl.job.PayJob? ==> Demand(cl.script, cl.script[i].row) <= Committed(s).rows[cl.script[i].row]
    {
      assert cl.script[i].row in RowsHeldBy(s.rowlocks, a.c);
    }
    match cl.job {
      case PayJob(userId, orderId) =>
        assert Affordable(Committed(s).rows, cl.script);
      case CancelJob(userId, paymentId) =>
        var items := ItemTakes(s.db.orders[OrderOf(s.db, cl.job)].items);
        forall t | t in items ensures t.row in Committed(s).rows {
          assert t in cl.script;
        }
    }
  }

  /** What the atomic operation does to each row is what the script says. */
  lemma AtomicRow(db: Db, rows: map<Row, int>, cl: Client, paymentId: nat, r: Row)
    requires Admitted(db, cl.job) && Coherent(db) && cl.script == ScriptOf(db, cl.job)
    requires Can(db.(rows := rows), OpOf(cl, paymentId)) && Balance(cl.job.userId) in rows
    ensures var done := After(db.(rows := rows), OpOf(cl, paymentId)).rows;
            && (r in done <==> r in rows)
            && (r in rows ==> done[r] == rows[r] + Change(cl, |cl.script|, r))
  {
    assert cl.script[..|cl.script|] == cl.script;
    TakesDemand(db.orders[OrderOf(db, cl.job)], r);
  }

  lemma CommitRows(s: System, a: Action)
    requires RowlocksOk(s.rowlocks, s.clients) && a.Commit? && Enabled(s, a)
    requires ClientOk(s.db, s.clients[a.c]) && Coherent(s.db)
    requires Can(Committed(s), OpOf(s.clients[a.c], a.paymentId))
    ensures Committed(Next(s, a)).rows == After(Committed(s), OpOf(s.clients[a.c], a.paymentId)).rows
  {
    var cl := s.clients[a.c];
    var rows, done := Committed(s).rows, After(Committed(s), OpOf(cl, a.paymentId)).rows;
    LastTake(s.db, cl.job);
    forall r
      ensures r in done <==> r in s.db.rows
      ensures r in s.db.rows ==> done[r] == CommittedRow(Next(s, a), r)
    {
      AtomicRow(s.db, rows, cl, a.paymentId, r);
      if r in s.db.rows {
        CommitRow(s, a, r);
      }
    }
  }

  /** The history row that the transaction inserted on the way is the one the atomic operation logs. */
  lemma CommitNote(s: System, a: Action)
    requires RowlocksOk(s.rowlocks, s.clients) && a.Commit? && Enabled(s, a)
    requires ClientOk(s.db, s.clients[a.c]) && Coherent(s.db)
    ensures s.clients[a.c].notes == [FinalNote(s.db, Committed(s).rows, s.clients[a.c].job)]
  {
    var cl := s.clients[a.c];
    LastTake(s.db, cl.job);
    var money := Balance(cl.job.userId);
    assert cl.script[|cl.script| - 1].row == money;
    assert money in RowsHeldBy(s.rowlocks, a.c);
    assert cl.script[..|cl.script|] == cl.script;
    TakesDemand(s.db.orders[OrderOf(s.db, cl.job)], money);
  }

  /** The history row that goes with the whole move of money of `job`, from committed rows `rows`. */
  function FinalNote(db: Db, rows: map<Row, int>, job: Job): HistoryRow
    requires Admitted(db, job) && Coherent(db)
  {
    var amount := db.orders[OrderOf(db, job)].finalAmount;
    var held := Held(rows, Balance(job.userId));
    if job.PayJob? then HistoryRow(USE, amount, held - amount) else HistoryRow(REFUND, amount, held + amount)
  }

  /** The tables other than `rows` are written by a commit as by the atomic operation. */
  lemma WrittenByPay(db: Db, rows: map<Row, int>, cl: Client, paymentId: nat)
    requires cl.job.PayJob? && Admitted(db, cl.job) && Coherent(db)
    requires Can(db.(rows := rows), OpOf(cl, paymentId))
    requires cl.notes == [FinalNote(db, rows, cl.job)]
    ensures var done := After(db.(rows := rows), OpOf(cl, paymentId));
            Written(db, cl, paymentId).(rows := done.rows) == done
  {
  }

  lemma WrittenByCancel(db: Db, rows: map<Row, int>, cl: Client, paymentId: nat)
    requires cl.job.CancelJob? && Admitted(db, cl.job) && Coherent(db)
    requires Can(db.(rows := rows), OpOf(cl, paymentId))
    requires cl.notes == [FinalNote(db, rows, cl.job)]
    ensures var done := After(db.(rows := rows), OpOf(cl, paymentId));
            Written(db, cl, paymentId).(rows := done.rows) == done
  {
    var order := db.orders[OrderOf(db, cl.job)];
    var money := Balance(cl.job.userId);
    TakesDemand(order, money);
    assert Held(Raised(rows, ItemTakes(order.items)), money) == Held(rows, money);
  }

  lemma CommitIsAtomic(s: System, a: Action)
    requires RowlocksOk(s.rowlocks, s.clients) && a.Commit? && Enabled(s, a)
    requires ClientOk(s.db, s.clients[a.c]) && Coherent(s.db)
    ensures Can(Committed(s), OpOf(s.clients[a.c], a.paymentId))
    ensures Committed(Next(s, a)) == After(Committed(s), OpOf(s.clients[a.c], a.paymentId))
  {
    CommitCan(s, a);
    CommitRows(s, a);
    CommitNote(s, a);
    CommitTables(s, a);
  }

  lemma CommitTables(s: System, a: Action)
    requires a.Commit? && Enabled(s, a) && Coherent(s.db)
    requires Can(Committed(s), OpOf(s.clients[a.c], a.paymentId))
    requires s.clients[a.c].notes == [FinalNote(s.db, Committed(s).rows, s.clients[a.c].job)]
    requires Committed(Next(s, a)).rows == After(Committed(s), OpOf(s.clients[a.c], a.paymentId)).rows
    ensures Committed(Next(s, a)) == After(Committed(s), OpOf(s.clients[a.c], a.paymentId))
  {
    var cl := s.clients[a.c];
    if cl.job.PayJob? {
      WrittenByPay(s.db, Committed(s).rows, cl, a.paymentId);
    } else {
      WrittenByCancel(s.db, Committed(s).rows, cl, a.paymentId);
    }
  }

  /** An operation from outside touches no locked row, and finds in every other what is committed. */
  lemma OutsideRow(s: System, a: Action, r: Row)
    requires RowlocksOk(s.rowlocks, s.clients) && a.Outside? && Enabled(s, a)
    requires r in s.rowlocks ==> r in s.db.rows
    ensures r in Next(s, a).db.rows <==> r in After(Committed(s), a.op).rows
    ensures r in Next(s, a).db.rows ==> CommittedRow(Next(s, a), r) == After(Committed(s), a.op).rows[r]
  {
  }

  /** What an operation from outside logs depends only on the balance it moves. */
  lemma LogStands(db: Db, rows: map<Row, int>, op: Op)
    requires !op.Pay? && !op.Cancel? && Can(db, op) && Can(db.(rows := rows), op)
    requires op.TopUp? || op.Deduct? ==> Held(rows, Balance(op.userId)) == Held(db.rows, Balance(op.userId))
    ensures After(db, op).(rows := map[]) == After(db.(rows := rows), op).(rows := map[])
  {
  }

  lemma OutsideTables(s: System, a: Action)
    requires a.Outside? && Enabled(s, a)
    ensures var done := After(Committed(s), a.op);
            Next(s, a).db.(rows := done.rows) == done
  {
    if !a.op.CreateOrder? {
      LogStands(s.db, Committed(s).rows, a.op);
    }
  }

  lemma OutsideIsAtomic(s: System, a: Action)
    requires RowlocksOk(s.rowlocks, s.clients) && a.Outside? && Enabled(s, a)
    requires forall r | r in s.rowlocks :: r in s.db.rows
    ensures Committed(Next(s, a)) == After(Committed(s), a.op)
  {
    OutsideTables(s, a);
    forall r
      ensures r in Next(s, a).db.rows <==> r in After(Committed(s), a.op).rows
      ensures r in Next(s, a).db.rows ==> CommittedRow(Next(s, a), r) == After(Committed(s), a.op).rows[r]
    {
      OutsideRow(s, a, r);
    }
    assert Committed(Next(s, a)).rows == After(Committed(s), a.op).rows;
  }

  /** What a step does to the committed database: one atomic operation at a commit or from outside, or nothing. */
  function Effect(s: System, a: Action): seq<Op>
    requires Enabled(s, a)
  {
    match a
    case Commit(c, paymentId) => [OpOf(s.clients[c], paymentId)]
    case Outside(op) => [op]
    case _ => []
  }

  lemma SilentTables(s: System, a: Action)
    requires Enabled(s, a) && !a.Commit? && !a.Outside?
    ensures Next(s, a).db == s.db.(rows := Next(s, a).db.rows)
    ensures KeepsRows(a) && !a.UpdateRow? ==> Next(s, a).db == s.db
  {
  }

  lemma SilentCommitted(s: System, a: Action)
    requires RowlocksOk(s.rowlocks, s.clients) && Enabled(s, a) && !a.Commit? && !a.Outside?
    requires a.c in s.clients ==> PhaseOk(s.clients[a.c])
    ensures Committed(Next(s, a)) == Committed(s)
  {
    if a.ReadRow? {
      ReadCommitted(s, a);
    } else if a.UpdateRow? {
      UpdateCommitted(s, a);
    } else if a.Rollback? {
      RollbackCommitted(s, a);
    } else {
      SilentTables(s, a);
      SameRowlocks(s, a);
      SameCommitted(s, Next(s, a));
    }
  }

  lemma SilentStep(s: System, a: Action)
    requires SystemOk(s) && Enabled(s, a) && !a.Commit? && !a.Outside?
    ensures Committed(Next(s, a)) == Committed(s)
    ensures Lifecycle(Next(s, a).db)
  {
    assert a.c in s.clients ==> ClientOk(s.db, s.clients[a.c]);
    SilentCommitted(s, a);
    SilentTables(s, a);
    LifecycleIgnoresRows(s.db, Next(s, a).db);
  }

  lemma LifecycleIgnoresRows(a: Db, b: Db)
    requires a.orders == b.orders && a.payments == b.payments && Lifecycle(a)
    ensures Lifecycle(b)
  {
    forall o, status | HasPayment(a, o, status) ensures HasPayment(b, o, status) {
      HasPaymentKept(a, b, o, status);
    }
  }

  lemma LoudStep(s: System, a: Action)
    requires SystemOk(s) && Enabled(s, a) && (a.Commit? || a.Outside?)
    ensures Can(Committed(s), Effect(s, a)[0])
    ensures Committed(Next(s, a)) == After(Committed(s), Effect(s, a)[0])
    ensures Lifecycle(Next(s, a).db)
  {
    if a.Commit? {
      assert ClientOk(s.db, s.clients[a.c]);
      CommitIsAtomic(s, a);
    } else {
      forall r | r in s.rowlocks ensures r in s.db.rows {
        assert r in RowsHeldBy(s.rowlocks, s.rowlocks[r]);
        assert ClientOk(s.db, s.clients[s.rowlocks[r]]);
      }
      OutsideIsAtomic(s, a);
    }
    LifecycleIgnoresRows(s.db, Committed(s));
    LifecycleStep(Committed(s), Effect(s, a)[0]);
    LifecycleIgnoresRows(Committed(Next(s, a)), Next(s, a).db);
  }

  /** Every step of every client, and every outside operation, is nothing or one successful atomic operation
      on the committed database, and keeps the locks, the undo information and the guards in order. */
  lemma StepRefines(s: System, a: Action)
    requires SystemOk(s) && Enabled(s, a)
    ensures SystemOk(Next(s, a))
    ensures Undo.Committed(Committed(s), Effect(s, a))
    ensures Committed(Next(s, a)) == Run(Committed(s), Effect(s, a))
  {
    RedlocksStep(s, a);
    RowlocksStep(s, a);
    if a.Commit? || a.Outside? {
      LoudStep(s, a);
      Undo.RunOne(Committed(s), Effect(s, a)[0]);
      assert Effect(s, a) == [Effect(s, a)[0]];
    } else {
      SilentStep(s, a);
    }
    forall d | d in Next(s, a).clients ensures ClientOk(Next(s, a).db, Next(s, a).clients[d]) {
      SomeClientOk(s, a, d);
    }
  }

  lemma SomeClientOk(s: System, a: Action, d: nat)
    requires SystemOk(s) && Enabled(s, a) && d in Next(s, a).clients
    ensures ClientOk(Next(s, a).db, Next(s, a).clients[d])
  {
    if !a.Outside? && d == a.c {
      ActorOk(s, a);
    } else {
      OtherClientSame(s, a, d);
      BystandersOk(s, a, d);
    }
  }

  lemma OtherClientSame(s: System, a: Action, d: nat)
    requires Enabled(s, a) && d in Next(s, a).clients && (a.Outside? || d != a.c)
    ensures d in s.clients && Next(s, a).clients[d] == s.clients[d]
  {
  }

  // ---------------------------------------------------------------- whole executions

  predicate Execution(s: System, actions: seq<Action>)
    decreases |actions|
  {
    actions == [] || (Enabled(s, actions[0]) && Execution(Next(s, actions[0]), actions[1..]))
  }

  function Final(s: System, actions: seq<Action>): System
    requires Execution(s, actions)
    decreases |actions|
  {
    if actions == [] then s else Final(Next(s, actions[0]), actions[1..])
  }

  function Effects(s: System, actions: seq<Action>): seq<Op>
    requires Execution(s, actions)
    decreases |actions|
  {
    if actions == [] then [] else Effect(s, actions[0]) + Effects(Next(s, actions[0]), actions[1..])
  }

  function Idle(db: Db): System {
    System(db, map[], map[], map[])
  }

  lemma IdleOk(db: Db)
    requires Lifecycle(db)
    ensures SystemOk(Idle(db)) && Committed(Idle(db)) == db
  {
    assert Committed(Idle(db)).rows == db.rows;
  }

  /** Any interleaving, with any aborts, is on the committed database a run of atomic operations, all successful. */
  lemma {:induction false} ExecutionRefines(s: System, actions: seq<Action>)
    requires SystemOk(s) && Execution(s, actions)
    ensures SystemOk(Final(s, actions))
    ensures Undo.Committed(Committed(s), Effects(s, actions))
    ensures Committed(Final(s, actions)) == Run(Committed(s), Effects(s, actions))
    decreases |actions|
  {
    if actions != [] {
      var s' := Next(s, actions[0]);
      StepRefines(s, actions[0]);
      ExecutionRefines(s', actions[1..]);
      Undo.RunConcat(Committed(s), Effect(s, actions[0]), Effects(s', actions[1..]));
    }
  }

  /** What the transaction that has `r` locked has so far put into the row (a payment puts in less than nothing). */
  function InFlight(s: System, r: Row): int {
    if r in s.rowlocks && s.rowlocks[r] in s.clients
       && Done(s.clients[s.rowlocks[r]].phase) <= |s.clients[s.rowlocks[r]].script|
    then Change(s.clients[s.rowlocks[r]], Done(s.clients[s.rowlocks[r]].phase), r) else 0
  }

  /** A row that a client has locked, and found non-negative, stays non-negative under its hands. */
  lemma LockedRowNonNegative(db: Db, cl: Client, r: Row)
    requires ClientOk(db, cl) && r in cl.before && cl.before[r] >= 0
    requires forall o | o in db.orders :: db.orders[o].finalAmount >= 0
    ensures db.rows[r] >= 0
  {
    var done := cl.script[..Done(cl.phase)];
    if forall t | t in done :: t.row != r {
      DemandElsewhere(done, r);
    } else if cl.job.CancelJob? {
      DemandNonNegative(done, r);
    }
  }

  lemma InPlaceRow(s: System, r: Row)
    requires SystemOk(s)
    ensures Held(s.db.rows, r) == Held(Committed(s).rows, r) + InFlight(s, r)
  {
    if r in s.rowlocks {
      var c := s.rowlocks[r];
      assert r in RowsHeldBy(s.rowlocks, c);
      assert ClientOk(s.db, s.clients[c]);
    }
  }

  lemma InPlaceAccount(s: System, r: Row)
    requires SystemOk(s)
    ensures Held(s.db.rows, r) - InFlight(s, r) + Spent(s.db, r) == Held(Committed(s).rows, r) + Spent(Committed(s), r)
  {
    InPlaceRow(s, r);
    SpentInPlace(s, r);
  }

  lemma SpentInPlace(s: System, r: Row)
    ensures Spent(Committed(s), r) == Spent(s.db, r)
  {
    assert Spending(Committed(s), r) == Spending(s.db, r);
  }

  /** Conservation at every step of every interleaving: what a row holds in place, less what the transaction working
      on it has put in, plus what the COMPLETED payments took, is what there was at the start
      and what came from outside. */
  lemma InterleavedConservation(db: Db, actions: seq<Action>, r: Row)
    requires Lifecycle(db) && Execution(Idle(db), actions)
    ensures var s := Final(Idle(db), actions);
            Held(s.db.rows, r) - InFlight(s, r) + Spent(s.db, r) ==
            Held(db.rows, r) + Spent(db, r) + RunExternal(db, Effects(Idle(db), actions), r)
  {
    IdleOk(db);
    ExecutionRefines(Idle(db), actions);
    RunConserves(db, Effects(Idle(db), actions), r);
    InPlaceAccount(Final(Idle(db), actions), r);
  }

  /** If no amount brought in is negative, no stock and no balance is negative in any intermediate state either. */
  lemma InterleavedNonNegative(db: Db, actions: seq<Action>)
    requires Lifecycle(db) && SaneAmounts(db) && Execution(Idle(db), actions)
    requires AllSane(Effects(Idle(db), actions))
    ensures NonNegative(Final(Idle(db), actions).db.rows)
  {
    IdleOk(db);
    ExecutionRefines(Idle(db), actions);
    RunNonNegative(db, Effects(Idle(db), actions));
    var s := Final(Idle(db), actions);
    forall r | r in s.db.rows ensures s.db.rows[r] >= 0 {
      if r in s.rowlocks {
        var c := s.rowlocks[r];
        assert r in RowsHeldBy(s.rowlocks, c);
        assert Committed(s).rows[r] == s.clients[c].before[r];
        LockedRowNonNegative(s.db, s.clients[c], r);
      } else {
        assert Committed(s).rows[r] == s.db.rows[r];
      }
    }
  }

  /** The history of the committed database replays to its balances at every step of every interleaving. */
  lemma InterleavedLedger(opening: nat -> int, db: Db, actions: seq<Action>)
    requires Lifecycle(db) && Ledger(opening, db) && Execution(Idle(db), actions)
    ensures Ledger(opening, Committed(Final(Idle(db), actions)))
  {
    IdleOk(db);
    ExecutionRefines(Idle(db), actions);
    RunLedger(opening, db, Effects(Idle(db), actions));
  }
}
