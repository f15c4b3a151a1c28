/** The tables of the shop and the transactions that change them, each taken as one atomic step.
    Money is counted in units of the last decimal place that the database stores, so amounts are exact integers. */
module Shop {
  import opened Sums

  /** One counter that a transaction may change: a variant's `stockQuantity` or a user's `balance`. */
  datatype Row = Stock(variantId: nat) | Balance(userId: nat)

  datatype OrderStatus = PENDING | PAID | SHIPPING | DELIVERED | CANCELLED

  datatype PaymentStatus = PENDING | COMPLETED | CANCELLED

  datatype BalanceType = CHARGE | USE | REFUND

  datatype Item = Item(variantId: nat, quantity: nat)

  datatype Order = Order(userId: nat, items: seq<Item>, finalAmount: int, status: OrderStatus)

  datatype Payment = Payment(orderId: nat, userId: nat, amount: int, status: PaymentStatus)

  datatype HistoryRow = HistoryRow(kind: BalanceType, amount: int, afterBalance: int)

  datatype Db = Db(
    users: set<nat>,
    rows: map<Row, int>,
    history: map<nat, seq<HistoryRow>>,
    orders: map<nat, Order>,
    payments: map<nat, Payment>
  )

  /** `amount` to be taken from (or given back to) `row`. */
  datatype Take = Take(row: Row, amount: int)

  function ItemTakes(items: seq<Item>): (ts: seq<Take>) {
    seq(|items|, i requires 0 <= i < |items| => Take(Stock(items[i].variantId), items[i].quantity))
  }

  /** Everything a payment takes, in the order in which it takes it: the stock of each item, then the money. */
  function Takes(order: Order): (ts: seq<Take>) {
    ItemTakes(order.items) + [Take(Balance(order.userId), order.finalAmount)]
  }

  /** The summed demand of a list of takes on one row, duplicates included. */
  function Demand(ts: seq<Take>, r: Row): int {
    if ts == [] then 0
    else
      var t := ts[|ts| - 1];
      Demand(ts[..|ts| - 1], r) + if t.row == r then t.amount else 0
  }

  function Lowered(rows: map<Row, int>, ts: seq<Take>): map<Row, int> {
    map r | r in rows :: rows[r] - Demand(ts, r)
  }

  function Raised(rows: map<Row, int>, ts: seq<Take>): map<Row, int> {
    map r | r in rows :: rows[r] + Demand(ts, r)
  }

  function Held(rows: map<Row, int>, r: Row): int {
    if r in rows then rows[r] else 0
  }

  /** Every row the takes name exists. */
  predicate Known(rows: map<Row, int>, ts: seq<Take>) {
    forall t | t in ts :: t.row in rows
  }

  /** Every row the takes name holds at least the summed demand on it. */
  predicate Affordable(rows: map<Row, int>, ts: seq<Take>) {
    forall t | t in ts :: t.row in rows && Demand(ts, t.row) <= rows[t.row]
  }

  function HistoryOf(db: Db, userId: nat): seq<HistoryRow> {
    if userId in db.history then db.history[userId] else []
  }

  function Logged(db: Db, userId: nat, row: HistoryRow): map<nat, seq<HistoryRow>> {
    db.history[userId := HistoryOf(db, userId) + [row]]
  }

  // ---------------------------------------------------------------- atomic operations

  datatype Op =
    | CreateOrder(orderId: nat, order: Order)
    | Pay(userId: nat, orderId: nat, paymentId: nat)
    | Cancel(userId: nat, paymentId: nat)
    | TopUp(userId: nat, amount: int)
    | Deduct(userId: nat, amount: int)

  /** The guards of the transactions. An operation whose guard fails throws and changes nothing.
      `CreateOrder` and `Pay` carry the identifier that the database assigns to the new row. */
  predicate Can(db: Db, op: Op) {
    match op
    case CreateOrder(orderId, order) =>
      && orderId !in db.orders
      && order.userId in db.users
      && order.status == OrderStatus.PENDING
      && forall item | item in order.items ::
           Stock(item.variantId) in db.rows && item.quantity <= db.rows[Stock(item.variantId)]
    case Pay(userId, orderId, paymentId) =>
      && paymentId !in db.payments
      && PayGuard(db, userId, orderId)
      && Affordable(db.rows, Takes(db.orders[orderId]))
    case Cancel(userId, paymentId) =>
      && CancelGuard(db, userId, paymentId)
      && db.payments[paymentId].orderId in db.orders
      && Known(db.rows, ItemTakes(db.orders[db.payments[paymentId].orderId].items))
      && userId in db.users
    case TopUp(userId, amount) =>
      userId in db.users
    case Deduct(userId, amount) =>
      Balance(userId) in db.rows && amount <= db.rows[Balance(userId)]
  }

  predicate PayGuard(db: Db, userId: nat, orderId: nat) {
    && orderId in db.orders
    && db.orders[orderId].userId == userId
    && db.orders[orderId].status !in {OrderStatus.PAID, OrderStatus.CANCELLED}
  }

  predicate CancelGuard(db: Db, userId: nat, paymentId: nat) {
    && paymentId in db.payments
    && db.payments[paymentId].userId == userId
    && db.payments[paymentId].status == PaymentStatus.COMPLETED
  }

  /** The state after a successful operation, stated through summed demands rather than item by item. */
  function After(db: Db, op: Op): Db
    requires Can(db, op)
  {
    match op
    case CreateOrder(orderId, order) =>
      db.(orders := db.orders[orderId := order])
    case Pay(userId, orderId, paymentId) =>
      var order := db.orders[orderId];
      Charged(db, userId, USE, -order.finalAmount).(
        rows := Lowered(db.rows, Takes(order)),
        orders := db.orders[orderId := order.(status := OrderStatus.PAID)],
        payments := db.payments[paymentId :=
          Payment(orderId, userId, order.finalAmount, PaymentStatus.COMPLETED)])
    case Cancel(userId, paymentId) =>
      var payment := db.payments[paymentId];
      var order := db.orders[payment.orderId];
      Charged(db.(rows := Raised(db.rows, ItemTakes(order.items))), userId, REFUND, payment.amount).(
        orders := db.orders[payment.orderId := order.(status := OrderStatus.CANCELLED)],
        payments := db.payments[paymentId := payment.(status := PaymentStatus.CANCELLED)])
    case TopUp(userId, amount) =>
      Charged(db, userId, REFUND, amount)
    case Deduct(userId, amount) =>
      Charged(db, userId, USE, -amount)
  }

  /** Moves a user's balance by `change` and logs the move; a missing balance row is created.
      The log holds the size of the move and its kind, and every credit is logged as a REFUND. */
  function Charged(db: Db, userId: nat, kind: BalanceType, change: int): Db {
    var balance := Held(db.rows, Balance(userId)) + change;
    db.(
      rows := db.rows[Balance(userId) := balance],
      history := Logged(db, userId, HistoryRow(kind, if kind.USE? then -change else change, balance)))
  }

  function Step(db: Db, op: Op): Db {
    if Can(db, op) then After(db, op) else db
  }

  /** A run of operations in any order, the failed ones changing nothing. */
  function Run(db: Db, ops: seq<Op>): Db {
    if ops == [] then db else Step(Run(db, ops[..|ops| - 1]), ops[|ops| - 1])
  }

  // ---------------------------------------------------------------- summed demand

  lemma {:induction false} DemandConcat(a: seq<Take>, b: seq<Take>, r: Row)
    ensures Demand(a + b, r) == Demand(a, r) + Demand(b, r)
    decreases |b|
  {
    if b == [] {
      assert a + b == a;
    } else {
      var n := |b| - 1;
      assert (a + b)[..|a + b| - 1] == a + b[..n];
      DemandConcat(a, b[..n], r);
    }
  }

  lemma {:induction false} DemandNonNegative(ts: seq<Take>, r: Row)
    requires forall t | t in ts :: t.amount >= 0
    ensures Demand(ts, r) >= 0
    decreases |ts|
  {
    if ts != [] {
      DemandNonNegative(ts[..|ts| - 1], r);
    }
  }

  lemma {:induction false} DemandElsewhere(ts: seq<Take>, r: Row)
    requires forall t | t in ts :: t.row != r
    ensures Demand(ts, r) == 0
    decreases |ts|
  {
    if ts != [] {
      DemandElsewhere(ts[..|ts| - 1], r);
    }
  }

  /** An order's demand splits into stock, which only its items ask for, and money, which only its total asks for. */
  lemma TakesDemand(order: Order, r: Row)
    ensures Demand(Takes(order), r) ==
            Demand(ItemTakes(order.items), r) + if r == Balance(order.userId) then order.finalAmount else 0
    ensures r.Balance? ==> Demand(ItemTakes(order.items), r) == 0
    ensures Demand(ItemTakes(order.items), r) >= 0
  {
    assert Takes(order)[..|order.items|] == ItemTakes(order.items);
    DemandNonNegative(ItemTakes(order.items), r);
    if r.Balance? {
      DemandElsewhere(ItemTakes(order.items), r);
    }
  }

  lemma TakesAffordable(rows: map<Row, int>, order: Order)
    ensures Affordable(rows, Takes(order)) <==>
            && Affordable(rows, ItemTakes(order.items))
            && Balance(order.userId) in rows
            && order.finalAmount <= rows[Balance(order.userId)]
  {
    forall r ensures Demand(Takes(order), r) ==
                     Demand(ItemTakes(order.items), r) + if r == Balance(order.userId) then order.finalAmount else 0
    {
      TakesDemand(order, r);
    }
    TakesDemand(order, Balance(order.userId));
    var money := Take(Balance(order.userId), order.finalAmount);
    assert Takes(order) == ItemTakes(order.items) + [money];
    assert money in Takes(order);
    assert forall t | t in ItemTakes(order.items) :: t in Takes(order) && t.row.Stock?;
  }

  // ---------------------------------------------------------------- what every operation keeps

  /** Payments refer to existing orders and repeat their owner and amount. */
  ghost predicate Coherent(db: Db) {
    forall p | p in db.payments ::
      && db.payments[p].orderId in db.orders
      && db.payments[p].userId == db.orders[db.payments[p].orderId].userId
      && db.payments[p].amount == db.orders[db.payments[p].orderId].finalAmount
  }

  lemma CoherentStep(db: Db, op: Op)
    requires Coherent(db)
    ensures Coherent(Step(db, op))
  {
  }

  function Spending(db: Db, r: Row): map<nat, int> {
    map p | p in db.payments :: PaymentDemand(db, db.payments[p], r)
  }

  function PaymentDemand(db: Db, payment: Payment, r: Row): int {
    if payment.status == PaymentStatus.COMPLETED && payment.orderId in db.orders
    then Demand(Takes(db.orders[payment.orderId]), r) else 0
  }

  /** What all COMPLETED payments together have taken from a row. */
  ghost function Spent(db: Db, r: Row): int {
    Total(Spending(db, r))
  }

  /** What an operation brings into a row from outside, or takes out of it without a payment. */
  function External(op: Op, r: Row): int {
    match op
    case TopUp(userId, amount) => if r == Balance(userId) then amount else 0
    case Deduct(userId, amount) => if r == Balance(userId) then -amount else 0
    case _ => 0
  }

  lemma PayConserves(db: Db, op: Op, r: Row)
    requires op.Pay? && Can(db, op)
    ensures Held(After(db, op).rows, r) + Spent(After(db, op), r) == Held(db.rows, r) + Spent(db, r)
  {
    var order := db.orders[op.orderId];
    var d := Demand(Takes(order), r);
    var paid := order.(status := OrderStatus.PAID);
    assert Takes(paid) == Takes(order);
    assert Spending(After(db, op), r) == Spending(db, r)[op.paymentId := d];
    TotalUpdate(Spending(db, r), op.paymentId, d);
    if r !in db.rows {
      DemandElsewhere(Takes(order), r);
    }
  }

  lemma CancelConserves(db: Db, op: Op, r: Row)
    requires Coherent(db) && op.Cancel? && Can(db, op)
    ensures Held(After(db, op).rows, r) + Spent(After(db, op), r) == Held(db.rows, r) + Spent(db, r)
  {
    var order := db.orders[db.payments[op.paymentId].orderId];
    var cancelled := order.(status := OrderStatus.CANCELLED);
    assert Takes(cancelled) == Takes(order);
    assert Spending(After(db, op), r) == Spending(db, r)[op.paymentId := 0];
    TotalUpdate(Spending(db, r), op.paymentId, 0);
    TakesDemand(order, r);
    if r !in db.rows {
      DemandElsewhere(ItemTakes(order.items), r);
    }
  }

  /** Stock and money are conserved: what a row holds plus what COMPLETED payments took from it
      moves only by what comes from outside. */
  lemma StepConserves(db: Db, op: Op, r: Row)
    requires Coherent(db) && Can(db, op)
    ensures Held(After(db, op).rows, r) + Spent(After(db, op), r) == Held(db.rows, r) + Spent(db, r) + External(op, r)
  {
    match op {
      case Pay(_, _, _) => PayConserves(db, op, r);
      case Cancel(_, _) => CancelConserves(db, op, r);
      case _ => assert Spending(After(db, op), r) == Spending(db, r);
    }
  }

  /** The external flow of the operations of a run that succeeded. */
  ghost function RunExternal(db: Db, ops: seq<Op>, r: Row): int {
    if ops == [] then 0
    else
      var n := |ops| - 1;
      RunExternal(db, ops[..n], r) + if Can(Run(db, ops[..n]), ops[n]) then External(ops[n], r) else 0
  }

  lemma {:induction false} RunConserves(db: Db, ops: seq<Op>, r: Row)
    requires Coherent(db)
    ensures Coherent(Run(db, ops))
    ensures Held(Run(db, ops).rows, r) + Spent(Run(db, ops), r) ==
            Held(db.rows, r) + Spent(db, r) + RunExternal(db, ops, r)
    decreases |ops|
  {
    if ops != [] {
      var n := |ops| - 1;
      RunConserves(db, ops[..n], r);
      CoherentStep(Run(db, ops[..n]), ops[n]);
      if Can(Run(db, ops[..n]), ops[n]) {
        StepConserves(Run(db, ops[..n]), ops[n], r);
      }
    }
  }

  ghost predicate NonNegative(rows: map<Row, int>) {
    forall r | r in rows :: rows[r] >= 0
  }

  /** No amount that an operation brings in is negative. */
  ghost predicate Sane(op: Op) {
    match op
    case CreateOrder(orderId, order) => order.finalAmount >= 0
    case TopUp(userId, amount) => amount >= 0
    case _ => true
  }

  ghost predicate SaneAmounts(db: Db) {
    && (forall o | o in db.orders :: db.orders[o].finalAmount >= 0)
    && NonNegative(db.rows)
  }

  /** From non-negative rows, a successful operation leaves non-negative rows exactly when it does not
      credit a balance with an amount more negative than the balance can bear. Payments and deductions,
      guarded by their own checks, always do, even for negative amounts. */
  lemma NonNegativeExactly(db: Db, op: Op)
    requires NonNegative(db.rows) && Can(db, op)
    ensures NonNegative(After(db, op).rows) <==>
            match op
            case Cancel(userId, paymentId) => Held(db.rows, Balance(userId)) + db.payments[paymentId].amount >= 0
            case TopUp(userId, amount) => Held(db.rows, Balance(userId)) + amount >= 0
            case _ => true
  {
    var db' := After(db, op);
    match op {
      case Pay(userId, orderId, paymentId) =>
        var order := db.orders[orderId];
        forall r | r in db'.rows ensures db'.rows[r] >= 0 {
          if forall t | t in Takes(order) :: t.row != r {
            DemandElsewhere(Takes(order), r);
          }
        }
      case Cancel(userId, paymentId) =>
        var order := db.orders[db.payments[paymentId].orderId];
        forall r | r in db.rows ensures Raised(db.rows, ItemTakes(order.items))[r] >= 0 {
          TakesDemand(order, r);
        }
        TakesDemand(order, Balance(userId));
        assert Balance(userId) in db'.rows;
      case TopUp(userId, amount) =>
        assert Balance(userId) in db'.rows;
      case _ =>
    }
  }

  lemma {:induction false} RunNonNegative(db: Db, ops: seq<Op>)
    requires Coherent(db) && SaneAmounts(db)
    requires AllSane(ops)
    ensures Coherent(Run(db, ops)) && SaneAmounts(Run(db, ops))
    decreases |ops|
  {
    if ops != [] {
      var n := |ops| - 1;
      RunNonNegative(db, ops[..n]);
      SaneStep(Run(db, ops[..n]), ops[n]);
    }
  }

  lemma SaneStep(db: Db, op: Op)
    requires Coherent(db) && SaneAmounts(db) && Sane(op)
    ensures Coherent(Step(db, op)) && SaneAmounts(Step(db, op))
  {
    CoherentStep(db, op);
    if Can(db, op) {
      NonNegativeExactly(db, op);
    }
  }

  /** What a user can spend once an order of negative total is paid. */
  function Proceeds(db: Db, userId: nat, orderId: nat): int
    requires orderId in db.orders
  {
    Held(db.rows, Balance(userId)) - db.orders[orderId].finalAmount
  }

  /** Every order of negative total that can be paid can be paid, its proceeds spent, and the payment cancelled:
      then the balance is below zero by the amount. The proceeds could not have been spent without it. */
  lemma SpentAndCancelled(db: Db, u: nat, o: nat, p: nat)
    requires Can(db, Pay(u, o, p)) && u in db.users && db.orders[o].finalAmount < 0
    ensures !Can(db, Deduct(u, Proceeds(db, u, o)))
    ensures var paid := After(db, Pay(u, o, p));
            && Can(paid, Deduct(u, Proceeds(db, u, o)))
            && var spent := After(paid, Deduct(u, Proceeds(db, u, o)));
            && Can(spent, Cancel(u, p))
            && Held(After(spent, Cancel(u, p)).rows, Balance(u)) == db.orders[o].finalAmount
  {
    var order := db.orders[o];
    TakesAffordable(db.rows, order);
    TakesDemand(order, Balance(u));
    var paid := After(db, Pay(u, o, p));
    assert paid.rows[Balance(u)] == Proceeds(db, u, o);
    var spent := After(paid, Deduct(u, Proceeds(db, u, o)));
    assert spent.rows.Keys == db.rows.Keys && spent.rows[Balance(u)] == 0;
    assert spent.orders[o].items == order.items && spent.payments[p].amount == order.finalAmount;
  }

  lemma RunOfThree(db: Db, a: Op, b: Op, c: Op)
    ensures Run(db, [a, b, c]) == Step(Step(Step(db, a), b), c)
  {
    assert [a][..0] == [] && [a, b][..1] == [a] && [a, b, c][..2] == [a, b];
    assert Run(db, [a]) == Step(db, a);
    assert Run(db, [a, b]) == Step(Run(db, [a]), b);
  }

  ghost predicate AllSane(ops: seq<Op>) {
    forall op | op in ops :: Sane(op)
  }

  lemma BreakingRun(db: Db, u: nat, o: nat, p: nat) returns (ops: seq<Op>)
    requires Can(db, Pay(u, o, p)) && u in db.users && db.orders[o].finalAmount < 0
    ensures AllSane(ops) && !NonNegative(Run(db, ops).rows)
  {
    var spend := Deduct(u, Proceeds(db, u, o));
    ops := [Pay(u, o, p), spend, Cancel(u, p)];
    SpentAndCancelled(db, u, o, p);
    RunOfThree(db, Pay(u, o, p), spend, Cancel(u, p));
    HeldNegative(Run(db, ops).rows, Balance(u));
  }

  lemma HeldNegative(rows: map<Row, int>, r: Row)
    requires Held(rows, r) < 0
    ensures !NonNegative(rows)
  {
    assert r in rows;
  }

  /** While an order can be paid, and every other amount is sane, no sane run makes stock or balance negative
      exactly when the order's total is not negative. */
  lemma StaysNonNegativeExactly(db: Db, u: nat, o: nat, p: nat)
    requires Lifecycle(db) && NonNegative(db.rows) && Can(db, Pay(u, o, p)) && u in db.users
    requires forall q | q in db.orders && q != o :: db.orders[q].finalAmount >= 0
    ensures (forall ops | AllSane(ops) :: NonNegative(Run(db, ops).rows)) <==> db.orders[o].finalAmount >= 0
  {
    if db.orders[o].finalAmount >= 0 {
      forall ops | AllSane(ops) ensures NonNegative(Run(db, ops).rows) {
        RunNonNegative(db, ops);
      }
    } else {
      var ops := BreakingRun(db, u, o, p);
    }
  }

  // ---------------------------------------------------------------- the ledger

  function Signed(row: HistoryRow): int {
    if row.kind.USE? then -row.amount else row.amount
  }

  /** The balance that a history leads to from an opening balance. */
  function Replay(opening: int, history: seq<HistoryRow>): int {
    if history == [] then opening
    else Replay(opening, history[..|history| - 1]) + Signed(history[|history| - 1])
  }

  /** Every row's `afterBalance` is what replaying the rows up to it gives, and the whole history gives the balance. */
  ghost predicate LedgerOf(opening: int, balance: int, history: seq<HistoryRow>) {
    && balance == Replay(opening, history)
    && forall k | 0 < k <= |history| :: history[k - 1].afterBalance == Replay(opening, history[..k])
  }

  ghost predicate Ledger(opening: nat -> int, db: Db) {
    forall u :: LedgerOf(opening(u), Held(db.rows, Balance(u)), HistoryOf(db, u))
  }

  /** A single logged move keeps the ledger of its user. */
  lemma LoggedReplay(opening: int, history: seq<HistoryRow>, row: HistoryRow)
    requires forall k | 0 < k <= |history| :: history[k - 1].afterBalance == Replay(opening, history[..k])
    requires row.afterBalance == Replay(opening, history) + Signed(row)
    ensures Replay(opening, history + [row]) == row.afterBalance
    ensures forall k | 0 < k <= |history| + 1 ::
              (history + [row])[k - 1].afterBalance == Replay(opening, (history + [row])[..k])
  {
    var all := history + [row];
    assert all[..|history|] == history;
    forall k | 0 < k <= |history| + 1
      ensures all[k - 1].afterBalance == Replay(opening, all[..k])
    {
      if k <= |history| {
        assert all[..k] == history[..k];
      } else {
        assert all[..k] == all;
      }
    }
  }

  /** The move that an operation logs for a user, if it moves that user's balance. */
  function Moves(db: Db, op: Op, u: nat): seq<HistoryRow>
    requires Can(db, op)
  {
    if op.CreateOrder? || op.userId != u then []
    else
      var amount := match op
        case Pay(_, orderId, _) => -db.orders[orderId].finalAmount
        case Cancel(_, paymentId) => db.payments[paymentId].amount
        case TopUp(_, amount) => amount
        case Deduct(_, amount) => -amount;
      var balance := Held(db.rows, Balance(u)) + amount;
      [if op.Pay? || op.Deduct? then HistoryRow(USE, -amount, balance) else HistoryRow(REFUND, amount, balance)]
  }

  /** A user's history grows by the user's move only. */
  lemma HistoryMoves(db: Db, op: Op, u: nat)
    requires Coherent(db) && Can(db, op)
    ensures HistoryOf(After(db, op), u) == HistoryOf(db, u) + Moves(db, op, u)
  {
    if op.Cancel? {
      CancelMoves(db, op, u);
    } else {
      assert HistoryOf(db, u) + [] == HistoryOf(db, u);
    }
  }

  lemma CancelMoves(db: Db, op: Op, u: nat)
    requires Coherent(db) && op.Cancel? && Can(db, op)
    ensures HistoryOf(After(db, op), u) == HistoryOf(db, u) + Moves(db, op, u)
  {
    if op.userId != u {
      assert HistoryOf(db, u) + [] == HistoryOf(db, u);
    } else {
      var order := db.orders[db.payments[op.paymentId].orderId];
      TakesDemand(order, Balance(u));
      assert Held(Raised(db.rows, ItemTakes(order.items)), Balance(u)) == Held(db.rows, Balance(u));
    }
  }

  /** A user's balance changes by the user's move only, to what the move says. */
  lemma BalanceMoves(db: Db, op: Op, u: nat)
    requires Coherent(db) && Can(db, op)
    ensures Held(After(db, op).rows, Balance(u)) ==
            if Moves(db, op, u) == [] then Held(db.rows, Balance(u)) else Moves(db, op, u)[0].afterBalance
  {
    match op {
      case Pay(userId, orderId, paymentId) => TakesDemand(db.orders[orderId], Balance(u));
      case Cancel(userId, paymentId) => TakesDemand(db.orders[db.payments[paymentId].orderId], Balance(u));
      case _ =>
    }
  }

  lemma LedgerStep(opening: nat -> int, db: Db, op: Op)
    requires Coherent(db) && Can(db, op) && Ledger(opening, db)
    ensures Ledger(opening, After(db, op))
  {
    forall u ensures LedgerOf(opening(u), Held(After(db, op).rows, Balance(u)), HistoryOf(After(db, op), u)) {
      HistoryMoves(db, op, u);
      BalanceMoves(db, op, u);
      assert LedgerOf(opening(u), Held(db.rows, Balance(u)), HistoryOf(db, u));
      if Moves(db, op, u) == [] {
        assert HistoryOf(db, u) + [] == HistoryOf(db, u);
      } else {
        LoggedReplay(opening(u), HistoryOf(db, u), Moves(db, op, u)[0]);
      }
    }
  }

  lemma {:induction false} RunLedger(opening: nat -> int, db: Db, ops: seq<Op>)
    requires Coherent(db) && Ledger(opening, db)
    ensures Coherent(Run(db, ops)) && Ledger(opening, Run(db, ops))
    decreases |ops|
  {
    if ops != [] {
      var n := |ops| - 1;
      RunLedger(opening, db, ops[..n]);
      CoherentStep(Run(db, ops[..n]), ops[n]);
      if Can(Run(db, ops[..n]), ops[n]) {
        LedgerStep(opening, Run(db, ops[..n]), ops[n]);
      }
    }
  }

  // ---------------------------------------------------------------- owners

  /** Every order, every balance and every history belongs to an existing user. */
  ghost predicate Owned(db: Db) {
    && (forall o | o in db.orders :: db.orders[o].userId in db.users)
    && (forall u | Balance(u) in db.rows :: u in db.users)
    && (forall u | u in db.history :: u in db.users)
  }

  lemma OwnedStep(db: Db, op: Op)
    requires Owned(db)
    ensures Owned(Step(db, op)) && Step(db, op).users == db.users
  {
  }

  lemma {:induction false} RunOwned(db: Db, ops: seq<Op>)
    requires Owned(db)
    ensures Owned(Run(db, ops)) && Run(db, ops).users == db.users
    decreases |ops|
  {
    if ops != [] {
      RunOwned(db, ops[..|ops| - 1]);
      OwnedStep(Run(db, ops[..|ops| - 1]), ops[|ops| - 1]);
    }
  }

  // ---------------------------------------------------------------- the life of an order

  ghost predicate OneEach(db: Db) {
    forall p, q | p in db.payments && q in db.payments && db.payments[p].orderId == db.payments[q].orderId :: p == q
  }

  ghost predicate HasPayment(db: Db, orderId: nat, status: PaymentStatus) {
    exists p :: p in db.payments && db.payments[p].orderId == orderId && db.payments[p].status == status
  }

  /** Each order has at most one payment ever: none while PENDING, one COMPLETED while PAID,
      one CANCELLED once CANCELLED; no other status occurs. */
  ghost predicate Lifecycle(db: Db) {
    && Coherent(db)
    && OneEach(db)
    && (forall p | p in db.payments :: !db.payments[p].status.PENDING?)
    && (forall o | o in db.orders ::
          match db.orders[o].status
          case PENDING => forall p | p in db.payments :: db.payments[p].orderId != o
          case PAID => HasPayment(db, o, PaymentStatus.COMPLETED)
          case CANCELLED => HasPayment(db, o, PaymentStatus.CANCELLED)
          case _ => false)
  }

  /** Other orders keep their payments, whatever happens to one of them. */
  lemma HasPaymentKept(db: Db, db': Db, orderId: nat, status: PaymentStatus)
    requires HasPayment(db, orderId, status)
    requires forall p | p in db.payments && db.payments[p].orderId == orderId ::
               p in db'.payments && db'.payments[p] == db.payments[p]
    ensures HasPayment(db', orderId, status)
  {
    var p :| p in db.payments && db.payments[p].orderId == orderId && db.payments[p].status == status;
    assert p in db'.payments && db'.payments[p] == db.payments[p];
  }

  lemma PayLifecycle(db: Db, op: Op)
    requires Lifecycle(db) && op.Pay? && Can(db, op)
    ensures Lifecycle(After(db, op))
  {
    var db' := After(db, op);
    assert db.orders[op.orderId].status == OrderStatus.PENDING;
    assert db'.payments[op.paymentId] ==
           Payment(op.orderId, op.userId, db.orders[op.orderId].finalAmount, PaymentStatus.COMPLETED);
    forall o, s | o in db.orders && o != op.orderId && HasPayment(db, o, s) ensures HasPayment(db', o, s) {
      HasPaymentKept(db, db', o, s);
    }
  }

  lemma CancelLifecycle(db: Db, op: Op)
    requires Lifecycle(db) && op.Cancel? && Can(db, op)
    ensures Lifecycle(After(db, op))
  {
    var db' := After(db, op);
    var orderId := db.payments[op.paymentId].orderId;
    assert db'.payments[op.paymentId] == db.payments[op.paymentId].(status := PaymentStatus.CANCELLED);
    forall o, s | o in db.orders && o != orderId && HasPayment(db, o, s) ensures HasPayment(db', o, s) {
      HasPaymentKept(db, db', o, s);
    }
    assert HasPayment(db', orderId, PaymentStatus.CANCELLED);
  }

  lemma CreateLifecycle(db: Db, op: Op)
    requires Lifecycle(db) && op.CreateOrder? && Can(db, op)
    ensures Lifecycle(After(db, op))
  {
    var db' := After(db, op);
    forall o, s | o in db.orders && HasPayment(db, o, s) ensures HasPayment(db', o, s) {
      HasPaymentKept(db, db', o, s);
    }
  }

  lemma LifecycleStep(db: Db, op: Op)
    requires Lifecycle(db)
    ensures Lifecycle(Step(db, op))
  {
    if Can(db, op) {
      match op {
        case CreateOrder(_, _) => CreateLifecycle(db, op);
        case Pay(_, _, _) => PayLifecycle(db, op);
        case Cancel(_, _) => CancelLifecycle(db, op);
        case _ =>
          var db' := After(db, op);
          forall o, s | HasPayment(db, o, s) ensures HasPayment(db', o, s) {
            HasPaymentKept(db, db', o, s);
          }
      }
    }
  }

  lemma {:induction false} RunLifecycle(db: Db, ops: seq<Op>)
    requires Lifecycle(db)
    ensures Lifecycle(Run(db, ops))
    decreases |ops|
  {
    if ops != [] {
      RunLifecycle(db, ops[..|ops| - 1]);
      LifecycleStep(Run(db, ops[..|ops| - 1]), ops[|ops| - 1]);
    }
  }

  /** `updateOrderStatus` writes any status over any other. */
  function Overwritten(db: Db, orderId: nat, status: OrderStatus): Db
    requires orderId in db.orders
  {
    db.(orders := db.orders[orderId := db.orders[orderId].(status := status)])
  }

  /** After an overwrite an order can be paid unless its status now says PAID or CANCELLED. */
  lemma OverwrittenPayable(db: Db, orderId: nat, status: OrderStatus, userId: nat, paymentId: nat)
    requires orderId in db.orders
    ensures Can(Overwritten(db, orderId, status), Pay(userId, orderId, paymentId)) <==>
            && status !in {OrderStatus.PAID, OrderStatus.CANCELLED}
            && paymentId !in db.payments && db.orders[orderId].userId == userId
            && Affordable(db.rows, Takes(db.orders[orderId]))
  {
    assert Takes(db.orders[orderId].(status := status)) == Takes(db.orders[orderId]);
  }

  lemma OverwriteThenPay(db: Db, orderId: nat, status: OrderStatus, userId: nat, paymentId: nat)
    requires Lifecycle(db) && orderId in db.orders
    requires Can(Overwritten(db, orderId, status), Pay(userId, orderId, paymentId))
    ensures OneEach(After(Overwritten(db, orderId, status), Pay(userId, orderId, paymentId))) <==>
            db.orders[orderId].status == OrderStatus.PENDING
  {
    var db' := After(Overwritten(db, orderId, status), Pay(userId, orderId, paymentId));
    assert db'.payments[paymentId].orderId == orderId;
    if db.orders[orderId].status != OrderStatus.PENDING {
      var p :| p in db.payments && db.payments[p].orderId == orderId;
      assert p in db'.payments && p != paymentId && db'.payments[p].orderId == orderId;
    }
  }

  /** After an overwrite an order gets a second payment exactly when it had one, its status now says neither PAID nor
      CANCELLED, and its user can afford it once more. */
  lemma PaidTwiceExactly(db: Db, orderId: nat, status: OrderStatus, userId: nat, paymentId: nat)
    requires Lifecycle(db) && orderId in db.orders
    ensures var overwritten := Overwritten(db, orderId, status);
            var pay := Pay(userId, orderId, paymentId);
            (Can(overwritten, pay) && !OneEach(After(overwritten, pay))) <==>
            && db.orders[orderId].status != OrderStatus.PENDING
            && status !in {OrderStatus.PAID, OrderStatus.CANCELLED}
            && paymentId !in db.payments && db.orders[orderId].userId == userId
            && Affordable(db.rows, Takes(db.orders[orderId]))
  {
    OverwrittenPayable(db, orderId, status, userId, paymentId);
    if Can(Overwritten(db, orderId, status), Pay(userId, orderId, paymentId)) {
      OverwriteThenPay(db, orderId, status, userId, paymentId);
    }
  }
}
