/** The event cascades of the six orchestrators: a bag of pending events, dispatched in any order. */
module Saga {
  import opened Shop

  datatype Option<T> = None | Some(value: T)

  /** The events with a listener, and the notices that nobody listens to. */
  datatype Event =
    | CartCheckout(userId: nat)
    | CartValidation(items: seq<Item>)
    | OrderCreated(userId: nat, order: Option<nat>, items: seq<Item>, hasCoupon: bool)
    | PaymentInitiated(userId: nat, order: Option<nat>)
    | DeductionRequested(userId: nat, orderId: nat, amount: int)
    | DeductionCompleted(userId: nat, orderId: nat, amount: int)
    | ChargeRequested(userId: nat, amount: int)
    | PaymentCompleted(orderId: nat)
    | PaymentFailed(order: Option<nat>)
    | StockUpdate(variantId: nat, quantity: nat, decrease: bool)
    | StockCheck(item: Item)
    | StockChecked(available: bool)
    | CouponValidation
    | CouponIssue
    | ChargeFailed(userId: nat, amount: int)
    | StockUpdateFailed(variantId: nat, quantity: nat, decrease: bool)
    | Notice

  /** Whatever a handler finds or suffers beyond the tables: the cart; a call that fails before the handler has changed
      anything; one that fails after its first write has committed; and the identifier of a new payment. */
  datatype Luck = Luck(cart: seq<Item>, fails: bool, failsLate: bool, paymentId: nat)

  /** What a handler does: the tables after it, the events it emits, and, for the accounts only, takings that are final
      without a payment row, takings that no event speaks of, and takings that were due and are never asked for. */
  datatype Outcome = Outcome(db: Db, emitted: seq<Event>, settled: seq<Take>, slipped: seq<Take>, dropped: seq<Take>)

  function Silent(db: Db, emitted: seq<Event>): Outcome {
    Outcome(db, emitted, [], [], [])
  }

  function ChecksOf(items: seq<Item>): seq<Event> {
    seq(|items|, i requires 0 <= i < |items| => StockCheck(items[i]))
  }

  function ValidationsOf(items: seq<Item>): seq<Event> {
    seq(|items|, i requires 0 <= i < |items| => CartValidation([items[i]]))
  }

  function UpdatesOf(items: seq<Item>): seq<Event> {
    seq(|items|, i requires 0 <= i < |items| => StockUpdate(items[i].variantId, items[i].quantity, true))
  }

  predicate InStock(db: Db, item: Item) {
    Stock(item.variantId) in db.rows && db.rows[Stock(item.variantId)] >= item.quantity
  }

  predicate Exists(db: Db, order: Option<nat>) {
    order.Some? && order.value in db.orders
  }

  /** `updateOrderStatus`; an unknown order makes it throw. */
  function WithStatus(db: Db, order: Option<nat>, status: OrderStatus): Db {
    if Exists(db, order)
    then db.(orders := db.orders[order.value := db.orders[order.value].(status := status)])
    else db
  }

  /** The second history row that the balance handlers write for the same move. */
  function LoggedAgain(db: Db, userId: nat, kind: BalanceType, amount: int): Db {
    db.(history := Logged(db, userId, HistoryRow(kind, amount, Held(db.rows, Balance(userId)))))
  }

  /** By how much a stock update lessens the stock. */
  function Lessening(quantity: int, decrease: bool): int {
    if decrease then quantity else -quantity
  }

  function Handle(db: Db, e: Event, luck: Luck): Outcome {
    match e
    case CartCheckout(userId) =>
      if luck.fails || luck.cart == [] then Silent(db, [Notice])
      else
        // the order created from a cart carries no identifier; clearing the cart may fail afterwards
        Silent(db, ValidationsOf(luck.cart) + [OrderCreated(userId, None, luck.cart, false)]
                       + if luck.failsLate then [Notice] else [])
    case CartValidation(items) => Silent(db, ChecksOf(items) + [Notice])
    case OrderCreated(userId, order, items, hasCoupon) =>
      if luck.fails then
        // cancelling the order may fail in turn, and then nothing reports the failure
        if luck.failsLate || !Exists(db, order) then Silent(db, [])
        else Silent(WithStatus(db, order, OrderStatus.CANCELLED), [Notice])
      else
        Silent(db, ChecksOf(items) + (if hasCoupon then [CouponValidation] else []) + [PaymentInitiated(userId, order)])
    case PaymentInitiated(userId, order) =>
      if luck.fails || order.None? || order.value !in db.orders then Silent(db, [PaymentFailed(order)])
      else Silent(db, [DeductionRequested(userId, order.value, db.orders[order.value].finalAmount)])
    case DeductionRequested(userId, orderId, amount) =>
      if luck.fails || !Can(db, Deduct(userId, amount)) then Silent(db, [PaymentFailed(Some(orderId))])
      else
        var deducted := After(db, Deduct(userId, amount));
        if luck.failsLate
        then Outcome(deducted, [PaymentFailed(Some(orderId))], [], [Take(Balance(userId), amount)], [])
        else Silent(LoggedAgain(deducted, userId, USE, amount), [DeductionCompleted(userId, orderId, amount)])
    case DeductionCompleted(userId, orderId, amount) =>
      if luck.fails || !Can(db, Pay(userId, orderId, luck.paymentId))
      then Silent(db, [ChargeRequested(userId, amount), PaymentFailed(Some(orderId))])
      else Outcome(After(db, Pay(userId, orderId, luck.paymentId)), [PaymentCompleted(orderId)],
                   [Take(Balance(userId), amount)], [], [])
    case ChargeRequested(userId, amount) =>
      if luck.fails || !Can(db, TopUp(userId, amount)) then Silent(db, [ChargeFailed(userId, amount)])
      else
        var charged := After(db, TopUp(userId, amount));
        if luck.failsLate
        then Outcome(charged, [ChargeFailed(userId, amount)], [], [Take(Balance(userId), -amount)], [])
        else Silent(LoggedAgain(charged, userId, CHARGE, amount), [Notice])
    case PaymentCompleted(orderId) =>
      // nothing catches a failure here: the status may be written by then, but no stock update is asked for
      if orderId !in db.orders then Silent(db, [])
      else if luck.fails then Outcome(db, [], [], [], ItemTakes(db.orders[orderId].items))
      else
        var paid := WithStatus(db, Some(orderId), OrderStatus.PAID);
        if luck.failsLate then Outcome(paid, [], [], [], ItemTakes(db.orders[orderId].items))
        else Silent(paid, UpdatesOf(db.orders[orderId].items))
    case PaymentFailed(order) =>
      if luck.fails then Silent(db, []) else Silent(WithStatus(db, order, OrderStatus.CANCELLED), [])
    case StockUpdate(variantId, quantity, decrease) =>
      var r := Stock(variantId);
      if luck.fails || r !in db.rows || (decrease && db.rows[r] < quantity)
      then Silent(db, [StockUpdateFailed(variantId, quantity, decrease)])
      else
        var taken := Lessening(quantity, decrease);
        Outcome(db.(rows := db.rows[r := db.rows[r] - taken]), [Notice], [Take(r, taken)], [], [])
    case StockCheck(item) => Silent(db, [StockChecked(!luck.fails && InStock(db, item))])
    case StockChecked(available) => Silent(db, if available then [] else [Notice])
    case CouponValidation => Silent(db, [Notice])
    case CouponIssue => Silent(db, [Notice])
    case _ => Silent(db, [])
  }

  /** The system: tables, pending events, and the accounts of `Outcome` so far. */
  datatype System = System(db: Db, pending: seq<Event>, settled: seq<Take>, slipped: seq<Take>, dropped: seq<Take>)

  /** How many further handlers an event can still set off, one after another; notices set off none. */
  function Rank(e: Event): nat {
    match e
    case CartCheckout(_) => 9
    case OrderCreated(_, _, _, _) => 8
    case PaymentInitiated(_, _) => 7
    case DeductionRequested(_, _, _) => 6
    case DeductionCompleted(_, _, _) => 5
    case PaymentCompleted(_) => 4
    case CartValidation(_) => 3
    case StockCheck(_) => 2
    case ChargeFailed(_, _) => 0
    case StockUpdateFailed(_, _, _) => 0
    case Notice => 0
    case _ => 1
  }

  predicate Dispatchable(s: System, i: nat) {
    i < |s.pending| && Rank(s.pending[i]) > 0
  }

  /** Any pending event with a listener may be dispatched next. */
  function Dispatched(s: System, i: nat, luck: Luck): System
    requires Dispatchable(s, i)
  {
    var o := Handle(s.db, s.pending[i], luck);
    System(o.db, s.pending[..i] + s.pending[i + 1..] + o.emitted,
           s.settled + o.settled, s.slipped + o.slipped, s.dropped + o.dropped)
  }

  // ---------------------------------------------------------------- sums over pending events

  function SumOf(events: seq<Event>, f: Event -> int): int {
    if events == [] then 0 else SumOf(events[..|events| - 1], f) + f(events[|events| - 1])
  }

  lemma {:induction false} SumConcat(a: seq<Event>, b: seq<Event>, f: Event -> int)
    ensures SumOf(a + b, f) == SumOf(a, f) + SumOf(b, f)
    decreases |b|
  {
    if b == [] {
      assert a + b == a;
    } else {
      assert (a + b)[..|a + b| - 1] == a + b[..|b| - 1];
      SumConcat(a, b[..|b| - 1], f);
    }
  }

  lemma SumPlus(events: seq<Event>, e: Event, f: Event -> int)
    ensures SumOf(events + [e], f) == SumOf(events, f) + f(e)
  {
    assert (events + [e])[..|events|] == events;
  }

  lemma SumReplaced(events: seq<Event>, i: nat, emitted: seq<Event>, f: Event -> int)
    requires i < |events|
    ensures SumOf(events[..i] + events[i + 1..] + emitted, f) == SumOf(events, f) - f(events[i]) + SumOf(emitted, f)
  {
    assert events == events[..i + 1] + events[i + 1..];
    assert events[..i + 1][..i] == events[..i];
    SumConcat(events[..i + 1], events[i + 1..], f);
    SumConcat(events[..i], events[i + 1..], f);
    SumConcat(events[..i] + events[i + 1..], emitted, f);
  }

  lemma {:induction false} SumSame(events: seq<Event>, f: Event -> int, g: Event -> int)
    requires forall e | e in events :: f(e) == g(e)
    ensures SumOf(events, f) == SumOf(events, g)
    decreases |events|
  {
    if events != [] {
      SumSame(events[..|events| - 1], f, g);
    }
  }

  lemma SumFew(f: Event -> int, a: Event, b: Event)
    ensures SumOf([], f) == 0
    ensures SumOf([a], f) == f(a)
    ensures SumOf([a, b], f) == f(a) + f(b)
  {
    assert [a][..0] == [] && [a, b][..1] == [a];
  }

  // ---------------------------------------------------------------- every cascade ends

  function OfRank(k: nat): Event -> int {
    (e: Event) => if Rank(e) == k then 1 else 0
  }

  function Pending(s: System, k: nat): int {
    SumOf(s.pending, OfRank(k))
  }

  lemma {:induction false} PendingNonNegative(events: seq<Event>, k: nat)
    ensures SumOf(events, OfRank(k)) >= 0
    ensures (forall e | e in events :: Rank(e) != k) ==> SumOf(events, OfRank(k)) == 0
    decreases |events|
  {
    if events != [] {
      PendingNonNegative(events[..|events| - 1], k);
    }
  }

  /** A handler emits only events of lower rank than its own, whatever it finds and however it fails. */
  lemma EmitsLower(db: Db, e: Event, luck: Luck)
    requires Rank(e) > 0
    ensures forall x | x in Handle(db, e, luck).emitted :: Rank(x) < Rank(e)
  {
  }

  /** Dispatching lowers the count at the event's rank by one and leaves every higher count alone. */
  lemma DispatchLowers(s: System, i: nat, luck: Luck, k: nat)
    requires Dispatchable(s, i) && k >= Rank(s.pending[i])
    ensures Pending(Dispatched(s, i, luck), k) == Pending(s, k) - if k == Rank(s.pending[i]) then 1 else 0
  {
    var emitted := Handle(s.db, s.pending[i], luck).emitted;
    SumReplaced(s.pending, i, emitted, OfRank(k));
    EmitsLower(s.db, s.pending[i], luck);
    PendingNonNegative(emitted, k);
  }

  ghost predicate Steps(s: System, t: System) {
    exists i: nat, luck :: Dispatchable(s, i) && t == Dispatched(s, i, luck)
  }

  /** The counts by rank go down lexicographically at every dispatch, so no execution goes on for ever. */
  lemma {:induction false} CascadeEnds(run: nat -> System, n: nat)
    ensures exists m: nat :: !Steps(run(m), run(m + 1))
    decreases Pending(run(n), 9), Pending(run(n), 8), Pending(run(n), 7), Pending(run(n), 6), Pending(run(n), 5),
              Pending(run(n), 4), Pending(run(n), 3), Pending(run(n), 2), Pending(run(n), 1)
  {
    if Steps(run(n), run(n + 1)) {
      var i: nat, luck :| Dispatchable(run(n), i) && run(n + 1) == Dispatched(run(n), i, luck);
      var k := Rank(run(n).pending[i]);
      forall j: nat | k <= j
        ensures Pending(run(n + 1), j) == Pending(run(n), j) - (if j == k then 1 else 0) && Pending(run(n + 1), j) >= 0
      {
        DispatchLowers(run(n), i, luck, j);
        PendingNonNegative(run(n + 1).pending, j);
      }
      CascadeEnds(run, n + 1);
    }
  }

  // ---------------------------------------------------------------- the accounts

  /** What an event still owes to a row: money deducted and not yet paid or refunded. */
  function Transit(e: Event, r: Row): int {
    match e
    case DeductionCompleted(userId, _, amount) => if r == Balance(userId) then amount else 0
    case ChargeRequested(userId, amount) => if r == Balance(userId) then amount else 0
    case ChargeFailed(userId, amount) => if r == Balance(userId) then amount else 0
    case _ => 0
  }

  function TransitOf(r: Row): Event -> int {
    (e: Event) => Transit(e, r)
  }

  /** The whole account of a row: what it holds, what COMPLETED payments took, what is in transit, what was taken for
      good without a payment row, and what slipped through when a history row could not be written. */
  ghost function Account(s: System, r: Row): int {
    Held(s.db.rows, r) + Spent(s.db, r) + SumOf(s.pending, TransitOf(r)) + Demand(s.settled, r) + Demand(s.slipped, r)
  }

  lemma SpentIgnoresStatus(db: Db, order: Option<nat>, status: OrderStatus, r: Row)
    ensures Spent(WithStatus(db, order, status), r) == Spent(db, r)
  {
    var db' := WithStatus(db, order, status);
    forall p | p in db.payments ensures PaymentDemand(db', db.payments[p], r) == PaymentDemand(db, db.payments[p], r) {
      if db.payments[p].orderId in db.orders {
        assert Takes(db'.orders[db.payments[p].orderId]) == Takes(db.orders[db.payments[p].orderId]);
      }
    }
    assert Spending(db', r) == Spending(db, r);
  }

  lemma SpentIgnoresRows(db: Db, db': Db, r: Row)
    requires db'.orders == db.orders && db'.payments == db.payments
    ensures Spent(db', r) == Spent(db, r)
  {
    assert Spending(db', r) == Spending(db, r);
  }

  lemma DemandOfSingle(t: Take, r: Row)
    ensures Demand([], r) == 0
    ensures Demand([t], r) == if t.row == r then t.amount else 0
  {
    assert [t][..0] == [];
  }

  lemma {:induction false} NothingInTransit(events: seq<Event>, f: Event -> int)
    requires forall e | e in events :: f(e) == 0
    ensures SumOf(events, f) == 0
    decreases |events|
  {
    if events != [] {
      NothingInTransit(events[..|events| - 1], f);
    }
  }

  /** One handler in balance: what leaves a row, or the events, goes somewhere else in the account. */
  ghost predicate Balanced(db: Db, e: Event, luck: Luck, r: Row) {
    var o := Handle(db, e, luck);
    Held(o.db.rows, r) + Spent(o.db, r) + SumOf(o.emitted, TransitOf(r))
    + Demand(o.settled, r) + Demand(o.slipped, r) ==
    Held(db.rows, r) + Spent(db, r) + Transit(e, r)
  }

  predicate MovesMoney(e: Event) {
    e.DeductionRequested? || e.DeductionCompleted? || e.ChargeRequested? || e.StockUpdate?
  }

  lemma OnlyPaymentsSpend(db: Db, e: Event, luck: Luck, r: Row)
    requires !e.DeductionCompleted?
    ensures Spent(Handle(db, e, luck).db, r) == Spent(db, r)
  {
    match e {
      case OrderCreated(_, order, _, _) => SpentIgnoresStatus(db, order, OrderStatus.CANCELLED, r);
      case PaymentFailed(order) => SpentIgnoresStatus(db, order, OrderStatus.CANCELLED, r);
      case PaymentCompleted(orderId) => SpentIgnoresStatus(db, Some(orderId), OrderStatus.PAID, r);
      case _ => SpentIgnoresRows(db, Handle(db, e, luck).db, r);
    }
  }

  lemma QuietBalanced(db: Db, e: Event, luck: Luck, r: Row)
    requires !MovesMoney(e) && Rank(e) > 0
    ensures Balanced(db, e, luck, r)
  {
    OnlyPaymentsSpend(db, e, luck, r);
    QuietMovesNothing(db, e, luck, r);
    NothingInTransit(Handle(db, e, luck).emitted, TransitOf(r));
  }

  lemma QuietMovesNothing(db: Db, e: Event, luck: Luck, r: Row)
    requires !MovesMoney(e) && Rank(e) > 0
    ensures var o := Handle(db, e, luck);
            && o.db.rows == db.rows && o.settled == [] && o.slipped == []
            && Transit(e, r) == 0 && forall x | x in o.emitted :: Transit(x, r) == 0
  {
  }

  lemma DeductionBalanced(db: Db, e: Event, luck: Luck, r: Row)
    requires e.DeductionRequested?
    ensures Balanced(db, e, luck, r)
  {
    var o := Handle(db, e, luck);
    SumFew(TransitOf(r), o.emitted[0], Notice);
    SpentIgnoresRows(db, o.db, r);
    DemandOfSingle(Take(Balance(e.userId), e.amount), r);
  }

  lemma PaymentBalanced(db: Db, e: Event, luck: Luck, r: Row)
    requires Coherent(db) && e.DeductionCompleted?
    ensures Balanced(db, e, luck, r)
  {
    var o := Handle(db, e, luck);
    SumFew(TransitOf(r), o.emitted[0], PaymentFailed(Some(e.orderId)));
    DemandOfSingle(Take(Balance(e.userId), e.amount), r);
    if !luck.fails && Can(db, Pay(e.userId, e.orderId, luck.paymentId)) {
      StepConserves(db, Pay(e.userId, e.orderId, luck.paymentId), r);
    }
  }

  lemma ChargeBalanced(db: Db, e: Event, luck: Luck, r: Row)
    requires e.ChargeRequested?
    ensures Balanced(db, e, luck, r)
  {
    var o := Handle(db, e, luck);
    SumFew(TransitOf(r), o.emitted[0], Notice);
    ChargeMovesRow(db, e, luck, r);
    SpentIgnoresRows(db, o.db, r);
    DemandOfSingle(Take(Balance(e.userId), -e.amount), r);
  }

  lemma ChargeMovesRow(db: Db, e: Event, luck: Luck, r: Row)
    requires e.ChargeRequested?
    ensures var o := Handle(db, e, luck);
            && o.db.orders == db.orders && o.db.payments == db.payments
            && Held(o.db.rows, r) == Held(db.rows, r) +
               if r == Balance(e.userId) && !luck.fails && Can(db, TopUp(e.userId, e.amount)) then e.amount else 0
  {
  }

  lemma UpdateBalanced(db: Db, e: Event, luck: Luck, r: Row)
    requires e.StockUpdate?
    ensures Balanced(db, e, luck, r)
  {
    var o := Handle(db, e, luck);
    SumFew(TransitOf(r), o.emitted[0], Notice);
    SpentIgnoresRows(db, o.db, r);
    DemandOfSingle(Take(Stock(e.variantId), Lessening(e.quantity, e.decrease)), r);
  }

  lemma HandlerBalanced(db: Db, e: Event, luck: Luck, r: Row)
    requires Coherent(db) && Rank(e) > 0
    ensures Balanced(db, e, luck, r)
  {
    if e.DeductionRequested? {
      DeductionBalanced(db, e, luck, r);
    } else if e.DeductionCompleted? {
      PaymentBalanced(db, e, luck, r);
    } else if e.ChargeRequested? {
      ChargeBalanced(db, e, luck, r);
    } else if e.StockUpdate? {
      UpdateBalanced(db, e, luck, r);
    } else {
      QuietBalanced(db, e, luck, r);
    }
  }

  lemma HandlerCoherent(db: Db, e: Event, luck: Luck)
    requires Coherent(db)
    ensures Coherent(Handle(db, e, luck).db)
  {
  }

  /** The account of every row is the same before and after every dispatch. */
  lemma DispatchKeepsAccount(s: System, i: nat, luck: Luck, r: Row)
    requires Dispatchable(s, i) && Coherent(s.db)
    ensures Coherent(Dispatched(s, i, luck).db)
    ensures Account(Dispatched(s, i, luck), r) == Account(s, r)
  {
    var o := Handle(s.db, s.pending[i], luck);
    HandlerCoherent(s.db, s.pending[i], luck);
    HandlerBalanced(s.db, s.pending[i], luck, r);
    SumReplaced(s.pending, i, o.emitted, TransitOf(r));
    DemandConcat(s.settled, o.settled, r);
    DemandConcat(s.slipped, o.slipped, r);
  }

  // ---------------------------------------------------------------- the second taking

  /** What events that a payment set off are still going to take from stock for the second time, or failed to. */
  function Owed(orders: map<nat, Order>, e: Event, r: Row): int {
    match e
    case PaymentCompleted(orderId) => if orderId in orders then Demand(ItemTakes(orders[orderId].items), r) else 0
    case StockUpdate(variantId, quantity, decrease) =>
      if r == Stock(variantId) then Lessening(quantity, decrease) else 0
    case StockUpdateFailed(variantId, quantity, decrease) =>
      if r == Stock(variantId) then Lessening(quantity, decrease) else 0
    case _ => 0
  }

  function OwedOf(orders: map<nat, Order>, r: Row): Event -> int {
    (e: Event) => Owed(orders, e, r)
  }

  /** How much more has been taken a second time, or is owed, or was dropped, than payments took. */
  ghost function Excess(s: System, r: Row): int {
    Demand(s.settled, r) + SumOf(s.pending, OwedOf(s.db.orders, r)) + Demand(s.dropped, r) - Spent(s.db, r)
  }

  /** Deduction events carry the total of their order, and what was paid is an order. */
  ghost predicate Faithful(db: Db, e: Event) {
    match e
    case PaymentCompleted(orderId) => orderId in db.orders
    case DeductionRequested(_, orderId, amount) => orderId in db.orders && amount == db.orders[orderId].finalAmount
    case DeductionCompleted(_, orderId, amount) => orderId in db.orders && amount == db.orders[orderId].finalAmount
    case _ => true
  }

  /** What an order asks for never changes, and no order goes away. */
  ghost predicate SameOrders(orders: map<nat, Order>, orders': map<nat, Order>) {
    forall o | o in orders :: o in orders' && orders'[o].(status := orders[o].status) == orders[o]
  }

  lemma HandlerKeepsOrders(db: Db, e: Event, luck: Luck)
    ensures SameOrders(db.orders, Handle(db, e, luck).db.orders)
  {
    if e.DeductionCompleted? {
      PaymentKeepsOrders(db, Pay(e.userId, e.orderId, luck.paymentId));
    } else {
      StatusKeepsOrders(db, e, luck);
    }
  }

  lemma PaymentKeepsOrders(db: Db, op: Op)
    ensures SameOrders(db.orders, db.orders)
    ensures op.Pay? && Can(db, op) ==> SameOrders(db.orders, After(db, op).orders)
  {
  }

  lemma StatusKeepsOrders(db: Db, e: Event, luck: Luck)
    requires !e.DeductionCompleted?
    ensures SameOrders(db.orders, Handle(db, e, luck).db.orders)
  {
    var orders := Handle(db, e, luck).db.orders;
    assert orders == db.orders || exists o, status ::
           o in db.orders && orders == db.orders[o := db.orders[o].(status := status)];
  }

  lemma EmitsFaithful(db: Db, e: Event, luck: Luck)
    requires Faithful(db, e)
    ensures forall x | x in Handle(db, e, luck).emitted :: Faithful(Handle(db, e, luck).db, x)
  {
    HandlerKeepsOrders(db, e, luck);
    FaithfulKept(db, Handle(db, e, luck).db, e);
  }

  lemma FaithfulKept(db: Db, db': Db, e: Event)
    requires SameOrders(db.orders, db'.orders) && Faithful(db, e)
    ensures Faithful(db', e)
  {
  }

  lemma OwedKept(db: Db, db': Db, e: Event, r: Row)
    requires SameOrders(db.orders, db'.orders) && Faithful(db, e)
    ensures Owed(db'.orders, e, r) == Owed(db.orders, e, r)
  {
    if e.PaymentCompleted? {
      assert db'.orders[e.orderId].(status := db.orders[e.orderId].status) == db.orders[e.orderId];
    }
  }

  /** A list of decreasing updates owes what its items ask for. */
  lemma {:induction false} UpdatesOwe(orders: map<nat, Order>, items: seq<Item>, r: Row)
    ensures SumOf(UpdatesOf(items), OwedOf(orders, r)) == Demand(ItemTakes(items), r)
    decreases |items|
  {
    if items != [] {
      var n := |items| - 1;
      assert UpdatesOf(items)[..n] == UpdatesOf(items[..n]);
      assert ItemTakes(items)[..n] == ItemTakes(items[..n]);
      UpdatesOwe(orders, items[..n], r);
    }
  }

  /** One handler in the second account. */
  ghost predicate Matched(db: Db, e: Event, luck: Luck, r: Row) {
    var o := Handle(db, e, luck);
    Demand(o.settled, r) + SumOf(o.emitted, OwedOf(db.orders, r)) + Demand(o.dropped, r) - Spent(o.db, r) ==
    Owed(db.orders, e, r) - Spent(db, r)
  }

  lemma QuietOwesNothing(db: Db, e: Event, luck: Luck, r: Row)
    requires !e.DeductionCompleted? && !e.PaymentCompleted? && !e.StockUpdate?
    ensures Handle(db, e, luck).settled == [] && Handle(db, e, luck).dropped == []
    ensures forall x | x in Handle(db, e, luck).emitted :: Owed(db.orders, x, r) == 0
  {
  }

  lemma QuietMatched(db: Db, e: Event, luck: Luck, r: Row)
    requires !e.DeductionCompleted? && !e.PaymentCompleted? && !e.StockUpdate? && Rank(e) > 0
    ensures Matched(db, e, luck, r)
  {
    OnlyPaymentsSpend(db, e, luck, r);
    QuietOwesNothing(db, e, luck, r);
    NothingInTransit(Handle(db, e, luck).emitted, OwedOf(db.orders, r));
  }

  lemma CompletionMatched(db: Db, e: Event, luck: Luck, r: Row)
    requires e.PaymentCompleted?
    ensures Matched(db, e, luck, r)
  {
    SpentIgnoresStatus(db, Some(e.orderId), OrderStatus.PAID, r);
    if e.orderId in db.orders {
      UpdatesOwe(db.orders, db.orders[e.orderId].items, r);
    }
  }

  /** A payment takes its order's demand; what was deducted before, and what its completion owes, is the same again. */
  lemma PaymentMatched(db: Db, e: Event, luck: Luck, r: Row)
    requires Coherent(db) && Faithful(db, e) && e.DeductionCompleted?
    ensures Matched(db, e, luck, r)
  {
    var o := Handle(db, e, luck);
    SumFew(OwedOf(db.orders, r), o.emitted[0], PaymentFailed(Some(e.orderId)));
    DemandOfSingle(Take(Balance(e.userId), e.amount), r);
    var op := Pay(e.userId, e.orderId, luck.paymentId);
    if !luck.fails && Can(db, op) {
      StepConserves(db, op, r);
      PaidRow(db, op, r);
      TakesDemand(db.orders[e.orderId], r);
    }
  }

  lemma PaidRow(db: Db, op: Op, r: Row)
    requires op.Pay? && Can(db, op)
    ensures Held(After(db, op).rows, r) == Held(db.rows, r) - Demand(Takes(db.orders[op.orderId]), r)
  {
    if r !in db.rows {
      DemandElsewhere(Takes(db.orders[op.orderId]), r);
    }
  }

  lemma UpdateMatched(db: Db, e: Event, luck: Luck, r: Row)
    requires e.StockUpdate?
    ensures Matched(db, e, luck, r)
  {
    var o := Handle(db, e, luck);
    SumFew(OwedOf(db.orders, r), o.emitted[0], Notice);
    SpentIgnoresRows(db, o.db, r);
    DemandOfSingle(Take(Stock(e.variantId), Lessening(e.quantity, e.decrease)), r);
  }

  lemma HandlerMatched(db: Db, e: Event, luck: Luck, r: Row)
    requires Coherent(db) && Faithful(db, e) && Rank(e) > 0
    ensures Matched(db, e, luck, r)
  {
    if e.DeductionCompleted? {
      PaymentMatched(db, e, luck, r);
    } else if e.PaymentCompleted? {
      CompletionMatched(db, e, luck, r);
    } else if e.StockUpdate? {
      UpdateMatched(db, e, luck, r);
    } else {
      QuietMatched(db, e, luck, r);
    }
  }

  ghost predicate SystemOk(s: System) {
    Coherent(s.db) && forall e | e in s.pending :: Faithful(s.db, e)
  }

  /** Faithful events owe the same whatever happens to the statuses. */
  lemma AllOwedKept(events: seq<Event>, db: Db, db': Db, r: Row)
    requires SameOrders(db.orders, db'.orders) && forall e | e in events :: Faithful(db, e)
    ensures forall e | e in events :: Faithful(db', e)
    ensures SumOf(events, OwedOf(db'.orders, r)) == SumOf(events, OwedOf(db.orders, r))
  {
    forall e | e in events ensures Faithful(db', e) && OwedOf(db'.orders, r)(e) == OwedOf(db.orders, r)(e) {
      FaithfulKept(db, db', e);
      OwedKept(db, db', e, r);
    }
    SumSame(events, OwedOf(db'.orders, r), OwedOf(db.orders, r));
  }

  lemma DispatchKeepsExcess(s: System, i: nat, luck: Luck, r: Row)
    requires Dispatchable(s, i) && SystemOk(s)
    ensures SystemOk(Dispatched(s, i, luck))
    ensures Excess(Dispatched(s, i, luck), r) == Excess(s, r)
  {
    var e := s.pending[i];
    var o := Handle(s.db, e, luck);
    var t := Dispatched(s, i, luck);
    HandlerCoherent(s.db, e, luck);
    HandlerKeepsOrders(s.db, e, luck);
    EmitsFaithful(s.db, e, luck);
    forall x | x in t.pending ensures Faithful(s.db, x) {
      assert x in s.pending || x in o.emitted;
    }
    HandlerMatched(s.db, e, luck, r);
    SumReplaced(s.pending, i, o.emitted, OwedOf(s.db.orders, r));
    AllOwedKept(t.pending, s.db, t.db, r);
    DemandConcat(s.settled, o.settled, r);
    DemandConcat(s.dropped, o.dropped, r);
  }

  // ---------------------------------------------------------------- what comes from outside the sagas

  /** A pending event goes to its handler; or a controller emits an event, or calls the repository itself. When that is
      a payment, it tells about its completion afterwards, if nothing goes wrong in between. */
  datatype Turn = Turn(i: nat, luck: Luck) | Request(e: Event) | Outside(op: Op, tells: bool)

  predicate FromController(e: Event) {
    e.CartCheckout? || e.PaymentInitiated? || e.StockCheck? || e.CouponIssue?
  }

  predicate Possible(s: System, turn: Turn) {
    match turn
    case Turn(i, _) => Dispatchable(s, i)
    case Request(e) => FromController(e)
    case Outside(op, tells) => Can(s.db, op) && (tells ==> op.Pay?)
  }

  function Turned(s: System, turn: Turn): System
    requires Possible(s, turn)
  {
    match turn
    case Turn(i, luck) => Dispatched(s, i, luck)
    case Request(e) => s.(pending := s.pending + [e])
    case Outside(op, tells) =>
      s.(db := After(s.db, op), pending := if tells then s.pending + [PaymentCompleted(op.orderId)] else s.pending)
  }

  /** What a turn brings into a row from outside. */
  function Bringing(turn: Turn, r: Row): int {
    if turn.Outside? then External(turn.op, r) else 0
  }

  /** By how much a turn from outside raises what COMPLETED payments took. */
  function Direct(db: Db, turn: Turn, r: Row): int
    requires turn.Outside? ==> Can(db, turn.op)
  {
    if !turn.Outside? then 0
    else if turn.op.Pay? then Demand(Takes(db.orders[turn.op.orderId]), r)
    else if turn.op.Cancel? then -Demand(Takes(db.orders[db.payments[turn.op.paymentId].orderId]), r)
    else 0
  }

  /** What the completion that a turn from outside tells about will take from stock once more. */
  function Told(db: Db, turn: Turn, r: Row): int
    requires turn.Outside? ==> Can(db, turn.op) && (turn.tells ==> turn.op.Pay?)
  {
    if turn.Outside? && turn.tells then Demand(ItemTakes(db.orders[turn.op.orderId].items), r) else 0
  }

  /** What an operation moves between a row and the payments. */
  lemma DirectSpends(db: Db, op: Op, tells: bool, r: Row)
    requires Coherent(db) && Can(db, op)
    ensures Spent(After(db, op), r) == Spent(db, r) + Direct(db, Outside(op, tells), r)
  {
    StepConserves(db, op, r);
    if op.Pay? {
      PaidRow(db, op, r);
    } else if op.Cancel? {
      RefundedRow(db, op, r);
    } else {
      assert Spending(After(db, op), r) == Spending(db, r);
    }
  }

  lemma RefundedRow(db: Db, op: Op, r: Row)
    requires Coherent(db) && op.Cancel? && Can(db, op)
    ensures var order := db.orders[db.payments[op.paymentId].orderId];
            Held(After(db, op).rows, r) == Held(db.rows, r) + Demand(Takes(order), r)
  {
    var order := db.orders[db.payments[op.paymentId].orderId];
    TakesDemand(order, r);
    if r !in db.rows {
      DemandElsewhere(ItemTakes(order.items), r);
    }
  }

  lemma OperationKeepsOrders(db: Db, op: Op)
    requires Can(db, op)
    ensures SameOrders(db.orders, After(db, op).orders)
  {
  }

  lemma OutsideAccounts(s: System, turn: Turn, r: Row)
    requires SystemOk(s) && turn.Outside? && Possible(s, turn)
    ensures SystemOk(Turned(s, turn))
    ensures Account(Turned(s, turn), r) == Account(s, r) + Bringing(turn, r)
    ensures Excess(Turned(s, turn), r) == Excess(s, r) - Direct(s.db, turn, r) + Told(s.db, turn, r)
  {
    var t := Turned(s, turn);
    StepConserves(s.db, turn.op, r);
    DirectSpends(s.db, turn.op, turn.tells, r);
    OperationKeepsOrders(s.db, turn.op);
    CoherentStep(s.db, turn.op);
    AllOwedKept(s.pending, s.db, t.db, r);
    if turn.tells {
      var told := PaymentCompleted(turn.op.orderId);
      SumPlus(s.pending, told, TransitOf(r));
      SumPlus(s.pending, told, OwedOf(t.db.orders, r));
      assert t.db.orders[turn.op.orderId].items == s.db.orders[turn.op.orderId].items;
    }
  }

  lemma RequestAccounts(s: System, turn: Turn, r: Row)
    requires SystemOk(s) && turn.Request? && Possible(s, turn)
    ensures SystemOk(Turned(s, turn))
    ensures Account(Turned(s, turn), r) == Account(s, r) && Excess(Turned(s, turn), r) == Excess(s, r)
  {
    RequestOwesNothing(s.db.orders, turn.e, r);
    SumPlus(s.pending, turn.e, TransitOf(r));
    SumPlus(s.pending, turn.e, OwedOf(s.db.orders, r));
  }

  lemma RequestOwesNothing(orders: map<nat, Order>, e: Event, r: Row)
    requires FromController(e)
    ensures Transit(e, r) == 0 && Owed(orders, e, r) == 0
  {
  }

  lemma TurnAccounts(s: System, turn: Turn, r: Row)
    requires SystemOk(s) && Possible(s, turn)
    ensures SystemOk(Turned(s, turn))
    ensures Account(Turned(s, turn), r) == Account(s, r) + Bringing(turn, r)
    ensures Excess(Turned(s, turn), r) == Excess(s, r) - Direct(s.db, turn, r) + Told(s.db, turn, r)
  {
    match turn {
      case Turn(i, luck) =>
        DispatchKeepsAccount(s, i, luck, r);
        DispatchKeepsExcess(s, i, luck, r);
      case Request(_) => RequestAccounts(s, turn, r);
      case Outside(_, _) => OutsideAccounts(s, turn, r);
    }
  }

  // ---------------------------------------------------------------- whole executions

  predicate Execution(s: System, turns: seq<Turn>)
    decreases |turns|
  {
    turns == [] || (Possible(s, turns[0]) && Execution(Turned(s, turns[0]), turns[1..]))
  }

  function Final(s: System, turns: seq<Turn>): System
    requires Execution(s, turns)
    decreases |turns|
  {
    if turns == [] then s else Final(Turned(s, turns[0]), turns[1..])
  }

  lemma {:induction false} OneMoreTurn(s: System, turns: seq<Turn>, turn: Turn)
    requires Execution(s, turns) && Possible(Final(s, turns), turn)
    ensures Execution(s, turns + [turn])
    ensures Final(s, turns + [turn]) == Turned(Final(s, turns), turn)
    decreases |turns|
  {
    if turns == [] {
      assert (turns + [turn])[1..] == [];
    } else {
      OneMoreTurn(Turned(s, turns[0]), turns[1..], turn);
      assert (turns + [turn])[1..] == turns[1..] + [turn];
    }
  }

  /** What an execution brings into a row from outside. */
  function Brought(turns: seq<Turn>, r: Row): int {
    if turns == [] then 0 else Bringing(turns[0], r) + Brought(turns[1..], r)
  }

  /** What payments from outside took, less what cancellations gave back. */
  function PaidDirectly(s: System, turns: seq<Turn>, r: Row): int
    requires Execution(s, turns)
    decreases |turns|
  {
    if turns == [] then 0
    else Direct(s.db, turns[0], r) + PaidDirectly(Turned(s, turns[0]), turns[1..], r)
  }

  /** What the completions of payments from outside take from stock once more. */
  function ToldDirectly(s: System, turns: seq<Turn>, r: Row): int
    requires Execution(s, turns)
    decreases |turns|
  {
    if turns == [] then 0
    else Told(s.db, turns[0], r) + ToldDirectly(Turned(s, turns[0]), turns[1..], r)
  }

  /** Any number of concurrent sagas, any dispatch order, any failures, any requests and operations in between:
      both accounts of every row change by what comes from outside only. */
  lemma {:induction false} AccountsKept(s: System, turns: seq<Turn>, r: Row)
    requires SystemOk(s) && Execution(s, turns)
    ensures SystemOk(Final(s, turns))
    ensures Account(Final(s, turns), r) == Account(s, r) + Brought(turns, r)
    ensures Excess(Final(s, turns), r) == Excess(s, r) - PaidDirectly(s, turns, r) + ToldDirectly(s, turns, r)
    decreases |turns|
  {
    if turns != [] {
      TurnAccounts(s, turns[0], r);
      AccountsKept(Turned(s, turns[0]), turns[1..], r);
    }
  }

  /** Nothing comes from outside but requests. */
  ghost predicate NothingDirect(turns: seq<Turn>) {
    forall turn | turn in turns :: !turn.Outside?
  }

  lemma {:induction false} NothingBrought(s: System, turns: seq<Turn>, r: Row)
    requires Execution(s, turns) && NothingDirect(turns)
    ensures Brought(turns, r) == 0 && PaidDirectly(s, turns, r) == 0 && ToldDirectly(s, turns, r) == 0
    decreases |turns|
  {
    if turns != [] {
      NothingBrought(Turned(s, turns[0]), turns[1..], r);
    }
  }

  ghost function InTransit(s: System, r: Row): int {
    SumOf(s.pending, TransitOf(r))
  }

  ghost function StillOwed(s: System, r: Row): int {
    SumOf(s.pending, OwedOf(s.db.orders, r))
  }

  /** What a row has lost over any execution: twice what payments took in the meantime, of what was paid from outside
      only once and what its completion takes again, and what went in transit, less what is owed and not taken yet, with
      what slipped through, without what was dropped, and without what was brought in. */
  lemma SagaBalance(s: System, turns: seq<Turn>, r: Row)
    requires SystemOk(s) && Execution(s, turns)
    ensures var t := Final(s, turns);
            Held(s.db.rows, r) - Held(t.db.rows, r) ==
            2 * (Spent(t.db, r) - Spent(s.db, r))
            - PaidDirectly(s, turns, r) + ToldDirectly(s, turns, r) - Brought(turns, r)
            + (InTransit(t, r) - InTransit(s, r)) - (StillOwed(t, r) - StillOwed(s, r))
            + (Demand(t.slipped, r) - Demand(s.slipped, r)) - (Demand(t.dropped, r) - Demand(s.dropped, r))
  {
    AccountsKept(s, turns, r);
  }

  /** Nobody is owed anything of this row. */
  ghost predicate AtRest(s: System, r: Row) {
    forall e | e in s.pending :: Transit(e, r) == 0 && Owed(s.db.orders, e, r) == 0
  }

  lemma NothingAtRest(s: System, r: Row)
    requires AtRest(s, r)
    ensures InTransit(s, r) == 0 && StillOwed(s, r) == 0
  {
    NothingInTransit(s.pending, TransitOf(r));
    NothingInTransit(s.pending, OwedOf(s.db.orders, r));
  }

  /** Once everything that concerns a row has come to rest, no completion handler has failed, and every history row of a
      move could be written, the row has lost what payments from outside took and their completions took again, and
      exactly twice what the payments of sagas took: a failed saga nets to zero, and a successful one takes everything,
      money and stock, twice. */
  lemma SuccessfulSagaTakesTwice(db: Db, pending: seq<Event>, turns: seq<Turn>, r: Row)
    requires Coherent(db) && forall e | e in pending :: Faithful(db, e)
    requires var s := System(db, pending, [], [], []);
             && AtRest(s, r) && Execution(s, turns)
             && var t := Final(s, turns);
             && AtRest(t, r) && Demand(t.slipped, r) == 0 && Demand(t.dropped, r) == 0
    ensures var s := System(db, pending, [], [], []);
            var t := Final(s, turns);
            var bySagas := Spent(t.db, r) - Spent(db, r) - PaidDirectly(s, turns, r);
            Held(db.rows, r) + Brought(turns, r) - Held(t.db.rows, r) ==
            2 * bySagas + PaidDirectly(s, turns, r) + ToldDirectly(s, turns, r)
  {
    var s := System(db, pending, [], [], []);
    SagaBalance(s, turns, r);
    NothingAtRest(s, r);
    NothingAtRest(Final(s, turns), r);
  }

  // ---------------------------------------------------------------- sagas that start from a cart

  /** An event of a cascade whose order has no identifier. */
  predicate Nameless(e: Event) {
    match e
    case CartCheckout(_) => true
    case OrderCreated(_, order, _, _) => order.None?
    case PaymentInitiated(_, order) => order.None?
    case PaymentFailed(order) => order.None?
    case CartValidation(_) => true
    case StockCheck(_) => true
    case StockChecked(_) => true
    case CouponValidation => true
    case Notice => true
    case _ => false
  }

  lemma NamelessHandler(db: Db, e: Event, luck: Luck)
    requires Nameless(e)
    ensures Handle(db, e, luck).db == db
    ensures forall x | x in Handle(db, e, luck).emitted :: Nameless(x)
  {
  }

  /** A checkout from the cart creates an order event without an identifier, and so never changes any table. */
  lemma {:induction false} CartCheckoutChangesNothing(s: System, turns: seq<Turn>)
    requires (forall e | e in s.pending :: Nameless(e)) && Execution(s, turns)
    requires forall turn | turn in turns :: turn.Turn? || (turn.Request? && Nameless(turn.e))
    ensures Final(s, turns).db == s.db
    decreases |turns|
  {
    if turns != [] {
      if turns[0].Turn? {
        NamelessHandler(s.db, s.pending[turns[0].i], turns[0].luck);
      }
      CartCheckoutChangesNothing(Turned(s, turns[0]), turns[1..]);
    }
  }
}
