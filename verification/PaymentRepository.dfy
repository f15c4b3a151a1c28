/** `PaymentRepositoryPrisma` and `BalanceRepositoryPrisma`: the payment transactions as they run, item by item,
    with their locks, their errors and the rollback of everything an aborted transaction did. */
module PaymentRepository {
  import opened Locks
  import opened Shop
  import opened Reservation

  datatype Error =
    | Locked(lock: Lock)
    | NotFound
    | Unauthorized
    | AlreadyPaid
    | OrderCancelled
    | NotCompleted
    | InsufficientStock(variantId: nat)
    | MissingVariant(variantId: nat)
    | BalanceNotFound
    | InsufficientBalance
    | UserNotFound

  datatype Result<T> = Ok(value: T) | Err(error: Error)

  predicate RowLocksFree(locks: set<Lock>, ts: seq<Take>) {
    forall t | t in ts :: RowLock(t.row) !in locks
  }

  lemma LoweredExtend(rows: map<Row, int>, ts: seq<Take>, k: nat)
    requires k < |ts| && ts[k].row in rows
    ensures Lowered(rows, ts[..k + 1]) ==
            Lowered(rows, ts[..k])[ts[k].row := Lowered(rows, ts[..k])[ts[k].row] - ts[k].amount]
    ensures Raised(rows, ts[..k + 1]) ==
            Raised(rows, ts[..k])[ts[k].row := Raised(rows, ts[..k])[ts[k].row] + ts[k].amount]
  {
    assert ts[..k + 1][..k] == ts[..k];
  }

  /** Which guard of a payment refuses which call. */
  predicate PayAnswers(db: Db, userId: nat, orderId: nat, r: Result<Payment>) {
    && (r == Err(NotFound) <==> orderId !in db.orders)
    && (r == Err(Unauthorized) <==> orderId in db.orders && db.orders[orderId].userId != userId)
    && (r == Err(AlreadyPaid) <==>
          orderId in db.orders && db.orders[orderId].userId == userId && db.orders[orderId].status == OrderStatus.PAID)
    && (r == Err(OrderCancelled) <==>
          orderId in db.orders && db.orders[orderId].userId == userId
              && db.orders[orderId].status == OrderStatus.CANCELLED)
  }

  /** Which guard of a cancellation refuses which call; a payment whose order is gone is not found either. */
  predicate CancelAnswers(db: Db, userId: nat, paymentId: nat, r: Result<Payment>) {
    && (paymentId !in db.payments ==> r == Err(NotFound))
    && (r == Err(Unauthorized) <==> paymentId in db.payments && db.payments[paymentId].userId != userId)
    && (r == Err(NotCompleted) <==>
          paymentId in db.payments && db.payments[paymentId].userId == userId
              && !db.payments[paymentId].status.COMPLETED?)
  }

  /** The first `k` items can be taken one after another. */
  ghost predicate TakenUpTo(rows: map<Row, int>, locks: set<Lock>, items: seq<Item>, k: nat, now: map<Row, int>)
    requires k <= |items|
  {
    var ts := ItemTakes(items)[..k];
    Affordable(rows, ts) && RowLocksFree(locks, ts) && now == Lowered(rows, ts)
  }

  /** The item loop stops at the `k`th item: its lock is held, or with it the summed demand is not in stock. */
  ghost predicate StopsAt(rows: map<Row, int>, locks: set<Lock>, items: seq<Item>, k: nat, e: Error)
    requires k < |items|
  {
    var ts := ItemTakes(items);
    && Affordable(rows, ts[..k]) && RowLocksFree(locks, ts[..k])
    && if RowLock(ts[k].row) in locks then e == Locked(RowLock(ts[k].row))
       else !Affordable(rows, ts[..k + 1]) && e == InsufficientStock(items[k].variantId)
  }

  ghost predicate Stops(rows: map<Row, int>, locks: set<Lock>, items: seq<Item>, e: Error) {
    exists k | 0 <= k < |items| :: StopsAt(rows, locks, items, k, e)
  }

  /** Why a payment whose guards hold is refused: by an item, or, if all of them are in stock, at the balance. */
  ghost predicate Refused(rows: map<Row, int>, locks: set<Lock>, order: Order, e: Error) {
    var ts, money := ItemTakes(order.items), Balance(order.userId);
    if !Affordable(rows, ts) || !RowLocksFree(locks, ts) then Stops(rows, locks, order.items, e)
    else if RowLock(money) in locks then e == Locked(RowLock(money))
    else if money !in rows then e == BalanceNotFound
    else order.finalAmount > rows[money] && e == InsufficientBalance
  }

  /** The next item is in stock exactly when the summed demand up to it is. */
  lemma NextItem(rows: map<Row, int>, locks: set<Lock>, items: seq<Item>, k: nat, now: map<Row, int>)
    requires k < |items| && TakenUpTo(rows, locks, items, k, now)
    ensures var item := items[k];
            var r := Stock(item.variantId);
            && (r in now <==> r in rows)
            && (RowLock(r) in locks ==> StopsAt(rows, locks, items, k, Locked(RowLock(r))))
            && (RowLock(r) !in locks && (r !in now || now[r] < item.quantity) ==>
                  StopsAt(rows, locks, items, k, InsufficientStock(item.variantId)))
            && (RowLock(r) !in locks && r in now && now[r] >= item.quantity ==>
                  TakenUpTo(rows, locks, items, k + 1, now[r := now[r] - item.quantity]))
  {
    var ts := ItemTakes(items);
    assert ts[k] == Take(Stock(items[k].variantId), items[k].quantity);
    AffordableExtend(rows, ts, k);
    if ts[k].row in rows {
      LoweredExtend(rows, ts, k);
    }
    assert ts[..k + 1] == ts[..k] + [ts[k]];
  }

  /** What is in stock together, is in stock up to any item. */
  lemma AffordablePrefix(rows: map<Row, int>, items: seq<Item>, j: nat, k: nat)
    requires j <= k <= |items| && Affordable(rows, ItemTakes(items)[..k])
    ensures Affordable(rows, ItemTakes(items)[..j])
  {
    var ts := ItemTakes(items)[..k];
    assert ts[..j] == ItemTakes(items)[..j];
    forall t | t in ts[..j] ensures t.row in rows && Demand(ts[..j], t.row) <= rows[t.row] {
      assert t in ts;
      DemandPrefix(ts, j, t.row);
    }
  }

  lemma StopsOnce(rows: map<Row, int>, locks: set<Lock>, items: seq<Item>, j: nat, k: nat, d: Error, e: Error)
    requires j < k < |items| && StopsAt(rows, locks, items, k, e)
    ensures !StopsAt(rows, locks, items, j, d)
  {
    AffordablePrefix(rows, items, j + 1, k);
    assert ItemTakes(items)[j] in ItemTakes(items)[..k];
  }

  /** There is one reason for which a payment is refused. */
  lemma OneRefusal(rows: map<Row, int>, locks: set<Lock>, order: Order, d: Error, e: Error)
    requires Refused(rows, locks, order, d) && Refused(rows, locks, order, e)
    ensures d == e
  {
    var items := order.items;
    if Stops(rows, locks, items, d) && Stops(rows, locks, items, e) {
      var j :| 0 <= j < |items| && StopsAt(rows, locks, items, j, d);
      var k :| 0 <= k < |items| && StopsAt(rows, locks, items, k, e);
      if j < k {
        StopsOnce(rows, locks, items, j, k, d, e);
      } else if k < j {
        StopsOnce(rows, locks, items, k, j, e, d);
      }
    }
  }

  lemma AllTaken(rows: map<Row, int>, locks: set<Lock>, items: seq<Item>, now: map<Row, int>)
    requires TakenUpTo(rows, locks, items, |items|, now)
    ensures Affordable(rows, ItemTakes(items)) && RowLocksFree(locks, ItemTakes(items))
            && now == Lowered(rows, ItemTakes(items))
  {
    assert ItemTakes(items)[..|items|] == ItemTakes(items);
  }

  /** The lock of the order has no part in what follows it. */
  lemma OuterLockElsewhere(rows: map<Row, int>, locks: set<Lock>, order: Order, outer: Lock, e: Error)
    requires !outer.RowLock?
    ensures Refused(rows, locks + {outer}, order, e) ==> Refused(rows, locks, order, e)
  {
    var ts := ItemTakes(order.items);
    if Refused(rows, locks + {outer}, order, e) && Stops(rows, locks + {outer}, order.items, e) {
      var k :| 0 <= k < |order.items| && StopsAt(rows, locks + {outer}, order.items, k, e);
      assert StopsAt(rows, locks, order.items, k, e);
    }
  }

  /** Where the loop stops, the summed demand is not in stock or a lock is held. */
  lemma StoppedShort(rows: map<Row, int>, locks: set<Lock>, items: seq<Item>, k: nat, e: Error)
    requires k < |items| && StopsAt(rows, locks, items, k, e)
    ensures !(Affordable(rows, ItemTakes(items)) && RowLocksFree(locks, ItemTakes(items)))
    ensures Stops(rows, locks, items, e)
  {
    var ts := ItemTakes(items);
    assert ts[k] in ts;
    AffordableExtend(rows, ts, k);
  }

  class PaymentRepository {
    var users: set<nat>
    var rows: map<Row, int>
    var history: map<nat, seq<HistoryRow>>
    var orders: map<nat, Order>
    var payments: map<nat, Payment>
    var locks: set<Lock>  // every Redlock that is held, by this client or by another

    constructor (db: Db, held: set<Lock>)
      ensures Tables() == db && locks == held
    {
      users, rows, history, orders, payments := db.users, db.rows, db.history, db.orders, db.payments;
      locks := held;
    }

    function Tables(): Db
      reads this
    {
      Db(users, rows, history, orders, payments)
    }

    /** A payment can be made, and none of its locks is held. */
    predicate Payable(userId: nat, orderId: nat, paymentId: nat)
      reads this
    {
      && OrderLock(orderId) !in locks
      && Can(Tables(), Pay(userId, orderId, paymentId))
      && RowLocksFree(locks, Takes(orders[orderId]))
    }

    /** Undoes everything since the transaction began. */
    method Rollback(before: Db)
      modifies this`users, this`rows, this`history, this`orders, this`payments
      ensures Tables() == before
    {
      users, rows, history := before.users, before.rows, before.history;
      orders, payments := before.orders, before.payments;
    }

    /** Fails when the lock stays held by someone else through all retries. */
    method AcquireLock(lock: Lock) returns (ok: bool)
      modifies this`locks
      ensures ok == (lock !in old(locks))
      ensures locks == old(locks) + {lock}
    {
      ok := lock !in locks;
      locks := locks + {lock};
    }

    method ReleaseLock(lock: Lock)
      modifies this`locks
      ensures locks == old(locks) - {lock}
    {
      locks := locks - {lock};
    }

    method CreateBalanceHistory(userId: nat, kind: BalanceType, amount: int, afterBalance: int)
      modifies this`history
      ensures history == Logged(old(Tables()), userId, HistoryRow(kind, amount, afterBalance))
    {
      var earlier := if userId in history then history[userId] else [];
      history := history[userId := earlier + [HistoryRow(kind, amount, afterBalance)]];
    }

    method ChargeBalance(userId: nat, amount: int) returns (r: Result<int>)
      modifies this`rows, this`history
      ensures r.Ok? <==> old(Can(Tables(), TopUp(userId, amount)))
      ensures r.Ok? ==> Tables() == After(old(Tables()), TopUp(userId, amount)) && r.value == rows[Balance(userId)]
      ensures r.Err? ==> Tables() == old(Tables()) && r.error == UserNotFound
    {
      if userId !in users {
        return Err(UserNotFound);
      }
      if Balance(userId) !in rows {
        rows := rows[Balance(userId) := amount];
        CreateBalanceHistory(userId, REFUND, amount, amount);
        return Ok(amount);
      }
      rows := rows[Balance(userId) := rows[Balance(userId)] + amount];
      CreateBalanceHistory(userId, REFUND, amount, rows[Balance(userId)]);
      return Ok(rows[Balance(userId)]);
    }

    method DeductBalance(userId: nat, amount: int) returns (r: Result<int>)
      modifies this`rows, this`history
      ensures r.Ok? <==> old(Can(Tables(), Deduct(userId, amount)))
      ensures r.Ok? ==> Tables() == After(old(Tables()), Deduct(userId, amount)) && r.value == rows[Balance(userId)]
      ensures r.Err? ==> Tables() == old(Tables())
      ensures r.Err? ==> r.error == if Balance(userId) in old(rows) then InsufficientBalance else BalanceNotFound
    {
      if Balance(userId) !in rows {
        return Err(BalanceNotFound);
      }
      if rows[Balance(userId)] < amount {
        return Err(InsufficientBalance);
      }
      rows := rows[Balance(userId) := rows[Balance(userId)] - amount];
      CreateBalanceHistory(userId, USE, amount, rows[Balance(userId)]);
      return Ok(rows[Balance(userId)]);
    }

    /** Checks and decrements the stock of one item after another, each under its own lock. It succeeds exactly
        when the summed demand of every variant is in stock; when it fails, the items before stay decremented. */
    method DecrementStock(items: seq<Item>) returns (r: Result<()>)
      modifies this`rows, this`locks
      ensures locks == old(locks)
      ensures r.Ok? <==> Affordable(old(rows), ItemTakes(items)) && RowLocksFree(old(locks), ItemTakes(items))
      ensures r.Ok? ==> rows == Lowered(old(rows), ItemTakes(items))
      ensures r.Err? ==> Stops(old(rows), old(locks), items, r.error)
    {
      ghost var before := rows;
      for i := 0 to |items|
        invariant locks == old(locks)
        invariant TakenUpTo(before, locks, items, i, rows)
      {
        var item := items[i];
        var lock := RowLock(Stock(item.variantId));
        NextItem(before, locks, items, i, rows);
        var ok := AcquireLock(lock);
        if !ok {
          StoppedShort(before, old(locks), items, i, Locked(lock));
          return Err(Locked(lock));
        }
        if Stock(item.variantId) !in rows || rows[Stock(item.variantId)] < item.quantity {
          ReleaseLock(lock);
          StoppedShort(before, old(locks), items, i, InsufficientStock(item.variantId));
          return Err(InsufficientStock(item.variantId));
        }
        rows := rows[Stock(item.variantId) := rows[Stock(item.variantId)] - item.quantity];
        ReleaseLock(lock);
      }
      AllTaken(before, locks, items, rows);
      return Ok(());
    }

    /** The reverse loop has no check of its own: it needs the rows to exist. */
    method IncrementStock(items: seq<Item>) returns (r: Result<()>)
      modifies this`rows, this`locks
      ensures locks == old(locks)
      ensures r.Ok? <==> Known(old(rows), ItemTakes(items)) && RowLocksFree(old(locks), ItemTakes(items))
      ensures r.Ok? ==> rows == Raised(old(rows), ItemTakes(items))
      ensures r.Err? ==> r.error.MissingVariant? || (r.error.Locked? && r.error.lock.RowLock?)
    {
      ghost var ts := ItemTakes(items);
      for i := 0 to |items|
        invariant locks == old(locks)
        invariant rows == Raised(old(rows), ts[..i])
        invariant Known(old(rows), ts[..i]) && RowLocksFree(locks, ts[..i])
      {
        var item := items[i];
        var lock := RowLock(Stock(item.variantId));
        assert ts[i] in ts && ts[i] == Take(Stock(item.variantId), item.quantity);
        var ok := AcquireLock(lock);
        if !ok {
          return Err(Locked(lock));
        }
        if Stock(item.variantId) !in rows {
          ReleaseLock(lock);
          return Err(MissingVariant(item.variantId));
        }
        LoweredExtend(old(rows), ts, i);
        rows := rows[Stock(item.variantId) := rows[Stock(item.variantId)] + item.quantity];
        ReleaseLock(lock);
      }
      assert ts[..|items|] == ts;
      return Ok(());
    }

    /** Takes the stock and then the money of an order. */
    method TakeFor(order: Order) returns (r: Result<()>)
      modifies this`rows, this`history, this`locks
      ensures locks == old(locks)
      ensures r.Ok? <==> Affordable(old(rows), Takes(order)) && RowLocksFree(old(locks), Takes(order))
      ensures r.Ok? ==>
                && rows == Lowered(old(rows), Takes(order))
                && history == old(Charged(Tables(), order.userId, USE, -order.finalAmount)).history
      ensures r.Err? ==> Refused(old(rows), old(locks), order, r.error)
    {
      PayRows(rows, locks, order);
      var taken := DecrementStock(order.items);
      if taken.Err? {
        return Err(taken.error);
      }
      var lock := RowLock(Balance(order.userId));
      var ok := AcquireLock(lock);
      if !ok {
        return Err(Locked(lock));
      }
      var deducted := DeductBalance(order.userId, order.finalAmount);
      ReleaseLock(lock);
      if deducted.Err? {
        return Err(deducted.error);
      }
      return Ok(());
    }

    /** The body of the payment transaction. What it leaves behind when it fails is undone by its caller. */
    method PayInTransaction(userId: nat, orderId: nat, paymentId: nat) returns (r: Result<Payment>)
      requires paymentId !in payments
      modifies this
      ensures locks == old(locks)
      ensures r.Ok? <==>
                old(Can(Tables(), Pay(userId, orderId, paymentId)) && RowLocksFree(locks, Takes(orders[orderId])))
      ensures r.Ok? ==>
                Tables() == After(old(Tables()), Pay(userId, orderId, paymentId)) && r.value == payments[paymentId]
      ensures r.Err? && r.error.Locked? ==> r.error.lock.RowLock?
      ensures PayAnswers(old(Tables()), userId, orderId, r)
      ensures r.Err? && old(PayGuard(Tables(), userId, orderId)) ==>
              Refused(old(rows), old(locks), old(orders)[orderId], r.error)
    {
      if orderId !in orders {
        return Err(NotFound);
      }
      var order := orders[orderId];
      if order.userId != userId {
        return Err(Unauthorized);
      }
      if order.status == OrderStatus.PAID {
        return Err(AlreadyPaid);
      }
      if order.status == OrderStatus.CANCELLED {
        return Err(OrderCancelled);
      }

      var taken := TakeFor(order);
      if taken.Err? {
        return Err(taken.error);
      }

      payments := payments[paymentId := Payment(orderId, userId, order.finalAmount, PaymentStatus.COMPLETED)];
      orders := orders[orderId := order.(status := OrderStatus.PAID)];
      return Ok(payments[paymentId]);
    }

    /** All or nothing: the payment succeeds exactly when its guards hold, every variant covers its summed demand,
        the balance covers the total, and no lock on the way is held elsewhere; then the tables change to the state
        of the atomic payment, and otherwise not at all. Every lock taken is released on every path. */
    method ProcessPayment(userId: nat, orderId: nat, paymentId: nat) returns (r: Result<Payment>)
      requires paymentId !in payments
      modifies this
      ensures locks == old(locks)
      ensures r.Ok? <==> old(Payable(userId, orderId, paymentId))
      ensures r.Ok? ==>
                Tables() == After(old(Tables()), Pay(userId, orderId, paymentId)) && r.value == payments[paymentId]
      ensures r.Err? ==> Tables() == old(Tables())
      ensures r == Err(Locked(OrderLock(orderId))) <==> OrderLock(orderId) in old(locks)
      ensures OrderLock(orderId) !in old(locks) ==> PayAnswers(old(Tables()), userId, orderId, r)
      ensures r.Err? && old(OrderLock(orderId) !in locks && PayGuard(Tables(), userId, orderId)) ==>
                Refused(old(rows), old(locks), old(orders)[orderId], r.error)
    {
      var lock := OrderLock(orderId);
      var ok := AcquireLock(lock);
      if !ok {
        return Err(Locked(lock));
      }
      var before := Tables();
      r := PayInTransaction(userId, orderId, paymentId);
      if r.Err? {
        if PayGuard(before, userId, orderId) {
          OuterLockElsewhere(before.rows, old(locks), before.orders[orderId], lock, r.error);
        }
        Rollback(before);
      }
      ReleaseLock(lock);
    }

    method CancelInTransaction(userId: nat, paymentId: nat) returns (r: Result<Payment>)
      modifies this
      ensures locks == old(locks)
      ensures r.Ok? <==>
                old(Can(Tables(), Cancel(userId, paymentId))
                    && RowLocksFree(locks, Takes(RefundedOrder(userId, paymentId))))
      ensures r.Ok? ==> Tables() == After(old(Tables()), Cancel(userId, paymentId)) && r.value == payments[paymentId]
      ensures r.Err? && r.error.Locked? ==> r.error.lock.RowLock?
      ensures CancelAnswers(old(Tables()), userId, paymentId, r)
    {
      if paymentId !in payments {
        return Err(NotFound);
      }
      var payment := payments[paymentId];
      if payment.userId != userId {
        return Err(Unauthorized);
      }
      if payment.status != PaymentStatus.COMPLETED {
        return Err(NotCompleted);
      }
      var items := if payment.orderId in orders then orders[payment.orderId].items else [];
      var given := IncrementStock(items);
      if given.Err? {
        return Err(given.error);
      }

      var lock := RowLock(Balance(userId));
      var ok := AcquireLock(lock);
      if !ok {
        return Err(Locked(lock));
      }
      var refunded := ChargeBalance(userId, payment.amount);
      ReleaseLock(lock);
      if refunded.Err? {
        return Err(refunded.error);
      }

      payments := payments[paymentId := payment.(status := PaymentStatus.CANCELLED)];
      if payment.orderId !in orders {
        return Err(NotFound);
      }
      orders := orders[payment.orderId := orders[payment.orderId].(status := OrderStatus.CANCELLED)];
      return Ok(payments[paymentId]);
    }

    method CancelPayment(userId: nat, paymentId: nat) returns (r: Result<Payment>)
      modifies this
      ensures locks == old(locks)
      ensures r.Ok? <==>
                old(&& PaymentLock(paymentId) !in locks
                    && Can(Tables(), Cancel(userId, paymentId))
                    && RowLocksFree(locks, Takes(RefundedOrder(userId, paymentId))))
      ensures r.Ok? ==> Tables() == After(old(Tables()), Cancel(userId, paymentId)) && r.value == payments[paymentId]
      ensures r.Err? ==> Tables() == old(Tables())
      ensures r == Err(Locked(PaymentLock(paymentId))) <==> PaymentLock(paymentId) in old(locks)
      ensures PaymentLock(paymentId) !in old(locks) ==> CancelAnswers(old(Tables()), userId, paymentId, r)
    {
      var lock := PaymentLock(paymentId);
      var ok := AcquireLock(lock);
      if !ok {
        return Err(Locked(lock));
      }
      var before := Tables();
      r := CancelInTransaction(userId, paymentId);
      if r.Err? {
        Rollback(before);
      }
      ReleaseLock(lock);
    }

    /** The rows a cancellation touches: the items of the payment's order and the balance of the caller. */
    function RefundedOrder(userId: nat, paymentId: nat): Order
      reads this
      requires CancelGuard(Tables(), userId, paymentId) && payments[paymentId].orderId in orders
    {
      orders[payments[paymentId].orderId].(userId := userId)
    }
  }

  /** Splits what a payment needs into what its two parts need. */
  lemma PayRows(rows: map<Row, int>, locks: set<Lock>, order: Order)
    ensures Affordable(rows, Takes(order)) <==>
            && Affordable(rows, ItemTakes(order.items))
            && Balance(order.userId) in rows
            && order.finalAmount <= Lowered(rows, ItemTakes(order.items))[Balance(order.userId)]
    ensures RowLocksFree(locks, Takes(order)) <==>
            RowLocksFree(locks, ItemTakes(order.items)) && RowLock(Balance(order.userId)) !in locks
    ensures Balance(order.userId) in rows ==>
            Lowered(rows, Takes(order)) ==
            var money := Balance(order.userId);
            Lowered(rows, ItemTakes(order.items))[money := rows[money] - order.finalAmount]
  {
    TakesAffordable(rows, order);
    forall r ensures Demand(Takes(order), r) ==
                     Demand(ItemTakes(order.items), r) + if r == Balance(order.userId) then order.finalAmount else 0
    {
      TakesDemand(order, r);
    }
    TakesDemand(order, Balance(order.userId));
    assert Takes(order) == ItemTakes(order.items) + [Take(Balance(order.userId), order.finalAmount)];
    assert forall t :: t in Takes(order) <==>
           t in ItemTakes(order.items) || t == Take(Balance(order.userId), order.finalAmount);
  }
}
