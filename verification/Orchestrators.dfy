/** The orchestrators as they run: each handler calls the services and emits its events one after another;
    together they do what `Saga` says of any execution. */
module Orchestrators {
  import opened Saga
  import opened Selection
  import opened Shop
  import Repository = PaymentRepository

  class Orchestrators {
    const repository: Repository.PaymentRepository
    var pending: seq<Event>
    ghost var settled: seq<Take>
    ghost var slipped: seq<Take>
    ghost var dropped: seq<Take>

    constructor (repository: Repository.PaymentRepository)
      ensures this.repository == repository && State() == System(repository.Tables(), [], [], [], [])
    {
      this.repository, this.pending := repository, [];
      this.settled, this.slipped, this.dropped := [], [], [];
    }

    ghost function State(): System
      reads this, repository
    {
      System(repository.Tables(), pending, settled, slipped, dropped)
    }

    method Emit(e: Event)
      modifies this`pending
      ensures pending == old(pending) + [e]
    {
      pending := pending + [e];
    }

    method RequestChecks(items: seq<Item>)
      modifies this`pending
      ensures pending == old(pending) + ChecksOf(items)
    {
      for i := 0 to |items|
        invariant pending == old(pending) + ChecksOf(items)[..i]
      {
        Emit(StockCheck(items[i]));
      }
    }

    method HandleCartCheckout(userId: nat, luck: Luck)
      modifies this`pending
      ensures pending == old(pending) + Handle(repository.Tables(), CartCheckout(userId), luck).emitted
      ensures repository.Tables() == Handle(old(repository.Tables()), CartCheckout(userId), luck).db
    {
      var cartItems := luck.cart;
      if luck.fails || cartItems == [] {
        Emit(Notice);
        return;
      }
      for i := 0 to |cartItems|
        invariant pending == old(pending) + ValidationsOf(cartItems)[..i]
      {
        Emit(CartValidation([cartItems[i]]));
      }
      Emit(OrderCreated(userId, None, cartItems, false));
      if luck.failsLate {
        Emit(Notice);
      }
    }

    method HandleCartValidation(items: seq<Item>, luck: Luck)
      modifies this`pending
      ensures pending == old(pending) + Handle(repository.Tables(), CartValidation(items), luck).emitted
      ensures repository.Tables() == Handle(old(repository.Tables()), CartValidation(items), luck).db
    {
      RequestChecks(items);
      Emit(Notice);
    }

    method HandleStockCheck(item: Item, luck: Luck)
      modifies this`pending
      ensures pending == old(pending) + Handle(repository.Tables(), StockCheck(item), luck).emitted
      ensures repository.Tables() == Handle(old(repository.Tables()), StockCheck(item), luck).db
    {
      var r := Stock(item.variantId);
      if luck.fails || r !in repository.rows {
        Emit(StockChecked(false));
        return;
      }
      Emit(StockChecked(repository.rows[r] >= item.quantity));
    }

    method HandleStockCheckResponse(available: bool, luck: Luck)
      modifies this`pending
      ensures pending == old(pending) + Handle(repository.Tables(), StockChecked(available), luck).emitted
      ensures repository.Tables() == Handle(old(repository.Tables()), StockChecked(available), luck).db
    {
      if !available {
        Emit(Notice);
      }
    }

    /** `updateOrderStatus`, which throws for an unknown order or when one of its calls fails. */
    method UpdateOrderStatus(order: Option<nat>, status: OrderStatus, fails: bool) returns (ok: bool)
      modifies repository`orders
      ensures ok <==> !fails && Exists(old(repository.Tables()), order)
      ensures repository.Tables() == if ok then WithStatus(old(repository.Tables()), order, status)
              else old(repository.Tables())
    {
      if fails || order.None? || order.value !in repository.orders {
        return false;
      }
      repository.orders := repository.orders[order.value := repository.orders[order.value].(status := status)];
      return true;
    }

    method HandleOrderCreation(userId: nat, order: Option<nat>, items: seq<Item>, hasCoupon: bool, luck: Luck)
      modifies this`pending, repository`orders
      ensures var o := Handle(old(repository.Tables()), OrderCreated(userId, order, items, hasCoupon), luck);
              repository.Tables() == o.db && pending == old(pending) + o.emitted
    {
      if luck.fails {
        var ok := UpdateOrderStatus(order, OrderStatus.CANCELLED, luck.failsLate);
        if ok {
          Emit(Notice);
        }
        return;
      }
      RequestChecks(items);
      if hasCoupon {
        Emit(CouponValidation);
      }
      Emit(PaymentInitiated(userId, order));
    }

    method HandlePaymentInitiation(userId: nat, order: Option<nat>, luck: Luck)
      modifies this`pending
      ensures pending == old(pending) + Handle(repository.Tables(), PaymentInitiated(userId, order), luck).emitted
      ensures repository.Tables() == Handle(old(repository.Tables()), PaymentInitiated(userId, order), luck).db
    {
      if luck.fails || order.None? || order.value !in repository.orders {
        Emit(PaymentFailed(order));
      } else {
        Emit(DeductionRequested(userId, order.value, repository.orders[order.value].finalAmount));
      }
    }

    /** The deduction commits on its own; the second history row belongs to another transaction, which may fail. */
    method HandleBalanceDeduction(userId: nat, orderId: nat, amount: int, luck: Luck)
      modifies this`pending, repository`rows, repository`history
      ensures var o := Handle(old(repository.Tables()), DeductionRequested(userId, orderId, amount), luck);
              repository.Tables() == o.db && pending == old(pending) + o.emitted
    {
      if luck.fails {
        Emit(PaymentFailed(Some(orderId)));
        return;
      }
      var balance := repository.DeductBalance(userId, amount);
      if balance.Err? || luck.failsLate {
        Emit(PaymentFailed(Some(orderId)));
        return;
      }
      repository.CreateBalanceHistory(userId, USE, amount, balance.value);
      Emit(DeductionCompleted(userId, orderId, amount));
    }

    /** Pays, or asks for the deducted amount to be given back; it fails exactly when a call fails, the payment cannot
        be made, or one of its locks is held. */
    method HandleBalanceDeductionComplete(userId: nat, orderId: nat, deductedAmount: int, luck: Luck)
        returns (fails: bool)
      requires luck.paymentId !in repository.payments
      modifies this`pending, repository
      ensures var e := DeductionCompleted(userId, orderId, deductedAmount);
              var o := Handle(old(repository.Tables()), e, luck.(fails := fails));
              repository.Tables() == o.db && pending == old(pending) + o.emitted
      ensures fails <==> luck.fails || !old(repository.Payable(userId, orderId, luck.paymentId))
      ensures repository.locks == old(repository.locks)
    {
      fails := luck.fails;
      if !fails {
        var payment := repository.ProcessPayment(userId, orderId, luck.paymentId);
        fails := payment.Err?;
      }
      if fails {
        Emit(ChargeRequested(userId, deductedAmount));
        Emit(PaymentFailed(Some(orderId)));
      } else {
        Emit(PaymentCompleted(orderId));
      }
    }

    method HandleBalanceCharge(userId: nat, amount: int, luck: Luck)
      modifies this`pending, repository`rows, repository`history
      ensures var o := Handle(old(repository.Tables()), ChargeRequested(userId, amount), luck);
              repository.Tables() == o.db && pending == old(pending) + o.emitted
    {
      if luck.fails {
        Emit(ChargeFailed(userId, amount));
        return;
      }
      var balance := repository.ChargeBalance(userId, amount);
      if balance.Err? || luck.failsLate {
        Emit(ChargeFailed(userId, amount));
        return;
      }
      repository.CreateBalanceHistory(userId, CHARGE, amount, balance.value);
      Emit(Notice);
    }

    /** Nothing catches an error here: whatever throws, no stock update is asked for. */
    method HandlePaymentCompletion(orderId: nat, luck: Luck)
      modifies this`pending, repository`orders
      ensures var o := Handle(old(repository.Tables()), PaymentCompleted(orderId), luck);
              repository.Tables() == o.db && pending == old(pending) + o.emitted
    {
      var ok := UpdateOrderStatus(Some(orderId), OrderStatus.PAID, luck.fails);
      if !ok || luck.failsLate {
        return;
      }
      ghost var paid := repository.Tables();
      var orderItems := repository.orders[orderId].items;
      for i := 0 to |orderItems|
        invariant repository.Tables() == paid
        invariant pending == old(pending) + UpdatesOf(orderItems)[..i]
      {
        Emit(StockUpdate(orderItems[i].variantId, orderItems[i].quantity, true));
      }
    }

    method HandlePaymentFailure(order: Option<nat>, luck: Luck)
      modifies repository`orders
      ensures repository.Tables() == Handle(old(repository.Tables()), PaymentFailed(order), luck).db
    {
      var ok := UpdateOrderStatus(order, OrderStatus.CANCELLED, luck.fails);
    }

    method HandleStockUpdate(variantId: nat, quantity: nat, decrease: bool, luck: Luck)
      modifies this`pending, repository`rows
      ensures var o := Handle(old(repository.Tables()), StockUpdate(variantId, quantity, decrease), luck);
              repository.Tables() == o.db && pending == old(pending) + o.emitted
    {
      var r := Stock(variantId);
      if luck.fails || r !in repository.rows || (decrease && repository.rows[r] < quantity) {
        Emit(StockUpdateFailed(variantId, quantity, decrease));
        return;
      }
      var newQuantity := if decrease then repository.rows[r] - quantity else repository.rows[r] + quantity;
      repository.rows := repository.rows[r := newQuantity];
      Emit(Notice);
    }

    /** `handleCouponValidation` and `handleCouponIssue` report success or failure, which nobody listens to;
        coupons are no table here. */
    method HandleCoupon(e: Event, luck: Luck)
      requires e.CouponValidation? || e.CouponIssue?
      modifies this`pending
      ensures pending == old(pending) + Handle(repository.Tables(), e, luck).emitted
      ensures repository.Tables() == Handle(old(repository.Tables()), e, luck).db
    {
      Emit(Notice);
    }

    /** The handler of an event with a listener. Of what may go wrong, only the payment adds
        to what it is told: it also fails when a lock is held. */
    method Listen(e: Event, luck: Luck) returns (actual: Luck)
      requires Rank(e) > 0 && luck.paymentId !in repository.payments
      modifies this`pending, repository
      ensures var o := Handle(old(repository.Tables()), e, actual);
              repository.Tables() == o.db && pending == old(pending) + o.emitted
      ensures actual == luck.(fails := actual.fails) && repository.locks == old(repository.locks)
      ensures actual.fails <==>
                luck.fails || (e.DeductionCompleted? && !old(repository.Payable(e.userId, e.orderId, luck.paymentId)))
    {
      actual := luck;
      match e {
        case CartCheckout(userId) => HandleCartCheckout(userId, luck);
        case CartValidation(items) => HandleCartValidation(items, luck);
        case OrderCreated(userId, order, items, hasCoupon) =>
          HandleOrderCreation(userId, order, items, hasCoupon, luck);
        case PaymentInitiated(userId, order) => HandlePaymentInitiation(userId, order, luck);
        case DeductionRequested(userId, orderId, amount) => HandleBalanceDeduction(userId, orderId, amount, luck);
        case DeductionCompleted(userId, orderId, amount) =>
          var fails := HandleBalanceDeductionComplete(userId, orderId, amount, luck);
          actual := luck.(fails := fails);
        case ChargeRequested(userId, amount) => HandleBalanceCharge(userId, amount, luck);
        case PaymentCompleted(orderId) => HandlePaymentCompletion(orderId, luck);
        case PaymentFailed(order) => HandlePaymentFailure(order, luck);
        case StockUpdate(variantId, quantity, decrease) => HandleStockUpdate(variantId, quantity, decrease, luck);
        case StockCheck(item) => HandleStockCheck(item, luck);
        case StockChecked(available) => HandleStockCheckResponse(available, luck);
        case CouponValidation => HandleCoupon(e, luck);
        case CouponIssue => HandleCoupon(e, luck);
      }
    }

    /** One pending event goes to its handler: the system makes the turn that `Saga` describes. */
    method Dispatch(i: nat, luck: Luck) returns (actual: Luck)
      requires Dispatchable(State(), i) && luck.paymentId !in repository.payments
      modifies this, repository
      ensures State() == Dispatched(old(State()), i, actual)
      ensures actual == luck.(fails := actual.fails) && repository.locks == old(repository.locks)
      ensures actual.fails <==>
                var e := old(pending[i]);
                luck.fails || (e.DeductionCompleted? && !old(repository.Payable(e.userId, e.orderId, luck.paymentId)))
    {
      ghost var before := repository.Tables();
      var e := pending[i];
      pending := pending[..i] + pending[i + 1..];
      actual := Listen(e, luck);
      ghost var o := Handle(before, e, actual);
      settled, slipped, dropped := settled + o.settled, slipped + o.slipped, dropped + o.dropped;
    }

    /** Some pending event with a listener goes to its handler, with a new identifier for a payment. */
    method DispatchAny(luck: Luck) returns (turn: Turn)
      requires exists i :: 0 <= i < |pending| && Rank(pending[i]) > 0
      modifies this, repository
      ensures turn.Turn? && Possible(old(State()), turn) && State() == Turned(old(State()), turn)
      ensures repository.locks == old(repository.locks)
    {
      var i: nat :| i < |pending| && Rank(pending[i]) > 0;
      FreshExists(repository.payments.Keys);
      var paymentId: nat :| paymentId !in repository.payments.Keys;
      var actual := Dispatch(i, luck.(paymentId := paymentId));
      return Turn(i, actual);
    }

    /** Pending events go to their handlers in any order until none is left with a listener: that comes to an end,
        whatever fails on the way, and no row's accounts have changed. */
    method Drain(lucks: nat -> Luck) returns (turns: seq<Turn>)
      modifies this, repository
      ensures Execution(old(State()), turns) && State() == Final(old(State()), turns)
      ensures forall turn | turn in turns :: turn.Turn?
      ensures forall e | e in pending :: Rank(e) == 0
      ensures SystemOk(old(State())) ==> SameAccounts(old(State()), State())
      ensures repository.locks == old(repository.locks)
    {
      ghost var start := State();
      turns := [];
      while exists i :: 0 <= i < |pending| && Rank(pending[i]) > 0
        invariant Execution(start, turns) && State() == Final(start, turns)
        invariant forall turn | turn in turns :: turn.Turn?
        invariant repository.locks == old(repository.locks)
        decreases Pending(State(), 9), Pending(State(), 8), Pending(State(), 7), Pending(State(), 6),
                  Pending(State(), 5), Pending(State(), 4), Pending(State(), 3), Pending(State(), 2),
                  Pending(State(), 1)
      {
        ghost var s := State();
        var turn := DispatchAny(lucks(|turns|));
        OneMoreTurn(start, turns, turn);
        CountsDrop(s, turn.i, turn.luck);
        turns := turns + [turn];
      }
      if SystemOk(start) {
        AllAccountsKept(start, turns);
      }
    }
  }

  ghost predicate SameAccounts(s: System, t: System) {
    forall r :: Account(t, r) == Account(s, r) && Excess(t, r) == Excess(s, r)
  }

  lemma AllAccountsKept(s: System, turns: seq<Turn>)
    requires SystemOk(s) && Execution(s, turns) && NothingDirect(turns)
    ensures SameAccounts(s, Final(s, turns))
  {
    forall r ensures Account(Final(s, turns), r) == Account(s, r) && Excess(Final(s, turns), r) == Excess(s, r) {
      AccountsKept(s, turns, r);
      NothingBrought(s, turns, r);
    }
  }

  lemma FreshExists(ids: set<nat>)
    ensures exists id: nat :: id !in ids
  {
    assert Above(ids) !in ids;
  }

  /** The counts by rank, from `k` down, are lexicographically lower. */
  ghost predicate Lower(s: System, t: System, k: nat) {
    0 <= Pending(s, k) && (Pending(t, k) < Pending(s, k)
        || (k > 1 && Pending(t, k) == Pending(s, k) && Lower(s, t, k - 1)))
  }

  lemma {:induction false} DispatchIsLower(s: System, i: nat, luck: Luck, k: nat)
    requires Dispatchable(s, i) && k >= Rank(s.pending[i])
    ensures Lower(s, Dispatched(s, i, luck), k)
    decreases k
  {
    DispatchLowers(s, i, luck, k);
    PendingNonNegative(s.pending, k);
    if k > Rank(s.pending[i]) {
      DispatchIsLower(s, i, luck, k - 1);
    }
  }

  /** The same written out. */
  lemma CountsDrop(s: System, i: nat, luck: Luck)
    requires Dispatchable(s, i)
    ensures var t := Dispatched(s, i, luck);
            Lower(s, t, 9)
            && (Lower(s, t, 9) ==> LowerOrNext(s, t, 9)) && (Lower(s, t, 8) ==> LowerOrNext(s, t, 8))
            && (Lower(s, t, 7) ==> LowerOrNext(s, t, 7)) && (Lower(s, t, 6) ==> LowerOrNext(s, t, 6))
            && (Lower(s, t, 5) ==> LowerOrNext(s, t, 5)) && (Lower(s, t, 4) ==> LowerOrNext(s, t, 4))
            && (Lower(s, t, 3) ==> LowerOrNext(s, t, 3)) && (Lower(s, t, 2) ==> LowerOrNext(s, t, 2))
            && (Lower(s, t, 1) ==> 0 <= Pending(s, 1) && Pending(t, 1) < Pending(s, 1))
  {
    DispatchIsLower(s, i, luck, 9);
  }

  ghost predicate LowerOrNext(s: System, t: System, k: nat)
    requires k > 1
  {
    0 <= Pending(s, k) && (Pending(t, k) < Pending(s, k) || (Pending(t, k) == Pending(s, k) && Lower(s, t, k - 1)))
  }
}
