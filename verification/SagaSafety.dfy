/** What sagas, requests and operations from outside do to the ledger and to the payments of an order. */
module SagaSafety {
  import opened Saga
  import opened SagaRuns
  import opened Shop

  // ---------------------------------------------------------------- the second history row and the ledger

  /** The handler moves money and then logs the move a second time. */
  predicate Doubles(db: Db, e: Event, luck: Luck) {
    && !luck.fails && !luck.failsLate
    && match e
       case DeductionRequested(userId, _, amount) => amount != 0 && Can(db, Deduct(userId, amount))
       case ChargeRequested(userId, amount) => amount != 0 && Can(db, TopUp(userId, amount))
       case _ => false
  }

  /** A history row whose `afterBalance` is not what the rows up to it lead to. */
  ghost predicate BadRow(opening: int, history: seq<HistoryRow>, k: nat) {
    k < |history| && history[k].afterBalance != Replay(opening, history[..k + 1])
  }

  ghost predicate Broken(opening: nat -> int, db: Db) {
    exists u, k :: BadRow(opening(u), HistoryOf(db, u), k)
  }

  lemma BrokenIsNoLedger(opening: nat -> int, db: Db)
    requires Broken(opening, db)
    ensures !Ledger(opening, db)
  {
    var u, k :| BadRow(opening(u), HistoryOf(db, u), k);
    var history := HistoryOf(db, u);
    assert !LedgerOf(opening(u), Held(db.rows, Balance(u)), history) by {
      assert history[(k + 1) - 1].afterBalance != Replay(opening(u), history[..k + 1]);
    }
  }

  /** No row of a history is ever changed or removed. */
  ghost predicate HistoryGrows(db: Db, db': Db) {
    forall u :: HistoryOf(db, u) <= HistoryOf(db', u)
  }

  lemma BrokenStays(opening: nat -> int, db: Db, db': Db)
    requires Broken(opening, db) && HistoryGrows(db, db')
    ensures Broken(opening, db')
  {
    var u, k :| BadRow(opening(u), HistoryOf(db, u), k);
    assert HistoryOf(db, u) <= HistoryOf(db', u);
    assert HistoryOf(db', u)[..k + 1] == HistoryOf(db, u)[..k + 1];
    assert BadRow(opening(u), HistoryOf(db', u), k);
  }

  lemma OperationGrowsHistory(db: Db, op: Op)
    requires Coherent(db) && Can(db, op)
    ensures HistoryGrows(db, After(db, op))
  {
    forall u ensures HistoryOf(db, u) <= HistoryOf(After(db, op), u) {
      HistoryMoves(db, op, u);
    }
  }

  /** The operation of the repository that a handler calls, if it gets that far. */
  function Called(db: Db, e: Event, luck: Luck): Option<Op> {
    if luck.fails then None
    else
      match e
      case DeductionRequested(userId, _, amount) => Some(Deduct(userId, amount))
      case DeductionCompleted(userId, orderId, _) => Some(Pay(userId, orderId, luck.paymentId))
      case ChargeRequested(userId, amount) => Some(TopUp(userId, amount))
      case _ => None
  }

  function KindOf(e: Event): BalanceType {
    if e.ChargeRequested? then CHARGE else USE
  }

  /** A handler does what its operation does, if it succeeds, and logs once more, or it moves no balance at all. */
  lemma HandlerLogs(db: Db, e: Event, luck: Luck)
    ensures var called := Called(db, e, luck);
            var db' := Handle(db, e, luck).db;
            if called.Some? && Can(db, called.value) then
              if e.DeductionCompleted? || luck.failsLate then db' == After(db, called.value)
              else db' == LoggedAgain(After(db, called.value), e.userId, KindOf(e), e.amount)
            else db'.history == db.history && forall u :: Held(db'.rows, Balance(u)) == Held(db.rows, Balance(u))
  {
  }

  /** A row that says how much was moved, and the balance from before it. */
  lemma BadMove(opening: int, history: seq<HistoryRow>, row: HistoryRow)
    requires row.afterBalance == Replay(opening, history) && row.amount != 0
    ensures BadRow(opening, history + [row], |history|)
  {
    assert (history + [row])[..|history|] == history;
    assert (history + [row])[..|history| + 1] == history + [row];
  }

  lemma LoggedHistory(db: Db, u: nat, kind: BalanceType, amount: int, v: nat)
    ensures HistoryOf(LoggedAgain(db, u, kind, amount), v) ==
            HistoryOf(db, v) + if v == u then [HistoryRow(kind, amount, Held(db.rows, Balance(u)))] else []
  {
    assert HistoryOf(db, v) + [] == HistoryOf(db, v);
  }

  /** Logging a move of money a second time breaks the ledger. */
  lemma LoggedAgainBreaks(opening: nat -> int, db: Db, u: nat, kind: BalanceType, amount: int)
    requires Ledger(opening, db) && amount != 0
    ensures Broken(opening, LoggedAgain(db, u, kind, amount))
  {
    assert LedgerOf(opening(u), Held(db.rows, Balance(u)), HistoryOf(db, u));
    LoggedHistory(db, u, kind, amount, u);
    BadMove(opening(u), HistoryOf(db, u), HistoryRow(kind, amount, Held(db.rows, Balance(u))));
    assert BadRow(opening(u), HistoryOf(LoggedAgain(db, u, kind, amount), u), |HistoryOf(db, u)|);
  }

  /** Logging a move of nothing keeps it. */
  lemma LoggedNothing(opening: nat -> int, db: Db, u: nat, kind: BalanceType)
    requires Ledger(opening, db)
    ensures Ledger(opening, LoggedAgain(db, u, kind, 0))
  {
    var db' := LoggedAgain(db, u, kind, 0);
    forall v ensures LedgerOf(opening(v), Held(db'.rows, Balance(v)), HistoryOf(db', v)) {
      assert LedgerOf(opening(v), Held(db.rows, Balance(v)), HistoryOf(db, v));
      LoggedHistory(db, u, kind, 0, v);
      if v == u {
        LoggedReplay(opening(u), HistoryOf(db, u), HistoryRow(kind, 0, Held(db.rows, Balance(u))));
      } else {
        assert HistoryOf(db, v) + [] == HistoryOf(db, v);
      }
    }
  }

  lemma SameLedger(opening: nat -> int, db: Db, db': Db)
    requires Ledger(opening, db) && db'.history == db.history
    requires forall u :: Held(db'.rows, Balance(u)) == Held(db.rows, Balance(u))
    ensures Ledger(opening, db')
  {
    forall u ensures LedgerOf(opening(u), Held(db'.rows, Balance(u)), HistoryOf(db', u)) {
      assert LedgerOf(opening(u), Held(db.rows, Balance(u)), HistoryOf(db, u));
    }
  }

  /** A handler keeps the ledger, unless it logs a move of money twice. */
  lemma HandlerLedger(opening: nat -> int, db: Db, e: Event, luck: Luck)
    requires Coherent(db) && Ledger(opening, db)
    ensures var db' := Handle(db, e, luck).db;
            if Doubles(db, e, luck) then Broken(opening, db') else Ledger(opening, db')
  {
    var called := Called(db, e, luck);
    HandlerLogs(db, e, luck);
    if called.Some? && Can(db, called.value) {
      LedgerStep(opening, db, called.value);
      if !e.DeductionCompleted? && !luck.failsLate {
        if e.amount == 0 {
          LoggedNothing(opening, After(db, called.value), e.userId, KindOf(e));
        } else {
          LoggedAgainBreaks(opening, After(db, called.value), e.userId, KindOf(e), e.amount);
        }
      }
    } else {
      SameLedger(opening, db, Handle(db, e, luck).db);
    }
  }

  lemma LoggedAgainGrows(db: Db, u: nat, kind: BalanceType, amount: int)
    ensures HistoryGrows(db, LoggedAgain(db, u, kind, amount))
  {
    forall v ensures HistoryOf(db, v) <= HistoryOf(LoggedAgain(db, u, kind, amount), v) {
      LoggedHistory(db, u, kind, amount, v);
    }
  }

  lemma HandlerGrowsHistory(db: Db, e: Event, luck: Luck)
    requires Coherent(db)
    ensures HistoryGrows(db, Handle(db, e, luck).db)
  {
    var called := Called(db, e, luck);
    HandlerLogs(db, e, luck);
    if called.Some? && Can(db, called.value) {
      OperationGrowsHistory(db, called.value);
      if !e.DeductionCompleted? && !luck.failsLate {
        LoggedAgainGrows(After(db, called.value), e.userId, KindOf(e), e.amount);
      }
    }
  }

  predicate TurnDoubles(s: System, turn: Turn)
    requires Possible(s, turn)
  {
    turn.Turn? && Doubles(s.db, s.pending[turn.i], turn.luck)
  }

  /** Some handler of the execution logs a move of money twice. */
  predicate SomeDoubles(s: System, turns: seq<Turn>)
    requires Execution(s, turns)
    decreases |turns|
  {
    turns != [] && (TurnDoubles(s, turns[0]) || SomeDoubles(Turned(s, turns[0]), turns[1..]))
  }

  lemma TurnCoherent(s: System, turn: Turn)
    requires Coherent(s.db) && Possible(s, turn)
    ensures Coherent(Turned(s, turn).db)
  {
    if turn.Turn? {
      HandlerCoherent(s.db, s.pending[turn.i], turn.luck);
    } else if turn.Outside? {
      CoherentStep(s.db, turn.op);
    }
  }

  lemma TurnLedger(opening: nat -> int, s: System, turn: Turn)
    requires Coherent(s.db) && Ledger(opening, s.db) && Possible(s, turn)
    ensures if TurnDoubles(s, turn) then Broken(opening, Turned(s, turn).db) else Ledger(opening, Turned(s, turn).db)
  {
    if turn.Turn? {
      HandlerLedger(opening, s.db, s.pending[turn.i], turn.luck);
    } else if turn.Outside? {
      LedgerStep(opening, s.db, turn.op);
    }
  }

  lemma {:induction false} BrokenForGood(opening: nat -> int, s: System, turns: seq<Turn>)
    requires Coherent(s.db) && Broken(opening, s.db) && Execution(s, turns)
    ensures Broken(opening, Final(s, turns).db)
    decreases |turns|
  {
    if turns != [] {
      var turn := turns[0];
      TurnCoherent(s, turn);
      if turn.Turn? {
        HandlerGrowsHistory(s.db, s.pending[turn.i], turn.luck);
      } else if turn.Outside? {
        OperationGrowsHistory(s.db, turn.op);
      }
      BrokenStays(opening, s.db, Turned(s, turn).db);
      BrokenForGood(opening, Turned(s, turn), turns[1..]);
    }
  }

  /** From a correct ledger, any execution ends with a correct ledger exactly when no handler logs a move of money
      twice: one such row is never mended. */
  lemma {:induction false} SagaLedgerExactly(opening: nat -> int, s: System, turns: seq<Turn>)
    requires Coherent(s.db) && Ledger(opening, s.db) && Execution(s, turns)
    ensures Ledger(opening, Final(s, turns).db) <==> !SomeDoubles(s, turns)
    decreases |turns|
  {
    if turns != [] {
      var s' := Turned(s, turns[0]);
      TurnCoherent(s, turns[0]);
      TurnLedger(opening, s, turns[0]);
      if TurnDoubles(s, turns[0]) {
        BrokenForGood(opening, s', turns[1..]);
        BrokenIsNoLedger(opening, Final(s, turns).db);
      } else {
        SagaLedgerExactly(opening, s', turns[1..]);
      }
    }
  }

  // ---------------------------------------------------------------- no order is paid twice

  /** Each order has at most one payment, and one that has it says PAID or CANCELLED. */
  ghost predicate PaysOnce(db: Db) {
    && Coherent(db) && OneEach(db)
    && forall p | p in db.payments ::
         db.orders[db.payments[p].orderId].status in {OrderStatus.PAID, OrderStatus.CANCELLED}
  }

  lemma LifecyclePaysOnce(db: Db)
    requires Lifecycle(db)
    ensures PaysOnce(db)
  {
  }

  lemma OperationPaysOnce(db: Db, op: Op)
    requires PaysOnce(db) && Can(db, op)
    ensures PaysOnce(After(db, op))
  {
    CoherentStep(db, op);
    if op.Pay? {
      assert forall p | p in db.payments :: db.payments[p].orderId != op.orderId;
    }
  }

  lemma StatusPaysOnce(db: Db, order: Option<nat>, status: OrderStatus)
    requires PaysOnce(db) && status in {OrderStatus.PAID, OrderStatus.CANCELLED}
    ensures PaysOnce(WithStatus(db, order, status))
  {
  }

  lemma HandlerPaysOnce(db: Db, e: Event, luck: Luck)
    requires PaysOnce(db)
    ensures PaysOnce(Handle(db, e, luck).db)
  {
    match e {
      case OrderCreated(_, order, _, _) => StatusPaysOnce(db, order, OrderStatus.CANCELLED);
      case PaymentFailed(order) => StatusPaysOnce(db, order, OrderStatus.CANCELLED);
      case PaymentCompleted(orderId) => StatusPaysOnce(db, Some(orderId), OrderStatus.PAID);
      case DeductionCompleted(userId, orderId, _) =>
        if Can(db, Pay(userId, orderId, luck.paymentId)) {
          OperationPaysOnce(db, Pay(userId, orderId, luck.paymentId));
        }
      case _ => RestStays(db, e, luck);
    }
  }

  /** The other handlers leave orders and payments alone. */
  lemma RestStays(db: Db, e: Event, luck: Luck)
    requires !e.OrderCreated? && !e.PaymentFailed? && !e.PaymentCompleted? && !e.DeductionCompleted?
    ensures Handle(db, e, luck).db.orders == db.orders && Handle(db, e, luck).db.payments == db.payments
  {
  }

  lemma TurnPaysOnce(s: System, turn: Turn)
    requires PaysOnce(s.db) && Possible(s, turn)
    ensures PaysOnce(Turned(s, turn).db)
  {
    if turn.Turn? {
      HandlerPaysOnce(s.db, s.pending[turn.i], turn.luck);
    } else if turn.Outside? {
      OperationPaysOnce(s.db, turn.op);
    }
  }

  /** Although their handlers overwrite statuses, no execution of sagas, requests and operations pays an order twice. */
  lemma {:induction false} NoOrderPaidTwice(s: System, turns: seq<Turn>)
    requires PaysOnce(s.db) && Execution(s, turns)
    ensures PaysOnce(Final(s, turns).db)
    decreases |turns|
  {
    if turns != [] {
      TurnPaysOnce(s, turns[0]);
      NoOrderPaidTwice(Turned(s, turns[0]), turns[1..]);
    }
  }

  // ---------------------------------------------------------------- paid orders and CANCELLED orders

  /** The event belongs to a saga that may still pay for order `o`, or cancel it. */
  function Threat(o: nat): Event -> int {
    (e: Event) => if Threatens(e, o) then 1 else 0
  }

  predicate Threatens(e: Event, o: nat) {
    match e
    case OrderCreated(_, order, _, _) => order == Some(o)
    case PaymentInitiated(_, order) => order == Some(o)
    case DeductionRequested(_, orderId, _) => orderId == o
    case DeductionCompleted(_, orderId, _) => orderId == o
    case PaymentFailed(order) => order == Some(o)
    case _ => false
  }

  function Threats(s: System, o: nat): int {
    SumOf(s.pending, Threat(o))
  }

  /** At most one saga concerns an order; none does once it is paid, and then it does not say CANCELLED. */
  ghost predicate TidyFor(s: System, o: nat) {
    && Threats(s, o) <= 1
    && (IsPaid(s.db, o) ==> Threats(s, o) <= 0 && o in s.db.orders && s.db.orders[o].status != OrderStatus.CANCELLED)
  }

  ghost predicate Tidy(s: System) {
    PaysOnce(s.db) && forall o :: TidyFor(s, o)
  }

  /** A saga is asked for only for an order without one, and not paid yet; a payment from outside is made only for an
      order without a saga. */
  ghost predicate Apart(s: System, turn: Turn) {
    match turn
    case Turn(_, _) => true
    case Request(e) =>
      e.PaymentInitiated? && e.order.Some? ==> Threats(s, e.order.value) <= 0 && !IsPaid(s.db, e.order.value)
    case Outside(op, _) => op.Pay? ==> Threats(s, op.orderId) <= 0
  }

  ghost predicate AllApart(s: System, turns: seq<Turn>)
    requires Execution(s, turns)
    decreases |turns|
  {
    turns == [] || (Apart(s, turns[0]) && AllApart(Turned(s, turns[0]), turns[1..]))
  }

  lemma {:induction false} ThreatsNonNegative(events: seq<Event>, o: nat)
    ensures SumOf(events, Threat(o)) >= 0
    ensures forall e | e in events :: SumOf(events, Threat(o)) >= Threat(o)(e)
    decreases |events|
  {
    if events != [] {
      ThreatsNonNegative(events[..|events| - 1], o);
      assert forall e | e in events :: e in events[..|events| - 1] || e == events[|events| - 1];
    }
  }

  lemma CreationThreats(db: Db, e: Event, luck: Luck, o: nat)
    requires e.OrderCreated?
    ensures SumOf(Handle(db, e, luck).emitted, Threat(o)) <= Threat(o)(e)
  {
    if luck.fails {
      SumFew(Threat(o), Notice, Notice);
    } else {
      var checks := ChecksOf(e.items) + if e.hasCoupon then [CouponValidation] else [];
      assert Handle(db, e, luck).emitted == checks + [PaymentInitiated(e.userId, e.order)];
      ChecksHarmless(checks, PaymentInitiated(e.userId, e.order), o);
    }
  }

  lemma ChecksHarmless(checks: seq<Event>, last: Event, o: nat)
    requires forall x | x in checks :: x.StockCheck? || x.CouponValidation?
    ensures SumOf(checks + [last], Threat(o)) == Threat(o)(last)
  {
    assert forall x | x in checks :: Threat(o)(x) == 0;
    SumPlus(checks, last, Threat(o));
    NothingInTransit(checks, Threat(o));
  }

  /** The handler of the payment's request, and that of the deduction, emit one event about the same order. */
  lemma RequestThreats(db: Db, e: Event, luck: Luck, o: nat)
    requires e.PaymentInitiated? || e.DeductionRequested?
    ensures SumOf(Handle(db, e, luck).emitted, Threat(o)) <= Threat(o)(e)
  {
    var emitted := Handle(db, e, luck).emitted;
    assert emitted == [emitted[0]] && Threatens(emitted[0], o) == Threatens(e, o);
    SumFew(Threat(o), emitted[0], emitted[0]);
  }

  lemma PaymentThreats(db: Db, e: Event, luck: Luck, o: nat)
    requires e.DeductionCompleted?
    ensures SumOf(Handle(db, e, luck).emitted, Threat(o)) <= Threat(o)(e)
    ensures Handle(db, e, luck).emitted == [PaymentCompleted(e.orderId)] ==>
              SumOf(Handle(db, e, luck).emitted, Threat(o)) == 0
  {
    SumFew(Threat(o), PaymentCompleted(e.orderId), PaymentCompleted(e.orderId));
    SumFew(Threat(o), ChargeRequested(e.userId, e.amount), PaymentFailed(Some(e.orderId)));
  }

  /** A handler hands on what threatens an order, once at most, and nothing once it has paid. */
  lemma EmitsThreats(db: Db, e: Event, luck: Luck, o: nat)
    requires Rank(e) > 0
    ensures SumOf(Handle(db, e, luck).emitted, Threat(o)) <= Threat(o)(e)
    ensures e.DeductionCompleted? && Handle(db, e, luck).emitted == [PaymentCompleted(e.orderId)] ==>
              SumOf(Handle(db, e, luck).emitted, Threat(o)) == 0
  {
    if e.OrderCreated? {
      CreationThreats(db, e, luck, o);
    } else if e.PaymentInitiated? || e.DeductionRequested? {
      RequestThreats(db, e, luck, o);
    } else if e.DeductionCompleted? {
      PaymentThreats(db, e, luck, o);
    } else {
      EmitsNoThreat(db, e, luck, o);
      NothingInTransit(Handle(db, e, luck).emitted, Threat(o));
    }
  }

  lemma EmitsNoThreat(db: Db, e: Event, luck: Luck, o: nat)
    requires !e.OrderCreated? && !e.PaymentInitiated? && !e.DeductionRequested? && !e.DeductionCompleted?
    ensures forall x | x in Handle(db, e, luck).emitted :: !Threatens(x, o)
  {
  }

  /** What does not threaten an order neither pays for it nor cancels it. */
  lemma HarmlessHandler(db: Db, e: Event, luck: Luck, o: nat)
    requires Coherent(db) && !Threatens(e, o)
    ensures IsPaid(Handle(db, e, luck).db, o) ==> IsPaid(db, o)
    ensures o in db.orders ==>
              && o in Handle(db, e, luck).db.orders
              && (Handle(db, e, luck).db.orders[o] == db.orders[o]
                  || Handle(db, e, luck).db.orders[o].status == OrderStatus.PAID)
  {
    var db' := Handle(db, e, luck).db;
    assert forall p | p in db'.payments && db'.payments[p].orderId == o ::
        p in db.payments && db.payments[p] == db'.payments[p];
  }

  /** What threatens an order that is not paid leaves it so, or pays for it and has it say PAID. */
  lemma ThreateningHandler(db: Db, e: Event, luck: Luck, o: nat)
    requires Coherent(db) && Threatens(e, o) && Rank(e) > 0 && !IsPaid(db, o)
    ensures var db' := Handle(db, e, luck).db;
            IsPaid(db', o) ==>
              && o in db'.orders && db'.orders[o].status == OrderStatus.PAID
              && e.DeductionCompleted? && Handle(db, e, luck).emitted == [PaymentCompleted(o)]
  {
    var db' := Handle(db, e, luck).db;
    if !(e.DeductionCompleted? && !luck.fails && Can(db, Pay(e.userId, o, luck.paymentId))) {
      assert db'.payments == db.payments;
    }
  }

  lemma DispatchTidy(s: System, turn: Turn, o: nat)
    requires PaysOnce(s.db) && TidyFor(s, o) && turn.Turn? && Possible(s, turn)
    ensures TidyFor(Turned(s, turn), o)
  {
    var e := s.pending[turn.i];
    var emitted := Handle(s.db, e, turn.luck).emitted;
    SumReplaced(s.pending, turn.i, emitted, Threat(o));
    EmitsThreats(s.db, e, turn.luck, o);
    ThreatsNonNegative(s.pending, o);
    if Threatens(e, o) {
      ThreateningHandler(s.db, e, turn.luck, o);
    } else {
      HarmlessHandler(s.db, e, turn.luck, o);
    }
  }

  lemma RequestTidy(s: System, turn: Turn, o: nat)
    requires TidyFor(s, o) && turn.Request? && Possible(s, turn) && Apart(s, turn)
    ensures TidyFor(Turned(s, turn), o)
  {
    SumPlus(s.pending, turn.e, Threat(o));
  }

  lemma OutsideTidy(s: System, turn: Turn, o: nat)
    requires PaysOnce(s.db) && TidyFor(s, o) && turn.Outside? && Possible(s, turn) && Apart(s, turn)
    ensures TidyFor(Turned(s, turn), o)
  {
    if turn.tells {
      SumPlus(s.pending, PaymentCompleted(turn.op.orderId), Threat(o));
    }
    OperationTidy(s.db, turn.op, o);
  }

  /** An operation pays for its own order only, and cancels only with the payment. */
  lemma OperationTidy(db: Db, op: Op, o: nat)
    requires PaysOnce(db) && Can(db, op)
    requires IsPaid(db, o) ==> o in db.orders && db.orders[o].status != OrderStatus.CANCELLED
    ensures IsPaid(After(db, op), o) ==>
              && o in After(db, op).orders && After(db, op).orders[o].status != OrderStatus.CANCELLED
              && (IsPaid(db, o) || (op.Pay? && op.orderId == o))
  {
    var db' := After(db, op);
    if IsPaid(db', o) && !(op.Pay? && op.orderId == o) {
      var p :| p in db'.payments && db'.payments[p].orderId == o && db'.payments[p].status == PaymentStatus.COMPLETED;
      assert p in db.payments && db.payments[p] == db'.payments[p];
      assert IsPaid(db, o);
    }
  }

  lemma TurnTidy(s: System, turn: Turn)
    requires Tidy(s) && Possible(s, turn) && Apart(s, turn)
    ensures Tidy(Turned(s, turn))
  {
    TurnPaysOnce(s, turn);
    forall o ensures TidyFor(Turned(s, turn), o) {
      assert TidyFor(s, o);
      match turn {
        case Turn(_, _) => DispatchTidy(s, turn, o);
        case Request(_) => RequestTidy(s, turn, o);
        case Outside(_, _) => OutsideTidy(s, turn, o);
      }
    }
  }

  /** With at most one saga for an order at a time, none for a paid one, and no payment from outside beside a saga,
      no order with a COMPLETED payment ever says CANCELLED. */
  lemma {:induction false} NoPaidOrderCancelled(s: System, turns: seq<Turn>)
    requires Tidy(s) && Execution(s, turns) && AllApart(s, turns)
    ensures Tidy(Final(s, turns))
    decreases |turns|
  {
    if turns != [] {
      TurnTidy(s, turns[0]);
      NoPaidOrderCancelled(Turned(s, turns[0]), turns[1..]);
    }
  }

  // ---------------------------------------------------------------- a second saga

  /** The last pending event is dispatched. */
  lemma LastGoes(s: System, rest: seq<Event>, e: Event)
    requires s.pending == rest + [e] && Rank(e) > 0
    ensures var turn := Turn(|rest|, Lucky(0));
            && Possible(s, turn) && Turned(s, turn).db == Handle(s.db, e, Lucky(0)).db
            && Turned(s, turn).pending == rest + Handle(s.db, e, Lucky(0)).emitted
  {
    assert s.pending[..|rest|] == rest && s.pending[|rest| + 1..] == [];
    assert rest + [] == rest;
  }

  /** A saga for an order that says PAID fails, however lucky it is, and then the order says CANCELLED. */
  lemma SecondSagaCancels(s: System, rest: seq<Event>, u: nat, o: nat) returns (turns: seq<Turn>)
    requires s.pending == [PaymentInitiated(u, Some(o))] + rest
    requires o in s.db.orders && s.db.orders[o].status == OrderStatus.PAID
    ensures Execution(s, turns) && NothingDirect(turns)
    ensures var t := Final(s, turns);
            && t.db.payments == s.db.payments && o in t.db.orders && t.db.orders[o].status == OrderStatus.CANCELLED
            && (forall e | e in t.pending :: e in rest || e.ChargeRequested?)
            && forall e | e in rest :: e in t.pending
  {
    var f := s.db.orders[o].finalAmount;
    var first := Turn(0, Lucky(0));
    var s1 := Turned(s, first);
    assert s.pending[..0] + s.pending[1..] == rest;
    assert s1.pending == rest + [DeductionRequested(u, o, f)] && s1.db == s.db;
    var t;
    turns, t := DeductionCancels(s1, rest, u, o, f);
    turns := LeadsOn(s, first, s1, t, turns);
  }

  lemma DeductionCancels(s: System, rest: seq<Event>, u: nat, o: nat, f: int) returns (turns: seq<Turn>, t: System)
    requires s.pending == rest + [DeductionRequested(u, o, f)]
    requires o in s.db.orders && s.db.orders[o].status == OrderStatus.PAID
    ensures Leads(s, t, turns)
    ensures t.db.payments == s.db.payments && o in t.db.orders && t.db.orders[o].status == OrderStatus.CANCELLED
    ensures forall e | e in t.pending :: e in rest || e.ChargeRequested?
    ensures forall e | e in rest :: e in t.pending
  {
    var turn := Turn(|rest|, Lucky(0));
    LastGoes(s, rest, DeductionRequested(u, o, f));
    var s1 := Turned(s, turn);
    if Can(s.db, Deduct(u, f)) {
      LastGoes(s1, rest, DeductionCompleted(u, o, f));
      var s2 := Turned(s1, turn);
      var longer := rest + [ChargeRequested(u, f)];
      assert s2.pending == longer + [PaymentFailed(Some(o))];
      turns, t := FailureCancels(s2, longer, o);
      turns := LeadsOn(s1, turn, s2, t, turns);
    } else {
      turns, t := FailureCancels(s1, rest, o);
    }
    turns := LeadsOn(s, turn, s1, t, turns);
  }

  lemma FailureCancels(s: System, rest: seq<Event>, o: nat) returns (turns: seq<Turn>, t: System)
    requires s.pending == rest + [PaymentFailed(Some(o))] && o in s.db.orders
    ensures Leads(s, t, turns)
    ensures t.db.payments == s.db.payments && o in t.db.orders && t.db.orders[o].status == OrderStatus.CANCELLED
    ensures t.pending == rest
  {
    var turn := Turn(|rest|, Lucky(0));
    LastGoes(s, rest, PaymentFailed(Some(o)));
    t := Turned(s, turn);
    assert rest + [] == rest;
    assert Leads(t, t, []);
    turns := LeadsOn(s, turn, t, t, []);
  }

  /** What the payment controller does at a request: it asks for a saga, pays by itself, and tells of the completion. */
  function Requested(u: nat, o: nat, p: nat): seq<Turn> {
    [Request(PaymentInitiated(u, Some(o))), Outside(Pay(u, o, p), true)]
  }

  /** The system then: the order paid, with both events pending. */
  lemma RequestedLeads(db: Db, u: nat, o: nat, p: nat) returns (s: System)
    requires Can(db, Pay(u, o, p))
    ensures s == System(After(db, Pay(u, o, p)), [PaymentInitiated(u, Some(o)), PaymentCompleted(o)], [], [], [])
    ensures Possible(System(db, [], [], [], []), Requested(u, o, p)[0])
    ensures var s1 := Turned(System(db, [], [], [], []), Requested(u, o, p)[0]);
            Possible(s1, Requested(u, o, p)[1]) && Turned(s1, Requested(u, o, p)[1]) == s
  {
    s := System(After(db, Pay(u, o, p)), [PaymentInitiated(u, Some(o)), PaymentCompleted(o)], [], [], []);
    assert [] + [PaymentInitiated(u, Some(o))] == [PaymentInitiated(u, Some(o))];
  }

  lemma AfterRequest(db: Db, u: nat, o: nat, p: nat, s: System, rest: seq<Turn>) returns (turns: seq<Turn>)
    requires Can(db, Pay(u, o, p)) && Execution(s, rest)
    requires s == System(After(db, Pay(u, o, p)), [PaymentInitiated(u, Some(o)), PaymentCompleted(o)], [], [], [])
    ensures turns == Requested(u, o, p) + rest
    ensures Execution(System(db, [], [], [], []), turns) && Final(System(db, [], [], [], []), turns) == Final(s, rest)
  {
    var two := RequestedLeads(db, u, o, p);
    assert Requested(u, o, p) + rest == [Requested(u, o, p)[0]] + ([Requested(u, o, p)[1]] + rest);
    var s1 := Turned(System(db, [], [], [], []), Requested(u, o, p)[0]);
    turns := Before(s1, Requested(u, o, p)[1], rest);
    turns := Before(System(db, [], [], [], []), Requested(u, o, p)[0], turns);
  }

  /** Whatever the payment controller pays for, the saga that it asks for can cancel. */
  lemma ControllerCancels(db: Db, u: nat, o: nat, p: nat) returns (turns: seq<Turn>)
    requires Can(db, Pay(u, o, p))
    ensures Requested(u, o, p) <= turns && Execution(System(db, [], [], [], []), turns)
    ensures var t := Final(System(db, [], [], [], []), turns);
            && p in t.db.payments && t.db.payments[p].orderId == o && t.db.payments[p].status == PaymentStatus.COMPLETED
            && o in t.db.orders && t.db.orders[o].status == OrderStatus.CANCELLED
            && forall e | e in t.pending :: e.StockUpdate? || e.ChargeRequested?
  {
    var s := RequestedLeads(db, u, o, p);
    LastGoes(s, [PaymentInitiated(u, Some(o))], PaymentCompleted(o));
    var s3 := Turned(s, Turn(1, Lucky(0)));
    turns := SecondSagaCancels(s3, UpdatesOf(db.orders[o].items), u, o);
    turns := Before(s, Turn(1, Lucky(0)), turns);
    turns := AfterRequest(db, u, o, p, s, turns);
  }

  /** The same request can leave the order PAID: the completion, if it comes last, marks it PAID again, and nothing left
      can change that. So the order in which the events are dispatched decides. */
  lemma ControllerKeepsPaid(db: Db, u: nat, o: nat, p: nat) returns (turns: seq<Turn>)
    requires Can(db, Pay(u, o, p))
    ensures Requested(u, o, p) <= turns && Execution(System(db, [], [], [], []), turns)
    ensures var t := Final(System(db, [], [], [], []), turns);
            && p in t.db.payments && t.db.payments[p].orderId == o && t.db.payments[p].status == PaymentStatus.COMPLETED
            && o in t.db.orders && t.db.orders[o].status == OrderStatus.PAID
            && forall e | e in t.pending :: e.StockUpdate? || e.ChargeRequested? || e.PaymentCompleted?
  {
    var s := RequestedLeads(db, u, o, p);
    turns := CompletedLast(s, u, o);
    turns := AfterRequest(db, u, o, p, s, turns);
  }

  lemma CompletedLast(s: System, u: nat, o: nat) returns (turns: seq<Turn>)
    requires s.pending == [PaymentInitiated(u, Some(o))] + [PaymentCompleted(o)]
    requires o in s.db.orders && s.db.orders[o].status == OrderStatus.PAID
    ensures Execution(s, turns)
    ensures var t := Final(s, turns);
            && t.db.payments == s.db.payments && o in t.db.orders && t.db.orders[o].status == OrderStatus.PAID
            && forall e | e in t.pending :: e.StockUpdate? || e.ChargeRequested? || e.PaymentCompleted?
  {
    turns := SecondSagaCancels(s, [PaymentCompleted(o)], u, o);
    var t := Final(s, turns);
    assert [PaymentCompleted(o)][0] in t.pending;
    var k: nat :| k < |t.pending| && t.pending[k] == PaymentCompleted(o);
    CompletionMarks(t, k, o);
    OneMoreTurn(s, turns, Turn(k, Lucky(0)));
    turns := turns + [Turn(k, Lucky(0))];
  }

  lemma CompletionMarks(t: System, k: nat, o: nat)
    requires k < |t.pending| && t.pending[k] == PaymentCompleted(o) && o in t.db.orders
    ensures var after := Turned(t, Turn(k, Lucky(0)));
            && after.db.orders[o].status == OrderStatus.PAID && after.db.payments == t.db.payments
            && forall e | e in after.pending :: e.StockUpdate? || e in t.pending
  {
  }

  lemma Before(s: System, turn: Turn, turns: seq<Turn>) returns (longer: seq<Turn>)
    requires Possible(s, turn) && Execution(Turned(s, turn), turns)
    ensures longer == [turn] + turns
    ensures Execution(s, longer) && Final(s, longer) == Final(Turned(s, turn), turns)
  {
    longer := [turn] + turns;
    assert longer[1..] == turns;
  }

  // ---------------------------------------------------------------- no row gets negative

  /** An event that carries money carries no negative amount. */
  predicate SaneEvent(e: Event) {
    match e
    case DeductionRequested(_, _, amount) => amount >= 0
    case DeductionCompleted(_, _, amount) => amount >= 0
    case ChargeRequested(_, amount) => amount >= 0
    case _ => true
  }

  ghost predicate SaneSystem(s: System) {
    Coherent(s.db) && SaneAmounts(s.db) && forall e | e in s.pending :: SaneEvent(e)
  }

  /** An update whose call does not fail takes its quantity exactly when the variant exists and, for a decrease, has
      that much; otherwise it leaves every row as it was, and says so. */
  lemma StockUpdateExactly(db: Db, variantId: nat, quantity: nat, decrease: bool, luck: Luck)
    requires !luck.fails
    ensures var r := Stock(variantId);
            var o := Handle(db, StockUpdate(variantId, quantity, decrease), luck);
            if r in db.rows && (decrease ==> quantity <= db.rows[r])
            then o.db.rows == db.rows[r := if decrease then db.rows[r] - quantity else db.rows[r] + quantity]
                 && StockUpdateFailed(variantId, quantity, decrease) !in o.emitted
            else o.db == db && o.emitted == [StockUpdateFailed(variantId, quantity, decrease)]
  {
  }

  lemma HandlerSane(db: Db, e: Event, luck: Luck)
    requires Coherent(db) && SaneAmounts(db) && SaneEvent(e)
    ensures SaneAmounts(Handle(db, e, luck).db)
    ensures forall x | x in Handle(db, e, luck).emitted :: SaneEvent(x)
  {
    var called := Called(db, e, luck);
    if called.Some? && Can(db, called.value) {
      HandlerLogs(db, e, luck);
      NonNegativeExactly(db, called.value);
      OperationKeepsOrders(db, called.value);
    } else {
      OtherwiseSane(db, e, luck);
    }
  }

  lemma OtherwiseSane(db: Db, e: Event, luck: Luck)
    requires SaneAmounts(db) && SaneEvent(e)
    requires Called(db, e, luck).Some? ==> !Can(db, Called(db, e, luck).value)
    ensures SaneAmounts(Handle(db, e, luck).db)
    ensures forall x | x in Handle(db, e, luck).emitted :: SaneEvent(x)
  {
  }

  lemma TurnSane(s: System, turn: Turn)
    requires SaneSystem(s) && Possible(s, turn) && (turn.Outside? ==> Sane(turn.op))
    ensures SaneSystem(Turned(s, turn))
  {
    TurnCoherent(s, turn);
    match turn {
      case Turn(i, luck) =>
        HandlerSane(s.db, s.pending[i], luck);
      case Request(_) =>
      case Outside(op, _) => SaneStep(s.db, op);
    }
    assert forall x | x in Turned(s, turn).pending && x !in s.pending :: SaneEvent(x);
  }

  /** From sane amounts and rows that are not negative, no execution of sagas, requests and sane operations from outside
      makes a stock or a balance negative, whatever fails on the way. */
  lemma {:induction false} SagaNonNegative(s: System, turns: seq<Turn>)
    requires SaneSystem(s) && Execution(s, turns)
    requires forall turn | turn in turns && turn.Outside? :: Sane(turn.op)
    ensures SaneSystem(Final(s, turns)) && forall r | r in Final(s, turns).db.rows :: Final(s, turns).db.rows[r] >= 0
    decreases |turns|
  {
    if turns != [] {
      TurnSane(s, turns[0]);
      SagaNonNegative(Turned(s, turns[0]), turns[1..]);
    }
  }

  /** So a saga in which nothing fails takes everything twice exactly when stock and balance cover that. */
  lemma TakenTwiceExactly(db: Db, first: Event, turns: seq<Turn>, u: nat, o: nat)
    requires Coherent(db) && SaneAmounts(db) && Begins(first, u, o) && o in db.orders && !IsPaid(db, o)
    requires Execution(Started(db, first), turns) && AllLucky(db, turns) && Complete(Final(Started(db, first), turns))
    ensures var t := Final(Started(db, first), turns);
            (IsPaid(t.db, o)
             && forall r :: Held(db.rows, r) - Held(t.db.rows, r) == 2 * Demand(Takes(db.orders[o]), r)) <==>
            CoveredTwice(db, u, o)
  {
    var t := Final(Started(db, first), turns);
    if CoveredTwice(db, u, o) {
      PayingSaga(db, first, turns, u, o);
    } else if IsPaid(t.db, o) {
      SagaPaysExactly(db, first, turns, u, o);
      SagaNonNegative(Started(db, first), turns);
      var take :| take in ItemTakes(db.orders[o].items)
                  && 2 * Demand(ItemTakes(db.orders[o].items), take.row) > db.rows[take.row];
      TakesDemand(db.orders[o], take.row);
      assert Held(t.db.rows, take.row) >= 0;
    }
  }
}
