/** How the saga of one order ends, for every order in which its events may be dispatched. */
module SagaRuns {
  import opened Saga
  import opened Shop
  import Sums

  /** Nothing fails. */
  predicate Fortunate(luck: Luck) {
    !luck.fails && !luck.failsLate
  }

  function Lucky(paymentId: nat): Luck {
    Luck([], false, false, paymentId)
  }

  // ---------------------------------------------------------------- executions put together

  ghost predicate Leads(s: System, t: System, turns: seq<Turn>) {
    Execution(s, turns) && Final(s, turns) == t && NothingDirect(turns)
  }

  ghost predicate Goes(s: System, turn: Turn, t: System) {
    Possible(s, turn) && Turned(s, turn) == t
  }

  lemma LeadsOn(s: System, turn: Turn, mid: System, t: System, turns: seq<Turn>) returns (longer: seq<Turn>)
    requires Goes(s, turn, mid) && !turn.Outside? && Leads(mid, t, turns)
    ensures Leads(s, t, longer)
  {
    longer := [turn] + turns;
    assert longer[1..] == turns;
  }

  /** Nothing but dispatches, and none of them fails; a new payment gets an identifier that `db` does not have. */
  ghost predicate AllLucky(db: Db, turns: seq<Turn>) {
    forall turn | turn in turns :: LuckyTurn(db, turn)
  }

  predicate LuckyTurn(db: Db, turn: Turn) {
    turn.Turn? && Fortunate(turn.luck) && turn.luck.paymentId !in db.payments
  }

  /** Nothing is left to dispatch. */
  ghost predicate Complete(s: System) {
    forall e | e in s.pending :: Rank(e) == 0
  }

  /** Whatever is pending can be dispatched to the end without a failure. */
  lemma {:induction false} EndsWell(s: System, db: Db, p: nat) returns (turns: seq<Turn>)
    requires p !in db.payments
    ensures Execution(s, turns) && AllLucky(db, turns) && Complete(Final(s, turns))
    decreases Pending(s, 9), Pending(s, 8), Pending(s, 7), Pending(s, 6), Pending(s, 5), Pending(s, 4), Pending(s, 3),
              Pending(s, 2), Pending(s, 1)
  {
    if Complete(s) {
      turns := [];
    } else {
      var i: nat :| i < |s.pending| && Rank(s.pending[i]) > 0;
      var turn := Turn(i, Lucky(p));
      forall k | Rank(s.pending[i]) <= k
        ensures Pending(Turned(s, turn), k) == Pending(s, k) - (if k == Rank(s.pending[i]) then 1 else 0)
        ensures Pending(Turned(s, turn), k) >= 0
      {
        DispatchLowers(s, i, Lucky(p), k);
        PendingNonNegative(Turned(s, turn).pending, k);
      }
      var rest := EndsWell(Turned(s, turn), db, p);
      turns := [turn] + rest;
      assert turns[1..] == rest;
    }
  }

  // ---------------------------------------------------------------- the conditions

  /** What a saga of user `u` for order `o` needs to pay: the stock once, and the total twice. */
  ghost predicate PayableBySaga(db: Db, u: nat, o: nat) {
    && PayGuard(db, u, o)
    && Affordable(db.rows, ItemTakes(db.orders[o].items))
    && Balance(u) in db.rows
    && db.orders[o].finalAmount <= db.rows[Balance(u)] && 2 * db.orders[o].finalAmount <= db.rows[Balance(u)]
  }

  /** What it needs for the stock to be taken twice as well. */
  ghost predicate CoveredTwice(db: Db, u: nat, o: nat) {
    && PayableBySaga(db, u, o)
    && forall t | t in ItemTakes(db.orders[o].items) ::
         2 * Demand(ItemTakes(db.orders[o].items), t.row) <= db.rows[t.row]
  }

  /** The tables once the saga has deducted. */
  function Deducted(db: Db, u: nat, o: nat): Db
    requires o in db.orders && Can(db, Deduct(u, db.orders[o].finalAmount))
  {
    LoggedAgain(After(db, Deduct(u, db.orders[o].finalAmount)), u, USE, db.orders[o].finalAmount)
  }

  /** After a saga has deducted an order's total, the payment goes through exactly when the stock covers the order, and
      the balance at the start covered twice the total: `processPayment` deducts it again. */
  lemma DeductionPaysExactly(db: Db, u: nat, o: nat, p: nat)
    requires o in db.orders && Can(db, Deduct(u, db.orders[o].finalAmount)) && p !in db.payments
    ensures Can(Deducted(db, u, o), Pay(u, o, p)) <==> PayableBySaga(db, u, o)
  {
    var deducted := Deducted(db, u, o);
    TakesAffordable(deducted.rows, db.orders[o]);
    StockUntouched(db.rows, deducted.rows, db.orders[o].items, u);
  }

  /** Moving a balance does not matter to the items. */
  lemma StockUntouched(rows: map<Row, int>, rows': map<Row, int>, items: seq<Item>, u: nat)
    requires rows' == rows[Balance(u) := Held(rows', Balance(u))]
    ensures Affordable(rows', ItemTakes(items)) <==> Affordable(rows, ItemTakes(items))
  {
    assert forall t | t in ItemTakes(items) :: t.row.Stock?;
  }

  // ---------------------------------------------------------------- one main event among quiet ones

  /** Events that read the tables at most. */
  predicate Quiet(e: Event) {
    e.StockCheck? || e.StockChecked? || e.CouponValidation? || e.Notice?
  }

  ghost predicate MainAt(events: seq<Event>, i: nat, m: Event) {
    i < |events| && events[i] == m && forall j | 0 <= j < |events| && j != i :: Quiet(events[j])
  }

  ghost predicate OneMain(events: seq<Event>, m: Event) {
    exists i :: MainAt(events, i, m)
  }

  lemma QuietHandler(db: Db, e: Event, luck: Luck)
    requires Quiet(e)
    ensures Handle(db, e, luck).db == db && forall x | x in Handle(db, e, luck).emitted :: Quiet(x)
    ensures Handle(db, e, luck).settled == []
  {
  }

  /** A quiet event goes. */
  lemma QuietGone(events: seq<Event>, i: nat, m: Event, j: nat, emitted: seq<Event>)
    requires MainAt(events, i, m) && j < |events| && j != i && forall x | x in emitted :: Quiet(x)
    ensures OneMain(events[..j] + events[j + 1..] + emitted, m)
  {
    assert MainAt(events[..j] + events[j + 1..] + emitted, if j < i then i - 1 else i, m);
  }

  /** The main event goes, and another one follows it. */
  lemma MainFollowed(events: seq<Event>, i: nat, m: Event, emitted: seq<Event>, k: nat, n: Event)
    requires MainAt(events, i, m) && MainAt(emitted, k, n)
    ensures OneMain(events[..i] + events[i + 1..] + emitted, n)
  {
    assert MainAt(events[..i] + events[i + 1..] + emitted, |events| - 1 + k, n);
  }

  lemma SumOfMain(events: seq<Event>, i: nat, m: Event, f: Event -> int)
    requires MainAt(events, i, m) && forall e | Quiet(e) :: f(e) == 0
    ensures SumOf(events, f) == f(m)
  {
    SumReplaced(events, i, [], f);
    NothingInTransit(events[..i] + events[i + 1..] + [], f);
  }

  // ---------------------------------------------------------------- the stages of a saga

  /** The events that begin a saga of user `u` for order `o`: the order's, or the request for its payment. */
  predicate Begins(e: Event, u: nat, o: nat) {
    (e.OrderCreated? && e.userId == u && e.order == Some(o)) || e == PaymentInitiated(u, Some(o))
  }

  predicate Asking(db: Db, m: Event, u: nat, o: nat) {
    Begins(m, u, o) || (o in db.orders && m == DeductionRequested(u, o, db.orders[o].finalAmount))
  }

  /** Nothing has been taken. */
  ghost predicate Asked(db: Db, s: System, u: nat, o: nat) {
    s.db == db && exists m :: Asking(db, m, u, o) && OneMain(s.pending, m)
  }

  /** The total has been deducted. */
  ghost predicate Withdrawn(db: Db, s: System, u: nat, o: nat) {
    && o in db.orders && Can(db, Deduct(u, db.orders[o].finalAmount))
    && s.db == Deducted(db, u, o)
    && OneMain(s.pending, DeductionCompleted(u, o, db.orders[o].finalAmount))
  }

  /** The events of a saga that has paid. */
  predicate OfPaid(e: Event, o: nat) {
    Quiet(e) || e == PaymentCompleted(o) || (e.StockUpdate? && e.decrease) || e.StockUpdateFailed?
  }

  ghost predicate PaidWith(db: Db, s: System, u: nat, o: nat, p: nat)
    requires o in db.orders
  {
    p !in db.payments &&
    s.db.payments == db.payments[p := Payment(o, u, db.orders[o].finalAmount, PaymentStatus.COMPLETED)]
  }

  /** The order has its one payment, and says so. */
  ghost predicate PaidFor(db: Db, s: System, u: nat, o: nat) {
    && PayableBySaga(db, u, o)
    && SameOrders(db.orders, s.db.orders) && s.db.orders[o].status == OrderStatus.PAID
    && (exists p :: PaidWith(db, s, u, o, p))
    && forall e | e in s.pending :: OfPaid(e, o)
  }

  /** The events of a saga that has failed. */
  predicate OfFailed(e: Event, o: nat) {
    Quiet(e) || e == PaymentFailed(Some(o)) || e.ChargeRequested? || e.ChargeFailed?
  }

  predicate CancelledIn(db: Db, o: nat) {
    o in db.orders && db.orders[o].status == OrderStatus.CANCELLED
  }

  /** The order has no payment and gets none. If statuses can be `written` it is CANCELLED, or will be;
      if nothing fails (`lucky`), it could not be paid. */
  ghost predicate Unpaid(db: Db, s: System, u: nat, o: nat, written: bool, lucky: bool) {
    && s.db.payments == db.payments
    && s.db.orders.Keys == db.orders.Keys
    && (forall e | e in s.pending :: OfFailed(e, o))
    && (written && o in db.orders ==> CancelledIn(s.db, o) || PaymentFailed(Some(o)) in s.pending)
    && (lucky ==> !PayableBySaga(db, u, o))
  }

  ghost predicate InSaga(db: Db, s: System, u: nat, o: nat, written: bool, lucky: bool) {
    Asked(db, s, u, o) || Withdrawn(db, s, u, o) || PaidFor(db, s, u, o) || Unpaid(db, s, u, o, written, lucky)
  }

  /** The handler's own attempt to mark the order CANCELLED does not fail. */
  predicate WritesStatus(e: Event, luck: Luck) {
    (e.PaymentFailed? ==> !luck.fails) && (e.OrderCreated? && luck.fails ==> !luck.failsLate)
  }

  ghost predicate TurnAs(db: Db, s: System, turn: Turn, written: bool, lucky: bool)
    requires Possible(s, turn)
  {
    && turn.Turn?
    && (written ==> WritesStatus(s.pending[turn.i], turn.luck))
    && (lucky ==> LuckyTurn(db, turn))
  }

  /** The main event is the order's: it fails, or asks for the payment among quiet events. */
  lemma CreationTurn(db: Db, s: System, turn: Turn, u: nat, o: nat, written: bool, lucky: bool, m: Event)
    requires Possible(s, turn) && TurnAs(db, s, turn, written, lucky)
    requires s.db == db && MainAt(s.pending, turn.i, m) && Begins(m, u, o) && m.OrderCreated?
    ensures InSaga(db, Turned(s, turn), u, o, written, lucky)
  {
    var emitted := Handle(db, m, turn.luck).emitted;
    if turn.luck.fails {
      MainGone(s.pending, turn.i, m, emitted, o);
    } else {
      assert MainAt(emitted, |emitted| - 1, PaymentInitiated(u, Some(o)));
      MainFollowed(s.pending, turn.i, m, emitted, |emitted| - 1, PaymentInitiated(u, Some(o)));
    }
  }

  /** The main event goes, and only events of a failed saga follow it. */
  lemma MainGone(events: seq<Event>, i: nat, m: Event, emitted: seq<Event>, o: nat)
    requires MainAt(events, i, m) && forall e | e in emitted :: OfFailed(e, o)
    ensures forall e | e in events[..i] + events[i + 1..] + emitted :: OfFailed(e, o)
    ensures forall e | e in emitted :: e in events[..i] + events[i + 1..] + emitted
  {
  }

  lemma InitiationTurn(db: Db, s: System, turn: Turn, u: nat, o: nat, written: bool, lucky: bool)
    requires Possible(s, turn) && TurnAs(db, s, turn, written, lucky)
    requires s.db == db && MainAt(s.pending, turn.i, PaymentInitiated(u, Some(o)))
    ensures InSaga(db, Turned(s, turn), u, o, written, lucky)
  {
    var m := PaymentInitiated(u, Some(o));
    var emitted := Handle(db, m, turn.luck).emitted;
    if emitted == [PaymentFailed(Some(o))] {
      MainGone(s.pending, turn.i, m, emitted, o);
      assert emitted[0] in emitted;
    } else {
      MainFollowed(s.pending, turn.i, m, emitted, 0, emitted[0]);
      assert Asking(db, emitted[0], u, o);
    }
  }

  lemma DeductionTurn(db: Db, s: System, turn: Turn, u: nat, o: nat, written: bool, lucky: bool)
    requires Possible(s, turn) && TurnAs(db, s, turn, written, lucky)
    requires s.db == db && o in db.orders
    requires MainAt(s.pending, turn.i, DeductionRequested(u, o, db.orders[o].finalAmount))
    ensures InSaga(db, Turned(s, turn), u, o, written, lucky)
  {
    var m := DeductionRequested(u, o, db.orders[o].finalAmount);
    var emitted := Handle(db, m, turn.luck).emitted;
    DeductionHandled(db, u, o, turn.luck);
    if emitted == [PaymentFailed(Some(o))] {
      MainGone(s.pending, turn.i, m, emitted, o);
      assert emitted[0] in emitted;
      assert Unpaid(db, Turned(s, turn), u, o, written, lucky);
    } else {
      MainFollowed(s.pending, turn.i, m, emitted, 0, emitted[0]);
      assert Withdrawn(db, Turned(s, turn), u, o);
    }
  }

  lemma DeductionHandled(db: Db, u: nat, o: nat, luck: Luck)
    requires o in db.orders
    ensures var amount := db.orders[o].finalAmount;
            var after := Handle(db, DeductionRequested(u, o, amount), luck);
            && after.db.payments == db.payments && after.db.orders == db.orders
            && (after.emitted == [PaymentFailed(Some(o))] && Fortunate(luck) ==> !PayableBySaga(db, u, o))
            && (after.emitted != [PaymentFailed(Some(o))] ==>
                  && after.emitted == [DeductionCompleted(u, o, amount)]
                  && Can(db, Deduct(u, amount)) && after.db == Deducted(db, u, o))
  {
  }

  lemma PaymentTurn(db: Db, s: System, turn: Turn, u: nat, o: nat, written: bool, lucky: bool)
    requires Possible(s, turn) && TurnAs(db, s, turn, written, lucky) && Withdrawn(db, s, u, o)
    requires MainAt(s.pending, turn.i, DeductionCompleted(u, o, db.orders[o].finalAmount))
    ensures InSaga(db, Turned(s, turn), u, o, written, lucky)
  {
    var m := DeductionCompleted(u, o, db.orders[o].finalAmount);
    var emitted := Handle(s.db, m, turn.luck).emitted;
    var t := Turned(s, turn);
    if turn.luck.paymentId !in db.payments {
      DeductionPaysExactly(db, u, o, turn.luck.paymentId);
    }
    if turn.luck.fails || !Can(s.db, Pay(u, o, turn.luck.paymentId)) {
      MainGone(s.pending, turn.i, m, emitted, o);
      assert emitted[1] in emitted;
    } else {
      assert PaidWith(db, t, u, o, turn.luck.paymentId);
      PaymentKeepsOrders(s.db, Pay(u, o, turn.luck.paymentId));
      assert emitted == [PaymentCompleted(o)];
    }
  }

  /** An event besides the main one goes. */
  lemma OtherTurn(db: Db, s: System, turn: Turn, i: nat, m: Event)
    requires Possible(s, turn) && turn.Turn? && MainAt(s.pending, i, m) && turn.i != i
    ensures Turned(s, turn).db == s.db && OneMain(Turned(s, turn).pending, m)
  {
    QuietHandler(s.db, s.pending[turn.i], turn.luck);
    QuietGone(s.pending, i, m, turn.i, Handle(s.db, s.pending[turn.i], turn.luck).emitted);
  }

  lemma AskedTurn(db: Db, s: System, turn: Turn, u: nat, o: nat, written: bool, lucky: bool)
    requires Possible(s, turn) && TurnAs(db, s, turn, written, lucky) && Asked(db, s, u, o)
    ensures InSaga(db, Turned(s, turn), u, o, written, lucky)
  {
    var m :| Asking(db, m, u, o) && OneMain(s.pending, m);
    var i: nat :| MainAt(s.pending, i, m);
    if turn.i != i {
      OtherTurn(db, s, turn, i, m);
    } else if m.OrderCreated? {
      CreationTurn(db, s, turn, u, o, written, lucky, m);
    } else if m.PaymentInitiated? {
      InitiationTurn(db, s, turn, u, o, written, lucky);
    } else {
      DeductionTurn(db, s, turn, u, o, written, lucky);
    }
  }

  lemma WithdrawnTurn(db: Db, s: System, turn: Turn, u: nat, o: nat, written: bool, lucky: bool)
    requires Possible(s, turn) && TurnAs(db, s, turn, written, lucky) && Withdrawn(db, s, u, o)
    ensures InSaga(db, Turned(s, turn), u, o, written, lucky)
  {
    var m := DeductionCompleted(u, o, db.orders[o].finalAmount);
    var i: nat :| MainAt(s.pending, i, m);
    if turn.i != i {
      OtherTurn(db, s, turn, i, m);
    } else {
      PaymentTurn(db, s, turn, u, o, written, lucky);
    }
  }

  lemma OfPaidHandler(db: Db, e: Event, luck: Luck, o: nat)
    requires OfPaid(e, o)
    ensures Handle(db, e, luck).db.payments == db.payments
    ensures forall x | x in Handle(db, e, luck).emitted :: OfPaid(x, o)
    ensures o in db.orders && db.orders[o].status == OrderStatus.PAID ==>
              o in Handle(db, e, luck).db.orders && Handle(db, e, luck).db.orders[o].status == OrderStatus.PAID
  {
  }

  lemma PaidTurn(db: Db, s: System, turn: Turn, u: nat, o: nat)
    requires Possible(s, turn) && turn.Turn? && PaidFor(db, s, u, o)
    ensures PaidFor(db, Turned(s, turn), u, o)
  {
    var e := s.pending[turn.i];
    OfPaidHandler(s.db, e, turn.luck, o);
    HandlerKeepsOrders(s.db, e, turn.luck);
    var p :| PaidWith(db, s, u, o, p);
    assert PaidWith(db, Turned(s, turn), u, o, p);
    assert forall x | x in Turned(s, turn).pending :: x in s.pending || x in Handle(s.db, e, turn.luck).emitted;
  }

  lemma OfFailedHandler(db: Db, e: Event, luck: Luck, o: nat)
    requires OfFailed(e, o)
    ensures var db' := Handle(db, e, luck).db;
            && db'.payments == db.payments && db'.orders.Keys == db.orders.Keys
            && (CancelledIn(db, o) ==> CancelledIn(db', o))
            && (e == PaymentFailed(Some(o)) && !luck.fails && o in db.orders ==> CancelledIn(db', o))
    ensures forall x | x in Handle(db, e, luck).emitted :: OfFailed(x, o)
  {
  }

  lemma UnpaidTurn(db: Db, s: System, turn: Turn, u: nat, o: nat, written: bool, lucky: bool)
    requires Possible(s, turn) && TurnAs(db, s, turn, written, lucky) && Unpaid(db, s, u, o, written, lucky)
    ensures Unpaid(db, Turned(s, turn), u, o, written, lucky)
  {
    var e, t := s.pending[turn.i], Turned(s, turn);
    OfFailedHandler(s.db, e, turn.luck, o);
    assert forall x | x in t.pending :: x in s.pending || x in Handle(s.db, e, turn.luck).emitted;
    if PaymentFailed(Some(o)) in s.pending && e != PaymentFailed(Some(o)) {
      var k :| 0 <= k < |s.pending| && s.pending[k] == PaymentFailed(Some(o));
      assert t.pending[if k < turn.i then k else k - 1] == PaymentFailed(Some(o));
    }
  }

  lemma SagaTurn(db: Db, s: System, turn: Turn, u: nat, o: nat, written: bool, lucky: bool)
    requires Possible(s, turn) && TurnAs(db, s, turn, written, lucky) && InSaga(db, s, u, o, written, lucky)
    ensures InSaga(db, Turned(s, turn), u, o, written, lucky)
  {
    if Asked(db, s, u, o) {
      AskedTurn(db, s, turn, u, o, written, lucky);
    } else if Withdrawn(db, s, u, o) {
      WithdrawnTurn(db, s, turn, u, o, written, lucky);
    } else if PaidFor(db, s, u, o) {
      PaidTurn(db, s, turn, u, o);
    } else {
      UnpaidTurn(db, s, turn, u, o, written, lucky);
    }
  }

  ghost predicate TurnsAs(db: Db, s: System, turns: seq<Turn>, written: bool, lucky: bool)
    requires Execution(s, turns)
    decreases |turns|
  {
    turns == [] ||
    (TurnAs(db, s, turns[0], written, lucky) && TurnsAs(db, Turned(s, turns[0]), turns[1..], written, lucky))
  }

  lemma {:induction false} SagaStages(db: Db, s: System, turns: seq<Turn>, u: nat, o: nat, written: bool, lucky: bool)
    requires InSaga(db, s, u, o, written, lucky) && Execution(s, turns) && TurnsAs(db, s, turns, written, lucky)
    ensures InSaga(db, Final(s, turns), u, o, written, lucky)
    decreases |turns|
  {
    if turns != [] {
      SagaTurn(db, s, turns[0], u, o, written, lucky);
      SagaStages(db, Turned(s, turns[0]), turns[1..], u, o, written, lucky);
    }
  }

  lemma {:induction false} LuckyTurnsAs(db: Db, s: System, turns: seq<Turn>)
    requires Execution(s, turns) && AllLucky(db, turns)
    ensures TurnsAs(db, s, turns, true, true)
    decreases |turns|
  {
    if turns != [] {
      assert LuckyTurn(db, turns[0]);
      LuckyTurnsAs(db, Turned(s, turns[0]), turns[1..]);
    }
  }

  /** A saga begins. */
  function Started(db: Db, first: Event): System {
    System(db, [first], [], [], [])
  }

  lemma StartedInSaga(db: Db, first: Event, u: nat, o: nat, written: bool, lucky: bool)
    requires Begins(first, u, o)
    ensures InSaga(db, Started(db, first), u, o, written, lucky)
  {
    assert MainAt([first], 0, first);
    assert Asking(db, first, u, o) && OneMain([first], first);
  }

  // ---------------------------------------------------------------- how a saga ends

  ghost predicate IsPaid(db: Db, o: nat) {
    HasPayment(db, o, PaymentStatus.COMPLETED)
  }

  lemma PaidForIsPaid(db: Db, s: System, u: nat, o: nat)
    requires PaidFor(db, s, u, o)
    ensures IsPaid(s.db, o)
  {
    var p :| PaidWith(db, s, u, o, p);
    assert p in s.db.payments && s.db.payments[p].orderId == o;
  }

  lemma StillAsking(db: Db, s: System, u: nat, o: nat)
    requires Asked(db, s, u, o) || Withdrawn(db, s, u, o)
    ensures !Complete(s)
  {
    if Asked(db, s, u, o) {
      var m :| Asking(db, m, u, o) && OneMain(s.pending, m);
      var i: nat :| MainAt(s.pending, i, m);
      assert s.pending[i] in s.pending && Rank(s.pending[i]) > 0;
    } else {
      var i: nat :| MainAt(s.pending, i, DeductionCompleted(u, o, db.orders[o].finalAmount));
      assert s.pending[i] in s.pending && Rank(s.pending[i]) > 0;
    }
  }

  /** Whatever fails on the way and in whatever order its events are dispatched: once the saga of an unpaid order has
      come to its end, the order is PAID with one payment, for which stock and balance sufficed, or CANCELLED without
      one, as long as no writing of that status fails. */
  lemma SagaSettles(db: Db, first: Event, turns: seq<Turn>, u: nat, o: nat)
    requires Begins(first, u, o) && o in db.orders && !IsPaid(db, o)
    requires Execution(Started(db, first), turns) && TurnsAs(db, Started(db, first), turns, true, false)
    requires Complete(Final(Started(db, first), turns))
    ensures var t := Final(Started(db, first), turns);
            && o in t.db.orders
            && if IsPaid(t.db, o) then t.db.orders[o].status == OrderStatus.PAID && PayableBySaga(db, u, o)
               else t.db.orders[o].status == OrderStatus.CANCELLED && t.db.payments == db.payments
  {
    var t := Final(Started(db, first), turns);
    StartedInSaga(db, first, u, o, true, false);
    SagaStages(db, Started(db, first), turns, u, o, true, false);
    EndOfSaga(db, t, u, o, false);
  }

  lemma EndOfSaga(db: Db, t: System, u: nat, o: nat, lucky: bool)
    requires o in db.orders && !IsPaid(db, o) && InSaga(db, t, u, o, true, lucky) && Complete(t)
    ensures o in t.db.orders
    ensures if IsPaid(t.db, o) then PaidFor(db, t, u, o)
            else CancelledIn(t.db, o) && t.db.payments == db.payments && (lucky ==> !PayableBySaga(db, u, o))
  {
    if PaidFor(db, t, u, o) {
      PaidForIsPaid(db, t, u, o);
    } else if Unpaid(db, t, u, o, true, lucky) {
      assert PaymentFailed(Some(o)) !in t.pending;
    } else {
      StillAsking(db, t, u, o);
    }
  }

  /** A saga in which nothing fails, whether it begins with the order or with the request for payment, ends with the
      order paid exactly when the stock covers it and the balance covers twice its total; otherwise CANCELLED. */
  lemma SagaPaysExactly(db: Db, first: Event, turns: seq<Turn>, u: nat, o: nat)
    requires Begins(first, u, o) && o in db.orders && !IsPaid(db, o)
    requires Execution(Started(db, first), turns) && AllLucky(db, turns) && Complete(Final(Started(db, first), turns))
    ensures var t := Final(Started(db, first), turns);
            && (IsPaid(t.db, o) <==> PayableBySaga(db, u, o))
            && o in t.db.orders
            && t.db.orders[o].status == if PayableBySaga(db, u, o) then OrderStatus.PAID else OrderStatus.CANCELLED
  {
    LuckyTurnsAs(db, Started(db, first), turns);
    StartedInSaga(db, first, u, o, true, true);
    SagaStages(db, Started(db, first), turns, u, o, true, true);
    EndOfSaga(db, Final(Started(db, first), turns), u, o, true);
  }

  // ---------------------------------------------------------------- everything is taken twice

  ghost predicate NothingLost(s: System) {
    s.slipped == [] && s.dropped == []
  }

  lemma LuckyLosesNothing(s: System, turn: Turn)
    requires Possible(s, turn) && turn.Turn? && Fortunate(turn.luck) && NothingLost(s)
    ensures NothingLost(Turned(s, turn))
  {
  }

  /** Nothing that was asked for exceeds the stock left; `PaidFor` says what else is pending. */
  ghost predicate Supplied(s: System, o: nat) {
    && SystemOk(s) && o in s.db.orders && NothingLost(s)
    && (forall e | e in s.pending :: Quiet(e) || e == PaymentCompleted(o) || Serves(s.db.orders[o].items, e))
    && forall v | Wanted(s.db.orders[o].items, v) ::
         Stock(v) in s.db.rows && StillOwed(s, Stock(v)) <= s.db.rows[Stock(v)]
  }

  predicate Wanted(items: seq<Item>, v: nat) {
    exists k :: 0 <= k < |items| && items[k].variantId == v
  }

  /** A stock update for one of the items. */
  predicate Serves(items: seq<Item>, e: Event) {
    e.StockUpdate? && e.decrease && Wanted(items, e.variantId)
  }

  lemma {:induction false} OwedAtLeast(events: seq<Event>, orders: map<nat, Order>, i: nat, r: Row)
    requires i < |events| && forall e | e in events :: Owed(orders, e, r) >= 0
    ensures SumOf(events, OwedOf(orders, r)) >= Owed(orders, events[i], r)
    decreases |events|
  {
    var n := |events| - 1;
    OwedNonNegative(events[..n], orders, r);
    if i < n {
      OwedAtLeast(events[..n], orders, i, r);
    }
  }

  lemma {:induction false} OwedNonNegative(events: seq<Event>, orders: map<nat, Order>, r: Row)
    requires forall e | e in events :: Owed(orders, e, r) >= 0
    ensures SumOf(events, OwedOf(orders, r)) >= 0
    decreases |events|
  {
    if events != [] {
      OwedNonNegative(events[..|events| - 1], orders, r);
    }
  }

  /** What is owed, and what is there, go down together. */
  lemma OwedAgainstHeld(s: System, turn: Turn, o: nat, r: Row)
    requires Possible(s, turn) && turn.Turn? && Fortunate(turn.luck) && Supplied(s, o) && r.Stock?
    requires forall e | e in Turned(s, turn).pending :: Transit(e, r) == 0
    ensures StillOwed(Turned(s, turn), r) - Held(Turned(s, turn).db.rows, r) == StillOwed(s, r) - Held(s.db.rows, r)
  {
    var e := s.pending[turn.i];
    assert e in s.pending;
    LuckyLosesNothing(s, turn);
    TurnAccounts(s, turn, r);
    OnlyPaymentsSpend(s.db, e, turn.luck, r);
    NothingInTransit(s.pending, TransitOf(r));
    NothingInTransit(Turned(s, turn).pending, TransitOf(r));
  }

  /** An update finds enough. */
  lemma UpdateFinds(s: System, i: nat, o: nat)
    requires Supplied(s, o) && i < |s.pending| && Serves(s.db.orders[o].items, s.pending[i])
    ensures s.pending[i].quantity <= s.db.rows[Stock(s.pending[i].variantId)]
  {
    var r := Stock(s.pending[i].variantId);
    forall e | e in s.pending ensures Owed(s.db.orders, e, r) >= 0 {
      if e == PaymentCompleted(o) {
        DemandNonNegative(ItemTakes(s.db.orders[o].items), r);
      }
    }
    OwedAtLeast(s.pending, s.db.orders, i, r);
  }

  /** So a dispatch finds what it needs, and leaves only such events again. */
  lemma SuppliedEvents(s: System, i: nat, luck: Luck, o: nat)
    requires Supplied(s, o) && Dispatchable(s, i) && Fortunate(luck)
    ensures var after := Handle(s.db, s.pending[i], luck);
            && after.db.rows.Keys == s.db.rows.Keys
            && forall e | e in after.emitted ::
                 Quiet(e) || e == PaymentCompleted(o) || Serves(s.db.orders[o].items, e)
  {
    var e := s.pending[i];
    if Serves(s.db.orders[o].items, e) {
      UpdateFinds(s, i, o);
    } else if e == PaymentCompleted(o) {
      var items := s.db.orders[o].items;
      forall x | x in UpdatesOf(items) ensures Serves(items, x) {
        var k :| 0 <= k < |items| && x == UpdatesOf(items)[k];
        assert items[k].variantId == x.variantId;
      }
    } else {
      QuietHandler(s.db, e, luck);
    }
  }

  lemma SuppliedTurn(s: System, turn: Turn, o: nat)
    requires Supplied(s, o) && Possible(s, turn) && turn.Turn? && Fortunate(turn.luck)
    ensures Supplied(Turned(s, turn), o)
  {
    var e, t := s.pending[turn.i], Turned(s, turn);
    LuckyLosesNothing(s, turn);
    SuppliedEvents(s, turn.i, turn.luck, o);
    HandlerKeepsOrders(s.db, e, turn.luck);
    TurnAccounts(s, turn, Stock(0));
    assert forall x | x in t.pending :: x in s.pending || x in Handle(s.db, e, turn.luck).emitted;
    assert t.db.orders[o].items == s.db.orders[o].items;
    forall v | Wanted(t.db.orders[o].items, v)
      ensures Stock(v) in t.db.rows && StillOwed(t, Stock(v)) <= t.db.rows[Stock(v)]
    {
      OwedAgainstHeld(s, turn, o, Stock(v));
    }
  }

  lemma WantedDemand(db: Db, u: nat, o: nat, v: nat)
    requires CoveredTwice(db, u, o) && Wanted(db.orders[o].items, v)
    ensures Stock(v) in db.rows && 2 * Demand(ItemTakes(db.orders[o].items), Stock(v)) <= db.rows[Stock(v)]
  {
    var items := db.orders[o].items;
    var k :| 0 <= k < |items| && items[k].variantId == v;
    assert ItemTakes(items)[k] in ItemTakes(items);
  }

  /** The payment leaves as much stock as its completion is going to ask for. */
  lemma StockLeft(db: Db, u: nat, o: nat, p: nat, v: nat)
    requires CoveredTwice(db, u, o) && p !in db.payments && Wanted(db.orders[o].items, v)
    ensures Can(db, Deduct(u, db.orders[o].finalAmount)) && Can(Deducted(db, u, o), Pay(u, o, p))
    ensures var paid := After(Deducted(db, u, o), Pay(u, o, p));
            && Stock(v) in paid.rows
            && Demand(ItemTakes(db.orders[o].items), Stock(v)) <= paid.rows[Stock(v)]
  {
    WantedDemand(db, u, o, v);
    DeductionPaysExactly(db, u, o, p);
    PaidRow(Deducted(db, u, o), Pay(u, o, p), Stock(v));
    TakesDemand(db.orders[o], Stock(v));
  }

  lemma HandlerPays(db: Db, u: nat, o: nat, luck: Luck)
    requires PayableBySaga(db, u, o) && Fortunate(luck) && luck.paymentId !in db.payments
    ensures Can(Deducted(db, u, o), Pay(u, o, luck.paymentId))
    ensures var paid := Handle(Deducted(db, u, o), DeductionCompleted(u, o, db.orders[o].finalAmount), luck);
            paid.db == After(Deducted(db, u, o), Pay(u, o, luck.paymentId)) && paid.emitted == [PaymentCompleted(o)]
  {
    DeductionPaysExactly(db, u, o, luck.paymentId);
  }

  /** The payment's handler, when it pays. */
  lemma PaymentPays(db: Db, s: System, turn: Turn, u: nat, o: nat)
    requires CoveredTwice(db, u, o) && Withdrawn(db, s, u, o) && Possible(s, turn) && LuckyTurn(db, turn)
    requires MainAt(s.pending, turn.i, DeductionCompleted(u, o, db.orders[o].finalAmount))
    ensures Can(Deducted(db, u, o), Pay(u, o, turn.luck.paymentId))
    ensures Turned(s, turn).db == After(Deducted(db, u, o), Pay(u, o, turn.luck.paymentId))
    ensures OneMain(Turned(s, turn).pending, PaymentCompleted(o))
  {
    HandlerPays(db, u, o, turn.luck);
    MainFollowed(s.pending, turn.i, DeductionCompleted(u, o, db.orders[o].finalAmount), [PaymentCompleted(o)], 0,
                 PaymentCompleted(o));
  }

  lemma CompletionOwes(t: System, o: nat, r: Row)
    requires OneMain(t.pending, PaymentCompleted(o)) && o in t.db.orders
    ensures StillOwed(t, r) == Demand(ItemTakes(t.db.orders[o].items), r)
  {
    var i: nat :| MainAt(t.pending, i, PaymentCompleted(o));
    SumOfMain(t.pending, i, PaymentCompleted(o), OwedOf(t.db.orders, r));
  }

  lemma PaymentSupplies(db: Db, s: System, turn: Turn, u: nat, o: nat)
    requires Coherent(db) && CoveredTwice(db, u, o) && Withdrawn(db, s, u, o) && SystemOk(s) && NothingLost(s)
    requires Possible(s, turn) && LuckyTurn(db, turn)
    requires MainAt(s.pending, turn.i, DeductionCompleted(u, o, db.orders[o].finalAmount))
    ensures Supplied(Turned(s, turn), o)
  {
    var t, items := Turned(s, turn), db.orders[o].items;
    PaymentPays(db, s, turn, u, o);
    LuckyLosesNothing(s, turn);
    TurnAccounts(s, turn, Stock(0));
    assert t.db.orders[o].items == items;
    forall v | Wanted(items, v) ensures Stock(v) in t.db.rows && StillOwed(t, Stock(v)) <= t.db.rows[Stock(v)] {
      CompletionOwes(t, o, Stock(v));
      StockLeft(db, u, o, turn.luck.paymentId, v);
    }
  }

  ghost predicate SuppliedOncePaid(db: Db, s: System, u: nat, o: nat) {
    SystemOk(s) && NothingLost(s) && (PaidFor(db, s, u, o) ==> Supplied(s, o))
  }

  lemma SuppliedOncePaidTurn(db: Db, s: System, turn: Turn, u: nat, o: nat)
    requires Coherent(db) && !IsPaid(db, o) && CoveredTwice(db, u, o)
    requires InSaga(db, s, u, o, true, true) && SuppliedOncePaid(db, s, u, o)
    requires Possible(s, turn) && LuckyTurn(db, turn)
    ensures SuppliedOncePaid(db, Turned(s, turn), u, o)
  {
    var t := Turned(s, turn);
    TurnAccounts(s, turn, Stock(0));
    LuckyLosesNothing(s, turn);
    if PaidFor(db, s, u, o) {
      SuppliedTurn(s, turn, o);
    } else if Withdrawn(db, s, u, o) && MainAt(s.pending, turn.i, DeductionCompleted(u, o, db.orders[o].finalAmount)) {
      PaymentSupplies(db, s, turn, u, o);
    } else {
      NotPaidYet(db, s, turn, u, o);
    }
  }

  /** Only the main event of a saga that has deducted can pay. */
  lemma NotPaidYet(db: Db, s: System, turn: Turn, u: nat, o: nat)
    requires !IsPaid(db, o) && Possible(s, turn) && LuckyTurn(db, turn)
    requires Asked(db, s, u, o) || Withdrawn(db, s, u, o)
    requires Withdrawn(db, s, u, o) ==>
               !MainAt(s.pending, turn.i, DeductionCompleted(u, o, db.orders[o].finalAmount))
    ensures !PaidFor(db, Turned(s, turn), u, o)
  {
    var t := Turned(s, turn);
    if Withdrawn(db, s, u, o) {
      var i: nat :| MainAt(s.pending, i, DeductionCompleted(u, o, db.orders[o].finalAmount));
      QuietHandler(s.db, s.pending[turn.i], turn.luck);
    } else {
      var m :| Asking(db, m, u, o) && OneMain(s.pending, m);
      var i: nat :| MainAt(s.pending, i, m);
      if turn.i != i {
        QuietHandler(s.db, s.pending[turn.i], turn.luck);
      }
    }
    assert t.db.payments == db.payments;
  }

  lemma {:induction false} SuppliedAtTheEnd(db: Db, s: System, turns: seq<Turn>, u: nat, o: nat)
    requires Coherent(db) && !IsPaid(db, o) && CoveredTwice(db, u, o)
    requires InSaga(db, s, u, o, true, true) && SuppliedOncePaid(db, s, u, o)
    requires Execution(s, turns) && AllLucky(db, turns)
    ensures SuppliedOncePaid(db, Final(s, turns), u, o)
    decreases |turns|
  {
    if turns != [] {
      assert LuckyTurn(db, turns[0]);
      SuppliedOncePaidTurn(db, s, turns[0], u, o);
      SagaTurn(db, s, turns[0], u, o, true, true);
      SuppliedAtTheEnd(db, Turned(s, turns[0]), turns[1..], u, o);
    }
  }

  /** What the one payment of the order has taken. */
  lemma SpentOnce(db: Db, t: System, u: nat, o: nat, r: Row)
    requires Coherent(db) && PaidFor(db, t, u, o)
    ensures Spent(t.db, r) == Spent(db, r) + Demand(Takes(db.orders[o]), r)
  {
    var p :| PaidWith(db, t, u, o, p);
    var d := Demand(Takes(db.orders[o]), r);
    forall q | q in db.payments
      ensures PaymentDemand(t.db, t.db.payments[q], r) == PaymentDemand(db, db.payments[q], r)
    {
      assert Takes(t.db.orders[db.payments[q].orderId]) == Takes(db.orders[db.payments[q].orderId]);
    }
    assert Takes(t.db.orders[o]) == Takes(db.orders[o]);
    assert Spending(t.db, r) == Spending(db, r)[p := d];
    Sums.TotalUpdate(Spending(db, r), p, d);
  }

  ghost predicate OnlyNotices(events: seq<Event>) {
    forall e | e in events :: e.Notice?
  }

  /** A saga in which nothing fails, of an order that stock and balance cover twice, ends with the order paid, with
      nothing but notices left, and with everything taken twice, money and stock: in whatever order its events are
      dispatched, and whether it begins with the order or with the request for payment. */
  lemma PayingSaga(db: Db, first: Event, turns: seq<Turn>, u: nat, o: nat)
    requires Coherent(db) && Begins(first, u, o) && !IsPaid(db, o) && CoveredTwice(db, u, o)
    requires Execution(Started(db, first), turns) && AllLucky(db, turns) && Complete(Final(Started(db, first), turns))
    ensures var t := Final(Started(db, first), turns);
            && IsPaid(t.db, o) && OnlyNotices(t.pending)
            && forall r :: Held(db.rows, r) - Held(t.db.rows, r) == 2 * Demand(Takes(db.orders[o]), r)
  {
    var t := Final(Started(db, first), turns);
    PayingSagaEnds(db, first, turns, u, o);
    forall r ensures Held(db.rows, r) - Held(t.db.rows, r) == 2 * Demand(Takes(db.orders[o]), r) {
      TakenTwice(db, first, turns, u, o, r);
    }
  }

  lemma PayingSagaEnds(db: Db, first: Event, turns: seq<Turn>, u: nat, o: nat)
    requires Coherent(db) && Begins(first, u, o) && !IsPaid(db, o) && CoveredTwice(db, u, o)
    requires Execution(Started(db, first), turns) && AllLucky(db, turns) && Complete(Final(Started(db, first), turns))
    ensures var t := Final(Started(db, first), turns);
            && PaidFor(db, t, u, o) && IsPaid(t.db, o) && NothingLost(t) && OnlyNotices(t.pending)
  {
    var s := Started(db, first);
    StartedInSaga(db, first, u, o, true, true);
    SagaPaysExactly(db, first, turns, u, o);
    LuckyTurnsAs(db, s, turns);
    SagaStages(db, s, turns, u, o, true, true);
    EndOfSaga(db, Final(s, turns), u, o, true);
    SuppliedAtTheEnd(db, s, turns, u, o);
    SuppliedEnds(Final(s, turns), o);
  }

  lemma SuppliedEnds(t: System, o: nat)
    requires Supplied(t, o) && Complete(t)
    ensures OnlyNotices(t.pending)
  {
  }

  lemma TakenTwice(db: Db, first: Event, turns: seq<Turn>, u: nat, o: nat, r: Row)
    requires Coherent(db) && Begins(first, u, o)
    requires Execution(Started(db, first), turns) && NothingDirect(turns)
    requires var t := Final(Started(db, first), turns);
             PaidFor(db, t, u, o) && NothingLost(t) && OnlyNotices(t.pending)
    ensures Held(db.rows, r) - Held(Final(Started(db, first), turns).db.rows, r) == 2 * Demand(Takes(db.orders[o]), r)
  {
    SpentOnce(db, Final(Started(db, first), turns), u, o, r);
    SuccessfulSagaTakesTwice(db, [first], turns, r);
    NothingBrought(Started(db, first), turns, r);
  }

  /** Such a saga exists for every order, however it begins. */
  lemma SomeSaga(db: Db, first: Event, p: nat) returns (turns: seq<Turn>)
    requires p !in db.payments
    ensures Execution(Started(db, first), turns) && AllLucky(db, turns) && Complete(Final(Started(db, first), turns))
  {
    turns := EndsWell(Started(db, first), db, p);
  }
}
