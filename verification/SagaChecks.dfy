/** The stock checks that carts and orders ask for, and what they report. */
module SagaChecks {
  import opened Reservation
  import opened Saga
  import opened SagaRuns
  import opened Shop

  // ---------------------------------------------------------------- what a check reports

  /** A check reports that an item is available exactly when its variant exists with that much stock. */
  lemma CheckReports(db: Db, item: Item, luck: Luck)
    requires !luck.fails
    ensures Handle(db, StockCheck(item), luck).emitted ==
            [StockChecked(Stock(item.variantId) in db.rows && item.quantity <= db.rows[Stock(item.variantId)])]
  {
  }

  /** The checks of an order report everything available exactly when `createOrder` would accept its items. */
  lemma ChecksReportCoverage(db: Db, items: seq<Item>, luck: Luck)
    requires !luck.fails
    ensures (forall x | x in ChecksOf(items) :: Handle(db, x, luck).emitted == [StockChecked(true)]) <==>
            EachCovered(db.rows, items)
  {
    if forall x | x in ChecksOf(items) :: Handle(db, x, luck).emitted == [StockChecked(true)] {
      forall item | item in items ensures InStock(db, item) {
        var k :| 0 <= k < |items| && items[k] == item;
        assert ChecksOf(items)[k] == StockCheck(item) && ChecksOf(items)[k] in ChecksOf(items);
        CheckReports(db, item, luck);
      }
    }
  }

  // ---------------------------------------------------------------- how often an item is checked

  /** How many checks of an item an event still leads to, if nothing fails. */
  function ChecksIn(e: Event, item: Item): int {
    match e
    case StockCheck(x) => if x == item then 1 else 0
    case CartValidation(items) => multiset(items)[item]
    case OrderCreated(_, _, items, _) => multiset(items)[item]
    case _ => 0
  }

  function ChecksFor(item: Item): Event -> int {
    (e: Event) => ChecksIn(e, item)
  }

  lemma {:induction false} ChecksOfAll(items: seq<Item>, item: Item)
    ensures SumOf(ChecksOf(items), ChecksFor(item)) == multiset(items)[item]
    decreases |items|
  {
    if items != [] {
      var n := |items| - 1;
      assert items == items[..n] + [items[n]];
      assert ChecksOf(items)[..n] == ChecksOf(items[..n]);
      ChecksOfAll(items[..n], item);
    }
  }

  lemma {:induction false} ValidationsOfAll(items: seq<Item>, item: Item)
    ensures SumOf(ValidationsOf(items), ChecksFor(item)) == multiset(items)[item]
    decreases |items|
  {
    if items != [] {
      var n := |items| - 1;
      assert items == items[..n] + [items[n]];
      assert ValidationsOf(items)[..n] == ValidationsOf(items[..n]);
      ValidationsOfAll(items[..n], item);
    }
  }

  /** A handler hands on the checks that its event leads to; the check itself is one of them. */
  lemma HandsOnChecks(db: Db, e: Event, luck: Luck, item: Item)
    requires Fortunate(luck) && !e.CartCheckout?
    ensures SumOf(Handle(db, e, luck).emitted, ChecksFor(item)) ==
            ChecksIn(e, item) - if e == StockCheck(item) then 1 else 0
    ensures forall x | x in Handle(db, e, luck).emitted :: !x.CartCheckout?
  {
    match e {
      case CartValidation(items) =>
        ValidationHandsOn(items, item);
      case OrderCreated(userId, order, items, hasCoupon) =>
        OrderHandsOn(items, hasCoupon, PaymentInitiated(userId, order), item);
      case _ =>
        NoMoreChecks(db, e, luck, item);
        NothingInTransit(Handle(db, e, luck).emitted, ChecksFor(item));
    }
  }

  lemma ValidationHandsOn(items: seq<Item>, item: Item)
    ensures SumOf(ChecksOf(items) + [Notice], ChecksFor(item)) == multiset(items)[item]
  {
    ChecksOfAll(items, item);
    SumPlus(ChecksOf(items), Notice, ChecksFor(item));
  }

  lemma OrderHandsOn(items: seq<Item>, hasCoupon: bool, last: Event, item: Item)
    requires last.PaymentInitiated?
    ensures SumOf(ChecksOf(items) + (if hasCoupon then [CouponValidation] else []) + [last], ChecksFor(item)) ==
            multiset(items)[item]
  {
    var coupon := if hasCoupon then [CouponValidation] else [];
    ChecksOfAll(items, item);
    NothingInTransit(coupon, ChecksFor(item));
    SumConcat(ChecksOf(items), coupon, ChecksFor(item));
    SumPlus(ChecksOf(items) + coupon, last, ChecksFor(item));
  }

  lemma NoMoreChecks(db: Db, e: Event, luck: Luck, item: Item)
    requires !e.CartCheckout? && !e.CartValidation? && !e.OrderCreated?
    ensures forall x | x in Handle(db, e, luck).emitted :: ChecksIn(x, item) == 0 && !x.CartCheckout?
  {
  }

  /** How often an execution checks an item. */
  function Checked(s: System, turns: seq<Turn>, item: Item): nat
    requires Execution(s, turns)
    decreases |turns|
  {
    if turns == [] then 0
    else
      (if turns[0].Turn? && s.pending[turns[0].i] == StockCheck(item) then 1 else 0) +
      Checked(Turned(s, turns[0]), turns[1..], item)
  }

  ghost predicate AllFortunate(turns: seq<Turn>) {
    forall turn | turn in turns :: turn.Turn? && Fortunate(turn.luck)
  }

  lemma {:induction false} ChecksCarriedOut(s: System, turns: seq<Turn>, item: Item)
    requires Execution(s, turns) && AllFortunate(turns) && forall e | e in s.pending :: !e.CartCheckout?
    requires Complete(Final(s, turns))
    ensures Checked(s, turns, item) == SumOf(s.pending, ChecksFor(item))
    decreases |turns|
  {
    if turns == [] {
      assert forall e | e in s.pending :: ChecksIn(e, item) == 0;
      NothingInTransit(s.pending, ChecksFor(item));
    } else {
      var i, luck, t := turns[0].i, turns[0].luck, Turned(s, turns[0]);
      var emitted := Handle(s.db, s.pending[i], luck).emitted;
      assert turns[0] in turns && s.pending[i] in s.pending;
      HandsOnChecks(s.db, s.pending[i], luck, item);
      SumReplaced(s.pending, i, emitted, ChecksFor(item));
      assert forall x | x in t.pending :: x in s.pending || x in emitted;
      ChecksCarriedOut(t, turns[1..], item);
    }
  }

  /** A checkout in which nothing fails has each item of the cart checked exactly twice, as often as it is in the cart:
      once for the cart and once for its order. */
  lemma CartCheckedTwice(db: Db, userId: nat, turns: seq<Turn>, item: Item)
    requires Execution(Started(db, CartCheckout(userId)), turns) && AllFortunate(turns)
    requires Complete(Final(Started(db, CartCheckout(userId)), turns))
    ensures turns != []
    ensures Checked(Started(db, CartCheckout(userId)), turns, item) == 2 * multiset(turns[0].luck.cart)[item]
  {
    var s := Started(db, CartCheckout(userId));
    assert s.pending[0] in s.pending && turns[0] in turns;
    CheckoutFansOut(db, userId, turns[0].luck, item);
    FirstTurn(s, turns[0]);
    ChecksCarriedOut(Turned(s, turns[0]), turns[1..], item);
  }

  lemma FirstTurn(s: System, turn: Turn)
    requires |s.pending| == 1 && turn.Turn? && Possible(s, turn)
    ensures Turned(s, turn).pending == Handle(s.db, s.pending[0], turn.luck).emitted
  {
  }

  lemma CheckoutFansOut(db: Db, userId: nat, luck: Luck, item: Item)
    requires Fortunate(luck)
    ensures SumOf(Handle(db, CartCheckout(userId), luck).emitted, ChecksFor(item)) == 2 * multiset(luck.cart)[item]
    ensures forall x | x in Handle(db, CartCheckout(userId), luck).emitted :: !x.CartCheckout?
  {
    if luck.cart == [] {
      SumFew(ChecksFor(item), Notice, Notice);
    } else {
      var order := OrderCreated(userId, None, luck.cart, false);
      assert Handle(db, CartCheckout(userId), luck).emitted == ValidationsOf(luck.cart) + [order];
      ValidationsOfAll(luck.cart, item);
      SumPlus(ValidationsOf(luck.cart), order, ChecksFor(item));
    }
  }

  /** An order's saga has each item of the order checked exactly once, as often as it is in the order. */
  lemma OrderCheckedOnce(db: Db, first: Event, turns: seq<Turn>, item: Item)
    requires first.OrderCreated? && Execution(Started(db, first), turns) && AllFortunate(turns)
    requires Complete(Final(Started(db, first), turns))
    ensures Checked(Started(db, first), turns, item) == multiset(first.items)[item]
  {
    SumFew(ChecksFor(item), first, first);
    ChecksCarriedOut(Started(db, first), turns, item);
  }
}
