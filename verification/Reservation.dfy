/** The item loop of a payment: checking and decrementing one item after another. */
module Reservation {
  import opened Shop

  /** Later items can only add to the demand of earlier ones. */
  lemma DemandPrefix(ts: seq<Take>, k: nat, r: Row)
    requires k <= |ts|
    requires forall t | t in ts :: t.amount >= 0
    ensures Demand(ts[..k], r) <= Demand(ts, r)
  {
    assert ts == ts[..k] + ts[k..];
    DemandConcat(ts[..k], ts[k..], r);
    DemandNonNegative(ts[k..], r);
  }

  /** One more check succeeds exactly when the summed demand up to and including it is covered. */
  lemma AffordableExtend(rows: map<Row, int>, ts: seq<Take>, k: nat)
    requires k < |ts|
    requires forall t | t in ts :: t.amount >= 0
    requires Affordable(rows, ts[..k])
    ensures Affordable(rows, ts[..k + 1]) <==>
            ts[k].row in rows && ts[k].amount <= Lowered(rows, ts[..k])[ts[k].row]
    ensures !Affordable(rows, ts[..k + 1]) ==> !Affordable(rows, ts)
  {
    var next := ts[..k + 1];
    assert next[..k] == ts[..k] && next[k] == ts[k];
    forall t | t in next && t.row in rows && t.row != ts[k].row
      ensures Demand(next, t.row) <= rows[t.row]
    {
      assert t in ts[..k];
    }
    if !Affordable(rows, next) {
      var t :| t in next && !(t.row in rows && Demand(next, t.row) <= rows[t.row]);
      assert t in ts;
      DemandPrefix(ts, k + 1, t.row);
    }
  }

  lemma Without(ts: seq<Take>, i: nat, r: Row)
    requires i < |ts|
    ensures multiset(ts[..i] + ts[i + 1..]) == multiset(ts) - multiset{ts[i]}
    ensures Demand(ts, r) == Demand(ts[..i] + ts[i + 1..], r) + if ts[i].row == r then ts[i].amount else 0
  {
    assert ts == ts[..i + 1] + ts[i + 1..] && ts[..i + 1] == ts[..i] + [ts[i]];
    assert multiset(ts) == multiset(ts[..i]) + multiset{ts[i]} + multiset(ts[i + 1..]);
    DemandConcat(ts[..i + 1], ts[i + 1..], r);
    DemandConcat(ts[..i], ts[i + 1..], r);
    assert ts[..i + 1][..i] == ts[..i];
  }

  lemma {:induction false} DemandPermutation(a: seq<Take>, b: seq<Take>, r: Row)
    requires multiset(a) == multiset(b)
    ensures Demand(a, r) == Demand(b, r)
    decreases |a|
  {
    if a == [] {
      assert |multiset(b)| == |b|;
    } else {
      var n := |a| - 1;
      assert a[n] in multiset(b);
      var i :| 0 <= i < |b| && b[i] == a[n];
      assert a[..n] + a[n + 1..] == a[..n];
      Without(a, n, r);
      Without(b, i, r);
      DemandPermutation(a[..n], b[..i] + b[i + 1..], r);
    }
  }

  /** Neither the success of a payment nor the stock it leaves depends on the order of the items. */
  lemma ItemOrderIrrelevant(rows: map<Row, int>, a: seq<Take>, b: seq<Take>)
    requires multiset(a) == multiset(b)
    ensures Affordable(rows, a) <==> Affordable(rows, b)
    ensures Lowered(rows, a) == Lowered(rows, b)
  {
    forall r ensures Demand(a, r) == Demand(b, r) {
      DemandPermutation(a, b, r);
    }
    assert forall t :: (t in a) == (t in multiset(a)) && (t in b) == (t in multiset(b));
  }

  /** The check of `createOrder`: each item on its own against the stock. */
  predicate EachCovered(rows: map<Row, int>, items: seq<Item>) {
    forall item | item in items :: Stock(item.variantId) in rows && item.quantity <= rows[Stock(item.variantId)]
  }

  predicate DistinctVariants(items: seq<Item>) {
    forall i, j | 0 <= i < j < |items| :: items[i].variantId != items[j].variantId
  }

  lemma DemandAtLeast(items: seq<Item>, i: nat)
    requires i < |items|
    ensures Demand(ItemTakes(items), Stock(items[i].variantId)) >= items[i].quantity
  {
    var ts := ItemTakes(items);
    var r := Stock(items[i].variantId);
    assert ts[..i + 1][..i] == ts[..i];
    DemandNonNegative(ts[..i], r);
    DemandPrefix(ts, i + 1, r);
  }

  lemma DemandOfBoth(items: seq<Item>, i: nat, j: nat)
    requires i < j < |items| && items[i].variantId == items[j].variantId
    ensures Demand(ItemTakes(items), Stock(items[i].variantId)) >= items[i].quantity + items[j].quantity
  {
    var ts := ItemTakes(items);
    var r := Stock(items[i].variantId);
    assert ItemTakes(items[..j]) == ts[..j];
    DemandAtLeast(items[..j], i);
    assert ts[..j + 1][..j] == ts[..j];
    DemandPrefix(ts, j + 1, r);
  }

  lemma DemandOfOne(items: seq<Item>, i: nat)
    requires i < |items| && DistinctVariants(items)
    ensures Demand(ItemTakes(items), Stock(items[i].variantId)) == items[i].quantity
  {
    var ts := ItemTakes(items);
    var r := Stock(items[i].variantId);
    assert ts == ts[..i] + [ts[i]] + ts[i + 1..];
    DemandElsewhere(ts[..i], r);
    DemandElsewhere(ts[i + 1..], r);
    DemandConcat(ts[..i], [ts[i]], r);
    DemandConcat(ts[..i] + [ts[i]], ts[i + 1..], r);
    assert [ts[i]][..0] == [];
  }

  /** What a payment can take, `createOrder` would have accepted. */
  lemma AffordableImpliesCovered(rows: map<Row, int>, items: seq<Item>)
    requires Affordable(rows, ItemTakes(items))
    ensures EachCovered(rows, items)
  {
    forall i | 0 <= i < |items|
      ensures Stock(items[i].variantId) in rows && items[i].quantity <= rows[Stock(items[i].variantId)]
    {
      assert ItemTakes(items)[i] in ItemTakes(items);
      DemandAtLeast(items, i);
    }
  }

  /** The per-item check of `createOrder` and the summed check of a payment agree on every stock
      exactly when no variant is ordered twice. */
  lemma ChecksAgreeExactly(items: seq<Item>)
    requires forall item | item in items :: item.quantity >= 1
    ensures (forall rows :: EachCovered(rows, items) <==> Affordable(rows, ItemTakes(items))) <==>
            DistinctVariants(items)
  {
    if DistinctVariants(items) {
      forall rows ensures EachCovered(rows, items) <==> Affordable(rows, ItemTakes(items)) {
        if EachCovered(rows, items) {
          forall i | 0 <= i < |items| ensures Demand(ItemTakes(items), Stock(items[i].variantId)) == items[i].quantity {
            DemandOfOne(items, i);
          }
        } else if Affordable(rows, ItemTakes(items)) {
          AffordableImpliesCovered(rows, items);
        }
      }
    } else {
      var i, j :| 0 <= i < j < |items| && items[i].variantId == items[j].variantId;
      DuplicateOverlooked(items, i, j);
    }
  }

  /** With a variant ordered twice, stock one short of the summed demand passes every per-item check. */
  lemma DuplicateOverlooked(items: seq<Item>, i: nat, j: nat)
    requires i < j < |items| && items[i].variantId == items[j].variantId
    requires forall item | item in items :: item.quantity >= 1
    ensures exists rows :: EachCovered(rows, items) && !Affordable(rows, ItemTakes(items))
  {
    var ts := ItemTakes(items);
    var v := items[i].variantId;
    var wanted := set k | 0 <= k < |items| :: Stock(items[k].variantId);
    var rows := map r | r in wanted :: Demand(ts, r) - if r == Stock(v) then 1 else 0;
    forall k | 0 <= k < |items|
      ensures Stock(items[k].variantId) in rows && items[k].quantity <= rows[Stock(items[k].variantId)]
    {
      DemandAtLeast(items, k);
      if items[k].variantId == v {
        if k < i {
          DemandOfBoth(items, k, i);
        } else if i < k {
          DemandOfBoth(items, i, k);
        } else {
          DemandOfBoth(items, i, j);
        }
      }
    }
    assert EachCovered(rows, items);
    assert ts[i] in ts;
    assert !Affordable(rows, ts);
  }

  // ---------------------------------------------------------------- creating an order and paying for it

  /** An order is created exactly when its identifier is new, its user exists, it starts PENDING,
      and each item on its own is in stock. */
  lemma CreatedExactly(db: Db, orderId: nat, order: Order)
    ensures Can(db, CreateOrder(orderId, order)) <==>
            && orderId !in db.orders && order.userId in db.users && order.status == OrderStatus.PENDING
            && EachCovered(db.rows, order.items)
  {
  }

  /** An order without duplicate variants can be paid, once created, exactly when the balance covers its total:
      its creation has seen to the stock. */
  lemma CreatedIsPayable(db: Db, orderId: nat, order: Order, paymentId: nat)
    requires Can(db, CreateOrder(orderId, order)) && paymentId !in db.payments
    requires DistinctVariants(order.items)
    ensures Can(After(db, CreateOrder(orderId, order)), Pay(order.userId, orderId, paymentId)) <==>
            Balance(order.userId) in db.rows && order.finalAmount <= db.rows[Balance(order.userId)]
  {
    TakesAffordable(db.rows, order);
    forall i | 0 <= i < |order.items|
      ensures Demand(ItemTakes(order.items), Stock(order.items[i].variantId)) == order.items[i].quantity
    {
      DemandOfOne(order.items, i);
    }
  }

  /** An order whose items all are in stock together is created, and then can be paid if the balance covers it. */
  lemma PayableIsCreated(db: Db, orderId: nat, order: Order, paymentId: nat)
    requires orderId !in db.orders && order.userId in db.users && order.status == OrderStatus.PENDING
    requires paymentId !in db.payments && Affordable(db.rows, Takes(order))
    ensures Can(db, CreateOrder(orderId, order))
    ensures Can(After(db, CreateOrder(orderId, order)), Pay(order.userId, orderId, paymentId))
  {
    TakesAffordable(db.rows, order);
    AffordableImpliesCovered(db.rows, order.items);
  }
}
