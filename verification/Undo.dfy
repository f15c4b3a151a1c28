/** Cancelling a payment undoes it exactly, whatever was committed in between. */
module Undo {
  import opened Shop

  /** A run in which every operation was committed. */
  predicate Committed(db: Db, ops: seq<Op>) {
    ops == [] || (Committed(db, ops[..|ops| - 1]) && Can(Run(db, ops[..|ops| - 1]), ops[|ops| - 1]))
  }

  lemma {:induction false} RunConcat(db: Db, a: seq<Op>, b: seq<Op>)
    ensures Run(db, a + b) == Run(Run(db, a), b)
    ensures Committed(db, a + b) <==> Committed(db, a) && Committed(Run(db, a), b)
    decreases |b|
  {
    if b == [] {
      assert a + b == a;
    } else {
      var n := |b| - 1;
      assert (a + b)[..|a + b| - 1] == a + b[..n];
      RunConcat(db, a, b[..n]);
    }
  }

  lemma RunOne(db: Db, op: Op)
    ensures Run(db, [op]) == Step(db, op)
    ensures Committed(db, [op]) <==> Can(db, op)
  {
    assert [op][..0] == [];
  }

  /** What the payment `p` still keeps away from row `r`: its order's demand, until it is cancelled. */
  function Withheld(db: Db, p: nat, r: Row): int {
    if p in db.payments then PaymentDemand(db, db.payments[p], r) else 0
  }

  /** `db` is `erased` with order `o` paid by `p`, and possibly cancelled again. */
  ghost predicate Differs(db: Db, erased: Db, o: nat, p: nat) {
    && Lifecycle(db)
    && TablesDiffer(db, erased, o, p)
    && RowsDiffer(db, erased, o, p)
  }

  ghost predicate TablesDiffer(db: Db, erased: Db, o: nat, p: nat) {
    && p in db.payments && db.payments[p].orderId == o
    && o in db.orders
    && db.users == erased.users
    && erased.orders == db.orders[o := db.orders[o].(status := OrderStatus.PENDING)]
    && erased.payments == db.payments - {p}
  }

  ghost predicate RowsDiffer(db: Db, erased: Db, o: nat, p: nat)
    requires o in db.orders
  {
    && Known(db.rows, Takes(db.orders[o]))
    && erased.rows.Keys == db.rows.Keys
    && forall r | r in db.rows :: erased.rows[r] == db.rows[r] + Withheld(db, p, r)
  }

  lemma WithheldNonNegative(db: Db, p: nat, r: Row)
    requires p in db.payments && db.payments[p].orderId in db.orders
    requires db.orders[db.payments[p].orderId].finalAmount >= 0
    ensures Withheld(db, p, r) >= 0
  {
    TakesDemand(db.orders[db.payments[p].orderId], r);
  }

  lemma NothingWithheldOutside(db: Db, erased: Db, o: nat, p: nat, r: Row)
    requires TablesDiffer(db, erased, o, p) && RowsDiffer(db, erased, o, p)
    ensures r !in db.rows ==> Withheld(db, p, r) == 0
  {
    if r !in db.rows {
      DemandElsewhere(Takes(db.orders[o]), r);
    }
  }

  /** The operation concerns neither order `o` nor payment `p`. */
  predicate Elsewhere(db: Db, op: Op, o: nat, p: nat) {
    match op
    case CreateOrder(orderId, order) => orderId != o
    case Pay(userId, orderId, paymentId) => orderId != o && paymentId != p
    case Cancel(userId, paymentId) => paymentId != p && paymentId in db.payments && db.payments[paymentId].orderId != o
    case _ => true
  }

  /** Whatever commits after the payment, other than its own cancellation, is about something else. */
  lemma OthersElsewhere(db: Db, erased: Db, o: nat, p: nat, op: Op)
    requires Differs(db, erased, o, p) && Can(db, op)
    requires !(op.Cancel? && op.paymentId == p)
    ensures Elsewhere(db, op, o, p)
  {
    assert op.Pay? ==> op.orderId != o;
  }

  /** What commits with a payment of no negative amount commits without it: there is at least as much of everything. */
  lemma ErasedCan(db: Db, erased: Db, o: nat, p: nat, op: Op)
    requires TablesDiffer(db, erased, o, p) && RowsDiffer(db, erased, o, p)
    requires Can(db, op) && Elsewhere(db, op, o, p) && db.orders[o].finalAmount >= 0
    ensures Can(erased, op)
  {
    forall r | r in db.rows ensures erased.rows[r] >= db.rows[r] {
      WithheldNonNegative(db, p, r);
    }
    if op.Pay? {
      assert erased.orders[op.orderId] == db.orders[op.orderId];
    }
  }

  lemma ErasedPayments(db: Db, erased: Db, o: nat, p: nat, op: Op)
    requires TablesDiffer(db, erased, o, p)
    requires Can(db, op) && Can(erased, op) && Elsewhere(db, op, o, p)
    ensures After(erased, op).payments == After(db, op).payments - {p}
    ensures p in After(db, op).payments && After(db, op).payments[p] == db.payments[p]
  {
  }

  lemma ErasedOrders(db: Db, erased: Db, o: nat, p: nat, op: Op)
    requires TablesDiffer(db, erased, o, p)
    requires Can(db, op) && Can(erased, op) && Elsewhere(db, op, o, p)
    ensures o in After(db, op).orders && After(db, op).orders[o] == db.orders[o]
    ensures After(erased, op).orders == After(db, op).orders[o := db.orders[o].(status := OrderStatus.PENDING)]
  {
  }

  lemma ErasedTables(db: Db, erased: Db, o: nat, p: nat, op: Op)
    requires TablesDiffer(db, erased, o, p)
    requires Can(db, op) && Can(erased, op) && Elsewhere(db, op, o, p)
    ensures TablesDiffer(After(db, op), After(erased, op), o, p)
    ensures After(db, op).payments[p] == db.payments[p]
    ensures After(db, op).orders[o] == db.orders[o]
  {
    ErasedPayments(db, erased, o, p, op);
    ErasedOrders(db, erased, o, p, op);
  }

  lemma ErasedRow(db: Db, erased: Db, o: nat, p: nat, op: Op, r: Row)
    requires TablesDiffer(db, erased, o, p) && RowsDiffer(db, erased, o, p)
    requires Can(db, op) && Can(erased, op) && Elsewhere(db, op, o, p)
    ensures r in After(db, op).rows <==> r in After(erased, op).rows
    ensures r in db.rows ==> r in After(db, op).rows
    ensures Held(After(erased, op).rows, r) == Held(After(db, op).rows, r) + Withheld(db, p, r)
  {
    NothingWithheldOutside(db, erased, o, p, r);
    if !op.CreateOrder? {
      NothingWithheldOutside(db, erased, o, p, Balance(op.userId));
    }
  }

  lemma ErasedStep(db: Db, erased: Db, o: nat, p: nat, op: Op)
    requires Differs(db, erased, o, p) && Can(db, op)
    requires !(op.Cancel? && op.paymentId == p)
    requires db.orders[o].finalAmount >= 0 || Can(erased, op)
    ensures Can(erased, op)
    ensures Differs(After(db, op), After(erased, op), o, p)
    ensures After(db, op).orders[o] == db.orders[o]
  {
    OthersElsewhere(db, erased, o, p, op);
    if db.orders[o].finalAmount >= 0 {
      ErasedCan(db, erased, o, p, op);
    }
    LifecycleStep(db, op);
    ErasedTables(db, erased, o, p, op);
    forall r
      ensures r in After(db, op).rows <==> r in After(erased, op).rows
      ensures r in db.rows ==> r in After(db, op).rows
      ensures Held(After(erased, op).rows, r) == Held(After(db, op).rows, r) + Withheld(db, p, r)
    {
      ErasedRow(db, erased, o, p, op, r);
    }
    RowsDifferFrom(After(db, op), After(erased, op), o, p);
  }

  lemma RowsDifferFrom(db: Db, erased: Db, o: nat, p: nat)
    requires TablesDiffer(db, erased, o, p) && Known(db.rows, Takes(db.orders[o]))
    requires forall r :: r in db.rows <==> r in erased.rows
    requires forall r :: Held(erased.rows, r) == Held(db.rows, r) + Withheld(db, p, r)
    ensures RowsDiffer(db, erased, o, p)
  {
    forall r | r in db.rows ensures erased.rows[r] == db.rows[r] + Withheld(db, p, r) {
      assert Held(erased.rows, r) == Held(db.rows, r) + Withheld(db, p, r);
    }
  }

  /** Nothing turns a payment that exists into a COMPLETED one. */
  lemma CompletedBefore(db: Db, op: Op, p: nat)
    requires Can(db, op) && p in db.payments
    ensures p in After(db, op).payments
    ensures After(db, op).payments[p].status == PaymentStatus.COMPLETED ==>
              db.payments[p].status == PaymentStatus.COMPLETED && !(op.Cancel? && op.paymentId == p)
    ensures db.payments[p].status == PaymentStatus.CANCELLED ==>
              After(db, op).payments[p].status == PaymentStatus.CANCELLED && !(op.Cancel? && op.paymentId == p)
  {
  }

  /** A whole committed run that leaves the status of `p` as it was commits without the payment too. */
  lemma {:induction false} ErasedRun(db: Db, erased: Db, o: nat, p: nat, ops: seq<Op>)
    requires Differs(db, erased, o, p) && Committed(db, ops)
    requires p in Run(db, ops).payments ==> Run(db, ops).payments[p].status == db.payments[p].status
    requires db.orders[o].finalAmount >= 0 || Committed(erased, ops)
    ensures Committed(erased, ops)
    ensures Differs(Run(db, ops), Run(erased, ops), o, p)
    ensures Run(db, ops).orders[o] == db.orders[o]
    ensures Run(db, ops).payments[p].status == db.payments[p].status
    decreases |ops|
  {
    if ops != [] {
      var n := |ops| - 1;
      var db', op := Run(db, ops[..n]), ops[n];
      PaymentStays(db, ops[..n], p);
      CompletedBefore(db', op, p);
      assert db'.payments[p].status == db.payments[p].status;
      ErasedRun(db, erased, o, p, ops[..n]);
      ErasedStep(db', Run(erased, ops[..n]), o, p, op);
    }
  }

  lemma {:induction false} PaymentStays(db: Db, ops: seq<Op>, p: nat)
    requires Lifecycle(db) && p in db.payments && Committed(db, ops)
    ensures p in Run(db, ops).payments
    ensures !Run(db, ops).payments[p].status.PENDING?
    ensures db.payments[p].status == PaymentStatus.CANCELLED ==>
            Run(db, ops).payments[p].status == PaymentStatus.CANCELLED
    decreases |ops|
  {
    if ops != [] {
      var n := |ops| - 1;
      PaymentStays(db, ops[..n], p);
      CompletedBefore(Run(db, ops[..n]), ops[n], p);
    }
  }

  lemma PaidDiffers(db: Db, u: nat, o: nat, p: nat)
    requires Lifecycle(db) && Can(db, Pay(u, o, p))
    ensures Differs(After(db, Pay(u, o, p)), db, o, p)
  {
    var paid := After(db, Pay(u, o, p));
    LifecycleStep(db, Pay(u, o, p));
    assert Takes(paid.orders[o]) == Takes(db.orders[o]);
    assert db.payments == paid.payments - {p};
    assert db.orders == paid.orders[o := paid.orders[o].(status := OrderStatus.PENDING)];
    TakesAffordable(db.rows, db.orders[o]);
  }

  /** Cancelling `p` gives back exactly what it withheld. */
  lemma CancelledRow(db: Db, erased: Db, u: nat, o: nat, p: nat, r: Row)
    requires Coherent(db) && TablesDiffer(db, erased, o, p) && RowsDiffer(db, erased, o, p) && Can(db, Cancel(u, p))
    ensures r in After(db, Cancel(u, p)).rows <==> r in erased.rows
    ensures r in db.rows ==> r in After(db, Cancel(u, p)).rows
    ensures Held(erased.rows, r) == Held(After(db, Cancel(u, p)).rows, r)
  {
    assert Take(Balance(u), db.orders[o].finalAmount) == Takes(db.orders[o])[|db.orders[o].items|];
    assert Balance(u) in db.rows;
    TakesDemand(db.orders[o], r);
  }

  lemma CancelledTables(db: Db, erased: Db, u: nat, o: nat, p: nat)
    requires TablesDiffer(db, erased, o, p) && Can(db, Cancel(u, p))
    ensures TablesDiffer(After(db, Cancel(u, p)), erased, o, p)
    ensures Takes(After(db, Cancel(u, p)).orders[o]) == Takes(db.orders[o])
    ensures forall r :: Withheld(After(db, Cancel(u, p)), p, r) == 0
  {
    var back := After(db, Cancel(u, p));
    assert erased.payments == back.payments - {p};
    assert erased.orders == back.orders[o := back.orders[o].(status := OrderStatus.PENDING)];
  }

  lemma CancelledDiffers(db: Db, erased: Db, u: nat, o: nat, p: nat)
    requires Differs(db, erased, o, p) && Can(db, Cancel(u, p))
    ensures Differs(After(db, Cancel(u, p)), erased, o, p)
  {
    LifecycleStep(db, Cancel(u, p));
    var back := After(db, Cancel(u, p));
    CancelledTables(db, erased, u, o, p);
    forall r
      ensures r in back.rows <==> r in erased.rows
      ensures r in db.rows ==> r in back.rows
      ensures Held(erased.rows, r) == Held(back.rows, r)
    {
      CancelledRow(db, erased, u, o, p, r);
    }
    RowsDifferFrom(back, erased, o, p);
  }

  lemma RunOfParts(db: Db, a: Op, b: seq<Op>, c: Op, d: seq<Op>)
    ensures Run(db, [a] + b + [c] + d) == Run(Step(Run(Step(db, a), b), c), d)
    ensures Committed(db, [a] + b + [c] + d) <==>
            Can(db, a) && Committed(Step(db, a), b) && Can(Run(Step(db, a), b), c)
                && Committed(Step(Run(Step(db, a), b), c), d)
  {
    RunConcat(db, [a] + b + [c], d);
    RunConcat(db, [a] + b, [c]);
    RunConcat(db, [a], b);
    RunOne(db, a);
    RunOne(Run(Step(db, a), b), c);
  }

  /** Erasing a payment together with its later cancellation from a committed run leaves a committed run
      with the same stock for every variant, the same balance for every user, and the same other orders and payments.
      For a negative amount it is up to the rest of the run to commit without what the payment brought in. */
  lemma CancelIsExactUndo(db: Db, u: nat, o: nat, p: nat, between: seq<Op>, after: seq<Op>)
    requires Lifecycle(db) && o in db.orders
    requires db.orders[o].finalAmount >= 0 || Committed(db, between + after)
    requires Committed(db, [Pay(u, o, p)] + between + [Cancel(u, p)] + after)
    ensures Committed(db, between + after)
    ensures var with := Run(db, [Pay(u, o, p)] + between + [Cancel(u, p)] + after);
            var without := Run(db, between + after);
            && without.rows == with.rows
            && o in with.orders && without.orders == with.orders[o := with.orders[o].(status := OrderStatus.PENDING)]
            && without.payments == with.payments - {p}
  {
    RunOfParts(db, Pay(u, o, p), between, Cancel(u, p), after);
    RunConcat(db, between, after);
    CancelErased(db, u, o, p, between, after);
  }

  ghost predicate ErasedFrom(with: Db, without: Db, o: nat, p: nat) {
    && without.rows == with.rows
    && o in with.orders && without.orders == with.orders[o := with.orders[o].(status := OrderStatus.PENDING)]
    && without.payments == with.payments - {p}
  }

  lemma NothingWithheld(db: Db, erased: Db, o: nat, p: nat)
    requires Differs(db, erased, o, p) && db.payments[p].status == PaymentStatus.CANCELLED
    ensures ErasedFrom(db, erased, o, p)
  {
    assert forall r :: Withheld(db, p, r) == 0;
    assert erased.rows == db.rows;
  }

  lemma PaidOrder(db: Db, u: nat, o: nat, p: nat)
    requires Can(db, Pay(u, o, p))
    ensures var paid := After(db, Pay(u, o, p));
            paid.orders[o].finalAmount == db.orders[o].finalAmount && paid.payments[p].status == PaymentStatus.COMPLETED
  {
  }

  lemma CancelledOrder(db: Db, u: nat, p: nat)
    requires Can(db, Cancel(u, p))
    ensures var back := After(db, Cancel(u, p));
            && back.payments[p].status == PaymentStatus.CANCELLED
            && back.payments[p].orderId == db.payments[p].orderId
            && back.orders[db.payments[p].orderId].finalAmount == db.orders[db.payments[p].orderId].finalAmount
  {
  }

  lemma CancelErased(db: Db, u: nat, o: nat, p: nat, between: seq<Op>, after: seq<Op>)
    requires Lifecycle(db) && o in db.orders && Can(db, Pay(u, o, p))
    requires db.orders[o].finalAmount >= 0 || (Committed(db, between) && Committed(Run(db, between), after))
    requires var paid := Step(db, Pay(u, o, p));
             && Committed(paid, between) && Can(Run(paid, between), Cancel(u, p))
             && Committed(Step(Run(paid, between), Cancel(u, p)), after)
    ensures Committed(db, between) && Committed(Run(db, between), after)
    ensures var back := Step(Run(Step(db, Pay(u, o, p)), between), Cancel(u, p));
            ErasedFrom(Run(back, after), Run(Run(db, between), after), o, p)
  {
    var paid := After(db, Pay(u, o, p));
    var mid := Run(paid, between);
    var back := After(mid, Cancel(u, p));
    PaidDiffers(db, u, o, p);
    PaidOrder(db, u, o, p);
    ErasedRun(paid, db, o, p, between);
    CancelledDiffers(mid, Run(db, between), u, o, p);
    CancelledOrder(mid, u, p);
    PaymentStays(back, after, p);
    ErasedRun(back, Run(db, between), o, p, after);
    NothingWithheld(Run(back, after), Run(Run(db, between), after), o, p);
  }
  /** If the run commits with the payment and its cancellation, it commits without them, and they leave no trace. */
  ghost predicate Erasable(db: Db, u: nat, o: nat, p: nat, between: seq<Op>, after: seq<Op>) {
    Committed(db, [Pay(u, o, p)] + between + [Cancel(u, p)] + after) ==>
      && Committed(db, between + after)
      && ErasedFrom(Run(db, [Pay(u, o, p)] + between + [Cancel(u, p)] + after), Run(db, between + after), o, p)
  }

  lemma SpendingNotErasable(db: Db, u: nat, o: nat, p: nat, spend: Op)
    requires Can(db, Pay(u, o, p)) && u in db.users && db.orders[o].finalAmount < 0
    requires spend == Deduct(u, Proceeds(db, u, o))
    ensures Committed(db, [Pay(u, o, p)] + [spend] + [Cancel(u, p)] + []) && !Committed(db, [spend] + [])
  {
    SpentAndCancelled(db, u, o, p);
    RunOfParts(db, Pay(u, o, p), [spend], Cancel(u, p), []);
    RunOne(After(db, Pay(u, o, p)), spend);
    RunOne(db, spend);
    assert [spend] + [] == [spend];
  }

  /** A payment and its cancellation can be erased from every run exactly when the amount is not negative: otherwise
      what was committed in between may have needed what the payment brought in. */
  lemma ErasableExactly(db: Db, u: nat, o: nat, p: nat)
    requires Lifecycle(db) && Can(db, Pay(u, o, p)) && u in db.users
    ensures (forall between, after :: Erasable(db, u, o, p, between, after)) <==> db.orders[o].finalAmount >= 0
  {
    if db.orders[o].finalAmount >= 0 {
      forall between, after ensures Erasable(db, u, o, p, between, after) {
        if Committed(db, [Pay(u, o, p)] + between + [Cancel(u, p)] + after) {
          CancelIsExactUndo(db, u, o, p, between, after);
        }
      }
    } else {
      var spend := Deduct(u, Proceeds(db, u, o));
      SpendingNotErasable(db, u, o, p, spend);
      assert !Erasable(db, u, o, p, [spend], []);
    }
  }
}
