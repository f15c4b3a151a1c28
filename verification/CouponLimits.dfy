/** What the two paths can issue together, and exactly when that stays within the stock. */
module CouponLimits {
  import opened Coupons
  import opened Selection

  // ---------------------------------------------------------------- executions put together

  ghost predicate Leads(s: System, t: System, way: seq<Action>) {
    Execution(s, way) && Final(s, way) == t
  }

  lemma LeadsOn(s: System, a: Action, t: System, way: seq<Action>)
    requires Enabled(s, a) && Leads(Next(s, a), t, way)
    ensures Leads(s, t, [a] + way)
  {
    assert ([a] + way)[1..] == way;
  }

  lemma {:induction false} LeadsFurther(s: System, t: System, u: System, way: seq<Action>, further: seq<Action>)
    requires Leads(s, t, way) && Leads(t, u, further)
    ensures Leads(s, u, way + further)
    decreases |way|
  {
    if way == [] {
      assert way + further == further;
    } else {
      LeadsFurther(Next(s, way[0]), t, u, way[1..], further);
      LeadsOn(s, way[0], u, way[1..] + further);
      assert [way[0]] + (way[1..] + further) == way + further;
    }
  }

  // ---------------------------------------------------------------- one call of the service

  /** The call of `c` in the given phase, with the lock. */
  function Calling(s: System, c: nat, userId: nat, f: nat, phase: Phase, inserts: nat): System {
    s.(locks := s.locks[f := c], clients := s.clients[c := Client(userId, f, phase, inserts, false)])
  }

  function WithRow(s: System, f: nat, userId: nat, id: nat, path: Path): System
    requires f in s.promos
  {
    s.(rows := s.rows[id := UserCoupon(userId, s.promos[f].couponId, AVAILABLE, f, path)])
  }

  function WithMark(s: System, f: nat, userId: nat): System {
    s.(issued := Marked(s.issued, f, userId))
  }

  /** The promotion is free to issue to the user. */
  ghost predicate Issuing(s: System, f: nat, userId: nat, id: nat) {
    && f in s.promos && s.promos[f].startDate <= s.promos[f].endDate && s.promos[f].stockQuantity <= s.promos[f].initial
    && id !in s.rows && !Taken(s.rows, userId, s.promos[f].couponId)
  }

  function AfterCall(s: System, f: nat, c: nat, userId: nat, id: nat): System
    requires f in s.promos
  {
    WithMark(WithRow(s, f, userId, id, Service), f, userId).(
      clients := s.clients[c := Client(userId, f, Left(true), 1, false)])
  }

  ghost predicate Goes(s: System, a: Action, t: System) {
    Enabled(s, a) && Next(s, a) == t
  }

  function Written(s: System, f: nat, c: nat, userId: nat, id: nat, phase: Phase): System
    requires f in s.promos
  {
    WithRow(Calling(s, c, userId, f, phase, 1), f, userId, id, Service)
  }

  lemma InsertGoes(s: System, f: nat, c: nat, userId: nat, id: nat)
    requires Issuing(s, f, userId, id)
    ensures Goes(Calling(s, c, userId, f, Covered, 0), Insert(c, id), Written(s, f, c, userId, id, Inserted))
  {
  }

  lemma MarkGoes(s: System, f: nat, c: nat, userId: nat, id: nat)
    requires f in s.promos
    ensures Goes(Written(s, f, c, userId, id, Inserted), Mark(c),
            WithMark(Written(s, f, c, userId, id, Leaving(true)), f, userId))
  {
  }

  lemma UnlockGoes(s: System, f: nat, c: nat, userId: nat, id: nat)
    requires f in s.promos && f !in s.locks
    ensures Goes(WithMark(Written(s, f, c, userId, id, Leaving(true)), f, userId), Unlock(c),
            AfterCall(s, f, c, userId, id))
  {
    assert s.locks[f := c] - {f} == s.locks;
  }

  lemma LeadsThrough(s: System, a: Action, mid: System, t: System, way: seq<Action>) returns (longer: seq<Action>)
    requires Goes(s, a, mid) && Leads(mid, t, way)
    ensures Leads(s, t, longer)
  {
    LeadsOn(s, a, t, way);
    longer := [a] + way;
  }

  /** The second half of a call: insert, mark, unlock. */
  lemma Issues(s: System, f: nat, c: nat, userId: nat, id: nat) returns (way: seq<Action>)
    requires Issuing(s, f, userId, id) && f !in s.locks
    ensures Leads(Calling(s, c, userId, f, Covered, 0), AfterCall(s, f, c, userId, id), way)
  {
    var t := AfterCall(s, f, c, userId, id);
    var marked := WithMark(Written(s, f, c, userId, id, Leaving(true)), f, userId);
    assert Leads(t, t, []);
    UnlockGoes(s, f, c, userId, id);
    way := LeadsThrough(marked, Unlock(c), t, t, []);
    MarkGoes(s, f, c, userId, id);
    way := LeadsThrough(Written(s, f, c, userId, id, Inserted), Mark(c), marked, t, way);
    InsertGoes(s, f, c, userId, id);
    var inserted := Written(s, f, c, userId, id, Inserted);
    way := LeadsThrough(Calling(s, c, userId, f, Covered, 0), Insert(c, id), inserted, t, way);
  }

  lemma CheckIssuedGoes(s: System, f: nat, c: nat, userId: nat, stock: int)
    requires f in s.promos && userId !in Of(s.issued, f, {})
    ensures Goes(Calling(s, c, userId, f, Loaded(stock), 0), CheckIssued(c),
            Calling(s, c, userId, f, Unissued(stock), 0))
  {
  }

  lemma CheckCountGoes(s: System, f: nat, c: nat, userId: nat, stock: int)
    requires f in s.promos && |Of(s.issued, f, {})| < stock
    ensures Goes(Calling(s, c, userId, f, Unissued(stock), 0), CheckCount(c), Calling(s, c, userId, f, Covered, 0))
  {
  }

  lemma LoadGoes(s: System, f: nat, c: nat, userId: nat)
    requires f in s.promos && s.promos[f].startDate <= s.promos[f].endDate
    requires s.promos[f].stockQuantity <= s.promos[f].initial
    ensures var p := s.promos[f];
            Goes(Calling(s, c, userId, f, Locked, 0), Load(c, p.startDate, p.stockQuantity),
                 Calling(s, c, userId, f, Loaded(p.stockQuantity), 0))
  {
  }

  function Arrived(s: System, f: nat, c: nat, userId: nat): System {
    s.(clients := s.clients[c := Client(userId, f, Waiting, 0, false)])
  }

  lemma LockGoes(s: System, f: nat, c: nat, userId: nat)
    requires f in s.promos && f !in s.locks && c !in s.clients
    ensures Goes(s, Arrive(c, userId, f), Arrived(s, f, c, userId))
    ensures Goes(Arrived(s, f, c, userId), Lock(c), Calling(s, c, userId, f, Locked, 0))
  {
  }

  /** The first half: lock, load, and the checks against Redis. */
  lemma Checks(s: System, f: nat, c: nat, userId: nat, id: nat, t: System, rest: seq<Action>) returns (way: seq<Action>)
    requires Issuing(s, f, userId, id) && f !in s.locks && c !in s.clients
    requires userId !in Of(s.issued, f, {}) && |Of(s.issued, f, {})| < s.promos[f].stockQuantity
    requires Leads(Calling(s, c, userId, f, Covered, 0), t, rest)
    ensures Leads(s, t, way)
  {
    var p := s.promos[f];
    var stock := p.stockQuantity;
    var loaded, unissued := Calling(s, c, userId, f, Loaded(stock), 0), Calling(s, c, userId, f, Unissued(stock), 0);
    CheckCountGoes(s, f, c, userId, stock);
    way := LeadsThrough(unissued, CheckCount(c), Calling(s, c, userId, f, Covered, 0), t, rest);
    CheckIssuedGoes(s, f, c, userId, stock);
    way := LeadsThrough(loaded, CheckIssued(c), unissued, t, way);
    LoadGoes(s, f, c, userId);
    way := LeadsThrough(Calling(s, c, userId, f, Locked, 0), Load(c, p.startDate, stock), loaded, t, way);
    LockGoes(s, f, c, userId);
    way := LeadsThrough(Arrived(s, f, c, userId), Lock(c), Calling(s, c, userId, f, Locked, 0), t, way);
    way := LeadsThrough(s, Arrive(c, userId, f), Arrived(s, f, c, userId), t, way);
  }

  // ---------------------------------------------------------------- one batch of the scheduler

  function AfterSale(s: System, f: nat, userId: nat, id: nat): System
    requires f in s.promos
  {
    WithMark(WithRow(s, f, userId, id, Scheduler), f, userId).(
      promos := s.promos[f := s.promos[f].(stockQuantity := s.promos[f].stockQuantity - 1)])
  }

  lemma Sells(s: System, f: nat, userId: nat, id: nat) returns (way: seq<Action>)
    requires Issuing(s, f, userId, id) && s.batch.NoBatch? && s.promos[f].stockQuantity > 0
    ensures Leads(s, AfterSale(s, f, userId, id), way)
  {
    var t := AfterSale(s, f, userId, id);
    var a := Schedule(f, userId, id, true, true, true);
    var popped, done := s.(batch := Popped(f, 1)), t.(batch := Popped(f, 0));
    assert Leads(t, t, []);
    assert Next(done, Finish) == t;
    LeadsOn(done, Finish, t, []);
    assert Next(popped, a) == done;
    LeadsOn(popped, a, t, [Finish] + []);
    way := [a] + ([Finish] + []);
    LeadsOn(s, Pop(f, 1, s.promos[f].startDate), t, way);
    way := [Pop(f, 1, s.promos[f].startDate)] + way;
  }

  // ---------------------------------------------------------------- many of each

  function Count(s: System, f: nat, path: Path): nat {
    |Through(s.rows, f, path)|
  }

  /** A user without a coupon and a mark, and an identifier without a row. */
  lemma Newcomer(s: System, f: nat) returns (userId: nat, id: nat)
    requires f in s.promos && s.promos[f].startDate <= s.promos[f].endDate
    requires s.promos[f].stockQuantity <= s.promos[f].initial
    ensures Issuing(s, f, userId, id) && userId !in Of(s.issued, f, {})
  {
    userId, id := Above(UsersOf(s.rows, s.rows.Keys) + Of(s.issued, f, {})), Above(s.rows.Keys);
    assert forall i | i in s.rows :: s.rows[i].userId in UsersOf(s.rows, s.rows.Keys);
  }

  ghost predicate Clean(s: System, f: nat) {
    && f in s.promos && f !in s.locks && s.batch.NoBatch?
    && s.promos[f].startDate <= s.promos[f].endDate && s.promos[f].stockQuantity <= s.promos[f].initial
    && s.lost == map[] && s.unpaid == map[]
  }

  lemma {:induction false} ServesMany(s: System, f: nat, n: nat) returns (way: seq<Action>, t: System)
    requires Clean(s, f) && |Of(s.issued, f, {})| + n <= s.promos[f].stockQuantity
    ensures Leads(s, t, way) && Clean(t, f) && t.promos == s.promos
    ensures Count(t, f, Service) == Count(s, f, Service) + n && Count(t, f, Scheduler) == Count(s, f, Scheduler)
    decreases n
  {
    if n == 0 {
      way, t := [], s;
    } else {
      var userId, id := Newcomer(s, f);
      var c := Above(s.clients.Keys);
      var mid := AfterCall(s, f, c, userId, id);
      var first := Issues(s, f, c, userId, id);
      first := Checks(s, f, c, userId, id, mid, first);
      AddedRow(s.rows, id, mid.rows[id], f, Service);
      AddedRow(s.rows, id, mid.rows[id], f, Scheduler);
      way, t := ServesMany(mid, f, n - 1);
      LeadsFurther(s, mid, t, first, way);
      way := first + way;
    }
  }

  lemma {:induction false} SellsMany(s: System, f: nat, n: nat) returns (way: seq<Action>, t: System)
    requires Clean(s, f) && n <= s.promos[f].stockQuantity
    ensures Leads(s, t, way) && Clean(t, f)
    ensures Count(t, f, Scheduler) == Count(s, f, Scheduler) + n && Count(t, f, Service) == Count(s, f, Service)
    decreases n
  {
    if n == 0 {
      way, t := [], s;
    } else {
      var userId, id := Newcomer(s, f);
      var mid := AfterSale(s, f, userId, id);
      var first := Sells(s, f, userId, id);
      AddedRow(s.rows, id, mid.rows[id], f, Service);
      AddedRow(s.rows, id, mid.rows[id], f, Scheduler);
      way, t := SellsMany(mid, f, n - 1);
      LeadsFurther(s, mid, t, first, way);
      way := first + way;
    }
  }

  /** The bound of both paths together is reached, whatever the stock: each sells all of it, and nothing fails. */
  lemma TwiceTheStock(s: System, f: nat) returns (actions: seq<Action>)
    requires Initial(s) && f in s.promos && s.promos[f].startDate <= s.promos[f].endDate
    ensures Execution(s, actions)
    ensures var t := Final(s, actions);
            && t.lost == map[] && t.unpaid == map[]
            && Count(t, f, Service) == s.promos[f].stockQuantity
            && Count(t, f, Scheduler) == s.promos[f].stockQuantity
  {
    var way, mid := ServesMany(s, f, s.promos[f].stockQuantity);
    var further, t := SellsMany(mid, f, s.promos[f].stockQuantity);
    LeadsFurther(s, mid, t, way, further);
    actions := way + further;
  }

  // ---------------------------------------------------------------- a promotion that is never on

  ghost predicate Shut(s: System, f: nat) {
    && f in s.promos && s.promos[f].endDate < s.promos[f].startDate
    && Through(s.rows, f, Service) == {}
    && forall c | c in s.clients && s.clients[c].promo == f :: ShutPhase(s.clients[c].phase)
  }

  predicate ShutPhase(phase: Phase) {
    phase.Waiting? || phase.Locked? || phase.Leaving? || phase.Left?
  }

  lemma ShutStep(s: System, a: Action, f: nat)
    requires Shut(s, f) && Enabled(s, a)
    ensures Shut(Next(s, a), f)
  {
    PeriodStays(s, a, f);
    ThroughStep(s, a, f, Service);
    forall c | c in Next(s, a).clients && Next(s, a).clients[c].promo == f
        ensures ShutPhase(Next(s, a).clients[c].phase) {
      if OfClient(a) && c == a.c {
        ActsShut(s, a, f);
      } else if OfClient(a) {
        ClientStep(s, a);
      }
    }
  }

  lemma ActsShut(s: System, a: Action, f: nat)
    requires Enabled(s, a) && OfClient(a) && f in s.promos && s.promos[f].endDate < s.promos[f].startDate
    requires a.c in s.clients && s.clients[a.c].promo == f ==> ShutPhase(s.clients[a.c].phase)
    ensures a.c in Next(s, a).clients && Next(s, a).clients[a.c].promo == f ==> ShutPhase(Next(s, a).clients[a.c].phase)
  {
  }

  lemma PeriodStays(s: System, a: Action, f: nat)
    requires Fits(s, a) && f in s.promos
    ensures f in Next(s, a).promos
    ensures Next(s, a).promos[f].startDate == s.promos[f].startDate
            && Next(s, a).promos[f].endDate == s.promos[f].endDate
  {
  }

  lemma {:induction false} StaysShut(s: System, actions: seq<Action>, f: nat)
    requires Shut(s, f) && Execution(s, actions)
    ensures Shut(Final(s, actions), f)
    decreases |actions|
  {
    if actions != [] {
      ShutStep(s, actions[0], f);
      StaysShut(Next(s, actions[0]), actions[1..], f);
    }
  }

  // ---------------------------------------------------------------- when the cap holds

  /** No more coupons than the initial stock, apart from lost marks and iterations that failed before decrementing. */
  ghost predicate Capped(s: System, actions: seq<Action>, f: nat)
    requires Execution(s, actions) && f in s.promos
  {
    var t := Final(s, actions);
    Count(t, f, Service) + Count(t, f, Scheduler) <=
    s.promos[f].stockQuantity + |Of(t.lost, f, {})| + Of(t.unpaid, f, 0)
  }

  ghost predicate NoCalls(actions: seq<Action>) {
    forall a | a in actions :: !OfClient(a)
  }

  /** Each of the two paths is open, or is switched off. */
  ghost predicate Possible(s: System, actions: seq<Action>, service: bool, scheduler: bool) {
    Execution(s, actions) && (service || NoCalls(actions)) && (scheduler || NoSchedule(actions))
  }

  lemma NoCallNoRow(s: System, a: Action, f: nat)
    requires Enabled(s, a) && !OfClient(a)
    ensures Added(s, a, f, Service) == {}
  {
    if a.Schedule? && a.creates {
      assert Next(s, a).rows[a.id].path == Scheduler;
    }
  }

  lemma {:induction false} NoCallsNoRows(s: System, actions: seq<Action>, f: nat)
    requires Execution(s, actions) && NoCalls(actions)
    ensures Count(Final(s, actions), f, Service) == Count(s, f, Service)
    decreases |actions|
  {
    if actions != [] {
      ThroughStep(s, actions[0], f, Service);
      assert actions[0] in actions && !OfClient(actions[0]);
      NoCallNoRow(s, actions[0], f);
      NoCallsNoRows(Next(s, actions[0]), actions[1..], f);
    }
  }

  /** Both paths are open, there is something to issue, and the promotion is on at some time. */
  predicate Exceedable(p: Promo, service: bool, scheduler: bool) {
    service && scheduler && p.stockQuantity != 0 && p.startDate <= p.endDate
  }

  /** The cap holds in every execution exactly when one of the paths is off, or there is nothing to issue,
      or the promotion is never on. */
  lemma CapExactly(s: System, f: nat, service: bool, scheduler: bool)
    requires Initial(s) && f in s.promos
    ensures (forall actions | Possible(s, actions, service, scheduler) :: Capped(s, actions, f)) <==>
            !service || !scheduler || s.promos[f].stockQuantity == 0 || s.promos[f].endDate < s.promos[f].startDate
  {
    if Exceedable(s.promos[f], service, scheduler) {
      var actions := TwiceTheStock(s, f);
      assert Possible(s, actions, service, scheduler) && !Capped(s, actions, f);
    } else {
      forall actions | Possible(s, actions, service, scheduler) ensures Capped(s, actions, f) {
        StaysCapped(s, actions, f, service, scheduler);
      }
    }
  }

  lemma StaysCapped(s: System, actions: seq<Action>, f: nat, service: bool, scheduler: bool)
    requires Initial(s) && f in s.promos && Possible(s, actions, service, scheduler)
    requires !Exceedable(s.promos[f], service, scheduler)
    ensures Capped(s, actions, f)
  {
    TwoPathAccounting(s, actions, f);
    if !service {
      NoCallsNoRows(s, actions, f);
    } else if !scheduler {
      CouponCap(s, actions, f);
      var t := Final(s, actions);
      assert Through(t.rows, f, Service) !! Through(t.rows, f, Scheduler);
    } else if s.promos[f].endDate < s.promos[f].startDate {
      StaysShut(s, actions, f);
    }
  }
}
