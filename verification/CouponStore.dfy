/** `CouponService`, `CouponIssueScheduler` and the coupon repositories as they run, over tables and Redis. */
module CouponStore {
  import opened Coupons
  import opened Redis
  import opened Selection

  datatype Error =
    | Conflict
    | NotFound
    | NotAvailableNow
    | AlreadyIssued
    | UniqueViolation
    | StockEmpty
    | RedisDown
    | NotAvailable

  datatype Result<T> = Ok(value: T) | Err(error: Error)

  /** Where an iteration of the scheduler throws, if it does. */
  datatype Fault = NoFault | WhenLoading | WhenCreating | WhenMarking | WhenDecrementing

  /** How a popped request ended; a failed one may have left a row behind. */
  datatype Outcome = Issued | Skipped | Failed(created: bool)

  const PAGE_SIZE: nat := 100

  /** Promotions, coupons of users, the next identifier, and the issued set of each promotion. */
  datatype Shelf = Shelf(promos: map<nat, Promo>, rows: map<nat, UserCoupon>, nextId: nat, issued: map<nat, set<nat>>)

  /** A user's available coupon, as the check before issuing looks for it; used and expired ones are overlooked. */
  predicate HasAvailable(rows: map<nat, UserCoupon>, userId: nat, couponId: nat) {
    exists id :: id in rows && rows[id].userId == userId && rows[id].couponId == couponId
      && rows[id].status == AVAILABLE
  }

  function WithRow(s: Shelf, userId: nat, promo: nat, path: Path): Shelf
    requires promo in s.promos
  {
    s.(rows := s.rows[s.nextId := UserCoupon(userId, s.promos[promo].couponId, AVAILABLE, promo, path)],
        nextId := s.nextId + 1)
  }

  function WithMark(s: Shelf, userId: nat, promo: nat): Shelf {
    s.(issued := Marked(s.issued, promo, userId))
  }

  /** The promotions with `n` taken off the stock of one. */
  function Sold(promos: map<nat, Promo>, promo: nat, n: int): map<nat, Promo>
    requires promo in promos
  {
    promos[promo := promos[promo].(stockQuantity := promos[promo].stockQuantity - n)]
  }

  ghost predicate ShelfOk(s: Shelf) {
    && (forall id | id in s.rows :: id < s.nextId)
    && (forall i, j | i in s.rows && j in s.rows && s.rows[i].userId == s.rows[j].userId
                      && s.rows[i].couponId == s.rows[j].couponId :: i == j)
  }

  // ---------------------------------------------------------------- the live call

  predicate InPeriod(s: Shelf, promo: nat, now: int) {
    promo in s.promos && s.promos[promo].startDate <= now <= s.promos[promo].endDate
  }

  /** The promotion is on, the user is not marked, and the marks do not fill the stock. */
  predicate PassesRedis(s: Shelf, userId: nat, promo: nat, now: int) {
    InPeriod(s, promo, now) && userId !in Of(s.issued, promo, {})
        && |Of(s.issued, promo, {})| < s.promos[promo].stockQuantity
  }

  /** When the call gives which answer. */
  predicate Answers(s: Shelf, userId: nat, promo: nat, now: int, marks: bool, r: Result<nat>) {
    match r
    case Ok(id) => marks && id == s.nextId && PassesRedis(s, userId, promo, now)
      && !Taken(s.rows, userId, s.promos[promo].couponId)
    case Err(NotFound) => promo !in s.promos
    case Err(NotAvailableNow) => promo in s.promos && !InPeriod(s, promo, now)
    case Err(AlreadyIssued) =>
      && InPeriod(s, promo, now)
      && (userId in Of(s.issued, promo, {})
          || (PassesRedis(s, userId, promo, now) && HasAvailable(s.rows, userId, s.promos[promo].couponId)))
    case Err(StockEmpty) =>
      && InPeriod(s, promo, now) && userId !in Of(s.issued, promo, {})
      && |Of(s.issued, promo, {})| >= s.promos[promo].stockQuantity
    case Err(UniqueViolation) =>
      && PassesRedis(s, userId, promo, now)
      && Taken(s.rows, userId, s.promos[promo].couponId) && !HasAvailable(s.rows, userId, s.promos[promo].couponId)
    case Err(RedisDown) =>
      !marks && PassesRedis(s, userId, promo, now) && !Taken(s.rows, userId, s.promos[promo].couponId)
    case _ => false
  }

  lemma OneAnswer(s: Shelf, userId: nat, promo: nat, now: int, marks: bool, q: Result<nat>, r: Result<nat>)
    requires Answers(s, userId, promo, now, marks, q) && Answers(s, userId, promo, now, marks, r)
    ensures q == r
  {
    assert promo in s.promos && HasAvailable(s.rows, userId, s.promos[promo].couponId) ==>
        Taken(s.rows, userId, s.promos[promo].couponId);
  }

  /** What an answer leaves behind: a coupon and its mark, or a coupon whose mark was lost, or nothing. */
  function Answered(s: Shelf, userId: nat, promo: nat, r: Result<nat>): Shelf
    requires r.Ok? || r == Err(RedisDown) ==> promo in s.promos
  {
    match r
    case Ok(_) => WithMark(WithRow(s, userId, promo, Service), userId, promo)
    case Err(RedisDown) => WithRow(s, userId, promo, Service)
    case _ => s
  }

  /** The same written out: a success adds the user's AVAILABLE row and mark, a lost mark the row only,
      and any other answer nothing; no promotion and nobody else's mark changes. */
  lemma AnswerLeaves(s: Shelf, userId: nat, promo: nat, now: int, marks: bool, r: Result<nat>)
    requires ShelfOk(s) && (r == Err(Conflict) || Answers(s, userId, promo, now, marks, r))
    ensures var t := Answered(s, userId, promo, r);
            && t.promos == s.promos
            && (forall k | k != promo :: Of(t.issued, k, {}) == Of(s.issued, k, {}))
            && (if r.Ok? || r == Err(RedisDown) then
                  && promo in s.promos && s.nextId !in s.rows && (r.Ok? ==> r.value == s.nextId)
                  && t.rows ==
                     s.rows[s.nextId := UserCoupon(userId, s.promos[promo].couponId, AVAILABLE, promo, Service)]
                  && Of(t.issued, promo, {}) == Of(s.issued, promo, {}) + if r.Ok? then {userId} else {}
                else t == s)
  {
  }

  /** A call creates a row exactly when the promotion is on, the marks do not fill its stock, and the user has neither a
      mark nor any row of the coupon, be it used or expired. */
  lemma ServedExactly(s: Shelf, userId: nat, promo: nat, now: int, marks: bool, r: Result<nat>)
    requires Answers(s, userId, promo, now, marks, r)
    ensures r.Ok? || r == Err(RedisDown) <==>
            && promo in s.promos && s.promos[promo].startDate <= now <= s.promos[promo].endDate
            && userId !in Of(s.issued, promo, {}) && |Of(s.issued, promo, {})| < s.promos[promo].stockQuantity
            && forall id | id in s.rows ::
                 s.rows[id].userId != userId || s.rows[id].couponId != s.promos[promo].couponId
    ensures (r.Ok? ==> marks) && (r == Err(RedisDown) ==> !marks)
  {
    assert promo in s.promos && HasAvailable(s.rows, userId, s.promos[promo].couponId) ==>
        Taken(s.rows, userId, s.promos[promo].couponId);
  }

  /** Who has no mark but a row of the coupon is told so if it is AVAILABLE, and meets the unique index otherwise. */
  lemma HolderIsRefused(s: Shelf, userId: nat, promo: nat, now: int, marks: bool, r: Result<nat>, id: nat)
    requires ShelfOk(s) && Answers(s, userId, promo, now, marks, r)
    requires promo in s.promos && s.promos[promo].startDate <= now <= s.promos[promo].endDate
    requires userId !in Of(s.issued, promo, {}) && |Of(s.issued, promo, {})| < s.promos[promo].stockQuantity
    requires id in s.rows && s.rows[id].userId == userId && s.rows[id].couponId == s.promos[promo].couponId
    ensures r == if s.rows[id].status == AVAILABLE then Err(AlreadyIssued) else Err(UniqueViolation)
  {
    assert Taken(s.rows, userId, s.promos[promo].couponId);
    assert HasAvailable(s.rows, userId, s.promos[promo].couponId) <==> s.rows[id].status == AVAILABLE;
  }

  // ---------------------------------------------------------------- any number of live calls

  /** A live call; `marks` tells whether Redis accepts its mark. */
  datatype Call = Call(userId: nat, promo: nat, now: int, marks: bool)

  /** How many of the calls for a promotion succeeded, and how many created a row that was not marked. */
  function Successes(calls: seq<Call>, answers: seq<Result<nat>>, f: nat): nat
    requires |answers| <= |calls|
  {
    if answers == [] then 0
    else
      var n := |answers| - 1;
      Successes(calls, answers[..n], f) + if calls[n].promo == f && answers[n].Ok? then 1 else 0
  }

  function Losses(calls: seq<Call>, answers: seq<Result<nat>>, f: nat): nat
    requires |answers| <= |calls|
  {
    if answers == [] then 0
    else
      var n := |answers| - 1;
      Losses(calls, answers[..n], f) + if calls[n].promo == f && answers[n] == Err(RedisDown) then 1 else 0
  }

  /** How far a stock goes beyond a number of marks. */
  function Room(stock: int, marked: nat): nat {
    if stock > marked then stock - marked else 0
  }

  predicate SoldOut(calls: seq<Call>, answers: seq<Result<nat>>, f: nat)
    requires |answers| <= |calls|
  {
    exists i :: 0 <= i < |answers| && calls[i].promo == f && answers[i] == Err(StockEmpty)
  }

  /** What the calls so far have done to a promotion: one mark for each success, one row for each success and each lost
      mark, no more successes than the stock had room for, and no room left if somebody was told so. */
  ghost predicate Capped(s: Shelf, calls: seq<Call>, answers: seq<Result<nat>>, t: Shelf, f: nat)
    requires |answers| <= |calls| && f in s.promos
  {
    && |Of(t.issued, f, {})| == |Of(s.issued, f, {})| + Successes(calls, answers, f)
    && Made(t, f, Service) == Made(s, f, Service) + Successes(calls, answers, f) + Losses(calls, answers, f)
    && Made(t, f, Scheduler) == Made(s, f, Scheduler)
    && Successes(calls, answers, f) <= Room(s.promos[f].stockQuantity, |Of(s.issued, f, {})|)
    && (SoldOut(calls, answers, f) ==> |Of(t.issued, f, {})| >= s.promos[f].stockQuantity)
  }

  /** One call: a success marks one user more and makes one row, and only while there is room. */
  lemma CallCounts(s: Shelf, call: Call, r: Result<nat>, f: nat)
    requires ShelfOk(s) && f in s.promos
    requires r == Err(Conflict) || Answers(s, call.userId, call.promo, call.now, call.marks, r)
    ensures var t := Answered(s, call.userId, call.promo, r);
            && |Of(t.issued, f, {})| == |Of(s.issued, f, {})| + (if call.promo == f && r.Ok? then 1 else 0)
            && Made(t, f, Service) ==
               Made(s, f, Service) + (if call.promo == f && (r.Ok? || r == Err(RedisDown)) then 1 else 0)
            && Made(t, f, Scheduler) == Made(s, f, Scheduler)
    ensures call.promo == f && r.Ok? ==> |Of(s.issued, f, {})| < s.promos[f].stockQuantity
    ensures call.promo == f && r == Err(StockEmpty) ==> |Of(s.issued, f, {})| >= s.promos[f].stockQuantity
  {
    AnswerLeaves(s, call.userId, call.promo, call.now, call.marks, r);
    if r.Ok? || r == Err(RedisDown) {
      var row := UserCoupon(call.userId, s.promos[call.promo].couponId, AVAILABLE, call.promo, Service);
      AddedRow(s.rows, s.nextId, row, f, Service);
      AddedRow(s.rows, s.nextId, row, f, Scheduler);
    }
  }

  lemma CappedOneMore(s: Shelf, calls: seq<Call>, answers: seq<Result<nat>>, t: Shelf, r: Result<nat>, f: nat)
    requires |answers| < |calls| && f in s.promos && ShelfOk(t) && t.promos == s.promos
    requires Capped(s, calls, answers, t, f)
    requires var call := calls[|answers|];
             r == Err(Conflict) || Answers(t, call.userId, call.promo, call.now, call.marks, r)
    ensures var call := calls[|answers|];
            Capped(s, calls, answers + [r], Answered(t, call.userId, call.promo, r), f)
  {
    CallCounts(t, calls[|answers|], r, f);
    AnswerLeaves(t, calls[|answers|].userId, calls[|answers|].promo, calls[|answers|].now, calls[|answers|].marks, r);
    assert (answers + [r])[..|answers|] == answers;
    assert SoldOut(calls, answers + [r], f) ==>
        SoldOut(calls, answers, f) || (calls[|answers|].promo == f && r == Err(StockEmpty));
  }

  lemma NoLosses(calls: seq<Call>, answers: seq<Result<nat>>, f: nat)
    requires |answers| <= |calls| && forall i | 0 <= i < |answers| :: answers[i] != Err(RedisDown)
    ensures Losses(calls, answers, f) == 0
    decreases |answers|
  {
    if answers != [] {
      NoLosses(calls, answers[..|answers| - 1], f);
    }
  }

  /** A user who has just been served is refused, even if the mark was lost, as long as the coupon is AVAILABLE. */
  lemma ServedIsRefused(s: Shelf, userId: nat, promo: nat, now: int, marks: bool, r: Result<nat>,
      later: int, again: bool, q: Result<nat>)
    requires Answers(s, userId, promo, now, marks, r) && (r.Ok? || r == Err(RedisDown))
    requires Answers(Answered(s, userId, promo, r), userId, promo, later, again, q)
    ensures q.Err?
    ensures s.promos[promo].startDate <= later <= s.promos[promo].endDate ==> q == Err(AlreadyIssued)
  {
    var t := Answered(s, userId, promo, r);
    assert t.rows[s.nextId].userId == userId && t.rows[s.nextId].status == AVAILABLE;
    assert HasAvailable(t.rows, userId, s.promos[promo].couponId);
    assert Taken(t.rows, userId, s.promos[promo].couponId);
  }

  // ---------------------------------------------------------------- a batch of the scheduler

  /** How one popped request ends. */
  function Ended(s: Shelf, userId: nat, promo: nat, fault: Fault): Outcome
    requires promo in s.promos
  {
    if fault == WhenLoading then Failed(false)
    else if HasAvailable(s.rows, userId, s.promos[promo].couponId) then Skipped
    else if fault == WhenCreating || Taken(s.rows, userId, s.promos[promo].couponId) then Failed(false)
    else if fault == NoFault then Issued
    else Failed(true)
  }

  /** What it leaves behind: errors are swallowed, so whatever was written before stays. */
  function Handed(s: Shelf, userId: nat, promo: nat, fault: Fault): Shelf
    requires promo in s.promos
  {
    var outcome := Ended(s, userId, promo, fault);
    if outcome !in {Issued, Failed(true)} then s
    else
      var created := WithRow(s, userId, promo, Scheduler);
      var marked := if fault == WhenMarking then created else WithMark(created, userId, promo);
      if outcome == Issued then marked.(promos := Sold(s.promos, promo, 1)) else marked
  }

  function BatchShelf(s: Shelf, promo: nat, users: seq<nat>, faults: nat -> Fault): (t: Shelf)
    requires promo in s.promos
    ensures t.promos.Keys == s.promos.Keys
  {
    if users == [] then s
    else
      var n := |users| - 1;
      Handed(BatchShelf(s, promo, users[..n], faults), users[n], promo, faults(n))
  }

  function BatchOutcomes(s: Shelf, promo: nat, users: seq<nat>, faults: nat -> Fault): (outcomes: seq<Outcome>)
    requires promo in s.promos
    ensures |outcomes| == |users|
  {
    if users == [] then []
    else
      var n := |users| - 1;
      BatchOutcomes(s, promo, users[..n], faults) +
          [Ended(BatchShelf(s, promo, users[..n], faults), users[n], promo, faults(n))]
  }

  function Count(outcomes: seq<Outcome>, outcome: Outcome): nat {
    if outcomes == [] then 0
    else Count(outcomes[..|outcomes| - 1], outcome) + if outcomes[|outcomes| - 1] == outcome then 1 else 0
  }

  /** Every popped request ended in exactly one way. */
  lemma {:induction false} OutcomesPartition(outcomes: seq<Outcome>)
    ensures Count(outcomes, Issued) + Count(outcomes, Skipped) + Count(outcomes, Failed(true)) +
            Count(outcomes, Failed(false)) ==
            |outcomes|
    decreases |outcomes|
  {
    if outcomes != [] {
      OutcomesPartition(outcomes[..|outcomes| - 1]);
    }
  }

  /** A row that the unique index admits gives one user one coupon more. */
  lemma WithRowOk(s: Shelf, userId: nat, promo: nat, path: Path)
    requires ShelfOk(s) && promo in s.promos && !Taken(s.rows, userId, s.promos[promo].couponId)
    ensures ShelfOk(WithRow(s, userId, promo, path)) && |WithRow(s, userId, promo, path).rows| == |s.rows| + 1
    ensures forall u, couponId :: Taken(WithRow(s, userId, promo, path).rows, u, couponId) <==>
                                  Taken(s.rows, u, couponId) || (u == userId && couponId == s.promos[promo].couponId)
  {
    var rows := WithRow(s, userId, promo, path).rows;
    assert s.nextId !in s.rows && rows[s.nextId].userId == userId;
    forall u, couponId | Taken(s.rows, u, couponId) ensures Taken(rows, u, couponId) {
      var id :| id in s.rows && s.rows[id].userId == u && s.rows[id].couponId == couponId;
      assert rows[id] == s.rows[id];
    }
  }

  lemma HandedRows(s: Shelf, userId: nat, promo: nat, fault: Fault)
    requires promo in s.promos
    ensures var t := Handed(s, userId, promo, fault);
            if Ended(s, userId, promo, fault) in {Issued, Failed(true)}
            then t.rows == WithRow(s, userId, promo, Scheduler).rows && t.nextId == s.nextId + 1
            else t == s
    ensures Ended(s, userId, promo, fault) in {Issued, Failed(true)} ==>
            !Taken(s.rows, userId, s.promos[promo].couponId)
    ensures Handed(s, userId, promo, fault).promos ==
            if Ended(s, userId, promo, fault) == Issued then Sold(s.promos, promo, 1) else s.promos
  {
  }

  lemma HandedOk(s: Shelf, userId: nat, promo: nat, fault: Fault)
    requires ShelfOk(s) && promo in s.promos
    ensures ShelfOk(Handed(s, userId, promo, fault))
    ensures var created := Ended(s, userId, promo, fault) in {Issued, Failed(true)};
            var couponId := s.promos[promo].couponId;
            && |Handed(s, userId, promo, fault).rows| == |s.rows| + (if created then 1 else 0)
            && (forall u :: Taken(Handed(s, userId, promo, fault).rows, u, couponId) <==>
                              Taken(s.rows, u, couponId) || (created && u == userId))
  {
    HandedRows(s, userId, promo, fault);
    if Ended(s, userId, promo, fault) in {Issued, Failed(true)} {
      WithRowOk(s, userId, promo, Scheduler);
      assert ShelfOk(WithRow(s, userId, promo, Scheduler));
    }
  }

  lemma SoldTwice(promos: map<nat, Promo>, promo: nat, m: int, n: int)
    requires promo in promos
    ensures Sold(Sold(promos, promo, m), promo, n) == Sold(promos, promo, m + n)
    ensures Sold(promos, promo, 0) == promos
    ensures Sold(promos, promo, m)[promo].couponId == promos[promo].couponId
  {
  }

  lemma CountOneMore(outcomes: seq<Outcome>, last: Outcome, outcome: Outcome)
    ensures Count(outcomes + [last], outcome) == Count(outcomes, outcome) + if last == outcome then 1 else 0
  {
    assert (outcomes + [last])[..|outcomes|] == outcomes;
  }

  lemma HandedShelfOk(s: Shelf, userId: nat, promo: nat, fault: Fault)
    requires ShelfOk(s) && promo in s.promos
    ensures ShelfOk(Handed(s, userId, promo, fault))
  {
    HandedOk(s, userId, promo, fault);
  }

  /** How many coupons came about through a promotion on one of the two paths. */
  function Made(s: Shelf, f: nat, path: Path): nat {
    |Through(s.rows, f, path)|
  }

  lemma HandedMade(s: Shelf, userId: nat, promo: nat, fault: Fault, f: nat, path: Path)
    requires ShelfOk(s) && promo in s.promos
    ensures Made(Handed(s, userId, promo, fault), f, path) == Made(s, f, path) +
              if Ended(s, userId, promo, fault) in {Issued, Failed(true)} && f == promo && path == Scheduler
              then 1 else 0
  {
    HandedRows(s, userId, promo, fault);
    assert s.nextId !in s.rows;
    AddedRow(s.rows, s.nextId, UserCoupon(userId, s.promos[promo].couponId, AVAILABLE, promo, Scheduler), f, path);
  }

  ghost predicate Accounted(s: Shelf, promo: nat, outcomes: seq<Outcome>, t: Shelf, f: nat)
    requires promo in s.promos
  {
    && ShelfOk(t)
    && t.promos == Sold(s.promos, promo, Count(outcomes, Issued))
    && Made(t, f, Service) == Made(s, f, Service)
    && Made(t, f, Scheduler) ==
       Made(s, f, Scheduler) + if f == promo then Count(outcomes, Issued) + Count(outcomes, Failed(true)) else 0
  }

  lemma AccountedOneMore(s: Shelf, promo: nat, outcomes: seq<Outcome>, t: Shelf, userId: nat, fault: Fault, f: nat)
    requires promo in s.promos && promo in t.promos && Accounted(s, promo, outcomes, t, f)
    ensures Accounted(s, promo, outcomes + [Ended(t, userId, promo, fault)], Handed(t, userId, promo, fault), f)
  {
    var last := Ended(t, userId, promo, fault);
    HandedShelfOk(t, userId, promo, fault);
    HandedRows(t, userId, promo, fault);
    HandedMade(t, userId, promo, fault, f, Service);
    HandedMade(t, userId, promo, fault, f, Scheduler);
    SoldTwice(s.promos, promo, Count(outcomes, Issued), 1);
    CountOneMore(outcomes, last, Issued);
    CountOneMore(outcomes, last, Failed(true));
  }

  /** A batch sells exactly the coupons it issued, and creates one row of its promotion for each of these and for each
      iteration that failed after creating, and none of any other; no user ever gets a second row. */
  lemma {:induction false} BatchAccounting(s: Shelf, promo: nat, users: seq<nat>, faults: nat -> Fault, f: nat)
    requires ShelfOk(s) && promo in s.promos
    ensures Accounted(s, promo, BatchOutcomes(s, promo, users, faults), BatchShelf(s, promo, users, faults), f)
    decreases |users|
  {
    if users == [] {
      SoldTwice(s.promos, promo, 0, 0);
    } else {
      var n := |users| - 1;
      BatchAccounting(s, promo, users[..n], faults, f);
      AccountedOneMore(s, promo, BatchOutcomes(s, promo, users[..n], faults), BatchShelf(s, promo, users[..n], faults),
                       users[n], faults(n), f);
    }
  }

  predicate Created(users: seq<nat>, outcomes: seq<Outcome>, u: nat)
    requires |outcomes| == |users|
  {
    exists k :: 0 <= k < |users| && users[k] == u && outcomes[k] in {Issued, Failed(true)}
  }

  /** After a batch, those hold the coupon who held it before or whose request created a row, and nobody else. */
  lemma {:induction false} BatchHolders(s: Shelf, promo: nat, users: seq<nat>, faults: nat -> Fault, u: nat)
    requires ShelfOk(s) && promo in s.promos
    ensures var couponId := s.promos[promo].couponId;
            Taken(BatchShelf(s, promo, users, faults).rows, u, couponId) <==>
            Taken(s.rows, u, couponId) || Created(users, BatchOutcomes(s, promo, users, faults), u)
    decreases |users|
  {
    if users != [] {
      var n := |users| - 1;
      var earlier, outcomes := BatchOutcomes(s, promo, users[..n], faults), BatchOutcomes(s, promo, users, faults);
      BatchHolders(s, promo, users[..n], faults, u);
      BatchAccounting(s, promo, users[..n], faults, promo);
      HandedOk(BatchShelf(s, promo, users[..n], faults), users[n], promo, faults(n));
      CreatedOneMore(users, outcomes, u);
      assert outcomes[..n] == earlier;
    }
  }

  lemma CreatedOneMore(users: seq<nat>, outcomes: seq<Outcome>, u: nat)
    requires |outcomes| == |users| > 0
    ensures var n := |users| - 1;
            Created(users, outcomes, u) <==>
            Created(users[..n], outcomes[..n], u) || (users[n] == u && outcomes[n] in {Issued, Failed(true)})
  {
    var n := |users| - 1;
    if Created(users[..n], outcomes[..n], u) {
      var k :| 0 <= k < n && users[..n][k] == u && outcomes[..n][k] in {Issued, Failed(true)};
      assert users[k] == u && outcomes[k] in {Issued, Failed(true)};
    }
    if Created(users, outcomes, u) {
      var k :| 0 <= k < |users| && users[k] == u && outcomes[k] in {Issued, Failed(true)};
      assert k < n ==> users[..n][k] == u && outcomes[..n][k] in {Issued, Failed(true)};
    }
  }

  // ---------------------------------------------------------------- what a batch does for each of its users

  /** A batch for distinct users serves each as if alone: a coupon is issued exactly to those who held none when nothing
      fails; those who hold an AVAILABLE one are skipped; a row is left behind exactly when marking or decrementing
      fails. */
  lemma BatchServes(s: Shelf, promo: nat, users: seq<nat>, faults: nat -> Fault, k: nat)
    requires ShelfOk(s) && promo in s.promos && Distinct(users) && k < |users|
    ensures var outcome := BatchOutcomes(s, promo, users, faults)[k];
            var couponId := s.promos[promo].couponId;
            && (outcome == Issued <==> faults(k) == NoFault && !Taken(s.rows, users[k], couponId))
            && (outcome == Failed(true) <==>
                faults(k) in {WhenMarking, WhenDecrementing} && !Taken(s.rows, users[k], couponId))
            && (outcome == Skipped <==>
                faults(k) != WhenLoading &&
                exists id :: id in s.rows && s.rows[id].userId == users[k] && s.rows[id].couponId == couponId
                             && s.rows[id].status == AVAILABLE)
  {
    var t := BatchShelf(s, promo, users[..k], faults);
    OutcomeAt(s, promo, users, faults, k);
    BatchAccounting(s, promo, users[..k], faults, promo);
    BatchHolders(s, promo, users[..k], faults, users[k]);
    BatchRows(s, promo, users[..k], faults);
    assert !Created(users[..k], BatchOutcomes(s, promo, users[..k], faults), users[k]);
    AvailableTaken(s.rows, users[k], s.promos[promo].couponId);
    AvailableTaken(t.rows, users[k], s.promos[promo].couponId);
    OldRowsFound(s.rows, t.rows, users[k], s.promos[promo].couponId);
  }

  lemma AvailableTaken(rows: map<nat, UserCoupon>, userId: nat, couponId: nat)
    ensures HasAvailable(rows, userId, couponId) ==> Taken(rows, userId, couponId)
  {
  }

  /** Rows of others do not matter to what is found for a user. */
  lemma OldRowsFound(rows: map<nat, UserCoupon>, more: map<nat, UserCoupon>, userId: nat, couponId: nat)
    requires forall id | id in rows :: id in more && more[id] == rows[id]
    requires forall id | id in more && id !in rows :: more[id].userId != userId
    ensures HasAvailable(more, userId, couponId) <==> HasAvailable(rows, userId, couponId)
  {
    if HasAvailable(rows, userId, couponId) {
      var id :| id in rows && rows[id].userId == userId && rows[id].couponId == couponId
                && rows[id].status == AVAILABLE;
      assert more[id] == rows[id];
    }
  }

  lemma {:induction false} OutcomeAt(s: Shelf, promo: nat, users: seq<nat>, faults: nat -> Fault, k: nat)
    requires promo in s.promos && k < |users|
    ensures BatchOutcomes(s, promo, users, faults)[k] ==
            Ended(BatchShelf(s, promo, users[..k], faults), users[k], promo, faults(k))
    decreases |users|
  {
    var n := |users| - 1;
    if k < n {
      assert users[..n][..k] == users[..k];
      OutcomeAt(s, promo, users[..n], faults, k);
    }
  }

  /** The rows of a batch: earlier ones stay, and each new one is an AVAILABLE coupon of the promotion,
      of one of the users, from the scheduler. */
  lemma {:induction false} BatchRows(s: Shelf, promo: nat, users: seq<nat>, faults: nat -> Fault)
    requires ShelfOk(s) && promo in s.promos
    ensures var t := BatchShelf(s, promo, users, faults);
            && (forall id | id in s.rows :: id in t.rows && t.rows[id] == s.rows[id])
            && forall id | id in t.rows && id !in s.rows ::
                 && t.rows[id].userId in users
                 && t.rows[id] == UserCoupon(t.rows[id].userId, s.promos[promo].couponId, AVAILABLE, promo, Scheduler)
    decreases |users|
  {
    if users != [] {
      var n := |users| - 1;
      var t := BatchShelf(s, promo, users[..n], faults);
      BatchRows(s, promo, users[..n], faults);
      BatchAccounting(s, promo, users[..n], faults, promo);
      HandedRows(t, users[n], promo, faults(n));
      assert users == users[..n] + [users[n]];
    }
  }

  /** Who has a mark that the iterations of a batch have set. */
  predicate NewlyMarked(users: seq<nat>, outcomes: seq<Outcome>, faults: nat -> Fault, u: nat)
    requires |outcomes| == |users|
  {
    exists k :: 0 <= k < |users| && users[k] == u
      && (outcomes[k] == Issued || (outcomes[k] == Failed(true) && faults(k) == WhenDecrementing))
  }

  lemma NewlyMarkedOneMore(users: seq<nat>, outcomes: seq<Outcome>, faults: nat -> Fault, u: nat)
    requires |outcomes| == |users| > 0
    ensures var n := |users| - 1;
            NewlyMarked(users, outcomes, faults, u) <==>
            || NewlyMarked(users[..n], outcomes[..n], faults, u)
            || (users[n] == u
                && (outcomes[n] == Issued || (outcomes[n] == Failed(true) && faults(n) == WhenDecrementing)))
  {
    var n := |users| - 1;
    if NewlyMarked(users[..n], outcomes[..n], faults, u) {
      var k :| 0 <= k < n && users[..n][k] == u
               && (outcomes[..n][k] == Issued || (outcomes[..n][k] == Failed(true) && faults(k) == WhenDecrementing));
      assert users[k] == u && outcomes[k] == outcomes[..n][k];
    }
    if NewlyMarked(users, outcomes, faults, u) {
      var k :| 0 <= k < |users| && users[k] == u
               && (outcomes[k] == Issued || (outcomes[k] == Failed(true) && faults(k) == WhenDecrementing));
      assert k < n ==> users[..n][k] == u && outcomes[..n][k] == outcomes[k];
    }
  }

  /** After a batch, those are marked who were before, who got their coupon, or whose iteration failed only after the
      mark; whether the batch commits does not matter. */
  lemma {:induction false} BatchMarks(s: Shelf, promo: nat, users: seq<nat>, faults: nat -> Fault, u: nat)
    requires promo in s.promos
    ensures u in Of(BatchShelf(s, promo, users, faults).issued, promo, {}) <==>
            || u in Of(s.issued, promo, {})
            || NewlyMarked(users, BatchOutcomes(s, promo, users, faults), faults, u)
    decreases |users|
  {
    if users != [] {
      var n := |users| - 1;
      var outcomes := BatchOutcomes(s, promo, users, faults);
      BatchMarks(s, promo, users[..n], faults, u);
      assert outcomes[..n] == BatchOutcomes(s, promo, users[..n], faults);
      HandedMarks(BatchShelf(s, promo, users[..n], faults), users[n], promo, faults(n), u);
      NewlyMarkedOneMore(users, outcomes, faults, u);
    }
  }

  lemma HandedMarks(s: Shelf, userId: nat, promo: nat, fault: Fault, u: nat)
    requires promo in s.promos
    ensures var outcome := Ended(s, userId, promo, fault);
            u in Of(Handed(s, userId, promo, fault).issued, promo, {}) <==>
            || u in Of(s.issued, promo, {})
            || (u == userId && (outcome == Issued || (outcome == Failed(true) && fault == WhenDecrementing)))
  {
  }

  // ---------------------------------------------------------------- any number of runs

  /** What a run popped for a promotion, where its iterations failed, and whether its transaction committed. */
  datatype Popping = Popping(promo: nat, users: seq<nat>, faults: nat -> Fault, commits: bool)

  /** The promotions that a run goes through, ordered by when they were created, the latest first. */
  function Active(promos: map<nat, Promo>, now: int): map<nat, int> {
    map f | f in promos && promos[f].stockQuantity > 0 && promos[f].startDate <= now <= promos[f].endDate ::
      -promos[f].createdAt
  }

  ghost predicate Listed(s: Shelf, runs: seq<Popping>) {
    forall run | run in runs :: run.promo in s.promos
  }

  function AfterRun(s: Shelf, run: Popping): (t: Shelf)
    requires run.promo in s.promos
    ensures t.promos.Keys == s.promos.Keys
  {
    var t := BatchShelf(s, run.promo, run.users, run.faults);
    if run.commits then t else t.(promos := s.promos, rows := s.rows)
  }

  function AfterRuns(s: Shelf, runs: seq<Popping>): (t: Shelf)
    requires Listed(s, runs)
    ensures t.promos.Keys == s.promos.Keys
    decreases |runs|
  {
    if runs == [] then s else AfterRun(AfterRuns(s, runs[..|runs| - 1]), runs[|runs| - 1])
  }

  function QueueOf(queues: map<nat, map<nat, int>>, promo: nat): map<nat, int> {
    Of(queues, promo, map[])
  }

  function QueuesAfter(queues: map<nat, map<nat, int>>, runs: seq<Popping>): map<nat, map<nat, int>> {
    if runs == [] then queues
    else
      var earlier, last := QueuesAfter(queues, runs[..|runs| - 1]), runs[|runs| - 1];
      earlier[last.promo := QueueOf(earlier, last.promo) - Elements(last.users)]
  }

  /** Each run pops the earliest requests, as many as there is stock, and at most a hundred. */
  ghost predicate PopsInTurn(s: Shelf, queues: map<nat, map<nat, int>>, runs: seq<Popping>)
    requires Listed(s, runs)
    decreases |runs|
  {
    runs == [] ||
    var n := |runs| - 1;
    PopsInTurn(s, queues, runs[..n]) && PopsNext(AfterRuns(s, runs[..n]), QueuesAfter(queues, runs[..n]), runs[n])
  }

  ghost predicate PopsNext(s: Shelf, queues: map<nat, map<nat, int>>, run: Popping)
    requires run.promo in s.promos
  {
    var queue := QueueOf(queues, run.promo);
    PopsMin(queue, Limit(s.promos[run.promo].stockQuantity), run.users, queue - Elements(run.users))
  }

  function Limit(stock: int): nat {
    if stock < 0 then 0 else if BATCH_SIZE <= stock then BATCH_SIZE else stock
  }

  /** A batch is at most a hundred requests and at most the stock; whoever is left waiting came later than all of it,
      and is left only because it is full. */
  lemma EarliestServed(s: Shelf, queues: map<nat, map<nat, int>>, run: Popping)
    requires run.promo in s.promos && PopsNext(s, queues, run)
    ensures var queue, stock := QueueOf(queues, run.promo), s.promos[run.promo].stockQuantity;
            && |run.users| <= 100 && (run.users != [] ==> |run.users| <= stock)
            && (forall u | u in run.users :: u in queue)
            && (forall i, j | 0 <= i < j < |run.users| ::
                  run.users[i] != run.users[j] && queue[run.users[i]] <= queue[run.users[j]])
            && forall w | w in queue && w !in run.users ::
                 && (|run.users| == 100 || |run.users| >= stock)
                 && forall u | u in run.users :: queue[u] <= queue[w]
  {
    var queue := QueueOf(queues, run.promo);
    assert forall u | u in run.users :: u in Elements(run.users);
    forall w | w in queue && w !in run.users
      ensures |run.users| == Limit(s.promos[run.promo].stockQuantity)
      ensures forall u | u in run.users :: queue[u] <= queue[w]
    {
      assert w in queue - Elements(run.users);
      SizeOfElements(run.users);
      SubsetSize(Elements(run.users), queue.Keys - {w});
    }
  }

  /** The runs fail and commit as told. */
  ghost predicate AsGiven(runs: seq<Popping>, faults: nat -> nat -> Fault, commits: nat -> bool) {
    forall i | 0 <= i < |runs| :: Given(runs[i], i, faults, commits)
  }

  ghost predicate Given(run: Popping, i: nat, faults: nat -> nat -> Fault, commits: nat -> bool) {
    run.faults == faults(i) && run.commits == commits(i)
  }

  lemma OneMoreRun(s: Shelf, queues: map<nat, map<nat, int>>, runs: seq<Popping>, last: Popping)
    requires Listed(s, runs) && PopsInTurn(s, queues, runs) && last.promo in s.promos
    requires PopsNext(AfterRuns(s, runs), QueuesAfter(queues, runs), last)
    ensures Listed(s, runs + [last]) && PopsInTurn(s, queues, runs + [last])
    ensures AfterRuns(s, runs + [last]) == AfterRun(AfterRuns(s, runs), last)
    ensures QueuesAfter(queues, runs + [last]) ==
            var earlier := QueuesAfter(queues, runs);
            earlier[last.promo := QueueOf(earlier, last.promo) - Elements(last.users)]
  {
    assert (runs + [last])[..|runs|] == runs;
  }

  /** A batch that does not commit takes its coupons back but not its marks: a user who had got one, and holds none now,
      is refused by every live call while the promotion is on. */
  lemma RolledBackIsRefused(s: Shelf, run: Popping, k: nat, now: int, marks: bool, r: Result<nat>)
    requires ShelfOk(s) && run.promo in s.promos && Distinct(run.users) && k < |run.users| && !run.commits
    requires run.faults(k) == NoFault && !Taken(s.rows, run.users[k], s.promos[run.promo].couponId)
    requires s.promos[run.promo].startDate <= now <= s.promos[run.promo].endDate
    requires Answers(AfterRun(s, run), run.users[k], run.promo, now, marks, r)
    ensures !Taken(AfterRun(s, run).rows, run.users[k], s.promos[run.promo].couponId)
    ensures r == Err(AlreadyIssued)
  {
    BatchServes(s, run.promo, run.users, run.faults, k);
    BatchMarks(s, run.promo, run.users, run.faults, run.users[k]);
  }

  /** Runs after runs are runs. */
  lemma {:induction false} RunsConcat(s: Shelf, queues: map<nat, map<nat, int>>, a: seq<Popping>, b: seq<Popping>)
    requires Listed(s, a) && Listed(s, b)
    ensures Listed(s, a + b) && Listed(AfterRuns(s, a), b)
    ensures AfterRuns(s, a + b) == AfterRuns(AfterRuns(s, a), b)
    ensures QueuesAfter(queues, a + b) == QueuesAfter(QueuesAfter(queues, a), b)
    ensures PopsInTurn(s, queues, a) && PopsInTurn(AfterRuns(s, a), QueuesAfter(queues, a), b) ==>
            PopsInTurn(s, queues, a + b)
    decreases |b|
  {
    if b == [] {
      assert a + b == a;
    } else {
      var n := |b| - 1;
      assert (a + b)[..|a + b| - 1] == a + b[..n];
      RunsConcat(s, queues, a, b[..n]);
    }
  }

  /** The iterations of committed runs that failed between creating and decrementing. */
  function Unpaid(s: Shelf, runs: seq<Popping>, f: nat): nat
    requires Listed(s, runs)
    decreases |runs|
  {
    if runs == [] then 0
    else Unpaid(s, runs[..|runs| - 1], f) + UnpaidIn(AfterRuns(s, runs[..|runs| - 1]), runs[|runs| - 1], f)
  }

  function UnpaidIn(s: Shelf, run: Popping, f: nat): nat
    requires run.promo in s.promos
  {
    if run.commits && run.promo == f then Count(BatchOutcomes(s, run.promo, run.users, run.faults), Failed(true)) else 0
  }

  lemma RunAccounting(s: Shelf, run: Popping, f: nat)
    requires ShelfOk(s) && run.promo in s.promos && f in s.promos && s.promos[f].stockQuantity >= 0
    requires run.promo == f ==> |run.users| <= s.promos[f].stockQuantity
    ensures var t := AfterRun(s, run);
            && ShelfOk(t)
            && t.promos[f].stockQuantity >= 0 && Made(t, f, Service) == Made(s, f, Service)
            && t.promos[f].stockQuantity + Made(t, f, Scheduler) ==
               s.promos[f].stockQuantity + Made(s, f, Scheduler) + UnpaidIn(s, run, f)
  {
    BatchAccounting(s, run.promo, run.users, run.faults, f);
    BatchIdentifiers(s, run.promo, run.users, run.faults);
    OutcomesPartition(BatchOutcomes(s, run.promo, run.users, run.faults));
  }

  /** Over any number of runs, for any promotion: its stock never goes below zero, and the stock left and the coupons
      created make up the initial stock and the iterations that failed between the two. */
  lemma {:induction false} SchedulerAccounting(s: Shelf, queues: map<nat, map<nat, int>>, runs: seq<Popping>, f: nat)
    requires ShelfOk(s) && Listed(s, runs) && f in s.promos && s.promos[f].stockQuantity >= 0
    requires PopsInTurn(s, queues, runs)
    ensures var t := AfterRuns(s, runs);
            && ShelfOk(t)
            && t.promos[f].stockQuantity >= 0 && Made(t, f, Service) == Made(s, f, Service)
            && t.promos[f].stockQuantity + Made(t, f, Scheduler) ==
               s.promos[f].stockQuantity + Made(s, f, Scheduler) + Unpaid(s, runs, f)
    decreases |runs|
  {
    if runs != [] {
      var n := |runs| - 1;
      SchedulerAccounting(s, queues, runs[..n], f);
      RunAccounting(AfterRuns(s, runs[..n]), runs[n], f);
    }
  }

  function PromosOf(runs: seq<Popping>): seq<nat> {
    seq(|runs|, i requires 0 <= i < |runs| => runs[i].promo)
  }

  /** A run goes through the latest hundred promotions that have stock and are on: it leaves out none unless there are
      a hundred at least as new, and the latest come first. */
  ghost predicate Selects(promos: map<nat, Promo>, now: int, chosen: seq<nat>) {
    && |chosen| <= 100 && Distinct(chosen)
    && (forall f | f in chosen ::
          f in promos && promos[f].stockQuantity > 0 && promos[f].startDate <= now <= promos[f].endDate)
    && (forall i, j | 0 <= i < j < |chosen| :: promos[chosen[i]].createdAt >= promos[chosen[j]].createdAt)
    && forall f | f in promos && f !in chosen ::
         promos[f].stockQuantity > 0 && promos[f].startDate <= now <= promos[f].endDate ==>
           |chosen| == 100 && forall g | g in chosen :: promos[g].createdAt >= promos[f].createdAt
  }

  /** The query, ordered by descending time of creation and limited to a page, selects them. */
  lemma PageSelects(promos: map<nat, Promo>, now: int, chosen: seq<nat>, others: map<nat, int>)
    requires PopsMin(Active(promos, now), PAGE_SIZE, chosen, others)
    ensures Selects(promos, now, chosen)
  {
    var active := Active(promos, now);
    assert forall f | f in chosen :: f in Elements(chosen);
    forall f | f in active && f !in chosen
      ensures |chosen| == 100 && forall g | g in chosen :: promos[g].createdAt >= promos[f].createdAt
    {
      assert f in others;
      SizeOfElements(chosen);
      SubsetSize(Elements(chosen), active.Keys - {f});
    }
  }

  // ---------------------------------------------------------------- promotions that are not on

  ghost predicate Untouched(s: Shelf, queues: map<nat, map<nat, int>>, t: Shelf, sorted: map<nat, map<nat, int>>,
                            f: nat)
    requires f in s.promos && f in t.promos
  {
    && t.promos[f] == s.promos[f] && QueueOf(sorted, f) == QueueOf(queues, f)
    && Made(t, f, Service) == Made(s, f, Service) && Made(t, f, Scheduler) == Made(s, f, Scheduler)
    && Of(t.issued, f, {}) == Of(s.issued, f, {})
  }

  /** Runs for other promotions leave a promotion alone: its stock, queue, rows and marks. */
  lemma {:induction false} OthersUntouched(s: Shelf, queues: map<nat, map<nat, int>>, runs: seq<Popping>, f: nat)
    requires ShelfOk(s) && f in s.promos && Listed(s, runs) && forall run | run in runs :: run.promo != f
    ensures ShelfOk(AfterRuns(s, runs)) && Untouched(s, queues, AfterRuns(s, runs), QueuesAfter(queues, runs), f)
    decreases |runs|
  {
    if runs != [] {
      var n := |runs| - 1;
      var t := AfterRuns(s, runs[..n]);
      OthersUntouched(s, queues, runs[..n], f);
      BatchAccounting(t, runs[n].promo, runs[n].users, runs[n].faults, f);
      OtherMarksStay(t, runs[n].promo, runs[n].users, runs[n].faults, f);
      RunOk(t, runs[n]);
    }
  }

  lemma {:induction false} OtherMarksStay(s: Shelf, promo: nat, users: seq<nat>, faults: nat -> Fault, f: nat)
    requires promo in s.promos && f != promo
    ensures Of(BatchShelf(s, promo, users, faults).issued, f, {}) == Of(s.issued, f, {})
    decreases |users|
  {
    if users != [] {
      OtherMarksStay(s, promo, users[..|users| - 1], faults, f);
    }
  }

  /** Over any number of runs at given times: a promotion that is on at none of them keeps its stock, its queue, its
      rows and its marks. */
  lemma {:induction false} NothingOutOfPeriod(s: Shelf, queues: map<nat, map<nat, int>>, rounds: seq<seq<Popping>>,
      times: seq<int>, f: nat)
    requires ShelfOk(s) && f in s.promos && |times| >= |rounds| && Listed(s, Flat(rounds))
    requires SelectsInTurn(s, rounds, times)
    requires forall k | 0 <= k < |rounds| :: !(s.promos[f].startDate <= times[k] <= s.promos[f].endDate)
    ensures ShelfOk(AfterRuns(s, Flat(rounds)))
    ensures Untouched(s, queues, AfterRuns(s, Flat(rounds)), QueuesAfter(queues, Flat(rounds)), f)
    decreases |rounds|
  {
    if rounds != [] {
      var n := |rounds| - 1;
      var earlier := Flat(rounds[..n]);
      NothingOutOfPeriod(s, queues, rounds[..n], times, f);
      NotSelected(AfterRuns(s, earlier).promos, times[n], rounds[n], f);
      RunsConcat(s, queues, earlier, rounds[n]);
      OthersUntouched(AfterRuns(s, earlier), QueuesAfter(queues, earlier), rounds[n], f);
    }
  }

  lemma NotSelected(promos: map<nat, Promo>, now: int, runs: seq<Popping>, f: nat)
    requires Selects(promos, now, PromosOf(runs))
    requires f in promos && !(promos[f].startDate <= now <= promos[f].endDate)
    ensures forall run | run in runs :: run.promo != f
  {
    assert forall i | 0 <= i < |runs| :: PromosOf(runs)[i] == runs[i].promo;
  }

  lemma IdleUntouched(s: Shelf, queues: map<nat, map<nat, int>>, rounds: seq<seq<Popping>>, times: seq<int>)
    requires ShelfOk(s) && |times| == |rounds| && Listed(s, Flat(rounds)) && SelectsInTurn(s, rounds, times)
    ensures forall f | f in s.promos ::
              (forall k | 0 <= k < |times| :: !(s.promos[f].startDate <= times[k] <= s.promos[f].endDate)) ==>
                Untouched(s, queues, AfterRuns(s, Flat(rounds)), QueuesAfter(queues, Flat(rounds)), f)
  {
    forall f | f in s.promos
               && forall k | 0 <= k < |times| :: !(s.promos[f].startDate <= times[k] <= s.promos[f].endDate)
      ensures Untouched(s, queues, AfterRuns(s, Flat(rounds)), QueuesAfter(queues, Flat(rounds)), f)
    {
      NothingOutOfPeriod(s, queues, rounds, times, f);
    }
  }

  function Flat(rounds: seq<seq<Popping>>): seq<Popping> {
    if rounds == [] then [] else Flat(rounds[..|rounds| - 1]) + rounds[|rounds| - 1]
  }

  ghost predicate SelectsInTurn(s: Shelf, rounds: seq<seq<Popping>>, times: seq<int>)
    requires |times| >= |rounds| && Listed(s, Flat(rounds))
    decreases |rounds|
  {
    rounds == [] ||
    var n := |rounds| - 1;
    && SelectsInTurn(s, rounds[..n], times)
    && Selects(AfterRuns(s, Flat(rounds[..n])).promos, times[n], PromosOf(rounds[n]))
  }

  /** The first runs of a round over the promotions `active` are through; the others' stock is as it was loaded. */
  ghost predicate Halfway(s: Shelf, queues: map<nat, map<nat, int>>, active: seq<nat>, runs: seq<Popping>,
                          t: Shelf, sorted: map<nat, map<nat, int>>) {
    && |runs| <= |active| && PromosOf(runs) == active[..|runs|]
    && Listed(s, runs) && PopsInTurn(s, queues, runs)
    && t == AfterRuns(s, runs) && sorted == QueuesAfter(queues, runs) && ShelfOk(t)
    && forall j | |runs| <= j < |active| :: active[j] in s.promos && t.promos[active[j]] == s.promos[active[j]]
  }

  lemma Further(s: Shelf, queues: map<nat, map<nat, int>>, active: seq<nat>, runs: seq<Popping>,
                t: Shelf, sorted: map<nat, map<nat, int>>, run: Popping)
    requires Halfway(s, queues, active, runs, t, sorted) && Distinct(active)
    requires |runs| < |active| && run.promo == active[|runs|] && PopsNext(t, sorted, run)
    ensures Halfway(s, queues, active, runs + [run], AfterRun(t, run),
                    sorted[run.promo := QueueOf(sorted, run.promo) - Elements(run.users)])
  {
    OneMoreRun(s, queues, runs, run);
    RunOk(t, run);
    PromosOfOneMore(runs, run, active);
    OthersStay(t, run, active, |runs| + 1);
  }

  lemma PromosOfOneMore(runs: seq<Popping>, run: Popping, active: seq<nat>)
    requires |runs| < |active| && PromosOf(runs) == active[..|runs|] && run.promo == active[|runs|]
    ensures PromosOf(runs + [run]) == active[..|runs| + 1]
  {
    assert PromosOf(runs + [run]) == PromosOf(runs) + [run.promo];
  }

  lemma OthersStay(s: Shelf, run: Popping, active: seq<nat>, from: nat)
    requires ShelfOk(s) && run.promo in s.promos && from <= |active|
    requires forall j | from <= j < |active| :: active[j] in s.promos && active[j] != run.promo
    ensures forall j | from <= j < |active| :: AfterRun(s, run).promos[active[j]] == s.promos[active[j]]
  {
    forall j | from <= j < |active| ensures AfterRun(s, run).promos[active[j]] == s.promos[active[j]] {
      OtherPromoStays(s, run, active[j]);
    }
  }

  lemma GivenOneMore(runs: seq<Popping>, run: Popping, faults: nat -> nat -> Fault, commits: nat -> bool)
    requires AsGiven(runs, faults, commits) && Given(run, |runs|, faults, commits)
    ensures AsGiven(runs + [run], faults, commits)
  {
    forall i | 0 <= i < |runs| + 1 ensures Given((runs + [run])[i], i, faults, commits) {
      assert i < |runs| ==> Given(runs[i], i, faults, commits);
    }
  }

  ghost predicate AllGiven(rounds: seq<seq<Popping>>, faults: nat -> nat -> nat -> Fault, commits: nat -> nat -> bool) {
    forall k | 0 <= k < |rounds| :: AsGiven(rounds[k], faults(k), commits(k))
  }

  lemma AllGivenOneMore(rounds: seq<seq<Popping>>, runs: seq<Popping>, faults: nat -> nat -> nat -> Fault,
      commits: nat -> nat -> bool)
    requires AllGiven(rounds, faults, commits) && AsGiven(runs, faults(|rounds|), commits(|rounds|))
    ensures AllGiven(rounds + [runs], faults, commits)
  {
    forall k | 0 <= k < |rounds| + 1 ensures AsGiven((rounds + [runs])[k], faults(k), commits(k)) {
      assert k < |rounds| ==> AsGiven(rounds[k], faults(k), commits(k));
    }
  }

  /** Another promotion's batch leaves a promotion as it is. */
  lemma OtherPromoStays(s: Shelf, run: Popping, f: nat)
    requires ShelfOk(s) && run.promo in s.promos && f in s.promos && f != run.promo
    ensures AfterRun(s, run).promos[f] == s.promos[f]
  {
    BatchAccounting(s, run.promo, run.users, run.faults, f);
  }

  lemma RunOk(s: Shelf, run: Popping)
    requires ShelfOk(s) && run.promo in s.promos
    ensures ShelfOk(AfterRun(s, run))
  {
    BatchAccounting(s, run.promo, run.users, run.faults, run.promo);
    BatchIdentifiers(s, run.promo, run.users, run.faults);
  }

  class CouponStore {
    var promos: map<nat, Promo>
    var rows: map<nat, UserCoupon>
    var locks: set<nat>         // promotions whose Redlock is held
    var nextId: nat
    const redis: RedisService   // sets: issued users; sorted sets: waiting requests; both keyed by promotion

    function Contents(): Shelf
      reads this, redis
    {
      Shelf(promos, rows, nextId, redis.sets)
    }

    ghost predicate Valid()
      reads this, redis
    {
      ShelfOk(Contents())
    }

    constructor (promos: map<nat, Promo>, redis: RedisService)
      ensures Valid() && Contents() == Shelf(promos, map[], 0, redis.sets) && this.locks == {} && this.redis == redis
    {
      this.promos, this.rows, this.locks, this.nextId, this.redis := promos, map[], {}, 0, redis;
    }

    /** Inserts a row unless the unique index on user and coupon rejects it. */
    method CreateUserCoupon(userId: nat, promo: nat, path: Path) returns (ok: bool)
      requires Valid() && promo in promos
      modifies this`rows, this`nextId
      ensures Valid()
      ensures ok <==> !Taken(old(rows), userId, promos[promo].couponId)
      ensures Contents() == if ok then old(WithRow(Contents(), userId, promo, path)) else old(Contents())
    {
      var couponId := promos[promo].couponId;
      if exists id | id in rows :: rows[id].userId == userId && rows[id].couponId == couponId {
        return false;
      }
      rows := rows[nextId := UserCoupon(userId, couponId, AVAILABLE, promo, path)];
      nextId := nextId + 1;
      return true;
    }

    method FindExistingUserCoupon(userId: nat, couponId: nat) returns (found: bool)
      ensures found <==> HasAvailable(rows, userId, couponId)
    {
      found := exists id | id in rows ::
          rows[id].userId == userId && rows[id].couponId == couponId && rows[id].status == AVAILABLE;
    }

    /** The live service call. `marks` tells whether Redis accepts the final mark. */
    method IssueFcfsCoupon(userId: nat, promo: nat, now: int, marks: bool) returns (r: Result<nat>)
      requires Valid()
      modifies this, redis
      ensures Valid() && locks == old(locks) && redis.sorted == old(redis.sorted)
      ensures if promo in old(locks) then r == Err(Conflict) else Answers(old(Contents()), userId, promo, now, marks, r)
      ensures Contents() == Answered(old(Contents()), userId, promo, r)
      ensures promos == old(promos) && forall k | k != promo :: redis.Members(k) == old(redis.Members(k))
      ensures r.Ok? || r == Err(RedisDown) ==>
                && promo in promos && old(nextId) !in old(rows) && (r.Ok? ==> r.value == old(nextId))
                && rows ==
                   old(rows)[old(nextId) := UserCoupon(userId, promos[promo].couponId, AVAILABLE, promo, Service)]
                && redis.Members(promo) == old(redis.Members(promo)) + if r.Ok? then {userId} else {}
      ensures r.Err? && r != Err(RedisDown) ==> rows == old(rows) && redis.sets == old(redis.sets)
    {
      ghost var before := Contents();
      if promo in locks {
        return Err(Conflict);
      }
      locks := locks + {promo};
      r := IssueLocked(userId, promo, now, marks);
      locks := locks - {promo};
      AnswerLeaves(before, userId, promo, now, marks, r);
    }

    method IssueLocked(userId: nat, promo: nat, now: int, marks: bool) returns (r: Result<nat>)
      requires Valid()
      modifies this`rows, this`nextId, redis`sets
      ensures Valid()
      ensures Answers(old(Contents()), userId, promo, now, marks, r)
      ensures Contents() == Answered(old(Contents()), userId, promo, r)
    {
      if promo !in promos {
        return Err(NotFound);
      }
      var fcfsCoupon := promos[promo];
      if now < fcfsCoupon.startDate || now > fcfsCoupon.endDate {
        return Err(NotAvailableNow);
      }
      var hasIssued := redis.SIsMember(promo, userId);
      if hasIssued {
        return Err(AlreadyIssued);
      }
      var issuedCount := redis.SCard(promo);
      if issuedCount >= fcfsCoupon.stockQuantity {
        return Err(StockEmpty);
      }
      var existing := FindExistingUserCoupon(userId, fcfsCoupon.couponId);
      if existing {
        return Err(AlreadyIssued);
      }
      var id := nextId;
      var created := CreateUserCoupon(userId, promo, Service);
      if !created {
        return Err(UniqueViolation);
      }
      if !marks {
        return Err(RedisDown);
      }
      redis.SAdd(promo, userId);
      return Ok(id);
    }

    /** Any number of live calls, one after another. With every mark accepted and nobody marked before, the rows that
        they create through a promotion never exceed its stock; in general each lost mark makes room for one row more,
        and each user marked before for one less. */
    method ServeCalls(calls: seq<Call>) returns (answers: seq<Result<nat>>)
      requires Valid()
      modifies this, redis
      ensures Valid() && |answers| == |calls| && promos == old(promos) && locks == old(locks)
      ensures forall f | f in promos ::
                var made := |Through(rows, f, Service)| - |Through(old(rows), f, Service)|;
                && made == Successes(calls, answers, f) + Losses(calls, answers, f)
                && |redis.Members(f)| == |old(redis.Members(f))| + Successes(calls, answers, f)
                && Successes(calls, answers, f) <= Room(promos[f].stockQuantity, |old(redis.Members(f))|)
                && (SoldOut(calls, answers, f) ==> |redis.Members(f)| >= promos[f].stockQuantity)
      ensures (forall call | call in calls :: call.marks) ==> forall f | f in promos && old(redis.Members(f)) == {} ::
                |Through(rows, f, Service)| - |Through(old(rows), f, Service)| <= Room(promos[f].stockQuantity, 0)
    {
      ghost var before := Contents();
      answers := [];
      for i := 0 to |calls|
        invariant Valid() && |answers| == i && promos == old(promos) && locks == old(locks)
        invariant forall f | f in promos :: Capped(before, calls, answers, Contents(), f)
        invariant (forall call | call in calls :: call.marks) ==>
                    forall j | 0 <= j < |answers| :: answers[j] != Err(RedisDown)
      {
        ghost var s := Contents();
        var call := calls[i];
        var r := IssueFcfsCoupon(call.userId, call.promo, call.now, call.marks);
        forall f | f in promos ensures Capped(before, calls, answers + [r], Contents(), f) {
          assert Capped(before, calls, answers, s, f);
          CappedOneMore(before, calls, answers, s, r, f);
        }
        assert call in calls;
        answers := answers + [r];
      }
      forall f | f in promos ensures Capped(before, calls, answers, Contents(), f) {
      }
      if forall call | call in calls :: call.marks {
        forall f | f in promos ensures Losses(calls, answers, f) == 0 {
          NoLosses(calls, answers, f);
        }
      }
    }

    /** The single conditional update that nothing calls. */
    method IssueAtomically(userId: nat, promo: nat) returns (r: Result<nat>)
      requires Valid()
      modifies this`promos, this`rows, this`nextId
      ensures Valid()
      ensures r == if old(promo in promos && promos[promo].stockQuantity > 0
                          && !Taken(rows, userId, promos[promo].couponId))
                   then Ok(old(nextId)) else Err(NotAvailable)
      ensures Contents() == if r.Ok?
                            then old(WithRow(Contents(), userId, promo, Service).(promos := Sold(promos, promo, 1)))
                            else old(Contents())
    {
      if promo !in promos || promos[promo].stockQuantity <= 0 {
        return Err(NotAvailable);
      }
      var couponId := promos[promo].couponId;
      if exists id | id in rows :: rows[id].userId == userId && rows[id].couponId == couponId {
        return Err(NotAvailable);
      }
      r := Ok(nextId);
      promos := promos[promo := promos[promo].(stockQuantity := promos[promo].stockQuantity - 1)];
      var created := CreateUserCoupon(userId, promo, Service);
    }

    /** One iteration of the scheduler: it skips users who hold the coupon, and swallows every error. */
    method IssueScheduled(userId: nat, promo: nat, fault: Fault) returns (outcome: Outcome)
      requires Valid() && promo in promos
      modifies this`rows, this`nextId, this`promos, redis`sets
      ensures outcome == old(Ended(Contents(), userId, promo, fault))
      ensures Contents() == old(Handed(Contents(), userId, promo, fault))
    {
      if fault == WhenLoading {
        return Failed(false);
      }
      var existing := FindExistingUserCoupon(userId, promos[promo].couponId);
      if existing {
        return Skipped;
      }
      if fault == WhenCreating {
        return Failed(false);
      }
      var created := CreateUserCoupon(userId, promo, Scheduler);
      if !created {
        return Failed(false);
      }
      if fault == WhenMarking {
        return Failed(true);
      }
      redis.SAdd(promo, userId);
      if fault == WhenDecrementing {
        return Failed(true);
      }
      promos := promos[promo := promos[promo].(stockQuantity := promos[promo].stockQuantity - 1)];
      return Issued;
    }

    /** The popped requests of one promotion, one after another. */
    method IssueBatch(promo: nat, requestUsers: seq<nat>, faults: nat -> Fault) returns (outcomes: seq<Outcome>)
      requires Valid() && promo in promos
      modifies this`rows, this`nextId, this`promos, redis`sets
      ensures Valid()
      ensures Contents() == old(BatchShelf(Contents(), promo, requestUsers, faults))
      ensures outcomes == old(BatchOutcomes(Contents(), promo, requestUsers, faults))
    {
      ghost var before := Contents();
      outcomes := [];
      for i := 0 to |requestUsers|
        invariant Valid() && promo in promos
        invariant Contents() == BatchShelf(before, promo, requestUsers[..i], faults)
        invariant outcomes == BatchOutcomes(before, promo, requestUsers[..i], faults)
      {
        ghost var so := requestUsers[..i + 1];
        assert so[..i] == requestUsers[..i] && so[i] == requestUsers[i];
        HandedOk(Contents(), requestUsers[i], promo, faults(i));
        var outcome := IssueScheduled(requestUsers[i], promo, faults(i));
        outcomes := outcomes + [outcome];
      }
      assert requestUsers[..|requestUsers|] == requestUsers;
    }

    /** The batch as one transaction: if it does not commit, the tables are as before; marks in Redis stay,
        and identifiers stay used. */
    method IssueInTransaction(promo: nat, requestUsers: seq<nat>, faults: nat -> Fault, commits: bool)
      returns (outcomes: seq<Outcome>)
      requires Valid() && promo in promos
      modifies this`rows, this`nextId, this`promos, redis`sets
      ensures Valid()
      ensures var after := old(BatchShelf(Contents(), promo, requestUsers, faults));
              Contents() == if commits then after else after.(promos := old(promos), rows := old(rows))
      ensures outcomes == old(BatchOutcomes(Contents(), promo, requestUsers, faults))
    {
      var promosBefore, rowsBefore := promos, rows;
      ghost var before := Contents();
      outcomes := IssueBatch(promo, requestUsers, faults);
      if !commits {
        BatchIdentifiers(before, promo, requestUsers, faults);
        promos, rows := promosBefore, rowsBefore;
      }
    }

    /** A run of the scheduler for one active promotion, with the stock as the run has loaded it: it pops no more
        requests than that; the requests are gone even if the transaction does not commit. */
    method ProcessPromotion(promo: nat, stock: int, faults: nat -> Fault, commits: bool) returns (run: Popping)
      requires Valid() && promo in promos && stock == promos[promo].stockQuantity
      modifies this`rows, this`nextId, this`promos, redis
      ensures Valid() && run.promo == promo && run.faults == faults && run.commits == commits
      ensures PopsNext(old(Contents()), old(redis.sorted), run)
      ensures Contents() == AfterRun(old(Contents()), run)
      ensures redis.sorted == old(redis.sorted)[promo := QueueOf(old(redis.sorted), promo) - Elements(run.users)]
    {
      ghost var before, queue := Contents(), redis.Queue(promo);
      var requestUsers := redis.ZPopMin(promo, Limit(stock));
      assert Contents() == before && queue == QueueOf(old(redis.sorted), promo);
      run := Popping(promo, requestUsers, faults, commits);
      RunOk(before, run);
      if |requestUsers| == 0 {
        return;
      }
      var outcomes := IssueInTransaction(promo, requestUsers, faults, commits);
    }

    /** One run: the latest active promotions, one after another. Their stock is read once, at the start,
        and is still the same when their turn comes. */
    method ProcessCouponRequests(now: int, faults: nat -> nat -> Fault, commits: nat -> bool)
        returns (runs: seq<Popping>)
      requires Valid()
      modifies this`rows, this`nextId, this`promos, redis
      ensures Valid() && Listed(old(Contents()), runs) && AsGiven(runs, faults, commits)
      ensures Selects(old(promos), now, PromosOf(runs))
      ensures PopsInTurn(old(Contents()), old(redis.sorted), runs)
      ensures Contents() == AfterRuns(old(Contents()), runs) && redis.sorted == QueuesAfter(old(redis.sorted), runs)
    {
      ghost var before, queues := Contents(), redis.sorted;
      var loaded := promos;
      var activeCoupons, others := TakeMinima(Active(loaded, now), PAGE_SIZE);
      PageSelects(loaded, now, activeCoupons, others);
      assert forall j | 0 <= j < |activeCoupons| :: activeCoupons[j] in Elements(activeCoupons);
      runs := [];
      for i := 0 to |activeCoupons|
        invariant |runs| == i && promos.Keys == loaded.Keys
        invariant Halfway(before, queues, activeCoupons, runs, Contents(), redis.sorted)
        invariant AsGiven(runs, faults, commits)
      {
        ghost var s, sorted := Contents(), redis.sorted;
        var fcfsCoupon := activeCoupons[i];
        var run := ProcessPromotion(fcfsCoupon, loaded[fcfsCoupon].stockQuantity, faults(i), commits(i));
        Further(before, queues, activeCoupons, runs, s, sorted, run);
        assert Given(run, i, faults, commits);
        GivenOneMore(runs, run, faults, commits);
        runs := runs + [run];
      }
      assert PromosOf(runs) == activeCoupons;
    }

    /** Any number of runs, one after another. */
    method RunScheduler(times: seq<int>, faults: nat -> nat -> nat -> Fault, commits: nat -> nat -> bool)
      returns (rounds: seq<seq<Popping>>)
      requires Valid()
      modifies this`rows, this`nextId, this`promos, redis
      ensures Valid() && |rounds| == |times| && Listed(old(Contents()), Flat(rounds))
      ensures AllGiven(rounds, faults, commits)
      ensures SelectsInTurn(old(Contents()), rounds, times)
      ensures PopsInTurn(old(Contents()), old(redis.sorted), Flat(rounds))
      ensures Contents() == AfterRuns(old(Contents()), Flat(rounds))
      ensures redis.sorted == QueuesAfter(old(redis.sorted), Flat(rounds))
      ensures forall f | f in old(promos) ::
                (forall k | 0 <= k < |times| :: !(old(promos)[f].startDate <= times[k] <= old(promos)[f].endDate)) ==>
                  f in promos && Untouched(old(Contents()), old(redis.sorted), Contents(), redis.sorted, f)
    {
      ghost var before, queues := Contents(), redis.sorted;
      rounds := [];
      for k := 0 to |times|
        invariant Valid() && |rounds| == k && Listed(before, Flat(rounds))
        invariant AllGiven(rounds, faults, commits)
        invariant SelectsInTurn(before, rounds, times)
        invariant PopsInTurn(before, queues, Flat(rounds))
        invariant Contents() == AfterRuns(before, Flat(rounds)) && redis.sorted == QueuesAfter(queues, Flat(rounds))
      {
        var runs := ProcessCouponRequests(times[k], faults(k), commits(k));
        RunsConcat(before, queues, Flat(rounds), runs);
        AllGivenOneMore(rounds, runs, faults, commits);
        assert (rounds + [runs])[..k] == rounds;
        rounds := rounds + [runs];
      }
      IdleUntouched(before, queues, rounds, times);
    }
  }

  lemma {:induction false} BatchIdentifiers(s: Shelf, promo: nat, users: seq<nat>, faults: nat -> Fault)
    requires promo in s.promos
    ensures BatchShelf(s, promo, users, faults).nextId >= s.nextId
    decreases |users|
  {
    if users != [] {
      BatchIdentifiers(s, promo, users[..|users| - 1], faults);
    }
  }
}
