/** First-come-first-served coupons: any number of clients stepping through `CouponService.issueFcfsCoupon`,
    beside the iterations of the issue scheduler. */
module Coupons {
  import opened Selection

  datatype CouponStatus = AVAILABLE | USED | EXPIRED

  /** How a coupon came to its user: on one of the two paths, or before anybody asked for one. */
  datatype Path = Service | Scheduler | Earlier

  /** A `UserCoupon` row; `promo` and `path` record how it came about. */
  datatype UserCoupon = UserCoupon(userId: nat, couponId: nat, status: CouponStatus, promo: nat, path: Path)

  /** A `FcfsCoupon` row; `initial` is the `stockQuantity` that it started with. */
  datatype Promo = Promo(couponId: nat, startDate: int, endDate: int, createdAt: int, initial: nat, stockQuantity: int)

  /** The requests of a promotion that the scheduler has popped and has still to go through. */
  datatype Batch = NoBatch | Popped(promo: nat, left: nat)

  const BATCH_SIZE: nat := 100

  datatype Phase =
    | Waiting                                // for the lock of the promotion
    | Locked
    | Loaded(stock: int)                     // promotion read, issuing period checked
    | Unissued(stock: int)                   // not in the issued set
    | Covered                                // issued count below the stock that was read
    | Inserted                               // row created, not yet marked
    | Leaving(ok: bool)                      // result or error on its way out, lock still held
    | Left(ok: bool)

  /** `inserts` counts the rows that the call has created; `losesMark` tells that it could not mark one. */
  datatype Client = Client(userId: nat, promo: nat, phase: Phase, inserts: nat, losesMark: bool)

  datatype System = System(
    promos: map<nat, Promo>,
    rows: map<nat, UserCoupon>,
    issued: map<nat, set<nat>>,              // the issued set of each promotion, kept in Redis
    locks: map<nat, nat>,                    // the lock of each promotion and its holder
    clients: map<nat, Client>,
    lost: map<nat, set<nat>>,                // users whose row was created but could not be marked
    unpaid: map<nat, nat>,                   // scheduler iterations that failed between creating and decrementing
    batch: Batch                             // scheduler runs do not overlap
  )

  datatype Action =
    | Arrive(c: nat, userId: nat, promo: nat)
    | Lock(c: nat)
    | Refuse(c: nat)
    | Load(c: nat, now: int, seen: int)
    | CheckIssued(c: nat)
    | CheckCount(c: nat)
    | Insert(c: nat, id: nat)
    | Mark(c: nat)
    | Throw(c: nat)
    | Unlock(c: nat)
    | Spend(id: nat, status: CouponStatus)           // a coupon is used or expires
    | Pop(promo: nat, count: nat, now: int)          // the scheduler takes requests of an active promotion
    | Schedule(promo: nat, userId: nat, id: nat, creates: bool, marks: bool, decrements: bool)
        // one iteration; it creates no row if it skips, fails, or its transaction does not commit, but a mark stays
    | Finish                                         // the scheduler has gone through what it popped

  predicate OfScheduler(a: Action) {
    a.Pop? || a.Schedule? || a.Finish?
  }

  predicate OfClient(a: Action) {
    !a.Spend? && !OfScheduler(a)
  }

  function Of<T>(m: map<nat, T>, k: nat, otherwise: T): T {
    if k in m then m[k] else otherwise
  }

  /** The unique index on user and coupon. */
  predicate Taken(rows: map<nat, UserCoupon>, userId: nat, couponId: nat) {
    exists id :: id in rows && rows[id].userId == userId && rows[id].couponId == couponId
  }

  predicate Holding(phase: Phase) {
    !phase.Waiting? && !phase.Left?
  }

  predicate At(s: System, c: nat) {
    c in s.clients && s.clients[c].promo in s.promos
  }

  /** The action concerns what is there, and comes in its turn. */
  predicate Fits(s: System, a: Action) {
    match a
    case Arrive(c, userId, promo) => c !in s.clients
    case Lock(c) => At(s, c) && s.clients[c].phase.Waiting?
    case Refuse(c) => At(s, c) && s.clients[c].phase.Waiting?
    case Load(c, now, seen) => At(s, c) && s.clients[c].phase.Locked?
    case CheckIssued(c) => At(s, c) && s.clients[c].phase.Loaded?
    case CheckCount(c) => At(s, c) && s.clients[c].phase.Unissued?
    case Insert(c, id) => At(s, c) && s.clients[c].phase.Covered?
    case Mark(c) => At(s, c) && s.clients[c].phase.Inserted?
    case Throw(c) => At(s, c) && Holding(s.clients[c].phase) && !s.clients[c].phase.Leaving?
    case Unlock(c) => At(s, c) && s.clients[c].phase.Leaving?
    case Spend(id, status) => id in s.rows
    case Pop(promo, count, now) => promo in s.promos && s.batch.NoBatch?
    case Schedule(promo, userId, id, creates, marks, decrements) =>
      promo in s.promos && s.batch.Popped? && s.batch.promo == promo && s.batch.left > 0
    case Finish => s.batch.Popped? && s.batch.left == 0
  }

  predicate Enabled(s: System, a: Action) {
    Fits(s, a) &&
    match a
    case Arrive(c, userId, promo) => promo in s.promos
    case Lock(c) => s.clients[c].promo !in s.locks
    case Load(c, now, seen) =>
      // a scheduler transaction that has not committed yet leaves an older stock to be read
      var p := s.promos[s.clients[c].promo];
      p.startDate <= now <= p.endDate && p.stockQuantity <= seen <= p.initial
    case CheckIssued(c) => s.clients[c].userId !in Of(s.issued, s.clients[c].promo, {})
    case CheckCount(c) => |Of(s.issued, s.clients[c].promo, {})| < s.clients[c].phase.stock
    case Insert(c, id) =>
      id !in s.rows && !Taken(s.rows, s.clients[c].userId, s.promos[s.clients[c].promo].couponId)
    case Pop(promo, count, now) =>
      var p := s.promos[promo];
      p.startDate <= now <= p.endDate && 0 < count <= BATCH_SIZE && count <= p.stockQuantity
    case Schedule(promo, userId, id, creates, marks, decrements) =>
      && (creates ==> id !in s.rows && !Taken(s.rows, userId, s.promos[promo].couponId))
      && (decrements ==> creates && marks)
    case _ => true
  }

  function Moved(s: System, c: nat, phase: Phase): System
    requires c in s.clients
  {
    s.(clients := s.clients[c := s.clients[c].(phase := phase)])
  }

  function Marked(issued: map<nat, set<nat>>, promo: nat, userId: nat): map<nat, set<nat>> {
    issued[promo := Of(issued, promo, {}) + {userId}]
  }

  function Next(s: System, a: Action): System
    requires Fits(s, a)
  {
    match a
    case Arrive(c, userId, promo) => s.(clients := s.clients[c := Client(userId, promo, Waiting, 0, false)])
    case Lock(c) => Moved(s, c, Locked).(locks := s.locks[s.clients[c].promo := c])
    case Refuse(c) => Moved(s, c, Left(false))
    case Load(c, now, seen) => Moved(s, c, Loaded(seen))
    case CheckIssued(c) => Moved(s, c, Unissued(s.clients[c].phase.stock))
    case CheckCount(c) => Moved(s, c, Covered)
    case Insert(c, id) =>
      var cl := s.clients[c];
      s.(
        rows := s.rows[id := UserCoupon(cl.userId, s.promos[cl.promo].couponId, AVAILABLE, cl.promo, Service)],
        clients := s.clients[c := cl.(phase := Inserted, inserts := cl.inserts + 1)])
    case Mark(c) =>
      Moved(s, c, Leaving(true)).(issued := Marked(s.issued, s.clients[c].promo, s.clients[c].userId))
    case Throw(c) =>
      var cl := s.clients[c];
      if cl.phase.Inserted? then
        s.(
          clients := s.clients[c := cl.(phase := Leaving(false), losesMark := true)],
          lost := Marked(s.lost, cl.promo, cl.userId))
      else Moved(s, c, Leaving(false))
    case Unlock(c) => Moved(s, c, Left(s.clients[c].phase.ok)).(locks := s.locks - {s.clients[c].promo})
    case Spend(id, status) => s.(rows := s.rows[id := s.rows[id].(status := status)])
    case Schedule(promo, userId, id, creates, marks, decrements) =>
      var p := s.promos[promo];
      s.(
        rows := if creates then s.rows[id := UserCoupon(userId, p.couponId, AVAILABLE, promo, Scheduler)] else s.rows,
        issued := if marks then Marked(s.issued, promo, userId) else s.issued,
        promos := if decrements then s.promos[promo := p.(stockQuantity := p.stockQuantity - 1)] else s.promos,
        unpaid := if decrements || !creates then s.unpaid else s.unpaid[promo := Of(s.unpaid, promo, 0) + 1],
        batch := Popped(promo, s.batch.left - 1))
    case Pop(promo, count, now) => s.(batch := Popped(promo, count))
    case Finish => s.(batch := NoBatch)
  }

  // ---------------------------------------------------------------- what is counted

  /** The rows that came about through a promotion on one of the two paths. */
  function Through(rows: map<nat, UserCoupon>, promo: nat, path: Path): set<nat> {
    set id | id in rows && rows[id].promo == promo && rows[id].path == path
  }

  function UsersOf(rows: map<nat, UserCoupon>, ids: set<nat>): set<nat>
    requires ids <= rows.Keys
  {
    set id | id in ids :: rows[id].userId
  }

  function Served(s: System, promo: nat): set<nat> {
    UsersOf(s.rows, Through(s.rows, promo, Service))
  }

  /** The user whose row the lock holder has created and not yet marked. */
  function Unmarked(s: System, promo: nat): set<nat> {
    if promo in s.locks && s.locks[promo] in s.clients && s.clients[s.locks[promo]].phase.Inserted?
    then {s.clients[s.locks[promo]].userId} else {}
  }

  // ---------------------------------------------------------------- what every step keeps

  /** A promotion's lock is recorded for exactly the client whose phase says that it holds it. */
  ghost predicate LocksOk(locks: map<nat, nat>, clients: map<nat, Client>) {
    && (forall f | f in locks ::
          locks[f] in clients && clients[locks[f]].promo == f && Holding(clients[locks[f]].phase))
    && (forall c | c in clients && Holding(clients[c].phase) ::
          clients[c].promo in locks && locks[clients[c].promo] == c)
  }

  /** No user has two rows for a coupon, whichever promotions and paths they came through. */
  ghost predicate RowsOk(s: System) {
    && (forall i, j | i in s.rows && j in s.rows
          && s.rows[i].userId == s.rows[j].userId && s.rows[i].couponId == s.rows[j].couponId :: i == j)
    && (forall i | i in s.rows && s.rows[i].path != Earlier ::
          s.rows[i].promo in s.promos && s.rows[i].couponId == s.promos[s.rows[i].promo].couponId)
  }

  /** The call has created a row exactly when it is past its insert; then the user is marked, about to be, or lost. */
  ghost predicate ClientOk(s: System, cl: Client) {
    && cl.promo in s.promos
    && (match cl.phase
        case Loaded(stock) => stock <= s.promos[cl.promo].initial && Fresh(cl)
        case Unissued(stock) => stock <= s.promos[cl.promo].initial && Fresh(cl)
        case Covered =>
          && |Through(s.rows, cl.promo, Service)| < s.promos[cl.promo].initial + |Of(s.lost, cl.promo, {})|
          && Fresh(cl)
        case Inserted => cl.inserts == 1 && !cl.losesMark
        case Leaving(ok) => ReturnOk(s, cl, ok)
        case Left(ok) => ReturnOk(s, cl, ok)
        case _ => Fresh(cl))
  }

  predicate Fresh(cl: Client) {
    cl.inserts == 0 && !cl.losesMark
  }

  ghost predicate ReturnOk(s: System, cl: Client, ok: bool) {
    && !(ok && cl.losesMark)
    && cl.inserts == (if ok || cl.losesMark then 1 else 0)
    && (cl.losesMark ==> cl.userId in Of(s.lost, cl.promo, {}))
  }

  /** How many requests of a promotion the scheduler has popped and not gone through yet. */
  function ToDo(s: System, f: nat): nat {
    if s.batch.Popped? && s.batch.promo == f then s.batch.left else 0
  }

  /** Every user served is marked, about to be, or lost; the service path stays within the initial stock and the lost
      marks, and the scheduler path takes one off the stock for each of its rows but the unpaid ones. The stock covers
      what the scheduler still has to go through, since a batch was no larger than the stock. */
  ghost predicate PromoOk(s: System, f: nat) {
    f in s.promos ==>
      && Served(s, f) <= Of(s.issued, f, {}) + Unmarked(s, f) + Of(s.lost, f, {})
      && |Through(s.rows, f, Service)| <= s.promos[f].initial + |Of(s.lost, f, {})|
      && ToDo(s, f) <= s.promos[f].stockQuantity <= s.promos[f].initial
      && |Through(s.rows, f, Scheduler)| + s.promos[f].stockQuantity == s.promos[f].initial + Of(s.unpaid, f, 0)
  }

  ghost predicate SystemOk(s: System) {
    && LocksOk(s.locks, s.clients)
    && RowsOk(s)
    && (forall f | f in s.promos :: PromoOk(s, f))
    && forall c | c in s.clients :: ClientOk(s, s.clients[c])
  }

  lemma ClientStep(s: System, a: Action)
    requires Fits(s, a) && OfClient(a)
    ensures a.c in Next(s, a).clients
    ensures Next(s, a).clients == s.clients[a.c := Next(s, a).clients[a.c]]
    ensures a.Arrive? || (a.c in s.clients && Next(s, a).clients[a.c].promo == s.clients[a.c].promo
                          && Next(s, a).clients[a.c].userId == s.clients[a.c].userId)
    ensures a.Lock? || a.Unlock? ||
            (Next(s, a).locks == s.locks
             && Holding(Next(s, a).clients[a.c].phase) == (a.c in s.clients && Holding(s.clients[a.c].phase)))
  {
    if !a.Lock? && !a.Unlock? {
      LocksKept(s, a);
    }
  }

  lemma LocksKept(s: System, a: Action)
    requires Fits(s, a) && OfClient(a) && !a.Lock? && !a.Unlock?
    ensures Next(s, a).locks == s.locks && a.c in Next(s, a).clients
    ensures Holding(Next(s, a).clients[a.c].phase) == (a.c in s.clients && Holding(s.clients[a.c].phase))
  {
  }

  lemma ClientsStand(s: System, a: Action)
    requires Fits(s, a) && !OfClient(a)
    ensures Next(s, a).clients == s.clients && Next(s, a).locks == s.locks
  {
  }

  lemma LocksStayOk(locks: map<nat, nat>, clients: map<nat, Client>, c: nat, cl: Client)
    requires LocksOk(locks, clients)
    requires Holding(cl.phase) == (c in clients && Holding(clients[c].phase))
    requires c in clients ==> clients[c].promo == cl.promo
    ensures LocksOk(locks, clients[c := cl])
  {
  }

  lemma LockTakenOk(locks: map<nat, nat>, clients: map<nat, Client>, c: nat, cl: Client)
    requires LocksOk(locks, clients) && c in clients && !Holding(clients[c].phase)
    requires Holding(cl.phase) && cl.promo !in locks
    ensures LocksOk(locks[cl.promo := c], clients[c := cl])
  {
  }

  lemma LockFreedOk(locks: map<nat, nat>, clients: map<nat, Client>, c: nat, cl: Client)
    requires LocksOk(locks, clients) && c in clients && Holding(clients[c].phase)
    requires !Holding(cl.phase) && cl.promo == clients[c].promo
    ensures LocksOk(locks - {cl.promo}, clients[c := cl])
  {
  }

  lemma LocksStep(s: System, a: Action)
    requires LocksOk(s.locks, s.clients) && Enabled(s, a)
    ensures LocksOk(Next(s, a).locks, Next(s, a).clients)
  {
    if !OfClient(a) {
      ClientsStand(s, a);
    } else {
      ClientStep(s, a);
      var cl := Next(s, a).clients[a.c];
      if a.Lock? {
        LockTakenOk(s.locks, s.clients, a.c, cl);
      } else if a.Unlock? {
        LockFreedOk(s.locks, s.clients, a.c, cl);
      } else {
        LocksStayOk(s.locks, s.clients, a.c, cl);
      }
    }
  }

  lemma RowsStep(s: System, a: Action)
    requires RowsOk(s) && Enabled(s, a)
    ensures RowsOk(Next(s, a))
  {
    PromosKeepCoupons(s, a);
    if a.Insert? {
      var cl := s.clients[a.c];
      RowsGrow(s, Next(s, a), a.id, UserCoupon(cl.userId, s.promos[cl.promo].couponId, AVAILABLE, cl.promo, Service));
    } else if a.Schedule? && a.creates {
      RowsGrow(s, Next(s, a), a.id, UserCoupon(a.userId, s.promos[a.promo].couponId, AVAILABLE, a.promo, Scheduler));
    } else if a.Spend? {
      assert forall i | i in s.rows :: Next(s, a).rows[i].(status := s.rows[i].status) == s.rows[i];
    } else {
      assert Next(s, a).rows == s.rows;
    }
  }

  lemma PromosKeepCoupons(s: System, a: Action)
    requires Fits(s, a)
    ensures forall f | f in s.promos :: f in Next(s, a).promos && Next(s, a).promos[f].couponId == s.promos[f].couponId
  {
  }

  /** The unique index admits only a row for a user and coupon that have none. */
  lemma RowsGrow(s: System, s': System, id: nat, row: UserCoupon)
    requires RowsOk(s) && row.promo in s.promos && row.couponId == s.promos[row.promo].couponId
    requires !Taken(s.rows, row.userId, row.couponId)
    requires s'.rows == s.rows[id := row]
    requires forall f | f in s.promos :: f in s'.promos && s'.promos[f].couponId == s.promos[f].couponId
    ensures RowsOk(s')
  {
  }

  // ---------------------------------------------------------------- the cap

  function Matching(id: nat, row: UserCoupon, f: nat, path: Path): set<nat> {
    if row.promo == f && row.path == path then {id} else {}
  }

  lemma AddedRow(rows: map<nat, UserCoupon>, id: nat, row: UserCoupon, f: nat, path: Path)
    requires id !in rows
    ensures Through(rows[id := row], f, path) == Through(rows, f, path) + Matching(id, row, f, path)
    ensures |Through(rows[id := row], f, path)| == |Through(rows, f, path)| + |Matching(id, row, f, path)|
  {
    var more := Matching(id, row, f, path);
    assert Through(rows[id := row], f, path) == Through(rows, f, path) + more;
    assert Through(rows, f, path) !! more;
  }

  lemma AddedUser(rows: map<nat, UserCoupon>, id: nat, row: UserCoupon, ids: set<nat>, more: set<nat>)
    requires id !in rows && ids <= rows.Keys && more <= {id}
    ensures UsersOf(rows[id := row], ids + more) == UsersOf(rows, ids) + if more == {} then {} else {row.userId}
  {
    var rows' := rows[id := row];
    forall i | i in ids ensures rows'[i] == rows[i] {
    }
    if more != {} {
      assert more == {id};
      assert id in ids + more && rows'[id].userId == row.userId;
    } else {
      assert ids + more == ids;
    }
  }

  lemma SpentRow(rows: map<nat, UserCoupon>, id: nat, status: CouponStatus, f: nat, path: Path)
    requires id in rows
    ensures var rows' := rows[id := rows[id].(status := status)];
            && Through(rows', f, path) == Through(rows, f, path)
            && UsersOf(rows', Through(rows', f, path)) == UsersOf(rows, Through(rows, f, path))
  {
    var rows' := rows[id := rows[id].(status := status)];
    assert Through(rows', f, path) == Through(rows, f, path);
    assert forall i | i in rows :: rows'[i].userId == rows[i].userId;
  }

  function Added(s: System, a: Action, f: nat, path: Path): set<nat>
    requires Enabled(s, a)
  {
    if a.Insert? || (a.Schedule? && a.creates) then Matching(a.id, Next(s, a).rows[a.id], f, path) else {}
  }

  /** An insert, or a scheduler iteration, adds one row to its promotion and path; nothing else changes their number. */
  lemma ThroughStep(s: System, a: Action, f: nat, path: Path)
    requires Enabled(s, a)
    ensures |Through(Next(s, a).rows, f, path)| == |Through(s.rows, f, path)| + |Added(s, a, f, path)|
  {
    if a.Insert? || (a.Schedule? && a.creates) {
      AddedRow(s.rows, a.id, Next(s, a).rows[a.id], f, path);
    } else if a.Spend? {
      SpentRow(s.rows, a.id, a.status, f, path);
    }
  }

  lemma AddedServed(rows: map<nat, UserCoupon>, id: nat, row: UserCoupon, f: nat)
    requires id !in rows
    ensures UsersOf(rows[id := row], Through(rows[id := row], f, Service)) ==
            UsersOf(rows, Through(rows, f, Service)) +
              if row.promo == f && row.path == Service then {row.userId} else {}
  {
    AddedRow(rows, id, row, f, Service);
    AddedUser(rows, id, row, Through(rows, f, Service), Matching(id, row, f, Service));
  }

  lemma ServedStep(s: System, a: Action, f: nat)
    requires Enabled(s, a)
    ensures Served(Next(s, a), f) ==
            Served(s, f) + if a.Insert? && s.clients[a.c].promo == f then {s.clients[a.c].userId} else {}
  {
    if a.Insert? || (a.Schedule? && a.creates) {
      var row := if a.Schedule? then UserCoupon(a.userId, s.promos[a.promo].couponId, AVAILABLE, a.promo, Scheduler)
                 else
                   var cl := s.clients[a.c];
                   UserCoupon(cl.userId, s.promos[cl.promo].couponId, AVAILABLE, cl.promo, Service);
      assert Next(s, a).rows == s.rows[a.id := row];
      AddedServed(s.rows, a.id, row, f);
    } else if a.Spend? {
      SpentRow(s.rows, a.id, a.status, f, Service);
    } else {
      assert Next(s, a).rows == s.rows;
    }
  }

  /** As many service rows as served users, since no user has two. */
  lemma ServedCount(s: System, f: nat)
    requires RowsOk(s)
    ensures |Served(s, f)| == |Through(s.rows, f, Service)|
  {
    ImageSize(s, Through(s.rows, f, Service));
  }

  lemma {:induction false} ImageSize(s: System, ids: set<nat>)
    requires RowsOk(s) && ids <= s.rows.Keys
    requires forall i, j | i in ids && j in ids :: s.rows[i].couponId == s.rows[j].couponId
    ensures |UsersOf(s.rows, ids)| == |ids|
    decreases |ids|
  {
    if ids == {} {
      assert UsersOf(s.rows, ids) == {};
    } else {
      var i :| i in ids;
      ImageSize(s, ids - {i});
      assert UsersOf(s.rows, ids) == UsersOf(s.rows, ids - {i}) + {s.rows[i].userId};
    }
  }

  /** The lock holder of `f` has created a row without marking it only after an insert, and until a mark or an error. */
  lemma UnmarkedAround(s: System, a: Action, f: nat)
    requires LocksOk(s.locks, s.clients) && Enabled(s, a)
    requires (a.Insert? || a.Mark? || (a.Throw? && s.clients[a.c].phase.Inserted?)) && s.clients[a.c].promo == f
    ensures Unmarked(s, f) == if a.Insert? then {} else {s.clients[a.c].userId}
    ensures Unmarked(Next(s, a), f) == if a.Insert? then {s.clients[a.c].userId} else {}
  {
    ClientStep(s, a);
    assert f in s.locks && s.locks[f] == a.c;
  }

  lemma UnmarkedElsewhere(s: System, a: Action, f: nat)
    requires LocksOk(s.locks, s.clients) && Enabled(s, a)
    requires !((a.Insert? || a.Mark? || (a.Throw? && s.clients[a.c].phase.Inserted?)) && s.clients[a.c].promo == f)
    ensures Unmarked(Next(s, a), f) == Unmarked(s, f)
  {
    if OfClient(a) {
      ClientStep(s, a);
      InsertedStep(s, a);
    } else {
      ClientsStand(s, a);
    }
  }

  lemma InsertedStep(s: System, a: Action)
    requires Enabled(s, a) && OfClient(a)
    ensures a.c in Next(s, a).clients
    ensures !(a.Insert? || a.Mark? || (a.Throw? && s.clients[a.c].phase.Inserted?)) ==>
              !Next(s, a).clients[a.c].phase.Inserted? && (a.c in s.clients ==> !s.clients[a.c].phase.Inserted?)
    ensures a.Lock? ==> s.clients[a.c].promo !in s.locks && Next(s, a).locks == s.locks[s.clients[a.c].promo := a.c]
    ensures a.Unlock? ==> Next(s, a).locks == s.locks - {s.clients[a.c].promo}
  {
  }

  /** The Redis sets only grow, by the user of a mark, of a lost mark, or of a scheduler iteration. */
  lemma SetsStep(s: System, a: Action, f: nat)
    requires Fits(s, a)
    ensures Of(s.issued, f, {}) <= Of(Next(s, a).issued, f, {})
    ensures Of(s.lost, f, {}) <= Of(Next(s, a).lost, f, {}) && |Of(s.lost, f, {})| <= |Of(Next(s, a).lost, f, {})|
    ensures a.Mark? && s.clients[a.c].promo == f ==> s.clients[a.c].userId in Of(Next(s, a).issued, f, {})
    ensures a.Throw? && s.clients[a.c].phase.Inserted? && s.clients[a.c].promo == f ==>
              s.clients[a.c].userId in Of(Next(s, a).lost, f, {})
  {
    SubsetSize(Of(s.lost, f, {}), Of(Next(s, a).lost, f, {}));
  }

  lemma PromosStep(s: System, a: Action, f: nat)
    requires Fits(s, a) && f in s.promos
    ensures f in Next(s, a).promos && Next(s, a).promos[f].initial == s.promos[f].initial
    ensures Next(s, a).promos[f].couponId == s.promos[f].couponId
    ensures Next(s, a).promos.Keys == s.promos.Keys
    ensures var spent := if a.Schedule? && a.promo == f && a.decrements then 1 else 0;
            Next(s, a).promos[f].stockQuantity == s.promos[f].stockQuantity - spent
    ensures var owed := if a.Schedule? && a.promo == f && a.creates && !a.decrements then 1 else 0;
            Of(Next(s, a).unpaid, f, 0) == Of(s.unpaid, f, 0) + owed
  {
  }

  /** A batch was no larger than the stock, and each iteration takes at most one off either. */
  lemma ToDoStep(s: System, a: Action, f: nat)
    requires Enabled(s, a) && f in s.promos && ToDo(s, f) <= s.promos[f].stockQuantity
    ensures f in Next(s, a).promos && ToDo(Next(s, a), f) <= Next(s, a).promos[f].stockQuantity
  {
  }

  lemma PromoStep(s: System, a: Action, f: nat)
    requires LocksOk(s.locks, s.clients) && Enabled(s, a) && f in s.promos && PromoOk(s, f)
    requires a.Insert? ==> ClientOk(s, s.clients[a.c])
    ensures PromoOk(Next(s, a), f)
  {
    PromosStep(s, a, f);
    ToDoStep(s, a, f);
    ServedStep(s, a, f);
    ThroughStep(s, a, f, Service);
    ThroughStep(s, a, f, Scheduler);
    SetsStep(s, a, f);
    if (a.Insert? || a.Mark? || (a.Throw? && s.clients[a.c].phase.Inserted?)) && s.clients[a.c].promo == f {
      UnmarkedAround(s, a, f);
    } else {
      UnmarkedElsewhere(s, a, f);
    }
  }

  /** A client between its count check and its insert is not disturbed: only it can add service rows. */
  lemma OtherClientOk(s: System, a: Action, d: nat)
    requires LocksOk(s.locks, s.clients) && Enabled(s, a) && d in s.clients && ClientOk(s, s.clients[d])
    requires !OfClient(a) || d != a.c
    ensures ClientOk(Next(s, a), s.clients[d])
  {
    var f := s.clients[d].promo;
    PromosStep(s, a, f);
    ThroughStep(s, a, f, Service);
    SetsStep(s, a, f);
    if a.Insert? && s.clients[d].phase.Covered? {
      assert s.clients[a.c].promo != f;
    }
  }

  lemma CheckedCount(s: System, a: Action)
    requires LocksOk(s.locks, s.clients) && RowsOk(s) && a.CheckCount? && Enabled(s, a)
    requires PromoOk(s, s.clients[a.c].promo) && ClientOk(s, s.clients[a.c])
    ensures |Through(s.rows, s.clients[a.c].promo, Service)| <
            s.promos[s.clients[a.c].promo].initial + |Of(s.lost, s.clients[a.c].promo, {})|
  {
    var f := s.clients[a.c].promo;
    assert s.locks[f] == a.c;
    ServedCount(s, f);
    SubsetSize(Served(s, f), Of(s.issued, f, {}) + Of(s.lost, f, {}));
  }

  lemma ActorOk(s: System, a: Action)
    requires LocksOk(s.locks, s.clients) && RowsOk(s) && Enabled(s, a) && OfClient(a)
    requires a.c in s.clients ==> ClientOk(s, s.clients[a.c]) && PromoOk(s, s.clients[a.c].promo)
    ensures a.c in Next(s, a).clients && ClientOk(Next(s, a), Next(s, a).clients[a.c])
  {
    ClientStep(s, a);
    var f := Next(s, a).clients[a.c].promo;
    PromosStep(s, a, f);
    SetsStep(s, a, f);
    if a.CheckCount? {
      CheckedCount(s, a);
    }
  }

  lemma StepOk(s: System, a: Action)
    requires SystemOk(s) && Enabled(s, a)
    ensures SystemOk(Next(s, a))
  {
    LocksStep(s, a);
    RowsStep(s, a);
    forall f | f in Next(s, a).promos ensures PromoOk(Next(s, a), f) {
      SomePromoOk(s, a, f);
    }
    forall d | d in Next(s, a).clients ensures ClientOk(Next(s, a), Next(s, a).clients[d]) {
      SomeClientOk(s, a, d);
    }
  }

  lemma SomePromoOk(s: System, a: Action, f: nat)
    requires SystemOk(s) && Enabled(s, a)
    ensures PromoOk(Next(s, a), f)
  {
    PromosUnchanged(s, a);
    if f in s.promos {
      assert a.Insert? ==> ClientOk(s, s.clients[a.c]);
      PromoStep(s, a, f);
    }
  }

  lemma SomeClientOk(s: System, a: Action, d: nat)
    requires SystemOk(s) && Enabled(s, a) && d in Next(s, a).clients
    ensures ClientOk(Next(s, a), Next(s, a).clients[d])
  {
    if !OfClient(a) || d != a.c {
      OtherClientStands(s, a, d);
      assert ClientOk(s, s.clients[d]);
      OtherClientOk(s, a, d);
    } else {
      assert a.c in s.clients ==> ClientOk(s, s.clients[a.c]) && PromoOk(s, s.clients[a.c].promo);
      ActorOk(s, a);
    }
  }

  lemma OtherClientStands(s: System, a: Action, d: nat)
    requires Fits(s, a) && (!OfClient(a) || d != a.c)
    ensures (d in s.clients <==> d in Next(s, a).clients) && (d in s.clients ==> Next(s, a).clients[d] == s.clients[d])
  {
    if OfClient(a) {
      ClientStep(s, a);
    } else {
      ClientsStand(s, a);
    }
  }

  lemma PromosUnchanged(s: System, a: Action)
    requires Fits(s, a)
    ensures Next(s, a).promos.Keys == s.promos.Keys
  {
  }

  // ---------------------------------------------------------------- whole executions

  predicate Execution(s: System, actions: seq<Action>)
    decreases |actions|
  {
    actions == [] || (Enabled(s, actions[0]) && Execution(Next(s, actions[0]), actions[1..]))
  }

  function Final(s: System, actions: seq<Action>): System
    requires Execution(s, actions)
    decreases |actions|
  {
    if actions == [] then s else Final(Next(s, actions[0]), actions[1..])
  }

  /** Nobody has asked for a coupon of any of the promotions yet; users may hold coupons from before. */
  ghost predicate Initial(s: System) {
    && s.issued == map[] && s.locks == map[] && s.clients == map[] && s.lost == map[] && s.unpaid == map[]
    && s.batch.NoBatch?
    && RowsOk(s)
    && forall f | f in s.promos ::
         && s.promos[f].stockQuantity == s.promos[f].initial
         && Through(s.rows, f, Service) == {} && Through(s.rows, f, Scheduler) == {}
  }

  lemma InitialOk(s: System)
    requires Initial(s)
    ensures SystemOk(s)
  {
  }

  ghost predicate SamePromos(s: System, t: System) {
    t.promos.Keys == s.promos.Keys && forall f | f in s.promos :: t.promos[f].initial == s.promos[f].initial
  }

  lemma PromosAfter(s: System, a: Action)
    requires Fits(s, a)
    ensures SamePromos(s, Next(s, a))
  {
    PromosUnchanged(s, a);
    forall f | f in s.promos ensures Next(s, a).promos[f].initial == s.promos[f].initial {
      PromosStep(s, a, f);
    }
  }

  lemma {:induction false} ExecutionOk(s: System, actions: seq<Action>)
    requires SystemOk(s) && Execution(s, actions)
    ensures SystemOk(Final(s, actions)) && SamePromos(s, Final(s, actions))
    decreases |actions|
  {
    if actions != [] {
      StepOk(s, actions[0]);
      PromosAfter(s, actions[0]);
      ExecutionOk(Next(s, actions[0]), actions[1..]);
    }
  }

  /** Both paths interleaved in any way: each stays within the initial stock on its own, up to its own failures,
      so together they stay within twice the stock; and no user ever has two rows of a coupon. */
  lemma TwoPathAccounting(s: System, actions: seq<Action>, f: nat)
    requires Initial(s) && Execution(s, actions) && f in s.promos
    ensures var t := Final(s, actions);
            var stock := s.promos[f].stockQuantity;
            && f in t.promos
            && |Through(t.rows, f, Service)| <= stock + |Of(t.lost, f, {})|
            && |Through(t.rows, f, Scheduler)| <= stock + Of(t.unpaid, f, 0)
            && |Through(t.rows, f, Scheduler)| == stock - t.promos[f].stockQuantity + Of(t.unpaid, f, 0)
            && t.promos[f].stockQuantity >= 0
            && RowsOk(t)
  {
    InitialOk(s);
    ExecutionOk(s, actions);
    assert PromoOk(Final(s, actions), f);
  }

  // ---------------------------------------------------------------- the service alone

  /** Without the scheduler: the stock never moves, and only users served by the service are marked. */
  ghost predicate ServiceOnly(s: System) {
    && (forall f | f in s.promos ::
          && s.promos[f].stockQuantity == s.promos[f].initial
          && Through(s.rows, f, Scheduler) == {}
          && Of(s.issued, f, {}) <= Served(s, f))
    && forall c | c in s.clients && s.clients[c].promo in s.promos :: CallOk(s, s.clients[c])
  }

  ghost predicate CallOk(s: System, cl: Client)
    requires cl.promo in s.promos
  {
    && (cl.phase.Loaded? || cl.phase.Unissued? ==> cl.phase.stock == s.promos[cl.promo].stockQuantity)
    && (cl.phase.Covered? ==> |Of(s.issued, cl.promo, {})| < s.promos[cl.promo].stockQuantity)
    && (cl.phase.Inserted? ==> cl.userId in Served(s, cl.promo) && cl.userId !in Of(s.issued, cl.promo, {}))
  }

  lemma MarkedStep(s: System, a: Action, f: nat)
    requires Fits(s, a) && !OfScheduler(a)
    ensures Of(Next(s, a).issued, f, {}) ==
            Of(s.issued, f, {}) + if a.Mark? && s.clients[a.c].promo == f then {s.clients[a.c].userId} else {}
    ensures Next(s, a).promos == s.promos
  {
    PromosStand(s, a);
  }

  lemma PromosStand(s: System, a: Action)
    requires Fits(s, a) && !OfScheduler(a)
    ensures Next(s, a).promos == s.promos
  {
  }

  lemma OtherCallOk(s: System, a: Action, d: nat)
    requires LocksOk(s.locks, s.clients) && Enabled(s, a) && !OfScheduler(a)
    requires d in s.clients && (!OfClient(a) || d != a.c)
    requires s.clients[d].promo in s.promos && CallOk(s, s.clients[d])
    ensures CallOk(Next(s, a), s.clients[d])
  {
    MarkedStep(s, a, s.clients[d].promo);
    ServedStep(s, a, s.clients[d].promo);
  }

  /** The user of an insert is not marked: a mark means a row, and the insert found none. */
  lemma InsertedUnmarked(s: System, a: Action)
    requires RowsOk(s) && ServiceOnly(s) && a.Insert? && Enabled(s, a)
    ensures s.clients[a.c].userId !in Of(s.issued, s.clients[a.c].promo, {})
  {
  }

  lemma ActingCallOk(s: System, a: Action)
    requires SystemOk(s) && ServiceOnly(s) && Enabled(s, a) && OfClient(a)
    ensures a.c in Next(s, a).clients && Next(s, a).clients[a.c].promo in s.promos
    ensures CallOk(Next(s, a), Next(s, a).clients[a.c])
  {
    ClientStep(s, a);
    PromosStand(s, a);
    if a.Insert? {
      InsertedUnmarked(s, a);
    }
    ActingCall(s, a);
  }

  lemma ActingCall(s: System, a: Action)
    requires Enabled(s, a) && OfClient(a)
    requires forall f | f in s.promos :: s.promos[f].stockQuantity == s.promos[f].initial
    requires a.c in s.clients ==> s.clients[a.c].promo in s.promos && CallOk(s, s.clients[a.c])
    requires a.Insert? ==> s.clients[a.c].userId !in Of(s.issued, s.clients[a.c].promo, {})
    ensures a.c in Next(s, a).clients && Next(s, a).clients[a.c].promo in Next(s, a).promos
    ensures CallOk(Next(s, a), Next(s, a).clients[a.c])
  {
    var f := if a.Arrive? then a.promo else s.clients[a.c].promo;
    MarkedStep(s, a, f);
    ServedStep(s, a, f);
  }

  lemma ServedOnlyStep(s: System, a: Action, f: nat)
    requires SystemOk(s) && ServiceOnly(s) && Enabled(s, a) && !OfScheduler(a) && f in s.promos
    ensures Of(Next(s, a).issued, f, {}) <= Served(Next(s, a), f)
    ensures Through(Next(s, a).rows, f, Scheduler) == {}
  {
    MarkedStep(s, a, f);
    ServedStep(s, a, f);
    ThroughStep(s, a, f, Scheduler);
    if a.Mark? {
      assert CallOk(s, s.clients[a.c]);
    }
  }

  lemma SomeCallOk(s: System, a: Action, c: nat)
    requires SystemOk(s) && ServiceOnly(s) && Enabled(s, a) && !OfScheduler(a) && c in Next(s, a).clients
    ensures Next(s, a).clients[c].promo in s.promos && CallOk(Next(s, a), Next(s, a).clients[c])
  {
    if !OfClient(a) || c != a.c {
      if OfClient(a) {
        ClientStep(s, a);
      }
      assert ClientOk(s, s.clients[c]);
      OtherCallOk(s, a, c);
    } else {
      ActingCallOk(s, a);
    }
  }

  lemma ServiceOnlyStep(s: System, a: Action)
    requires SystemOk(s) && ServiceOnly(s) && Enabled(s, a) && !OfScheduler(a)
    ensures ServiceOnly(Next(s, a))
  {
    MarkedStep(s, a, 0);
    forall f | f in s.promos
      ensures Of(Next(s, a).issued, f, {}) <= Served(Next(s, a), f) && Through(Next(s, a).rows, f, Scheduler) == {}
    {
      ServedOnlyStep(s, a, f);
    }
    forall c | c in Next(s, a).clients && Next(s, a).clients[c].promo in Next(s, a).promos
      ensures CallOk(Next(s, a), Next(s, a).clients[c])
    {
      SomeCallOk(s, a, c);
    }
  }

  // ---------------------------------------------------------------- refinement of the single conditional update

  /** The state of `CouponRepositoryPrisma.issueFcfsCoupon`, which is one atomic conditional update:
      what remains of each promotion, and which users hold which coupons. */
  datatype Spec = Spec(remaining: map<nat, int>, holders: set<(nat, nat)>)

  predicate CanIssue(spec: Spec, promo: nat, userId: nat, couponId: nat) {
    promo in spec.remaining && spec.remaining[promo] > 0 && (userId, couponId) !in spec.holders
  }

  function Issue(spec: Spec, promo: nat, userId: nat, couponId: nat): Spec
    requires CanIssue(spec, promo, userId, couponId)
  {
    Spec(spec.remaining[promo := spec.remaining[promo] - 1], spec.holders + {(userId, couponId)})
  }

  /** What the service leaves to be issued: the stock, less the marked users, less the one about to be marked. */
  function Remaining(s: System, f: nat): int
    requires f in s.promos
  {
    s.promos[f].stockQuantity - |Of(s.issued, f, {})| - |Unmarked(s, f)|
  }

  function Holders(rows: map<nat, UserCoupon>): set<(nat, nat)> {
    set id | id in rows :: (rows[id].userId, rows[id].couponId)
  }

  lemma HoldersGrow(rows: map<nat, UserCoupon>, id: nat, row: UserCoupon)
    requires id !in rows
    ensures Holders(rows[id := row]) == Holders(rows) + {(row.userId, row.couponId)}
  {
    var rows' := rows[id := row];
    assert rows'[id] == row && forall i | i in rows :: rows'[i] == rows[i];
    forall h | h in Holders(rows) ensures h in Holders(rows') {
      var i :| i in rows && h == (rows[i].userId, rows[i].couponId);
      assert i in rows' && h == (rows'[i].userId, rows'[i].couponId);
    }
  }

  lemma HoldersSpend(rows: map<nat, UserCoupon>, id: nat, status: CouponStatus)
    requires id in rows
    ensures Holders(rows[id := rows[id].(status := status)]) == Holders(rows)
  {
    var rows' := rows[id := rows[id].(status := status)];
    assert forall i | i in rows :: rows'[i].userId == rows[i].userId && rows'[i].couponId == rows[i].couponId;
  }

  function Abstract(s: System): Spec {
    Spec(
      map f | f in s.promos :: Remaining(s, f),
      Holders(s.rows))
  }

  predicate LosesMark(s: System, a: Action) {
    a.Throw? && a.c in s.clients && s.clients[a.c].phase.Inserted?
  }

  function RemainingChange(s: System, a: Action, f: nat): int
    requires Enabled(s, a)
  {
    if a.Insert? && s.clients[a.c].promo == f then -1
    else if LosesMark(s, a) && s.clients[a.c].promo == f then 1
    else 0
  }

  lemma RemainingStep(s: System, a: Action, f: nat)
    requires SystemOk(s) && ServiceOnly(s) && Enabled(s, a) && !OfScheduler(a) && f in s.promos
    ensures f in Next(s, a).promos
    ensures Remaining(Next(s, a), f) == Remaining(s, f) + RemainingChange(s, a, f)
  {
    MarkedStep(s, a, f);
    if (a.Insert? || a.Mark? || LosesMark(s, a)) && s.clients[a.c].promo == f {
      OwnRemainingStep(s, a);
    } else {
      UnmarkedElsewhere(s, a, f);
    }
  }

  lemma OwnRemainingStep(s: System, a: Action)
    requires LocksOk(s.locks, s.clients) && Enabled(s, a) && (a.Insert? || a.Mark? || LosesMark(s, a))
    requires CallOk(s, s.clients[a.c])
    ensures var f := s.clients[a.c].promo;
            |Of(Next(s, a).issued, f, {})| + |Unmarked(Next(s, a), f)| ==
            |Of(s.issued, f, {})| + |Unmarked(s, f)| - RemainingChange(s, a, f)
  {
    var f := s.clients[a.c].promo;
    MarkedStep(s, a, f);
    UnmarkedAround(s, a, f);
  }

  lemma HoldersStep(s: System, a: Action)
    requires Enabled(s, a) && !OfScheduler(a)
    ensures Holders(Next(s, a).rows) == Holders(s.rows) +
              if a.Insert? then {(s.clients[a.c].userId, s.promos[s.clients[a.c].promo].couponId)} else {}
  {
    if a.Insert? {
      var cl := s.clients[a.c];
      HoldersGrow(s.rows, a.id, UserCoupon(cl.userId, s.promos[cl.promo].couponId, AVAILABLE, cl.promo, Service));
    } else if a.Spend? {
      HoldersSpend(s.rows, a.id, a.status);
    } else {
      assert Next(s, a).rows == s.rows;
    }
  }

  ghost predicate RemainingMoves(s: System, a: Action)
    requires Enabled(s, a)
  {
    && Next(s, a).promos.Keys == s.promos.Keys
    && forall f | f in s.promos :: Remaining(Next(s, a), f) == Remaining(s, f) + RemainingChange(s, a, f)
  }

  lemma AllRemaining(s: System, a: Action)
    requires SystemOk(s) && ServiceOnly(s) && Enabled(s, a) && !OfScheduler(a)
    ensures RemainingMoves(s, a)
  {
    PromosUnchanged(s, a);
    forall f | f in s.promos ensures Remaining(Next(s, a), f) == Remaining(s, f) + RemainingChange(s, a, f) {
      RemainingStep(s, a, f);
    }
  }

  lemma InsertMeetsGuard(s: System, a: Action)
    requires LocksOk(s.locks, s.clients) && a.Insert? && Enabled(s, a) && CallOk(s, s.clients[a.c])
    ensures var cl := s.clients[a.c];
            CanIssue(Abstract(s), cl.promo, cl.userId, s.promos[cl.promo].couponId)
  {
    UnmarkedAround(s, a, s.clients[a.c].promo);
  }

  lemma InsertIsUpdate(s: System, a: Action)
    requires a.Insert? && Enabled(s, a)
    requires var cl := s.clients[a.c]; CanIssue(Abstract(s), cl.promo, cl.userId, s.promos[cl.promo].couponId)
    requires RemainingMoves(s, a)
    ensures var cl := s.clients[a.c];
            Abstract(Next(s, a)) == Issue(Abstract(s), cl.promo, cl.userId, s.promos[cl.promo].couponId)
  {
    HoldersStep(s, a);
  }

  lemma SameAbstract(s: System, t: System)
    requires t.promos.Keys == s.promos.Keys && Holders(t.rows) == Holders(s.rows)
    ensures Abstract(t) == Abstract(s) <==> forall f | f in s.promos :: Remaining(t, f) == Remaining(s, f)
  {
    if Abstract(t) == Abstract(s) {
      forall f | f in s.promos ensures Remaining(t, f) == Remaining(s, f) {
        assert Abstract(t).remaining[f] == Abstract(s).remaining[f];
      }
    }
  }

  lemma OtherStepsStutter(s: System, a: Action)
    requires !a.Insert? && !OfScheduler(a) && Enabled(s, a)
    requires RemainingMoves(s, a)
    ensures Abstract(Next(s, a)) == Abstract(s) <==> !LosesMark(s, a)
  {
    HoldersStep(s, a);
    SameAbstract(s, Next(s, a));
    if LosesMark(s, a) {
      assert RemainingChange(s, a, s.clients[a.c].promo) == 1;
    }
  }

  /** Without the scheduler, an insert is exactly the atomic conditional update, whose guard it meets;
      any other step changes nothing that the update sees, exactly unless it loses a mark. */
  lemma ServiceRefinesUpdate(s: System, a: Action)
    requires SystemOk(s) && ServiceOnly(s) && Enabled(s, a) && !OfScheduler(a)
    ensures SystemOk(Next(s, a)) && ServiceOnly(Next(s, a))
    ensures a.Insert? ==>
              var cl := s.clients[a.c];
              var couponId := s.promos[cl.promo].couponId;
              && CanIssue(Abstract(s), cl.promo, cl.userId, couponId)
              && Abstract(Next(s, a)) == Issue(Abstract(s), cl.promo, cl.userId, couponId)
    ensures !a.Insert? ==> (Abstract(Next(s, a)) == Abstract(s) <==> !LosesMark(s, a))
  {
    StepOk(s, a);
    ServiceOnlyStep(s, a);
    AllRemaining(s, a);
    if a.Insert? {
      assert CallOk(s, s.clients[a.c]);
      InsertMeetsGuard(s, a);
      InsertIsUpdate(s, a);
    } else {
      OtherStepsStutter(s, a);
    }
  }

  // ---------------------------------------------------------------- whole executions of the service

  ghost predicate NoSchedule(actions: seq<Action>) {
    forall a | a in actions :: !OfScheduler(a)
  }

  lemma {:induction false} ServiceExecutionOk(s: System, actions: seq<Action>)
    requires SystemOk(s) && ServiceOnly(s) && Execution(s, actions) && NoSchedule(actions)
    ensures SystemOk(Final(s, actions)) && ServiceOnly(Final(s, actions))
    ensures Final(s, actions).promos == s.promos
    decreases |actions|
  {
    if actions != [] {
      ServiceRefinesUpdate(s, actions[0]);
      MarkedStep(s, actions[0], 0);
      ServiceExecutionOk(Next(s, actions[0]), actions[1..]);
    }
  }

  /** The cap: without the scheduler, the rows that came about through a promotion, on any path,
      never exceed its stock by more than the marks that were lost. */
  lemma CouponCap(s: System, actions: seq<Action>, f: nat)
    requires Initial(s) && Execution(s, actions) && NoSchedule(actions) && f in s.promos
    ensures var t := Final(s, actions);
            && |Through(t.rows, f, Service) + Through(t.rows, f, Scheduler)| <=
               s.promos[f].stockQuantity + |Of(t.lost, f, {})|
            && RowsOk(t)
  {
    InitialOk(s);
    ServiceExecutionOk(s, actions);
    ServiceCap(Final(s, actions), f);
  }

  lemma ServiceCap(s: System, f: nat)
    requires SystemOk(s) && ServiceOnly(s) && f in s.promos
    ensures |Through(s.rows, f, Service) + Through(s.rows, f, Scheduler)| <=
            s.promos[f].stockQuantity + |Of(s.lost, f, {})|
  {
    assert PromoOk(s, f);
    assert Through(s.rows, f, Service) + Through(s.rows, f, Scheduler) == Through(s.rows, f, Service);
  }

  /** How many times client `c` takes the step that is the atomic update. */
  function Inserts(actions: seq<Action>, c: nat): nat {
    if actions == [] then 0
    else (if actions[0].Insert? && actions[0].c == c then 1 else 0) + Inserts(actions[1..], c)
  }

  lemma {:induction false} InsertsCounted(s: System, actions: seq<Action>, c: nat)
    requires Execution(s, actions)
    ensures c in s.clients ==> c in Final(s, actions).clients
    ensures c in Final(s, actions).clients ==>
              Final(s, actions).clients[c].inserts ==
                  (if c in s.clients then s.clients[c].inserts else 0) + Inserts(actions, c)
    decreases |actions|
  {
    if actions != [] {
      InsertsCounted(Next(s, actions[0]), actions[1..], c);
      CallStep(s, actions[0], c);
    }
  }

  lemma CallStep(s: System, a: Action, c: nat)
    requires Fits(s, a)
    ensures c in s.clients ==> c in Next(s, a).clients
    ensures c in Next(s, a).clients ==>
              Next(s, a).clients[c].inserts ==
              (if c in s.clients then s.clients[c].inserts else 0) + if a.Insert? && a.c == c then 1 else 0
  {
  }

  /** Every call that has returned took the atomic update exactly once if it succeeded or lost its mark,
      which it cannot both, and otherwise never. */
  lemma CallsAreAtomic(s: System, actions: seq<Action>, c: nat)
    requires Initial(s) && Execution(s, actions)
    requires c in Final(s, actions).clients && Final(s, actions).clients[c].phase.Left?
    ensures var t := Final(s, actions);
            var cl := t.clients[c];
            && Inserts(actions, c) == (if cl.phase.ok || cl.losesMark then 1 else 0)
            && !(cl.phase.ok && cl.losesMark)
  {
    InitialOk(s);
    ExecutionOk(s, actions);
    ReturnedCall(Final(s, actions), c);
    InsertsCounted(s, actions, c);
  }

  lemma ReturnedCall(s: System, c: nat)
    requires SystemOk(s) && c in s.clients && s.clients[c].phase.Left?
    ensures ReturnOk(s, s.clients[c], s.clients[c].phase.ok)
  {
    LeftOk(s, s.clients[c]);
  }

  lemma LeftOk(s: System, cl: Client)
    requires ClientOk(s, cl) && cl.phase.Left?
    ensures ReturnOk(s, cl, cl.phase.ok)
  {
  }

  // ---------------------------------------------------------------- refinement over whole executions

  datatype Update = Update(promo: nat, userId: nat, couponId: nat)

  function UpdateOf(s: System, a: Action): seq<Update>
    requires Enabled(s, a)
  {
    if !a.Insert? then []
    else
      var cl := s.clients[a.c];
      [Update(cl.promo, cl.userId, s.promos[cl.promo].couponId)]
  }

  /** The atomic updates that an execution amounts to: one for each insert. */
  function Updates(s: System, actions: seq<Action>): seq<Update>
    requires Execution(s, actions)
    decreases |actions|
  {
    if actions == [] then []
    else
      UpdateOf(s, actions[0]) + Updates(Next(s, actions[0]), actions[1..])
  }

  /** A run of atomic updates, each of which succeeds. */
  predicate Issuable(spec: Spec, updates: seq<Update>)
    decreases |updates|
  {
    updates == [] ||
    var u := updates[0];
    && CanIssue(spec, u.promo, u.userId, u.couponId)
    && Issuable(Issue(spec, u.promo, u.userId, u.couponId), updates[1..])
  }

  function IssueAll(spec: Spec, updates: seq<Update>): Spec
    requires Issuable(spec, updates)
    decreases |updates|
  {
    if updates == [] then spec
    else IssueAll(Issue(spec, updates[0].promo, updates[0].userId, updates[0].couponId), updates[1..])
  }

  predicate KeepsMarks(s: System, actions: seq<Action>)
    requires Execution(s, actions)
    decreases |actions|
  {
    actions == [] || (!LosesMark(s, actions[0]) && KeepsMarks(Next(s, actions[0]), actions[1..]))
  }

  /** The updates succeed one after another, and lead from `spec` to `after`. */
  ghost predicate AmountTo(spec: Spec, updates: seq<Update>, after: Spec) {
    Issuable(spec, updates) && IssueAll(spec, updates) == after
  }

  lemma IssueFirst(spec: Spec, u: Update, rest: seq<Update>, after: Spec)
    requires CanIssue(spec, u.promo, u.userId, u.couponId)
    requires AmountTo(Issue(spec, u.promo, u.userId, u.couponId), rest, after)
    ensures AmountTo(spec, [u] + rest, after)
  {
    assert ([u] + rest)[1..] == rest;
  }

  lemma StepUpdates(s: System, a: Action)
    requires SystemOk(s) && ServiceOnly(s) && Enabled(s, a) && !OfScheduler(a) && !LosesMark(s, a)
    ensures SystemOk(Next(s, a)) && ServiceOnly(Next(s, a))
    ensures !a.Insert? ==> UpdateOf(s, a) == [] && Abstract(Next(s, a)) == Abstract(s)
    ensures a.Insert? ==>
              var u := UpdateOf(s, a)[0];
              && UpdateOf(s, a) == [u] && CanIssue(Abstract(s), u.promo, u.userId, u.couponId)
              && Abstract(Next(s, a)) == Issue(Abstract(s), u.promo, u.userId, u.couponId)
  {
    ServiceRefinesUpdate(s, a);
  }

  /** Any interleaving of service calls that loses no mark is a run of atomic conditional updates, all successful. */
  lemma {:induction false} ExecutionRefinesUpdates(s: System, actions: seq<Action>)
    requires SystemOk(s) && ServiceOnly(s)
    requires Execution(s, actions) && NoSchedule(actions) && KeepsMarks(s, actions)
    ensures AmountTo(Abstract(s), Updates(s, actions), Abstract(Final(s, actions)))
    decreases |actions|
  {
    if actions != [] {
      var s' := Next(s, actions[0]);
      StepUpdates(s, actions[0]);
      ExecutionRefinesUpdates(s', actions[1..]);
      FirstUpdate(s, actions[0], Updates(s', actions[1..]), Abstract(Final(s, actions)));
    }
  }

  lemma FirstUpdate(s: System, a: Action, rest: seq<Update>, after: Spec)
    requires Enabled(s, a) && AmountTo(Abstract(Next(s, a)), rest, after)
    requires !a.Insert? ==> Abstract(Next(s, a)) == Abstract(s)
    requires a.Insert? ==>
               var u := UpdateOf(s, a)[0];
               && CanIssue(Abstract(s), u.promo, u.userId, u.couponId)
               && Abstract(Next(s, a)) == Issue(Abstract(s), u.promo, u.userId, u.couponId)
    ensures AmountTo(Abstract(s), UpdateOf(s, a) + rest, after)
  {
    if a.Insert? {
      IssueFirst(Abstract(s), UpdateOf(s, a)[0], rest, after);
    } else {
      assert [] + rest == rest;
    }
  }
}
