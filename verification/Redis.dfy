/** The Redis sorted sets and sets behind the coupon requests, and the request queue built on them. */
module Redis {
  import opened Selection

  /** A cell of the flat reply of ZPOPMIN: members and scores alternate. */
  datatype Cell = Member(member: nat) | Score(score: int)

  predicate Flattened(reply: seq<Cell>, popped: seq<nat>) {
    && |reply| == 2 * |popped|
    && forall i | 0 <= i < |popped| :: reply[2 * i] == Member(popped[i]) && reply[2 * i + 1].Score?
  }

  lemma FlattenedOneMore(reply: seq<Cell>, popped: seq<nat>, member: nat, score: int)
    requires Flattened(reply, popped)
    ensures Flattened(reply + [Member(member), Score(score)], popped + [member])
  {
    var longer := reply + [Member(member), Score(score)];
    forall i | 0 <= i < |popped| + 1
      ensures longer[2 * i] == Member((popped + [member])[i]) && longer[2 * i + 1].Score?
    {
      if i < |popped| {
        assert reply[2 * i] == Member(popped[i]) && reply[2 * i + 1].Score?;
      }
    }
  }

  /** The server's reply: each member followed by its score. */
  function Flatten(popped: seq<nat>, scores: map<nat, int>): (reply: seq<Cell>)
    requires Elements(popped) <= scores.Keys
    ensures Flattened(reply, popped)
  {
    if popped == [] then []
    else
      var n := |popped| - 1;
      assert Elements(popped[..n]) <= Elements(popped) && popped[n] in Elements(popped);
      assert popped == popped[..n] + [popped[n]];
      FlattenedOneMore(Flatten(popped[..n], scores), popped[..n], popped[n], scores[popped[n]]);
      Flatten(popped[..n], scores) + [Member(popped[n]), Score(scores[popped[n]])]
  }

  /** Keeps every other cell of the reply, from the first on: the members without their scores. */
  method EveryOther(result: seq<Cell>, ghost popped: seq<nat>) returns (members: seq<nat>)
    requires Flattened(result, popped)
    ensures members == popped
  {
    members := [];
    var i := 0;
    ghost var k := 0;
    while i < |result|
      invariant i == 2 * k && k <= |popped|
      invariant members == popped[..k]
    {
      assert result[2 * k] == Member(popped[k]);
      members := members + [result[i].member];
      i := i + 2;
      k := k + 1;
    }
  }

  class RedisService {
    var sorted: map<nat, map<nat, int>>
    var sets: map<nat, set<nat>>

    constructor ()
      ensures sorted == map[] && sets == map[]
    {
      sorted, sets := map[], map[];
    }

    function Queue(key: nat): map<nat, int>
      reads this
    {
      if key in sorted then sorted[key] else map[]
    }

    function Members(key: nat): set<nat>
      reads this
    {
      if key in sets then sets[key] else {}
    }

    method ZAdd(key: nat, score: int, member: nat)
      modifies this`sorted
      ensures sorted == old(sorted)[key := old(Queue(key))[member := score]]
    {
      sorted := sorted[key := Queue(key)[member := score]];
    }

    method ZPopMin(key: nat, count: nat) returns (members: seq<nat>)
      modifies this`sorted
      ensures PopsMin(old(Queue(key)), count, members, Queue(key))
      ensures sorted == old(sorted)[key := old(Queue(key)) - Elements(members)]
    {
      var popped, left := TakeMinima(Queue(key), count);
      var result := Flatten(popped, Queue(key));
      sorted := sorted[key := left];
      members := EveryOther(result, popped);
    }

    method SAdd(key: nat, member: nat)
      modifies this`sets
      ensures sets == old(sets)[key := old(Members(key)) + {member}]
    {
      sets := sets[key := Members(key) + {member}];
    }

    method SIsMember(key: nat, member: nat) returns (r: bool)
      ensures r <==> member in Members(key)
    {
      r := member in Members(key);
    }

    method SCard(key: nat) returns (n: nat)
      ensures n == |Members(key)|
    {
      n := |Members(key)|;
    }
  }

  // ---------------------------------------------------------------- the request queue over time

  /** The queue of one promotion, with everything that was ever popped from it and how often each user came anew. */
  datatype Queue = Queue(waiting: map<nat, int>, log: seq<(nat, int)>, clock: int, enrolled: map<nat, nat>)

  datatype Event = Request(userId: nat, now: int) | Batch(count: nat, popped: seq<nat>)

  function Enrolled(q: Queue, userId: nat): nat {
    if userId in q.enrolled then q.enrolled[userId] else 0
  }

  function Stamped(waiting: map<nat, int>, popped: seq<nat>): seq<(nat, int)>
    requires Elements(popped) <= waiting.Keys
  {
    seq(|popped|, i requires 0 <= i < |popped| => assert popped[i] in Elements(popped); (popped[i], waiting[popped[i]]))
  }

  /** A request sets the user's time to now, also when the user already waits; a batch pops the earliest. */
  ghost predicate Possible(q: Queue, e: Event) {
    match e
    case Request(userId, now) => q.clock <= now
    case Batch(count, popped) => PopsMin(q.waiting, count, popped, q.waiting - Elements(popped))
  }

  ghost function Handled(q: Queue, e: Event): Queue
    requires Possible(q, e)
  {
    match e
    case Request(userId, now) =>
      q.(
        waiting := q.waiting[userId := now],
        clock := now,
        enrolled := if userId in q.waiting then q.enrolled else q.enrolled[userId := Enrolled(q, userId) + 1])
    case Batch(count, popped) =>
      q.(waiting := q.waiting - Elements(popped), log := q.log + Stamped(q.waiting, popped))
  }

  function Times(log: seq<(nat, int)>, userId: nat): nat {
    if log == [] then 0
    else Times(log[..|log| - 1], userId) + if log[|log| - 1].0 == userId then 1 else 0
  }

  ghost predicate InOrder(log: seq<(nat, int)>) {
    forall i, j | 0 <= i < j < |log| :: log[i].1 <= log[j].1
  }

  /** Everyone ever popped came before everyone still waiting, in order of request time. */
  ghost predicate Ordered(q: Queue) {
    && InOrder(q.log)
    && (forall u | u in q.waiting :: q.waiting[u] <= q.clock)
    && (forall i | 0 <= i < |q.log| :: q.log[i].1 <= q.clock)
    && (forall i, u | 0 <= i < |q.log| && u in q.waiting :: q.log[i].1 <= q.waiting[u])
  }

  /** The queue is served in order, and nobody is lost or doubled:
      each time a user came anew, the user was popped once or waits. */
  ghost predicate QueueOk(q: Queue) {
    && Ordered(q)
    && (forall u :: Times(q.log, u) + (if u in q.waiting then 1 else 0) == Enrolled(q, u))
  }

  lemma {:induction false} TimesConcat(a: seq<(nat, int)>, b: seq<(nat, int)>, userId: nat)
    ensures Times(a + b, userId) == Times(a, userId) + Times(b, userId)
    decreases |b|
  {
    if b == [] {
      assert a + b == a;
    } else {
      assert (a + b)[..|a + b| - 1] == a + b[..|b| - 1];
      TimesConcat(a, b[..|b| - 1], userId);
    }
  }

  lemma {:induction false} TimesStamped(waiting: map<nat, int>, popped: seq<nat>, userId: nat)
    requires Distinct(popped) && Elements(popped) <= waiting.Keys
    ensures Times(Stamped(waiting, popped), userId) == if userId in popped then 1 else 0
    decreases |popped|
  {
    if popped != [] {
      var n := |popped| - 1;
      assert Elements(popped[..n]) <= Elements(popped);
      assert Stamped(waiting, popped)[..n] == Stamped(waiting, popped[..n]);
      TimesStamped(waiting, popped[..n], userId);
    }
  }

  /** What a batch pops is stamped in order, between what was popped before and what waits after it. */
  lemma StampedInOrder(waiting: map<nat, int>, popped: seq<nat>, count: nat)
    requires PopsMin(waiting, count, popped, waiting - Elements(popped))
    ensures InOrder(Stamped(waiting, popped))
    ensures forall i, u | 0 <= i < |popped| && u in waiting - Elements(popped) ::
            Stamped(waiting, popped)[i].1 <= waiting[u]
  {
  }

  lemma InOrderConcat(a: seq<(nat, int)>, b: seq<(nat, int)>)
    requires InOrder(a) && InOrder(b) && forall i, j | 0 <= i < |a| && 0 <= j < |b| :: a[i].1 <= b[j].1
    ensures InOrder(a + b)
  {
  }

  /** Nobody is lost or doubled by a batch. */
  lemma BatchCounts(q: Queue, e: Event, u: nat)
    requires QueueOk(q) && e.Batch? && Possible(q, e)
    ensures var q' := Handled(q, e);
            Times(q'.log, u) + (if u in q'.waiting then 1 else 0) == Enrolled(q', u)
  {
    TimesConcat(q.log, Stamped(q.waiting, e.popped), u);
    TimesStamped(q.waiting, e.popped, u);
    assert u in e.popped <==> u in Elements(e.popped);
  }

  lemma BatchOrdered(q: Queue, e: Event)
    requires Ordered(q) && e.Batch? && Possible(q, e)
    ensures Ordered(Handled(q, e))
  {
    var stamped := Stamped(q.waiting, e.popped);
    var q' := Handled(q, e);
    StampedInOrder(q.waiting, e.popped, e.count);
    forall j | 0 <= j < |stamped|
      ensures stamped[j].1 <= q.clock && forall i | 0 <= i < |q.log| :: q.log[i].1 <= stamped[j].1
    {
      assert e.popped[j] in Elements(e.popped) && stamped[j].1 == q.waiting[e.popped[j]];
    }
    InOrderConcat(q.log, stamped);
    forall i | 0 <= i < |q'.log|
      ensures q'.log[i].1 <= q.clock && forall u | u in q'.waiting :: q'.log[i].1 <= q'.waiting[u]
    {
      assert q'.log[i] == if i < |q.log| then q.log[i] else stamped[i - |q.log|];
    }
  }

  lemma HandledOk(q: Queue, e: Event)
    requires QueueOk(q) && Possible(q, e)
    ensures QueueOk(Handled(q, e))
  {
    if e.Batch? {
      BatchOrdered(q, e);
      forall u ensures Times(Handled(q, e).log, u) + (if u in Handled(q, e).waiting then 1 else 0) ==
          Enrolled(Handled(q, e), u) {
        BatchCounts(q, e, u);
      }
    }
  }

  ghost predicate QueueRun(q: Queue, events: seq<Event>)
    decreases |events|
  {
    events == [] || (Possible(q, events[0]) && QueueRun(Handled(q, events[0]), events[1..]))
  }

  ghost function QueueAfter(q: Queue, events: seq<Event>): Queue
    requires QueueRun(q, events)
    decreases |events|
  {
    if events == [] then q else QueueAfter(Handled(q, events[0]), events[1..])
  }

  /** First come, first served, over any run of requests and batches with a clock that does not go back. */
  lemma {:induction false} QueueServesInOrder(q: Queue, events: seq<Event>)
    requires QueueOk(q) && QueueRun(q, events)
    ensures QueueOk(QueueAfter(q, events))
    ensures q.log <= QueueAfter(q, events).log
    decreases |events|
  {
    if events != [] {
      HandledOk(q, events[0]);
      QueueServesInOrder(Handled(q, events[0]), events[1..]);
    }
  }

  // ---------------------------------------------------------------- the repository's two queue calls

  /** A queue in which users already wait, each having come once, when its record begins. */
  function Opening(waiting: map<nat, int>, clock: int): (q: Queue)
    requires forall u | u in waiting :: waiting[u] <= clock
    ensures QueueOk(q) && q.waiting == waiting
  {
    Queue(waiting, [], clock, map u | u in waiting :: 1)
  }

  class CouponRedisRepository {
    const redisService: RedisService
    ghost const since: int                  // when the record begins
    ghost var requests: map<nat, Queue>     // what has gone through each queue since then

    ghost function History(couponId: nat): Queue
      reads this
    {
      if couponId in requests then requests[couponId] else Opening(map[], since)
    }

    /** The sorted set holds those who wait, and its record is in order. */
    ghost predicate Recorded(couponId: nat)
      reads this, redisService
    {
      QueueOk(History(couponId)) && History(couponId).waiting == redisService.Queue(couponId)
    }

    ghost predicate Valid()
      reads this, redisService
    {
      forall k: nat :: Recorded(k)
    }

    constructor (redisService: RedisService, ghost now: int)
      requires forall k, u | k in redisService.sorted && u in redisService.sorted[k] :: redisService.sorted[k][u] <= now
      ensures Valid() && this.redisService == redisService
      ensures forall k: nat :: History(k) == Opening(redisService.Queue(k), now)
    {
      this.redisService, since := redisService, now;
      requests := map k | k in redisService.sorted :: Opening(redisService.sorted[k], now);
    }

    /** Puts a user into the queue with the time of the call, or moves one who waits to that time. */
    method AddToRequestQueue(couponId: nat, userId: nat, now: int)
      requires Valid() && History(couponId).clock <= now
      modifies this`requests, redisService`sorted
      ensures Valid()
      ensures History(couponId) == Handled(old(History(couponId)), Request(userId, now))
      ensures forall k | k != couponId :: History(k) == old(History(k))
      ensures redisService.Queue(couponId) == old(redisService.Queue(couponId))[userId := now]
    {
      ghost var q := History(couponId);
      assert Recorded(couponId);
      HandledOk(q, Request(userId, now));
      redisService.ZAdd(couponId, now, userId);
      requests := requests[couponId := Handled(q, Request(userId, now))];
      forall k: nat ensures Recorded(k) {
        assert k != couponId ==> old(Recorded(k)) && History(k) == old(History(k));
      }
    }

    /** Takes the earliest requests out of the queue, at most `count`. */
    method GetRequestUsers(couponId: nat, count: nat) returns (users: seq<nat>)
      requires Valid()
      modifies this`requests, redisService`sorted
      ensures Valid()
      ensures Possible(old(History(couponId)), Batch(count, users))
      ensures History(couponId) == Handled(old(History(couponId)), Batch(count, users))
      ensures forall k | k != couponId :: History(k) == old(History(k))
    {
      ghost var q := History(couponId);
      assert Recorded(couponId);
      users := redisService.ZPopMin(couponId, count);
      HandledOk(q, Batch(count, users));
      requests := requests[couponId := Handled(q, Batch(count, users))];
      forall k: nat ensures Recorded(k) {
        assert k != couponId ==> old(Recorded(k)) && History(k) == old(History(k));
      }
    }
  }
}
