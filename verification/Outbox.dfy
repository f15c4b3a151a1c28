/** The transactional outbox: `OutboxService.processEvents` and what it keeps over any number of runs. */
module Outbox {
  import opened Selection
  import opened Sums

  datatype Status = INIT | PENDING | PUBLISHED | FAILED

  /** Times are in milliseconds. */
  datatype OutboxEvent = OutboxEvent(status: Status, retryCount: nat, createdAt: int, updatedAt: int)

  /** How one attempt goes: published; the emit fails; the emit succeeds but the update to PUBLISHED fails;
      or, after a failing emit or after a failing update to PUBLISHED, the update to FAILED fails too, which aborts
      the run. */
  datatype Attempt = Publishes | EmitFails | UpdateFails | Aborts(emitted: bool)

  /** The event reaches Kafka. */
  predicate Emits(attempt: Attempt) {
    attempt.Publishes? || attempt.UpdateFails? || (attempt.Aborts? && attempt.emitted)
  }

  const MAX_RETRIES: nat := 3
  const BATCH: nat := 10
  const FIVE_MINUTES: int := 300000

  /** The OR clause of the query, which is what it is meant to select. */
  predicate Open(e: OutboxEvent) {
    e.status.PENDING? || (e.status.FAILED? && e.retryCount < MAX_RETRIES)
  }

  predicate Eligible(e: OutboxEvent, now: int) {
    Open(e) && e.updatedAt < now - FIVE_MINUTES
  }

  /** The query as it is written conjoins `status: 'INIT'`. */
  predicate EligibleAsWritten(e: OutboxEvent, now: int) {
    e.status.INIT? && Eligible(e, now)
  }

  lemma QueryAsWrittenSelectsNothing(e: OutboxEvent, now: int)
    ensures !EligibleAsWritten(e, now)
  {
  }

  function Attempted(e: OutboxEvent, attempt: Attempt, now: int): OutboxEvent {
    match attempt
    case Publishes => e.(status := PUBLISHED, updatedAt := now)
    case Aborts(_) => e
    case _ => e.(status := FAILED, retryCount := e.retryCount + 1, updatedAt := now)
  }

  function Of(m: map<nat, nat>, k: nat): nat {
    if k in m then m[k] else 0
  }

  function Counted(m: map<nat, nat>, k: nat): map<nat, nat> {
    m[k := Of(m, k) + 1]
  }

  /** What is left to be tried: nothing for a published event. */
  function Left(e: OutboxEvent): int {
    if e.status.PUBLISHED? || e.retryCount >= MAX_RETRIES then 0 else MAX_RETRIES - e.retryCount
  }

  function Work(events: map<nat, OutboxEvent>): map<nat, int> {
    map id | id in events :: Left(events[id])
  }

  ghost function Measure(events: map<nat, OutboxEvent>): int {
    Total(Work(events))
  }

  function Candidates(events: map<nat, OutboxEvent>, now: int): map<nat, int> {
    map id | id in events && Eligible(events[id], now) :: events[id].createdAt
  }

  /** The oldest eligible events, at most ten. */
  ghost predicate PopsOldest(events: map<nat, OutboxEvent>, now: int, batch: seq<nat>) {
    PopsMin(Candidates(events, now), BATCH, batch, Candidates(events, now) - Elements(batch))
  }

  /** The same written out: the ten oldest events that have not been touched for five minutes and are PENDING,
      or FAILED with less than three retries. */
  lemma TenOldest(events: map<nat, OutboxEvent>, now: int, batch: seq<nat>)
    requires PopsOldest(events, now, batch)
    ensures |batch| <= 10
    ensures forall id | id in batch ::
              id in events && events[id].updatedAt < now - 5 * 60 * 1000
              && (events[id].status.PENDING? || (events[id].status.FAILED? && events[id].retryCount < 3))
    ensures forall i, j | 0 <= i < j < |batch| ::
              batch[i] != batch[j] && events[batch[i]].createdAt <= events[batch[j]].createdAt
    ensures forall id | id in events && id !in batch && events[id].updatedAt < now - 5 * 60 * 1000 ::
              events[id].status.PENDING? || (events[id].status.FAILED? && events[id].retryCount < 3) ==>
                |batch| == 10 && forall b | b in batch :: events[b].createdAt <= events[id].createdAt
  {
    var all := Candidates(events, now);
    assert forall b | b in batch :: b in Elements(batch);
    forall id | id in events && id !in batch && Eligible(events[id], now)
      ensures |batch| == 10 && forall b | b in batch :: events[b].createdAt <= events[id].createdAt
    {
      assert id in all && id in all - Elements(batch);
      assert Elements(batch) <= all.Keys - {id};
      SizeOfElements(batch);
      SubsetSize(Elements(batch), all.Keys - {id});
    }
  }

  /** The events after one attempt at each of a batch. */
  function AllTried(events: map<nat, OutboxEvent>, batch: seq<nat>, outcome: nat -> Attempt, now: int)
      : map<nat, OutboxEvent>
  {
    if batch == [] then events
    else
      var earlier := AllTried(events, batch[..|batch| - 1], outcome, now);
      var id := batch[|batch| - 1];
      if id in earlier then earlier[id := Attempted(earlier[id], outcome(id), now)] else earlier
  }

  lemma {:induction false} TriedOnce(events: map<nat, OutboxEvent>, batch: seq<nat>, outcome: nat -> Attempt, now: int,
      id: nat)
    requires Distinct(batch)
    ensures id in AllTried(events, batch, outcome, now) <==> id in events
    ensures id in events ==>
              AllTried(events, batch, outcome, now)[id] == if id in batch then Attempted(events[id], outcome(id), now)
                  else events[id]
    decreases |batch|
  {
    if batch != [] {
      var n := |batch| - 1;
      assert batch == batch[..n] + [batch[n]];
      assert batch[n] !in batch[..n];
      TriedOnce(events, batch[..n], outcome, now, id);
      if id != batch[n] {
        TriedOnce(events, batch[..n], outcome, now, batch[n]);
      }
    }
  }

  /** The first `tried` attempts of a batch have been made, and none of them aborted the run. */
  ghost predicate Progress(before: map<nat, OutboxEvent>, batch: seq<nat>, outcome: nat -> Attempt, now: int,
                           tried: nat, events: map<nat, OutboxEvent>) {
    && tried <= |batch|
    && events == AllTried(before, batch[..tried], outcome, now)
    && (forall k | 0 <= k < tried :: !outcome(batch[k]).Aborts?)
    && Measure(events) <= Measure(before) - tried
  }

  ghost predicate Pickable(events: map<nat, OutboxEvent>, batch: seq<nat>) {
    && Distinct(batch)
    && forall id | id in batch ::
         id in events && Open(events[id]) && (events[id].status.PENDING? ==> events[id].retryCount == 0)
  }

  lemma NextIsOpen(before: map<nat, OutboxEvent>, batch: seq<nat>, outcome: nat -> Attempt, now: int,
                   tried: nat, events: map<nat, OutboxEvent>)
    requires Pickable(before, batch) && Progress(before, batch, outcome, now, tried, events) && tried < |batch|
    ensures batch[tried] in events && events[batch[tried]] == before[batch[tried]] && Open(before[batch[tried]])
  {
    TriedOnce(before, batch[..tried], outcome, now, batch[tried]);
  }

  lemma OneMoreTried(before: map<nat, OutboxEvent>, batch: seq<nat>, outcome: nat -> Attempt, now: int,
                     tried: nat, events: map<nat, OutboxEvent>)
    requires Pickable(before, batch) && Progress(before, batch, outcome, now, tried, events)
    requires tried < |batch| && !outcome(batch[tried]).Aborts? && batch[tried] in events
    ensures Progress(before, batch, outcome, now, tried + 1,
                     events[batch[tried] := Attempted(events[batch[tried]], outcome(batch[tried]), now)])
  {
    NextIsOpen(before, batch, outcome, now, tried, events);
    MeasureStep(events, batch[tried], outcome(batch[tried]), now);
    assert batch[..tried + 1][..tried] == batch[..tried];
  }

  /** What the first attempts of a batch leave: each event PUBLISHED, or FAILED with one retry more, and touched now. */
  lemma TriedEach(events: map<nat, OutboxEvent>, now: int, batch: seq<nat>, tried: nat, outcome: nat -> Attempt)
    requires Distinct(batch) && tried <= |batch| && forall id | id in batch :: id in events
    requires forall k | 0 <= k < tried :: !outcome(batch[k]).Aborts?
    ensures var after := AllTried(events, batch[..tried], outcome, now);
            && after.Keys == events.Keys
            && (forall id | id in events && id !in batch[..tried] :: after[id] == events[id])
            && forall id | id in batch[..tried] ::
                 && after[id].updatedAt == now && after[id].createdAt == events[id].createdAt
                 && after[id].status == (if outcome(id).Publishes? then PUBLISHED else FAILED)
                 && after[id].retryCount == events[id].retryCount + if outcome(id).Publishes? then 0 else 1
  {
    var after := AllTried(events, batch[..tried], outcome, now);
    forall id ensures id in after <==> id in events {
      TriedOnce(events, batch[..tried], outcome, now, id);
    }
    forall id | id in events
      ensures after[id] == if id in batch[..tried] then Attempted(events[id], outcome(id), now) else events[id]
    {
      TriedOnce(events, batch[..tried], outcome, now, id);
    }
    assert forall id | id in batch[..tried] :: exists k :: 0 <= k < tried && batch[k] == id;
  }

  class OutboxService {
    var events: map<nat, OutboxEvent>
    ghost var attempts: map<nat, nat>  // how often each event was tried
    ghost var emits: map<nat, nat>     // how often it reached Kafka
    ghost var aborts: map<nat, nat>    // how often its attempt aborted the run

    /** Every attempt is accounted for: it published, was counted as a retry, or aborted its run. */
    ghost predicate Valid()
      reads this
    {
      AllOk(events, attempts, emits, aborts)
    }

    constructor ()
      ensures Valid() && events == map[]
    {
      events, attempts, emits, aborts := map[], map[], map[], map[];
    }

    /** Identifiers are fresh UUIDs. */
    method CreateEvent(id: nat, now: int)
      requires Valid() && id !in events
      modifies this
      ensures Valid() && events == old(events)[id := OutboxEvent(PENDING, 0, now, now)]
    {
      events := events[id := OutboxEvent(PENDING, 0, now, now)];
      attempts, emits, aborts := attempts[id := 0], emits[id := 0], aborts[id := 0];
    }

    /** Emits one event and records how that went. */
    method Try(id: nat, attempt: Attempt, now: int) returns (ok: bool)
      requires Valid() && id in events && Open(events[id])
      modifies this
      ensures Valid() && ok == !attempt.Aborts?
      ensures events == old(events)[id := Attempted(old(events)[id], attempt, now)]
      ensures attempts == Counted(old(attempts), id)
      ensures aborts == if attempt.Aborts? then Counted(old(aborts), id) else old(aborts)
      ensures emits == if Emits(attempt) then Counted(old(emits), id) else old(emits)
    {
      AttemptKeepsAll(events, attempts, emits, aborts, id, attempt, now);
      var e := events[id];
      attempts := Counted(attempts, id);
      if Emits(attempt) {
        emits := Counted(emits, id);
      }
      ok := true;
      if attempt.Publishes? {
        events := events[id := e.(status := PUBLISHED, updatedAt := now)];
      } else if attempt.Aborts? {
        aborts := Counted(aborts, id);
        ok := false;
      } else {
        events := events[id := e.(status := FAILED, retryCount := e.retryCount + 1, updatedAt := now)];
      }
    }

    /** The loop of a run: one attempt after another, until one aborts the run; `tried` of them did not. */
    method TryAll(batch: seq<nat>, now: int, outcome: nat -> Attempt) returns (tried: nat)
      requires Valid() && Pickable(events, batch)
      modifies this
      ensures Valid() && Progress(old(events), batch, outcome, now, tried, events)
      ensures tried < |batch| ==> outcome(batch[tried]).Aborts?
    {
      tried := 0;
      while tried < |batch|
        invariant Valid() && Progress(old(events), batch, outcome, now, tried, events)
      {
        var id := batch[tried];
        NextIsOpen(old(events), batch, outcome, now, tried, events);
        if !outcome(id).Aborts? {
          OneMoreTried(old(events), batch, outcome, now, tried, events);
        }
        var ok := Try(id, outcome(id), now);
        if !ok {
          return;
        }
        tried := tried + 1;
      }
    }

    /** One run over the oldest eligible events, at most ten: they get one attempt each, up to one that aborts the run;
        every other event stays as it is, and the work left shrinks by at least one for each event tried. */
    method ProcessEvents(now: int, outcome: nat -> Attempt) returns (batch: seq<nat>, tried: nat)
      requires Valid()
      modifies this
      ensures Valid()
      ensures PopsOldest(old(events), now, batch)
      ensures |batch| <= 10 && forall id | id in batch ::
                id in old(events) &&
                var e := old(events)[id];
                && e.updatedAt < now - 5 * 60 * 1000
                && (e.status.PENDING? || (e.status.FAILED? && e.retryCount < 3))
      ensures forall i, j | 0 <= i < j < |batch| ::
                batch[i] != batch[j] && old(events)[batch[i]].createdAt <= old(events)[batch[j]].createdAt
      ensures forall id | id in old(events) && id !in batch && old(events)[id].updatedAt < now - 5 * 60 * 1000 ::
                var e := old(events)[id];
                e.status.PENDING? || (e.status.FAILED? && e.retryCount < 3) ==>
                  |batch| == 10 && forall b | b in batch :: old(events)[b].createdAt <= e.createdAt
      ensures tried <= |batch| && (tried < |batch| ==> outcome(batch[tried]).Aborts?)
      ensures events == AllTried(old(events), batch[..tried], outcome, now)
      ensures events.Keys == old(events).Keys
      ensures forall id | id in events && id !in batch[..tried] :: events[id] == old(events)[id]
      ensures forall id | id in batch[..tried] ::
                && events[id].updatedAt == now && events[id].createdAt == old(events)[id].createdAt
                && events[id].status == (if outcome(id).Publishes? then PUBLISHED else FAILED)
                && events[id].retryCount == old(events)[id].retryCount + if outcome(id).Publishes? then 0 else 1
      ensures Measure(events) <= Measure(old(events)) - tried
    {
      var left;
      batch, left := TakeMinima(Candidates(events, now), BATCH);
      forall id | id in batch
        ensures id in events && Open(events[id]) && (events[id].status.PENDING? ==> events[id].retryCount == 0)
      {
        assert id in Elements(batch);
      }
      ghost var before := events;
      TenOldest(before, now, batch);
      tried := TryAll(batch, now, outcome);
      TriedEach(before, now, batch, tried, outcome);
    }
  }

  /** A published event is never tried again. */
  lemma PublishedStays(events: map<nat, OutboxEvent>, now: int, batch: seq<nat>, tried: nat, outcome: nat -> Attempt,
      id: nat)
    requires tried <= |batch|
    requires PopsOldest(events, now, batch)
    requires id in events && events[id].status.PUBLISHED?
    ensures id !in batch
    ensures id in AllTried(events, batch[..tried], outcome, now)
    ensures AllTried(events, batch[..tried], outcome, now)[id] == events[id]
  {
    TriedOnce(events, batch[..tried], outcome, now, id);
    forall x | x in batch ensures x in events && Open(events[x]) {
      assert x in Elements(batch);
    }
    assert id !in batch;
  }

  /** Attempts and retries of one event. */
  predicate EventOk(e: OutboxEvent, attempts: nat, emits: nat, aborts: nat) {
    && attempts == e.retryCount + aborts + (if e.status.PUBLISHED? then 1 else 0)
    && e.retryCount + (if e.status.PUBLISHED? then 1 else 0) <= MAX_RETRIES
    && (e.status.PENDING? ==> e.retryCount == 0)
    && (e.status.PUBLISHED? ==> emits >= 1)
    && emits <= attempts
    && !e.status.INIT?
  }

  lemma AttemptCounted(e: OutboxEvent, attempt: Attempt, now: int, attempts: nat, emits: nat, aborts: nat)
    requires EventOk(e, attempts, emits, aborts) && Open(e)
    ensures EventOk(Attempted(e, attempt, now), attempts + 1,
                    emits + (if Emits(attempt) then 1 else 0),
                    aborts + if attempt.Aborts? then 1 else 0)
  {
  }

  predicate AllOk(events: map<nat, OutboxEvent>, attempts: map<nat, nat>, emits: map<nat, nat>, aborts: map<nat, nat>) {
    forall id | id in events :: EventOk(events[id], Of(attempts, id), Of(emits, id), Of(aborts, id))
  }

  lemma AttemptKeepsAll(events: map<nat, OutboxEvent>, attempts: map<nat, nat>, emits: map<nat, nat>,
      aborts: map<nat, nat>, id: nat, attempt: Attempt, now: int)
    requires AllOk(events, attempts, emits, aborts) && id in events && Open(events[id])
    ensures AllOk(events[id := Attempted(events[id], attempt, now)], Counted(attempts, id),
                  if Emits(attempt) then Counted(emits, id) else emits,
                  if attempt.Aborts? then Counted(aborts, id) else aborts)
  {
    AttemptCounted(events[id], attempt, now, Of(attempts, id), Of(emits, id), Of(aborts, id));
  }

  /** No event is tried more than three times beyond its aborted attempts, and a published one did reach Kafka. */
  lemma AtMostThreeAttempts(service: OutboxService, id: nat)
    requires service.Valid() && id in service.events
    ensures Of(service.attempts, id) <= 3 + Of(service.aborts, id)
    ensures service.events[id].status.PUBLISHED? ==> Of(service.emits, id) >= 1
    ensures Left(service.events[id]) == 0 <==> !Open(service.events[id])
  {
  }

  lemma MeasureStep(events: map<nat, OutboxEvent>, id: nat, attempt: Attempt, now: int)
    requires id in events && Open(events[id]) && (events[id].status.PENDING? ==> events[id].retryCount == 0)
    ensures var after := Measure(events[id := Attempted(events[id], attempt, now)]);
            after <= Measure(events) - if attempt.Aborts? then 0 else 1
  {
    var e := Attempted(events[id], attempt, now);
    assert Work(events[id := e]) == Work(events)[id := Left(e)];
    TotalUpdate(Work(events), id, Left(e));
  }

  lemma MeasureNonNegative(events: map<nat, OutboxEvent>)
    ensures Measure(events) >= 0
  {
    var none := map id | id in events :: 0;
    TotalMonotone(none, Work(events));
    TotalOfZeros(none);
  }

  /** Nothing was tried only because nothing was open. */
  lemma EmptyBatch(events: map<nat, OutboxEvent>, now: int)
    requires PopsOldest(events, now, [])
    requires forall id | id in events :: events[id].updatedAt < now - FIVE_MINUTES
    ensures forall id | id in events :: !Open(events[id])
  {
    assert |Candidates(events, now)| == 0;
    assert Candidates(events, now) == map[];
    forall id | id in events ensures !Open(events[id]) {
      assert id !in Candidates(events, now);
    }
  }

  /** What a run does to the times: an event is as it was or was touched now. */
  lemma TouchedNow(events: map<nat, OutboxEvent>, batch: seq<nat>, outcome: nat -> Attempt, now: int)
    requires Distinct(batch) && forall id | id in events :: events[id].updatedAt <= now
    ensures var after := AllTried(events, batch, outcome, now);
            after.Keys == events.Keys && forall id | id in after :: after[id].updatedAt <= now
  {
    forall id ensures id in AllTried(events, batch, outcome, now) <==> id in events {
      TriedOnce(events, batch, outcome, now, id);
    }
    forall id | id in events ensures AllTried(events, batch, outcome, now)[id].updatedAt <= now {
      TriedOnce(events, batch, outcome, now, id);
    }
  }

  /** A run at time `now`: what it selected, and how many of these it tried before it was aborted, if it was. */
  datatype Run = Run(now: int, batch: seq<nat>, tried: nat)

  predicate InBounds(runs: seq<Run>) {
    forall run | run in runs :: run.tried <= |run.batch|
  }

  /** The events after a number of runs. */
  function AfterRuns(events: map<nat, OutboxEvent>, runs: seq<Run>, outcome: nat -> nat -> Attempt)
      : map<nat, OutboxEvent>
    requires InBounds(runs)
    decreases |runs|
  {
    if runs == [] then events
    else
      var n := |runs| - 1;
      AllTried(AfterRuns(events, runs[..n], outcome), runs[n].batch[..runs[n].tried], outcome(n), runs[n].now)
  }

  /** The run tries the oldest eligible events, up to one that aborts it. */
  ghost predicate Tries(events: map<nat, OutboxEvent>, run: Run, outcome: nat -> Attempt) {
    && run.tried <= |run.batch| && PopsOldest(events, run.now, run.batch)
    && (run.tried < |run.batch| ==> outcome(run.batch[run.tried]).Aborts?)
  }

  ghost predicate InTurn(events: map<nat, OutboxEvent>, runs: seq<Run>, outcome: nat -> nat -> Attempt)
    requires InBounds(runs)
    decreases |runs|
  {
    runs == [] ||
    var n := |runs| - 1;
    InTurn(events, runs[..n], outcome) && Tries(AfterRuns(events, runs[..n], outcome), runs[n], outcome(n))
  }

  lemma OneMoreRun(events: map<nat, OutboxEvent>, runs: seq<Run>, outcome: nat -> nat -> Attempt, last: Run)
    requires InBounds(runs) && InTurn(events, runs, outcome)
    requires Tries(AfterRuns(events, runs, outcome), last, outcome(|runs|))
    ensures InBounds(runs + [last]) && InTurn(events, runs + [last], outcome)
    ensures AfterRuns(events, runs + [last], outcome) ==
            AllTried(AfterRuns(events, runs, outcome), last.batch[..last.tried], outcome(|runs|), last.now)
  {
    assert (runs + [last])[..|runs|] == runs;
  }

  predicate NoAborts(outcome: nat -> Attempt, events: map<nat, OutboxEvent>) {
    forall id | id in events :: !outcome(id).Aborts?
  }

  /** A run that is not aborted tries its whole batch; it leaves less work or finds nothing open. */
  method Tick(service: OutboxService, now: int, outcome: nat -> Attempt) returns (batch: seq<nat>)
    requires service.Valid() && NoAborts(outcome, service.events)
    requires forall id | id in service.events :: service.events[id].updatedAt < now - FIVE_MINUTES
    modifies service
    ensures service.Valid() && service.events.Keys == old(service.events).Keys
    ensures PopsOldest(old(service.events), now, batch)
            && service.events == AllTried(old(service.events), batch, outcome, now)
    ensures forall id | id in service.events :: service.events[id].updatedAt <= now
    ensures Measure(service.events) <= old(Measure(service.events)) - |batch|
    ensures batch == [] ==> forall id | id in service.events :: !Open(service.events[id])
  {
    ghost var before := service.events;
    var tried;
    batch, tried := service.ProcessEvents(now, outcome);
    forall id | id in batch ensures !outcome(id).Aborts? {
      assert id in Elements(batch);
    }
    assert tried == |batch| && batch[..tried] == batch;
    TouchedNow(before, batch, outcome, now);
    if batch == [] {
      EmptyBatch(before, now);
    }
  }

  function TimeOf(start: int, run: nat): int {
    start + run * (FIVE_MINUTES + 1)
  }

  /** Runs more than five minutes apart, each of which tries all it selects. */
  ghost predicate Spaced(runs: seq<Run>, start: int) {
    forall k | 0 <= k < |runs| :: runs[k].now == TimeOf(start, k) && runs[k].tried == |runs[k].batch|
  }

  ghost predicate Ran(before: map<nat, OutboxEvent>, runs: seq<Run>, outcome: nat -> nat -> Attempt, start: int,
                      events: map<nat, OutboxEvent>) {
    Spaced(runs, start) && InBounds(runs) && InTurn(before, runs, outcome) && events == AfterRuns(before, runs, outcome)
  }

  lemma RanFurther(before: map<nat, OutboxEvent>, runs: seq<Run>, outcome: nat -> nat -> Attempt, start: int,
                   events: map<nat, OutboxEvent>, batch: seq<nat>)
    requires Ran(before, runs, outcome, start, events) && PopsOldest(events, TimeOf(start, |runs|), batch)
    ensures Ran(before, runs + [Run(TimeOf(start, |runs|), batch, |batch|)], outcome, start,
                AllTried(events, batch, outcome(|runs|), TimeOf(start, |runs|)))
  {
    var run := Run(TimeOf(start, |runs|), batch, |batch|);
    OneMoreRun(before, runs, outcome, run);
    assert batch[..|batch|] == batch;
  }

  /** With runs more than five minutes apart, none of them aborted, processing comes to an end:
      every event is published or has failed three times. */
  method ProcessAll(service: OutboxService, start: int, outcome: nat -> nat -> Attempt) returns (runs: seq<Run>)
    requires service.Valid() && forall run :: NoAborts(outcome(run), service.events)
    requires forall id | id in service.events :: service.events[id].updatedAt < start - FIVE_MINUTES
    modifies service
    ensures service.Valid() && service.events.Keys == old(service.events).Keys
    ensures Spaced(runs, start) && InBounds(runs) && InTurn(old(service.events), runs, outcome)
    ensures service.events == AfterRuns(old(service.events), runs, outcome)
    ensures forall id | id in service.events :: !Open(service.events[id])
    ensures |runs| <= old(Measure(service.events)) + 1
  {
    ghost var before := service.events;
    runs := [];
    MeasureNonNegative(service.events);
    var more := true;
    while more
      invariant service.Valid() && service.events.Keys == before.Keys
      invariant Ran(before, runs, outcome, start, service.events)
      invariant forall id | id in service.events :: service.events[id].updatedAt < TimeOf(start, |runs|) - FIVE_MINUTES
      invariant !more ==> forall id | id in service.events :: !Open(service.events[id])
      invariant Measure(service.events) >= 0
      invariant |runs| + Measure(service.events) <= Measure(before) + if more then 0 else 1
      decreases Measure(service.events), more
    {
      assert NoAborts(outcome(|runs|), before);
      ghost var events := service.events;
      var batch := Tick(service, TimeOf(start, |runs|), outcome(|runs|));
      MeasureNonNegative(service.events);
      RanFurther(before, runs, outcome, start, events, batch);
      runs := runs + [Run(TimeOf(start, |runs|), batch, |batch|)];
      more := batch != [];
    }
  }

  /** An event, once published, stays as it is through any number of runs, whenever they are and whether aborted or
      not. */
  lemma {:induction false} PublishedForGood(events: map<nat, OutboxEvent>, runs: seq<Run>,
      outcome: nat -> nat -> Attempt, id: nat)
    requires InBounds(runs) && InTurn(events, runs, outcome) && id in events && events[id].status.PUBLISHED?
    ensures forall run | run in runs :: id !in run.batch
    ensures id in AfterRuns(events, runs, outcome)
    ensures AfterRuns(events, runs, outcome)[id] == events[id]
    decreases |runs|
  {
    if runs != [] {
      var n := |runs| - 1;
      assert runs == runs[..n] + [runs[n]];
      PublishedForGood(events, runs[..n], outcome, id);
      PublishedStays(AfterRuns(events, runs[..n], outcome), runs[n].now, runs[n].batch, runs[n].tried, outcome(n), id);
    }
  }

  // ---------------------------------------------------------------- five minutes between attempts

  /** The runs are listed in the order of their times. */
  predicate InOrder(runs: seq<Run>) {
    forall j, k | 0 <= j < k < |runs| :: runs[j].now <= runs[k].now
  }

  lemma TouchedByRun(events: map<nat, OutboxEvent>, run: Run, outcome: nat -> Attempt, id: nat)
    requires Tries(events, run, outcome) && id in run.batch[..run.tried] && !outcome(id).Aborts?
    ensures var after := AllTried(events, run.batch[..run.tried], outcome, run.now);
            id in after && after[id].updatedAt == run.now
  {
    TriedOnce(events, run.batch[..run.tried], outcome, run.now, id);
    assert id in Elements(run.batch);
  }

  lemma StillTouched(events: map<nat, OutboxEvent>, run: Run, outcome: nat -> Attempt, id: nat, since: int)
    requires Tries(events, run, outcome) && id in events && events[id].updatedAt >= since && run.now >= since
    ensures var after := AllTried(events, run.batch[..run.tried], outcome, run.now);
            id in after && after[id].updatedAt >= since
  {
    TriedOnce(events, run.batch[..run.tried], outcome, run.now, id);
  }

  lemma LastRun(events: map<nat, OutboxEvent>, runs: seq<Run>, outcome: nat -> nat -> Attempt)
    requires InBounds(runs) && InTurn(events, runs, outcome) && runs != []
    ensures var n := |runs| - 1;
            && InBounds(runs[..n]) && InTurn(events, runs[..n], outcome)
            && Tries(AfterRuns(events, runs[..n], outcome), runs[n], outcome(n))
            && AfterRuns(events, runs, outcome) ==
               AllTried(AfterRuns(events, runs[..n], outcome), runs[n].batch[..runs[n].tried], outcome(n), runs[n].now)
  {
  }

  /** An event that was tried, without an abort, has been touched since. */
  lemma {:induction false} TouchedSince(events: map<nat, OutboxEvent>, runs: seq<Run>, outcome: nat -> nat -> Attempt,
      j: nat, id: nat)
    requires InBounds(runs) && InTurn(events, runs, outcome) && InOrder(runs)
    requires j < |runs| && id in runs[j].batch[..runs[j].tried] && !outcome(j)(id).Aborts?
    ensures id in AfterRuns(events, runs, outcome)
    ensures AfterRuns(events, runs, outcome)[id].updatedAt >= runs[j].now
    decreases |runs|
  {
    var n := |runs| - 1;
    LastRun(events, runs, outcome);
    if j < n {
      TouchedSince(events, runs[..n], outcome, j, id);
      StillTouched(AfterRuns(events, runs[..n], outcome), runs[n], outcome(n), id, runs[j].now);
    } else {
      TouchedByRun(AfterRuns(events, runs[..n], outcome), runs[n], outcome(n), id);
    }
  }

  /** Over any number of runs in the order of their times: an event is tried again, or even selected, only more than
      five minutes after its last attempt, unless that one aborted its run. */
  lemma {:induction false} RetriesSpaced(events: map<nat, OutboxEvent>, runs: seq<Run>, outcome: nat -> nat -> Attempt,
      j: nat, k: nat, id: nat)
    requires InBounds(runs) && InTurn(events, runs, outcome) && InOrder(runs)
    requires j < k < |runs| && id in runs[j].batch[..runs[j].tried] && !outcome(j)(id).Aborts?
    requires id in runs[k].batch
    ensures runs[k].now > runs[j].now + 5 * 60 * 1000
    decreases |runs|
  {
    var n := |runs| - 1;
    LastRun(events, runs, outcome);
    if k < n {
      RetriesSpaced(events, runs[..n], outcome, j, k, id);
    } else {
      NotTooSoon(events, runs[..n], outcome, j, id, runs[n], outcome(n));
    }
  }

  lemma NotTooSoon(events: map<nat, OutboxEvent>, earlier: seq<Run>, outcome: nat -> nat -> Attempt, j: nat, id: nat,
      run: Run, next: nat -> Attempt)
    requires InBounds(earlier) && InTurn(events, earlier, outcome) && InOrder(earlier)
    requires j < |earlier| && id in earlier[j].batch[..earlier[j].tried] && !outcome(j)(id).Aborts?
    requires Tries(AfterRuns(events, earlier, outcome), run, next) && id in run.batch
    ensures run.now > earlier[j].now + 5 * 60 * 1000
  {
    TouchedSince(events, earlier, outcome, j, id);
    TenOldest(AfterRuns(events, earlier, outcome), run.now, run.batch);
  }
}
