/** The leased outbox table and the relay that publishes it to the broker. */
module Outbox {

  import opened Wrappers
  import opened Clock
  import opened Batches

  const LEASE: Time := 30 * SECOND
  const DEFAULT_BATCH: nat := 100

  type EventId = nat

  /** The columns that the inserter gives and nothing changes. */
  datatype Event = Event(
    eventType: string, source: string, correlationId: string, topic: string, kafkaKey: string, payload: string)

  datatype Row = Row(
    event: Event,
    occurredAt: Time,
    publishedAt: Option<Time>,
    lockedUntil: Option<Time>,
    publishAttempts: nat,
    lastError: Option<string>)
  {
    predicate Eligible(now: Time) {
      publishedAt.None? && (lockedUntil.None? || lockedUntil.value < now)
    }
  }

  type Rows = map<EventId, Row>

  /** A message in the broker, with the outbox row it came from. */
  datatype Record = Record(id: EventId, event: Event)

  function Inserted(rows: Rows, id: EventId, event: Event, occurredAt: Time): Rows {
    if id in rows then rows else rows[id := Row(event, occurredAt, None, None, 0, None)]
  }

  function EligibleKeys(rows: Rows, now: Time): map<EventId, SortKey> {
    map id | id in rows && rows[id].Eligible(now) :: SortKey(rows[id].occurredAt, id, 0)
  }

  function Leased(rows: Rows, batch: seq<EventId>, now: Time): Rows {
    map id | id in rows :: if id in batch then rows[id].(lockedUntil := Some(now + LEASE)) else rows[id]
  }

  /** A lease lasts thirty seconds to the microsecond, and nothing else of the row changes. */
  lemma LeaseLasts(rows: Rows, batch: seq<EventId>, now: Time, id: EventId)
    requires id in rows && rows[id].publishedAt.None?
    ensures id in batch ==> forall t :: Leased(rows, batch, now)[id].Eligible(t) <==> t > now + 30_000_000
    ensures id !in batch ==> Leased(rows, batch, now)[id] == rows[id]
    ensures var row := Leased(rows, batch, now)[id];
            && row.publishedAt.None? && row.event == rows[id].event && row.occurredAt == rows[id].occurredAt
            && row.publishAttempts == rows[id].publishAttempts && row.lastError == rows[id].lastError
  {
  }

  function Published(row: Row, now: Time): Row {
    row.(publishedAt := Some(now), lockedUntil := None, lastError := None)
  }

  function Bumped(row: Row, cause: string): Row {
    row.(publishAttempts := row.publishAttempts + 1, lockedUntil := None, lastError := Some(cause))
  }

  /** The fetched events: the rows of the batch, in whatever order UPDATE ... RETURNING gives them. */
  ghost predicate IsFetch(rows: Rows, now: Time, limit: nat, events: seq<EventId>) {
    Distinct(events) && exists batch: seq<EventId> ::
        IsBatch(EligibleKeys(rows, now), limit, batch) && Elements(events) == Elements(batch)
  }

  lemma FetchFacts(rows: Rows, now: Time, limit: nat, events: seq<EventId>)
    requires IsFetch(rows, now, limit, events)
    ensures forall id | id in events :: id in rows && rows[id].Eligible(now)
    ensures |events| == if |EligibleKeys(rows, now)| <= limit then |EligibleKeys(rows, now)| else limit
  {
    var batch: seq<EventId> :| IsBatch(EligibleKeys(rows, now), limit, batch) && Elements(events) == Elements(batch);
    DistinctCardinality(events);
    DistinctCardinality(batch);
    forall id | id in events ensures id in EligibleKeys(rows, now) {
      assert id in Elements(batch);
    }
  }

  /**
   The claim, on the columns: a row that is unpublished and not under a running lease is fetched, or the batch is full
   of such rows none of which occurred later.
   */
  lemma FetchTakesTheEarliest(rows: Rows, now: Time, limit: nat, events: seq<EventId>, id: EventId)
    requires IsFetch(rows, now, limit, events) && id in rows
    ensures var free := rows[id].publishedAt.None? && (rows[id].lockedUntil.None? || rows[id].lockedUntil.value < now);
            && (id in events ==> free)
            && (free && id !in events ==>
              && |events| == limit
              && forall e | e in events ::
                   && e in rows
                   && (|| rows[e].occurredAt < rows[id].occurredAt
                       || (rows[e].occurredAt == rows[id].occurredAt && e < id)))
  {
    var keys := EligibleKeys(rows, now);
    FetchFacts(rows, now, limit, events);
    var batch: seq<EventId> :| IsBatch(keys, limit, batch) && Elements(events) == Elements(batch);
    assert forall e :: e in events <==> e in Elements(batch);
    if id in keys && id !in events {
      TakenOrFull(keys, limit, batch, id);
      DistinctCardinality(batch);
      DistinctCardinality(events);
    }
  }

  // ---- One pass of the relay ----

  /**
   What happens to the event at one position of the batch. Of a refusal, `noted` says whether marking the failure
   worked, and `kept` that the broker has the message all the same.
   */
  datatype Fate =
    | Delivered                                          // published and marked
    | Unmarked                                           // published, but marking it failed
    | Refused(cause: string, noted: bool, kept: bool)    // a publish error

  /** Whether the event reaches the broker. */
  predicate Arrives(fate: Fate) {
    !fate.Refused? || fate.kept
  }

  /** The first position whose event is not published and marked, or the length of the batch. */
  function FirstStop(fates: nat -> Fate, n: nat): (k: nat)
    ensures k <= n
    ensures forall i: nat :: i < k ==> fates(i) == Delivered
    ensures k < n ==> fates(k) != Delivered
  {
    if n == 0 then 0
    else
      var k := FirstStop(fates, n - 1);
      if k < n - 1 || fates(n - 1) != Delivered then k else n
  }

  function Records(rows: Rows, events: seq<EventId>): (r: seq<Record>)
    requires forall id | id in events :: id in rows
    ensures |r| == |events|
    ensures forall i | 0 <= i < |events| :: r[i] == Record(events[i], rows[events[i]].event)
  {
    seq(|events|, i requires 0 <= i < |events| => Record(events[i], rows[events[i]].event))
  }

  /** What the row at the stopping position becomes. */
  function Stopped(row: Row, fate: Fate): Row {
    match fate
    case Refused(cause, true, _) => Bumped(row, cause)
    case _ => row
  }

  /**
   The rows after a pass that stopped at position k: the prefix is published, the stopping row dealt with, the rest as
   leased.
   */
  ghost predicate PrefixPublished(
    leased: Rows, after: Rows, events: seq<EventId>, k: nat, fates: nat -> Fate, at: nat -> Time)
    requires k <= |events| && forall id | id in events :: id in leased
  {
    && after.Keys == leased.Keys
    && (forall i | 0 <= i < k :: after[events[i]] == Published(leased[events[i]], at(i)))
    && (forall id | id in leased && id !in events[..k] ::
          after[id] == if k < |events| && id == events[k] then Stopped(leased[id], fates(k)) else leased[id])
  }

  /** The length of the prefix that reached the broker. */
  function Reached(events: seq<EventId>, fates: nat -> Fate): (n: nat)
    ensures n <= |events|
  {
    var k := FirstStop(fates, |events|);
    if k < |events| && Arrives(fates(k)) then k + 1 else k
  }

  /** What the pass appends to the broker. */
  function Appended(rows: Rows, events: seq<EventId>, k: nat, fates: nat -> Fate): seq<Record>
    requires k <= |events| && forall id | id in events :: id in rows
  {
    Records(rows, events[..if k < |events| && Arrives(fates(k)) then k + 1 else k])
  }

  /** What the loop of a pass changes. */
  datatype Tables = Tables(rows: Rows, broker: seq<Record>)

  function AfterEvent(t: Tables, id: EventId, fate: Fate, at: Time): Tables
    requires id in t.rows
  {
    Tables(t.rows[id := if fate.Delivered? then Published(t.rows[id], at) else Stopped(t.rows[id], fate)],
           t.broker + (if Arrives(fate) then [Record(id, t.rows[id].event)] else []))
  }

  /** The loop of a pass from position i on. */
  function AfterLoop(t: Tables, events: seq<EventId>, i: nat, fates: nat -> Fate, at: nat -> Time): Tables
    requires i <= |events| && forall id | id in events :: id in t.rows
    decreases |events| - i
  {
    if i == |events| then t
    else
      var next := AfterEvent(t, events[i], fates(i), at(i));
      if fates(i).Delivered? then AfterLoop(next, events, i + 1, fates, at) else next
  }

  class Relay {
    var rows: Rows
    var broker: seq<Record>
    const batchSize: nat

    constructor (batchSize: int)
      ensures rows == map[] && broker == []
      ensures this.batchSize == (if batchSize <= 0 then 100 else batchSize)
    {
      this.batchSize := if batchSize <= 0 then DEFAULT_BATCH else batchSize;
      rows, broker := map[], [];
    }

    /** Called inside the caller's transaction; a payload that is not JSON is refused. */
    method InsertTx(id: EventId, event: Event, occurredAt: Option<Time>, validJson: bool, now: Time) returns (ok: bool)
      modifies this`rows
      ensures ok == validJson
      ensures var at := if occurredAt.Some? then occurredAt.value else now;
              && rows == (if validJson then Inserted(old(rows), id, event, at) else old(rows))
              && (validJson && id !in old(rows) ==> rows == old(rows)[id := Row(event, at, None, None, 0, None)])
              && (!validJson || id in old(rows) ==> rows == old(rows))
    {
      var at := now;
      if occurredAt.Some? {
        at := occurredAt.value;
      }
      if !validJson {
        return false;
      }
      if id !in rows {
        rows := rows[id := Row(event, at, None, None, 0, None)];
      }
      return true;
    }

    method FetchUnpublished(limit: nat, now: Time) returns (events: seq<EventId>)
      modifies this`rows
      ensures IsFetch(old(rows), now, limit, events)
      ensures rows == Leased(old(rows), events, now)
      ensures forall id, t | id in events :: id in rows && (rows[id].Eligible(t) <==> t > now + 30_000_000)
    {
      events := Select(EligibleKeys(rows, now), limit);
      FetchFacts(rows, now, limit, events);
      rows := map id | id in rows :: if id in events then rows[id].(lockedUntil := Some(now + LEASE)) else rows[id];
    }

    method MarkPublished(id: EventId, now: Time)
      modifies this`rows
      ensures rows == if id in old(rows) then old(rows)[id := Published(old(rows)[id], now)] else old(rows)
      ensures id in rows ==>
                rows[id] == old(rows)[id].(publishedAt := Some(now), lockedUntil := None, lastError := None)
    {
      if id in rows {
        rows := rows[id := rows[id].(publishedAt := Some(now), lockedUntil := None, lastError := None)];
      }
    }

    method MarkFailed(id: EventId, cause: string)
      modifies this`rows
      ensures rows == if id in old(rows) then old(rows)[id := Bumped(old(rows)[id], cause)] else old(rows)
      ensures id in rows ==>
                && rows[id].publishAttempts == old(rows)[id].publishAttempts + 1
                && rows[id].lockedUntil.None? && rows[id].lastError == Some(cause)
                && rows[id].publishedAt == old(rows)[id].publishedAt && rows[id].event == old(rows)[id].event
                && rows[id].occurredAt == old(rows)[id].occurredAt
    {
      if id in rows {
        var attempts := rows[id].publishAttempts + 1;
        rows := rows[id := rows[id].(publishAttempts := attempts, lockedUntil := None, lastError := Some(cause))];
      }
    }

    /**
     One pass. `fates(i)` decides the fate of the i-th event of the batch and `at(i)` is the time of its marking.
     Publishing stops at the first event that is not published and marked.
     */
    method PublishOnce(now: Time, fetches: bool, fates: nat -> Fate, at: nat -> Time)
      returns (ok: bool, ghost events: seq<EventId>)
      modifies this
      ensures fetches ==> IsFetch(old(rows), now, batchSize, events) && forall id | id in events :: id in old(rows)
      ensures fetches ==>
                var k := FirstStop(fates, |events|);
                && PrefixPublished(Leased(old(rows), events, now), rows, events, k, fates, at)
                && broker == old(broker) + Appended(old(rows), events, k, fates)
                && ok == (k == |events| || (fates(k).Refused? && fates(k).noted))
      ensures !fetches ==> !ok && events == [] && rows == old(rows) && broker == old(broker)
    {
      events := [];
      if !fetches {
        return false, events;
      }
      var batch := FetchUnpublished(batchSize, now);
      events := batch;
      FetchFacts(old(rows), now, batchSize, batch);
      ghost var leased := Tables(rows, broker);
      ok := PublishBatch(batch, fates, at);
      LoopPublishesPrefix(leased, batch, fates, at);
    }

    /** The body of the pass's loop for one event; returns whether the pass goes on. */
    method PublishEvent(id: EventId, fate: Fate, at: Time) returns (goOn: bool)
      requires id in rows
      modifies this
      ensures goOn == fate.Delivered?
      ensures Tables(rows, broker) == AfterEvent(Tables(old(rows), old(broker)), id, fate, at)
      ensures broker == if fate.Refused? && !fate.kept then old(broker)
                        else old(broker) + [Record(id, old(rows)[id].event)]
      ensures rows.Keys == old(rows).Keys && forall e | e in rows && e != id :: rows[e] == old(rows)[e]
      ensures rows[id].publishedAt == if fate.Delivered? then Some(at) else old(rows)[id].publishedAt
      ensures rows[id].publishAttempts == old(rows)[id].publishAttempts + if fate.Refused? && fate.noted then 1 else 0
      ensures rows[id].lockedUntil
              == if fate.Delivered? || (fate.Refused? && fate.noted) then None else old(rows)[id].lockedUntil
    {
      if Arrives(fate) {
        broker := broker + [Record(id, rows[id].event)];
      }
      if fate.Refused? {
        if fate.noted {
          MarkFailed(id, fate.cause);
        }
        return false;
      }
      if fate.Unmarked? {
        return false;
      }
      MarkPublished(id, at);
      return true;
    }

    /** The loop of the pass, over a batch already leased. */
    method PublishBatch(batch: seq<EventId>, fates: nat -> Fate, at: nat -> Time) returns (ok: bool)
      requires forall id | id in batch :: id in rows
      modifies this
      ensures Tables(rows, broker) == AfterLoop(Tables(old(rows), old(broker)), batch, 0, fates, at)
      ensures var k := FirstStop(fates, |batch|);
              ok == (k == |batch| || (fates(k).Refused? && fates(k).noted))
    {
      for i := 0 to |batch|
        invariant forall j: nat :: j < i ==> fates(j) == Delivered
        invariant forall id | id in batch :: id in rows
        invariant AfterLoop(Tables(rows, broker), batch, i, fates, at)
                  == AfterLoop(Tables(old(rows), old(broker)), batch, 0, fates, at)
      {
        var goOn := PublishEvent(batch[i], fates(i), at(i));
        if !goOn {
          return fates(i).Refused? && fates(i).noted;
        }
      }
      return true;
    }
  }

  // ---- A pass publishes the prefix before the first failure ----

  lemma {:induction false} LoopElsewhere(t: Tables, events: seq<EventId>, i: nat, fates: nat -> Fate,
      at: nat -> Time, id: EventId)
    requires i <= |events| && (forall e | e in events :: e in t.rows) && id in t.rows && id !in events[i..]
    ensures var after := AfterLoop(t, events, i, fates, at).rows; after.Keys == t.rows.Keys && after[id] == t.rows[id]
    decreases |events| - i
  {
    if i < |events| && fates(i).Delivered? {
      LoopElsewhere(AfterEvent(t, events[i], fates(i), at(i)), events, i + 1, fates, at, id);
    }
  }

  lemma {:induction false} LoopAtEvent(t: Tables, events: seq<EventId>, i: nat, fates: nat -> Fate, at: nat -> Time,
      p: nat)
    requires Distinct(events) && i <= p < |events| && (forall e | e in events :: e in t.rows)
    requires forall j: nat :: j < i ==> fates(j) == Delivered
    ensures var k, row, after := FirstStop(fates, |events|), t.rows[events[p]], AfterLoop(t, events, i, fates, at).rows;
            && after.Keys == t.rows.Keys
            && after[events[p]]
               == if p < k then Published(row, at(p)) else if p == k then Stopped(row, fates(k)) else row
    decreases |events| - i
  {
    if fates(i).Delivered? {
      var next := AfterEvent(t, events[i], fates(i), at(i));
      if p == i {
        assert events[p] !in events[i + 1..];
        LoopElsewhere(next, events, i + 1, fates, at, events[p]);
      } else {
        LoopAtEvent(next, events, i + 1, fates, at, p);
      }
    }
  }

  function RecordsFrom(rows: Rows, events: seq<EventId>, i: nat, stop: nat): seq<Record>
    requires i <= stop <= |events| && forall id | id in events :: id in rows
    decreases stop - i
  {
    if i == stop then [] else [Record(events[i], rows[events[i]].event)] + RecordsFrom(rows, events, i + 1, stop)
  }

  lemma {:induction false} RecordsFromAt(rows: Rows, events: seq<EventId>, i: nat, stop: nat, k: nat)
    requires i <= k < stop <= |events| && forall id | id in events :: id in rows
    ensures |RecordsFrom(rows, events, i, stop)| == stop - i
    ensures RecordsFrom(rows, events, i, stop)[k - i] == Record(events[k], rows[events[k]].event)
    decreases stop - i
  {
    if i < k {
      RecordsFromAt(rows, events, i + 1, stop, k);
    } else if i + 1 < stop {
      RecordsFromAt(rows, events, i + 1, stop, i + 1);
    }
  }

  lemma RecordsFromStart(rows: Rows, events: seq<EventId>, stop: nat)
    requires stop <= |events| && forall id | id in events :: id in rows
    ensures RecordsFrom(rows, events, 0, stop) == Records(rows, events[..stop])
  {
    var all := RecordsFrom(rows, events, 0, stop);
    if stop > 0 {
      RecordsFromAt(rows, events, 0, stop, 0);
    }
    forall k | 0 <= k < stop ensures all[k] == Records(rows, events[..stop])[k] {
      RecordsFromAt(rows, events, 0, stop, k);
    }
  }

  predicate SameEvents(rows: Rows, later: Rows, events: seq<EventId>) {
    forall e | e in events :: e in rows && e in later && later[e].event == rows[e].event
  }

  lemma ReachedBeyond(events: seq<EventId>, fates: nat -> Fate, i: nat)
    requires i < |events| && i <= FirstStop(fates, |events|)
    ensures fates(i).Delivered? ==> i + 1 <= FirstStop(fates, |events|) <= Reached(events, fates)
    ensures !fates(i).Delivered? ==> Reached(events, fates) == if Arrives(fates(i)) then i + 1 else i
  {
  }

  lemma {:induction false} LoopAppends(rows: Rows, t: Tables, events: seq<EventId>, i: nat, fates: nat -> Fate,
      at: nat -> Time)
    requires i <= FirstStop(fates, |events|) && SameEvents(rows, t.rows, events)
    ensures i <= Reached(events, fates)
    ensures AfterLoop(t, events, i, fates, at).broker == t.broker + RecordsFrom(rows, events, i, Reached(events, fates))
    decreases |events| - i
  {
    if i < |events| {
      var next := AfterEvent(t, events[i], fates(i), at(i));
      ReachedBeyond(events, fates, i);
      assert SameEvents(rows, next.rows, events);
      if fates(i).Delivered? {
        LoopAppends(rows, next, events, i + 1, fates, at);
      }
    }
  }

  /**
   A pass marks the prefix, deals with the stopping row, leaves the rest as leased, and appends what it published in
   order.
   */
  lemma LoopPublishesPrefix(t: Tables, events: seq<EventId>, fates: nat -> Fate, at: nat -> Time)
    requires Distinct(events) && forall e | e in events :: e in t.rows
    ensures var after, k := AfterLoop(t, events, 0, fates, at), FirstStop(fates, |events|);
            && PrefixPublished(t.rows, after.rows, events, k, fates, at)
            && after.broker == t.broker + Appended(t.rows, events, k, fates)
  {
    var after, k := AfterLoop(t, events, 0, fates, at).rows, FirstStop(fates, |events|);
    LoopAppends(t.rows, t, events, 0, fates, at);
    RecordsFromStart(t.rows, events, Reached(events, fates));
    if events != [] {
      LoopAtEvent(t, events, 0, fates, at, 0);
    }
    forall i | 0 <= i < k ensures after[events[i]] == Published(t.rows[events[i]], at(i)) {
      LoopAtEvent(t, events, 0, fates, at, i);
    }
    forall id | id in t.rows && id !in events[..k]
      ensures after[id] == if k < |events| && id == events[k] then Stopped(t.rows[id], fates(k)) else t.rows[id]
    {
      if id in events {
        var p :| 0 <= p < |events| && events[p] == id;
        assert p >= k;
        LoopAtEvent(t, events, 0, fates, at, p);
      } else {
        LoopElsewhere(t, events, 0, fates, at, id);
      }
    }
  }

  // ---- Draining with a healthy broker ----

  function Unpublished(rows: Rows): set<EventId> {
    set id | id in rows && rows[id].publishedAt.None?
  }

  function Eligible(rows: Rows, now: Time): set<EventId> {
    set id | id in rows && rows[id].Eligible(now)
  }

  function Min(a: int, b: int): int {
    if a <= b then a else b
  }

  /** A pass in which every event was published and marked. */
  ghost predicate HealthyPass(before: Rows, after: Rows, now: Time, limit: nat) {
    exists events: seq<EventId> ::
      && IsFetch(before, now, limit, events)
      && after.Keys == before.Keys
      && (forall id | id in events :: id in before && after[id].publishedAt.Some?)
      && (forall id | id in before && id !in events :: after[id] == before[id])
  }

  /** What PublishOnce ensures when no event fails is a healthy pass. */
  lemma FullPassIsHealthy(before: Rows, after: Rows, now: Time, limit: nat, events: seq<EventId>, fates: nat -> Fate,
      at: nat -> Time)
    requires IsFetch(before, now, limit, events) && forall id | id in events :: id in before
    requires FirstStop(fates, |events|) == |events|
    requires PrefixPublished(Leased(before, events, now), after, events, |events|, fates, at)
    ensures HealthyPass(before, after, now, limit)
  {
    assert events[..|events|] == events;
    forall id | id in events ensures after[id].publishedAt.Some? {
      var i :| 0 <= i < |events| && events[i] == id;
      assert after[events[i]] == Published(Leased(before, events, now)[events[i]], at(i));
    }
  }

  ghost predicate Taking(before: Rows, after: Rows, now: Time, taken: set<EventId>) {
    && taken <= Eligible(before, now)
    && after.Keys == before.Keys
    && (forall id | id in taken :: after[id].publishedAt.Some?)
    && (forall id | id in before && id !in taken :: after[id] == before[id])
  }

  lemma TakingPublishes(before: Rows, after: Rows, now: Time, taken: set<EventId>)
    requires Taking(before, after, now, taken)
    ensures |Unpublished(after)| == |Unpublished(before)| - |taken|
  {
    forall id ensures id in Unpublished(after) <==> id in Unpublished(before) - taken {
    }
    assert Unpublished(after) == Unpublished(before) - taken;
    assert Unpublished(before) == (Unpublished(before) - taken) + taken;
  }

  lemma TakingLeavesEligible(before: Rows, after: Rows, now: Time, later: Time, taken: set<EventId>)
    requires Taking(before, after, now, taken) && now <= later
    ensures |Eligible(after, later)| >= |Eligible(before, now)| - |taken|
  {
    assert Eligible(before, now) == (Eligible(before, now) - taken) + taken;
    SubsetCardinality(Eligible(before, now) - taken, Eligible(after, later));
  }

  lemma HealthyPassProgress(before: Rows, after: Rows, now: Time, later: Time, limit: nat)
    requires HealthyPass(before, after, now, limit) && now <= later
    ensures |Unpublished(after)| == |Unpublished(before)| - Min(limit, |Eligible(before, now)|)
    ensures |Eligible(after, later)| >= |Eligible(before, now)| - Min(limit, |Eligible(before, now)|)
  {
    var events: seq<EventId> :|
      && IsFetch(before, now, limit, events)
      && after.Keys == before.Keys
      && (forall id | id in events :: id in before && after[id].publishedAt.Some?)
      && (forall id | id in before && id !in events :: after[id] == before[id]);
    FetchFacts(before, now, limit, events);
    assert EligibleKeys(before, now).Keys == Eligible(before, now);
    DistinctCardinality(events);
    TakingPublishes(before, after, now, Elements(events));
    TakingLeavesEligible(before, after, now, later, Elements(events));
  }

  /** Consecutive healthy passes, with no insertion in between; the clock does not go back. */
  ghost predicate HealthyPasses(states: seq<Rows>, times: seq<Time>, limit: nat) {
    && |states| == |times| + 1
    && (forall i | 0 <= i < |times| :: HealthyPass(states[i], states[i + 1], times[i], limit))
    && (forall i, j | 0 <= i < j < |times| :: times[i] <= times[j])
  }

  lemma OneMoreBatch(passes: nat, limit: nat, eligible: nat, later: nat)
    requires passes > 0 && later >= eligible - Min(limit, eligible)
    ensures Min(limit, eligible) + Min((passes - 1) * limit, later) >= Min(passes * limit, eligible)
  {
    assert passes * limit == limit + (passes - 1) * limit;
    assert (passes - 1) * limit >= 0;
  }

  /** k healthy passes publish at least the smaller of k batches and all that was eligible at first. */
  lemma {:induction false} HealthyPassesPublish(states: seq<Rows>, times: seq<Time>, limit: nat)
    requires HealthyPasses(states, times, limit) && times != []
    ensures |Unpublished(states[|times|])| <= |Unpublished(states[0])| - Min(|times| * limit,
        |Eligible(states[0], times[0])|)
    decreases |times|
  {
    var later := if |times| > 1 then times[1] else times[0];
    HealthyPassProgress(states[0], states[1], times[0], later, limit);
    OneMoreBatch(|times|, limit, |Eligible(states[0], times[0])|, |Eligible(states[1], later)|);
    if |times| > 1 {
      HealthyPassesPublish(states[1..], times[1..], limit);
    }
  }

  /** With a healthy broker, n eligible rows are drained by ceil(n / limit) passes. */
  lemma HealthyBrokerDrains(states: seq<Rows>, times: seq<Time>, limit: nat)
    requires HealthyPasses(states, times, limit) && times != [] && limit > 0
    requires Unpublished(states[0]) == Eligible(states[0], times[0])
    requires |times| >= (|Unpublished(states[0])| + limit - 1) / limit
    ensures Unpublished(states[|times|]) == {}
  {
    var n := |Unpublished(states[0])|;
    HealthyPassesPublish(states, times, limit);
    assert |times| * limit >= n by {
      var passes := (n + limit - 1) / limit;
      assert passes * limit >= n;
      assert |times| * limit >= passes * limit;
    }
  }
}
