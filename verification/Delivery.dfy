/** Notification delivery: the delivery table, the sending of one command, and the retry scheduler. */
module Delivery {

  import opened Wrappers
  import opened Clock
  import opened Batches

  const DEFAULT_MAX_ATTEMPTS: nat := 3
  const DEFAULT_RETRY_BATCH: nat := 100

  type Key = string

  datatype Payload = Payload(
    notificationId: nat,
    key: Key,
    recipient: string,
    emailHash: string,
    repo: string,
    tag: string,
    message: string)

  datatype Status = Pending | Sent | Failed | Dead

  /** A row of `notification_deliveries`; its payload columns are those of the command that created it. */
  datatype Row = Row(
    payload: Payload,
    status: Status,
    attemptCount: nat,
    lastError: string,
    nextAttemptAt: Option<Time>,
    updatedAt: Time,
    sentAt: Option<Time>)
  {
    /** The scheduler's WHERE clause. */
    predicate DueForRetry(now: Time) {
      status == Failed && nextAttemptAt.Some? && nextAttemptAt.value <= now
    }
  }

  type Table = map<Key, Row>

  // ---- One function for each statement ----

  /** INSERT ... ON CONFLICT (idempotency_key) DO UPDATE SET updated_at = updated_at: an existing row stays as it is. */
  function Upserted(t: Table, p: Payload, now: Time): Table {
    if p.key in t then t else t[p.key := Row(p, Pending, 0, "", None, now, None)]
  }

  function MarkedSent(t: Table, key: Key, now: Time): Table {
    if key !in t then t
    else t[key := t[key].(status := Sent, sentAt := Some(now), updatedAt := now, lastError := "",
        nextAttemptAt := None)]
  }

  function MarkedFailed(t: Table, key: Key, cause: string, next: Time, now: Time): Table {
    if key !in t then t
    else t[key := t[key].(status := Failed, attemptCount := t[key].attemptCount + 1, lastError := cause,
                          nextAttemptAt := Some(next), updatedAt := now)]
  }

  function MarkedDead(t: Table, key: Key, cause: string, now: Time): Table {
    if key !in t then t
    else t[key := t[key].(status := Dead, attemptCount := t[key].attemptCount + 1, lastError := cause,
                          nextAttemptAt := None, updatedAt := now)]
  }

  /** The scheduler's ORDER BY. */
  function Rank(row: Row): SortKey
    requires row.nextAttemptAt.Some?
  {
    SortKey(row.nextAttemptAt.value, row.updatedAt, row.payload.notificationId)
  }

  function DueKeys(t: Table, now: Time): map<Key, SortKey> {
    map k | k in t && t[k].DueForRetry(now) :: Rank(t[k])
  }

  /**
   The scheduler's selection, on the columns: a failed row whose next attempt is not in the future is picked, or the
   batch is full of such rows that do not come later by next attempt, update and notification id.
   */
  lemma RetryTakesDue(t: Table, now: Time, limit: nat, batch: seq<Key>, key: Key)
    requires IsBatch(DueKeys(t, now), limit, batch) && key in t
    ensures var waits := t[key].status == Failed && t[key].nextAttemptAt.Some? && t[key].nextAttemptAt.value <= now;
            && (key in batch ==> waits)
            && (waits && key !in batch ==>
                  && |batch| == limit
                  && forall k | k in batch ::
                       && k in t && t[k].nextAttemptAt.Some?
                       && var a, b := t[k], t[key];
                          || a.nextAttemptAt.value < b.nextAttemptAt.value
                          || (a.nextAttemptAt == b.nextAttemptAt && a.updatedAt < b.updatedAt)
                          || (&& a.nextAttemptAt == b.nextAttemptAt && a.updatedAt == b.updatedAt
                              && a.payload.notificationId <= b.payload.notificationId))
  {
    var keys := DueKeys(t, now);
    if key in keys && key !in batch {
      TakenOrFull(keys, limit, batch, key);
    }
  }

  /** The scheduler's transaction on the table: the picked rows are pending again. */
  function Requeued(t: Table, batch: seq<Key>, now: Time): Table {
    map k | k in t :: if k in batch then t[k].(status := Pending, nextAttemptAt := None, updatedAt := now) else t[k]
  }

  /** The scheduler's transaction on the outbox: one command per picked row, rebuilt from the row. */
  function RetryCommands(t: Table, batch: seq<Key>): (r: seq<Payload>)
    requires forall k | k in batch :: k in t
    ensures |r| == |batch|
    ensures forall i | 0 <= i < |batch| :: r[i] == t[batch[i]].payload.(key := batch[i])
  {
    seq(|batch|, i requires 0 <= i < |batch| => t[batch[i]].payload.(key := batch[i]))
  }

  // ---- Processing one command ----

  /** `hasDeadLetter`: whether the service was given a dead-letter publisher. */
  datatype Config = Config(maxAttempts: nat, retryDelays: seq<Time>, hasDeadLetter: bool)

  function RetryDelay(config: Config, attempt: int): Time {
    if attempt <= 0 || config.retryDelays == [] then MINUTE
    else
      var index := attempt - 1;
      config.retryDelays[if index >= |config.retryDelays| then |config.retryDelays| - 1 else index]
  }

  /** Successive failures wait for the configured delays in order, and then for the last of them again and again. */
  lemma RetriesFollowDelays(config: Config, attempt: nat)
    requires attempt > 0
    ensures config.retryDelays == [] ==> RetryDelay(config, attempt) == 60_000_000
    ensures attempt <= |config.retryDelays| ==> RetryDelay(config, attempt) == config.retryDelays[attempt - 1]
    ensures 0 < |config.retryDelays| <= attempt ==> RetryDelay(config, attempt + 1) == RetryDelay(config, attempt)
  {
  }

  datatype Attempt = Attempt(key: Key, delivered: bool)

  /** The table, and the history of what left the service: calls of the sender and dead letters. */
  datatype State = State(deliveries: Table, sends: seq<Attempt>, deadLetters: seq<Payload>)

  datatype Problem = UpsertError | MarkError | DeadLetterError

  /**
   Which effects of one call work. An effect that does not work, or before which the process dies, has not happened.
   */
  datatype Fate = Fate(upserts: bool, sendError: Option<string>, marks: bool, deadLetters: bool)

  function AfterProcess(s: State, config: Config, p: Payload, fate: Fate, now: Time): (State, Outcome<Problem>) {
    if !fate.upserts then (s, Err(UpsertError))
    else
      var table := Upserted(s.deliveries, p, now);
      var row := table[p.key];
      if row.status == Sent || row.status == Dead then (s, Ok)
      else
        var tried := State(table, s.sends + [Attempt(p.key, fate.sendError.None?)], s.deadLetters);
        if !fate.marks then (tried, Err(MarkError))
        else if fate.sendError.None? then (tried.(deliveries := MarkedSent(table, p.key, now)), Ok)
        else
          var cause, attempt := fate.sendError.value, row.attemptCount + 1;
          if attempt < config.maxAttempts then
            (tried.(deliveries := MarkedFailed(table, p.key, cause, now + RetryDelay(config, attempt), now)), Ok)
          else
            var dead := tried.(deliveries := MarkedDead(table, p.key, cause, now));
            if !config.hasDeadLetter then (dead, Ok)
            else if fate.deadLetters then (dead.(deadLetters := dead.deadLetters + [p]), Ok)
            else (dead, Err(DeadLetterError))
  }

  /**
   What becomes of one command, by what works. A sent or dead row is left alone; any other is sent once, and then
   marked sent, postponed below the maximum, or buried at it.
   */
  lemma ProcessSays(s: State, config: Config, p: Payload, fate: Fate, now: Time)
    ensures var ((after, outcome), known) := (AfterProcess(s, config, p, fate, now), p.key in s.deliveries);
            var attempts := if known then s.deliveries[p.key].attemptCount else 0;
            if !fate.upserts then after == s && outcome == Err(UpsertError)
            else if known && (s.deliveries[p.key].status == Sent || s.deliveries[p.key].status == Dead) then
              after == s && outcome == Ok
            else
              && after.sends == s.sends + [Attempt(p.key, fate.sendError.None?)]
              && p.key in after.deliveries
              && (forall k | k != p.key :: k in after.deliveries <==> k in s.deliveries)
              && (forall k | k != p.key && k in s.deliveries :: after.deliveries[k] == s.deliveries[k])
              && var row := after.deliveries[p.key];
                 && row.payload == (if known then s.deliveries[p.key].payload else p)
                 && if !fate.marks then
                      && outcome == Err(MarkError) && after.deadLetters == s.deadLetters
                      && row.attemptCount == attempts
                      && row.status == (if known then s.deliveries[p.key].status else Pending)
                    else if fate.sendError.None? then
                      && outcome == Ok && after.deadLetters == s.deadLetters
                      && row.status == Sent && row.attemptCount == attempts && row.sentAt == Some(now)
                    else if attempts + 1 < config.maxAttempts then
                      && outcome == Ok && after.deadLetters == s.deadLetters
                      && row.status == Failed && row.attemptCount == attempts + 1
                      && row.lastError == fate.sendError.value
                      && row.nextAttemptAt == Some(now + RetryDelay(config, attempts + 1))
                    else
                      && row.status == Dead && row.attemptCount == attempts + 1 && row.lastError == fate.sendError.value
                      && row.nextAttemptAt.None?
                      && outcome == (if config.hasDeadLetter && !fate.deadLetters then Err(DeadLetterError) else Ok)
                      && after.deadLetters
                         == s.deadLetters + (if config.hasDeadLetter && fate.deadLetters then [p] else [])
  {
  }

  class Service {
    var deliveries: Table
    var sends: seq<Attempt>
    var deadLetters: seq<Payload>
    var outbox: seq<Payload>     // retry commands inserted by the scheduler
    const config: Config

    ghost function Contents(): State
      reads this
    {
      State(deliveries, sends, deadLetters)
    }

    constructor (maxAttempts: int, retryDelays: seq<Time>, hasDeadLetter: bool)
      ensures Contents() == State(map[], [], []) && outbox == []
      ensures config.maxAttempts == (if maxAttempts <= 0 then 3 else maxAttempts)
      ensures config.retryDelays == retryDelays && config.hasDeadLetter == hasDeadLetter
      ensures config.maxAttempts > 0
    {
      config := Config(if maxAttempts <= 0 then DEFAULT_MAX_ATTEMPTS else maxAttempts, retryDelays, hasDeadLetter);
      deliveries, sends, deadLetters, outbox := map[], [], [], [];
    }

    method UpsertPending(p: Payload, now: Time) returns (row: Row)
      modifies this`deliveries
      ensures deliveries == Upserted(old(deliveries), p, now)
      ensures row == deliveries[p.key]
      ensures p.key in old(deliveries) ==> deliveries == old(deliveries)
      ensures p.key !in old(deliveries) ==>
                deliveries == old(deliveries)[p.key := Row(p, Pending, 0, "", None, now, None)]
    {
      if p.key !in deliveries {
        deliveries := deliveries[p.key := Row(p, Pending, 0, "", None, now, None)];
      }
      return deliveries[p.key];
    }

    method MarkSent(key: Key, now: Time)
      modifies this`deliveries
      ensures deliveries == MarkedSent(old(deliveries), key, now)
      ensures key in old(deliveries) ==>
                var was := old(deliveries)[key];
                deliveries == old(deliveries)[key := Row(was.payload, Sent, was.attemptCount, "", None, now, Some(now))]
    {
      if key in deliveries {
        var row := deliveries[key];
        deliveries := deliveries[key := row.(status := Sent, sentAt := Some(now), updatedAt := now, lastError := "",
            nextAttemptAt := None)];
      }
    }

    method MarkFailed(key: Key, cause: string, next: Time, now: Time)
      modifies this`deliveries
      ensures deliveries == MarkedFailed(old(deliveries), key, cause, next, now)
      ensures key in old(deliveries) ==>
                var was := old(deliveries)[key];
                deliveries == old(deliveries)[key :=
                  Row(was.payload, Failed, was.attemptCount + 1, cause, Some(next), now, was.sentAt)]
    {
      if key in deliveries {
        var row := deliveries[key];
        deliveries := deliveries[key := row.(status := Failed, attemptCount := row.attemptCount + 1, lastError := cause,
                                             nextAttemptAt := Some(next), updatedAt := now)];
      }
    }

    method MarkDead(key: Key, cause: string, now: Time)
      modifies this`deliveries
      ensures deliveries == MarkedDead(old(deliveries), key, cause, now)
      ensures key in old(deliveries) ==>
                var was := old(deliveries)[key];
                deliveries == old(deliveries)[key :=
                  Row(was.payload, Dead, was.attemptCount + 1, cause, None, now, was.sentAt)]
    {
      if key in deliveries {
        var row := deliveries[key];
        deliveries := deliveries[key := row.(status := Dead, attemptCount := row.attemptCount + 1, lastError := cause,
                                             nextAttemptAt := None, updatedAt := now)];
      }
    }

    method Process(p: Payload, fate: Fate, now: Time) returns (r: Outcome<Problem>)
      modifies this`deliveries, this`sends, this`deadLetters
      ensures (Contents(), r) == AfterProcess(old(Contents()), config, p, fate, now)
    {
      if !fate.upserts {
        return Err(UpsertError);
      }
      var row := UpsertPending(p, now);
      if row.status == Sent {
        return Ok;
      }
      if row.status == Dead {
        return Ok;
      }
      sends := sends + [Attempt(p.key, fate.sendError.None?)];
      if fate.sendError.Some? {
        r := HandleFailure(p, row.attemptCount, fate.sendError.value, fate, now);
        return;
      }
      if !fate.marks {
        return Err(MarkError);
      }
      MarkSent(p.key, now);
      return Ok;
    }

    method HandleFailure(p: Payload, currentAttempts: nat, cause: string, fate: Fate, now: Time)
        returns (r: Outcome<Problem>)
      modifies this`deliveries, this`deadLetters
      ensures !fate.marks ==> r == Err(MarkError) && deliveries == old(deliveries) && deadLetters == old(deadLetters)
      ensures fate.marks && currentAttempts + 1 < config.maxAttempts ==>
                && r == Ok && deadLetters == old(deadLetters)
                && deliveries
                   == MarkedFailed(old(deliveries), p.key, cause, now + RetryDelay(config, currentAttempts + 1), now)
      ensures fate.marks && currentAttempts + 1 >= config.maxAttempts ==>
                && r == (if !config.hasDeadLetter || fate.deadLetters then Ok else Err(DeadLetterError))
                && deadLetters
                   == (if config.hasDeadLetter && fate.deadLetters then old(deadLetters) + [p] else old(deadLetters))
                && deliveries == MarkedDead(old(deliveries), p.key, cause, now)
    {
      if !fate.marks {
        return Err(MarkError);
      }
      var nextAttempt := currentAttempts + 1;
      if nextAttempt >= config.maxAttempts {
        MarkDead(p.key, cause, now);
        if config.hasDeadLetter {
          if !fate.deadLetters {
            return Err(DeadLetterError);
          }
          deadLetters := deadLetters + [p];
        }
        return Ok;
      }
      MarkFailed(p.key, cause, now + RetryDelay(config, nextAttempt), now);
      return Ok;
    }

    /** The scheduler's transaction; returns how many retries it enqueued, or None when it does not commit. */
    method EnqueueDueRetries(limit: int, now: Time, commits: bool) returns (count: Option<nat>, ghost batch: seq<Key>)
      modifies this`deliveries, this`outbox
      ensures IsBatch(DueKeys(old(deliveries), now), if limit <= 0 then 100 else limit, batch)
      ensures forall k | k in batch :: k in old(deliveries)
      ensures count == if commits then Some(|batch|) else None
      ensures deliveries == if commits then Requeued(old(deliveries), batch, now) else old(deliveries)
      ensures forall k | k in old(deliveries) ::
                var was := old(deliveries)[k];
                && k in deliveries
                && (!(commits && k in batch) ==> deliveries[k] == was)
                && (commits && k in batch ==>
                      deliveries[k] == was.(status := Pending, nextAttemptAt := None, updatedAt := now))
      ensures outbox == if commits then old(outbox) + RetryCommands(old(deliveries), batch) else old(outbox)
    {
      var size := if limit <= 0 then DEFAULT_RETRY_BATCH else limit;
      var due := Select(DueKeys(deliveries, now), size);
      batch := due;
      if !commits {
        return None, batch;
      }
      RequeueAll(due, now);
      return Some(|due|), batch;
    }

    /** The scheduler's loop over the picked rows. */
    method RequeueAll(due: seq<Key>, now: Time)
      requires Distinct(due) && forall k | k in due :: k in deliveries
      modifies this`deliveries, this`outbox
      ensures deliveries == Requeued(old(deliveries), due, now)
      ensures outbox == old(outbox) + RetryCommands(old(deliveries), due)
    {
      ghost var was := deliveries;
      for i := 0 to |due|
        invariant deliveries.Keys == was.Keys
        invariant forall k | k in was ::
            deliveries[k] == if k in due[..i] then was[k].(status := Pending, nextAttemptAt := None, updatedAt := now)
                else was[k]
        invariant outbox == old(outbox) + RetryCommands(was, due[..i])
      {
        assert due[..i + 1] == due[..i] + [due[i]] && due[i] !in due[..i];
        var row := deliveries[due[i]];
        outbox := outbox + [row.payload.(key := due[i])];
        deliveries := deliveries[due[i] := row.(status := Pending, nextAttemptAt := None, updatedAt := now)];
      }
      assert due[..|due|] == due;
    }
  }
}
