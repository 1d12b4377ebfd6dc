/** The repo-watch saga orchestrator: its table, its three transactions and its retry schedule. */
module WatchSaga {

  import opened Wrappers
  import opened Clock
  import opened Contracts
  import opened Batches

  const DEFAULT_RETRY_LIMIT: nat := 50
  const DEFAULT_DEADLINE: Time := 24 * HOUR
  const RETRY_DELAYS: seq<Time> := [MINUTE, 5 * MINUTE, 15 * MINUTE, HOUR]
  const TIMEOUT_ERROR := "timeout waiting for scanner ack"
  const DEFAULT_ACK_ERROR := "watch command failed"

  datatype Status = CommandSent | Retrying | Completed | Failed

  /** A row of `saga_instances`, without the constant saga type and the unread `updated_at`. */
  datatype Instance = Instance(
    repo: Repo,
    action: Action,
    status: Status,
    attempts: nat,
    correlationId: string,
    nextRetryAt: Option<Time>,
    deadlineAt: Time,
    createdAt: Time,
    lastError: Option<string>)
  {
    predicate Active() {
      status == CommandSent || status == Retrying
    }

    /** The retry sweep's WHERE clause. */
    predicate Due(now: Time) {
      Active() && nextRetryAt.Some? && nextRetryAt.value <= now
    }
  }

  datatype Rejection =
    | UnsupportedEventType
    | UnsupportedAction
    | InvalidSagaId
    | MissingSagaId
    | MissingRepo
    | SagaNotFound
    | PayloadMismatch
    | UnexpectedAckType
    | Database

  /** The saga table and the commands inserted into the orchestrator's outbox, oldest first. */
  datatype Book = Book(sagas: map<SagaId, Instance>, commands: seq<WatchCommand>)

  function RetryDelay(attempt: int): (d: Time)
    ensures MINUTE <= d <= HOUR
  {
    if attempt <= 1 then RETRY_DELAYS[0]
    else if attempt >= |RETRY_DELAYS| then RETRY_DELAYS[|RETRY_DELAYS| - 1]
    else RETRY_DELAYS[attempt - 1]
  }

  function CommandEventType(action: Action): Option<EventType> {
    match action
    case StartWatch => Some(StartWatchingRepo)
    case StopWatch => Some(StopWatchingRepo)
    case OtherAction(_) => None
  }

  function AckEventType(action: Action): Option<EventType> {
    match action
    case StartWatch => Some(RepoWatchStarted)
    case StopWatch => Some(RepoWatchStopped)
    case OtherAction(_) => None
  }

  predicate Supported(action: Action) {
    CommandEventType(action).Some?
  }

  function Command(id: SagaId, row: Instance, now: Time): WatchCommand
    requires Supported(row.action)
  {
    WatchCommand(CommandEventType(row.action).value, now, row.correlationId, Uuid(id), row.action, row.repo)
  }

  // ---- HandleRequest ----

  /** The validation that runs before the transaction begins. */
  function RequestRejection(event: SagaRequest): Option<Rejection> {
    if event.eventType != RepoWatchSagaRequested then Some(UnsupportedEventType)
    else if !Supported(event.action) then Some(UnsupportedAction)
    else if event.sagaId.NotUuid? then Some(InvalidSagaId)
    else if event.repo == "" then Some(MissingRepo)
    else None
  }

  function NewInstance(event: SagaRequest, now: Time): Instance {
    Instance(event.repo, event.action, CommandSent, 1, event.correlationId,
             Some(now + RetryDelay(1)), now + DEFAULT_DEADLINE, now, None)
  }

  function AfterRequest(book: Book, event: SagaRequest, now: Time): Book
    requires RequestRejection(event).None?
  {
    var id := event.sagaId.id;
    if id in book.sagas then book
    else
      var row := NewInstance(event, now);
      Book(book.sagas[id := row], book.commands + [Command(id, row, now)])
  }

  // ---- HandleAck ----

  /** The checks of HandleAck, in their order; a malformed id fails inside the query. */
  function AckRejection(sagas: map<SagaId, Instance>, event: WatchAck): Option<Rejection> {
    if event.sagaId == NotUuid("") then Some(MissingSagaId)
    else if !Supported(event.action) then Some(UnsupportedAction)
    else if event.sagaId.NotUuid? then Some(Database)
    else if event.sagaId.id !in sagas then Some(SagaNotFound)
    else
      var row := sagas[event.sagaId.id];
      if row.repo != event.repo || row.action != event.action then Some(PayloadMismatch)
      else if event.eventType == RepoWatchStarted || event.eventType == RepoWatchStopped then
        if AckEventType(row.action) == Some(event.eventType) then None else Some(UnexpectedAckType)
      else if event.eventType == RepoWatchFailed then None
      else Some(UnsupportedEventType)
  }

  /** The effect on one row of an accepted ack. */
  function Acked(row: Instance, event: WatchAck, now: Time): Instance {
    if !row.Active() then row
    else if event.eventType != RepoWatchFailed then
      row.(status := Completed, lastError := None)
    else
      var expired := row.deadlineAt <= now;
      row.(status := if expired then Failed else Retrying,
           nextRetryAt := if expired then None else Some(now + RetryDelay(1)),
           lastError := Some(if event.error == "" then DEFAULT_ACK_ERROR else event.error))
  }

  function AfterAck(sagas: map<SagaId, Instance>, event: WatchAck, now: Time): map<SagaId, Instance>
    requires AckRejection(sagas, event).None?
  {
    var id := event.sagaId.id;
    sagas[id := Acked(sagas[id], event, now)]
  }

  // ---- RetryDue ----

  function EffectiveLimit(limit: int): (n: nat)
    ensures n > 0
    ensures limit > 0 ==> n == limit
    ensures limit <= 0 ==> n == 50
  {
    if limit <= 0 then DEFAULT_RETRY_LIMIT else limit
  }

  function Rank(row: Instance): SortKey
    requires row.nextRetryAt.Some?
  {
    SortKey(row.nextRetryAt.value, row.createdAt, 0)
  }

  function DueKeys(sagas: map<SagaId, Instance>, now: Time): map<SagaId, SortKey> {
    map id | id in sagas && sagas[id].Due(now) :: Rank(sagas[id])
  }

  /**
   The sweep's selection, on the columns: an active row whose retry time is not in the future is picked, or the batch
   is full of such rows that do not come later by retry time and then creation.
   */
  lemma SweepTakesDue(sagas: map<SagaId, Instance>, now: Time, limit: int, due: seq<SagaId>, id: SagaId)
    requires IsBatch(DueKeys(sagas, now), EffectiveLimit(limit), due) && id in sagas
    ensures var waits := (sagas[id].status == CommandSent || sagas[id].status == Retrying)
                         && sagas[id].nextRetryAt.Some? && sagas[id].nextRetryAt.value <= now;
            && (id in due ==> waits)
            && (waits && id !in due ==>
                  && |due| == (if limit <= 0 then 50 else limit)
                  && forall k | k in due ::
                       && k in sagas && sagas[k].nextRetryAt.Some?
                       && (|| sagas[k].nextRetryAt.value < sagas[id].nextRetryAt.value
                           || (sagas[k].nextRetryAt == sagas[id].nextRetryAt
                               && sagas[k].createdAt <= sagas[id].createdAt)))
  {
    var keys := DueKeys(sagas, now);
    if id in keys && id !in due {
      TakenOrFull(keys, EffectiveLimit(limit), due, id);
    }
  }

  /** The effect on one row of being picked by the sweep. */
  function Swept(row: Instance, now: Time): Instance {
    if row.deadlineAt <= now then
      row.(status := Failed, nextRetryAt := None, lastError := Some(TIMEOUT_ERROR))
    else
      row.(status := Retrying,
           attempts := row.attempts + 1,
           nextRetryAt := Some(now + RetryDelay(row.attempts + 1)))
  }

  /** The commands the sweep sends again: one for each picked row before its deadline, in order. */
  function Resent(sagas: map<SagaId, Instance>, due: seq<SagaId>, now: Time): seq<WatchCommand>
    requires forall id | id in due :: id in sagas && Supported(sagas[id].action)
  {
    if due == [] then []
    else
      var before, last := due[..|due| - 1], due[|due| - 1];
      Resent(sagas, before, now)
      + (if sagas[last].deadlineAt <= now then [] else [Command(last, sagas[last], now)])
  }

  function AfterSweep(book: Book, due: seq<SagaId>, now: Time): Book
    requires forall id | id in due :: id in book.sagas && Supported(book.sagas[id].action)
  {
    Book(map id | id in book.sagas :: if id in due then Swept(book.sagas[id], now) else book.sagas[id],
         book.commands + Resent(book.sagas, due, now))
  }

  /** Every stored action passed validation when its row was inserted. */
  predicate SupportedRows(sagas: map<SagaId, Instance>) {
    forall id | id in sagas :: Supported(sagas[id].action)
  }

  lemma NextPicked(sagas: map<SagaId, Instance>, due: seq<SagaId>, i: nat, now: Time)
    requires SupportedRows(sagas) && Distinct(due) && forall id | id in due :: id in sagas
    requires i < |due|
    ensures due[i] in sagas && due[i] !in due[..i]
    ensures due[..i + 1] == due[..i] + [due[i]]
    ensures Resent(sagas, due[..i + 1], now)
            == Resent(sagas, due[..i], now)
               + (if sagas[due[i]].deadlineAt <= now then [] else [Command(due[i], sagas[due[i]], now)])
  {
    assert due[..i + 1][..i] == due[..i];
  }

  /**
   The orchestrator. `commits` says whether PostgreSQL commits the transaction of a call;
   when it does not, the call returns the database error and nothing has changed.
   */
  class Orchestrator {
    var sagas: map<SagaId, Instance>
    var commands: seq<WatchCommand>

    ghost predicate Valid()
      reads this
    {
      SupportedRows(sagas)
    }

    ghost function Contents(): Book
      reads this
    {
      Book(sagas, commands)
    }

    constructor ()
      ensures Valid() && Contents() == Book(map[], [])
    {
      sagas, commands := map[], [];
    }

    method HandleRequest(event: SagaRequest, now: Time, commits: bool) returns (r: Outcome<Rejection>)
      requires Valid()
      modifies this
      ensures Valid()
      ensures r == match RequestRejection(event)
                   case Some(why) => Err(why)
                   case None => if commits then Ok else Err(Database)
      ensures r.Ok? ==> Contents() == AfterRequest(old(Contents()), event, now)
      ensures r == Err(UnsupportedEventType) <==> event.eventType != RepoWatchSagaRequested
      ensures r == Err(UnsupportedAction) <==> event.eventType == RepoWatchSagaRequested && event.action.OtherAction?
      ensures r == Err(InvalidSagaId) <==>
                event.eventType == RepoWatchSagaRequested && !event.action.OtherAction? && event.sagaId.NotUuid?
      ensures r == Err(MissingRepo) <==>
                && event.eventType == RepoWatchSagaRequested && !event.action.OtherAction? && event.sagaId.Uuid?
                && event.repo == ""
      ensures r.Ok? && event.sagaId.id in old(sagas) ==> sagas == old(sagas) && commands == old(commands)
      ensures r.Ok? && event.sagaId.id !in old(sagas) ==>
                && sagas == old(sagas)[event.sagaId.id := Instance(
                     event.repo, event.action, CommandSent, 1, event.correlationId,
                     Some(now + 60_000_000), now + 86_400_000_000, now, None)]
                && commands == old(commands) + [WatchCommand(
                     if event.action == StartWatch then StartWatchingRepo else StopWatchingRepo,
                     now, event.correlationId, event.sagaId, event.action, event.repo)]
      ensures r.Err? ==> Contents() == old(Contents())
    {
      if event.eventType != RepoWatchSagaRequested {
        return Err(UnsupportedEventType);
      }
      if !Supported(event.action) {
        return Err(UnsupportedAction);
      }
      if event.sagaId.NotUuid? {
        return Err(InvalidSagaId);
      }
      if event.repo == "" {
        return Err(MissingRepo);
      }
      if !commits {
        return Err(Database);
      }
      var id := event.sagaId.id;
      if id in sagas {
        return Ok;
      }
      var row := Instance(event.repo, event.action, CommandSent, 1, event.correlationId,
                          Some(now + RetryDelay(1)), now + DEFAULT_DEADLINE, now, None);
      sagas := sagas[id := row];
      PrepareWatchCommand(id, row, now);
      return Ok;
    }

    method PrepareWatchCommand(id: SagaId, row: Instance, now: Time)
      requires Supported(row.action)
      modifies this`commands
      ensures commands == old(commands) + [Command(id, row, now)]
    {
      commands := commands + [Command(id, row, now)];
    }

    method HandleAck(event: WatchAck, now: Time, commits: bool) returns (r: Outcome<Rejection>)
      requires Valid()
      modifies this`sagas
      ensures Valid()
      ensures r == match AckRejection(old(sagas), event)
                   case Some(why) => Err(why)
                   case None => if commits then Ok else Err(Database)
      ensures r.Ok? ==> sagas == AfterAck(old(sagas), event, now)
      ensures r.Err? ==> sagas == old(sagas)
      ensures r == Err(MissingSagaId) <==> event.sagaId == NotUuid("")
      ensures r == Err(UnsupportedAction) <==> event.sagaId != NotUuid("") && event.action.OtherAction?
      ensures r == Err(SagaNotFound) <==>
                !event.action.OtherAction? && event.sagaId.Uuid? && event.sagaId.id !in old(sagas)
      ensures r == Err(PayloadMismatch) <==>
                && !event.action.OtherAction? && event.sagaId.Uuid? && event.sagaId.id in old(sagas)
                && var row := old(sagas)[event.sagaId.id]; row.repo != event.repo || row.action != event.action
      ensures r.Ok? ==>
                || event.eventType == RepoWatchFailed
                || event.eventType == (if event.action == StartWatch then RepoWatchStarted else RepoWatchStopped)
    {
      if event.sagaId == NotUuid("") {
        return Err(MissingSagaId);
      }
      if !Supported(event.action) {
        return Err(UnsupportedAction);
      }
      if event.sagaId.NotUuid? {
        return Err(Database);
      }
      if event.sagaId.id !in sagas {
        return Err(SagaNotFound);
      }
      var row := sagas[event.sagaId.id];
      if row.repo != event.repo || row.action != event.action {
        return Err(PayloadMismatch);
      }
      match event.eventType {
        case RepoWatchStarted | RepoWatchStopped =>
          r := HandleSuccessAck(event, row, commits);
        case RepoWatchFailed =>
          r := HandleFailedAck(event, row, now, commits);
        case _ =>
          return Err(UnsupportedEventType);
      }
    }

    method HandleSuccessAck(event: WatchAck, row: Instance, commits: bool) returns (r: Outcome<Rejection>)
      requires Valid()
      requires event.sagaId.Uuid? && event.sagaId.id in sagas && sagas[event.sagaId.id] == row
      modifies this`sagas
      ensures Valid()
      ensures r == if AckEventType(row.action) != Some(event.eventType) then Err(UnexpectedAckType)
                   else if commits then Ok else Err(Database)
      ensures r.Ok? && row.Active() ==>
                sagas == old(sagas)[event.sagaId.id := row.(status := Completed, lastError := None)]
      ensures r.Err? || !row.Active() ==> sagas == old(sagas)
    {
      if AckEventType(row.action) != Some(event.eventType) {
        return Err(UnexpectedAckType);
      }
      if !commits {
        return Err(Database);
      }
      if row.status != Completed && row.status != Failed {
        sagas := sagas[event.sagaId.id := row.(status := Completed, lastError := None)];
      }
      return Ok;
    }

    method HandleFailedAck(event: WatchAck, row: Instance, now: Time, commits: bool) returns (r: Outcome<Rejection>)
      requires Valid()
      requires event.eventType == RepoWatchFailed
      requires event.sagaId.Uuid? && event.sagaId.id in sagas && sagas[event.sagaId.id] == row
      modifies this`sagas
      ensures Valid()
      ensures r == if commits then Ok else Err(Database)
      ensures r.Ok? ==> sagas == old(sagas)[event.sagaId.id := Acked(row, event, now)]
      ensures r.Ok? && (row.status == Completed || row.status == Failed) ==> sagas == old(sagas)
      ensures r.Ok? && (row.status == CommandSent || row.status == Retrying) ==>
                var error := Some(if event.error == "" then "watch command failed" else event.error);
                sagas == old(sagas)[event.sagaId.id :=
                  if row.deadlineAt <= now then row.(status := Failed, nextRetryAt := None, lastError := error)
                  else row.(status := Retrying, nextRetryAt := Some(now + 60_000_000), lastError := error)]
      ensures r.Err? ==> sagas == old(sagas)
    {
      if !commits {
        return Err(Database);
      }
      var nextRetryAt := now + RetryDelay(1);
      var error := event.error;
      if error == "" {
        error := DEFAULT_ACK_ERROR;
      }
      if row.status != Completed && row.status != Failed {
        if row.deadlineAt <= now {
          sagas := sagas[event.sagaId.id := row.(status := Failed, nextRetryAt := None, lastError := Some(error))];
        } else {
          sagas := sagas[event.sagaId.id := row.(status := Retrying, nextRetryAt := Some(nextRetryAt),
              lastError := Some(error))];
        }
      }
      return Ok;
    }

    /** The body of the sweep's loop: expire the picked row, or send its command again. */
    method RetryOne(id: SagaId, now: Time)
      requires Valid() && id in sagas
      modifies this
      ensures Valid()
      ensures sagas == old(sagas)[id := Swept(old(sagas)[id], now)]
      ensures var row, was := sagas[id], old(sagas)[id];
              if was.deadlineAt <= now then
                row == was.(status := Failed, nextRetryAt := None, lastError := Some("timeout waiting for scanner ack"))
              else
                row == was.(status := Retrying, attempts := was.attempts + 1,
                            nextRetryAt := Some(now + match was.attempts
                                                      case 0 => 60_000_000
                                                      case 1 => 300_000_000
                                                      case 2 => 900_000_000
                                                      case _ => 3_600_000_000))
      ensures commands == old(commands)
                          + (if old(sagas)[id].deadlineAt <= now then [] else [Command(id, old(sagas)[id], now)])
    {
      var row := sagas[id];
      if !(now < row.deadlineAt) {
        sagas := sagas[id := row.(status := Failed, nextRetryAt := None, lastError := Some(TIMEOUT_ERROR))];
      } else {
        var attempts := row.attempts + 1;
        var nextRetryAt := now + RetryDelay(attempts);
        PrepareWatchCommand(id, row, now);
        sagas := sagas[id := row.(status := Retrying, attempts := attempts, nextRetryAt := Some(nextRetryAt))];
      }
    }

    /** The sweep's loop over the picked rows. */
    method RetryAll(due: seq<SagaId>, now: Time)
      requires Valid() && Distinct(due) && forall id | id in due :: id in sagas
      modifies this
      ensures Valid() && Contents() == AfterSweep(old(Contents()), due, now)
    {
      ghost var was := sagas;
      for i := 0 to |due|
        invariant Valid() && sagas.Keys == was.Keys
        invariant forall id | id in was :: sagas[id] == if id in due[..i] then Swept(was[id], now) else was[id]
        invariant commands == old(commands) + Resent(was, due[..i], now)
      {
        NextPicked(was, due, i, now);
        RetryOne(due[i], now);
      }
      assert due[..|due|] == due;
    }

    method RetryDue(limit: int, now: Time, commits: bool) returns (r: Outcome<Rejection>, ghost due: seq<SagaId>)
      requires Valid()
      modifies this
      ensures Valid()
      ensures IsBatch(DueKeys(old(sagas), now), EffectiveLimit(limit), due)
      ensures r == if commits then Ok else Err(Database)
      ensures r.Ok? ==> Contents() == AfterSweep(old(Contents()), due, now)
      ensures r.Err? ==> Contents() == old(Contents())
    {
      var picked := Select(DueKeys(sagas, now), EffectiveLimit(limit));
      due := picked;
      if !commits {
        return Err(Database), due;
      }
      RetryAll(picked, now);
      return Ok, due;
    }
  }
}
