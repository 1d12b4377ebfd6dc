/** Conservation of commands, the retry schedule and the bounds it puts on every saga. */
module SagaBudget {

  import opened Wrappers
  import opened Clock
  import opened Contracts
  import opened Batches
  import opened WatchSaga
  import opened SagaProtocol

  /**
   When the k-th command of a saga may leave at the earliest, counted from its creation: 0, 1, 6, 21, 81, 141 ...
   minutes.
   */
  function Slot(k: int): Time {
    if k <= 1 then 0
    else if k == 2 then MINUTE
    else if k == 3 then 6 * MINUTE
    else 21 * MINUTE + (k - 4) * HOUR
  }

  /** The delays of the code are exactly the gaps of the schedule. */
  lemma RetryDelayFollowsSchedule(k: int)
    requires k >= 1
    ensures Slot(k + 1) == Slot(k) + RetryDelay(k)
  {
  }

  /** What time allows one row to be. `setBack` says that a RepoWatchFailed ack was accepted for it. */
  ghost predicate OnTime(row: Instance, setBack: bool, now: Time) {
    && row.attempts >= 1
    && row.createdAt <= now
    && row.deadlineAt == row.createdAt + DEFAULT_DEADLINE
    && row.createdAt + (row.attempts - 1) * MINUTE <= now
    && row.createdAt + (row.attempts - 1) * MINUTE < row.deadlineAt
    && (row.Active() ==>
          && row.nextRetryAt.Some?
          && row.createdAt + row.attempts * MINUTE <= row.nextRetryAt.value < row.deadlineAt + HOUR)
    && (row.status == Failed ==> row.nextRetryAt.None?)
    && (!setBack ==>
          && row.createdAt + Slot(row.attempts) < row.deadlineAt
          && (row.Active() ==> row.createdAt + Slot(row.attempts + 1) <= row.nextRetryAt.value))
  }

  ghost predicate AllOnTime(w: World) {
    forall id | id in w.book.sagas :: OnTime(w.book.sagas[id], id in w.setBack, w.now)
  }

  /** The outbox holds exactly as many commands of a saga as its row counts attempts. */
  ghost predicate Conserved(w: World) {
    forall id :: CommandsOf(w.book.commands, id) == if id in w.book.sagas then w.book.sagas[id].attempts else 0
  }

  lemma NewInstanceOnTime(event: SagaRequest, now: Time)
    ensures OnTime(NewInstance(event, now), false, now)
  {
  }

  lemma SweptOnTime(row: Instance, setBack: bool, now: Time)
    requires OnTime(row, setBack, now) && row.Due(now)
    ensures OnTime(Swept(row, now), setBack, now)
  {
    RetryDelayFollowsSchedule(row.attempts + 1);
  }

  lemma AckedOnTime(row: Instance, event: WatchAck, setBack: bool, now: Time)
    requires OnTime(row, setBack, now)
    ensures OnTime(Acked(row, event, now), setBack || event.eventType == RepoWatchFailed, now)
  {
  }

  /** A step leaves a row as it is, or inserts it new, or sweeps it, or applies an ack to it. */
  lemma RowChanges(w: World, s: Step, id: SagaId)
    requires Enabled(w, s) && id in Next(w, s).book.sagas
    ensures var row := Next(w, s).book.sagas[id];
            if id !in w.book.sagas then
              s.DeliverRequest? && row == NewInstance(w.requests[s.id], w.now)
            else
              || row == w.book.sagas[id]
              || (s.Sweep? && w.book.sagas[id].Due(w.now) && row == Swept(w.book.sagas[id], w.now))
              || (s.DeliverAck? && row == Acked(w.book.sagas[id], w.scanner.acks[s.index], w.now))
  {
    if s.Sweep? && id in s.due {
      assert id in DueKeys(w.book.sagas, w.now);
    }
  }

  lemma LaterOnTime(row: Instance, setBack: bool, now: Time, setBack': bool, now': Time)
    requires OnTime(row, setBack, now) && (setBack ==> setBack') && now <= now'
    ensures OnTime(row, setBack', now')
  {
  }

  lemma RowOnTime(w: World, s: Step, id: SagaId)
    requires AllOnTime(w) && Enabled(w, s) && id in Next(w, s).book.sagas
    ensures OnTime(Next(w, s).book.sagas[id], id in Next(w, s).setBack, Next(w, s).now)
  {
    var w' := Next(w, s);
    RowChanges(w, s, id);
    if id !in w.book.sagas {
      NewInstanceOnTime(w.requests[s.id], w.now);
      LaterOnTime(w'.book.sagas[id], false, w.now, id in w'.setBack, w'.now);
    } else if w'.book.sagas[id] == w.book.sagas[id] {
      LaterOnTime(w.book.sagas[id], id in w.setBack, w.now, id in w'.setBack, w'.now);
    } else if s.Sweep? {
      SweptOnTime(w.book.sagas[id], id in w.setBack, w.now);
    } else {
      AckedOnTime(w.book.sagas[id], w.scanner.acks[s.index], id in w.setBack, w.now);
    }
  }

  lemma TimingHolds(w: World, s: Step)
    requires AllOnTime(w) && Enabled(w, s)
    ensures AllOnTime(Next(w, s))
  {
    forall id | id in Next(w, s).book.sagas
      ensures OnTime(Next(w, s).book.sagas[id], id in Next(w, s).setBack, Next(w, s).now)
    {
      RowOnTime(w, s, id);
    }
  }

  /** What the budget proofs use of a batch: distinct due rows. */
  ghost predicate Picked(sagas: map<SagaId, Instance>, due: seq<SagaId>, now: Time) {
    SupportedRows(sagas) && Distinct(due) && forall k | k in due :: k in sagas && sagas[k].Due(now)
  }

  lemma SweepPicks(w: World, s: Step)
    requires Agreement(w) && Enabled(w, s) && s.Sweep?
    ensures Picked(w.book.sagas, s.due, w.now)
    ensures Next(w, s) == w.(book := AfterSweep(w.book, s.due, w.now))
  {
    AgreementSupports(w);
    assert forall k | k in s.due :: k in DueKeys(w.book.sagas, w.now);
  }

  lemma SweepConserves(book: Book, due: seq<SagaId>, now: Time, id: SagaId)
    requires Picked(book.sagas, due, now)
    requires CommandsOf(book.commands, id) == if id in book.sagas then book.sagas[id].attempts else 0
    ensures CommandsOf(AfterSweep(book, due, now).commands, id)
            == if id in book.sagas then AfterSweep(book, due, now).sagas[id].attempts else 0
  {
    ResentOnce(book.sagas, due, now, id);
    CommandsOfConcat(book.commands, Resent(book.sagas, due, now), id);
  }

  lemma ConservationHolds(w: World, s: Step)
    requires Agreement(w) && Conserved(w) && Enabled(w, s)
    ensures Conserved(Next(w, s))
  {
    var w' := Next(w, s);
    forall id
      ensures CommandsOf(w'.book.commands, id) == if id in w'.book.sagas then w'.book.sagas[id].attempts else 0
    {
      if s.Sweep? {
        SweepPicks(w, s);
        SweepConserves(w.book, s.due, w.now, id);
      } else if s.DeliverRequest? && s.id !in w.book.sagas {
        CommandsOfConcat(w.book.commands, [Command(s.id, w'.book.sagas[s.id], w.now)], id);
      }
    }
  }

  /** Commands of one saga leave at least a minute apart, all within the day of its deadline. */
  ghost predicate Spaced(w: World) {
    && (forall j | 0 <= j < |w.book.commands| :: WellSpaced(w, j))
  }

  ghost predicate SentInTime(w: World, c: WatchCommand) {
    && c.sagaId.Uuid? && c.sagaId.id in w.book.sagas
    && var row := w.book.sagas[c.sagaId.id];
       && row.createdAt <= c.occurredAt <= w.now
       && c.occurredAt < row.createdAt + DEFAULT_DEADLINE
       && (row.Active() ==> row.nextRetryAt.Some? && c.occurredAt + MINUTE <= row.nextRetryAt.value)
  }

  lemma {:induction false} ResentSpacing(sagas: map<SagaId, Instance>, due: seq<SagaId>, now: Time)
    requires SupportedRows(sagas) && Distinct(due) && forall k | k in due :: k in sagas
    ensures forall i, j | 0 <= i < j < |Resent(sagas, due, now)| ::
              Resent(sagas, due, now)[i].sagaId != Resent(sagas, due, now)[j].sagaId
  {
    if due != [] {
      var before, last := due[..|due| - 1], due[|due| - 1];
      ResentSpacing(sagas, before, now);
      ResentCommands(sagas, before, now);
    }
  }

  lemma OldCommandsStayInTime(w: World, s: Step, c: WatchCommand)
    requires AllOnTime(w) && Enabled(w, s) && SentInTime(w, c)
    ensures SentInTime(Next(w, s), c)
  {
    StepKeepsIdentity(w, s);
    TimingHolds(w, s);
    if s.Sweep? && c.sagaId.id in s.due {
      assert c.sagaId.id in DueKeys(w.book.sagas, w.now);
    }
  }

  /** The command at position j is in time and far enough from every earlier one of its saga. */
  ghost predicate WellSpaced(w: World, j: int)
    requires 0 <= j < |w.book.commands|
  {
    && SentInTime(w, w.book.commands[j])
    && forall i | 0 <= i < j && w.book.commands[i].sagaId == w.book.commands[j].sagaId ::
         w.book.commands[i].occurredAt + MINUTE <= w.book.commands[j].occurredAt
  }

  lemma ResentAreSpaced(w: World, due: seq<SagaId>, j: int)
    requires AllOnTime(w) && Spaced(w) && Picked(w.book.sagas, due, w.now)
    requires |w.book.commands| <= j < |AfterSweep(w.book, due, w.now).commands|
    ensures WellSpaced(w.(book := AfterSweep(w.book, due, w.now)), j)
  {
    var resent := Resent(w.book.sagas, due, w.now);
    var all := w.book.commands + resent;
    ResentCommands(w.book.sagas, due, w.now);
    ResentSpacing(w.book.sagas, due, w.now);
    var c := resent[j - |w.book.commands|];
    assert c in resent && all[j] == c;
    assert OnTime(w.book.sagas[c.sagaId.id], c.sagaId.id in w.setBack, w.now);
    assert forall i | |w.book.commands| <= i < j :: all[i] == resent[i - |w.book.commands|];
    forall i | 0 <= i < j && all[i].sagaId == c.sagaId ensures all[i].occurredAt + MINUTE <= c.occurredAt {
      assert i < |w.book.commands|;
      assert WellSpaced(w, i);
    }
  }

  lemma NewCommandsAreSpaced(w: World, s: Step, j: int)
    requires Agreement(w) && AllOnTime(w) && Spaced(w) && Enabled(w, s)
    requires |w.book.commands| <= j < |Next(w, s).book.commands|
    ensures WellSpaced(Next(w, s), j)
  {
    if s.Sweep? {
      SweepPicks(w, s);
      ResentAreSpaced(w, s.due, j);
    } else {
      forall i | 0 <= i < j ensures Next(w, s).book.commands[i].sagaId != Next(w, s).book.commands[j].sagaId {
        assert WellSpaced(w, i);
      }
    }
  }

  lemma SpacingHolds(w: World, s: Step)
    requires Agreement(w) && AllOnTime(w) && Spaced(w) && Enabled(w, s)
    ensures Spaced(Next(w, s))
  {
    var w' := Next(w, s);
    LogsOnlyGrow(w, s);
    forall j | 0 <= j < |w'.book.commands|
      ensures WellSpaced(w', j)
    {
      if j < |w.book.commands| {
        assert WellSpaced(w, j);
        OldCommandsStayInTime(w, s, w.book.commands[j]);
      } else {
        NewCommandsAreSpaced(w, s, j);
      }
    }
  }

  // ---- Over whole runs ----

  ghost predicate Inv(w: World) {
    Agreement(w) && AllOnTime(w) && Conserved(w) && Spaced(w)
  }

  lemma InvStep(w: World, s: Step)
    requires Inv(w) && Enabled(w, s)
    ensures Inv(Next(w, s))
  {
    AgreementHolds(w, s);
    TimingHolds(w, s);
    ConservationHolds(w, s);
    SpacingHolds(w, s);
  }

  lemma {:induction false} InvHolds(w: World, steps: seq<Step>)
    requires Inv(w) && Possible(w, steps)
    ensures Inv(Run(w, steps))
    decreases |steps|
  {
    if steps != [] {
      InvStep(w, steps[0]);
      InvHolds(Next(w, steps[0]), steps[1..]);
    }
  }

  ghost predicate Reachable(w: World) {
    exists start: Time, steps :: Possible(Init(start), steps) && w == Run(Init(start), steps)
  }

  lemma ReachableInv(w: World)
    requires Reachable(w)
    ensures Inv(w)
  {
    var start: Time, steps :| Possible(Init(start), steps) && w == Run(Init(start), steps);
    InvHolds(Init(start), steps);
  }

  /** Cross-service agreement in every reachable state. */
  lemma ServicesAgree(w: World)
    requires Reachable(w)
    ensures forall c | c in w.book.commands ::
              && Scanner.AcceptsCommand(c)
              && Matches(w.book.sagas, c.sagaId, c.action, c.repo, c.correlationId)
              && CommandEventType(w.book.sagas[c.sagaId.id].action) == Some(c.eventType)
    ensures forall a | a in w.scanner.acks ::
              && AckRejection(w.book.sagas, a).None?
              && Matches(w.book.sagas, a.sagaId, a.action, a.repo, a.correlationId)
    ensures forall id | id in w.book.sagas && w.book.sagas[id].status == Completed :: WasApplied(w, id)
  {
    ReachableInv(w);
    NothingIsRejected(w);
  }

  /** Saga conservation in every reachable state. */
  lemma SagasAreConserved(w: World, id: SagaId)
    requires Reachable(w)
    ensures CommandsOf(w.book.commands, id) == if id in w.book.sagas then w.book.sagas[id].attempts else 0
    ensures id in w.book.sagas ==>
              && w.book.sagas[id].deadlineAt == w.book.sagas[id].createdAt + 24 * HOUR
              && (w.book.sagas[id].Active() ==> w.book.sagas[id].nextRetryAt.Some?)
              && (w.book.sagas[id].status == Failed ==> w.book.sagas[id].nextRetryAt.None?)
  {
    ReachableInv(w);
  }

  lemma BudgetOfARow(row: Instance, setBack: bool, now: Time)
    requires OnTime(row, setBack, now)
    ensures row.attempts <= 1440
    ensures !setBack ==> row.attempts <= 27
  {
  }

  /** The retry budget: a day of minutes for any saga, 27 commands for one that no RepoWatchFailed ack set back. */
  lemma RetryBudget(w: World, id: SagaId)
    requires Reachable(w)
    ensures CommandsOf(w.book.commands, id) <= 1440
    ensures id !in w.setBack ==> CommandsOf(w.book.commands, id) <= 27
  {
    ReachableInv(w);
    assert CommandsOf(w.book.commands, id) == if id in w.book.sagas then w.book.sagas[id].attempts else 0;
    if id in w.book.sagas {
      BudgetOfARow(w.book.sagas[id], id in w.setBack, w.now);
    }
  }

  lemma CommandsAreSpaced(w: World, i: int, j: int)
    requires Reachable(w)
    requires 0 <= i < j < |w.book.commands| && w.book.commands[i].sagaId == w.book.commands[j].sagaId
    ensures w.book.commands[i].occurredAt + MINUTE <= w.book.commands[j].occurredAt
    ensures w.book.commands[j].occurredAt < w.book.commands[i].occurredAt + 24 * HOUR
  {
    ReachableInv(w);
    assert WellSpaced(w, i) && WellSpaced(w, j);
  }
}
