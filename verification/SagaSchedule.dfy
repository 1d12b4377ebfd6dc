/** The retry schedule that every run of the saga keeps to the microsecond, and runs that attain its bounds. */
module SagaSchedule {

  import opened Wrappers
  import opened Clock
  import opened Contracts
  import opened Batches
  import opened WatchSaga
  import opened SagaProtocol
  import opened SagaBudget
  import Scanner

  /** When the last command of a saga was sent. */
  function LastSentAt(commands: seq<WatchCommand>, id: SagaId): Option<Time> {
    if commands == [] then None
    else
      var last := commands[|commands| - 1];
      if last.sagaId == Uuid(id) then Some(last.occurredAt) else LastSentAt(commands[..|commands| - 1], id)
  }

  /** How long a saga waits for its ack after its n-th command: 1, 5, 15 and then 60 minutes. */
  function Wait(n: nat): Time {
    if n <= 1 then 60_000_000 else if n == 2 then 300_000_000 else if n == 3 then 900_000_000 else 3_600_000_000
  }

  /** The step is the acceptance of a RepoWatchFailed ack of the saga. */
  predicate AcceptsFailure(w: World, s: Step, id: SagaId) {
    && s.DeliverAck? && s.index < |w.scanner.acks|
    && w.scanner.acks[s.index].eventType == RepoWatchFailed
    && w.scanner.acks[s.index].sagaId == Uuid(id)
    && AckRejection(w.book.sagas, w.scanner.acks[s.index]).None?
  }

  /** When the last change of a saga's retry time was a RepoWatchFailed ack, its instant; a resend ends that. */
  function FailedAfter(w: World, s: Step, id: SagaId, was: Option<Time>): Option<Time> {
    if AcceptsFailure(w, s, id) then Some(w.now)
    else if s.Sweep? && id in s.due then None
    else was
  }

  ghost function LastFailure(w: World, steps: seq<Step>, id: SagaId, was: Option<Time>): Option<Time>
    requires Possible(w, steps)
    decreases |steps|
  {
    if steps == [] then was else LastFailure(Next(w, steps[0]), steps[1..], id, FailedAfter(w, steps[0], id, was))
  }

  lemma {:induction false} LastSentOfConcat(a: seq<WatchCommand>, b: seq<WatchCommand>, id: SagaId)
    ensures LastSentAt(a + b, id) == if LastSentAt(b, id).Some? then LastSentAt(b, id) else LastSentAt(a, id)
  {
    if b == [] {
      assert a + b == a;
    } else {
      LastSentOfConcat(a, b[..|b| - 1], id);
      assert (a + b)[..|a + b| - 1] == a + b[..|b| - 1];
    }
  }

  lemma {:induction false} ResentLast(sagas: map<SagaId, Instance>, due: seq<SagaId>, now: Time, id: SagaId)
    requires SupportedRows(sagas) && Distinct(due) && forall k | k in due :: k in sagas
    ensures LastSentAt(Resent(sagas, due, now), id)
            == if id in due && now < sagas[id].deadlineAt then Some(now) else None
  {
    if due != [] {
      var before, last := due[..|due| - 1], due[|due| - 1];
      ResentLast(sagas, before, now, id);
      assert due == before + [last];
      var news := if sagas[last].deadlineAt <= now then [] else [Command(last, sagas[last], now)];
      LastSentOfConcat(Resent(sagas, before, now), news, id);
    }
  }

  /**
   An active row is retried one minute after the failure it last heard of, or after its last command by the schedule.
   */
  predicate Scheduled(row: Instance, sentAt: Option<Time>, failedAt: Option<Time>) {
    row.Active() ==>
      if failedAt.Some? then row.nextRetryAt == Some(failedAt.value + 60_000_000)
      else sentAt.Some? && row.nextRetryAt == Some(sentAt.value + Wait(row.attempts))
  }

  ghost predicate OnSchedule(w: World, id: SagaId, failedAt: Option<Time>) {
    if id in w.book.sagas then Scheduled(w.book.sagas[id], LastSentAt(w.book.commands, id), failedAt)
    else failedAt.None?
  }

  lemma SweepSchedules(book: Book, due: seq<SagaId>, now: Time, id: SagaId, failedAt: Option<Time>)
    requires Picked(book.sagas, due, now) && id in book.sagas
    requires Scheduled(book.sagas[id], LastSentAt(book.commands, id), failedAt)
    ensures Scheduled(AfterSweep(book, due, now).sagas[id], LastSentAt(AfterSweep(book, due, now).commands, id),
                      if id in due then None else failedAt)
  {
    ResentLast(book.sagas, due, now, id);
    LastSentOfConcat(book.commands, Resent(book.sagas, due, now), id);
  }

  lemma SweepKeepsSchedule(w: World, s: Step, id: SagaId, failedAt: Option<Time>)
    requires Agreement(w) && Enabled(w, s) && s.Sweep? && OnSchedule(w, id, failedAt)
    ensures OnSchedule(Next(w, s), id, FailedAfter(w, s, id, failedAt))
  {
    SweepPicks(w, s);
    if id in w.book.sagas {
      SweepSchedules(w.book, s.due, w.now, id, failedAt);
    }
  }

  lemma RequestKeepsSchedule(w: World, s: Step, id: SagaId, failedAt: Option<Time>)
    requires Agreement(w) && Enabled(w, s) && s.DeliverRequest? && OnSchedule(w, id, failedAt)
    ensures OnSchedule(Next(w, s), id, FailedAfter(w, s, id, failedAt))
  {
    if s.id !in w.book.sagas {
      LastSentOfConcat(w.book.commands, [Command(s.id, Next(w, s).book.sagas[s.id], w.now)], id);
    }
  }

  lemma AckKeepsSchedule(w: World, s: Step, id: SagaId, failedAt: Option<Time>)
    requires Agreement(w) && Enabled(w, s) && s.DeliverAck? && OnSchedule(w, id, failedAt)
    ensures OnSchedule(Next(w, s), id, FailedAfter(w, s, id, failedAt))
  {
  }

  lemma StepKeepsSchedule(w: World, s: Step, id: SagaId, failedAt: Option<Time>)
    requires Agreement(w) && Enabled(w, s) && OnSchedule(w, id, failedAt)
    ensures OnSchedule(Next(w, s), id, FailedAfter(w, s, id, failedAt))
  {
    match s {
      case Sweep(_, _) => SweepKeepsSchedule(w, s, id, failedAt);
      case DeliverRequest(_) => RequestKeepsSchedule(w, s, id, failedAt);
      case DeliverAck(_) => AckKeepsSchedule(w, s, id, failedAt);
      case _ =>
    }
  }

  lemma {:induction false} RunKeepsSchedule(w: World, steps: seq<Step>, id: SagaId, failedAt: Option<Time>)
    requires Inv(w) && Possible(w, steps) && OnSchedule(w, id, failedAt)
    ensures OnSchedule(Run(w, steps), id, LastFailure(w, steps, id, failedAt))
    decreases |steps|
  {
    if steps != [] {
      InvStep(w, steps[0]);
      StepKeepsSchedule(w, steps[0], id, failedAt);
      RunKeepsSchedule(Next(w, steps[0]), steps[1..], id, FailedAfter(w, steps[0], id, failedAt));
    }
  }

  lemma {:induction false} FailuresSetBack(w: World, steps: seq<Step>, id: SagaId, failedAt: Option<Time>)
    requires Possible(w, steps) && (failedAt.Some? ==> id in w.setBack)
    ensures LastFailure(w, steps, id, failedAt).Some? ==> id in Run(w, steps).setBack
    decreases |steps|
  {
    if steps != [] {
      LogsOnlyGrow(w, steps[0]);
      FailuresSetBack(Next(w, steps[0]), steps[1..], id, FailedAfter(w, steps[0], id, failedAt));
    }
  }

  /**
   When an active saga is retried, in every run: a minute after the RepoWatchFailed ack that last changed it;
   otherwise 1, 5, 15 or 60 minutes after its last command, for attempts 1, 2, 3 and 4 or more. Without such an ack it
   is always the latter.
   */
  lemma RetriesFollowSchedule(start: Time, steps: seq<Step>, id: SagaId)
    requires Possible(Init(start), steps)
    requires id in Run(Init(start), steps).book.sagas && Run(Init(start), steps).book.sagas[id].Active()
    ensures var w, failure := Run(Init(start), steps), LastFailure(Init(start), steps, id, None);
            var row, sent := w.book.sagas[id], LastSentAt(w.book.commands, id);
            && (failure.Some? ==> id in w.setBack && row.nextRetryAt == Some(failure.value + 60_000_000))
            && (failure.None? ==>
                  && sent.Some?
                  && (row.attempts == 1 ==> row.nextRetryAt == Some(sent.value + 60_000_000))
                  && (row.attempts == 2 ==> row.nextRetryAt == Some(sent.value + 300_000_000))
                  && (row.attempts == 3 ==> row.nextRetryAt == Some(sent.value + 900_000_000))
                  && (row.attempts >= 4 ==> row.nextRetryAt == Some(sent.value + 3_600_000_000)))
  {
    RunKeepsSchedule(Init(start), steps, id, None);
    FailuresSetBack(Init(start), steps, id, None);
    var w := Run(Init(start), steps);
    ReachableInv(w);
    assert OnTime(w.book.sagas[id], id in w.setBack, w.now);
  }

  // ---- The bounds are attained ----

  lemma TheOnlySagaIsPicked(row: Instance, now: Time)
    requires row.Due(now)
    ensures IsBatch(DueKeys(map[1 := row], now), EffectiveLimit(0), [1])
  {
    assert DueKeys(map[1 := row], now) == map[1 := Rank(row)];
  }

  /** One more sweep of a saga that is alone, due and before its deadline. */
  lemma OneMoreSweep(steps: seq<Step>, row: Instance, at: Time) returns (more: seq<Step>)
    requires Possible(Init(0), steps)
    requires var w := Run(Init(0), steps); w.book.sagas == map[1 := row] && w.now <= at
    requires row.Due(at) && at < row.deadlineAt && Supported(row.action)
    ensures Possible(Init(0), more)
    ensures var w, after := Run(Init(0), steps), Run(Init(0), more);
            && after.now == at && after.setBack == w.setBack && after.scanner == w.scanner
            && after.book.sagas == map[1 := Swept(row, at)]
            && after.book.commands == w.book.commands + [Command(1, row, at)]
  {
    RunThen(Init(0), steps, Tick(at));
    more := steps + [Tick(at)];
    TheOnlySagaIsPicked(row, at);
    assert Resent(map[1 := row], [1], at) == [Command(1, row, at)] by {
      assert [1][..0] == [];
    }
    RunThen(Init(0), more, Sweep(0, [1]));
    more := more + [Sweep(0, [1])];
  }

  lemma OneSaga() returns (steps: seq<Step>)
    ensures Possible(Init(0), steps)
    ensures var w, row := Run(Init(0), steps), NewInstance(Request(1, StartWatch, "o/r", ""), 0);
            && w.now == 0 && w.setBack == {} && w.scanner == Scanner.Tables(map[], {}, [], [])
            && w.book == Book(map[1 := row], [Command(1, row, 0)])
  {
    steps := [];
    RunThen(Init(0), steps, Ask(1, StartWatch, "o/r", ""));
    steps := steps + [Ask(1, StartWatch, "o/r", "")];
    RunThen(Init(0), steps, DeliverRequest(1));
    steps := steps + [DeliverRequest(1)];
  }

  /** The saga after its k-th command, if no ack ever comes. */
  function Unanswered(k: nat): Instance {
    Instance("o/r", StartWatch, if k == 1 then CommandSent else Retrying, k, "",
             Some(Slot(k) + Wait(k)), 86_400_000_000, 0, None)
  }

  lemma {:induction false} ReachUnanswered(k: nat) returns (steps: seq<Step>)
    requires 1 <= k <= 27
    ensures Possible(Init(0), steps)
    ensures var w := Run(Init(0), steps);
            w.now == Slot(k) && w.setBack == {} && w.book.sagas == map[1 := Unanswered(k)]
    decreases k
  {
    if k == 1 {
      steps := OneSaga();
    } else {
      steps := ReachUnanswered(k - 1);
      RetryDelayFollowsSchedule(k - 1);
      steps := OneMoreSweep(steps, Unanswered(k - 1), Slot(k));
    }
  }

  /**
   A saga that no ack answers, swept whenever it is due, sends exactly 27 commands; its next retry time is past the
   deadline.
   */
  lemma UnansweredSagaSends27() returns (steps: seq<Step>)
    ensures Possible(Init(0), steps)
    ensures var w := Run(Init(0), steps);
            && 1 in w.book.sagas && w.setBack == {} && w.book.sagas[1].Active()
            && CommandsOf(w.book.commands, 1) == 27
            && w.book.sagas[1].nextRetryAt.Some? && w.book.sagas[1].nextRetryAt.value > w.book.sagas[1].deadlineAt
  {
    steps := ReachUnanswered(27);
    SagasAreConserved(Run(Init(0), steps), 1);
  }

  /** The saga after its k-th command has failed at once. */
  function Refused(k: nat): Instance {
    Instance("o/r", StartWatch, Retrying, k, "", Some(k * 60_000_000), 86_400_000_000, 0, Some("e"))
  }

  /** The scanner refuses the last command at once, and the orchestrator hears of it at once. */
  lemma RefuseLast(steps: seq<Step>, row: Instance) returns (more: seq<Step>)
    requires Possible(Init(0), steps)
    requires var w := Run(Init(0), steps);
             && w.book.sagas == map[1 := row] && row.Active() && w.now < row.deadlineAt
             && row.action == StartWatch && row.repo == "o/r"
             && |w.book.commands| == |w.scanner.acks| + 1
             && w.book.commands[|w.scanner.acks|] == Command(1, row, w.now)
    ensures Possible(Init(0), more)
    ensures var w, after := Run(Init(0), steps), Run(Init(0), more);
            && after.now == w.now && after.book.commands == w.book.commands
            && |after.scanner.acks| == |w.scanner.acks| + 1
            && after.book.sagas
               == map[1 := row.(status := Retrying, nextRetryAt := Some(w.now + 60_000_000), lastError := Some("e"))]
  {
    var n := |Run(Init(0), steps).scanner.acks|;
    RunThen(Init(0), steps, DeliverCommand(n, Some("e")));
    more := steps + [DeliverCommand(n, Some("e"))];
    RunThen(Init(0), more, DeliverAck(n));
    more := more + [DeliverAck(n)];
  }

  lemma {:induction false} ReachRefused(k: nat) returns (steps: seq<Step>)
    requires 1 <= k <= 1440
    ensures Possible(Init(0), steps)
    ensures var w := Run(Init(0), steps);
            && w.now == (k - 1) * 60_000_000 && w.book.sagas == map[1 := Refused(k)]
            && |w.book.commands| == |w.scanner.acks| == k
    decreases k
  {
    if k == 1 {
      steps := OneSaga();
      steps := RefuseLast(steps, NewInstance(Request(1, StartWatch, "o/r", ""), 0));
    } else {
      steps := ReachRefused(k - 1);
      var row, at := Refused(k - 1), (k - 1) * 60_000_000;
      steps := OneMoreSweep(steps, row, at);
      steps := RefuseLast(steps, Swept(row, at));
    }
  }

  /** A saga whose every command is refused at once sends exactly 1440 commands. */
  lemma RefusedSagaSends1440() returns (steps: seq<Step>)
    ensures Possible(Init(0), steps)
    ensures 1 in Run(Init(0), steps).book.sagas && CommandsOf(Run(Init(0), steps).book.commands, 1) == 1440
  {
    steps := ReachRefused(1440);
    SagasAreConserved(Run(Init(0), steps), 1);
  }
}
