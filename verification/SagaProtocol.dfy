/**
 The repo-watch saga across its services: requests, commands and acks travel through outboxes and Kafka,
 and any message ever published may be delivered at any later time, any number of times, in any order.
 A transaction that does not commit changes nothing, so it is no step.
 */
module SagaProtocol {

  import opened Wrappers
  import opened Clock
  import opened Contracts
  import opened Batches
  import opened WatchSaga
  import Scanner

  datatype World = World(
    now: Time,
    requests: map<SagaId, SagaRequest>,  // published by subscription-api, by event id
    book: Book,                          // the orchestrator's database
    scanner: Scanner.Tables,             // the scanner's database
    applied: seq<WatchCommand>,          // history: the commands that changed the watchlist, in order
    setBack: set<SagaId>)                // history: sagas for which a RepoWatchFailed ack was accepted

  datatype Step =
    | Tick(to: Time)
    | Ask(id: SagaId, action: Action, repo: Repo, correlationId: string)
    | DeliverRequest(id: SagaId)
    | DeliverCommand(index: nat, failure: Option<string>)
    | DeliverAck(index: nat)
    | Sweep(limit: int, due: seq<SagaId>)

  function Init(now: Time): World {
    World(now, map[], Book(map[], []), Scanner.Tables(map[], {}, [], []), [], {})
  }

  function Request(id: SagaId, action: Action, repo: Repo, correlationId: string): SagaRequest {
    SagaRequest(RepoWatchSagaRequested, correlationId, Uuid(id), action, repo)
  }

  /** Subscription-api asks only for start or stop, of a repo that passed the router's pattern, under a fresh UUID. */
  ghost predicate Enabled(w: World, s: Step) {
    match s
    case Tick(to) => w.now <= to
    case Ask(id, action, repo, _) => id !in w.requests && !action.OtherAction? && repo != ""
    case DeliverRequest(id) => id in w.requests
    case DeliverCommand(i, _) => i < |w.book.commands|
    case DeliverAck(i) => i < |w.scanner.acks|
    case Sweep(limit, due) => IsBatch(DueKeys(w.book.sagas, w.now), EffectiveLimit(limit), due)
  }

  /** A message that its handler rejects changes nothing. */
  function Next(w: World, s: Step): World
    requires Enabled(w, s)
  {
    match s
    case Tick(to) => w.(now := to)
    case Ask(id, action, repo, correlationId) =>
      w.(requests := w.requests[id := Request(id, action, repo, correlationId)])
    case DeliverRequest(id) =>
      if RequestRejection(w.requests[id]).Some? then w
      else w.(book := AfterRequest(w.book, w.requests[id], w.now))
    case DeliverCommand(i, failure) =>
      var c := w.book.commands[i];
      if !Scanner.AcceptsCommand(c) then w
      else
        w.(scanner := Scanner.AfterCommand(w.scanner, c, failure, w.now),
           applied := if failure.Some? then w.applied else w.applied + [c])
    case DeliverAck(i) =>
      var a := w.scanner.acks[i];
      if AckRejection(w.book.sagas, a).Some? then w
      else
        w.(book := w.book.(sagas := AfterAck(w.book.sagas, a, w.now)),
           setBack := if a.eventType == RepoWatchFailed then w.setBack + {a.sagaId.id} else w.setBack)
    case Sweep(limit, due) =>
      if !SupportedRows(w.book.sagas) then w
      else
        assert forall id | id in due :: id in DueKeys(w.book.sagas, w.now);
        w.(book := AfterSweep(w.book, due, w.now))
  }

  ghost predicate Possible(w: World, steps: seq<Step>)
    decreases |steps|
  {
    steps == [] || (Enabled(w, steps[0]) && Possible(Next(w, steps[0]), steps[1..]))
  }

  ghost function Run(w: World, steps: seq<Step>): World
    requires Possible(w, steps)
    decreases |steps|
  {
    if steps == [] then w else Run(Next(w, steps[0]), steps[1..])
  }

  lemma RunOne(w: World, s: Step)
    requires Enabled(w, s)
    ensures Possible(w, [s]) && Run(w, [s]) == Next(w, s)
  {
    assert [s][1..] == [];
  }

  lemma {:induction false} RunThen(w: World, steps: seq<Step>, s: Step)
    requires Possible(w, steps) && Enabled(Run(w, steps), s)
    ensures Possible(w, steps + [s]) && Run(w, steps + [s]) == Next(Run(w, steps), s)
    decreases |steps|
  {
    if steps == [] {
      RunOne(w, s);
      assert steps + [s] == [s];
    } else {
      RunThen(Next(w, steps[0]), steps[1..], s);
      assert (steps + [s])[1..] == steps[1..] + [s];
    }
  }

  // ---- What the sweep sends ----

  lemma {:induction false} ResentCommands(sagas: map<SagaId, Instance>, due: seq<SagaId>, now: Time)
    requires SupportedRows(sagas) && forall id | id in due :: id in sagas
    ensures forall c | c in Resent(sagas, due, now) ::
              c.sagaId.Uuid? && c.sagaId.id in due && now < sagas[c.sagaId.id].deadlineAt
              && c == Command(c.sagaId.id, sagas[c.sagaId.id], now)
  {
    if due != [] {
      ResentCommands(sagas, due[..|due| - 1], now);
    }
  }

  /** How many commands of the sequence belong to one saga. */
  function CommandsOf(commands: seq<WatchCommand>, id: SagaId): nat {
    if commands == [] then 0
    else CommandsOf(commands[..|commands| - 1], id)
         + (if commands[|commands| - 1].sagaId == Uuid(id) then 1 else 0)
  }

  lemma {:induction false} CommandsOfConcat(a: seq<WatchCommand>, b: seq<WatchCommand>, id: SagaId)
    ensures CommandsOf(a + b, id) == CommandsOf(a, id) + CommandsOf(b, id)
  {
    if b == [] {
      assert a + b == a;
    } else {
      CommandsOfConcat(a, b[..|b| - 1], id);
      assert (a + b)[..|a + b| - 1] == a + b[..|b| - 1];
    }
  }

  lemma {:induction false} ResentOnce(sagas: map<SagaId, Instance>, due: seq<SagaId>, now: Time, id: SagaId)
    requires SupportedRows(sagas) && Distinct(due) && forall k | k in due :: k in sagas
    ensures CommandsOf(Resent(sagas, due, now), id)
            == if id in due && now < sagas[id].deadlineAt then 1 else 0
  {
    if due != [] {
      var before, last := due[..|due| - 1], due[|due| - 1];
      ResentOnce(sagas, before, now, id);
      assert due == before + [last];
      CommandsOfConcat(Resent(sagas, before, now),
                       if sagas[last].deadlineAt <= now then [] else [Command(last, sagas[last], now)], id);
    }
  }

  // ---- Agreement between the services ----

  /** What a command or an ack says about its saga is what the row says. */
  ghost predicate Matches(sagas: map<SagaId, Instance>, sagaId: WireId, action: Action, repo: Repo,
      correlationId: string) {
    && sagaId.Uuid? && sagaId.id in sagas
    && sagas[sagaId.id].action == action && sagas[sagaId.id].repo == repo
    && sagas[sagaId.id].correlationId == correlationId
  }

  ghost predicate WasApplied(w: World, id: SagaId) {
    exists c | c in w.applied :: c.sagaId == Uuid(id)
  }

  ghost predicate RequestsAgree(w: World) {
    && (forall id | id in w.requests :: w.requests[id].sagaId == Uuid(id) && RequestRejection(w.requests[id]).None?)
    && (forall id | id in w.book.sagas ::
          && id in w.requests
          && w.book.sagas[id].action == w.requests[id].action
          && w.book.sagas[id].repo == w.requests[id].repo
          && w.book.sagas[id].correlationId == w.requests[id].correlationId)
  }

  ghost predicate CommandsAgree(w: World) {
    forall c | c in w.book.commands ::
      && Matches(w.book.sagas, c.sagaId, c.action, c.repo, c.correlationId)
      && CommandEventType(c.action) == Some(c.eventType)
  }

  ghost predicate AcksAgree(w: World) {
    forall a | a in w.scanner.acks ::
      && Matches(w.book.sagas, a.sagaId, a.action, a.repo, a.correlationId)
      && (a.eventType == RepoWatchFailed
          || (AckEventType(a.action) == Some(a.eventType) && WasApplied(w, a.sagaId.id)))
  }

  ghost predicate CompletedWereApplied(w: World) {
    forall id | id in w.book.sagas && w.book.sagas[id].status == Completed :: WasApplied(w, id)
  }

  ghost predicate Agreement(w: World) {
    RequestsAgree(w) && CommandsAgree(w) && AcksAgree(w) && CompletedWereApplied(w)
  }

  lemma AgreementSupports(w: World)
    requires RequestsAgree(w)
    ensures SupportedRows(w.book.sagas)
  {
    forall id | id in w.book.sagas ensures Supported(w.book.sagas[id].action) {
      assert RequestRejection(w.requests[id]).None?;
    }
  }

  lemma AcceptedCommand(w: World, c: WatchCommand)
    requires Agreement(w) && c in w.book.commands
    ensures Scanner.AcceptsCommand(c)
  {
    assert RequestRejection(w.requests[c.sagaId.id]).None?;
  }

  /** No message of the saga is ever rejected: neither service meets a poison message. */
  lemma NothingIsRejected(w: World)
    requires Agreement(w)
    ensures forall id | id in w.requests :: RequestRejection(w.requests[id]).None?
    ensures forall c | c in w.book.commands :: Scanner.AcceptsCommand(c)
    ensures forall a | a in w.scanner.acks :: AckRejection(w.book.sagas, a).None?
  {
    AgreementSupports(w);
    forall c | c in w.book.commands ensures Scanner.AcceptsCommand(c) {
      AcceptedCommand(w, c);
    }
  }

  /** Rows are never deleted and keep what identifies them. */
  ghost predicate SameSagas(a: map<SagaId, Instance>, b: map<SagaId, Instance>) {
    forall id | id in a ::
      && id in b
      && b[id].action == a[id].action && b[id].repo == a[id].repo
      && b[id].createdAt == a[id].createdAt && b[id].deadlineAt == a[id].deadlineAt
      && b[id].correlationId == a[id].correlationId
  }

  lemma StepKeepsRow(w: World, s: Step, id: SagaId)
    requires Enabled(w, s) && id in w.book.sagas
    ensures id in Next(w, s).book.sagas
    ensures SameSagas(map[id := w.book.sagas[id]], Next(w, s).book.sagas)
  {
  }

  lemma StepKeepsIdentity(w: World, s: Step)
    requires Enabled(w, s)
    ensures SameSagas(w.book.sagas, Next(w, s).book.sagas)
  {
    forall id | id in w.book.sagas ensures SameSagas(map[id := w.book.sagas[id]], Next(w, s).book.sagas) {
      StepKeepsRow(w, s, id);
    }
    assert forall id | id in w.book.sagas :: id in map[id := w.book.sagas[id]];
  }

  lemma LogsOnlyGrow(w: World, s: Step)
    requires Enabled(w, s)
    ensures w.book.commands <= Next(w, s).book.commands
    ensures w.scanner.acks <= Next(w, s).scanner.acks
    ensures w.applied <= Next(w, s).applied
    ensures w.setBack <= Next(w, s).setBack
  {
  }

  /** A completed or failed saga never changes again. */
  lemma TerminalIsFinal(w: World, s: Step, id: SagaId)
    requires Enabled(w, s)
    requires id in w.book.sagas && !w.book.sagas[id].Active()
    ensures id in Next(w, s).book.sagas && Next(w, s).book.sagas[id] == w.book.sagas[id]
  {
    if s.Sweep? {
      assert id !in DueKeys(w.book.sagas, w.now);
    }
  }

  lemma RequestsStayInAgreement(w: World, s: Step)
    requires Agreement(w) && Enabled(w, s)
    ensures RequestsAgree(Next(w, s))
  {
    AgreementSupports(w);
    StepKeepsIdentity(w, s);
  }

  lemma CommandsStayInAgreement(w: World, s: Step)
    requires Agreement(w) && Enabled(w, s)
    ensures CommandsAgree(Next(w, s))
  {
    AgreementSupports(w);
    StepKeepsIdentity(w, s);
    if s.Sweep? {
      ResentCommands(w.book.sagas, s.due, w.now);
    }
  }

  lemma AppliedStaysApplied(w: World, s: Step)
    requires Enabled(w, s)
    ensures forall id | WasApplied(w, id) :: WasApplied(Next(w, s), id)
  {
    LogsOnlyGrow(w, s);
    forall id | WasApplied(w, id) ensures WasApplied(Next(w, s), id) {
      var c :| c in w.applied && c.sagaId == Uuid(id);
      assert c in Next(w, s).applied;
    }
  }

  lemma AcksStayInAgreement(w: World, s: Step)
    requires Agreement(w) && Enabled(w, s)
    ensures AcksAgree(Next(w, s))
  {
    var w' := Next(w, s);
    StepKeepsIdentity(w, s);
    AppliedStaysApplied(w, s);
    if s.DeliverCommand? {
      var c := w.book.commands[s.index];
      AcceptedCommand(w, c);
      if s.failure.None? {
        assert c == w'.applied[|w.applied|];
        assert WasApplied(w', c.sagaId.id);
      }
    }
  }

  lemma CompletionsStayApplied(w: World, s: Step)
    requires Agreement(w) && Enabled(w, s)
    ensures CompletedWereApplied(Next(w, s))
  {
    AppliedStaysApplied(w, s);
    if s.DeliverAck? {
      assert w.scanner.acks[s.index] in w.scanner.acks;
    }
  }

  lemma AgreementHolds(w: World, s: Step)
    requires Agreement(w) && Enabled(w, s)
    ensures Agreement(Next(w, s))
  {
    RequestsStayInAgreement(w, s);
    CommandsStayInAgreement(w, s);
    AcksStayInAgreement(w, s);
    CompletionsStayApplied(w, s);
  }
}
