/**
 From subscriptions to the watchlist: subscription-api, the orchestrator with its retry sweep, and the scanner together,
 when messages of a repo arrive in order (an immediate repetition may follow each) and no watchlist statement fails.
 Kafka keeps the order, as all messages of a repo share its key.
 */
module WatchlistMachine {

  import opened Wrappers
  import opened Clock
  import opened Contracts
  import opened Batches
  import opened WatchSaga
  import Scanner
  import Subs = Subscriptions
  import Front = SubscriptionRuns

  /** For each repo, the part of its partition that is not consumed yet. */
  type Queues<T> = map<Repo, seq<T>>

  function Queue<T>(queues: Queues<T>, repo: Repo): seq<T> {
    if repo in queues then queues[repo] else []
  }

  datatype World = World(
    now: Time,
    front: Front.World,
    toHandle: Queues<Subs.Asked>,
    book: Book,
    toApply: Queues<WatchCommand>,
    scanner: Scanner.Tables,
    lastApplied: map<Repo, WatchCommand>,
    newest: map<Repo, SagaId>)   // history: the saga last created for each repo

  datatype Step =
    | Tick(to: Time)
    | Change(s: Front.Step)                      // a transaction of subscription-api
    | Handle(repo: Repo)                         // the orchestrator consumes the next request of the repo
    | HandleAgain(asked: Subs.Asked)             // a request it has consumed before
    | Sweep(limit: int, due: seq<SagaId>)        // the retry sweep
    | Apply(repo: Repo)                          // the scanner consumes the next command of the repo
    | ApplyAgain(repo: Repo)                     // the command it consumed last for the repo
    | Ack(index: nat)                            // the orchestrator consumes any ack, any number of times
    | Claim(batch: seq<Repo>, backoff: Time)
    | Scan(claimed: Scanner.Claimed, answer: Option<string>)

  function Init(now: Time): World {
    World(now, Front.Init(), map[], Book(map[], []), map[], Scanner.Tables(map[], {}, [], []), map[], map[])
  }

  function Message(a: Subs.Asked): SagaRequest {
    SagaRequest(RepoWatchSagaRequested, "", Uuid(a.id), a.action, a.repo)
  }

  /** The id of a new request is a fresh UUID. */
  predicate FreshId(w: World, id: SagaId) {
    forall a | a in w.front.requests :: a.id != id
  }

  ghost predicate Enabled(w: World, s: Step) {
    match s
    case Tick(to) => w.now <= to
    case Change(c) =>
      && Front.Enabled(w.front, c)
      && (c.Save? ==> c.pair.repo != "")
      && (c.ConfirmAndAsk? || c.Unsubscribe? || c.AskStart? ==> FreshId(w, c.id))
    case Handle(repo) => Queue(w.toHandle, repo) != [] && RequestRejection(Message(Queue(w.toHandle, repo)[0])).None?
    case HandleAgain(a) => a.id in w.book.sagas && RequestRejection(Message(a)).None?
    case Sweep(limit, due) => IsBatch(DueKeys(w.book.sagas, w.now), EffectiveLimit(limit), due)
    case Apply(repo) => Queue(w.toApply, repo) != []
    case ApplyAgain(repo) => repo in w.lastApplied
    case Ack(i) => i < |w.scanner.acks| && AckRejection(w.book.sagas, w.scanner.acks[i]).None?
    case Claim(batch, _) => true
    case Scan(_, _) => true
  }

  /** Enqueues what a transaction appended to an outbox, at most one message, under its repo. */
  function Routed<T>(queues: Queues<T>, before: seq<T>, after: seq<T>, repo: Repo): Queues<T> {
    if |after| > |before| then queues[repo := Queue(queues, repo) + [after[|after| - 1]]] else queues
  }

  /** Enqueues the commands of a sweep in their order, each under its repo. */
  function RoutedAll(queues: Queues<WatchCommand>, commands: seq<WatchCommand>): Queues<WatchCommand> {
    if commands == [] then queues
    else
      var before, last := RoutedAll(queues, commands[..|commands| - 1]), commands[|commands| - 1];
      before[last.repo := Queue(before, last.repo) + [last]]
  }

  function RepoOf(c: Front.Step): Repo {
    match c
    case AskStart(repo, _) => repo
    case LoseStart(repo) => repo
    case _ => c.pair.repo
  }

  function Next(w: World, s: Step): World
    requires Enabled(w, s)
  {
    match s
    case Tick(to) => w.(now := to)
    case Change(c) =>
      var front := Front.Next(w.front, c);
      w.(front := front, toHandle := Routed(w.toHandle, w.front.requests, front.requests, RepoOf(c)))
    case Handle(repo) =>
      var queue := Queue(w.toHandle, repo);
      var book := AfterRequest(w.book, Message(queue[0]), w.now);
      w.(book := book,
         toHandle := w.toHandle[repo := queue[1..]],
         toApply := Routed(w.toApply, w.book.commands, book.commands, repo),
         newest := if queue[0].id in w.book.sagas then w.newest else w.newest[repo := queue[0].id])
    case HandleAgain(a) => w.(book := AfterRequest(w.book, Message(a), w.now))
    case Sweep(_, due) =>
      if !SupportedRows(w.book.sagas) then w
      else
        assert forall id | id in due :: id in DueKeys(w.book.sagas, w.now);
        w.(book := AfterSweep(w.book, due, w.now),
           toApply := RoutedAll(w.toApply, Resent(w.book.sagas, due, w.now)))
    case Apply(repo) =>
      var queue := Queue(w.toApply, repo);
      w.(scanner := Scanner.AfterCommand(w.scanner, queue[0], None, w.now),
         toApply := w.toApply[repo := queue[1..]],
         lastApplied := w.lastApplied[repo := queue[0]])
    case ApplyAgain(repo) => w.(scanner := Scanner.AfterCommand(w.scanner, w.lastApplied[repo], None, w.now))
    case Ack(i) => w.(book := w.book.(sagas := AfterAck(w.book.sagas, w.scanner.acks[i], w.now)))
    case Claim(batch, backoff) => w.(scanner := Scanner.AfterClaim(w.scanner, batch, w.now, backoff))
    case Scan(claimed, answer) => w.(scanner := Scanner.AfterScan(w.scanner, claimed, answer, true))
  }

  ghost predicate Possible(w: World, steps: seq<Step>)
    decreases |steps|
  {
    steps == [] || (Enabled(w, steps[0]) && Possible(Next(w, steps[0]), steps[1..]))
  }

  ghost function Run(w: World, steps: seq<Step>): World
    requires Possible(w, steps)
    decreases |steps|
  {
    if steps == [] then w else Run(Next(w, steps[0]), steps[1..])
  }

  // ---- Stale resends ----

  function NewestAction(w: World, repo: Repo): Option<Action> {
    if repo in w.newest && w.newest[repo] in w.book.sagas then Some(w.book.sagas[w.newest[repo]].action) else None
  }

  /** The last of the picked rows whose command the sweep sends again for the repo. */
  function LastResent(sagas: map<SagaId, Instance>, due: seq<SagaId>, now: Time, repo: Repo): Option<SagaId>
    requires forall id | id in due :: id in sagas
  {
    if due == [] then None
    else
      var last := due[|due| - 1];
      if sagas[last].repo == repo && now < sagas[last].deadlineAt then Some(last)
      else LastResent(sagas, due[..|due| - 1], now, repo)
  }

  /** Whether a step leaves the repo with a stale resend, when it was or was not so before. */
  predicate StaleAfter(w: World, s: Step, repo: Repo, was: bool) {
    match s
    case Handle(r) => if r == repo then false else was
    case Sweep(_, due) =>
      if forall id | id in due :: id in w.book.sagas then
        match LastResent(w.book.sagas, due, w.now, repo)
        case None => was
        case Some(id) => id in w.book.sagas && NewestAction(w, repo) != Some(w.book.sagas[id].action)
      else was
    case _ => was
  }

  /**
   The last sweep that sent a command for the repo, after its last new saga, ended with a row of the repo
   whose action is not that of its newest saga.
   */
  ghost predicate Stale(w: World, steps: seq<Step>, repo: Repo, was: bool)
    requires Possible(w, steps)
    decreases |steps|
  {
    if steps == [] then was else Stale(Next(w, steps[0]), steps[1..], repo, StaleAfter(w, steps[0], repo, was))
  }

  // ---- The invariant of one repo ----

  predicate Sound(action: Action, repo: Repo) {
    !action.OtherAction? && repo != ""
  }

  predicate EndsWithStart(actions: seq<Action>) {
    actions != [] && actions[|actions| - 1] == StartWatch
  }

  /** Whether the last request ever made for the repo is a start. */
  predicate LastAskedStarts(w: World, repo: Repo) {
    EndsWithStart(Front.ActionsFor(w.front.requests, repo))
  }

  /** Whether the last command on its way to the scanner is a start; if none is, whether the scanner watches. */
  predicate LastSentStarts(w: World, repo: Repo) {
    var commands := Queue(w.toApply, repo);
    if commands != [] then commands[|commands| - 1].action == StartWatch else repo in w.scanner.watchlist
  }

  ghost predicate AskedOnCourse(w: World, repo: Repo) {
    var requests := Queue(w.toHandle, repo);
    LastAskedStarts(w, repo)
    <==> if requests == [] then NewestAction(w, repo) == Some(StartWatch)
         else requests[|requests| - 1].action == StartWatch
  }

  predicate SentOnCourse(w: World, repo: Repo, stale: bool) {
    LastSentStarts(w, repo) <==> (NewestAction(w, repo) == Some(StartWatch)) != stale
  }

  /** The commands on their way are sound, and consuming the last one again would change nothing. */
  ghost predicate Consumable(w: World, repo: Repo) {
    && (forall c | c in Queue(w.toApply, repo) :: Sound(c.action, c.repo) && c.repo == repo)
    && (repo in w.lastApplied ==>
          && w.lastApplied[repo].repo == repo
          && !w.lastApplied[repo].action.OtherAction?
          && (w.lastApplied[repo].action == StartWatch <==> repo in w.scanner.watchlist))
  }

  ghost predicate QueuesFit(w: World, repo: Repo) {
    && (forall a | a in Queue(w.toHandle, repo) ::
          a in w.front.requests && a.repo == repo && Sound(a.action, a.repo) && a.id !in w.book.sagas)
    && (forall i, j | 0 <= i < j < |Queue(w.toHandle, repo)| ::
          Queue(w.toHandle, repo)[i].id != Queue(w.toHandle, repo)[j].id)
  }

  ghost predicate RequestsFit(w: World) {
    && "" !in w.front.pending
    && (forall p | p in w.front.subs :: p.repo != "")
    && (forall a, b | a in w.front.requests && b in w.front.requests && a.id == b.id :: a == b)
  }

  /** Every saga comes from a request, and the newest of its repo is known. */
  ghost predicate SagasFit(w: World) {
    && (forall id | id in w.book.sagas ::
          && !FreshId(w, id)
          && Sound(w.book.sagas[id].action, w.book.sagas[id].repo)
          && w.book.sagas[id].repo in w.newest)
    && (forall repo | repo in w.newest :: w.newest[repo] in w.book.sagas)
  }

  ghost predicate Wellformed(w: World) {
    RequestsFit(w) && SagasFit(w) && forall repo :: QueuesFit(w, repo)
  }
}
