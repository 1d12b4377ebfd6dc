/**
 What every step of the watchlist machine keeps about a repo: what was asked for, and what the scanner was last sent.
 */
module WatchlistInvariant {

  import opened Wrappers
  import opened Clock
  import opened Contracts
  import opened WatchSaga
  import opened WatchlistMachine
  import Scanner
  import Subs = Subscriptions
  import Front = SubscriptionRuns

  lemma RequestsStayFit(w: World, s: Step)
    requires RequestsFit(w) && Enabled(w, s)
    ensures RequestsFit(Next(w, s)) && w.front.requests <= Next(w, s).front.requests
  {
  }

  /** Apart from new rows, no step changes the action or the repo of a saga. */
  lemma SagasKeepActions(w: World, s: Step, id: SagaId)
    requires Enabled(w, s) && id in w.book.sagas
    ensures id in Next(w, s).book.sagas
    ensures Next(w, s).book.sagas[id].action == w.book.sagas[id].action
    ensures Next(w, s).book.sagas[id].repo == w.book.sagas[id].repo
  {
  }

  lemma OnlyHandleCreates(w: World, s: Step)
    requires Enabled(w, s) && !s.Handle?
    ensures Next(w, s).book.sagas.Keys == w.book.sagas.Keys && Next(w, s).newest == w.newest
  {
  }

  lemma OthersLeaveRequests(w: World, s: Step)
    requires Enabled(w, s) && !s.Handle? && !s.Change?
    ensures Next(w, s).front == w.front && Next(w, s).toHandle == w.toHandle
  {
  }

  lemma StillKnown(w: World, s: Step, id: SagaId)
    requires RequestsFit(w) && Enabled(w, s) && !FreshId(w, id)
    ensures !FreshId(Next(w, s), id)
  {
    RequestsStayFit(w, s);
    var a :| a in w.front.requests && a.id == id;
    assert a in Next(w, s).front.requests;
  }

  lemma SagasStayFit(w: World, s: Step)
    requires Wellformed(w) && Enabled(w, s)
    ensures SagasFit(Next(w, s))
  {
    var w' := Next(w, s);
    if !s.Handle? {
      OnlyHandleCreates(w, s);
    } else {
      HandleCreates(w, s.repo);
    }
    forall id | id in w'.book.sagas
      ensures !FreshId(w', id) && Sound(w'.book.sagas[id].action, w'.book.sagas[id].repo)
          && w'.book.sagas[id].repo in w'.newest
    {
      if id in w.book.sagas {
        SagasKeepActions(w, s, id);
      } else {
        assert QueuesFit(w, s.repo);
      }
      StillKnown(w, s, id);
    }
  }

  lemma FirstIsSound(w: World, r: Repo)
    requires Wellformed(w) && Enabled(w, Handle(r))
    ensures var first := Queue(w.toHandle, r)[0];
            && first.repo == r && Sound(first.action, r)
            && first.id !in w.book.sagas && !FreshId(w, first.id)
  {
    assert QueuesFit(w, r);
    var first := Queue(w.toHandle, r)[0];
    assert first in Queue(w.toHandle, r) && first in w.front.requests;
  }

  /** Consuming a request creates its saga, which is then the newest of the repo. */
  lemma HandleCreates(w: World, r: Repo)
    requires Wellformed(w) && Enabled(w, Handle(r))
    ensures var w', first := Next(w, Handle(r)), Queue(w.toHandle, r)[0];
            && w'.book.sagas.Keys == w.book.sagas.Keys + {first.id}
            && w'.book.sagas[first.id].action == first.action && w'.book.sagas[first.id].repo == r
            && w'.newest == w.newest[r := first.id]
            && !FreshId(w, first.id) && Sound(first.action, r)
  {
    FirstIsSound(w, r);
  }

  /** It also sends the command of that saga. */
  lemma HandleSends(w: World, r: Repo) returns (c: WatchCommand)
    requires Wellformed(w) && Enabled(w, Handle(r))
    ensures c.action == Queue(w.toHandle, r)[0].action && c.repo == r && Sound(c.action, r)
    ensures Next(w, Handle(r)).toApply == w.toApply[r := Queue(w.toApply, r) + [c]]
  {
    FirstIsSound(w, r);
    var commands := Next(w, Handle(r)).book.commands;
    c := commands[|commands| - 1];
  }

  lemma HandlingKeepsQueuesFit(w: World, r: Repo, repo: Repo)
    requires Wellformed(w) && Enabled(w, Handle(r))
    ensures QueuesFit(Next(w, Handle(r)), repo)
  {
    assert QueuesFit(w, repo) && QueuesFit(w, r);
    var first := Queue(w.toHandle, r)[0];
    assert first in Queue(w.toHandle, r);
    assert r == repo ==> Queue(Next(w, Handle(r)).toHandle, repo) == Queue(w.toHandle, repo)[1..];
    assert r != repo ==> Queue(Next(w, Handle(r)).toHandle, repo) == Queue(w.toHandle, repo);
  }

  /** What a transaction of subscription-api asks for: nothing, or one sound request of its repo under a fresh id. */
  lemma ChangeAsks(w: World, c: Front.Step)
    requires RequestsFit(w) && SagasFit(w) && Enabled(w, Change(c))
    ensures var before, after := w.front.requests, Front.Next(w.front, c).requests;
            || after == before
            || (&& |after| == |before| + 1 && after == before + [after[|before|]]
                && after[|before|].repo == RepoOf(c)
                && Sound(after[|before|].action, after[|before|].repo)
                && after[|before|].id !in w.book.sagas
                && FreshId(w, after[|before|].id))
  {
    if c.ConfirmAndAsk? || c.Unsubscribe? || c.AskStart? {
      assert c.id !in w.book.sagas;
    }
  }

  /** The new requests of the repo that a transaction of subscription-api makes. */
  function NewlyAsked(w: World, c: Front.Step, repo: Repo): seq<Subs.Asked>
    requires Front.Enabled(w.front, c)
  {
    var before, after := w.front.requests, Front.Next(w.front, c).requests;
    if |after| > |before| && RepoOf(c) == repo then [after[|after| - 1]] else []
  }

  lemma ChangeEnqueues(w: World, c: Front.Step, repo: Repo)
    requires Enabled(w, Change(c))
    ensures Queue(Next(w, Change(c)).toHandle, repo) == Queue(w.toHandle, repo) + NewlyAsked(w, c, repo)
  {
  }

  lemma MoreRequestsFit(w: World, w': World, asked: seq<Subs.Asked>, repo: Repo)
    requires QueuesFit(w, repo) && w.front.requests <= w'.front.requests && w'.book == w.book
    requires Queue(w'.toHandle, repo) == Queue(w.toHandle, repo) + asked && |asked| <= 1
    requires forall a | a in asked ::
               && a in w'.front.requests && a.repo == repo && Sound(a.action, a.repo)
               && a.id !in w.book.sagas && FreshId(w, a.id)
    ensures QueuesFit(w', repo)
  {
    var queue := Queue(w.toHandle, repo);
    assert forall a | a in queue :: a in w.front.requests && a in w'.front.requests;
    assert forall i | 0 <= i < |queue| && asked != [] :: queue[i] in queue && queue[i].id != asked[0].id;
  }

  lemma NewlyAskedFit(w: World, c: Front.Step, repo: Repo)
    requires RequestsFit(w) && SagasFit(w) && Enabled(w, Change(c))
    ensures Next(w, Change(c)).book == w.book && |NewlyAsked(w, c, repo)| <= 1
    ensures w.front.requests <= Next(w, Change(c)).front.requests
    ensures forall a | a in NewlyAsked(w, c, repo) ::
              && a in Next(w, Change(c)).front.requests && a.repo == repo && Sound(a.action, a.repo)
              && a.id !in w.book.sagas && FreshId(w, a.id)
  {
    ChangeAsks(w, c);
  }

  lemma ChangingKeepsQueuesFit(w: World, c: Front.Step, repo: Repo)
    requires Wellformed(w) && Enabled(w, Change(c))
    ensures QueuesFit(Next(w, Change(c)), repo)
  {
    assert QueuesFit(w, repo);
    NewlyAskedFit(w, c, repo);
    ChangeEnqueues(w, c, repo);
    MoreRequestsFit(w, Next(w, Change(c)), NewlyAsked(w, c, repo), repo);
  }

  lemma QueuesStayFit(w: World, s: Step, repo: Repo)
    requires Wellformed(w) && Enabled(w, s)
    ensures QueuesFit(Next(w, s), repo)
  {
    match s {
      case Handle(r) => HandlingKeepsQueuesFit(w, r, repo);
      case Change(c) => ChangingKeepsQueuesFit(w, c, repo);
      case _ =>
        OnlyHandleCreates(w, s);
        OthersLeaveRequests(w, s);
        SameQueuesFit(w, Next(w, s), repo);
    }
  }

  lemma SameQueuesFit(w: World, w': World, repo: Repo)
    requires QueuesFit(w, repo)
    requires w'.front == w.front && w'.toHandle == w.toHandle && w'.book.sagas.Keys == w.book.sagas.Keys
    ensures QueuesFit(w', repo)
  {
  }

  lemma WellformedStep(w: World, s: Step)
    requires Wellformed(w) && Enabled(w, s)
    ensures Wellformed(Next(w, s))
  {
    RequestsStayFit(w, s);
    SagasStayFit(w, s);
    forall repo ensures QueuesFit(Next(w, s), repo) {
      QueuesStayFit(w, s, repo);
    }
  }

  // ---- What is asked for and what is sent ----

  lemma NewestIdStays(w: World, s: Step, repo: Repo)
    requires Enabled(w, s) && s != Handle(repo)
    ensures repo in Next(w, s).newest <==> repo in w.newest
    ensures repo in w.newest ==> Next(w, s).newest[repo] == w.newest[repo]
  {
  }

  lemma SameNewest(w: World, w': World, repo: Repo)
    requires repo in w'.newest <==> repo in w.newest
    requires repo in w.newest ==>
               && w'.newest[repo] == w.newest[repo]
               && w.newest[repo] in w.book.sagas && w.newest[repo] in w'.book.sagas
               && w'.book.sagas[w.newest[repo]].action == w.book.sagas[w.newest[repo]].action
    ensures NewestAction(w', repo) == NewestAction(w, repo)
  {
  }

  lemma NewestStays(w: World, s: Step, repo: Repo)
    requires SagasFit(w) && Enabled(w, s) && s != Handle(repo)
    ensures NewestAction(Next(w, s), repo) == NewestAction(w, repo)
  {
    NewestIdStays(w, s, repo);
    if repo in w.newest {
      SagasKeepActions(w, s, w.newest[repo]);
    }
    SameNewest(w, Next(w, s), repo);
  }

  lemma NewestIsHandled(w: World, r: Repo)
    requires Wellformed(w) && Enabled(w, Handle(r))
    ensures NewestAction(Next(w, Handle(r)), r) == Some(Queue(w.toHandle, r)[0].action)
  {
    HandleCreates(w, r);
  }

  lemma AskingStaysOnCourse(w: World, c: Front.Step, repo: Repo)
    requires Wellformed(w) && AskedOnCourse(w, repo) && Enabled(w, Change(c))
    ensures AskedOnCourse(Next(w, Change(c)), repo)
  {
    NewestStays(w, Change(c), repo);
    ChangeEnqueues(w, c, repo);
    AskingShows(w, c, repo);
    MoreAsked(w, Next(w, Change(c)), NewlyAsked(w, c, repo), repo);
  }

  lemma MoreAsked(w: World, w': World, asked: seq<Subs.Asked>, repo: Repo)
    requires AskedOnCourse(w, repo) && NewestAction(w', repo) == NewestAction(w, repo) && |asked| <= 1
    requires Queue(w'.toHandle, repo) == Queue(w.toHandle, repo) + asked
    requires LastAskedStarts(w', repo)
             <==> if asked != [] then asked[0].action == StartWatch else LastAskedStarts(w, repo)
    ensures AskedOnCourse(w', repo)
  {
  }

  lemma AskingShows(w: World, c: Front.Step, repo: Repo)
    requires Wellformed(w) && Enabled(w, Change(c))
    ensures LastAskedStarts(Next(w, Change(c)), repo)
            <==> if NewlyAsked(w, c, repo) == [] then LastAskedStarts(w, repo)
                 else NewlyAsked(w, c, repo)[0].action == StartWatch
  {
    ChangeAsks(w, c);
    var before, after := w.front.requests, Front.Next(w.front, c).requests;
    if after != before {
      Front.ActionsForAppend(before, after[|before|], repo);
    }
  }

  lemma HandlingStaysOnCourse(w: World, r: Repo, repo: Repo)
    requires Wellformed(w) && AskedOnCourse(w, repo) && Enabled(w, Handle(r))
    ensures AskedOnCourse(Next(w, Handle(r)), repo)
  {
    if r == repo {
      NewestIsHandled(w, r);
    } else {
      NewestStays(w, Handle(r), repo);
    }
  }

  lemma AskedStaysOnCourse(w: World, s: Step, repo: Repo)
    requires Wellformed(w) && AskedOnCourse(w, repo) && Enabled(w, s)
    ensures AskedOnCourse(Next(w, s), repo)
  {
    match s {
      case Change(c) => AskingStaysOnCourse(w, c, repo);
      case Handle(r) => HandlingStaysOnCourse(w, r, repo);
      case _ =>
        NewestStays(w, s, repo);
        OthersLeaveRequests(w, s);
    }
  }

  // ---- The sweep ----

  function OfRepo(commands: seq<WatchCommand>, repo: Repo): seq<WatchCommand> {
    if commands == [] then []
    else
      var last := commands[|commands| - 1];
      OfRepo(commands[..|commands| - 1], repo) + (if last.repo == repo then [last] else [])
  }

  lemma OfRepoAppend(commands: seq<WatchCommand>, c: WatchCommand, repo: Repo)
    ensures OfRepo(commands + [c], repo) == OfRepo(commands, repo) + (if c.repo == repo then [c] else [])
  {
    assert (commands + [c])[..|commands|] == commands;
  }

  lemma {:induction false} RoutedAllQueue(queues: Queues<WatchCommand>, commands: seq<WatchCommand>, repo: Repo)
    ensures Queue(RoutedAll(queues, commands), repo) == Queue(queues, repo) + OfRepo(commands, repo)
  {
    if commands != [] {
      RoutedAllQueue(queues, commands[..|commands| - 1], repo);
    }
  }

  /** The commands a sweep sends for a repo end with that of the last row it resends for the repo. */
  lemma {:induction false} ResentOfRepo(sagas: map<SagaId, Instance>, due: seq<SagaId>, now: Time, repo: Repo)
    requires SupportedRows(sagas) && forall id | id in due :: id in sagas
    ensures var sent, last := OfRepo(Resent(sagas, due, now), repo), LastResent(sagas, due, now, repo);
            match last
            case None => sent == []
            case Some(id) => id in due && sent != [] && sent[|sent| - 1] == Command(id, sagas[id], now)
  {
    if due != [] {
      var before, last := due[..|due| - 1], due[|due| - 1];
      ResentOfRepo(sagas, before, now, repo);
      if now < sagas[last].deadlineAt {
        OfRepoAppend(Resent(sagas, before, now), Command(last, sagas[last], now), repo);
      } else {
        assert Resent(sagas, due, now) == Resent(sagas, before, now);
      }
    }
  }

  lemma {:induction false} OfRepoIsSound(sagas: map<SagaId, Instance>, due: seq<SagaId>, now: Time, repo: Repo)
    requires SupportedRows(sagas) && forall id | id in due :: id in sagas && sagas[id].repo != ""
    ensures forall c | c in OfRepo(Resent(sagas, due, now), repo) :: c.repo == repo && Sound(c.action, repo)
  {
    if due != [] {
      var before, last := due[..|due| - 1], due[|due| - 1];
      OfRepoIsSound(sagas, before, now, repo);
      if now < sagas[last].deadlineAt {
        OfRepoAppend(Resent(sagas, before, now), Command(last, sagas[last], now), repo);
      } else {
        assert Resent(sagas, due, now) == Resent(sagas, before, now);
      }
    }
  }

  lemma SweepPicks(w: World, s: Step)
    requires Enabled(w, s) && s.Sweep?
    ensures forall id | id in s.due :: id in w.book.sagas
  {
    assert forall id | id in s.due :: id in DueKeys(w.book.sagas, w.now);
  }

  lemma SagasSupport(w: World)
    requires SagasFit(w)
    ensures SupportedRows(w.book.sagas)
  {
  }

  lemma SweepSends(w: World, s: Step)
    requires SupportedRows(w.book.sagas) && Enabled(w, s) && s.Sweep? && forall id | id in s.due :: id in w.book.sagas
    ensures Next(w, s).scanner == w.scanner && Next(w, s).lastApplied == w.lastApplied
    ensures Next(w, s).toApply == RoutedAll(w.toApply, Resent(w.book.sagas, s.due, w.now))
  {
  }

  /** What more commands on their way say about the repo. */
  lemma MoreCommands(w: World, w': World, sent: seq<WatchCommand>, repo: Repo, stale: bool, stale': bool)
    requires SentOnCourse(w, repo, stale) && w'.scanner == w.scanner && NewestAction(w', repo) == NewestAction(w, repo)
    requires Queue(w'.toApply, repo) == Queue(w.toApply, repo) + sent
    requires if sent == [] then stale' == stale
             else
               && NewestAction(w, repo).Some? && !NewestAction(w, repo).value.OtherAction?
               && !sent[|sent| - 1].action.OtherAction?
               && stale' == (NewestAction(w, repo) != Some(sent[|sent| - 1].action))
    ensures SentOnCourse(w', repo, stale')
  {
    var commands := Queue(w'.toApply, repo);
    if sent != [] {
      assert commands[|commands| - 1] == sent[|sent| - 1];
    }
  }

  /** What a sweep puts on its way to the scanner for one repo, and whether that is stale. */
  lemma SweepQueues(w: World, s: Step, repo: Repo, stale: bool) returns (sent: seq<WatchCommand>)
    requires SagasFit(w) && Enabled(w, s) && s.Sweep?
    ensures Next(w, s).scanner == w.scanner && Next(w, s).lastApplied == w.lastApplied
    ensures Queue(Next(w, s).toApply, repo) == Queue(w.toApply, repo) + sent
    ensures forall c | c in sent :: Sound(c.action, c.repo) && c.repo == repo
    ensures if sent == [] then StaleAfter(w, s, repo, stale) == stale
            else
              && NewestAction(w, repo).Some? && !NewestAction(w, repo).value.OtherAction?
              && StaleAfter(w, s, repo, stale) == (NewestAction(w, repo) != Some(sent[|sent| - 1].action))
  {
    SweepPicks(w, s);
    SagasSupport(w);
    SweepSends(w, s);
    var resent := Resent(w.book.sagas, s.due, w.now);
    RoutedAllQueue(w.toApply, resent, repo);
    ResentOfRepo(w.book.sagas, s.due, w.now, repo);
    OfRepoIsSound(w.book.sagas, s.due, w.now, repo);
    NewestIsKnown(w, s, repo);
    sent := OfRepo(resent, repo);
  }

  lemma SweepingStaysOnCourse(w: World, s: Step, repo: Repo, stale: bool)
    requires SagasFit(w) && SentOnCourse(w, repo, stale) && Enabled(w, s) && s.Sweep?
    ensures SentOnCourse(Next(w, s), repo, StaleAfter(w, s, repo, stale))
  {
    var sent := SweepQueues(w, s, repo, stale);
    NewestStays(w, s, repo);
    assert sent != [] ==> sent[|sent| - 1] in sent;
    MoreCommands(w, Next(w, s), sent, repo, stale, StaleAfter(w, s, repo, stale));
  }

  /** A resent row has a newest saga of its repo beside it, and both actions are start or stop. */
  lemma NewestIsKnown(w: World, s: Step, repo: Repo)
    requires SagasFit(w) && s.Sweep? && forall id | id in s.due :: id in w.book.sagas
    ensures var last := LastResent(w.book.sagas, s.due, w.now, repo);
            last.Some? ==>
              && last.value in w.book.sagas
              && NewestAction(w, repo).Some?
              && !NewestAction(w, repo).value.OtherAction?
              && !w.book.sagas[last.value].action.OtherAction?
  {
    LastResentIsPicked(w.book.sagas, s.due, w.now, repo);
  }

  lemma {:induction false} LastResentIsPicked(sagas: map<SagaId, Instance>, due: seq<SagaId>, now: Time, repo: Repo)
    requires forall id | id in due :: id in sagas
    ensures var last := LastResent(sagas, due, now, repo);
            last.Some? ==> last.value in due && sagas[last.value].repo == repo && now < sagas[last.value].deadlineAt
  {
    if due != [] {
      LastResentIsPicked(sagas, due[..|due| - 1], now, repo);
    }
  }

  /** More sound commands on their way leave the repo consumable. */
  lemma MoreConsumable(w: World, w': World, sent: seq<WatchCommand>, repo: Repo)
    requires Consumable(w, repo) && w'.scanner == w.scanner && w'.lastApplied == w.lastApplied
    requires Queue(w'.toApply, repo) == Queue(w.toApply, repo) + sent
    requires forall c | c in sent :: Sound(c.action, c.repo) && c.repo == repo
    ensures Consumable(w', repo)
  {
  }

  lemma SweptIsConsumable(w: World, s: Step, repo: Repo)
    requires SagasFit(w) && Consumable(w, repo) && Enabled(w, s) && s.Sweep?
    ensures Consumable(Next(w, s), repo)
  {
    var sent := SweepQueues(w, s, repo, false);
    MoreConsumable(w, Next(w, s), sent, repo);
  }

  // ---- The scanner ----

  /** What consuming a request puts on its way to the scanner. */
  lemma HandleQueues(w: World, r: Repo, repo: Repo) returns (sent: seq<WatchCommand>)
    requires Wellformed(w) && Enabled(w, Handle(r))
    ensures Next(w, Handle(r)).scanner == w.scanner && Next(w, Handle(r)).lastApplied == w.lastApplied
    ensures Queue(Next(w, Handle(r)).toApply, repo) == Queue(w.toApply, repo) + sent
    ensures r != repo ==> sent == []
    ensures r == repo ==> |sent| == 1 && sent[0].repo == repo && Sound(sent[0].action, repo)
                          && sent[0].action == Queue(w.toHandle, repo)[0].action
  {
    var c := HandleSends(w, r);
    sent := if r == repo then [c] else [];
  }

  lemma NewestIsLast(w: World, repo: Repo)
    requires var commands := Queue(w.toApply, repo);
             commands != [] && NewestAction(w, repo) == Some(commands[|commands| - 1].action)
    ensures SentOnCourse(w, repo, false)
  {
  }

  lemma HandledStaysOnCourse(w: World, r: Repo, repo: Repo, stale: bool)
    requires Wellformed(w) && SentOnCourse(w, repo, stale) && Enabled(w, Handle(r))
    ensures SentOnCourse(Next(w, Handle(r)), repo, StaleAfter(w, Handle(r), repo, stale))
  {
    var sent := HandleQueues(w, r, repo);
    if r == repo {
      NewestIsHandled(w, r);
      NewestIsLast(Next(w, Handle(r)), repo);
    } else {
      NewestStays(w, Handle(r), repo);
      MoreCommands(w, Next(w, Handle(r)), [], repo, stale, stale);
    }
  }

  lemma HandledIsConsumable(w: World, r: Repo, repo: Repo)
    requires Wellformed(w) && Consumable(w, repo) && Enabled(w, Handle(r))
    ensures Consumable(Next(w, Handle(r)), repo)
  {
    var sent := HandleQueues(w, r, repo);
    MoreConsumable(w, Next(w, Handle(r)), sent, repo);
  }

  /**
   What the scanner does with a sound command: it watches the command's repo as the command says, others as before.
   */
  lemma CommandDecides(t: Scanner.Tables, c: WatchCommand, now: Time, repo: Repo)
    requires !c.action.OtherAction?
    ensures repo in Scanner.AfterCommand(t, c, None, now).watchlist
            <==> if c.repo == repo then c.action == StartWatch else repo in t.watchlist
  {
  }

  /** Consuming a command takes it from the queue of its repo and decides what the watchlist says about that repo. */
  lemma ApplyDecides(w: World, s: Step, repo: Repo)
    requires Enabled(w, s) && (s.Apply? || s.ApplyAgain?) && Consumable(w, s.repo)
    ensures Queue(Next(w, s).toApply, repo)
            == if s == Apply(repo) then Queue(w.toApply, repo)[1..] else Queue(w.toApply, repo)
    ensures repo != s.repo ==> (repo in Next(w, s).scanner.watchlist <==> repo in w.scanner.watchlist)
    ensures s == ApplyAgain(repo) ==> (repo in Next(w, s).scanner.watchlist <==> repo in w.scanner.watchlist)
    ensures s == Apply(repo) ==>
              (repo in Next(w, s).scanner.watchlist <==> Queue(w.toApply, repo)[0].action == StartWatch)
  {
    var c := if s.Apply? then Queue(w.toApply, s.repo)[0] else w.lastApplied[s.repo];
    assert s.Apply? ==> c in Queue(w.toApply, s.repo);
    CommandDecides(w.scanner, c, w.now, repo);
  }

  lemma ApplyKeepsOutlook(w: World, s: Step, repo: Repo)
    requires Enabled(w, s) && (s.Apply? || s.ApplyAgain?) && Consumable(w, s.repo)
    ensures LastSentStarts(Next(w, s), repo) <==> LastSentStarts(w, repo)
  {
    ApplyDecides(w, s, repo);
  }

  lemma ApplyingStaysOnCourse(w: World, s: Step, repo: Repo, stale: bool)
    requires SagasFit(w) && SentOnCourse(w, repo, stale) && Enabled(w, s)
    requires (s.Apply? || s.ApplyAgain?) && Consumable(w, s.repo)
    ensures SentOnCourse(Next(w, s), repo, stale)
  {
    NewestStays(w, s, repo);
    ApplyKeepsOutlook(w, s, repo);
  }

  lemma AppliedIsConsumable(w: World, s: Step, repo: Repo)
    requires Consumable(w, repo) && Enabled(w, s) && (s.Apply? || s.ApplyAgain?) && Consumable(w, s.repo)
    ensures Consumable(Next(w, s), repo)
  {
    ApplyDecides(w, s, repo);
    if s == Apply(repo) {
      assert Queue(w.toApply, repo)[0] in Queue(w.toApply, repo);
    }
  }

  /** The steps that neither send nor apply a command. */
  predicate Silent(s: Step) {
    !s.Handle? && !s.Sweep? && !s.Apply? && !s.ApplyAgain?
  }

  lemma SilentSteps(w: World, s: Step)
    requires Enabled(w, s) && Silent(s)
    ensures Next(w, s).toApply == w.toApply && Next(w, s).lastApplied == w.lastApplied
    ensures Next(w, s).scanner.watchlist.Keys == w.scanner.watchlist.Keys
  {
  }

  lemma OthersStayOnCourse(w: World, s: Step, repo: Repo, stale: bool)
    requires SagasFit(w) && SentOnCourse(w, repo, stale) && Enabled(w, s) && Silent(s)
    ensures SentOnCourse(Next(w, s), repo, stale)
  {
    SilentSteps(w, s);
    NewestStays(w, s, repo);
  }

  lemma SentStaysOnCourse(w: World, s: Step, repo: Repo, stale: bool)
    requires Wellformed(w) && SentOnCourse(w, repo, stale) && Enabled(w, s)
    requires forall other :: Consumable(w, other)
    ensures SentOnCourse(Next(w, s), repo, StaleAfter(w, s, repo, stale))
  {
    match s {
      case Handle(r) => HandledStaysOnCourse(w, r, repo, stale);
      case Sweep(_, _) => SweepingStaysOnCourse(w, s, repo, stale);
      case Apply(_) => ApplyingStaysOnCourse(w, s, repo, stale);
      case ApplyAgain(_) => ApplyingStaysOnCourse(w, s, repo, stale);
      case _ => OthersStayOnCourse(w, s, repo, stale);
    }
  }

  lemma StaysConsumable(w: World, s: Step, repo: Repo)
    requires Wellformed(w) && Enabled(w, s) && forall other :: Consumable(w, other)
    ensures Consumable(Next(w, s), repo)
  {
    match s {
      case Handle(r) => HandledIsConsumable(w, r, repo);
      case Sweep(_, _) => SweptIsConsumable(w, s, repo);
      case Apply(_) => AppliedIsConsumable(w, s, repo);
      case ApplyAgain(_) => AppliedIsConsumable(w, s, repo);
      case _ =>
        assert Consumable(w, repo);
        SilentSteps(w, s);
    }
  }

  // ---- Runs ----

  ghost predicate Inv(w: World) {
    Wellformed(w) && forall repo :: Consumable(w, repo)
  }

  lemma InvStep(w: World, s: Step)
    requires Inv(w) && Enabled(w, s)
    ensures Inv(Next(w, s))
  {
    WellformedStep(w, s);
    forall repo ensures Consumable(Next(w, s), repo) {
      StaysConsumable(w, s, repo);
    }
  }

  lemma {:induction false} RunKeepsCourse(w: World, steps: seq<Step>, repo: Repo, stale: bool)
    requires Inv(w) && AskedOnCourse(w, repo) && SentOnCourse(w, repo, stale) && Possible(w, steps)
    ensures AskedOnCourse(Run(w, steps), repo)
    ensures SentOnCourse(Run(w, steps), repo, Stale(w, steps, repo, stale))
    decreases |steps|
  {
    if steps != [] {
      var s := steps[0];
      InvStep(w, s);
      AskedStaysOnCourse(w, s, repo);
      SentStaysOnCourse(w, s, repo, stale);
      RunKeepsCourse(Next(w, s), steps[1..], repo, StaleAfter(w, s, repo, stale));
    }
  }

  // ---- The log of commands ----

  /** The action of the last command ever sent for the repo. */
  function LastCommand(commands: seq<WatchCommand>, repo: Repo): Option<Action> {
    var sent := OfRepo(commands, repo);
    if sent == [] then None else Some(sent[|sent| - 1].action)
  }

  lemma {:induction false} LastCommandOfConcat(a: seq<WatchCommand>, b: seq<WatchCommand>, repo: Repo)
    ensures LastCommand(a + b, repo) == if OfRepo(b, repo) == [] then LastCommand(a, repo) else LastCommand(b, repo)
  {
    if b == [] {
      assert a + b == a;
    } else {
      var before, last := b[..|b| - 1], b[|b| - 1];
      assert a + b == (a + before) + [last] && b == before + [last];
      LastCommandOfConcat(a, before, repo);
      OfRepoAppend(a + before, last, repo);
    }
  }

  ghost predicate LogOnCourse(w: World, repo: Repo, stale: bool) {
    stale <==> LastCommand(w.book.commands, repo) != NewestAction(w, repo)
  }

  lemma HandleLogs(w: World, r: Repo, repo: Repo)
    requires Wellformed(w) && Enabled(w, Handle(r))
    ensures LastCommand(Next(w, Handle(r)).book.commands, repo)
            == if r == repo then Some(Queue(w.toHandle, r)[0].action) else LastCommand(w.book.commands, repo)
  {
    FirstIsSound(w, r);
    var before, after := w.book.commands, Next(w, Handle(r)).book.commands;
    assert after == before + [after[|before|]];
    OfRepoAppend(before, after[|before|], repo);
  }

  /** Whether a sweep is stale, told by the last command it sends for the repo. */
  lemma StaleByLastCommand(w: World, s: Step, repo: Repo, stale: bool)
    requires s.Sweep? && SupportedRows(w.book.sagas) && forall id | id in s.due :: id in w.book.sagas
    ensures var sent := LastCommand(Resent(w.book.sagas, s.due, w.now), repo);
            StaleAfter(w, s, repo, stale) == if sent.None? then stale else NewestAction(w, repo) != sent
  {
    ResentOfRepo(w.book.sagas, s.due, w.now, repo);
    LastResentIsPicked(w.book.sagas, s.due, w.now, repo);
  }

  lemma SweepAppends(w: World, s: Step, repo: Repo)
    requires SagasFit(w) && Enabled(w, s) && s.Sweep?
    ensures SupportedRows(w.book.sagas) && forall id | id in s.due :: id in w.book.sagas
    ensures var sent := LastCommand(Resent(w.book.sagas, s.due, w.now), repo);
            LastCommand(Next(w, s).book.commands, repo)
                == if sent.None? then LastCommand(w.book.commands, repo) else sent
  {
    SweepPicks(w, s);
    SagasSupport(w);
    LastCommandOfConcat(w.book.commands, Resent(w.book.sagas, s.due, w.now), repo);
  }

  lemma SweepLogs(w: World, s: Step, repo: Repo, stale: bool)
    requires SagasFit(w) && LogOnCourse(w, repo, stale) && Enabled(w, s) && s.Sweep?
    ensures LogOnCourse(Next(w, s), repo, StaleAfter(w, s, repo, stale))
  {
    SweepAppends(w, s, repo);
    StaleByLastCommand(w, s, repo, stale);
    NewestStays(w, s, repo);
  }

  lemma OthersLogNothing(w: World, s: Step)
    requires Enabled(w, s) && !s.Handle? && !s.Sweep?
    ensures Next(w, s).book.commands == w.book.commands
  {
  }

  lemma LogStaysOnCourse(w: World, s: Step, repo: Repo, stale: bool)
    requires Wellformed(w) && LogOnCourse(w, repo, stale) && Enabled(w, s)
    ensures LogOnCourse(Next(w, s), repo, StaleAfter(w, s, repo, stale))
  {
    match s {
      case Handle(r) =>
        HandleLogs(w, r, repo);
        if r == repo {
          NewestIsHandled(w, r);
        } else {
          NewestStays(w, s, repo);
        }
      case Sweep(_, _) => SweepLogs(w, s, repo, stale);
      case _ =>
        OthersLogNothing(w, s);
        NewestStays(w, s, repo);
    }
  }

  lemma {:induction false} RunKeepsLog(w: World, steps: seq<Step>, repo: Repo, stale: bool)
    requires Wellformed(w) && LogOnCourse(w, repo, stale) && Possible(w, steps)
    ensures LogOnCourse(Run(w, steps), repo, Stale(w, steps, repo, stale))
    decreases |steps|
  {
    if steps != [] {
      WellformedStep(w, steps[0]);
      LogStaysOnCourse(w, steps[0], repo, stale);
      RunKeepsLog(Next(w, steps[0]), steps[1..], repo, StaleAfter(w, steps[0], repo, stale));
    }
  }
}
