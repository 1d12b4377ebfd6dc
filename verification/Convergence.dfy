/** When the watchlist ends up right: the exact condition, the guard at the sweep, and a run that breaks it. */
module Convergence {

  import opened Wrappers
  import opened Clock
  import opened Contracts
  import opened Batches
  import opened WatchSaga
  import opened WatchlistMachine
  import opened WatchlistInvariant
  import Subs = Subscriptions
  import Front = SubscriptionRuns

  // ---- Drained queues ----

  /** Whether a run from the start leaves the repo with a stale resend. */
  ghost predicate LeftStale(start: Time, steps: seq<Step>, repo: Repo)
    requires Possible(Init(start), steps)
  {
    Stale(Init(start), steps, repo, false)
  }

  predicate Drained(w: World, repo: Repo) {
    Queue(w.toHandle, repo) == [] && Queue(w.toApply, repo) == []
  }

  /**
   Once nothing of a repo is on its way, the scanner watches it exactly when the last request made for it is a start,
   or exactly when it is not, if the repo was left with a stale resend.
   */
  lemma DrainedRepo(start: Time, steps: seq<Step>, repo: Repo)
    requires Possible(Init(start), steps) && Drained(Run(Init(start), steps), repo)
    ensures repo in Run(Init(start), steps).scanner.watchlist
            <==> LastAskedStarts(Run(Init(start), steps), repo) != LeftStale(start, steps, repo)
  {
    RunKeepsCourse(Init(start), steps, repo, false);
  }

  /** The part of subscription-api in a run. */
  function Changes(steps: seq<Step>): seq<Front.Step> {
    if steps == [] then []
    else (if steps[0].Change? then [steps[0].s] else []) + Changes(steps[1..])
  }

  lemma {:induction false} ChangesAreARun(w: World, steps: seq<Step>)
    requires Possible(w, steps)
    ensures Front.Possible(w.front, Changes(steps))
    ensures Front.Run(w.front, Changes(steps)) == Run(w, steps).front
    decreases |steps|
  {
    if steps != [] {
      ChangesAreARun(Next(w, steps[0]), steps[1..]);
      if steps[0].Change? {
        Front.RunFirst(w.front, steps[0].s, Changes(steps[1..]));
      } else {
        assert Changes(steps) == Changes(steps[1..]);
      }
    }
  }

  /** No start was overtaken by a stop, as SubscriptionRuns says. */
  ghost predicate NeverOvertaken(start: Time, steps: seq<Step>, repo: Repo)
    requires Possible(Init(start), steps)
  {
    ChangesAreARun(Init(start), steps);
    Front.NeverOvertaken(Front.Init(), Changes(steps), repo)
  }

  lemma LastAskedInTurn(start: Time, steps: seq<Step>, repo: Repo)
    requires Possible(Init(start), steps) && NeverOvertaken(start, steps, repo)
    ensures var w := Run(Init(start), steps);
            && (LastAskedStarts(w, repo)
                <==> Front.HasConfirmed(w.front.subs, repo) && Front.Outstanding(w.front, repo) == 0)
            && (Front.Outstanding(w.front, repo) > 0 ==> Front.HasConfirmed(w.front.subs, repo))
  {
    ChangesAreARun(Init(start), steps);
    Front.InTurnUnlessOvertaken(Front.Init(), Changes(steps), repo);
    var actions := Front.ActionsFor(Run(Init(start), steps).front.requests, repo);
    assert actions != [] ==> actions[|actions| - 1] == Front.ActionAt(|actions| - 1);
  }

  /**
   Exactly when a drained repo is right, if no start of it was overtaken: when it was left with a stale resend just if
   the start its subscribers call for is still outstanding. So with nothing outstanding, exactly without a stale
   resend.
   */
  lemma DrainedRepoIsRightIff(start: Time, steps: seq<Step>, repo: Repo)
    requires Possible(Init(start), steps) && Drained(Run(Init(start), steps), repo)
    requires NeverOvertaken(start, steps, repo)
    ensures var w := Run(Init(start), steps);
            (repo in w.scanner.watchlist <==> Front.HasConfirmed(w.front.subs, repo))
            <==> (LeftStale(start, steps, repo) <==> Front.Outstanding(w.front, repo) > 0)
  {
    DrainedRepo(start, steps, repo);
    LastAskedInTurn(start, steps, repo);
  }

  /** Every confirmation asks for its start in the same step. */
  ghost predicate Serial(steps: seq<Step>) {
    Front.Serial(Changes(steps))
  }

  lemma SerialIsSettled(start: Time, steps: seq<Step>, repo: Repo)
    requires Possible(Init(start), steps) && Serial(steps)
    ensures NeverOvertaken(start, steps, repo)
    ensures Front.Outstanding(Run(Init(start), steps).front, repo) == 0
  {
    ChangesAreARun(Init(start), steps);
    Front.SerialOwesNothing(Front.Init(), Changes(steps), repo);
  }

  /** When confirmations ask at once, a drained repo is right exactly without a stale resend. */
  lemma DrainedIffNotStale(start: Time, steps: seq<Step>, repo: Repo)
    requires Possible(Init(start), steps) && Serial(steps) && Drained(Run(Init(start), steps), repo)
    ensures var w := Run(Init(start), steps);
            (repo in w.scanner.watchlist <==> Front.HasConfirmed(w.front.subs, repo))
            <==> !LeftStale(start, steps, repo)
  {
    SerialIsSettled(start, steps, repo);
    DrainedRepoIsRightIff(start, steps, repo);
  }

  /** The same said with the log of commands: the last one sent for the repo is that of its newest saga. */
  lemma DrainedIffLastCommandIsNewest(start: Time, steps: seq<Step>, repo: Repo)
    requires Possible(Init(start), steps) && Serial(steps) && Drained(Run(Init(start), steps), repo)
    ensures var w := Run(Init(start), steps);
            (repo in w.scanner.watchlist <==> Front.HasConfirmed(w.front.subs, repo))
            <==> LastCommand(w.book.commands, repo) == NewestAction(w, repo)
  {
    DrainedIffNotStale(start, steps, repo);
    RunKeepsLog(Init(start), steps, repo, false);
  }

  function ConfirmedRepos(w: World): set<Repo> {
    set p | p in w.front.subs && w.front.subs[p].confirmed :: p.repo
  }

  lemma ConfirmedReposHave(w: World, repo: Repo)
    ensures repo in ConfirmedRepos(w) <==> Front.HasConfirmed(w.front.subs, repo)
  {
    if Front.HasConfirmed(w.front.subs, repo) {
      var p :| p in Subs.ConfirmedOf(w.front.subs, repo);
      assert p.repo in ConfirmedRepos(w);
    }
    if repo in ConfirmedRepos(w) {
      var p :| p in w.front.subs && w.front.subs[p].confirmed && p.repo == repo;
      assert p in Subs.ConfirmedOf(w.front.subs, repo);
    }
  }

  /**
   After all queues are drained the watchlist is the set of repos with a confirmed subscriber iff no repo is left
   stale.
   */
  lemma DrainedWatchlist(start: Time, steps: seq<Step>)
    requires Possible(Init(start), steps) && Serial(steps)
    requires forall repo :: Drained(Run(Init(start), steps), repo)
    ensures Run(Init(start), steps).scanner.watchlist.Keys == ConfirmedRepos(Run(Init(start), steps))
            <==> forall repo :: !LeftStale(start, steps, repo)
  {
    var w := Run(Init(start), steps);
    forall repo ensures (repo in w.scanner.watchlist.Keys <==> repo in ConfirmedRepos(w))
        <==> !LeftStale(start, steps, repo) {
      DrainedIffNotStale(start, steps, repo);
      ConfirmedReposHave(w, repo);
    }
    if w.scanner.watchlist.Keys == ConfirmedRepos(w) {
      forall repo ensures !LeftStale(start, steps, repo) {
        assert repo in w.scanner.watchlist.Keys <==> repo in ConfirmedRepos(w);
      }
    }
    if forall repo :: !LeftStale(start, steps, repo) {
      forall repo ensures repo in w.scanner.watchlist.Keys <==> repo in ConfirmedRepos(w) {
        assert !LeftStale(start, steps, repo);
      }
      assert w.scanner.watchlist.Keys == ConfirmedRepos(w);
    }
  }

  /** A picked row before its deadline asks for other than the newest saga of its repo. */
  ghost predicate ResendsStale(w: World, s: Step, repo: Repo) {
    s.Sweep? && exists id | id in s.due && id in w.book.sagas ::
      && w.book.sagas[id].repo == repo && w.now < w.book.sagas[id].deadlineAt
      && NewestAction(w, repo) != Some(w.book.sagas[id].action)
  }

  ghost predicate NeverResendsStale(w: World, steps: seq<Step>, repo: Repo)
    requires Possible(w, steps)
    decreases |steps|
  {
    steps == [] || (!ResendsStale(w, steps[0], repo) && NeverResendsStale(Next(w, steps[0]), steps[1..], repo))
  }

  /** The guard at the sweep: without such a pick no repo is left stale, in particular without any retry. */
  lemma {:induction false} GuardedSweepsStayFresh(w: World, steps: seq<Step>, repo: Repo)
    requires Possible(w, steps) && NeverResendsStale(w, steps, repo)
    ensures !Stale(w, steps, repo, false)
    decreases |steps|
  {
    if steps != [] {
      var s := steps[0];
      if s.Sweep? && forall id | id in s.due :: id in w.book.sagas {
        LastResentIsPicked(w.book.sagas, s.due, w.now, repo);
      }
      assert !StaleAfter(w, s, repo, false);
      GuardedSweepsStayFresh(Next(w, s), steps[1..], repo);
    }
  }

  // ---- A run that a stale resend leaves wrong ----

  lemma {:induction false} RunThen(w: World, steps: seq<Step>, s: Step)
    requires Possible(w, steps) && Enabled(Run(w, steps), s)
    ensures Possible(w, steps + [s]) && Run(w, steps + [s]) == Next(Run(w, steps), s)
    decreases |steps|
  {
    if steps == [] {
      assert steps + [s] == [s] && [s][1..] == [];
    } else {
      RunThen(Next(w, steps[0]), steps[1..], s);
      assert (steps + [s])[1..] == steps[1..] + [s];
    }
  }

  lemma {:induction false} SerialThen(steps: seq<Step>, s: Step)
    requires Serial(steps) && !(s.Change? && s.s.Confirm?)
    ensures Serial(steps + [s])
  {
    if steps == [] {
      assert steps + [s] == [s];
    } else {
      assert (steps + [s])[1..] == steps[1..] + [s];
      assert forall c | c in Changes(steps[1..]) :: c in Changes(steps);
      SerialThen(steps[1..], s);
    }
  }

  lemma OneMore(steps: seq<Step>, s: Step) returns (more: seq<Step>)
    requires Possible(Init(0), steps) && Serial(steps) && Enabled(Run(Init(0), steps), s)
        && !(s.Change? && s.s.Confirm?)
    ensures Possible(Init(0), more) && Serial(more) && Run(Init(0), more) == Next(Run(Init(0), steps), s)
  {
    RunThen(Init(0), steps, s);
    SerialThen(steps, s);
    more := steps + [s];
  }

  const REPO: Repo := "o/r"

  function Subscriber(): Subs.Pair {
    Subs.Pair("a@example.org", REPO)
  }

  function SagaFor(id: SagaId, action: Action, created: Time): Instance {
    NewInstance(Message(Subs.Asked(id, action, REPO)), created)
  }

  /** One subscriber has confirmed, and the start of the repo is handled. */
  lemma ReachStarted() returns (steps: seq<Step>)
    ensures Possible(Init(0), steps) && Serial(steps)
    ensures var w := Run(Init(0), steps);
            && w.now == 0 && w.newest == map[REPO := 1]
            && w.book.sagas == map[1 := SagaFor(1, StartWatch, 0)]
            && w.front.requests == [Subs.Asked(1, StartWatch, REPO)]
            && w.front.subs == map[Subscriber() := Subs.Sub(true, 1, "")]
            && Queue(w.toHandle, REPO) == []
            && Queue(w.toApply, REPO) == [Command(1, SagaFor(1, StartWatch, 0), 0)]
            && w.scanner.watchlist == map[]
  {
    steps := OneMore([], Change(Front.Save(Subscriber(), 1, "")));
    assert Subs.ConfirmedOf(Run(Init(0), steps).front.subs, REPO) == {};
    steps := OneMore(steps, Change(Front.ConfirmAndAsk(Subscriber(), 1)));
    steps := OneMore(steps, Handle(REPO));
  }

  /** Half a minute later the subscriber has gone. */
  lemma ReachGone() returns (steps: seq<Step>)
    ensures Possible(Init(0), steps) && Serial(steps)
    ensures var w := Run(Init(0), steps);
            && w.now == 30 * SECOND && w.newest == map[REPO := 1]
            && w.book.sagas == map[1 := SagaFor(1, StartWatch, 0)]
            && w.front.subs == map[]
            && Queue(w.toHandle, REPO) == [Subs.Asked(2, StopWatch, REPO)]
            && Queue(w.toApply, REPO) == [Command(1, SagaFor(1, StartWatch, 0), 0)]
            && w.scanner.watchlist == map[]
  {
    steps := ReachStarted();
    steps := OneMore(steps, Tick(30 * SECOND));
    var w := Run(Init(0), steps);
    assert Subs.Removed(w.front.subs, Subscriber()) == map[];
    assert Subs.ConfirmedOf(map[], REPO) == {};
    assert w.front.requests[0].id == 1;
    steps := OneMore(steps, Change(Front.Unsubscribe(Subscriber(), 2)));
  }

  /** The stop is handled, and the scanner has applied nothing yet. */
  lemma ReachStopped() returns (steps: seq<Step>)
    ensures Possible(Init(0), steps) && Serial(steps)
    ensures var w := Run(Init(0), steps);
            && w.now == 30 * SECOND && w.book.sagas == BothSagas()
            && w.front.subs == map[]
            && Queue(w.toHandle, REPO) == []
            && Queue(w.toApply, REPO)
               == [Command(1, SagaFor(1, StartWatch, 0), 0),
                   Command(2, SagaFor(2, StopWatch, 30 * SECOND), 30 * SECOND)]
            && w.scanner.watchlist == map[]
  {
    steps := ReachGone();
    steps := OneMore(steps, Handle(REPO));
  }

  function BothSagas(): map<SagaId, Instance> {
    map[1 := SagaFor(1, StartWatch, 0), 2 := SagaFor(2, StopWatch, 30 * SECOND)]
  }

  lemma OnlyTheStartIsDue()
    ensures IsBatch(DueKeys(BothSagas(), MINUTE), EffectiveLimit(0), [1])
    ensures SupportedRows(BothSagas()) && 1 in BothSagas()
    ensures Resent(BothSagas(), [1], MINUTE) == [Command(1, SagaFor(1, StartWatch, 0), MINUTE)]
  {
    assert DueKeys(BothSagas(), MINUTE) == map[1 := SortKey(MINUTE, 0, 0)];
    assert [1][..0] == [];
  }

  lemma RoutedOne(queues: Queues<WatchCommand>, c: WatchCommand)
    ensures Queue(RoutedAll(queues, [c]), c.repo) == Queue(queues, c.repo) + [c]
  {
    RoutedAllQueue(queues, [c], c.repo);
    assert [c] == [] + [c];
    OfRepoAppend([], c, c.repo);
  }

  lemma ResendWhenDue(w: World)
    requires w.now == MINUTE && w.book.sagas == BothSagas()
    ensures Enabled(w, Sweep(0, [1]))
    ensures var next := Next(w, Sweep(0, [1]));
            && next.front == w.front && next.scanner == w.scanner && next.toHandle == w.toHandle
            && Queue(next.toApply, REPO) == Queue(w.toApply, REPO) + [Command(1, SagaFor(1, StartWatch, 0), MINUTE)]
  {
    OnlyTheStartIsDue();
    RoutedOne(w.toApply, Command(1, SagaFor(1, StartWatch, 0), MINUTE));
  }

  /** A minute after the start was sent its ack has not come, so the sweep sends it again. */
  lemma ReachResent() returns (steps: seq<Step>)
    ensures Possible(Init(0), steps) && Serial(steps)
    ensures var w := Run(Init(0), steps);
            && w.front.subs == map[] && w.scanner.watchlist == map[]
            && Queue(w.toHandle, REPO) == []
            && Queue(w.toApply, REPO) == [Command(1, SagaFor(1, StartWatch, 0), 0),
                                          Command(2, SagaFor(2, StopWatch, 30 * SECOND), 30 * SECOND),
                                          Command(1, SagaFor(1, StartWatch, 0), MINUTE)]
  {
    steps := ReachStopped();
    steps := OneMore(steps, Tick(MINUTE));
    ResendWhenDue(Run(Init(0), steps));
    steps := OneMore(steps, Sweep(0, [1]));
  }

  /**
   Everything arrived once and in order, nothing is on its way, nobody is subscribed, and the scanner goes on
   watching.
   */
  lemma StaleResendStays() returns (steps: seq<Step>)
    ensures Possible(Init(0), steps) && Serial(steps)
    ensures var w := Run(Init(0), steps);
            && Drained(w, REPO) && REPO in w.scanner.watchlist && w.front.subs == map[]
            && LeftStale(0, steps, REPO)
  {
    steps := ReachResent();
    steps := OneMore(steps, Apply(REPO));
    steps := OneMore(steps, Apply(REPO));
    steps := OneMore(steps, Apply(REPO));
    DrainedIffNotStale(0, steps, REPO);
  }
}
