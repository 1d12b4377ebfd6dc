/** What the watchlist holds in every run of the saga, and why retries can leave it behind the subscriptions. */
module WatchlistDrift {

  import opened Wrappers
  import opened Clock
  import opened Contracts
  import opened Batches
  import opened WatchSaga
  import opened SagaProtocol
  import opened SagaBudget
  import Scanner

  /** The action of the last command applied for a repo. */
  function LastApplied(applied: seq<WatchCommand>, repo: Repo): Option<Action> {
    if applied == [] then None
    else
      var last := applied[|applied| - 1];
      if last.repo == repo then Some(last.action) else LastApplied(applied[..|applied| - 1], repo)
  }

  lemma LastAppliedOfAppend(applied: seq<WatchCommand>, c: WatchCommand, repo: Repo)
    ensures LastApplied(applied + [c], repo) == if c.repo == repo then Some(c.action) else LastApplied(applied, repo)
  {
    assert (applied + [c])[..|applied|] == applied;
  }

  ghost predicate FollowsLastApplied(w: World) {
    forall repo :: repo in w.scanner.watchlist <==> LastApplied(w.applied, repo) == Some(StartWatch)
  }

  lemma StepFollows(w: World, s: Step)
    requires Agreement(w) && FollowsLastApplied(w) && Enabled(w, s)
    ensures FollowsLastApplied(Next(w, s))
  {
    if s.DeliverCommand? {
      var c := w.book.commands[s.index];
      AcceptedCommand(w, c);
      forall repo ensures repo in Next(w, s).scanner.watchlist
          <==> LastApplied(Next(w, s).applied, repo) == Some(StartWatch) {
        LastAppliedOfAppend(w.applied, c, repo);
      }
    }
  }

  lemma {:induction false} RunFollows(w: World, steps: seq<Step>)
    requires Inv(w) && FollowsLastApplied(w) && Possible(w, steps)
    ensures FollowsLastApplied(Run(w, steps))
    decreases |steps|
  {
    if steps != [] {
      StepFollows(w, steps[0]);
      InvStep(w, steps[0]);
      RunFollows(Next(w, steps[0]), steps[1..]);
    }
  }

  /**
   In every run, under any duplication, reordering, failure and retry, the scanner watches a repo exactly when
   the last command applied for it was a start. So the watchlist meets what the last request asked for
   exactly when the last command applied for the repo has that request's action.
   */
  lemma WatchedIffLastAppliedStarts(start: Time, steps: seq<Step>, repo: Repo)
    requires Possible(Init(start), steps)
    ensures repo in Run(Init(start), steps).scanner.watchlist
            <==> LastApplied(Run(Init(start), steps).applied, repo) == Some(StartWatch)
  {
    RunFollows(Init(start), steps);
  }

  /** A saga for one repo, with its first command sent at the time of its creation. */
  function FirstSent(action: Action, created: Time): Instance {
    NewInstance(Request(0, action, "o/r", ""), created)
  }

  /**
   The start was asked for and sent at 0, the stop half a minute later; no ack has come in by the end of the minute.
   */
  function Unacknowledged(): World {
    var start, stop := FirstSent(StartWatch, 0), FirstSent(StopWatch, 30 * SECOND);
    World(MINUTE,
          map[1 := Request(1, StartWatch, "o/r", ""), 2 := Request(2, StopWatch, "o/r", "")],
          Book(map[1 := start, 2 := stop], [Command(1, start, 0), Command(2, stop, 30 * SECOND)]),
          Scanner.Tables(map[], {}, [], []), [], {})
  }

  lemma ReachUnacknowledged() returns (steps: seq<Step>)
    ensures Possible(Init(0), steps) && Run(Init(0), steps) == Unacknowledged()
  {
    steps := [];
    RunThen(Init(0), steps, Ask(1, StartWatch, "o/r", ""));
    steps := steps + [Ask(1, StartWatch, "o/r", "")];
    RunThen(Init(0), steps, DeliverRequest(1));
    steps := steps + [DeliverRequest(1)];
    RunThen(Init(0), steps, Tick(30 * SECOND));
    steps := steps + [Tick(30 * SECOND)];
    RunThen(Init(0), steps, Ask(2, StopWatch, "o/r", ""));
    steps := steps + [Ask(2, StopWatch, "o/r", "")];
    RunThen(Init(0), steps, DeliverRequest(2));
    steps := steps + [DeliverRequest(2)];
    RunThen(Init(0), steps, Tick(MINUTE));
    steps := steps + [Tick(MINUTE)];
  }

  /** The sweep sends the start again. */
  function Resend(): Step {
    Sweep(0, [1])
  }

  lemma ResendIsDue()
    ensures Enabled(Unacknowledged(), Resend())
    ensures Next(Unacknowledged(), Resend()).book.commands
            == Unacknowledged().book.commands + [Command(1, FirstSent(StartWatch, 0), MINUTE)]
    ensures Next(Unacknowledged(), Resend()).scanner == Unacknowledged().scanner
    ensures Next(Unacknowledged(), Resend()).applied == []
    ensures Next(Unacknowledged(), Resend()).requests == Unacknowledged().requests
  {
    var sagas := Unacknowledged().book.sagas;
    assert sagas[1].Due(MINUTE) && !sagas[2].Due(MINUTE);
    assert DueKeys(sagas, MINUTE) == map[1 := SortKey(MINUTE, 0, 0)];
    assert Resent(sagas, [1], MINUTE) == [Command(1, sagas[1], MINUTE)] by {
      assert [1][..0] == [];
    }
  }

  /** One more command is delivered to the scanner and applied. */
  lemma Deliver(steps: seq<Step>, i: nat) returns (more: seq<Step>)
    requires Possible(Init(0), steps)
    requires i < |Run(Init(0), steps).book.commands| && Scanner.AcceptsCommand(Run(Init(0), steps).book.commands[i])
    ensures Possible(Init(0), more)
    ensures var w, c, after := Run(Init(0), steps), Run(Init(0), steps).book.commands[i], Run(Init(0), more);
            && after.book == w.book && after.requests == w.requests && after.applied == w.applied + [c]
            && (c.action == StartWatch ==> c.repo in after.scanner.watchlist)
  {
    RunThen(Init(0), steps, DeliverCommand(i, None));
    more := steps + [DeliverCommand(i, None)];
  }

  /**
   A start whose ack is late is sent again a minute after it was first sent. When its repo was given up in between,
   the repeated start follows the stop in the commands, and even if every command is applied once and in order
   the scanner goes on watching.
   */
  lemma RetriedStartOutlivesStop() returns (steps: seq<Step>)
    ensures Possible(Init(0), steps)
    ensures var w := Run(Init(0), steps);
            && "o/r" in w.scanner.watchlist
            && w.applied == w.book.commands
            && |w.applied| == 3
            && w.applied[0].action == StartWatch && w.applied[1].action == StopWatch
            && w.applied[2].action == StartWatch
            && w.applied[0].sagaId == w.applied[2].sagaId == Uuid(1) && w.applied[1].sagaId == Uuid(2)
            && w.requests.Keys == {1, 2} && w.requests[2].action == StopWatch
  {
    steps := ReachUnacknowledged();
    ResendIsDue();
    RunThen(Init(0), steps, Resend());
    steps := steps + [Resend()];
    steps := Deliver(steps, 0);
    steps := Deliver(steps, 1);
    steps := Deliver(steps, 2);
  }
}
