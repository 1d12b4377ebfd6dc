/**
 Runs of the subscription service's transactions in any interleaving. Confirming and asking for the start of a watch
 are two transactions; in between the process may serve other requests, or die and never ask.
 */
module SubscriptionRuns {

  import opened Contracts
  import opened Subscriptions

  datatype World = World(
    subs: Table,
    requests: seq<Asked>,
    owners: map<Token, Pair>,   // history: the pair each saved token was generated for
    pending: multiset<Repo>,    // repos confirmed for the first time whose start is still to be asked for
    lost: multiset<Repo>)       // history: starts that were never asked for

  datatype Step =
    | Save(pair: Pair, token: Token, tag: string)
    | Compensate(pair: Pair, token: Token)
    | Confirm(pair: Pair)
    | AskStart(repo: Repo, id: SagaId)
    | LoseStart(repo: Repo)
    | ConfirmAndAsk(pair: Pair, id: SagaId)      // both transactions with nothing in between
    | Unsubscribe(pair: Pair, id: SagaId)

  function Init(): World {
    World(map[], [], map[], multiset{}, multiset{})
  }

  /** Tokens are fresh UUIDs; a call compensates only what its own Save was about; a token names at most one row. */
  predicate Enabled(w: World, s: Step) {
    match s
    case Save(_, token, _) => token !in w.owners
    case Compensate(p, token) => token in w.owners && w.owners[token] == p
    case Confirm(p) => p in w.subs
    case AskStart(repo, _) => repo in w.pending
    case LoseStart(repo) => repo in w.pending
    case ConfirmAndAsk(p, _) => p in w.subs
    case Unsubscribe(p, _) => p in w.subs
  }

  function Next(w: World, s: Step): World
    requires Enabled(w, s)
  {
    match s
    case Save(p, token, tag) => w.(subs := Saved(w.subs, p, token, tag), owners := w.owners[token := p])
    case Compensate(p, token) => w.(subs := Compensated(w.subs, p, token))
    case Confirm(p) =>
      w.(subs := Confirmed(w.subs, p),
         pending := if IsFirst(w.subs, p) then w.pending + multiset{p.repo} else w.pending)
    case AskStart(repo, id) =>
      w.(requests := w.requests + [Asked(id, StartWatch, repo)], pending := w.pending - multiset{repo})
    case LoseStart(repo) =>
      w.(pending := w.pending - multiset{repo}, lost := w.lost + multiset{repo})
    case ConfirmAndAsk(p, id) =>
      w.(subs := Confirmed(w.subs, p),
         requests := if IsFirst(w.subs, p) then w.requests + [Asked(id, StartWatch, p.repo)] else w.requests)
    case Unsubscribe(p, id) =>
      w.(subs := Removed(w.subs, p),
         requests := if IsLast(w.subs, p) then w.requests + [Asked(id, StopWatch, p.repo)] else w.requests)
  }

  ghost predicate Possible(w: World, steps: seq<Step>)
    decreases |steps|
  {
    steps == [] || (Enabled(w, steps[0]) && Possible(Next(w, steps[0]), steps[1..]))
  }

  ghost function Run(w: World, steps: seq<Step>): World
    requires Possible(w, steps)
    decreases |steps|
  {
    if steps == [] then w else Run(Next(w, steps[0]), steps[1..])
  }

  // ---- Who is confirmed ----

  predicate HasConfirmed(t: Table, repo: Repo) {
    ConfirmedOf(t, repo) != {}
  }

  lemma SavingConfirmsNobody(t: Table, p: Pair, token: Token, tag: string, repo: Repo)
    ensures ConfirmedOf(Saved(t, p, token, tag), repo) == ConfirmedOf(t, repo)
    ensures ConfirmedOf(Compensated(t, p, token), repo) == ConfirmedOf(t, repo)
  {
  }

  lemma ConfirmingConfirms(t: Table, p: Pair, repo: Repo)
    requires p in t
    ensures HasConfirmed(Confirmed(t, p), repo) == (HasConfirmed(t, repo) || repo == p.repo)
    ensures IsFirst(t, p) == !HasConfirmed(t, p.repo)
  {
    assert ConfirmedOf(Confirmed(t, p), repo) == ConfirmedOf(t, repo) + (if repo == p.repo then {p} else {});
    if t[p].confirmed {
      assert p in ConfirmedOf(t, p.repo);
    }
  }

  lemma RemovingUnconfirms(t: Table, p: Pair, repo: Repo)
    requires p in t
    ensures HasConfirmed(Removed(t, p), repo) == (HasConfirmed(t, repo) && !(repo == p.repo && IsLast(t, p)))
    ensures IsLast(t, p) ==> HasConfirmed(t, p.repo)
  {
    assert ConfirmedOf(Removed(t, p), repo) == ConfirmedOf(t, repo) - {p};
    if t[p].confirmed {
      assert p in ConfirmedOf(t, p.repo);
    }
  }

  // ---- The balance of starts and stops, in every run ----

  function ActionsFor(requests: seq<Asked>, repo: Repo): seq<Action> {
    if requests == [] then []
    else
      var last := requests[|requests| - 1];
      ActionsFor(requests[..|requests| - 1], repo) + (if last.repo == repo then [last.action] else [])
  }

  lemma ActionsForAppend(requests: seq<Asked>, a: Asked, repo: Repo)
    ensures ActionsFor(requests + [a], repo) == ActionsFor(requests, repo) + (if a.repo == repo then [a.action] else [])
  {
    assert (requests + [a])[..|requests|] == requests;
  }

  function Starts(requests: seq<Asked>, repo: Repo): nat {
    multiset(ActionsFor(requests, repo))[StartWatch]
  }

  function Stops(requests: seq<Asked>, repo: Repo): nat {
    multiset(ActionsFor(requests, repo))[StopWatch]
  }

  lemma CountsOfAppend(requests: seq<Asked>, a: Asked, repo: Repo)
    ensures Starts(requests + [a], repo)
        == Starts(requests, repo) + (if a.repo == repo && a.action == StartWatch then 1 else 0)
    ensures Stops(requests + [a], repo)
        == Stops(requests, repo) + (if a.repo == repo && a.action == StopWatch then 1 else 0)
  {
    ActionsForAppend(requests, a, repo);
  }

  ghost predicate Balanced(w: World, repo: Repo) {
    Starts(w.requests, repo) + w.pending[repo] + w.lost[repo]
    == Stops(w.requests, repo) + (if HasConfirmed(w.subs, repo) then 1 else 0)
  }

  lemma ConfirmBalances(w: World, s: Step, repo: Repo)
    requires Balanced(w, repo) && Enabled(w, s) && (s.Confirm? || s.ConfirmAndAsk?)
    ensures Balanced(Next(w, s), repo)
  {
    ConfirmingConfirms(w.subs, s.pair, repo);
    if s.ConfirmAndAsk? && IsFirst(w.subs, s.pair) {
      CountsOfAppend(w.requests, Asked(s.id, StartWatch, s.pair.repo), repo);
    }
  }

  lemma UnsubscribeBalances(w: World, s: Step, repo: Repo)
    requires Balanced(w, repo) && Enabled(w, s) && s.Unsubscribe?
    ensures Balanced(Next(w, s), repo)
  {
    RemovingUnconfirms(w.subs, s.pair, repo);
    if IsLast(w.subs, s.pair) {
      CountsOfAppend(w.requests, Asked(s.id, StopWatch, s.pair.repo), repo);
    }
  }

  lemma StepBalances(w: World, s: Step, repo: Repo)
    requires Balanced(w, repo) && Enabled(w, s)
    ensures Balanced(Next(w, s), repo)
  {
    match s {
      case Save(p, token, tag) => SavingConfirmsNobody(w.subs, p, token, tag, repo);
      case Compensate(p, token) => SavingConfirmsNobody(w.subs, p, token, "", repo);
      case Confirm(_) => ConfirmBalances(w, s, repo);
      case AskStart(r, id) => CountsOfAppend(w.requests, Asked(id, StartWatch, r), repo);
      case LoseStart(_) =>
      case ConfirmAndAsk(_, _) => ConfirmBalances(w, s, repo);
      case Unsubscribe(_, _) => UnsubscribeBalances(w, s, repo);
    }
  }

  lemma {:induction false} RunBalances(w: World, steps: seq<Step>, repo: Repo)
    requires Balanced(w, repo) && Possible(w, steps)
    ensures Balanced(Run(w, steps), repo)
    decreases |steps|
  {
    if steps != [] {
      StepBalances(w, steps[0], repo);
      RunBalances(Next(w, steps[0]), steps[1..], repo);
    }
  }

  /**
   Starts minus stops tell whether a repo has a confirmed subscriber exactly when no start is outstanding:
   neither still to be asked for, nor lost to a process that died between the two transactions.
   */
  lemma RequestsTellConfirmed(steps: seq<Step>, repo: Repo)
    requires Possible(Init(), steps)
    ensures var w := Run(Init(), steps);
            && Starts(w.requests, repo) + w.pending[repo] + w.lost[repo]
               == Stops(w.requests, repo) + (if HasConfirmed(w.subs, repo) then 1 else 0)
            && (Starts(w.requests, repo) - Stops(w.requests, repo) == (if HasConfirmed(w.subs, repo) then 1 else 0)
                <==> repo !in w.pending && repo !in w.lost)
  {
    RunBalances(Init(), steps, repo);
  }

  // ---- Alternation, and exactly when it fails ----

  function ActionAt(i: nat): Action {
    if i % 2 == 0 then StartWatch else StopWatch
  }

  ghost predicate Alternating(actions: seq<Action>) {
    forall i | 0 <= i < |actions| :: actions[i] == ActionAt(i)
  }

  /** The starts of a repo that somebody's confirmation called for and that have not been asked for. */
  function Outstanding(w: World, repo: Repo): nat {
    w.pending[repo] + w.lost[repo]
  }

  /** The last confirmed subscriber of the repo leaves while a start of the repo is outstanding. */
  predicate Overtakes(w: World, s: Step, repo: Repo) {
    s.Unsubscribe? && s.pair.repo == repo && s.pair in w.subs && IsLast(w.subs, s.pair) && Outstanding(w, repo) > 0
  }

  ghost predicate NeverOvertaken(w: World, steps: seq<Step>, repo: Repo)
    requires Possible(w, steps)
    decreases |steps|
  {
    steps == [] || (!Overtakes(w, steps[0], repo) && NeverOvertaken(Next(w, steps[0]), steps[1..], repo))
  }

  /** start, stop, start, ... so far; the next is a start unless the repo is confirmed and its start was asked for. */
  ghost predicate InTurn(w: World, repo: Repo) {
    && Alternating(ActionsFor(w.requests, repo))
    && Outstanding(w, repo) <= (if HasConfirmed(w.subs, repo) then 1 else 0)
    && (|ActionsFor(w.requests, repo)| % 2 == 1 <==> HasConfirmed(w.subs, repo) && Outstanding(w, repo) == 0)
  }

  lemma AskedInTurn(w: World, a: Asked, repo: Repo)
    requires Alternating(ActionsFor(w.requests, repo)) && a.repo == repo
    ensures |ActionsFor(w.requests + [a], repo)| == |ActionsFor(w.requests, repo)| + 1
    ensures Alternating(ActionsFor(w.requests + [a], repo)) <==> a.action == ActionAt(|ActionsFor(w.requests, repo)|)
  {
    ActionsForAppend(w.requests, a, repo);
    assert ActionsFor(w.requests + [a], repo)[|ActionsFor(w.requests, repo)|] == a.action;
  }

  lemma AskedElsewhere(w: World, a: Asked, repo: Repo)
    requires a.repo != repo
    ensures ActionsFor(w.requests + [a], repo) == ActionsFor(w.requests, repo)
  {
    ActionsForAppend(w.requests, a, repo);
  }

  lemma ConfirmStaysInTurn(w: World, s: Step, repo: Repo)
    requires InTurn(w, repo) && Enabled(w, s) && (s.Confirm? || s.ConfirmAndAsk?)
    ensures InTurn(Next(w, s), repo)
  {
    ConfirmingConfirms(w.subs, s.pair, repo);
    if s.ConfirmAndAsk? && IsFirst(w.subs, s.pair) {
      if s.pair.repo == repo {
        AskedInTurn(w, Asked(s.id, StartWatch, repo), repo);
      } else {
        AskedElsewhere(w, Asked(s.id, StartWatch, s.pair.repo), repo);
      }
    }
  }

  lemma AskStaysInTurn(w: World, s: Step, repo: Repo)
    requires InTurn(w, repo) && Enabled(w, s) && (s.AskStart? || s.LoseStart?)
    ensures InTurn(Next(w, s), repo)
  {
    if s.AskStart? {
      if s.repo == repo {
        AskedInTurn(w, Asked(s.id, StartWatch, repo), repo);
      } else {
        AskedElsewhere(w, Asked(s.id, StartWatch, s.repo), repo);
      }
    }
  }

  lemma UnsubscribeInTurn(w: World, s: Step, repo: Repo)
    requires InTurn(w, repo) && Enabled(w, s) && s.Unsubscribe?
    ensures !Overtakes(w, s, repo) ==> InTurn(Next(w, s), repo)
    ensures Overtakes(w, s, repo) ==> !Alternating(ActionsFor(Next(w, s).requests, repo))
  {
    RemovingUnconfirms(w.subs, s.pair, repo);
    if IsLast(w.subs, s.pair) {
      if s.pair.repo == repo {
        AskedInTurn(w, Asked(s.id, StopWatch, repo), repo);
      } else {
        AskedElsewhere(w, Asked(s.id, StopWatch, s.pair.repo), repo);
      }
    }
  }

  lemma StepInTurn(w: World, s: Step, repo: Repo)
    requires InTurn(w, repo) && Enabled(w, s)
    ensures !Overtakes(w, s, repo) ==> InTurn(Next(w, s), repo)
    ensures Overtakes(w, s, repo) ==> !Alternating(ActionsFor(Next(w, s).requests, repo))
  {
    match s {
      case Save(p, token, tag) => SavingConfirmsNobody(w.subs, p, token, tag, repo);
      case Compensate(p, token) => SavingConfirmsNobody(w.subs, p, token, "", repo);
      case Unsubscribe(_, _) => UnsubscribeInTurn(w, s, repo);
      case Confirm(_) => ConfirmStaysInTurn(w, s, repo);
      case ConfirmAndAsk(_, _) => ConfirmStaysInTurn(w, s, repo);
      case _ => AskStaysInTurn(w, s, repo);
    }
  }

  lemma ActionsGrow(w: World, s: Step, repo: Repo)
    requires Enabled(w, s)
    ensures ActionsFor(w.requests, repo) <= ActionsFor(Next(w, s).requests, repo)
  {
    if |Next(w, s).requests| > |w.requests| {
      ActionsForAppend(w.requests, Next(w, s).requests[|w.requests|], repo);
    }
  }

  lemma {:induction false} OutOfTurnForGood(w: World, steps: seq<Step>, repo: Repo)
    requires Possible(w, steps) && !Alternating(ActionsFor(w.requests, repo))
    ensures !Alternating(ActionsFor(Run(w, steps).requests, repo))
    decreases |steps|
  {
    if steps != [] {
      ActionsGrow(w, steps[0], repo);
      OutOfTurnForGood(Next(w, steps[0]), steps[1..], repo);
    }
  }

  lemma {:induction false} InTurnUnlessOvertaken(w: World, steps: seq<Step>, repo: Repo)
    requires InTurn(w, repo) && Possible(w, steps)
    ensures Alternating(ActionsFor(Run(w, steps).requests, repo)) <==> NeverOvertaken(w, steps, repo)
    ensures NeverOvertaken(w, steps, repo) ==> InTurn(Run(w, steps), repo)
    decreases |steps|
  {
    if steps != [] {
      StepInTurn(w, steps[0], repo);
      if Overtakes(w, steps[0], repo) {
        OutOfTurnForGood(Next(w, steps[0]), steps[1..], repo);
      } else {
        InTurnUnlessOvertaken(Next(w, steps[0]), steps[1..], repo);
      }
    }
  }

  /**
   In every run the requests of a repo are start, stop, start, ... if and only if its last confirmed subscriber never
   left while a start of it was outstanding. Then they end with a start exactly when the repo has a confirmed
   subscriber and no start is outstanding.
   */
  lemma RequestsAlternateIff(steps: seq<Step>, repo: Repo)
    requires Possible(Init(), steps)
    ensures var w := Run(Init(), steps);
            var actions := ActionsFor(w.requests, repo);
            && (Alternating(actions) <==> NeverOvertaken(Init(), steps, repo))
            && (Alternating(actions) ==>
                  (|actions| % 2 == 1 <==> HasConfirmed(w.subs, repo) && repo !in w.pending && repo !in w.lost))
  {
    InTurnUnlessOvertaken(Init(), steps, repo);
  }

  /** Confirmations and their requests as one step each. */
  ghost predicate Serial(steps: seq<Step>) {
    forall s | s in steps :: !s.Confirm?
  }

  lemma {:induction false} SerialOwesNothing(w: World, steps: seq<Step>, repo: Repo)
    requires Possible(w, steps) && Serial(steps) && w.pending == multiset{} && w.lost == multiset{}
    ensures NeverOvertaken(w, steps, repo)
    ensures Run(w, steps).pending == multiset{} && Run(w, steps).lost == multiset{}
    decreases |steps|
  {
    if steps != [] {
      assert steps[0] in steps;
      SerialOwesNothing(Next(w, steps[0]), steps[1..], repo);
    }
  }

  lemma RequestsAlternate(steps: seq<Step>, repo: Repo)
    requires Possible(Init(), steps) && Serial(steps)
    ensures var w := Run(Init(), steps);
            var actions := ActionsFor(w.requests, repo);
            && (forall i | 0 <= i < |actions| :: actions[i] == if i % 2 == 0 then StartWatch else StopWatch)
            && (|actions| % 2 == 1 <==> HasConfirmed(w.subs, repo))
  {
    SerialOwesNothing(Init(), steps, repo);
    RequestsAlternateIff(steps, repo);
    assert Alternating(ActionsFor(Run(Init(), steps).requests, repo));
  }

  /**
   With an unsubscription between the two transactions, the stop is asked for before the start, and the start comes
   last.
   */
  lemma StopCanOvertakeStart(repo: Repo) returns (steps: seq<Step>)
    ensures Possible(Init(), steps)
    ensures var w := Run(Init(), steps);
            ActionsFor(w.requests, repo) == [StopWatch, StartWatch] && !HasConfirmed(w.subs, repo)
  {
    var p := Pair("a@example.org", repo);
    var s1, s2, s3, s4 := Save(p, 1, ""), Confirm(p), Unsubscribe(p, 7), AskStart(repo, 8);
    var w1 := Next(Init(), s1);
    assert ConfirmedOf(w1.subs, repo) == {};
    var w2 := Next(w1, s2);
    assert ConfirmedOf(Removed(w2.subs, p), repo) == {};
    var w3 := Next(w2, s3);
    var w4 := Next(w3, s4);
    ActionsForAppend([], Asked(7, StopWatch, repo), repo);
    ActionsForAppend(w3.requests, Asked(8, StartWatch, repo), repo);
    RunFirst(w3, s4, []);
    RunFirst(w2, s3, [s4]);
    RunFirst(w1, s2, [s3, s4]);
    RunFirst(Init(), s1, [s2, s3, s4]);
    steps := [s1] + [s2, s3, s4];
    assert [s2] + [s3, s4] == [s2, s3, s4] && [s3] + [s4] == [s3, s4] && [s4] + [] == [s4];
  }

  lemma RunFirst(w: World, s: Step, rest: seq<Step>)
    requires Enabled(w, s) && Possible(Next(w, s), rest)
    ensures Possible(w, [s] + rest) && Run(w, [s] + rest) == Run(Next(w, s), rest)
  {
    assert ([s] + rest)[1..] == rest;
  }

  // ---- Compensation ----

  /** Each stored token was generated for the row that holds it. */
  ghost predicate TokensOwned(w: World) {
    && (forall p | p in w.subs :: w.subs[p].token in w.owners && w.owners[w.subs[p].token] == p)
    && TokensUnique(w.subs)
  }

  lemma RowStaysOwned(w: World, s: Step, p: Pair)
    requires TokensOwned(w) && Enabled(w, s) && p in Next(w, s).subs
    ensures var t := Next(w, s).subs[p].token; t in Next(w, s).owners && Next(w, s).owners[t] == p
  {
  }

  lemma StepOwnsTokens(w: World, s: Step)
    requires TokensOwned(w) && Enabled(w, s)
    ensures TokensOwned(Next(w, s))
  {
    forall p | p in Next(w, s).subs {
      RowStaysOwned(w, s, p);
    }
  }

  lemma {:induction false} RunOwnsTokens(w: World, steps: seq<Step>)
    requires TokensOwned(w) && Possible(w, steps)
    ensures TokensOwned(Run(w, steps))
    decreases |steps|
  {
    if steps != [] {
      StepOwnsTokens(w, steps[0]);
      RunOwnsTokens(Next(w, steps[0]), steps[1..]);
    }
  }

  /** Compensation takes away at most the unconfirmed row that this very call inserted, whatever happened in between. */
  lemma CompensationIsHarmless(steps: seq<Step>, s: Step)
    requires Possible(Init(), steps) && Enabled(Run(Init(), steps), s) && s.Compensate?
    ensures var w := Run(Init(), steps);
            && TokensUnique(w.subs)
            && (forall p | p in w.subs && (p != s.pair || w.subs[p].confirmed || w.subs[p].token != s.token) ::
                  p in Next(w, s).subs && Next(w, s).subs[p] == w.subs[p])
            && (forall p | p in w.subs && w.subs[p].token == s.token && !w.subs[p].confirmed ::
                p == s.pair && p !in Next(w, s).subs)
            && Next(w, s).subs.Keys <= w.subs.Keys
  {
    RunOwnsTokens(Init(), steps);
  }
}
