/** The subscription table of subscription-api: subscribe with compensation, confirm, unsubscribe. */
module Subscriptions {

  import opened Wrappers
  import opened Contracts

  type Email = string
  type Token = nat

  /** UNIQUE (email, repo). */
  datatype Pair = Pair(email: Email, repo: Repo)

  datatype Sub = Sub(confirmed: bool, token: Token, lastSeenTag: string)

  type Table = map<Pair, Sub>

  /** What a saga request in the outbox says: `id` is its event id and saga id, `action` what the scanner shall do. */
  datatype Asked = Asked(id: SagaId, action: Action, repo: Repo)

  // ---- One function for each statement ----

  /** INSERT ... ON CONFLICT (email, repo) DO UPDATE SET last_seen_tag: the stored token and confirmation stay. */
  function Saved(t: Table, p: Pair, token: Token, tag: string): Table {
    t[p := if p in t then t[p].(lastSeenTag := tag) else Sub(false, token, tag)]
  }

  predicate Compensable(t: Table, p: Pair, token: Token) {
    p in t && t[p].token == token && !t[p].confirmed
  }

  function Removed(t: Table, p: Pair): Table {
    map q | q in t && q != p :: t[q]
  }

  function Compensated(t: Table, p: Pair, token: Token): Table {
    if Compensable(t, p, token) then Removed(t, p) else t
  }

  function ConfirmedOf(t: Table, repo: Repo): set<Pair> {
    set p | p in t && p.repo == repo && t[p].confirmed
  }

  /** The unique index on the token. */
  ghost predicate TokensUnique(t: Table) {
    forall p, q | p in t && q in t && t[p].token == t[q].token :: p == q
  }

  ghost predicate Holds(t: Table, p: Pair, token: Token) {
    p in t && t[p].token == token
  }

  ghost predicate Known(t: Table, token: Token) {
    exists p :: Holds(t, p, token)
  }

  function Confirmed(t: Table, p: Pair): Table
    requires p in t
  {
    t[p := t[p].(confirmed := true)]
  }

  /** wasFirstConfirmed: the row was unconfirmed and no other row of the repo is confirmed. */
  predicate IsFirst(t: Table, p: Pair)
    requires p in t
  {
    !t[p].confirmed && |ConfirmedOf(t, p.repo)| == 0
  }

  /** Whether unsubscribing a pair asks the scanner to stop: it was confirmed, and the last one. */
  predicate IsLast(t: Table, p: Pair)
    requires p in t
  {
    t[p].confirmed && |ConfirmedOf(Removed(t, p), p.repo)| == 0
  }

  lemma NobodyConfirmed(t: Table, repo: Repo)
    ensures |ConfirmedOf(t, repo)| == 0 <==> forall p | p in t && p.repo == repo :: !t[p].confirmed
  {
    if forall p | p in t && p.repo == repo :: !t[p].confirmed {
      assert ConfirmedOf(t, repo) == {};
    }
    if |ConfirmedOf(t, repo)| == 0 {
      forall p | p in t && p.repo == repo ensures !t[p].confirmed {
        assert p !in ConfirmedOf(t, repo);
      }
    }
  }

  // ---- The services ----

  datatype GitHubAnswer = Exists | NotFound | RateLimited | Unavailable

  datatype Problem =
    | AlreadySubscribed
    | RepoNotFound
    | GitHubRateLimit
    | GitHubUnavailable
    | TokenNotFound
    | ConfirmationUnavailable(compensated: bool)
    | Database

  function ValidateRepo(answer: GitHubAnswer): Outcome<Problem> {
    match answer
    case Exists => Ok
    case NotFound => Err(RepoNotFound)
    case RateLimited => Err(GitHubRateLimit)
    case Unavailable => Err(GitHubUnavailable)
  }

  /** How a transaction that begins by selecting the row of a token goes; a failed select reads as an unknown token. */
  datatype Fate = BeginFails | SelectFails | RollsBack | Commits

  datatype ConfirmResult = ConfirmResult(pair: Pair, wasFirstConfirmed: bool)

  class Store {
    var subs: Table
    var requests: seq<Asked>

    ghost predicate Valid()
      reads this
    {
      TokensUnique(subs)
    }

    constructor ()
      ensures Valid() && subs == map[] && requests == []
    {
      subs, requests := map[], [];
    }

    method FindByToken(token: Token, selects: bool) returns (found: Option<Pair>)
      ensures found.Some? ==> selects && Holds(subs, found.value, token)
      ensures found.None? ==> !selects || !Known(subs, token)
    {
      if !selects {
        return None;
      }
      if p :| p in subs && subs[p].token == token {
        return Some(p);
      }
      return None;
    }

    method SaveSubscription(p: Pair, token: Token, tag: string, commits: bool) returns (ok: bool)
      requires Valid() && !Known(subs, token)
      modifies this`subs
      ensures Valid() && ok == commits
      ensures subs == if commits then Saved(old(subs), p, token, tag) else old(subs)
      ensures commits ==>
                subs == old(subs)[p := if p in old(subs) then Sub(old(subs)[p].confirmed, old(subs)[p].token, tag)
                                       else Sub(false, token, tag)]
    {
      if !commits {
        return false;
      }
      if p in subs {
        subs := subs[p := subs[p].(lastSeenTag := tag)];
      } else {
        assert forall q | q in subs :: !Holds(subs, q, token);
        subs := subs[p := Sub(false, token, tag)];
      }
      return true;
    }

    /** Succeeds only when it deleted a row. */
    method DeleteUnconfirmedSubscription(p: Pair, token: Token, commits: bool) returns (ok: bool)
      requires Valid()
      modifies this`subs
      ensures Valid()
      ensures ok == (commits && p in old(subs) && old(subs)[p].token == token && !old(subs)[p].confirmed)
      ensures subs == if ok then old(subs) - {p} else old(subs)
      ensures subs == if commits then Compensated(old(subs), p, token) else old(subs)
    {
      if !commits || p !in subs || subs[p].token != token || subs[p].confirmed {
        return false;
      }
      subs := map q | q in subs && q != p :: subs[q];
      return true;
    }

    method ConfirmByToken(token: Token, fate: Fate) returns (r: Result<ConfirmResult, Problem>)
      requires Valid()
      modifies this`subs
      ensures Valid()
      ensures r.Success? <==> fate.Commits? && Known(old(subs), token)
      ensures r.Success? ==>
                var p := r.value.pair;
                && Holds(old(subs), p, token)
                && subs == Confirmed(old(subs), p)
                && r.value.wasFirstConfirmed == IsFirst(old(subs), p)
                && subs == old(subs)[p := Sub(true, token, old(subs)[p].lastSeenTag)]
                && (r.value.wasFirstConfirmed
                    <==> forall q | q in old(subs) && q.repo == p.repo :: !old(subs)[q].confirmed)
      ensures r.Failure? ==> subs == old(subs)
      ensures r == Failure(TokenNotFound) <==> fate.SelectFails? || (!fate.BeginFails? && !Known(old(subs), token))
      ensures r == Failure(Database) <==> fate.BeginFails? || (fate.RollsBack? && Known(old(subs), token))
    {
      if fate.BeginFails? {
        return Failure(Database);
      }
      var found := FindByToken(token, !fate.SelectFails?);
      if found.None? {
        return Failure(TokenNotFound);
      }
      var p := found.value;
      assert Holds(subs, p, token);
      var wasConfirmed := subs[p].confirmed;
      var confirmedBefore := |ConfirmedOf(subs, p.repo)|;
      NobodyConfirmed(subs, p.repo);
      if fate.RollsBack? {
        return Failure(Database);
      }
      subs := subs[p := subs[p].(confirmed := true)];
      return Success(ConfirmResult(p, !wasConfirmed && confirmedBefore == 0));
    }

    method RequestRepoWatchSaga(id: SagaId, action: Action, repo: Repo, commits: bool) returns (ok: bool)
      modifies this`requests
      ensures ok == commits
      ensures requests == if commits then old(requests) + [Asked(id, action, repo)] else old(requests)
    {
      if commits {
        requests := requests + [Asked(id, action, repo)];
      }
      return commits;
    }

    method Unsubscribe(token: Token, id: SagaId, fate: Fate) returns (r: Outcome<Problem>, ghost pair: Option<Pair>)
      requires Valid()
      modifies this
      ensures Valid()
      ensures r.Ok? <==> fate.Commits? && Known(old(subs), token)
      ensures r.Ok? ==>
                && pair.Some? && Holds(old(subs), pair.value, token)
                && subs == Removed(old(subs), pair.value)
                && subs == old(subs) - {pair.value}
                && var p, last := pair.value, IsLast(old(subs), pair.value);
                   && requests == old(requests) + (if last then [Asked(id, StopWatch, p.repo)] else [])
                   && (last <==> forall q | q in old(subs) && q.repo == p.repo :: old(subs)[q].confirmed <==> q == p)
      ensures r.Err? ==> subs == old(subs) && requests == old(requests)
      ensures r == Err(TokenNotFound) <==> fate.SelectFails? || (!fate.BeginFails? && !Known(old(subs), token))
      ensures r == Err(Database) <==> fate.BeginFails? || (fate.RollsBack? && Known(old(subs), token))
    {
      pair := None;
      if fate.BeginFails? {
        return Err(Database), pair;
      }
      var found := FindByToken(token, !fate.SelectFails?);
      pair := found;
      if found.None? {
        return Err(TokenNotFound), pair;
      }
      var p := found.value;
      assert Holds(subs, p, token);
      if fate.RollsBack? {
        return Err(Database), pair;
      }
      var wasConfirmed := subs[p].confirmed;
      subs := map q | q in subs && q != p :: subs[q];
      if wasConfirmed {
        var confirmedAfter := |ConfirmedOf(subs, p.repo)|;
        NobodyConfirmed(subs, p.repo);
        if confirmedAfter == 0 {
          requests := requests + [Asked(id, StopWatch, p.repo)];
        }
      }
      return Ok, pair;
    }

    /** SELECT DISTINCT email: every confirmed subscriber of the repo once, in any order. */
    method GetSubscribers(repo: Repo) returns (emails: seq<Email>)
      ensures forall i, j :: 0 <= i < j < |emails| ==> emails[i] != emails[j]
      ensures forall e :: e in emails <==> Pair(e, repo) in subs && subs[Pair(e, repo)].confirmed
    {
      emails := [];
      var left := ConfirmedOf(subs, repo);
      while left != {}
        invariant left <= ConfirmedOf(subs, repo)
        invariant forall i, j :: 0 <= i < j < |emails| ==> emails[i] != emails[j]
        invariant forall e :: e in emails <==> Pair(e, repo) in ConfirmedOf(subs, repo) - left
        decreases |left|
      {
        var p :| p in left;
        emails := emails + [p.email];
        left := left - {p};
      }
    }

    /**
     Subscribe: the row is saved, the confirmation sent, and the row deleted again when the sending failed.
     `token` is fresh. Without interference between the two transactions a failed call leaves the table as it was,
     unless the compensation itself does not commit.
     */
    method Subscribe(
      p: Pair, token: Token, checks: bool, answer: GitHubAnswer, tag: Option<string>, saves: bool, sends: bool,
          compensates: bool)
      returns (r: Outcome<Problem>)
      requires Valid() && !Known(subs, token)
      modifies this`subs
      ensures Valid()
      ensures !checks ==> r == Err(Database)
      ensures checks && p in old(subs) ==> r == Err(AlreadySubscribed)
      ensures checks && p !in old(subs) && answer == NotFound ==> r == Err(RepoNotFound)
      ensures checks && p !in old(subs) && answer == RateLimited ==> r == Err(GitHubRateLimit)
      ensures checks && p !in old(subs) && answer == Unavailable ==> r == Err(GitHubUnavailable)
      ensures checks && p !in old(subs) && answer == Exists ==>
                r == if !saves then Err(Database)
                     else if sends then Ok
                     else Err(ConfirmationUnavailable(compensates))
      ensures subs == if r.Ok? || r == Err(ConfirmationUnavailable(false))
                      then old(subs)[p := Sub(false, token, if tag.Some? then tag.value else "")]
                      else old(subs)
    {
      if !checks {
        return Err(Database);
      }
      if p in subs {
        return Err(AlreadySubscribed);
      }
      var valid := ValidateRepo(answer);
      if valid.Err? {
        return valid;
      }
      var initialTag := if tag.Some? then tag.value else "";
      var saved := SaveSubscription(p, token, initialTag, saves);
      if !saved {
        return Err(Database);
      }
      if !sends {
        var compensated := DeleteUnconfirmedSubscription(p, token, compensates);
        return Err(ConfirmationUnavailable(compensated));
      }
      return Ok;
    }

    /**
     Two transactions: the confirmation, and the request that starts the watch of a repo confirmed for the first time.
     */
    method ConfirmSubscriptionByToken(token: Token, id: SagaId, fate: Fate, asks: bool) returns (r: Outcome<Problem>)
      requires Valid()
      modifies this
      ensures Valid()
      ensures !(fate.Commits? && Known(old(subs), token)) ==>
                && subs == old(subs) && requests == old(requests)
                && r.Err?
                && (r.error == TokenNotFound <==> fate.SelectFails? || (!fate.BeginFails? && !Known(old(subs), token)))
                && (r.error == Database <==> fate.BeginFails? || (fate.RollsBack? && Known(old(subs), token)))
      ensures fate.Commits? && Known(old(subs), token) ==>
                exists p :: && Holds(old(subs), p, token)
                            && subs == Confirmed(old(subs), p)
                            && r == (if !IsFirst(old(subs), p) || asks then Ok else Err(Database))
                            && requests == if IsFirst(old(subs), p) && asks
                                           then old(requests) + [Asked(id, StartWatch, p.repo)]
                                           else old(requests)
    {
      var result := ConfirmByToken(token, fate);
      if result.Failure? {
        return Err(result.error);
      }
      assert Holds(old(subs), result.value.pair, token);
      if !result.value.wasFirstConfirmed {
        return Ok;
      }
      var asked := RequestRepoWatchSaga(id, StartWatch, result.value.pair.repo, asks);
      return if asked then Ok else Err(Database);
    }
  }
}
