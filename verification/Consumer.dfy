/** The Kafka consumer: fetch, handle, dead-letter, commit, over any number of restarts. */
module Consumer {

  import opened Wrappers
  import opened KafkaErrors

  type Offset = nat

  /** What ends a handler call. */
  datatype Verdict = Returned(err: Option<Error>) | Died

  datatype CommitFate =
    | Acked     // stored, no error
    | Lost      // not stored: an error, or the process died
    | AckLost   // stored, but the consumer got an error

  /** The fate of one round of the loop. */
  datatype Round =
    | FetchFails(canceled: bool)
    | Fetched(verdict: Verdict, canceled: bool, deadLettered: bool, commit: CommitFate)

  /** What happened at the broker and in the handler, in order. */
  datatype Event =
    | Called(offset: Offset)
    | Succeeded(offset: Offset)
    | Refused(offset: Offset, err: Error)
    | DeadLettered(offset: Offset)
    | Stored(offset: Offset)

  /** One partition's consumer group: the number of committed messages, and the history. */
  datatype Group = Group(committed: Offset, trace: seq<Event>)

  datatype Exit = StoppedCleanly | FetchError | HandlerError(err: Error) | DeadLetterError | CommitError | Crashed

  function Commit(g: Group, o: Offset, fate: CommitFate): Group {
    if fate == Lost then g else Group(o + 1, g.trace + [Stored(o)])
  }

  /** One round at the first uncommitted offset: the group afterwards, and the exit if the loop ends. */
  function AfterRound(g: Group, round: Round, hasDeadLetter: bool): (Group, Option<Exit>) {
    var o := g.committed;
    match round
    case FetchFails(canceled) => (g, Some(if canceled then StoppedCleanly else FetchError))
    case Fetched(verdict, canceled, deadLettered, commit) =>
      var called := g.(trace := g.trace + [Called(o)]);
      match verdict
      case Died => (called, Some(Crashed))
      case Returned(None) =>
        var done := called.(trace := called.trace + [Succeeded(o)]);
        (Commit(done, o, commit), if commit == Acked then None else Some(CommitError))
      case Returned(Some(e)) =>
        var refused := called.(trace := called.trace + [Refused(o, e)]);
        if canceled then (refused, Some(StoppedCleanly))
        else if !Is(e, NonRetryable) then (refused, Some(HandlerError(e)))
        else if hasDeadLetter && !deadLettered then (refused, Some(DeadLetterError))
        else
          var kept := if hasDeadLetter then refused.(trace := refused.trace + [DeadLettered(o)]) else refused;
          (Commit(kept, o, commit), if commit == Acked then None else Some(CommitError))
  }

  /**
   A life of the process: rounds until one ends the loop; past the end of the log the fetch waits until it fails or is
   cancelled.
   */
  function AfterLife(g: Group, logSize: nat, rounds: seq<Round>, hasDeadLetter: bool): (Group, Exit)
    decreases |rounds|
  {
    if rounds == [] then (g, Crashed)
    else if g.committed >= logSize && rounds[0].Fetched? then (g, StoppedCleanly)
    else
      var (next, exit) := AfterRound(g, rounds[0], hasDeadLetter);
      if exit.Some? then (next, exit.value) else AfterLife(next, logSize, rounds[1..], hasDeadLetter)
  }

  /** Any number of restarts; messages may be appended to the log before each. */
  function AfterLives(g: Group, lives: seq<(nat, seq<Round>)>, hasDeadLetter: bool): Group
    decreases |lives|
  {
    if lives == [] then g
    else AfterLives(AfterLife(g, lives[0].0, lives[0].1, hasDeadLetter).0, lives[1..], hasDeadLetter)
  }

  class Consumer {
    var committed: Offset
    var trace: seq<Event>
    const hasDeadLetter: bool

    ghost function Contents(): Group
      reads this
    {
      Group(committed, trace)
    }

    constructor (hasDeadLetter: bool)
      ensures Contents() == Group(0, []) && this.hasDeadLetter == hasDeadLetter
    {
      this.hasDeadLetter := hasDeadLetter;
      committed, trace := 0, [];
    }

    method CommitMessage(o: Offset, fate: CommitFate) returns (ok: bool)
      modifies this
      ensures ok == (fate == Acked)
      ensures Contents() == Commit(old(Contents()), o, fate)
    {
      if fate != Lost {
        committed := o + 1;
        trace := trace + [Stored(o)];
      }
      return fate == Acked;
    }

    method Start(logSize: nat, rounds: seq<Round>) returns (exit: Exit)
      modifies this
      ensures (Contents(), exit) == AfterLife(old(Contents()), logSize, rounds, hasDeadLetter)
    {
      ghost var life := AfterLife(Contents(), logSize, rounds, hasDeadLetter);
      var i := 0;
      while true
        invariant 0 <= i <= |rounds|
        invariant life == AfterLife(Contents(), logSize, rounds[i..], hasDeadLetter)
        decreases |rounds| - i
      {
        if i == |rounds| {
          return Crashed;
        }
        if committed >= logSize && rounds[i].Fetched? {
          return StoppedCleanly;
        }
        assert rounds[i..][1..] == rounds[i + 1..];
        var stop := ServeOne(rounds[i]);
        if stop.Some? {
          return stop.value;
        }
        i := i + 1;
      }
    }

    /** The body of the loop. */
    method ServeOne(round: Round) returns (exit: Option<Exit>)
      modifies this
      ensures (Contents(), exit) == AfterRound(old(Contents()), round, hasDeadLetter)
    {
      if round.FetchFails? {
        if round.canceled {
          return Some(StoppedCleanly);
        }
        return Some(FetchError);
      }
      var o := committed;
      trace := trace + [Called(o)];
      if round.verdict.Died? {
        return Some(Crashed);
      }
      if round.verdict.err.Some? {
        var e := round.verdict.err.value;
        trace := trace + [Refused(o, e)];
        if round.canceled {
          return Some(StoppedCleanly);
        }
        if Is(e, NonRetryable) {
          if hasDeadLetter {
            if !round.deadLettered {
              return Some(DeadLetterError);
            }
            trace := trace + [DeadLettered(o)];
          }
          var stored := CommitMessage(o, round.commit);
          if !stored {
            return Some(CommitError);
          }
          return None;
        }
        return Some(HandlerError(e));
      }
      trace := trace + [Succeeded(o)];
      var stored := CommitMessage(o, round.commit);
      if !stored {
        return Some(CommitError);
      }
      return None;
    }
  }

  // ---- What every sequence of restarts keeps ----

  /** The offsets of the handler calls, in order. */
  function Calls(trace: seq<Event>): seq<Offset> {
    if trace == [] then []
    else
      var last := trace[|trace| - 1];
      Calls(trace[..|trace| - 1]) + (if last.Called? then [last.offset] else [])
  }

  /** A sequence with adjacent repeats written once. */
  function Collapse(s: seq<Offset>): seq<Offset> {
    if |s| <= 1 then s
    else if s[|s| - 1] == s[|s| - 2] then Collapse(s[..|s| - 1])
    else Collapse(s[..|s| - 1]) + [s[|s| - 1]]
  }

  function Iota(n: nat): (r: seq<Offset>)
    ensures |r| == n && forall i | 0 <= i < n :: r[i] == i
  {
    seq(n, i => i)
  }

  /**
   A stored offset was handled without error, or refused as non-retryable and, with a dead-letter queue, published
   there first.
   */
  ghost predicate Justified(trace: seq<Event>, i: nat, hasDeadLetter: bool)
    requires i < |trace| && trace[i].Stored?
  {
    exists j | 0 <= j < i ::
      && trace[j].offset == trace[i].offset
      && (|| trace[j].Succeeded?
          || (&& trace[j].Refused?
              && Is(trace[j].err, NonRetryable)
              && (hasDeadLetter ==> exists l | j < l < i :: trace[l] == DeadLettered(trace[i].offset))))
  }

  ghost predicate CallsInOrder(g: Group) {
    && (Collapse(Calls(g.trace)) == Iota(g.committed) || Collapse(Calls(g.trace)) == Iota(g.committed + 1))
  }

  ghost predicate StoresJustified(g: Group, hasDeadLetter: bool) {
    && (forall i | 0 <= i < |g.trace| && g.trace[i].Stored? :: Justified(g.trace, i, hasDeadLetter))
    && (forall i | 0 <= i < |g.trace| && g.trace[i].Stored? :: g.trace[i].offset < g.committed)
    && (forall o: Offset | o < g.committed :: Stored(o) in g.trace)
  }

  lemma CallsOfAppend(trace: seq<Event>, e: Event)
    ensures Calls(trace + [e]) == Calls(trace) + (if e.Called? then [e.offset] else [])
  {
    assert (trace + [e])[..|trace|] == trace;
  }

  lemma {:induction false} CollapseKeepsLast(s: seq<Offset>)
    requires s != []
    ensures Collapse(s) != [] && Collapse(s)[|Collapse(s)| - 1] == s[|s| - 1]
  {
    if |s| > 1 {
      CollapseKeepsLast(s[..|s| - 1]);
    }
  }

  lemma CollapseOfAppend(s: seq<Offset>, o: Offset)
    ensures Collapse(s + [o]) == if s != [] && s[|s| - 1] == o then Collapse(s) else Collapse(s) + [o]
  {
    assert (s + [o])[..|s|] == s;
    if s == [] {
      assert Collapse([o]) == [o];
    }
  }

  /** Calling the first uncommitted offset again, or for the first time, keeps the calls in log order. */
  lemma CallKeepsOrder(g: Group)
    requires CallsInOrder(g)
    ensures Collapse(Calls(g.trace + [Called(g.committed)])) == Iota(g.committed + 1)
  {
    var calls := Calls(g.trace);
    CallsOfAppend(g.trace, Called(g.committed));
    CollapseOfAppend(calls, g.committed);
    if calls != [] {
      CollapseKeepsLast(calls);
    }
    assert Iota(g.committed) + [g.committed] == Iota(g.committed + 1);
  }

  lemma {:induction false} QuietEvents(trace: seq<Event>, more: seq<Event>)
    requires forall e | e in more :: !e.Called?
    ensures Calls(trace + more) == Calls(trace)
    decreases |more|
  {
    if more == [] {
      assert trace + more == trace;
    } else {
      var before := more[..|more| - 1];
      assert trace + more == (trace + before) + [more[|more| - 1]];
      CallsOfAppend(trace + before, more[|more| - 1]);
      QuietEvents(trace, before);
    }
  }

  lemma RoundCallsOnce(g: Group, round: Round, hasDeadLetter: bool)
    requires round.Fetched?
    ensures var trace := AfterRound(g, round, hasDeadLetter).0.trace;
            && |trace| > |g.trace|
            && trace == (g.trace + [Called(g.committed)]) + trace[|g.trace| + 1..]
            && forall e | e in trace[|g.trace| + 1..] :: !e.Called?
  {
  }

  lemma RoundKeepsOrder(g: Group, round: Round, hasDeadLetter: bool)
    requires CallsInOrder(g)
    ensures CallsInOrder(AfterRound(g, round, hasDeadLetter).0)
  {
    if round.Fetched? {
      CallKeepsOrder(g);
      RoundCallsOnce(g, round, hasDeadLetter);
      RoundJustifiesStore(g, round, hasDeadLetter);
      QuietEvents(g.trace + [Called(g.committed)], AfterRound(g, round, hasDeadLetter).0.trace[|g.trace| + 1..]);
    }
  }

  lemma JustifiedStays(trace: seq<Event>, more: seq<Event>, i: nat, hasDeadLetter: bool)
    requires i < |trace| && trace[i].Stored? && Justified(trace, i, hasDeadLetter)
    ensures Justified(trace + more, i, hasDeadLetter)
  {
    var all := trace + more;
    var j :| 0 <= j < i
      && trace[j].offset == trace[i].offset
      && (|| trace[j].Succeeded?
          || (&& trace[j].Refused?
              && Is(trace[j].err, NonRetryable)
              && (hasDeadLetter ==> exists l | j < l < i :: trace[l] == DeadLettered(trace[i].offset))));
    assert all[j] == trace[j];
    if trace[j].Refused? && hasDeadLetter {
      var l :| j < l < i && trace[l] == DeadLettered(trace[i].offset);
      assert all[l] == trace[l];
    }
  }

  lemma RoundJustifiesStore(g: Group, round: Round, hasDeadLetter: bool)
    ensures var g' := AfterRound(g, round, hasDeadLetter).0;
            && g.trace <= g'.trace
            && (g'.committed > g.committed ==>
                  && g'.committed == g.committed + 1
                  && |g'.trace| > |g.trace|
                  && g'.trace[|g'.trace| - 1] == Stored(g.committed)
                  && Justified(g'.trace, |g'.trace| - 1, hasDeadLetter))
            && (g'.committed <= g.committed ==> g'.committed == g.committed)
            && (forall i | |g.trace| <= i < |g'.trace| - (if g'.committed > g.committed then 1 else 0) ::
                !g'.trace[i].Stored?)
  {
    var g' := AfterRound(g, round, hasDeadLetter).0;
    if g'.committed > g.committed {
      var n := |g.trace|;
      assert g'.trace[n + 1].offset == g.committed;
      if g'.trace[n + 1].Refused? && hasDeadLetter {
        assert g'.trace[n + 2] == DeadLettered(g.committed);
      }
    }
  }

  lemma RoundKeepsStoresJustified(g: Group, round: Round, hasDeadLetter: bool)
    requires StoresJustified(g, hasDeadLetter)
    ensures StoresJustified(AfterRound(g, round, hasDeadLetter).0, hasDeadLetter)
  {
    var g' := AfterRound(g, round, hasDeadLetter).0;
    RoundJustifiesStore(g, round, hasDeadLetter);
    forall i | 0 <= i < |g'.trace| && g'.trace[i].Stored?
      ensures Justified(g'.trace, i, hasDeadLetter) && g'.trace[i].offset < g'.committed
    {
      if i < |g.trace| {
        JustifiedStays(g.trace, g'.trace[|g.trace|..], i, hasDeadLetter);
        assert g'.trace == g.trace + g'.trace[|g.trace|..];
      }
    }
    forall o: Offset | o < g'.committed ensures Stored(o) in g'.trace {
      if o == g.committed {
        assert g'.trace[|g'.trace| - 1] in g'.trace;
      } else {
        assert Stored(o) in g.trace;
      }
    }
  }

  // ---- When a message is committed, and progress ----

  /**
   The handler is done with the message: it returned nil, or refused it for good and the dead letter, if any, is out.
   */
  predicate Finishes(round: Round, hasDeadLetter: bool) {
    && round.Fetched? && round.verdict.Returned?
    && (|| round.verdict.err == None
        || (&& Is(round.verdict.err.value, NonRetryable)
            && !round.canceled
            && (hasDeadLetter ==> round.deadLettered)))
  }

  /**
   A round commits its message exactly when the handler is done with it and the commit is stored; it goes on exactly
   when that is acknowledged.
   */
  lemma RoundCommitsIff(g: Group, round: Round, hasDeadLetter: bool)
    ensures var (next, exit) := AfterRound(g, round, hasDeadLetter);
            && g.trace <= next.trace
            && (next.committed == g.committed + 1 <==> Finishes(round, hasDeadLetter) && round.commit != Lost)
            && (next.committed == g.committed <==> !(Finishes(round, hasDeadLetter) && round.commit != Lost))
            && (Stored(g.committed) in next.trace[|g.trace|..]
                <==> Finishes(round, hasDeadLetter) && round.commit != Lost)
            && (exit.None? <==> Finishes(round, hasDeadLetter) && round.commit == Acked)
  {
    var (next, exit) := AfterRound(g, round, hasDeadLetter);
    if next.committed == g.committed + 1 {
      assert next.trace[|g.trace|..][|next.trace| - |g.trace| - 1] == Stored(g.committed);
    }
  }

  /** Everything that a round can leave in the history, and the exit it can take, case by case. */
  lemma RoundSays(g: Group, round: Round, hasDeadLetter: bool)
    ensures var o, (after, exit) := g.committed, AfterRound(g, round, hasDeadLetter);
            var news := after.trace;
            match round
            case FetchFails(canceled) =>
              news == g.trace && exit == Some(if canceled then StoppedCleanly else FetchError)
            case Fetched(Died, _, _, _) => news == g.trace + [Called(o)] && exit == Some(Crashed)
            case Fetched(Returned(None), _, _, commit) =>
              && news == g.trace + [Called(o), Succeeded(o)] + (if commit == Lost then [] else [Stored(o)])
              && exit == (if commit == Acked then None else Some(CommitError))
            case Fetched(Returned(Some(e)), true, _, _) =>
              news == g.trace + [Called(o), Refused(o, e)] && exit == Some(StoppedCleanly)
            case Fetched(Returned(Some(e)), false, deadLettered, commit) =>
              if !Is(e, NonRetryable) then news == g.trace + [Called(o), Refused(o, e)] && exit == Some(HandlerError(e))
              else if hasDeadLetter && !deadLettered then
                news == g.trace + [Called(o), Refused(o, e)] && exit == Some(DeadLetterError)
              else
                && news == g.trace + [Called(o), Refused(o, e)] + (if hasDeadLetter then [DeadLettered(o)] else [])
                           + (if commit == Lost then [] else [Stored(o)])
                && exit == (if commit == Acked then None else Some(CommitError))
  {
  }

  /** Progress: k finished and acknowledged rounds, with k messages left in the log, commit exactly those k messages. */
  lemma {:induction false} FinishedRoundsCommit(g: Group, logSize: nat, rounds: seq<Round>, hasDeadLetter: bool)
    requires forall r | r in rounds :: Finishes(r, hasDeadLetter) && r.commit == Acked
    requires g.committed + |rounds| <= logSize
    ensures var after := AfterLife(g, logSize, rounds, hasDeadLetter).0;
            && after.committed == g.committed + |rounds|
            && g.trace <= after.trace
            && forall o: Offset | g.committed <= o < g.committed + |rounds| :: Stored(o) in after.trace
    decreases |rounds|
  {
    if rounds != [] {
      var next := AfterRound(g, rounds[0], hasDeadLetter).0;
      RoundCommitsIff(g, rounds[0], hasDeadLetter);
      FinishedRoundsCommit(next, logSize, rounds[1..], hasDeadLetter);
      assert next.trace[|next.trace| - 1] == Stored(g.committed);
    }
  }

  /**
   A poison message does not stop the consumer: it is dead-lettered if there is a queue, committed, and the next one
   is served.
   */
  lemma PoisonIsSkipped(g: Group, logSize: nat, e: Error, rest: seq<Round>, hasDeadLetter: bool)
    requires Is(e, NonRetryable) && g.committed < logSize
    ensures var o := g.committed;
            AfterLife(g, logSize, [Fetched(Returned(Some(e)), false, true, Acked)] + rest, hasDeadLetter)
            == AfterLife(Group(o + 1, g.trace + [Called(o), Refused(o, e)]
                                      + (if hasDeadLetter then [DeadLettered(o)] else []) + [Stored(o)]),
                         logSize, rest, hasDeadLetter)
  {
    var rounds := [Fetched(Returned(Some(e)), false, true, Acked)] + rest;
    assert rounds[1..] == rest;
    RoundSays(g, rounds[0], hasDeadLetter);
    RoundCommitsIff(g, rounds[0], hasDeadLetter);
  }

  /** The handler has been called for no offset beyond the log. */
  ghost predicate WithinLog(g: Group, logSize: nat) {
    g.committed <= logSize && |Collapse(Calls(g.trace))| <= logSize
  }

  lemma RoundStaysWithinLog(g: Group, logSize: nat, round: Round, hasDeadLetter: bool)
    requires CallsInOrder(g) && WithinLog(g, logSize) && (round.Fetched? ==> g.committed < logSize)
    ensures WithinLog(AfterRound(g, round, hasDeadLetter).0, logSize)
  {
    RoundKeepsOrder(g, round, hasDeadLetter);
    RoundJustifiesStore(g, round, hasDeadLetter);
    if round.Fetched? {
      CallKeepsOrder(g);
      RoundCallsOnce(g, round, hasDeadLetter);
      QuietEvents(g.trace + [Called(g.committed)], AfterRound(g, round, hasDeadLetter).0.trace[|g.trace| + 1..]);
    }
  }

  ghost predicate Inv(g: Group, logSize: nat, hasDeadLetter: bool) {
    CallsInOrder(g) && StoresJustified(g, hasDeadLetter) && WithinLog(g, logSize)
  }

  lemma {:induction false} LifeKeepsInv(g: Group, logSize: nat, rounds: seq<Round>, hasDeadLetter: bool)
    requires Inv(g, logSize, hasDeadLetter)
    ensures Inv(AfterLife(g, logSize, rounds, hasDeadLetter).0, logSize, hasDeadLetter)
    ensures g.committed <= AfterLife(g, logSize, rounds, hasDeadLetter).0.committed
    decreases |rounds|
  {
    if rounds != [] && (g.committed < logSize || rounds[0].FetchFails?) {
      RoundKeepsOrder(g, rounds[0], hasDeadLetter);
      RoundKeepsStoresJustified(g, rounds[0], hasDeadLetter);
      RoundJustifiesStore(g, rounds[0], hasDeadLetter);
      RoundStaysWithinLog(g, logSize, rounds[0], hasDeadLetter);
      var (next, exit) := AfterRound(g, rounds[0], hasDeadLetter);
      if exit.None? {
        LifeKeepsInv(next, logSize, rounds[1..], hasDeadLetter);
      }
    }
  }

  /** The log only grows from one life to the next. */
  ghost predicate LogGrows(logSize: nat, lives: seq<(nat, seq<Round>)>)
    decreases |lives|
  {
    lives == [] || (logSize <= lives[0].0 && LogGrows(lives[0].0, lives[1..]))
  }

  function FinalLog(logSize: nat, lives: seq<(nat, seq<Round>)>): nat {
    if lives == [] then logSize else lives[|lives| - 1].0
  }

  lemma {:induction false} LivesKeepInv(g: Group, logSize: nat, lives: seq<(nat, seq<Round>)>, hasDeadLetter: bool)
    requires Inv(g, logSize, hasDeadLetter) && LogGrows(logSize, lives)
    ensures Inv(AfterLives(g, lives, hasDeadLetter), FinalLog(logSize, lives), hasDeadLetter)
    decreases |lives|
  {
    if lives != [] {
      LifeKeepsInv(g, lives[0].0, lives[0].1, hasDeadLetter);
      LivesKeepInv(AfterLife(g, lives[0].0, lives[0].1, hasDeadLetter).0, lives[0].0, lives[1..], hasDeadLetter);
    }
  }

  /**
   Over any number of restarts on a growing log the handler calls, immediate repeats written once, are offsets 0, 1,
   2, ... of a prefix of the log, with nothing skipped and nothing out of order; the prefix is at most one message
   ahead of the commits; and every committed message was handled, or refused for good and dead-lettered first.
   */
  lemma ConsumerRefinesLog(lives: seq<(nat, seq<Round>)>, hasDeadLetter: bool)
    requires LogGrows(0, lives)
    ensures var g := AfterLives(Group(0, []), lives, hasDeadLetter);
            && (exists n | g.committed <= n <= g.committed + 1 && n <= FinalLog(0, lives) ::
                Collapse(Calls(g.trace)) == Iota(n))
            && (forall o: Offset | o < g.committed ::
                  exists i | 0 <= i < |g.trace| :: g.trace[i] == Stored(o) && Justified(g.trace, i, hasDeadLetter))
            && (forall i | 0 <= i < |g.trace| && g.trace[i].Stored? :: g.trace[i].offset < g.committed)
  {
    LivesKeepInv(Group(0, []), 0, lives, hasDeadLetter);
    var g := AfterLives(Group(0, []), lives, hasDeadLetter);
    assert Collapse(Calls(g.trace)) == Iota(|Collapse(Calls(g.trace))|);
    forall o: Offset | o < g.committed
      ensures exists i | 0 <= i < |g.trace| :: g.trace[i] == Stored(o) && Justified(g.trace, i, hasDeadLetter)
    {
      assert Stored(o) in g.trace;
      var i :| 0 <= i < |g.trace| && g.trace[i] == Stored(o);
      assert Justified(g.trace, i, hasDeadLetter);
    }
  }
}
