/**
 What every run of the notification pipeline keeps: no delivery is stuck, and no key is mailed more often than its
 bound.
 */
module DeliverySafety {

  import opened Wrappers
  import opened Clock
  import opened Delivery
  import opened DeliveryPipeline

  // ---- Nothing is stuck ----

  ghost predicate InOutbox(w: World, key: Key) {
    exists i | i in w.unpublished && i < |w.outbox| :: w.outbox[i].key == key
  }

  ghost predicate InTopic(w: World, key: Key, from: nat) {
    exists j | from <= j < |w.topic| :: w.topic[j].key == key
  }

  /** A command for the key is on its way: not yet published, or in the topic at or after the given position. */
  ghost predicate Carried(w: World, key: Key, from: nat) {
    InOutbox(w, key) || InTopic(w, key, from)
  }

  /** The row is finished, scheduled, or pending with a command on its way that is not yet committed. */
  ghost predicate Live(w: World, key: Key)
    requires key in w.state.deliveries
  {
    var row := w.state.deliveries[key];
    match row.status
    case Sent => true
    case Dead => true
    case Failed => row.nextAttemptAt.Some?
    case Pending => Carried(w, key, w.committed)
  }

  ghost predicate AllLive(w: World) {
    forall k | k in w.state.deliveries :: Live(w, k)
  }

  /** What the consumer's position says about the row it works on. */
  ghost predicate PhaseFits(w: World) {
    w.phase != Idle ==>
      && w.committed < |w.topic|
      && Head(w).key in w.state.deliveries
      && var row := w.state.deliveries[Head(w).key];
         match w.phase
         case Upserted(attempts) => Open(row) && row.attemptCount == attempts
         case Delivered => Open(row)
         case Bounced(attempts, _) => Open(row) && row.attemptCount == attempts
         case Buried => row.status == Dead
         case Done => row.status == Pending ==> Carried(w, Head(w).key, w.committed + 1)
         case Idle => true
  }

  /** attempt_count reaches the maximum exactly when the row dies. */
  ghost predicate AttemptsFit(w: World) {
    && w.config.maxAttempts > 0
    && forall k | k in w.state.deliveries ::
         var row := w.state.deliveries[k];
         if row.status == Dead then row.attemptCount == w.config.maxAttempts
         else row.attemptCount < w.config.maxAttempts
  }

  ghost predicate Consistent(w: World) {
    w.committed <= |w.topic| && AllLive(w) && PhaseFits(w) && AttemptsFit(w)
  }

  lemma StillCarried(w: World, s: Step, key: Key, from: nat)
    requires Enabled(w, s) && Carried(w, key, from) && from <= |w.topic|
    ensures Carried(Next(w, s), key, from)
  {
    var w' := Next(w, s);
    if InTopic(w, key, from) {
      var j :| from <= j < |w.topic| && w.topic[j].key == key;
      assert w'.topic[j].key == key;
    } else {
      var i :| i in w.unpublished && i < |w.outbox| && w.outbox[i].key == key;
      assert w'.outbox[i] == w.outbox[i];
      if s == Relay(i, true) {
        assert w'.topic[|w.topic|].key == key;
      } else {
        assert i in w'.unpublished;
      }
    }
  }

  lemma RequeuedAreCarried(w: World, s: Step, key: Key)
    requires Enabled(w, s) && s.Enqueue? && key in s.batch
    ensures InOutbox(Next(w, s), key)
  {
    assert forall k | k in s.batch :: k in DueKeys(w.state.deliveries, w.now);
    var i :| 0 <= i < |s.batch| && s.batch[i] == key;
    assert Next(w, s).outbox[|w.outbox| + i] == RetryCommands(w.state.deliveries, s.batch)[i];
    assert |w.outbox| + i in Next(w, s).unpublished;
  }

  lemma RowStaysLive(w: World, s: Step, key: Key)
    requires Consistent(w) && Enabled(w, s) && key in Next(w, s).state.deliveries
    ensures Live(Next(w, s), key)
  {
    var w' := Next(w, s);
    if s.Enqueue? && key in s.batch {
      RequeuedAreCarried(w, s, key);
    } else if w'.state.deliveries[key].status == Pending {
      if key !in w.state.deliveries {
        assert w'.topic[w'.committed].key == key;
      } else {
        assert Live(w, key) && w.state.deliveries[key] == w'.state.deliveries[key];
        if s.Commit? && key == Head(w).key {
          StillCarried(w, s, key, w.committed + 1);
        } else if s.Commit? {
          CarriedElsewhere(w, key);
          StillCarried(w, s, key, w.committed + 1);
        } else {
          StillCarried(w, s, key, w.committed);
        }
      }
    } else if key in w.state.deliveries {
      assert Live(w, key);
    }
  }

  lemma CarriedElsewhere(w: World, key: Key)
    requires w.committed < |w.topic| && Head(w).key != key && Carried(w, key, w.committed)
    ensures Carried(w, key, w.committed + 1)
  {
  }

  lemma PhaseStaysFit(w: World, s: Step)
    requires Consistent(w) && Enabled(w, s)
    ensures PhaseFits(Next(w, s))
  {
    var w' := Next(w, s);
    if w'.phase != Idle {
      var key := Head(w).key;
      assert Head(w') == Head(w);
      if w'.phase == Done && w'.state.deliveries[key].status == Pending {
        if s.Enqueue? && key in s.batch {
          RequeuedAreCarried(w, s, key);
        } else {
          StillCarried(w, s, key, w.committed + 1);
        }
      } else if s.Enqueue? {
        assert key in s.batch ==> key in DueKeys(w.state.deliveries, w.now);
      }
    }
  }

  lemma AttemptsStayFit(w: World, s: Step)
    requires Consistent(w) && Enabled(w, s)
    ensures AttemptsFit(Next(w, s))
  {
    if s.Enqueue? {
      assert forall k | k in s.batch :: k in DueKeys(w.state.deliveries, w.now);
    }
  }

  lemma ConsistentStep(w: World, s: Step)
    requires Consistent(w) && Enabled(w, s)
    ensures Consistent(Next(w, s))
  {
    PhaseStaysFit(w, s);
    AttemptsStayFit(w, s);
    forall k | k in Next(w, s).state.deliveries {
      RowStaysLive(w, s, k);
    }
  }

  // ---- How often a key is mailed ----

  function SendsOf(sends: seq<Attempt>, key: Key): nat {
    if sends == [] then 0
    else SendsOf(sends[..|sends| - 1], key) + (if sends[|sends| - 1].key == key then 1 else 0)
  }

  function SuccessesOf(sends: seq<Attempt>, key: Key): nat {
    if sends == [] then 0
    else SuccessesOf(sends[..|sends| - 1], key) + (if sends[|sends| - 1] == Attempt(key, true) then 1 else 0)
  }

  function DeadLettersOf(letters: seq<Payload>, key: Key): nat {
    if letters == [] then 0
    else DeadLettersOf(letters[..|letters| - 1], key) + (if letters[|letters| - 1].key == key then 1 else 0)
  }

  function InterruptionsOf(w: World, key: Key): nat {
    multiset(w.interrupted)[key]
  }

  /** The consumer has called the sender for the key and not yet marked the outcome. */
  predicate Unmarked(w: World, key: Key) {
    (w.phase.Delivered? || w.phase.Bounced?) && w.committed < |w.topic| && Head(w).key == key
  }

  predicate HasStatus(w: World, key: Key, status: Status) {
    key in w.state.deliveries && w.state.deliveries[key].status == status
  }

  function AttemptsOf(w: World, key: Key): nat {
    if key in w.state.deliveries then w.state.deliveries[key].attemptCount else 0
  }

  /**
   Every call of the sender ended in a counted failure, in the final success, in an interruption, or is about to be
   marked.
   */
  ghost predicate SendsBalance(w: World, key: Key) {
    SendsOf(w.state.sends, key)
    == AttemptsOf(w, key)
       + (if HasStatus(w, key, Sent) then 1 else 0)
       + InterruptionsOf(w, key)
       + (if Unmarked(w, key) then 1 else 0)
  }

  ghost predicate SuccessesBounded(w: World, key: Key) {
    SuccessesOf(w.state.sends, key)
    <= (if HasStatus(w, key, Sent) || (w.phase.Delivered? && Unmarked(w, key)) then 1 else 0) + InterruptionsOf(w, key)
  }

  function UnburiedOf(w: World, key: Key): nat {
    multiset(w.unburied)[key]
  }

  /** The row has been marked dead, and its dead letter is about to be published. */
  predicate Burying(w: World, key: Key) {
    w.phase == Buried && w.committed < |w.topic| && Head(w).key == key
  }

  /** A dead row has its dead letter, is about to get it, or lost it to a death in between. */
  ghost predicate DeadLettersBalance(w: World, key: Key) {
    DeadLettersOf(w.state.deadLetters, key) + UnburiedOf(w, key) + (if Burying(w, key) then 1 else 0)
    == if w.config.hasDeadLetter && HasStatus(w, key, Dead) then 1 else 0
  }

  ghost predicate Bounded(w: World) {
    forall key :: SendsBalance(w, key) && SuccessesBounded(w, key) && DeadLettersBalance(w, key)
  }

  lemma CountsOfAppend(sends: seq<Attempt>, a: Attempt, letters: seq<Payload>, p: Payload, key: Key)
    ensures SendsOf(sends + [a], key) == SendsOf(sends, key) + (if a.key == key then 1 else 0)
    ensures SuccessesOf(sends + [a], key) == SuccessesOf(sends, key) + (if a == Attempt(key, true) then 1 else 0)
    ensures DeadLettersOf(letters + [p], key) == DeadLettersOf(letters, key) + (if p.key == key then 1 else 0)
  {
    assert (sends + [a])[..|sends|] == sends;
    assert (letters + [p])[..|letters|] == letters;
  }

  lemma EnqueueCountsNothing(w: World, s: Step, key: Key)
    requires Enabled(w, s) && s.Enqueue?
    ensures AttemptsOf(Next(w, s), key) == AttemptsOf(w, key)
    ensures HasStatus(Next(w, s), key, Sent) == HasStatus(w, key, Sent)
    ensures HasStatus(Next(w, s), key, Dead) == HasStatus(w, key, Dead)
  {
    assert forall k | k in s.batch :: k in DueKeys(w.state.deliveries, w.now);
  }

  lemma MarkBalances(w: World, key: Key)
    requires Consistent(w) && Enabled(w, Mark) && SendsBalance(w, key)
    ensures SendsBalance(Next(w, Mark), key)
  {
  }

  lemma SendCounts(w: World, s: Step, key: Key)
    requires Enabled(w, s) && s.Send?
    ensures SendsOf(Next(w, s).state.sends, key) == SendsOf(w.state.sends, key) + (if Head(w).key == key then 1 else 0)
    ensures SuccessesOf(Next(w, s).state.sends, key)
            == SuccessesOf(w.state.sends, key) + (if Head(w).key == key && s.error.None? then 1 else 0)
  {
    CountsOfAppend(w.state.sends, Attempt(Head(w).key, s.error.None?), [], Head(w), key);
  }

  lemma BalanceStep(w: World, s: Step, key: Key)
    requires Consistent(w) && Enabled(w, s) && SendsBalance(w, key)
    ensures SendsBalance(Next(w, s), key)
  {
    match s {
      case Send(_) => SendCounts(w, s, key);
      case Enqueue(_, _) => EnqueueCountsNothing(w, s, key);
      case Mark => MarkBalances(w, key);
      case _ =>
    }
  }

  lemma MarkKeepsSuccesses(w: World, key: Key)
    requires Consistent(w) && Enabled(w, Mark) && SuccessesBounded(w, key)
    ensures SuccessesBounded(Next(w, Mark), key)
  {
  }

  lemma SuccessStep(w: World, s: Step, key: Key)
    requires Consistent(w) && Enabled(w, s) && SuccessesBounded(w, key)
    ensures SuccessesBounded(Next(w, s), key)
  {
    match s {
      case Send(_) => SendCounts(w, s, key);
      case Enqueue(_, _) => EnqueueCountsNothing(w, s, key);
      case Mark => MarkKeepsSuccesses(w, key);
      case _ =>
    }
  }

  lemma MarkBalancesDeadLetters(w: World, key: Key)
    requires Consistent(w) && Enabled(w, Mark) && DeadLettersBalance(w, key)
    ensures DeadLettersBalance(Next(w, Mark), key)
  {
  }

  lemma DeadLetterStep(w: World, s: Step, key: Key)
    requires Consistent(w) && Enabled(w, s) && DeadLettersBalance(w, key)
    ensures DeadLettersBalance(Next(w, s), key)
  {
    match s {
      case Bury =>
        CountsOfAppend([], Attempt(key, true), w.state.deadLetters, Head(w), key);
      case Enqueue(_, batch) =>
        EnqueueCountsNothing(w, s, key);
      case Mark => MarkBalancesDeadLetters(w, key);
      case _ =>
    }
  }

  lemma {:induction false} RunsAreSafe(w: World, steps: seq<Step>)
    requires Consistent(w) && Bounded(w) && Possible(w, steps)
    ensures Consistent(Run(w, steps)) && Bounded(Run(w, steps))
    decreases |steps|
  {
    if steps != [] {
      ConsistentStep(w, steps[0]);
      forall key: Key
        ensures SendsBalance(Next(w, steps[0]), key) && SuccessesBounded(Next(w, steps[0]), key)
        ensures DeadLettersBalance(Next(w, steps[0]), key)
      {
        BalanceStep(w, steps[0], key);
        SuccessStep(w, steps[0], key);
        DeadLetterStep(w, steps[0], key);
      }
      RunsAreSafe(Next(w, steps[0]), steps[1..]);
    }
  }

  /**
   No notification is ever stuck: every row is sent, dead, scheduled, or pending with an uncommitted command on its
   way.
   */
  lemma NothingIsStuck(config: Config, start: Time, steps: seq<Step>, key: Key)
    requires config.maxAttempts > 0 && Possible(Init(config, start), steps)
    requires key in Run(Init(config, start), steps).state.deliveries
    ensures var w := Run(Init(config, start), steps);
            var row := w.state.deliveries[key];
            || row.status == Sent
            || row.status == Dead
            || (row.status == Failed && row.nextAttemptAt.Some?)
            || (row.status == Pending && Carried(w, key, w.committed))
  {
    RunsAreSafe(Init(config, start), steps);
    assert Live(Run(Init(config, start), steps), key);
  }

  /** A failed row waits for its next attempt as long as the number of its attempts says. */
  ghost predicate WaitsItsDelay(w: World, key: Key) {
    HasStatus(w, key, Failed) ==>
      var row := w.state.deliveries[key];
      row.attemptCount > 0 && row.nextAttemptAt == Some(row.updatedAt + RetryDelay(w.config, row.attemptCount))
  }

  lemma DelayStep(w: World, s: Step, key: Key)
    requires Consistent(w) && Enabled(w, s) && WaitsItsDelay(w, key)
    ensures WaitsItsDelay(Next(w, s), key)
  {
    if s.Enqueue? {
      assert forall k | k in s.batch :: k in DueKeys(w.state.deliveries, w.now);
    }
  }

  lemma {:induction false} FailedRowsWait(w: World, steps: seq<Step>, key: Key)
    requires Consistent(w) && WaitsItsDelay(w, key) && Possible(w, steps)
    ensures WaitsItsDelay(Run(w, steps), key)
    decreases |steps|
  {
    if steps != [] {
      ConsistentStep(w, steps[0]);
      DelayStep(w, steps[0], key);
      FailedRowsWait(Next(w, steps[0]), steps[1..], key);
    }
  }

  /**
   The retry schedule in every run: the n-th failure of a delivery postpones it by the n-th delay, and no row is
   retried earlier.
   */
  lemma RetrySchedule(config: Config, start: Time, steps: seq<Step>, key: Key)
    requires config.maxAttempts > 0 && Possible(Init(config, start), steps)
    ensures var w := Run(Init(config, start), steps);
            && (HasStatus(w, key, Failed) ==>
                  var row := w.state.deliveries[key];
                  && 0 < row.attemptCount < config.maxAttempts
                  && row.nextAttemptAt == Some(row.updatedAt + RetryDelay(config, row.attemptCount)))
            && forall limit, batch | Enabled(w, Enqueue(limit, batch)) && key in batch ::
                 && HasStatus(w, key, Failed)
                 && (var row := w.state.deliveries[key]; row.updatedAt + RetryDelay(config, row.attemptCount) <= w.now)
  {
    var w := Run(Init(config, start), steps);
    FailedRowsWait(Init(config, start), steps, key);
    RunsAreSafe(Init(config, start), steps);
    ConfigStays(Init(config, start), steps);
    forall limit, batch | Enabled(w, Enqueue(limit, batch)) && key in batch
      ensures HasStatus(w, key, Failed) && w.state.deliveries[key].nextAttemptAt.Some?
              && w.state.deliveries[key].nextAttemptAt.value <= w.now
    {
      assert key in DueKeys(w.state.deliveries, w.now);
    }
  }

  lemma {:induction false} ConfigStays(w: World, steps: seq<Step>)
    requires Possible(w, steps)
    ensures Run(w, steps).config == w.config
    decreases |steps|
  {
    if steps != [] {
      ConfigStays(Next(w, steps[0]), steps[1..]);
    }
  }

  /** The email bound of one idempotency key. */
  lemma EmailBound(config: Config, start: Time, steps: seq<Step>, key: Key)
    requires config.maxAttempts > 0 && Possible(Init(config, start), steps)
    ensures var w := Run(Init(config, start), steps);
            && SendsOf(w.state.sends, key) <= config.maxAttempts + InterruptionsOf(w, key)
            && SuccessesOf(w.state.sends, key) <= 1 + InterruptionsOf(w, key)
            && DeadLettersOf(w.state.deadLetters, key) <= 1
            && (DeadLettersOf(w.state.deadLetters, key) == 1 ==> HasStatus(w, key, Dead))
            && (key in w.state.deliveries ==>
                  && w.state.deliveries[key].attemptCount <= config.maxAttempts
                  && (w.state.deliveries[key].attemptCount == config.maxAttempts
                      <==> w.state.deliveries[key].status == Dead))
  {
    var w := Run(Init(config, start), steps);
    RunsAreSafe(Init(config, start), steps);
    ConfigStays(Init(config, start), steps);
    assert SendsBalance(w, key) && SuccessesBounded(w, key) && DeadLettersBalance(w, key);
    if Unmarked(w, key) {
      assert Open(w.state.deliveries[key]);
    }
  }

  /**
   Exactly when a failed final attempt reaches the dead-letter queue: a dead row whose dead letter is not just being
   published has exactly one if the service has a queue and never died between the mark and the publication for that
   key, and none otherwise. Rows that are not dead have none.
   */
  lemma DeadLetterIff(config: Config, start: Time, steps: seq<Step>, key: Key)
    requires config.maxAttempts > 0 && Possible(Init(config, start), steps)
    ensures var w := Run(Init(config, start), steps);
            && (!HasStatus(w, key, Dead) ==> DeadLettersOf(w.state.deadLetters, key) == 0 && key !in w.unburied)
            && (HasStatus(w, key, Dead) && !Burying(w, key) ==>
                  && (DeadLettersOf(w.state.deadLetters, key) == 1 <==> config.hasDeadLetter && key !in w.unburied)
                  && (DeadLettersOf(w.state.deadLetters, key) == 0 <==> !config.hasDeadLetter || key in w.unburied))
  {
    var w := Run(Init(config, start), steps);
    RunsAreSafe(Init(config, start), steps);
    ConfigStays(Init(config, start), steps);
    assert DeadLettersBalance(w, key);
  }

  function OneAttempt(): Config {
    Config(1, [], true)
  }

  /** The only attempt at a command has failed and is about to be marked. */
  lemma ReachLastBounce(p: Payload) returns (steps: seq<Step>)
    ensures Possible(Init(OneAttempt(), 0), steps)
    ensures var w := Run(Init(OneAttempt(), 0), steps);
            && w.config == OneAttempt() && w.phase == Bounced(0, "refused")
            && w.topic == [p] && w.committed == 0 && w.unpublished == {}
            && w.state.deadLetters == [] && HasStatus(w, p.key, Pending)
  {
    steps := [Emit(p), Relay(0, true), Upsert, Send(Some("refused"))];
    RunUpToFour(Init(OneAttempt(), 0), steps);
  }

  /**
   A row can be dead without a dead letter: the process may die between the two effects, and the redelivery finds the
   row dead.
   */
  lemma DeadWithoutDeadLetter(p: Payload) returns (steps: seq<Step>)
    ensures Possible(Init(OneAttempt(), 0), steps)
    ensures var w := Run(Init(OneAttempt(), 0), steps);
            && HasStatus(w, p.key, Dead)
            && w.state.deadLetters == []
            && w.committed == |w.topic| && w.unpublished == {}
  {
    var front := ReachLastBounce(p);
    var back := [Mark, Die, Upsert, Commit];
    RunUpToFour(Run(Init(OneAttempt(), 0), front), back);
    RunConcat(Init(OneAttempt(), 0), front, back);
    steps := front + back;
  }

  lemma {:induction false} RunConcat(w: World, a: seq<Step>, b: seq<Step>)
    requires Possible(w, a) && Possible(Run(w, a), b)
    ensures Possible(w, a + b) && Run(w, a + b) == Run(Run(w, a), b)
    decreases |a|
  {
    if a == [] {
      assert a + b == b;
    } else {
      RunConcat(Next(w, a[0]), a[1..], b);
      RunFirst(w, a[0], a[1..] + b);
      assert a + b == [a[0]] + (a[1..] + b);
    }
  }
}
