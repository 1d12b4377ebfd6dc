/** PublishOnce is one of the runs that RelayRuns speaks about: its effects, one step each, in the order of its loop. */
module RelayPasses {

  import opened Clock
  import opened Outbox
  import opened RelayRuns

  /** The steps of a pass from position i of its batch on. */
  function PassSteps(r: RelayId, events: seq<EventId>, i: nat, fates: nat -> Fate, at: nat -> Time): seq<Step>
    requires i <= |events|
    decreases |events| - i
  {
    if i == |events| then []
    else
      match fates(i)
      case Delivered => [Publish(r)] + ([Tick(at(i))] + ([Mark(r)] + PassSteps(r, events, i + 1, fates, at)))
      case Unmarked => [Publish(r)] + ([Crash(r)] + [])
      case Refused(cause, true, kept) => [Refuse(r, cause, kept)] + []
      case Refused(_, false, kept) => [Drop(r, kept)] + []
  }

  lemma RunCons(w: World, s: Step, rest: seq<Step>)
    requires Enabled(w, s) && Possible(Next(w, s), rest)
    ensures Possible(w, [s] + rest) && Run(w, [s] + rest) == Run(Next(w, s), rest)
  {
    assert ([s] + rest)[1..] == rest;
  }

  /** The marks of a pass happen after its claim, one after the other. */
  ghost predicate InOrder(now: Time, at: nat -> Time, i: nat) {
    now <= at(i) && forall j: nat, k: nat :: i <= j <= k ==> at(j) <= at(k)
  }

  /** Relay r is about to publish position i of its batch. */
  ghost predicate AtPosition(w: World, r: RelayId, events: seq<EventId>, i: nat)
    requires i <= |events|
  {
    && r in w.relays && w.relays[r].todo == events[i..] && !w.relays[r].sent
    && forall id | id in events :: id in w.rows
  }

  /** The relay is not in a pass, so it may begin the next one. */
  predicate Idle(w: World, r: RelayId) {
    r in w.relays ==> w.relays[r].todo == []
  }

  lemma DeliveryStep(w: World, r: RelayId, events: seq<EventId>, i: nat, at: Time, rest: seq<Step>)
      returns (next: World)
    requires i < |events| && AtPosition(w, r, events, i) && w.now <= at
    ensures AtPosition(next, r, events, i + 1) && next.now == at
    ensures Tables(next.rows, next.broker) == AfterEvent(Tables(w.rows, w.broker), events[i], Delivered, at)
    ensures Possible(next, rest) ==>
              var steps := [Publish(r)] + ([Tick(at)] + ([Mark(r)] + rest));
              Possible(w, steps) && Run(w, steps) == Run(next, rest)
  {
    var sent := Next(w, Publish(r));
    var later := Next(sent, Tick(at));
    next := Next(later, Mark(r));
    if Possible(next, rest) {
      RunCons(later, Mark(r), rest);
      RunCons(sent, Tick(at), [Mark(r)] + rest);
      RunCons(w, Publish(r), [Tick(at)] + ([Mark(r)] + rest));
    }
  }

  lemma StopStep(w: World, r: RelayId, events: seq<EventId>, i: nat, fates: nat -> Fate, at: nat -> Time)
    requires i < |events| && AtPosition(w, r, events, i) && !fates(i).Delivered?
    ensures var steps := PassSteps(r, events, i, fates, at);
            && Possible(w, steps)
            && Idle(Run(w, steps), r)
            && Tables(Run(w, steps).rows, Run(w, steps).broker)
                == AfterEvent(Tables(w.rows, w.broker), events[i], fates(i), at(i))
  {
    match fates(i)
    case Unmarked =>
      var sent := Next(w, Publish(r));
      RunCons(sent, Crash(r), []);
      RunCons(w, Publish(r), [Crash(r)] + []);
    case Refused(cause, true, kept) =>
      RunCons(w, Refuse(r, cause, kept), []);
    case Refused(cause, false, kept) =>
      RunCons(w, Drop(r, kept), []);
  }

  lemma {:induction false} LoopIsARun(w: World, r: RelayId, events: seq<EventId>, i: nat, fates: nat -> Fate,
      at: nat -> Time)
    requires i <= |events| && AtPosition(w, r, events, i) && InOrder(w.now, at, i)
    ensures var steps := PassSteps(r, events, i, fates, at);
            && Possible(w, steps)
            && Idle(Run(w, steps), r)
            && Tables(Run(w, steps).rows, Run(w, steps).broker)
                == AfterLoop(Tables(w.rows, w.broker), events, i, fates, at)
    decreases |events| - i
  {
    if i < |events| {
      if fates(i).Delivered? {
        var next := DeliveryStep(w, r, events, i, at(i), PassSteps(r, events, i + 1, fates, at));
        LoopIsARun(next, r, events, i + 1, fates, at);
      } else {
        StopStep(w, r, events, i, fates, at);
      }
    }
  }

  /**
   One call of PublishOnce, as its contract describes it, is a run of the many-relay machine from any world in which
   the relay is idle, and leaves it idle; so what holds of every run holds of any relays that call it again and again.
   */
  lemma PassIsARun(w: World, r: RelayId, limit: nat, events: seq<EventId>, fates: nat -> Fate, at: nat -> Time)
    requires Enabled(w, Claim(r, limit, events)) && InOrder(w.now, at, 0)
    ensures forall id | id in events :: id in w.rows
    ensures var steps, k := [Claim(r, limit, events)] + PassSteps(r, events, 0, fates, at), FirstStop(fates, |events|);
            && Possible(w, steps)
            && Idle(Run(w, steps), r)
            && PrefixPublished(Leased(w.rows, events, w.now), Run(w, steps).rows, events, k, fates, at)
            && Run(w, steps).broker == w.broker + Appended(w.rows, events, k, fates)
  {
    FetchFacts(w.rows, w.now, limit, events);
    var claimed := Next(w, Claim(r, limit, events));
    LoopIsARun(claimed, r, events, 0, fates, at);
    LoopPublishesPrefix(Tables(claimed.rows, claimed.broker), events, fates, at);
    RunCons(w, Claim(r, limit, events), PassSteps(r, events, 0, fates, at));
  }
}
