/**
 The notification pipeline in Kafka mode: outbox, relay, one partition of the command topic, the serial consumer
 running Process one effect at a time, and the retry scheduler beside it. The process may die between any two effects.
 All commands of one idempotency key carry the same email hash, which is the Kafka key, so they share a partition.
 */
module DeliveryPipeline {

  import opened Wrappers
  import opened Clock
  import opened Batches
  import opened Delivery

  /** Where the consumer is in the handling of the first uncommitted message. */
  datatype Phase =
    | Idle
    | Upserted(attempts: nat)                        // about to call the sender
    | Delivered                                      // the sender succeeded; about to mark
    | Bounced(attempts: nat, cause: string)          // the sender failed; about to mark
    | Buried                                         // marked dead; about to publish the dead letter
    | Done                                           // Process returned nil; about to commit

  datatype World = World(
    config: Config,
    now: Time,
    state: State,
    outbox: seq<Payload>,       // every notification command ever inserted into an outbox
    unpublished: set<nat>,      // the positions of those not marked published
    topic: seq<Payload>,        // the partition
    committed: nat,             // how many of its messages are committed
    phase: Phase,
    interrupted: seq<Key>,      // history: deaths between a call of the sender and its mark
    unburied: seq<Key>)         // history: deaths between the mark of a dead row and its dead letter

  datatype Step =
    | Tick(to: Time)
    | Emit(command: Payload)                   // subscription-api requests a notification
    | Relay(index: nat, marked: bool)          // published; the relay may die before marking it
    | Upsert
    | Send(error: Option<string>)
    | Mark
    | Bury
    | Commit
    | Die
    | Enqueue(limit: nat, batch: seq<Key>)     // the retry scheduler

  function Init(config: Config, now: Time): World {
    World(config, now, State(map[], [], []), [], {}, [], 0, Idle, [], [])
  }

  function Head(w: World): Payload
    requires w.committed < |w.topic|
  {
    w.topic[w.committed]
  }

  /** The positions of newly inserted outbox rows. */
  function Positions(from: nat, count: nat): (r: set<nat>)
    ensures forall i: nat :: i in r <==> from <= i < from + count
  {
    if count == 0 then {} else Positions(from, count - 1) + {from + count - 1}
  }

  ghost predicate Enabled(w: World, s: Step) {
    match s
    case Tick(to) => w.now <= to
    case Emit(_) => true
    case Relay(i, _) => i in w.unpublished && i < |w.outbox|
    case Upsert => w.phase == Idle && w.committed < |w.topic|
    case Send(_) => w.phase.Upserted? && w.committed < |w.topic|
    case Mark => (w.phase.Delivered? || w.phase.Bounced?) && w.committed < |w.topic|
    case Bury => w.phase == Buried && w.committed < |w.topic|
    case Commit => w.phase == Done
    case Die => true
    case Enqueue(limit, batch) => IsBatch(DueKeys(w.state.deliveries, w.now), limit, batch)
  }

  function Next(w: World, s: Step): World
    requires Enabled(w, s)
  {
    match s
    case Tick(to) => w.(now := to)
    case Emit(p) => w.(outbox := w.outbox + [p], unpublished := w.unpublished + {|w.outbox|})
    case Relay(i, marked) =>
      w.(topic := w.topic + [w.outbox[i]], unpublished := if marked then w.unpublished - {i} else w.unpublished)
    case Upsert =>
      var table := Delivery.Upserted(w.state.deliveries, Head(w), w.now);
      var row := table[Head(w).key];
      w.(state := w.state.(deliveries := table),
         phase := if row.status == Sent || row.status == Dead then Done else Phase.Upserted(row.attemptCount))
    case Send(error) =>
      w.(state := w.state.(sends := w.state.sends + [Attempt(Head(w).key, error.None?)]),
         phase := if error.None? then Delivered else Bounced(w.phase.attempts, error.value))
    case Mark => Marked(w)
    case Bury =>
      w.(state := w.state.(deadLetters := w.state.deadLetters + [Head(w)]), phase := Done)
    case Commit => w.(committed := w.committed + 1, phase := Idle)
    case Die =>
      w.(phase := Idle,
         interrupted := if (w.phase.Delivered? || w.phase.Bounced?) && w.committed < |w.topic|
                        then w.interrupted + [Head(w).key] else w.interrupted,
         unburied := if w.phase == Buried && w.committed < |w.topic| then w.unburied + [Head(w).key] else w.unburied)
    case Enqueue(_, batch) =>
      assert forall k | k in batch :: k in DueKeys(w.state.deliveries, w.now);
      w.(state := w.state.(deliveries := Requeued(w.state.deliveries, batch, w.now)),
         outbox := w.outbox + RetryCommands(w.state.deliveries, batch),
         unpublished := w.unpublished + Positions(|w.outbox|, |batch|))
  }

  /** MarkSent, MarkFailed or MarkDead, as the sender's answer and the attempts so far decide. */
  function Marked(w: World): World
    requires (w.phase.Delivered? || w.phase.Bounced?) && w.committed < |w.topic|
  {
    var key, table := Head(w).key, w.state.deliveries;
    if w.phase.Delivered? then
      w.(state := w.state.(deliveries := MarkedSent(table, key, w.now)), phase := Done)
    else
      var attempt := w.phase.attempts + 1;
      if attempt < w.config.maxAttempts then
        var next := w.now + RetryDelay(w.config, attempt);
        w.(state := w.state.(deliveries := MarkedFailed(table, key, w.phase.cause, next, w.now)),
           phase := Done)
      else
        w.(state := w.state.(deliveries := MarkedDead(table, key, w.phase.cause, w.now)),
           phase := if w.config.hasDeadLetter then Buried else Done)
  }

  ghost predicate Possible(w: World, steps: seq<Step>)
    decreases |steps|
  {
    steps == [] || (Enabled(w, steps[0]) && Possible(Next(w, steps[0]), steps[1..]))
  }

  ghost function Run(w: World, steps: seq<Step>): World
    requires Possible(w, steps)
    decreases |steps|
  {
    if steps == [] then w else Run(Next(w, steps[0]), steps[1..])
  }

  // ---- The steps are those of Process ----

  predicate Open(row: Row) {
    row.status == Pending || row.status == Failed
  }

  /** The effects of one undisturbed call of Process, up to the one that does not work. */
  function StepsOf(w: World, fate: Fate): seq<Step>
    requires w.committed < |w.topic|
  {
    if !fate.upserts then [Die]
    else
      var row := Delivery.Upserted(w.state.deliveries, Head(w), w.now)[Head(w).key];
      if row.status == Sent || row.status == Dead then [Upsert]
      else if !fate.marks then [Upsert, Send(fate.sendError), Die]
      else if fate.sendError.None? || row.attemptCount + 1 < w.config.maxAttempts || !w.config.hasDeadLetter
      then [Upsert, Send(fate.sendError), Mark]
      else [Upsert, Send(fate.sendError), Mark, if fate.deadLetters then Bury else Die]
  }

  lemma RunFirst(w: World, s: Step, rest: seq<Step>)
    requires Enabled(w, s) && Possible(Next(w, s), rest)
    ensures Possible(w, [s] + rest) && Run(w, [s] + rest) == Run(Next(w, s), rest)
  {
    assert ([s] + rest)[1..] == rest;
  }

  /** The steps one after the other, without recursion over the sequence. */
  lemma RunUpToFour(w: World, steps: seq<Step>)
    requires 1 <= |steps| <= 4
    requires Enabled(w, steps[0])
    requires |steps| > 1 ==> Enabled(Next(w, steps[0]), steps[1])
    requires |steps| > 2 ==> Enabled(Next(Next(w, steps[0]), steps[1]), steps[2])
    requires |steps| > 3 ==> Enabled(Next(Next(Next(w, steps[0]), steps[1]), steps[2]), steps[3])
    ensures Possible(w, steps)
    ensures Run(w, steps) ==
            if |steps| == 1 then Next(w, steps[0])
            else if |steps| == 2 then Next(Next(w, steps[0]), steps[1])
            else if |steps| == 3 then Next(Next(Next(w, steps[0]), steps[1]), steps[2])
            else Next(Next(Next(Next(w, steps[0]), steps[1]), steps[2]), steps[3])
    decreases |steps|
  {
    if |steps| == 1 {
      RunFirst(w, steps[0], []);
      assert steps == [steps[0]] + [];
    } else {
      RunUpToFour(Next(w, steps[0]), steps[1..]);
      RunFirst(w, steps[0], steps[1..]);
      assert steps == [steps[0]] + steps[1..];
    }
  }

  /** Process calls the sender and marks what came of it. */
  lemma SendingIsARun(w: World, fate: Fate)
    requires w.phase == Idle && w.committed < |w.topic| && fate.upserts
    requires Open(Delivery.Upserted(w.state.deliveries, Head(w), w.now)[Head(w).key])
    ensures var (after, outcome) := AfterProcess(w.state, w.config, Head(w), fate, w.now);
            && Possible(w, StepsOf(w, fate))
            && Run(w, StepsOf(w, fate)).state == after
            && (outcome == Ok <==> Run(w, StepsOf(w, fate)).phase == Done)
  {
    RunUpToFour(w, StepsOf(w, fate));
  }

  /**
   A call of Process on the first uncommitted message is a run of the machine, and returns nil exactly when it ends in
   Done.
   */
  lemma ProcessIsARun(w: World, fate: Fate)
    requires w.phase == Idle && w.committed < |w.topic|
    ensures var (after, outcome) := AfterProcess(w.state, w.config, Head(w), fate, w.now);
            && Possible(w, StepsOf(w, fate))
            && Run(w, StepsOf(w, fate)).state == after
            && (outcome == Ok <==> Run(w, StepsOf(w, fate)).phase == Done)
  {
    if fate.upserts && Open(Delivery.Upserted(w.state.deliveries, Head(w), w.now)[Head(w).key]) {
      SendingIsARun(w, fate);
    } else {
      RunUpToFour(w, StepsOf(w, fate));
    }
  }
}
