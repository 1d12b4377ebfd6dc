/**
 Any number of relays on one outbox, each crashing wherever it likes between two effects.
 The steps are the single statements and publications that one pass of a relay consists of.
 */
module RelayRuns {

  import opened Wrappers
  import opened Clock
  import opened Batches
  import opened Outbox

  type RelayId = nat

  /** A relay in the middle of a pass: what it still has to do, and whether the first of it is already published. */
  datatype Pass = Pass(todo: seq<EventId>, sent: bool, claimedAt: Time)

  datatype World = World(
    now: Time,
    rows: Rows,
    broker: seq<Record>,
    relays: map<RelayId, Pass>,
    claims: seq<EventId>,         // history: every lease granted
    interrupted: seq<EventId>)    // history: copies that reached the broker without being marked

  datatype Step =
    | Tick(to: Time)
    | Insert(id: EventId, event: Event, occurredAt: Time)
    | Claim(relay: RelayId, limit: nat, events: seq<EventId>)
    | Publish(relay: RelayId)
    | Mark(relay: RelayId)
    | Refuse(relay: RelayId, cause: string, kept: bool)  // publish error, noted; `kept`: the broker has it all the same
    | Drop(relay: RelayId, kept: bool)                   // publish error that could not be noted
    | Crash(relay: RelayId)

  function Init(now: Time): World {
    World(now, map[], [], map[], [], [])
  }

  predicate Busy(w: World, r: RelayId, sent: bool) {
    r in w.relays && w.relays[r].todo != [] && w.relays[r].sent == sent
  }

  ghost predicate Enabled(w: World, s: Step) {
    match s
    case Tick(to) => w.now <= to
    case Insert(_, _, _) => true
    case Claim(r, limit, events) => (r in w.relays ==> w.relays[r].todo == []) && IsFetch(w.rows, w.now, limit, events)
    case Publish(r) => Busy(w, r, false) && w.relays[r].todo[0] in w.rows
    case Mark(r) => Busy(w, r, true)
    case Refuse(r, _, _) => Busy(w, r, false) && w.relays[r].todo[0] in w.rows
    case Drop(r, _) => Busy(w, r, false) && w.relays[r].todo[0] in w.rows
    case Crash(r) => r in w.relays
  }

  /** A relay gives up after a publish error; the broker may have kept the message nevertheless. */
  function Dropped(w: World, r: RelayId, kept: bool): World
    requires Busy(w, r, false) && w.relays[r].todo[0] in w.rows
  {
    var id := w.relays[r].todo[0];
    w.(broker := if kept then w.broker + [Record(id, w.rows[id].event)] else w.broker,
       relays := w.relays - {r},
       interrupted := if kept then w.interrupted + [id] else w.interrupted)
  }

  function Next(w: World, s: Step): World
    requires Enabled(w, s)
  {
    match s
    case Tick(to) => w.(now := to)
    case Insert(id, event, occurredAt) => w.(rows := Inserted(w.rows, id, event, occurredAt))
    case Claim(r, _, events) =>
      w.(rows := Leased(w.rows, events, w.now),
         relays := w.relays[r := Pass(events, false, w.now)],
         claims := w.claims + events)
    case Publish(r) =>
      var id := w.relays[r].todo[0];
      w.(broker := w.broker + [Record(id, w.rows[id].event)],
         relays := w.relays[r := w.relays[r].(sent := true)])
    case Mark(r) =>
      var id := w.relays[r].todo[0];
      w.(rows := if id in w.rows then w.rows[id := Published(w.rows[id], w.now)] else w.rows,
         relays := w.relays[r := w.relays[r].(todo := w.relays[r].todo[1..], sent := false)])
    case Refuse(r, cause, kept) =>
      var id := w.relays[r].todo[0];
      Dropped(w, r, kept).(rows := w.rows[id := Bumped(w.rows[id], cause)])
    case Drop(r, kept) => Dropped(w, r, kept)
    case Crash(r) =>
      w.(relays := w.relays - {r},
         interrupted := if Busy(w, r, true) then w.interrupted + [w.relays[r].todo[0]] else w.interrupted)
  }

  ghost predicate Possible(w: World, steps: seq<Step>)
    decreases |steps|
  {
    steps == [] || (Enabled(w, steps[0]) && Possible(Next(w, steps[0]), steps[1..]))
  }

  ghost function Run(w: World, steps: seq<Step>): World
    requires Possible(w, steps)
    decreases |steps|
  {
    if steps == [] then w else Run(Next(w, steps[0]), steps[1..])
  }

  // ---- Counting ----

  function CountOf(ids: seq<EventId>, id: EventId): nat {
    multiset(ids)[id]
  }

  function Ids(broker: seq<Record>): (r: seq<EventId>)
    ensures |r| == |broker|
    ensures forall i | 0 <= i < |broker| :: r[i] == broker[i].id
  {
    seq(|broker|, i requires 0 <= i < |broker| => broker[i].id)
  }

  /** How many messages of the broker are copies of one event. */
  function Copies(broker: seq<Record>, id: EventId): nat {
    CountOf(Ids(broker), id)
  }

  lemma CopiesOfAppend(broker: seq<Record>, record: Record, id: EventId)
    ensures Copies(broker + [record], id) == Copies(broker, id) + (if record.id == id then 1 else 0)
  {
    assert Ids(broker + [record]) == Ids(broker) + [record.id];
  }

  lemma {:induction false} DistinctCount(ids: seq<EventId>, id: EventId)
    requires Distinct(ids)
    ensures CountOf(ids, id) == if id in ids then 1 else 0
  {
    if ids != [] {
      var rest := ids[..|ids| - 1];
      assert ids == rest + [ids[|ids| - 1]];
      DistinctCount(rest, id);
    }
  }

  // ---- Safety of every run ----

  /** The events a relay still means to publish. */
  function Unsent(p: Pass): seq<EventId> {
    if p.sent && p.todo != [] then p.todo[1..] else p.todo
  }

  /** The relays that still mean to publish an event. */
  function Holders(w: World, id: EventId): set<RelayId> {
    set r | r in w.relays && id in Unsent(w.relays[r])
  }

  ghost predicate PassesValid(w: World) {
    forall r | r in w.relays ::
      && Distinct(w.relays[r].todo)
      && (forall id | id in w.relays[r].todo :: id in w.rows)
      && (w.relays[r].sent ==> w.relays[r].todo != [] && Copies(w.broker, w.relays[r].todo[0]) >= 1)
  }

  ghost predicate BrokerHoldsRows(w: World) {
    forall m | m in w.broker :: m.id in w.rows && m.event == w.rows[m.id].event
  }

  ghost predicate PublishedAreThere(w: World) {
    forall id | id in w.rows && w.rows[id].publishedAt.Some? :: Copies(w.broker, id) >= 1
  }

  ghost predicate LeasesEnd(w: World) {
    forall id | id in w.rows && w.rows[id].lockedUntil.Some? :: w.rows[id].lockedUntil.value <= w.now + LEASE
  }

  /** Every copy and every publication still to come was paid for by a claim. */
  ghost predicate ClaimsPay(w: World) {
    forall id: EventId :: Copies(w.broker, id) + |Holders(w, id)| <= CountOf(w.claims, id)
  }

  ghost predicate Safe(w: World) {
    PassesValid(w) && BrokerHoldsRows(w) && PublishedAreThere(w) && LeasesEnd(w) && ClaimsPay(w)
  }

  /** The event a step sends to the broker, if any. */
  function Sent(w: World, s: Step): Option<EventId>
    requires Enabled(w, s)
  {
    match s
    case Publish(r) => Some(w.relays[r].todo[0])
    case Refuse(r, _, true) => Some(w.relays[r].todo[0])
    case Drop(r, true) => Some(w.relays[r].todo[0])
    case _ => None
  }

  lemma StepSends(w: World, s: Step)
    requires Enabled(w, s)
    ensures Sent(w, s).Some? ==>
              && Sent(w, s).value in w.rows
              && Next(w, s).broker == w.broker + [Record(Sent(w, s).value, w.rows[Sent(w, s).value].event)]
    ensures Sent(w, s).None? ==> Next(w, s).broker == w.broker
    ensures forall id: EventId ::
        Copies(Next(w, s).broker, id) == Copies(w.broker, id) + (if Sent(w, s) == Some(id) then 1 else 0)
  {
    if Sent(w, s).Some? {
      var record := Record(Sent(w, s).value, w.rows[Sent(w, s).value].event);
      forall id: EventId {
        CopiesOfAppend(w.broker, record, id);
      }
    }
  }

  /** published_at never goes back to NULL, the published columns never change, and no row disappears. */
  lemma PublishedNeverReverts(w: World, s: Step, id: EventId)
    requires Enabled(w, s) && id in w.rows
    ensures id in Next(w, s).rows && Next(w, s).rows[id].event == w.rows[id].event
    ensures w.rows[id].publishedAt.Some? ==> Next(w, s).rows[id].publishedAt.Some?
  {
  }

  lemma PassStaysValid(w: World, s: Step, r: RelayId)
    requires PassesValid(w) && Enabled(w, s) && r in Next(w, s).relays
    ensures Distinct(Next(w, s).relays[r].todo)
    ensures forall id | id in Next(w, s).relays[r].todo :: id in Next(w, s).rows
    ensures var p := Next(w, s).relays[r]; p.sent ==> p.todo != [] && Copies(Next(w, s).broker, p.todo[0]) >= 1
  {
    StepSends(w, s);
    if s.Claim? {
      FetchFacts(w.rows, w.now, s.limit, s.events);
    }
  }

  lemma PassesStayValid(w: World, s: Step)
    requires PassesValid(w) && Enabled(w, s)
    ensures PassesValid(Next(w, s))
  {
    forall r | r in Next(w, s).relays {
      PassStaysValid(w, s, r);
    }
  }

  lemma BrokerStillHoldsRows(w: World, s: Step)
    requires Safe(w) && Enabled(w, s)
    ensures BrokerHoldsRows(Next(w, s))
  {
    StepSends(w, s);
    forall m | m in Next(w, s).broker ensures m.id in Next(w, s).rows && m.event == Next(w, s).rows[m.id].event {
      assert m.id in w.rows && m.event == w.rows[m.id].event;
      PublishedNeverReverts(w, s, m.id);
    }
  }

  lemma PublishedAreStillThere(w: World, s: Step)
    requires Safe(w) && Enabled(w, s)
    ensures PublishedAreThere(Next(w, s))
  {
    StepSends(w, s);
    forall id | id in Next(w, s).rows && Next(w, s).rows[id].publishedAt.Some?
        ensures Copies(Next(w, s).broker, id) >= 1 {
      if !(id in w.rows && w.rows[id].publishedAt.Some?) {
        assert s.Mark? && w.relays[s.relay].todo[0] == id;
      }
    }
  }

  lemma LeasesStillEnd(w: World, s: Step)
    requires LeasesEnd(w) && Enabled(w, s)
    ensures LeasesEnd(Next(w, s))
  {
  }

  /** How a step changes the relays that still mean to publish an event. */
  function HoldersNext(w: World, s: Step, id: EventId): set<RelayId>
    requires Enabled(w, s)
  {
    match s
    case Claim(r, _, events) => Holders(w, id) + (if id in events then {r} else {})
    case Publish(r) => if Sent(w, s) == Some(id) then Holders(w, id) - {r} else Holders(w, id)
    case Refuse(r, _, _) => Holders(w, id) - {r}
    case Drop(r, _) => Holders(w, id) - {r}
    case Crash(r) => Holders(w, id) - {r}
    case _ => Holders(w, id)
  }

  lemma HolderAfter(w: World, s: Step, id: EventId, r: RelayId)
    requires PassesValid(w) && Enabled(w, s)
    ensures r in Holders(Next(w, s), id) <==> r in HoldersNext(w, s, id)
    ensures s.Claim? && r == s.relay ==> r !in Holders(w, id)
    ensures Sent(w, s) == Some(id) && r == s.relay ==> r in Holders(w, id)
  {
    if s.Mark? {
      assert Unsent(Next(w, s).relays[s.relay]) == Unsent(w.relays[s.relay]);
    }
  }

  lemma HoldersAfter(w: World, s: Step, id: EventId)
    requires PassesValid(w) && Enabled(w, s)
    ensures |Holders(Next(w, s), id)|
            <= |Holders(w, id)|
               + (if s.Claim? && id in s.events then 1 else 0)
               - (if Sent(w, s) == Some(id) then 1 else 0)
  {
    forall r: RelayId ensures r in Holders(Next(w, s), id) <==> r in HoldersNext(w, s, id) {
      HolderAfter(w, s, id, r);
    }
    assert Holders(Next(w, s), id) == HoldersNext(w, s, id);
    if s.Claim? || Sent(w, s) == Some(id) {
      HolderAfter(w, s, id, s.relay);
    }
  }

  lemma ClaimsStillPay(w: World, s: Step)
    requires Safe(w) && Enabled(w, s)
    ensures ClaimsPay(Next(w, s))
  {
    StepSends(w, s);
    forall id: EventId
      ensures Copies(Next(w, s).broker, id) + |Holders(Next(w, s), id)| <= CountOf(Next(w, s).claims, id)
    {
      HoldersAfter(w, s, id);
      if s.Claim? {
        DistinctCount(s.events, id);
      }
    }
  }

  lemma SafeStep(w: World, s: Step)
    requires Safe(w) && Enabled(w, s)
    ensures Safe(Next(w, s))
  {
    PassesStayValid(w, s);
    BrokerStillHoldsRows(w, s);
    PublishedAreStillThere(w, s);
    LeasesStillEnd(w, s);
    ClaimsStillPay(w, s);
  }

  lemma {:induction false} SafeRuns(w: World, steps: seq<Step>)
    requires Safe(w) && Possible(w, steps)
    ensures Safe(Run(w, steps))
    decreases |steps|
  {
    if steps != [] {
      SafeStep(w, steps[0]);
      SafeRuns(Next(w, steps[0]), steps[1..]);
    }
  }

  /**
   At-least-once publishing in every run: what is published is in the broker, what is in the broker came from a row,
   copies never exceed claims.
   */
  lemma PublishingIsSafe(start: Time, steps: seq<Step>, id: EventId)
    requires Possible(Init(start), steps)
    ensures var w := Run(Init(start), steps);
            && (id in w.rows && w.rows[id].publishedAt.Some? ==> exists m | m in w.broker ::
                m == Record(id, w.rows[id].event))
            && (forall m | m in w.broker :: m.id in w.rows && m.event == w.rows[m.id].event)
            && Copies(w.broker, id) <= CountOf(w.claims, id)
  {
    SafeRuns(Init(start), steps);
    var w := Run(Init(start), steps);
    if id in w.rows && w.rows[id].publishedAt.Some? {
      assert id in Ids(w.broker);
      var i :| 0 <= i < |w.broker| && Ids(w.broker)[i] == id;
      assert w.broker[i] in w.broker;
    }
  }

  /** Nothing is lost: once 30 seconds have passed, whatever is not published can be claimed again. */
  lemma UnpublishedBecomesEligible(start: Time, steps: seq<Step>, id: EventId, later: Time)
    requires Possible(Init(start), steps)
    requires id in Run(Init(start), steps).rows && Run(Init(start), steps).rows[id].publishedAt.None?
    requires later > Run(Init(start), steps).now + 30_000_000
    ensures Run(Init(start), steps).rows[id].Eligible(later)
  {
    SafeRuns(Init(start), steps);
  }

  /** The row is published, or under a lease that runs at least until the given instant. */
  predicate LeasedUntil(w: World, id: EventId, until: Time) {
    && id in w.rows
    && (w.rows[id].publishedAt.Some? || (w.rows[id].lockedUntil.Some? && w.rows[id].lockedUntil.value >= until))
  }

  /** The step marks the event published, or notes that its publication was refused. */
  predicate LiftsLease(w: World, s: Step, id: EventId) {
    (s.Mark? || s.Refuse?) && s.relay in w.relays && w.relays[s.relay].todo != [] && w.relays[s.relay].todo[0] == id
  }

  ghost predicate NeverLifted(w: World, steps: seq<Step>, id: EventId)
    requires Possible(w, steps)
    decreases |steps|
  {
    steps == [] || (!LiftsLease(w, steps[0], id) && NeverLifted(Next(w, steps[0]), steps[1..], id))
  }

  lemma LeaseHolds(w: World, s: Step, id: EventId, until: Time)
    requires Enabled(w, s) && LeasedUntil(w, id, until) && !LiftsLease(w, s, id)
    ensures LeasedUntil(Next(w, s), id, until)
    ensures s.Claim? && id in s.events ==> w.now > until
  {
    if s.Claim? {
      FetchFacts(w.rows, w.now, s.limit, s.events);
    }
  }

  lemma {:induction false} LeaseOutlasts(w: World, steps: seq<Step>, id: EventId, until: Time)
    requires Possible(w, steps) && NeverLifted(w, steps, id) && LeasedUntil(w, id, until)
    ensures LeasedUntil(Run(w, steps), id, until)
    decreases |steps|
  {
    if steps != [] {
      LeaseHolds(w, steps[0], id, until);
      LeaseOutlasts(Next(w, steps[0]), steps[1..], id, until);
    }
  }

  /**
   A claimed row that is neither marked nor refused is in no other claim until more than thirty seconds have passed.
   */
  lemma LeasesKeepDistance(w: World, first: Step, between: seq<Step>, second: Step, id: EventId)
    requires Enabled(w, first) && first.Claim? && id in first.events
    requires Possible(Next(w, first), between) && NeverLifted(Next(w, first), between, id)
    requires Enabled(Run(Next(w, first), between), second) && second.Claim? && id in second.events
    ensures Run(Next(w, first), between).now > w.now + 30_000_000
  {
    FetchFacts(w.rows, w.now, first.limit, first.events);
    LeaseOutlasts(Next(w, first), between, id, w.now + 30_000_000);
    LeaseHolds(Run(Next(w, first), between), second, id, w.now + 30_000_000);
  }

  // ---- Runs in which every pass finishes within its lease ----

  ghost predicate Timely(w: World, s: Step) {
    s.Tick? ==> forall r | r in w.relays && w.relays[r].todo != [] :: s.to <= w.relays[r].claimedAt + 30_000_000
  }

  ghost predicate AllTimely(w: World, steps: seq<Step>)
    requires Possible(w, steps)
    decreases |steps|
  {
    steps == [] || (Timely(w, steps[0]) && AllTimely(Next(w, steps[0]), steps[1..]))
  }

  /** An event in a pass is unpublished and leased until that pass's time is over, which is not before now. */
  ghost predicate HeldUnderLease(w: World) {
    forall r, id | r in w.relays && id in w.relays[r].todo ::
      && id in w.rows
      && w.rows[id].publishedAt.None?
      && w.rows[id].lockedUntil == Some(w.relays[r].claimedAt + LEASE)
      && w.now <= w.relays[r].claimedAt + LEASE
  }

  ghost predicate OneHolder(w: World) {
    forall r, q, id | r in w.relays && q in w.relays && id in w.relays[r].todo && id in w.relays[q].todo :: r == q
  }

  /** A relay has published the event and is about to mark it. */
  predicate InFlight(w: World, id: EventId) {
    exists r | r in w.relays :: w.relays[r].sent && w.relays[r].todo != [] && w.relays[r].todo[0] == id
  }

  /** Copies beyond the first are paid for by interruptions. */
  ghost predicate InterruptionsPay(w: World) {
    forall id: EventId ::
      Copies(w.broker, id)
      <= CountOf(w.interrupted, id)
         + (if Marked(w, id) || InFlight(w, id) then 1 else 0)
  }

  ghost predicate Exclusive(w: World) {
    PassesValid(w) && HeldUnderLease(w) && OneHolder(w) && InterruptionsPay(w)
  }

  lemma LeasesStayHeld(w: World, s: Step, r: RelayId, id: EventId)
    requires Exclusive(w) && Enabled(w, s) && Timely(w, s)
    requires r in Next(w, s).relays && id in Next(w, s).relays[r].todo
    ensures var w' := Next(w, s);
            && id in w'.rows
            && w'.rows[id].publishedAt.None?
            && w'.rows[id].lockedUntil == Some(w'.relays[r].claimedAt + LEASE)
            && w'.now <= w'.relays[r].claimedAt + LEASE
  {
    if s.Claim? {
      FetchFacts(w.rows, w.now, s.limit, s.events);
    } else {
      assert id in w.relays[r].todo;
      assert OneHolder(w);
    }
  }

  lemma HoldersStayAlone(w: World, s: Step)
    requires Exclusive(w) && Enabled(w, s)
    ensures OneHolder(Next(w, s))
  {
    var w' := Next(w, s);
    forall r, q, id | r in w'.relays && q in w'.relays && id in w'.relays[r].todo && id in w'.relays[q].todo
        ensures r == q {
      if s.Claim? {
        FetchFacts(w.rows, w.now, s.limit, s.events);
        assert r != s.relay ==> id in w.relays[r].todo;
        assert q != s.relay ==> id in w.relays[q].todo;
      } else {
        assert id in w.relays[r].todo && id in w.relays[q].todo;
      }
    }
  }

  predicate Marked(w: World, id: EventId) {
    id in w.rows && w.rows[id].publishedAt.Some?
  }

  /** Publication, or its announcement by a relay in flight, survives every step except a recorded interruption. */
  lemma FirstCopyAccountedFor(w: World, s: Step, id: EventId)
    requires PassesValid(w) && Enabled(w, s)
    ensures Marked(w, id) ==> Marked(Next(w, s), id)
    ensures s.Publish? && Sent(w, s) == Some(id) ==> InFlight(Next(w, s), id)
    ensures InFlight(w, id) ==>
              || InFlight(Next(w, s), id) || Marked(Next(w, s), id)
              || CountOf(Next(w, s).interrupted, id) == CountOf(w.interrupted, id) + 1
  {
    var w' := Next(w, s);
    if s.Publish? {
      assert w'.relays[s.relay].sent && w'.relays[s.relay].todo == w.relays[s.relay].todo;
    }
    if InFlight(w, id) {
      var r :| r in w.relays && w.relays[r].sent && w.relays[r].todo != [] && w.relays[r].todo[0] == id;
      if s != Mark(r) && s != Crash(r) {
        assert r in w'.relays && w'.relays[r] == w.relays[r];
      }
    }
  }

  lemma InterruptionsStillPay(w: World, s: Step)
    requires Exclusive(w) && Enabled(w, s)
    ensures InterruptionsPay(Next(w, s))
  {
    var w' := Next(w, s);
    StepSends(w, s);
    forall id: EventId
      ensures Copies(w'.broker, id)
              <= CountOf(w'.interrupted, id) + (if Marked(w', id) || InFlight(w', id) then 1 else 0)
    {
      FirstCopyAccountedFor(w, s, id);
      InterruptionsCount(w, s, id);
      if Sent(w, s) == Some(id) {
        HeldIsUnmarked(w, s.relay, id);
      }
    }
  }

  lemma InterruptionsCount(w: World, s: Step, id: EventId)
    requires Enabled(w, s)
    ensures CountOf(w.interrupted, id) <= CountOf(Next(w, s).interrupted, id)
    ensures Sent(w, s) == Some(id) && !s.Publish? ==>
              CountOf(Next(w, s).interrupted, id) == CountOf(w.interrupted, id) + 1
  {
  }

  lemma HeldIsUnmarked(w: World, r: RelayId, id: EventId)
    requires Exclusive(w) && Busy(w, r, false) && w.relays[r].todo[0] == id
    ensures !Marked(w, id) && !InFlight(w, id)
  {
    assert id in w.relays[r].todo;
    assert forall q | q in w.relays && id in w.relays[q].todo :: q == r;
  }

  lemma ExclusiveStep(w: World, s: Step)
    requires Safe(w) && Exclusive(w) && Enabled(w, s) && Timely(w, s)
    ensures Exclusive(Next(w, s))
  {
    PassesStayValid(w, s);
    HoldersStayAlone(w, s);
    InterruptionsStillPay(w, s);
    forall r, id | r in Next(w, s).relays && id in Next(w, s).relays[r].todo {
      LeasesStayHeld(w, s, r, id);
    }
  }

  lemma {:induction false} ExclusiveRuns(w: World, steps: seq<Step>)
    requires Safe(w) && Exclusive(w) && Possible(w, steps) && AllTimely(w, steps)
    ensures Exclusive(Run(w, steps))
    decreases |steps|
  {
    if steps != [] {
      SafeStep(w, steps[0]);
      ExclusiveStep(w, steps[0]);
      ExclusiveRuns(Next(w, steps[0]), steps[1..]);
    }
  }

  /**
   When passes finish within the lease, no two relays hold one event and an event has at most one copy more than its
   interruptions.
   */
  lemma LeasesExclude(start: Time, steps: seq<Step>, id: EventId)
    requires Possible(Init(start), steps) && AllTimely(Init(start), steps)
    ensures var w := Run(Init(start), steps);
            && Copies(w.broker, id) <= 1 + CountOf(w.interrupted, id)
            && forall r, q | r in w.relays && q in w.relays && id in w.relays[r].todo && id in w.relays[q].todo ::
                r == q
  {
    ExclusiveRuns(Init(start), steps);
  }
}
