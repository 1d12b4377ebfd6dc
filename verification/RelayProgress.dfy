/** When an eligible outbox row is claimed: within as many claims as cover the rows before it, unless others cut in. */
module RelayProgress {

  import opened Batches
  import opened Outbox
  import opened RelayPasses
  import opened RelayRuns

  predicate IsEligible(w: World, id: EventId) {
    id in w.rows && w.rows[id].Eligible(w.now)
  }

  /** How many eligible rows the claim does not put after the given one, itself included. */
  function Position(w: World, id: EventId): nat
    requires IsEligible(w, id)
  {
    |NotAfter(EligibleKeys(w.rows, w.now), id)|
  }

  function Rank(w: World, id: EventId): SortKey
    requires id in w.rows
  {
    SortKey(w.rows[id].occurredAt, id, 0)
  }

  predicate ComesLater(w: World, id: EventId, other: EventId)
    requires id in w.rows && other in w.rows
  {
    w.rows[other].publishedAt.Some? || Before(Rank(w, id), Rank(w, other))
  }

  /**
   The step makes no row eligible that is not ordered after the given one: it inserts no such row, lifts the lease of
   none after a failed publication, and lets the lease of none run out.
   */
  ghost predicate NoneCutsIn(w: World, s: Step, id: EventId)
    requires Enabled(w, s) && id in w.rows
  {
    match s
    case Insert(other, _, occurredAt) => other in w.rows || Before(Rank(w, id), SortKey(occurredAt, other, 0))
    case Refuse(r, _, _) => ComesLater(w, id, w.relays[r].todo[0])
    case Tick(to) =>
      forall other | other in w.rows :: w.rows[other].Eligible(to) && !w.rows[other].Eligible(w.now)
          ==> ComesLater(w, id, other)
    case _ => true
  }

  /** A step that leaves an eligible row alone. */
  ghost predicate PassesOver(w: World, s: Step, id: EventId)
    requires Enabled(w, s)
  {
    IsEligible(w, id) && id in Next(w, s).rows && Next(w, s).rows[id] == w.rows[id]
  }

  lemma ClaimTakes(w: World, s: Step)
    requires Enabled(w, s) && s.Claim?
    ensures EligibleKeys(Next(w, s).rows, w.now) == EligibleKeys(w.rows, w.now) - Elements(s.events)
  {
    FetchFacts(w.rows, w.now, s.limit, s.events);
  }

  /** A claim that passes an eligible row over brings it forward by exactly the limit. */
  lemma ClaimBringsForward(w: World, s: Step, id: EventId)
    requires Enabled(w, s) && s.Claim? && PassesOver(w, s, id)
    ensures IsEligible(Next(w, s), id) && Position(Next(w, s), id) == Position(w, id) - s.limit
  {
    var keys := EligibleKeys(w.rows, w.now);
    var batch: seq<EventId> :| IsBatch(keys, s.limit, batch) && Elements(s.events) == Elements(batch);
    ClaimTakes(w, s);
    assert id !in s.events;
    assert id in Elements(batch) <==> id in Elements(s.events);
    BatchBringsForward(keys, keys, s.limit, batch, id);
  }

  lemma EligibleWasEligible(w: World, s: Step, id: EventId, k: EventId)
    requires Enabled(w, s) && !s.Claim? && PassesOver(w, s, id) && NoneCutsIn(w, s, id)
    requires IsEligible(Next(w, s), k) && !Before(Rank(w, id), SortKey(Next(w, s).rows[k].occurredAt, k, 0))
    ensures IsEligible(w, k) && w.rows[k].occurredAt == Next(w, s).rows[k].occurredAt
  {
  }

  /** While none cuts in, no other row gets ahead. */
  lemma NothingOvertakes(w: World, s: Step, id: EventId)
    requires Enabled(w, s) && !s.Claim? && PassesOver(w, s, id) && NoneCutsIn(w, s, id)
    ensures IsEligible(Next(w, s), id) && Position(Next(w, s), id) <= Position(w, id)
  {
    var w' := Next(w, s);
    var was, after := EligibleKeys(w.rows, w.now), EligibleKeys(w'.rows, w'.now);
    forall k | k in NotAfter(after, id) ensures k in was && was[k] == after[k] {
      EligibleWasEligible(w, s, id, k);
    }
    FewerNotAfter(was, after, id);
  }

  /** How many rows the claims of a run may take. */
  function Capacity(steps: seq<Step>): nat {
    if steps == [] then 0 else (if steps[0].Claim? then steps[0].limit else 0) + Capacity(steps[1..])
  }

  ghost predicate NoneEverCutsIn(w: World, steps: seq<Step>, id: EventId)
    requires Possible(w, steps) && id in w.rows
    decreases |steps|
  {
    steps == [] || (NoneCutsIn(w, steps[0], id) && id in Next(w, steps[0]).rows
        && NoneEverCutsIn(Next(w, steps[0]), steps[1..], id))
  }

  /** Some step of the run changes the row: a claim takes it, or a relay that held it before still marks it. */
  ghost predicate TakenWithin(w: World, steps: seq<Step>, id: EventId)
    requires id in w.rows && Possible(w, steps)
    decreases |steps|
  {
    && steps != []
    && var rows := Next(w, steps[0]).rows;
       || id !in rows
       || rows[id] != w.rows[id]
       || TakenWithin(Next(w, steps[0]), steps[1..], id)
  }

  /**
   Unless others cut in, an eligible row is taken within as many claims as it takes to cover the rows not after it.
   */
  lemma {:induction false} EligibleRowIsTaken(w: World, steps: seq<Step>, id: EventId)
    requires Possible(w, steps) && IsEligible(w, id) && NoneEverCutsIn(w, steps, id)
    requires Capacity(steps) >= Position(w, id)
    ensures TakenWithin(w, steps, id)
    decreases |steps|
  {
    assert id in NotAfter(EligibleKeys(w.rows, w.now), id);
    if steps != [] && PassesOver(w, steps[0], id) {
      if steps[0].Claim? {
        ClaimBringsForward(w, steps[0], id);
      } else {
        NothingOvertakes(w, steps[0], id);
      }
      EligibleRowIsTaken(Next(w, steps[0]), steps[1..], id);
    }
  }

  // ---- The condition is needed ----

  function Attempts(n: nat): seq<Step> {
    if n == 0 then [] else [Claim(0, 1, [1])] + ([Refuse(0, "refused", false)] + Attempts(n - 1))
  }

  /** Row 1 comes first and row 2 second, both are eligible, and relay 0 is idle. */
  predicate TwoRows(w: World) {
    && w.rows.Keys == {1, 2} && IsEligible(w, 1) && IsEligible(w, 2)
    && w.rows[1].occurredAt <= w.rows[2].occurredAt
    && 0 !in w.relays
  }

  lemma FirstIsFetched(w: World)
    requires TwoRows(w)
    ensures IsFetch(w.rows, w.now, 1, [1])
  {
    var keys := EligibleKeys(w.rows, w.now);
    assert keys.Keys == {1, 2};
    assert IsBatch(keys, 1, [1]);
  }

  lemma OneAttempt(w: World) returns (next: World)
    requires TwoRows(w)
    ensures Enabled(w, Claim(0, 1, [1])) && Enabled(Next(w, Claim(0, 1, [1])), Refuse(0, "refused", false))
    ensures next == Next(Next(w, Claim(0, 1, [1])), Refuse(0, "refused", false))
    ensures TwoRows(next) && next.rows[2] == w.rows[2]
  {
    FirstIsFetched(w);
    next := Next(Next(w, Claim(0, 1, [1])), Refuse(0, "refused", false));
  }

  lemma {:induction false} AttemptsCapacity(n: nat)
    ensures Capacity(Attempts(n)) == n
  {
    if n > 0 {
      var tail := [Refuse(0, "refused", false)] + Attempts(n - 1);
      AttemptsCapacity(n - 1);
      assert Attempts(n)[1..] == tail && tail[1..] == Attempts(n - 1);
    }
  }

  /** With batches of one, an event that is always refused keeps every later one from being claimed, however often. */
  lemma {:induction false} RefusedEventBlocks(w: World, n: nat)
    requires TwoRows(w)
    ensures Possible(w, Attempts(n)) && TwoRows(Run(w, Attempts(n))) && Run(w, Attempts(n)).rows[2] == w.rows[2]
    ensures Capacity(Attempts(n)) == n
    decreases n
  {
    AttemptsCapacity(n);
    if n > 0 {
      var next := OneAttempt(w);
      var rest := Attempts(n - 1);
      RefusedEventBlocks(next, n - 1);
      RunCons(Next(w, Claim(0, 1, [1])), Refuse(0, "refused", false), rest);
      RunCons(w, Claim(0, 1, [1]), [Refuse(0, "refused", false)] + rest);
    }
  }
}
