/** No failed delivery starves in the ordered, limited retry scheduler. */
module DeliveryFairness {

  import opened Batches
  import opened Delivery
  import opened DeliveryPipeline

  /** The rows that wait for a retry, due or not. */
  function Waiting(t: Table): map<Key, SortKey> {
    map k | k in t && t[k].status == Failed && t[k].nextAttemptAt.Some? :: Rank(t[k])
  }

  /** The row is due, and not since this very instant. */
  predicate IsDue(w: World, key: Key) {
    && key in w.state.deliveries
    && w.state.deliveries[key].DueForRetry(w.now)
    && w.state.deliveries[key].updatedAt < w.now
  }

  /** How many waiting rows the scheduler does not put after the given one, itself included. */
  function Position(w: World, key: Key): nat
    requires IsDue(w, key)
  {
    |NotAfter(Waiting(w.state.deliveries), key)|
  }

  predicate DelaysForward(config: Config) {
    forall i | 0 <= i < |config.retryDelays| :: config.retryDelays[i] >= 0
  }

  lemma DelayIsForward(config: Config, attempt: int)
    requires DelaysForward(config)
    ensures RetryDelay(config, attempt) >= 0
  {
  }

  /** A step that leaves the row of a due delivery alone. */
  ghost predicate PassesOver(w: World, s: Step, key: Key)
    requires Enabled(w, s)
  {
    && IsDue(w, key)
    && key in Next(w, s).state.deliveries
    && Next(w, s).state.deliveries[key] == w.state.deliveries[key]
  }

  lemma EnqueueTakes(w: World, s: Step)
    requires Enabled(w, s) && s.Enqueue?
    ensures Waiting(Next(w, s).state.deliveries) == Waiting(w.state.deliveries) - Elements(s.batch)
  {
    assert forall k | k in s.batch :: k in DueKeys(w.state.deliveries, w.now);
  }

  lemma PickedRowChanges(w: World, s: Step, key: Key)
    requires Enabled(w, s) && s.Enqueue? && PassesOver(w, s, key)
    ensures key !in s.batch
  {
  }

  /** A sweep that passes a due row over brings it forward by exactly the limit. */
  lemma SweepBringsForward(w: World, s: Step, key: Key)
    requires Enabled(w, s) && s.Enqueue? && PassesOver(w, s, key)
    ensures Position(Next(w, s), key) == Position(w, key) - s.limit
  {
    PickedRowChanges(w, s, key);
    EnqueueTakes(w, s);
    BatchBringsForward(Waiting(w.state.deliveries), DueKeys(w.state.deliveries, w.now), s.limit, s.batch, key);
  }

  /** A row that a step lets wait waits from now on, and was updated now. */
  lemma NewWaitersComeLater(w: World, s: Step, k: Key)
    requires DelaysForward(w.config) && Enabled(w, s) && k in Waiting(Next(w, s).state.deliveries)
    ensures || (k in w.state.deliveries && w.state.deliveries[k] == Next(w, s).state.deliveries[k])
            || (var rank := Waiting(Next(w, s).state.deliveries)[k]; rank.first >= w.now && rank.second == w.now)
  {
    if s.Mark? && w.phase.Bounced? {
      DelayIsForward(w.config, w.phase.attempts + 1);
    }
  }

  /** Nothing that happens puts another row ahead of a due one. */
  lemma NothingOvertakes(w: World, s: Step, key: Key)
    requires DelaysForward(w.config) && Enabled(w, s) && PassesOver(w, s, key)
    ensures IsDue(Next(w, s), key) && Position(Next(w, s), key) <= Position(w, key)
  {
    var was, after := Waiting(w.state.deliveries), Waiting(Next(w, s).state.deliveries);
    forall k | k in NotAfter(after, key) ensures k in was && was[k] == after[k] {
      NewWaitersComeLater(w, s, k);
    }
    FewerNotAfter(was, after, key);
  }

  /** How many rows the sweeps of a run may take. */
  function Capacity(steps: seq<Step>): nat {
    if steps == [] then 0 else (if steps[0].Enqueue? then steps[0].limit else 0) + Capacity(steps[1..])
  }

  ghost predicate HandledWithin(w: World, steps: seq<Step>, key: Key)
    requires key in w.state.deliveries && Possible(w, steps)
    decreases |steps|
  {
    && steps != []
    && var t := Next(w, steps[0]).state.deliveries;
       || key !in t
       || t[key] != w.state.deliveries[key]
       || HandledWithin(Next(w, steps[0]), steps[1..], key)
  }

  /**
   A due delivery is retried, or handled otherwise, within as many sweeps as it takes to cover the rows not after it,
   whatever is sent, marked, emitted and relayed in between, and wherever the process dies.
   */
  lemma {:induction false} NoRetryStarves(w: World, steps: seq<Step>, key: Key)
    requires DelaysForward(w.config) && Possible(w, steps) && IsDue(w, key)
    requires Capacity(steps) >= Position(w, key)
    ensures HandledWithin(w, steps, key)
    decreases |steps|
  {
    assert key in NotAfter(Waiting(w.state.deliveries), key);
    if steps != [] && PassesOver(w, steps[0], key) {
      NothingOvertakes(w, steps[0], key);
      if steps[0].Enqueue? {
        SweepBringsForward(w, steps[0], key);
      }
      NoRetryStarves(Next(w, steps[0]), steps[1..], key);
    }
  }
}
