/** No saga starves in the ordered, limited retry sweep, and every saga ends. */
module SagaFairness {

  import opened Clock
  import opened Contracts
  import opened Batches
  import opened WatchSaga
  import opened SagaProtocol
  import opened SagaBudget

  /** The active rows the sweep's ORDER BY does not put after the given one, itself included. */
  ghost function Ahead(sagas: map<SagaId, Instance>, id: SagaId): set<SagaId>
    requires id in sagas && sagas[id].nextRetryAt.Some?
  {
    set k | k in sagas && sagas[k].Active() && sagas[k].nextRetryAt.Some? && !Before(Rank(sagas[id]), Rank(sagas[k]))
  }

  ghost function Position(sagas: map<SagaId, Instance>, id: SagaId): nat
    requires id in sagas && sagas[id].nextRetryAt.Some?
  {
    |Ahead(sagas, id)|
  }

  ghost predicate IsDue(w: World, id: SagaId) {
    id in w.book.sagas && w.book.sagas[id].Due(w.now)
  }

  /** A step that leaves the row of a due saga alone. */
  ghost predicate PassesOver(w: World, s: Step, id: SagaId)
    requires Enabled(w, s)
  {
    IsDue(w, id) && id in Next(w, s).book.sagas && Next(w, s).book.sagas[id] == w.book.sagas[id]
  }

  lemma SweepPassesOverUnpicked(w: World, s: Step, id: SagaId)
    requires Inv(w) && Enabled(w, s) && s.Sweep? && PassesOver(w, s, id)
    ensures id !in s.due && id in DueKeys(w.book.sagas, w.now)
    ensures |s.due| == EffectiveLimit(s.limit)
    ensures Elements(s.due) <= Ahead(w.book.sagas, id)
  {
    SweepPicks(w, s);
    var keys := DueKeys(w.book.sagas, w.now);
    assert id !in s.due by {
      assert Swept(w.book.sagas[id], w.now) != w.book.sagas[id];
    }
    LeftBehindMeansFull(keys, EffectiveLimit(s.limit), s.due, id);
    forall k | k in s.due ensures k in Ahead(w.book.sagas, id) {
      assert !Before(keys[id], keys[k]);
    }
  }

  lemma SweptLeavesAhead(book: Book, due: seq<SagaId>, now: Time, id: SagaId)
    requires Picked(book.sagas, due, now) && id in book.sagas && book.sagas[id].Due(now) && id !in due
    ensures Ahead(AfterSweep(book, due, now).sagas, id) == Ahead(book.sagas, id) - Elements(due)
  {
    var was, after := book.sagas, AfterSweep(book, due, now).sagas;
    forall k | k in was ensures k in Ahead(after, id) <==> k in Ahead(was, id) && k !in due {
    }
  }

  /** A sweep that passes a due saga over brings it forward by exactly the rows it took. */
  lemma SweepBringsForward(w: World, s: Step, id: SagaId)
    requires Inv(w) && Enabled(w, s) && s.Sweep? && PassesOver(w, s, id)
    ensures Position(Next(w, s).book.sagas, id) == Position(w.book.sagas, id) - EffectiveLimit(s.limit)
  {
    SweepPassesOverUnpicked(w, s, id);
    SweepPicks(w, s);
    SweptLeavesAhead(w.book, s.due, w.now, id);
    DistinctCardinality(s.due);
    var ahead := Ahead(w.book.sagas, id);
    assert ahead == (ahead - Elements(s.due)) + Elements(s.due);
  }

  /** A row that a step creates or changes is inactive afterwards, or waits for a later instant. */
  lemma ChangedRowsWait(w: World, s: Step, k: SagaId)
    requires Inv(w) && Enabled(w, s) && k in Next(w, s).book.sagas
    requires k in w.book.sagas ==> Next(w, s).book.sagas[k] != w.book.sagas[k]
    ensures var row := Next(w, s).book.sagas[k];
            !row.Active() || (row.nextRetryAt.Some? && row.nextRetryAt.value > w.now)
  {
    if s.Sweep? {
      SweepPicks(w, s);
    }
  }

  /** Nothing that happens puts another row ahead of a due saga. */
  lemma NothingOvertakes(w: World, s: Step, id: SagaId)
    requires Inv(w) && Enabled(w, s) && PassesOver(w, s, id)
    ensures Ahead(Next(w, s).book.sagas, id) <= Ahead(w.book.sagas, id)
    ensures Position(Next(w, s).book.sagas, id) <= Position(w.book.sagas, id)
  {
    var was, after := w.book.sagas, Next(w, s).book.sagas;
    forall k | k in Ahead(after, id) ensures k in Ahead(was, id) {
      if k !in was || after[k] != was[k] {
        ChangedRowsWait(w, s, k);
      }
    }
    SubsetCardinality(Ahead(after, id), Ahead(was, id));
  }

  /** How many rows the sweeps of a run may take. */
  function Capacity(steps: seq<Step>): nat {
    if steps == [] then 0
    else (if steps[0].Sweep? then EffectiveLimit(steps[0].limit) else 0) + Capacity(steps[1..])
  }

  /** Being passed over keeps a saga due and uses up the step's capacity. */
  lemma PassedOverMovesUp(w: World, s: Step, id: SagaId)
    requires Inv(w) && Enabled(w, s) && PassesOver(w, s, id)
    ensures Inv(Next(w, s)) && IsDue(Next(w, s), id)
    ensures Position(Next(w, s).book.sagas, id) + Capacity([s]) <= Position(w.book.sagas, id)
  {
    InvStep(w, s);
    NothingOvertakes(w, s, id);
    if s.Sweep? {
      SweepBringsForward(w, s, id);
    }
    assert [s][1..] == [];
  }

  lemma {:induction false} PossiblePrefix(w: World, steps: seq<Step>, n: nat)
    requires Possible(w, steps) && n <= |steps|
    ensures Possible(w, steps[..n])
    decreases n
  {
    if n > 0 {
      PossiblePrefix(Next(w, steps[0]), steps[1..], n - 1);
      assert steps[..n][1..] == steps[1..][..n - 1];
    }
  }

  ghost predicate HandledWithin(w: World, steps: seq<Step>, id: SagaId)
    requires id in w.book.sagas
  {
    exists n: nat :: n <= |steps| && Possible(w, steps[..n])
                     && id in Run(w, steps[..n]).book.sagas
                     && Run(w, steps[..n]).book.sagas[id] != w.book.sagas[id]
  }

  lemma HandledLater(w: World, steps: seq<Step>, id: SagaId)
    requires steps != [] && Possible(w, steps) && id in w.book.sagas
    requires id in Next(w, steps[0]).book.sagas && Next(w, steps[0]).book.sagas[id] == w.book.sagas[id]
    requires HandledWithin(Next(w, steps[0]), steps[1..], id)
    ensures HandledWithin(w, steps, id)
  {
    var w' := Next(w, steps[0]);
    var n: nat :| n <= |steps[1..]| && Possible(w', steps[1..][..n])
                  && id in Run(w', steps[1..][..n]).book.sagas
                  && Run(w', steps[1..][..n]).book.sagas[id] != w'.book.sagas[id];
    assert steps[..n + 1][1..] == steps[1..][..n];
    assert Possible(w, steps[..n + 1]) && Run(w, steps[..n + 1]) == Run(w', steps[1..][..n]);
  }

  lemma HandledNow(w: World, steps: seq<Step>, id: SagaId)
    requires steps != [] && Possible(w, steps) && id in w.book.sagas
    requires id in Next(w, steps[0]).book.sagas && Next(w, steps[0]).book.sagas[id] != w.book.sagas[id]
    ensures HandledWithin(w, steps, id)
  {
    assert steps[..1] == [steps[0]];
    RunOne(w, steps[0]);
  }

  /**
   No saga starves: a due saga is handled within as many sweeps as it takes to cover the rows not after it.
   Requests, acks and clock ticks may come in between, and every sweep may have its own limit.
   */
  lemma {:induction false} NoSagaStarves(w: World, steps: seq<Step>, id: SagaId)
    requires Inv(w) && Possible(w, steps) && IsDue(w, id)
    requires Capacity(steps) >= Position(w.book.sagas, id)
    ensures HandledWithin(w, steps, id)
    decreases |steps|
  {
    assert id in Ahead(w.book.sagas, id);
    if steps != [] {
      var s := steps[0];
      StepKeepsRow(w, s, id);
      if PassesOver(w, s, id) {
        PassedOverMovesUp(w, s, id);
        NoSagaStarves(Next(w, s), steps[1..], id);
        HandledLater(w, steps, id);
      } else {
        HandledNow(w, steps, id);
      }
    }
  }

  function SweepsIn(steps: seq<Step>): nat {
    if steps == [] then 0 else (if steps[0].Sweep? then 1 else 0) + SweepsIn(steps[1..])
  }

  /** With one limit for every sweep, n sweeps cover n times the limit. */
  lemma {:induction false} EqualSweepsCapacity(steps: seq<Step>, limit: int)
    requires forall s | s in steps :: s.Sweep? ==> s.limit == limit
    ensures Capacity(steps) == EffectiveLimit(limit) * SweepsIn(steps)
    decreases |steps|
  {
    if steps != [] {
      EqualSweepsCapacity(steps[1..], limit);
      assert steps[0] in steps;
    }
  }

  lemma TouchedAfterDeadlineEnds(w: World, s: Step, id: SagaId)
    requires Enabled(w, s) && id in w.book.sagas && w.book.sagas[id].deadlineAt <= w.now
    ensures id in Next(w, s).book.sagas
    ensures Next(w, s).book.sagas[id] != w.book.sagas[id] ==> !Next(w, s).book.sagas[id].Active()
  {
  }

  lemma {:induction false} StaysEnded(w: World, steps: seq<Step>, id: SagaId)
    requires Possible(w, steps) && id in w.book.sagas && !w.book.sagas[id].Active()
    ensures id in Run(w, steps).book.sagas && Run(w, steps).book.sagas[id] == w.book.sagas[id]
    decreases |steps|
  {
    if steps != [] {
      TerminalIsFinal(w, steps[0], id);
      StaysEnded(Next(w, steps[0]), steps[1..], id);
    }
  }

  /**
   Every saga ends: an hour after its deadline it is due, and the sweeps that reach it complete or fail it for good.
   */
  lemma {:induction false} EverySagaEnds(w: World, steps: seq<Step>, id: SagaId)
    requires Inv(w) && Possible(w, steps) && id in w.book.sagas
    requires w.book.sagas[id].deadlineAt + HOUR <= w.now
    requires w.book.sagas[id].nextRetryAt.Some? ==> Capacity(steps) >= Position(w.book.sagas, id)
    ensures id in Run(w, steps).book.sagas && !Run(w, steps).book.sagas[id].Active()
    decreases |steps|
  {
    if !w.book.sagas[id].Active() {
      StaysEnded(w, steps, id);
    } else {
      assert IsDue(w, id) && id in Ahead(w.book.sagas, id);
      if steps == [] {
        assert false;
      }
      var s := steps[0];
      TouchedAfterDeadlineEnds(w, s, id);
      StepKeepsRow(w, s, id);
      assert SameSagas(map[id := w.book.sagas[id]], Next(w, s).book.sagas);
      if PassesOver(w, s, id) {
        PassedOverMovesUp(w, s, id);
        EverySagaEnds(Next(w, s), steps[1..], id);
      } else {
        StaysEnded(Next(w, s), steps[1..], id);
      }
    }
  }
}
