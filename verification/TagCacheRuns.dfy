/**
 Any number of overlapping calls on one tag cache. GitHub answers at one instant and the answer is stored at a later
 one, from which its TTL counts, so a tag may be served for longer than a TTL after GitHub gave it.
 */
module TagCacheRuns {

  import opened Wrappers
  import opened Clock
  import opened TagCache

  type CallId = nat

  datatype Phase =
    | Asking(repo: string)                             // nothing in the cache; GitHub is asked
    | Answered(repo: string, tag: string, at: Time)    // GitHub gave a tag; about to store and return it

  datatype Returned = Returned(repo: string, answer: Option<string>, at: Time)

  datatype World = World(
    now: Time,
    cache: Cache,
    calls: map<CallId, Phase>,
    returned: seq<Returned>,    // history: what the calls returned
    slowest: Time)              // history: the longest time from an answer to its store

  datatype Step =
    | Tick(to: Time)
    | Look(call: CallId, repo: string, readable: bool)
    | Answer(call: CallId)
    | Store(call: CallId, writable: bool)
    | Drop(call: CallId)        // the process dies, or the caller gives up

  function Init(now: Time): World {
    World(now, map[], map[], [], 0)
  }

  predicate Enabled(w: World, s: Step) {
    match s
    case Tick(to) => w.now <= to
    case Look(call, _, _) => call !in w.calls
    case Answer(call) => call in w.calls && w.calls[call].Asking?
    case Store(call, _) => call in w.calls && w.calls[call].Answered?
    case Drop(call) => call in w.calls
  }

  /** The provider's settings: its TTL, and GitHub behind it. */
  datatype Provider = Provider(ttl: Time, upstream: Upstream)

  function Next(p: Provider, w: World, s: Step): World
    requires Enabled(w, s)
  {
    match s
    case Tick(to) => w.(now := to)
    case Look(call, repo, readable) =>
      var cached := Hit(w.cache, repo, w.now, readable);
      if cached.Some? then w.(returned := w.returned + [Returned(repo, cached, w.now)])
      else w.(calls := w.calls[call := Asking(repo)])
    case Answer(call) =>
      var repo := w.calls[call].repo;
      var answer := p.upstream(repo, w.now);
      if IsTag(answer) then w.(calls := w.calls[call := Answered(repo, answer.value, w.now)])
      else w.(calls := w.calls - {call}, returned := w.returned + [Returned(repo, answer, w.now)])
    case Store(call, writable) =>
      var phase := w.calls[call];
      w.(cache := if writable then w.cache[KeyOf(phase.repo) := Entry(phase.tag, w.now + p.ttl)] else w.cache,
         calls := w.calls - {call},
         returned := w.returned + [Returned(phase.repo, Some(phase.tag), w.now)],
         slowest := if w.now - phase.at > w.slowest then w.now - phase.at else w.slowest)
    case Drop(call) => w.(calls := w.calls - {call})
  }

  predicate Possible(p: Provider, w: World, steps: seq<Step>)
    decreases |steps|
  {
    steps == [] || (Enabled(w, steps[0]) && Possible(p, Next(p, w, steps[0]), steps[1..]))
  }

  function Run(p: Provider, w: World, steps: seq<Step>): World
    requires Possible(p, w, steps)
    decreases |steps|
  {
    if steps == [] then w else Run(p, Next(p, w, steps[0]), steps[1..])
  }

  lemma RunFirst(p: Provider, w: World, s: Step, rest: seq<Step>)
    requires Enabled(w, s) && Possible(p, Next(p, w, s), rest)
    ensures Possible(p, w, [s] + rest) && Run(p, w, [s] + rest) == Run(p, Next(p, w, s), rest)
  {
    assert ([s] + rest)[1..] == rest;
  }

  // ---- A call without others in between is a run ----

  function StepsOf(p: Provider, w: World, id: CallId, c: Call): seq<Step> {
    var look, answer, store := Look(id, c.repo, c.readable), [Tick(c.answeredAt)], [Tick(c.storesAt)];
    if Hit(w.cache, c.repo, c.looksAt, c.readable).Some? then [look] + []
    else if !IsTag(p.upstream(c.repo, c.answeredAt)) then [look] + (answer + ([Answer(id)] + []))
    else [look] + (answer + ([Answer(id)] + (store + ([Store(id, c.writable)] + []))))
  }

  lemma CallIsARun(p: Provider, w: World, id: CallId, c: Call)
    requires id !in w.calls && w.now == c.looksAt <= c.answeredAt <= c.storesAt
    ensures Possible(p, w, StepsOf(p, w, id, c))
    ensures var after, (cache, answer) := Run(p, w, StepsOf(p, w, id, c)), AfterCall(w.cache, p.ttl, p.upstream, c);
            && after.cache == cache
            && after.returned == w.returned + [Returned(c.repo, answer, after.now)]
            && after.calls == w.calls
            && (after.cache != w.cache ==>
                  && after.now == c.storesAt
                  && after.slowest == if c.storesAt - c.answeredAt > w.slowest then c.storesAt - c.answeredAt
                      else w.slowest)
  {
    var w1 := Next(p, w, Look(id, c.repo, c.readable));
    if Hit(w.cache, c.repo, c.looksAt, c.readable).Some? {
      RunFirst(p, w, Look(id, c.repo, c.readable), []);
    } else {
      var w2 := Next(p, w1, Tick(c.answeredAt));
      var w3 := Next(p, w2, Answer(id));
      if !IsTag(p.upstream(c.repo, c.answeredAt)) {
        RunFirst(p, w2, Answer(id), []);
        RunFirst(p, w1, Tick(c.answeredAt), [Answer(id)] + []);
        RunFirst(p, w, Look(id, c.repo, c.readable), [Tick(c.answeredAt)] + ([Answer(id)] + []));
      } else {
        var w4 := Next(p, w3, Tick(c.storesAt));
        var end := [Store(id, c.writable)] + [];
        RunFirst(p, w4, Store(id, c.writable), []);
        RunFirst(p, w3, Tick(c.storesAt), end);
        RunFirst(p, w2, Answer(id), [Tick(c.storesAt)] + end);
        RunFirst(p, w1, Tick(c.answeredAt), [Answer(id)] + ([Tick(c.storesAt)] + end));
        var middle := [Answer(id)] + ([Tick(c.storesAt)] + end);
        RunFirst(p, w, Look(id, c.repo, c.readable), [Tick(c.answeredAt)] + middle);
      }
    }
  }

  // ---- How old a tag may be ----

  /** GitHub gave the answer for the repo after the first instant and not after the second. */
  ghost predicate GivenWithin(p: Provider, repo: string, answer: Option<string>, after: Time, until: Time) {
    exists s: Time | after < s <= until :: p.upstream(repo, s) == answer
  }

  ghost predicate CallFits(p: Provider, w: World, phase: Phase) {
    phase.Answered? ==> phase.tag != "" && phase.at <= w.now && p.upstream(phase.repo, phase.at) == Some(phase.tag)
  }

  /** An entry was given by GitHub for its repo, at most the slowest delay before it was stored. */
  ghost predicate EntryFits(p: Provider, w: World, repo: string, entry: Entry) {
    && entry.tag != "" && entry.expiresAt - p.ttl <= w.now
    && GivenWithin(p, repo, Some(entry.tag), entry.expiresAt - p.ttl - w.slowest - 1, entry.expiresAt - p.ttl)
  }

  /**
   An answer without a tag is GitHub's own at that instant; a tag was given less than a TTL and the slowest delay ago.
   */
  ghost predicate ReturnFits(p: Provider, w: World, r: Returned) {
    if IsTag(r.answer) then GivenWithin(p, r.repo, r.answer, r.at - p.ttl - w.slowest, r.at)
    else r.answer == p.upstream(r.repo, r.at)
  }

  ghost predicate Truthful(p: Provider, w: World) {
    && w.slowest >= 0
    && (forall call | call in w.calls :: CallFits(p, w, w.calls[call]))
    && (forall repo :: KeyOf(repo) in w.cache ==> EntryFits(p, w, repo, w.cache[KeyOf(repo)]))
    && (forall r | r in w.returned :: ReturnFits(p, w, r))
  }

  lemma SameKeySameRepo(a: string, b: string)
    requires KeyOf(a) == KeyOf(b)
    ensures a == b
  {
    assert a == KeyOf(a)[|CACHE_KEY_PREFIX|..];
    assert b == KeyOf(b)[|CACHE_KEY_PREFIX|..];
  }

  lemma WindowWidens(p: Provider, repo: string, answer: Option<string>, after: Time, until: Time, earlier: Time)
    requires GivenWithin(p, repo, answer, after, until) && earlier <= after
    ensures GivenWithin(p, repo, answer, earlier, until)
  {
    var s: Time :| after < s <= until && p.upstream(repo, s) == answer;
  }

  lemma EntryStaysFit(p: Provider, w: World, s: Step, repo: string)
    requires Truthful(p, w) && Enabled(w, s) && KeyOf(repo) in Next(p, w, s).cache
    ensures EntryFits(p, Next(p, w, s), repo, Next(p, w, s).cache[KeyOf(repo)])
  {
    var w' := Next(p, w, s);
    if s.Store? && s.writable && KeyOf(repo) == KeyOf(w.calls[s.call].repo) {
      SameKeySameRepo(repo, w.calls[s.call].repo);
      assert CallFits(p, w, w.calls[s.call]);
      assert p.upstream(repo, w.calls[s.call].at) == Some(w'.cache[KeyOf(repo)].tag);
    } else {
      var entry := w.cache[KeyOf(repo)];
      assert EntryFits(p, w, repo, entry);
      WindowWidens(p, repo, Some(entry.tag), entry.expiresAt - p.ttl - w.slowest - 1, entry.expiresAt - p.ttl,
                   entry.expiresAt - p.ttl - w'.slowest - 1);
    }
  }

  /** What a step returns fits. */
  lemma NewReturnFits(p: Provider, w: World, s: Step)
    requires p.ttl > 0 && Truthful(p, w) && Enabled(w, s)
    requires |Next(p, w, s).returned| > |w.returned|
    ensures ReturnFits(p, Next(p, w, s), Next(p, w, s).returned[|w.returned|])
  {
    var w' := Next(p, w, s);
    if s.Look? {
      var entry := w.cache[KeyOf(s.repo)];
      assert EntryFits(p, w, s.repo, entry);
      var t: Time :| entry.expiresAt - p.ttl - w.slowest - 1 < t <= entry.expiresAt - p.ttl
                     && p.upstream(s.repo, t) == Some(entry.tag);
      assert w.now - p.ttl - w'.slowest < t <= w.now;
    } else if s.Store? {
      var phase := w.calls[s.call];
      assert CallFits(p, w, phase);
      assert w.now - p.ttl - w'.slowest < phase.at <= w.now;
    }
  }

  lemma ReturnStaysFit(p: Provider, w: World, s: Step, r: Returned)
    requires Enabled(w, s) && w.slowest >= 0 && ReturnFits(p, w, r)
    ensures ReturnFits(p, Next(p, w, s), r)
  {
    if IsTag(r.answer) {
      WindowWidens(p, r.repo, r.answer, r.at - p.ttl - w.slowest, r.at, r.at - p.ttl - Next(p, w, s).slowest);
    }
  }

  lemma StaysTruthful(p: Provider, w: World, s: Step)
    requires p.ttl > 0 && Truthful(p, w) && Enabled(w, s)
    ensures Truthful(p, Next(p, w, s))
  {
    var w' := Next(p, w, s);
    forall repo | KeyOf(repo) in w'.cache ensures EntryFits(p, w', repo, w'.cache[KeyOf(repo)]) {
      EntryStaysFit(p, w, s, repo);
    }
    forall r | r in w'.returned ensures ReturnFits(p, w', r) {
      if r in w.returned {
        ReturnStaysFit(p, w, s, r);
      } else {
        NewReturnFits(p, w, s);
      }
    }
    forall call | call in w'.calls ensures CallFits(p, w', w'.calls[call]) {
      if call in w.calls {
        assert CallFits(p, w, w.calls[call]);
      }
    }
  }

  lemma {:induction false} RunsAreTruthful(p: Provider, w: World, steps: seq<Step>)
    requires p.ttl > 0 && Truthful(p, w) && Possible(p, w, steps)
    ensures Truthful(p, Run(p, w, steps))
    decreases |steps|
  {
    if steps != [] {
      StaysTruthful(p, w, steps[0]);
      RunsAreTruthful(p, Next(p, w, steps[0]), steps[1..]);
    }
  }

  /**
   In every run of overlapping calls with failing caches: an error or an empty answer is GitHub's own at that instant,
   and a tag was given by GitHub for that very repo less than a TTL plus the longest answer-to-store delay before it
   was returned.
   */
  lemma TagIsFresh(p: Provider, start: Time, steps: seq<Step>, r: Returned)
    requires p.ttl > 0 && Possible(p, Init(start), steps) && r in Run(p, Init(start), steps).returned
    ensures !IsTag(r.answer) ==> r.answer == p.upstream(r.repo, r.at)
    ensures IsTag(r.answer) ==>
              exists s: Time | r.at - p.ttl - Run(p, Init(start), steps).slowest < s <= r.at ::
                p.upstream(r.repo, s) == r.answer
  {
    RunsAreTruthful(p, Init(start), steps);
    assert ReturnFits(p, Run(p, Init(start), steps), r);
  }

  /** While GitHub's answer does not change over that window, the cached provider gives the uncached answer. */
  lemma CachedEqualsUncached(p: Provider, start: Time, steps: seq<Step>, r: Returned)
    requires p.ttl > 0 && Possible(p, Init(start), steps) && r in Run(p, Init(start), steps).returned
    requires forall s: Time | r.at - p.ttl - Run(p, Init(start), steps).slowest < s <= r.at ::
               p.upstream(r.repo, s) == p.upstream(r.repo, r.at)
    ensures r.answer == p.upstream(r.repo, r.at)
  {
    TagIsFresh(p, start, steps, r);
  }

  /** Errors and empty tags are never stored. */
  lemma OnlyTagsAreCached(p: Provider, start: Time, steps: seq<Step>, repo: string)
    requires p.ttl > 0 && Possible(p, Init(start), steps) && KeyOf(repo) in Run(p, Init(start), steps).cache
    ensures var entry := Run(p, Init(start), steps).cache[KeyOf(repo)];
            entry.tag != "" && exists s: Time | s <= entry.expiresAt - p.ttl :: p.upstream(repo, s) == Some(entry.tag)
  {
    RunsAreTruthful(p, Init(start), steps);
    var entry := Run(p, Init(start), steps).cache[KeyOf(repo)];
    assert EntryFits(p, Run(p, Init(start), steps), repo, entry);
  }

  /** GitHub's latest tag changes right after time 0. */
  function Changing(): Upstream {
    (repo, t) => if t <= 0 then Some("v1") else Some("v2")
  }

  /**
   The window is exact. For every TTL and every delay there is a run with that longest delay in which a returned tag
   had been replaced for all but the first instant of the window. So a tag may well be older than a TTL: as soon as
   the delay is longer than one instant, the plain TTL window does not contain its last answer.
   */
  lemma WindowIsExact(ttl: Time, delay: Time) returns (steps: seq<Step>, r: Returned)
    requires ttl > 0 && delay >= 0
    ensures var p := Provider(ttl, Changing());
            && Possible(p, Init(0), steps)
            && Run(p, Init(0), steps).slowest == delay
            && r in Run(p, Init(0), steps).returned && IsTag(r.answer)
            && (forall s: Time | r.at - ttl - delay + 1 < s <= r.at :: p.upstream(r.repo, s) != r.answer)
            && (delay > 1 ==> forall s: Time | r.at - ttl <= s <= r.at :: p.upstream(r.repo, s) != r.answer)
  {
    var p := Provider(ttl, Changing());
    var first := Call("o/r", 0, 0, delay, true, true);
    var front := StepsOf(p, Init(0), 1, first);
    CallIsARun(p, Init(0), 1, first);
    var w1 := Run(p, Init(0), front);
    var later := delay + ttl - 1;
    var w2 := Next(p, w1, Tick(later));
    var w3 := Next(p, w2, Look(2, "o/r", true));
    r := Returned("o/r", Some("v1"), later);
    assert w3.returned == w2.returned + [r];
    RunFirst(p, w2, Look(2, "o/r", true), []);
    RunFirst(p, w1, Tick(later), [Look(2, "o/r", true)] + []);
    RunConcat(p, Init(0), front, [Tick(later)] + ([Look(2, "o/r", true)] + []));
    steps := front + ([Tick(later)] + ([Look(2, "o/r", true)] + []));
  }

  lemma {:induction false} RunConcat(p: Provider, w: World, a: seq<Step>, b: seq<Step>)
    requires Possible(p, w, a) && Possible(p, Run(p, w, a), b)
    ensures Possible(p, w, a + b) && Run(p, w, a + b) == Run(p, Run(p, w, a), b)
    decreases |a|
  {
    if a == [] {
      assert a + b == b;
    } else {
      RunConcat(p, Next(p, w, a[0]), a[1..], b);
      RunFirst(p, w, a[0], a[1..] + b);
      assert a + b == [a[0]] + (a[1..] + b);
    }
  }
}
