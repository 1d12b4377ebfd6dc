/** Expansion of a release into one notification command per subscriber, and its effect on the delivery table. */
module Fanout {

  import opened Wrappers
  import opened Clock
  import opened IdempotencyKeys
  import opened Delivery

  type Email = string

  function Message(repo: string, tag: string): string {
    "New release " + tag + " for " + repo + "!"
  }

  /** `hash` stands for EmailHash, which lower-cases and trims the address before it hashes. */
  function Notification(hash: Email -> string, email: Email, repo: string, tag: string, id: nat): Payload {
    Payload(id, ReleaseKey(repo, tag, hash(email)), email, hash(email), repo, tag, Message(repo, tag))
  }

  /** The commands for the first n subscribers in order; `ids` are the fresh notification ids. */
  function Notifications(hash: Email -> string, emails: seq<Email>, n: nat, repo: string, tag: string,
      ids: nat -> nat): (r: seq<Payload>)
    requires n <= |emails|
    ensures |r| == n
    ensures forall i | 0 <= i < n :: r[i] == Notification(hash, emails[i], repo, tag, ids(i))
  {
    if n == 0 then []
    else Notifications(hash, emails, n - 1, repo, tag, ids) + [Notification(hash, emails[n - 1], repo, tag, ids(n - 1))]
  }

  class Expander {
    var outbox: seq<Payload>
    const hash: Email -> string

    constructor (hash: Email -> string)
      ensures outbox == [] && this.hash == hash
    {
      this.hash := hash;
      outbox := [];
    }

    /** One transaction. */
    method PublishReleaseNotification(email: Email, repo: string, tag: string, id: nat, commits: bool)
        returns (ok: bool)
      modifies this`outbox
      ensures ok == commits
      ensures outbox == if commits then old(outbox) + [Notification(hash, email, repo, tag, id)] else old(outbox)
      ensures commits ==>
                var key, message := repo + ":" + tag + ":" + hash(email), "New release " + tag + " for " + repo + "!";
                outbox == old(outbox) + [Payload(id, key, email, hash(email), repo, tag, message)]
    {
      if !commits {
        return false;
      }
      var emailHash := hash(email);
      var key := ReleaseKey(repo, tag, emailHash);
      outbox := outbox + [Payload(id, key, email, emailHash, repo, tag, Message(repo, tag))];
      return true;
    }

    /** Publishes for one subscriber after the other until a publication fails; returns how many it published for. */
    method Expand(subscribers: Option<seq<Email>>, repo: string, tag: string, ids: nat -> nat, commits: nat -> bool)
      returns (ok: bool, published: nat)
      modifies this`outbox
      ensures subscribers.None? ==> !ok && published == 0
      ensures subscribers.Some? ==>
                && published <= |subscribers.value|
                && (forall i: nat | i < published :: commits(i))
                && (published < |subscribers.value| ==> !commits(published))
                && ok == (published == |subscribers.value|)
      ensures outbox == old(outbox) + (if subscribers.None? then []
                                       else Notifications(hash, subscribers.value, published, repo, tag, ids))
    {
      if subscribers.None? {
        return false, 0;
      }
      var emails := subscribers.value;
      for i := 0 to |emails|
        invariant forall j: nat | j < i :: commits(j)
        invariant outbox == old(outbox) + Notifications(hash, emails, i, repo, tag, ids)
      {
        var done := PublishReleaseNotification(emails[i], repo, tag, ids(i), commits(i));
        if !done {
          return false, i;
        }
      }
      return true, |emails|;
    }
  }

  // ---- The effect of any number of expansions ----

  /**
   One delivery of the release event: the order in which the query gave the subscribers, and how far the expansion
   came.
   */
  datatype Expansion = Expansion(emails: seq<Email>, reached: nat, ids: nat -> nat)

  ghost predicate Of(x: Expansion, subscribers: set<Email>) {
    && x.reached <= |x.emails|
    && (forall e :: e in x.emails <==> e in subscribers)
  }

  ghost predicate Complete(x: Expansion) {
    x.reached == |x.emails|
  }

  /** The command is the one the expansion publishes for its i-th subscriber. */
  predicate PublishedAt(p: Payload, hash: Email -> string, x: Expansion, repo: string, tag: string, i: nat) {
    i < x.reached && i < |x.emails| && p == Notification(hash, x.emails[i], repo, tag, x.ids(i))
  }

  ghost predicate Publishes(p: Payload, hash: Email -> string, x: Expansion, repo: string, tag: string) {
    exists i: nat :: PublishedAt(p, hash, x, repo, tag, i)
  }

  /** These are the commands Expand inserts when it comes that far. */
  lemma ExpandPublishes(hash: Email -> string, x: Expansion, repo: string, tag: string, p: Payload)
    requires x.reached <= |x.emails|
    ensures p in Notifications(hash, x.emails, x.reached, repo, tag, x.ids) <==> Publishes(p, hash, x, repo, tag)
  {
    var all := Notifications(hash, x.emails, x.reached, repo, tag, x.ids);
    if p in all {
      var i :| 0 <= i < |all| && all[i] == p;
      assert PublishedAt(p, hash, x, repo, tag, i);
    }
    if Publishes(p, hash, x, repo, tag) {
      var i: nat :| PublishedAt(p, hash, x, repo, tag, i);
      assert all[i] == p;
    }
  }

  /** The commands reach the delivery table: each at least once, in any order. */
  ghost predicate Conveys(delivered: seq<Payload>, hash: Email -> string, expansions: seq<Expansion>, repo: string,
      tag: string)
  {
    && (forall p | p in delivered :: exists x | x in expansions :: Publishes(p, hash, x, repo, tag))
    && (forall x, p | x in expansions && Publishes(p, hash, x, repo, tag) :: p in delivered)
  }

  /** The table after the upserts of a sequence of commands at the given times. */
  function AfterUpserts(t: Table, delivered: seq<Payload>, at: nat -> Time): Table {
    if delivered == [] then t
    else Upserted(AfterUpserts(t, delivered[..|delivered| - 1], at), delivered[|delivered| - 1], at(|delivered|))
  }

  /** A row as the upsert of a new key makes it. */
  predicate IsFreshFor(row: Row, p: Payload) {
    row == Row(p, Pending, 0, "", None, row.updatedAt, None)
  }

  lemma {:induction false} UpsertsAddKeys(t: Table, delivered: seq<Payload>, at: nat -> Time)
    ensures forall k :: k in AfterUpserts(t, delivered, at) <==> k in t || exists p | p in delivered :: p.key == k
    ensures forall k | k in t :: AfterUpserts(t, delivered, at)[k] == t[k]
    ensures forall k | k in AfterUpserts(t, delivered, at) && k !in t ::
              exists p | p in delivered :: p.key == k && IsFreshFor(AfterUpserts(t, delivered, at)[k], p)
  {
    if delivered != [] {
      var before, last := delivered[..|delivered| - 1], delivered[|delivered| - 1];
      UpsertsAddKeys(t, before, at);
      assert delivered == before + [last];
      assert last in delivered;
      forall k | k in AfterUpserts(t, delivered, at) && k !in t
        ensures exists p | p in delivered :: p.key == k && IsFreshFor(AfterUpserts(t, delivered, at)[k], p)
      {
        if k in AfterUpserts(t, before, at) {
          var p :| p in before && p.key == k && IsFreshFor(AfterUpserts(t, before, at)[k], p);
          assert p in delivered;
        }
      }
    }
  }

  /** The keys of a release: one for each distinct hash of its subscribers. */
  function KeysOf(hash: Email -> string, subscribers: set<Email>, repo: string, tag: string): set<Key> {
    set e | e in subscribers :: ReleaseKey(repo, tag, hash(e))
  }

  function HashesOf(hash: Email -> string, subscribers: set<Email>): set<string> {
    set e | e in subscribers :: hash(e)
  }

  lemma OneMoreSubscriber(hash: Email -> string, rest: set<Email>, e: Email, repo: string, tag: string)
    ensures KeysOf(hash, rest + {e}, repo, tag) == KeysOf(hash, rest, repo, tag) + {ReleaseKey(repo, tag, hash(e))}
    ensures HashesOf(hash, rest + {e}) == HashesOf(hash, rest) + {hash(e)}
  {
  }

  lemma KeyIsNewWithHash(hash: Email -> string, rest: set<Email>, e: Email, repo: string, tag: string)
    requires ValidRepo(repo) && forall e :: ShortHash(hash(e))
    ensures ReleaseKey(repo, tag, hash(e)) in KeysOf(hash, rest, repo, tag) <==> hash(e) in HashesOf(hash, rest)
  {
    if ReleaseKey(repo, tag, hash(e)) in KeysOf(hash, rest, repo, tag) {
      var f :| f in rest && ReleaseKey(repo, tag, hash(f)) == ReleaseKey(repo, tag, hash(e));
      ReleaseKeyIsUnambiguous(repo, tag, hash(f), repo, tag, hash(e));
    }
    if hash(e) in HashesOf(hash, rest) {
      var f :| f in rest && hash(f) == hash(e);
      assert ReleaseKey(repo, tag, hash(f)) in KeysOf(hash, rest, repo, tag);
    }
  }

  lemma {:induction false} OneKeyPerHash(hash: Email -> string, subscribers: set<Email>, repo: string, tag: string)
    requires ValidRepo(repo) && forall e :: ShortHash(hash(e))
    ensures |KeysOf(hash, subscribers, repo, tag)| == |HashesOf(hash, subscribers)|
  {
    if subscribers != {} {
      var e :| e in subscribers;
      var rest := subscribers - {e};
      assert subscribers == rest + {e};
      OneKeyPerHash(hash, rest, repo, tag);
      OneMoreSubscriber(hash, rest, e, repo, tag);
      KeyIsNewWithHash(hash, rest, e, repo, tag);
    }
  }

  lemma CompletePublishesAll(hash: Email -> string, x: Expansion, subscribers: set<Email>, repo: string, tag: string,
      e: Email)
      returns (p: Payload)
    requires Of(x, subscribers) && Complete(x) && e in subscribers
    ensures Publishes(p, hash, x, repo, tag) && p.key == ReleaseKey(repo, tag, hash(e))
  {
    var i :| 0 <= i < |x.emails| && x.emails[i] == e;
    p := Notification(hash, e, repo, tag, x.ids(i));
    assert PublishedAt(p, hash, x, repo, tag, i);
  }

  /**
   For fixed subscribers, any number of partial expansions and repeated deliveries with one complete expansion among
   them adds exactly the keys of the release to the delivery table, by OneKeyPerHash one for each distinct hash, and
   leaves other rows alone.
   */
  lemma FanOutIsExactlyOnce(
    hash: Email -> string, subscribers: set<Email>, repo: string, tag: string,
    expansions: seq<Expansion>, delivered: seq<Payload>, t: Table, at: nat -> Time)
    requires forall x | x in expansions :: Of(x, subscribers)
    requires exists x | x in expansions :: Complete(x)
    requires Conveys(delivered, hash, expansions, repo, tag)
    ensures AfterUpserts(t, delivered, at).Keys == t.Keys + KeysOf(hash, subscribers, repo, tag)
    ensures forall k | k in t :: AfterUpserts(t, delivered, at)[k] == t[k]
    ensures forall k | k in KeysOf(hash, subscribers, repo, tag) && k !in t ::
              IsNewRow(AfterUpserts(t, delivered, at)[k], k, hash, subscribers, repo, tag)
  {
    DeliveredCoverRelease(hash, subscribers, repo, tag, expansions, delivered);
    forall p | p in delivered
      ensures IsNotification(p, hash, subscribers, repo, tag) && p.key in KeysOf(hash, subscribers, repo, tag)
    {
      DeliveredAreNotifications(hash, subscribers, repo, tag, expansions, delivered, p);
    }
    UpsertsOfCover(t, delivered, at, KeysOf(hash, subscribers, repo, tag));
    forall k | k in KeysOf(hash, subscribers, repo, tag) && k !in t
      ensures IsNewRow(AfterUpserts(t, delivered, at)[k], k, hash, subscribers, repo, tag)
    {
      var p :| p in delivered && p.key == k && IsFreshFor(AfterUpserts(t, delivered, at)[k], p);
    }
  }

  /** A pending row whose mail goes to a subscriber with the hash of the key. */
  predicate IsNewRow(row: Row, key: Key, hash: Email -> string, subscribers: set<Email>, repo: string, tag: string) {
    row.status == Pending && row.payload.key == key && IsNotification(row.payload, hash, subscribers, repo, tag)
  }

  lemma UpsertsOfCover(t: Table, delivered: seq<Payload>, at: nat -> Time, keys: set<Key>)
    requires forall p | p in delivered :: p.key in keys
    requires forall k | k in keys :: exists p | p in delivered :: p.key == k
    ensures AfterUpserts(t, delivered, at).Keys == t.Keys + keys
    ensures forall k | k in t :: AfterUpserts(t, delivered, at)[k] == t[k]
    ensures forall k | k in keys && k !in t ::
              exists p | p in delivered :: p.key == k && IsFreshFor(AfterUpserts(t, delivered, at)[k], p)
  {
    UpsertsAddKeys(t, delivered, at);
  }

  predicate IsNotification(p: Payload, hash: Email -> string, subscribers: set<Email>, repo: string, tag: string) {
    && p.recipient in subscribers
    && p.repo == repo && p.tag == tag
    && p.emailHash == hash(p.recipient) && p.message == Message(repo, tag)
    && p.key == ReleaseKey(repo, tag, hash(p.recipient))
  }

  lemma DeliveredAreNotifications(
    hash: Email -> string, subscribers: set<Email>, repo: string, tag: string,
    expansions: seq<Expansion>, delivered: seq<Payload>, p: Payload)
    requires forall x | x in expansions :: Of(x, subscribers)
    requires Conveys(delivered, hash, expansions, repo, tag) && p in delivered
    ensures IsNotification(p, hash, subscribers, repo, tag)
  {
    var x :| x in expansions && Publishes(p, hash, x, repo, tag);
    var i: nat :| PublishedAt(p, hash, x, repo, tag, i);
    assert x.emails[i] in x.emails;
  }

  lemma DeliveredCoverRelease(
    hash: Email -> string, subscribers: set<Email>, repo: string, tag: string,
    expansions: seq<Expansion>, delivered: seq<Payload>)
    requires (forall x | x in expansions :: Of(x, subscribers)) && exists x | x in expansions :: Complete(x)
    requires Conveys(delivered, hash, expansions, repo, tag)
    ensures forall k | k in KeysOf(hash, subscribers, repo, tag) :: exists p | p in delivered :: p.key == k
  {
    var complete :| complete in expansions && Complete(complete);
    forall k | k in KeysOf(hash, subscribers, repo, tag) ensures exists p | p in delivered :: p.key == k {
      var e :| e in subscribers && k == ReleaseKey(repo, tag, hash(e));
      var p := CompletePublishesAll(hash, complete, subscribers, repo, tag, e);
    }
  }

  /** The keys are those a single uninterrupted expansion leaves. */
  lemma SameAsOneExpansion(
    hash: Email -> string, subscribers: set<Email>, repo: string, tag: string,
    expansions: seq<Expansion>, delivered: seq<Payload>, single: Expansion, t: Table, at: nat -> Time)
    requires (forall x | x in expansions :: Of(x, subscribers)) && exists x | x in expansions :: Complete(x)
    requires Conveys(delivered, hash, expansions, repo, tag)
    requires Of(single, subscribers) && Complete(single)
    ensures AfterUpserts(t, delivered, at).Keys
            == AfterUpserts(t, Notifications(hash, single.emails, |single.emails|, repo, tag, single.ids), at).Keys
  {
    FanOutIsExactlyOnce(hash, subscribers, repo, tag, expansions, delivered, t, at);
    var one, all := [single], Notifications(hash, single.emails, |single.emails|, repo, tag, single.ids);
    assert single in one;
    forall p ensures p in all <==> Publishes(p, hash, single, repo, tag) {
      ExpandPublishes(hash, single, repo, tag, p);
    }
    FanOutIsExactlyOnce(hash, subscribers, repo, tag, one, all, t, at);
  }
}
