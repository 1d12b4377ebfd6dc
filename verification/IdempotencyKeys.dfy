/** The idempotency keys of notifications: what they determine, and why release and confirmation keys never meet. */
module IdempotencyKeys {

  const HASH_LENGTH: nat := 12

  predicate RepoChar(c: char) {
    'a' <= c <= 'z' || 'A' <= c <= 'Z' || '0' <= c <= '9' || c == '.' || c == '_' || c == '-'
  }

  predicate RepoPart(s: string) {
    s != "" && forall c | c in s :: RepoChar(c)
  }

  /** The router's pattern for a repository: owner, slash, name. */
  ghost predicate ValidRepo(repo: string) {
    exists owner, name :: RepoPart(owner) && RepoPart(name) && repo == owner + "/" + name
  }

  predicate HexDigit(c: char) {
    '0' <= c <= '9' || 'a' <= c <= 'f'
  }

  /** What the hash functions return: the first twelve hex digits of a SHA-256 sum. */
  predicate ShortHash(h: string) {
    |h| == HASH_LENGTH && forall c | c in h :: HexDigit(c)
  }

  function ReleaseKey(repo: string, tag: string, emailHash: string): string {
    repo + ":" + tag + ":" + emailHash
  }

  function ConfirmationKey(repo: string, emailHash: string, messageHash: string): string {
    "confirmation:" + repo + ":" + emailHash + ":" + messageHash
  }

  /** The length of the part before the first colon. */
  function BeforeColon(s: string): (n: nat)
    ensures n <= |s|
    ensures forall i | 0 <= i < n :: s[i] != ':'
    ensures n < |s| ==> s[n] == ':'
  {
    if s == "" || s[0] == ':' then 0 else 1 + BeforeColon(s[1..])
  }

  datatype Parts = Parts(repo: string, tag: string, emailHash: string)

  /** Reads a release key back: the repo ends at the first colon, the hash is the last twelve characters. */
  function Decode(key: string): Parts {
    var n, m := BeforeColon(key), |key| - HASH_LENGTH - 1;
    if n < m then Parts(key[..n], key[n + 1..m], key[m + 1..]) else Parts("", "", "")
  }

  lemma RepoHasSlashButNoColon(repo: string)
    requires ValidRepo(repo)
    ensures '/' in repo && ':' !in repo
  {
    var owner, name :| RepoPart(owner) && RepoPart(name) && repo == owner + "/" + name;
    assert repo[|owner|] == '/';
  }

  lemma {:induction false} FirstColonEndsPrefix(prefix: string, rest: string)
    requires ':' !in prefix
    ensures BeforeColon(prefix + ":" + rest) == |prefix|
  {
    var s := prefix + ":" + rest;
    if prefix != "" {
      FirstColonEndsPrefix(prefix[1..], rest);
      assert s[1..] == prefix[1..] + ":" + rest;
    }
  }

  /** Round trip: a release key determines its repo, its tag, whatever characters that has, and its hash. */
  lemma ReleaseKeyDecodes(repo: string, tag: string, emailHash: string)
    requires ValidRepo(repo) && ShortHash(emailHash)
    ensures Decode(ReleaseKey(repo, tag, emailHash)) == Parts(repo, tag, emailHash)
  {
    RepoHasSlashButNoColon(repo);
    var key := ReleaseKey(repo, tag, emailHash);
    assert key == repo + ":" + (tag + ":" + emailHash);
    FirstColonEndsPrefix(repo, tag + ":" + emailHash);
    var m := |key| - HASH_LENGTH - 1;
    assert key[..|repo|] == repo;
    assert key[|repo| + 1..m] == tag;
    assert key[m + 1..] == emailHash;
  }

  lemma ReleaseKeyIsUnambiguous(r1: string, t1: string, h1: string, r2: string, t2: string, h2: string)
    requires ValidRepo(r1) && ShortHash(h1) && ValidRepo(r2) && ShortHash(h2)
    ensures ReleaseKey(r1, t1, h1) == ReleaseKey(r2, t2, h2) <==> r1 == r2 && t1 == t2 && h1 == h2
  {
    ReleaseKeyDecodes(r1, t1, h1);
    ReleaseKeyDecodes(r2, t2, h2);
  }

  /** A release key begins with a repo, which has a slash before the first colon; a confirmation key does not. */
  lemma ReleaseKeyIsNoConfirmationKey(repo: string, tag: string, emailHash: string, r: string, h: string, m: string)
    requires ValidRepo(repo)
    ensures ReleaseKey(repo, tag, emailHash) != ConfirmationKey(r, h, m)
  {
    RepoHasSlashButNoColon(repo);
    var word := "confirmation";
    var release, confirmation := ReleaseKey(repo, tag, emailHash), ConfirmationKey(r, h, m);
    assert release == repo + ":" + (tag + ":" + emailHash);
    assert confirmation == word + ":" + (r + ":" + h + ":" + m);
    FirstColonEndsPrefix(repo, tag + ":" + emailHash);
    FirstColonEndsPrefix(word, r + ":" + h + ":" + m);
    assert release[..|repo|] == repo && confirmation[..|word|] == word;
    assert '/' !in word;
  }

  lemma ConfirmationKeyIsUnambiguous(r1: string, h1: string, m1: string, r2: string, h2: string, m2: string)
    requires ShortHash(h1) && ShortHash(m1) && ShortHash(h2) && ShortHash(m2)
    ensures ConfirmationKey(r1, h1, m1) == ConfirmationKey(r2, h2, m2) <==> r1 == r2 && h1 == h2 && m1 == m2
  {
    var a, b := ConfirmationKey(r1, h1, m1), ConfirmationKey(r2, h2, m2);
    if a == b {
      ConfirmationKeyParts(r1, h1, m1);
      ConfirmationKeyParts(r2, h2, m2);
    }
  }

  lemma ConfirmationKeyParts(r: string, h: string, m: string)
    requires ShortHash(h) && ShortHash(m)
    ensures var key := ConfirmationKey(r, h, m);
            && |key| == 39 + |r|
            && r == key[13..13 + |r|] && h == key[14 + |r|..26 + |r|] && m == key[27 + |r|..]
  {
  }
}
