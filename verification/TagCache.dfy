/** The cache in front of the GitHub release lookup: one call, from the look into the cache to the store. */
module TagCache {

  import opened Wrappers
  import opened Clock

  const CACHE_KEY_PREFIX := "github:latest_tag:"
  const DEFAULT_TTL: Time := 45 * SECOND

  datatype Entry = Entry(tag: string, expiresAt: Time)

  type Cache = map<string, Entry>

  /** What GitHub answers about a repo at an instant: its latest tag, "" when it has no release, or an error. */
  type Upstream = (string, Time) -> Option<string>

  function KeyOf(repo: string): string {
    CACHE_KEY_PREFIX + repo
  }

  function Lookup(cache: Cache, key: string, now: Time): Option<string> {
    if key in cache && now < cache[key].expiresAt then Some(cache[key].tag) else None
  }

  /** The tag a call finds in the cache; a cache that fails, or is not configured, is not readable. */
  function Hit(cache: Cache, repo: string, now: Time, readable: bool): Option<string> {
    var cached := if readable then Lookup(cache, KeyOf(repo), now) else None;
    if cached == Some("") then None else cached
  }

  predicate IsTag(answer: Option<string>) {
    answer.Some? && answer.value != ""
  }

  /** The three instants of a call: when it looks into the cache, when GitHub answers, and when it stores the answer. */
  datatype Call = Call(repo: string, looksAt: Time, answeredAt: Time, storesAt: Time, readable: bool, writable: bool)

  function AfterCall(cache: Cache, ttl: Time, upstream: Upstream, c: Call): (Cache, Option<string>) {
    var cached, answer := Hit(cache, c.repo, c.looksAt, c.readable), upstream(c.repo, c.answeredAt);
    if cached.Some? then (cache, cached)
    else
      var stored := c.writable && IsTag(answer);
      (if stored then cache[KeyOf(c.repo) := Entry(answer.value, c.storesAt + ttl)] else cache, answer)
  }

  class CachedReleaseProvider {
    var cache: Cache
    const configured: bool
    const ttl: Time
    const upstream: Upstream

    constructor (configured: bool, ttl: Time, upstream: Upstream)
      ensures cache == map[] && this.configured == configured && this.upstream == upstream
      ensures this.ttl == (if ttl <= 0 then 45_000_000 else ttl)
    {
      this.configured, this.upstream := configured, upstream;
      this.ttl := if ttl <= 0 then DEFAULT_TTL else ttl;
      cache := map[];
    }

    /** Without other calls in between; calls that overlap are the subject of TagCacheRuns. */
    method GetLatestTag(repo: string, looksAt: Time, answeredAt: Time, storesAt: Time, getWorks: bool, setWorks: bool)
      returns (tag: Option<string>)
      modifies this`cache
      ensures (cache, tag) == AfterCall(old(cache), ttl, upstream,
                                        Call(repo, looksAt, answeredAt, storesAt,
                                             configured && getWorks, configured && setWorks))
      ensures tag.None? ==> upstream(repo, answeredAt).None?
      ensures var key, answer := "github:latest_tag:" + repo, upstream(repo, answeredAt);
              var hit := configured && getWorks && key in old(cache) && looksAt < old(cache)[key].expiresAt
                  && old(cache)[key].tag != "";
              if hit
              then tag == Some(old(cache)[key].tag) && cache == old(cache)
              else
                && tag == answer
                && cache == if configured && setWorks && answer.Some? && answer.value != ""
                            then old(cache)[key := Entry(answer.value, storesAt + ttl)]
                            else old(cache)
    {
      var key := CACHE_KEY_PREFIX + repo;
      if configured && getWorks {
        if key in cache && looksAt < cache[key].expiresAt {
          var cached := cache[key].tag;
          if cached != "" {
            return Some(cached);
          }
        }
      }
      tag := upstream(repo, answeredAt);
      if tag.None? {
        return None;
      }
      if configured && tag.value != "" && setWorks {
        cache := cache[key := Entry(tag.value, storesAt + ttl)];
      }
      return tag;
    }
  }
}
