/** The server's in-memory TTL cache (`getCache`/`setCache`) and the
    `cachedFetch` wrapper built on it.

    `Date.now()` is an explicit parameter: `now` is the clock at the lookup,
    `later` the clock when the response has been parsed and is written back.
    The upstream response is an input value, its parsed body already computed
    by the XML or the JSON parser (either of which may throw). */
module Cache {
  import opened JsRuntime
  import opened Text

  /** A cached value with its expiry instant, in milliseconds. */
  datatype Entry = Entry(exp: int, data: Js)

  type Store = map<string, Entry>

  /** `setCache`'s default time to live. */
  const SetCacheTtl: int := 60000

  /** `cachedFetch`'s default time to live. */
  const FetchTtl: int := 120000

  /** What `getCache(key)` returns at time `now`: null when the key is absent
      or its entry expired strictly before `now`, the stored data otherwise. */
  function Lookup(m: Store, key: string, now: int): Js
  {
    if key !in m then Null
    else if now > m[key].exp then Null
    else m[key].data
  }

  /** The store after `getCache(key)` at time `now`: an expired entry for `key`
      is deleted, and nothing else changes. */
  function Evict(m: Store, key: string, now: int): Store
  {
    if key in m && now > m[key].exp then m - {key} else m
  }

  /** The store after `setCache(key, data, ttlMs)` at time `now`. */
  function Put(m: Store, key: string, data: Js, now: int, ttlMs: int): Store
  {
    m[key := Entry(now + ttlMs, data)]
  }

  /** A read never adds, and only deletes what no later read could return. */
  lemma EvictUnobservable(m: Store, key: string, now: int, k: string, t: int)
    requires t >= now
    ensures Lookup(Evict(m, key, now), k, t) == Lookup(m, k, t)
    ensures Evict(m, key, now).Keys <= m.Keys
  {
  }

  /** A value stored at `now` is read back until its expiry `now + ttlMs`
      inclusive, and not after. */
  lemma PutThenLookup(m: Store, key: string, data: Js, now: int, ttlMs: int, t: int)
    ensures Lookup(Put(m, key, data, now, ttlMs), key, t) == if t <= now + ttlMs then data else Null
  {
  }

  /** Storing under one key leaves every other key's reads unchanged. */
  lemma PutOtherKeys(m: Store, key: string, data: Js, now: int, ttlMs: int, k: string, t: int)
    requires k != key
    ensures Lookup(Put(m, key, data, now, ttlMs), k, t) == Lookup(m, k, t)
  {
  }

  // ---- cachedFetch ----

  /** What the upstream request produced: a rejected `fetch`, or a response
      with its status, its `content-type` header (absent: None) and the value
      or the exception of each parser applied to its body. */
  datatype Upstream =
    | Unreachable(error: Js)
    | Reply(status: int, contentType: Option<string>, xmlBody: Result<Js>, jsonBody: Result<Js>)

  /** `resp.ok` */
  predicate StatusOk(status: int) { 200 <= status <= 299 }

  /** The cache key `${as}:${url}`. */
  function Key(parseAs: string, url: string): (k: string)
    ensures |k| == |parseAs| + 1 + |url|
    ensures k[..|parseAs|] == parseAs && k[|parseAs|] == ':' && k[|parseAs| + 1..] == url
  {
    parseAs + ":" + url
  }

  /** One url fetched under two different `as` settings occupies two entries. */
  lemma {:induction false} KeyInjective(p1: string, p2: string, url: string)
    ensures Key(p1, url) == Key(p2, url) <==> p1 == p2
  {
    if Key(p1, url) == Key(p2, url) {
      var k := Key(p1, url);
      assert |p1| == |p2|;
      assert p1 == k[..|p1|] == p2;
    }
  }

  /** The error `cachedFetch` throws for a non-2xx response. */
  function UpstreamError(status: int, url: string): Js
  {
    ErrorValue("Error", "Upstream " + IntToDecimal(status) + " for " + url)
  }

  /** `resp.headers.get("content-type") || ""` */
  function ContentType(h: Option<string>): string
  {
    match h
    case None => ""
    case Some(s) => s
  }

  /** The XML parser is used iff `as === "xml"` or the content type mentions xml. */
  predicate UsesXml(parseAs: string, contentType: Option<string>)
  {
    parseAs == "xml" || Includes(ContentType(contentType), "xml")
  }

  /** The outcome of `cachedFetch(url, {ttlMs, as})` on store `m`: the value or
      the exception, and the store afterwards. */
  function Fetched(m: Store, url: string, now: int, later: int, up: Upstream, ttlMs: int, parseAs: string)
    : (Result<Js>, Store)
  {
    var key := Key(parseAs, url);
    var hit := Lookup(m, key, now);
    var m1 := Evict(m, key, now);
    if Truthy(hit) then (Ok(hit), m1)
    else match up
      case Unreachable(e) => (Err(e), m1)
      case Reply(status, ct, xml, json) =>
        if !StatusOk(status) then (Err(UpstreamError(status, url)), m1)
        else
          var body := if UsesXml(parseAs, ct) then xml else json;
          match body
          case Err(e) => (Err(e), m1)
          case Ok(data) => (Ok(data), Put(m1, key, data, later, ttlMs))
  }

  /** A truthy cached value is returned as it is, whatever upstream would say,
      and the store is left as it was. */
  lemma FetchedHit(m: Store, url: string, now: int, later: int, up: Upstream, ttlMs: int, parseAs: string)
    requires Truthy(Lookup(m, Key(parseAs, url), now))
    ensures Fetched(m, url, now, later, up, ttlMs, parseAs) == (Ok(Lookup(m, Key(parseAs, url), now)), m)
  {
  }

  /** A falsy cached value (null, 0, "", false) counts as a miss: the result is
      what it would be with nothing cached under the key. */
  lemma FetchedFalsyIsMiss(m: Store, url: string, now: int, later: int, up: Upstream, ttlMs: int, parseAs: string)
    requires Key(parseAs, url) in m && !Truthy(m[Key(parseAs, url)].data)
    ensures Fetched(m, url, now, later, up, ttlMs, parseAs).0
         == Fetched(m - {Key(parseAs, url)}, url, now, later, up, ttlMs, parseAs).0
  {
  }

  /** A non-2xx response on a miss throws `Upstream <status> for <url>` and
      writes nothing: the store is the one the lookup left. */
  lemma FetchedBadStatus(m: Store, url: string, now: int, later: int, up: Upstream, ttlMs: int, parseAs: string)
    requires !Truthy(Lookup(m, Key(parseAs, url), now))
    requires up.Reply? && !StatusOk(up.status)
    ensures Fetched(m, url, now, later, up, ttlMs, parseAs)
         == (Err(ErrorValue("Error", "Upstream " + IntToDecimal(up.status) + " for " + url)), Evict(m, Key(parseAs, url), now))
  {
  }

  /** A 2xx response on a miss is parsed as XML iff `as` is "xml" or the
      content type mentions xml, and as JSON otherwise; a parsed value is
      written back under the key with expiry `later + ttlMs`, a parser
      exception escapes and writes nothing. */
  lemma FetchedParses(m: Store, url: string, now: int, later: int, up: Upstream, ttlMs: int, parseAs: string)
    requires !Truthy(Lookup(m, Key(parseAs, url), now))
    requires up.Reply? && StatusOk(up.status)
    ensures var body := if parseAs == "xml" || Includes(ContentType(up.contentType), "xml")
                        then up.xmlBody else up.jsonBody;
            var (r, m') := Fetched(m, url, now, later, up, ttlMs, parseAs);
            && r == body
            && (body.Ok? ==> m' == m[Key(parseAs, url) := Entry(later + ttlMs, body.value)])
            && (body.Err? ==> m' == Evict(m, Key(parseAs, url), now))
  {
    var key := Key(parseAs, url);
    var body := if UsesXml(parseAs, up.contentType) then up.xmlBody else up.jsonBody;
    if body.Ok? {
      assert Put(Evict(m, key, now), key, body.value, later, ttlMs) == m[key := Entry(later + ttlMs, body.value)];
    }
  }

  /** After a miss that fetched a truthy value, the same call is answered from
      the cache until the new entry expires at `later + ttlMs`, whatever
      upstream would say then. */
  lemma FetchedThenHit(m: Store, url: string, now: int, later: int, up: Upstream,
                       ttlMs: int, parseAs: string, t: int, later2: int, up2: Upstream)
    requires !Truthy(Lookup(m, Key(parseAs, url), now))
    requires Fetched(m, url, now, later, up, ttlMs, parseAs).0.Ok?
    requires Truthy(Fetched(m, url, now, later, up, ttlMs, parseAs).0.value)
    requires t <= later + ttlMs
    ensures var (r, m') := Fetched(m, url, now, later, up, ttlMs, parseAs);
            Fetched(m', url, t, later2, up2, ttlMs, parseAs) == (r, m')
  {
    var key := Key(parseAs, url);
    var (r, m') := Fetched(m, url, now, later, up, ttlMs, parseAs);
    assert m' == Put(Evict(m, key, now), key, r.value, later, ttlMs);
    PutThenLookup(Evict(m, key, now), key, r.value, later, ttlMs, t);
  }

  /** `cachedFetch` touches only its own key: every other key reads the same
      at any time from `now` on. */
  lemma FetchedOtherKeys(m: Store, url: string, now: int, later: int, up: Upstream, ttlMs: int, parseAs: string,
                         k: string, t: int)
    requires k != Key(parseAs, url) && t >= now
    ensures Lookup(Fetched(m, url, now, later, up, ttlMs, parseAs).1, k, t) == Lookup(m, k, t)
  {
  }

  /** The server's cache object: one map from key to entry, read with lazy
      expiry and written with a time to live. */
  class TtlCache {
    var entries: Store

    constructor ()
      ensures entries == map[]
    {
      entries := map[];
    }

    /** `getCache(key)` at time `now`. */
    method Get(key: string, now: int) returns (r: Js)
      modifies this
      ensures r == Lookup(old(entries), key, now)
      ensures entries == Evict(old(entries), key, now)
    {
      if key !in entries {
        return Null;
      }
      var hit := entries[key];
      if now > hit.exp {
        entries := entries - {key};
        return Null;
      }
      return hit.data;
    }

    /** `setCache(key, data, ttlMs)` at time `now`. */
    method Set(key: string, data: Js, now: int, ttlMs: int := SetCacheTtl)
      modifies this
      ensures entries == Put(old(entries), key, data, now, ttlMs)
    {
      entries := entries[key := Entry(now + ttlMs, data)];
    }

    /** `cachedFetch(url, {ttlMs, as})`, looking up at `now` and writing back at `later`. */
    method CachedFetch(url: string, now: int, later: int, up: Upstream, ttlMs: int := FetchTtl,
                       parseAs: string := "auto") returns (r: Result<Js>)
      modifies this
      ensures (r, entries) == Fetched(old(entries), url, now, later, up, ttlMs, parseAs)
    {
      var key := Key(parseAs, url);
      var hit := Get(key, now);
      if Truthy(hit) {
        return Ok(hit);
      }
      match up
      case Unreachable(e) =>
        return Err(e);
      case Reply(status, ct, xml, json) =>
        if !StatusOk(status) {
          return Err(UpstreamError(status, url));
        }
        var body := if UsesXml(parseAs, ct) then xml else json;
        if body.Err? {
          return body;
        }
        Set(key, body.value, later, ttlMs);
        return body;
    }
  }
}
