// The request handler's cache-or-compute flow over a Redis-like store of
// strings with expiry times, with the clock given as a number of seconds.

module Cache {
  import opened JsonValues
  import opened PageAnalysis

  const Prefix := "scrape-url"

  /** Seconds a computed result stays in the store: one day. */
  const Ttl := 60 * 60 * 24

  /**
   * The store key of a URL: the prefix, a '-', then the URL. The URL is the
   * value `get_argument` returns, with U+0000 to U+0008 and U+000E to U+001F
   * turned into spaces and surrounding whitespace stripped, not the raw query
   * parameter.
   */
  function Key(url: string): (k: string)
    ensures |k| == |Prefix| + 1 + |url|
  {
    Prefix + "-" + url
  }

  /** The URL a key was made from. */
  function UrlOfKey(k: string): (url: string)
    requires |k| >= |Prefix| + 1
  {
    k[|Prefix| + 1..]
  }

  /** Every key carries the prefix and its URL, which can be read back from it. */
  lemma KeyRoundTrip(url: string)
    ensures Key(url)[..|Prefix| + 1] == "scrape-url-"
    ensures UrlOfKey(Key(url)) == url
  {
    var k := Key(url);
    assert k == (Prefix + "-") + url;
    assert k[..|Prefix| + 1] == Prefix + "-";
  }

  /** Distinct URLs have distinct keys. */
  lemma KeyInjective(a: string, b: string)
    ensures Key(a) == Key(b) <==> a == b
  {
    if Key(a) == Key(b) {
      KeyRoundTrip(a);
      KeyRoundTrip(b);
    }
  }

  /** A stored value and the second at which it expires. */
  datatype Entry = Entry(value: string, expiresAt: int)

  /** `GET key` at time `now`: the value of an entry that has not expired yet. */
  function Lookup(entries: map<string, Entry>, key: string, now: int): (r: Option<string>)
    ensures r.Some? <==> key in entries && now < entries[key].expiresAt
    ensures r.Some? ==> r.value == entries[key].value
  {
    if key in entries && now < entries[key].expiresAt then Some(entries[key].value) else None
  }

  /** `if redis_value:`: a stored value counts as a hit only when it is not empty. */
  predicate Hit(entries: map<string, Entry>, key: string, now: int)
  {
    var r := Lookup(entries, key, now);
    r.Some? && r.value != ""
  }

  /** `SET key value EX 86400` at time `now`: the entry is replaced, whatever it was. */
  function Store(entries: map<string, Entry>, key: string, value: string, now: int): (e: map<string, Entry>)
    ensures e.Keys == entries.Keys + {key}
    ensures e[key] == Entry(value, now + Ttl)
    ensures forall k | k in entries && k != key :: e[k] == entries[k]
  {
    entries[key := Entry(value, now + Ttl)]
  }

  /** A value stored at `now` is read back until one day has passed. */
  lemma LookupAfterStore(entries: map<string, Entry>, key: string, value: string, now: int, later: int)
    requires now <= later < now + Ttl
    ensures Lookup(Store(entries, key, value, now), key, later) == Some(value)
  {
  }

  /** From one day after it was stored, the value is gone. */
  lemma ExpiredAfterTtl(entries: map<string, Entry>, key: string, value: string, now: int, later: int)
    requires later >= now + Ttl
    ensures Lookup(Store(entries, key, value, now), key, later) == None
  {
  }

  /** Storing under one key changes what no other key reads. */
  lemma StoreLeavesOthers(entries: map<string, Entry>, key: string, value: string, now: int, other: string, later: int)
    requires other != key
    ensures Lookup(Store(entries, key, value, now), other, later) == Lookup(entries, other, later)
  {
  }

  /** The Redis database the handler talks to. */
  class CacheStore {
    var entries: map<string, Entry>

    constructor()
      ensures entries == map[]
    {
      entries := map[];
    }

    /** `r.get(key)`. */
    method Get(key: string, now: int) returns (r: Option<string>)
      ensures r == Lookup(entries, key, now)
    {
      if key in entries && now < entries[key].expiresAt {
        r := Some(entries[key].value);
      } else {
        r := None;
      }
    }

    /** `r.set(key, value, ex=60*60*24)`. */
    method Set(key: string, value: string, now: int)
      modifies this
      ensures entries == Store(old(entries), key, value, now)
    {
      entries := entries[key := Entry(value, now + Ttl)];
    }
  }

  /**
   * The handler of `GET /?url=...`. The fetch of a URL and `json.dumps` are
   * parameters; `fetches` records, for the proofs, every URL the analyser ran on.
   * The store is read at second `now` and, on a miss, written at second
   * `setAt`, once the page has been fetched and analysed.
   */
  class MainHandler {
    const store: CacheStore
    ghost var fetches: seq<string>

    constructor(store: CacheStore)
      ensures this.store == store && fetches == []
    {
      this.store := store;
      fetches := [];
    }

    /**
     * A hit returns the stored value and changes nothing; a miss runs the
     * analyser once, stores its serialisation for a day and returns that
     * same serialisation, and no other key changes.
     */
    method Get(url: string, now: int, setAt: int, fetch: string -> FetchOutcome, dumps: Json -> string)
        returns (body: string)
      requires now <= setAt
      requires !Hit(store.entries, Key(url), now) ==> Completes(fetch(url))
      modifies this, store
      ensures Hit(old(store.entries), Key(url), now) ==>
        body == old(store.entries)[Key(url)].value &&
        store.entries == old(store.entries) && fetches == old(fetches)
      ensures !Hit(old(store.entries), Key(url), now) ==>
        body == dumps(PageInfo(fetch(url))) &&
        store.entries == Store(old(store.entries), Key(url), body, setAt) &&
        fetches == old(fetches) + [url]
    {
      var key := Key(url);
      var cached := store.Get(key, now);
      if cached.Some? && cached.value != "" {
        return cached.value;
      }
      var pageInfo := GetPageInfo(fetch(url));
      fetches := fetches + [url];
      store.Set(key, dumps(pageInfo), setAt);
      body := dumps(pageInfo);
    }
  }

  /**
   * A miss whose result is stored at `setAt`, followed by a second request
   * for the same URL less than a day after that: the analyser runs once, and
   * both requests get the first body, even when the page has changed since
   * (`fetch2` is what fetching it would give the second time).
   */
  method RepeatWithinTtl(h: MainHandler, url: string, now: int, setAt: int, later: int, laterSetAt: int,
                         fetch: string -> FetchOutcome, fetch2: string -> FetchOutcome, dumps: Json -> string)
      returns (first: string, second: string)
    requires !Hit(h.store.entries, Key(url), now)
    requires Completes(fetch(url))
    requires dumps(PageInfo(fetch(url))) != ""  // `json.dumps` of a dictionary is never empty
    requires now <= setAt <= later < setAt + Ttl && later <= laterSetAt
    modifies h, h.store
    ensures first == second == dumps(PageInfo(fetch(url)))
    ensures h.fetches == old(h.fetches) + [url]
  {
    first := h.Get(url, now, setAt, fetch, dumps);
    LookupAfterStore(old(h.store.entries), Key(url), first, setAt, later);
    second := h.Get(url, later, laterSetAt, fetch2, dumps);
  }

  /**
   * A miss whose result is stored at `setAt`, followed by a second request
   * one day or more after that: the analyser runs again, on the page as it
   * is then (`fetch2`).
   */
  method RepeatAfterTtl(h: MainHandler, url: string, now: int, setAt: int, later: int, laterSetAt: int,
                        fetch: string -> FetchOutcome, fetch2: string -> FetchOutcome, dumps: Json -> string)
      returns (first: string, second: string)
    requires !Hit(h.store.entries, Key(url), now)
    requires Completes(fetch(url)) && Completes(fetch2(url))
    requires now <= setAt && setAt + Ttl <= later <= laterSetAt
    modifies h, h.store
    ensures first == dumps(PageInfo(fetch(url)))
    ensures second == dumps(PageInfo(fetch2(url)))
    ensures h.fetches == old(h.fetches) + [url, url]
  {
    first := h.Get(url, now, setAt, fetch, dumps);
    ExpiredAfterTtl(old(h.store.entries), Key(url), first, setAt, later);
    second := h.Get(url, later, laterSetAt, fetch2, dumps);
  }
}
