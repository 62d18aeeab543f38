/** The cache-through fetch shared by every outbound request: the cache file
    (`open_cache` / `save_cache`), the HTTP collaborator, and the
    lookup-or-fetch step that all five `make_*_request*` functions perform. */
module HttpCache {
  import opened Json
  import opened RequestKeys

  /** One outbound GET: its URL, its query parameters, and whether the
      bearer-token headers go with it (Spotify requests) or not
      (TheAudioDB requests). */
  datatype HttpRequest = HttpRequest(url: string, params: Params, authorized: bool)

  /** The network as the program sees it: `requests.get(...).json()`.
      What the servers answer is not modelled; `respond` stands for it.
      `log` records every GET issued, in order, so that the number of
      network calls is observable. */
  class HttpClient {
    const respond: HttpRequest -> Json
    var log: seq<HttpRequest>

    constructor (respond: HttpRequest -> Json)
      ensures this.respond == respond && log == []
    {
      this.respond := respond;
      log := [];
    }

    method Get(req: HttpRequest) returns (body: Json)
      modifies this
      ensures body == respond(req)
      ensures log == old(log) + [req]
    {
      body := respond(req);
      log := log + [req];
    }
  }

  /** What the cache file holds: nothing, text `json.loads` rejects, or a
      parsed key-to-response mapping. */
  datatype FileState = Absent | Unparsable | Parsed(entries: map<string, Json>)

  /** `m2` keeps every entry of `m1` unchanged (and may add more). */
  ghost predicate Extends(m1: map<string, Json>, m2: map<string, Json>)
  {
    forall k :: k in m1 ==> k in m2 && m2[k] == m1[k]
  }

  lemma ExtendsTransitive(m1: map<string, Json>, m2: map<string, Json>, m3: map<string, Json>)
    requires Extends(m1, m2) && Extends(m2, m3)
    ensures Extends(m1, m3)
  {
  }

  /** The outcome of one lookup-or-fetch of `key` (request `req`) that
      took the cache from `m0` to `m1` and the request log from `log0` to
      `log1`, answering `body`: a hit returns the stored response and
      changes nothing; a miss issues exactly `req` and adds exactly
      `key -> response`. */
  ghost predicate Fetched(m0: map<string, Json>, m1: map<string, Json>,
                          log0: seq<HttpRequest>, log1: seq<HttpRequest>,
                          respond: HttpRequest -> Json, key: string, req: HttpRequest, body: Json)
  {
    && (key in m0 ==> body == m0[key] && m1 == m0 && log1 == log0)
    && (key !in m0 ==> body == respond(req) && m1 == m0[key := body] && log1 == log0 + [req])
  }

  /** The number of keys in `s`, counted one at a time; `KeyCountIsSize`
      shows it is `|s|`. */
  ghost function KeyCount(s: set<string>): nat
    decreases s
  {
    if s == {} then 0 else var k :| k in s; 1 + KeyCount(s - {k})
  }

  lemma {:induction false} KeyCountIsSize(s: set<string>)
    ensures KeyCount(s) == |s|
    decreases s
  {
    if s != {} {
      var k :| k in s && KeyCount(s) == 1 + KeyCount(s - {k});
      KeyCountIsSize(s - {k});
    }
  }

  /** From `m0`/`log0` to `m1`/`log1` the cache only gained keys and the
      request log only grew at its end, by exactly one GET per key gained
      (with the old keys kept, the difference of the key counts is the
      number of new keys; `OneGetPerNewKeyMeans` says so). */
  ghost predicate OneGetPerNewKey(m0: map<string, Json>, m1: map<string, Json>,
                                  log0: seq<HttpRequest>, log1: seq<HttpRequest>)
  {
    && m0.Keys <= m1.Keys
    && |log0| <= |log1| == |log0| + (KeyCount(m1.Keys) - KeyCount(m0.Keys))
    && log1[..|log0|] == log0
  }

  /** The old log is kept and the requests added to it are as many as the
      cache keys added. */
  lemma OneGetPerNewKeyMeans(m0: map<string, Json>, m1: map<string, Json>,
                             log0: seq<HttpRequest>, log1: seq<HttpRequest>)
    requires OneGetPerNewKey(m0, m1, log0, log1)
    ensures log1 == log0 + log1[|log0|..]
    ensures |log1[|log0|..]| == |m1.Keys - m0.Keys|
  {
    KeyCountIsSize(m0.Keys);
    KeyCountIsSize(m1.Keys);
    assert m1.Keys == m0.Keys + (m1.Keys - m0.Keys);
    assert log1 == log1[..|log0|] + log1[|log0|..];
  }

  /** Adding one missing key adds one to the count. */
  lemma KeyCountAdd(m: map<string, Json>, key: string, body: Json)
    requires key !in m
    ensures KeyCount(m[key := body].Keys) == KeyCount(m.Keys) + 1
  {
    KeyCountIsSize(m.Keys);
    KeyCountIsSize(m[key := body].Keys);
    assert m[key := body].Keys == m.Keys + {key};
  }

  /** A fetch issues a GET exactly when it adds its key. */
  lemma FetchedCount(m0: map<string, Json>, m1: map<string, Json>,
                     log0: seq<HttpRequest>, log1: seq<HttpRequest>,
                     respond: HttpRequest -> Json, key: string, req: HttpRequest, body: Json)
    requires Fetched(m0, m1, log0, log1, respond, key, req, body)
    ensures OneGetPerNewKey(m0, m1, log0, log1)
  {
    if key !in m0 {
      KeyCountAdd(m0, key, body);
    }
  }

  /** A single-key store that issued the request exactly when the key was
      missing issued one GET per new key. */
  lemma StoredCount(m0: map<string, Json>, m1: map<string, Json>,
                    log0: seq<HttpRequest>, log1: seq<HttpRequest>, key: string, req: HttpRequest)
    requires key in m1 && Extends(m0, m1) && m1 == m0[key := m1[key]]
    requires key in m0 ==> log1 == log0
    requires key !in m0 ==> log1 == log0 + [req]
    ensures OneGetPerNewKey(m0, m1, log0, log1)
  {
    if key in m0 {
      assert m1 == m0;
    } else {
      KeyCountAdd(m0, key, m1[key]);
    }
  }

  /** One GET per new key, twice over, is one GET per new key overall. */
  lemma OneGetPerNewKeyCompose(m0: map<string, Json>, m1: map<string, Json>, m2: map<string, Json>,
                               log0: seq<HttpRequest>, log1: seq<HttpRequest>, log2: seq<HttpRequest>)
    requires OneGetPerNewKey(m0, m1, log0, log1) && OneGetPerNewKey(m1, m2, log1, log2)
    ensures OneGetPerNewKey(m0, m2, log0, log2)
  {
    assert log2[..|log0|] == log2[..|log1|][..|log0|];
  }

  /** One more fetch keeps one GET per new key since `m0`/`log0`. */
  lemma FetchedStep(m0: map<string, Json>, m: map<string, Json>, m': map<string, Json>,
                    log0: seq<HttpRequest>, log: seq<HttpRequest>, log': seq<HttpRequest>,
                    respond: HttpRequest -> Json, key: string, req: HttpRequest, body: Json)
    requires OneGetPerNewKey(m0, m, log0, log)
    requires Fetched(m, m', log, log', respond, key, req, body)
    ensures OneGetPerNewKey(m0, m', log0, log')
  {
    FetchedCount(m, m', log, log', respond, key, req, body);
    OneGetPerNewKeyCompose(m0, m, m', log0, log, log');
  }

  /** `m1` is `m0` with the entries for `reqs` (cache key to request)
      filled in: every entry of `m0` is kept, every key of `reqs` missing
      from `m0` now holds the server's answer to its request, and no other
      key was added. */
  ghost predicate FilledFrom(m0: map<string, Json>, m1: map<string, Json>,
                             respond: HttpRequest -> Json, reqs: map<string, HttpRequest>)
  {
    && m1.Keys == m0.Keys + reqs.Keys
    && Extends(m0, m1)
    && forall k :: k in reqs && k !in m0 ==> m1[k] == respond(reqs[k])
  }

  /** One lookup-or-fetch fills in exactly its own key. */
  lemma FetchedFills(m0: map<string, Json>, m1: map<string, Json>,
                     log0: seq<HttpRequest>, log1: seq<HttpRequest>,
                     respond: HttpRequest -> Json, key: string, req: HttpRequest, body: Json)
    requires Fetched(m0, m1, log0, log1, respond, key, req, body)
    ensures FilledFrom(m0, m1, respond, map[key := req])
  {
  }

  /** Filling in `a` and then `b` fills in `a + b`, provided the two agree
      on the request for any key they share. */
  lemma FilledFromCompose(m0: map<string, Json>, m1: map<string, Json>, m2: map<string, Json>,
                          respond: HttpRequest -> Json, a: map<string, HttpRequest>, b: map<string, HttpRequest>)
    requires FilledFrom(m0, m1, respond, a) && FilledFrom(m1, m2, respond, b)
    requires forall k :: k in a && k in b ==> a[k] == b[k]
    ensures FilledFrom(m0, m2, respond, a + b)
  {
    forall k | k in a + b && k !in m0 ensures m2[k] == respond((a + b)[k]) {
      if k in a {
        assert k in m1 && m1[k] == respond(a[k]);
      }
    }
  }

  /** Two fetches of two distinct keys, one after the other, fill in
      exactly those two keys. */
  lemma TwoFetchesFill(m0: map<string, Json>, m1: map<string, Json>, m2: map<string, Json>,
                       log0: seq<HttpRequest>, log1: seq<HttpRequest>, log2: seq<HttpRequest>,
                       respond: HttpRequest -> Json, k1: string, k2: string,
                       r1: HttpRequest, r2: HttpRequest, b1: Json, b2: Json)
    requires k1 != k2
    requires Fetched(m0, m1, log0, log1, respond, k1, r1, b1)
    requires Fetched(m1, m2, log1, log2, respond, k2, r2, b2)
    ensures FilledFrom(m0, m2, respond, map[k1 := r1, k2 := r2])
  {
    FetchedFills(m0, m1, log0, log1, respond, k1, r1, b1);
    FetchedFills(m1, m2, log1, log2, respond, k2, r2, b2);
    FilledFromCompose(m0, m1, m2, respond, map[k1 := r1], map[k2 := r2]);
    assert map[k1 := r1] + map[k2 := r2] == map[k1 := r1, k2 := r2];
  }

  /** Two keys filled in after two others, all four distinct, are the
      four filled in together. */
  lemma FilledPairs(m0: map<string, Json>, m2: map<string, Json>, m4: map<string, Json>,
                    respond: HttpRequest -> Json, k1: string, k2: string, k3: string, k4: string,
                    r1: HttpRequest, r2: HttpRequest, r3: HttpRequest, r4: HttpRequest)
    requires k1 != k3 && k1 != k4 && k2 != k3 && k2 != k4
    requires FilledFrom(m0, m2, respond, map[k1 := r1, k2 := r2])
    requires FilledFrom(m2, m4, respond, map[k3 := r3, k4 := r4])
    ensures FilledFrom(m0, m4, respond, map[k1 := r1, k2 := r2, k3 := r3, k4 := r4])
  {
    FilledFromCompose(m0, m2, m4, respond, map[k1 := r1, k2 := r2], map[k3 := r3, k4 := r4]);
    assert map[k1 := r1, k2 := r2] + map[k3 := r3, k4 := r4] == map[k1 := r1, k2 := r2, k3 := r3, k4 := r4];
  }

  /** The cache file `music_cache.json`, read and rewritten as a whole. */
  class CacheFile {
    var state: FileState

    constructor (state: FileState)
      ensures this.state == state
    {
      this.state := state;
    }

    /** The mapping `open_cache` yields for the current file. */
    ghost function Load(): map<string, Json>
      reads this
    {
      if state.Parsed? then state.entries else map[]
    }

    /** `open_cache()`: the stored mapping when the file exists and parses,
        the empty mapping on any failure; it never raises. */
    method OpenCache() returns (cache: map<string, Json>)
      ensures state.Parsed? ==> cache == state.entries
      ensures !state.Parsed? ==> cache == map[]
      ensures cache == Load()
    {
      match state
      case Parsed(entries) => cache := entries;
      case Absent => cache := map[];
      case Unparsable => cache := map[];
    }

    /** `save_cache(cache)`: the file is rewritten with the whole mapping. */
    method SaveCache(cache: map<string, Json>)
      modifies this
      ensures state == Parsed(cache)
      ensures Load() == cache
    {
      state := Parsed(cache);
    }
  }

  /** The body shared by the `make_*_request*` functions: load the cache; on
      a hit return the stored response without touching the network or the
      file; on a miss issue exactly one GET, add its response under `key`,
      rewrite the whole file, and return the response. */
  method RequestWithCache(cache: CacheFile, http: HttpClient, key: string, req: HttpRequest)
    returns (body: Json)
    modifies cache, http
    ensures key in old(cache.Load()) ==>
      && body == old(cache.Load())[key]
      && cache.state == old(cache.state)
      && http.log == old(http.log)
    ensures key !in old(cache.Load()) ==>
      && body == http.respond(req)
      && cache.state == Parsed(old(cache.Load())[key := body])
      && http.log == old(http.log) + [req]
    ensures Extends(old(cache.Load()), cache.Load())
    ensures key in cache.Load() && cache.Load()[key] == body
    ensures cache.state.Parsed?
    ensures Fetched(old(cache.Load()), cache.Load(), old(http.log), http.log, http.respond, key, req, body)
  {
    var cacheDict := cache.OpenCache();
    if key in cacheDict {
      body := cacheDict[key];
    } else {
      var response := http.Get(req);
      cacheDict := cacheDict[key := response];
      cache.SaveCache(cacheDict);
      body := cacheDict[key];
    }
  }

  /** Asking twice for the same key: the second call is a hit, issues no
      GET, leaves the file as the first call left it and returns the same
      response. */
  method RepeatedRequestHits(cache: CacheFile, http: HttpClient, key: string, req: HttpRequest)
    returns (first: Json, second: Json)
    modifies cache, http
    ensures second == first
    ensures |http.log| <= |old(http.log)| + 1
    ensures key in old(cache.Load()) ==>
      && first == old(cache.Load())[key]
      && cache.state == old(cache.state)
      && http.log == old(http.log)
    ensures key !in old(cache.Load()) ==>
      && first == http.respond(req)
      && cache.state == Parsed(old(cache.Load())[key := first])
      && http.log == old(http.log) + [req]
  {
    first := RequestWithCache(cache, http, key, req);
    ghost var logAfterFirst := http.log;
    ghost var stateAfterFirst := cache.state;
    second := RequestWithCache(cache, http, key, req);
    assert http.log == logAfterFirst && cache.state == stateAfterFirst;
  }
}
