/**
 * The middleware itself: the cache key, the abstract store, construction,
 * and the per-request state machine (lookup; replay on a decodable hit;
 * otherwise a miss or error status, pass-through with capture, admission and
 * write-back).
 */
module Middleware {
  import opened Wrappers
  import opened Durations
  import opened Http
  import opened Configuration
  import opened Policy
  import opened Capture

  const CACHE_HEADER: string := "Cache-Status"
  const HIT_STATUS: string := "hit"
  const MISS_STATUS: string := "miss"
  const ERROR_STATUS: string := "error"

  /** `cacheKey`: method, host and path run together, with no separator. */
  function CacheKey(r: Request): (key: string)
    ensures |key| == |r.httpMethod| + |r.host| + |r.path|
    ensures key[..|r.httpMethod|] == r.httpMethod
    ensures key[|r.httpMethod|..|r.httpMethod| + |r.host|] == r.host
    ensures key[|r.httpMethod| + |r.host|..] == r.path
  {
    r.httpMethod + r.host + r.path
  }

  /** Requests that agree on method, host and path share a key, whatever their query string or headers. */
  lemma KeyDeterminism(r1: Request, r2: Request)
    requires r1.httpMethod == r2.httpMethod && r1.host == r2.host && r1.path == r2.path
    ensures CacheKey(r1) == CacheKey(r2)
  {
  }

  /** Without a separator, different (method, host, path) triples can share a key. */
  lemma KeyCollision()
    ensures var r1 := Request("GET", "example.com", "/x", "/x", map[]);
            var r2 := Request("GETe", "xample.com", "/x", "/x", map[]);
            r1.httpMethod != r2.httpMethod && CacheKey(r1) == CacheKey(r2)
  {
  }

  /** `cacheData`: the snapshot written to the store. */
  datatype CacheData = CacheData(expiresAt: Time, status: int, headers: Header, body: Bytes)

  /**
   * The collaborators the request path calls: the caching library, pattern
   * matching, the encoding of snapshots (which may fail either way), and the
   * formatting of the `Cache-Control` value a hit is served with.
   */
  datatype Libraries = Libraries(
    cacheControl: CacheControl,
    matches: Matcher,
    encode: CacheData -> Option<Bytes>,
    decode: Bytes -> Option<CacheData>,
    maxAge: (Time, Time) -> string)

  /** The bytes handed to the store: the encoding, or nothing when encoding failed. */
  function Encoded(lib: Libraries, data: CacheData): (b: Bytes)
    ensures lib.encode(data).Some? ==> b == lib.encode(data).value
    ensures lib.encode(data).None? ==> b == []
  {
    match lib.encode(data)
    case Some(b) => b
    case None => []
  }

  /** A stored value and the time-to-live it was stored with. */
  datatype Item = Item(value: Bytes, ttl: Duration)

  /** The on-disk cache, as a map from key to stored value; `healthy` says whether writes succeed. */
  class Store {
    var entries: map<string, Item>
    var healthy: bool

    constructor (entries: map<string, Item>, healthy: bool)
      ensures this.entries == entries && this.healthy == healthy
    {
      this.entries, this.healthy := entries, healthy;
    }

    /** The stored bytes for `key`, or nothing. */
    method Get(key: string) returns (b: Option<Bytes>)
      ensures b.Some? <==> key in entries
      ensures b.Some? ==> b.value == entries[key].value
    {
      if key in entries {
        b := Some(entries[key].value);
      } else {
        b := None;
      }
    }

    /** Stores `value` under `key` for `ttl`, or reports an error and stores nothing. */
    method Set(key: string, value: Bytes, ttl: Duration) returns (err: Option<string>)
      modifies this`entries
      ensures err.None? <==> healthy
      ensures entries == if healthy then old(entries)[key := Item(value, ttl)] else old(entries)
    {
      if healthy {
        entries := entries[key := Item(value, ttl)];
        err := None;
      } else {
        err := Some("cache write failed");
      }
    }
  }

  /** The headers after every stored value has been added: stored values follow existing ones, key by key. */
  function Merge(h: Header, stored: Header): (r: Header)
    ensures forall k {:trigger k in r} :: k in r <==> k in h || ValuesOf(stored, k) != []
    ensures forall k {:trigger ValuesOf(r, k)} :: ValuesOf(r, k) == ValuesOf(h, k) + ValuesOf(stored, k)
  {
    map k | k in h.Keys + stored.Keys && (k in h || stored[k] != []) :: ValuesOf(h, k) + ValuesOf(stored, k)
  }

  lemma HeaderExtensionality(a: Header, b: Header)
    requires forall k :: k in a <==> k in b
    requires forall k :: ValuesOf(a, k) == ValuesOf(b, k)
    ensures a == b
  {
    forall k | k in a
      ensures a[k] == b[k]
    {
      assert ValuesOf(a, k) == ValuesOf(b, k);
    }
  }

  /** The part of `h` on the given keys. */
  function Restrict(h: Header, keys: set<string>): (r: Header)
    ensures r.Keys == h.Keys * keys
    ensures forall k :: k in r ==> r[k] == h[k]
  {
    map k | k in h && k in keys :: h[k]
  }

  lemma MergeNothing(h: Header)
    ensures Merge(h, map[]) == h
  {
    HeaderExtensionality(Merge(h, map[]), h);
  }

  lemma MergeEmptyValues(h: Header, stored: Header, key: string)
    requires key !in stored
    ensures Merge(h, stored[key := []]) == Merge(h, stored)
  {
  }

  lemma MergeAddOne(h: Header, stored: Header, key: string, vs: seq<string>, v: string)
    ensures WithAdd(Merge(h, stored[key := vs]), key, v) == Merge(h, stored[key := vs + [v]])
  {
    var before := Merge(h, stored[key := vs]);
    var a := WithAdd(before, key, v);
    var b := Merge(h, stored[key := vs + [v]]);
    forall k
      ensures (k in a <==> k in b) && ValuesOf(a, k) == ValuesOf(b, k)
    {
      if k == key {
        assert ValuesOf(stored[key := vs + [v]], k) == vs + [v];
        assert ValuesOf(before, k) == ValuesOf(h, k) + vs;
      } else {
        assert ValuesOf(stored[key := vs + [v]], k) == ValuesOf(stored[key := vs], k);
      }
    }
    HeaderExtensionality(a, b);
  }

  lemma RestrictOneMore(stored: Header, keys: set<string>, key: string)
    requires key in stored
    ensures Restrict(stored, keys)[key := stored[key]] == Restrict(stored, keys + {key})
  {
  }

  lemma RestrictAll(stored: Header)
    ensures Restrict(stored, stored.Keys) == stored
  {
  }

  lemma MergeOneKey(h: Header, done: Header, key: string, vals: seq<string>)
    requires key !in done
    ensures Merge(Merge(h, done), map[key := vals]) == Merge(h, done[key := vals])
  {
    var a := Merge(Merge(h, done), map[key := vals]);
    var b := Merge(h, done[key := vals]);
    forall k
      ensures (k in a <==> k in b) && ValuesOf(a, k) == ValuesOf(b, k)
    {
      if k == key {
        assert ValuesOf(done, k) == [];
        assert ValuesOf(done[key := vals], k) == vals;
      } else {
        assert ValuesOf(map[key := vals], k) == [];
        assert ValuesOf(done[key := vals], k) == ValuesOf(done, k);
      }
    }
    HeaderExtensionality(a, b);
  }

  /** The inner replay loop: the values of one stored key, added in order. */
  method AddValues(h: HeaderMap, key: string, vals: seq<string>)
    modifies h
    ensures h.m == Merge(old(h.m), map[key := vals])
  {
    ghost var h0 := h.m;
    assert vals[..0] == [];
    MergeEmptyValues(h0, map[], key);
    MergeNothing(h0);
    var j := 0;
    while j < |vals|
      invariant 0 <= j <= |vals|
      invariant h.m == Merge(h0, map[key := vals[..j]])
    {
      MergeAddOne(h0, map[], key, vals[..j], vals[j]);
      assert vals[..j] + [vals[j]] == vals[..j + 1];
      h.Add(key, vals[j]);
      j := j + 1;
    }
    assert vals[..j] == vals;
  }

  /**
   * The replay loop: each stored value is added to `h` in its key's order;
   * keys are taken in whatever order the runtime enumerates the map, and the
   * result is the same for every order.
   */
  method AddStored(h: HeaderMap, stored: Header)
    modifies h
    ensures h.m == Merge(old(h.m), stored)
  {
    ghost var h0 := h.m;
    ghost var doneKeys: set<string> := {};
    assert Restrict(stored, {}) == map[];
    MergeNothing(h0);
    var todo := stored.Keys;
    while todo != {}
      invariant todo <= stored.Keys && doneKeys == stored.Keys - todo
      invariant h.m == Merge(h0, Restrict(stored, doneKeys))
      decreases todo
    {
      var key :| key in todo;
      MergeOneKey(h0, Restrict(stored, doneKeys), key, stored[key]);
      AddValues(h, key, stored[key]);
      RestrictOneMore(stored, doneKeys, key);
      todo := todo - {key};
      doneKeys := doneKeys + {key};
    }
    RestrictAll(stored);
  }

  /**
   * What the client is sent on a hit: the stored headers added to its own,
   * then (with the status header enabled) a recomputed `Cache-Control` and a
   * `hit` status, then the stored status and body.
   */
  function Replay(resp: Response, data: CacheData, addStatusHeader: bool, maxAge: string): (out: Response)
    ensures out.statuses == resp.statuses + [data.status]
    ensures out.written == resp.written + data.body
    ensures addStatusHeader ==>
              ValuesOf(out.header, CACHE_HEADER) == [HIT_STATUS] && ValuesOf(out.header, "Cache-Control") == [maxAge]
    ensures forall k :: (!addStatusHeader || (k != CACHE_HEADER && k != "Cache-Control")) ==>
              ValuesOf(out.header, k) == ValuesOf(resp.header, k) + ValuesOf(data.headers, k)
  {
    var merged := Merge(resp.header, data.headers);
    var h := if addStatusHeader then WithSet(WithSet(merged, "Cache-Control", maxAge), CACHE_HEADER, HIT_STATUS)
             else merged;
    Response(h, resp.statuses + [data.status], resp.written + data.body)
  }

  /** The result of serving one request: what the client was sent, and the store afterwards. */
  datatype Outcome = Outcome(resp: Response, entries: map<string, Item>)

  /** Pass-through with capture, starting from `resp` with cache status `cs`. */
  function Upstream(cfg: Config, next: Handler, resp: Response, r: Request, cs: string): State
  {
    var start := if cfg.addStatusHeader then resp.(header := WithSet(resp.header, CACHE_HEADER, cs)) else resp;
    Run(State(start, Captured(0, [])), next(r))
  }

  /** The admission decision once the handler has answered. */
  function Admit(cfg: Config, visit: seq<Rule>, lib: Libraries, r: Request, after: State, now: Time): Admission
  {
    Cacheable(cfg, visit, lib.cacheControl, lib.matches, r, after.resp.header, after.cap.status, now)
  }

  /** A miss or an undecodable entry: pass-through, then write-back when admitted. */
  function MissPath(cfg: Config, visit: seq<Rule>, next: Handler, lib: Libraries, entries: map<string, Item>,
                    healthy: bool, resp: Response, r: Request, now: Time, cs: string): Outcome
  {
    var after := Upstream(cfg, next, resp, r, cs);
    var a := Admit(cfg, visit, lib, r, after, now);
    if !a.ok then Outcome(after.resp, entries)
    else
      var data := CacheData(Add(now, a.expiry), after.cap.status, after.resp.header, after.cap.body);
      Outcome(after.resp, if healthy then entries[CacheKey(r) := Item(Encoded(lib, data), a.expiry)] else entries)
  }

  /** Whether the lookup for `r` finds an entry that decodes. */
  predicate IsHit(lib: Libraries, entries: map<string, Item>, r: Request)
  {
    CacheKey(r) in entries && lib.decode(entries[CacheKey(r)].value).Some?
  }

  /** `ServeHTTP` on values: the reference the method is proved against. */
  function Serve(cfg: Config, visit: seq<Rule>, next: Handler, lib: Libraries, entries: map<string, Item>,
                 healthy: bool, resp: Response, r: Request, now: Time): Outcome
  {
    var key := CacheKey(r);
    if IsHit(lib, entries, r) then
      var data := lib.decode(entries[key].value).value;
      Outcome(Replay(resp, data, cfg.addStatusHeader, lib.maxAge(data.expiresAt, now)), entries)
    else
      MissPath(cfg, visit, next, lib, entries, healthy, resp, r, now, if key in entries then ERROR_STATUS else MISS_STATUS)
  }

  /**
   * A hit replays the stored headers, status and body, leaves the store as it
   * was, and never runs the upstream handler: any handler gives the same result.
   */
  lemma HitReplays(cfg: Config, visit: seq<Rule>, next1: Handler, next2: Handler, lib: Libraries,
                   entries: map<string, Item>, healthy: bool, resp: Response, r: Request, now: Time)
    requires IsHit(lib, entries, r)
    ensures var data := lib.decode(entries[CacheKey(r)].value).value;
            var out := Serve(cfg, visit, next1, lib, entries, healthy, resp, r, now);
            out.entries == entries
            && out.resp.statuses == resp.statuses + [data.status]
            && out.resp.written == resp.written + data.body
            && out == Serve(cfg, visit, next2, lib, entries, healthy, resp, r, now)
  {
  }

  /** The miss path writes at most the lookup key, and what it writes does not depend on the store. */
  lemma MissPathTouchesOnlyKey(cfg: Config, visit: seq<Rule>, next: Handler, lib: Libraries, e1: map<string, Item>,
                               e2: map<string, Item>, healthy: bool, resp: Response, r: Request, now: Time, cs: string)
    ensures var key := CacheKey(r);
            var m1 := MissPath(cfg, visit, next, lib, e1, healthy, resp, r, now, cs);
            var m2 := MissPath(cfg, visit, next, lib, e2, healthy, resp, r, now, cs);
            m1.resp == m2.resp
            && m1.entries - {key} == e1 - {key}
            && (key in m1.entries && (key !in e1 || m1.entries[key] != e1[key]) ==>
                  key in m2.entries && m2.entries[key] == m1.entries[key])
  {
  }

  /**
   * On a lookup that finds bytes that do not decode, the request goes the way
   * of a cold miss: it takes the miss path with an `error` rather than a `miss`
   * status header; without the status header the client gets exactly the
   * response of a cold miss, and the store ends up the same except that a bad
   * entry stays when nothing replaces it.
   */
  lemma DecodeFailureFallsThrough(cfg: Config, visit: seq<Rule>, next: Handler, lib: Libraries,
                                  entries: map<string, Item>, healthy: bool, resp: Response, r: Request, now: Time)
    requires CacheKey(r) in entries && lib.decode(entries[CacheKey(r)].value).None?
    ensures var key := CacheKey(r);
            var bad := Serve(cfg, visit, next, lib, entries, healthy, resp, r, now);
            var cold := Serve(cfg, visit, next, lib, entries - {key}, healthy, resp, r, now);
            bad == MissPath(cfg, visit, next, lib, entries, healthy, resp, r, now, ERROR_STATUS)
            && cold == MissPath(cfg, visit, next, lib, entries - {key}, healthy, resp, r, now, MISS_STATUS)
            && bad.entries - {key} == cold.entries - {key}
            && (!cfg.addStatusHeader ==>
                  bad.resp == cold.resp
                  && (key in cold.entries ==> key in bad.entries && bad.entries[key] == cold.entries[key]))
  {
  }

  /**
   * The write-back. On a miss the client receives exactly what the handler
   * wrote; the store changes only under the lookup key, and only when the
   * response is admitted and the write succeeds, with the admitted expiry and
   * the encoding of a snapshot holding the handler's last status (0 if it set
   * none), the final headers and every body byte it wrote.
   */
  lemma {:induction false} WriteBack(cfg: Config, visit: seq<Rule>, next: Handler, lib: Libraries,
                                     entries: map<string, Item>, healthy: bool, resp: Response, r: Request, now: Time)
    requires !IsHit(lib, entries, r)
    ensures var key := CacheKey(r);
            var out := Serve(cfg, visit, next, lib, entries, healthy, resp, r, now);
            var status := LastCode(next(r), 0);
            var a := Cacheable(cfg, visit, lib.cacheControl, lib.matches, r, out.resp.header, status, now);
            var data := CacheData(now + a.expiry, status, out.resp.header, Payload(next(r)));
            out.resp.written == resp.written + Payload(next(r))
            && out.resp.statuses == resp.statuses + Codes(next(r))
            && out.entries == (if a.ok && healthy then entries[key := Item(Encoded(lib, data), a.expiry)] else entries)
            && (a.ok && cfg.maxExpiry >= 0 ==> a.expiry <= cfg.maxExpiry * SECOND)
  {
    var key := CacheKey(r);
    var cs := if key in entries then ERROR_STATUS else MISS_STATUS;
    var start := if cfg.addStatusHeader then resp.(header := WithSet(resp.header, CACHE_HEADER, cs)) else resp;
    var after := Run(State(start, Captured(0, [])), next(r));
    assert Upstream(cfg, next, resp, r, cs) == after;
    RunForwards(State(start, Captured(0, [])), next(r));
    RunStatus(State(start, Captured(0, [])), next(r));
    assert after.cap == Captured(LastCode(next(r), 0), Payload(next(r)));
    var out := Serve(cfg, visit, next, lib, entries, healthy, resp, r, now);
    assert out == MissPath(cfg, visit, next, lib, entries, healthy, resp, r, now, cs);
    assert out.resp == after.resp;
    if cfg.maxExpiry >= 0 {
      ExpiryAtMostMaxExpiry(cfg, visit, lib.cacheControl, lib.matches, r, out.resp.header, LastCode(next(r), 0), now);
    }
  }

  /**
   * After a miss that was admitted and stored, the next request with the same
   * method, host and path is a hit that replays the status and body the
   * handler produced, provided the snapshot encoding round-trips.
   */
  lemma SecondRequestHits(cfg: Config, visit: seq<Rule>, next: Handler, lib: Libraries, entries: map<string, Item>,
                          resp: Response, r: Request, now: Time, resp2: Response, r2: Request, now2: Time)
    requires forall d {:trigger Encoded(lib, d)} :: lib.decode(Encoded(lib, d)) == Some(d)
    requires r2.httpMethod == r.httpMethod && r2.host == r.host && r2.path == r.path
    requires CacheKey(r) !in entries
    requires Admit(cfg, visit, lib, r, Upstream(cfg, next, resp, r, MISS_STATUS), now).ok
    ensures var first := Serve(cfg, visit, next, lib, entries, true, resp, r, now);
            var second := Serve(cfg, visit, next, lib, first.entries, true, resp2, r2, now2);
            IsHit(lib, first.entries, r2)
            && second.entries == first.entries
            && second.resp.statuses == resp2.statuses + [LastCode(next(r), 0)]
            && second.resp.written == resp2.written + Payload(next(r))
  {
    WriteBack(cfg, visit, next, lib, entries, true, resp, r, now);
    KeyDeterminism(r, r2);
    var first := Serve(cfg, visit, next, lib, entries, true, resp, r, now);
    var status := LastCode(next(r), 0);
    var a := Cacheable(cfg, visit, lib.cacheControl, lib.matches, r, first.resp.header, status, now);
    var data := CacheData(now + a.expiry, status, first.resp.header, Payload(next(r)));
    RunForwards(State(if cfg.addStatusHeader then resp.(header := WithSet(resp.header, CACHE_HEADER, MISS_STATUS)) else resp,
                      Captured(0, [])), next(r));
    RunStatus(State(if cfg.addStatusHeader then resp.(header := WithSet(resp.header, CACHE_HEADER, MISS_STATUS)) else resp,
                    Captured(0, [])), next(r));
    assert a.ok;
    assert first.entries[CacheKey(r)].value == Encoded(lib, data);
  }

  /** The list of allowed methods is never consulted: changing it changes nothing. */
  lemma AllowedMethodsIgnored(cfg: Config, methods: seq<string>, visit: seq<Rule>, next: Handler, lib: Libraries,
                              entries: map<string, Item>, healthy: bool, resp: Response, r: Request, now: Time)
    ensures Serve(cfg.(allowedHTTPMethods := methods), visit, next, lib, entries, healthy, resp, r, now)
            == Serve(cfg, visit, next, lib, entries, healthy, resp, r, now)
  {
  }

  /** A POST response is stored although the default list allows only GET and HEAD. */
  lemma DisallowedMethodStored()
    ensures var cfg := CreateConfig().(skipCacheControlHeader := true, defaultTTL := 10);
            var r := Request("POST", "example.com", "/x", "/x", map[]);
            var lib := Libraries((q: Request, s: int, h: Header) => Verdict([], 0, None),
                                 (p: string, u: string) => false,
                                 (d: CacheData) => Some([1 as Byte]),
                                 (b: Bytes) => None,
                                 (e: Time, n: Time) => "max-age=0");
            var out := Serve(cfg, [], (q: Request) => [], lib, map[], true, Response(map[], [], []), r, 0);
            "GET" in cfg.allowedHTTPMethods && "POST" !in cfg.allowedHTTPMethods
            && "POSTexample.com/x" in out.entries
  {
    var r := Request("POST", "example.com", "/x", "/x", map[]);
    assert CacheKey(r) == "POSTexample.com/x";
  }

  /** The middleware instance. */
  class Cache {
    const name: string
    const store: Store
    const cfg: Config
    /** the compiled override rules (a table keyed by compiled pattern) */
    const rules: seq<Rule>
    const next: Handler

    constructor (name: string, store: Store, cfg: Config, rules: seq<Rule>, next: Handler)
      ensures this.name == name && this.store == store && this.cfg == cfg && this.rules == rules && this.next == next
    {
      this.name, this.store, this.cfg, this.rules, this.next := name, store, cfg, rules, next;
    }

    /**
     * Serves `r` on `w` at instant `now`; `visit` is the order in which the
     * runtime enumerates the rule table on this call.
     */
    method ServeHTTP(w: Sink, r: Request, visit: seq<Rule>, lib: Libraries, now: Time)
      requires multiset(visit) == multiset(rules)
      modifies w, w.header, store`entries
      ensures Outcome(w.View(), store.entries)
              == Serve(cfg, visit, next, lib, old(store.entries), store.healthy, old(w.View()), r, now)
    {
      var cs := MISS_STATUS;
      var key := CacheKey(r);
      var b := store.Get(key);
      if b.Some? {
        var data := lib.decode(b.value);
        if data.None? {
          cs := ERROR_STATUS;
        } else {
          AddStored(w.header, data.value.headers);
          if cfg.addStatusHeader {
            w.header.Set("Cache-Control", lib.maxAge(data.value.expiresAt, now));
            w.header.Set(CACHE_HEADER, HIT_STATUS);
          }
          w.WriteHeader(data.value.status);
          var _ := w.Write(data.value.body);
          return;
        }
      }
      if cfg.addStatusHeader {
        w.header.Set(CACHE_HEADER, cs);
      }
      var rw := new ResponseWriter(w);
      RunHandler(rw, next(r));
      var a := Cacheable(cfg, visit, lib.cacheControl, lib.matches, r, w.header.m, rw.status, now);
      if !a.ok {
        return;
      }
      var data := CacheData(Add(now, a.expiry), rw.status, w.header.m, rw.body);
      var encoded := lib.encode(data);
      var bytes := if encoded.Some? then encoded.value else [];
      var _ := store.Set(key, bytes, a.expiry);
    }
  }

  /** The outcome of opening the on-disk cache at the configured path. */
  datatype Opening = Opened(store: Store) | OpenFailed(msg: string)

  /**
   * `New`: the interval checks, then the store, then the rule table. A
   * pattern that does not compile is skipped and never makes construction fail.
   */
  method New(next: Handler, cfg: Config, name: string, compiles: string -> bool, fileCache: Opening)
    returns (r: Result<Cache>)
    ensures Validate(cfg).Some? ==> r == Err(Validate(cfg).value)
    ensures Validate(cfg).None? && fileCache.OpenFailed? ==> r == Err(fileCache.msg)
    ensures Validate(cfg).None? && fileCache.Opened? ==>
              r.Ok? && fresh(r.value) && r.value.name == name && r.value.store == fileCache.store
              && r.value.cfg == cfg && r.value.rules == Compiled(cfg.uris, compiles) && r.value.next == next
  {
    if cfg.maxExpiry <= 1 {
      return Err(MAX_EXPIRY_ERROR);
    }
    if cfg.cleanup <= 1 {
      return Err(CLEANUP_ERROR);
    }
    if fileCache.OpenFailed? {
      return Err(fileCache.msg);
    }
    var rules := CompileRules(cfg.uris, compiles);
    var m := new Cache(name, fileCache.store, cfg, rules, next);
    return Ok(m);
  }
}
