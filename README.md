# Cache-by-route middleware: a Dafny model of its request path

This project models the request-handling core of a Traefik middleware plugin
that caches HTTP responses on disk, keyed by method, host and path. It covers:

- **Configuration**: the defaults, the two interval checks made at
  construction, and the override-rule table that construction builds.
  Construction silently drops patterns that do not compile.
- **Cache key**: method, host and path run together.
- **Admission** (`cacheable`).
  - Standard mode defers to an HTTP caching library: its reasons not to store, and its freshness end.
  - Override mode matches the request URL against the rule table, falls back to the default TTL, and otherwise refuses.
  - Every accepting branch caps the expiry at the configured maximum.
- **Capture**: the writer handed to the upstream handler records the status and the body and forwards every call unchanged.
- **Orchestration** (`ServeHTTP`).
  1. Look the key up in the store.
  2. On a hit that decodes, replay the stored headers, status and body.
  3. Otherwise, set a miss or error status header and pass the request through with capture.
  4. Decide admission, then write the encoded snapshot back under the same key.

Go's fixed-width time arithmetic is written out (module `Durations`):

- a `time.Duration` is a 64-bit count of nanoseconds;
- `time.Duration(n) * time.Second` wraps around;
- `Time.Sub` saturates.

The collaborators are parameters:

- the caching library's verdict;
- whether a pattern compiles and whether it matches;
- snapshot encoding and decoding (either may fail);
- the formatting of the `Cache-Control` value sent on a hit;
- the upstream handler, given as the calls it makes on its writer;
- the current instant.

The nondeterminism of Go's map iteration comes in two places:

- **The rule table.** `ServeHTTP` takes the enumeration order of the table as an argument. It must be a permutation of the table.
- **The replay loop over stored headers.** The key is picked with `:|`. The method's postcondition shows that the result is the same for every order.

Modules: `Wrappers` (`wrappers.dfy`), `Durations`, `Http` (request, header
multimap, the response writer the middleware is handed), `Configuration`,
`Policy`, `Capture`, `Middleware`.

## Where the code and the design disagree (the model follows the code)

- **Interval checks.** `maxExpiry` and `cleanup` are refused when they are `<= 1`, so a value of exactly 1 fails, although the error messages (and the design) say 1 is allowed (`Configuration.OneIsRefused`).
- **Non-positive expiries are admitted.** An admitted response may have an expiry of 0 or less: a rule TTL of 0, a freshness end in the past, or a `maxExpiry` above 9223372036 seconds. Such a `maxExpiry` passes the checks, but its duration wraps to a negative value (`Policy.AdmittedWithNonPositiveExpiry`). The design calls such responses not cacheable.
- **No method gating.** `allowedHTTPMethods` is never read, so responses to any method are stored (`Middleware.AllowedMethodsIgnored`, `Middleware.DisallowedMethodStored`).
- **Nondeterministic rule choice.** The rule table is keyed by compiled-pattern objects, so when several rules match, the runtime's enumeration order decides which TTL applies (`Policy.RuleChoiceDependsOnOrder`). Duplicate patterns are kept as separate entries.
- **Captured status defaults to 0.** If the handler never calls `WriteHeader`, the captured status stays 0, not 200 (`Capture.StatusZeroWithoutWriteHeader`).
- **Unreachable default-TTL override.** In standard mode, the default-TTL assignment at cache.go:169-171 sits under the negation of its own enclosing condition, so it never runs (`Policy.StandardAdmits`).
- **Encoding failure still writes.** When encoding the snapshot fails, the store is still written, with empty bytes (`Middleware.Encoded`).

## Model

| member | source | states |
|---|---|---|
| `Durations.Seconds` | cache.go:174 | `time.Duration(n) * time.Second` is exactly n seconds for up to 9223372036 seconds. It wraps beyond that, and for n >= 0 it is never above n seconds. |
| `Durations.SecondsWrapsPastRange` | cache.go:174 | One second past that range, the product is already negative. |
| `Durations.Sub` | cache.go:173 | `time.Until`: the exact difference when it fits in a duration, otherwise the nearest bound. |
| `Durations.Add` | cache.go:146 | `time.Now().Add(expiry)`: subtracting the start instant gives the duration back. |
| `Durations.Clamp` | cache.go:176-178 | The capped expiry is at most the cap, at most the candidate, and equal to one of them. |
| `Http.WithSet` | cache.go:124-125 | `Header.Set`: the key then holds exactly that one value, and every other key is unchanged. |
| `Http.WithAdd` | cache.go:119 | `Header.Add`: the value is appended after the existing ones, and every other key is unchanged. |
| `Http.HeaderMap.Set` | cache.go:134 | Setting the cache-status header replaces the map by `WithSet` of the old map. |
| `Http.HeaderMap.Add` | cache.go:119 | Adding a stored value replaces the map by `WithAdd` of the old map. |
| `Http.Sink.WriteHeader` | cache.go:127 | The status is sent to the client, and the body so far is untouched. |
| `Http.Sink.Write` | cache.go:128 | Exactly the given bytes are appended to what the client received, and their count is returned. |
| `Configuration.CreateConfig` | cache.go:35-44 | The defaults (300 s expiry cap, 300 s cleanup, no default TTL, standard mode, status header on, no rules) pass validation. |
| `Configuration.Validate` | cache.go:63-69 | Construction proceeds iff both `maxExpiry` and `cleanup` exceed 1. The expiry check comes first, and each failure carries its message. |
| `Configuration.OneIsRefused` | cache.go:63-69 | A value of exactly 1 for either interval is refused. |
| `Configuration.Compiled` | cache.go:76-83 | The reference rule table: never longer than the URI list, and only rules whose pattern compiles. |
| `Configuration.CompileRules` | cache.go:76-83 | The construction loop builds exactly `Compiled` of the configured URIs. |
| `Configuration.CompiledExactly` | cache.go:76-83 | A rule is in the table iff some configured URI with a compiling pattern has that pattern and TTL. It occurs as many times as such URIs are configured. |
| `Configuration.BadPatternSkipped` | cache.go:78-81 | A URI whose pattern does not compile contributes nothing, wherever it stands in the list. |
| `Policy.FirstMatch` | cache.go:184-195 | The scan finds nothing iff no enumerated rule matches. Otherwise it returns a matching rule with no matching rule before it. |
| `Policy.Cacheable` | cache.go:162-207 | An admitted expiry never exceeds the `maxExpiry` duration, and a refusal always carries expiry 0. |
| `Policy.ExpiryAtMostMaxExpiry` | cache.go:174-202 | For a non-negative `maxExpiry`, an admitted expiry is at most `maxExpiry` seconds. |
| `Policy.StandardRefuses` | cache.go:163-167 | Standard mode: a library error or any reason against storing gives (0, not admitted). |
| `Policy.StandardAdmits` | cache.go:168-181 | Standard mode, otherwise: admitted for min(freshness end − now, `maxExpiry` s). The default TTL has no influence (lines 169-171 are dead). |
| `Policy.OverrideMatch` | cache.go:183-194 | Override mode with some rule matching the URL: admitted for min(ttl, `maxExpiry`), for a matching rule of the table. |
| `Policy.OverrideDefault` | cache.go:196-205 | Override mode, no rule matches, positive default TTL: admitted for min(default, `maxExpiry`). |
| `Policy.OverrideRefuses` | cache.go:196-206 | Override mode, no rule matches, default TTL not positive: (0, not admitted). |
| `Policy.OverrideIgnoresLibrary` | cache.go:183-206 | Override mode never consults the caching library. |
| `Policy.FirstMatchIsUnique` | cache.go:184-194 | When only one rule of the table matches, every enumeration order finds that rule. |
| `Policy.UniqueMatchIsOrderIndependent` | cache.go:184-194 | When only one rule matches, the decision is the same for every enumeration order. |
| `Policy.RuleChoiceDependsOnOrder` | cache.go:184-194 | With two matching rules of TTL 30 and 60, the two enumeration orders give 30 s and 60 s. |
| `Policy.AdmittedWithNonPositiveExpiry` | cache.go:186-193 | A rule TTL of 0 gives (0, admitted). A `maxExpiry` of 9223372037 passes validation, yet makes a 30 s rule admit with a negative expiry. |
| `Capture.ResponseWriter.constructor` | cache.go:137 | The capture starts with status 0 and an empty body, wrapping the real writer. |
| `Capture.ResponseWriter.Header` | cache.go:219-221 | The header map handed to the handler is the real writer's own object. |
| `Capture.ResponseWriter.Write` | cache.go:223-226 | The captured body becomes old body ++ p. Exactly p is forwarded, and its count is returned. |
| `Capture.ResponseWriter.WriteHeader` | cache.go:228-231 | The captured status becomes s (a later call replaces it), and s is forwarded. |
| `Capture.RunHandler` | cache.go:138 | Running the handler's calls through the capture leaves the client's view and the capture equal to `Run`, the reference fold of the calls. |
| `Capture.RunForwards` | cache.go:219-231 | Over a whole handler run, the captured body and the bytes the client receives both grow by the same payload. The client gets every status set, and header calls reach the real map. |
| `Capture.RunStatus` | cache.go:228-231 | The captured status after a run is the last `WriteHeader` code, or the initial one if none. |
| `Capture.StatusZeroWithoutWriteHeader` | cache.go:213-217 | A handler that never calls `WriteHeader` leaves the captured status at 0. |
| `Middleware.CacheKey` | cache.go:209-211 | The key is the method, then the host, then the path, with nothing else in it. |
| `Middleware.KeyDeterminism` | cache.go:209-211 | Requests equal in method, host and path get equal keys, whatever their URL query or headers. |
| `Middleware.KeyCollision` | cache.go:209-211 | Different (method, host, path) triples can share a key, since there is no separator. |
| `Middleware.Encoded` | cache.go:152-157 | The bytes written are the encoding, or empty bytes when encoding failed. |
| `Middleware.Store.Get` | cache.go:109 | The lookup finds bytes iff the key is stored, and returns the stored bytes. |
| `Middleware.Store.Set` | cache.go:157-159 | A successful write stores (bytes, ttl) under the key. A failed one reports an error and changes nothing. |
| `Middleware.Merge` | cache.go:117-121 | After replay, a key is present iff it was before or has stored values. Its values are the existing ones followed by the stored ones. |
| `Middleware.AddValues` | cache.go:118-120 | The inner replay loop adds one key's stored values in order. |
| `Middleware.AddStored` | cache.go:117-121 | The replay loop gives `Merge` of the old headers and the stored ones, whatever order the keys are taken in. |
| `Middleware.Replay` | cache.go:117-128 | A hit sends the stored status and body. With the status header on, it overrides `Cache-Control` and `Cache-Status: hit`. Every other key gets its stored values after its existing ones. |
| `Middleware.HitReplays` | cache.go:109-130 | A decodable hit replays the stored status and body, leaves the store unchanged, and gives the same result for any upstream handler. |
| `Middleware.MissPathTouchesOnlyKey` | cache.go:133-159 | The pass-through path changes the store only under the lookup key. What it writes and sends does not depend on the store's contents. |
| `Middleware.DecodeFailureFallsThrough` | cache.go:110-116 | Undecodable bytes put the request on the miss path with status `error`. Without the status header, the client gets exactly the cold-miss response and the store ends up the same apart from that key. |
| `Middleware.WriteBack` | cache.go:137-159 | On a miss, the client receives exactly the handler's bytes. The store changes only under the lookup key, and only when admitted and the write succeeds. The entry's expiry is at most `maxExpiry`, and its snapshot holds the handler's last status, final headers and whole body. |
| `Middleware.SecondRequestHits` | cache.go:104-159 | After an admitted, stored miss, a request with the same method, host and path is a hit. It replays the handler's status and body, given a round-tripping encoding. |
| `Middleware.AllowedMethodsIgnored` | cache.go:23 | Changing the allowed-methods list changes neither the response nor the store. |
| `Middleware.DisallowedMethodStored` | cache.go:39 | With the default GET/HEAD list, a POST response in override mode with a default TTL is stored. |
| `Middleware.Cache.constructor` | cache.go:85-91 | The instance holds the given name, store, configuration, rule table and handler. |
| `Middleware.Cache.ServeHTTP` | cache.go:104-160 | What the client is sent and the store afterwards equal `Serve` of the old state. What `Serve` does is what the lemmas above prove. |
| `Middleware.New` | cache.go:62-94 | A failed check gives its error before the store is opened. Then a store failure gives its error. Otherwise the result is a fresh instance whose rule table is `Compiled` of the URIs, so a bad pattern never fails construction. |

## Left out

- **The on-disk cache.** Its expiry enforcement, the background sweep, file layout and locking are left out: the `fileCache` implementation is not part of this model. The store is a map from key to (bytes, ttl). A lookup finds any stored key, and the `healthy` flag stands for whether writes succeed.
- **The caching library's internals.** The RFC 7234 rules (sections 3 and 4.2.1) are left out: they live in a foreign library, which the model takes as a given function.
- **Pattern compilation and matching.** These are given predicates on the pattern text.
- **JSON encoding of snapshots.** It is a given function pair that may fail. No round trip is claimed; `Middleware.SecondRequestHits` takes one as a hypothesis.
- **The `max-age` value sent on a hit** (cache.go:123-124). It goes through floating point and `fmt`, so it is a given formatting function of the stored expiry and the current instant.
- **The wall clock.** One instant `now` serves the whole request, whereas the source reads the clock separately at lines 123, 146, 170 and 173.
- **Logging** (cache.go:154, 158). It has no effect on the response or the store.
- **Header key canonicalisation** by `Header.Add` and `Header.Set`. Keys are taken as already canonical.
- **The real `http.ResponseWriter` beyond recording calls.** The server's rules are left out: first `WriteHeader` wins, the first `Write` implies 200, headers freeze once sent, and connection write errors can occur. The writer records every header change, status and byte in order.
- **A stateful upstream handler.** The handler is a fixed function from the request to the calls it makes, so a handler that answers the same request differently on different calls is not captured.
- **Concurrency.** Requests are modelled one at a time.
- **Unused inputs.** The plugin name and the context argument of `New` are carried or ignored, as in the source; nothing reads them.
- **Go's `int` width.** It is taken as 64 bits, the platforms the proxy runs on.
- Policy.StandardAdmits: states min(freshness end − now, `maxExpiry` s) only when the difference fits in a duration and `maxExpiry` is at most 9223372036. Outside that range the result is the saturated, wrapped form that `Policy.Cacheable` computes.
