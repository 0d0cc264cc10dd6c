/**
 * The admission and expiry decision taken after the upstream handler has
 * answered: standard mode defers to an HTTP caching library, override mode
 * matches the request URL against the rule table, and every accepting branch
 * cuts the expiry down to the configured maximum.
 */
module Policy {
  import opened Wrappers
  import opened Durations
  import opened Http
  import opened Configuration

  /**
   * What the caching library reports for a request, the captured status and
   * the response headers: the reasons the response may not be stored, the
   * instant its freshness ends, and an error.
   */
  datatype Verdict = Verdict(reasons: seq<int>, expireBy: Time, err: Option<string>)

  /** The caching library (cache-control semantics of RFC 7234), taken as given. */
  type CacheControl = (Request, int, Header) -> Verdict

  /** Whether a compiled pattern matches a string, taken as given. */
  type Matcher = (string, string) -> bool

  /** The decision: how long to keep the response, and whether to keep it at all. */
  datatype Admission = Admission(expiry: Duration, ok: bool)

  /**
   * The scan of the rule table in the order `visit` enumerates it: the first
   * rule whose pattern matches `url`, if there is one.
   */
  function FirstMatch(visit: seq<Rule>, url: string, matches: Matcher): (r: Option<Rule>)
    ensures r.None? <==> forall i :: 0 <= i < |visit| ==> !matches(visit[i].pattern, url)
    ensures r.Some? ==> exists i :: 0 <= i < |visit| && visit[i] == r.value && matches(r.value.pattern, url)
                                    && forall j :: 0 <= j < i ==> !matches(visit[j].pattern, url)
  {
    if visit == [] then None
    else if matches(visit[0].pattern, url) then Some(visit[0])
    else
      var r := FirstMatch(visit[1..], url, matches);
      if r.Some? then
        var i :| 0 <= i < |visit[1..]| && visit[1..][i] == r.value && matches(r.value.pattern, url)
                 && forall j :: 0 <= j < i ==> !matches(visit[1..][j].pattern, url);
        assert visit[i + 1] == r.value;
        r
      else r
  }

  /**
   * `cacheable`: the decision for the request `r`, the response headers `h`
   * and the captured `status` at instant `now`; `visit` is the rule table in
   * the order the runtime enumerates it on this call.
   */
  function Cacheable(cfg: Config, visit: seq<Rule>, cacheControl: CacheControl, matches: Matcher,
                     r: Request, h: Header, status: int, now: Time): (a: Admission)
    ensures a.ok ==> a.expiry <= Seconds(cfg.maxExpiry)
    ensures !a.ok ==> a.expiry == 0
  {
    var maxExpiry := Seconds(cfg.maxExpiry);
    if !cfg.skipCacheControlHeader then
      var v := cacheControl(r, status, h);
      if v.err.Some? || |v.reasons| > 0 then Admission(0, false)
      else
        // a test of the opposite condition, inside the branch: it never holds
        var expireBy := if cfg.skipCacheControlHeader then Add(now, Seconds(cfg.defaultTTL)) else v.expireBy;
        Admission(Clamp(Sub(expireBy, now), maxExpiry), true)
    else
      match FirstMatch(visit, r.url, matches)
      case Some(rule) => Admission(Clamp(Seconds(rule.ttl), maxExpiry), true)
      case None =>
        if cfg.defaultTTL > 0 then Admission(Clamp(Seconds(cfg.defaultTTL), maxExpiry), true)
        else Admission(0, false)
  }

  /** The smaller of two durations. */
  function Min(a: int, b: int): int
  {
    if a <= b then a else b
  }

  /** The clamping bound, in seconds: an admitted response never lives longer than `maxExpiry`. */
  lemma ExpiryAtMostMaxExpiry(cfg: Config, visit: seq<Rule>, cacheControl: CacheControl, matches: Matcher,
                              r: Request, h: Header, status: int, now: Time)
    requires cfg.maxExpiry >= 0
    ensures var a := Cacheable(cfg, visit, cacheControl, matches, r, h, status, now);
            a.ok ==> a.expiry <= cfg.maxExpiry * SECOND
  {
  }

  /** Standard mode: a library error or any reason against storing refuses the response. */
  lemma StandardRefuses(cfg: Config, visit: seq<Rule>, cacheControl: CacheControl, matches: Matcher,
                        r: Request, h: Header, status: int, now: Time)
    requires !cfg.skipCacheControlHeader
    requires cacheControl(r, status, h).err.Some? || |cacheControl(r, status, h).reasons| > 0
    ensures Cacheable(cfg, visit, cacheControl, matches, r, h, status, now) == Admission(0, false)
  {
  }

  /**
   * Standard mode otherwise admits the response for its remaining freshness
   * lifetime, capped at `maxExpiry`; the default TTL plays no part.
   */
  lemma StandardAdmits(cfg: Config, visit: seq<Rule>, cacheControl: CacheControl, matches: Matcher,
                       r: Request, h: Header, status: int, now: Time, defaultTTL: Int64)
    requires !cfg.skipCacheControlHeader
    requires cacheControl(r, status, h).err.None? && cacheControl(r, status, h).reasons == []
    requires 0 <= cfg.maxExpiry <= MAX_SECONDS
    requires MIN_INT64 <= cacheControl(r, status, h).expireBy - now <= MAX_INT64
    ensures var a := Cacheable(cfg, visit, cacheControl, matches, r, h, status, now);
            a.ok && a.expiry == Min(cacheControl(r, status, h).expireBy - now, cfg.maxExpiry * SECOND)
    ensures Cacheable(cfg.(defaultTTL := defaultTTL), visit, cacheControl, matches, r, h, status, now)
            == Cacheable(cfg, visit, cacheControl, matches, r, h, status, now)
  {
  }

  /**
   * Override mode, a rule matches: the response is admitted for the TTL of a
   * matching rule of the table, capped at `maxExpiry`. Which matching rule is
   * the first one the enumeration meets.
   */
  lemma {:induction false} OverrideMatch(cfg: Config, rules: seq<Rule>, visit: seq<Rule>, cacheControl: CacheControl,
                                         matches: Matcher, r: Request, h: Header, status: int, now: Time, k: nat)
    requires cfg.skipCacheControlHeader
    requires multiset(visit) == multiset(rules)
    requires k < |rules| && matches(rules[k].pattern, r.url)
    ensures var a := Cacheable(cfg, visit, cacheControl, matches, r, h, status, now);
            a.ok && exists rule :: rule in rules && matches(rule.pattern, r.url)
                                   && a.expiry == Clamp(Seconds(rule.ttl), Seconds(cfg.maxExpiry))
  {
    assert rules[k] in multiset(visit);
    var m := FirstMatch(visit, r.url, matches);
    assert m.Some? by {
      var i :| 0 <= i < |visit| && visit[i] == rules[k];
    }
    assert m.value in multiset(rules);
  }

  /** Override mode, no rule matches, a positive default: the default TTL, capped. */
  lemma OverrideDefault(cfg: Config, visit: seq<Rule>, cacheControl: CacheControl, matches: Matcher,
                        r: Request, h: Header, status: int, now: Time)
    requires cfg.skipCacheControlHeader && cfg.defaultTTL > 0
    requires forall i :: 0 <= i < |visit| ==> !matches(visit[i].pattern, r.url)
    ensures Cacheable(cfg, visit, cacheControl, matches, r, h, status, now)
            == Admission(Clamp(Seconds(cfg.defaultTTL), Seconds(cfg.maxExpiry)), true)
  {
  }

  /** Override mode, no rule matches and no positive default: refused. */
  lemma OverrideRefuses(cfg: Config, visit: seq<Rule>, cacheControl: CacheControl, matches: Matcher,
                        r: Request, h: Header, status: int, now: Time)
    requires cfg.skipCacheControlHeader && cfg.defaultTTL <= 0
    requires forall i :: 0 <= i < |visit| ==> !matches(visit[i].pattern, r.url)
    ensures Cacheable(cfg, visit, cacheControl, matches, r, h, status, now) == Admission(0, false)
  {
  }

  /** Override mode never consults the caching library. */
  lemma OverrideIgnoresLibrary(cfg: Config, visit: seq<Rule>, cc1: CacheControl, cc2: CacheControl, matches: Matcher,
                               r: Request, h: Header, status: int, now: Time)
    requires cfg.skipCacheControlHeader
    ensures Cacheable(cfg, visit, cc1, matches, r, h, status, now) == Cacheable(cfg, visit, cc2, matches, r, h, status, now)
  {
  }

  /** When only one rule matches, the enumeration order makes no difference. */
  lemma {:induction false} UniqueMatchIsOrderIndependent(cfg: Config, rules: seq<Rule>, v1: seq<Rule>, v2: seq<Rule>,
                                                         cacheControl: CacheControl, matches: Matcher,
                                                         r: Request, h: Header, status: int, now: Time, k: nat)
    requires multiset(v1) == multiset(rules) && multiset(v2) == multiset(rules)
    requires k < |rules| && matches(rules[k].pattern, r.url)
    requires forall i :: 0 <= i < |rules| && matches(rules[i].pattern, r.url) ==> rules[i] == rules[k]
    ensures Cacheable(cfg, v1, cacheControl, matches, r, h, status, now) == Cacheable(cfg, v2, cacheControl, matches, r, h, status, now)
  {
    if cfg.skipCacheControlHeader {
      FirstMatchIsUnique(rules, v1, r.url, matches, k);
      FirstMatchIsUnique(rules, v2, r.url, matches, k);
    }
  }

  lemma FirstMatchIsUnique(rules: seq<Rule>, visit: seq<Rule>, url: string, matches: Matcher, k: nat)
    requires multiset(visit) == multiset(rules)
    requires k < |rules| && matches(rules[k].pattern, url)
    requires forall i :: 0 <= i < |rules| && matches(rules[i].pattern, url) ==> rules[i] == rules[k]
    ensures FirstMatch(visit, url, matches) == Some(rules[k])
  {
    assert rules[k] in multiset(visit);
    var m := FirstMatch(visit, url, matches);
    assert m.Some? by {
      var i :| 0 <= i < |visit| && visit[i] == rules[k];
    }
    assert m.value in multiset(rules);
    var j :| 0 <= j < |rules| && rules[j] == m.value;
  }

  /** With two matching rules of different TTLs, the enumeration order decides the expiry. */
  lemma RuleChoiceDependsOnOrder()
    ensures var cfg := CreateConfig().(skipCacheControlHeader := true);
            var r := Request("GET", "example.com", "/api/x", "/api/x", map[]);
            var a := Rule("/api/.*", 30);
            var b := Rule(".*", 60);
            var cc := (q: Request, s: int, h: Header) => Verdict([], 0, None);
            var any := (p: string, u: string) => true;
            Cacheable(cfg, [a, b], cc, any, r, map[], 200, 0).expiry == 30 * SECOND
            && Cacheable(cfg, [b, a], cc, any, r, map[], 200, 0).expiry == 60 * SECOND
  {
  }

  /**
   * A response is admitted with an expiry that is not positive when a rule's
   * TTL is 0, and when `maxExpiry` is larger than MAX_SECONDS, which passes
   * the construction checks but wraps to a negative duration.
   */
  lemma AdmittedWithNonPositiveExpiry()
    ensures var r := Request("GET", "example.com", "/api/x", "/api/x", map[]);
            var cc := (q: Request, s: int, h: Header) => Verdict([], 0, None);
            var any := (p: string, u: string) => true;
            var zero := CreateConfig().(skipCacheControlHeader := true);
            var huge := zero.(maxExpiry := MAX_SECONDS + 1);
            Validate(huge) == None
            && Cacheable(zero, [Rule("/api/.*", 0)], cc, any, r, map[], 200, 0) == Admission(0, true)
            && Cacheable(huge, [Rule("/api/.*", 30)], cc, any, r, map[], 200, 0).ok
            && Cacheable(huge, [Rule("/api/.*", 30)], cc, any, r, map[], 200, 0).expiry < 0
  {
  }
}
