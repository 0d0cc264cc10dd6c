/**
 * The middleware's configuration, its defaults, the checks construction makes
 * on it, and the table of override rules built from it.
 */
module Configuration {
  import opened Wrappers
  import opened Durations

  /** One override rule as configured: a path pattern and a time-to-live in seconds. */
  datatype Uri = Uri(pattern: string, ttl: Int64)

  datatype Config = Config(
    path: string,
    maxExpiry: Int64,
    cleanup: Int64,
    addStatusHeader: bool,
    /** read by nothing in the middleware */
    allowedHTTPMethods: seq<string>,
    skipCacheControlHeader: bool,
    defaultTTL: Int64,
    uris: seq<Uri>)

  const MAX_EXPIRY_ERROR: string := "maxExpiry must be greater or equal to 1"
  const CLEANUP_ERROR: string := "cleanup must be greater or equal to 1"

  /**
   * The checks at the start of construction, in their order: the first one
   * that fails gives the error. A value of exactly 1 is refused although the
   * messages say 1 is allowed.
   */
  function Validate(cfg: Config): (err: Option<string>)
    ensures err == None <==> cfg.maxExpiry > 1 && cfg.cleanup > 1
    ensures cfg.maxExpiry <= 1 ==> err == Some(MAX_EXPIRY_ERROR)
    ensures cfg.maxExpiry > 1 && cfg.cleanup <= 1 ==> err == Some(CLEANUP_ERROR)
  {
    if cfg.maxExpiry <= 1 then Some(MAX_EXPIRY_ERROR)
    else if cfg.cleanup <= 1 then Some(CLEANUP_ERROR)
    else None
  }

  /** The defaults: five minutes for the expiry cap and for the cleanup sweep. */
  function CreateConfig(): (cfg: Config)
    ensures Validate(cfg) == None
    ensures cfg.defaultTTL == 0 && !cfg.skipCacheControlHeader && cfg.addStatusHeader && cfg.uris == []
  {
    Config(
      path := "",
      maxExpiry := 5 * 60,
      cleanup := 5 * 60,
      addStatusHeader := true,
      allowedHTTPMethods := ["GET", "HEAD"],
      skipCacheControlHeader := false,
      defaultTTL := 0,
      uris := [])
  }

  /** A value of exactly 1 for either interval is refused. */
  lemma OneIsRefused(cfg: Config)
    requires cfg.maxExpiry == 1 || cfg.cleanup == 1
    ensures Validate(cfg).Some?
  {
  }

  /**
   * An entry of the rule table: the compiled form of `pattern` with its TTL.
   * The table is keyed by compiled-pattern objects, each distinct, so two
   * rules with the same pattern are two entries; the order of `rules` is the
   * order of construction and carries no meaning for lookups.
   */
  datatype Rule = Rule(pattern: string, ttl: Int64)

  /** The rules whose pattern compiles, in configuration order (reference definition of the table). */
  function Compiled(uris: seq<Uri>, compiles: string -> bool): (rules: seq<Rule>)
    ensures |rules| <= |uris|
    ensures forall i :: 0 <= i < |rules| ==> compiles(rules[i].pattern)
  {
    if uris == [] then []
    else
      var rest := Compiled(uris[..|uris| - 1], compiles);
      var u := uris[|uris| - 1];
      if compiles(u.pattern) then rest + [Rule(u.pattern, u.ttl)] else rest
  }

  /**
   * The rule-table loop of construction: every URI whose pattern compiles is
   * added with its TTL, and one that does not compile is skipped.
   */
  method CompileRules(uris: seq<Uri>, compiles: string -> bool) returns (rules: seq<Rule>)
    ensures rules == Compiled(uris, compiles)
  {
    rules := [];
    var i := 0;
    while i < |uris|
      invariant 0 <= i <= |uris|
      invariant rules == Compiled(uris[..i], compiles)
    {
      assert uris[..i + 1][..i] == uris[..i];
      var u := uris[i];
      if compiles(u.pattern) {
        rules := rules + [Rule(u.pattern, u.ttl)];
      }
      i := i + 1;
    }
    assert uris[..|uris|] == uris;
  }

  /** How many times `rule` occurs among the compilable URIs. */
  function Occurrences(uris: seq<Uri>, compiles: string -> bool, rule: Rule): nat
  {
    if uris == [] then 0
    else
      var u := uris[|uris| - 1];
      Occurrences(uris[..|uris| - 1], compiles, rule)
      + (if compiles(u.pattern) && Rule(u.pattern, u.ttl) == rule then 1 else 0)
  }

  /**
   * The table holds exactly the URIs whose pattern compiles, each with its own
   * TTL, as many times as it is configured.
   */
  lemma {:induction false} CompiledExactly(uris: seq<Uri>, compiles: string -> bool, rule: Rule)
    ensures multiset(Compiled(uris, compiles))[rule] == Occurrences(uris, compiles, rule)
    ensures rule in Compiled(uris, compiles) <==>
              exists i :: 0 <= i < |uris| && compiles(uris[i].pattern) && rule == Rule(uris[i].pattern, uris[i].ttl)
  {
    if uris != [] {
      var init := uris[..|uris| - 1];
      CompiledExactly(init, compiles, rule);
      var u := uris[|uris| - 1];
      if rule in Compiled(uris, compiles) && rule !in Compiled(init, compiles) {
        assert compiles(u.pattern) && rule == Rule(u.pattern, u.ttl);
      }
      if rule in Compiled(init, compiles) {
        var i :| 0 <= i < |init| && compiles(init[i].pattern) && rule == Rule(init[i].pattern, init[i].ttl);
        assert uris[i] == init[i];
      }
      if exists i :: 0 <= i < |uris| && compiles(uris[i].pattern) && rule == Rule(uris[i].pattern, uris[i].ttl) {
        var i :| 0 <= i < |uris| && compiles(uris[i].pattern) && rule == Rule(uris[i].pattern, uris[i].ttl);
        if i < |init| {
          assert init[i] == uris[i];
        }
      }
    }
  }

  /** A pattern that does not compile contributes nothing, wherever it stands in the list. */
  lemma {:induction false} BadPatternSkipped(before: seq<Uri>, bad: Uri, after: seq<Uri>, compiles: string -> bool)
    requires !compiles(bad.pattern)
    ensures Compiled(before + [bad] + after, compiles) == Compiled(before + after, compiles)
  {
    if after == [] {
      assert before + [bad] + after == before + [bad];
      assert (before + [bad])[..|before|] == before;
      assert before + after == before;
    } else {
      var init := after[..|after| - 1];
      BadPatternSkipped(before, bad, init, compiles);
      assert (before + [bad] + after)[..|before + [bad] + after| - 1] == before + [bad] + init;
      assert (before + after)[..|before + after| - 1] == before + init;
    }
  }
}
