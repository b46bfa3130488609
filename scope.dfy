/**
 * The scope classifier: which discovered links may be queued, given the
 * crawl's scope, the seed's host name, the exclusion patterns and the set
 * of URLs already visited.
 */
module CrawlScope {
  import opened Wrappers
  import opened Strings
  import opened Types
  import opened Environment

  /**
   * The scope test on host names.  `subdomains` is a plain string-suffix
   * test, so `xa.com` counts as a subdomain of `a.com`.
   */
  function InScope(scope: Scope, hostname: string, startHostname: string): bool {
    match scope
    case Single => false
    case Domain => hostname == startHostname
    case Subdomains => EndsWith(hostname, startHostname)
    case All => true
  }

  /** The four scopes are nested: each accepts at least what the narrower one accepts. */
  lemma ScopesNested(hostname: string, startHostname: string)
    ensures InScope(Single, hostname, startHostname) ==> InScope(Domain, hostname, startHostname)
    ensures InScope(Domain, hostname, startHostname) ==> InScope(Subdomains, hostname, startHostname)
    ensures InScope(Subdomains, hostname, startHostname) ==> InScope(All, hostname, startHostname)
  {
    if hostname == startHostname {
      assert hostname[|hostname| - |startHostname|..] == hostname;
    }
  }

  /**
   * Exact host matching for `domain`, suffix matching for `subdomains`, and
   * the suffix test's false positive on an unrelated host.
   */
  lemma SubdomainSuffixExamples()
    ensures !InScope(Domain, "b.a.com", "a.com")
    ensures InScope(Subdomains, "b.a.com", "a.com")
    ensures InScope(Subdomains, "xa.com", "a.com")
    ensures !InScope(Subdomains, "a.org", "a.com")
  {
    assert "b.a.com"[2..] == "a.com";
    assert "xa.com"[1..] == "a.com";
    assert "a.org"[0..] != "a.com" by { assert "a.org"[2] != "a.com"[2]; }
  }

  /** A pattern compiles and does not match the URL. */
  predicate Passes(env: Env, pattern: string, href: string) {
    env.regexError(pattern).None? && !env.matches(pattern, href)
  }

  /**
   * `exclusions.some(p => href.match(new RegExp(p)))`: the patterns are tried
   * in order and the first one that does not pass decides; a pattern that
   * cannot be compiled throws.
   */
  function Excluded(env: Env, patterns: seq<string>, href: string): Result<bool, string>
    decreases |patterns|
  {
    if patterns == [] then Success(false)
    else
      match env.regexError(patterns[0])
      case Some(message) => Failure(message)
      case None => if env.matches(patterns[0], href) then Success(true) else Excluded(env, patterns[1..], href)
  }

  /** The position of the first pattern that does not pass, or `|patterns|` when all pass. */
  function FirstStop(env: Env, patterns: seq<string>, href: string): (k: nat)
    ensures k <= |patterns|
    ensures forall j :: 0 <= j < k ==> Passes(env, patterns[j], href)
    ensures k < |patterns| ==> !Passes(env, patterns[k], href)
    decreases |patterns|
  {
    if patterns == [] || !Passes(env, patterns[0], href) then 0
    else
      var k := FirstStop(env, patterns[1..], href);
      assert forall j :: 1 <= j < k + 1 ==> patterns[j] == patterns[1..][j - 1];
      k + 1
  }

  /**
   * What the exclusion test decides, stated by position: when every pattern
   * passes the URL is not excluded; otherwise the first pattern that does not
   * pass throws (if it is malformed) or excludes the URL (if it matches).
   */
  lemma {:induction false} ExcludedMeaning(env: Env, patterns: seq<string>, href: string)
    ensures var k := FirstStop(env, patterns, href);
      Excluded(env, patterns, href) ==
        if k == |patterns| then Success(false)
        else if env.regexError(patterns[k]).Some? then Failure(env.regexError(patterns[k]).value)
        else Success(true)
    decreases |patterns|
  {
    if patterns != [] && Passes(env, patterns[0], href) {
      ExcludedMeaning(env, patterns[1..], href);
    }
  }

  /** No exclusion exactly when every pattern compiles and misses. */
  lemma NotExcludedMeaning(env: Env, patterns: seq<string>, href: string)
    ensures Excluded(env, patterns, href) == Success(false) <==>
            forall i :: 0 <= i < |patterns| ==> Passes(env, patterns[i], href)
  {
    ExcludedMeaning(env, patterns, href);
  }

  /**
   * The decision for one `href` found on page `base`: `Success(Some(url))`
   * when it is to be queued as `url`, `Success(None)` when it is skipped,
   * `Failure` when an exclusion pattern throws.
   */
  function Admit(env: Env, scope: Scope, startHostname: string, exclusions: seq<string>,
                 visited: set<string>, base: string, href: string): Result<Option<string>, string>
  {
    match env.resolve(href, base)
    case None => Success(None)
    case Some(u) =>
      if InScope(scope, u.hostname, startHostname) && u.href !in visited then
        match Excluded(env, exclusions, u.href)
        case Failure(message) => Failure(message)
        case Success(excluded) => if excluded then Success(None) else Success(Some(u.href))
      else Success(None)
  }

  /**
   * The decision for one `href` found on page `base`: it is queued (as its
   * resolved `href`) exactly when it resolves, its host is in scope, it has
   * not been visited and every exclusion pattern compiles and misses it; a
   * malformed pattern reached on the way makes the whole page fail.
   */
  lemma AdmitMeaning(env: Env, scope: Scope, startHostname: string, exclusions: seq<string>,
                     visited: set<string>, base: string, href: string)
    ensures var r := Admit(env, scope, startHostname, exclusions, visited, base, href);
      (scope == Single ==> r == Success(None))
      && (r.Success? && r.value.Some? <==>
        env.resolve(href, base).Some?
        && InScope(scope, env.resolve(href, base).value.hostname, startHostname)
        && env.resolve(href, base).value.href !in visited
        && forall i :: 0 <= i < |exclusions| ==> Passes(env, exclusions[i], env.resolve(href, base).value.href))
      && (r.Success? && r.value.Some? ==> r.value.value == env.resolve(href, base).value.href)
      && (r.Failure? ==> env.resolve(href, base).Some? && var k := FirstStop(env, exclusions, env.resolve(href, base).value.href);
        k < |exclusions| && env.regexError(exclusions[k]) == Some(r.error))
  {
    match env.resolve(href, base)
    case None =>
    case Some(u) =>
      NotExcludedMeaning(env, exclusions, u.href);
      ExcludedMeaning(env, exclusions, u.href);
  }
}
