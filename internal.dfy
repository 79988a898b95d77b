/** Environment readers, service metadata fallback and the ignored-path
    matcher. The process environment is passed in as a map, the result of
    loading the service's package manifest as an optional value, and the
    numeric parser as a function. */
module Internal {
  import opened Wrappers
  import opened Types

  /** The process environment. */
  type Env = map<string, string>

  /** The `name` and `version` entries of the service's package manifest. */
  datatype PackageManifest = PackageManifest(name: Option<string>, version: Option<string>)

  /** `getServiceDetails`: `loaded` is `None` when reading the manifest failed.
      A missing or empty name falls back to `defaultName`; the version is taken
      as it is, and is absent when loading failed. */
  function GetServiceDetails(loaded: Option<PackageManifest>, defaultName: string): (d: ServiceDetails)
    ensures loaded.None? ==> d == ServiceDetails(defaultName, None)
    ensures loaded.Some? ==> d.version == loaded.value.version
    ensures d.name == defaultName || (loaded.Some? && loaded.value.name == Some(d.name) && d.name != "")
    ensures loaded.Some? && loaded.value.name.Some? && loaded.value.name.value != "" ==>
              d.name == loaded.value.name.value
  {
    match loaded
    case None => ServiceDetails(defaultName, None)
    case Some(manifest) =>
      var name := if manifest.name.Some? && manifest.name.value != "" then manifest.name.value else defaultName;
      ServiceDetails(name, manifest.version)
  }

  /** `getEnv`: the raw value, absent when the variable is unset. */
  function GetEnv(env: Env, key: string): (v: Option<string>)
    ensures v.Some? <==> key in env
    ensures v.Some? ==> v.value == env[key]
  {
    if key in env then Some(env[key]) else None
  }

  /** `getEnvNumber`: absent when the variable is unset or does not parse as a
      number; `parse` stands for the runtime's number conversion (`None` for NaN). */
  function GetEnvNumber(env: Env, key: string, parse: string -> Option<int>): (v: Option<int>)
    ensures key !in env ==> v == None
    ensures key in env ==> v == parse(env[key])
  {
    if key in env then parse(env[key]) else None
  }

  /** `getEnvBoolean`: exactly "true" and "false" are read; unset, empty and
      every other value are absent. */
  function GetEnvBoolean(env: Env, key: string): (v: Option<bool>)
    ensures v == Some(true) <==> key in env && env[key] == "true"
    ensures v == Some(false) <==> key in env && env[key] == "false"
    ensures key !in env || env[key] == "" ==> v == None
  {
    if key !in env || env[key] == "" then None
    else if env[key] == "true" then Some(true)
    else if env[key] == "false" then Some(false)
    else None
  }

  /** `matchesPath`: a string matches by equality, a regular expression by its
      test, anything else never. */
  function MatchesPath(path: string, matcher: Matcher): (b: bool)
    ensures matcher.Exact? ==> (b <==> matcher.path == path)
    ensures matcher.Pattern? ==> b == matcher.test(path)
    ensures matcher.Unsupported? ==> !b
  {
    match matcher
    case Exact(p) => p == path
    case Pattern(test) => test(path)
    case Unsupported => false
  }

  /** Some matcher in `matchers` matches `path`. */
  predicate Ignored(path: string, matchers: seq<Matcher>)
  {
    exists i | 0 <= i < |matchers| :: MatchesPath(path, matchers[i])
  }

  /** `isIgnoredPath`: walks the matchers in order and stops at the first one
      that matches. An omitted list is the empty list. */
  method IsIgnoredPath(path: string, matchers: seq<Matcher>) returns (ignored: bool)
    ensures ignored == Ignored(path, matchers)
    ensures matchers == [] ==> !ignored
  {
    if |matchers| == 0 {
      return false;
    }
    var k := 0;
    while k < |matchers|
      invariant 0 <= k <= |matchers|
      invariant forall i | 0 <= i < k :: !MatchesPath(path, matchers[i])
    {
      if MatchesPath(path, matchers[k]) {
        return true;
      }
      k := k + 1;
    }
    return false;
  }

  /** A JavaScript line terminator, which `.` in a regular expression does not match. */
  predicate IsLineTerminator(c: char)
  {
    c == '\n' || c == '\r' || c == '\U{2028}' || c == '\U{2029}'
  }

  /** The default health-check pattern `^\/health\/?.*$`: "/health", then
      anything without a line terminator up to the end. */
  predicate HealthPattern(path: string): (b: bool)
    ensures path == "/health" || path == "/health/" ==> b
    ensures b ==> "/health" <= path
    ensures "/health" <= path && '\n' in path[|"/health"|..] ==> !b
  {
    "/health" <= path && forall i | |"/health"| <= i < |path| :: !IsLineTerminator(path[i])
  }
}
