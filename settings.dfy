/** `Settings` of app/config/settings.py and `Settings.load`, reading an explicit environment. */
module Config {
  import opened Wrappers
  import opened Strings

  /** The process environment `os.getenv` reads. */
  type Env = map<string, string>

  datatype Settings = Settings(
    title: string,
    version: string,
    host: string,
    port: int,
    corsOrigins: seq<string>,
    logLevel: string,
    metricsEnabled: bool,
    metricsEndpoint: string,
    dbEnabled: bool,
    dbUrl: Option<string>,
    dbEcho: bool,
    cacheEnabled: bool,
    cacheUrl: Option<string>,
    tracingEnabled: bool,
    tracingServiceName: string,
    tracingEndpoint: Option<string>)

  /** `Settings()`: the class defaults. */
  function Defaults(): (s: Settings)
    ensures s.title == "FastAPI Template" && s.version == "0.1.0" && s.logLevel == "DEBUG"
    ensures s.port == 8000 && s.corsOrigins == ["*"] && s.host == "127.0.0.1"
    ensures s.tracingServiceName == "fastapi-template"
    ensures s.metricsEnabled && s.metricsEndpoint == "/metrics"
    ensures !s.dbEnabled && !s.dbEcho && !s.cacheEnabled && !s.tracingEnabled
    ensures s.dbUrl == None && s.cacheUrl == None && s.tracingEndpoint == None
  {
    Settings("FastAPI Template", "0.1.0", "127.0.0.1", 8000, ["*"], "DEBUG",
             true, "/metrics", false, None, false, false, None, false, "fastapi-template", None)
  }

  /** `os.getenv(name, default)` for a string default. */
  function GetEnv(env: Env, name: string, default: string): (r: string)
    ensures name in env ==> r == env[name]
    ensures name !in env ==> r == default
  {
    if name in env then env[name] else default
  }

  /** `os.getenv(name, default)` for a default that may be None. */
  function GetEnvOpt(env: Env, name: string, default: Option<string>): (r: Option<string>)
    ensures name in env ==> r == Some(env[name])
    ensures name !in env ==> r == default
  {
    if name in env then Some(env[name]) else default
  }

  /** The spellings `as_bool` reads as true, compared after lower-casing. */
  predicate Truthy(v: string) {
    Lower(v) in {"1", "true", "yes", "on"}
  }

  /** `as_bool(name, default)`: the default when unset; otherwise true exactly for the
      truthy spellings, so every other value (the empty string included) is false. */
  function AsBool(env: Env, name: string, default: bool): (r: bool)
    ensures name !in env ==> r == default
    ensures name in env ==> (r <==> Truthy(env[name]))
  {
    if name !in env then default else Truthy(env[name])
  }

  /** Writing a boolean back as "true"/"false" and reading it with `as_bool` gives it back. */
  lemma AsBoolRoundTrip(env: Env, name: string, b: bool, default: bool)
    ensures AsBool(env[name := if b then "true" else "false"], name, default) == b
  {
    var v := if b then "true" else "false";
    if b {
      assert Lower(v) == "true" by { assert forall i :: 0 <= i < 4 ==> Lower(v)[i] == "true"[i]; }
    } else {
      assert Lower(v) == "false" by { assert forall i :: 0 <= i < 5 ==> Lower(v)[i] == "false"[i]; }
      assert "false" !in {"1", "true", "yes", "on"};
    }
  }

  /** Any letter case of a truthy spelling is truthy. */
  lemma AsBoolIgnoresCase(env: Env, name: string, default: bool)
    requires name in env && Lower(env[name]) == "yes"
    ensures AsBool(env, name, default)
  {
  }

  /** The empty value is false, not the default. */
  lemma AsBoolEmptyIsFalse(env: Env, name: string, default: bool)
    requires name in env && env[name] == ""
    ensures !AsBool(env, name, default)
  {
    assert Lower("") == "";
  }

  /** The CORS origins: `["*"]` when `CORS_ORIGINS` is unset or empty, otherwise its
      comma-separated pieces, each stripped. */
  function CorsOrigins(env: Env): (r: seq<string>)
    ensures GetEnv(env, "CORS_ORIGINS", "*") == "" ==> r == ["*"]
    ensures GetEnv(env, "CORS_ORIGINS", "*") != "" ==>
              |r| == Count(GetEnv(env, "CORS_ORIGINS", "*"), ',') + 1
    ensures forall i :: 0 <= i < |r| ==> ',' !in r[i] && r[i] == Strip(r[i])
  {
    var raw := GetEnv(env, "CORS_ORIGINS", "*");
    if raw != "" then StripAllClean(Split(raw, ',')); StripAll(Split(raw, ',')) else
      assert "*" == Strip("*") by { StripUnchanged("*"); }
      ["*"]
  }

  /** `[x.strip() for x in pieces]`. */
  function StripAll(pieces: seq<string>): (r: seq<string>)
    ensures |r| == |pieces|
    ensures forall i :: 0 <= i < |r| ==> r[i] == Strip(pieces[i])
  {
    if pieces == [] then [] else [Strip(pieces[0])] + StripAll(pieces[1..])
  }

  /** Stripping comma-free pieces gives comma-free pieces that a second `strip()` leaves alone. */
  lemma StripAllClean(pieces: seq<string>)
    requires forall i :: 0 <= i < |pieces| ==> ',' !in pieces[i]
    ensures forall i :: 0 <= i < |pieces| ==> ',' !in StripAll(pieces)[i] && StripAll(pieces)[i] == Strip(StripAll(pieces)[i])
  {
    var r := StripAll(pieces);
    forall i | 0 <= i < |pieces| ensures ',' !in r[i] && r[i] == Strip(r[i]) {
      StripUnchanged(r[i]);
      StripInside(pieces[i]);
    }
  }

  /** Every character of `strip(s)` comes from `s`. */
  lemma StripInside(s: string)
    ensures forall c :: c in Strip(s) ==> c in s
  {
    var t := s[LeadingSpaces(s)..];
    var r := t[..|t| - TrailingSpaces(t)];
    forall c | c in r ensures c in s {
      var k :| 0 <= k < |r| && r[k] == c;
      assert s[LeadingSpaces(s) + k] == c;
    }
  }

  /** A list of origins without commas or surrounding spaces is read back exactly from its
      comma-joined form. */
  lemma CorsOriginsRoundTrip(env: Env, origins: seq<string>)
    requires |origins| >= 1 && Join(origins, ",") != ""
    requires forall i :: 0 <= i < |origins| ==> ',' !in origins[i] && Strip(origins[i]) == origins[i]
    ensures CorsOrigins(env["CORS_ORIGINS" := Join(origins, ",")]) == origins
  {
    SplitCommaJoin(origins);
    CorsOriginsOfRaw(env["CORS_ORIGINS" := Join(origins, ",")], Join(origins, ","));
    StripAllUnchanged(origins);
  }

  /** Comma-free pieces joined with commas split back into themselves. */
  lemma SplitCommaJoin(origins: seq<string>)
    requires |origins| >= 1 && forall i :: 0 <= i < |origins| ==> ',' !in origins[i]
    ensures Split(Join(origins, ","), ',') == origins
  {
    assert "," == [','];
    SplitJoin(origins, ',');
  }

  /** A non-empty CORS_ORIGINS is split on commas and each piece stripped. */
  lemma CorsOriginsOfRaw(env: Env, raw: string)
    requires "CORS_ORIGINS" in env && env["CORS_ORIGINS"] == raw && raw != ""
    ensures CorsOrigins(env) == StripAll(Split(raw, ','))
  {
  }

  /** Stripping pieces that are already stripped changes nothing. */
  lemma {:induction false} StripAllUnchanged(pieces: seq<string>)
    requires forall i :: 0 <= i < |pieces| ==> Strip(pieces[i]) == pieces[i]
    ensures StripAll(pieces) == pieces
  {
    if pieces != [] {
      assert forall i :: 0 <= i < |pieces| - 1 ==> pieces[1..][i] == pieces[i + 1];
      StripAllUnchanged(pieces[1..]);
    }
  }

  /** The error `Settings.load` raises. */
  datatype LoadError = InvalidPort(raw: string)

  /** `int(os.getenv("PORT", 8000))`: the integer default when unset; a non-numeric value raises. */
  function Port(env: Env): (r: Result<int, LoadError>)
    ensures "PORT" !in env ==> r == Success(8000)
    ensures "PORT" in env ==> (r.Success? <==> ParseInt(env["PORT"]).Some?)
    ensures "PORT" in env && r.Success? ==> Some(r.value) == ParseInt(env["PORT"])
  {
    if "PORT" !in env then Success(8000)
    else match ParseInt(env["PORT"])
      case Some(n) => Success(n)
      case None => Failure(InvalidPort(env["PORT"]))
  }

  /** `Settings.load()`. */
  function Load(env: Env): (r: Result<Settings, LoadError>)
    ensures r.Success? <==> Port(env).Success?
    ensures r.Success? ==> r.value.port == Port(env).value && r.value.corsOrigins == CorsOrigins(env)
    ensures r.Success? ==> (r.value.dbEnabled == AsBool(env, "DB_ENABLED", false)
                            && r.value.cacheEnabled == AsBool(env, "CACHE_ENABLED", false)
                            && r.value.metricsEnabled == AsBool(env, "METRICS_ENABLED", true))
    ensures r.Success? ==> (r.value.dbUrl == GetEnvOpt(env, "DATABASE_URL", None)
                            && r.value.cacheUrl == GetEnvOpt(env, "CACHE_URL", None))
    ensures r.Success? ==> (r.value.title == GetEnv(env, "TITLE", "FastAPI Template")
                            && r.value.version == GetEnv(env, "VERSION", "0.1.0")
                            && r.value.host == GetEnv(env, "HOST", "127.0.0.1")
                            && r.value.logLevel == GetEnv(env, "LOG_LEVEL", "DEBUG"))
    ensures r.Success? ==> (r.value.metricsEndpoint == GetEnv(env, "METRICS_ENDPOINT", "/metrics")
                            && r.value.dbEcho == AsBool(env, "DB_ECHO", false))
    ensures r.Success? ==> (r.value.tracingEnabled == AsBool(env, "TRACING_ENABLED", false)
                            && r.value.tracingServiceName == GetEnv(env, "TRACING_SERVICE_NAME", "fastapi-template")
                            && r.value.tracingEndpoint == GetEnvOpt(env, "TRACING_ENDPOINT", None))
  {
    var d := Defaults();
    match Port(env)
    case Failure(e) => Failure(e)
    case Success(port) =>
      Success(Settings(
        GetEnv(env, "TITLE", d.title),
        GetEnv(env, "VERSION", d.version),
        GetEnv(env, "HOST", d.host),
        port,
        CorsOrigins(env),
        GetEnv(env, "LOG_LEVEL", d.logLevel),
        AsBool(env, "METRICS_ENABLED", d.metricsEnabled),
        GetEnv(env, "METRICS_ENDPOINT", d.metricsEndpoint),
        AsBool(env, "DB_ENABLED", d.dbEnabled),
        GetEnvOpt(env, "DATABASE_URL", d.dbUrl),
        AsBool(env, "DB_ECHO", d.dbEcho),
        AsBool(env, "CACHE_ENABLED", d.cacheEnabled),
        GetEnvOpt(env, "CACHE_URL", d.cacheUrl),
        AsBool(env, "TRACING_ENABLED", d.tracingEnabled),
        GetEnv(env, "TRACING_SERVICE_NAME", d.tracingServiceName),
        GetEnvOpt(env, "TRACING_ENDPOINT", d.tracingEndpoint)))
  }

  /** The variables `Settings.load` reads. */
  const Variables: set<string> := {"TITLE", "VERSION", "HOST", "PORT", "CORS_ORIGINS", "LOG_LEVEL",
    "METRICS_ENABLED", "METRICS_ENDPOINT", "DB_ENABLED", "DATABASE_URL", "DB_ECHO", "CACHE_ENABLED",
    "CACHE_URL", "TRACING_ENABLED", "TRACING_SERVICE_NAME", "TRACING_ENDPOINT"}

  /** With none of its variables set, `load` gives exactly the class defaults. */
  lemma LoadUnsetIsDefaults(env: Env)
    requires env.Keys !! Variables
    ensures Load(env) == Success(Defaults())
  {
    SplitWithoutSeparator("*", ',');
    StripUnchanged("*");
    assert CorsOrigins(env) == ["*"];
  }

  /** `load` reads nothing but its own variables. */
  lemma LoadOnlyReadsItsVariables(env: Env, name: string, value: string)
    requires name !in Variables
    ensures Load(env[name := value]) == Load(env)
  {
    var env' := env[name := value];
    assert forall v :: v in Variables ==> (v in env' <==> v in env) && (v in env ==> env'[v] == env[v]);
  }

  /** A port written as decimal text is read back. */
  lemma LoadReadsPort(env: Env, port: int)
    ensures Load(env["PORT" := IntToString(port)]).Success?
    ensures Load(env["PORT" := IntToString(port)]).value.port == port
  {
    ParseIntRoundTrip(port);
  }
}
