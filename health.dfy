/** app/api/health.py: the liveness and readiness probes. */
module Health {
  import opened Wrappers
  import opened Config
  import opened State
  import opened Db
  import opened Cache

  datatype HealthzResponse = HealthzResponse(status: string, ts: real, python: string)

  /** `healthz()`: always "ok"; the clock reading and interpreter version are passed in. */
  function Healthz(ts: real, python: string): (r: HealthzResponse)
    ensures r.status == "ok" && r.ts == ts && r.python == python
  {
    HealthzResponse("ok", ts, python)
  }

  datatype ReadyzResponse = ReadyzResponse(ready: bool, ts: real, dbReady: bool, cacheReady: bool)

  /** `getattr(state, flag, False)`. */
  function Flag(f: Option<bool>): (r: bool)
    ensures r <==> f == Some(true)
  {
    f.GetOr(false)
  }

  /** Whether settings enable the database or the cache. */
  predicate AnyEnabled(settings: Option<Settings>) {
    settings.Some? && (settings.value.dbEnabled || settings.value.cacheEnabled)
  }

  /** The readiness combination as written: with anything enabled, both flags must hold,
      even when only one of the two dependencies is enabled. */
  function ReadyAsWritten(settings: Option<Settings>, dbReady: bool, cacheReady: bool): (r: bool)
    ensures !AnyEnabled(settings) ==> r
    ensures AnyEnabled(settings) ==> (r <==> dbReady && cacheReady)
  {
    if AnyEnabled(settings) then dbReady && cacheReady else true
  }

  /** `readyz()`: reads the two flags (missing reads as false) and echoes them. */
  function Readyz(st: AppState, ts: real): (r: ReadyzResponse)
    reads st
    ensures r.dbReady == Flag(st.dbReady) && r.cacheReady == Flag(st.cacheReady) && r.ts == ts
    ensures r.ready == ReadyAsWritten(st.settings, Flag(st.dbReady), Flag(st.cacheReady))
  {
    var dbReady := Flag(st.dbReady);
    var cacheReady := Flag(st.cacheReady);
    ReadyzResponse(ReadyAsWritten(st.settings, dbReady, cacheReady), ts, dbReady, cacheReady)
  }

  /** Readiness as the probe is meant to report it: every enabled dependency is ready. */
  function ReadyIntended(settings: Option<Settings>, dbReady: bool, cacheReady: bool): (r: bool)
    ensures r <==> ((settings.Some? && settings.value.dbEnabled ==> dbReady)
                    && (settings.Some? && settings.value.cacheEnabled ==> cacheReady))
  {
    settings.None? || ((!settings.value.dbEnabled || dbReady) && (!settings.value.cacheEnabled || cacheReady))
  }

  /** `readyz()` with the intended combination. */
  function ReadyzIntended(st: AppState, ts: real): (r: ReadyzResponse)
    reads st
    ensures r.dbReady == Flag(st.dbReady) && r.cacheReady == Flag(st.cacheReady)
    ensures r.ready <==> ((st.settings.Some? && st.settings.value.dbEnabled ==> Flag(st.dbReady))
                          && (st.settings.Some? && st.settings.value.cacheEnabled ==> Flag(st.cacheReady)))
  {
    var dbReady := Flag(st.dbReady);
    var cacheReady := Flag(st.cacheReady);
    ReadyzResponse(ReadyIntended(st.settings, dbReady, cacheReady), ts, dbReady, cacheReady)
  }

  /** The probe as written never reports ready when a dependency it should wait for is not
      ready, and agrees with the intended one when both or neither dependency is enabled. */
  lemma ReadyAsWrittenIsSound(settings: Option<Settings>, dbReady: bool, cacheReady: bool)
    ensures ReadyAsWritten(settings, dbReady, cacheReady) ==> ReadyIntended(settings, dbReady, cacheReady)
    ensures settings.Some? && settings.value.dbEnabled == settings.value.cacheEnabled ==>
              ReadyAsWritten(settings, dbReady, cacheReady) == ReadyIntended(settings, dbReady, cacheReady)
  {
  }

  /** With only the cache enabled, the disabled database's flag is false, and the probe as
      written reports not ready although the one enabled dependency is ready. */
  lemma OnlyCacheEnabledNeverReady(settings: Settings)
    requires settings.cacheEnabled && !settings.dbEnabled
    ensures !ReadyAsWritten(Some(settings), false, true)
    ensures ReadyIntended(Some(settings), false, true)
  {
  }

  /** A start-up with only the cache enabled and its ping answering: `init_db` finds the
      database disabled and clears its flag, `init_cache` sets its flag, and the probe as
      written then reports not ready while the intended one reports ready. */
  method OnlyCacheEnabledStartup(settings: Settings, dbProbe: DbProbe, ts: real) returns (asWritten: bool, intended: bool)
    requires settings.cacheEnabled && !settings.dbEnabled && settings.cacheUrl.GetOr("") != ""
    ensures !asWritten && intended
  {
    var app := new AppState(Some(settings));
    InitDb(app, true, dbProbe);
    InitCache(app, true, PingReplies(true));
    asWritten := Readyz(app, ts).ready;
    intended := ReadyzIntended(app, ts).ready;
  }
}
