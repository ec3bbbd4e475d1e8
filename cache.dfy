/** app/services/cache.py: `init_cache` and `close_cache` on `app.state`. The redis import,
    client creation and ping are external; their outcomes are inputs. */
module Cache {
  import opened Wrappers
  import opened Config
  import opened State
  import opened LoggerConfig
  import opened Db

  /** How the external steps inside the `try` block of `init_cache` end;
      `PingReplies(pong)` carries the truthiness of the ping result. */
  datatype CacheProbe = FromUrlRaises | PingRaises | PingReplies(pong: bool)

  /** The branch `init_cache` leaves by. */
  datatype CacheInit = CacheDisabled | MissingCacheUrl | NoRedisModule | PingFailed | Pinged

  function CacheBranch(settings: Option<Settings>, redisImports: bool, probe: CacheProbe): (b: CacheInit)
    ensures b == CacheDisabled <==> settings.None? || !settings.value.cacheEnabled
    ensures b == MissingCacheUrl <==> settings.Some? && settings.value.cacheEnabled && settings.value.cacheUrl.GetOr("") == ""
    ensures b == Pinged <==> settings.Some? && settings.value.cacheEnabled && settings.value.cacheUrl.GetOr("") != ""
                             && redisImports && probe.PingReplies?
  {
    if settings.None? || !settings.value.cacheEnabled then CacheDisabled
    else if settings.value.cacheUrl.GetOr("") == "" then MissingCacheUrl
    else if !redisImports then NoRedisModule
    else if probe.PingReplies? then Pinged
    else PingFailed
  }

  /** `init_cache(app)`: the client is stored only after a ping that returned, so a raising
      ping leaves `redis` as it was. */
  method InitCache(app: AppState, redisImports: bool, probe: CacheProbe)
    modifies app
    ensures app.settings == old(app.settings)
    ensures app.dbReady == old(app.dbReady) && app.dbEngine == old(app.dbEngine)
    ensures app.dbSessionFactory == old(app.dbSessionFactory)
    ensures app.cacheReady == Some(CacheBranch(app.settings, redisImports, probe) == Pinged && probe.pong)
    ensures CacheBranch(app.settings, redisImports, probe) == Pinged ==>
              app.redis == Some(RedisClient(app.settings.value.cacheUrl.value))
    ensures CacheBranch(app.settings, redisImports, probe) != Pinged ==> app.redis == old(app.redis)
  {
    var settings := app.settings;
    if settings.None? || !settings.value.cacheEnabled {
      app.cacheReady := Some(false);
      return;
    }
    if settings.value.cacheUrl.GetOr("") == "" {
      app.cacheReady := Some(false);
      return;
    }
    if !redisImports {
      app.cacheReady := Some(false);
      return;
    }
    if !probe.PingReplies? {
      app.cacheReady := Some(false);
      return;
    }
    app.redis := Some(RedisClient(settings.value.cacheUrl.value));
    app.cacheReady := Some(probe.pong);
  }

  /** `close_cache(app)`: nothing happens without a client; a failing `close()` is logged as a
      warning instead of raised. */
  function CloseCache(app: AppState, closeError: Option<string>): (r: Option<LogLine>)
    reads app
    ensures r.None? <==> app.redis.None?
    ensures r.Some? ==> (r.value.level == Info <==> closeError.None?)
    ensures r.Some? ==> r.value.level in {Info, Warning}
  {
    if app.redis.None? then None
    else match closeError
      case None => Some(LogLine(Info, Tagged("CACHE", "Cache closed " + FormatPairs([("ok", Some("True"))]))))
      case Some(e) => Some(LogLine(Warning, Tagged("CACHE", "Cache close " + FormatPairs([("ok", Some("False")), ("err", Some(e))]))))
  }
}
