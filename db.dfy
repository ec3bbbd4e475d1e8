/** app/services/db.py: `init_db`, `close_db` and `get_db_session` on `app.state`.
    The SQLAlchemy import, engine creation and connectivity check are external; their
    outcomes are inputs. */
module Db {
  import opened Wrappers
  import opened Config
  import opened State
  import opened LoggerConfig

  /** How the external steps inside the `try` block of `init_db` end. `Connected` stands for
      a connectivity check that succeeds; the check as written passes a plain string to
      `conn.execute`, which a `future=True` engine rejects, so with the code as it stands
      the step always ends as `ConnectRaises`. */
  datatype DbProbe = CreateEngineRaises | SessionmakerRaises | ConnectRaises | Connected

  /** The branch `init_db` leaves by. */
  datatype DbInit = Disabled | MissingUrl | NoDriver | InitFailed | Ready

  function DbBranch(settings: Option<Settings>, sqlalchemyImports: bool, probe: DbProbe): (b: DbInit)
    ensures b == Disabled <==> settings.None? || !settings.value.dbEnabled
    ensures b == MissingUrl <==> settings.Some? && settings.value.dbEnabled && settings.value.dbUrl.GetOr("") == ""
    ensures b == Ready <==> settings.Some? && settings.value.dbEnabled && settings.value.dbUrl.GetOr("") != ""
                            && sqlalchemyImports && probe == Connected
  {
    if settings.None? || !settings.value.dbEnabled then Disabled
    else if settings.value.dbUrl.GetOr("") == "" then MissingUrl
    else if !sqlalchemyImports then NoDriver
    else if probe == Connected then Ready
    else InitFailed
  }

  /** Whether `init_db` got as far as storing the engine and session factory: both
      constructors returned, whatever the connectivity check then did. */
  predicate StoresEngine(settings: Option<Settings>, sqlalchemyImports: bool, probe: DbProbe) {
    DbBranch(settings, sqlalchemyImports, probe) in {Ready, InitFailed} && probe in {ConnectRaises, Connected}
  }

  /** `init_db(app)`. */
  method InitDb(app: AppState, sqlalchemyImports: bool, probe: DbProbe)
    modifies app
    ensures app.settings == old(app.settings)
    ensures app.cacheReady == old(app.cacheReady) && app.redis == old(app.redis)
    ensures app.dbReady == Some(DbBranch(app.settings, sqlalchemyImports, probe) == Ready)
    ensures StoresEngine(app.settings, sqlalchemyImports, probe) ==>
              var engine := Engine(app.settings.value.dbUrl.value, app.settings.value.dbEcho);
              app.dbEngine == Some(engine) && app.dbSessionFactory == Some(SessionFactory(engine))
    ensures !StoresEngine(app.settings, sqlalchemyImports, probe) ==>
              app.dbEngine == old(app.dbEngine) && app.dbSessionFactory == old(app.dbSessionFactory)
  {
    var settings := app.settings;
    if settings.None? || !settings.value.dbEnabled {
      app.dbReady := Some(false);
      return;
    }
    if settings.value.dbUrl.GetOr("") == "" {
      app.dbReady := Some(false);
      return;
    }
    if !sqlalchemyImports {
      app.dbReady := Some(false);
      return;
    }
    if probe == CreateEngineRaises || probe == SessionmakerRaises {
      app.dbReady := Some(false);
      return;
    }
    var engine := Engine(settings.value.dbUrl.value, settings.value.dbEcho);
    app.dbEngine := Some(engine);
    app.dbSessionFactory := Some(SessionFactory(engine));
    if probe == ConnectRaises {
      app.dbReady := Some(false);
      return;
    }
    app.dbReady := Some(true);
  }

  /** A log line written by a DB or cache shutdown step. */
  datatype LogLine = LogLine(level: Level, message: string)

  /** `close_db(app)`: nothing happens without an engine; a failing `dispose()` is logged as a
      warning instead of raised. `disposeError` is the message of that failure, if any. */
  function CloseDb(app: AppState, disposeError: Option<string>): (r: Option<LogLine>)
    reads app
    ensures r.None? <==> app.dbEngine.None?
    ensures r.Some? ==> (r.value.level == Info <==> disposeError.None?)
    ensures r.Some? ==> r.value.level in {Info, Warning}
  {
    if app.dbEngine.None? then None
    else match disposeError
      case None => Some(LogLine(Info, Tagged("DB", "DB closed " + FormatPairs([("ok", Some("True"))]))))
      case Some(e) => Some(LogLine(Warning, Tagged("DB", "DB close " + FormatPairs([("ok", Some("False")), ("err", Some(e))]))))
  }

  /** A session opened from the stored factory. */
  datatype Session = Session(factory: SessionFactory)

  /** `get_db_session(app)`: raises `RuntimeError` when no session factory was stored. */
  function GetDbSession(app: AppState): (r: Result<Session, string>)
    reads app
    ensures r.Failure? <==> app.dbSessionFactory.None?
    ensures r.Failure? ==> r.error == "DB session factory not initialized"
    ensures r.Success? ==> r.value.factory == app.dbSessionFactory.value
  {
    match app.dbSessionFactory
    case None => Failure("DB session factory not initialized")
    case Some(f) => Success(Session(f))
  }
}
