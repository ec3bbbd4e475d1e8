/** `app.state`, the attribute bag that app/services/db.py and app/services/cache.py write
    and app/api/health.py reads. An attribute never assigned is `None` here, which is what
    `getattr(app.state, name, None)` gives. */
module State {
  import opened Wrappers
  import opened Config

  /** What `create_engine(url, echo=...)` was given. */
  datatype Engine = Engine(url: string, echo: bool)

  /** What `sessionmaker(bind=engine)` returns. */
  datatype SessionFactory = SessionFactory(engine: Engine)

  /** What `redis.from_url(url)` returns. */
  datatype RedisClient = RedisClient(url: string)

  class AppState {
    var settings: Option<Settings>
    var dbReady: Option<bool>
    var dbEngine: Option<Engine>
    var dbSessionFactory: Option<SessionFactory>
    var cacheReady: Option<bool>
    var redis: Option<RedisClient>

    /** The state before startup: only the settings may have been attached. */
    constructor (settings: Option<Settings>)
      ensures this.settings == settings
      ensures dbReady == None && dbEngine == None && dbSessionFactory == None
      ensures cacheReady == None && redis == None
    {
      this.settings := settings;
      dbReady, dbEngine, dbSessionFactory := None, None, None;
      cacheReady, redis := None, None;
    }
  }
}
