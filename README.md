# TemplateWeb-FastAPI core, modelled in Dafny

This project models the core of a FastAPI service template and proves properties of that model. The core covers:

- settings read from the environment, and the `ErrorCode` enum with its status mapping;
- the `SuccessResponse` / `ErrorResponse` envelopes and `PageQuery` pagination;
- the colour logger with its component adapter and the `kv` formatter;
- the middleware stack: request id, structured HTTP logging, exception handlers and CORS options;
- database and cache start-up and shutdown over `app.state`, and the liveness and readiness probes;
- the demo bearer-token authentication;
- the in-memory item store and the paged demo listing;
- the log-query endpoint's filter building and the admin page's pagination widget.

How the model is split into files and types:

- Pure code becomes datatypes, functions and lemmas.
- The mutable module-level list of items becomes a class, `Items.ItemStore`, whose methods update its `items` field in loops. The same goes for the logger registry and logger objects, the log-call `kwargs` dictionary the adapter rewrites, and `app.state`.
- Loops in the source become methods with loop invariants: `kv`, `renderPagination`, and the item search, update and delete loops.

One module per source file:

| module | file |
|---|---|
| `Config` | `app/config/settings.py` |
| `Errors` | `app/models/errors.py` |
| `Response` | `app/models/response.py` |
| `Pagination` | `app/models/pagination.py` |
| `LoggerConfig` | `app/utils/logger_config.py` |
| `Middlewares` | `app/middlewares/__init__.py` |
| `State` | `app.state` |
| `Db` | `app/services/db.py` |
| `Cache` | `app/services/cache.py` |
| `Health` | `app/api/health.py` |
| `AuthService` | `app/services/auth.py` |
| `AuthApi` | `app/api/auth.py` |
| `Items` | `app/api/example/get_example.py` |
| `Logs` | `app/api/logs.py` (the query endpoint and `renderPagination`) |

Supporting modules, shared by the modules above:

- `Strings` holds Python's `str.split`, `str.join`, `str.strip`, ASCII case mapping, `str(int)` and `int(str)`.
- `Http` holds JSON values, `HTTPException` and `JSONResponse`.
- `Wrappers` holds `Option` and `Result`.

Environment and outside effects:

- Everything the code reads from the outside world is an explicit parameter:
  - the environment is a `map<string, string>`;
  - whether stdout is a TTY;
  - the generated UUID, the clock and the measured latency;
  - whether `sqlalchemy` or `redis` import;
  - what the database or Redis probe answers;
  - the log query's result.
- Middleware ordering follows Starlette:
  - `add_middleware` pushes onto the front of the list, so the middleware registered last is outermost;
  - `request.state` is shared by all layers;
  - the `HTTPException` and validation handlers run inside the user middleware.

Where the code and its documentation disagree, the model follows the code:

- `readyz` requires both flags whenever either dependency is enabled.
- The catch-all handler for unhandled exceptions puts `str(exc)` into the 500 body's `detail`, although the design says 500-class bodies never carry the exception's text (`Middlewares.UnhandledRevealsExceptionText`).
- The log-query page counts pages with `(total + page_size - 1) // page_size`.
- The CORS middleware reads `CORS_ORIGINS` itself, independently of `Settings`. An empty value gives the list `[""]` there but `["*"]` in `Settings` (`Middlewares.CorsOriginsAgreeUnlessEmpty`).

## Model

| member | source | states |
|---|---|---|
| Errors.Value | app/models/errors.py:5-11 | every error code's wire value starts with `E_` |
| Errors.FromValue | app/models/errors.py:5-11 | looking a value up gives a code whose value is that string |
| Errors.ValueRoundTrip | app/models/errors.py:5-11 | the enum's value lookup inverts the value of every member |
| Errors.ValueInjective | app/models/errors.py:5-11 | distinct members have distinct values |
| Errors.FromStatus | app/models/errors.py:14-25 | 401, 403 and 404 map to their codes, 500..599 to the server error, and every other status to `E_BAD_REQUEST`, each as an if-and-only-if; never `E_VALIDATION` |
| Errors.FromStatusFollowsStatusClass | app/models/errors.py:14-25 | a status is 5xx exactly when its code is the server error; a 4xx status always maps to a client-side code |
| Response.Success | app/models/response.py:15-19 | a success envelope carries code `OK`, message `success` and exactly the given data and meta |
| Response.DefaultSuccess | app/models/response.py:15-19 | the default envelope has no data and no meta |
| Response.Error | app/models/response.py:22-25 | an error envelope keeps its code and message, and its detail defaults to null |
| Response.Dump | app/models/response.py:22-25 | `model_dump` of an error envelope has exactly the keys code, message and detail, holding the fields |
| Pagination.MakePageQuery | app/models/pagination.py:8-12 | validation succeeds exactly when page >= 1, 1 <= page_size <= 100 and the order is asc or desc; the defaults are 1, 20 and asc; on success the order is desc exactly when `desc` was given; a failure names at least one violation |
| Pagination.DefaultQuery | app/models/pagination.py:9-12 | a query with no parameters is page 1, size 20, unsorted, ascending |
| Pagination.Offset | app/models/pagination.py:14-16 | the first page starts at offset 0 |
| Pagination.Limit | app/models/pagination.py:18-20 | the limit lies in 1..100 |
| Pagination.ToMeta | app/models/pagination.py:22-24 | the meta carries total, page and page_size, and has_next holds exactly when page * page_size < total |
| Pagination.PagesTile | app/models/pagination.py:14-20 | a page ends where the next page starts |
| Pagination.HasNextIffNextPageNonEmpty | app/models/pagination.py:14-24 | has_next holds exactly when the next page's offset is below the total |
| Strings.Strip | app/config/settings.py:38 | `strip()` leaves neither leading nor trailing whitespace and never lengthens the string |
| Strings.StripEmptyIff | app/config/settings.py:38 | `strip()` gives the empty string exactly for all-whitespace input |
| Strings.StripRemovesSurroundingSpace | app/config/settings.py:38 | `strip()` is the string with its leading and trailing whitespace removed: what remains is the block that starts after the leading whitespace and is followed only by whitespace |
| Strings.StripUnchanged | app/config/settings.py:38 | a string with no whitespace at either end is its own `strip()` |
| Strings.Lower | app/config/settings.py:44 | `lower()` maps each ASCII capital to its small letter and keeps every other character |
| Strings.Upper | app/utils/logger_config.py:16 | `upper()` maps each ASCII small letter to its capital and keeps every other character |
| Strings.Split | app/config/settings.py:37-38 | `split(sep)` gives one more piece than separators, and no piece contains the separator |
| Strings.Join | app/api/logs.py:57 | `sep.join(parts)`; it has no contract of its own, and its meaning is pinned by Strings.SplitJoin and Strings.JoinSplit (a join splits back into its separator-free pieces and a split joins back into the string), with LoggerConfig.KvEmptyIff and Logs.WhereClauseEmptyIff for the empty cases |
| Strings.SplitJoin | app/config/settings.py:37-38 | splitting a comma-joined list of comma-free pieces gives the pieces back |
| Strings.JoinSplit | app/utils/logger_config.py:126 | joining the pieces of a split with the separator gives the string back |
| Strings.IntToString | app/utils/logger_config.py:125 | `str(n)`: a non-empty string that ends in a digit and starts with `-` exactly for a negative number; Strings.ParseIntRoundTrip shows `int()` reads it back as `n` |
| Strings.ParseInt | app/config/settings.py:57 | `int(s)`; it has no contract of its own, and its meaning is pinned by Strings.ParseDigitRun (a digit run with single underscores parses to its value), Strings.ParseSignedRun (a leading minus negates it) and Strings.ParseIntRoundTrip (`int(str(n)) == n`) |
| Strings.ParseIntRoundTrip | app/config/settings.py:57 | `int(str(n)) == n` for every integer |
| Strings.ParseDigitRun | app/config/settings.py:57 | `int()` of a run of digits, with single underscores between digits, is the number the digits denote |
| Strings.ParseSignedRun | app/config/settings.py:57 | `int()` of a minus sign followed by such a run is the negated number |
| Config.Defaults | app/config/settings.py:7-33 | the class defaults: title `FastAPI Template`, version `0.1.0`, port 8000, log level `DEBUG`, origins `["*"]`, metrics on at `/metrics`, database, cache and tracing off and their URLs unset, tracing service name `fastapi-template` |
| Config.GetEnv | app/config/settings.py:53-70 | `os.getenv` returns the variable when set and the default otherwise |
| Config.GetEnvOpt | app/config/settings.py:62-70 | the same for a default of None |
| Config.AsBool | app/config/settings.py:40-44 | an unset variable gives the default; a set one is true exactly when its lower-cased value is 1, true, yes or on |
| Config.AsBoolRoundTrip | app/config/settings.py:40-44 | a boolean written as true/false reads back as itself |
| Config.AsBoolIgnoresCase | app/config/settings.py:44 | any letter case of `yes` is true |
| Config.AsBoolEmptyIsFalse | app/config/settings.py:44 | a variable set to the empty string is false, whatever the default |
| Config.CorsOrigins | app/config/settings.py:37-38 | an empty value gives `["*"]`; otherwise one origin per comma-separated piece, each stripped and comma-free |
| Config.StripAll | app/config/settings.py:38 | the list comprehension strips every piece and keeps the count |
| Config.StripAllClean | app/config/settings.py:37-38 | stripping comma-free pieces leaves them comma-free and already stripped |
| Config.CorsOriginsRoundTrip | app/config/settings.py:37-38 | a comma-joined list of stripped, comma-free origins is read back exactly |
| Config.Port | app/config/settings.py:57 | unset gives 8000; a set value succeeds exactly when `int()` accepts it, and then gives that number |
| Config.Load | app/config/settings.py:35-71 | `load` fails exactly when PORT is not an integer; otherwise every field is its variable's value, or the field's default when the variable is unset: title, version, host, port, log level, origins, the metrics flag and endpoint, the database, cache and tracing flags, their URLs, the database echo flag and the tracing service name and endpoint |
| Config.LoadUnsetIsDefaults | app/config/settings.py:53-70 | with none of its variables set, `load()` equals `Settings()` |
| Config.LoadOnlyReadsItsVariables | app/config/settings.py:53-70 | setting any other variable does not change the result |
| Config.LoadReadsPort | app/config/settings.py:57 | a port written in decimal is loaded back unchanged |
| LoggerConfig.LevelNumber | app/utils/logger_config.py:17 | the standard levels are the multiples of 10 from 10 to 50 |
| LoggerConfig.LevelByName | app/utils/logger_config.py:17 | `getattr(logging, name, DEBUG)`: a level name gives its number, the aliases WARN, FATAL and NOTSET give 30, 50 and 0, the non-level attributes `BASIC_FORMAT` and `_STYLES` give a value that is not a level, and every other name gives DEBUG |
| LoggerConfig.LoggerLevel | app/utils/logger_config.py:16-17 | with LOG_LEVEL unset the level is DEBUG |
| LoggerConfig.LoggerLevelIgnoresCase | app/utils/logger_config.py:16-17 | LOG_LEVEL is read case-insensitively |
| LoggerConfig.LevelColor | app/utils/logger_config.py:24-38 | exactly the five level names have a colour, each an ANSI SGR sequence `ESC [ n n m` |
| LoggerConfig.NewColoredFormatter | app/utils/logger_config.py:48-51 | colour is on exactly when requested and stdout is a TTY |
| LoggerConfig.Format | app/utils/logger_config.py:53-58 | without colour the record text is unchanged; with colour it is wrapped in the level colour (reset for unknown levels) and a reset |
| LoggerConfig.FormatUncolors | app/utils/logger_config.py:53-58 | removing the colour prefix and the reset suffix gives the plain record |
| LoggerConfig.Registry.GetLogger | app/utils/logger_config.py:68 | `getLogger` returns the registered object for a known name, and otherwise registers a fresh logger with no handlers |
| LoggerConfig.FirstHandlers | app/utils/logger_config.py:74-88 | a new logger gets exactly two handlers: a console handler at the configured level, coloured exactly when stdout is a terminal, then a rotating file handler on the log file at INFO with 1 MiB per file and 3 backups |
| LoggerConfig.Configure | app/utils/logger_config.py:70-94 | a logger that already has handlers is left alone. Otherwise `setLevel` raises for a value that is not a level, before anything changes; for a level the logger gets the two handlers, the level, and propagate off |
| LoggerConfig.SetupLogger | app/utils/logger_config.py:61-95 | `setup_logger` returns the registered logger and configures it only when it has no handlers; it raises exactly when that logger is unconfigured and the level is not a level. Every other logger of the registry keeps its object, handlers, level and propagate flag, and the registry stays keyed by logger name |
| LoggerConfig.SetupTwice | app/utils/logger_config.py:66-72 | calling it twice for a new name leaves exactly two handlers (none when the level is not a level): no duplication |
| LoggerConfig.WithComponent | app/utils/logger_config.py:106-108 | `setdefault` adds the component key and keeps every existing entry, an existing component entry included |
| LoggerConfig.Tagged | app/utils/logger_config.py:110 | the message is `[component] ` followed by the original message |
| LoggerConfig.ComponentLoggerAdapter.Process | app/utils/logger_config.py:105-110 | the message gets the component tag. A missing or empty `extra` is replaced by a fresh dict, so a caller's empty dict stays empty; a non-empty one is updated in place, and either way it holds the component |
| LoggerConfig.GetComponentLogger | app/utils/logger_config.py:113-116 | the adapter wraps the registry's `app` logger, which has handlers, under the given component; there is no adapter exactly when setting up `app` raises; every other logger is unchanged |
| LoggerConfig.PieceOf | app/utils/logger_config.py:122-125 | a pair contributes nothing when its value is None and `k=v` otherwise |
| LoggerConfig.Pieces | app/utils/logger_config.py:121-125 | every collected part contains `=` |
| LoggerConfig.Kv | app/utils/logger_config.py:119-126 | the loop produces the parts of the non-None pairs joined by single spaces |
| LoggerConfig.PiecesAppend | app/utils/logger_config.py:121-125 | the parts of concatenated argument lists are the concatenated parts |
| LoggerConfig.KvSkipsNone | app/utils/logger_config.py:123-124 | removing a None-valued pair does not change the output |
| LoggerConfig.PiecesEmptyIff | app/utils/logger_config.py:121-125 | no parts exactly when every value is None |
| LoggerConfig.KvEmptyIff | app/utils/logger_config.py:126 | the output is empty exactly when every value is None |
| LoggerConfig.PiecesWithoutSpaces | app/utils/logger_config.py:125 | space-free keys and values give space-free parts |
| LoggerConfig.KvSplitsBack | app/utils/logger_config.py:119-126 | with space-free keys and values, splitting the output on spaces recovers the `k=v` parts |
| Middlewares.HeaderGet | app/middlewares/__init__.py:121 | the header lookup is case-insensitive and returns the first matching value; None exactly when no header matches |
| Middlewares.SanitizeHeaders | app/middlewares/__init__.py:166 | no logged header is authorization, cookie or x-api-key in any letter case |
| Middlewares.SanitizeHeadersKeeps | app/middlewares/__init__.py:166 | a header is kept exactly when it is not sensitive, every kept key comes from the request, and the last value for a key wins |
| Middlewares.Rid | app/middlewares/__init__.py:169 | the logged rid is the request id when non-empty and `-` otherwise |
| Middlewares.ResolveRequestId | app/middlewares/__init__.py:121 | a non-empty inbound X-Request-ID is kept, otherwise the fresh UUID is used |
| Middlewares.ClientIp | app/middlewares/__init__.py:168 | the client host, or `unknown` without a client |
| Middlewares.LevelForStatus | app/middlewares/__init__.py:195-199 | 5xx logs at ERROR, 4xx at WARNING, everything else at INFO, each an if-and-only-if |
| Middlewares.LevelAgreesWithErrorCode | app/middlewares/__init__.py:195-199 | an ERROR record goes with exactly the statuses whose code is the server error |
| Middlewares.Dashes | app/middlewares/__init__.py:172 | the separator line is n dashes |
| Middlewares.StartRecords | app/middlewares/__init__.py:172-187 | a request first logs the separator and then the START line. The START line carries rid, method, path, ip and ua and is tagged HTTP; the separator's text is 120 dashes tagged HTTP. Its extra holds the request id, method, path, sanitized headers and client |
| Middlewares.ResponseSize | app/middlewares/__init__.py:193 | the size is the content-length header when present and non-empty, `-` otherwise |
| Middlewares.DoneRecord | app/middlewares/__init__.py:190-226 | the DONE record is logged at the level of its status; its extra holds the request id, method, path, status, latency, user agent, client and size |
| Middlewares.ErrorRecord | app/middlewares/__init__.py:227-251 | a raised exception logs an ERROR record with its text; its extra holds the request id, method, path, error text and client |
| Middlewares.Stack | app/middlewares/__init__.py:41-48 | the running order is the registration order reversed |
| Middlewares.RequestIdMiddleware | app/middlewares/__init__.py:114-129 | the resolved id is written into the shared `request.state` and returned; the response object, changed in place, gets the X-Request-ID header with its status unchanged |
| Middlewares.EchoRequestId | app/middlewares/__init__.py:125-127 | the id header is added to a reply without changing its status; a raised exception passes through |
| Middlewares.Run | app/middlewares/__init__.py:41-48 | a request's run through the stack, outermost layer first; it has no contract of its own, and its behaviour is stated by Middlewares.RunWithoutLogging, Middlewares.PassThroughStep, Middlewares.RequestIdStep and Middlewares.LoggingAround layer by layer, and by Middlewares.AsWrittenLogsLackRequestId and Middlewares.CorrectedLogsCarryRequestId for the registered stack |
| Middlewares.RunWithoutLogging | app/middlewares/__init__.py:41-48 | layers other than logging and request id pass the inner outcome through and log nothing |
| Middlewares.ClosingRecord | app/middlewares/__init__.py:190-251 | a reply closes the request with its DONE record, a raised exception with its ERROR record |
| Middlewares.EntryState | app/middlewares/__init__.py:121-123 | the request-id layer hands the resolved id to the layers inside it; every other layer hands on the state it was given |
| Middlewares.Exit | app/middlewares/__init__.py:114-251 | on the way out the request-id layer only echoes its id into the reply, the logging layer keeps the outcome and the state, and the other layers change nothing |
| Middlewares.PassThroughStep | app/middlewares/__init__.py:41-48 | a pass-through layer added to a stack changes nothing about a run |
| Middlewares.RequestIdStep | app/middlewares/__init__.py:114-129 | the request-id layer runs the rest of the stack with the resolved id in the state and echoes that id on the reply |
| Middlewares.LoggingAround | app/middlewares/__init__.py:158-251 | around layers that log nothing, the logging layer writes the separator and START records, then one DONE or ERROR record for the inner outcome; the outcome and the state pass through unchanged |
| Middlewares.LoggingRecords | app/middlewares/__init__.py:165-251 | those are exactly three records, the second the START line, each carrying the request id the logging layer read on entry |
| Middlewares.AsWrittenLogsLackRequestId | app/middlewares/__init__.py:41-48 | with the registration order as written, every HTTP record has request_id None, yet the reply still carries the id |
| Middlewares.CorrectedLogsCarryRequestId | app/middlewares/__init__.py:41-48 | with the request-id layer registered last (outermost), every HTTP record carries the resolved id |
| Middlewares.RequestIdEchoed | app/middlewares/__init__.py:114-129 | a reply comes back with the resolved request id in X-Request-ID and its status unchanged |
| Middlewares.Payload | app/middlewares/__init__.py:262-267 | an error payload has exactly the keys code, message, detail and request_id |
| Middlewares.ValidationHandler | app/middlewares/__init__.py:258-268 | validation errors answer 422 `E_VALIDATION` "Validation error" with the error list as detail |
| Middlewares.DetailMessage | app/middlewares/__init__.py:274-277 | the message is a string detail itself, a dict detail's `message` entry (null when absent), and "HTTP error" for any other detail |
| Middlewares.PayloadDetail | app/middlewares/__init__.py:282 | a string detail is not repeated in the detail field; any other detail is |
| Middlewares.HttpExceptionHandler | app/middlewares/__init__.py:270-284 | it fails exactly when the message is not a string; otherwise it answers with the exception's status and code, and without the exception's headers |
| Middlewares.UnhandledHandler | app/middlewares/__init__.py:286-296 | an unhandled exception answers 500 `E_SERVER_ERROR` "Internal server error" with the exception text as detail |
| Middlewares.UnhandledRevealsExceptionText | app/middlewares/__init__.py:290-296 | the 500 body's detail is the exception's text, so exceptions with different texts give different bodies |
| Middlewares.UnhandledHandlerCorrected | app/middlewares/__init__.py:290-296 | with `detail=None` the handler answers the same 500 `E_SERVER_ERROR` envelope with a null detail |
| Middlewares.UnhandledCorrectedHidesExceptionText | app/middlewares/__init__.py:290-296 | the corrected reply is the same whatever the exception's text, and differs from the reply as written only in the detail |
| Middlewares.AnswerHttpException | app/middlewares/__init__.py:270-296 | the client sees the handler's reply, or the 500 reply when the handler itself raises |
| Middlewares.MessagelessDetailBecomesServerError | app/middlewares/__init__.py:274-282 | a 400 whose dict detail has no message reaches the client as a 500 server error |
| Middlewares.HandlerDropsHeaders | app/middlewares/__init__.py:282-284 | a 401 raised with `WWW-Authenticate` is answered without it |
| Middlewares.HttpExceptionHandlerCorrected | app/middlewares/__init__.py:270-284 | the corrected handler always answers with the exception's own status and headers, falling back to "HTTP error" for a missing message |
| Middlewares.CorrectedHandlerRefines | app/middlewares/__init__.py:270-284 | wherever the handler as written succeeds, the corrected one gives the same body |
| Middlewares.MiddlewareCorsOrigins | app/middlewares/__init__.py:56-58 | the CORS middleware gets one stripped origin per comma-separated piece |
| Middlewares.CorsOriginsAgreeUnlessEmpty | app/middlewares/__init__.py:56-58 | it agrees with `Settings` except for an empty value, where it gives `[""]` and `Settings` gives `["*"]` |
| Middlewares.CorsMaxAge | app/middlewares/__init__.py:72 | the preflight max age defaults to 600 and is otherwise `int()` of the variable |
| Db.DbBranch | app/services/db.py:21-50 | disabled exactly when there are no settings or the database is off; missing URL exactly when it is on without a URL; ready exactly when it is on with a URL and the engine connects |
| Db.InitDb | app/services/db.py:21-50 | `db_ready` records whether the connection succeeded. The engine and session factory are stored exactly when they were created, and the cache fields and settings stay unchanged |
| Db.CloseDb | app/services/db.py:53-60 | nothing happens without an engine; otherwise an INFO close line, or a WARNING when dispose raises |
| Db.GetDbSession | app/services/db.py:64-68 | without a session factory it raises "DB session factory not initialized"; otherwise a session from the stored factory |
| Cache.CacheBranch | app/services/cache.py:11-39 | the same three-way split for the cache flag and URL |
| Cache.InitCache | app/services/cache.py:11-39 | `cache_ready` is true exactly when the ping replies true; the client is stored exactly when the ping returned; the database fields stay unchanged |
| Cache.CloseCache | app/services/cache.py:42-49 | nothing without a client; otherwise INFO, or WARNING when close raises |
| Health.Healthz | app/api/health.py:10-18 | the liveness answer is `ok` with the timestamp and Python version |
| Health.Flag | app/api/health.py:24-25 | `getattr(state, flag, False)` is true exactly when the flag is set and true |
| Health.ReadyAsWritten | app/api/health.py:26 | ready when nothing is enabled, and otherwise exactly when both flags hold |
| Health.Readyz | app/api/health.py:20-33 | the readiness answer reports both flags (false when unset) and the readiness as written |
| Health.ReadyIntended | app/api/health.py:26 | ready exactly when every enabled dependency is ready |
| Health.ReadyzIntended | app/api/health.py:20-33 | the readiness answer built on the intended rule |
| Health.ReadyAsWrittenIsSound | app/api/health.py:26 | ready as written implies ready as intended, and the two agree when both dependencies are on or both off |
| Health.OnlyCacheEnabledNeverReady | app/api/health.py:26 | with only the cache enabled and ready, the probe says not ready, while the intended rule says ready |
| Health.OnlyCacheEnabledStartup | app/api/health.py:24-26 | after a start-up with the database disabled and the cache enabled, with a URL and a ping answering true, readiness as written is false and as intended is true |
| AuthService.DecodeToken | app/services/auth.py:22-29 | exactly the demo token decodes, to user 1 `demo` with scopes read and write |
| AuthService.GetCurrentUser | app/services/auth.py:32-41 | the decoded user is returned; any other token raises the 401 `E_AUTH_FAILED` exception with a Bearer challenge |
| AuthService.AuthFailureIsConsistent | app/services/auth.py:36-40 | the failure's code is the code of its status |
| AuthService.RejectedTokenLosesChallenge | app/services/auth.py:32-41 | a rejected token's 401 reaches the client without `WWW-Authenticate` |
| AuthApi.NewTokenResponse | app/api/auth.py:16-18 | the token type defaults to bearer |
| AuthApi.IssueToken | app/api/auth.py:21-25 | the issued token is the demo token |
| AuthApi.IssueTokenIgnoresCredentials | app/api/auth.py:21-25 | the credentials do not affect the answer |
| AuthApi.IssuedTokenAuthenticates | app/api/auth.py:25 | an issued token authenticates as the demo user |
| Items.FirstIndex | app/api/example/get_example.py:70-71 | the search finds an item exactly when one has the id, and the index found holds that id |
| Items.ItemErrorsAreConsistent | app/api/example/get_example.py:74-83 | the 404 and duplicate-id 400 carry the codes of their statuses and are answered with their messages |
| Items.ItemEnvelope | app/api/example/get_example.py:72 | an item is wrapped as code OK with the item as data |
| Items.ItemStore.constructor | app/api/example/get_example.py:26 | the store starts empty |
| Items.ItemStore.ReadItems | app/api/example/get_example.py:61-64 | the handler returns the whole list, unchanged, in the success envelope; Items.ListEnvelopeNeverFitsItemListModel shows what the client then receives |
| Items.ItemStore.ReadItem | app/api/example/get_example.py:68-74 | the first item with the id, or the 404 |
| Items.ItemStore.CreateItem | app/api/example/get_example.py:78-87 | a duplicate id gives the 400 and no change; otherwise the item is appended and returned |
| Items.ItemStore.UpdateItem | app/api/example/get_example.py:91-98 | the first item with the id is replaced in place and the rest kept; an unknown id gives the 404 and no change |
| Items.ItemStore.DeleteItem | app/api/example/get_example.py:102-109 | the first item with the id is removed and returned; an unknown id gives the 404 and no change |
| Items.CreateKeepsIdsUnique | app/api/example/get_example.py:81-85 | creating keeps ids unique |
| Items.DeleteKeepsIdsUnique | app/api/example/get_example.py:104-106 | deleting keeps ids unique and removes the id entirely |
| Items.UpdateKeepingIdKeepsIdsUnique | app/api/example/get_example.py:93-95 | an update that keeps the id keeps ids unique |
| Items.UpdateMayDuplicateIds | app/api/example/get_example.py:93-95 | an update that changes the id can leave two items with the same id |
| Items.ItemJson | app/api/example/get_example.py:19-22 | an item serialises to the keys id, name and description |
| Items.EnvelopeJson | app/api/example/get_example.py:72-73 | `model_dump` of an envelope has the keys code, message, data and meta |
| Items.ServeAsWritten | app/api/example/get_example.py:78-87 | a value that fits the declared `Item` model is served with 200; anything else becomes the 500 server error |
| Items.EnvelopeNeverFitsItemModel | app/api/example/get_example.py:78-87 | the envelope the item endpoints return never fits `response_model=Item`, so the client gets a 500 |
| Items.ServeCorrected | app/api/example/get_example.py:78-87 | with the envelope as the response model, a fitting value is served with 200 as it is |
| Items.EnvelopeFitsCorrectedModel | app/api/example/get_example.py:78-87 | the returned envelope fits the corrected model and is served with the item as data |
| Items.ItemsJson | app/api/example/get_example.py:63-64 | the dump of a list of items is one item object per item, in order |
| Items.ListEnvelopeJson | app/api/example/get_example.py:63-64 | the dump of `SuccessResponse[List[Item]]` has exactly code, message, data and meta, with the item list as data |
| Items.ServeListAsWritten | app/api/example/get_example.py:61-64 | a list of values that all fit `Item` is served with 200; anything else becomes the 500 server error |
| Items.ListEnvelopeNeverFitsItemListModel | app/api/example/get_example.py:61-64 | the envelope `read_items` returns is a dict, never a list, so `GET /items/` is answered with the 500 whatever the store holds, even when it is empty |
| Items.ServeListCorrected | app/api/example/get_example.py:61-64 | with the list envelope as the response model, a fitting value is served with 200 as it is |
| Items.ListEnvelopeFitsCorrectedModel | app/api/example/get_example.py:61-64 | the list envelope fits the corrected model and is served with 200, the list as data item by item |
| Items.DemoItems | app/api/example/get_example.py:121-123 | 200 demo rows, row i having id i + 1 and name `item-` followed by the id |
| Items.Slice | app/api/example/get_example.py:125 | Python slicing clamps to the list and keeps the elements in order |
| Items.ItemsPaged | app/api/example/get_example.py:118-127 | the page holds min(limit, 200 - offset) rows (none past the end); row k is item offset + k of the 200 demo items, so the ids are consecutive from offset + 1; the meta is that of the query over 200 |
| Items.ItemsPagedAgreesWithMeta | app/api/example/get_example.py:124-126 | has_next holds exactly when the rows after this page are non-empty |
| Logs.MakeLogsQuery | app/api/logs.py:17-22 | the query parameters are accepted exactly when page >= 1 and 1 <= page_size <= 200, defaulting to 1 and 50 |
| Logs.Offset | app/api/logs.py:60 | the offset is `(page - 1) * page_size` |
| Logs.Pages | app/api/logs.py:109 | `(total + page_size - 1) // page_size`; it has no contract of its own, and Logs.PagesIsCeiling proves it is the ceiling of total over page size, 0 exactly for no rows |
| Logs.PagesIsCeiling | app/api/logs.py:109 | the page count is the ceiling of total over page size, 0 exactly for no rows |
| Logs.Select | app/api/logs.py:41-54 | no condition is chosen exactly when no filter is given |
| Logs.BuildFilter | app/api/logs.py:41-54 | a condition and a parameter for each non-empty filter, in the order level, component, search; the search value is wrapped in `%` |
| Logs.WhereClause | app/api/logs.py:57 | no conditions give an empty clause, otherwise `WHERE ` and the conditions joined by ` AND ` |
| Logs.WhereClauseEmptyIff | app/api/logs.py:41-57 | the clause is empty exactly when no filter is given |
| Logs.AllFiltersWhereClause | app/api/logs.py:41-57 | all three filters give the full three-condition clause |
| Logs.ListParams | app/api/logs.py:63-75 | the list query binds the filter parameters plus limit and offset |
| Logs.BuildStatements | app/api/logs.py:41-75 | the list and count statements share the where clause of the given filters; the count statement binds exactly the given filters' parameters, the list statement the same plus limit and offset |
| Logs.GetLogs | app/api/logs.py:17-122 | without an engine the error "数据库不可用" and no statements. A database error is reported with its message. Rows give success with the page count. The list and count statements share the where clause; the count statement binds a "level", "component" and "search" parameter exactly for the given filters, with the search term wrapped in `%`, and the list statement binds the same plus limit and offset |
| Logs.RenderPagination | app/api/logs.py:439-489 | prev and next are disabled exactly at the ends and their targets are the neighbours. At most five buttons, consecutive, within 1..pages, showing the current page, which is the only active one. The window starts at max(1, min(page - 2, pages - 4)) |

## Left out

- Actual I/O is not modelled: HTTP serving, the SQL database, Redis, log files, directory creation for LOG_DIR, and stdout. Their results are parameters.
- Concurrency and async scheduling are not modelled: each request is modelled as one sequential run.
- Floating-point is not modelled: timestamps are opaque `real` parameters, and the latency is a natural number of milliseconds. `tracing_sampler_ratio` and the float reader behind it are left out.
- The security-headers, GZip, rate-limit and CORS middlewares are modelled as pass-through layers. Their own header rewriting, compression, throttling and preflight handling are not modelled; only the CORS origin list and max age are.
- The slowapi rate-limit exception handler registered at app/middlewares/__init__.py:145 is left out. The `HTTPException` handler registered at line 270 replaces it.
- The graceful-shutdown hook is left out.
- Exceptions raised by Starlette itself (e.g. an unknown route's 404) are left out: they do not reach the custom handler.
- Log lines that carry no state are left out: the handlers' own log calls, the init/decode/issue-token info lines, and the `kv` inside them. The shutdown lines of `close_db` and `close_cache` are kept.
- The SQL text of the log queries is left out. The queries embed the literal `"+settings.logs_table_name+"` inside the string, and `logs.py` imports `get_db_engine`, which `app/services/db.py` does not define. The model therefore takes "an engine is available" and the query's answer as inputs and keeps only the where clause and the parameters.
- The probe `conn.execute("SELECT 1")` in `init_db` runs without `text()`; the model has no SQL layer, so the probe's outcome is a parameter. With the code as written a `future=True` engine rejects the plain string, so the check always raises: `Connected` does not occur and `db_ready` is never True.
- `Health.Readyz`: `readyz(request)` at app/api/health.py:21 has no `Request` annotation, so FastAPI takes `request` for a required query parameter and a plain `GET /readyz` is answered 422 `E_VALIDATION` before the body runs. That parameter binding is not modelled; the model is the body called with the application state.
- The other routes of `logs.py` and the HTML/JavaScript of the log page are left out; only `renderPagination`'s logic is modelled.
- `Strings.Lower`: models ASCII letters only, not Python's full Unicode case mapping.
- `Strings.Upper`: models ASCII letters only, not Python's full Unicode case mapping.
- `Strings.ParseInt`: accepts only the ASCII digits `0`..`9`; Python's `int()` also accepts other Unicode decimal digits (e.g. full-width `８０８０`).
- `Middlewares.StartRecords`: the START extra leaves out `path_params` and `query_params`.
- `Middlewares.DoneRecord`: the float `latency` in seconds is left out of the extra; only the whole milliseconds `latency_ms` are kept.
- `Middlewares.Run`: `request.state` is threaded through the middleware stack as a value, and the handlers' `payload["request_id"] = ...` on a freshly dumped dict is a map update. The in-place writes to `request.state` and to `response.headers` are shown on objects only by `Middlewares.RequestIdMiddleware`.
- `Middlewares.HttpExceptionHandler`: the message check is by JSON type (pydantic's strict `str`); Starlette's replacement of `detail=None` by the reason phrase happens before the handler and is not modelled.
- `Middlewares.UnhandledHandler`: its reply is built by Starlette's outermost error middleware, so it carries no X-Request-ID. The model's reply has no headers but does not model that layer.
- `Items.ServeAsWritten`: response validation is modelled by the keys and JSON types of the `Item` fields, not by pydantic's full coercion rules.
- `Logs.GetLogs`: the rows are passed through as the query returned them; the row-to-dict conversion is not modelled.
- `Config.Load`: LOG_DIR handling is not modelled.
- `Config.Load`: the tracing sampler ratio is not modelled.

## Findings

| source | as written | input that shows it | evidently intended | confidence | as-written member | corrected member |
|---|---|---|---|---|---|---|
| app/middlewares/__init__.py:282-284 | the `HTTPException` handler builds its `JSONResponse` without `exc.headers` | `get_current_user` with any token other than `demo-token` raises 401 with `WWW-Authenticate: Bearer`; the reply lacks that header | the exception's headers are passed on, as section 11.6.1 of RFC 9110 requires a challenge on 401 | high, not executed | Middlewares.HandlerDropsHeaders | Middlewares.HttpExceptionHandlerCorrected |
| app/middlewares/__init__.py:274-282 | a dict detail without a string `message` passes its `message` entry (None) to `ErrorResponse`, whose validation raises inside the handler | `HTTPException(400, detail={"code": "E_BAD_REQUEST"})` reaches the client as 500 `E_SERVER_ERROR` | the original status with a fallback message | high, not executed | Middlewares.MessagelessDetailBecomesServerError | Middlewares.HttpExceptionHandlerCorrected |
| app/api/health.py:26 | readiness is `db_ready and cache_ready` whenever either dependency is enabled | CACHE_ENABLED=true with CACHE_URL set and a ping answering True, DB_ENABLED unset: `init_db` sets `db_ready` False, so a call of `readyz` on that app state never reports ready | every enabled dependency is ready | medium, not executed | Health.OnlyCacheEnabledNeverReady | Health.ReadyIntended |
| app/middlewares/__init__.py:41-48 | the request-id middleware is registered before the logging middleware, so it runs inside it; the logger reads `request.state.request_id` before it is set | any request, even one sending `X-Request-ID: abc`: every HTTP record has request_id None and rid `-` | the HTTP log records carry the request id | high, not executed | Middlewares.AsWrittenLogsLackRequestId | Middlewares.CorrectedLogsCarryRequestId |
| app/api/example/get_example.py:78-87 | the item endpoints return the `SuccessResponse` dump while declaring `response_model=Item` | `POST /items/` with `{"id": 1, "name": "a"}`: the item is stored, but the dump has no `id`/`name`, response validation fails and the client gets 500 | the declared response model is the envelope | high, not executed | Items.EnvelopeNeverFitsItemModel | Items.EnvelopeFitsCorrectedModel |
| app/api/example/get_example.py:61-64 | `read_items` returns the `SuccessResponse` dump, a dict, while declaring `response_model=List[Item]` | `GET /items/`, even with an empty store: the dict is not a list, response validation fails and the client gets 500 | the declared response model is the list envelope | high, not executed | Items.ListEnvelopeNeverFitsItemListModel | Items.ListEnvelopeFitsCorrectedModel |
| app/middlewares/__init__.py:290-296 | the catch-all handler puts `str(exc)` into the 500 body's `detail` | any handler raising `RuntimeError("db password wrong")`: the client's 500 body has detail `"db password wrong"` | 500-class bodies carry no exception text, as the design states | high, not executed | Middlewares.UnhandledRevealsExceptionText | Middlewares.UnhandledHandlerCorrected |
