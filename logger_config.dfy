/** app/utils/logger_config.py: level lookup, the colour formatter, the one-time handler
    setup, the component adapter and the `kv` key=value formatter. */
module LoggerConfig {
  import opened Wrappers
  import opened Strings
  import opened Http

  // ---------------------------------------------------------------- levels

  datatype Level = Debug | Info | Warning | Error | Critical

  /** The numeric value the `logging` module gives each level. */
  function LevelNumber(l: Level): (n: int)
    ensures 10 <= n <= 50 && n % 10 == 0
  {
    match l
    case Debug => 10
    case Info => 20
    case Warning => 30
    case Error => 40
    case Critical => 50
  }

  /** `record.levelname`. */
  function LevelName(l: Level): string {
    match l
    case Debug => "DEBUG"
    case Info => "INFO"
    case Warning => "WARNING"
    case Error => "ERROR"
    case Critical => "CRITICAL"
  }

  /** What `getattr(logging, name, logging.DEBUG)` finds: a level number, or one of the two
      upper-case attributes of `logging` that are not levels (the string `BASIC_FORMAT` and
      the dict `_STYLES`), which `setLevel` rejects. */
  datatype LevelAttr = LevelValue(n: int) | NotALevel

  /** The upper-case attribute names of the `logging` module. */
  const LoggingAttributes: set<string> :=
    {"DEBUG", "INFO", "WARNING", "WARN", "ERROR", "CRITICAL", "FATAL", "NOTSET", "BASIC_FORMAT", "_STYLES"}

  /** `getattr(logging, name, logging.DEBUG)` over the upper-case names `logging` defines;
      any other name gives DEBUG. */
  function LevelByName(name: string): (a: LevelAttr)
    ensures forall l: Level :: name == LevelName(l) ==> a == LevelValue(LevelNumber(l))
    ensures name == "WARN" ==> a == LevelValue(30)
    ensures name == "FATAL" ==> a == LevelValue(50)
    ensures name == "NOTSET" ==> a == LevelValue(0)
    ensures a == NotALevel <==> name in {"BASIC_FORMAT", "_STYLES"}
    ensures name !in LoggingAttributes ==> a == LevelValue(10)
  {
    if name == "CRITICAL" || name == "FATAL" then LevelValue(50)
    else if name == "ERROR" then LevelValue(40)
    else if name == "WARNING" || name == "WARN" then LevelValue(30)
    else if name == "INFO" then LevelValue(20)
    else if name == "NOTSET" then LevelValue(0)
    else if name == "BASIC_FORMAT" || name == "_STYLES" then NotALevel
    else LevelValue(10)
  }

  /** `LOGGER_LEVEL`: the upper-cased `LOG_LEVEL` variable (default "DEBUG") looked up by name. */
  function LoggerLevel(env: map<string, string>): (a: LevelAttr)
    ensures "LOG_LEVEL" !in env ==> a == LevelValue(10)
  {
    var name := if "LOG_LEVEL" in env then env["LOG_LEVEL"] else "DEBUG";
    assert "LOG_LEVEL" !in env ==> Upper(name) == "DEBUG" by {
      if "LOG_LEVEL" !in env {
        assert forall i :: 0 <= i < 5 ==> Upper(name)[i] == "DEBUG"[i];
      }
    }
    LevelByName(Upper(name))
  }

  /** The level name is found whatever its letter case. */
  lemma LoggerLevelIgnoresCase(env: map<string, string>, l: Level)
    requires "LOG_LEVEL" in env && Upper(env["LOG_LEVEL"]) == LevelName(l)
    ensures LoggerLevel(env) == LevelValue(LevelNumber(l))
  {
  }

  // ---------------------------------------------------------------- colours

  const Reset: string := "\U{1B}[0m"

  /** `LEVEL_COLORS.get(levelname)`. */
  function LevelColor(levelName: string): (c: Option<string>)
    ensures c.Some? <==> levelName in {"DEBUG", "INFO", "WARNING", "ERROR", "CRITICAL"}
    ensures c.Some? ==> |c.value| == 5 && c.value[..2] == "\U{1B}[" && c.value[4] == 'm'
  {
    if levelName == "DEBUG" then Some("\U{1B}[92m")
    else if levelName == "INFO" then Some("\U{1B}[34m")
    else if levelName == "WARNING" then Some("\U{1B}[93m")
    else if levelName == "ERROR" then Some("\U{1B}[91m")
    else if levelName == "CRITICAL" then Some("\U{1B}[95m")
    else None
  }

  /** A `ColoredFormatter`; `useColor` is fixed by the constructor. */
  datatype ColoredFormatter = ColoredFormatter(useColor: bool)

  /** `ColoredFormatter(use_color=...)`: colour stays on only when asked for and stdout is a terminal. */
  function NewColoredFormatter(useColor: bool, stdoutIsTty: bool): (f: ColoredFormatter)
    ensures f.useColor <==> useColor && stdoutIsTty
  {
    ColoredFormatter(useColor && stdoutIsTty)
  }

  /** `ColoredFormatter.format`: `base` is what `logging.Formatter.format` produced. */
  function Format(f: ColoredFormatter, levelName: string, base: string): (r: string)
    ensures !f.useColor ==> r == base
    ensures f.useColor ==> r == LevelColor(levelName).GetOr(Reset) + base + Reset
  {
    if !f.useColor then base else LevelColor(levelName).GetOr(Reset) + base + Reset
  }

  /** With colour on, dropping the escape prefix and the trailing reset gives back the plain text. */
  lemma FormatUncolors(f: ColoredFormatter, levelName: string, base: string)
    requires f.useColor
    ensures var r := Format(f, levelName, base);
            var p := if LevelColor(levelName).Some? then 5 else 4;
            |r| == p + |base| + 4 && r[p..|r| - 4] == base && r[|r| - 4..] == Reset
  {
    var r := Format(f, levelName, base);
    var c := LevelColor(levelName).GetOr(Reset);
    assert r == c + base + Reset;
    assert r[|c|..|r| - 4] == base;
  }

  // ---------------------------------------------------------------- handlers and setup_logger

  datatype Handler =
    | ConsoleHandler(level: int, formatter: ColoredFormatter)
    | RotatingFileHandler(path: string, level: int, maxBytes: int, backupCount: int)

  /** A `logging.Logger`: the fields `setup_logger` reads and writes. */
  class Logger {
    const name: string
    var level: int
    var handlers: seq<Handler>
    var propagate: bool

    /** A logger as `logging` creates it: level NOTSET, no handlers, propagating. */
    constructor (name: string)
      ensures this.name == name && level == 0 && handlers == [] && propagate
    {
      this.name := name;
      level := 0;
      handlers := [];
      propagate := true;
    }
  }

  /** The `logging` manager behind `logging.getLogger`: one logger per name. */
  class Registry {
    var loggers: map<string, Logger>

    constructor ()
      ensures loggers == map[] && Valid()
    {
      loggers := map[];
    }

    /** Every registered logger carries the name it is registered under, so distinct names
        never share a logger. */
    predicate Valid()
      reads this
    {
      forall n :: n in loggers ==> loggers[n].name == n
    }

    /** `logging.getLogger(name)`: the same object on every call with that name. */
    method GetLogger(name: string) returns (l: Logger)
      requires Valid()
      modifies this
      ensures Valid()
      ensures name in old(loggers) ==> l == old(loggers)[name] && loggers == old(loggers)
      ensures name !in old(loggers) ==> fresh(l) && l.name == name && l.handlers == [] && l.propagate
      ensures name !in old(loggers) ==> loggers == old(loggers)[name := l]
    {
      if name in loggers {
        l := loggers[name];
      } else {
        l := new Logger(name);
        loggers := loggers[name := l];
      }
    }
  }

  /** The two handlers the first `setup_logger` call installs: a coloured console handler
      at the configured level and a plain 1 MB x 3 rotating file handler at INFO. */
  function FirstHandlers(loggerLevel: int, logFile: string, stdoutIsTty: bool): (hs: seq<Handler>)
    ensures |hs| == 2
    ensures hs[0].ConsoleHandler? && hs[0].level == loggerLevel && (hs[0].formatter.useColor <==> stdoutIsTty)
    ensures hs[1].RotatingFileHandler? && hs[1].path == logFile && hs[1].level == LevelNumber(Info)
    ensures hs[1].maxBytes == 1048576 && hs[1].backupCount == 3
  {
    [ConsoleHandler(loggerLevel, NewColoredFormatter(true, stdoutIsTty)),
     RotatingFileHandler(logFile, 20, 1 * 1024 * 1024, 3)]
  }

  /** The body of `setup_logger` once the logger is found: a logger that already has
      handlers is left alone; otherwise `setLevel` comes first, and raises (leaving the
      logger as it was) when the configured name is not a level; otherwise the logger gets
      its level, the two handlers and propagate=False. */
  method Configure(logger: Logger, loggerLevel: LevelAttr, logFile: string, stdoutIsTty: bool) returns (raised: bool)
    modifies logger
    ensures raised <==> old(logger.handlers) == [] && loggerLevel == NotALevel
    ensures old(logger.handlers) != [] || raised ==>
              logger.handlers == old(logger.handlers) && logger.level == old(logger.level) && logger.propagate == old(logger.propagate)
    ensures old(logger.handlers) == [] && !raised ==>
              logger.handlers == FirstHandlers(loggerLevel.n, logFile, stdoutIsTty) && logger.level == loggerLevel.n && !logger.propagate
  {
    if logger.handlers != [] {
      return false;
    }
    if loggerLevel == NotALevel {
      return true;
    }
    logger.level := loggerLevel.n;
    var console := ConsoleHandler(loggerLevel.n, NewColoredFormatter(true, stdoutIsTty));
    var file := RotatingFileHandler(logFile, 20, 1 * 1024 * 1024, 3);
    logger.handlers := logger.handlers + [console];
    logger.handlers := logger.handlers + [file];
    logger.propagate := false;
    raised := false;
  }

  /** `setup_logger(name)`; `raised` is the `ValueError`/`TypeError` of `setLevel`, after which
      the logger stays registered but unconfigured. Only the logger named can change. */
  method SetupLogger(reg: Registry, name: string, loggerLevel: LevelAttr, logFile: string, stdoutIsTty: bool)
    returns (logger: Logger, raised: bool)
    requires reg.Valid()
    modifies reg, if name in reg.loggers then {reg.loggers[name]} else {}
    ensures reg.Valid()
    ensures name in old(reg.loggers) ==> logger == old(reg.loggers)[name]
    ensures name !in old(reg.loggers) ==> fresh(logger) && logger.name == name
    ensures reg.loggers == old(reg.loggers)[name := logger]
    ensures forall n :: n in old(reg.loggers) && n != name ==>
              reg.loggers[n] == old(reg.loggers[n]) && reg.loggers[n].handlers == old(reg.loggers[n].handlers)
              && reg.loggers[n].level == old(reg.loggers[n].level) && reg.loggers[n].propagate == old(reg.loggers[n].propagate)
    ensures raised <==> old(name !in reg.loggers || reg.loggers[name].handlers == []) && loggerLevel == NotALevel
    ensures old(name in reg.loggers && reg.loggers[name].handlers != []) ==>
              logger.handlers == old(reg.loggers[name].handlers) && logger.level == old(reg.loggers[name].level)
              && logger.propagate == old(reg.loggers[name].propagate)
    ensures old(name !in reg.loggers || reg.loggers[name].handlers == []) && raised ==> logger.handlers == []
    ensures old(name !in reg.loggers || reg.loggers[name].handlers == []) && !raised ==>
              logger.handlers == FirstHandlers(loggerLevel.n, logFile, stdoutIsTty) && logger.level == loggerLevel.n && !logger.propagate
  {
    logger := reg.GetLogger(name);
    raised := Configure(logger, loggerLevel, logFile, stdoutIsTty);
  }

  /** Calling `setup_logger` twice for a new name leaves exactly the two handlers of the
      first call, or none when the configured level name is not a level. */
  method SetupTwice(reg: Registry, name: string, loggerLevel: LevelAttr, logFile: string, stdoutIsTty: bool) returns (handlerCount: nat)
    requires reg.Valid() && name !in reg.loggers
    modifies reg
    ensures handlerCount == if loggerLevel == NotALevel then 0 else 2
  {
    var first, _ := SetupLogger(reg, name, loggerLevel, logFile, stdoutIsTty);
    var second, _ := SetupLogger(reg, name, loggerLevel, logFile, stdoutIsTty);
    assert second == first;
    handlerCount := |second.handlers|;
  }

  // ---------------------------------------------------------------- ComponentLoggerAdapter

  /** A caller's `extra` dict, changed in place by `setdefault`. */
  class ExtraDict {
    var entries: map<string, Json>
    constructor (entries: map<string, Json>)
      ensures this.entries == entries
    {
      this.entries := entries;
    }
  }

  /** The `kwargs` of a logging call; only its "extra" entry matters here (null: absent or None). */
  class LogKwargs {
    var extra: ExtraDict?
    constructor (extra: ExtraDict?)
      ensures this.extra == extra
    {
      this.extra := extra;
    }
  }

  /** `extra.setdefault("component", component)`: the caller's keys and values stay, and
      "component" is added only when absent. */
  function WithComponent(extra: map<string, Json>, component: string): (r: map<string, Json>)
    ensures r.Keys == extra.Keys + {"component"}
    ensures forall k :: k in extra ==> r[k] == extra[k]
    ensures "component" !in extra ==> r["component"] == JStr(component)
  {
    if "component" in extra then extra else extra["component" := JStr(component)]
  }

  /** The message `process` returns: `[component] msg`. */
  function Tagged(component: string, msg: string): (r: string)
    ensures |r| == |component| + 3 + |msg|
    ensures r[..|component| + 3] == "[" + component + "] " && r[|component| + 3..] == msg
  {
    "[" + component + "] " + msg
  }

  class ComponentLoggerAdapter {
    const logger: Logger
    const component: string

    constructor (logger: Logger, component: string)
      ensures this.logger == logger && this.component == component
    {
      this.logger := logger;
      this.component := component;
    }

    /** `process(msg, kwargs)`: a non-empty caller dict is updated in place; an absent or
        empty one is replaced by a new dict; either way `kwargs["extra"]` ends up holding it. */
    method Process(msg: string, kwargs: LogKwargs) returns (out: string)
      modifies kwargs, kwargs.extra
      ensures out == Tagged(component, msg)
      ensures kwargs.extra != null
      ensures old(kwargs.extra) != null && old(kwargs.extra.entries) != map[] ==> kwargs.extra == old(kwargs.extra)
      ensures old(kwargs.extra) == null || old(kwargs.extra.entries) == map[] ==> fresh(kwargs.extra)
      ensures old(kwargs.extra) != null && old(kwargs.extra.entries) == map[] ==> old(kwargs.extra).entries == map[]
      ensures kwargs.extra.entries ==
                WithComponent(if old(kwargs.extra) == null then map[] else old(kwargs.extra.entries), component)
    {
      var extra: ExtraDict;
      if kwargs.extra != null && kwargs.extra.entries != map[] {
        extra := kwargs.extra;
      } else {
        extra := new ExtraDict(map[]);
      }
      if "component" !in extra.entries {
        extra.entries := extra.entries["component" := JStr(component)];
      }
      kwargs.extra := extra;
      out := "[" + component + "] " + msg;
    }
  }

  /** `get_logger(component)`: an adapter over the shared, once-configured "app" logger, or
      the exception of `setup_logger` (null) when the configured level name is not a level. */
  method GetComponentLogger(reg: Registry, component: string, loggerLevel: LevelAttr, logFile: string, stdoutIsTty: bool)
    returns (adapter: ComponentLoggerAdapter?)
    requires reg.Valid()
    modifies reg, if "app" in reg.loggers then {reg.loggers["app"]} else {}
    ensures reg.Valid() && "app" in reg.loggers && reg.loggers == old(reg.loggers)["app" := reg.loggers["app"]]
    ensures forall n :: n in old(reg.loggers) && n != "app" ==>
              reg.loggers[n] == old(reg.loggers[n]) && reg.loggers[n].handlers == old(reg.loggers[n].handlers)
    ensures adapter == null <==> old("app" !in reg.loggers || reg.loggers["app"].handlers == []) && loggerLevel == NotALevel
    ensures adapter != null ==> fresh(adapter) && adapter.component == component
                                && adapter.logger == reg.loggers["app"] && |adapter.logger.handlers| >= 1
  {
    var base, raised := SetupLogger(reg, "app", loggerLevel, logFile, stdoutIsTty);
    if raised {
      return null;
    }
    adapter := new ComponentLoggerAdapter(base, component);
  }

  // ---------------------------------------------------------------- kv

  /** One keyword argument of `kv`: its name and its value already rendered by `str`, or None. */
  type Pair = (string, Option<string>)

  /** The piece one argument contributes: nothing for None, otherwise "k=v". */
  function PieceOf(p: Pair): (r: seq<string>)
    ensures p.1.None? <==> r == []
    ensures p.1.Some? ==> r == [p.0 + "=" + p.1.value]
  {
    if p.1.None? then [] else [p.0 + "=" + p.1.value]
  }

  /** The `parts` list after the loop over all arguments. */
  function Pieces(pairs: seq<Pair>): (r: seq<string>)
    ensures forall i :: 0 <= i < |r| ==> '=' in r[i]
  {
    if pairs == [] then [] else Pieces(pairs[..|pairs| - 1]) + PieceOf(pairs[|pairs| - 1])
  }

  /** What `kv(**kwargs)` returns. */
  function FormatPairs(pairs: seq<Pair>): string {
    Join(Pieces(pairs), " ")
  }

  /** `kv(**kwargs)`. */
  method Kv(pairs: seq<Pair>) returns (s: string)
    ensures s == FormatPairs(pairs)
  {
    var parts: seq<string> := [];
    var i := 0;
    while i < |pairs|
      invariant 0 <= i <= |pairs|
      invariant parts == Pieces(pairs[..i])
    {
      var (k, v) := pairs[i];
      if v.Some? {
        parts := parts + [k + "=" + v.value];
      }
      assert pairs[..i + 1][..i] == pairs[..i];
      i := i + 1;
    }
    assert pairs[..|pairs|] == pairs;
    s := Join(parts, " ");
  }

  lemma {:induction false} PiecesAppend(a: seq<Pair>, b: seq<Pair>)
    ensures Pieces(a + b) == Pieces(a) + Pieces(b)
  {
    if b == [] {
      assert a + b == a;
    } else {
      var b', last := b[..|b| - 1], b[|b| - 1];
      var ab' := a + b';
      PiecesAppend(a, b');
      assert (a + b)[..|a + b| - 1] == ab';
      assert (a + b)[|a + b| - 1] == last;
      PiecesOfSnoc(a + b);
      PiecesOfSnoc(b);
      SeqAppendAssoc(Pieces(a), Pieces(b'), PieceOf(last));
    }
  }

  /** One step of the loop: the pieces of all but the last pair, then the last one's. */
  lemma PiecesOfSnoc(s: seq<Pair>)
    requires s != []
    ensures Pieces(s) == Pieces(s[..|s| - 1]) + PieceOf(s[|s| - 1])
  {
  }

  lemma SeqAppendAssoc(x: seq<string>, y: seq<string>, z: seq<string>)
    ensures x + y + z == x + (y + z)
  {
  }

  /** A None argument can be dropped without changing the output. */
  lemma KvSkipsNone(pairs: seq<Pair>, i: nat)
    requires i < |pairs| && pairs[i].1.None?
    ensures FormatPairs(pairs[..i] + pairs[i + 1..]) == FormatPairs(pairs)
  {
    var a, p, b := pairs[..i], pairs[i], pairs[i + 1..];
    assert pairs == (a + [p]) + b;
    PiecesAppend(a + [p], b);
    assert (a + [p])[..|a + [p]| - 1] == a;
    assert Pieces(a + [p]) == Pieces(a) + PieceOf(p) == Pieces(a);
    PiecesAppend(a, b);
  }

  /** One non-None argument makes a part. */
  lemma {:induction false} PiecesNonEmpty(pairs: seq<Pair>, k: nat)
    requires k < |pairs| && pairs[k].1.Some?
    ensures Pieces(pairs) != []
  {
    var init := pairs[..|pairs| - 1];
    if k < |init| {
      assert init[k] == pairs[k];
      PiecesNonEmpty(init, k);
    }
  }

  /** Only None arguments make no parts. */
  lemma {:induction false} PiecesAllNone(pairs: seq<Pair>)
    requires forall i :: 0 <= i < |pairs| ==> pairs[i].1.None?
    ensures Pieces(pairs) == []
  {
    if pairs != [] {
      var init := pairs[..|pairs| - 1];
      assert forall i :: 0 <= i < |init| ==> init[i] == pairs[i];
      PiecesAllNone(init);
    }
  }

  lemma PiecesEmptyIff(pairs: seq<Pair>)
    ensures Pieces(pairs) == [] <==> forall i :: 0 <= i < |pairs| ==> pairs[i].1.None?
  {
    if forall i :: 0 <= i < |pairs| ==> pairs[i].1.None? {
      PiecesAllNone(pairs);
    } else {
      var k :| 0 <= k < |pairs| && pairs[k].1.Some?;
      PiecesNonEmpty(pairs, k);
    }
  }

  /** `kv` returns "" exactly when every argument is None. */
  lemma KvEmptyIff(pairs: seq<Pair>)
    ensures FormatPairs(pairs) == "" <==> forall i :: 0 <= i < |pairs| ==> pairs[i].1.None?
  {
    PiecesEmptyIff(pairs);
    JoinEmptyIff(Pieces(pairs), " ");
  }

  lemma {:induction false} PiecesWithoutSpaces(pairs: seq<Pair>)
    requires forall i :: 0 <= i < |pairs| ==> ' ' !in pairs[i].0 && (pairs[i].1.Some? ==> ' ' !in pairs[i].1.value)
    ensures forall j :: 0 <= j < |Pieces(pairs)| ==> ' ' !in Pieces(pairs)[j]
  {
    if pairs != [] {
      var init := pairs[..|pairs| - 1];
      assert forall i :: 0 <= i < |init| ==> init[i] == pairs[i];
      PiecesWithoutSpaces(init);
    }
  }

  /** When no key or value contains a space, splitting the output on spaces gives back the
      "k=v" pieces in argument order, one per non-None argument. */
  lemma KvSplitsBack(pairs: seq<Pair>)
    requires forall i :: 0 <= i < |pairs| ==> ' ' !in pairs[i].0 && (pairs[i].1.Some? ==> ' ' !in pairs[i].1.value)
    requires exists i :: 0 <= i < |pairs| && pairs[i].1.Some?
    ensures Split(FormatPairs(pairs), ' ') == Pieces(pairs)
  {
    PiecesEmptyIff(pairs);
    PiecesWithoutSpaces(pairs);
    SplitJoin(Pieces(pairs), ' ');
  }
}
