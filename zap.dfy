/**
 * The zap adapter: the facade's levels translated to zapcore levels, the two engine
 * configurations (main and error-only) derived from the options, and the adapter
 * object whose log call colours, prefixes, masks and dispatches a record.
 */
module Zap {
  import opened Values
  import opened Runtime
  import opened Logger
  import opened Mask

  /** zapcore.Level: an int8 ordered Debug < Info < Warn < Error < DPanic < Panic < Fatal. */
  type ZapLevel = int

  const ZapDebug: ZapLevel := -1
  const ZapInfo: ZapLevel := 0
  const ZapWarn: ZapLevel := 1
  const ZapError: ZapLevel := 2
  const ZapDPanic: ZapLevel := 3
  const ZapPanic: ZapLevel := 4
  const ZapFatal: ZapLevel := 5

  /** ToZapLevel: Fatal shares zap's Error level; anything outside the five levels becomes Info. */
  function ToZapLevel(level: Level): (r: ZapLevel)
    ensures ZapDebug <= r <= ZapError
    ensures !IsLevel(level) ==> r == ZapInfo
  {
    if level == DebugLevel then ZapDebug
    else if level == InfoLevel then ZapInfo
    else if level == WarnLevel then ZapWarn
    else if level == ErrorLevel || level == FatalLevel then ZapError
    else ZapInfo
  }

  /** FromZapLevel: DPanic and Panic read as Error; an unknown zap level reads as the default level. */
  function FromZapLevel(z: ZapLevel): (r: Level)
    ensures IsLevel(r)
    ensures z == ZapFatal ==> r == FatalLevel
    ensures (z == ZapDPanic || z == ZapPanic) ==> r == ErrorLevel
    ensures (z < ZapDebug || z > ZapFatal) ==> r == DefaultLevel
  {
    if z == ZapDebug then DebugLevel
    else if z == ZapInfo then InfoLevel
    else if z == ZapWarn then WarnLevel
    else if z == ZapError then ErrorLevel
    else if z == ZapFatal then FatalLevel
    else if z == ZapDPanic || z == ZapPanic then ErrorLevel
    else DefaultLevel
  }

  /** Every level except Fatal comes back unchanged; Fatal comes back as Error. */
  lemma ZapLevelRoundTrip(l: Level)
    requires IsLevel(l)
    ensures FromZapLevel(ToZapLevel(l)) == if l == FatalLevel then ErrorLevel else l
  {
  }

  /** The zap levels the adapter produces are recovered exactly. */
  lemma ZapLevelFromTo(z: ZapLevel)
    requires ZapDebug <= z <= ZapError
    ensures ToZapLevel(FromZapLevel(z)) == z
  {
  }

  /** The translation keeps the order, strictly up to Error. */
  lemma ZapLevelMonotone(a: Level, b: Level)
    requires IsLevel(a) && IsLevel(b) && a <= b
    ensures ToZapLevel(a) <= ToZapLevel(b)
    ensures b <= ErrorLevel && a < b ==> ToZapLevel(a) < ToZapLevel(b)
  {
  }

  /** A zap core writes a record iff its level is at least the configured one. */
  predicate ZapEnabled(threshold: ZapLevel, lvl: ZapLevel) { lvl >= threshold }

  /**
   * Filtering in zap's terms agrees with filtering in the facade's terms, except that a
   * Fatal threshold lets Error records through.
   */
  lemma ZapThreshold(t: Level, m: Level)
    requires IsLevel(t) && IsLevel(m)
    ensures t <= ErrorLevel ==> (ZapEnabled(ToZapLevel(t), ToZapLevel(m)) <==> m >= t)
    ensures t == FatalLevel ==> (ZapEnabled(ToZapLevel(t), ToZapLevel(m)) <==> m >= ErrorLevel)
  {
  }

  /** The parts of a zap.Config the adapter sets; the rest keep the production defaults. */
  datatype ZapConfig = ZapConfig(
    level: ZapLevel,
    encoding: string,
    disableCaller: bool,
    disableStacktrace: bool,
    outputPaths: seq<string>,
    timeFormat: string,          // the time encoder formats with this layout ...
    timeZone: Location)          // ... after moving the time into this zone

  /** buildConfig: the production config with the given level, no caller, no stacktrace, the options' encoding and time. */
  function BuildConfig(level: ZapLevel, opts: Options, loc: Location): ZapConfig
  {
    ZapConfig(level, if opts.jsonFormat then "json" else "console", true, true, ["stderr"], opts.timeFormat, loc)
  }

  /**
   * The main configuration.  The file path is assigned to the main output twice, the
   * second time as the only output, so a file path replaces stderr.
   */
  function MainConfig(opts: Options, loc: Location): ZapConfig
  {
    var cfg := BuildConfig(ToZapLevel(opts.level), opts, loc);
    var cfg := if opts.filePath != "" then cfg.(outputPaths := ["stderr", opts.filePath]) else cfg;
    if opts.filePath != "" then cfg.(outputPaths := [opts.filePath]) else cfg
  }

  /** The error-only configuration: Error level, stacktraces on, the error output when one is set. */
  function ErrorConfig(opts: Options, loc: Location): ZapConfig
  {
    var cfg := BuildConfig(ToZapLevel(ErrorLevel), opts, loc);
    var cfg := if opts.errorOutput != "" then cfg.(outputPaths := [opts.errorOutput]) else cfg;
    cfg.(disableStacktrace := false)
  }

  /** What the two configurations mean for where records go and which ones are kept. */
  lemma ZapConfigsBehaviour(opts: Options, loc: Location)
    ensures MainConfig(opts, loc).level == ToZapLevel(opts.level)
    ensures ErrorConfig(opts, loc).level == ZapError
    ensures MainConfig(opts, loc).outputPaths == if opts.filePath == "" then ["stderr"] else [opts.filePath]
    ensures ErrorConfig(opts, loc).outputPaths == if opts.errorOutput == "" then ["stderr"] else [opts.errorOutput]
    ensures MainConfig(opts, loc).disableStacktrace && !ErrorConfig(opts, loc).disableStacktrace
    ensures MainConfig(opts, loc).disableCaller && ErrorConfig(opts, loc).disableCaller
    ensures (MainConfig(opts, loc).encoding == "json") == opts.jsonFormat
    ensures ErrorConfig(opts, loc).encoding == MainConfig(opts, loc).encoding
    ensures MainConfig(opts, loc).timeZone == loc == ErrorConfig(opts, loc).timeZone
    ensures MainConfig(opts, loc).timeFormat == opts.timeFormat == ErrorConfig(opts, loc).timeFormat
    ensures forall m :: IsLevel(m) ==> (ZapEnabled(ErrorConfig(opts, loc).level, ToZapLevel(m)) <==> m >= ErrorLevel)
  {
  }

  /** One record as a zap core receives it: level, message, key/value tail and the With context. */
  datatype ZapEntry = ZapEntry(level: ZapLevel, msg: string, args: seq<Value>, context: seq<Fields>)

  /** A built zap logger: its configuration and the records it has written. */
  class ZapEngine {
    const config: ZapConfig
    var entries: seq<ZapEntry>

    constructor (config: ZapConfig)
      ensures this.config == config && entries == []
    {
      this.config := config;
      entries := [];
    }

    /** The sugared logger's leveled call: the record is kept iff its level is enabled. */
    method Write(e: ZapEntry)
      modifies this
      ensures entries == old(entries) + (if ZapEnabled(config.level, e.level) then [e] else [])
    {
      if ZapEnabled(config.level, e.level) {
        entries := entries + [e];
      }
    }
  }

  /** zapLogger. */
  class ZapLogger {
    const logger: ZapEngine
    const context: seq<Fields>           // the maps handed to logger.With, oldest first
    const errorLogger: ZapEngine?
    const maskLogger: MaskProcessor?
    const level: Level
    const colorScheme: Maybe<ColorScheme>
    const env: Env
    var exited: bool                     // os.Exit was called

    /** The main and the error engine are two distinct loggers. */
    predicate Valid() { errorLogger != logger }

    constructor (logger: ZapEngine, context: seq<Fields>, errorLogger: ZapEngine?, maskLogger: MaskProcessor?,
                 level: Level, colorScheme: Maybe<ColorScheme>, env: Env)
      ensures this.logger == logger && this.context == context && this.errorLogger == errorLogger
      ensures this.maskLogger == maskLogger && this.level == level && this.colorScheme == colorScheme
      ensures this.env == env && !exited
    {
      this.logger := logger;
      this.context := context;
      this.errorLogger := errorLogger;
      this.maskLogger := maskLogger;
      this.level := level;
      this.colorScheme := colorScheme;
      this.env := env;
      exited := false;
    }

    /** The message a record carries: the caller prefix, then the (coloured) message. */
    function Text(lvl: ZapLevel, msg: string, caller: string): string
    {
      "source=" + caller + " " + Paint(env, colorScheme, FromZapLevel(lvl), msg)
    }

    /** The key/value tail a record carries: masked when a mask processor is installed. */
    function Masked(args: seq<Value>): seq<Value>
      reads maskLogger
    {
      if maskLogger == null then args else Processed(maskLogger.maskHandlers, args)
    }

    /** The levels log dispatches; DPanic, Panic and Fatal reach no engine. */
    predicate Dispatched(lvl: ZapLevel) { ZapDebug <= lvl <= ZapError }

    /** What one log call leaves behind in the two engines. */
    twostate predicate Logged(lvl: ZapLevel, msg: string, args: seq<Value>, caller: string)
      reads logger, errorLogger, maskLogger
    {
      var e := ZapEntry(lvl, Text(lvl, msg, caller), Masked(args), context);
      && logger.entries == old(logger.entries)
           + (if Dispatched(lvl) && ZapEnabled(logger.config.level, lvl) then [e] else [])
      && (errorLogger != null ==>
            errorLogger.entries == old(errorLogger.entries)
              + (if lvl == ZapError && ZapEnabled(errorLogger.config.level, lvl) then [e.(context := [])] else []))
    }

    /** log: colour, prefix the caller, mask the tail, then write to the engine(s) for the level. */
    method Log(lvl: ZapLevel, msg: string, args: seq<Value>, caller: string)
      requires Valid()
      requires maskLogger != null ==> !ProcessPanics(maskLogger.maskHandlers, args)
      modifies logger, errorLogger
      ensures Logged(lvl, msg, args, caller)
    {
      var text := msg;
      if colorScheme.Some? {
        text := env.colorize(colorScheme.value, FromZapLevel(lvl), text);
      }
      text := "source=" + caller + " " + text;
      var tail := args;
      if maskLogger != null {
        var a := new Value[|args|](i requires 0 <= i < |args| => args[i]);
        assert a[..] == args;
        a := maskLogger.Process(a);
        tail := a[..];
      }
      if lvl == ZapDebug || lvl == ZapInfo || lvl == ZapWarn {
        logger.Write(ZapEntry(lvl, text, tail, context));
      } else if lvl == ZapError {
        logger.Write(ZapEntry(lvl, text, tail, context));
        if errorLogger != null {
          errorLogger.Write(ZapEntry(lvl, text, tail, []));
        }
      }
    }

    /** The message of a `*f` call: the format itself when there are no arguments. */
    function Formatted(format: string, args: seq<Value>): (r: string)
      ensures args == [] ==> r == format
    {
      if |args| == 0 then format else env.sprintf(format, args)
    }

    method Debug(msg: string, args: seq<Value>, caller: string)
      requires Valid() && (maskLogger != null ==> !ProcessPanics(maskLogger.maskHandlers, args))
      modifies logger, errorLogger
      ensures Logged(ZapDebug, msg, args, caller)
    {
      Log(ZapDebug, msg, args, caller);
    }

    method Debugf(format: string, args: seq<Value>, caller: string)
      requires Valid()
      modifies logger, errorLogger
      ensures Logged(ZapDebug, Formatted(format, args), [], caller)
    {
      Log(ZapDebug, Formatted(format, args), [], caller);
    }

    method Info(msg: string, args: seq<Value>, caller: string)
      requires Valid() && (maskLogger != null ==> !ProcessPanics(maskLogger.maskHandlers, args))
      modifies logger, errorLogger
      ensures Logged(ZapInfo, msg, args, caller)
    {
      Log(ZapInfo, msg, args, caller);
    }

    method Infof(format: string, args: seq<Value>, caller: string)
      requires Valid()
      modifies logger, errorLogger
      ensures Logged(ZapInfo, Formatted(format, args), [], caller)
    {
      Log(ZapInfo, Formatted(format, args), [], caller);
    }

    method Warn(msg: string, args: seq<Value>, caller: string)
      requires Valid() && (maskLogger != null ==> !ProcessPanics(maskLogger.maskHandlers, args))
      modifies logger, errorLogger
      ensures Logged(ZapWarn, msg, args, caller)
    {
      Log(ZapWarn, msg, args, caller);
    }

    method Warnf(format: string, args: seq<Value>, caller: string)
      requires Valid()
      modifies logger, errorLogger
      ensures Logged(ZapWarn, Formatted(format, args), [], caller)
    {
      Log(ZapWarn, Formatted(format, args), [], caller);
    }

    method Error(msg: string, args: seq<Value>, caller: string)
      requires Valid() && (maskLogger != null ==> !ProcessPanics(maskLogger.maskHandlers, args))
      modifies logger, errorLogger
      ensures Logged(ZapError, msg, args, caller)
    {
      Log(ZapError, msg, args, caller);
    }

    method Errorf(format: string, args: seq<Value>, caller: string)
      requires Valid()
      modifies logger, errorLogger
      ensures Logged(ZapError, Formatted(format, args), [], caller)
    {
      Log(ZapError, Formatted(format, args), [], caller);
    }

    /** Fatal: log at zap's Fatal level, which no engine receives, then exit. */
    method Fatal(msg: string, args: seq<Value>, caller: string)
      requires Valid() && (maskLogger != null ==> !ProcessPanics(maskLogger.maskHandlers, args))
      modifies this, logger, errorLogger
      ensures Logged(ZapFatal, msg, args, caller)
      ensures logger.entries == old(logger.entries)
      ensures errorLogger != null ==> errorLogger.entries == old(errorLogger.entries)
      ensures exited
    {
      Log(ZapFatal, msg, args, caller);
      exited := true;
    }

    /** Fatalf: log at Error, so both engines can receive it, then exit. */
    method Fatalf(format: string, args: seq<Value>, caller: string)
      requires Valid()
      modifies this, logger, errorLogger
      ensures Logged(ZapError, Formatted(format, args), [], caller)
      ensures exited
    {
      Log(ZapError, Formatted(format, args), [], caller);
      exited := true;
    }

    /** SetLevel: zap's level cannot change after construction, so nothing changes. */
    method SetLevel(level: Level)
      ensures unchanged(this, logger)
    {
    }

    /**
     * WithFields: a logger on the same engine with the fields added to its context; the
     * error engine, the mask processor and the colour scheme are not carried over.
     */
    method WithFields(fields: Fields) returns (child: ZapLogger)
      ensures fresh(child) && child.Valid() && !child.exited
      ensures child.logger == logger && child.context == context + [fields]
      ensures child.errorLogger == null && child.maskLogger == null && child.colorScheme.None?
      ensures child.level == level && child.env == env
    {
      child := new ZapLogger(logger, context + [fields], null, null, level, None, env);
    }
  }

  /**
   * What newZapLogger builds on a timezone that loads: two distinct empty engines with the
   * main and error configurations, no context, the colour scheme only when colour is
   * enabled, and a mask processor over the given rules exactly when rules are given.
   */
  ghost predicate Built(z: ZapLogger, opts: Options, env: Env, maskRules: Maybe<seq<MaskHandler>>)
    reads z, z.logger, z.errorLogger, z.maskLogger
  {
    && env.loadLocation(opts.timeZone).Success?
    && var loc := env.loadLocation(opts.timeZone).value;
    && z.Valid() && !z.exited
    && z.logger.config == MainConfig(opts, loc) && z.logger.entries == []
    && z.errorLogger != null
    && z.errorLogger.config == ErrorConfig(opts, loc) && z.errorLogger.entries == []
    && z.context == [] && z.level == opts.level && z.env == env
    && z.colorScheme == (if opts.colorEnabled then opts.colorScheme else None)
    && (z.maskLogger == null <==> maskRules.None?)
    && (maskRules.Some? ==> z.maskLogger != null && z.maskLogger.maskHandlers == maskRules.value)
  }

  /** newZapLogger: fails exactly when the timezone does not load, with that error; otherwise Built. */
  method NewZapLogger(opts: Options, env: Env, maskRules: Maybe<seq<MaskHandler>>) returns (r: Result<ZapLogger>)
    ensures r.Failure? <==> env.loadLocation(opts.timeZone).Failure?
    ensures r.Failure? ==> r.error == env.loadLocation(opts.timeZone).error
    ensures r.Success? ==>
      && fresh(r.value) && fresh(r.value.logger) && fresh(r.value.errorLogger)
      && (maskRules.Some? ==> fresh(r.value.maskLogger))
      && Built(r.value, opts, env, maskRules)
  {
    var location := env.loadLocation(opts.timeZone);
    if location.Failure? {
      return Failure(location.error);
    }
    var logger := new ZapEngine(MainConfig(opts, location.value));
    var errorLogger := new ZapEngine(ErrorConfig(opts, location.value));
    var processor: MaskProcessor? := null;
    if maskRules.Some? {
      processor := new MaskProcessor(maskRules.value);
    }
    var z := new ZapLogger(logger, [], errorLogger, processor, opts.level,
                           if opts.colorEnabled then opts.colorScheme else None, env);
    return Success(z);
  }
}
