/**
 * The logrus adapter: the facade's levels translated to logrus levels, the raw cast
 * SetLevel uses instead, two logrus loggers (main and error-only), and the adapter's
 * log call with its early returns and its error mirror.
 */
module Logrus {
  import opened Values
  import opened Runtime
  import opened Logger

  /** logrus.Level: a uint32 where a smaller number is a more severe level. */
  type LogrusLevel = int

  const LogrusPanic: LogrusLevel := 0
  const LogrusFatal: LogrusLevel := 1
  const LogrusError: LogrusLevel := 2
  const LogrusWarn: LogrusLevel := 3
  const LogrusInfo: LogrusLevel := 4
  const LogrusDebug: LogrusLevel := 5
  const LogrusTrace: LogrusLevel := 6

  /** ToLogrusLoggerLevel: each level to its namesake, anything else to Info. */
  function ToLogrusLoggerLevel(level: Level): (r: LogrusLevel)
    ensures LogrusFatal <= r <= LogrusDebug
    ensures IsLevel(level) ==> r + level == LogrusDebug
    ensures !IsLevel(level) ==> r == LogrusInfo
  {
    if level == DebugLevel then LogrusDebug
    else if level == InfoLevel then LogrusInfo
    else if level == WarnLevel then LogrusWarn
    else if level == ErrorLevel then LogrusError
    else if level == FatalLevel then LogrusFatal
    else LogrusInfo
  }

  /** FromLogrusLoggerLevel: the five namesakes back; Panic, Trace and unknown levels to the default level. */
  function FromLogrusLoggerLevel(z: LogrusLevel): (r: Level)
    ensures IsLevel(r)
    ensures LogrusFatal <= z <= LogrusDebug ==> r + z == LogrusDebug
    ensures !(LogrusFatal <= z <= LogrusDebug) ==> r == DefaultLevel
  {
    if z == LogrusDebug then DebugLevel
    else if z == LogrusInfo then InfoLevel
    else if z == LogrusWarn then WarnLevel
    else if z == LogrusError then ErrorLevel
    else if z == LogrusFatal then FatalLevel
    else DefaultLevel
  }

  /** Every one of the five levels survives the round trip. */
  lemma LogrusLevelRoundTrip(l: Level)
    requires IsLevel(l)
    ensures FromLogrusLoggerLevel(ToLogrusLoggerLevel(l)) == l
  {
  }

  /** The logrus levels the adapter produces are recovered exactly. */
  lemma LogrusLevelFromTo(z: LogrusLevel)
    requires LogrusFatal <= z <= LogrusDebug
    ensures ToLogrusLoggerLevel(FromLogrusLoggerLevel(z)) == z
  {
  }

  /** The translation reverses the order: a more severe facade level is a smaller logrus number. */
  lemma LogrusLevelReversed(a: Level, b: Level)
    requires IsLevel(a) && IsLevel(b) && a < b
    ensures ToLogrusLoggerLevel(a) > ToLogrusLoggerLevel(b)
  {
  }

  /** A logrus logger writes a record iff its own level is at least the record's number. */
  predicate LogrusEnabled(threshold: LogrusLevel, lvl: LogrusLevel) { threshold >= lvl }

  /** Filtering in logrus's terms agrees with filtering in the facade's terms. */
  lemma LogrusThreshold(t: Level, m: Level)
    requires IsLevel(t) && IsLevel(m)
    ensures LogrusEnabled(ToLogrusLoggerLevel(t), ToLogrusLoggerLevel(m)) <==> m >= t
  {
  }

  const Uint32Modulus := 0x1_0000_0000

  /** logrus.Level(level): Go's conversion of an int to a uint32 keeps the low 32 bits. */
  function LevelCast(level: Level): (r: LogrusLevel)
    ensures 0 <= r < Uint32Modulus
    ensures (r - level) % Uint32Modulus == 0
  {
    level % Uint32Modulus
  }

  /** For each of the five levels the cast disagrees with the construction-time translation. */
  lemma CastDiffersFromTranslation(l: Level)
    requires IsLevel(l)
    ensures LevelCast(l) != ToLogrusLoggerLevel(l)
  {
  }

  /**
   * After SetLevel(t), a record at facade level m passes iff t + m >= 5: SetLevel(Debug)
   * silences every level and SetLevel(Fatal) lets every level but Debug through.
   */
  lemma SetLevelThreshold(t: Level, m: Level)
    requires IsLevel(t) && IsLevel(m)
    ensures LogrusEnabled(LevelCast(t), ToLogrusLoggerLevel(m)) <==> t + m >= 5
    ensures t == DebugLevel ==> !LogrusEnabled(LevelCast(t), ToLogrusLoggerLevel(m))
    ensures t == FatalLevel ==> (LogrusEnabled(LevelCast(t), ToLogrusLoggerLevel(m)) <==> m >= InfoLevel)
  {
  }

  /** The adapter mirrors records whose logrus number is at least Error's: Error, Warn, Info and Debug, never Fatal. */
  predicate MirrorTest(lvl: LogrusLevel) { lvl >= LogrusError }

  /** Of the facade's levels, only Error both passes the mirror test and the error logger's threshold. */
  lemma MirrorReceivesOnlyError(m: Level)
    requires IsLevel(m)
    ensures MirrorTest(ToLogrusLoggerLevel(m)) <==> m <= ErrorLevel
    ensures (MirrorTest(ToLogrusLoggerLevel(m))
             && LogrusEnabled(ToLogrusLoggerLevel(ErrorLevel), ToLogrusLoggerLevel(m))) <==> m == ErrorLevel
  {
  }

  /** The formatter both loggers share: JSON or text, the time layout, the timezone. */
  datatype LogrusFormatter = LogrusFormatter(json: bool, timestampFormat: string, location: Location)

  /** One record as a logrus logger receives it. */
  datatype LogrusEntry = LogrusEntry(level: LogrusLevel, msg: string, fields: Fields)

  /** A *logrus.Logger: its settings, its current level and the records it has written. */
  class LogrusEngine {
    const formatter: LogrusFormatter
    const reportCaller: bool
    const outputs: seq<string>     // the writers, by the path handed to them
    var level: LogrusLevel
    var entries: seq<LogrusEntry>

    constructor (formatter: LogrusFormatter, reportCaller: bool, outputs: seq<string>, level: LogrusLevel)
      ensures this.formatter == formatter && this.reportCaller == reportCaller && this.outputs == outputs
      ensures this.level == level && entries == []
    {
      this.formatter := formatter;
      this.reportCaller := reportCaller;
      this.outputs := outputs;
      this.level := level;
      entries := [];
    }

    /** Logger.SetLevel. */
    method SetLevel(lvl: LogrusLevel)
      modifies this
      ensures level == lvl && entries == old(entries)
    {
      level := lvl;
    }

    /** Entry.Log: the record is kept iff the logger's level admits it. */
    method Log(lvl: LogrusLevel, msg: string, fields: Fields)
      modifies this
      ensures level == old(level)
      ensures entries == old(entries) + (if LogrusEnabled(level, lvl) then [LogrusEntry(lvl, msg, fields)] else [])
    {
      if LogrusEnabled(level, lvl) {
        entries := entries + [LogrusEntry(lvl, msg, fields)];
      }
    }

    /** Entry.Print: a record at Info. */
    method Print(msg: string, fields: Fields)
      modifies this
      ensures level == old(level)
      ensures entries == old(entries) + (if LogrusEnabled(level, LogrusInfo) then [LogrusEntry(LogrusInfo, msg, fields)] else [])
    {
      Log(LogrusInfo, msg, fields);
    }
  }

  /** The "source" field the adapter attaches. */
  function SourceField(caller: string): Fields
  {
    map["source" := Str(caller)]
  }

  /** logrusLogger. */
  class LogrusLogger {
    const logger: LogrusEngine
    const errorLogger: LogrusEngine?
    const level: Level
    const fields: Maybe<Fields>        // None is a nil logrus.Fields
    const colorScheme: Maybe<ColorScheme>
    const addSource: bool
    const env: Env

    /** The main and the error logger are two distinct loggers. */
    predicate Valid() { errorLogger != logger }

    constructor (logger: LogrusEngine, errorLogger: LogrusEngine?, level: Level, fields: Maybe<Fields>,
                 colorScheme: Maybe<ColorScheme>, addSource: bool, env: Env)
      ensures this.logger == logger && this.errorLogger == errorLogger && this.level == level
      ensures this.fields == fields && this.colorScheme == colorScheme && this.addSource == addSource
      ensures this.env == env
    {
      this.logger := logger;
      this.errorLogger := errorLogger;
      this.level := level;
      this.fields := fields;
      this.colorScheme := colorScheme;
      this.addSource := addSource;
      this.env := env;
    }

    /** The message of a record: the arguments printed, then coloured for the record's level. */
    function Text(lvl: LogrusLevel, args: seq<Value>): string
    {
      Paint(env, colorScheme, FromLogrusLoggerLevel(lvl), env.sprint(args))
    }

    /**
     * The one record the main logger is handed: with the stored fields at Info, else with a
     * source field, else bare at the requested level.
     */
    function Primary(lvl: LogrusLevel, args: seq<Value>, caller: string): (e: LogrusEntry)
      ensures e.msg == Text(lvl, args)
      ensures e.level == if fields.Some? then LogrusInfo else lvl
      ensures fields.Some? ==> e.fields == fields.value
      ensures fields.None? && addSource ==> e.fields == SourceField(caller)
      ensures fields.None? && !addSource ==> e.fields == map[]
    {
      if fields.Some? then LogrusEntry(LogrusInfo, Text(lvl, args), fields.value)
      else if addSource then LogrusEntry(lvl, Text(lvl, args), SourceField(caller))
      else LogrusEntry(lvl, Text(lvl, args), map[])
    }

    /** Whether the error logger is handed a copy: only on the plain path, and only when the mirror test passes. */
    predicate Mirrored(lvl: LogrusLevel)
    {
      fields.None? && !addSource && errorLogger != null && MirrorTest(lvl)
    }

    /** What one log call leaves behind in the two loggers. */
    twostate predicate Logged(lvl: LogrusLevel, args: seq<Value>, caller: string)
      reads logger, errorLogger
    {
      var e := Primary(lvl, args, caller);
      && logger.level == old(logger.level)
      && logger.entries == old(logger.entries) + (if LogrusEnabled(logger.level, e.level) then [e] else [])
      && (errorLogger != null ==>
            && errorLogger.level == old(errorLogger.level)
            && errorLogger.entries == old(errorLogger.entries)
                 + (if Mirrored(lvl) && LogrusEnabled(errorLogger.level, lvl)
                    then [LogrusEntry(lvl, Text(lvl, args), SourceField(caller))] else []))
    }

    /** log: print and colour the message, then take the first route that applies. */
    method Log(lvl: LogrusLevel, args: seq<Value>, caller: string)
      requires Valid()
      modifies logger, errorLogger
      ensures Logged(lvl, args, caller)
    {
      var msg := env.sprint(args);
      if colorScheme.Some? {
        msg := env.colorize(colorScheme.value, FromLogrusLoggerLevel(lvl), msg);
      }
      if fields.Some? {
        logger.Print(msg, fields.value);
        return;
      }
      if addSource {
        logger.Log(lvl, msg, SourceField(caller));
        return;
      }
      logger.Log(lvl, msg, map[]);
      if errorLogger != null && lvl >= LogrusError {
        errorLogger.Log(lvl, msg, SourceField(caller));
      }
    }

    /** The single argument a `*f` call hands to log. */
    function Formatted(format: string, args: seq<Value>): (r: seq<Value>)
      ensures |r| == 1 && r[0].Str?
    {
      [Str(env.sprintf(format, args))]
    }

    method Debug(args: seq<Value>, caller: string)
      requires Valid()
      modifies logger, errorLogger
      ensures Logged(LogrusDebug, args, caller)
    {
      Log(LogrusDebug, args, caller);
    }

    method Debugf(format: string, args: seq<Value>, caller: string)
      requires Valid()
      modifies logger, errorLogger
      ensures Logged(LogrusDebug, Formatted(format, args), caller)
    {
      Log(LogrusDebug, Formatted(format, args), caller);
    }

    method Info(args: seq<Value>, caller: string)
      requires Valid()
      modifies logger, errorLogger
      ensures Logged(LogrusInfo, args, caller)
    {
      Log(LogrusInfo, args, caller);
    }

    method Infof(format: string, args: seq<Value>, caller: string)
      requires Valid()
      modifies logger, errorLogger
      ensures Logged(LogrusInfo, Formatted(format, args), caller)
    {
      Log(LogrusInfo, Formatted(format, args), caller);
    }

    method Warn(args: seq<Value>, caller: string)
      requires Valid()
      modifies logger, errorLogger
      ensures Logged(LogrusWarn, args, caller)
    {
      Log(LogrusWarn, args, caller);
    }

    method Warnf(format: string, args: seq<Value>, caller: string)
      requires Valid()
      modifies logger, errorLogger
      ensures Logged(LogrusWarn, Formatted(format, args), caller)
    {
      Log(LogrusWarn, Formatted(format, args), caller);
    }

    method Error(args: seq<Value>, caller: string)
      requires Valid()
      modifies logger, errorLogger
      ensures Logged(LogrusError, args, caller)
    {
      Log(LogrusError, args, caller);
    }

    method Errorf(format: string, args: seq<Value>, caller: string)
      requires Valid()
      modifies logger, errorLogger
      ensures Logged(LogrusError, Formatted(format, args), caller)
    {
      Log(LogrusError, Formatted(format, args), caller);
    }

    /** Fatal: a record at logrus's Fatal level, never mirrored; logging at Fatal through Log does not exit. */
    method Fatal(args: seq<Value>, caller: string)
      requires Valid()
      modifies logger, errorLogger
      ensures Logged(LogrusFatal, args, caller)
      ensures errorLogger != null ==> errorLogger.entries == old(errorLogger.entries)
    {
      Log(LogrusFatal, args, caller);
    }

    method Fatalf(format: string, args: seq<Value>, caller: string)
      requires Valid()
      modifies logger, errorLogger
      ensures Logged(LogrusFatal, Formatted(format, args), caller)
      ensures errorLogger != null ==> errorLogger.entries == old(errorLogger.entries)
    {
      Log(LogrusFatal, Formatted(format, args), caller);
    }

    /** SetLevel: the main logger's level becomes the raw cast of the facade level. */
    method SetLevel(level: Level)
      modifies logger
      ensures logger.level == LevelCast(level) && logger.entries == old(logger.entries)
    {
      logger.SetLevel(LevelCast(level));
    }

    /**
     * WithFields: a view on the same main logger that stores the fields; the error logger,
     * the colour scheme and the source flag are not carried over.
     */
    method WithFields(fields: Maybe<Fields>) returns (child: LogrusLogger)
      ensures fresh(child) && child.Valid()
      ensures child.logger == logger && child.level == level && child.fields == fields
      ensures child.errorLogger == null && child.colorScheme.None? && !child.addSource && child.env == env
    {
      child := new LogrusLogger(logger, null, level, fields, None, false, env);
    }
  }

  /**
   * What newLogrusLogger builds on a timezone that loads: two distinct empty loggers with a
   * shared formatter, the caller reported on both when AddSource is set, the translated main
   * level writing to stdout and the file, Error on the error logger writing to the error
   * output, no fields, and the colour scheme only when colour is enabled.
   */
  ghost predicate Built(l: LogrusLogger, opts: Options, env: Env)
    reads l.logger, l.errorLogger
  {
    && env.loadLocation(opts.timeZone).Success?
    && var f := LogrusFormatter(opts.jsonFormat, opts.timeFormat, env.loadLocation(opts.timeZone).value);
    && l.Valid()
    && l.logger.formatter == f && l.logger.reportCaller == opts.addSource
    && l.logger.level == ToLogrusLoggerLevel(opts.level)
    && l.logger.outputs == ["stdout", opts.filePath] && l.logger.entries == []
    && l.errorLogger != null
    && l.errorLogger.formatter == f && l.errorLogger.reportCaller == opts.addSource
    && l.errorLogger.level == LogrusError
    && l.errorLogger.outputs == [opts.errorOutput] && l.errorLogger.entries == []
    && l.level == opts.level && l.fields.None? && l.addSource == opts.addSource && l.env == env
    && l.colorScheme == (if opts.colorEnabled then opts.colorScheme else None)
  }

  /** newLogrusLogger: fails exactly when the timezone does not load, with that error; otherwise Built. */
  method NewLogrusLogger(opts: Options, env: Env) returns (r: Result<LogrusLogger>)
    ensures r.Failure? <==> env.loadLocation(opts.timeZone).Failure?
    ensures r.Failure? ==> r.error == env.loadLocation(opts.timeZone).error
    ensures r.Success? ==>
      fresh(r.value) && fresh(r.value.logger) && fresh(r.value.errorLogger) && Built(r.value, opts, env)
  {
    var location := env.loadLocation(opts.timeZone);
    if location.Failure? {
      return Failure(location.error);
    }
    var formatter := LogrusFormatter(opts.jsonFormat, opts.timeFormat, location.value);
    var logger := new LogrusEngine(formatter, opts.addSource, ["stdout", opts.filePath], ToLogrusLoggerLevel(opts.level));
    var errorLogger := new LogrusEngine(formatter, opts.addSource, [opts.errorOutput], ToLogrusLoggerLevel(ErrorLevel));
    var l := new LogrusLogger(logger, errorLogger, opts.level, None,
                              if opts.colorEnabled then opts.colorScheme else None, opts.addSource, env);
    return Success(l);
  }
}
