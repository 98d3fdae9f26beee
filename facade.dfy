/**
 * The public constructors: NewLoggerWithType resolves the options once and hands them to
 * the adapter the type name selects; NewLogger and DefaultLogger go to the slog adapter.
 */
module Facade {
  import opened Values
  import opened Runtime
  import opened Logger
  import opened Mask
  import Zap
  import Logrus
  import Klog

  /**
   * A constructed logger.  The slog adapter is not part of this model: it is represented by
   * the options it was built from.
   */
  datatype Adapter =
    | Slog(options: Options)
    | ZapAdapter(z: Zap.ZapLogger)
    | LogrusAdapter(l: Logrus.LogrusLogger)
    | KlogAdapter(k: Klog.KlogLogger)

  /**
   * NewLoggerWithType.  `newSlog` stands for newSlogLogger's outcome (the error it returns,
   * or None), `maskRules` for the zap mask processor, `klog` for klog's package state.
   */
  method NewLoggerWithType(loggerType: string, options: seq<Option>, env: Env,
                           newSlog: Options -> Maybe<string>, maskRules: Maybe<seq<MaskHandler>>,
                           klog: Klog.KlogEngine)
    returns (r: Result<Adapter>)
    ensures ParseLoggerType(loggerType).None? ==> r == Failure("unknown logger type: " + loggerType)
    ensures ParseLoggerType(loggerType) == Some(SlogLogger) ==>
      var o := ResolveOptions(options, env);
      r == if newSlog(o).Some? then Failure(newSlog(o).value) else Success(Slog(o))
    ensures ParseLoggerType(loggerType) == Some(ZapLogger) ==>
      var o := ResolveOptions(options, env);
      && (r.Failure? <==> env.loadLocation(o.timeZone).Failure?)
      && (r.Failure? ==> r.error == env.loadLocation(o.timeZone).error)
      && (r.Success? ==> r.value.ZapAdapter? && fresh(r.value.z) && Zap.Built(r.value.z, o, env, maskRules))
    ensures ParseLoggerType(loggerType) == Some(LogrusLogger) ==>
      var o := ResolveOptions(options, env);
      && (r.Failure? <==> env.loadLocation(o.timeZone).Failure?)
      && (r.Failure? ==> r.error == env.loadLocation(o.timeZone).error)
      && (r.Success? ==> r.value.LogrusAdapter? && fresh(r.value.l) && Logrus.Built(r.value.l, o, env))
    ensures ParseLoggerType(loggerType) == Some(KlogLogger) ==>
      var o := ResolveOptions(options, env);
      r.Success? && r.value.KlogAdapter? && fresh(r.value.k) && Klog.Built(r.value.k, o, klog, env)
  {
    var opts := ApplyOptions(options, env);
    var t := ParseLoggerType(loggerType);
    if t.None? {
      return Failure("unknown logger type: " + loggerType);
    }
    match t.value
    case SlogLogger =>
      var err := newSlog(opts);
      if err.Some? {
        return Failure(err.value);
      }
      return Success(Slog(opts));
    case ZapLogger =>
      var z := Zap.NewZapLogger(opts, env, maskRules);
      if z.Failure? {
        return Failure(z.error);
      }
      return Success(ZapAdapter(z.value));
    case LogrusLogger =>
      var l := Logrus.NewLogrusLogger(opts, env);
      if l.Failure? {
        return Failure(l.error);
      }
      return Success(LogrusAdapter(l.value));
    case KlogLogger =>
      var k := Klog.NewKlogLogger(opts, klog, env);
      return Success(KlogAdapter(k.value));
  }

  /** NewLogger: NewLoggerWithType with the slog type. */
  method NewLogger(options: seq<Option>, env: Env, newSlog: Options -> Maybe<string>,
                   maskRules: Maybe<seq<MaskHandler>>, klog: Klog.KlogEngine)
    returns (r: Result<Adapter>)
    ensures var o := ResolveOptions(options, env);
      r == if newSlog(o).Some? then Failure(newSlog(o).value) else Success(Slog(o))
  {
    assert ParseLoggerType("slog") == Some(SlogLogger);
    r := NewLoggerWithType("slog", options, env, newSlog, maskRules, klog);
  }

  /** DefaultLogger: the slog adapter over the default option set. */
  method DefaultLogger(env: Env, newSlog: Options -> Maybe<string>) returns (r: Result<Adapter>)
    ensures var o := ResolveOptions(DefaultLoggerOptions(), env);
      r == if newSlog(o).Some? then Failure(newSlog(o).value) else Success(Slog(o))
    ensures r.Success? <==> newSlog(ResolveOptions(DefaultLoggerOptions(), env)).None?
    ensures r.Success? ==> r.value.Slog?
    ensures r.Success? ==>
      var o := r.value.options;
      && o.addSource && o.level == InfoLevel && o.timeFormat == DateTime
      && o.filePath == DefaultLogFile && o.errorOutput == DefaultErrorOutput
      && !o.jsonFormat && !o.colorEnabled && o.colorScheme.None? && o.timeZone == env.localZone
  {
    var opts := ApplyOptions(DefaultLoggerOptions(), env);
    DefaultLoggerSettings(env);
    var err := newSlog(opts);
    if err.Some? {
      return Failure(err.value);
    }
    return Success(Slog(opts));
  }

  /** The options of the scenarios below: the defaults with a Warn threshold. */
  lemma WarnLevelOnly(env: Env)
    ensures ResolveOptions([WithLevel(WarnLevel)], env) == Defaults(env.localZone).(level := WarnLevel)
  {
    assert [WithLevel(WarnLevel)] == [] + [WithLevel(WarnLevel)];
    FoldSnoc(Defaults(env.localZone), [], WithLevel(WarnLevel));
  }

  /**
   * The zap adapter at a Warn threshold, asked for Info("x") and then Error("y"): the main
   * logger keeps only "y", at Error, and the error logger holds the same record.
   */
  method ZapWarnThresholdScenario(env: Env, caller: string) returns (main: seq<Zap.ZapEntry>, errors: seq<Zap.ZapEntry>)
    requires env.loadLocation(env.localZone).Success?
    ensures |main| == 1 && main[0].level == Zap.ZapError
    ensures main[0].msg == "source=" + caller + " y"
    ensures errors == main
  {
    var opts := ApplyOptions([WithLevel(WarnLevel)], env);
    WarnLevelOnly(env);
    var r := Zap.NewZapLogger(opts, env, None);
    var z := r.value;
    z.Info("x", [], caller);
    z.Error("y", [], caller);
    main := z.logger.entries;
    errors := z.errorLogger.entries;
  }

  /**
   * The same scenario on the logrus adapter: the main logger keeps only the Error record
   * and the error logger receives it with a source field.
   */
  method LogrusWarnThresholdScenario(env: Env, caller: string)
    returns (main: seq<Logrus.LogrusEntry>, errors: seq<Logrus.LogrusEntry>)
    requires env.loadLocation(env.localZone).Success? && SprintsStrings(env)
    ensures |main| == 1 && main[0].level == Logrus.LogrusError && main[0].msg == "y"
    ensures |errors| == 1 && errors[0] == main[0].(fields := Logrus.SourceField(caller))
  {
    var opts := ApplyOptions([WithLevel(WarnLevel)], env);
    WarnLevelOnly(env);
    var r := Logrus.NewLogrusLogger(opts, env);
    var l := r.value;
    l.Info([Str("x")], caller);
    l.Error([Str("y")], caller);
    main := l.logger.entries;
    errors := l.errorLogger.entries;
  }

  /**
   * The klog adapter at a Warn threshold: Info is filtered by the adapter, Error is written
   * through ErrorS, and after SetLevel(Debug) an Info record gets through.
   */
  method KlogSetLevelScenario(env: Env) returns (records: seq<Klog.KlogRecord>)
    requires SprintsStrings(env)
    ensures |records| == 2
    ensures records[0].call == Klog.ErrorS && records[0].msg == "y"
    ensures records[1].call == Klog.InfoS && records[1].msg == "x"
    ensures records[0].kvs == [] && records[1].kvs == []
  {
    var e := new Klog.KlogEngine(0);
    var opts := ApplyOptions([WithLevel(WarnLevel)], env);
    WarnLevelOnly(env);
    var r := Klog.NewKlogLogger(opts, e, env);
    var k := r.value;
    k.Info([Str("x")]);
    k.Error([Str("y")]);
    k.SetLevel(DebugLevel);
    k.Info([Str("x")]);
    records := e.records;
  }
}
