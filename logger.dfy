/**
 * The facade's severity ordinal and its configuration builder: the `With*`
 * option closures, their left-to-right application over a defaulted record, and
 * the closed set of backend names.
 */
module Logger {
  import opened Values
  import opened Runtime

  /** Go's `type Level int`: any integer, of which five are named. */
  type Level = int

  const DebugLevel: Level := 0
  const InfoLevel: Level := 1
  const WarnLevel: Level := 2
  const ErrorLevel: Level := 3
  const FatalLevel: Level := 4

  const DefaultLevel: Level := InfoLevel
  const DefaultLogFile := "./app.log"
  const DefaultErrorOutput := "./app_error.log"
  /** Go's time.DateTime layout. */
  const DateTime := "2006-01-02 15:04:05"
  const DefaultTimeFormat := DateTime

  /** One of the five named severities. */
  predicate IsLevel(l: Level) { DebugLevel <= l <= FatalLevel }

  /** The named severities are the integers 0..4, in increasing order. */
  lemma LevelOrder()
    ensures DebugLevel < InfoLevel < WarnLevel < ErrorLevel < FatalLevel
    ensures forall l :: IsLevel(l) <==> l in {0, 1, 2, 3, 4}
    ensures DefaultLevel == InfoLevel
  {
  }

  datatype LogRotation = LogRotation(filePath: string, maxSize: int, maxBackups: int, maxAge: int, compress: bool)

  /** The configuration record every adapter is built from. */
  datatype Options = Options(
    level: Level,
    jsonFormat: bool,
    filePath: string,
    addSource: bool,
    timeFormat: string,
    timeZone: string,
    errorOutput: string,
    logRotation: Maybe<LogRotation>,
    colorEnabled: bool,
    colorScheme: Maybe<ColorScheme>)

  /** The closures returned by the `With*` constructors, one constructor each. */
  datatype Option =
    | WithLevel(newLevel: Level)
    | WithJSONFormat
    | WithFileOutput(path: string)
    | WithAddSource
    | WithTimeFormat(format: string)
    | WithTimeZone(zone: string)
    | WithErrorOutPut(errorPath: string)
    | WithLogRotation(rotationPath: string, maxSize: int, maxBackups: int, maxAge: int, isCompress: bool)
    | WithColor
    | WithColorScheme(scheme: ColorScheme)

  /** The fields of Options, by name. */
  datatype Field =
    | LevelField | JSONFormatField | FilePathField | AddSourceField | TimeFormatField
    | TimeZoneField | ErrorOutputField | LogRotationField | ColorEnabledField | ColorSchemeField

  /** The one field an option writes. */
  function Touches(o: Option): Field
  {
    match o
    case WithLevel(_) => LevelField
    case WithJSONFormat => JSONFormatField
    case WithFileOutput(_) => FilePathField
    case WithAddSource => AddSourceField
    case WithTimeFormat(_) => TimeFormatField
    case WithTimeZone(_) => TimeZoneField
    case WithErrorOutPut(_) => ErrorOutputField
    case WithLogRotation(_, _, _, _, _) => LogRotationField
    case WithColor => ColorEnabledField
    case WithColorScheme(_) => ColorSchemeField
  }

  /** x and y hold the same value in every field other than f. */
  predicate AgreeExcept(x: Options, y: Options, f: Field)
  {
    && (f != LevelField ==> x.level == y.level)
    && (f != JSONFormatField ==> x.jsonFormat == y.jsonFormat)
    && (f != FilePathField ==> x.filePath == y.filePath)
    && (f != AddSourceField ==> x.addSource == y.addSource)
    && (f != TimeFormatField ==> x.timeFormat == y.timeFormat)
    && (f != TimeZoneField ==> x.timeZone == y.timeZone)
    && (f != ErrorOutputField ==> x.errorOutput == y.errorOutput)
    && (f != LogRotationField ==> x.logRotation == y.logRotation)
    && (f != ColorEnabledField ==> x.colorEnabled == y.colorEnabled)
    && (f != ColorSchemeField ==> x.colorScheme == y.colorScheme)
  }

  /** Running an option's closure on the draft record: it overwrites its own field and no other. */
  function Apply(o: Option, x: Options): Options
  {
    match o
    case WithLevel(l) => x.(level := l)
    case WithJSONFormat => x.(jsonFormat := true)
    case WithFileOutput(p) => x.(filePath := if p == "" then DefaultLogFile else p)
    case WithAddSource => x.(addSource := true)
    case WithTimeFormat(f) => x.(timeFormat := f)
    case WithTimeZone(z) => x.(timeZone := z)
    case WithErrorOutPut(p) => x.(errorOutput := if p == "" then DefaultErrorOutput else p)
    case WithLogRotation(p, size, backups, age, c) => x.(logRotation := Some(LogRotation(p, size, backups, age, c)))
    case WithColor => x.(colorEnabled := true)
    case WithColorScheme(s) => x.(colorScheme := Some(s))
  }

  /** Each option overwrites its own field and no other. */
  lemma ApplyWritesOneField(o: Option, x: Options)
    ensures AgreeExcept(x, Apply(o, x), Touches(o))
  {
  }

  /** The value an option writes into its field does not depend on the record it is applied to. */
  lemma ApplySameFieldOverrides(a: Option, b: Option, x: Options)
    requires Touches(a) == Touches(b)
    ensures Apply(b, Apply(a, x)) == Apply(b, x)
  {
  }

  /** Two options on different fields commute. */
  lemma ApplyDifferentFieldsCommute(a: Option, b: Option, x: Options)
    requires Touches(a) != Touches(b)
    ensures Apply(a, Apply(b, x)) == Apply(b, Apply(a, x))
  {
  }

  /** The options applied in order, first to last, starting from x. */
  function Fold(x: Options, opts: seq<Option>): Options
    decreases |opts|
  {
    if opts == [] then x else Apply(opts[|opts| - 1], Fold(x, opts[..|opts| - 1]))
  }

  /** Appending one option applies it last. */
  lemma FoldSnoc(x: Options, p: seq<Option>, o: Option)
    ensures Fold(x, p + [o]) == Apply(o, Fold(x, p))
  {
    assert (p + [o])[..|p|] == p;
  }

  /** Folding a pair applies its first element first. */
  lemma FoldPair(x: Options, a: Option, b: Option)
    ensures Fold(x, [a, b]) == Apply(b, Apply(a, x))
  {
    assert [] + [a] == [a];
    assert [a] + [b] == [a, b];
    FoldSnoc(x, [], a);
    FoldSnoc(x, [a], b);
    assert Fold(x, []) == x;
  }

  /** Applying p and then q is applying p + q. */
  lemma {:induction false} FoldAppend(x: Options, p: seq<Option>, q: seq<Option>)
    ensures Fold(x, p + q) == Fold(Fold(x, p), q)
    decreases |q|
  {
    if q == [] {
      assert p + q == p;
    } else {
      var q' := q[..|q| - 1];
      assert (p + q)[..|p + q| - 1] == p + q';
      assert (p + q)[|p + q| - 1] == q[|q| - 1];
      FoldAppend(x, p, q');
    }
  }

  /** Of two adjacent options on the same field, the later one wins and the earlier one is lost. */
  lemma LaterOptionOverrides(x: Options, p: seq<Option>, a: Option, b: Option, q: seq<Option>)
    requires Touches(a) == Touches(b)
    ensures Fold(x, p + [a, b] + q) == Fold(x, p + [b] + q)
  {
    var y := Fold(x, p);
    calc {
      Fold(x, p + [a, b] + q);
      { FoldAppend(x, p + [a, b], q); }
      Fold(Fold(x, p + [a, b]), q);
      { FoldAppend(x, p, [a, b]); }
      Fold(Fold(y, [a, b]), q);
      { FoldPair(y, a, b); FoldSnoc(y, [], b); ApplySameFieldOverrides(a, b, y); }
      Fold(Fold(y, [b]), q);
      { FoldAppend(x, p, [b]); }
      Fold(Fold(x, p + [b]), q);
      { FoldAppend(x, p + [b], q); }
      Fold(x, p + [b] + q);
    }
  }

  /** Adjacent options on different fields can be swapped without changing the result. */
  lemma DifferentFieldsCommute(x: Options, p: seq<Option>, a: Option, b: Option, q: seq<Option>)
    requires Touches(a) != Touches(b)
    ensures Fold(x, p + [a, b] + q) == Fold(x, p + [b, a] + q)
  {
    var y := Fold(x, p);
    calc {
      Fold(x, p + [a, b] + q);
      { FoldAppend(x, p + [a, b], q); }
      Fold(Fold(x, p + [a, b]), q);
      { FoldAppend(x, p, [a, b]); }
      Fold(Fold(y, [a, b]), q);
      { FoldPair(y, a, b); FoldPair(y, b, a); ApplyDifferentFieldsCommute(a, b, y); }
      Fold(Fold(y, [b, a]), q);
      { FoldAppend(x, p, [b, a]); }
      Fold(Fold(x, p + [b, a]), q);
      { FoldAppend(x, p + [b, a], q); }
      Fold(x, p + [b, a] + q);
    }
  }

  /** The record applyOptions starts from. */
  function Defaults(localZone: string): Options
  {
    Options(DefaultLevel, false, "", false, DateTime, localZone, "", None, false, None)
  }

  /** The colour step that follows the options: a default scheme when colour is on and none was given. */
  function InstallDefaultScheme(x: Options, scheme: ColorScheme): Options
  {
    if x.colorEnabled && x.colorScheme.None? then x.(colorScheme := Some(scheme)) else x
  }

  /** What applyOptions returns for the given options. */
  function ResolveOptions(opts: seq<Option>, env: Env): Options
  {
    InstallDefaultScheme(Fold(Defaults(env.localZone), opts), env.defaultScheme)
  }

  /** applyOptions: run every option on a defaulted record, left to right, then install the colour default. */
  method ApplyOptions(opts: seq<Option>, env: Env) returns (options: Options)
    ensures options == ResolveOptions(opts, env)
  {
    options := Options(DefaultLevel, false, "", false, DateTime, env.localZone, "", None, false, None);
    for i := 0 to |opts|
      invariant options == Fold(Defaults(env.localZone), opts[..i])
    {
      assert opts[..i + 1][..i] == opts[..i];
      options := Apply(opts[i], options);
    }
    assert opts[..|opts|] == opts;
    if options.colorEnabled && options.colorScheme.None? {
      options := options.(colorScheme := Some(env.defaultScheme));
    }
  }

  /** With no options, every field holds its documented default or Go zero value. */
  lemma NoOptionsDefaults(env: Env)
    ensures ResolveOptions([], env) == Options(InfoLevel, false, "", false, DateTime, env.localZone, "", None, false, None)
  {
  }

  /** The two path options replace an empty path by the default file and store any other path verbatim. */
  lemma PathOptions(p: string, x: Options)
    ensures Apply(WithFileOutput(p), x).filePath == (if p == "" then "./app.log" else p)
    ensures Apply(WithErrorOutPut(p), x).errorOutput == (if p == "" then "./app_error.log" else p)
  {
  }

  /** WithLogRotation stores its five arguments, in order, as the rotation policy. */
  lemma LogRotationStored(p: string, size: int, backups: int, age: int, c: bool, x: Options)
    ensures Apply(WithLogRotation(p, size, backups, age, c), x).logRotation.Some?
    ensures var r := Apply(WithLogRotation(p, size, backups, age, c), x).logRotation.value;
      r.filePath == p && r.maxSize == size && r.maxBackups == backups && r.maxAge == age && r.compress == c
  {
  }

  /** The colour step: a supplied scheme is kept, colour off leaves the scheme as given,
      and colour on without a scheme installs the default one. Nothing else changes. */
  lemma ColorSchemeAfterOptions(opts: seq<Option>, env: Env)
    ensures var before, after := Fold(Defaults(env.localZone), opts), ResolveOptions(opts, env);
      && after == before.(colorScheme := after.colorScheme)
      && (before.colorScheme.Some? ==> after.colorScheme == before.colorScheme)
      && (!before.colorEnabled ==> after.colorScheme == before.colorScheme)
      && (before.colorEnabled && before.colorScheme.None? ==> after.colorScheme == Some(env.defaultScheme))
  {
  }

  /** The option set DefaultLogger applies. */
  function DefaultLoggerOptions(): seq<Option>
  {
    [WithAddSource, WithLevel(DefaultLevel), WithTimeFormat(DefaultTimeFormat),
     WithFileOutput(DefaultLogFile), WithErrorOutPut(DefaultErrorOutput)]
  }

  /** DefaultLogger's configuration: call sites on, Info, DateTime, both default files, no colour. */
  lemma DefaultLoggerSettings(env: Env)
    ensures var o := ResolveOptions(DefaultLoggerOptions(), env);
      && o.addSource && o.level == InfoLevel && o.timeFormat == DateTime
      && o.filePath == "./app.log" && o.errorOutput == "./app_error.log"
      && !o.jsonFormat && o.timeZone == env.localZone && !o.colorEnabled && o.colorScheme.None?
  {
    var d := Defaults(env.localZone);
    var o := DefaultLoggerOptions();
    FoldSnoc(d, [], o[0]);
    assert [] + [o[0]] == o[..1];
    FoldSnoc(d, o[..1], o[1]);
    assert o[..1] + [o[1]] == o[..2];
    FoldSnoc(d, o[..2], o[2]);
    assert o[..2] + [o[2]] == o[..3];
    FoldSnoc(d, o[..3], o[3]);
    assert o[..3] + [o[3]] == o[..4];
    FoldSnoc(d, o[..4], o[4]);
    assert o[..4] + [o[4]] == o;
  }

  /** The backend names NewLoggerWithType accepts. */
  datatype LoggerType = SlogLogger | ZapLogger | LogrusLogger | KlogLogger

  function LoggerTypeName(t: LoggerType): string
  {
    match t
    case SlogLogger => "slog"
    case ZapLogger => "zap"
    case LogrusLogger => "logrus"
    case KlogLogger => "klog"
  }

  /** The switch of NewLoggerWithType: a name selects the backend it names, and any other name none. */
  function ParseLoggerType(name: string): (r: Maybe<LoggerType>)
    ensures r.Some? ==> LoggerTypeName(r.value) == name
    ensures r.None? <==> forall t: LoggerType :: LoggerTypeName(t) != name
  {
    if name == "slog" then Some(SlogLogger)
    else if name == "zap" then Some(ZapLogger)
    else if name == "logrus" then Some(LogrusLogger)
    else if name == "klog" then Some(KlogLogger)
    else None
  }
}
