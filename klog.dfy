/**
 * The klog adapter: a threshold filter on the facade's own levels, the loop that keeps
 * the well-formed key/value pairs, and the choice of klog call for each level.  klog's
 * package-level state (its flags and writers) is one engine object shared by every adapter.
 */
module Klog {
  import opened Values
  import opened Runtime
  import opened Logger

  /** The klog entry points the adapter calls. */
  datatype KlogCall =
    | V5InfoSDepth     // klog.V(5).InfoSDepth(2, ...)
    | InfoS
    | InfoSDepth       // klog.InfoSDepth(2, ...)
    | Warningf         // klog.Warningf("%s %v", ...)
    | WarningfDepth    // klog.WarningfDepth(2, "%s %v", ...)
    | ErrorS           // klog.ErrorS(nil, ...)
    | ErrorfDepth      // klog.ErrorfDepth(2, "%s %v", ...)

  /** The severity klog files a call under. */
  function Severity(c: KlogCall): string
  {
    match c
    case Warningf | WarningfDepth => "WARNING"
    case ErrorS | ErrorfDepth => "ERROR"
    case _ => "INFO"
  }

  /** Whether a call asks klog to attribute the record to the adapter's caller (depth 2). */
  predicate AtCallerDepth(c: KlogCall)
  {
    c.V5InfoSDepth? || c.InfoSDepth? || c.WarningfDepth? || c.ErrorfDepth?
  }

  /** The dispatch in log: one call per level; levels outside Debug..Error take the Info path. */
  function CallFor(level: Level, addSource: bool): KlogCall
  {
    if level == DebugLevel then V5InfoSDepth
    else if level == InfoLevel then (if addSource then InfoSDepth else InfoS)
    else if level == WarnLevel then (if addSource then WarningfDepth else Warningf)
    else if level == ErrorLevel then (if addSource then ErrorfDepth else ErrorS)
    else (if addSource then InfoSDepth else InfoS)
  }

  /**
   * Each level is filed under its own severity (Fatal under INFO), Debug always goes through
   * the verbosity-5 path, and every other level is attributed to the caller iff addSource.
   */
  lemma CallForRouting(level: Level, addSource: bool)
    ensures Severity(CallFor(level, addSource))
      == if level == WarnLevel then "WARNING" else if level == ErrorLevel then "ERROR" else "INFO"
    ensures CallFor(level, addSource).V5InfoSDepth? <==> level == DebugLevel
    ensures level != DebugLevel ==> (AtCallerDepth(CallFor(level, addSource)) <==> addSource)
  {
  }

  /**
   * The pairs the kvs loop keeps: walking the arguments two at a time, a pair whose key is
   * a string is kept, any other pair is skipped, and a trailing unpaired element is dropped.
   */
  function KeyValues(args: seq<Value>): (kvs: seq<Value>)
    ensures |kvs| % 2 == 0 && |kvs| <= |args|
    decreases |args|
  {
    if |args| < 2 then []
    else (if args[0].Str? then [args[0], args[1]] else []) + KeyValues(args[2..])
  }

  /** Every key of the result, at an even position, is a string. */
  lemma {:induction false} KeyValuesKeysAreStrings(args: seq<Value>)
    ensures forall j :: 0 <= j < |KeyValues(args)| && j % 2 == 0 ==> KeyValues(args)[j].Str?
    decreases |args|
  {
    if |args| >= 2 {
      var head: seq<Value> := if args[0].Str? then [args[0], args[1]] else [];
      KeyValuesKeysAreStrings(args[2..]);
      assert KeyValues(args) == head + KeyValues(args[2..]);
      forall j | 0 <= j < |KeyValues(args)| && j % 2 == 0 ensures KeyValues(args)[j].Str? {
        if j >= |head| { assert KeyValues(args)[j] == KeyValues(args[2..])[j - |head|]; }
      }
    }
  }

  /** One step of the walk. */
  lemma KeyValuesStep(args: seq<Value>)
    requires |args| >= 2
    ensures KeyValues(args) == (if args[0].Str? then [args[0], args[1]] else []) + KeyValues(args[2..])
  {
  }

  /** A trailing unpaired argument contributes nothing. */
  lemma {:induction false} KeyValuesDropsTrailing(p: seq<Value>, x: Value)
    requires |p| % 2 == 0
    ensures KeyValues(p + [x]) == KeyValues(p)
    decreases |p|
  {
    if |p| >= 2 {
      assert (p + [x])[2..] == p[2..] + [x];
      KeyValuesDropsTrailing(p[2..], x);
    }
  }

  /** A complete pair at the end is kept iff its key is a string. */
  lemma {:induction false} KeyValuesSnoc(p: seq<Value>, k: Value, v: Value)
    requires |p| % 2 == 0
    ensures KeyValues(p + [k, v]) == KeyValues(p) + (if k.Str? then [k, v] else [])
    decreases |p|
  {
    if |p| == 0 {
      assert p + [k, v] == [k, v];
      assert [k, v][2..] == [];
    } else {
      assert (p + [k, v])[2..] == p[2..] + [k, v];
      KeyValuesSnoc(p[2..], k, v);
    }
  }

  /** When every key is a string and nothing dangles, every argument is kept, in order. */
  lemma {:induction false} KeyValuesKeepsWellFormed(args: seq<Value>)
    requires |args| % 2 == 0
    requires forall j :: 0 <= j < |args| && j % 2 == 0 ==> args[j].Str?
    ensures KeyValues(args) == args
    decreases |args|
  {
    if |args| >= 2 {
      var rest := args[2..];
      forall j | 0 <= j < |rest| && j % 2 == 0 ensures rest[j].Str? { assert rest[j] == args[j + 2]; }
      KeyValuesKeepsWellFormed(rest);
      assert [args[0], args[1]] + rest == args;
    }
  }

  /** Each kept value is the argument right after its key: a kept pair is a pair of the arguments. */
  lemma {:induction false} KeyValuesArePairs(args: seq<Value>, j: nat)
    requires j < |KeyValues(args)| && j % 2 == 0
    ensures exists i :: (0 <= i < |args| - 1 && i % 2 == 0
                         && args[i] == KeyValues(args)[j] && args[i + 1] == KeyValues(args)[j + 1])
    decreases |args|
  {
    var head: seq<Value> := if args[0].Str? then [args[0], args[1]] else [];
    var rest := args[2..];
    KeyValuesStep(args);
    var kvs := KeyValues(args);
    assert kvs == head + KeyValues(rest);
    if j < |head| {
      assert j == 0 && kvs[0] == args[0] && kvs[1] == args[1];
    } else {
      var k := j - |head|;
      assert kvs[j] == KeyValues(rest)[k] && kvs[j + 1] == KeyValues(rest)[k + 1];
      KeyValuesArePairs(rest, k);
      var i :| (0 <= i < |rest| - 1 && i % 2 == 0
                && rest[i] == KeyValues(rest)[k] && rest[i + 1] == KeyValues(rest)[k + 1]);
      assert args[i + 2] == rest[i] && args[i + 3] == rest[i + 1];
    }
  }

  /** The kvs loop of log, with its break on a dangling element and its skip of non-string keys. */
  method CollectKeyValues(args: seq<Value>) returns (kvs: seq<Value>)
    ensures kvs == KeyValues(args)
  {
    kvs := [];
    var i := 0;
    while i < |args|
      invariant 0 <= i <= |args| && i % 2 == 0
      invariant kvs == KeyValues(args[..i])
      decreases |args| - i
    {
      if i + 1 >= |args| {
        assert args == args[..i] + [args[i]];
        KeyValuesDropsTrailing(args[..i], args[i]);
        break;
      }
      assert args[..i + 2] == args[..i] + [args[i], args[i + 1]];
      KeyValuesSnoc(args[..i], args[i], args[i + 1]);
      if !args[i].Str? {
        i := i + 2;
        continue;
      }
      kvs := kvs + [args[i], args[i + 1]];
      i := i + 2;
    }
    if i == |args| {
      assert args[..i] == args;
    }
  }

  /** One record as klog receives it: the call, the message and the key/value list. */
  datatype KlogRecord = KlogRecord(call: KlogCall, msg: string, kvs: seq<Value>)

  /** klog's package state: the -v verbosity and the records it has written. */
  class KlogEngine {
    const verbosity: int
    var records: seq<KlogRecord>

    constructor (verbosity: int)
      ensures this.verbosity == verbosity && records == []
    {
      this.verbosity := verbosity;
      records := [];
    }

    /** klog.V(5) is off below verbosity 5; every other call is written. */
    predicate Accepts(c: KlogCall) { c.V5InfoSDepth? ==> verbosity >= 5 }

    method Emit(r: KlogRecord)
      modifies this
      ensures records == old(records) + (if Accepts(r.call) then [r] else [])
    {
      if Accepts(r.call) {
        records := records + [r];
      }
    }
  }

  /** The adapter filters a record iff its threshold is above the record's level. */
  predicate Passes(threshold: Level, level: Level) { !(threshold > level) }

  /** klogLogger. */
  class KlogLogger {
    var level: Level
    const filePath: string
    const addSource: bool
    const colorScheme: Maybe<ColorScheme>
    const errorOutput: string
    const engine: KlogEngine
    const env: Env
    var exited: bool                     // os.Exit was called

    constructor (level: Level, filePath: string, addSource: bool, colorScheme: Maybe<ColorScheme>,
                 errorOutput: string, engine: KlogEngine, env: Env)
      ensures this.level == level && this.filePath == filePath && this.addSource == addSource
      ensures this.colorScheme == colorScheme && this.errorOutput == errorOutput
      ensures this.engine == engine && this.env == env && !exited
    {
      this.level := level;
      this.filePath := filePath;
      this.addSource := addSource;
      this.colorScheme := colorScheme;
      this.errorOutput := errorOutput;
      this.engine := engine;
      this.env := env;
      exited := false;
    }

    /** The record log hands to klog for a level that passes the filter. */
    function Record(lvl: Level, msg: string, args: seq<Value>): KlogRecord
    {
      KlogRecord(CallFor(lvl, addSource), Paint(env, colorScheme, lvl, msg), KeyValues(args))
    }

    /** What one log call leaves behind: nothing when filtered, else the one record klog accepts. */
    twostate predicate Logged(lvl: Level, msg: string, args: seq<Value>)
      reads this, engine
    {
      && level == old(level)
      && engine.records == old(engine.records)
           + (if Passes(level, lvl) && engine.Accepts(CallFor(lvl, addSource))
              then [Record(lvl, msg, args)] else [])
    }

    /** log: filter, colour, collect the pairs, dispatch by level. */
    method Log(lvl: Level, msg: string, args: seq<Value>)
      modifies engine
      ensures Logged(lvl, msg, args)
    {
      if level > lvl {
        return;
      }
      var text := msg;
      if colorScheme.Some? {
        text := env.colorize(colorScheme.value, lvl, text);
      }
      var kvs := CollectKeyValues(args);
      engine.Emit(KlogRecord(CallFor(lvl, addSource), text, kvs));
    }

    method Debug(args: seq<Value>)
      modifies engine
      ensures Logged(DebugLevel, env.sprint(args), [])
    {
      Log(DebugLevel, env.sprint(args), []);
    }

    method Debugf(format: string, args: seq<Value>)
      modifies engine
      ensures Logged(DebugLevel, env.sprintf(format, args), [])
    {
      Log(DebugLevel, env.sprintf(format, args), []);
    }

    method Info(args: seq<Value>)
      modifies engine
      ensures Logged(InfoLevel, env.sprint(args), [])
    {
      Log(InfoLevel, env.sprint(args), []);
    }

    method Infof(format: string, args: seq<Value>)
      modifies engine
      ensures Logged(InfoLevel, env.sprintf(format, args), [])
    {
      Log(InfoLevel, env.sprintf(format, args), []);
    }

    method Warn(args: seq<Value>)
      modifies engine
      ensures Logged(WarnLevel, env.sprint(args), [])
    {
      Log(WarnLevel, env.sprint(args), []);
    }

    method Warnf(format: string, args: seq<Value>)
      modifies engine
      ensures Logged(WarnLevel, env.sprintf(format, args), [])
    {
      Log(WarnLevel, env.sprintf(format, args), []);
    }

    method Error(args: seq<Value>)
      modifies engine
      ensures Logged(ErrorLevel, env.sprint(args), [])
    {
      Log(ErrorLevel, env.sprint(args), []);
    }

    method Errorf(format: string, args: seq<Value>)
      modifies engine
      ensures Logged(ErrorLevel, env.sprintf(format, args), [])
    {
      Log(ErrorLevel, env.sprintf(format, args), []);
    }

    /** Fatal: logged as an Error (so a Fatal threshold filters it), then exit. */
    method Fatal(args: seq<Value>)
      modifies this, engine
      ensures Logged(ErrorLevel, env.sprint(args), [])
      ensures exited
    {
      Log(ErrorLevel, env.sprint(args), []);
      exited := true;
    }

    method Fatalf(format: string, args: seq<Value>)
      modifies this, engine
      ensures Logged(ErrorLevel, env.sprintf(format, args), [])
      ensures exited
    {
      Log(ErrorLevel, env.sprintf(format, args), []);
      exited := true;
    }

    /** SetLevel: every later log call filters against the new threshold. */
    method SetLevel(level: Level)
      modifies this
      ensures this.level == level && exited == old(exited)
    {
      this.level := level;
    }

    /** WithFields: a copy of the settings; the fields themselves are not kept anywhere. */
    method WithFields(fields: Fields) returns (child: KlogLogger)
      ensures fresh(child) && !child.exited
      ensures child.level == level && child.filePath == filePath && child.addSource == addSource
      ensures child.colorScheme == colorScheme && child.errorOutput == errorOutput
      ensures child.engine == engine && child.env == env
    {
      child := new KlogLogger(level, filePath, addSource, colorScheme, errorOutput, engine, env);
    }
  }

  /**
   * What newKlogLogger builds: the options' level, file, source flag and error output, the
   * colour scheme whether or not colour is enabled, over the given klog state.
   */
  ghost predicate Built(k: KlogLogger, opts: Options, engine: KlogEngine, env: Env)
    reads k
  {
    && !k.exited
    && k.level == opts.level && k.filePath == opts.filePath && k.addSource == opts.addSource
    && k.colorScheme == opts.colorScheme && k.errorOutput == opts.errorOutput
    && k.engine == engine && k.env == env
  }

  /** newKlogLogger: always succeeds, with a fresh Built logger. */
  method NewKlogLogger(opts: Options, engine: KlogEngine, env: Env) returns (r: Result<KlogLogger>)
    ensures r.Success?
    ensures fresh(r.value) && Built(r.value, opts, engine, env)
  {
    var k := new KlogLogger(opts.level, opts.filePath, opts.addSource, opts.colorScheme, opts.errorOutput, engine, env);
    return Success(k);
  }
}
