# go-logger in Dafny

This project models the core of `go-logger`, a Go facade that puts one logging interface in
front of four backends: slog, zap, logrus and klog. The model covers:

- **Levels** (`logger.dfy`). The facade's five severities, Debug=0 … Fatal=4. A level is a
  plain `int`, as Go's `type Level int` is, so values outside 0..4 can occur.
- **Options** (`logger.dfy`). Each functional `Option` is a datatype constructor. `Apply`
  runs one of them, `Fold` runs a list of them left to right, and `ResolveOptions` is the
  whole of `applyOptions`: the defaults, then the fold, then the default colour scheme when
  colour is on and no scheme was given. `ApplyOptions` is the imperative loop, proved
  against `ResolveOptions`.
- **The mask pipeline** (`log_mask.dfy`). The three rules are the password rule, the phone
  rule and the address rule; the address rule is defined in the repository's test file. A
  rule the user writes is an opaque `Custom` function. `MaskProcessor.Process` rewrites an
  argument array in place, pair by pair, and is proved equal to the function `Processed`.
- **Three adapters** (`zap.dfy`, `logrus.dfy`, `klog.dfy`). Each backend engine is a class
  that records the entries it accepts, filtered by its own threshold rule:
  - zap accepts `lvl >= threshold`, with zapcore levels -1..5;
  - logrus accepts `threshold >= lvl`, with logrus levels Panic=0 … Trace=6;
  - klog's `V(5)` calls are dropped unless the verbosity is at least 5.

  Each adapter is a class whose `Log` method routes a call to one or two engines. Its
  contract is a twostate predicate `Logged`, which states the new engine contents exactly.
  The public methods (Debug … Fatalf, SetLevel, WithFields) and the constructors are modelled
  against these.
- **The facade** (`facade.dfy`). `NewLoggerWithType`, `NewLogger` and `DefaultLogger`, plus
  three end-to-end scenario methods.

Foreign behaviour is a parameter. `Runtime.Env` carries:

- the local time zone and `time.LoadLocation`;
- the default colour scheme and `ColorScheme.Colorize`;
- `fmt.Sprint` and `fmt.Sprintf`.

The caller string that `getCaller(3)` would compute is a `caller` argument of every zap and
logrus log method; the klog adapter never asks for it. `os.Exit` is an `exited` flag.

Where the code's behaviour is surprising, the model follows the code:

- `MaskProcessor.Process` indexes `args[i+1]` inside its handler loop (`log_mask.go:42-48`).
  With at least one handler registered, an odd-length argument list whose last element is a
  string panics. `MaskProcessor.Process` therefore requires `!ProcessPanics`, and
  `Mask.DanglingKeyPanics` exhibits the case.
- zap drops `stderr` from the main outputs whenever a file path is set: `OutputPaths` is
  assigned twice (`zap.go:48-55`).
- zap's `Fatal` logs at `FatalLevel`, which its `log` switch does not dispatch, so nothing is
  written before the exit (`zap.go:131-143`, `zap.go:186-189`). zap also ignores `AddSource`.
- The mask processor that `newZapLogger` installs reads `opts.MaskEnable` and
  `opts.maskRules` (`zap.go:82-84`). `Options` declares neither field, so in this model the
  rule list is an explicit input of `Zap.NewZapLogger`.
- logrus mirrors to the error logger only when neither structured fields nor `AddSource` are
  set. The mirror test `level >= ErrorLevel` admits Error, Warn, Info and Debug, but not
  Fatal. The error engine's threshold then keeps only Error. logrus's `Log` at `FatalLevel`
  does not exit.
- logrus `SetLevel` casts the facade level straight to `logrus.Level` (`logrus.go:190`)
  instead of translating it.
- klog keeps the colour scheme whether or not colour is enabled (`klog.go:61`). klog's
  `Fatal` logs at `ErrorLevel`, so a Fatal threshold filters it out before the exit.
- The zap adapter's log methods take `(msg, args...)`. The logrus and klog adapters take
  `(args...)`.

## Model

| member | source | states |
|---|---|---|
| Logger.LevelOrder | logger.go:11-26 | the five severities are the integers 0..4 in increasing order, and the default is Info |
| Logger.Apply | logger.go:152-244 | one option run on the record; its contract is carried by ApplyWritesOneField, ApplySameFieldOverrides, ApplyDifferentFieldsCommute, PathOptions and LogRotationStored |
| Logger.ApplyWritesOneField | logger.go:152-244 | every option writes exactly the field it is named after and leaves the other nine as they were |
| Logger.ApplySameFieldOverrides | logger.go:152-244 | of two options on the same field, applying both equals applying the second alone |
| Logger.ApplyDifferentFieldsCommute | logger.go:152-244 | two options on different fields commute |
| Logger.Fold | logger.go:254-256 | the options run in order; its contract is carried by FoldAppend, LaterOptionOverrides and DifferentFieldsCommute |
| Logger.FoldAppend | logger.go:254-256 | applying `p + q` equals applying `p` and then `q` (options run left to right) |
| Logger.LaterOptionOverrides | logger.go:254-256 | within any option list, of two adjacent options on one field the later wins and the earlier is lost |
| Logger.DifferentFieldsCommute | logger.go:254-256 | within any option list, adjacent options on different fields may be swapped without changing the result |
| Logger.ResolveOptions | logger.go:246-261 | the whole of applyOptions; ApplyOptions is proved equal to it, and NoOptionsDefaults, ColorSchemeAfterOptions and DefaultLoggerSettings state its results |
| Logger.ApplyOptions | logger.go:246-261 | the loop returns the defaults, folded with every option in order, then the default-scheme step |
| Logger.NoOptionsDefaults | logger.go:246-253 | with no options the result is level Info, text, no file, no source, DateTime, the local zone, no colour |
| Logger.PathOptions | logger.go:170-212 | both path options replace an empty path by their default file (`./app.log`, `./app_error.log`) and keep any other path verbatim |
| Logger.LogRotationStored | logger.go:214-226 | WithLogRotation stores its five arguments, in order, as the rotation policy |
| Logger.ColorSchemeAfterOptions | logger.go:257-259 | only the colour scheme can change after the fold; a given scheme is kept; colour on without a scheme installs the default one |
| Logger.DefaultLoggerSettings | logger.go:94-101 | DefaultLogger's options switch the call-site source on, with level Info, DateTime and both default files, and no JSON and no colour |
| Logger.ParseLoggerType | logger.go:79-86 | a name selects the backend it names; a name no backend carries selects none |
| Mask.MaskPassword | log_mask.go:61-66 | the password rule; its contract is PasswordMarkBehaviour |
| Mask.PasswordMarkBehaviour | log_mask.go:61-66 | the keys `password` and `pwd` map any value to `[****]`, and any other key leaves the value alone; the rule is idempotent |
| Mask.RedactPhoneNumbers | log_mask.go:74 | redaction keeps the string's length |
| Mask.RedactOnlyMasks | log_mask.go:74 | every character of the redacted string is either the original character or `*` |
| Mask.PhoneNumberMasked | log_mask.go:74 | eleven leading digits become the first three, four stars and the last four; the scan resumes after them |
| Mask.PhoneNumberMaskedAt | log_mask.go:74 | at any offset before which no match starts, the text before it is copied, the eleven digits become the first three, `****` and the last four, and the scan resumes after them |
| Mask.PhoneMaskAfterText | log_mask.go:74 | `a12345678901b` becomes `a123****8901b` |
| Mask.NoPhoneNumberUnchanged | log_mask.go:74 | a string with no run of eleven digits comes back unchanged |
| Mask.PhoneMaskNotIdempotent | log_mask.go:74 | on 18 digits the first pass masks digits 4-7, and a second pass masks again, so the rule is not idempotent |
| Mask.MaskPhone | log_mask.go:71-77 | the phone rule; its contract is PhoneMaskBehaviour, with the redaction lemmas RedactOnlyMasks, PhoneNumberMasked and NoPhoneNumberUnchanged |
| Mask.PhoneMaskBehaviour | log_mask.go:71-77 | only a string under the key `phone` is rewritten, and a string keeps its length |
| Mask.MaskAddress | logger_test.go:616-626 | the address rule; its contract is AddressMaskBehaviour |
| Mask.AddressMaskBehaviour | logger_test.go:616-626 | under `address`, a string longer than 4 keeps its first four characters plus `****` and a shorter one becomes `****`; other keys and non-strings pass through; the rule is idempotent |
| Mask.MaskAll | log_mask.go:44-46 | the registered handlers run in order on one value; its contract is MaskAllAppend and PasswordAndAddressCommute |
| Mask.MaskAllAppend | log_mask.go:44-46 | running handlers `h1 + h2` equals running `h1` and then `h2` on the value |
| Mask.PasswordAndAddressCommute | log_mask.go:44-46 | the password and address rules may be registered in either order |
| Mask.Processed | log_mask.go:38-50 | processing keeps the argument count |
| Mask.ProcessPanics | log_mask.go:42-48 | the inputs on which Process indexes past the end; DanglingKeyPanics exhibits one, and MaskProcessor.Process requires its absence |
| Mask.DanglingKeyPanics | log_mask.go:42-46 | `pwd, 1234, "dangling"` indexes past the end exactly when at least one handler is registered |
| Mask.ProcessedFrame | log_mask.go:42-48 | keys, and values whose key is not a string, are never changed; with no handlers nothing changes |
| Mask.ProcessedAppend | log_mask.go:31-46 | registering `h2` after `h1` equals processing with `h1` and then with `h2` |
| Mask.PasswordScenario | log_mask.go:38-66 | `password, secret123` becomes `password, [****]` |
| Mask.MaskProcessor.constructor | log_mask.go:24-28 | the processor holds exactly the given handlers |
| Mask.MaskProcessor.RegisterHandler | log_mask.go:31-35 | the new handlers are appended after the existing ones |
| Mask.MaskProcessor.Process | log_mask.go:38-50 | rewrites the caller's array in place to `Processed(handlers, old contents)` and returns the same array |
| Zap.ToZapLevel | zap.go:88-101 | the result is a zap level from Debug to Error; an unknown level maps to Info |
| Zap.FromZapLevel | zap.go:103-120 | the result is always a facade level; zap Fatal maps to Fatal, DPanic and Panic to Error, and an unknown zap level to the default (Info) |
| Zap.ZapLevelRoundTrip | zap.go:88-120 | from(to(l)) = l for every level except Fatal, which comes back as Error |
| Zap.ZapLevelFromTo | zap.go:88-120 | to(from(z)) = z for zap levels Debug to Error |
| Zap.ZapLevelMonotone | zap.go:88-101 | the translation preserves order, strictly below Fatal |
| Zap.ZapThreshold | zap.go:88-101 | a zap engine built from threshold t accepts exactly the levels m >= t; a Fatal threshold behaves as Error |
| Zap.BuildConfig | zap.go:29-44 | the shared production config: level, no caller, no stack trace, the options' encoding, format and zone; its contract is ZapConfigsBehaviour |
| Zap.MainConfig | zap.go:47-55 | the main configuration; its contract is ZapConfigsBehaviour |
| Zap.ErrorConfig | zap.go:52-59 | the error configuration; its contract is ZapConfigsBehaviour |
| Zap.ZapConfigsBehaviour | zap.go:29-59 | main and error configurations: levels, outputs (the file alone, or stderr), stack traces only on the error side, callers off, encoding, zone and format shared; the error config accepts only Error and Fatal |
| Zap.ZapEngine.constructor | zap.go:64-71 | a built engine has the given configuration and no entries |
| Zap.ZapEngine.Write | zap.go:133-141 | an entry is appended exactly when the engine's level enables it |
| Zap.ZapLogger.constructor | zap.go:72-84 | the fields are the given values and the logger has not exited |
| Zap.ZapLogger.Log | zap.go:122-144 | colour, a `source=` prefix and masked arguments; Debug, Info and Warn go to the main engine, Error to both engines; other levels write nothing |
| Zap.ZapLogger.Formatted | zap.go:150-154 | with no arguments the format string is used as it is |
| Zap.ZapLogger.Debug | zap.go:146-148 | logs at Debug |
| Zap.ZapLogger.Debugf | zap.go:149-155 | logs the formatted message at Debug with no arguments |
| Zap.ZapLogger.Info | zap.go:156-158 | logs at Info |
| Zap.ZapLogger.Infof | zap.go:159-165 | logs the formatted message at Info |
| Zap.ZapLogger.Warn | zap.go:166-168 | logs at Warn |
| Zap.ZapLogger.Warnf | zap.go:169-175 | logs the formatted message at Warn |
| Zap.ZapLogger.Error | zap.go:176-178 | logs at Error, to both engines |
| Zap.ZapLogger.Errorf | zap.go:179-185 | logs the formatted message at Error |
| Zap.ZapLogger.Fatal | zap.go:186-189 | leaves both engines unchanged and exits |
| Zap.ZapLogger.Fatalf | zap.go:190-197 | logs the formatted message at Error, then exits |
| Zap.ZapLogger.SetLevel | zap.go:199 | changes nothing |
| Zap.ZapLogger.WithFields | zap.go:200-205 | a child on the same engine with the fields added to its context, the same level, and no error logger, mask or colour |
| Zap.Built | zap.go:29-84 | the definition of a freshly built zap adapter: main and error configurations, empty engines, no context, colour only when enabled, a mask processor exactly when rules are given |
| Zap.NewZapLogger | zap.go:23-86 | fails exactly when the time zone does not load, with that error; otherwise two fresh engines with the main and error configurations, the scheme only when colour is on, and a mask processor exactly when rules are given |
| Logrus.ToLogrusLoggerLevel | logrus.go:108-123 | the result is a logrus level from Fatal to Debug, the mirror image (5 - l) of the facade level; an unknown level maps to Info |
| Logrus.FromLogrusLoggerLevel | logrus.go:125-140 | the result is always a facade level, 5 - z for Fatal to Debug; anything else (Panic, Trace) maps to Info |
| Logrus.LogrusLevelRoundTrip | logrus.go:108-140 | from(to(l)) = l for every facade level |
| Logrus.LogrusLevelFromTo | logrus.go:108-140 | to(from(z)) = z for logrus levels Fatal to Debug |
| Logrus.LogrusLevelReversed | logrus.go:108-123 | the translation reverses the order |
| Logrus.LogrusThreshold | logrus.go:87 | an engine set to to(t) accepts a record at to(m) exactly when m >= t |
| Logrus.LevelCast | logrus.go:190 | `logrus.Level(level)` is the level reduced modulo 2^32 |
| Logrus.CastDiffersFromTranslation | logrus.go:190 | for every facade level the cast differs from the translation |
| Logrus.SetLevelThreshold | logrus.go:190 | after SetLevel(t) a record at m passes exactly when t + m >= 5: SetLevel(Debug) silences everything and SetLevel(Fatal) admits Info and above |
| Logrus.MirrorReceivesOnlyError | logrus.go:161-165 | the mirror test admits Debug to Error, and of those the error engine accepts only Error |
| Logrus.LogrusEngine.constructor | logrus.go:54-92 | an engine has the given formatter, caller setting, outputs and level, and no entries |
| Logrus.LogrusEngine.SetLevel | logrus.go:87-88 | sets the level and keeps the entries |
| Logrus.LogrusEngine.Log | logrus.go:156-164 | appends the entry exactly when the engine's level admits it |
| Logrus.LogrusEngine.Print | logrus.go:149 | Print logs at Info |
| Logrus.LogrusLogger.constructor | logrus.go:93-104 | the fields are the given values |
| Logrus.LogrusLogger.Primary | logrus.go:148-160 | with fields: printed at Info carrying exactly those fields; otherwise with AddSource: at the level with a source field; otherwise at the level with no fields; the message is always the coloured print of the arguments |
| Logrus.LogrusLogger.Log | logrus.go:142-166 | one record on the main engine by the first route that applies, mirrored with a source field exactly when fields and AddSource are unset and the level passes the mirror test |
| Logrus.LogrusLogger.Formatted | logrus.go:169-189 | the formatted arguments are one string |
| Logrus.LogrusLogger.Debug | logrus.go:168 | logs at Debug |
| Logrus.LogrusLogger.Debugf | logrus.go:169-171 | logs the formatted message at Debug |
| Logrus.LogrusLogger.Info | logrus.go:172 | logs at Info |
| Logrus.LogrusLogger.Infof | logrus.go:173-175 | logs the formatted message at Info |
| Logrus.LogrusLogger.Warn | logrus.go:176-178 | logs at Warn |
| Logrus.LogrusLogger.Warnf | logrus.go:179-181 | logs the formatted message at Warn |
| Logrus.LogrusLogger.Error | logrus.go:182 | logs at Error |
| Logrus.LogrusLogger.Errorf | logrus.go:183-185 | logs the formatted message at Error |
| Logrus.LogrusLogger.Fatal | logrus.go:186 | logs at Fatal, with no mirrored record and no exit |
| Logrus.LogrusLogger.Fatalf | logrus.go:187-189 | logs the formatted message at Fatal, with no mirrored record |
| Logrus.LogrusLogger.SetLevel | logrus.go:190 | the main engine's level becomes the raw cast of the facade level |
| Logrus.LogrusLogger.WithFields | logrus.go:192-198 | a child on the same engine with the given fields and level, without error logger, colour or source |
| Logrus.Built | logrus.go:54-104 | the definition of a freshly built logrus adapter: shared formatter, caller reporting, levels and outputs of both loggers, colour only when enabled |
| Logrus.NewLogrusLogger | logrus.go:53-106 | fails exactly when the time zone does not load; otherwise the main engine writes to stdout and the file at the translated level, the error engine writes to the error output at Error, caller reporting follows AddSource, the scheme is set only when colour is on |
| Klog.CallFor | klog.go:87-114 | the klog call each level selects; its contract is CallForRouting |
| Klog.CallForRouting | klog.go:87-114 | Debug goes to `V(5).InfoSDepth`; every other level uses its depth variant exactly when AddSource is set; the severity matches the level (Info for Fatal and unknown levels) |
| Klog.KeyValues | klog.go:74-84 | the collected list has an even length and is no longer than the arguments |
| Klog.KeyValuesKeysAreStrings | klog.go:79-83 | every collected key is a string |
| Klog.KeyValuesDropsTrailing | klog.go:76-78 | a trailing unpaired argument is dropped |
| Klog.KeyValuesSnoc | klog.go:75-84 | one more pair is kept exactly when its key is a string |
| Klog.KeyValuesKeepsWellFormed | klog.go:74-84 | a well-formed key/value list is passed on unchanged |
| Klog.KeyValuesArePairs | klog.go:74-84 | every collected pair is an argument pair at an even index |
| Klog.CollectKeyValues | klog.go:74-84 | the loop collects exactly `KeyValues(args)` |
| Klog.KlogEngine.constructor | klog.go:22 | klog starts with the given verbosity and no records |
| Klog.KlogEngine.Emit | klog.go:89 | a record is kept unless it is a `V(5)` call below verbosity 5 |
| Klog.KlogLogger.constructor | klog.go:56-62 | the fields are the given values and the logger has not exited |
| Klog.Passes | klog.go:67-69 | the adapter's filter: a record passes unless the threshold is above its level; KlogLogger.Log and KlogSetLevelScenario use it |
| Klog.KlogLogger.Log | klog.go:65-116 | nothing below the threshold; otherwise one coloured record with the collected pairs, through the call the level selects |
| Klog.KlogLogger.Debug | klog.go:118-120 | logs `Sprint(args)` at Debug |
| Klog.KlogLogger.Debugf | klog.go:122-124 | logs `Sprintf(format, args)` at Debug |
| Klog.KlogLogger.Info | klog.go:126-128 | logs at Info |
| Klog.KlogLogger.Infof | klog.go:130-132 | logs the formatted message at Info |
| Klog.KlogLogger.Warn | klog.go:134-136 | logs at Warn |
| Klog.KlogLogger.Warnf | klog.go:138-140 | logs the formatted message at Warn |
| Klog.KlogLogger.Error | klog.go:142-144 | logs at Error |
| Klog.KlogLogger.Errorf | klog.go:146-148 | logs the formatted message at Error |
| Klog.KlogLogger.Fatal | klog.go:150-153 | logs at Error, then exits |
| Klog.KlogLogger.Fatalf | klog.go:155-159 | logs the formatted message at Error, then exits |
| Klog.KlogLogger.SetLevel | klog.go:161-163 | sets the threshold |
| Klog.KlogLogger.WithFields | klog.go:165-174 | a copy with the same settings, with the fields discarded |
| Klog.Built | klog.go:56-62 | the definition of a freshly built klog adapter: the options' settings, the colour scheme taken unconditionally |
| Klog.NewKlogLogger | klog.go:21-63 | always succeeds, with the options' level, file, source flag, scheme and error output |
| Facade.NewLoggerWithType | logger.go:106-121 | an unknown name fails with `unknown logger type: <name>`; each known name builds that adapter from the resolved options, with the adapter's own failure cases and error, and on success the adapter's whole `Built` guarantee |
| Facade.NewLogger | logger.go:89-91 | NewLogger is NewLoggerWithType with slog |
| Facade.DefaultLogger | logger.go:94-103 | the exact Result of slog over the resolved default options: slog's own error when it fails, otherwise the slog adapter with source on, Info, DateTime, both default files, text, no colour and the local zone |
| Facade.ZapWarnThresholdScenario | zap.go:122-144 | at a Warn threshold, Info then Error leaves one Error record on each zap engine |
| Facade.LogrusWarnThresholdScenario | logrus.go:142-166 | at a Warn threshold, Info then Error leaves one Error record with message `y` on the main engine and the same record with a source field on the error engine, when `fmt.Sprint` of one string is that string |
| Facade.KlogSetLevelScenario | klog.go:65-163 | at a Warn threshold, Info is filtered and Error goes through ErrorS with message `y`; after SetLevel(Debug), Info goes through InfoS with message `x`, when `fmt.Sprint` of one string is that string |

## Left out

- I/O is not modelled: opening files (`getOutput`), `io.MultiWriter`, rotation, encoders, time formatting and flushing. An engine records the entries it accepts, and the outputs and formats it was configured with.
- `zap.Config.Build` is assumed never to fail; its error paths (`zap.go:64-71`) are not modelled.
- klog's flag handling (`InitFlags`, `one_output`, `flag.Parse`), its writers and severity outputs (`klog.go:22-55`) are not modelled. `InitFlags` panicking on a second call is not modelled either. klog's package state is the shared `KlogEngine` passed to the constructor.
- The slog adapter (`newSlogLogger`) is not part of this model: its outcome is a parameter of the facade constructors.
- `Colorize`, `fmt.Sprint`, `fmt.Sprintf` and `time.LoadLocation` are opaque functions in `Runtime.Env`; the model does not capture what they compute, except that the scenarios assume (`Runtime.SprintsStrings`) that `fmt.Sprint` of one string is that string. `getCaller` is not computed: its result is the `caller` parameter of the zap and logrus log methods.
- `os.Exit` is modelled as an `exited` flag; the process does not stop.
- The caller prettyfier that logrus's formatters are given (`logrus.go:14-18`) is not modelled: it only shapes the text of the caller field, which the formatter model does not render.
- The mask processor's read lock and all concurrency are not modelled.
- Zap.ZapLogger.Log: `Process` runs on a fresh array copied from the arguments. The model does not capture the aliasing of the caller's variadic slice.
- Klog.KlogLogger.Log: the `"%s %v"` formatting that klog's `Warningf` and `ErrorfDepth` calls apply is not modelled. The record carries the message and the pairs.
- Zap.ZapLogger.WithFields: zap's sugared `With` takes the lone map as a dangling key: it drops it and logs an error about it. The model does not capture this; it appends the map to the context as one entry.
- Zap.ZapEngine.Write: keeps every enabled entry. `zap.NewProductionConfig()` (`zap.go:30`) turns on sampling, which after the first 100 entries per second with the same level and message keeps only every 100th; time and sampling are not modelled.
- Mask.AddressMaskBehaviour: slices by characters, whereas Go slices the string by bytes. The two agree on ASCII input only.
- Mask.RedactPhoneNumbers: models the regular expression `(\d{3})\d{4}(\d{4})` with ASCII digits and a leftmost, non-overlapping scan. It does not model a general regex engine.
- The `Logger` interface, the slog handler, `LogRotation` initialisation and the colour schemes' own code are not part of the core modelled here.
