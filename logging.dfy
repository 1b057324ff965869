/** The logger of server/utils/logger.js: five ordered levels, a
    module-level configuration that `configureLogger` merges and repairs, the
    level gate and console routing of `actualLog`, the default formatter, and
    the `withLogging` wrapper.

    Levels and `minLevel` are the strings the source passes around, so that
    unknown names behave as in the source. A configured `minLevel` of `""`
    stands for any falsy value (`undefined`, `null`, `""`, `0`): all of them
    miss in `logLevelOrder`, and a comparison with `undefined` is false. */
module Logging {
  import opened JsValues

  // ---------------------------------------------------------------------------
  // Levels (lines 1-15)
  // ---------------------------------------------------------------------------

  datatype Level = DEBUG | INFO | WARN | ERROR | NONE

  /** The `LogLevel` string of a level. */
  function Name(l: Level): string
  {
    match l
    case DEBUG => "DEBUG"
    case INFO => "INFO"
    case WARN => "WARN"
    case ERROR => "ERROR"
    case NONE => "NONE"
  }

  /** `logLevelOrder`. */
  function Rank(l: Level): nat
  {
    match l
    case DEBUG => 1
    case INFO => 2
    case WARN => 3
    case ERROR => 4
    case NONE => 5
  }

  /** The level a string names, if any (`Object.values(LogLevel).includes`). */
  function ParseLevel(s: string): (r: Option<Level>)
    ensures r.Some? ==> Name(r.value) == s
  {
    if s == "DEBUG" then Some(DEBUG)
    else if s == "INFO" then Some(INFO)
    else if s == "WARN" then Some(WARN)
    else if s == "ERROR" then Some(ERROR)
    else if s == "NONE" then Some(NONE)
    else None
  }

  /** `logLevelOrder[s]`, `None` standing for `undefined`: defined exactly
      for the five level names, with a rank from 1 to 5. */
  function RankOf(s: string): (r: Option<nat>)
    ensures r.Some? <==> ParseLevel(s).Some?
    ensures r.Some? ==> 1 <= r.value <= 5
  {
    match ParseLevel(s)
    case Some(l) => Some(Rank(l))
    case None => None
  }

  /** Level names and levels correspond one to one. */
  lemma LevelNameRoundTrip(l: Level, s: string)
    ensures ParseLevel(Name(l)) == Some(l)
    ensures ParseLevel(s) == Some(l) <==> s == Name(l)
  {
  }

  /** The levels are strictly ordered DEBUG < INFO < WARN < ERROR < NONE,
      and the order is total: `Rank` is injective. */
  lemma LevelsStrictlyOrdered(a: Level, b: Level)
    ensures Rank(DEBUG) < Rank(INFO) < Rank(WARN) < Rank(ERROR) < Rank(NONE)
    ensures Rank(a) == Rank(b) ==> a == b
  {
  }

  // ---------------------------------------------------------------------------
  // Configuration (lines 17-45)
  // ---------------------------------------------------------------------------

  /** The `formatter` option: the built-in default, a caller-supplied
      function, or a falsy value. */
  datatype Formatter = DefaultFormatter | CustomFormatter(id: nat) | NoFormatter

  /** `currentLoggerConfig`; `customOutputIsFunction` records whether
      `customOutputFn` is a function. */
  datatype LoggerConfig = LoggerConfig(
    minLevel: string,
    output: string,
    filePath: string,
    customOutputIsFunction: bool,
    formatter: Formatter,
    structured: bool)

  /** The object passed to `configureLogger`: `None` for a key it does not
      have. */
  datatype ConfigPatch = ConfigPatch(
    minLevel: Option<string>,
    output: Option<string>,
    filePath: Option<string>,
    customOutputIsFunction: Option<bool>,
    formatter: Option<Formatter>,
    structured: Option<bool>)

  const DefaultConfig := LoggerConfig("INFO", "console", "./app.log", false, DefaultFormatter, false)
  const NoPatch := ConfigPatch(None, None, None, None, None, None)

  /** A configured `minLevel` is a level name or falsy. */
  predicate MinLevelOk(c: LoggerConfig)
  {
    c.minLevel == "" || ParseLevel(c.minLevel).Some?
  }

  function Pick<T>(supplied: Option<T>, current: T): T
  {
    if supplied.Some? then supplied.value else current
  }

  /** `{ ...current, ...patch }` (line 40). */
  function Merge(c: LoggerConfig, p: ConfigPatch): LoggerConfig
  {
    LoggerConfig(
      Pick(p.minLevel, c.minLevel),
      Pick(p.output, c.output),
      Pick(p.filePath, c.filePath),
      Pick(p.customOutputIsFunction, c.customOutputIsFunction),
      Pick(p.formatter, c.formatter),
      Pick(p.structured, c.structured))
  }

  /** Spreading `q` after `p`: keys of `q` win. */
  function Overlay(p: ConfigPatch, q: ConfigPatch): ConfigPatch
  {
    ConfigPatch(
      if q.minLevel.Some? then q.minLevel else p.minLevel,
      if q.output.Some? then q.output else p.output,
      if q.filePath.Some? then q.filePath else p.filePath,
      if q.customOutputIsFunction.Some? then q.customOutputIsFunction else p.customOutputIsFunction,
      if q.formatter.Some? then q.formatter else p.formatter,
      if q.structured.Some? then q.structured else p.structured)
  }

  /** A patch with no keys keeps the configuration; merging twice is merging
      once; merging `p` then `q` is merging `q` spread over `p`. */
  lemma MergeLaws(c: LoggerConfig, p: ConfigPatch, q: ConfigPatch)
    ensures Merge(c, NoPatch) == c
    ensures Merge(Merge(c, p), p) == Merge(c, p)
    ensures Merge(Merge(c, p), q) == Merge(c, Overlay(p, q))
  {
  }

  /** Whether the patch supplies a truthy `minLevel` that names no level
      (line 41). */
  predicate RejectsMinLevel(p: ConfigPatch)
  {
    p.minLevel.Some? && p.minLevel.value != "" && ParseLevel(p.minLevel.value).None?
  }

  /** The configuration after `configureLogger(p)` (lines 39-45): the merge,
      except that a rejected `minLevel` becomes INFO; a well-formed
      `minLevel` stays well-formed. */
  function Configured(c: LoggerConfig, p: ConfigPatch): (r: LoggerConfig)
    ensures r.(minLevel := c.minLevel) == Merge(c, p).(minLevel := c.minLevel)
    ensures RejectsMinLevel(p) ==> r.minLevel == Name(INFO)
    ensures MinLevelOk(c) ==> MinLevelOk(r)
  {
    var merged := Merge(c, p);
    if RejectsMinLevel(p) then merged.(minLevel := Name(INFO)) else merged
  }

  /** What `configureLogger` does to `minLevel`: a supplied level name or
      falsy value is installed, an absent key keeps the old value. */
  lemma ConfiguredMinLevel(c: LoggerConfig, p: ConfigPatch)
    ensures var r := Configured(c, p);
      && (p.minLevel.None? ==> r.minLevel == c.minLevel)
      && (p.minLevel.Some? && ParseLevel(p.minLevel.value).Some? ==> r.minLevel == p.minLevel.value)
      && (p.minLevel == Some("") ==> r.minLevel == "")
  {
  }

  const WarningPrefix := "[LoggerConfig] Invalid minLevel: "
  const WarningMiddle := ". Using default: "

  /** The `console.warn` text of line 42 as written: it reports the merged
      configuration's `minLevel`, which at that point is still the rejected
      value. */
  function InvalidLevelWarningAsWritten(merged: LoggerConfig, given: string): string
  {
    WarningPrefix + given + WarningMiddle + merged.minLevel
  }

  /** The warning naming the level that is actually installed. */
  function InvalidLevelWarning(given: string): string
  {
    WarningPrefix + given + WarningMiddle + Name(INFO)
  }

  /** As written, the warning's "default" is the rejected value itself,
      never the INFO that gets installed. */
  lemma WarningAsWrittenNamesRejectedValue(c: LoggerConfig, p: ConfigPatch)
    requires RejectsMinLevel(p)
    ensures var given := p.minLevel.value;
      && InvalidLevelWarningAsWritten(Merge(c, p), given) == WarningPrefix + given + WarningMiddle + given
      && InvalidLevelWarningAsWritten(Merge(c, p), given) != InvalidLevelWarning(given)
  {
    var given := p.minLevel.value;
    var n := |WarningPrefix + given + WarningMiddle|;
    assert InvalidLevelWarningAsWritten(Merge(c, p), given)[n..] == given;
    assert InvalidLevelWarning(given)[n..] == Name(INFO);
  }

  /** `configureLogger({ minLevel: 'VERBOSE' })` warns "Using default:
      VERBOSE" and installs INFO. */
  lemma WarningAsWrittenExample()
    ensures var p := NoPatch.(minLevel := Some("VERBOSE"));
      && InvalidLevelWarningAsWritten(Merge(DefaultConfig, p), "VERBOSE") ==
           "[LoggerConfig] Invalid minLevel: VERBOSE. Using default: VERBOSE"
      && Configured(DefaultConfig, p).minLevel == "INFO"
  {
  }

  /** The corrected warning names exactly the `minLevel` that
      `configureLogger` installs. */
  lemma WarningNamesInstalledLevel(c: LoggerConfig, p: ConfigPatch)
    requires RejectsMinLevel(p)
    ensures InvalidLevelWarning(p.minLevel.value) ==
      WarningPrefix + p.minLevel.value + WarningMiddle + Configured(c, p).minLevel
  {
  }

  // ---------------------------------------------------------------------------
  // The gate and console routing of actualLog (lines 47-83)
  // ---------------------------------------------------------------------------

  /** The first test of `actualLog` (line 48): a record is emitted when its
      level is known and does not rank below `minLevel`. */
  function Emits(level: string, minLevel: string): (b: bool)
    ensures b ==> ParseLevel(level).Some?
    ensures ParseLevel(level).Some? && ParseLevel(minLevel).Some? ==>
      (b <==> Rank(ParseLevel(level).value) >= Rank(ParseLevel(minLevel).value))
  {
    match RankOf(level)
    case None => false
    case Some(r) => !(RankOf(minLevel).Some? && r < RankOf(minLevel).value)
  }

  /** With `minLevel` NONE no DEBUG, INFO, WARN or ERROR record is emitted;
      only a record logged at NONE itself passes. */
  lemma NoneSilencesLevels(level: string)
    ensures Emits(level, Name(NONE)) <==> level == Name(NONE)
  {
  }

  /** With a falsy `minLevel` every record with a known level is emitted. */
  lemma FalsyMinLevelEmitsKnownLevels(level: string)
    ensures Emits(level, "") <==> ParseLevel(level).Some?
  {
  }

  /** Where an emitted record goes: a custom output function, one of the
      console methods, the `'file'` case, or nowhere (an `output` the
      `switch` does not match). */
  datatype Channel = CustomOutput | ConsoleError | ConsoleWarn | ConsoleLog | FileBranch | NoOutput

  /** Whether records take the `'file'` case of the `switch` (line 80). */
  predicate FileOutput(c: LoggerConfig)
  {
    !c.customOutputIsFunction && c.output == "file"
  }

  /** The output choice of `actualLog` (lines 70-84). */
  function Route(c: LoggerConfig, level: string): (ch: Channel)
    ensures c.customOutputIsFunction ==> ch == CustomOutput
    ensures !c.customOutputIsFunction && c.output == "console" ==>
      && (ch == ConsoleError <==> level == Name(ERROR))
      && (ch == ConsoleWarn <==> level == Name(WARN))
      && (ch == ConsoleLog <==> level != Name(ERROR) && level != Name(WARN))
    ensures ch in {ConsoleError, ConsoleWarn, ConsoleLog} ==> !c.customOutputIsFunction && c.output == "console"
    ensures ch == FileBranch <==> FileOutput(c)
  {
    if c.customOutputIsFunction then CustomOutput
    else if c.output == "console" then
      if level == "ERROR" then ConsoleError
      else if level == "WARN" then ConsoleWarn
      else ConsoleLog
    else if c.output == "file" then FileBranch
    else NoOutput
  }

  /** The error the `'file'` case throws: it reads `outputToConsole`, a
      `const` declared in the `'console'` case of the same `switch` block,
      which is never initialised on this path. */
  const OutputReferenceError := JsError("ReferenceError", "Cannot access 'outputToConsole' before initialization")

  /** Whether `actualLog` throws instead of writing: the record passes the
      gate and takes the `'file'` case. */
  predicate LogThrows(c: LoggerConfig, level: string)
  {
    Emits(level, c.minLevel) && Route(c, level) == FileBranch
  }

  /** What the logger writes: a record that passed the gate, with its channel
      and the fields handed to the formatter, or a configuration warning. */
  datatype Emission =
    | Record(channel: Channel, level: string, functionName: string, message: string)
    | Warning(text: string)

  /** The records `actualLog(level, functionName, message, …)` writes: one
      record exactly when the gate lets it through and the output does not
      throw, routed by `Route`. */
  function LogRecords(c: LoggerConfig, level: string, functionName: string, message: string): (r: seq<Emission>)
    ensures |r| <= 1
    ensures |r| == 1 <==> Emits(level, c.minLevel) && !FileOutput(c)
    ensures |r| == 1 ==> r[0].Record? && r[0].channel == Route(c, level) && r[0].channel != FileBranch
    ensures forall e :: e in r ==> e == Record(e.channel, level, functionName, message)
  {
    if Emits(level, c.minLevel) && Route(c, level) != FileBranch then
      [Record(Route(c, level), level, functionName, message)]
    else []
  }

  // ---------------------------------------------------------------------------
  // The default formatter (lines 22-35)
  // ---------------------------------------------------------------------------

  /** The `details` argument: absent or falsy, an object with no own keys,
      one whose serialization is `json`, or one whose serialization threw. */
  datatype Details = NoDetails | EmptyDetails | Serialized(json: string) | Unserializable(reason: string)

  const MaxDetailsLength: nat := 500

  /** Serialized details longer than 500 characters are cut to their first
      500 characters followed by "..."; shorter ones are kept verbatim, and
      the result is never longer than 503. */
  function Truncate(s: string): (r: string)
    ensures |s| <= MaxDetailsLength ==> r == s
    ensures |s| > MaxDetailsLength ==>
      |r| == MaxDetailsLength + 3 &&
      r[..MaxDetailsLength] == s[..MaxDetailsLength] &&
      r[MaxDetailsLength..] == "..."
    ensures |r| <= MaxDetailsLength + 3
  {
    if |s| > MaxDetailsLength then s[..MaxDetailsLength] + "..." else s
  }

  function Header(timestamp: string, level: string, functionName: string, message: string): string
  {
    timestamp + " [" + level + "] (" + functionName + "): " + message
  }

  const DetailsLabel := "\nDetails: "

  /** The default `formatter`: the header, then the details only when the
      details object has keys. */
  function FormatDefault(timestamp: string, level: string, functionName: string, message: string, details: Details)
    : (r: string)
    ensures Header(timestamp, level, functionName, message) <= r
    ensures r == Header(timestamp, level, functionName, message) <==> details.NoDetails? || details.EmptyDetails?
    ensures details.Serialized? ==>
      r[|Header(timestamp, level, functionName, message)|..] == DetailsLabel + Truncate(details.json)
  {
    var header := Header(timestamp, level, functionName, message);
    match details
    case NoDetails => header
    case EmptyDetails => header
    case Serialized(json) => header + DetailsLabel + Truncate(json)
    case Unserializable(reason) => header + DetailsLabel + "(Error stringifying details: " + reason + ")"
  }

  // ---------------------------------------------------------------------------
  // withLogging (lines 87-154)
  // ---------------------------------------------------------------------------

  const CalledMessage := "Called with arguments."
  const ReturnedMessage := "Returned successfully."
  const ThrewMessage := "Threw an error."

  /** The `options` of `withLogging`: `None` for a key left undefined.
      `profileTime` only adds a duration to the details and is left out. */
  datatype WrapperOptions = WrapperOptions(functionName: Option<string>, logLevel: Option<string>)

  /** The `functionName` option's default (line 89). */
  function WrapperName(option: Option<string>, originalName: string): (n: string)
    ensures option.Some? ==> n == option.value
    ensures option.None? ==> n != ""
    ensures option.None? && originalName != "" ==> n == originalName
  {
    match option
    case Some(name) => name
    case None => if originalName != "" then originalName else "anonymousFunction"
  }

  /** The `logLevel` option's default (line 90): a supplied level is kept,
      and a missing one becomes INFO, which is a known level. */
  function WrapperLevel(option: Option<string>): (l: string)
    ensures option.Some? ==> l == option.value
    ensures option.None? ==> ParseLevel(l) == Some(INFO)
  {
    match option
    case Some(level) => level
    case None => Name(INFO)
  }

  /** The wrapper's own test before "called" and "returned" (lines 111, 131):
      its level is not ERROR and ranks at or above `minLevel`. */
  predicate WrapperGate(logLevel: string, minLevel: string)
  {
    logLevel != Name(ERROR) && RankOf(logLevel).Some? && RankOf(minLevel).Some? &&
    RankOf(logLevel).value >= RankOf(minLevel).value
  }

  /** The wrapper's test before logging a failure (line 148). */
  predicate ErrorGate(minLevel: string)
  {
    RankOf(minLevel).Some? && Rank(ERROR) >= RankOf(minLevel).value
  }

  /** The records a wrapped call asks `actualLog` for, given how the wrapped
      function ended: at most "called" and one of "returned" or "threw", all
      under the wrapper's function name. */
  function WrapperRecords<R>(c: LoggerConfig, functionName: string, logLevel: string, outcome: Completion<R>)
    : (r: seq<Emission>)
    ensures |r| <= 2
    ensures forall e :: e in r ==> e.Record? && e.functionName == functionName
  {
    (if WrapperGate(logLevel, c.minLevel) then LogRecords(c, logLevel, functionName, CalledMessage) else []) +
    match outcome
    case Normal(_) =>
      if WrapperGate(logLevel, c.minLevel) then LogRecords(c, logLevel, functionName, ReturnedMessage) else []
    case Abrupt(_) =>
      if ErrorGate(c.minLevel) then LogRecords(c, Name(ERROR), functionName, ThrewMessage) else []
  }

  /** One call of a wrapped function: how it ends, what it writes, and
      whether the original function was invoked. */
  datatype WrappedCall<R> = WrappedCall(result: Completion<R>, records: seq<Emission>, invoked: bool)

  /** One call of the function `withLogging` returns (lines 94-152), the
      original function ending with `outcome` when it is invoked. A throw of
      the "called" log (line 112) is outside the `try` and rejects the call
      before the original function runs; a throw of the failure log
      (line 149) replaces the original error. */
  function WrapperCall<R>(c: LoggerConfig, functionName: string, logLevel: string, outcome: Completion<R>)
    : WrappedCall<R>
  {
    if WrapperGate(logLevel, c.minLevel) && LogThrows(c, logLevel) then
      WrappedCall(Abrupt(OutputReferenceError), [], false)
    else
      var records := WrapperRecords(c, functionName, logLevel, outcome);
      if outcome.Abrupt? && ErrorGate(c.minLevel) && LogThrows(c, Name(ERROR)) then
        WrappedCall(Abrupt(OutputReferenceError), records, true)
      else
        WrappedCall(outcome, records, true)
  }

  /** The wrapper's tests are stricter than `actualLog`'s gate, so each
      record the wrapper asks for passes that gate. */
  lemma GatesAgree(logLevel: string, minLevel: string)
    ensures WrapperGate(logLevel, minLevel) ==> Emits(logLevel, minLevel)
    ensures ErrorGate(minLevel) ==> Emits(Name(ERROR), minLevel)
  {
  }

  /** Unless records go to the `'file'` case, the wrapper is transparent:
      the original function is invoked, its outcome passes through
      unchanged, and the records are those the wrapper asks for. */
  lemma WrapperPassThrough<R>(c: LoggerConfig, functionName: string, logLevel: string, outcome: Completion<R>)
    ensures !FileOutput(c) ==>
      WrapperCall(c, functionName, logLevel, outcome) ==
      WrappedCall(outcome, WrapperRecords(c, functionName, logLevel, outcome), true)
  {
  }

  /** With the `'file'` output nothing is ever written. A wrapper whose
      "called" record passes its gate rejects with the ReferenceError and
      never invokes the original function; otherwise the function runs, and
      a failure that the wrapper logs is replaced by the ReferenceError. */
  lemma WrapperFileOutput<R>(c: LoggerConfig, functionName: string, logLevel: string, outcome: Completion<R>)
    requires FileOutput(c)
    ensures var call := WrapperCall(c, functionName, logLevel, outcome);
      && call.records == []
      && (call.invoked <==> !WrapperGate(logLevel, c.minLevel))
      && (WrapperGate(logLevel, c.minLevel) || (outcome.Abrupt? && ErrorGate(c.minLevel)) ==>
            call.result == Abrupt(OutputReferenceError))
      && (!WrapperGate(logLevel, c.minLevel) && (outcome.Normal? || !ErrorGate(c.minLevel)) ==>
            call.result == outcome)
  {
  }

  /** With the default INFO gate and the `'file'` output, a wrapper at the
      default level never runs the function it wraps. */
  lemma FileOutputRejectsDefaultWrapper<R>(functionName: string, outcome: Completion<R>)
    ensures var c := DefaultConfig.(output := "file");
      WrapperCall(c, functionName, WrapperLevel(None), outcome) ==
      WrappedCall(Abrupt(OutputReferenceError), [], false)
  {
  }

  /** Which records a wrapped call asks for: "called" then "returned" at the
      wrapper's level when it passes the wrapper's gate, and a failure record
      at ERROR exactly when ERROR ranks at or above `minLevel`; a wrapper at
      level ERROR never logs a successful call; the `'file'` output writes
      none of them. */
  lemma WrapperRecordsExact<R>(c: LoggerConfig, functionName: string, logLevel: string, outcome: Completion<R>)
    ensures var rs := WrapperRecords(c, functionName, logLevel, outcome);
      && (FileOutput(c) ==> rs == [])
      && (!FileOutput(c) && outcome.Normal? ==>
            rs == if WrapperGate(logLevel, c.minLevel) then
                    [Record(Route(c, logLevel), logLevel, functionName, CalledMessage),
                     Record(Route(c, logLevel), logLevel, functionName, ReturnedMessage)]
                  else [])
      && (!FileOutput(c) && outcome.Abrupt? ==>
            (ErrorGate(c.minLevel) <==>
               |rs| > 0 && rs[|rs| - 1] == Record(Route(c, Name(ERROR)), Name(ERROR), functionName, ThrewMessage)))
      && (logLevel == Name(ERROR) && outcome.Normal? ==> rs == [])
  {
  }

  /** For a configured level name and an output other than `'file'`, a
      failure is logged unless `minLevel` is NONE; a falsy `minLevel`, which
      lets `actualLog` emit every known level, silences the wrapper
      entirely. */
  lemma WrapperFailureLogging<R>(c: LoggerConfig, functionName: string, logLevel: string, e: JsError)
    ensures ParseLevel(c.minLevel).Some? && !FileOutput(c) ==>
      (Record(Route(c, Name(ERROR)), Name(ERROR), functionName, ThrewMessage)
         in WrapperRecords<R>(c, functionName, logLevel, Abrupt(e))
       <==> c.minLevel != Name(NONE))
    ensures c.minLevel == "" ==> WrapperRecords<R>(c, functionName, logLevel, Abrupt(e)) == []
  {
  }

  // ---------------------------------------------------------------------------
  // The module-level logger state
  // ---------------------------------------------------------------------------

  /** `currentLoggerConfig` together with everything written so far. */
  class Logger {
    var config: LoggerConfig
    var emitted: seq<Emission>

    ghost predicate Valid()
      reads this
    {
      MinLevelOk(config)
    }

    constructor ()
      ensures config == DefaultConfig && emitted == [] && Valid()
    {
      config := DefaultConfig;
      emitted := [];
    }

    /** configureLogger (lines 39-45): merge, warn with the text of line 42
        as written, then repair `minLevel`. */
    method Configure(patch: ConfigPatch)
      requires Valid()
      modifies this
      ensures Valid()
      ensures config == Configured(old(config), patch)
      ensures emitted == old(emitted) +
        (if RejectsMinLevel(patch)
         then [Warning(InvalidLevelWarningAsWritten(Merge(old(config), patch), patch.minLevel.value))]
         else [])
    {
      config := Merge(config, patch);
      if RejectsMinLevel(patch) {
        emitted := emitted + [Warning(InvalidLevelWarningAsWritten(config, patch.minLevel.value))];
        config := config.(minLevel := Name(INFO));
      }
    }

    /** actualLog (lines 47-84), up to the choice of channel; the `'file'`
        case throws. */
    method Log(level: string, functionName: string, message: string) returns (r: Completion<()>)
      requires Valid()
      modifies this
      ensures Valid()
      ensures config == old(config)
      ensures emitted == old(emitted) + LogRecords(config, level, functionName, message)
      ensures r == if LogThrows(config, level) then Abrupt(OutputReferenceError) else Normal(())
    {
      r := Normal(());
      if !Emits(level, config.minLevel) {
        return;
      }
      var channel := Route(config, level);
      if channel == FileBranch {
        r := Abrupt(OutputReferenceError);
        return;
      }
      emitted := emitted + [Record(channel, level, functionName, message)];
    }

    /** One call of the function `withLogging(f, options)` returns
        (lines 87-152), for a wrapped function that does not itself log or
        reconfigure the logger. `invoked` tells whether `f` ran. */
    method WithLogging<A, R>(f: A -> Completion<R>, args: A, originalName: string, options: WrapperOptions)
      returns (r: Completion<R>, ghost invoked: bool)
      requires Valid()
      modifies this
      ensures Valid()
      ensures config == old(config)
      ensures var call := WrapperCall(config, WrapperName(options.functionName, originalName),
                                      WrapperLevel(options.logLevel), f(args));
        && r == call.result
        && emitted == old(emitted) + call.records
        && invoked == call.invoked
    {
      var functionName := WrapperName(options.functionName, originalName);
      var logLevel := WrapperLevel(options.logLevel);
      if WrapperGate(logLevel, config.minLevel) {
        var called := Log(logLevel, functionName, CalledMessage);
        if called.Abrupt? {
          return Abrupt(called.error), false;
        }
      }
      invoked := true;
      r := f(args);
      match r {
        case Normal(_) =>
          if WrapperGate(logLevel, config.minLevel) {
            var returned := Log(logLevel, functionName, ReturnedMessage);
            // The "called" log passed the same gate without throwing, so the
            // throw that the `catch` of line 135 would take cannot happen.
            assert returned.Normal?;
          }
        case Abrupt(_) =>
          if ErrorGate(config.minLevel) {
            var threw := Log(Name(ERROR), functionName, ThrewMessage);
            if threw.Abrupt? {
              r := Abrupt(threw.error);
            }
          }
      }
    }
  }
}
