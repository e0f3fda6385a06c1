/** The logger's configuration (logger.go): defaulting of empty fields, the
    encoder and output selected when the zap core is built, and the name given
    to a traced logger. Building the zap logger itself is reduced to the
    `Core` value that describes what `apply` hands to zap. */
module Config {
  import opened Wrappers
  import opened GoStrings
  import opened Levels
  import Filters
  import Writer

  /** The encoder `apply` picks. */
  datatype Encoder = ConsoleEncoder | JSONEncoder

  /** The stream the filter writer wraps. */
  datatype Output = Stdout | Stderr

  /** What `apply` builds: the zap core's encoder, the filter writer's output
      stream and filters, the level, and the caller options. */
  datatype Core = Core(
    encoder: Encoder,
    output: Output,
    filters: seq<Filters.Filter>,
    level: AtomicLevel,
    callerKey: GoString,
    callerSkip: int)

  /** The values `ConfigWillLoad` gives to empty fields. */
  const DefaultLevel: GoString := "debug"
  const DefaultEncoding: GoString := "console"
  const DefaultTraceUID: GoString := "uid"
  const DefaultTraceRequestID: GoString := "requestId"
  const DefaultTraceSpanID: GoString := "traceSpanId"
  const DefaultTraceBizID: GoString := "traceBizId"

  /** `value`, or `default` when `value` is empty. */
  function WithDefault(value: GoString, default: GoString): GoString
  {
    if value == [] then default else value
  }

  /** The encoder for an `Encoding` setting. */
  function EncoderFor(encoding: GoString): Encoder
  {
    if encoding == "console" then ConsoleEncoder else JSONEncoder
  }

  /** The stream for a `Level` setting. */
  function OutputFor(level: GoString): Output
  {
    if level == "debug" || level == "info" || level == "warn" then Stdout else Stderr
  }

  /** What `apply` builds from the settings, or the panic raised by
      `newFilterBySlice` while zap calls the core wrapper. */
  function BuildCore(re: Filters.Engine, level: GoString, encoding: GoString, callerKey: GoString,
                     callerSkip: int, filterSpecs: seq<GoString>): Result<Core, Filters.Panic>
  {
    var built := Filters.BuildFilters(re, filterSpecs).0;
    if built.Failure? then Failure(built.error)
    else Success(Core(EncoderFor(encoding), OutputFor(level), Writer.ChainFor(built.value),
                      NewAtomicLevelAt(level), callerKey, callerSkip))
  }

  /** `Logger`: the configuration fields, and `core` for the zap logger
      `apply` installs (`None` before the first successful `apply`). */
  class Logger {
    var level: GoString
    var encoding: GoString
    var traceUID: GoString
    var traceRequestID: GoString
    var traceSpanID: GoString
    var traceBizID: GoString
    var callerKey: GoString
    var callerSkip: int
    var filterSpecs: seq<GoString>
    var core: Option<Core>

    constructor (level: GoString, encoding: GoString, traceUID: GoString, traceRequestID: GoString,
                 traceSpanID: GoString, traceBizID: GoString, callerKey: GoString, callerSkip: int,
                 filterSpecs: seq<GoString>)
      ensures this.level == level && this.encoding == encoding
      ensures this.traceUID == traceUID && this.traceRequestID == traceRequestID
      ensures this.traceSpanID == traceSpanID && this.traceBizID == traceBizID
      ensures this.callerKey == callerKey && this.callerSkip == callerSkip
      ensures this.filterSpecs == filterSpecs && core == None
    {
      this.level, this.encoding := level, encoding;
      this.traceUID, this.traceRequestID := traceUID, traceRequestID;
      this.traceSpanID, this.traceBizID := traceSpanID, traceBizID;
      this.callerKey, this.callerSkip := callerKey, callerSkip;
      this.filterSpecs := filterSpecs;
      core := None;
    }

    /** The six fields `ConfigWillLoad` fills in are all set. */
    predicate Defaulted()
      reads this
    {
      && level != [] && encoding != []
      && traceUID != [] && traceRequestID != []
      && traceSpanID != [] && traceBizID != []
    }

    /** `logger.apply()`: pick the encoder from `encoding`, the output stream
        from `level`, build the filters from `filterSpecs` and install the
        result; a pattern that does not compile panics. */
    method Apply(re: Filters.Engine) returns (panicked: Option<Filters.Panic>)
      modifies this`core
      ensures match BuildCore(re, level, encoding, callerKey, callerSkip, filterSpecs)
        case Success(c) => core == Some(c) && panicked == None
        case Failure(p) => core == old(core) && panicked == Some(p)
    {
      var enc := if encoding == "console" then ConsoleEncoder else JSONEncoder;
      var out: Output;
      var built: Result<seq<Filters.Filter>, Filters.Panic>;
      var warned: seq<GoString>;  // the warnings go to the global logger
      if level == "debug" || level == "info" || level == "warn" {
        out := Stdout;
        built, warned := Filters.NewFilterBySlice(re, filterSpecs);
      } else {
        out := Stderr;
        built, warned := Filters.NewFilterBySlice(re, filterSpecs);
      }
      if built.Failure? {
        return Some(built.error);
      }
      core := Some(Core(enc, out, Writer.ChainFor(built.value), NewAtomicLevelAt(level),
                        callerKey, callerSkip));
      panicked := None;
    }

    /** The first half of `logger.ConfigWillLoad(ctx)`: fill in the empty
        fields among the level, the encoding and the four trace keys. */
    method FillDefaults()
      modifies this`level, this`encoding, this`traceUID, this`traceRequestID,
        this`traceSpanID, this`traceBizID
      ensures level == WithDefault(old(level), DefaultLevel)
      ensures encoding == WithDefault(old(encoding), DefaultEncoding)
      ensures traceUID == WithDefault(old(traceUID), DefaultTraceUID)
      ensures traceRequestID == WithDefault(old(traceRequestID), DefaultTraceRequestID)
      ensures traceSpanID == WithDefault(old(traceSpanID), DefaultTraceSpanID)
      ensures traceBizID == WithDefault(old(traceBizID), DefaultTraceBizID)
      ensures Defaulted()
      ensures old(Defaulted()) ==>
        && level == old(level) && encoding == old(encoding)
        && traceUID == old(traceUID) && traceRequestID == old(traceRequestID)
        && traceSpanID == old(traceSpanID) && traceBizID == old(traceBizID)
    {
      if level == [] {
        level := DefaultLevel;
      }
      if encoding == [] {
        encoding := DefaultEncoding;
      }
      if traceUID == [] {
        traceUID := DefaultTraceUID;
      }
      if traceRequestID == [] {
        traceRequestID := DefaultTraceRequestID;
      }
      if traceSpanID == [] {
        traceSpanID := DefaultTraceSpanID;
      }
      if traceBizID == [] {
        traceBizID := DefaultTraceBizID;
      }
    }

    /** `logger.ConfigWillLoad(ctx)`: fill in the empty fields, then
        `apply`. Caller key, caller skip and filter specs are left alone. */
    method ConfigWillLoad(re: Filters.Engine) returns (panicked: Option<Filters.Panic>)
      modifies this
      ensures level == WithDefault(old(level), DefaultLevel)
      ensures encoding == WithDefault(old(encoding), DefaultEncoding)
      ensures traceUID == WithDefault(old(traceUID), DefaultTraceUID)
      ensures traceRequestID == WithDefault(old(traceRequestID), DefaultTraceRequestID)
      ensures traceSpanID == WithDefault(old(traceSpanID), DefaultTraceSpanID)
      ensures traceBizID == WithDefault(old(traceBizID), DefaultTraceBizID)
      ensures callerKey == old(callerKey) && callerSkip == old(callerSkip)
      ensures filterSpecs == old(filterSpecs)
      ensures Defaulted()
      ensures match BuildCore(re, level, encoding, callerKey, callerSkip, filterSpecs)
        case Success(c) => core == Some(c) && panicked == None
        case Failure(p) => core == old(core) && panicked == Some(p)
    {
      FillDefaults();
      panicked := Apply(re);
    }

    /** The name `trace(ctx, logger)` gives the traced logger. */
    function TraceLoggerName(ctx: Context): GoString
      reads this
    {
      TraceName(ContextString(ctx, traceUID), ContextString(ctx, traceRequestID),
                ContextString(ctx, traceSpanID), ContextString(ctx, traceBizID))
    }
  }

  /** Defaulting is idempotent and always leaves a non-empty value. */
  lemma WithDefaultIdempotent(value: GoString, default: GoString)
    requires default != []
    ensures WithDefault(WithDefault(value, default), default) == WithDefault(value, default)
    ensures WithDefault(value, default) != []
  {
  }

  /** Only the encoding `console` selects the console encoder; an empty
      encoding, once defaulted, does too. */
  lemma EncoderSelection(encoding: GoString)
    ensures EncoderFor(encoding) == ConsoleEncoder <==> encoding == "console"
    ensures EncoderFor(WithDefault([], "console")) == ConsoleEncoder
    ensures EncoderFor("json") == JSONEncoder
  {
  }

  /** For the seven level names, the filter writer goes to stdout exactly
      for the levels no more severe than warn. */
  lemma OutputFollowsSeverity(lv: Level)
    ensures OutputFor(lv.Name()) == Stdout <==> lv.Severity() <= WarnLevel.Severity()
  {
  }

  /** An empty level, once defaulted, is debug on stdout. */
  lemma EmptyLevelIsDebugOnStdout()
    ensures OutputFor(WithDefault([], DefaultLevel)) == Stdout
    ensures LevelString2Level(WithDefault([], DefaultLevel)) == DebugLevel
  {
  }

  /** A level string that names no level is logged at info but routed to
      stderr. */
  lemma UnknownLevelGoesToStderr(level: GoString)
    requires forall lv: Level :: lv.Name() != level
    ensures LevelString2Level(level) == InfoLevel && OutputFor(level) == Stderr
  {
    UnknownNameIsInfo(level);
    assert DebugLevel.Name() != level && InfoLevel.Name() != level && WarnLevel.Name() != level;
  }

  /** `apply` succeeds exactly when every kept spec's pattern compiles, and
      its writer then holds the kept specs' filters, or the default filters
      when no spec is kept. Neither depends on the level, so the stdout and
      the stderr branch build the same filters. */
  lemma {:induction false} BuildCoreFilters(re: Filters.Engine, level: GoString, encoding: GoString,
                                            callerKey: GoString, callerSkip: int,
                                            filterSpecs: seq<GoString>)
    ensures BuildCore(re, level, encoding, callerKey, callerSkip, filterSpecs).Success?
        <==> Filters.KeptCompile(re, filterSpecs)
    ensures BuildCore(re, level, encoding, callerKey, callerSkip, filterSpecs).Success? ==>
        BuildCore(re, level, encoding, callerKey, callerSkip, filterSpecs).value.filters
        == Writer.ChainFor(Filters.FiltersOf(filterSpecs))
  {
    Filters.BuildFiltersSucceeds(re, filterSpecs);
  }

  // ---------------------------------------------------------------------
  // Trace names

  /** A value stored in a `context.Context`. */
  datatype ContextValue = StringValue(s: GoString) | OtherValue

  /** A `context.Context`, seen through `Value(key)` with string keys. */
  type Context = map<GoString, ContextValue>

  /** `ctx.Value(key).(string)`, or the empty string when the key is missing
      or its value is not a string. */
  function ContextString(ctx: Context, key: GoString): (s: GoString)
    ensures s != [] ==> key in ctx && ctx[key] == StringValue(s)
    ensures key in ctx && ctx[key].StringValue? ==> s == ctx[key].s
  {
    if key in ctx && ctx[key].StringValue? then ctx[key].s else []
  }

  /** The separator between the fields of a trace name. */
  const TraceSep: GoString := "]["

  /** `fmt.Sprintf("[%s][%s][%s][%s]", uid, requestID, spanId, bizId)`. */
  function TraceName(uid: GoString, requestID: GoString, spanID: GoString, bizID: GoString): GoString
  {
    "[" + uid + TraceSep + requestID + TraceSep + spanID + TraceSep + bizID + "]"
  }

  /** Reads the four fields back out of a trace name. */
  function ParseTraceName(name: GoString): Option<(GoString, GoString, GoString, GoString)>
  {
    if |name| < 2 || name[0] != '[' || name[|name| - 1] != ']' then None
    else
      var parts := Split(name[1..|name| - 1], TraceSep);
      if |parts| != 4 then None else Some((parts[0], parts[1], parts[2], parts[3]))
  }

  lemma JoinFour(a: GoString, b: GoString, c: GoString, d: GoString)
    ensures Join([a, b, c, d], TraceSep) == a + TraceSep + b + TraceSep + c + TraceSep + d
  {
    JoinCons(c, [d], TraceSep);
    assert [c] + [d] == [c, d];
    JoinCons(b, [c, d], TraceSep);
    assert [b] + [c, d] == [b, c, d];
    JoinCons(a, [b, c, d], TraceSep);
    assert [a] + [b, c, d] == [a, b, c, d];
  }

  lemma TraceSepUnbordered()
    ensures Unbordered(TraceSep)
  {
    assert TraceSep[1..][0] == '[' && TraceSep[..1][0] == ']';
  }

  /** The trace name is unambiguous: when no field contains `][`, the four
      fields can be read back from it. */
  lemma {:induction false} TraceNameRoundTrip(uid: GoString, requestID: GoString, spanID: GoString,
                                              bizID: GoString)
    requires !Contains(uid, TraceSep) && !Contains(requestID, TraceSep)
    requires !Contains(spanID, TraceSep) && !Contains(bizID, TraceSep)
    ensures ParseTraceName(TraceName(uid, requestID, spanID, bizID)) == Some((uid, requestID, spanID, bizID))
  {
    var parts := [uid, requestID, spanID, bizID];
    var inner := uid + TraceSep + requestID + TraceSep + spanID + TraceSep + bizID;
    JoinFour(uid, requestID, spanID, bizID);
    var name := TraceName(uid, requestID, spanID, bizID);
    assert name == "[" + inner + "]";
    assert name[1..|name| - 1] == inner;
    TraceSepUnbordered();
    JoinSplit(parts, TraceSep);
  }

  /** Every name that parses is the trace name of the fields read from it. */
  lemma {:induction false} ParseTraceNameSound(name: GoString)
    requires ParseTraceName(name).Some?
    ensures var (uid, requestID, spanID, bizID) := ParseTraceName(name).value;
      name == TraceName(uid, requestID, spanID, bizID)
  {
    var inner := name[1..|name| - 1];
    var parts := Split(inner, TraceSep);
    assert |parts| == 4;
    var (a, b, c, d) := (parts[0], parts[1], parts[2], parts[3]);
    assert ParseTraceName(name).value == (a, b, c, d);
    assert parts == [a, b, c, d];
    SplitJoin(inner, TraceSep);
    assert Join([a, b, c, d], TraceSep) == inner;
    TraceNameIsJoin(a, b, c, d);
    Bracketed(name);
  }

  lemma TraceNameIsJoin(a: GoString, b: GoString, c: GoString, d: GoString)
    ensures TraceName(a, b, c, d) == "[" + Join([a, b, c, d], TraceSep) + "]"
  {
    JoinFour(a, b, c, d);
  }

  /** A traced logger's name holds the four context values under the
      configured keys, and they can be read back from it when none
      contains `][`. */
  lemma TraceLoggerNameFields(logger: Logger, ctx: Context)
    requires !Contains(ContextString(ctx, logger.traceUID), TraceSep)
    requires !Contains(ContextString(ctx, logger.traceRequestID), TraceSep)
    requires !Contains(ContextString(ctx, logger.traceSpanID), TraceSep)
    requires !Contains(ContextString(ctx, logger.traceBizID), TraceSep)
    ensures ParseTraceName(logger.TraceLoggerName(ctx))
      == Some((ContextString(ctx, logger.traceUID), ContextString(ctx, logger.traceRequestID),
               ContextString(ctx, logger.traceSpanID), ContextString(ctx, logger.traceBizID)))
  {
    TraceNameRoundTrip(ContextString(ctx, logger.traceUID), ContextString(ctx, logger.traceRequestID),
                       ContextString(ctx, logger.traceSpanID), ContextString(ctx, logger.traceBizID));
  }

  lemma Bracketed(name: GoString)
    requires |name| >= 2 && name[0] == '[' && name[|name| - 1] == ']'
    ensures name == "[" + name[1..|name| - 1] + "]"
  {
  }
}
