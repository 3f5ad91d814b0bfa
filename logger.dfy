/**
 * `Logger` (logger.ts): a `BaseLogger` fixed to the library's named levels,
 * with child loggers that inherit the parent's lists and name, and one
 * method per named level.
 */
module Loggers {
  import opened Wrappers
  import opened Levels
  import opened Lists
  import opened Entries
  import opened BaseLoggers
  import opened Transports

  /** `LoggerOptions`: the base options without error levels, fatal level and resolver, which `Logger` fixes. */
  datatype LoggerOptions = LoggerOptions(
    enabled: Option<bool>,
    level: Option<RawLevel>,
    name: Option<string>,
    filters: Option<seq<FilterId>>,
    transformers: Option<seq<TransformerId>>,
    transports: Option<seq<TransportId>>)

  /** `ChildLoggerOptions`: logger options plus how to derive the name and lists from the parent. */
  datatype ChildOptions = ChildOptions(
    own: LoggerOptions,
    joinName: Option<bool>,
    nameSeparator: Option<string>,
    mergeFilters: Option<bool>,
    mergeTransformers: Option<bool>,
    mergeTransports: Option<bool>)

  /**
   * The resolver `Logger` installs: numbers as they are, a level name to the
   * key it stands under in `LOG_LEVEL_NAMES` (the number's string), anything
   * else −∞.
   */
  const LoggerResolver: Resolver := Named(LevelNumbers)

  lemma LoggerResolverMapsNames(raw: RawLevel)
    ensures raw.NumberLevel? ==> Resolve(LoggerResolver, raw) == raw.level
    ensures forall l: LogLevel :: raw == NameLevel(l.Name()) ==> Resolve(LoggerResolver, raw) == Key(l.Value())
    ensures raw.NameLevel? && (forall l: LogLevel :: raw.name != l.Name()) ==> Resolve(LoggerResolver, raw) == NegInf
  {
    if raw.NameLevel? && raw.name in LevelNumbers {
      var n := raw.name;
      var l :=
        if n == "trace" then LogLevel.TRACE else if n == "debug" then LogLevel.DEBUG
        else if n == "info" then LogLevel.INFO else if n == "warn" then LogLevel.WARN
        else if n == "error" then LogLevel.ERROR else if n == "fatal" then LogLevel.FATAL
        else LogLevel.NOTICE;
      assert n == l.Name();
    }
  }

  /**
   * A level given by name resolves to a key, which a transport's threshold
   * compares like the number but its `excludeLevels` (strict `includes`) does
   * not match: a transport that excludes the number of a level still admits
   * that level given by name.
   */
  lemma NamedLevelEscapesExclusion(st: TransportState, entry: LogEntry, l: LogLevel)
    requires st.isEnabled && !Below(Num(l.Value()), st.level) && st.excludeLevels == [Num(l.Value())]
    ensures !Admits(st, entry.(level := Resolve(LoggerResolver, NumberLevel(Num(l.Value())))))
    ensures Admits(st, entry.(level := Resolve(LoggerResolver, NameLevel(l.Name()))))
  {
    LoggerResolverMapsNames(NameLevel(l.Name()));
  }

  /** The resolver `Logger` evidently intends: a level name resolves to its number, not to the number's string. */
  function IntendedResolve(raw: RawLevel): (l: Level)
    ensures !l.Key?
    ensures LooselyEqual(l, Resolve(LoggerResolver, raw))
  {
    var r := Resolve(LoggerResolver, raw);
    if r.Key? then Num(r.n) else r
  }

  /** With the intended resolver, a level given by name is excluded exactly like the same level given as a number. */
  lemma IntendedResolveHonoursExclusion(st: TransportState, entry: LogEntry, l: LogLevel)
    ensures Admits(st, entry.(level := IntendedResolve(NameLevel(l.Name()))))
            <==> Admits(st, entry.(level := IntendedResolve(NumberLevel(Num(l.Value())))))
  {
    LoggerResolverMapsNames(NameLevel(l.Name()));
  }

  /** The base options a `Logger` is built with: error levels ERROR and FATAL, fatal level FATAL. */
  function BaseOptionsOf(o: LoggerOptions): BaseLoggerOptions {
    BaseLoggerOptions([Num(LogLevel.ERROR.Value()), Num(LogLevel.FATAL.Value())], NumberLevel(Num(LogLevel.FATAL.Value())),
                      o.enabled, o.level, Some(LoggerResolver), o.name, o.filters, o.transformers, o.transports)
  }

  /**
   * `getName(parent, child, joinName = true, nameSeparator = ':')`: without a
   * parent name the child's; with `joinName`, the non-empty names among
   * parent and child joined by the separator; otherwise the child's.
   */
  function GetName(parent: Option<string>, child: Option<string>, joinName: Option<bool>, nameSeparator: Option<string>): (r: Option<string>)
    ensures parent.None? ==> r == child
    ensures parent.Some? && !joinName.GetOr(true) ==> r == child
    ensures parent.Some? && joinName.GetOr(true) ==> r.Some?
    ensures parent.Some? && joinName.GetOr(true) && parent.value != "" && child.Some? && child.value != ""
            ==> r.value == parent.value + nameSeparator.GetOr(":") + child.value
    ensures parent.Some? && joinName.GetOr(true) && parent.value == "" ==> r.value == child.GetOr("")
    ensures parent.Some? && joinName.GetOr(true) && (child.None? || child.value == "") ==> r.value == parent.value
  {
    if parent.None? then child
    else if !joinName.GetOr(true) then child
    else
      var names := (if parent.value != "" then [parent.value] else []) + (if child.Some? && child.value != "" then [child.value] else []);
      Some(JoinWith(names, nameSeparator.GetOr(":")))
  }

  /** `parts.join(separator)` for a string separator. */
  function JoinWith(parts: seq<string>, separator: string): (r: string)
    ensures parts == [] ==> r == ""
    ensures |parts| == 1 ==> r == parts[0]
    ensures |parts| == 2 ==> r == parts[0] + separator + parts[1]
  {
    if parts == [] then "" else if |parts| == 1 then parts[0] else parts[0] + separator + JoinWith(parts[1..], separator)
  }

  /** The list a child gets: the parent's followed by its own when merging (the default), else its own. */
  function Inherit<T>(merge: Option<bool>, parent: seq<T>, own: Option<seq<T>>): (r: seq<T>)
    ensures merge.GetOr(true) ==> r == parent + own.GetOr([])
    ensures !merge.GetOr(true) ==> r == own.GetOr([])
  {
    if merge.GetOr(true) then parent + own.GetOr([]) else own.GetOr([])
  }

  /**
   * The options `child` builds: the parent's constructor options overridden by
   * the child's own enabled flag and level, the derived name, and the
   * inherited lists.
   */
  function ChildLoggerOptions(parentOptions: LoggerOptions, parentName: Option<string>,
                              filters: seq<FilterId>, transformers: seq<TransformerId>, transports: seq<TransportId>,
                              o: ChildOptions): LoggerOptions
  {
    LoggerOptions(
      if o.own.enabled.Some? then o.own.enabled else parentOptions.enabled,
      if o.own.level.Some? then o.own.level else parentOptions.level,
      GetName(parentName, o.own.name, o.joinName, o.nameSeparator),
      Some(Inherit(o.mergeFilters, filters, o.own.filters)),
      Some(Inherit(o.mergeTransformers, transformers, o.own.transformers)),
      Some(Inherit(o.mergeTransports, transports, o.own.transports)))
  }

  class Logger {
    const options: LoggerOptions
    const base: BaseLogger

    ghost predicate Valid()
      reads this, base
    {
      base.Valid()
    }

    constructor(options: LoggerOptions)
      ensures this.options == options && fresh(base) && Valid()
      ensures base.errorLevels == [Num(50), Num(60)]
      ensures base.fatalLevel == NumberLevel(Num(60)) && base.resolver == LoggerResolver
      ensures base.name == options.name
      ensures base.isEnabled == options.enabled.GetOr(true)
      ensures base.level == Resolve(LoggerResolver, options.level.GetOr(NumberLevel(NegInf)))
      ensures base.filters == Unique(options.filters.GetOr([]))
      ensures base.transformers == Unique(options.transformers.GetOr([]))
      ensures base.transports == options.transports.GetOr([])
    {
      this.options := options;
      base := new BaseLogger(BaseOptionsOf(options));
      UniqueAppend([Num(50), Num(60)], Num(60));
      assert [Num(50), Num(60)] + [Num(60)] == [Num(50), Num(60), Num(60)];
    }

    /**
     * `child(options)`: a new logger whose filter and transformer lists start
     * with the parent's current ones (in order) when merging, and whose
     * transports are the parent's followed by the child's.
     */
    method Child(o: ChildOptions) returns (c: Logger)
      requires Valid()
      ensures fresh(c) && fresh(c.base) && c.Valid()
      ensures c.options == ChildLoggerOptions(options, base.name, base.filters, base.transformers, base.transports, o)
      ensures c.base.name == GetName(base.name, o.own.name, o.joinName, o.nameSeparator)
      ensures c.base.filters == Unique(Inherit(o.mergeFilters, base.filters, o.own.filters))
      ensures c.base.transformers == Unique(Inherit(o.mergeTransformers, base.transformers, o.own.transformers))
      ensures c.base.transports == Inherit(o.mergeTransports, base.transports, o.own.transports)
      ensures o.mergeFilters.GetOr(true) ==> base.filters <= c.base.filters
      ensures o.mergeTransformers.GetOr(true) ==> base.transformers <= c.base.transformers
      ensures c.base.isEnabled == (if o.own.enabled.Some? then o.own.enabled.value else options.enabled.GetOr(true))
    {
      var merged := ChildLoggerOptions(options, base.name, base.filters, base.transformers, base.transports, o);
      c := new Logger(merged);
      UniquePrefix(base.filters, o.own.filters.GetOr([]));
      UniqueOfNoDup(base.filters);
      UniquePrefix(base.transformers, o.own.transformers.GetOr([]));
      UniqueOfNoDup(base.transformers);
    }

    method Trace(pl: Plugins, message: Value, context: seq<Value>, fuel: nat) returns (r: LogResult)
      ensures r == LogOutcome(base.Config(), pl, NumberLevel(Num(10)), message, context, fuel)
    {
      r := base.Log(pl, NumberLevel(Num(LogLevel.TRACE.Value())), message, context, fuel);
    }

    method Debug(pl: Plugins, message: Value, context: seq<Value>, fuel: nat) returns (r: LogResult)
      ensures r == LogOutcome(base.Config(), pl, NumberLevel(Num(20)), message, context, fuel)
    {
      r := base.Log(pl, NumberLevel(Num(LogLevel.DEBUG.Value())), message, context, fuel);
    }

    method Info(pl: Plugins, message: Value, context: seq<Value>, fuel: nat) returns (r: LogResult)
      ensures r == LogOutcome(base.Config(), pl, NumberLevel(Num(30)), message, context, fuel)
    {
      r := base.Log(pl, NumberLevel(Num(LogLevel.INFO.Value())), message, context, fuel);
    }

    method Warn(pl: Plugins, message: Value, context: seq<Value>, fuel: nat) returns (r: LogResult)
      ensures r == LogOutcome(base.Config(), pl, NumberLevel(Num(40)), message, context, fuel)
    {
      r := base.Log(pl, NumberLevel(Num(LogLevel.WARN.Value())), message, context, fuel);
    }

    method Error(pl: Plugins, message: Value, context: seq<Value>, fuel: nat) returns (r: LogResult)
      ensures r == LogOutcome(base.Config(), pl, NumberLevel(Num(50)), message, context, fuel)
    {
      r := base.Log(pl, NumberLevel(Num(LogLevel.ERROR.Value())), message, context, fuel);
    }

    method Fatal(pl: Plugins, message: Value, context: seq<Value>, fuel: nat) returns (r: LogResult)
      ensures r == LogOutcome(base.Config(), pl, NumberLevel(Num(60)), message, context, fuel)
    {
      r := base.Log(pl, NumberLevel(Num(LogLevel.FATAL.Value())), message, context, fuel);
    }

    method Notice(pl: Plugins, message: Value, context: seq<Value>, fuel: nat) returns (r: LogResult)
      ensures r == LogOutcome(base.Config(), pl, NumberLevel(Num(70)), message, context, fuel)
    {
      r := base.Log(pl, NumberLevel(Num(LogLevel.NOTICE.Value())), message, context, fuel);
    }
  }

  /**
   * With `Logger`'s error levels, `getStream` as written sends ERROR and FATAL
   * entries, and so every transport-failure report, to stdout.
   */
  lemma LoggerErrorsGoToStdout(l: LogLevel)
    ensures GetStream([Num(50), Num(60)], Num(l.Value())) == Stdout
    ensures l == LogLevel.ERROR || l == LogLevel.FATAL ==> GetStreamByMembership([Num(50), Num(60)], Num(l.Value())) == Stderr
  {
  }
}
