/**
 * The dispatcher of base-logger.ts. A log call is gated on the enabled flag,
 * the threshold and the filters; an entry is built from the call's
 * arguments; the global transformer chain runs; the entry is written once to
 * the primary stream and then handed to every registered transport it does
 * not exclude. A transport that throws is reported by a new log call at the
 * fatal level that excludes that transport.
 *
 * The behaviour of code outside the library (filters, transformers,
 * transports, lazy producers, `stripAnsi`, the clock) is a `Plugins` value.
 * The recursion through failing transports is not bounded in the source, so
 * the model carries a `fuel` count of nested reports; a report that would
 * need more fuel is recorded as `Unreported`.
 */
module BaseLoggers {
  import opened Wrappers
  import opened Levels
  import opened Lists
  import opened Text
  import opened Entries
  import opened Transformers
  import opened Transports

  datatype Stream = Stdout | Stderr

  /** What a filter receives: `{ logger, level, message, context }` (the logger through its name). */
  datatype FilterContext = FilterContext(loggerName: Option<string>, level: Level, message: Value, context: seq<Value>)

  /** The code outside the library that a log call runs. */
  datatype Plugins = Plugins(
    filter: (FilterId, FilterContext) -> bool,
    transform: (TransformerId, LogEntry) -> TransformOutcome,
    write: (TransportId, LogEntry) -> WriteResult,
    lazyMessage: nat -> Value,
    lazyContext: nat -> seq<Value>,
    stripAnsi: string -> string,
    now: Time)

  /** The logger state a log call reads. */
  datatype Config = MakeConfig(
    isEnabled: bool,
    level: Level,
    errorLevels: seq<Level>,
    fatalLevel: RawLevel,
    resolver: Resolver,
    name: Option<string>,
    filters: seq<FilterId>,
    transformers: seq<TransformerId>,
    transports: seq<TransportId>)

  /** What became of a transport failure: none to report, reported by a nested log call, or out of fuel. */
  datatype Report = NoReport | Reported(result: LogResult) | Unreported

  /** One `writeToTransport(transport, entry)` call. */
  datatype Delivery = Delivery(transport: TransportId, entry: LogEntry, result: WriteResult, report: Report)

  /**
   * The outcome of one log call: suppressed by the gate, a `TransformError`
   * raised by the global chain, dropped by the chain, or written to `stream`
   * and fanned out. `raised` is an error that escaped a nested report and
   * aborted the fan-out.
   */
  datatype LogResult =
    | Suppressed
    | TransformFailed(error: Error)
    | Discarded
    | Dispatched(stream: Stream, entry: LogEntry, deliveries: seq<Delivery>, raised: Option<Error>)
  {
    /** The error the call throws to its caller, if any. */
    function Raised(): Option<Error> {
      match this
      case TransformFailed(e) => Some(e)
      case Dispatched(_, _, _, raised) => raised
      case _ => None
    }
  }

  datatype FanOutResult = FanOutResult(deliveries: seq<Delivery>, raised: Option<Error>)

  function ReportRaised(r: Report): Option<Error> {
    if r.Reported? then r.result.Raised() else None
  }

  /** `isLevelEnabled(level)`: only an enabled logger admits levels, the default threshold −∞ admits them all, the threshold itself is admitted. */
  function IsLevelEnabled(cfg: Config, lvl: Level): (r: bool)
    ensures r ==> cfg.isEnabled
    ensures cfg.isEnabled && cfg.level == NegInf ==> r
    ensures cfg.isEnabled && LooselyEqual(lvl, cfg.level) ==> r
  {
    cfg.isEnabled && AtLeast(lvl, cfg.level)
  }

  /** `isLoggable(level, message, ...context)`: every filter admits the call (vacuously true without filters). */
  function IsLoggable(cfg: Config, pl: Plugins, lvl: Level, message: Value, context: seq<Value>): (r: bool)
    ensures cfg.filters == [] ==> r
    ensures r <==> forall f :: f in cfg.filters ==> pl.filter(f, FilterContext(cfg.name, lvl, message, context))
  {
    forall i :: 0 <= i < |cfg.filters| ==> pl.filter(cfg.filters[i], FilterContext(cfg.name, lvl, message, context))
  }

  /**
   * `getStream(level)` as written, which `log` uses: `errorLevels[level]`
   * reads the list AT POSITION `level` (a key indexes like its number), and
   * the error stream is chosen when that element exists and is truthy.
   */
  function GetStream(errorLevels: seq<Level>, level: Level): (s: Stream)
    ensures s == Stderr <==> !level.NegInf? && 0 <= level.n < |errorLevels| && errorLevels[level.n] != Num(0)
  {
    if !level.NegInf? && 0 <= level.n < |errorLevels| && Truthy(errorLevels[level.n]) then Stderr else Stdout
  }

  /**
   * The stream choice the library evidently intends: the error stream exactly
   * for the error levels. Not used by `log`; see `Dispatch.IntendedOutcome`.
   */
  function GetStreamByMembership(errorLevels: seq<Level>, level: Level): (s: Stream)
    ensures s == Stderr <==> level in errorLevels
  {
    if level in errorLevels then Stderr else Stdout
  }

  /** The entry `toLogEntry` starts from. */
  function FreshEntry(cfg: Config, pl: Plugins, lvl: Level): LogEntry {
    LogEntry(pl.now, lvl, None, None, [], [], map[], Some(Instance(cfg.name)), None)
  }

  /** How `resolveEntryContext` files one argument. */
  function Classify(entry: LogEntry, item: Value, pl: Plugins): LogEntry {
    match item
    case ErrorValue(err) => entry.(errors := entry.errors + [err])
    case LazyContext(p) => entry.(context := entry.context + pl.lazyContext(p))
    case EntryInput(input) => MergeEntry(entry, input)
    case _ => entry.(context := entry.context + [item])
  }

  /** `resolveEntryContext(entry, items)`: the arguments filed one by one, in order. */
  function ResolveContext(entry: LogEntry, items: seq<Value>, pl: Plugins): LogEntry
    decreases |items|
  {
    if items == [] then entry else ResolveContext(Classify(entry, items[0], pl), items[1..], pl)
  }

  /** Filing only appends: the errors and context already there stay in front, and a message once set stays set. */
  lemma {:induction false} ResolveContextAppends(entry: LogEntry, items: seq<Value>, pl: Plugins)
    ensures var r := ResolveContext(entry, items, pl);
            entry.errors <= r.errors && entry.context <= r.context && (entry.message.Some? ==> r.message.Some?)
    decreases |items|
  {
    if items != [] {
      var next := Classify(entry, items[0], pl);
      ResolveContextAppends(next, items[1..], pl);
      assert entry.errors <= next.errors && entry.context <= next.context;
    }
  }

  /**
   * `toLogEntry(level, message, ...context)`: an undefined message leaves the
   * message absent; a lazy message is invoked first; a string becomes the
   * message; any other value is put in front of the context arguments.
   */
  function EntryOf(cfg: Config, pl: Plugins, lvl: Level, message: Value, context: seq<Value>): LogEntry {
    var start := FreshEntry(cfg, pl, lvl);
    if message == Undefined then ResolveContext(start, context, pl)
    else
      var m := if message.LazyMessage? then pl.lazyMessage(message.producer) else message;
      if m.Str? then ResolveContext(start.(message := Some(m.s)), context, pl)
      else ResolveContext(start, [m] + context, pl)
  }

  /** `entry.message = entry.message ? stripAnsi(entry.message) : entry.message`. */
  function StripMessage(entry: LogEntry, stripAnsi: string -> string): LogEntry {
    if entry.message.Some? && entry.message.value != "" then entry.(message := Some(stripAnsi(entry.message.value)))
    else entry
  }

  /** The report of a failed transport `t`: a log call at the fatal level whose message is the `TransportError`. */
  function ReportOf(cfg: Config, pl: Plugins, t: TransportId, entry: LogEntry, cause: Error, fuel: nat): LogResult
    decreases fuel, 3, 0
  {
    LogOutcome(cfg, pl, cfg.fatalLevel, ErrorValue(TransportError(t, entry, cause)), [EntryInput(ExcludeTransportInput(t))], fuel)
  }

  /**
   * `log(level, message, ...context)`. A disabled logger suppresses every
   * call; a dispatched entry is written to each registered transport at most
   * once, and a logger without transports never throws after dispatch.
   */
  function LogOutcome(cfg: Config, pl: Plugins, level: RawLevel, message: Value, context: seq<Value>, fuel: nat): (r: LogResult)
    ensures !cfg.isEnabled ==> r == Suppressed
    ensures r.Dispatched? ==> |r.deliveries| <= |cfg.transports|
    ensures r.Dispatched? && cfg.transports == [] ==> r.deliveries == [] && r.raised.None?
    decreases fuel, 2, 0
  {
    var lvl := Resolve(cfg.resolver, level);
    if !IsLevelEnabled(cfg, lvl) || !IsLoggable(cfg, pl, lvl, message, context) then Suppressed
    else
      match TransformChain(cfg.transformers, EntryOf(cfg, pl, lvl, message, context), pl.transform)
      case Failed(e) => TransformFailed(e)
      case Passed(None) => Discarded
      case Passed(Some(entry)) =>
        var f := FanOut(cfg, pl, entry, cfg.transports, fuel);
        Dispatched(GetStream(cfg.errorLevels, entry.level), entry, f.deliveries, f.raised)
  }

  /** The loop of `log` over the transports from some point on: at most one delivery per transport. */
  function FanOut(cfg: Config, pl: Plugins, entry: LogEntry, ts: seq<TransportId>, fuel: nat): (f: FanOutResult)
    ensures |f.deliveries| <= |ts|
    ensures ts == [] ==> f == FanOutResult([], None)
    decreases fuel, 1, |ts|
  {
    if ts == [] then FanOutResult([], None)
    else if ts[0] in ExcludedTransports(entry) then FanOut(cfg, pl, entry, ts[1..], fuel)
    else
      var d := DeliverTo(cfg, pl, ts[0], entry, fuel);
      if ReportRaised(d.report).Some? then FanOutResult([d], ReportRaised(d.report))
      else
        var rest := FanOut(cfg, pl, d.entry, ts[1..], fuel);
        FanOutResult([d] + rest.deliveries, rest.raised)
  }

  /**
   * `writeToTransport(t, entry)`: the entry keeps its level and exclusions; a
   * report is made exactly when the transport's `write` throws, and is left
   * unmade only when the fuel is spent.
   */
  function DeliverTo(cfg: Config, pl: Plugins, t: TransportId, entry: LogEntry, fuel: nat): (d: Delivery)
    ensures d.transport == t
    ensures d.entry.level == entry.level && d.entry.exclude == entry.exclude
    ensures d.report.NoReport? <==> d.result.Raised().None?
    ensures d.report.Unreported? ==> fuel == 0
    decreases fuel, 0, 0
  {
    var e := StripMessage(entry, pl.stripAnsi);
    var w := pl.write(t, e);
    var report :=
      if w.Raised().None? then NoReport
      else if fuel == 0 then Unreported
      else Reported(ReportOf(cfg, pl, t, e, w.Raised().value, fuel - 1));
    Delivery(t, e, w, report)
  }

  /** `BaseLoggerOptions`; absent fields take their defaults. */
  datatype BaseLoggerOptions = BaseLoggerOptions(
    errorLevels: seq<Level>,
    fatalLevel: RawLevel,
    enabled: Option<bool>,
    level: Option<RawLevel>,
    levelResolver: Option<Resolver>,
    name: Option<string>,
    filters: Option<seq<FilterId>>,
    transformers: Option<seq<TransformerId>>,
    transports: Option<seq<TransportId>>)

  /** The id `createTimer()` generates from the counter value `n`. */
  function TimerId(n: nat): string {
    "timer-" + NatToString(n)
  }

  class BaseLogger {
    const resolver: Resolver
    const fatalLevel: RawLevel
    const name: Option<string>
    const errorLevels: seq<Level>

    var isEnabled: bool
    var level: Level
    var filters: seq<FilterId>
    var transformers: seq<TransformerId>
    var transports: seq<TransportId>
    var timers: map<string, int>
    var timerIncrementId: nat

    /** Filter and transformer lists never hold duplicates; the error levels include the fatal level once. */
    ghost predicate Valid()
      reads this
    {
      NoDup(filters) && NoDup(transformers) && NoDup(errorLevels) && Resolve(resolver, fatalLevel) in errorLevels
    }

    function Config(): Config
      reads this
    {
      MakeConfig(isEnabled, level, errorLevels, fatalLevel, resolver, name, filters, transformers, transports)
    }

    /** The constructor deduplicates filters and transformers, but not transports. */
    constructor(options: BaseLoggerOptions)
      ensures Valid()
      ensures resolver == options.levelResolver.GetOr(NumbersOnly)
      ensures errorLevels == Unique(options.errorLevels + [Resolve(resolver, options.fatalLevel)])
      ensures fatalLevel == options.fatalLevel && name == options.name
      ensures isEnabled == options.enabled.GetOr(true)
      ensures level == Resolve(resolver, options.level.GetOr(NumberLevel(NegInf)))
      ensures filters == Unique(options.filters.GetOr([]))
      ensures transformers == Unique(options.transformers.GetOr([]))
      ensures transports == options.transports.GetOr([])
      ensures timers == map[] && timerIncrementId == 0
    {
      var r := options.levelResolver.GetOr(NumbersOnly);
      resolver := r;
      errorLevels := Unique(options.errorLevels + [Resolve(r, options.fatalLevel)]);
      fatalLevel := options.fatalLevel;
      isEnabled := options.enabled.GetOr(true);
      level := Resolve(r, options.level.GetOr(NumberLevel(NegInf)));
      name := options.name;
      filters := Unique(options.filters.GetOr([]));
      transformers := Unique(options.transformers.GetOr([]));
      transports := options.transports.GetOr([]);
      timers := map[];
      timerIncrementId := 0;
    }

    method Enable()
      requires Valid()
      modifies this
      ensures Valid()
      ensures Config() == old(Config()).(isEnabled := true)
      ensures timers == old(timers) && timerIncrementId == old(timerIncrementId)
    {
      isEnabled := true;
    }

    method Disable()
      requires Valid()
      modifies this
      ensures Valid()
      ensures Config() == old(Config()).(isEnabled := false)
      ensures timers == old(timers) && timerIncrementId == old(timerIncrementId)
    {
      isEnabled := false;
    }

    method SetLevel(raw: RawLevel)
      requires Valid()
      modifies this
      ensures Valid()
      ensures Config() == old(Config()).(level := Resolve(resolver, raw))
      ensures timers == old(timers) && timerIncrementId == old(timerIncrementId)
    {
      level := Resolve(resolver, raw);
    }

    method AddFilter(f: FilterId)
      requires Valid()
      modifies this
      ensures Valid()
      ensures Config() == old(Config()).(filters := if f in old(filters) then old(filters) else old(filters) + [f])
      ensures timers == old(timers) && timerIncrementId == old(timerIncrementId)
    {
      UniqueAppend(filters, f);
      filters := Unique(filters + [f]);
    }

    method RemoveFilter(f: FilterId)
      requires Valid()
      modifies this
      ensures Valid()
      ensures Config() == old(Config()).(filters := Without(old(filters), f))
      ensures f !in old(filters) ==> Config() == old(Config())
      ensures timers == old(timers) && timerIncrementId == old(timerIncrementId)
    {
      WithoutKeepsNoDup(filters, f);
      filters := Without(filters, f);
    }

    method AddTransformer(t: TransformerId)
      requires Valid()
      modifies this
      ensures Valid()
      ensures Config() == old(Config()).(transformers := if t in old(transformers) then old(transformers) else old(transformers) + [t])
      ensures timers == old(timers) && timerIncrementId == old(timerIncrementId)
    {
      UniqueAppend(transformers, t);
      transformers := Unique(transformers + [t]);
    }

    method RemoveTransformer(t: TransformerId)
      requires Valid()
      modifies this
      ensures Valid()
      ensures Config() == old(Config()).(transformers := Without(old(transformers), t))
      ensures t !in old(transformers) ==> Config() == old(Config())
      ensures timers == old(timers) && timerIncrementId == old(timerIncrementId)
    {
      WithoutKeepsNoDup(transformers, t);
      transformers := Without(transformers, t);
    }

    /** `unique([...transports, t])`: this also collapses duplicates the constructor let in. */
    method AddTransport(t: TransportId)
      requires Valid()
      modifies this
      ensures Valid()
      ensures Config() == old(Config()).(transports := Unique(old(transports) + [t]))
      ensures NoDup(old(transports)) ==> transports == if t in old(transports) then old(transports) else old(transports) + [t]
      ensures timers == old(timers) && timerIncrementId == old(timerIncrementId)
    {
      if NoDup(transports) {
        UniqueAppend(transports, t);
      }
      transports := Unique(transports + [t]);
    }

    method RemoveTransport(t: TransportId)
      requires Valid()
      modifies this
      ensures Valid()
      ensures Config() == old(Config()).(transports := Without(old(transports), t))
      ensures t !in old(transports) ==> Config() == old(Config())
      ensures timers == old(timers) && timerIncrementId == old(timerIncrementId)
    {
      transports := Without(transports, t);
    }

    /**
     * `createTimer(id?)`: a given id is used as is; otherwise the counter is
     * incremented and `timer-N` is generated. The start mark is the clock
     * value `now`.
     */
    method CreateTimer(id: Option<string>, now: int) returns (timerId: string)
      requires Valid()
      modifies this
      ensures Valid() && Config() == old(Config())
      ensures id.Some? ==> timerId == id.value && timerIncrementId == old(timerIncrementId)
      ensures id.None? ==> timerIncrementId == old(timerIncrementId) + 1 && timerId == TimerId(timerIncrementId)
      ensures timers == old(timers)[timerId := now]
    {
      if id.Some? {
        timerId := id.value;
      } else {
        timerIncrementId := timerIncrementId + 1;
        timerId := TimerId(timerIncrementId);
      }
      timers := timers[timerId := now];
    }

    /**
     * `stopTimer(id, level?, message?, ...context)`: the elapsed time since the
     * start mark (0 when there is none, or when the mark is 0), the mark
     * deleted, and a log call carrying `metadata.timer` only when a level is
     * given.
     */
    method StopTimer(pl: Plugins, id: string, now: int, lvl: Option<RawLevel>, message: Value, context: seq<Value>, fuel: nat)
      returns (elapsed: int, logged: Option<LogResult>)
      requires Valid()
      modifies this
      ensures Valid() && Config() == old(Config()) && timerIncrementId == old(timerIncrementId)
      ensures elapsed == if id in old(timers) && old(timers)[id] != 0 then now - old(timers)[id] else 0
      ensures timers == old(timers) - {id}
      ensures lvl.None? ==> logged == None
      ensures lvl.Some? ==> logged == Some(LogOutcome(Config(), pl, lvl.value, message, [EntryInput(TimerInput(elapsed))] + context, fuel))
    {
      elapsed := if id in timers && timers[id] != 0 then now - timers[id] else 0;
      timers := timers - {id};
      if lvl.Some? {
        var r := Log(pl, lvl.value, message, [EntryInput(TimerInput(elapsed))] + context, fuel);
        logged := Some(r);
      } else {
        logged := None;
      }
    }

    /** `log(level, message, ...context)`. */
    method Log(pl: Plugins, raw: RawLevel, message: Value, context: seq<Value>, fuel: nat) returns (r: LogResult)
      ensures r == LogOutcome(Config(), pl, raw, message, context, fuel)
      decreases fuel, 2
    {
      var lvl := Resolve(resolver, raw);
      if !IsLevelEnabled(Config(), lvl) || !IsLoggable(Config(), pl, lvl, message, context) {
        return Suppressed;
      }
      var built := ToLogEntry(pl, lvl, message, context);
      var chained := TransformEntry(pl, transformers, built);
      if chained.Failed? {
        return TransformFailed(chained.error);
      }
      if chained.entry.None? {
        return Discarded;
      }
      var entry := chained.entry.value;
      var stream := GetStream(errorLevels, entry.level);
      var f := WriteToTransports(pl, entry, fuel);
      return Dispatched(stream, entry, f.deliveries, f.raised);
    }

    /** The loop of `log` over the transports: each one the entry does not exclude, until a report throws. */
    method WriteToTransports(pl: Plugins, entry: LogEntry, fuel: nat) returns (f: FanOutResult)
      ensures f == FanOut(Config(), pl, entry, transports, fuel)
      decreases fuel, 1
    {
      ghost var cfg := Config();
      var deliveries: seq<Delivery> := [];
      var current := entry;
      var i := 0;
      while i < |transports|
        invariant 0 <= i <= |transports|
        invariant FanOut(cfg, pl, entry, transports, fuel)
                  == var rest := FanOut(cfg, pl, current, transports[i..], fuel);
                     FanOutResult(deliveries + rest.deliveries, rest.raised)
      {
        var t := transports[i];
        assert transports[i..][1..] == transports[i + 1..];
        if t !in ExcludedTransports(current) {
          var d := WriteToTransport(pl, t, current, fuel);
          if ReportRaised(d.report).Some? {
            return FanOutResult(deliveries + [d], ReportRaised(d.report));
          }
          deliveries := deliveries + [d];
          current := d.entry;
        }
        i := i + 1;
      }
      return FanOutResult(deliveries, None);
    }

    /** `writeToTransport(transport, entry)`: a throw becomes a fatal-level report excluding the transport. */
    method WriteToTransport(pl: Plugins, t: TransportId, entry: LogEntry, fuel: nat) returns (d: Delivery)
      ensures d == DeliverTo(Config(), pl, t, entry, fuel)
      decreases fuel, 0
    {
      var e := StripMessage(entry, pl.stripAnsi);
      var w := pl.write(t, e);
      var report := NoReport;
      if w.Raised().Some? {
        if fuel == 0 {
          report := Unreported;
        } else {
          var nested := Log(pl, fatalLevel, ErrorValue(TransportError(t, e, w.Raised().value)),
                            [EntryInput(ExcludeTransportInput(t))], fuel - 1);
          report := Reported(nested);
        }
      }
      d := Delivery(t, e, w, report);
    }

    /** `transformEntry(transformers, entry)`. */
    method TransformEntry(pl: Plugins, ts: seq<TransformerId>, entry: LogEntry) returns (r: ChainResult)
      ensures r == TransformChain(ts, entry, pl.transform)
    {
      var logEntry := Some(entry);
      var i := 0;
      while i < |ts|
        invariant 0 <= i <= |ts|
        invariant TransformChain(ts, entry, pl.transform) == ChainFrom(ts[i..], entry, logEntry, pl.transform)
      {
        assert ts[i..][1..] == ts[i + 1..];
        if ts[i] !in ExcludedTransformers(entry) {
          var applied := ApplyTransformer(pl, ts[i], entry);
          if applied.Failed? {
            return applied;
          }
          logEntry := applied.entry;
        }
        i := i + 1;
      }
      return Passed(logEntry);
    }

    /** `applyTransformer(transformer, entry)`. */
    method ApplyTransformer(pl: Plugins, t: TransformerId, entry: LogEntry) returns (r: ChainResult)
      ensures r == Apply(t, entry, pl.transform)
    {
      match pl.transform(t, entry)
      case Returned(result) =>
        r := Passed(result);
      case Threw(cause) =>
        r := Failed(TransformError(t, entry, cause));
    }

    /** `toLogEntry(level, message, ...context)`. */
    method ToLogEntry(pl: Plugins, lvl: Level, message: Value, context: seq<Value>) returns (entry: LogEntry)
      ensures entry == EntryOf(Config(), pl, lvl, message, context)
    {
      entry := FreshEntry(Config(), pl, lvl);
      var items := context;
      if message != Undefined {
        var m := message;
        if m.LazyMessage? {
          m := pl.lazyMessage(m.producer);
        }
        if m.Str? {
          entry := entry.(message := Some(m.s));
        } else {
          items := [m] + items;
        }
      }
      entry := ResolveEntryContext(pl, entry, items);
    }

    /** `resolveEntryContext(entry, context)`. */
    method ResolveEntryContext(pl: Plugins, entry: LogEntry, items: seq<Value>) returns (r: LogEntry)
      ensures r == ResolveContext(entry, items, pl)
    {
      r := entry;
      var i := 0;
      while i < |items|
        invariant 0 <= i <= |items|
        invariant ResolveContext(entry, items, pl) == ResolveContext(r, items[i..], pl)
      {
        assert items[i..][1..] == items[i + 1..];
        var item := items[i];
        match item {
          case ErrorValue(err) =>
            r := r.(errors := r.errors + [err]);
          case LazyContext(p) =>
            r := r.(context := r.context + pl.lazyContext(p));
          case EntryInput(input) =>
            r := MergeEntry(r, input);
          case _ =>
            r := r.(context := r.context + [item]);
        }
        i := i + 1;
      }
    }
  }
}
