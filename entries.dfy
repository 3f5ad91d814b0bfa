/**
 * The log entry (types.ts), the library's error classes (the errors directory), the
 * call arguments a log call accepts (including the directives built by
 * utils/context.ts) and the entry merge rule (utils/entry.ts).
 */
module Entries {
  import opened Wrappers
  import opened Levels
  import opened Lists

  /** Filters, transformers and transports are compared by identity; the model names them by id. */
  type FilterId = nat
  type TransformerId = nat
  type TransportId = nat

  /** A `Date`, through the components the formatters read. */
  datatype Time = Time(hours: nat, minutes: nat, seconds: nat, millis: nat)

  /** The back-reference `entry.instance` to the logger; only its name is ever read. */
  datatype Instance = Instance(name: Option<string>)

  /**
   * A thrown error. `Thrown` is any error raised by code outside the library
   * (a transformer, a transport's delivery, the caller); the two others are
   * the library's wrappers, which keep the entry they were raised for and
   * their cause.
   */
  datatype Error =
    | Thrown(id: nat)
    | TransformError(transformer: TransformerId, entry: LogEntry, cause: Error)
    | TransportError(transport: TransportId, entry: LogEntry, cause: Error)

  /**
   * A message or context argument of a log call. `LazyMessage`, `LazyContext`
   * and `EntryInput` are the three directive objects of utils/context.ts:
   * `message(fn)` is `{ [LOG_LAZY_MESSAGE]: fn }`, `context(fn)` is
   * `{ [LOG_LAZY_CONTEXT]: fn }` and `entry(input)` is
   * `{ [LOG_INPUT]: true, ...input }`. A producer `fn` is named by an id; what
   * it returns when invoked is supplied with the logger's plug-ins.
   */
  datatype Value =
    | Undefined
    | Null
    | Boolean(b: bool)
    | NumberValue(x: int)
    | Str(s: string)
    | ErrorValue(error: Error)
    | LazyMessage(producer: nat)
    | LazyContext(producer: nat)
    | EntryInput(input: Partial)
    | Object(id: nat)

  /** `entry.exclude`: transformers and transports this entry must skip. */
  datatype Exclude = Exclude(transformers: Option<seq<TransformerId>>, transports: Option<seq<TransportId>>)

  /** `LogEntry`; `metadata` maps keys such as `timer` to bigint values. */
  datatype LogEntry = LogEntry(
    timestamp: Time,
    level: Level,
    icon: Option<string>,
    message: Option<string>,
    context: seq<Value>,
    errors: seq<Error>,
    metadata: map<string, int>,
    instance: Option<Instance>,
    exclude: Option<Exclude>)

  /** `Partial<LogEntry>`: the fields an entry directive carries. */
  datatype Partial = Partial(
    timestamp: Option<Time>,
    level: Option<Level>,
    icon: Option<string>,
    message: Option<string>,
    context: Option<seq<Value>>,
    errors: Option<seq<Error>>,
    metadata: Option<map<string, int>>,
    instance: Option<Instance>,
    exclude: Option<Exclude>)

  const NoFields: Partial := Partial(None, None, None, None, None, None, None, None, None)

  /** The directive a failed transport's report carries: `{ [LOG_INPUT]: true, exclude: { transports: [t] } }`. */
  function ExcludeTransportInput(t: TransportId): Partial {
    NoFields.(exclude := Some(Exclude(None, Some([t]))))
  }

  /** The directive `stopTimer` adds: `{ [LOG_INPUT]: true, metadata: { timer } }`. */
  function TimerInput(elapsed: int): Partial {
    NoFields.(metadata := Some(map["timer" := elapsed]))
  }

  function ExcludeTransformersOf(x: Option<Exclude>): seq<TransformerId> {
    if x.Some? then x.value.transformers.GetOr([]) else []
  }

  function ExcludeTransportsOf(x: Option<Exclude>): seq<TransportId> {
    if x.Some? then x.value.transports.GetOr([]) else []
  }

  /** `entry.exclude?.transformers ?? []`. */
  function ExcludedTransformers(e: LogEntry): seq<TransformerId> {
    ExcludeTransformersOf(e.exclude)
  }

  /** `entry.exclude?.transports ?? []`. */
  function ExcludedTransports(e: LogEntry): seq<TransportId> {
    ExcludeTransportsOf(e.exclude)
  }

  /**
   * `mergeEntry(base, item)`: the fields `item` carries replace those of
   * `base`, except that context and errors are concatenated (base first),
   * metadata is merged key by key (the item's keys win) and the two exclusion
   * lists are united without duplicates (base order first). The result always
   * has an exclusion record.
   */
  function MergeEntry(base: LogEntry, item: Partial): (r: LogEntry)
    ensures r.timestamp == item.timestamp.GetOr(base.timestamp)
    ensures r.level == item.level.GetOr(base.level)
    ensures r.icon == (if item.icon.Some? then item.icon else base.icon)
    ensures r.message == (if item.message.Some? then item.message else base.message)
    ensures r.instance == (if item.instance.Some? then item.instance else base.instance)
    ensures |r.context| == |base.context| + |item.context.GetOr([])|
    ensures r.context[..|base.context|] == base.context
    ensures r.context[|base.context|..] == item.context.GetOr([])
    ensures |r.errors| == |base.errors| + |item.errors.GetOr([])|
    ensures r.errors[..|base.errors|] == base.errors
    ensures r.errors[|base.errors|..] == item.errors.GetOr([])
    ensures r.metadata.Keys == base.metadata.Keys + item.metadata.GetOr(map[]).Keys
    ensures forall k :: k in item.metadata.GetOr(map[]) ==> r.metadata[k] == item.metadata.GetOr(map[])[k]
    ensures forall k :: k in base.metadata && k !in item.metadata.GetOr(map[]) ==> r.metadata[k] == base.metadata[k]
    ensures r.exclude.Some? && r.exclude.value.transformers.Some? && r.exclude.value.transports.Some?
    ensures NoDup(ExcludedTransformers(r)) && NoDup(ExcludedTransports(r))
    ensures forall x :: x in ExcludedTransformers(r) <==> x in ExcludedTransformers(base) || x in ExcludeTransformersOf(item.exclude)
    ensures forall x :: x in ExcludedTransports(r) <==> x in ExcludedTransports(base) || x in ExcludeTransportsOf(item.exclude)
    ensures Unique(ExcludedTransformers(base)) <= ExcludedTransformers(r)
    ensures Unique(ExcludedTransports(base)) <= ExcludedTransports(r)
  {
    var xf := ExcludedTransformers(base) + ExcludeTransformersOf(item.exclude);
    var xt := ExcludedTransports(base) + ExcludeTransportsOf(item.exclude);
    UniquePrefix(ExcludedTransformers(base), ExcludeTransformersOf(item.exclude));
    UniquePrefix(ExcludedTransports(base), ExcludeTransportsOf(item.exclude));
    LogEntry(
      item.timestamp.GetOr(base.timestamp),
      item.level.GetOr(base.level),
      if item.icon.Some? then item.icon else base.icon,
      if item.message.Some? then item.message else base.message,
      base.context + item.context.GetOr([]),
      base.errors + item.errors.GetOr([]),
      base.metadata + item.metadata.GetOr(map[]),
      if item.instance.Some? then item.instance else base.instance,
      Some(Exclude(Some(Unique(xf)), Some(Unique(xt)))))
  }

  /** A report's directive makes the merged entry skip the failed transport, whatever it excluded before. */
  lemma MergeExcludesTransport(base: LogEntry, t: TransportId)
    ensures t in ExcludedTransports(MergeEntry(base, ExcludeTransportInput(t)))
    ensures ExcludedTransports(base) == [] ==> ExcludedTransports(MergeEntry(base, ExcludeTransportInput(t))) == [t]
  {
    if ExcludedTransports(base) == [] {
      assert ExcludedTransports(base) + [t] == [t];
    }
  }

  /** Merging a directive that carries no field changes nothing but the exclusion record. */
  lemma MergeNoFields(base: LogEntry)
    requires base.exclude.Some? && base.exclude.value.transformers.Some? && base.exclude.value.transports.Some?
    requires NoDup(ExcludedTransformers(base)) && NoDup(ExcludedTransports(base))
    ensures MergeEntry(base, NoFields) == base
  {
    UniqueOfNoDup(ExcludedTransformers(base));
    UniqueOfNoDup(ExcludedTransports(base));
    assert ExcludedTransformers(base) + [] == ExcludedTransformers(base);
    assert ExcludedTransports(base) + [] == ExcludedTransports(base);
    assert base.context + [] == base.context;
    assert base.errors + [] == base.errors;
    assert base.metadata + map[] == base.metadata;
  }
}
