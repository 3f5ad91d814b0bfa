/**
 * The transformer chain of `BaseLogger.transformEntry` and
 * `applyTransformer` (base-logger.ts), which transports also use for their
 * own transformers. As written, every transformer receives the ORIGINAL
 * entry and exclusions are read from the original entry, so the result of
 * the last transformer that is not excluded wins, and an earlier drop can be
 * overridden by a later transformer.
 */
module Transformers {
  import opened Wrappers
  import opened Entries

  /** What calling `transformer(entry, logger)` does: return an entry or a falsy value (`None`), or throw. */
  datatype TransformOutcome = Returned(result: Option<LogEntry>) | Threw(cause: Error)

  /** Result of a chain: an entry, nothing (the call is dropped), or a raised `TransformError`. */
  datatype ChainResult = Passed(entry: Option<LogEntry>) | Failed(error: Error)

  /** `applyTransformer(t, entry)`: a throw is wrapped in a `TransformError` carrying the entry. */
  function Apply(t: TransformerId, entry: LogEntry, run: (TransformerId, LogEntry) -> TransformOutcome): (r: ChainResult)
    ensures run(t, entry).Threw? <==> r.Failed?
    ensures r.Failed? ==> r.error == TransformError(t, entry, run(t, entry).cause)
    ensures r.Passed? ==> r.entry == run(t, entry).result
  {
    match run(t, entry)
    case Returned(result) => Passed(result)
    case Threw(cause) => Failed(TransformError(t, entry, cause))
  }

  /**
   * The loop of `transformEntry` from some point on, with `current` the value
   * of `logEntry` so far. A raised error names a transformer of the chain
   * that is not excluded and threw on the original entry; a result other than
   * `current` is what such a transformer returned for the original entry.
   */
  function ChainFrom(ts: seq<TransformerId>, original: LogEntry, current: Option<LogEntry>,
                     run: (TransformerId, LogEntry) -> TransformOutcome): (r: ChainResult)
    ensures r.Failed? ==> exists t :: t in ts && t !in ExcludedTransformers(original) && run(t, original).Threw?
                                      && r.error == TransformError(t, original, run(t, original).cause)
    ensures r.Passed? && r.entry != current ==>
              exists t :: t in ts && t !in ExcludedTransformers(original) && run(t, original) == Returned(r.entry)
    decreases |ts|
  {
    if ts == [] then Passed(current)
    else if ts[0] in ExcludedTransformers(original) then ChainFrom(ts[1..], original, current, run)
    else
      match Apply(ts[0], original, run)
      case Failed(e) => Failed(e)
      case Passed(r) => ChainFrom(ts[1..], original, r, run)
  }

  /** `transformEntry(transformers, entry)`: an empty chain passes the entry through unchanged. */
  function TransformChain(ts: seq<TransformerId>, entry: LogEntry,
                          run: (TransformerId, LogEntry) -> TransformOutcome): (r: ChainResult)
    ensures ts == [] ==> r == Passed(Some(entry))
    ensures r.Failed? ==> exists t :: t in ts && run(t, entry).Threw? && r.error == TransformError(t, entry, run(t, entry).cause)
  {
    ChainFrom(ts, entry, Some(entry), run)
  }

  /** The transformers of `ts` that `entry` does not exclude, in order. */
  function Applicable(ts: seq<TransformerId>, entry: LogEntry): (app: seq<TransformerId>)
    ensures forall t :: t in app <==> t in ts && t !in ExcludedTransformers(entry)
  {
    if ts == [] then []
    else (if ts[0] in ExcludedTransformers(entry) then [] else [ts[0]]) + Applicable(ts[1..], entry)
  }

  /** The first transformer of `app` that throws on `entry`, if any. */
  function FirstThrowing(app: seq<TransformerId>, entry: LogEntry,
                         run: (TransformerId, LogEntry) -> TransformOutcome): (r: Option<TransformerId>)
    ensures r.Some? ==> r.value in app && run(r.value, entry).Threw?
    ensures r.Some? ==> exists k :: 0 <= k < |app| && app[k] == r.value &&
                                   forall j :: 0 <= j < k ==> run(app[j], entry).Returned?
    ensures r.None? ==> forall t :: t in app ==> run(t, entry).Returned?
  {
    if app == [] then None
    else if run(app[0], entry).Threw? then Some(app[0])
    else FirstThrowing(app[1..], entry, run)
  }

  /**
   * The chain described without its loop: the first applicable transformer
   * that throws raises; otherwise the last applicable one's result is the
   * answer, and with none applicable the starting value stands.
   */
  function ChainReference(app: seq<TransformerId>, original: LogEntry, current: Option<LogEntry>,
                          run: (TransformerId, LogEntry) -> TransformOutcome): ChainResult
  {
    match FirstThrowing(app, original, run)
    case Some(t) => Failed(TransformError(t, original, run(t, original).cause))
    case None => Passed(if app == [] then current else run(app[|app| - 1], original).result)
  }

  lemma {:induction false} ChainFromMatchesReference(ts: seq<TransformerId>, original: LogEntry, current: Option<LogEntry>,
                                                    run: (TransformerId, LogEntry) -> TransformOutcome)
    ensures ChainFrom(ts, original, current, run) == ChainReference(Applicable(ts, original), original, current, run)
    decreases |ts|
  {
    if ts != [] {
      var rest := Applicable(ts[1..], original);
      if ts[0] in ExcludedTransformers(original) {
        assert Applicable(ts, original) == rest;
        ChainFromMatchesReference(ts[1..], original, current, run);
      } else {
        var app := Applicable(ts, original);
        assert app == [ts[0]] + rest;
        assert app[1..] == rest;
        match run(ts[0], original)
        case Threw(c) =>
          assert FirstThrowing(app, original, run) == Some(ts[0]);
        case Returned(r) =>
          assert FirstThrowing(app, original, run) == FirstThrowing(rest, original, run);
          ChainFromMatchesReference(ts[1..], original, r, run);
          if rest != [] {
            assert app[|app| - 1] == rest[|rest| - 1];
          }
      }
    }
  }

  /** With no applicable transformer the entry comes back unchanged. */
  lemma ChainWithoutApplicable(ts: seq<TransformerId>, entry: LogEntry, run: (TransformerId, LogEntry) -> TransformOutcome)
    requires Applicable(ts, entry) == []
    ensures TransformChain(ts, entry, run) == Passed(Some(entry))
  {
    ChainFromMatchesReference(ts, entry, Some(entry), run);
  }

  /**
   * When no applicable transformer throws, the result is what the LAST
   * applicable transformer returned for the original entry (nothing when it
   * returned a falsy value), whatever the earlier ones returned.
   */
  lemma ChainLastWins(ts: seq<TransformerId>, entry: LogEntry, run: (TransformerId, LogEntry) -> TransformOutcome)
    requires Applicable(ts, entry) != []
    requires forall t :: t in ts && t !in ExcludedTransformers(entry) ==> run(t, entry).Returned?
    ensures var app := Applicable(ts, entry);
            TransformChain(ts, entry, run) == Passed(run(app[|app| - 1], entry).result)
  {
    ChainFromMatchesReference(ts, entry, Some(entry), run);
  }

  /** The first applicable transformer that throws makes the chain raise a `TransformError` for the original entry. */
  lemma ChainRaisesFirstThrow(ts: seq<TransformerId>, entry: LogEntry, run: (TransformerId, LogEntry) -> TransformOutcome)
    requires FirstThrowing(Applicable(ts, entry), entry, run).Some?
    ensures var t := FirstThrowing(Applicable(ts, entry), entry, run).value;
            TransformChain(ts, entry, run) == Failed(TransformError(t, entry, run(t, entry).cause))
  {
    ChainFromMatchesReference(ts, entry, Some(entry), run);
  }
}
