/**
 * The transport contract of transports/transport.ts: each transport has its
 * own on/off switch, minimum level, excluded levels and local transformers;
 * `write` is a gate followed by the local transformer chain and the
 * transport's own delivery (`this.log`, supplied by each concrete transport).
 */
module Transports {
  import opened Wrappers
  import opened Levels
  import opened Lists
  import opened Entries
  import opened Transformers

  /** `TransportOptions`; an absent field takes its default. */
  datatype TransportOptions = TransportOptions(
    enabled: Option<bool>,
    level: Option<Level>,
    excludeLevels: Option<seq<Level>>,
    transformers: Option<seq<TransformerId>>)

  /** The fields `write` reads. */
  datatype TransportState = TransportState(
    isEnabled: bool,
    level: Level,
    excludeLevels: seq<Level>,
    transformers: seq<TransformerId>)

  /**
   * What one `transport.write(entry, logger)` call does: nothing (gate
   * closed), a dropped entry, a `TransformError` raised by the local chain,
   * or a call of the delivery routine with the transformed entry, which may
   * throw (`failure`).
   */
  datatype WriteResult =
    | Skipped
    | Dropped
    | ChainFailed(error: Error)
    | Delivered(entry: LogEntry, failure: Option<Error>)
  {
    /** The error `write` lets escape to its caller, if any. */
    function Raised(): Option<Error> {
      match this
      case ChainFailed(e) => Some(e)
      case Delivered(_, failure) => failure
      case _ => None
    }
  }

  /** The gate of `write`: enabled, level not below the minimum, level not excluded. */
  predicate Admits(st: TransportState, entry: LogEntry) {
    st.isEnabled && !Below(entry.level, st.level) && entry.level !in st.excludeLevels
  }

  /** `write(entry, logger)`, with the logger's transformer behaviour `run` and this transport's delivery `deliver`. */
  function WriteState(st: TransportState, entry: LogEntry, run: (TransformerId, LogEntry) -> TransformOutcome,
                 deliver: LogEntry -> Option<Error>): (r: WriteResult)
    ensures r.Skipped? <==> !Admits(st, entry)
    ensures r.Dropped? <==> Admits(st, entry) && TransformChain(st.transformers, entry, run) == Passed(None)
    ensures r.ChainFailed? <==> Admits(st, entry) && TransformChain(st.transformers, entry, run).Failed?
    ensures r.ChainFailed? ==> r.error == TransformChain(st.transformers, entry, run).error
    ensures r.Delivered? <==> Admits(st, entry) && TransformChain(st.transformers, entry, run).Passed?
                              && TransformChain(st.transformers, entry, run).entry.Some?
    ensures r.Delivered? ==> TransformChain(st.transformers, entry, run) == Passed(Some(r.entry))
                             && r.failure == deliver(r.entry)
  {
    if !Admits(st, entry) then Skipped
    else
      match TransformChain(st.transformers, entry, run)
      case Failed(e) => ChainFailed(e)
      case Passed(None) => Dropped
      case Passed(Some(t)) => Delivered(t, deliver(t))
  }

  /** The state a transport starts in when built with `options`. */
  function InitialState(options: TransportOptions): TransportState {
    TransportState(
      options.enabled.GetOr(true),
      options.level.GetOr(NegInf),
      options.excludeLevels.GetOr([]),
      options.transformers.GetOr([]))
  }

  const DefaultOptions := TransportOptions(None, None, None, None)

  /** A transport built with the defaults hands every entry, unchanged, to its delivery routine. */
  lemma DefaultsDeliverEverything(entry: LogEntry, run: (TransformerId, LogEntry) -> TransformOutcome,
                                  deliver: LogEntry -> Option<Error>)
    ensures WriteState(InitialState(DefaultOptions), entry, run, deliver) == Delivered(entry, deliver(entry))
  {
    NegInfIsBottom(entry.level);
    ChainWithoutApplicable([], entry, run);
  }

  class Transport {
    var isEnabled: bool
    var level: Level
    var excludeLevels: seq<Level>
    var transformers: seq<TransformerId>

    function State(): TransportState
      reads this
    {
      TransportState(isEnabled, level, excludeLevels, transformers)
    }

    constructor(options: TransportOptions)
      ensures State() == InitialState(options)
    {
      isEnabled := options.enabled.GetOr(true);
      level := options.level.GetOr(NegInf);
      excludeLevels := options.excludeLevels.GetOr([]);
      transformers := options.transformers.GetOr([]);
    }

    method Enable()
      modifies this
      ensures State() == old(State()).(isEnabled := true)
    {
      isEnabled := true;
    }

    method Disable()
      modifies this
      ensures State() == old(State()).(isEnabled := false)
    {
      isEnabled := false;
    }

    method SetLevel(l: Level)
      modifies this
      ensures State() == old(State()).(level := l)
    {
      level := l;
    }

    /** `unique([...transformers, t])`: appended only when absent from a duplicate-free list. */
    method AddTransformer(t: TransformerId)
      modifies this
      ensures State() == old(State()).(transformers := Unique(old(transformers) + [t]))
      ensures NoDup(old(transformers)) ==>
                transformers == if t in old(transformers) then old(transformers) else old(transformers) + [t]
    {
      if NoDup(transformers) {
        UniqueAppend(transformers, t);
      }
      transformers := Unique(transformers + [t]);
    }

    /** Removal by identity; removing an absent transformer changes nothing. */
    method RemoveTransformer(t: TransformerId)
      modifies this
      ensures State() == old(State()).(transformers := Without(old(transformers), t))
      ensures t !in old(transformers) ==> State() == old(State())
    {
      transformers := Without(transformers, t);
    }

    /** `write(entry, logger)` on the current state. */
    function Write(entry: LogEntry, run: (TransformerId, LogEntry) -> TransformOutcome,
                   deliver: LogEntry -> Option<Error>): (r: WriteResult)
      reads this
      ensures !isEnabled ==> r == Skipped
      ensures Below(entry.level, level) || entry.level in excludeLevels ==> r == Skipped
    {
      WriteState(State(), entry, run, deliver)
    }
  }
}
