/**
 * Properties of the dispatcher of base-logger.ts: how an entry is built from
 * the call arguments, the order and exclusions of the transport fan-out, and
 * what the recursion through failing transports does.
 */
module Dispatch {
  import opened Wrappers
  import opened Levels
  import opened Lists
  import opened Text
  import opened Entries
  import opened Transformers
  import opened Transports
  import opened BaseLoggers

  // ---------------------------------------------------------------- gate

  /** A call is suppressed exactly when the logger is disabled, the level is below the threshold, or a filter refuses it. */
  lemma GateDecidesSuppression(cfg: Config, pl: Plugins, raw: RawLevel, message: Value, context: seq<Value>, fuel: nat)
    ensures var lvl := Resolve(cfg.resolver, raw);
            LogOutcome(cfg, pl, raw, message, context, fuel).Suppressed?
            <==> !cfg.isEnabled || Below(lvl, cfg.level)
                 || exists i :: 0 <= i < |cfg.filters| && !pl.filter(cfg.filters[i], FilterContext(cfg.name, lvl, message, context))
  {
  }

  // ------------------------------------------------------- entry building

  /** The errors among directive-free arguments, in order. */
  function ErrorsIn(items: seq<Value>): seq<Error> {
    if items == [] then []
    else (if items[0].ErrorValue? then [items[0].error] else []) + ErrorsIn(items[1..])
  }

  /** The context the directive-free arguments contribute: lazy context expanded, errors left out. */
  function ContextIn(items: seq<Value>, pl: Plugins): seq<Value> {
    if items == [] then []
    else
      (match items[0]
       case ErrorValue(_) => []
       case LazyContext(p) => pl.lazyContext(p)
       case _ => [items[0]])
      + ContextIn(items[1..], pl)
  }

  predicate NoEntryDirective(items: seq<Value>) {
    forall i :: 0 <= i < |items| ==> !items[i].EntryInput?
  }

  /** Filing arguments one at a time is a left fold: filing `a + b` files `a`, then `b`. */
  lemma {:induction false} ResolveContextConcat(entry: LogEntry, a: seq<Value>, b: seq<Value>, pl: Plugins)
    ensures ResolveContext(entry, a + b, pl) == ResolveContext(ResolveContext(entry, a, pl), b, pl)
    decreases |a|
  {
    if a == [] {
      assert a + b == b;
    } else {
      assert (a + b)[0] == a[0];
      assert (a + b)[1..] == a[1..] + b;
      ResolveContextConcat(Classify(entry, a[0], pl), a[1..], b, pl);
    }
  }

  /**
   * Without entry directives, errors go to `errors` and everything else to
   * `context` (lazy context spread), both in argument order; no other field
   * changes.
   */
  lemma {:induction false} ResolveContextFiles(entry: LogEntry, items: seq<Value>, pl: Plugins)
    requires NoEntryDirective(items)
    ensures ResolveContext(entry, items, pl)
            == entry.(context := entry.context + ContextIn(items, pl), errors := entry.errors + ErrorsIn(items))
    decreases |items|
  {
    if items == [] {
      assert entry.context + [] == entry.context;
      assert entry.errors + [] == entry.errors;
    } else {
      var next := Classify(entry, items[0], pl);
      assert NoEntryDirective(items[1..]) by {
        forall i | 0 <= i < |items[1..]| ensures !items[1..][i].EntryInput? {
          assert items[1..][i] == items[i + 1];
        }
      }
      ResolveContextFiles(next, items[1..], pl);
      ClassifyPlain(entry, items[0], pl);
      FiledSplit(items, pl);
      var c0, e0 := ContextIn([items[0]], pl), ErrorsIn([items[0]]);
      var c1, e1 := ContextIn(items[1..], pl), ErrorsIn(items[1..]);
      assert entry.context + c0 + c1 == entry.context + (c0 + c1);
      assert entry.errors + e0 + e1 == entry.errors + (e0 + e1);
    }
  }

  /** Filing one argument that is not an entry directive adds its context and its errors. */
  lemma ClassifyPlain(entry: LogEntry, item: Value, pl: Plugins)
    requires !item.EntryInput?
    ensures Classify(entry, item, pl)
            == entry.(context := entry.context + ContextIn([item], pl), errors := entry.errors + ErrorsIn([item]))
  {
    assert [item][1..] == [];
  }

  lemma FiledSplit(items: seq<Value>, pl: Plugins)
    requires items != []
    ensures ContextIn(items, pl) == ContextIn([items[0]], pl) + ContextIn(items[1..], pl)
    ensures ErrorsIn(items) == ErrorsIn([items[0]]) + ErrorsIn(items[1..])
  {
    assert [items[0]][1..] == [];
  }

  /**
   * Whatever entry directives follow, a string message leaves the entry with
   * a message, and an error given as the message is the entry's first error.
   */
  lemma MessageSurvivesDirectives(cfg: Config, pl: Plugins, lvl: Level, message: Value, context: seq<Value>)
    ensures message.Str? ==> EntryOf(cfg, pl, lvl, message, context).message.Some?
    ensures var e := EntryOf(cfg, pl, lvl, message, context);
            message.ErrorValue? ==> |e.errors| > 0 && e.errors[0] == message.error
  {
    var start := FreshEntry(cfg, pl, lvl);
    if message.Str? {
      ResolveContextAppends(start.(message := Some(message.s)), context, pl);
    } else if message.ErrorValue? {
      var filed := Classify(start, message, pl);
      assert filed.errors == [message.error];
      assert ([message] + context)[1..] == context;
      ResolveContextAppends(filed, context, pl);
    }
  }

  /** `log(level, "text", ...context)` without directives: the string is the message, the rest is filed. */
  lemma StringMessageEntry(cfg: Config, pl: Plugins, lvl: Level, s: string, context: seq<Value>)
    requires NoEntryDirective(context)
    ensures EntryOf(cfg, pl, lvl, Str(s), context)
            == LogEntry(pl.now, lvl, None, Some(s), ContextIn(context, pl), ErrorsIn(context), map[], Some(Instance(cfg.name)), None)
  {
    ResolveContextFiles(FreshEntry(cfg, pl, lvl).(message := Some(s)), context, pl);
  }

  /**
   * A message that is neither undefined nor a string (an error, a number, an
   * object...) leaves the message absent and is filed first, as though it
   * were the first context argument.
   */
  lemma OtherMessageEntry(cfg: Config, pl: Plugins, lvl: Level, message: Value, context: seq<Value>)
    requires message != Undefined && !message.Str? && !message.LazyMessage? && !message.EntryInput?
    requires NoEntryDirective(context)
    ensures var e := EntryOf(cfg, pl, lvl, message, context);
            && e.message == None
            && e.errors == ErrorsIn([message] + context)
            && e.context == ContextIn([message] + context, pl)
  {
    assert NoEntryDirective([message] + context) by {
      forall i | 0 <= i < |[message] + context| ensures !([message] + context)[i].EntryInput? {
        if i > 0 { assert ([message] + context)[i] == context[i - 1]; }
      }
    }
    ResolveContextFiles(FreshEntry(cfg, pl, lvl), [message] + context, pl);
  }

  /**
   * A lazy message is invoked once and its value used as the message; when
   * that value is undefined it is not dropped but filed as a context value.
   */
  lemma LazyMessageEntry(cfg: Config, pl: Plugins, lvl: Level, p: nat, context: seq<Value>)
    ensures var m := pl.lazyMessage(p);
            m.Str? ==> EntryOf(cfg, pl, lvl, LazyMessage(p), context) == EntryOf(cfg, pl, lvl, m, context)
    ensures pl.lazyMessage(p) == Undefined ==>
            EntryOf(cfg, pl, lvl, LazyMessage(p), context) == ResolveContext(FreshEntry(cfg, pl, lvl), [Undefined] + context, pl)
  {
  }

  /** `stopTimer(id, level, "text")`: the entry carries the elapsed time as `metadata.timer`. */
  lemma TimerEntry(cfg: Config, pl: Plugins, lvl: Level, s: string, elapsed: int)
    ensures var e := EntryOf(cfg, pl, lvl, Str(s), [EntryInput(TimerInput(elapsed))]);
            e.metadata == map["timer" := elapsed] && e.message == Some(s) && e.errors == [] && e.context == []
            && ExcludedTransports(e) == [] && ExcludedTransformers(e) == []
  {
    var start := FreshEntry(cfg, pl, lvl).(message := Some(s));
    assert ResolveContext(start, [EntryInput(TimerInput(elapsed))], pl) == MergeEntry(start, TimerInput(elapsed));
    assert map[] + map["timer" := elapsed] == map["timer" := elapsed];
  }

  /** Two generated timer ids differ whenever their counter values differ. */
  lemma TimerIdsDistinct(m: nat, n: nat)
    requires m != n
    ensures TimerId(m) != TimerId(n)
  {
    NatToStringValue(m);
    NatToStringValue(n);
    assert TimerId(m)[6..] == NatToString(m);
    assert TimerId(n)[6..] == NatToString(n);
  }

  /**
   * The entry of a failed transport's report: no message, the
   * `TransportError` as its only error, no context, and `t` as its only
   * excluded transport.
   */
  lemma ReportEntry(cfg: Config, pl: Plugins, lvl: Level, t: TransportId, x: LogEntry, cause: Error)
    ensures var e := EntryOf(cfg, pl, lvl, ErrorValue(TransportError(t, x, cause)), [EntryInput(ExcludeTransportInput(t))]);
            && e.level == lvl && e.message == None && e.context == []
            && e.errors == [TransportError(t, x, cause)]
            && ExcludedTransports(e) == [t] && ExcludedTransformers(e) == []
  {
    var err := TransportError(t, x, cause);
    var filed := FreshEntry(cfg, pl, lvl).(errors := [err]);
    ReportIsMerge(cfg, pl, lvl, err, t);
    ReportMerge(filed, t);
  }

  /** The report's entry is the fresh entry with the error filed, merged with the exclusion directive. */
  lemma ReportIsMerge(cfg: Config, pl: Plugins, lvl: Level, err: Error, t: TransportId)
    ensures EntryOf(cfg, pl, lvl, ErrorValue(err), [EntryInput(ExcludeTransportInput(t))])
            == MergeEntry(FreshEntry(cfg, pl, lvl).(errors := [err]), ExcludeTransportInput(t))
  {
    var directive := EntryInput(ExcludeTransportInput(t));
    var filed := FreshEntry(cfg, pl, lvl).(errors := [err]);
    ErrorMessageFiledFirst(cfg, pl, lvl, err, [directive]);
    assert [directive][1..] == [];
    assert ResolveContext(filed, [directive], pl) == ResolveContext(Classify(filed, directive, pl), [], pl);
  }

  /** An error given as the message is filed before the context arguments. */
  lemma ErrorMessageFiledFirst(cfg: Config, pl: Plugins, lvl: Level, err: Error, context: seq<Value>)
    ensures EntryOf(cfg, pl, lvl, ErrorValue(err), context)
            == ResolveContext(FreshEntry(cfg, pl, lvl).(errors := [err]), context, pl)
  {
    var start := FreshEntry(cfg, pl, lvl);
    assert ([ErrorValue(err)] + context)[0] == ErrorValue(err);
    assert ([ErrorValue(err)] + context)[1..] == context;
    assert Classify(start, ErrorValue(err), pl) == start.(errors := [err]);
  }

  lemma ResolveTwo(entry: LogEntry, a: Value, b: Value, pl: Plugins)
    ensures ResolveContext(entry, [a, b], pl) == Classify(Classify(entry, a, pl), b, pl)
  {
    var once := Classify(entry, a, pl);
    var twice := Classify(once, b, pl);
    assert [a, b][1..] == [b];
    assert [b][1..] == [];
    assert ResolveContext(twice, [], pl) == twice;
    assert ResolveContext(once, [b], pl) == ResolveContext(twice, [], pl);
    assert ResolveContext(entry, [a, b], pl) == ResolveContext(once, [b], pl);
  }

  lemma ReportMerge(filed: LogEntry, t: TransportId)
    requires filed.exclude == None
    ensures var e := MergeEntry(filed, ExcludeTransportInput(t));
            && e.level == filed.level && e.message == filed.message && e.context == filed.context
            && e.errors == filed.errors && ExcludedTransports(e) == [t] && ExcludedTransformers(e) == []
  {
    MergeExcludesTransport(filed, t);
    var e := MergeEntry(filed, ExcludeTransportInput(t));
    assert e.context[..|filed.context|] == filed.context;
    assert e.errors[..|filed.errors|] == filed.errors;
  }

  // --------------------------------------------------------------- fan-out

  /** The transports of `ts`, in order, that `excluded` does not name. */
  function Targets(ts: seq<TransportId>, excluded: seq<TransportId>): (r: seq<TransportId>)
    ensures forall t :: t in r <==> t in ts && t !in excluded
    ensures |r| <= |ts|
  {
    if ts == [] then [] else (if ts[0] in excluded then [] else [ts[0]]) + Targets(ts[1..], excluded)
  }

  function DeliveredTo(ds: seq<Delivery>): (r: seq<TransportId>)
    ensures |r| == |ds|
    ensures forall i :: 0 <= i < |ds| ==> r[i] == ds[i].transport
  {
    seq(|ds|, i requires 0 <= i < |ds| => ds[i].transport)
  }

  /** Every delivery of a fan-out keeps the exclusions of the entry it started from. */
  lemma {:induction false} FanOutKeepsExclusions(cfg: Config, pl: Plugins, entry: LogEntry, ts: seq<TransportId>, fuel: nat)
    ensures forall i :: 0 <= i < |FanOut(cfg, pl, entry, ts, fuel).deliveries| ==>
              ExcludedTransports(FanOut(cfg, pl, entry, ts, fuel).deliveries[i].entry) == ExcludedTransports(entry)
    decreases |ts|
  {
    if ts != [] {
      if ts[0] in ExcludedTransports(entry) {
        FanOutKeepsExclusions(cfg, pl, entry, ts[1..], fuel);
        assert FanOut(cfg, pl, entry, ts, fuel) == FanOut(cfg, pl, entry, ts[1..], fuel);
      } else {
        var d := DeliverTo(cfg, pl, ts[0], entry, fuel);
        assert ExcludedTransports(d.entry) == ExcludedTransports(entry);
        if ReportRaised(d.report).None? {
          FanOutKeepsExclusions(cfg, pl, d.entry, ts[1..], fuel);
          var rest := FanOut(cfg, pl, d.entry, ts[1..], fuel).deliveries;
          var ds := FanOut(cfg, pl, entry, ts, fuel).deliveries;
          assert ds == [d] + rest;
          forall i | 0 <= i < |ds| ensures ExcludedTransports(ds[i].entry) == ExcludedTransports(entry) {
            if i == 0 {
              assert ds[0] == d;
            } else {
              assert ds[i] == rest[i - 1];
              assert ExcludedTransports(rest[i - 1].entry) == ExcludedTransports(d.entry);
            }
          }
        } else {
          assert FanOut(cfg, pl, entry, ts, fuel).deliveries == [d];
        }
      }
    }
  }

  /**
   * The fan-out writes to the transports the entry does not exclude, once
   * each, in registration order; it stops early only after a delivery whose
   * report threw.
   */
  lemma {:induction false} FanOutFollowsRegistration(cfg: Config, pl: Plugins, entry: LogEntry, ts: seq<TransportId>, fuel: nat)
    ensures var f := FanOut(cfg, pl, entry, ts, fuel);
            && DeliveredTo(f.deliveries) <= Targets(ts, ExcludedTransports(entry))
            && (f.raised.None? ==> DeliveredTo(f.deliveries) == Targets(ts, ExcludedTransports(entry)))
    decreases |ts|
  {
    var x := ExcludedTransports(entry);
    if ts == [] {
    } else if ts[0] in x {
      FanOutFollowsRegistration(cfg, pl, entry, ts[1..], fuel);
      assert Targets(ts, x) == Targets(ts[1..], x);
    } else {
      var d := DeliverTo(cfg, pl, ts[0], entry, fuel);
      FanOutHead(cfg, pl, entry, ts, fuel);
      assert Targets(ts, x) == [ts[0]] + Targets(ts[1..], x);
      if ReportRaised(d.report).None? {
        FanOutFollowsRegistration(cfg, pl, d.entry, ts[1..], fuel);
        DeliveredToCons(d, FanOut(cfg, pl, d.entry, ts[1..], fuel).deliveries);
      } else {
        DeliveredToCons(d, []);
      }
    }
  }

  /** One delivery of the fan-out: it keeps the exclusions, and the rest follows unless its report threw. */
  lemma FanOutHead(cfg: Config, pl: Plugins, entry: LogEntry, ts: seq<TransportId>, fuel: nat)
    requires ts != [] && ts[0] !in ExcludedTransports(entry)
    ensures var d := DeliverTo(cfg, pl, ts[0], entry, fuel);
            var f := FanOut(cfg, pl, entry, ts, fuel);
            && ExcludedTransports(d.entry) == ExcludedTransports(entry)
            && (ReportRaised(d.report).Some? ==> f.deliveries == [d])
            && (ReportRaised(d.report).None? ==>
                  f.deliveries == [d] + FanOut(cfg, pl, d.entry, ts[1..], fuel).deliveries)
  {
  }

  lemma DeliveredToCons(d: Delivery, ds: seq<Delivery>)
    ensures DeliveredTo([d] + ds) == [d.transport] + DeliveredTo(ds)
  {
    assert forall i :: 0 < i < |ds| + 1 ==> ([d] + ds)[i] == ds[i - 1];
  }

  /** Only the last delivery's report may throw, and the fan-out throws exactly what it threw. */
  lemma {:induction false} FanOutStopsAtThrow(cfg: Config, pl: Plugins, entry: LogEntry, ts: seq<TransportId>, fuel: nat)
    ensures var f := FanOut(cfg, pl, entry, ts, fuel);
            && (forall i :: 0 <= i < |f.deliveries| - 1 ==> ReportRaised(f.deliveries[i].report).None?)
            && (f.raised.None? <==> f.deliveries == [] || ReportRaised(f.deliveries[|f.deliveries| - 1].report).None?)
            && (f.raised.Some? ==> f.raised == ReportRaised(f.deliveries[|f.deliveries| - 1].report))
    decreases |ts|
  {
    if ts != [] {
      if ts[0] in ExcludedTransports(entry) {
        FanOutStopsAtThrow(cfg, pl, entry, ts[1..], fuel);
      } else {
        var d := DeliverTo(cfg, pl, ts[0], entry, fuel);
        if ReportRaised(d.report).None? {
          FanOutStopsAtThrow(cfg, pl, d.entry, ts[1..], fuel);
          var rest := FanOut(cfg, pl, d.entry, ts[1..], fuel).deliveries;
          var ds := FanOut(cfg, pl, entry, ts, fuel).deliveries;
          assert ds == [d] + rest;
          forall i | 0 <= i < |ds| - 1 ensures ReportRaised(ds[i].report).None? {
            if i > 0 { assert ds[i] == rest[i - 1]; }
          }
          if rest != [] { assert ds[|ds| - 1] == rest[|rest| - 1]; }
        }
      }
    }
  }

  /**
   * The message is stripped of ANSI codes in place, so every transport after
   * the first receives the entry as the previous transport left it.
   */
  lemma {:induction false} FanOutStripsCumulatively(cfg: Config, pl: Plugins, entry: LogEntry, ts: seq<TransportId>, fuel: nat)
    ensures var ds := FanOut(cfg, pl, entry, ts, fuel).deliveries;
            && (|ds| > 0 ==> ds[0].entry == StripMessage(entry, pl.stripAnsi))
            && (forall i :: 0 < i < |ds| ==> ds[i].entry == StripMessage(ds[i - 1].entry, pl.stripAnsi))
    decreases |ts|
  {
    if ts != [] {
      if ts[0] in ExcludedTransports(entry) {
        FanOutStripsCumulatively(cfg, pl, entry, ts[1..], fuel);
      } else {
        var d := DeliverTo(cfg, pl, ts[0], entry, fuel);
        if ReportRaised(d.report).None? {
          FanOutStripsCumulatively(cfg, pl, d.entry, ts[1..], fuel);
          var rest := FanOut(cfg, pl, d.entry, ts[1..], fuel).deliveries;
          var ds := FanOut(cfg, pl, entry, ts, fuel).deliveries;
          assert ds == [d] + rest;
          forall i | 0 < i < |ds| ensures ds[i].entry == StripMessage(ds[i - 1].entry, pl.stripAnsi) {
            assert ds[i] == rest[i - 1];
            if i > 1 { assert ds[i - 1] == rest[i - 2]; }
          }
        }
      }
    }
  }

  /** A dispatched report never writes to the transport it reports on while its entry still excludes it. */
  lemma ReportSkipsFailedTransport(cfg: Config, pl: Plugins, t: TransportId, x: LogEntry, cause: Error, fuel: nat)
    ensures var r := ReportOf(cfg, pl, t, x, cause, fuel);
            r.Dispatched? && t in ExcludedTransports(r.entry) ==> t !in DeliveredTo(r.deliveries)
    ensures var r := ReportOf(cfg, pl, t, x, cause, fuel);
            r.Dispatched? && cfg.transformers == [] ==> t !in DeliveredTo(r.deliveries)
  {
    var r := ReportOf(cfg, pl, t, x, cause, fuel);
    if r.Dispatched? {
      FanOutFollowsRegistration(cfg, pl, r.entry, cfg.transports, fuel);
      if cfg.transformers == [] {
        ReportEntry(cfg, pl, Resolve(cfg.resolver, cfg.fatalLevel), t, x, cause);
      }
    }
  }

  /**
   * A transport whose `write` is the transport contract with state `st` never
   * delivers an entry at an excluded level: the call is skipped and nothing
   * is reported.
   */
  lemma ExcludedLevelIsSkipped(cfg: Config, pl: Plugins, t: TransportId, entry: LogEntry, fuel: nat, st: TransportState,
                               run: (TransformerId, LogEntry) -> TransformOutcome, deliver: LogEntry -> Option<Error>)
    requires forall e :: pl.write(t, e) == WriteState(st, e, run, deliver)
    requires entry.level in st.excludeLevels
    ensures DeliverTo(cfg, pl, t, entry, fuel).result == Skipped
    ensures DeliverTo(cfg, pl, t, entry, fuel).report == NoReport
  {
    var d := DeliverTo(cfg, pl, t, entry, fuel);
    assert !Admits(st, d.entry);
  }

  // ------------------------------------------------- recursion of reports

  /** A log call that ran out of fuel nowhere: every failure it met was reported, recursively. */
  predicate Settled(r: LogResult)
    decreases r, 1
  {
    r.Dispatched? ==> forall i :: 0 <= i < |r.deliveries| ==> DeliverySettled(r.deliveries[i])
  }

  predicate DeliverySettled(d: Delivery)
    decreases d, 0
  {
    match d.report
    case NoReport => true
    case Unreported => false
    case Reported(r) => Settled(r)
  }

  /** When no transport the entry reaches can throw, the fan-out reports nothing and throws nothing. */
  lemma {:induction false} HealthyFanOutSettles(cfg: Config, pl: Plugins, entry: LogEntry, ts: seq<TransportId>, fuel: nat)
    requires forall t, y :: t in ts && t !in ExcludedTransports(entry) ==> pl.write(t, y).Raised().None?
    ensures var f := FanOut(cfg, pl, entry, ts, fuel);
            f.raised.None? && forall i :: 0 <= i < |f.deliveries| ==> f.deliveries[i].report == NoReport
    decreases |ts|
  {
    if ts != [] {
      if ts[0] in ExcludedTransports(entry) {
        HealthyFanOutSettles(cfg, pl, entry, ts[1..], fuel);
      } else {
        var d := DeliverTo(cfg, pl, ts[0], entry, fuel);
        assert ExcludedTransports(d.entry) == ExcludedTransports(entry);
        HealthyFanOutSettles(cfg, pl, d.entry, ts[1..], fuel);
        var rest := FanOut(cfg, pl, d.entry, ts[1..], fuel).deliveries;
        assert FanOut(cfg, pl, entry, ts, fuel).deliveries == [d] + rest;
      }
    }
  }

  /**
   * With a single transport `a` that can throw and no global transformers,
   * the report of `a`'s failure settles at once: its entry excludes `a`, so
   * the report reaches only transports that do not throw.
   */
  lemma SingleFailureReportSettles(cfg: Config, pl: Plugins, a: TransportId, x: LogEntry, cause: Error, fuel: nat)
    requires cfg.transformers == []
    requires forall t, y :: t != a ==> pl.write(t, y).Raised().None?
    ensures var r := ReportOf(cfg, pl, a, x, cause, fuel);
            Settled(r) && r.Raised().None?
  {
    var lvl := Resolve(cfg.resolver, cfg.fatalLevel);
    var message := ErrorValue(TransportError(a, x, cause));
    var context := [EntryInput(ExcludeTransportInput(a))];
    if IsLevelEnabled(cfg, lvl) && IsLoggable(cfg, pl, lvl, message, context) {
      var e := EntryOf(cfg, pl, lvl, message, context);
      ReportEntry(cfg, pl, lvl, a, x, cause);
      assert TransformChain(cfg.transformers, e, pl.transform) == Passed(Some(e));
      HealthyFanOutSettles(cfg, pl, e, cfg.transports, fuel);
    }
  }

  /** The fan-out of a call with one throwing transport, given fuel for one report, settles and throws nothing. */
  lemma {:induction false} SingleFailureFanOutSettles(cfg: Config, pl: Plugins, a: TransportId, entry: LogEntry, ts: seq<TransportId>, fuel: nat)
    requires fuel >= 1
    requires cfg.transformers == []
    requires forall t, y :: t != a ==> pl.write(t, y).Raised().None?
    ensures var f := FanOut(cfg, pl, entry, ts, fuel);
            f.raised.None? && forall i :: 0 <= i < |f.deliveries| ==> DeliverySettled(f.deliveries[i])
    decreases |ts|
  {
    if ts != [] {
      if ts[0] in ExcludedTransports(entry) {
        SingleFailureFanOutSettles(cfg, pl, a, entry, ts[1..], fuel);
      } else {
        var d := DeliverTo(cfg, pl, ts[0], entry, fuel);
        var w := pl.write(ts[0], d.entry);
        if w.Raised().Some? {
          SingleFailureReportSettles(cfg, pl, ts[0], d.entry, w.Raised().value, fuel - 1);
        }
        assert DeliverySettled(d) && ReportRaised(d.report).None?;
        SingleFailureFanOutSettles(cfg, pl, a, d.entry, ts[1..], fuel);
        var rest := FanOut(cfg, pl, d.entry, ts[1..], fuel).deliveries;
        assert FanOut(cfg, pl, entry, ts, fuel).deliveries == [d] + rest;
      }
    }
  }

  /** A log call with one throwing transport and no global transformers needs one level of report and no more. */
  lemma SingleFailureSettles(cfg: Config, pl: Plugins, a: TransportId, raw: RawLevel, message: Value, context: seq<Value>, fuel: nat)
    requires fuel >= 1
    requires cfg.transformers == []
    requires forall t, y :: t != a ==> pl.write(t, y).Raised().None?
    ensures var r := LogOutcome(cfg, pl, raw, message, context, fuel);
            Settled(r) && r.Raised().None?
  {
    var r := LogOutcome(cfg, pl, raw, message, context, fuel);
    if r.Dispatched? {
      SingleFailureFanOutSettles(cfg, pl, a, r.entry, cfg.transports, fuel);
    }
  }

  /** Every report of a failure of `u` with this much fuel leaves some failure unreported. */
  ghost predicate ReportsNeverSettle(cfg: Config, pl: Plugins, u: TransportId, fuel: nat) {
    forall y, c :: !Settled(ReportOf(cfg, pl, u, y, c, fuel))
  }

  /**
   * A fan-out that reaches a transport `u` that always throws, whose report
   * never settles with one less fuel, does not settle either.
   */
  lemma {:induction false} FanOutNeverSettles(cfg: Config, pl: Plugins, entry: LogEntry, ts: seq<TransportId>, u: TransportId, fuel: nat)
    requires u in ts && u !in ExcludedTransports(entry)
    requires forall y :: pl.write(u, y).Raised().Some?
    requires forall t, y :: t in ts && t != u && t !in ExcludedTransports(entry) ==> pl.write(t, y).Raised().None?
    requires fuel > 0 ==> ReportsNeverSettle(cfg, pl, u, fuel - 1)
    ensures exists i :: 0 <= i < |FanOut(cfg, pl, entry, ts, fuel).deliveries|
                        && !DeliverySettled(FanOut(cfg, pl, entry, ts, fuel).deliveries[i])
    decreases |ts|
  {
    var ds := FanOut(cfg, pl, entry, ts, fuel).deliveries;
    assert ts == [ts[0]] + ts[1..];
    if ts[0] in ExcludedTransports(entry) {
      FanOutNeverSettles(cfg, pl, entry, ts[1..], u, fuel);
    } else {
      var d := DeliverTo(cfg, pl, ts[0], entry, fuel);
      assert ds[0] == d;
      if ts[0] == u {
        var w := pl.write(u, d.entry);
        assert w.Raised().Some?;
        if fuel > 0 {
          assert d.report == Reported(ReportOf(cfg, pl, u, d.entry, w.Raised().value, fuel - 1));
          assert !Settled(ReportOf(cfg, pl, u, d.entry, w.Raised().value, fuel - 1));
        } else {
          assert d.report == Unreported;
        }
        assert !DeliverySettled(ds[0]);
      } else {
        assert ExcludedTransports(d.entry) == ExcludedTransports(entry);
        FanOutNeverSettles(cfg, pl, d.entry, ts[1..], u, fuel);
        var rest := FanOut(cfg, pl, d.entry, ts[1..], fuel).deliveries;
        assert ds == [d] + rest;
        var i :| 0 <= i < |rest| && !DeliverySettled(rest[i]);
        assert ds[i + 1] == rest[i];
        assert 0 <= i + 1 < |ds| && !DeliverySettled(ds[i + 1]);
      }
    }
  }

  /**
   * Two registered transports `a` and `b` that always throw, with nothing
   * else to stop the reports (no global transformers or filters, and the
   * fatal level passes the threshold): the report of `a` excludes only `a`,
   * so it writes to `b`, whose report excludes only `b` and writes to `a`,
   * and so on. No amount of fuel settles it.
   */
  lemma TwoFailuresNeverSettle(cfg: Config, pl: Plugins, a: TransportId, b: TransportId, x: LogEntry, cause: Error, fuel: nat)
    requires a != b && a in cfg.transports && b in cfg.transports
    requires cfg.transformers == [] && cfg.filters == []
    requires IsLevelEnabled(cfg, Resolve(cfg.resolver, cfg.fatalLevel))
    requires forall y :: pl.write(a, y).Raised().Some?
    requires forall y :: pl.write(b, y).Raised().Some?
    requires forall t, y :: t != a && t != b ==> pl.write(t, y).Raised().None?
    ensures !Settled(ReportOf(cfg, pl, a, x, cause, fuel))
    decreases fuel
  {
    var lvl := Resolve(cfg.resolver, cfg.fatalLevel);
    var message := ErrorValue(TransportError(a, x, cause));
    var context := [EntryInput(ExcludeTransportInput(a))];
    var e := EntryOf(cfg, pl, lvl, message, context);
    ReportEntry(cfg, pl, lvl, a, x, cause);
    assert IsLoggable(cfg, pl, lvl, message, context);
    assert TransformChain(cfg.transformers, e, pl.transform) == Passed(Some(e));
    if fuel > 0 {
      var prev: nat := fuel - 1;
      forall y, c ensures !Settled(ReportOf(cfg, pl, b, y, c, prev)) {
        TwoFailuresNeverSettle(cfg, pl, b, a, y, c, prev);
      }
      assert ReportsNeverSettle(cfg, pl, b, prev);
    }
    FanOutNeverSettles(cfg, pl, e, cfg.transports, b, fuel);
  }

  /** Hence a plain call with exactly those two transports registered never settles, whatever the fuel. */
  lemma TwoFailuresLoopForever(cfg: Config, pl: Plugins, a: TransportId, b: TransportId, raw: RawLevel, s: string, fuel: nat)
    requires a != b && cfg.transports == [a, b]
    requires cfg.transformers == [] && cfg.filters == []
    requires IsLevelEnabled(cfg, Resolve(cfg.resolver, cfg.fatalLevel))
    requires IsLevelEnabled(cfg, Resolve(cfg.resolver, raw))
    requires forall y :: pl.write(a, y).Raised().Some?
    requires forall y :: pl.write(b, y).Raised().Some?
    requires forall t, y :: t != a && t != b ==> pl.write(t, y).Raised().None?
    ensures !Settled(LogOutcome(cfg, pl, raw, Str(s), [], fuel))
  {
    var lvl := Resolve(cfg.resolver, raw);
    var e := EntryOf(cfg, pl, lvl, Str(s), []);
    assert e == FreshEntry(cfg, pl, lvl).(message := Some(s));
    assert IsLoggable(cfg, pl, lvl, Str(s), []);
    assert TransformChain(cfg.transformers, e, pl.transform) == Passed(Some(e));
    var ds := FanOut(cfg, pl, e, cfg.transports, fuel).deliveries;
    var d := DeliverTo(cfg, pl, a, e, fuel);
    assert ds[0] == d;
    if fuel > 0 {
      var w := pl.write(a, d.entry);
      TwoFailuresNeverSettle(cfg, pl, a, b, d.entry, w.Raised().value, fuel - 1);
    }
    assert !DeliverySettled(ds[0]);
  }

  // --------------------------------------------------------------- streams

  /**
   * `getStream` indexes the error-level list by the level: with the error
   * levels `[50, 60]` of `Logger`, ERROR (50) and FATAL (60) go to stdout,
   * while level 1 goes to stderr.
   */
  lemma GetStreamIndexesByPosition()
    ensures GetStream([Num(50), Num(60)], Num(50)) == Stdout
    ensures GetStream([Num(50), Num(60)], Num(60)) == Stdout
    ensures GetStream([Num(50), Num(60)], Num(1)) == Stderr
    ensures GetStreamByMembership([Num(50), Num(60)], Num(50)) == Stderr
    ensures GetStreamByMembership([Num(50), Num(60)], Num(60)) == Stderr
  {
  }

  /** `log` sends a dispatched entry to the error stream exactly when the error-level list holds a truthy element at the position its level names. */
  lemma DispatchedStreamIsPositional(cfg: Config, pl: Plugins, level: RawLevel, message: Value,
                                     context: seq<Value>, fuel: nat)
    ensures var r := LogOutcome(cfg, pl, level, message, context, fuel);
            var lvl := if r.Dispatched? then r.entry.level else NegInf;
            r.Dispatched? ==> (r.stream == Stderr
                               <==> (!lvl.NegInf? && 0 <= lvl.n < |cfg.errorLevels| && cfg.errorLevels[lvl.n] != Num(0)))
  {
  }

  /**
   * A log call as the library evidently intends it: the outcome of `log`,
   * except that a dispatched entry goes to the error stream exactly when its
   * level is one of the error levels. Only the outermost call is corrected:
   * the reports of failed transports inside `deliveries` are kept as `log`
   * builds them, with their positional stream.
   */
  function IntendedOutcome(cfg: Config, pl: Plugins, level: RawLevel, message: Value, context: seq<Value>, fuel: nat): (r: LogResult)
    ensures r.Dispatched? ==> (r.stream == Stderr <==> r.entry.level in cfg.errorLevels)
  {
    var w := LogOutcome(cfg, pl, level, message, context, fuel);
    if w.Dispatched? then w.(stream := GetStreamByMembership(cfg.errorLevels, w.entry.level)) else w
  }

  /** The correction changes the stream and nothing else: same gate, same entry, same deliveries, same error thrown. */
  lemma IntendedOutcomeChangesOnlyStream(cfg: Config, pl: Plugins, level: RawLevel, message: Value, context: seq<Value>, fuel: nat)
    ensures var w := LogOutcome(cfg, pl, level, message, context, fuel);
            var r := IntendedOutcome(cfg, pl, level, message, context, fuel);
            (r.Dispatched? <==> w.Dispatched?) && (!w.Dispatched? ==> r == w) && r.Raised() == w.Raised()
            && (w.Dispatched? ==> r.entry == w.entry && r.deliveries == w.deliveries)
  {
  }

  /**
   * Corrected, the report of a failed transport (a log call at the fatal
   * level, which the constructor adds to the error levels) goes to stderr
   * whenever it is dispatched with its level unchanged.
   */
  lemma FatalGoesToErrorStream(cfg: Config, pl: Plugins, t: TransportId, x: LogEntry, cause: Error, fuel: nat)
    requires Resolve(cfg.resolver, cfg.fatalLevel) in cfg.errorLevels
    ensures var r := IntendedOutcome(cfg, pl, cfg.fatalLevel, ErrorValue(TransportError(t, x, cause)),
                                     [EntryInput(ExcludeTransportInput(t))], fuel);
            r.Dispatched? && r.entry.level == Resolve(cfg.resolver, cfg.fatalLevel) ==> r.stream == Stderr
  {
  }
}
