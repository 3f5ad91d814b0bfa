/**
 * The progress bar (utils/progress-bar.ts): a value clamped into
 * `[0, total]`, a string payload merged key by key, and the `[===---]` bar.
 * The spinner it drives and the message it prints are not part of this
 * model; `stop()` is reported to the caller instead.
 */
module ProgressBars {
  import opened Wrappers
  import opened Text

  type Payload = map<string, string>

  /** `ProgressBarOptions` without the spinner's own options. */
  datatype ProgressBarOptions = ProgressBarOptions(format: Option<string>, barSize: Option<int>,
                                                   stopOnComplete: Option<bool>)

  /** The first argument of `update` and `increment`: a number or a payload object. */
  datatype UpdateValue = Number(n: int) | Fields(fields: Payload)

  const DefaultFormat: string := "{bar} | {percentage}% | {value}/{total}"
  const DefaultBarSize: int := 40

  /** `Math.max(Math.min(n, total), 0)`. */
  function Clamp(n: int, total: int): (r: int)
    ensures 0 <= r
    ensures total >= 0 ==> r <= total
    ensures total < 0 ==> r == 0
    ensures 0 <= n <= total ==> r == n
    ensures n < 0 ==> r == 0
    ensures total >= 0 && n > total ==> r == total
  {
    var low := if n < total then n else total;
    if low > 0 then low else 0
  }

  /** `{ ...a, ...b }`: every key of either, the later object's value winning. */
  function Spread(a: Payload, b: Payload): (r: Payload)
    ensures r.Keys == a.Keys + b.Keys
    ensures forall k :: k in b ==> r[k] == b[k]
    ensures forall k :: k in a && k !in b ==> r[k] == a[k]
  {
    a + b
  }

  /** The keys `update(value, payload)` merges into the payload: the object argument, then `payload`. */
  function Added(value: UpdateValue, payload: Option<Payload>): Payload {
    if value.Fields? then Spread(value.fields, payload.GetOr(map[])) else payload.GetOr(map[])
  }

  /** The step `increment(delta)` adds: a numeric delta, otherwise one. */
  function Step(delta: Option<UpdateValue>): int {
    if delta.Some? && delta.value.Number? then delta.value.n else 1
  }

  /** The payload `increment(delta, payload)` passes on: an object delta spread under `payload`. */
  function IncrementPayload(delta: Option<UpdateValue>, payload: Option<Payload>): (r: Option<Payload>)
    ensures !(delta.Some? && delta.value.Fields?) ==> r == payload
    ensures delta.Some? && delta.value.Fields? ==> r.Some? && r.value.Keys == delta.value.fields.Keys + payload.GetOr(map[]).Keys
  {
    if delta.Some? && delta.value.Fields? then Some(Spread(delta.value.fields, payload.GetOr(map[]))) else payload
  }

  /**
   * `Math.floor(barSize * percent / 100)` with `percent = value / total * 100`,
   * taken over the rationals: the largest whole number of cells not above
   * the filled share of `barSize`.
   */
  function BarLength(barSize: int, value: int, total: int): (r: int)
    requires total > 0
    ensures r * total <= barSize * value < r * total + total
  {
    (barSize * value) / total
  }

  /** A bar for a value in `[0, total]` has between none and all of its cells filled. */
  lemma BarLengthInRange(barSize: nat, value: int, total: int)
    requires 0 <= value <= total && total > 0
    ensures 0 <= BarLength(barSize, value, total) <= barSize
    ensures value == total ==> BarLength(barSize, value, total) == barSize
    ensures value == 0 ==> BarLength(barSize, value, total) == 0
  {
    var r := BarLength(barSize, value, total);
    assert barSize * value <= barSize * total by {
      MulLeftMonotone(barSize, value, total);
    }
    if r > barSize {
      MulRightMonotone(barSize + 1, r, total);
      assert false;
    }
    if r < 0 {
      assert false;
    }
    if value == total {
      if r < barSize {
        MulRightMonotone(r + 1, barSize, total);
        assert false;
      }
    }
  }

  /** A larger value never shows fewer filled cells. */
  lemma BarLengthMonotone(barSize: nat, v: int, w: int, total: int)
    requires v <= w && total > 0
    ensures BarLength(barSize, v, total) <= BarLength(barSize, w, total)
  {
    var a, b := BarLength(barSize, v, total), BarLength(barSize, w, total);
    MulLeftMonotone(barSize, v, w);
    if a > b {
      MulRightMonotone(b + 1, a, total);
      assert false;
    }
  }

  lemma MulLeftMonotone(k: nat, x: int, y: int)
    requires x <= y
    ensures k * x <= k * y
  {
    assert k * y - k * x == k * (y - x);
  }

  lemma MulRightMonotone(x: int, y: int, k: nat)
    requires x <= y
    ensures x * k <= y * k
  {
    assert y * k - x * k == (y - x) * k;
  }

  /**
   * `getBar` for a bar of `bar` filled cells: `[`, `bar` times `=`, the rest
   * `-`, `]`. `repeat` throws a `RangeError` on a negative count, which is
   * `None` here.
   */
  function GetBar(barSize: int, bar: int): (r: Option<string>)
    ensures r.Some? <==> 0 <= bar <= barSize
    ensures r.Some? ==> |r.value| == barSize + 2 && r.value[0] == '[' && r.value[|r.value| - 1] == ']'
    ensures r.Some? ==> forall i :: 1 <= i <= bar ==> r.value[i] == '='
    ensures r.Some? ==> forall i :: bar < i <= barSize ==> r.value[i] == '-'
  {
    if 0 <= bar <= barSize then Some("[" + Repeat('=', bar) + Repeat('-', barSize - bar) + "]") else None
  }

  /** `new ProgressBar(logger, total, options)` and the fields `update` and `increment` rewrite. */
  class ProgressBar {
    const total: int
    const format: string
    const barSize: int
    const stopOnComplete: bool
    var value: int
    var payload: Payload

    /** The value stays in `[0, total]`, or at 0 when `total` is negative. */
    predicate Valid()
      reads this
    {
      0 <= value && (value <= total || value == 0)
    }

    constructor(total: int, options: ProgressBarOptions)
      ensures Valid()
      ensures this.total == total && value == 0 && payload == map[]
      ensures format == options.format.GetOr(DefaultFormat)
      ensures barSize == options.barSize.GetOr(DefaultBarSize)
      ensures stopOnComplete == options.stopOnComplete.GetOr(true)
    {
      this.total := total;
      format := options.format.GetOr(DefaultFormat);
      barSize := options.barSize.GetOr(DefaultBarSize);
      stopOnComplete := options.stopOnComplete.GetOr(true);
      value := 0;
      payload := map[];
    }

    /** `isFilled`. */
    predicate IsFilled()
      reads this
    {
      value >= total
    }

    /**
     * `update(value, payload)`: a number sets the value, clamped; an object
     * leaves it and is merged under `payload`; the result says whether
     * `stop()` was called.
     */
    method Update(arg: UpdateValue, extra: Option<Payload>) returns (stopped: bool)
      requires Valid()
      modifies this
      ensures Valid()
      ensures arg.Number? ==> value == Clamp(arg.n, total)
      ensures arg.Fields? ==> value == old(value)
      ensures payload == Spread(old(payload), Added(arg, extra))
      ensures stopped <==> stopOnComplete && IsFilled()
    {
      var merged := extra;
      if arg.Number? {
        value := Clamp(arg.n, total);
      } else {
        merged := Some(Spread(arg.fields, extra.GetOr(map[])));
      }
      payload := Spread(payload, merged.GetOr(map[]));
      stopped := stopOnComplete && IsFilled();
    }

    /** `increment(delta, payload)`: `update(value + step, ...)`. */
    method Increment(delta: Option<UpdateValue>, extra: Option<Payload>) returns (stopped: bool)
      requires Valid()
      modifies this
      ensures Valid()
      ensures value == Clamp(old(value) + Step(delta), total)
      ensures payload == Spread(old(payload), IncrementPayload(delta, extra).GetOr(map[]))
      ensures stopped <==> stopOnComplete && IsFilled()
    {
      stopped := Update(Number(value + Step(delta)), IncrementPayload(delta, extra));
    }

    /**
     * `start(value, payload)` without the spinner: the payload first, then
     * the value; the result counts the `stop()` calls the two updates made.
     */
    method Start(start: Option<int>, extra: Option<Payload>) returns (stops: nat)
      requires Valid()
      modifies this
      ensures Valid()
      ensures value == if start.Some? then Clamp(start.value, total) else old(value)
      ensures payload == Spread(old(payload), extra.GetOr(map[]))
      ensures stops <= 2
    {
      stops := 0;
      if extra.Some? {
        var stopped := Update(Fields(extra.value), None);
        if stopped {
          stops := stops + 1;
        }
      }
      if start.Some? {
        var stopped := Update(Number(start.value), None);
        if stopped {
          stops := stops + 1;
        }
      }
    }

    /** The bar `getBar` draws for the current value, when `total` is positive. */
    function Bar(): (r: Option<string>)
      reads this
      requires total > 0
      ensures Valid() && barSize >= 0 ==> r.Some? && |r.value| == barSize + 2
    {
      if Valid() && barSize >= 0 then BarLengthInRange(barSize, value, total); GetBar(barSize, BarLength(barSize, value, total))
      else GetBar(barSize, BarLength(barSize, value, total))
    }
  }
}
