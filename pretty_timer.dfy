/**
 * The timer column of the pretty printer (prettiers/timer.ts): a nanosecond
 * count shown humanised from its millisecond value, grouped, or raw with an
 * `ns` suffix.
 */
module PrettyTimer {
  import opened Wrappers
  import opened Text

  /** The two halves `toMilliseconds` joins with a point before reading them as a number. */
  datatype MillisecondParts = MillisecondParts(intPart: string, decimalPart: string)

  /**
   * `toMilliseconds(input)` up to the `Number(...)` call: all but the last six
   * characters of the decimal form (or `0`), and the last six characters
   * padded with leading zeros.
   */
  function ToMillisecondParts(input: int): (r: MillisecondParts)
    ensures |r.decimalPart| == 6
    ensures input >= 0 && |IntToString(input)| <= 6 ==> r.intPart == "0"
  {
    var ns := IntToString(input);
    var intPart := if |ns| > 6 then ns[..|ns| - 6] else "0";
    var decimalPart := PadStart(if |ns| >= 6 then ns[|ns| - 6..] else ns, 6, '0');
    MillisecondParts(intPart, decimalPart)
  }

  /** The text `Number` reads: `int.decimal`. */
  function MillisecondsText(input: int): string {
    var p := ToMillisecondParts(input);
    p.intPart + "." + p.decimalPart
  }

  /**
   * For a non-negative count both halves are digit strings, and the integer
   * part times 10^6 plus the decimal part is the count: no nanosecond is
   * lost or invented.
   */
  lemma MillisecondPartsValue(input: nat)
    ensures var p := ToMillisecondParts(input);
            AllDigits(p.intPart) && AllDigits(p.decimalPart)
            && DigitsValue(p.intPart) * Pow10(6) + DigitsValue(p.decimalPart) == input
  {
    var ns := NatToString(input);
    assert IntToString(input) == ns;
    NatToStringValue(input);
    if |ns| > 6 {
      SplitDigitsValue(ns);
    } else {
      PaddedDigitsValue(ns);
    }
  }

  lemma SplitDigitsValue(ns: string)
    requires AllDigits(ns) && |ns| > 6
    ensures AllDigits(ns[..|ns| - 6]) && AllDigits(ns[|ns| - 6..])
    ensures DigitsValue(ns[..|ns| - 6]) * Pow10(6) + DigitsValue(ns[|ns| - 6..]) == DigitsValue(ns)
  {
    var head, tail := ns[..|ns| - 6], ns[|ns| - 6..];
    assert ns == head + tail;
    DigitsValueAppend(head, tail);
  }

  lemma PaddedDigitsValue(ns: string)
    requires AllDigits(ns) && |ns| <= 6
    ensures AllDigits(PadStart(ns, 6, '0')) && DigitsValue(PadStart(ns, 6, '0')) == DigitsValue(ns)
  {
    var r := PadStart(ns, 6, '0');
    var z := r[..|r| - |ns|];
    assert z == Repeat('0', |r| - |ns|);
    assert r == z + ns;
    ZerosValue(|r| - |ns|);
    DigitsValueAppend(z, ns);
  }

  /** Counts below one millisecond have integer part `0`. */
  lemma SubMillisecondIntPart(input: nat)
    requires input < 1000000
    ensures ToMillisecondParts(input).intPart == "0"
  {
    assert Pow10(6) == 1000000;
    NatToStringShort(input, 6);
  }

  /** `PrettyPrintTimerOptions`: whether to humanise and whether to group; both default to on. */
  datatype TimerOptions = TimerOptions(humanize: Option<bool>, format: Option<bool>)

  /**
   * The function `createPrettyPrintTimer` returns: humanised through
   * `prettyMs` when `humanize` is on, else grouped through `formatNumber`
   * when `format` is on, else the raw count followed by `ns`, all colourised.
   */
  function PrettyPrintTimer(o: TimerOptions, took: int, prettyMs: string -> string, formatNumber: int -> string,
                            colorize: string -> string): (r: string)
    ensures o.humanize.GetOr(true) ==> r == colorize(prettyMs(MillisecondsText(took)))
    ensures !o.humanize.GetOr(true) && o.format.GetOr(true) ==> r == colorize(formatNumber(took) + "ns")
    ensures !o.humanize.GetOr(true) && !o.format.GetOr(true) ==> r == colorize(IntToString(took) + "ns")
  {
    if o.humanize.GetOr(true) then colorize(prettyMs(MillisecondsText(took)))
    else if o.format.GetOr(true) then colorize(formatNumber(took) + "ns")
    else colorize(IntToString(took) + "ns")
  }
}
