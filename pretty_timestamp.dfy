/** The time column of the pretty printer (prettiers/timestamp.ts): `[HH:MM:SS.mmm]`. */
module PrettyTimestamp {
  import opened Text
  import opened Entries

  /** `pad(n, maxLength = 2)`: the decimal form of `n` with leading zeros up to `maxLength` characters. */
  function Pad(n: nat, maxLength: nat := 2): (r: string)
    ensures |r| == if |NatToString(n)| >= maxLength then |NatToString(n)| else maxLength
    ensures r[|r| - |NatToString(n)|..] == NatToString(n)
    ensures forall i :: 0 <= i < |r| - |NatToString(n)| ==> r[i] == '0'
  {
    PadStart(NatToString(n), maxLength, '0')
  }

  /** Padding only adds leading zeros: the padded text is all digits and still denotes `n`. */
  lemma PadKeepsValue(n: nat, maxLength: nat)
    ensures AllDigits(Pad(n, maxLength)) && DigitsValue(Pad(n, maxLength)) == n
  {
    var s := NatToString(n);
    var r := Pad(n, maxLength);
    var z := r[..|r| - |s|];
    assert z == Repeat('0', |r| - |s|);
    assert r == z + s;
    ZerosValue(|r| - |s|);
    DigitsValueAppend(z, s);
    NatToStringValue(n);
  }

  /** The bracketed text, before it is dimmed. */
  function TimestampText(t: Time): string {
    "[" + Pad(t.hours) + ":" + Pad(t.minutes) + ":" + Pad(t.seconds) + "." + Pad(t.millis, 3) + "]"
  }

  /** The timestamp column: the bracketed text, dimmed. */
  function PrettyPrintTimestamp(t: Time, muted: string -> string): (r: string)
    ensures r == muted(TimestampText(t))
  {
    muted(TimestampText(t))
  }

  /** For a time of day in range the text is exactly 14 characters, each field at its fixed width. */
  lemma TimestampWidth(t: Time)
    requires t.hours < 24 && t.minutes < 60 && t.seconds < 60 && t.millis < 1000
    ensures |TimestampText(t)| == 14
    ensures |Pad(t.hours)| == 2 && |Pad(t.minutes)| == 2 && |Pad(t.seconds)| == 2 && |Pad(t.millis, 3)| == 3
  {
    assert Pow10(2) == 100;
    assert Pow10(3) == 1000;
    NatToStringShort(t.hours, 2);
    NatToStringShort(t.minutes, 2);
    NatToStringShort(t.seconds, 2);
    NatToStringShort(t.millis, 3);
  }
}
