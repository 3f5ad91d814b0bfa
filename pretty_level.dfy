/**
 * The level column of the pretty printer (prettiers/level.ts): the level's
 * configured name, upper-cased and padded to the longest configured name,
 * in the level's colour.
 */
module PrettyLevel {
  import opened Levels
  import opened Text

  /** One entry of the `levels` option, `name: value`, in the object's order. */
  datatype LevelName = LevelName(name: string, value: int)

  /**
   * `map(levels, (name, value) => [value, name])`: value to name; when two
   * names share a value the later one wins.
   */
  function Invert(levels: seq<LevelName>): (r: map<int, string>)
    ensures forall i :: 0 <= i < |levels| ==> levels[i].value in r
    ensures forall v :: v in r ==> exists i :: 0 <= i < |levels| && levels[i].value == v
  {
    if levels == [] then map[]
    else
      var last := levels[|levels| - 1];
      Invert(levels[..|levels| - 1])[last.value := last.name]
  }

  /** Each value is named by the last entry that carries it. */
  lemma {:induction false} InvertKeepsLastName(levels: seq<LevelName>, i: int)
    requires 0 <= i < |levels|
    requires forall j :: i < j < |levels| ==> levels[j].value != levels[i].value
    ensures Invert(levels)[levels[i].value] == levels[i].name
  {
    if i < |levels| - 1 {
      var init := levels[..|levels| - 1];
      assert init[i] == levels[i];
      InvertKeepsLastName(init, i);
    }
  }

  /** The longest of the names in `names` at the given keys, 0 for none. */
  function LongestAt(names: map<int, string>, keys: seq<int>): (r: nat)
    requires forall i :: 0 <= i < |keys| ==> keys[i] in names
    ensures forall i :: 0 <= i < |keys| ==> |names[keys[i]]| <= r
    ensures keys == [] ==> r == 0
    ensures keys != [] ==> exists i :: 0 <= i < |keys| && |names[keys[i]]| == r
  {
    if keys == [] then 0
    else
      var rest := LongestAt(names, keys[1..]);
      var n := |names[keys[0]]|;
      if n >= rest then n
      else
        assert exists i :: 1 <= i < |keys| && |names[keys[i]]| == rest;
        rest
  }

  function ValuesOf(levels: seq<LevelName>): (r: seq<int>)
    ensures |r| == |levels|
    ensures forall i :: 0 <= i < |levels| ==> r[i] == levels[i].value
  {
    seq(|levels|, i requires 0 <= i < |levels| => levels[i].value)
  }

  /**
   * `longestLevelLength`: the longest name left after inverting, or 0 when
   * there are none.
   */
  function LongestLevelLength(levels: seq<LevelName>): (r: nat)
    ensures forall v :: v in Invert(levels) ==> |Invert(levels)[v]| <= r
    ensures levels == [] ==> r == 0
    ensures levels != [] ==> exists v :: v in Invert(levels) && |Invert(levels)[v]| == r
  {
    var names := Invert(levels);
    var keys := ValuesOf(levels);
    var r := LongestAt(names, keys);
    assert forall v :: v in names ==> exists i :: 0 <= i < |keys| && keys[i] == v;
    r
  }

  /** The text of the label: the upper-cased name of the level, or the level's decimal form. */
  function Label(names: map<int, string>, level: Level): (r: string)
    ensures !level.NegInf? && level.n in names ==> r == ToUpper(names[level.n])
    ensures (level.NegInf? || level.n !in names) ==> r == ToUpper(LevelToString(level))
  {
    ToUpper(if !level.NegInf? && level.n in names then names[level.n] else LevelToString(level))
  }

  /**
   * The label padded at the end to the longest configured name: as long as
   * the longer of the two, the label first, only spaces after it.
   */
  function PaddedLabel(levels: seq<LevelName>, level: Level): (r: string)
    ensures var shown := Label(Invert(levels), level);
            var w := LongestLevelLength(levels);
            |r| == (if |shown| >= w then |shown| else w)
            && r[..|shown|] == shown
            && forall i :: |shown| <= i < |r| ==> r[i] == ' '
  {
    PadEnd(Label(Invert(levels), level), LongestLevelLength(levels))
  }

  /** The colour for a level: the configured one, or the identity. */
  function ColorOf(colors: map<int, string -> string>, level: Level): (f: string -> string)
    ensures !level.NegInf? && level.n in colors ==> f == colors[level.n]
    ensures (level.NegInf? || level.n !in colors) ==> forall s :: f(s) == s
  {
    if !level.NegInf? && level.n in colors then colors[level.n] else (s: string) => s
  }

  /** The function `createPrettyPrintLevel` returns, applied to a level. */
  function PrettyPrintLevel(levels: seq<LevelName>, colors: map<int, string -> string>, bold: string -> string,
                            level: Level): (r: string)
    ensures !level.NegInf? && level.n in colors ==> r == bold(colors[level.n](PaddedLabel(levels, level)))
    ensures (level.NegInf? || level.n !in colors) ==> r == bold(PaddedLabel(levels, level))
  {
    bold(ColorOf(colors, level)(PaddedLabel(levels, level)))
  }

  /** Every label of a configured level has the same width, the longest name's. */
  lemma ConfiguredLabelsAlign(levels: seq<LevelName>, a: int, b: int)
    requires a in Invert(levels) && b in Invert(levels)
    ensures |PaddedLabel(levels, Num(a))| == |PaddedLabel(levels, Num(b))| == LongestLevelLength(levels)
  {
  }
}
