/**
 * Console text helpers (utils/print.ts): `badge` and `indent`. Line ends are
 * the POSIX `EOL`, a single `\n`.
 */
module Print {
  import opened Text

  /** `badge(message)`: a coloured label when the terminal supports colour, `[message]` otherwise. */
  function Badge(message: string, colorSupported: bool, colorize: string -> string): (r: string)
    ensures !colorSupported ==> r == "[" + message + "]"
    ensures colorSupported ==> r == colorize(" " + message + " ")
  {
    if colorSupported then colorize(" " + message + " ") else "[" + message + "]"
  }

  /** One line of `indent`: `size` spaces, then the line, without its leading whitespace when trimming. */
  function IndentLine(line: string, size: nat, trim: bool): (r: string)
    ensures |r| >= size && r[..size] == Repeat(' ', size)
    ensures r[size..] == (if trim then LTrim(line) else line)
    ensures '\n' !in line ==> '\n' !in r
  {
    Repeat(' ', size) + (if trim then LTrim(line) else line)
  }

  function IndentLines(lines: seq<string>, size: nat, trim: bool): (r: seq<string>)
    ensures |r| == |lines|
    ensures forall i :: 0 <= i < |lines| ==> r[i] == IndentLine(lines[i], size, trim)
  {
    seq(|lines|, i requires 0 <= i < |lines| => IndentLine(lines[i], size, trim))
  }

  /** `indent(input, size = 2, trim = false)`: every line of `input` indented by `size` spaces. */
  function Indent(input: string, size: nat := 2, trim: bool := false): string {
    Join(IndentLines(Split(input, '\n'), size, trim), '\n')
  }

  /**
   * The lines of the result are the input's lines, as many of them, each
   * starting with `size` spaces followed by the original line (trimmed of its
   * leading whitespace when `trim` is set).
   */
  lemma IndentKeepsLines(input: string, size: nat, trim: bool)
    ensures |Split(Indent(input, size, trim), '\n')| == |Split(input, '\n')|
    ensures forall i :: 0 <= i < |Split(input, '\n')| ==>
              Split(Indent(input, size, trim), '\n')[i] == IndentLine(Split(input, '\n')[i], size, trim)
    ensures forall i :: 0 <= i < |Split(input, '\n')| ==>
              Split(Indent(input, size, trim), '\n')[i][..size] == Repeat(' ', size)
  {
    var lines := Split(input, '\n');
    var out := IndentLines(lines, size, trim);
    assert forall i :: 0 <= i < |out| ==> '\n' !in out[i] by {
      forall i | 0 <= i < |out|
        ensures '\n' !in out[i]
      {
        assert '\n' !in lines[i];
      }
    }
    SplitJoin(out, '\n');
  }

  /** Without trimming, dropping the first `size` characters of every line gives the input's lines back. */
  lemma IndentUntrimmedRoundTrip(input: string, size: nat)
    ensures var out := Split(Indent(input, size, false), '\n');
            |out| == |Split(input, '\n')| &&
            forall i :: 0 <= i < |out| ==> |out[i]| >= size && out[i][size..] == Split(input, '\n')[i]
  {
    IndentKeepsLines(input, size, false);
  }
}
