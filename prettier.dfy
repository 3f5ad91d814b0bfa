/**
 * The pretty printer (prettiers/prettier.ts): one console line per entry,
 * `timestamp icon level [name] message  timer`, then the errors and the
 * context. Colours, `inspect` and the error renderer are functions the
 * printer is given.
 */
module Prettiers {
  import opened Wrappers
  import opened Levels
  import opened Text
  import opened Entries
  import opened PrettyLevel
  import opened PrettyTimestamp
  import opened PrettyTimer

  /** The colour helpers of utils/print.ts the printer uses. */
  datatype Palette = Palette(text: string -> string, muted: string -> string, bold: string -> string)

  /**
   * A `Prettier`: its options (`showName` off and no level names unless
   * given) and the renderers it was built with. `error(e, badge)` renders
   * an error, `badge` absent meaning the renderer's default; `context`
   * renders context values.
   */
  datatype Prettier = Prettier(
    showName: Option<bool>,
    levels: Option<seq<LevelName>>,
    colors: map<int, string -> string>,
    timer: TimerOptions,
    palette: Palette,
    prettyMs: string -> string,
    formatNumber: int -> string,
    timerColor: string -> string,
    error: (Error, Option<bool>) -> string,
    context: seq<Value> -> string)

  function LevelNames(p: Prettier): map<int, string> {
    Invert(p.levels.GetOr([]))
  }

  /** `getLevelName(level)`: the name configured for the level, or its decimal form. */
  function GetLevelName(p: Prettier, level: Level): (r: string)
    ensures !level.NegInf? && level.n in LevelNames(p) ==> r == LevelNames(p)[level.n]
    ensures (level.NegInf? || level.n !in LevelNames(p)) ==> r == LevelToString(level)
  {
    if !level.NegInf? && level.n in LevelNames(p) then LevelNames(p)[level.n] else LevelToString(level)
  }

  /** Timestamp, icon (a space when there is none) and level column, separated by spaces. */
  function Head(p: Prettier, e: LogEntry): string {
    PrettyPrintTimestamp(e.timestamp, p.palette.muted) + " " + p.palette.text(e.icon.GetOr(" ")) + " "
    + PrettyPrintLevel(p.levels.GetOr([]), p.colors, p.palette.bold, e.level)
  }

  predicate ShowsName(p: Prettier, e: LogEntry) {
    p.showName.GetOr(false) && e.instance.Some? && e.instance.value.name.Some?
  }

  function NamePart(p: Prettier, e: LogEntry): string {
    if ShowsName(p, e) then p.palette.muted(" [" + e.instance.value.name.value + "]") else ""
  }

  function MessagePart(p: Prettier, e: LogEntry): string {
    if e.message.Some? then p.palette.text(" " + e.message.value) else ""
  }

  function TimerPart(p: Prettier, e: LogEntry): string {
    if "timer" in e.metadata
    then "  " + PrettyPrintTimer(p.timer, e.metadata["timer"], p.prettyMs, p.formatNumber, p.timerColor)
    else ""
  }

  /** A lone error after neither message nor timer shares the first line. */
  predicate SingleError(e: LogEntry) {
    |e.errors| == 1 && e.message.None? && "timer" !in e.metadata
  }

  /** Each error on a line of its own, with the renderer's default badge. */
  function ErrorLines(p: Prettier, errors: seq<Error>): string {
    if errors == [] then ""
    else ErrorLines(p, errors[..|errors| - 1]) + "\n" + p.error(errors[|errors| - 1], None)
  }

  function ErrorsPart(p: Prettier, e: LogEntry): string {
    if SingleError(e) then " " + p.error(e.errors[0], Some(false)) else ErrorLines(p, e.errors)
  }

  function ContextPart(p: Prettier, e: LogEntry): string {
    if |e.context| > 0 then "\n" + p.context(e.context) else ""
  }

  /** The text `entry(entry)` returns. */
  function EntryText(p: Prettier, e: LogEntry): string {
    Head(p, e) + NamePart(p, e) + MessagePart(p, e) + TimerPart(p, e) + ErrorsPart(p, e) + ContextPart(p, e)
  }

  /** `entry(entry)`. */
  method Entry(p: Prettier, entry: LogEntry) returns (message: string)
    ensures message == EntryText(p, entry)
  {
    var hasMessage, hasTimer;
    message, hasMessage, hasTimer := FirstLine(p, entry);
    message := AppendErrors(p, entry, message, hasMessage, hasTimer);
    if |entry.context| > 0 {
      message := message + "\n" + p.context(entry.context);
    }
  }

  /** The part of `entry` before the errors, with the two flags it sets on the way. */
  method FirstLine(p: Prettier, entry: LogEntry) returns (message: string, hasMessage: bool, hasTimer: bool)
    ensures message == Head(p, entry) + NamePart(p, entry) + MessagePart(p, entry) + TimerPart(p, entry)
    ensures hasMessage == entry.message.Some? && hasTimer == ("timer" in entry.metadata)
  {
    message := Head(p, entry);
    hasMessage := false;
    hasTimer := false;
    if p.showName.GetOr(false) && entry.instance.Some? && entry.instance.value.name.Some? {
      message := message + p.palette.muted(" [" + entry.instance.value.name.value + "]");
    }
    ghost var named := message;
    assert named == Head(p, entry) + NamePart(p, entry);
    if entry.message.Some? {
      message := message + p.palette.text(" " + entry.message.value);
      hasMessage := true;
    }
    ghost var said := message;
    assert said == named + MessagePart(p, entry);
    if "timer" in entry.metadata {
      message := message + "  " + PrettyPrintTimer(p.timer, entry.metadata["timer"], p.prettyMs, p.formatNumber, p.timerColor);
      hasTimer := true;
    }
  }

  /** The loop of `entry` over the errors, with the flags it keeps. */
  method AppendErrors(p: Prettier, entry: LogEntry, before: string, hasMessage: bool, hasTimer: bool)
    returns (message: string)
    requires hasMessage == entry.message.Some? && hasTimer == ("timer" in entry.metadata)
    ensures message == before + ErrorsPart(p, entry)
  {
    message := before;
    for i := 0 to |entry.errors|
      invariant SingleError(entry) ==> message == before + (if i == 0 then "" else " " + p.error(entry.errors[0], Some(false)))
      invariant !SingleError(entry) ==> message == before + ErrorLines(p, entry.errors[..i])
    {
      var badge: Option<bool>;
      if i == 0 && |entry.errors| == 1 && !hasMessage && !hasTimer {
        message := message + " ";
        badge := Some(false);
      } else {
        message := message + "\n";
        badge := None;
      }
      message := message + p.error(entry.errors[i], badge);
      assert entry.errors[..i + 1][..i] == entry.errors[..i];
    }
    assert entry.errors[..|entry.errors|] == entry.errors;
  }

  /** With nothing but a level and a time, the line is the head alone. */
  lemma BareEntryIsHead(p: Prettier, e: LogEntry)
    requires !ShowsName(p, e) && e.message.None? && "timer" !in e.metadata && e.errors == [] && e.context == []
    ensures EntryText(p, e) == Head(p, e)
  {
    assert NamePart(p, e) == "" && MessagePart(p, e) == "" && TimerPart(p, e) == "";
    assert ErrorsPart(p, e) == "" && ContextPart(p, e) == "";
    DropEmptyParts(Head(p, e), NamePart(p, e), MessagePart(p, e), TimerPart(p, e), ErrorsPart(p, e), ContextPart(p, e));
  }

  lemma DropEmptyParts(head: string, name: string, message: string, timer: string, errors: string, context: string)
    requires name == "" && message == "" && timer == "" && errors == "" && context == ""
    ensures head + name + message + timer + errors + context == head
  {
    assert head + name + message + timer + errors + context == head + "";
  }

  /** A lone error after neither message nor timer follows a space and is rendered without a badge. */
  lemma SingleErrorSharesLine(p: Prettier, e: LogEntry)
    requires SingleError(e)
    ensures EntryText(p, e) == Head(p, e) + NamePart(p, e) + " " + p.error(e.errors[0], Some(false)) + ContextPart(p, e)
  {
    var rendered := p.error(e.errors[0], Some(false));
    assert MessagePart(p, e) == "" && TimerPart(p, e) == "";
    assert ErrorsPart(p, e) == " " + rendered;
    SkipEmptyParts(Head(p, e), NamePart(p, e), MessagePart(p, e), TimerPart(p, e), rendered, ContextPart(p, e));
  }

  lemma SkipEmptyParts(head: string, name: string, message: string, timer: string, rendered: string, context: string)
    requires message == "" && timer == ""
    ensures head + name + message + timer + (" " + rendered) + context == head + name + " " + rendered + context
  {
    assert head + name + message + timer == head + name;
    assert head + name + (" " + rendered) == head + name + " " + rendered;
  }

  /** Otherwise every error starts a new line of its own, in order, with the default badge. */
  lemma {:induction false} ErrorLinesInOrder(p: Prettier, errors: seq<Error>)
    ensures ErrorLines(p, errors) == Concat(seq(|errors|, i requires 0 <= i < |errors| => "\n" + p.error(errors[i], None)))
  {
    var lines := seq(|errors|, i requires 0 <= i < |errors| => "\n" + p.error(errors[i], None));
    if errors != [] {
      var init := errors[..|errors| - 1];
      ErrorLinesInOrder(p, init);
      var initLines := seq(|init|, i requires 0 <= i < |init| => "\n" + p.error(init[i], None));
      assert lines == initLines + [lines[|lines| - 1]];
      ConcatAppend(initLines, lines[|lines| - 1]);
    }
  }

  lemma {:induction false} ConcatAppend(pieces: seq<string>, last: string)
    ensures Concat(pieces + [last]) == Concat(pieces) + last
  {
    if pieces == [] {
      assert pieces + [last] == [last];
    } else {
      assert (pieces + [last])[1..] == pieces[1..] + [last];
      ConcatAppend(pieces[1..], last);
    }
  }

  /** The context block, when there is one, ends the text. */
  lemma ContextComesLast(p: Prettier, e: LogEntry)
    requires |e.context| > 0
    ensures var t := EntryText(p, e);
            var c := "\n" + p.context(e.context);
            |t| >= |c| && t[|t| - |c|..] == c
  {
    var t := EntryText(p, e);
    var c := "\n" + p.context(e.context);
    var front := Head(p, e) + NamePart(p, e) + MessagePart(p, e) + TimerPart(p, e) + ErrorsPart(p, e);
    assert t == front + c;
  }
}
