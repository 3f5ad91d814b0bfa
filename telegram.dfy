/**
 * The Telegram transport's message layout (transports/telegram.ts): a header
 * with level, time and logger name, then the message, the context and each
 * error, each inlined into the first message while it stays under Telegram's
 * 4096-character limit, and otherwise sent as extra messages in chunks.
 * Sending, rate limiting, date formatting and the JSON and `inspect`
 * renderings are parameters.
 */
module Telegram {
  import opened Wrappers
  import opened Text
  import opened Entries
  import opened Markdown

  const MaxMessageLength: nat := 4096
  const MessagePrefix := "• Message: "
  const ContextPrefix := "• Context:\n"
  const ErrorPrefix := "• Error:\n"

  /**
   * Text is escaped with `escapeMarkdownV2` as written, which leaves
   * backslashes as they are (see `Markdown.BackslashBreaksReading`).
   */
  function Escape(s: string): string {
    EscapeMarkdownV2(s)
  }

  /** `• Level: *LEVEL*` and a line end. */
  function LevelLine(levelName: string): string {
    "• Level: *" + Escape(ToUpper(levelName)) + "*\n"
  }

  function TimeLine(time: string): string {
    "• Time: *" + Escape(time) + "*\n"
  }

  function NameLine(name: string): string {
    "• Name: *" + Escape(name) + "*\n"
  }

  /** The header: level and time lines always, a name line exactly when the logger has a non-empty name; it ends a line. */
  function Header(levelName: string, time: string, name: Option<string>): (h: string)
    ensures LevelLine(levelName) + TimeLine(time) <= h
    ensures |h| > |LevelLine(levelName) + TimeLine(time)| <==> name.Some? && name.value != ""
    ensures h[|h| - 1] == '\n'
  {
    LevelLine(levelName) + TimeLine(time) + (if name.Some? && name.value != "" then NameLine(name.value) else "")
  }

  /** The first message so far and the extra messages queued after it. */
  datatype Draft = Draft(main: string, extras: seq<string>)

  /** A chunk wrapped in a code fence. */
  function Fence(chunk: string): (r: string)
    ensures |r| == |chunk| + 8
  {
    "```\n" + chunk + "\n```"
  }

  function Fenced(chunks: seq<string>): (r: seq<string>)
    ensures |r| == |chunks|
    ensures forall i :: 0 <= i < |chunks| ==> r[i] == Fence(chunks[i])
  {
    seq(|chunks|, i requires 0 <= i < |chunks| => Fence(chunks[i]))
  }

  /**
   * The message: inlined when it fits with its prefix and markers, else a
   * prefix line and chunks of `msg\n`. An absent or empty message changes
   * nothing; otherwise exactly one of the first message and the extras grows.
   */
  function AddMessage(d: Draft, message: Option<string>): (r: Draft)
    ensures d.main <= r.main && d.extras <= r.extras
    ensures message.None? || message.value == "" ==> r == d
    ensures message.Some? && message.value != "" ==> (r.main == d.main <==> r.extras != d.extras)
  {
    if message.None? || message.value == "" then d
    else
      var msg := Escape(message.value);
      if |msg| + |MessagePrefix| + 3 < MaxMessageLength - |d.main| then
        Draft(d.main + MessagePrefix + "*" + msg + "*\n", d.extras)
      else
        Draft(d.main, d.extras + [MessagePrefix + "\n"] + Chunk(msg + "\n", MaxMessageLength))
  }

  /**
   * A context or error block: inlined in a `json` fence when it fits, else a
   * prefix message and fenced chunks. Exactly one of the first message and
   * the extras grows.
   */
  function AddBlock(d: Draft, prefix: string, text: string): (r: Draft)
    ensures d.main <= r.main && d.extras <= r.extras
    ensures r.main == d.main <==> r.extras != d.extras
  {
    if |text| + |prefix| + 12 < MaxMessageLength - |d.main| then
      Draft(d.main + prefix + "```json\n" + text + "\n```", d.extras)
    else
      Draft(d.main, d.extras + [prefix] + Fenced(Chunk(text, MaxMessageLength - 8)))
  }

  function AddContext(d: Draft, context: seq<Value>, contextJson: seq<Value> -> string): Draft {
    if |context| > 0 then AddBlock(d, ContextPrefix, Escape(contextJson(context))) else d
  }

  function AddErrors(d: Draft, errors: seq<Error>, errorJson: Error -> string): (r: Draft)
    ensures d.main <= r.main && d.extras <= r.extras
    ensures errors == [] ==> r == d
    decreases |errors|
  {
    if errors == [] then d
    else AddErrors(AddBlock(d, ErrorPrefix, Escape(errorJson(errors[0]))), errors[1..], errorJson)
  }

  /** The drafts after the message and after the context, before the errors. */
  function AfterMessage(entry: LogEntry, levelName: string, time: string, name: Option<string>): Draft {
    AddMessage(Draft(Header(levelName, time, name), []), entry.message)
  }

  function AfterContext(entry: LogEntry, levelName: string, time: string, name: Option<string>,
                        contextJson: seq<Value> -> string): Draft {
    AddContext(AfterMessage(entry, levelName, time, name), entry.context, contextJson)
  }

  /**
   * What `getMessages` returns: the first message, then the extras in
   * message, context, error order. The first message starts with the header,
   * and an entry with no message, context or errors is the header alone.
   */
  function Messages(entry: LogEntry, levelName: string, time: string, name: Option<string>,
                    contextJson: seq<Value> -> string, errorJson: Error -> string): (ms: seq<string>)
    ensures |ms| >= 1 && Header(levelName, time, name) <= ms[0]
    ensures (entry.message.None? || entry.message.value == "") && entry.context == [] && entry.errors == []
            ==> ms == [Header(levelName, time, name)]
  {
    var d := AddErrors(AfterContext(entry, levelName, time, name, contextJson), entry.errors, errorJson);
    [d.main] + d.extras
  }

  /**
   * `getMessages(entry, logger)`, with the level's display name, the
   * formatted time and the logger's name supplied.
   */
  method GetMessages(entry: LogEntry, levelName: string, time: string, name: Option<string>,
                     contextJson: seq<Value> -> string, errorJson: Error -> string) returns (messages: seq<string>)
    ensures messages == Messages(entry, levelName, time, name, contextJson, errorJson)
  {
    var message := "";
    message := message + LevelLine(levelName);
    assert message == LevelLine(levelName);
    message := message + TimeLine(time);
    if name.Some? && name.value != "" {
      message := message + NameLine(name.value);
    }
    assert message == Header(levelName, time, name);
    var extraMessages: seq<string> := [];
    if entry.message.Some? && |entry.message.value| > 0 {
      var textLeft := MaxMessageLength - |message|;
      var msg := Escape(entry.message.value);
      if |msg| + |MessagePrefix| + 3 < textLeft {
        message := message + MessagePrefix + "*" + msg + "*\n";
      } else {
        extraMessages := extraMessages + [MessagePrefix + "\n"];
        extraMessages := extraMessages + Chunk(msg + "\n", MaxMessageLength);
      }
    }
    assert Draft(message, extraMessages) == AfterMessage(entry, levelName, time, name);
    if |entry.context| > 0 {
      var textLeft := MaxMessageLength - |message|;
      var contextMessage := Escape(contextJson(entry.context));
      if |contextMessage| + |ContextPrefix| + 12 < textLeft {
        message := message + ContextPrefix + "```json\n" + contextMessage + "\n```";
      } else {
        extraMessages := extraMessages + [ContextPrefix];
        extraMessages := extraMessages + Fenced(Chunk(contextMessage, MaxMessageLength - 8));
      }
    }
    assert Draft(message, extraMessages) == AfterContext(entry, levelName, time, name, contextJson);
    message, extraMessages := AppendErrors(message, extraMessages, entry.errors, errorJson);
    messages := [message] + extraMessages;
  }

  /** The loop of `getMessages` over the entry's errors. */
  method AppendErrors(message0: string, extras0: seq<string>, errors: seq<Error>, errorJson: Error -> string)
    returns (message: string, extraMessages: seq<string>)
    ensures Draft(message, extraMessages) == AddErrors(Draft(message0, extras0), errors, errorJson)
  {
    message, extraMessages := message0, extras0;
    var i := 0;
    while i < |errors|
      invariant 0 <= i <= |errors|
      invariant AddErrors(Draft(message0, extras0), errors, errorJson) == AddErrors(Draft(message, extraMessages), errors[i..], errorJson)
    {
      var textLeft := MaxMessageLength - |message|;
      var errorMsg := Escape(errorJson(errors[i]));
      if |errorMsg| + |ErrorPrefix| + 12 < textLeft {
        message := message + ErrorPrefix + "```json\n" + errorMsg + "\n```";
      } else {
        extraMessages := extraMessages + [ErrorPrefix];
        extraMessages := extraMessages + Fenced(Chunk(errorMsg, MaxMessageLength - 8));
      }
      assert errors[i..][1..] == errors[i + 1..];
      i := i + 1;
    }
  }

  /** A draft's first message either still is the header or is under the limit, and it extends the header. */
  ghost predicate Budgeted(d: Draft, header: string) {
    header <= d.main && (|d.main| < MaxMessageLength || d.main == header)
  }

  /** Every extra message is within the limit. */
  ghost predicate ExtrasFit(d: Draft) {
    forall i :: 0 <= i < |d.extras| ==> |d.extras[i]| <= MaxMessageLength
  }

  lemma AddMessageKeepsBudget(d: Draft, header: string, message: Option<string>)
    requires Budgeted(d, header) && ExtrasFit(d)
    ensures Budgeted(AddMessage(d, message), header) && ExtrasFit(AddMessage(d, message))
    ensures d.extras <= AddMessage(d, message).extras
  {
  }

  lemma AddBlockKeepsBudget(d: Draft, header: string, prefix: string, text: string)
    requires Budgeted(d, header) && ExtrasFit(d) && |prefix| <= MaxMessageLength
    ensures Budgeted(AddBlock(d, prefix, text), header) && ExtrasFit(AddBlock(d, prefix, text))
    ensures d.extras <= AddBlock(d, prefix, text).extras
  {
  }

  lemma {:induction false} AddErrorsKeepsBudget(d: Draft, header: string, errors: seq<Error>, errorJson: Error -> string)
    requires Budgeted(d, header) && ExtrasFit(d)
    ensures Budgeted(AddErrors(d, errors, errorJson), header) && ExtrasFit(AddErrors(d, errors, errorJson))
    ensures d.extras <= AddErrors(d, errors, errorJson).extras
    decreases |errors|
  {
    if errors != [] {
      var next := AddBlock(d, ErrorPrefix, Escape(errorJson(errors[0])));
      AddBlockKeepsBudget(d, header, ErrorPrefix, Escape(errorJson(errors[0])));
      AddErrorsKeepsBudget(next, header, errors[1..], errorJson);
    }
  }

  /**
   * The length budget: the first message starts with the header and is under
   * 4096 characters unless it is the bare header; every extra message is at
   * most 4096 characters; and the extras queued for the message come first,
   * those for the context next, those for the errors last.
   */
  lemma MessagesWithinLimit(entry: LogEntry, levelName: string, time: string, name: Option<string>,
                            contextJson: seq<Value> -> string, errorJson: Error -> string)
    ensures var ms := Messages(entry, levelName, time, name, contextJson, errorJson);
            Header(levelName, time, name) <= ms[0]
            && (|ms[0]| < MaxMessageLength || ms[0] == Header(levelName, time, name))
            && (forall i :: 1 <= i < |ms| ==> |ms[i]| <= MaxMessageLength)
    ensures var ms := Messages(entry, levelName, time, name, contextJson, errorJson);
            AfterMessage(entry, levelName, time, name).extras <= AfterContext(entry, levelName, time, name, contextJson).extras
            && AfterContext(entry, levelName, time, name, contextJson).extras <= ms[1..]
  {
    var h := Header(levelName, time, name);
    var d0 := Draft(h, []);
    var d1 := AfterMessage(entry, levelName, time, name);
    AddMessageKeepsBudget(d0, h, entry.message);
    var d2 := AfterContext(entry, levelName, time, name, contextJson);
    if |entry.context| > 0 {
      AddBlockKeepsBudget(d1, h, ContextPrefix, Escape(contextJson(entry.context)));
    }
    AddErrorsKeepsBudget(d2, h, entry.errors, errorJson);
    var ms := Messages(entry, levelName, time, name, contextJson, errorJson);
    assert ms[1..] == AddErrors(d2, entry.errors, errorJson).extras;
  }

  /** The message is inlined exactly when its escaped form, prefix and markers fit the budget left. */
  lemma MessageInlinedWhenItFits(d: Draft, message: string)
    requires message != ""
    ensures var msg := Escape(message);
            |msg| + |MessagePrefix| + 3 < MaxMessageLength - |d.main|
            <==> AddMessage(d, Some(message)).main == d.main + MessagePrefix + "*" + msg + "*\n"
  {
  }

  /** An overflowing message loses nothing: after its prefix line, the chunks concatenate to `msg\n`. */
  lemma OverflowMessageIsLossless(d: Draft, message: string)
    requires message != ""
    requires |Escape(message)| + |MessagePrefix| + 3 >= MaxMessageLength - |d.main|
    ensures var e := AddMessage(d, Some(message)).extras;
            |e| > |d.extras| && e[..|d.extras|] == d.extras && e[|d.extras|] == MessagePrefix + "\n"
            && Concat(e[|d.extras| + 1..]) == Escape(message) + "\n"
  {
    var chunks := Chunk(Escape(message) + "\n", MaxMessageLength);
    var e := AddMessage(d, Some(message)).extras;
    assert e == d.extras + [MessagePrefix + "\n"] + chunks;
    assert e[|d.extras| + 1..] == chunks;
    ChunkConcat(Escape(message) + "\n", MaxMessageLength);
  }

  /** An overflowing block loses nothing: after its prefix, the fenced chunks hold the text in order. */
  lemma OverflowBlockIsLossless(d: Draft, prefix: string, text: string)
    requires |text| + |prefix| + 12 >= MaxMessageLength - |d.main|
    ensures var e := AddBlock(d, prefix, text).extras;
            |e| > |d.extras| && e[..|d.extras|] == d.extras && e[|d.extras|] == prefix
            && (exists chunks: seq<string> :: e[|d.extras| + 1..] == Fenced(chunks) && Concat(chunks) == text
                  && forall i :: 0 <= i < |chunks| ==> 0 < |chunks[i]| <= MaxMessageLength - 8)
  {
    var chunks := Chunk(text, MaxMessageLength - 8);
    var e := AddBlock(d, prefix, text).extras;
    assert e == d.extras + [prefix] + Fenced(chunks);
    assert e[|d.extras| + 1..] == Fenced(chunks);
    ChunkConcat(text, MaxMessageLength - 8);
  }

  /**
   * `trimLastLineSpace(message, space)`: a message of one line is returned as
   * it is; otherwise only the last line changes, its leading whitespace
   * replaced by exactly `space` spaces.
   */
  method TrimLastLineSpace(message: string, space: nat) returns (r: string)
    ensures |Split(message, '\n')| == 1 ==> r == message
    ensures '\n' !in message ==> r == message
    ensures var lines := Split(message, '\n');
            var out := Split(r, '\n');
            |lines| > 1 ==>
              |out| == |lines|
              && out[..|lines| - 1] == lines[..|lines| - 1]
              && out[|lines| - 1] == Repeat(' ', space) + LTrim(lines[|lines| - 1])
  {
    var lines := Split(message, '\n');
    if |lines| > 1 {
      SplitJoinReplacedLast(lines, space);
      lines := lines[|lines| - 1 := Repeat(' ', space) + LTrim(lines[|lines| - 1])];
    } else {
      JoinSplit(message, '\n');
    }
    if '\n' !in message {
      SplitOfPlain(message, '\n');
    }
    r := Join(lines, '\n');
  }

  /** Replacing the last of several lines by its indented, left-trimmed text keeps the lines apart. */
  lemma SplitJoinReplacedLast(lines: seq<string>, space: nat)
    requires |lines| > 1 && forall i :: 0 <= i < |lines| ==> '\n' !in lines[i]
    ensures var replaced := lines[|lines| - 1 := Repeat(' ', space) + LTrim(lines[|lines| - 1])];
            Split(Join(replaced, '\n'), '\n') == replaced
  {
    var last := lines[|lines| - 1];
    AbsentFromSuffix(last, LTrim(last), '\n');
    AbsentFromRepeat(' ', space, '\n');
    AbsentFromConcat(Repeat(' ', space), LTrim(last), '\n');
    var replaced := lines[|lines| - 1 := Repeat(' ', space) + LTrim(last)];
    forall i | 0 <= i < |replaced| ensures '\n' !in replaced[i] {
      if i < |lines| - 1 {
        assert replaced[i] == lines[i];
      }
    }
    SplitJoin(replaced, '\n');
  }

  lemma AbsentFromSuffix(s: string, r: string, c: char)
    requires c !in s && |r| <= |s| && r == s[|s| - |r|..]
    ensures c !in r
  {
    forall k | 0 <= k < |r| ensures r[k] != c {
      assert r[k] == s[|s| - |r| + k];
    }
  }

  lemma AbsentFromRepeat(x: char, n: nat, c: char)
    requires x != c
    ensures c !in Repeat(x, n)
  {
    forall k | 0 <= k < n ensures Repeat(x, n)[k] != c {
    }
  }

  lemma AbsentFromConcat(a: string, b: string, c: char)
    requires c !in a && c !in b
    ensures c !in a + b
  {
    forall k | 0 <= k < |a + b| ensures (a + b)[k] != c {
      if k < |a| {
        assert (a + b)[k] == a[k];
      } else {
        assert (a + b)[k] == b[k - |a|];
      }
    }
  }
}
