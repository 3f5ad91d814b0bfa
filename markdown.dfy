/**
 * `escapeMarkdownV2` (utils/strings.ts): a backslash before every character
 * that is markup in Telegram's MarkdownV2 text, and the reading Telegram
 * gives the escaped text back (section "MarkdownV2 style" of the Telegram
 * Bot API's formatting options).
 */
module Markdown {
  import opened Wrappers

  /** The characters the escaper's character class lists. */
  predicate IsSpecial(c: char) {
    c == '_' || c == '*' || c == '[' || c == ']' || c == '(' || c == ')' || c == '~' || c == '`' || c == '>'
    || c == '#' || c == '+' || c == '-' || c == '=' || c == '|' || c == '{' || c == '}' || c == '.' || c == '!'
  }

  function CountSpecial(s: string): nat {
    if s == [] then 0 else (if IsSpecial(s[0]) then 1 else 0) + CountSpecial(s[1..])
  }

  /**
   * `escapeMarkdownV2(text)`: every special character gets a backslash in
   * front; every other character, the backslash included, is copied.
   */
  function EscapeMarkdownV2(s: string): (r: string)
    ensures |r| == |s| + CountSpecial(s)
    ensures CountSpecial(s) == 0 ==> r == s
    ensures s != [] ==> r != [] && !IsSpecial(r[0])
  {
    if s == [] then ""
    else if IsSpecial(s[0]) then ['\\', s[0]] + EscapeMarkdownV2(s[1..])
    else [s[0]] + EscapeMarkdownV2(s[1..])
  }

  /** Escaping works character by character. */
  lemma {:induction false} EscapeConcat(a: string, b: string)
    ensures EscapeMarkdownV2(a + b) == EscapeMarkdownV2(a) + EscapeMarkdownV2(b)
  {
    if a != [] {
      var head := if IsSpecial(a[0]) then ['\\', a[0]] else [a[0]];
      assert (a + b)[0] == a[0];
      assert (a + b)[1..] == a[1..] + b;
      EscapeConcat(a[1..], b);
      var x, y := EscapeMarkdownV2(a[1..]), EscapeMarkdownV2(b);
      assert EscapeMarkdownV2(a + b) == head + (x + y);
      assert EscapeMarkdownV2(a) == head + x;
      assert head + (x + y) == head + x + y;
    } else {
      assert a + b == b;
    }
  }

  lemma EscapeOne(c: char)
    ensures IsSpecial(c) ==> EscapeMarkdownV2([c]) == ['\\', c]
    ensures !IsSpecial(c) ==> EscapeMarkdownV2([c]) == [c]
    ensures EscapeMarkdownV2("\\") == "\\"
  {
    assert [c][1..] == [];
  }

  /** Removing the inserted backslashes: a backslash is dropped only when a special character follows it. */
  function Unescape(s: string): string {
    if s == [] then ""
    else if |s| >= 2 && s[0] == '\\' && IsSpecial(s[1]) then [s[1]] + Unescape(s[2..])
    else [s[0]] + Unescape(s[1..])
  }

  lemma {:induction false} UnescapeEscape(s: string)
    ensures Unescape(EscapeMarkdownV2(s)) == s
  {
    if s != [] {
      UnescapeEscape(s[1..]);
      var e := EscapeMarkdownV2(s[1..]);
      if IsSpecial(s[0]) {
        assert (['\\', s[0]] + e)[2..] == e;
      } else {
        assert ([s[0]] + e)[1..] == e;
      }
    }
  }

  /** Different texts never escape to the same text. */
  lemma EscapeInjective(a: string, b: string)
    requires EscapeMarkdownV2(a) == EscapeMarkdownV2(b)
    ensures a == b
  {
    UnescapeEscape(a);
    UnescapeEscape(b);
  }

  /**
   * How Telegram reads MarkdownV2 outside entities, as far as plain text
   * goes: a backslash followed by a character of code 1 to 126 stands for that
   * character; an unescaped special character is markup, and a backslash
   * with nothing valid after it is an error. `None` means the text is not
   * read as the plain text it was meant to be.
   */
  function PlainReading(s: string): Option<string> {
    if s == [] then Some("")
    else if s[0] == '\\' then
      if |s| >= 2 && 1 <= s[1] as int <= 126 then
        var rest := PlainReading(s[2..]);
        if rest.Some? then Some([s[1]] + rest.value) else None
      else None
    else if IsSpecial(s[0]) then None
    else
      var rest := PlainReading(s[1..]);
      if rest.Some? then Some([s[0]] + rest.value) else None
  }

  /** As written, texts without backslashes escape to themselves under Telegram's reading. */
  lemma {:induction false} EscapeReadsBackWithoutBackslash(s: string)
    requires '\\' !in s
    ensures PlainReading(EscapeMarkdownV2(s)) == Some(s)
  {
    if s != [] {
      assert '\\' !in s[1..];
      EscapeReadsBackWithoutBackslash(s[1..]);
      var e := EscapeMarkdownV2(s[1..]);
      if IsSpecial(s[0]) {
        assert (['\\', s[0]] + e)[2..] == e;
        assert 1 <= s[0] as int <= 126;
      } else {
        assert ([s[0]] + e)[1..] == e;
      }
      assert [s[0]] + s[1..] == s;
    }
  }

  /** As written, a backslash before a special character turns that character back into markup. */
  lemma BackslashBreaksReading()
    ensures EscapeMarkdownV2("\\*") == "\\\\*"
    ensures PlainReading(EscapeMarkdownV2("\\*")) == None
  {
    EscapeConcat("\\", "*");
    EscapeOne('*');
    var r := EscapeMarkdownV2("\\*");
    assert r == "\\\\*";
    assert r[2..] == "*";
  }

  /** The escaper MarkdownV2 calls for: the backslash is escaped too. */
  function EscapeMarkdownV2Strict(s: string): (r: string)
    ensures |r| >= |s|
    ensures s != [] ==> r != [] && !IsSpecial(r[0])
  {
    if s == [] then ""
    else if IsSpecial(s[0]) || s[0] == '\\' then ['\\', s[0]] + EscapeMarkdownV2Strict(s[1..])
    else [s[0]] + EscapeMarkdownV2Strict(s[1..])
  }

  /** Telegram reads back exactly the text that was escaped, whatever it holds. */
  lemma {:induction false} StrictEscapeReadsBack(s: string)
    ensures PlainReading(EscapeMarkdownV2Strict(s)) == Some(s)
  {
    if s != [] {
      StrictEscapeReadsBack(s[1..]);
      var e := EscapeMarkdownV2Strict(s[1..]);
      if IsSpecial(s[0]) || s[0] == '\\' {
        assert (['\\', s[0]] + e)[2..] == e;
        assert 1 <= s[0] as int <= 126;
      } else {
        assert ([s[0]] + e)[1..] == e;
      }
      assert [s[0]] + s[1..] == s;
    }
  }

  /** Both escapers agree on texts without backslashes. */
  lemma {:induction false} StrictAgreesWithoutBackslash(s: string)
    requires '\\' !in s
    ensures EscapeMarkdownV2Strict(s) == EscapeMarkdownV2(s)
  {
    if s != [] {
      assert '\\' !in s[1..];
      StrictAgreesWithoutBackslash(s[1..]);
    }
  }
}
