/**
 * The `debug` filter (filters/debug.ts): a `DEBUG`-style list of logger-name
 * patterns. Items are separated by runs of whitespace or commas; an item
 * starting with `-` excludes, any other includes; `*` in a pattern matches
 * any run of characters and a pattern must match the whole name.
 */
module DebugFilters {
  import opened Wrappers
  import opened Levels
  import opened Text
  import opened BaseLoggers

  predicate IsSeparator(c: char) {
    IsSpace(c) || c == ','
  }

  predicate NoSeparator(s: string) {
    forall i :: 0 <= i < |s| ==> !IsSeparator(s[i])
  }

  /** The index of the first separator of `s`, or `|s|` when there is none. */
  function FirstSeparator(s: string): (i: nat)
    ensures i <= |s|
    ensures NoSeparator(s[..i])
    ensures i < |s| ==> IsSeparator(s[i])
  {
    if s == [] then 0
    else if IsSeparator(s[0]) then 0
    else
      var k := FirstSeparator(s[1..]);
      assert s[..k + 1] == [s[0]] + s[1..][..k];
      k + 1
  }

  /** The end of the run of separators starting at `i`. */
  function RunEnd(s: string, i: nat): (j: nat)
    requires i <= |s|
    ensures i <= j <= |s|
    ensures forall k :: i <= k < j ==> IsSeparator(s[k])
    ensures j == |s| || !IsSeparator(s[j])
    decreases |s| - i
  {
    if i < |s| && IsSeparator(s[i]) then RunEnd(s, i + 1) else i
  }

  /**
   * `s.split(/[\s,]+/)`: the pieces between runs of separators; only the
   * first and the last piece can be empty.
   */
  function Pieces(s: string): (ps: seq<string>)
    ensures |ps| >= 1
    ensures forall k :: 0 <= k < |ps| ==> NoSeparator(ps[k])
    decreases |s|
  {
    var i := FirstSeparator(s);
    if i == |s| then [s]
    else
      var j := RunEnd(s, i);
      [s[..i]] + Pieces(s[j..])
  }

  /** The non-empty pieces, in order: the items the parser keeps. */
  function Tokens(s: string): (ts: seq<string>)
    ensures forall k :: 0 <= k < |ts| ==> ts[k] != [] && NoSeparator(ts[k])
  {
    NonEmptyMembers(Pieces(s));
    NonEmpty(Pieces(s))
  }

  function NonEmpty(ps: seq<string>): seq<string> {
    if ps == [] then []
    else (if ps[0] == [] then [] else [ps[0]]) + NonEmpty(ps[1..])
  }

  /** `NonEmpty` keeps exactly the non-empty pieces. */
  lemma {:induction false} NonEmptyMembers(ps: seq<string>)
    ensures forall k :: 0 <= k < |NonEmpty(ps)| ==> NonEmpty(ps)[k] != [] && NonEmpty(ps)[k] in ps
    ensures forall m :: 0 <= m < |ps| && ps[m] != [] ==> ps[m] in NonEmpty(ps)
  {
    if ps != [] {
      NonEmptyMembers(ps[1..]);
      forall m | 0 < m < |ps| ensures ps[m] == ps[1..][m - 1] {}
    }
  }

  /** A plain word is a single item. */
  lemma TokensOfWord(w: string)
    requires w != [] && NoSeparator(w)
    ensures Tokens(w) == [w]
  {
    assert FirstSeparator(w) == |w|;
    assert Pieces(w) == [w];
    assert [w][1..] == [];
    assert NonEmpty([w]) == [w] + NonEmpty([]);
  }

  /** A run of separators between a word and the rest splits them apart, however long the run. */
  lemma {:induction false} TokensSkipRun(w: string, run: string, rest: string)
    requires NoSeparator(w)
    requires run != [] && forall k :: 0 <= k < |run| ==> IsSeparator(run[k])
    requires rest == [] || !IsSeparator(rest[0])
    ensures Pieces(w + run + rest) == [w] + Pieces(rest)
    ensures Tokens(w + run + rest) == (if w == [] then [] else [w]) + Tokens(rest)
  {
    var s := w + run + rest;
    FirstSeparatorOfWord(w, run + rest);
    assert s == w + (run + rest);
    var i := FirstSeparator(s);
    assert i == |w|;
    RunEndOfRun(s, |w|, |w| + |run|);
    assert s[..i] == w;
    assert s[|w| + |run|..] == rest;
    assert Pieces(s) == [w] + Pieces(rest);
    assert NonEmpty([w] + Pieces(rest)) == (if w == [] then [] else [w]) + NonEmpty(Pieces(rest)) by {
      assert ([w] + Pieces(rest))[1..] == Pieces(rest);
    }
  }

  lemma {:induction false} FirstSeparatorOfWord(w: string, t: string)
    requires NoSeparator(w)
    requires t != [] && IsSeparator(t[0])
    ensures FirstSeparator(w + t) == |w|
    decreases |w|
  {
    if w == [] {
      assert w + t == t;
    } else {
      assert (w + t)[0] == w[0] && !IsSeparator(w[0]);
      assert (w + t)[1..] == w[1..] + t;
      assert NoSeparator(w[1..]) by {
        forall i | 0 <= i < |w[1..]| ensures !IsSeparator(w[1..][i]) {
          assert w[1..][i] == w[i + 1];
        }
      }
      FirstSeparatorOfWord(w[1..], t);
      assert FirstSeparator(w + t) == FirstSeparator(w[1..] + t) + 1;
    }
  }

  lemma {:induction false} RunEndOfRun(s: string, i: nat, j: nat)
    requires i <= j <= |s|
    requires forall k :: i <= k < j ==> IsSeparator(s[k])
    requires j == |s| || !IsSeparator(s[j])
    ensures RunEnd(s, i) == j
    decreases j - i
  {
    if i < j {
      RunEndOfRun(s, i + 1, j);
    }
  }

  // ------------------------------------------------------------ patterns

  /**
   * Whole-name glob matching: `*` matches any run of characters, every other
   * character itself. Only the empty name matches the empty pattern, and
   * every name a pattern matches is at least as long as its literal part.
   */
  function Matches(p: string, s: string): (r: bool)
    ensures p == [] ==> (r <==> s == [])
    ensures r ==> |s| >= |p| - multiset(p)['*']
    decreases |p| + |s|
  {
    if p == [] then s == []
    else
      assert p == [p[0]] + p[1..];
      if p[0] == '*' then Matches(p[1..], s) || (s != [] && Matches(p, s[1..]))
      else s != [] && s[0] == p[0] && Matches(p[1..], s[1..])
  }

  /** A pattern without `*` matches exactly itself. */
  lemma {:induction false} LiteralMatchesOnlyItself(p: string, s: string)
    requires '*' !in p
    ensures Matches(p, s) <==> s == p
    decreases |p| + |s|
  {
    if p != [] && s != [] {
      LiteralMatchesOnlyItself(p[1..], s[1..]);
      if s[0] == p[0] && s[1..] == p[1..] {
        assert s == [s[0]] + s[1..] && p == [p[0]] + p[1..];
      }
    }
  }

  /** `*` followed by a suffix matches anything ending with that suffix. */
  lemma {:induction false} StarMatchesAnyRun(mid: string, b: string)
    requires '*' !in b
    ensures Matches(['*'] + b, mid + b)
    decreases |mid|
  {
    var p := ['*'] + b;
    assert p[1..] == b;
    if mid == [] {
      assert mid + b == b;
      LiteralMatchesOnlyItself(b, b);
    } else {
      StarMatchesAnyRun(mid[1..], b);
      assert (mid + b)[1..] == mid[1..] + b;
    }
  }

  /** A literal prefix is matched character by character. */
  lemma {:induction false} LiteralPrefixMatches(a: string, p: string, s: string)
    requires '*' !in a
    ensures Matches(a + p, a + s) <==> Matches(p, s)
    decreases |a|
  {
    if a == [] {
      assert a + p == p && a + s == s;
    } else {
      assert (a + p)[0] == a[0] && (a + s)[0] == a[0];
      assert (a + p)[1..] == a[1..] + p;
      assert (a + s)[1..] == a[1..] + s;
      LiteralPrefixMatches(a[1..], p, s);
    }
  }

  /** `a*b` matches every name made of `a`, any run of characters and `b`. */
  lemma GlobMatchesAnySubstring(a: string, mid: string, b: string)
    requires '*' !in a && '*' !in b
    ensures Matches(a + ['*'] + b, a + mid + b)
  {
    StarMatchesAnyRun(mid, b);
    LiteralPrefixMatches(a, ['*'] + b, mid + b);
    assert a + ['*'] + b == a + (['*'] + b);
    assert a + mid + b == a + (mid + b);
  }

  /** `*` alone matches every name. */
  lemma StarMatchesEverything(s: string)
    ensures Matches("*", s)
  {
    StarMatchesAnyRun(s, "");
    assert s + "" == s;
  }

  // ---------------------------------------------------------- the parser

  /** The include patterns: the items not starting with `-`, in order. */
  function IncludesOf(items: seq<string>): seq<string> {
    if items == [] then []
    else (if items[0] != [] && items[0][0] != '-' then [items[0]] else []) + IncludesOf(items[1..])
  }

  /** The exclude patterns: the items starting with `-`, with the `-` removed, in order. */
  function ExcludesOf(items: seq<string>): seq<string> {
    if items == [] then []
    else (if items[0] != [] && items[0][0] == '-' then [items[0][1..]] else []) + ExcludesOf(items[1..])
  }

  /** Every item lands in exactly the list its first character selects. */
  lemma {:induction false} PatternsOfItems(items: seq<string>)
    ensures forall k :: 0 <= k < |IncludesOf(items)| ==> IncludesOf(items)[k] in items && IncludesOf(items)[k] != [] && IncludesOf(items)[k][0] != '-'
    ensures forall k :: 0 <= k < |ExcludesOf(items)| ==> ['-'] + ExcludesOf(items)[k] in items
    ensures forall k :: 0 <= k < |items| && items[k] != [] && items[k][0] != '-' ==> items[k] in IncludesOf(items)
    ensures forall k :: 0 <= k < |items| && items[k] != [] && items[k][0] == '-' ==> items[k][1..] in ExcludesOf(items)
  {
    if items != [] {
      PatternsOfItems(items[1..]);
      var head := items[0];
      if head != [] && head[0] == '-' {
        assert head == ['-'] + head[1..];
      }
      forall k | 0 < k < |items| ensures items[k] == items[1..][k - 1] {}
    }
  }

  /** One item of the loop of `parseDebugFilter`, in terms of the three list functions. */
  lemma ParseStep(item: string, rest: seq<string>)
    ensures NonEmpty([item] + rest) == (if item == [] then [] else [item]) + NonEmpty(rest)
    ensures item != [] ==> IncludesOf([item] + NonEmpty(rest)) == (if item[0] != '-' then [item] else []) + IncludesOf(NonEmpty(rest))
    ensures item != [] ==> ExcludesOf([item] + NonEmpty(rest)) == (if item[0] == '-' then [item[1..]] else []) + ExcludesOf(NonEmpty(rest))
  {
    assert ([item] + rest)[1..] == rest;
    assert ([item] + NonEmpty(rest))[1..] == NonEmpty(rest);
  }

  /** `parseDebugFilter(filter)`: empty pieces are skipped; the rest become include or exclude patterns. */
  method ParseDebugFilter(filter: string) returns (includes: seq<string>, excludes: seq<string>)
    ensures includes == IncludesOf(Tokens(filter))
    ensures excludes == ExcludesOf(Tokens(filter))
  {
    includes, excludes := CollectPatterns(Pieces(filter));
  }

  /** The loop of `parseDebugFilter` over the pieces of the split. */
  method CollectPatterns(pieces: seq<string>) returns (includes: seq<string>, excludes: seq<string>)
    ensures includes == IncludesOf(NonEmpty(pieces))
    ensures excludes == ExcludesOf(NonEmpty(pieces))
  {
    includes := [];
    excludes := [];
    var i := 0;
    while i < |pieces|
      invariant 0 <= i <= |pieces|
      invariant includes + IncludesOf(NonEmpty(pieces[i..])) == IncludesOf(NonEmpty(pieces))
      invariant excludes + ExcludesOf(NonEmpty(pieces[i..])) == ExcludesOf(NonEmpty(pieces))
    {
      var item := pieces[i];
      assert pieces[i..] == [item] + pieces[i + 1..];
      ParseStep(item, pieces[i + 1..]);
      ghost var later := NonEmpty(pieces[i + 1..]);
      if item != [] {
        assert NonEmpty(pieces[i..]) == [item] + later;
        if item[0] == '-' {
          assert IncludesOf(NonEmpty(pieces[i..])) == IncludesOf(later);
          assert ExcludesOf(NonEmpty(pieces[i..])) == [item[1..]] + ExcludesOf(later);
          excludes := excludes + [item[1..]];
        } else {
          assert IncludesOf(NonEmpty(pieces[i..])) == [item] + IncludesOf(later);
          assert ExcludesOf(NonEmpty(pieces[i..])) == ExcludesOf(later);
          includes := includes + [item];
        }
      } else {
        assert NonEmpty(pieces[i..]) == later;
      }
      i := i + 1;
    }
    assert pieces[i..] == [];
  }

  // ---------------------------------------------------------- the filter

  /** `DebugOptions`: `level` admits every level above it; `filter` defaults to `*`. */
  datatype DebugOptions = DebugOptions(level: Option<int>, filter: Option<string>)

  function SomeMatch(patterns: seq<string>, name: string): bool {
    exists k :: 0 <= k < |patterns| && Matches(patterns[k], name)
  }

  /** The filter `debug(options)` returns, applied to one call. */
  function DebugAdmits(options: DebugOptions, ctx: FilterContext): (r: bool)
    ensures options.filter.GetOr("*") == "*" ==> r
    ensures options.level.Some? && Above(ctx.level, Num(options.level.value)) ==> r
    ensures r && options.filter.GetOr("*") != "*" && !(options.level.Some? && Above(ctx.level, Num(options.level.value)))
            ==> ctx.loggerName.Some? && options.filter.GetOr("*") != "-*"
                && !SomeMatch(ExcludesOf(Tokens(options.filter.GetOr("*"))), ctx.loggerName.value)
                && SomeMatch(IncludesOf(Tokens(options.filter.GetOr("*"))), ctx.loggerName.value)
  {
    var filter := options.filter.GetOr("*");
    if filter == "*" || (options.level.Some? && Above(ctx.level, Num(options.level.value))) then true
    else if filter == "-*" || ctx.loggerName.None? || SomeMatch(ExcludesOf(Tokens(filter)), ctx.loggerName.value) then false
    else SomeMatch(IncludesOf(Tokens(filter)), ctx.loggerName.value)
  }

  /** A name listed with `-` is refused even when another item includes it. */
  lemma ExcludeWins(options: DebugOptions, ctx: FilterContext, k: nat)
    requires options.filter.Some? && options.filter.value != "*"
    requires !(options.level.Some? && Above(ctx.level, Num(options.level.value)))
    requires ctx.loggerName.Some?
    requires k < |Tokens(options.filter.value)|
    requires var t := Tokens(options.filter.value)[k]; t[0] == '-' && Matches(t[1..], ctx.loggerName.value)
    ensures !DebugAdmits(options, ctx)
  {
    var ts := Tokens(options.filter.value);
    PatternsOfItems(ts);
    assert ts[k][1..] in ExcludesOf(ts);
  }

  /** A name listed as a plain include is admitted unless an exclude matches it. */
  lemma IncludeAdmits(options: DebugOptions, ctx: FilterContext, k: nat)
    requires options.filter.Some? && options.filter.value != "-*"
    requires ctx.loggerName.Some?
    requires k < |Tokens(options.filter.value)|
    requires var t := Tokens(options.filter.value)[k]; t[0] != '-' && Matches(t, ctx.loggerName.value)
    requires !SomeMatch(ExcludesOf(Tokens(options.filter.value)), ctx.loggerName.value)
    ensures DebugAdmits(options, ctx)
  {
    var ts := Tokens(options.filter.value);
    PatternsOfItems(ts);
    assert ts[k] in IncludesOf(ts);
    var m :| 0 <= m < |IncludesOf(ts)| && IncludesOf(ts)[m] == ts[k];
    assert Matches(IncludesOf(ts)[m], ctx.loggerName.value);
  }

  /** Without a name, only `*` or a level above `level` admits. */
  lemma NamelessRefused(options: DebugOptions, ctx: FilterContext)
    requires ctx.loggerName.None?
    ensures DebugAdmits(options, ctx)
            <==> options.filter.GetOr("*") == "*" || (options.level.Some? && Above(ctx.level, Num(options.level.value)))
  {
  }
}
