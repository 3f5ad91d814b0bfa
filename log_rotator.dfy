/**
 * `LogRotator` (utils/log-rotator.ts): log files named after the current
 * period, with a numeric `_index` suffix that grows whenever the current
 * candidate must be rotated, and recovery of the index from the files already
 * on disk. The file system and the calendar enter as values: a map from the
 * paths that exist to their sizes, the modification times of the listed
 * files, and the period arithmetic as functions.
 */
module LogRotators {
  import opened Wrappers
  import opened Text

  /** The existing files: path to size in bytes. */
  type FileSystem = map<string, nat>

  /** The `_index` part of a log file name; index 0 has none. */
  function IndexSuffix(index: nat): (r: string)
    ensures index == 0 <==> r == ""
    ensures index > 0 ==> r == "_" + NatToString(index)
  {
    if index > 0 then "_" + NatToString(index) else ""
  }

  /** The file name without directory and extension. */
  function LogName(filename: string, index: nat): string {
    filename + IndexSuffix(index)
  }

  /** `getLogOutput(filename)`: the output directory joined with the name and the extension. */
  function GetLogOutput(output: string, filename: string, index: nat, extension: string): (r: string)
    ensures index == 0 ==> r == output + "/" + filename + "." + extension
    ensures index > 0 ==> r == output + "/" + filename + "_" + NatToString(index) + "." + extension
  {
    output + "/" + LogName(filename, index) + "." + extension
  }

  lemma MiddleEqual(p: string, x: string, y: string, q: string)
    requires p + x + q == p + y + q
    ensures x == y
  {
    assert |x| == |y|;
    assert x == (p + x + q)[|p|..|p| + |x|];
    assert y == (p + y + q)[|p|..|p| + |y|];
  }

  /** Different indexes give different paths, so the rotation loop never revisits a path. */
  lemma {:induction false} GetLogOutputInjective(output: string, filename: string, i: nat, j: nat, extension: string)
    requires GetLogOutput(output, filename, i, extension) == GetLogOutput(output, filename, j, extension)
    ensures i == j
  {
    var p := output + "/" + filename;
    var q := "." + extension;
    LogOutputShape(output, filename, i, extension);
    LogOutputShape(output, filename, j, extension);
    MiddleEqual(p, IndexSuffix(i), IndexSuffix(j), q);
    IndexSuffixInjective(i, j);
  }

  lemma LogOutputShape(output: string, filename: string, index: nat, extension: string)
    ensures GetLogOutput(output, filename, index, extension) == (output + "/" + filename) + IndexSuffix(index) + ("." + extension)
  {
    var p, x, q := output + "/" + filename, IndexSuffix(index), "." + extension;
    assert output + "/" + (filename + x) + "." + extension == p + x + q;
  }

  lemma IndexSuffixInjective(i: nat, j: nat)
    requires IndexSuffix(i) == IndexSuffix(j)
    ensures i == j
  {
    if i > 0 && j > 0 {
      assert NatToString(i) == IndexSuffix(i)[1..];
      assert NatToString(j) == IndexSuffix(j)[1..];
      NatToStringValue(i);
      NatToStringValue(j);
    }
  }

  /** `Number(s)` for the index part of a name: digit strings (the empty one is 0); `None` stands for `NaN`. */
  function NumberOf(s: string): (r: Option<nat>)
    ensures r.Some? <==> AllDigits(s)
  {
    if AllDigits(s) then Some(DigitsValue(s)) else None
  }

  /** What `parseLogPath` reads from a name: the base file name and the index. */
  datatype ParsedName = ParsedName(filename: string, index: Option<nat>)

  /**
   * The name part of `parseLogPath`: a name with no `_` is a base file name
   * with index 0; otherwise everything before the last `_` is the base file
   * name and the number after it the index.
   */
  function ParseLogName(name: string): (r: ParsedName)
    ensures '_' !in name ==> r == ParsedName(name, Some(0))
  {
    var parts := Split(name, '_');
    assert '_' !in name ==> parts == [name] by {
      if '_' !in name {
        SplitOfPlain(name, '_');
      }
    }
    if |parts| < 2 then ParsedName(Join(parts, '_'), Some(0))
    else ParsedName(Join(parts[..|parts| - 1], '_'), NumberOf(parts[|parts| - 1]))
  }

  lemma ParseSplitsAtLastUnderscore(filename: string, last: string)
    requires '_' !in last
    ensures ParseLogName(filename + "_" + last) == ParsedName(filename, NumberOf(last))
  {
    SplitBeforePlain(filename, last, '_');
    var parts := Split(filename + "_" + last, '_');
    assert parts[..|parts| - 1] == Split(filename, '_');
    JoinSplit(filename, '_');
  }

  /**
   * Parsing the name `getLogOutput` produced gives back the base file name and
   * the index: always for a positive index, and for index 0 when the base
   * file name has no `_`.
   */
  lemma ParseLogNameRoundTrip(filename: string, index: nat)
    requires index == 0 ==> '_' !in filename
    ensures ParseLogName(LogName(filename, index)) == ParsedName(filename, Some(index))
  {
    if index == 0 {
      assert LogName(filename, index) == filename;
    } else {
      var digits := NatToString(index);
      assert forall k :: 0 <= k < |digits| ==> IsDigit(digits[k]);
      assert '_' !in digits;
      assert LogName(filename, index) == filename + "_" + digits;
      ParseSplitsAtLastUnderscore(filename, digits);
      NatToStringValue(index);
    }
  }

  /** A file the directory listing returns: its name part and its rounded modification time. */
  datatype ListedFile = ListedFile(name: string, modifiedDate: int)

  /** The record `parseLogPath` returns. */
  datatype ParsedFile = ParsedFile(filename: string, index: Option<nat>, modifiedDate: int)

  function ParseLogPath(f: ListedFile): (r: ParsedFile)
    ensures r.modifiedDate == f.modifiedDate
    ensures ParsedName(r.filename, r.index) == ParseLogName(f.name)
  {
    var n := ParseLogName(f.name);
    ParsedFile(n.filename, n.index, f.modifiedDate)
  }

  /**
   * The position `toSorted` by descending modification time puts first among
   * the files whose base name matches the date format: a newest matching file,
   * and of several equally new ones the earliest listed (the sort is stable).
   */
  function NewestMatching(files: seq<ParsedFile>, isMatch: string -> bool): (r: Option<nat>)
    ensures r.None? <==> forall j :: 0 <= j < |files| ==> !isMatch(files[j].filename)
    ensures r.Some? ==> r.value < |files| && isMatch(files[r.value].filename)
    ensures r.Some? ==> forall j :: 0 <= j < |files| && isMatch(files[j].filename) ==>
                          files[j].modifiedDate <= files[r.value].modifiedDate
    ensures r.Some? ==> forall j :: 0 <= j < r.value && isMatch(files[j].filename) ==>
                          files[j].modifiedDate < files[r.value].modifiedDate
  {
    if files == [] then None
    else
      var rest := NewestMatching(files[1..], isMatch);
      if !isMatch(files[0].filename) then
        (if rest.Some? then Some(rest.value + 1) else None)
      else if rest.None? || files[1 + rest.value].modifiedDate <= files[0].modifiedDate then Some(0)
      else Some(rest.value + 1)
  }

  function ParseAll(listing: seq<ListedFile>): (r: seq<ParsedFile>)
    ensures |r| == |listing|
    ensures forall i :: 0 <= i < |listing| ==> r[i] == ParseLogPath(listing[i])
  {
    seq(|listing|, i requires 0 <= i < |listing| => ParseLogPath(listing[i]))
  }

  /** `getLatestLogFile()`: nothing for an empty listing, else the newest file whose base name matches. */
  function GetLatestLogFile(listing: seq<ListedFile>, isMatch: string -> bool): (r: Option<ParsedFile>)
    ensures listing == [] ==> r.None?
    ensures r.None? <==> forall i :: 0 <= i < |listing| ==> !isMatch(ParseLogPath(listing[i]).filename)
    ensures r.Some? ==> r.value in ParseAll(listing) && isMatch(r.value.filename)
    ensures r.Some? ==> forall i :: 0 <= i < |listing| && isMatch(ParseLogPath(listing[i]).filename) ==>
                          ParseLogPath(listing[i]).modifiedDate <= r.value.modifiedDate
  {
    if |listing| == 0 then None
    else
      var files := ParseAll(listing);
      var k := NewestMatching(files, isMatch);
      if k.Some? then Some(files[k.value]) else None
  }

  /** `shouldRotateByDate(date)`: only once a write time is known, when it lies in another period than `date`. */
  function ShouldRotateByDate(modifiedAt: Option<int>, date: int, periodsBetween: (int, int) -> int): (r: bool)
    ensures r <==> modifiedAt.Some? && periodsBetween(modifiedAt.value, date) != 0
  {
    modifiedAt.Some? && (var d := periodsBetween(modifiedAt.value, date); d > 0 || d < 0)
  }

  /**
   * `shouldRotate(path, date)`: never for a path that does not exist; for an
   * existing one, when a (non-zero) size limit is reached, and otherwise when
   * the period changed.
   */
  function ShouldRotate(fs: FileSystem, maxSize: Option<nat>, modifiedAt: Option<int>, date: int,
                        periodsBetween: (int, int) -> int, path: string): (r: bool)
    ensures r ==> path in fs
    ensures path in fs && maxSize.Some? && maxSize.value > 0 && fs[path] >= maxSize.value ==> r
    ensures !ShouldRotateByDate(modifiedAt, date, periodsBetween) && (maxSize.None? || maxSize.value == 0) ==> !r
    ensures r && !ShouldRotateByDate(modifiedAt, date, periodsBetween) ==> fs[path] >= maxSize.value > 0
  {
    if path !in fs then false
    else if maxSize.Some? && maxSize.value > 0 && fs[path] >= maxSize.value then true
    else ShouldRotateByDate(modifiedAt, date, periodsBetween)
  }

  /** The index the constructor starts from: that of the latest file, or 0 when there is none or it is `NaN`. */
  function InitialIndex(latest: Option<ParsedFile>): (r: nat)
    ensures latest.None? || latest.value.index.None? ==> r == 0
    ensures latest.Some? && latest.value.index.Some? ==> r == latest.value.index.value
  {
    if latest.Some? && latest.value.index.Some? then latest.value.index.value else 0
  }

  class LogRotator {
    const output: string
    const extension: string
    const maxSize: Option<nat>
    var index: nat
    var modifiedAt: Option<int>

    /**
     * The constructor: extension `log` unless given; the index and the write
     * time come from the latest matching file on disk, the write time moved
     * to the start of its period (a zero modification time counts as none).
     */
    constructor(output: string, extension: Option<string>, maxSize: Option<nat>,
                listing: seq<ListedFile>, isMatch: string -> bool, startOfPeriod: int -> int)
      ensures this.output == output && this.extension == extension.GetOr("log") && this.maxSize == maxSize
      ensures index == InitialIndex(GetLatestLogFile(listing, isMatch))
      ensures GetLatestLogFile(listing, isMatch).None? ==> index == 0 && modifiedAt.None?
      ensures var latest := GetLatestLogFile(listing, isMatch);
              modifiedAt == (if latest.Some? && latest.value.modifiedDate != 0
                             then Some(startOfPeriod(latest.value.modifiedDate)) else None)
    {
      this.output := output;
      this.extension := extension.GetOr("log");
      this.maxSize := maxSize;
      var latest := GetLatestLogFile(listing, isMatch);
      index := if latest.Some? && latest.value.index.Some? then latest.value.index.value else 0;
      modifiedAt := if latest.Some? && latest.value.modifiedDate != 0
                    then Some(startOfPeriod(latest.value.modifiedDate)) else None;
    }

    /** `getLogOutput(filename)` at the current index. */
    function CurrentOutput(filename: string): string
      reads this
    {
      GetLogOutput(output, filename, index, extension)
    }

    /**
     * `getLogPath()` for the period's file name `filename`: the index only
     * grows, every candidate skipped had to be rotated (so it exists), the
     * returned one need not be, and no more steps are taken than there are
     * existing files.
     */
    method GetLogPath(fs: FileSystem, date: int, periodsBetween: (int, int) -> int, filename: string) returns (path: string)
      modifies this
      ensures index >= old(index) && modifiedAt == old(modifiedAt)
      ensures path == GetLogOutput(output, filename, index, extension)
      ensures !ShouldRotate(fs, maxSize, modifiedAt, date, periodsBetween, path)
      ensures forall j :: old(index) <= j < index ==>
                ShouldRotate(fs, maxSize, modifiedAt, date, periodsBetween, GetLogOutput(output, filename, j, extension))
      ensures index - old(index) <= |fs|
    {
      ghost var start := index;
      ghost var visited: set<string> := {};
      while ShouldRotate(fs, maxSize, modifiedAt, date, periodsBetween, GetLogOutput(output, filename, index, extension))
        invariant start <= index && modifiedAt == old(modifiedAt)
        invariant visited <= fs.Keys && |visited| == index - start
        invariant forall j: nat :: index <= j ==> GetLogOutput(output, filename, j, extension) !in visited
        invariant forall j :: start <= j < index ==>
                    ShouldRotate(fs, maxSize, modifiedAt, date, periodsBetween, GetLogOutput(output, filename, j, extension))
        decreases |fs.Keys - visited|
      {
        var p := GetLogOutput(output, filename, index, extension);
        assert fs.Keys - visited == (fs.Keys - (visited + {p})) + {p};
        forall j: nat | index + 1 <= j
          ensures GetLogOutput(output, filename, j, extension) != p
        {
          if GetLogOutput(output, filename, j, extension) == p {
            GetLogOutputInjective(output, filename, j, index, extension);
          }
        }
        visited := visited + {p};
        index := index + 1;
      }
      assert |visited| <= |fs.Keys|;
      path := GetLogOutput(output, filename, index, extension);
    }

    /** The write callback: the write time becomes the start of the current period. */
    method Written(now: int, startOfPeriod: int -> int)
      modifies this
      ensures modifiedAt == Some(startOfPeriod(now)) && index == old(index)
    {
      modifiedAt := Some(startOfPeriod(now));
    }
  }

  /** With no size limit and the same period, the current file is kept, whatever exists. */
  lemma SamePeriodNoLimitKeepsFile(fs: FileSystem, modifiedAt: Option<int>, date: int,
                                   periodsBetween: (int, int) -> int, path: string)
    requires !ShouldRotateByDate(modifiedAt, date, periodsBetween)
    ensures !ShouldRotate(fs, None, modifiedAt, date, periodsBetween, path)
  {
  }

  /** Once the period changed, every existing candidate rotates: the loop stops at the first missing path. */
  lemma NewPeriodRotatesExisting(fs: FileSystem, maxSize: Option<nat>, modifiedAt: Option<int>, date: int,
                                 periodsBetween: (int, int) -> int, path: string)
    requires ShouldRotateByDate(modifiedAt, date, periodsBetween)
    ensures ShouldRotate(fs, maxSize, modifiedAt, date, periodsBetween, path) <==> path in fs
  {
  }
}
