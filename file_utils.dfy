/**
 * The pure helpers of src/file_utils.py: the extension of a path, the filter
 * that keeps loadable data files, the dispatch of a file to its reader, the
 * size gates of the CSV and pickle readers, and the renaming of table columns.
 *
 * Paths and column names are strings of characters (Python `str`).  File
 * sizes are byte counts handed in by the caller, since the source asks the
 * operating system for them.
 */
module FileUtils {

  datatype Result<T> = Ok(value: T) | Err(msg: string)

  // ---------------------------------------------------------------------------
  // Subsequences

  /** `a` is `b` with some elements removed, order kept (matched from the back). */
  predicate IsSubsequence<T(==)>(a: seq<T>, b: seq<T>)
    decreases |b|
  {
    if a == [] then true
    else if b == [] then false
    else if a[|a| - 1] == b[|b| - 1] then IsSubsequence(a[..|a| - 1], b[..|b| - 1])
    else IsSubsequence(a, b[..|b| - 1])
  }

  lemma {:induction false} SubsequenceDropLast<T>(a: seq<T>, b: seq<T>)
    requires a != [] && IsSubsequence(a, b)
    ensures IsSubsequence(a[..|a| - 1], b)
    decreases |b|, 0
  {
    var b' := b[..|b| - 1];
    if a[|a| - 1] == b[|b| - 1] {
      SubsequenceExtend(a[..|a| - 1], b', b[|b| - 1]);
      assert b' + [b[|b| - 1]] == b;
    } else {
      SubsequenceDropLast(a, b');
      SubsequenceExtend(a[..|a| - 1], b', b[|b| - 1]);
      assert b' + [b[|b| - 1]] == b;
    }
  }

  /** A subsequence of `b` is a subsequence of any extension of `b`. */
  lemma {:induction false} SubsequenceExtend<T>(a: seq<T>, b: seq<T>, x: T)
    requires IsSubsequence(a, b)
    ensures IsSubsequence(a, b + [x])
    decreases |b|, 1
  {
    if a != [] {
      assert (b + [x])[..|b|] == b;
      if a[|a| - 1] == x {
        SubsequenceDropLast(a, b);
      }
    }
  }

  /** The elements of `xs` that `keep` accepts, in order (a Python list comprehension with a condition, or `re.sub` of a character class by ""). */
  function Filter<T(==)>(xs: seq<T>, keep: T -> bool): (r: seq<T>)
    ensures |r| <= |xs|
    ensures forall i :: 0 <= i < |r| ==> r[i] in xs && keep(r[i])
    ensures forall i :: 0 <= i < |xs| && keep(xs[i]) ==> xs[i] in r
    decreases |xs|
  {
    if xs == [] then []
    else Filter(xs[..|xs| - 1], keep) + (if keep(xs[|xs| - 1]) then [xs[|xs| - 1]] else [])
  }

  lemma {:induction false} FilterLast<T>(xs: seq<T>, keep: T -> bool)
    requires xs != []
    ensures xs == xs[..|xs| - 1] + [xs[|xs| - 1]]
    ensures Filter(xs, keep) == Filter(xs[..|xs| - 1], keep) + (if keep(xs[|xs| - 1]) then [xs[|xs| - 1]] else [])
  {
  }

  /** Filtering keeps the order: the result is a subsequence of the input. */
  lemma {:induction false} FilterKeepsOrder<T>(xs: seq<T>, keep: T -> bool)
    ensures IsSubsequence(Filter(xs, keep), xs)
    decreases |xs|
  {
    if xs != [] {
      var init := xs[..|xs| - 1];
      var last := xs[|xs| - 1];
      var f := Filter(init, keep);
      FilterKeepsOrder(init, keep);
      FilterLast(xs, keep);
      if keep(last) {
        assert (f + [last])[..|f|] == f;
      } else {
        SubsequenceExtend(f, init, last);
        assert Filter(xs, keep) == f;
      }
    }
  }

  /** Filtering keeps every accepted element as often as it occurs and drops every other. */
  lemma {:induction false} FilterCounts<T>(xs: seq<T>, keep: T -> bool)
    ensures forall i :: 0 <= i < |xs| ==> multiset(Filter(xs, keep))[xs[i]] == if keep(xs[i]) then multiset(xs)[xs[i]] else 0
    ensures forall i :: 0 <= i < |Filter(xs, keep)| ==> multiset(Filter(xs, keep))[Filter(xs, keep)[i]] == multiset(xs)[Filter(xs, keep)[i]]
    decreases |xs|
  {
    if xs != [] {
      FilterCounts(xs[..|xs| - 1], keep);
      FilterLast(xs, keep);
    }
  }

  /** A sequence comes back unchanged exactly when `keep` accepts all of it. */
  lemma {:induction false} FilterFixed<T>(xs: seq<T>, keep: T -> bool)
    ensures Filter(xs, keep) == xs <==> forall i :: 0 <= i < |xs| ==> keep(xs[i])
    decreases |xs|
  {
    if xs != [] {
      var init := xs[..|xs| - 1];
      FilterFixed(init, keep);
      FilterLast(xs, keep);
      if Filter(xs, keep) == xs {
        assert keep(xs[|xs| - 1]);
        assert Filter(xs, keep)[..|init|] == Filter(init, keep);
      }
    }
  }

  /** Filtering twice is filtering once. */
  lemma FilterIdempotent<T>(xs: seq<T>, keep: T -> bool)
    ensures Filter(Filter(xs, keep), keep) == Filter(xs, keep)
  {
    FilterFixed(Filter(xs, keep), keep);
  }

  // ---------------------------------------------------------------------------
  // get_extension

  /** `filepath.split(".")[-1]`, computed from the back: the characters after the last dot. */
  function Extension(path: string): (r: string)
    ensures '.' !in r
    ensures |r| <= |path| && path[|path| - |r|..] == r
    ensures |r| == |path| || path[|path| - |r| - 1] == '.'
    decreases |path|
  {
    if path == [] then []
    else if path[|path| - 1] == '.' then []
    else Extension(path[..|path| - 1]) + [path[|path| - 1]]
  }

  /** `s.split(".")`: the pieces between the dots, built one character at a time. */
  function Split(s: string): (r: seq<string>)
    ensures |r| >= 1
    decreases |s|
  {
    if s == [] then [""]
    else
      var pieces := Split(s[..|s| - 1]);
      if s[|s| - 1] == '.' then pieces + [""]
      else pieces[..|pieces| - 1] + [pieces[|pieces| - 1] + [s[|s| - 1]]]
  }

  /** `get_extension` is the last piece of Python's `split(".")`. */
  lemma {:induction false} ExtensionIsLastPiece(s: string)
    ensures Extension(s) == Split(s)[|Split(s)| - 1]
    decreases |s|
  {
    if s != [] {
      ExtensionIsLastPiece(s[..|s| - 1]);
    }
  }

  /** The pieces of `split(".")` contain no dot, and there is one more piece than there are dots. */
  lemma {:induction false} SplitPieces(s: string)
    ensures forall k :: 0 <= k < |Split(s)| ==> '.' !in Split(s)[k]
    ensures |Split(s)| == 1 + |set i | 0 <= i < |s| && s[i] == '.'|
    decreases |s|
  {
    if s != [] {
      var init := s[..|s| - 1];
      SplitPieces(init);
      var dots := set i | 0 <= i < |s| && s[i] == '.';
      var initDots := set i | 0 <= i < |init| && init[i] == '.';
      if s[|s| - 1] == '.' {
        assert dots == initDots + {|s| - 1};
      } else {
        assert dots == initDots;
      }
    }
  }

  // ---------------------------------------------------------------------------
  // get_valid_filepaths

  const AllowedFiletypes: seq<string> := ["csv", "xlsx", "pkl", "json"]

  /** Python's `sub in s` on strings. */
  predicate Contains(s: string, sub: string)
  {
    exists i :: 0 <= i <= |s| && sub <= s[i..]
  }

  /** The test of the list comprehension in `get_valid_filepaths`. */
  predicate IsValidPath(path: string)
  {
    !Contains(path, "$RECYCLE.BIN") && '.' in path && Extension(path) in AllowedFiletypes
  }

  /** `get_valid_filepaths` on the listed paths: those that pass, in their original order. */
  function ValidFilepaths(paths: seq<string>): (r: seq<string>)
    ensures |r| <= |paths|
    ensures forall p :: p in r <==> p in paths && IsValidPath(p)
  {
    Filter(paths, IsValidPath)
  }

  /** The filter keeps the listing's order, and a listing of valid paths comes back unchanged. */
  lemma ValidFilepathsOrder(paths: seq<string>)
    ensures IsSubsequence(ValidFilepaths(paths), paths)
    ensures (forall k :: 0 <= k < |paths| ==> IsValidPath(paths[k])) ==> ValidFilepaths(paths) == paths
  {
    FilterKeepsOrder(paths, IsValidPath);
    FilterFixed(paths, IsValidPath);
  }

  /** A recycle-bin path is dropped whatever its extension. */
  lemma RecycleBinDropped(dir: string, name: string)
    ensures !IsValidPath(dir + "$RECYCLE.BIN" + name)
  {
    var p := dir + "$RECYCLE.BIN" + name;
    var bin := "$RECYCLE.BIN";
    assert bin <= p[|dir|..];
  }

  /** A name without a dot is its own extension. */
  lemma {:induction false} DotlessExtension(path: string)
    requires '.' !in path
    ensures Extension(path) == path
    decreases |path|
  {
    if path != [] {
      var init, last := path[..|path| - 1], path[|path| - 1];
      assert path == init + [last];
      assert last != '.';
      DotlessExtension(init);
      assert Extension(path) == Extension(init) + [last];
    }
  }

  /** A dotless name is dropped by the filter, though its "extension" (the whole name) is an allowed one. */
  lemma DotlessNameDropped()
    ensures Extension("csv") == "csv" && "csv" in AllowedFiletypes
    ensures !IsValidPath("csv")
  {
    var name := "csv";
    assert name[0] == 'c' && name[1] == 's' && name[2] == 'v';
    assert '.' !in name;
    DotlessExtension(name);
  }

  // ---------------------------------------------------------------------------
  // get_df, get_csv_df, get_pkl_df, get_filesize

  /** The four readers `get_df` dispatches to. */
  datatype Reader = CsvReader | XlsxReader | PklReader | JsonReader

  /** The extension each reader is chosen for. */
  function ReaderExtension(reader: Reader): string
  {
    match reader
    case CsvReader => "csv"
    case XlsxReader => "xlsx"
    case PklReader => "pkl"
    case JsonReader => "json"
  }

  const UnsupportedFiletype: string := "The provided filetype is not supported."

  /** The if/elif chain of `get_df` over the file type: a reader, or the `ValueError` for any other type. */
  function DispatchType(fileType: string): (r: Result<Reader>)
    ensures r.Ok? <==> fileType in AllowedFiletypes
    ensures r.Ok? ==> ReaderExtension(r.value) == fileType
    ensures r.Err? ==> r.msg == UnsupportedFiletype
  {
    if fileType == "csv" then Ok(CsvReader)
    else if fileType == "xlsx" then Ok(XlsxReader)
    else if fileType == "pkl" then Ok(PklReader)
    else if fileType == "json" then Ok(JsonReader)
    else Err(UnsupportedFiletype)
  }

  /** The branch `get_df(filepath)` takes, on the text after the last dot. */
  function Dispatch(path: string): Result<Reader>
  {
    DispatchType(Extension(path))
  }

  /** Every path the filter keeps has a reader. */
  lemma ValidPathsDispatch(path: string)
    requires IsValidPath(path)
    ensures Dispatch(path).Ok? && ReaderExtension(Dispatch(path).value) == Extension(path)
  {
    DispatchTypeOk(Extension(path));
  }

  lemma DispatchTypeOk(fileType: string)
    requires fileType in AllowedFiletypes
    ensures DispatchType(fileType).Ok?
  {
  }

  /**
   * `get_df` does not ask for a dot: a dotless name such as `csv` still goes
   * to the CSV reader, though the filter would not have listed it.
   */
  lemma DispatchIgnoresDot()
    ensures Dispatch("csv") == Ok(CsvReader) && !IsValidPath("csv")
  {
    DotlessNameDropped();
  }

  /** `int(os.path.getsize(filepath)/1000)` for a size in bytes. */
  function FileSizeKB(bytes: nat): (kb: nat)
    ensures kb * 1000 <= bytes < kb * 1000 + 1000
  {
    bytes / 1000
  }

  /** `get_csv_df` reads the file only below 500000 kilobytes; otherwise it returns nothing. */
  predicate CsvReadable(bytes: nat)
  {
    FileSizeKB(bytes) < 500000
  }

  /** `get_pkl_df` skips the file above 100000 kilobytes and reads it otherwise. */
  predicate PklReadable(bytes: nat)
  {
    !(FileSizeKB(bytes) > 100000)
  }

  /** The two gates in bytes: under 500 million for CSV, under 100001000 for pickles. */
  lemma SizeGatesInBytes(bytes: nat)
    ensures CsvReadable(bytes) <==> bytes < 500000000
    ensures PklReadable(bytes) <==> bytes < 100001000
  {
    var kb := FileSizeKB(bytes);
    if bytes < 500000000 { assert kb * 1000 < 500000000; }
    if bytes < 100001000 { assert kb * 1000 < 100001000; }
  }

  /** What `get_df` yields: the frame read by a reader, or nothing (the reader declined). */
  datatype Outcome = Frame(reader: Reader) | NoFrame

  /** The reader's answer for a file of `bytes` bytes: the CSV and pickle readers decline past their size gates. */
  function ReadOutcome(reader: Reader, bytes: nat): (r: Outcome)
    ensures r.Frame? ==> r.reader == reader
  {
    if reader == CsvReader && !CsvReadable(bytes) then NoFrame
    else if reader == PklReader && !PklReadable(bytes) then NoFrame
    else Frame(reader)
  }

  /** `get_df(filepath)` for a file of `bytes` bytes. */
  function GetDf(path: string, bytes: nat): (r: Result<Outcome>)
    ensures r.Err? <==> Dispatch(path).Err?
  {
    match Dispatch(path)
    case Err(msg) => Err(msg)
    case Ok(reader) => Ok(ReadOutcome(reader, bytes))
  }

  /** A reader declines exactly when it is the CSV or pickle reader past its gate. */
  lemma ReadOutcomeNoFrame(reader: Reader, bytes: nat)
    ensures ReadOutcome(reader, bytes) == NoFrame <==>
      (reader == CsvReader && bytes >= 500000000) || (reader == PklReader && bytes >= 100001000)
  {
    SizeGatesInBytes(bytes);
  }

  // ---------------------------------------------------------------------------
  // clean_table_cols

  /** The characters the pattern `[^0-9a-zA-Z.,-/_ ]` does not remove; `,-/` is the range `,` `-` `.` `/`. */
  predicate KeepChar(ch: char)
  {
    ('0' <= ch <= '9') || ('a' <= ch <= 'z') || ('A' <= ch <= 'Z') || ch == '.' || (',' <= ch <= '/')
    || ch == '_' || ch == ' '
  }

  /** `re.sub(r"[^0-9a-zA-Z.,-/_ ]", "", name)`. */
  function CleanName(name: string): (r: string)
    ensures |r| <= |name|
    ensures forall i :: 0 <= i < |r| ==> KeepChar(r[i])
  {
    var r := Filter(name, KeepChar);
    assert forall i :: 0 <= i < |r| ==> r[i] in r;
    r
  }

  /**
   * Cleaning keeps the kept characters, in order and as often as they occur,
   * and drops every other; a name is left as it is exactly when all its
   * characters are kept; cleaning twice is cleaning once.
   */
  lemma CleanNameFilters(name: string)
    ensures IsSubsequence(CleanName(name), name)
    ensures forall ch :: multiset(CleanName(name))[ch] == if KeepChar(ch) then multiset(name)[ch] else 0
    ensures CleanName(name) == name <==> forall i :: 0 <= i < |name| ==> KeepChar(name[i])
    ensures CleanName(CleanName(name)) == CleanName(name)
  {
    FilterKeepsOrder(name, KeepChar);
    FilterCounts(name, KeepChar);
    FilterFixed(name, KeepChar);
    FilterIdempotent(name, KeepChar);
  }

  /**
   * The UTF-8 byte order mark read as Latin-1, `ï»¿`, is removed from the
   * front of a name: none of its characters is kept.
   */
  lemma {:induction false} ByteOrderMarkRemoved(name: string)
    ensures CleanName("ï»¿" + name) == CleanName(name)
    decreases |name|
  {
    var bom := "ï»¿";
    if name == [] {
      assert bom + name == bom;
      assert CleanName(bom) == CleanName(bom[..2]);
      assert bom[..2][..1] == bom[..1];
      assert CleanName(bom[..2]) == CleanName(bom[..1]);
      assert CleanName(bom[..1]) == CleanName([]);
    } else {
      var init := name[..|name| - 1];
      ByteOrderMarkRemoved(init);
      assert (bom + name)[..|bom + name| - 1] == bom + init;
    }
  }

  /** A column of the frame, with whether its dtype is `object`. */
  datatype Column = Column(name: string, isObject: bool)

  /** What `clean_table_cols` does to one column: clean its name when `check_string` is off or it holds objects. */
  function Renamed(col: Column, checkString: bool): (r: Column)
    ensures r.isObject == col.isObject
    ensures r.name == (if !checkString || col.isObject then CleanName(col.name) else col.name)
  {
    if !checkString || col.isObject then col.(name := CleanName(col.name)) else col
  }

  /** `clean_table_cols(df, check_string)`: every column in turn, renamed in place. */
  method CleanTableCols(columns: array<Column>, checkString: bool)
    modifies columns
    ensures forall i :: 0 <= i < columns.Length ==> columns[i] == Renamed(old(columns[i]), checkString)
  {
    for i := 0 to columns.Length
      invariant forall k :: 0 <= k < i ==> columns[k] == Renamed(old(columns[k]), checkString)
      invariant forall k :: i <= k < columns.Length ==> columns[k] == old(columns[k])
    {
      var col := columns[i];
      if !checkString || col.isObject {
        columns[i] := col.(name := CleanName(col.name));
      }
    }
  }

  /** After cleaning, a renamed column's name holds only kept characters; other columns keep their names. */
  lemma RenamedNames(col: Column, checkString: bool)
    ensures !checkString || col.isObject ==>
      forall i :: 0 <= i < |Renamed(col, checkString).name| ==> KeepChar(Renamed(col, checkString).name[i])
    ensures checkString && !col.isObject ==> Renamed(col, checkString) == col
    ensures Renamed(Renamed(col, checkString), checkString) == Renamed(col, checkString)
  {
    CleanNameFilters(col.name);
  }
}
