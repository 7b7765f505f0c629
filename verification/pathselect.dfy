/** The server-side path chooser (`PathSelector`): it lists a directory as sorted
    `(key, value)` options and reacts to the user picking an entry, either choosing a
    file or descending into a directory. The file system is an oracle. */
module PathSelect {
  import opened Wrappers
  import OsPath

  /** What `refresh` asks of the operating system. `listdir` is `None` when
      `os.listdir` raises. */
  datatype FileSystem = FileSystem(
    abspath: string -> string,
    isFile: string -> bool,
    isDir: string -> bool,
    listdir: string -> Option<seq<string>>)

  // ---------------------------------------------------------------------------
  // Building the keys
  // ---------------------------------------------------------------------------

  /** A name starting with '.' is not listed. */
  predicate Hidden(name: string) {
    |name| > 0 && name[0] == '.'
  }

  /** Directories are shown in brackets. */
  function DirKey(name: string): string {
    "[" + name + "]"
  }

  /** The entry leading to the parent directory. */
  const UpKey: string := "[..]"

  /** The key of a listed entry of directory `path`. */
  function Key(fs: FileSystem, path: string, name: string): string {
    if fs.isDir(OsPath.Join(path, name)) then DirKey(name) else name
  }

  /** The keys of the visible entries of `names`, in listing order. */
  function EntryKeys(fs: FileSystem, path: string, names: seq<string>): (ks: seq<string>)
    ensures |ks| <= |names|
  {
    if names == [] then []
    else
      var rest := EntryKeys(fs, path, names[..|names| - 1]);
      var n := names[|names| - 1];
      if Hidden(n) then rest else rest + [Key(fs, path, n)]
  }

  /** Some visible entry of `names` has key `k`. */
  predicate HasEntryWithKey(fs: FileSystem, path: string, names: seq<string>, k: string) {
    exists i :: 0 <= i < |names| && !Hidden(names[i]) && Key(fs, path, names[i]) == k
  }

  /** A key is listed exactly when it is the key of some visible entry. */
  lemma {:induction false} EntryKeysComplete(fs: FileSystem, path: string, names: seq<string>, k: string)
    ensures k in EntryKeys(fs, path, names) <==> HasEntryWithKey(fs, path, names, k)
  {
    if names != [] {
      var init := names[..|names| - 1];
      var n := names[|names| - 1];
      EntryKeysComplete(fs, path, init, k);
      if k in EntryKeys(fs, path, names) {
        if k in EntryKeys(fs, path, init) {
          var i :| 0 <= i < |init| && !Hidden(init[i]) && Key(fs, path, init[i]) == k;
          assert names[i] == init[i];
        } else {
          assert !Hidden(n) && Key(fs, path, n) == k;
        }
      }
      if HasEntryWithKey(fs, path, names, k) {
        var i :| 0 <= i < |names| && !Hidden(names[i]) && Key(fs, path, names[i]) == k;
        if i < |init| {
          assert init[i] == names[i];
          assert HasEntryWithKey(fs, path, init, k);
        }
      }
    }
  }

  /** No listed key names a hidden entry: file keys are visible names and directory
      keys start with '['. */
  lemma {:induction false} EntryKeysVisible(fs: FileSystem, path: string, names: seq<string>)
    ensures forall k :: k in EntryKeys(fs, path, names) ==> !Hidden(k)
  {
    if names != [] {
      EntryKeysVisible(fs, path, names[..|names| - 1]);
    }
  }

  /** The loop of `refresh` that collects the keys: '[..]' first, then one key per
      visible entry. */
  method BuildKeys(fs: FileSystem, path: string, names: seq<string>) returns (keys: seq<string>)
    ensures keys == [UpKey] + EntryKeys(fs, path, names)
  {
    keys := [UpKey];
    var i := 0;
    while i < |names|
      invariant 0 <= i <= |names|
      invariant keys == [UpKey] + EntryKeys(fs, path, names[..i])
    {
      var item := names[i];
      assert names[..i + 1][..i] == names[..i];
      if Hidden(item) {
      } else if fs.isDir(OsPath.Join(path, item)) {
        keys := keys + [DirKey(item)];
      } else {
        keys := keys + [item];
      }
      i := i + 1;
    }
    assert names[..i] == names;
  }

  // ---------------------------------------------------------------------------
  // Sorting with key=str.lower
  // ---------------------------------------------------------------------------

  /** ASCII lower case. */
  function Lower(c: char): char {
    if 'A' <= c <= 'Z' then (c as int + 32) as char else c
  }

  function LowerStr(s: string): (t: string)
    ensures |t| == |s| && forall i :: 0 <= i < |s| ==> t[i] == Lower(s[i])
  {
    seq(|s|, i requires 0 <= i < |s| => Lower(s[i]))
  }

  /** Python's `<=` on strings: lexicographic by code point. */
  predicate LexLeq(a: string, b: string)
    decreases |a|
  {
    |a| == 0 || (|b| > 0 && (a[0] < b[0] || (a[0] == b[0] && LexLeq(a[1..], b[1..]))))
  }

  lemma {:induction false} LexLeqTotal(a: string, b: string)
    ensures LexLeq(a, b) || LexLeq(b, a)
    decreases |a|
  {
    if |a| > 0 && |b| > 0 && a[0] == b[0] {
      LexLeqTotal(a[1..], b[1..]);
    }
  }

  lemma {:induction false} LexLeqTrans(a: string, b: string, c: string)
    requires LexLeq(a, b) && LexLeq(b, c)
    ensures LexLeq(a, c)
    decreases |a|
  {
    if |a| > 0 && |b| > 0 && |c| > 0 && a[0] == b[0] && b[0] == c[0] {
      LexLeqTrans(a[1..], b[1..], c[1..]);
    }
  }

  /** The order of `keys.sort(key=str.lower)`. */
  predicate KeyLeq(a: string, b: string) {
    LexLeq(LowerStr(a), LowerStr(b))
  }

  predicate SortedByLower(s: seq<string>) {
    forall i, j :: 0 <= i < j < |s| ==> KeyLeq(s[i], s[j])
  }

  /** Inserts `x` after every element not above it, as a stable sort does. */
  function Insert(x: string, s: seq<string>): (r: seq<string>)
    ensures multiset(r) == multiset(s) + multiset{x}
  {
    if s == [] then [x]
    else if KeyLeq(s[|s| - 1], x) then s + [x]
    else
      assert s == s[..|s| - 1] + [s[|s| - 1]];
      Insert(x, s[..|s| - 1]) + [s[|s| - 1]]
  }

  lemma {:induction false} InsertSorted(x: string, s: seq<string>)
    requires SortedByLower(s)
    ensures SortedByLower(Insert(x, s))
  {
    if s == [] {
    } else {
      var last := s[|s| - 1];
      var init := s[..|s| - 1];
      if KeyLeq(last, x) {
        forall i | 0 <= i < |s| - 1
          ensures KeyLeq(s[i], x)
        {
          LexLeqTrans(LowerStr(s[i]), LowerStr(last), LowerStr(x));
        }
      } else {
        LexLeqTotal(LowerStr(last), LowerStr(x));
        InsertSorted(x, init);
        var r := Insert(x, init);
        forall e | e in r
          ensures KeyLeq(e, last)
        {
          assert e in multiset(r);
          if e != x {
            assert e in multiset(init);
            var i :| 0 <= i < |init| && init[i] == e;
            assert s[i] == e;
          }
        }
        forall i, j | 0 <= i < j < |r| + 1
          ensures KeyLeq((r + [last])[i], (r + [last])[j])
        {
          if j == |r| {
            assert r[i] in r;
          } else {
            assert (r + [last])[i] == r[i] && (r + [last])[j] == r[j];
          }
        }
      }
    }
  }

  /** `keys.sort(key=str.lower)` as a function: insertion from the left. */
  function SortByLower(s: seq<string>): (r: seq<string>)
    ensures multiset(r) == multiset(s)
  {
    if s == [] then []
    else
      assert s == s[..|s| - 1] + [s[|s| - 1]];
      Insert(s[|s| - 1], SortByLower(s[..|s| - 1]))
  }

  lemma {:induction false} SortByLowerSorted(s: seq<string>)
    ensures SortedByLower(SortByLower(s))
  {
    if s != [] {
      SortByLowerSorted(s[..|s| - 1]);
      InsertSorted(s[|s| - 1], SortByLower(s[..|s| - 1]));
    }
  }

  // ---------------------------------------------------------------------------
  // Values and options
  // ---------------------------------------------------------------------------

  /** The value of an option: a bracketed key loses its first and last characters
      (`k[1:-1]`), any other key is its own value. */
  function Value(k: string): string {
    if |k| > 0 && k[0] == '[' then
      if |k| >= 2 then k[1..|k| - 1] else ""
    else k
  }

  /** Unbracketing undoes the bracketing of a directory name, and '[..]' leads to '..'. */
  lemma ValueOfDirKey(name: string)
    ensures Value(DirKey(name)) == name
    ensures Value(UpKey) == ".."
  {
    assert DirKey(name)[1..|DirKey(name)| - 1] == name;
  }

  /** A file whose name does not start with '[' is its own value; one whose name does
      loses its first and last characters like a directory, e.g. '[draft]' is
      offered as 'draft'. */
  lemma ValueOfFileKey(name: string)
    ensures !(|name| > 0 && name[0] == '[') ==> Value(name) == name
    ensures Value("[draft]") == "draft"
  {
  }

  /** The loop of `refresh` that derives one value per key. */
  method BuildValues(keys: seq<string>) returns (vals: seq<string>)
    ensures |vals| == |keys|
    ensures forall i :: 0 <= i < |keys| ==> vals[i] == Value(keys[i])
  {
    vals := [];
    for i := 0 to |keys|
      invariant |vals| == i
      invariant forall j :: 0 <= j < i ==> vals[j] == Value(keys[j])
    {
      var k := keys[i];
      if |k| > 0 && k[0] == '[' {
        vals := vals + [if |k| >= 2 then k[1..|k| - 1] else ""];
      } else {
        vals := vals + [k];
      }
    }
  }

  /** `list(zip(keys, vals))`. */
  function Zip(keys: seq<string>, vals: seq<string>): (ps: seq<(string, string)>)
    requires |keys| == |vals|
    ensures |ps| == |keys| && forall i :: 0 <= i < |ps| ==> ps[i] == (keys[i], vals[i])
  {
    seq(|keys|, i requires 0 <= i < |keys| => (keys[i], vals[i]))
  }

  /** The options `refresh` offers for directory `path` listing `names`. */
  function Options(fs: FileSystem, path: string, names: seq<string>): seq<(string, string)> {
    var keys := SortByLower([UpKey] + EntryKeys(fs, path, names));
    Zip(keys, seq(|keys|, i requires 0 <= i < |keys| => Value(keys[i])))
  }

  /** The listing: '[..]' is offered, no hidden entry is, every visible entry is
      (bracketed when it is a directory), the keys are in lower-case order, and each
      value is its key unbracketed. */
  lemma OptionsListing(fs: FileSystem, path: string, names: seq<string>)
    ensures var opts := Options(fs, path, names);
            var keys := seq(|opts|, i requires 0 <= i < |opts| => opts[i].0);
            && multiset(keys) == multiset([UpKey] + EntryKeys(fs, path, names))
            && SortedByLower(keys)
            && (exists i :: 0 <= i < |opts| && opts[i] == (UpKey, ".."))
            && (forall i :: 0 <= i < |opts| ==> !Hidden(opts[i].0) && opts[i].1 == Value(opts[i].0))
            && (forall n :: n in names && !Hidden(n) ==> exists i :: 0 <= i < |opts| && opts[i].0 == Key(fs, path, n))
  {
    var built := [UpKey] + EntryKeys(fs, path, names);
    var sorted := SortByLower(built);
    var opts := Options(fs, path, names);
    var keys := seq(|opts|, i requires 0 <= i < |opts| => opts[i].0);
    assert keys == sorted;
    SortByLowerSorted(built);
    assert UpKey in multiset(sorted) by { assert built[0] == UpKey; }
    var u :| 0 <= u < |sorted| && sorted[u] == UpKey;
    ValueOfDirKey("");
    assert opts[u] == (UpKey, "..");
    EntryKeysVisible(fs, path, names);
    forall i | 0 <= i < |opts|
      ensures !Hidden(opts[i].0)
    {
      assert sorted[i] in multiset(built);
      assert sorted[i] in built;
    }
    forall n | n in names && !Hidden(n)
      ensures exists i :: 0 <= i < |opts| && opts[i].0 == Key(fs, path, n)
    {
      var j :| 0 <= j < |names| && names[j] == n;
      EntryKeysComplete(fs, path, names, Key(fs, path, n));
      assert Key(fs, path, n) in built;
      assert Key(fs, path, n) in multiset(sorted);
      var i :| 0 <= i < |sorted| && sorted[i] == Key(fs, path, n);
      assert opts[i].0 == Key(fs, path, n);
    }
  }

  // ---------------------------------------------------------------------------
  // The widget
  // ---------------------------------------------------------------------------

  /** What a `refresh` did. */
  datatype Refreshed = FileChosen | FileRefused | Listed | ListingFailed | NoChange

  class PathSelector {
    const fs: FileSystem
    /** True for choosing a file, false for choosing a directory. */
    const selectFile: bool
    /** The chosen file, if any. */
    var file: Option<string>
    /** The directory being shown. */
    var value: string
    /** The accordion's title. */
    var title: string
    /** The options of the multiple-selection list, and its selected values. */
    var options: seq<(string, string)>
    var selection: seq<string>
    /** Whether the accordion is open (`selected_index` is not `None`). */
    var expanded: bool

    constructor Init(fs: FileSystem, startDir: string, selectFile: bool)
      ensures this.fs == fs && this.selectFile == selectFile
      ensures file == None && value == startDir && title == ""
      ensures options == [("init", "init")] && selection == [] && !expanded
    {
      this.fs, this.selectFile := fs, selectFile;
      file, value, title := None, startDir, "";
      options, selection, expanded := [("init", "init")], [], false;
    }

    /** `PathSelector(start_dir, select_file)`: the initial refresh is asked for
        `start_dir` relative to `start_dir` itself, so a relative start directory is
        joined to itself. It fails when that listing raises. */
    static method Create(fs: FileSystem, startDir: string, selectFile: bool)
      returns (r: Result<PathSelector>)
      ensures var path := fs.abspath(OsPath.Join(startDir, startDir));
              r.Failure? <==> !fs.isFile(path) && fs.listdir(path).None?
      ensures r.Success? ==> fresh(r.value) && r.value.selectFile == selectFile && r.value.fs == fs
      ensures r.Success? ==>
                var path := fs.abspath(OsPath.Join(startDir, startDir));
                var q := r.value;
                && (fs.isFile(path) && selectFile ==>
                      && q.file == Some(path) && q.title == path && !q.expanded && q.value == startDir
                      && q.options == [("init", "init")] && q.selection == [])
                && (fs.isFile(path) && !selectFile ==>
                      && q.file == None && q.title == "" && !q.expanded && q.value == startDir
                      && q.options == [("init", "init")] && q.selection == [])
                && (!fs.isFile(path) ==>
                      && q.file == None && q.value == path && !q.expanded && q.title == path
                      && q.selection == [] && fs.listdir(path).Some?
                      && q.options == Options(fs, path, fs.listdir(path).value))
    {
      var p := new PathSelector.Init(fs, startDir, selectFile);
      var outcome := p.Refresh(startDir);
      if outcome == ListingFailed {
        return Failure("os.listdir failed");
      }
      return Success(p);
    }

    /** `refresh(item)`: a file is chosen (or, when choosing directories, the selection
        is cleared); anything else is entered as a directory and listed. */
    method Refresh(item: string) returns (outcome: Refreshed)
      modifies this
      ensures var path := fs.abspath(OsPath.Join(old(value), item));
              && (fs.isFile(path) && selectFile ==>
                    && outcome == FileChosen && file == Some(path) && title == path && !expanded
                    && value == old(value) && options == old(options) && selection == old(selection))
              && (fs.isFile(path) && !selectFile ==>
                    && outcome == FileRefused && selection == []
                    && file == old(file) && value == old(value) && title == old(title)
                    && options == old(options) && expanded == old(expanded))
              && (!fs.isFile(path) ==>
                    && file == None && value == path && expanded == old(expanded)
                    && (fs.listdir(path).None? ==>
                          outcome == ListingFailed && title == old(title)
                          && options == old(options) && selection == old(selection))
                    && (fs.listdir(path).Some? ==>
                          outcome == Listed && title == path && selection == []
                          && options == Options(fs, path, fs.listdir(path).value)))
    {
      var path := fs.abspath(OsPath.Join(value, item));
      if fs.isFile(path) {
        if selectFile {
          title := path;
          file := Some(path);
          expanded := false;
          outcome := FileChosen;
        } else {
          selection := [];
          outcome := FileRefused;
        }
      } else {
        file := None;
        value := path;
        var listing := fs.listdir(path);
        if listing.None? {
          return ListingFailed;
        }
        Show(path, listing.value);
        outcome := Listed;
      }
    }

    /** The listing half of `refresh`: the sorted keys and their values become the
        options, the path the title, and the selection is cleared. */
    method Show(path: string, names: seq<string>)
      modifies this
      ensures options == Options(fs, path, names) && title == path && selection == []
      ensures file == old(file) && value == old(value) && expanded == old(expanded)
    {
      var keys := BuildKeys(fs, path, names);
      keys := SortByLower(keys);
      var vals := BuildValues(keys);
      assert vals == seq(|keys|, i requires 0 <= i < |keys| => Value(keys[i]));
      title := path;
      options := Zip(keys, vals);
      selection := [];
    }

    /** `on_update`: a non-empty new selection refreshes with its first value; an
        empty one changes nothing. */
    method OnUpdate(newSelection: seq<string>) returns (outcome: Refreshed)
      modifies this
      ensures newSelection == [] ==>
                outcome == NoChange && file == old(file) && value == old(value) && title == old(title)
                && options == old(options) && selection == old(selection) && expanded == old(expanded)
      ensures newSelection != [] ==>
                var path := fs.abspath(OsPath.Join(old(value), newSelection[0]));
                && (fs.isFile(path) && selectFile ==>
                      && outcome == FileChosen && file == Some(path) && title == path && !expanded
                      && value == old(value) && options == old(options) && selection == old(selection))
                && (fs.isFile(path) && !selectFile ==>
                      && outcome == FileRefused && selection == []
                      && file == old(file) && value == old(value) && title == old(title)
                      && options == old(options) && expanded == old(expanded))
                && (!fs.isFile(path) ==>
                      && file == None && value == path && expanded == old(expanded)
                      && (fs.listdir(path).None? ==>
                            outcome == ListingFailed && title == old(title)
                            && options == old(options) && selection == old(selection))
                      && (fs.listdir(path).Some? ==>
                            outcome == Listed && title == path && selection == []
                            && options == Options(fs, path, fs.listdir(path).value)))
    {
      if |newSelection| > 0 {
        outcome := Refresh(newSelection[0]);
      } else {
        outcome := NoChange;
      }
    }
  }
}
