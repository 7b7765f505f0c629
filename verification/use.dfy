/** The `%use` line magic: it loads a hub environment module by reading the module's
    file line by line. A `prepend` line extends a variable, a `setenv` line assigns
    one through the shell, a `use` line loads another module and a `NAME=VALUE` line
    records a value for later `$NAME` references. Three pieces of process state
    change: `os.environ`, the module-level table `d` and `sys.path`. */
module Use {
  import opened Wrappers
  import OsPath
  import PyText

  /** What loading a module may raise. The changes made before the raise are kept. */
  datatype Exc =
    | ModuleMissing(msg: string)  // ValueError: no directory of the search path holds the module
    | Unpack(got: nat)            // ValueError: a `prepend` line needs exactly two operands
    | NoName                      // IndexError: a `setenv` line without operands
    | IllegalEnv                  // ValueError: `os.environ` refuses the name or the value
    | RecursionLimit              // RecursionError: `use` lines nested too deeply

  /** `os.environ`, the substitution table `d` and `sys.path`. */
  datatype Env = Env(environ: map<string, string>, d: map<string, string>, sysPath: seq<string>)

  /** The state an operation leaves, and what it raised if it did. */
  datatype Outcome = Outcome(env: Env, raised: Option<Exc>)

  /** The outside world. `epath` is the directory list taken from
      `ENVIRON_CONFIG_DIRS`; `isFile` tells which paths are regular files; `lines`
      gives a file's lines as Python iterates them, each with its line break; `echo(v)`
      is the output of `/bin/bash -c 'echo v'`, or `None` when the shell cannot be
      run, exits with a non-zero status or prints something that is not UTF-8. */
  datatype Host = Host(
    epath: seq<string>,
    isFile: string -> bool,
    lines: string -> seq<string>,
    echo: string -> Option<string>)

  /** The variable the directory list is read from when the module is imported. */
  const ConfigVar: string := "ENVIRON_CONFIG_DIRS"

  function MissingMessage(name: string): string {
    "use: could not find module: " + name
  }

  /** Whether `os.environ[name] = val` is accepted: a non-empty name without `=`,
      and no NUL character in the name or the value. */
  predicate Assignable(name: string, val: string) {
    name != "" && '=' !in name && '\0' !in name && '\0' !in val
  }

  // ---------------------------------------------------------------------------
  // Specification of the line handlers
  // ---------------------------------------------------------------------------

  /** `_set(a, b)`: `d[a]` becomes `b` with the references to names already in `d`
      substituted. */
  function SetF(e: Env, a: string, b: string): Env {
    e.(d := e.d[a := PyText.Subst(b, e.d)])
  }

  /** `setenv(args)`: the first operand names the variable. The other operands,
      joined by single spaces, are echoed through the shell. When the echo succeeds,
      its stripped output is assigned and recorded with `_set`. A failed echo or a
      refused assignment is swallowed. */
  function SetEnvF(h: Host, e: Env, args: seq<string>): Outcome {
    if |args| == 0 then Outcome(e, Some(NoName))
    else
      var name := args[0];
      match h.echo(PyText.Join(args[1..], " "))
      case None => Outcome(e, None)
      case Some(out) =>
        var v := PyText.Strip(out);
        if Assignable(name, v) then Outcome(SetF(e.(environ := e.environ[name := v]), name, v), None)
        else Outcome(e, None)
  }

  /** The stripped shell echo of `v`, or `v` itself when the echo fails. */
  function Echoed(h: Host, v: string): string {
    match h.echo(v)
    case Some(out) => PyText.Strip(out)
    case None => v
  }

  /** The value `prepend` assigns. `raw` is first substituted from `d`, then replaced
      by its stripped shell echo when that succeeds; an existing value of the
      variable is appended after a `:`. */
  function PrependValue(h: Host, e: Env, name: string, raw: string): string {
    var v := PyText.Subst(raw, e.d);
    var v' := Echoed(h, v);
    if name in e.environ then v' + ":" + e.environ[name] else v'
  }

  /** `list.insert(1, p)`: into an empty list the element becomes the only one. */
  function InsertSecond(xs: seq<string>, p: string): (r: seq<string>)
    ensures |r| == |xs| + 1
  {
    if xs == [] then [p] else xs[..1] + [p] + xs[1..]
  }

  /** Where inserting each of `parts` at index 1, the last one first, leaves them:
      right after the first entry and in their own order, the old entries from index 1
      on shifted behind them. Into an empty list the last part lands first. */
  function InsertFront(path: seq<string>, parts: seq<string>): (r: seq<string>)
    ensures |r| == |path| + |parts|
  {
    if path != [] then path[..1] + parts + path[1..]
    else if parts == [] then []
    else [parts[|parts| - 1]] + parts[..|parts| - 1]
  }

  /** `prepend(args)`: exactly two operands, the name and the value. The assignment
      itself is not guarded, so a refused name or value raises. For `PYTHONPATH` the
      parts of the new value are inserted into `sys.path`. */
  function PrependF(h: Host, e: Env, args: seq<string>): Outcome {
    if |args| != 2 then Outcome(e, Some(Unpack(|args|)))
    else
      var name := args[0];
      var v := PrependValue(h, e, name, args[1]);
      if !Assignable(name, v) then Outcome(e, Some(IllegalEnv))
      else
        var e' := e.(environ := e.environ[name := v]);
        if name == "PYTHONPATH" then Outcome(e'.(sysPath := InsertFront(e.sysPath, PyText.Split(v, ':'))), None)
        else Outcome(e', None)
  }

  /** The file `_use` opens: `os.path.join(dir, name)` for the first directory of
      `epath` (from index `i` on) where that is a file, `None` when there is none. */
  function FirstModule(epath: seq<string>, isFile: string -> bool, name: string, i: nat): Option<string>
    requires i <= |epath|
    decreases |epath| - i
  {
    if i == |epath| then None
    else if isFile(OsPath.Join(epath[i], name)) then Some(OsPath.Join(epath[i], name))
    else FirstModule(epath, isFile, name, i + 1)
  }

  /** The lookup fails exactly when no directory holds the module. */
  lemma {:induction false} FirstModuleNone(epath: seq<string>, isFile: string -> bool, name: string, i: nat)
    requires i <= |epath|
    ensures FirstModule(epath, isFile, name, i).None? <==>
              forall k :: i <= k < |epath| ==> !isFile(OsPath.Join(epath[k], name))
    decreases |epath| - i
  {
    if i < |epath| && !isFile(OsPath.Join(epath[i], name)) {
      FirstModuleNone(epath, isFile, name, i + 1);
    }
  }

  /** A successful lookup finds the earliest directory that holds the module. */
  lemma {:induction false} FirstModuleFirst(epath: seq<string>, isFile: string -> bool, name: string, i: nat)
    requires i <= |epath| && FirstModule(epath, isFile, name, i).Some?
    ensures exists k :: i <= k < |epath| && FirstModule(epath, isFile, name, i).value == OsPath.Join(epath[k], name)
                        && isFile(OsPath.Join(epath[k], name))
                        && forall j :: i <= j < k ==> !isFile(OsPath.Join(epath[j], name))
    decreases |epath| - i
  {
    if !isFile(OsPath.Join(epath[i], name)) {
      FirstModuleFirst(epath, isFile, name, i + 1);
      var k :| i + 1 <= k < |epath| && FirstModule(epath, isFile, name, i + 1).value == OsPath.Join(epath[k], name)
               && isFile(OsPath.Join(epath[k], name))
               && forall j :: i + 1 <= j < k ==> !isFile(OsPath.Join(epath[j], name));
      assert forall j :: i <= j < k ==> !isFile(OsPath.Join(epath[j], name));
    }
  }

  // ---------------------------------------------------------------------------
  // Line dispatch
  // ---------------------------------------------------------------------------

  /** What `_use` does with one line of a module file. */
  datatype Line =
    | Blank
    | PrependLine(args: seq<string>)
    | SetEnvLine(args: seq<string>)
    | UseLine(name: string)
    | Assign(key: string, val: string)
    | Ignored

  predicate IsKeyword(w: string) {
    w == "prepend" || w == "setenv" || w == "use"
  }

  /** The dispatch on the line's words: a blank line is skipped; `prepend` and
      `setenv` take the other words; `use` loads the module named by the last word.
      Any other line is split at `=` (the whole line, not its words) and is an
      assignment of the two stripped sides when there are exactly two parts. */
  function Classify(line: string): Line {
    var ws := PyText.Words(PyText.Strip(line));
    if ws == [] then Blank
    else if ws[0] == "prepend" then PrependLine(ws[1..])
    else if ws[0] == "setenv" then SetEnvLine(ws[1..])
    else if ws[0] == "use" then UseLine(ws[|ws| - 1])
    else
      var parts := PyText.Split(line, '=');
      if |parts| == 2 then Assign(PyText.Strip(parts[0]), PyText.Strip(parts[1])) else Ignored
  }

  /** `_use(name)`, with `fuel` bounding how deeply `use` lines may nest: the module
      is looked up, then its lines run in order. */
  function UseF(h: Host, e: Env, name: string, fuel: nat): Outcome
    decreases fuel, 0, 0
  {
    if fuel == 0 then Outcome(e, Some(RecursionLimit))
    else
      match FirstModule(h.epath, h.isFile, name, 0)
      case None => Outcome(e, Some(ModuleMissing(MissingMessage(name))))
      case Some(f) => RunLinesF(h, e, h.lines(f), fuel - 1)
  }

  /** What one line of a module file does, by its kind. */
  function DispatchF(h: Host, e: Env, kind: Line, fuel: nat): Outcome
    decreases fuel, 1, 0
  {
    match kind
    case Blank => Outcome(e, None)
    case PrependLine(args) => PrependF(h, e, args)
    case SetEnvLine(args) => SetEnvF(h, e, args)
    case UseLine(n) => UseF(h, e, n, fuel)
    case Assign(k, v) => Outcome(SetF(e, k, v), None)
    case Ignored => Outcome(e, None)
  }

  /** The lines in order, up to the first one that raises. */
  function RunLinesF(h: Host, e: Env, lines: seq<string>, fuel: nat): Outcome
    decreases fuel, 2, |lines|
  {
    if lines == [] then Outcome(e, None)
    else
      var o := DispatchF(h, e, Classify(lines[0]), fuel);
      if o.raised.Some? then o else RunLinesF(h, o.env, lines[1..], fuel)
  }

  // ---------------------------------------------------------------------------
  // Properties of the specification
  // ---------------------------------------------------------------------------

  /** `_set` with a value free of `$` records it as given and changes nothing else. */
  lemma SetPlain(e: Env, a: string, b: string)
    requires '$' !in b
    ensures SetF(e, a, b).d == e.d[a := b]
    ensures SetF(e, a, b).environ == e.environ && SetF(e, a, b).sysPath == e.sysPath
  {
    PyText.SubstPlain(b, e.d);
  }

  /** A reference to a name recorded earlier is replaced by its recorded value. */
  lemma SetExpandsKnown(e: Env, a: string, id: string, rest: string)
    requires PyText.IsIdentifier(id) && id in e.d
    requires rest == [] || !PyText.IsIdChar(rest[0])
    ensures SetF(e, a, "$" + id + rest).d[a] == e.d[id] + PyText.Subst(rest, e.d)
    ensures SetF(e, a, "${" + id + "}" + rest).d[a] == e.d[id] + PyText.Subst(rest, e.d)
  {
    PyText.SubstKnown(id, rest, e.d);
  }

  /** While `d` knows no name, a value without `$$` is recorded unchanged: unknown
      references stay as they are. */
  lemma SetKeepsUnknown(e: Env, a: string, b: string)
    requires PyText.NoEscapes(b)
    requires forall id :: id in e.d ==> !PyText.IsIdentifier(id)
    ensures SetF(e, a, b).d[a] == b
  {
    PyText.SubstUnknown(b, e.d);
  }

  /** `setenv` assigns (and records) exactly when it has a name, the echo succeeds and
      the stripped echo is acceptable; it raises only when it has no operand. */
  lemma SetEnvEffect(h: Host, e: Env, args: seq<string>)
    ensures SetEnvF(h, e, args).raised.Some? <==> args == []
    ensures args != [] && h.echo(PyText.Join(args[1..], " ")).Some?
            && Assignable(args[0], PyText.Strip(h.echo(PyText.Join(args[1..], " ")).value)) ==>
              var v := PyText.Strip(h.echo(PyText.Join(args[1..], " ")).value);
              var r := SetEnvF(h, e, args).env;
              r.environ == e.environ[args[0] := v] && r.d == e.d[args[0] := PyText.Subst(v, e.d)]
              && r.sysPath == e.sysPath
    ensures !(args != [] && h.echo(PyText.Join(args[1..], " ")).Some?
              && Assignable(args[0], PyText.Strip(h.echo(PyText.Join(args[1..], " ")).value))) ==>
              SetEnvF(h, e, args).env == e
  {
  }

  /** An existing value is kept after the new one, separated by `:`. */
  lemma PrependKeepsOld(h: Host, e: Env, name: string, raw: string)
    requires name in e.environ
    ensures exists v :: PrependValue(h, e, name, raw) == v + ":" + e.environ[name]
  {
    var v := PyText.Subst(raw, e.d);
    var v' := Echoed(h, v);
    assert PrependValue(h, e, name, raw) == v' + ":" + e.environ[name];
  }

  /** `prepend` raises exactly when it does not have two operands or the assignment
      is refused; otherwise the variable holds the new value and only `PYTHONPATH`
      touches `sys.path`. */
  lemma PrependEffect(h: Host, e: Env, args: seq<string>)
    ensures PrependF(h, e, args).raised.Some? <==>
              |args| != 2 || !Assignable(args[0], PrependValue(h, e, args[0], args[1]))
    ensures PrependF(h, e, args).raised.Some? ==> PrependF(h, e, args).env == e
    ensures PrependF(h, e, args).raised.None? ==>
              var r := PrependF(h, e, args).env;
              r.environ == e.environ[args[0] := PrependValue(h, e, args[0], args[1])] && r.d == e.d
              && (args[0] != "PYTHONPATH" ==> r.sysPath == e.sysPath)
  {
  }

  /** Prepending to an existing `PYTHONPATH` (with `sys.path` non-empty) puts the parts
      of the new text, then the parts of the old value, right after `sys.path[0]`,
      ahead of the entries that were there. */
  lemma PrependPythonPath(h: Host, e: Env, raw: string)
    requires "PYTHONPATH" in e.environ && e.sysPath != []
    requires PrependF(h, e, ["PYTHONPATH", raw]).raised.None?
    ensures var v := PyText.Subst(raw, e.d);
            var v' := Echoed(h, v);
            PrependF(h, e, ["PYTHONPATH", raw]).env.sysPath ==
              e.sysPath[..1] + PyText.Split(v', ':') + PyText.Split(e.environ["PYTHONPATH"], ':') + e.sysPath[1..]
  {
    var v := PyText.Subst(raw, e.d);
    var v' := Echoed(h, v);
    var prev := e.environ["PYTHONPATH"];
    var full := PrependValue(h, e, "PYTHONPATH", raw);
    assert full == v' + [':'] + prev;
    var parts, olds := PyText.Split(v', ':'), PyText.Split(prev, ':');
    PyText.SplitAround(v', prev, ':');
    assert PyText.Split(full, ':') == parts + olds;
    calc {
      PrependF(h, e, ["PYTHONPATH", raw]).env.sysPath;
    ==
      InsertFront(e.sysPath, PyText.Split(full, ':'));
    ==
      InsertFront(e.sysPath, parts + olds);
    ==
      e.sysPath[..1] + (parts + olds) + e.sysPath[1..];
    ==
      e.sysPath[..1] + parts + olds + e.sysPath[1..];
    }
  }

  /** `_use` raises the lookup error, changing nothing, exactly when no directory
      of the search path holds the module. */
  lemma UseMissing(h: Host, e: Env, name: string, fuel: nat)
    requires fuel > 0
    ensures (forall k :: 0 <= k < |h.epath| ==> !h.isFile(OsPath.Join(h.epath[k], name))) ==>
              UseF(h, e, name, fuel) == Outcome(e, Some(ModuleMissing(MissingMessage(name))))
  {
    FirstModuleNone(h.epath, h.isFile, name, 0);
  }

  /** Otherwise `_use` runs the lines of the module file in the first directory that
      holds it. */
  lemma UseLoadsFirstMatch(h: Host, e: Env, name: string, fuel: nat, k: nat)
    requires fuel > 0 && k < |h.epath| && h.isFile(OsPath.Join(h.epath[k], name))
    requires forall j :: 0 <= j < k ==> !h.isFile(OsPath.Join(h.epath[j], name))
    ensures UseF(h, e, name, fuel) == RunLinesF(h, e, h.lines(OsPath.Join(h.epath[k], name)), fuel - 1)
  {
    FirstModuleNone(h.epath, h.isFile, name, 0);
    FirstModuleFirst(h.epath, h.isFile, name, 0);
    var r := FirstModule(h.epath, h.isFile, name, 0);
    var j :| 0 <= j < |h.epath| && r.value == OsPath.Join(h.epath[j], name)
             && h.isFile(OsPath.Join(h.epath[j], name))
             && forall i :: 0 <= i < j ==> !h.isFile(OsPath.Join(h.epath[i], name));
    assert j == k;
  }

  /** Running `a + b` runs `a`, then `b` from where `a` left off unless `a` raised. */
  lemma {:induction false} RunLinesAppend(h: Host, e: Env, a: seq<string>, b: seq<string>, fuel: nat)
    ensures RunLinesF(h, e, a + b, fuel) ==
              var o := RunLinesF(h, e, a, fuel);
              if o.raised.Some? then o else RunLinesF(h, o.env, b, fuel)
    decreases |a|
  {
    if a == [] {
      assert a + b == b;
    } else {
      assert (a + b)[0] == a[0] && (a + b)[1..] == a[1..] + b;
      var o := DispatchF(h, e, Classify(a[0]), fuel);
      if o.raised.None? {
        RunLinesAppend(h, o.env, a[1..], b, fuel);
      }
    }
  }

  /** Blank and whitespace-only lines are skipped, and only those. */
  lemma ClassifyBlank(line: string)
    ensures Classify(line) == Blank <==> PyText.AllSpace(line)
  {
    PyText.WordsBlank(PyText.Strip(line));
    PyText.StripBlank(line);
    PyText.StripShape(line);
  }

  /** A blank line leaves the state as it is. */
  lemma RunSkipsBlank(h: Host, e: Env, line: string, rest: seq<string>, fuel: nat)
    requires PyText.AllSpace(line)
    ensures RunLinesF(h, e, [line] + rest, fuel) == RunLinesF(h, e, rest, fuel)
  {
    ClassifyBlank(line);
    assert ([line] + rest)[1..] == rest;
  }

  /** A line that starts with no keyword is an assignment exactly when it holds one
      `=`. */
  lemma ClassifyAssignCount(line: string)
    requires var ws := PyText.Words(PyText.Strip(line)); ws != [] && !IsKeyword(ws[0])
    ensures Classify(line).Assign? <==> PyText.Count(line, '=') == 1
  {
    PyText.SplitCount(line, '=');
  }

  /** Such a line `a=b` records the stripped `b` under the stripped `a`. */
  lemma ClassifyAssignParts(a: string, b: string)
    requires '=' !in a && '=' !in b
    requires var ws := PyText.Words(PyText.Strip(a + "=" + b)); ws != [] && !IsKeyword(ws[0])
    ensures Classify(a + "=" + b) == Assign(PyText.Strip(a), PyText.Strip(b))
  {
    var line := a + "=" + b;
    assert PyText.Split(line, '=') == [a, b] by {
      assert line == a + ['='] + b;
      PyText.SplitAround(a, b, '=');
      PyText.SplitWithoutSep(a, '=');
      PyText.SplitWithoutSep(b, '=');
    }
  }

  /** A `use` line loads the module named by its last word. */
  lemma ClassifyUse(line: string)
    requires var ws := PyText.Words(PyText.Strip(line)); ws != [] && ws[0] == "use"
    ensures var ws := PyText.Words(PyText.Strip(line)); Classify(line) == UseLine(ws[|ws| - 1])
  {
  }

  /** One insertion at index 1 moves the boundary of the inserted parts by one. */
  lemma InsertStep(p0: seq<string>, parts: seq<string>, i: nat)
    requires 0 < i <= |parts|
    ensures p0 != [] ==>
              InsertSecond(p0[..1] + parts[i..] + p0[1..], parts[i - 1]) == p0[..1] + parts[i - 1..] + p0[1..]
    ensures var n := |parts|;
            InsertSecond(if i == n then [] else [parts[n - 1]] + parts[i..n - 1], parts[i - 1])
              == [parts[n - 1]] + parts[i - 1..n - 1]
  {
    var n := |parts|;
    assert parts[i - 1..] == [parts[i - 1]] + parts[i..];
    if p0 != [] {
      var xs := p0[..1] + parts[i..] + p0[1..];
      assert xs[..1] == p0[..1] && xs[1..] == parts[i..] + p0[1..];
    }
    if i < n {
      var ys := [parts[n - 1]] + parts[i..n - 1];
      assert ys[..1] == [parts[n - 1]] && ys[1..] == parts[i..n - 1];
      assert parts[i - 1..n - 1] == [parts[i - 1]] + parts[i..n - 1];
    }
  }

  /** `RunLinesF` on a suffix, one line at a time. */
  lemma RunLinesStep(h: Host, e: Env, lines: seq<string>, i: nat, fuel: nat)
    requires i < |lines|
    ensures RunLinesF(h, e, lines[i..], fuel) ==
              var o := DispatchF(h, e, Classify(lines[i]), fuel);
              if o.raised.Some? then o else RunLinesF(h, o.env, lines[i + 1..], fuel)
  {
    assert lines[i..][0] == lines[i] && lines[i..][1..] == lines[i + 1..];
  }

  /** `UseF` by the outcome of the lookup. */
  lemma UseCases(h: Host, e: Env, name: string, fuel: nat)
    requires fuel > 0
    ensures FirstModule(h.epath, h.isFile, name, 0).None? ==>
              UseF(h, e, name, fuel) == Outcome(e, Some(ModuleMissing(MissingMessage(name))))
    ensures FirstModule(h.epath, h.isFile, name, 0).Some? ==>
              UseF(h, e, name, fuel) == RunLinesF(h, e, h.lines(FirstModule(h.epath, h.isFile, name, 0).value), fuel - 1)
  {
  }

  // ---------------------------------------------------------------------------
  // The loader's state
  // ---------------------------------------------------------------------------

  /** The process state `_use` reads and changes, with the outside world it consults. */
  class Environment {
    const host: Host
    var environ: map<string, string>
    var d: map<string, string>
    var sysPath: seq<string>

    function State(): Env
      reads this
    {
      Env(environ, d, sysPath)
    }

    /** Importing the module: the search path is the whitespace-separated words of
        `ENVIRON_CONFIG_DIRS`, and `d` starts empty. */
    constructor(isFile: string -> bool, lines: string -> seq<string>, echo: string -> Option<string>,
                environ: map<string, string>, sysPath: seq<string>)
      requires ConfigVar in environ
      ensures host == Host(PyText.Words(environ[ConfigVar]), isFile, lines, echo)
      ensures State() == Env(environ, map[], sysPath)
    {
      host := Host(PyText.Words(environ[ConfigVar]), isFile, lines, echo);
      this.environ, d, this.sysPath := environ, map[], sysPath;
    }

    /** `_set(a, b)`. */
    method Set(a: string, b: string)
      modifies this
      ensures State() == SetF(old(State()), a, b)
    {
      var t := PyText.Subst(b, d);
      d := d[a := t];
    }

    /** `for p in reversed(parts): sys.path.insert(1, p)`. */
    method InsertPaths(parts: seq<string>)
      modifies this
      ensures sysPath == InsertFront(old(sysPath), parts)
      ensures environ == old(environ) && d == old(d)
    {
      ghost var p0 := sysPath;
      var i := |parts|;
      while i > 0
        invariant 0 <= i <= |parts|
        invariant environ == old(environ) && d == old(d)
        invariant p0 != [] ==> sysPath == p0[..1] + parts[i..] + p0[1..]
        invariant p0 == [] ==> sysPath == if i == |parts| then [] else [parts[|parts| - 1]] + parts[i..|parts| - 1]
      {
        InsertStep(p0, parts, i);
        i := i - 1;
        sysPath := InsertSecond(sysPath, parts[i]);
      }
      assert parts[0..] == parts;
    }

    /** `setenv(args)`. */
    method SetEnv(args: seq<string>) returns (raised: Option<Exc>)
      modifies this
      ensures Outcome(State(), raised) == SetEnvF(host, old(State()), args)
    {
      if |args| == 0 {
        return Some(NoName);
      }
      var name := args[0];
      var val := PyText.Join(args[1..], " ");
      var out := host.echo(val);
      raised := None;
      if out.Some? {
        var v := PyText.Strip(out.value);
        if Assignable(name, v) {
          environ := environ[name := v];
          Set(name, environ[name]);
        }
      }
    }

    /** `prepend(args)`. */
    method Prepend(args: seq<string>) returns (raised: Option<Exc>)
      modifies this
      ensures Outcome(State(), raised) == PrependF(host, old(State()), args)
    {
      if |args| != 2 {
        return Some(Unpack(|args|));
      }
      var name, val := args[0], args[1];
      val := PyText.Subst(val, d);
      var out := host.echo(val);
      if out.Some? {
        val := PyText.Strip(out.value);
      }
      if name in environ {
        val := val + ":" + environ[name];
      }
      assert val == PrependValue(host, old(State()), name, args[1]);
      if !Assignable(name, val) {
        return Some(IllegalEnv);
      }
      Export(name, val);
      raised := None;
    }

    /** The assignment that ends `prepend`, with the `sys.path` update for
        `PYTHONPATH`. */
    method Export(name: string, val: string)
      modifies this
      ensures environ == old(environ)[name := val] && d == old(d)
      ensures sysPath == if name == "PYTHONPATH" then InsertFront(old(sysPath), PyText.Split(val, ':')) else old(sysPath)
    {
      environ := environ[name := val];
      if name == "PYTHONPATH" {
        InsertPaths(PyText.Split(val, ':'));
      }
    }

    /** The lookup loop of `_use`: the first directory holding the module wins. */
    method FindModule(name: string) returns (f: Option<string>)
      ensures f == FirstModule(host.epath, host.isFile, name, 0)
    {
      f := None;
      var i := 0;
      while i < |host.epath|
        invariant 0 <= i <= |host.epath|
        invariant FirstModule(host.epath, host.isFile, name, 0) == FirstModule(host.epath, host.isFile, name, i)
      {
        var ename := OsPath.Join(host.epath[i], name);
        if host.isFile(ename) {
          f := Some(ename);
          break;
        }
        i := i + 1;
      }
    }

    /** `_use(name)`, nesting at most `fuel` deep. */
    method Use(name: string, fuel: nat) returns (raised: Option<Exc>)
      modifies this
      ensures Outcome(State(), raised) == UseF(host, old(State()), name, fuel)
      decreases fuel, 0, 0
    {
      if fuel == 0 {
        return Some(RecursionLimit);
      }
      ghost var s0 := State();
      var f := FindModule(name);
      UseCases(host, s0, name, fuel);
      if f.None? {
        return Some(ModuleMissing(MissingMessage(name)));
      }
      var lines := host.lines(f.value);
      raised := RunLines(lines, fuel - 1);
    }

    /** The loop over the lines of a module file, left at the first raise. */
    method RunLines(lines: seq<string>, fuel: nat) returns (raised: Option<Exc>)
      modifies this
      ensures Outcome(State(), raised) == RunLinesF(host, old(State()), lines, fuel)
      decreases fuel, 2, 0
    {
      raised := None;
      var i := 0;
      while i < |lines|
        invariant 0 <= i <= |lines|
        invariant raised.None?
        invariant RunLinesF(host, old(State()), lines, fuel) == RunLinesF(host, State(), lines[i..], fuel)
      {
        RunLinesStep(host, State(), lines, i, fuel);
        var kind := Classify(lines[i]);
        raised := Dispatch(kind, fuel);
        if raised.Some? {
          return;
        }
        i := i + 1;
      }
    }

    /** The handler for one line of a module file, by its kind. */
    method Dispatch(kind: Line, fuel: nat) returns (raised: Option<Exc>)
      modifies this
      ensures Outcome(State(), raised) == DispatchF(host, old(State()), kind, fuel)
      decreases fuel, 1, 0
    {
      match kind
      case Blank =>
        raised := None;
      case PrependLine(args) =>
        raised := Prepend(args);
      case SetEnvLine(args) =>
        raised := SetEnv(args);
      case UseLine(n) =>
        raised := Use(n, fuel);
      case Assign(k, v) =>
        Set(k, v);
        raised := None;
      case Ignored =>
        raised := None;
    }
  }
}
