/** The back-end half of the chunked file upload: the size-string parser `to_bytes`
    and the `FileUpload` sequencer, which filters the user's selection and then
    receives the accepted files one chunk at a time. */
module Upload {
  import opened Wrappers
  import OsPath

  newtype byte = x: int | 0 <= x < 256

  // ---------------------------------------------------------------------------
  // to_bytes
  // ---------------------------------------------------------------------------

  /** The argument of `to_bytes`: a Python `int` or a string. */
  datatype SizeArg = IntArg(n: int) | StrArg(s: string)

  /** The unit suffixes `to_bytes` understands. */
  datatype Unit = Bytes | Kilo | Mega | Giga

  predicate IsDigit(c: char) { '0' <= c <= '9' }

  /** What Python's `int()` accepts in this model: a non-empty run of ASCII digits. */
  predicate IsDigits(s: string) {
    |s| > 0 && forall i :: 0 <= i < |s| ==> IsDigit(s[i])
  }

  function DigitValue(c: char): nat
    requires IsDigit(c)
  {
    c as int - '0' as int
  }

  /** The decimal value of a digit string (the empty string reads as 0). */
  function DigitsValue(s: string): nat
    requires forall i :: 0 <= i < |s| ==> IsDigit(s[i])
  {
    if s == [] then 0
    else
      assert IsDigit(s[|s| - 1]);
      DigitsValue(s[..|s| - 1]) * 10 + DigitValue(s[|s| - 1])
  }

  function Factor(u: Unit): nat {
    match u
    case Bytes => 1
    case Kilo => 1024
    case Mega => 1024 * 1024
    case Giga => 1024 * 1024 * 1024
  }

  function UnitOf(c: char): Option<Unit> {
    if c == 'G' then Some(Giga)
    else if c == 'M' then Some(Mega)
    else if c == 'K' then Some(Kilo)
    else None
  }

  /** The size strings the grammar of `to_bytes` is meant to accept: digits, an
      optional K/M/G, and an optional trailing B. */
  function SizeString(digits: string, u: Unit, withB: bool): string {
    digits + Suffix(u) + (if withB then "B" else "")
  }

  /** The string after the optional trailing 'B' is removed (`numstr = numstr[:-1]`). */
  function StripB(s: string): (t: string)
    ensures t <= s && |s| - 1 <= |t|
  {
    if |s| > 0 && s[|s| - 1] == 'B' then s[..|s| - 1] else s
  }

  function ParseError(t: string): string {
    "Cannot parse '" + t + "'"
  }

  /** `to_bytes` exactly as written: `int(numstr[:-1])` is evaluated before the
      suffix is looked at, so a single digit ("5", "7B") raises even though a
      plain number is otherwise accepted. */
  function ToBytesAsWritten(a: SizeArg): (r: Result<int>)
    ensures a.IntArg? ==> r == Success(a.n)
    ensures a.StrArg? && r.Failure? ==> r.error == ParseError(StripB(a.s))
  {
    match a
    case IntArg(n) => Success(n)
    case StrArg(s) =>
      var t := StripB(s);
      if |t| == 0 then Failure(ParseError(t))
      else if !IsDigits(t[..|t| - 1]) then Failure(ParseError(t))
      else if UnitOf(t[|t| - 1]).Some? then
        Success(DigitsValue(t[..|t| - 1]) * Factor(UnitOf(t[|t| - 1]).value))
      else if IsDigits(t) then Success(DigitsValue(t))
      else Failure(ParseError(t))
  }

  /** `to_bytes` with the suffix examined first, as the function evidently intends:
      every digit string is accepted, with or without a K/M/G and a trailing B. */
  function ToBytes(a: SizeArg): (r: Result<int>)
    ensures a.IntArg? ==> r == Success(a.n)
    ensures a.StrArg? && r.Failure? ==> r.error == ParseError(StripB(a.s))
    ensures a.StrArg? && r.Success? ==> r.value >= 0
  {
    match a
    case IntArg(n) => Success(n)
    case StrArg(s) =>
      var t := StripB(s);
      if |t| == 0 then Failure(ParseError(t))
      else if UnitOf(t[|t| - 1]).Some? then
        if IsDigits(t[..|t| - 1])
        then Success(DigitsValue(t[..|t| - 1]) * Factor(UnitOf(t[|t| - 1]).value))
        else Failure(ParseError(t))
      else if IsDigits(t) then Success(DigitsValue(t))
      else Failure(ParseError(t))
  }

  function Suffix(u: Unit): string {
    match u
    case Bytes => ""
    case Kilo => "K"
    case Mega => "M"
    case Giga => "G"
  }

  /** Removing the optional 'B' from a size string leaves digits and unit. */
  lemma StripBOfSizeString(digits: string, u: Unit, withB: bool)
    requires IsDigits(digits)
    ensures StripB(SizeString(digits, u, withB)) == digits + Suffix(u)
  {
    var core := digits + Suffix(u);
    assert core[|core| - 1] != 'B' by {
      if u == Bytes { assert core[|core| - 1] == digits[|digits| - 1]; }
    }
    if withB {
      assert SizeString(digits, u, withB) == core + "B";
      assert (core + "B")[..|core|] == core;
    } else {
      assert SizeString(digits, u, withB) == core;
    }
  }

  /** Every size string of the grammar parses to its digits times its unit. */
  lemma ToBytesOfSizeString(digits: string, u: Unit, withB: bool)
    requires IsDigits(digits)
    ensures ToBytes(StrArg(SizeString(digits, u, withB))) == Success(DigitsValue(digits) * Factor(u))
  {
    StripBOfSizeString(digits, u, withB);
    if u == Bytes {
      ParsePlainDigits(SizeString(digits, u, withB), digits);
    } else {
      ParseUnitDigits(SizeString(digits, u, withB), digits, u);
    }
  }

  lemma ParsePlainDigits(s: string, digits: string)
    requires IsDigits(digits) && StripB(s) == digits + Suffix(Bytes)
    ensures ToBytes(StrArg(s)) == Success(DigitsValue(digits))
  {
    var t := StripB(s);
    assert t == digits;
    assert UnitOf(t[|t| - 1]).None? by { assert IsDigit(digits[|digits| - 1]); }
  }

  lemma ParseUnitDigits(s: string, digits: string, u: Unit)
    requires IsDigits(digits) && u != Bytes && StripB(s) == digits + Suffix(u)
    ensures ToBytes(StrArg(s)) == Success(DigitsValue(digits) * Factor(u))
  {
    var t := StripB(s);
    assert t[..|t| - 1] == digits;
    assert UnitOf(t[|t| - 1]) == Some(u);
  }

  /** Conversely, every string `to_bytes` accepts is a size string of the grammar. */
  lemma ToBytesOnlySizeStrings(s: string)
    requires ToBytes(StrArg(s)).Success?
    ensures exists digits, u, withB :: IsDigits(digits) && s == SizeString(digits, u, withB)
              && ToBytes(StrArg(s)).value == DigitsValue(digits) * Factor(u)
  {
    var withB := |s| > 0 && s[|s| - 1] == 'B';
    var t := StripB(s);
    assert s == t + (if withB then "B" else "");
    var last := t[|t| - 1];
    if UnitOf(last).Some? {
      var u := UnitOf(last).value;
      var digits := t[..|t| - 1];
      assert t == SizeString(digits, u, false);
      assert s == SizeString(digits, u, withB);
    } else {
      assert s == SizeString(t, Bytes, withB);
    }
  }

  /** The two readings differ exactly on a one-digit number, which the code as
      written rejects. */
  lemma ToBytesAsWrittenDiffers(a: SizeArg)
    ensures ToBytesAsWritten(a) != ToBytes(a)
        <==> a.StrArg? && |StripB(a.s)| == 1 && IsDigit(StripB(a.s)[0])
  {
    if a.StrArg? {
      var t := StripB(a.s);
      if |t| == 1 && IsDigit(t[0]) {
        assert t[..0] == [];
        assert IsDigits(t);
        assert ToBytes(a) == Success(DigitsValue(t));
      }
    }
  }

  /** The one-digit size "5" is rejected as written, accepted by the corrected reading. */
  lemma SingleDigitRejected()
    ensures ToBytesAsWritten(StrArg("5")).Failure?
    ensures ToBytes(StrArg("5")) == Success(5)
  {
    ToBytesAsWrittenDiffers(StrArg("5"));
    assert "5"[..0] == [];
  }

  lemma DigitsValueExamples()
    ensures DigitsValue("1") == 1 && DigitsValue("2") == 2
    ensures DigitsValue("10") == 10 && DigitsValue("500") == 500
  {
    assert "1"[..0] == "" && "2"[..0] == "" && "5"[..0] == "";
    assert "10"[..1] == "1";
    assert "500"[..2] == "50" && "50"[..1] == "5";
  }

  /** The documented sizes: 10K, 2M, 1G, 500 and 10B. */
  lemma ToBytesExamples()
    ensures ToBytes(StrArg("10K")) == Success(10 * 1024)
    ensures ToBytes(StrArg("2M")) == Success(2 * 1024 * 1024)
    ensures ToBytes(StrArg("1G")) == Success(1024 * 1024 * 1024)
    ensures ToBytes(StrArg("500")) == Success(500)
    ensures ToBytes(StrArg("10B")) == Success(10)
  {
    DigitsValueExamples();
    ToBytesOfSizeString("10", Kilo, false);
    assert SizeString("10", Kilo, false) == "10K";
    ToBytesOfSizeString("2", Mega, false);
    assert SizeString("2", Mega, false) == "2M";
    ToBytesOfSizeString("1", Giga, false);
    assert SizeString("1", Giga, false) == "1G";
    ToBytesOfSizeString("500", Bytes, false);
    assert SizeString("500", Bytes, false) == "500";
    ToBytesOfSizeString("10", Bytes, true);
    assert SizeString("10", Bytes, true) == "10B";
  }

  /** Strings outside the grammar raise: "", "B", "K" and "bogus". */
  lemma ToBytesRejects()
    ensures ToBytes(StrArg("")) == Failure("Cannot parse ''")
    ensures ToBytes(StrArg("B")) == Failure("Cannot parse ''")
    ensures ToBytes(StrArg("K")) == Failure("Cannot parse 'K'")
    ensures ToBytes(StrArg("bogus")) == Failure("Cannot parse 'bogus'")
  {
    assert StripB("B") == "";
    assert StripB("K") == "K" && "K"[..0] == "";
    assert !IsDigits("bogus") by { assert !IsDigit("bogus"[0]); }
  }

  // ---------------------------------------------------------------------------
  // Filtering the selection
  // ---------------------------------------------------------------------------

  /** One entry of the front end's `filenames` list: `[name, size]`. */
  datatype Selected = Selected(name: string, size: int)

  /** The original indices, below `n`, of the selected files that are not larger
      than `maxsize`, in selection order. */
  function AcceptedBelow(sel: seq<Selected>, maxsize: int, n: nat): (idx: seq<nat>)
    requires n <= |sel|
    ensures forall k :: 0 <= k < |idx| ==> idx[k] < n && sel[idx[k]].size <= maxsize
    ensures forall k, l :: 0 <= k < l < |idx| ==> idx[k] < idx[l]
  {
    if n == 0 then []
    else
      var prev := AcceptedBelow(sel, maxsize, n - 1);
      if sel[n - 1].size > maxsize then prev else prev + [n - 1]
  }

  /** The original indices of the selected files that are not larger than
      `maxsize`, in selection order. */
  function Accepted(sel: seq<Selected>, maxsize: int): (idx: seq<nat>)
    ensures forall k :: 0 <= k < |idx| ==> idx[k] < |sel| && sel[idx[k]].size <= maxsize
    ensures forall k, l :: 0 <= k < l < |idx| ==> idx[k] < idx[l]
  {
    AcceptedBelow(sel, maxsize, |sel|)
  }

  /** No file within the limit is dropped: a selection index below `n` is accepted
      exactly when its size is at most `maxsize`. */
  lemma {:induction false} AcceptedBelowComplete(sel: seq<Selected>, maxsize: int, n: nat, i: nat)
    requires i < n <= |sel|
    ensures i in AcceptedBelow(sel, maxsize, n) <==> sel[i].size <= maxsize
  {
    if i < n - 1 {
      AcceptedBelowComplete(sel, maxsize, n - 1, i);
    }
  }

  /** No file within the limit is dropped: a selection index is accepted exactly
      when its size is at most `maxsize`. */
  lemma AcceptedComplete(sel: seq<Selected>, maxsize: int, i: nat)
    requires i < |sel|
    ensures i in Accepted(sel, maxsize) <==> sel[i].size <= maxsize
  {
    AcceptedBelowComplete(sel, maxsize, |sel|, i);
  }

  /** The names of the selected files at the given indices. */
  function NamesAt(sel: seq<Selected>, idx: seq<nat>): (names: seq<string>)
    requires forall k :: 0 <= k < |idx| ==> idx[k] < |sel|
    ensures |names| == |idx| && forall k :: 0 <= k < |idx| ==> names[k] == sel[idx[k]].name
  {
    if idx == [] then [] else NamesAt(sel, idx[..|idx| - 1]) + [sel[idx[|idx| - 1]].name]
  }

  function SizesAt(sel: seq<Selected>, idx: seq<nat>): (sizes: seq<int>)
    requires forall k :: 0 <= k < |idx| ==> idx[k] < |sel|
    ensures |sizes| == |idx| && forall k :: 0 <= k < |idx| ==> sizes[k] == sel[idx[k]].size
  {
    if idx == [] then [] else SizesAt(sel, idx[..|idx| - 1]) + [sel[idx[|idx| - 1]].size]
  }

  /** Python's `s[:n]`: a negative `n` counts from the end. */
  function PyPrefix<T>(s: seq<T>, n: int): (r: seq<T>)
    ensures r <= s
    ensures 0 <= n ==> |r| == if n < |s| then n else |s|
    ensures n < 0 ==> |r| == if |s| + n > 0 then |s| + n else 0
  {
    if 0 <= n then (if n < |s| then s[..n] else s)
    else if |s| + n > 0 then s[..|s| + n] else []
  }

  /** `[os.path.join(dir, n) for n in names]`. */
  function OutputPaths(dir: string, names: seq<string>): (paths: seq<string>)
    ensures |paths| == |names| && forall k :: 0 <= k < |names| ==> paths[k] == OsPath.Join(dir, names[k])
  {
    seq(|names|, k requires 0 <= k < |names| => OsPath.Join(dir, names[k]))
  }

  /** The loop of `_filenames_received`: walk the selection and keep the name, the
      size and the original index of every file not larger than `maxsize`. */
  method Filter(selection: seq<Selected>, maxsize: int)
    returns (names: seq<string>, sizes: seq<int>, idx: seq<nat>)
    ensures idx == Accepted(selection, maxsize)
    ensures names == NamesAt(selection, idx) && sizes == SizesAt(selection, idx)
  {
    names, sizes, idx := [], [], [];
    var i := 0;
    while i < |selection|
      invariant 0 <= i <= |selection|
      invariant idx == AcceptedBelow(selection, maxsize, i)
      invariant |names| == |idx| && forall k :: 0 <= k < |idx| ==> names[k] == selection[idx[k]].name
      invariant |sizes| == |idx| && forall k :: 0 <= k < |idx| ==> sizes[k] == selection[idx[k]].size
    {
      if selection[i].size <= maxsize {
        names, sizes, idx := names + [selection[i].name], sizes + [selection[i].size], idx + [i];
      }
      i := i + 1;
    }
  }

  // ---------------------------------------------------------------------------
  // The sequencer
  // ---------------------------------------------------------------------------

  datatype BarStyle = Plain | Succeeded | Failed

  /** One `IntProgress` bar: its description, its maximum (the file size), its value
      (the bytes received so far) and its style. */
  datatype Bar = Bar(description: string, max: int, value: int, style: BarStyle)

  /** `pwidget(name, size, basic)`. */
  function NewBar(name: string, size: int, basic: bool): (b: Bar)
    ensures b.value == 0 && b.style == Plain && b.max == size
    ensures b.description == if basic then "" else name + ":"
  {
    Bar(if basic then "" else name + ":", size, 0, Plain)
  }

  function Bars(names: seq<string>, sizes: seq<int>, basic: bool): (bars: seq<Bar>)
    requires |names| <= |sizes|
    ensures |bars| == |names|
    ensures forall k :: 0 <= k < |names| ==> bars[k] == NewBar(names[k], sizes[k], basic)
  {
    seq(|names|, k requires 0 <= k < |names| => NewBar(names[k], sizes[k], basic))
  }

  /** Where the sequencer stands: nothing outstanding, a chunk requested, all files
      received, or the front end reported a read error. */
  datatype Phase = Idle | Awaiting | Done | Stopped

  /** What a new selection led to. */
  datatype Outcome = Ignored | NothingAccepted | Started | IndexError

  class FileUpload {
    const dir: string
    const maxnum: int
    const maxsize: int
    const basic: bool
    const hasCallback: bool

    var fnames: seq<string>
    var nums: seq<nat>
    var fnum: int
    var fcnt: int
    /** The path of the open output file, or None when no file is open. */
    var f: Option<string>
    var prog: Option<seq<Bar>>
    /** The last request sent to the front end: `[file index, offset]`. */
    var send: (int, int)
    /** The local file system, path to contents. */
    var files: map<string, seq<byte>>
    /** Every call `cb(self, fnames)`, in order. */
    var callbacks: seq<seq<string>>
    /** How many times the front end was told to reset. */
    var resetPulses: nat
    /** The protocol state; the source keeps it implicit in which request is outstanding. */
    var phase: Phase

    ghost predicate Valid()
      reads this
    {
      && (prog.Some? ==> |prog.value| == |fnames|)
      && (phase != Idle ==>
            && prog.Some?
            && 0 <= fnum < |fnames| <= |nums|
            && 0 <= fcnt
            && (forall k :: 0 <= k < fnum ==> prog.value[k].style == Succeeded)
            && (forall k :: fnum < k < |fnames| ==> prog.value[k].style == Plain && prog.value[k].value == 0))
      && (phase == Awaiting ==>
            && f == Some(fnames[fnum])
            && fnames[fnum] in files
            && send == (nums[fnum], fcnt)
            && prog.value[fnum].style == Plain
            && prog.value[fnum].value == fcnt)
      && (phase == Done ==>
            && f.None?
            && fnum == |fnames| - 1
            && prog.value[fnum].style == Succeeded)
      && (phase == Stopped ==> prog.value[fnum].style == Failed)
    }

    constructor (dir: string, maxnum: int, maxsize: int, basic: bool, hasCallback: bool,
                 disk: map<string, seq<byte>>)
      ensures Valid() && phase == Idle
      ensures this.dir == dir && this.maxnum == maxnum && this.maxsize == maxsize
      ensures this.basic == basic && this.hasCallback == hasCallback
      ensures fnames == [] && nums == [] && prog.None? && f.None? && files == disk
      ensures callbacks == [] && resetPulses == 0
    {
      this.dir := dir;
      this.maxnum := maxnum;
      this.maxsize := maxsize;
      this.basic := basic;
      this.hasCallback := hasCallback;
      fnames := [];
      nums := [];
      fnum := 0;
      fcnt := 0;
      f := None;
      prog := None;
      send := (-1, 0);
      files := disk;
      callbacks := [];
      resetPulses := 0;
      phase := Idle;
    }

    /** `FileUpload(...)`: the size limit is parsed by `to_bytes`, whose error aborts
        the construction. The corrected parser is used; it agrees with the code as
        written on every size the latter accepts, and differs only by also accepting
        a one-digit size such as "5" or "7B". */
    static method Create(dir: string, maxnum: int, maxsize: SizeArg, basic: bool,
                         hasCallback: bool, disk: map<string, seq<byte>>)
      returns (r: Result<FileUpload>)
      ensures r.Failure? <==> ToBytes(maxsize).Failure?
      ensures r.Success? ==> fresh(r.value) && r.value.Valid() && r.value.phase == Idle
                               && r.value.maxsize == ToBytes(maxsize).value
                               && r.value.maxnum == maxnum && r.value.dir == dir
                               && r.value.basic == basic && r.value.hasCallback == hasCallback
                               && r.value.fnames == [] && r.value.nums == [] && r.value.prog.None?
                               && r.value.f.None? && r.value.files == disk
                               && r.value.callbacks == [] && r.value.resetPulses == 0
      ensures ToBytesAsWritten(maxsize).Success? ==>
                r.Success? && r.value.maxsize == ToBytesAsWritten(maxsize).value
      ensures r.Success? && ToBytesAsWritten(maxsize).Failure? ==>
                maxsize.StrArg? && |StripB(maxsize.s)| == 1
    {
      ToBytesAsWrittenDiffers(maxsize);
      var size := ToBytes(maxsize);
      if size.Failure? {
        return Failure(size.error);
      }
      var up := new FileUpload(dir, maxnum, size.value, basic, hasCallback, disk);
      return Success(up);
    }

    /** `reset()`: drops the progress bars when there are any and pulses the front
        end's reset flag. */
    method Reset()
      modifies this
      ensures prog == if old(prog) == Some([]) then Some([]) else None
      ensures resetPulses == old(resetPulses) + 1 && phase == Idle
      ensures fnames == old(fnames) && nums == old(nums) && fnum == old(fnum) && fcnt == old(fcnt)
      ensures f == old(f) && files == old(files) && send == old(send) && callbacks == old(callbacks)
      ensures old(Valid()) ==> Valid()
    {
      if prog.Some? && prog.value != [] {
        prog := None;
      }
      resetPulses := resetPulses + 1;
      phase := Idle;
    }

    /** `list()`: the output paths of the latest accepted selection. */
    method List() returns (paths: seq<string>)
      ensures paths == fnames
    {
      paths := fnames;
    }

    /** `_filenames_received`: a new selection replaces the session. Files over
        `maxsize` are dropped, the rest are kept in selection order (their original
        indices in `nums`), the names are cut to the first `maxnum`, and the first
        chunk of the first file is requested. */
    method FilenamesReceived(selection: seq<Selected>) returns (outcome: Outcome)
      requires Valid()
      modifies this
      ensures Valid()
      ensures |selection| == 0 ==>
                outcome == Ignored && fnames == old(fnames) && nums == old(nums) && prog == old(prog)
                && phase == old(phase) && fnum == old(fnum) && fcnt == old(fcnt) && f == old(f)
                && files == old(files) && send == old(send) && resetPulses == old(resetPulses)
                && callbacks == old(callbacks)
      ensures |selection| > 0 ==> nums == Accepted(selection, maxsize) && callbacks == old(callbacks)
      ensures |selection| > 0 && nums == [] ==>
                outcome == NothingAccepted && fnames == [] && phase == Idle
                && prog == (if old(prog) == Some([]) then Some([]) else None)
                && resetPulses == old(resetPulses) + 1
                && fnum == old(fnum) && fcnt == old(fcnt) && f == old(f) && files == old(files) && send == old(send)
      ensures |selection| > 0 && nums != [] ==>
                && fnames == OutputPaths(dir, PyPrefix(NamesAt(selection, nums), maxnum))
                && prog == Some(Bars(PyPrefix(NamesAt(selection, nums), maxnum), SizesAt(selection, nums), basic))
                && resetPulses == old(resetPulses)
      ensures |selection| > 0 && nums != [] && fnames == [] ==>
                outcome == IndexError && phase == Idle && f == old(f) && files == old(files)
                && fnum == old(fnum) && fcnt == old(fcnt) && send == old(send)
      ensures |selection| > 0 && nums != [] && fnames != [] ==>
                outcome == Started && phase == Awaiting && fnum == 0 && fcnt == 0
                && f == Some(fnames[0]) && files == old(files)[fnames[0] := []] && send == (nums[0], 0)
    {
      if |selection| == 0 {
        return Ignored;
      }
      if prog.Some? && prog.value != [] {
        prog := None;
      }
      var names, sizes, idx := Filter(selection, maxsize);
      outcome := Accept(names, sizes, idx);
    }

    /** The rest of `_filenames_received`, once the selection has been filtered into
        the accepted names, sizes and original indices. */
    method Accept(names: seq<string>, sizes: seq<int>, idx: seq<nat>) returns (outcome: Outcome)
      requires |names| == |sizes| == |idx|
      requires prog != Some([]) ==> prog.None?
      modifies this
      ensures Valid() && nums == idx && callbacks == old(callbacks)
      ensures idx == [] ==>
                outcome == NothingAccepted && fnames == [] && phase == Idle && prog == old(prog)
                && resetPulses == old(resetPulses) + 1
                && fnum == old(fnum) && fcnt == old(fcnt) && f == old(f) && files == old(files) && send == old(send)
      ensures idx != [] ==>
                && fnames == OutputPaths(dir, PyPrefix(names, maxnum))
                && prog == Some(Bars(PyPrefix(names, maxnum), sizes, basic))
                && resetPulses == old(resetPulses)
      ensures idx != [] && fnames == [] ==>
                outcome == IndexError && phase == Idle && f == old(f) && files == old(files)
                && fnum == old(fnum) && fcnt == old(fcnt) && send == old(send)
      ensures idx != [] && fnames != [] ==>
                outcome == Started && phase == Awaiting && fnum == 0 && fcnt == 0
                && f == Some(fnames[0]) && files == old(files)[fnames[0] := []] && send == (nums[0], 0)
    {
      fnames, nums := names, idx;
      if sizes == [] {
        phase := Idle;
        Reset();
        return NothingAccepted;
      }
      var kept := PyPrefix(names, maxnum);
      var paths := OutputPaths(dir, kept);
      prog := Some(Bars(kept, sizes, basic));
      fnames := paths;
      if |paths| == 0 {
        phase := Idle;
        return IndexError;
      }
      ghost var before := files;
      assert before == old(files);
      Open(paths[0], idx[0]);
      assert files == before[paths[0] := []];
      return Started;
    }

    /** The first file of a new session: open it (empty) and request its first chunk,
        after pulsing the request through `[-1, 0]` so that the front end sees a change. */
    method Open(path: string, index: nat)
      requires prog.Some? && |prog.value| == |fnames| && 0 < |fnames| <= |nums|
      requires path == fnames[0] && index == nums[0]
      requires forall k :: 0 <= k < |fnames| ==> prog.value[k].style == Plain && prog.value[k].value == 0
      modifies this
      ensures Valid() && phase == Awaiting && fnum == 0 && fcnt == 0
      ensures f == Some(path) && files == old(files)[path := []] && send == (index, 0)
      ensures fnames == old(fnames) && nums == old(nums) && prog == old(prog)
      ensures resetPulses == old(resetPulses) && callbacks == old(callbacks)
    {
      files := files[path := []];
      f := Some(path);
      fnum, fcnt := 0, 0;
      send := (-1, 0);
      send := (index, fcnt);
      phase := Awaiting;
    }

    /** The empty-chunk branch of `_data_received`: the current bar turns green; the
        last file ends the upload (calling back if there is a callback), any other
        opens the next file and asks for its first chunk. */
    method NextFile()
      requires Valid() && phase == Awaiting
      modifies this
      ensures Valid()
      ensures fnames == old(fnames) && nums == old(nums) && fnum >= old(fnum)
      ensures resetPulses == old(resetPulses)
      ensures old(fnum) == |fnames| - 1 ==>
                && phase == Done && fnum == old(fnum) && fcnt == old(fcnt) && f.None?
                && files == old(files) && send == old(send)
                && prog == Some(old(prog.value)[old(fnum) := old(prog.value[fnum]).(style := Succeeded)])
                && callbacks == old(callbacks) + (if hasCallback then [fnames] else [])
      ensures old(fnum) < |fnames| - 1 ==>
                && phase == Awaiting && fnum == old(fnum) + 1 && fcnt == 0
                && f == Some(fnames[fnum]) && files == old(files)[fnames[fnum] := []]
                && send == (nums[fnum], 0)
                && prog == Some(old(prog.value)[old(fnum) := old(prog.value[fnum]).(style := Succeeded)])
                && callbacks == old(callbacks)
    {
      var bars := prog.value;
      prog := Some(bars[fnum := bars[fnum].(style := Succeeded)]);
      f := None;
      if fnum >= |fnames| - 1 {
        if hasCallback {
          callbacks := callbacks + [fnames];
        }
        phase := Done;
        return;
      }
      Advance();
    }

    /** The next file after a completed one: open it empty and ask for its first
        chunk. */
    method Advance()
      requires prog.Some? && |prog.value| == |fnames| && 0 <= fnum < |fnames| - 1 && |fnames| <= |nums|
      requires forall k :: 0 <= k <= fnum ==> prog.value[k].style == Succeeded
      requires forall k :: fnum < k < |fnames| ==> prog.value[k].style == Plain && prog.value[k].value == 0
      modifies this
      ensures Valid() && phase == Awaiting && fnum == old(fnum) + 1 && fcnt == 0
      ensures f == Some(fnames[fnum]) && files == old(files)[fnames[fnum] := []] && send == (nums[fnum], 0)
      ensures fnames == old(fnames) && nums == old(nums) && prog == old(prog)
      ensures resetPulses == old(resetPulses) && callbacks == old(callbacks)
    {
      fnum := fnum + 1;
      files := files[fnames[fnum] := []];
      f := Some(fnames[fnum]);
      fcnt := 0;
      send := (nums[fnum], fcnt);
      phase := Awaiting;
    }

    /** `_data_received`: the front end changed `sent` to `sent` with `data` as the
        (decoded) chunk. -1 is ignored; -2 marks the current bar failed and stops;
        an empty chunk completes the current file and moves on to the next (or calls
        back when it was the last); any other chunk is appended and the next offset
        is requested. */
    method DataReceived(sent: int, data: seq<byte>)
      requires Valid()
      requires sent != -1 ==> phase == Awaiting
      modifies this
      ensures Valid()
      ensures fnames == old(fnames) && nums == old(nums) && fnum >= old(fnum)
      ensures resetPulses == old(resetPulses)
      ensures sent == -1 ==>
                prog == old(prog) && phase == old(phase) && fnum == old(fnum) && fcnt == old(fcnt)
                && f == old(f) && files == old(files) && send == old(send) && callbacks == old(callbacks)
      ensures sent == -2 ==>
                && phase == Stopped
                && prog == Some(old(prog.value)[old(fnum) := old(prog.value[fnum]).(style := Failed)])
                && fnum == old(fnum) && fcnt == old(fcnt) && f == old(f) && files == old(files)
                && send == old(send) && callbacks == old(callbacks)
      ensures sent != -1 && sent != -2 && |data| > 0 ==>
                && phase == Awaiting && fnum == old(fnum) && fcnt == old(fcnt) + |data| && f == old(f)
                && files == old(files)[old(fnames[fnum]) := old(files[fnames[fnum]]) + data]
                && prog == Some(old(prog.value)[old(fnum) := old(prog.value[fnum]).(value := fcnt)])
                && send == (nums[fnum], fcnt) && callbacks == old(callbacks)
      ensures sent != -1 && sent != -2 && |data| == 0 && old(fnum) == |fnames| - 1 ==>
                && phase == Done && fnum == old(fnum) && fcnt == old(fcnt) && f.None?
                && files == old(files) && send == old(send)
                && prog == Some(old(prog.value)[old(fnum) := old(prog.value[fnum]).(style := Succeeded)])
                && callbacks == old(callbacks) + (if hasCallback then [fnames] else [])
      ensures sent != -1 && sent != -2 && |data| == 0 && old(fnum) < |fnames| - 1 ==>
                && phase == Awaiting && fnum == old(fnum) + 1 && fcnt == 0
                && f == Some(fnames[fnum]) && files == old(files)[fnames[fnum] := []]
                && send == (nums[fnum], 0)
                && prog == Some(old(prog.value)[old(fnum) := old(prog.value[fnum]).(style := Succeeded)])
                && callbacks == old(callbacks)
    {
      if sent == -1 {
        return;
      }
      if sent == -2 {
        var bars := prog.value;
        prog := Some(bars[fnum := bars[fnum].(style := Failed)]);
        phase := Stopped;
        return;
      }
      if |data| == 0 {
        NextFile();
        return;
      }
      var bars := prog.value;
      var path := f.value;
      files := files[path := files[path] + data];
      fcnt := fcnt + |data|;
      prog := Some(bars[fnum := bars[fnum].(value := fcnt)]);
      send := (nums[fnum], fcnt);
    }
  }
}
