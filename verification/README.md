# nanohub-lib core, modelled in Dafny

This project models the logic of the nanoHUB notebook helper library
(`nanohublib`). Six pieces are covered:

- the chunked file upload (`ui/upload.py`): the size parser `to_bytes`, the
  `FileUpload` sequencer, and the browser's chunk reader as an oracle;
- the unit-aware numeric field (`ui/numvalue.py`);
- the dialog's primary-button check (`ui/modal.py`);
- the server-side path chooser (`ui/pathselect.py`);
- the `Group` and `Tab` containers (`ui/group.py`);
- the `%use` environment-module loader (`use/__init__.py`).

The modules are laid out as follows.

| module | file | models |
|---|---|---|
| `Wrappers` | wrappers.dfy | `Option` and `Result` |
| `OsPath` | ospath.dfy | `os.path.join` on POSIX |
| `Upload` | upload.dfy | `to_bytes`; filtering the selection; the `FileUpload` class |
| `UploadSession` | upload_session.dfy | the front end's 64 KiB chunk reply; whole sessions |
| `NumValue` | numvalue.dfy | `parse_units`, `_parse`, `_create_widget`, `_update`, `NumValue`/`Number`/`Integer` |
| `Modal` | modal.dfy | `check_primary` and the defaults |
| `PathSelect` | pathselect.dfy | `PathSelector.refresh` and `on_update` |
| `Group` | group.dfy | `Group` and `Tab` |
| `PyText` | pytext.dfy | `str.split()`, `str.split(sep)`, `sep.join`, `str.strip()`, `Template.safe_substitute` |
| `Use` | use.dfy | `setenv`, `prepend`, `_set`, `_use` and the line dispatch |

Objects whose fields the code updates in place are classes:

- `FileUpload`;
- `NumValue`;
- `PathSelector`;
- `Group`, `Tab` and their widgets;
- the loader's process state (`Use.Environment`, holding `os.environ`, `d` and `sys.path`).

Each method of these classes is tied to a specification function or states its whole new state.

Everything outside the process is a parameter:

- the file system and the browser's stored files;
- pint;
- the shell echo.

Where the prose documentation of the library and its code disagree, the code is
followed:

- Only the names are cut to `maxnum`; `nums` keeps every accepted index
  (`upload.py:292-295`). The two lists are therefore not always the same length.
- `to_bytes` also rejects one-digit strings such as `"5"`; see Findings. The
  constructor uses the corrected parser (see "## Left out").
- `self.fnames[:self.maxnum]` with `maxnum == 0` gives an empty name list, and so does a
  negative `maxnum` when at most `-maxnum` files are accepted (a negative slice end
  drops that many names from the end). In that case `self.fnames[0]` in the call to
  `open` at `upload.py:304` raises `IndexError` (outcome `IndexError`).

## Model

| member | source | states |
|---|---|---|
| Upload.ToBytesAsWritten | nanohublib/ui/upload.py:35-54 | `to_bytes` as written: an `int` comes back unchanged; every failure carries `Cannot parse '<text without its trailing B>'` |
| Upload.ToBytes | nanohublib/ui/upload.py:35-54 | the corrected parser: an `int` comes back unchanged, failures carry the same message, and accepted strings give a size of at least 0 |
| Upload.ToBytesOfSizeString | nanohublib/ui/upload.py:39-52 | every digit string with an optional K/M/G and an optional B parses to its value times 1, 1024, 1024² or 1024³ |
| Upload.ToBytesOnlySizeStrings | nanohublib/ui/upload.py:39-54 | conversely, every accepted string is such a size string, and its value is digits times unit |
| Upload.ToBytesAsWrittenDiffers | nanohublib/ui/upload.py:43-51 | the code as written and the corrected parser differ exactly on strings that are one digit once a trailing B is removed |
| Upload.SingleDigitRejected | nanohublib/ui/upload.py:43-51 | `"5"` raises as written and gives 5 when corrected |
| Upload.ToBytesExamples | nanohublib/ui/upload.py:35-52 | `10K`, `2M`, `1G`, `500` and `10B` give 10240, 2097152, 1073741824, 500 and 10 |
| Upload.ToBytesRejects | nanohublib/ui/upload.py:36-54 | `""`, `"B"`, `"K"` and `"bogus"` raise, each with its message |
| Upload.Accepted | nanohublib/ui/upload.py:279-285 | the accepted original indices are in range, refer to files within `maxsize`, and strictly increase |
| Upload.AcceptedComplete | nanohublib/ui/upload.py:279-285 | an index is accepted exactly when its size is at most `maxsize`, so no file within the limit is dropped |
| Upload.PyPrefix | nanohublib/ui/upload.py:295 | `s[:n]` is a prefix of `s` of length `min(n, len)`, or of `len + n` (at least 0) for a negative `n` |
| Upload.OutputPaths | nanohublib/ui/upload.py:302 | one output path per name, `os.path.join(dir, name)`, in order |
| Upload.Filter | nanohublib/ui/upload.py:276-285 | the loop keeps exactly the accepted indices, with their names and sizes in selection order |
| Upload.NewBar | nanohublib/ui/upload.py:374-392 | a new bar starts at 0 with the file size as maximum, and is labelled `name:` unless basic |
| Upload.Bars | nanohublib/ui/upload.py:297 | one new bar per kept name, paired with its size |
| Upload.FileUpload.constructor | nanohublib/ui/upload.py:257-260 | a fresh sequencer is idle, with no names, no bars and the given disk |
| Upload.FileUpload.Create | nanohublib/ui/upload.py:242-243 | construction fails exactly when the corrected `to_bytes(maxsize)` fails; otherwise the parsed limit is stored with the other arguments, in the idle state with no names and no bars. Every size the code as written accepts is stored with the same value; the only extra sizes accepted are one-digit strings |
| Upload.FileUpload.Reset | nanohublib/ui/upload.py:343-353 | the bars are dropped only when there are some; the front end gets one reset pulse; nothing else changes |
| Upload.FileUpload.List | nanohublib/ui/upload.py:355-356 | returns the output paths |
| Upload.FileUpload.FilenamesReceived | nanohublib/ui/upload.py:262-309 | an empty selection changes nothing, the callbacks included. Otherwise `nums` is the accepted indices. If none is accepted, `reset()` runs and no file opens. Otherwise the names are cut to `maxnum`, joined to `dir`, and the first file is opened empty with `[nums[0], 0]` requested. When no name survives the cut, `IndexError` leaves the file, the counters and the request as they were |
| Upload.FileUpload.Accept | nanohublib/ui/upload.py:287-308 | the same, once the selection is filtered: no accepted file resets; an empty cut raises `IndexError` with `f`, `fnum`, `fcnt`, `send` and the files unchanged; otherwise the first file is opened. The callbacks never change |
| Upload.FileUpload.Open | nanohublib/ui/upload.py:304-308 | the first output file is created empty and offset 0 of its source is requested |
| Upload.FileUpload.NextFile | nanohublib/ui/upload.py:325-337 | the bar turns success. After the last file the session is done and the callback gets all paths. Otherwise the next file opens empty and its offset 0 is requested. The reset counter and the names never change |
| Upload.FileUpload.Advance | nanohublib/ui/upload.py:333-336 | after a completed file that was not the last: the next file opens empty, its count is 0 and its offset 0 is requested; the names, bars, reset counter and callbacks are unchanged |
| Upload.FileUpload.DataReceived | nanohublib/ui/upload.py:311-341 | `-1` changes nothing. `-2` marks the bar failed and requests nothing. An empty chunk acts as NextFile. Any other chunk is appended to the open file, `fcnt` grows by its length, the bar shows `fcnt`, the same file stays open and `[nums[fnum], fcnt]` is requested. The reset counter never changes |
| UploadSession.Chunk | nanohublib/ui/upload.py:139-146 | the reply holds at most 64 KiB; it is empty exactly at or past the end; it is full when 64 KiB remain; it continues the file from the offset |
| UploadSession.Deliver | nanohublib/ui/upload.py:98-146 | one request answered and processed keeps the disk a mirror of the sources. The file grows, or the next file starts, or the session ends; `fnum` never decreases |
| UploadSession.Transfer | nanohublib/ui/upload.py:311-341 | answering every request ends the session. Every file not overwritten later equals its source, all bars show success, and the callback runs once |
| UploadSession.RunSession | nanohublib/ui/upload.py:262-341 | a selection that starts a transfer ends with the accepted files on disk equal to their sources |
| NumValue.MathLabel | nanohublib/ui/numvalue.py:56-58 | a label starting with a backslash is wrapped in `$…$`; any other label is kept |
| NumValue.ParseUnits | nanohublib/ui/numvalue.py:38-58 | `None` and `''` give `('', '')`. When all three attempts fail the argument comes back twice. Otherwise the units text of the first successful attempt comes back, with that attempt's label put in `$…$` when it starts with a backslash |
| NumValue.LabelInMathMode | nanohublib/ui/numvalue.py:41-58 | a label is left starting with a backslash only when every attempt failed |
| NumValue.ParseUnitsOfString | nanohublib/ui/numvalue.py:46-55 | a string takes its units from parsing it, and is kept as both texts when parsing yields no units |
| NumValue.Parse | nanohublib/ui/numvalue.py:78-91 | `None` stays `None`; ints and floats pass through. Otherwise `str(x)` is parsed: a parse that raises returns `x`; a plain number becomes a float; a quantity gives its magnitude when `units_str` is falsy, its magnitude in `units_str` when the conversion succeeds, and `x` when the conversion raises |
| NumValue.ParseIdempotent | nanohublib/ui/numvalue.py:78-91 | normalising twice is normalising once |
| NumValue.ParseConverts | nanohublib/ui/numvalue.py:84-87 | an example: `"138 GPa"` with units `gigapascal` becomes 138 |
| NumValue.ParseWithoutUnits | nanohublib/ui/numvalue.py:84-91 | for any text read as a quantity and any units: falsy units take the magnitude, and a conversion that raises returns the text |
| NumValue.CreateWidget | nanohublib/ui/numvalue.py:63-76 | fails, with the matching message, exactly when one bound is set. The kind is bounded exactly when `min` is set, and an integer input exactly for `'int'` |
| NumValue.DescriptionStartsWithDesc | nanohublib/ui/numvalue.py:129-135 | the description starts with the user's text and is that text alone without units and bounds |
| NumValue.DescriptionNamesUnits | nanohublib/ui/numvalue.py:131-132 | the units sentence follows the user's text exactly when `units_str` is not `''` |
| NumValue.DescriptionEndsWithBounds | nanohublib/ui/numvalue.py:134-135 | when `min` is set, the description ends with `\nMin: a\tMax: b\n` |
| NumValue.DescriptionIgnoresMax | nanohublib/ui/numvalue.py:134-135 | while `min` is unset the description does not depend on `max` |
| NumValue.NumValue.constructor | nanohublib/ui/numvalue.py:110-127 | the field stores its parts and its labels show the current description |
| NumValue.NumValue.Create | nanohublib/ui/numvalue.py:93-127 | fails exactly when one bound is missing. Otherwise the units come from `parse_units`, the bounds and the value are normalised, and the kind follows the type and the bounds |
| NumValue.NumValue.Number | nanohublib/ui/numvalue.py:200-202 | `NumValue` with type `'float'`: fails exactly when one bound is missing; otherwise the units, bounds, value, description and bounded-ness are Create's, with a float input |
| NumValue.NumValue.Integer | nanohublib/ui/numvalue.py:205-207 | `NumValue` with type `'int'`: fails exactly when one bound is missing; otherwise the units, bounds, value, description and bounded-ness are Create's, with an integer input |
| NumValue.NumValue.Update | nanohublib/ui/numvalue.py:129-143 | the labels show the description of the current bounds; the value and the bounds are unchanged |
| NumValue.NumValue.SetMin | nanohublib/ui/numvalue.py:161-164 | `min` takes the new value, the labels are rebuilt, and the other fields are unchanged |
| NumValue.NumValue.SetMax | nanohublib/ui/numvalue.py:170-173 | `max` takes the new value, the labels are rebuilt, and the other fields are unchanged |
| Modal.IndexOf | nanohublib/ui/modal.py:130-131 | `buttons.index(p)` is the first position equal to `p` |
| Modal.CheckPrimary | nanohublib/ui/modal.py:127-136 | the result is always a valid index. A label gives its first occurrence; otherwise an `int` in range gives itself; a failure carries the message |
| Modal.CheckPrimaryFails | nanohublib/ui/modal.py:130-136 | fails exactly when `p` is neither a button nor an `int` index into the buttons |
| Modal.LabelBeforeIndex | nanohublib/ui/modal.py:130-134 | an example: a label match wins over reading `p` as an index |
| Modal.BoolIsNotAnIndex | nanohublib/ui/modal.py:133-136 | `True` is not an index, but `1` is |
| Modal.BoolMatchesOne | nanohublib/ui/modal.py:130-131 | an example: `True` matches a button equal to 1 |
| Modal.DefaultPrimaryIsFirst | nanohublib/ui/modal.py:104-114 | an example: with the default buttons and primary, `bprim` is 0 |
| PathSelect.EntryKeysComplete | nanohublib/ui/pathselect.py:71-77 | a key is collected exactly when it is the key of a visible entry |
| PathSelect.EntryKeysVisible | nanohublib/ui/pathselect.py:72-77 | no collected key starts with `.` |
| PathSelect.BuildKeys | nanohublib/ui/pathselect.py:70-77 | the loop collects `[..]`, then one key per visible entry in listing order |
| PathSelect.LowerStr | nanohublib/ui/pathselect.py:80 | lowering maps each character, keeping the length |
| PathSelect.Insert | nanohublib/ui/pathselect.py:80 | inserting adds exactly the new element |
| PathSelect.InsertSorted | nanohublib/ui/pathselect.py:80 | inserting into a sorted list keeps it sorted by lower case |
| PathSelect.SortByLower | nanohublib/ui/pathselect.py:80 | the sort is a permutation |
| PathSelect.SortByLowerSorted | nanohublib/ui/pathselect.py:80 | the sort is ordered by lower case |
| PathSelect.ValueOfDirKey | nanohublib/ui/pathselect.py:75-84 | unbracketing undoes bracketing, and `[..]` gives `..` |
| PathSelect.ValueOfFileKey | nanohublib/ui/pathselect.py:82-86 | a key without a leading `[` is its own value; `[draft]` gives `draft` |
| PathSelect.BuildValues | nanohublib/ui/pathselect.py:81-86 | one value per key, as unbracketing defines |
| PathSelect.Zip | nanohublib/ui/pathselect.py:90 | pairs keys and values at the same index |
| PathSelect.OptionsListing | nanohublib/ui/pathselect.py:70-90 | the keys are a permutation of the built list and sorted by lower case. `([..], ..)` is offered, no hidden key is, and every visible entry is. Each value is its key unbracketed |
| PathSelect.PathSelector.Init | nanohublib/ui/pathselect.py:39-46 | the chooser starts closed, on `start_dir`, with the placeholder option |
| PathSelect.PathSelector.Create | nanohublib/ui/pathselect.py:39-48 | the initial refresh lists `start_dir` joined to itself; construction fails exactly when that listing raises. Otherwise a file path is chosen (or refused) with the `init` options kept, and a directory becomes `value` and the title, with its sorted listing as the options and an empty selection |
| PathSelect.PathSelector.Refresh | nanohublib/ui/pathselect.py:54-92 | choosing a file sets `file` (or, for directory choice, only clears the selection); anything else becomes `value` with `file` unset and is listed, or the listing error is reported |
| PathSelect.PathSelector.Show | nanohublib/ui/pathselect.py:79-92 | the options become the sorted listing, the title becomes the path, and the selection is cleared |
| PathSelect.PathSelector.OnUpdate | nanohublib/ui/pathselect.py:50-52 | an empty selection changes nothing; otherwise the new state is Refresh's for its first value (file chosen or refused, directory listed with its options and title, or a failed listing) |
| Group.Widget.Label | nanohublib/ui/group.py:93-94 | a new label is enabled and shown |
| Group.DisableAll | nanohublib/ui/group.py:143-144 | every element takes the `disabled` value, and visibility is unchanged |
| Group.ShowAll | nanohublib/ui/group.py:153-154 | every element takes the `visible` value, and `disabled` is unchanged |
| Group.Group.constructor | nanohublib/ui/group.py:53-84 | `wlist` starts with a fresh title label exactly when the group is titled, followed by the caller's widgets |
| Group.Group.UpdateDesc | nanohublib/ui/group.py:86-95 | a titled group gets a fresh, enabled label for its name and description in front |
| Group.Group.SetDesc | nanohublib/ui/group.py:101-108 | the old label goes, if there was one, and a label for the new description comes back if titled. The caller's widgets are unchanged and `children == wlist` |
| Group.Group.SetName | nanohublib/ui/group.py:114-121 | the same for the name |
| Group.Group.SetDisabled | nanohublib/ui/group.py:141-145 | every element, label included, takes the value, and the flag records it |
| Group.Group.SetVisible | nanohublib/ui/group.py:151-155 | every element takes the value, and the flag records it |
| Group.Tab.constructor | nanohublib/ui/group.py:30-38 | title i is `wlist[i].name` without titles, and `titles[i]` with them |
| Group.Tab.SetDisabled | nanohublib/ui/group.py:44-48 | every tab's widget takes the value |
| OsPath.JoinShape | nanohublib/use/__init__.py:97 | joining with an absolute part gives that part; otherwise the result starts with the directory and ends with the part |
| PyText.Words | nanohublib/use/__init__.py:106 | `split()` yields non-empty words free of whitespace |
| PyText.WordsBlank | nanohublib/use/__init__.py:106-107 | a text has no words exactly when it is blank |
| PyText.SplitPartsLackSep | nanohublib/use/__init__.py:118 | no part of `split(sep)` contains the separator |
| PyText.SplitWithoutSep | nanohublib/use/__init__.py:118-119 | a text without the separator is one part |
| PyText.JoinSplit | nanohublib/use/__init__.py:83 | joining the parts with the separator gives the text back |
| PyText.SplitCount | nanohublib/use/__init__.py:118-119 | there is one part more than there are separators |
| PyText.SplitAround | nanohublib/use/__init__.py:77-83 | splitting `a:b` gives the parts of `a`, then the parts of `b` |
| PyText.StripShape | nanohublib/use/__init__.py:106 | `strip()` keeps a slice with only whitespace cut on both sides, whose ends are not whitespace |
| PyText.StripBlank | nanohublib/use/__init__.py:106-107 | stripping leaves nothing exactly when the text is blank |
| PyText.SubstUnknown | nanohublib/use/__init__.py:62 | while no name is known, text without `$$` is left unchanged, unknown references included |
| PyText.SubstPlain | nanohublib/use/__init__.py:89-90 | text without `$` is unchanged |
| PyText.SubstKnown | nanohublib/use/__init__.py:89-90 | `$name` and `${name}` of a known name become its value |
| PyText.SubstReferenceExample | nanohublib/use/__init__.py:89-90 | `$HOME` with HOME known becomes its value |
| PyText.SubstEscapeExample | nanohublib/use/__init__.py:89-90 | `$$` becomes `$` |
| PyText.SubstStrayDollarExample | nanohublib/use/__init__.py:89-90 | `$` before a digit is kept |
| Use.InsertSecond | nanohublib/use/__init__.py:84 | `insert(1, p)` adds one element |
| Use.InsertFront | nanohublib/use/__init__.py:83-84 | inserting the reversed parts at index 1 puts them right after `sys.path[0]` in their own order |
| Use.FirstModuleNone | nanohublib/use/__init__.py:95-101 | the lookup fails exactly when no directory holds the module |
| Use.FirstModuleFirst | nanohublib/use/__init__.py:96-100 | a successful lookup finds the earliest directory holding the module |
| Use.SetPlain | nanohublib/use/__init__.py:87-91 | `_set` with a value free of `$` records it as given and changes nothing else |
| Use.SetExpandsKnown | nanohublib/use/__init__.py:87-91 | a reference to an earlier name is replaced by its recorded value |
| Use.SetKeepsUnknown | nanohublib/use/__init__.py:87-91 | with no known names, unknown references are recorded unchanged |
| Use.SetEnvEffect | nanohublib/use/__init__.py:44-57 | raises only without operands. It assigns and records the stripped echo exactly when the echo succeeds and the assignment is accepted; otherwise nothing changes |
| Use.PrependKeepsOld | nanohublib/use/__init__.py:75-79 | an existing value is kept after the new one, separated by `:` |
| Use.PrependEffect | nanohublib/use/__init__.py:59-84 | raises exactly without two operands or when the assignment is refused. On success the variable holds the new value, and only `PYTHONPATH` changes `sys.path` |
| Use.PrependPythonPath | nanohublib/use/__init__.py:75-84 | for an existing `PYTHONPATH`, the new parts, then the old ones, follow `sys.path[0]`, ahead of the earlier entries |
| Use.UseMissing | nanohublib/use/__init__.py:95-102 | when no directory holds the module, `_use` raises the lookup error and changes nothing |
| Use.UseLoadsFirstMatch | nanohublib/use/__init__.py:95-105 | otherwise the lines of the first match are run |
| Use.RunLinesAppend | nanohublib/use/__init__.py:105-120 | running `a + b` runs `a`, then `b` unless `a` raised |
| Use.ClassifyBlank | nanohublib/use/__init__.py:106-108 | a line is skipped as blank exactly when it is whitespace only |
| Use.RunSkipsBlank | nanohublib/use/__init__.py:105-108 | a blank line leaves the state unchanged |
| Use.ClassifyAssignCount | nanohublib/use/__init__.py:118-120 | a line with no keyword is an assignment exactly when it holds one `=` |
| Use.ClassifyAssignParts | nanohublib/use/__init__.py:118-120 | such a line `a=b` assigns the stripped `b` to the stripped `a` |
| Use.ClassifyUse | nanohublib/use/__init__.py:115-117 | a `use` line loads the module named by its last word |
| Use.Environment.constructor | nanohublib/use/__init__.py:40-41 | the search path is the words of `ENVIRON_CONFIG_DIRS`, and `d` starts empty |
| Use.Environment.Set | nanohublib/use/__init__.py:87-91 | the state becomes that of `_set` |
| Use.Environment.InsertPaths | nanohublib/use/__init__.py:83-84 | the insertion loop leaves `sys.path` as described by InsertFront |
| Use.Environment.SetEnv | nanohublib/use/__init__.py:44-57 | the state and the raise are those of `setenv` |
| Use.Environment.Prepend | nanohublib/use/__init__.py:59-84 | the state and the raise are those of `prepend` |
| Use.Environment.Export | nanohublib/use/__init__.py:80-84 | the variable is assigned, and `sys.path` is extended for `PYTHONPATH` only |
| Use.Environment.FindModule | nanohublib/use/__init__.py:95-100 | the lookup loop returns the first match |
| Use.Environment.Use | nanohublib/use/__init__.py:93-120 | the state and the raise are those of `_use` |
| Use.Environment.RunLines | nanohublib/use/__init__.py:104-120 | the line loop stops at the first raise |
| Use.Environment.Dispatch | nanohublib/use/__init__.py:106-120 | each kind of line runs its handler |

## Left out

- Base64 transport of the chunks: the upload channel carries bytes, so `b64decode` and `btoa` are not modelled.
- The front end's JavaScript, DOM and traitlets notification: each observer call is one step. The browser's chunk reply is the oracle `UploadSession.Chunk`.
- The file system is a map from path to bytes (upload), the oracle `FileSystem` (path chooser), or the oracles `Host.isFile` and `Host.lines` (loader). `mkdir_p`, file handles and `close` are not modelled. `Host.lines` cannot fail, so an `open` error, or a decoding error part-way through a module file after earlier lines have already changed the state, is not represented.
- Replies that arrive after a reset or a new selection are not modelled. The sequencer's `phase` field names the outstanding request; the code keeps it implicit.
- Upload.FileUpload.FilenamesReceived: the progress widgets, `w.children` and the warnings on standard error are not modelled.
- Aliasing: `Group` inserts its label into the caller's own list, and `FileUpload`'s list of paths is returned by reference. The model copies both.
- Upload.ToBytes: Python's `int()` also accepts signs, surrounding whitespace and underscores. Only ASCII digit strings are modelled.
- pint is the record of functions `UnitLib`. Parsing, conversion, formatting and the floats it yields are not interpreted, and neither is Python's float-to-text rendering.
- NumValue.NumValue.SetMin: ipywidgets' own validation of the bounds against the value (a `TraitError`, or clamping of the value) is not modelled. Neither is the coercion of the new bound by the `CFloat`/`CInt` trait: the model stores the bound as given (`Int(0)` on a float input, where the widget holds `0.0`), so the description's `Min:` shows the uncoerced value.
- NumValue.NumValue.SetMax: the same ipywidgets validation of the bounds against the value is not modelled, nor the coercion of the new bound by the `CFloat`/`CInt` trait (the model stores it as given).
- NumValue.NumValue.Create: ipywidgets' trait validation and coercion are not modelled. `value`, `min` and `max` are `CFloat`/`CInt` traits that store the coerced number: `Number('x', 5, min=0, max=10)` holds `5.0` and describes `Min: 0.0	Max: 10.0`, and `Integer('n', '5')` holds the int `5`. The model keeps the normalised argument (`Int(5)`, `Int(0)`, `Float(5.0)`), so the value and the bounds in the description are the uncoerced ones. `value` is a `CFloat`/`CInt` trait, so the code raises `TraitError` where the model constructs: a `None` value, a text the unit library cannot read (`_parse` returns the text), and `min > max` on a bounded input. A bounded input also clamps its value into `[min, max]`, where the model keeps the normalised value. The same holds for `Number` and `Integer`.
- NumValue.NumValue.Number: inherits Create's gaps: the `CFloat` coercion (`5` held as `5.0`, bounds printed as `0.0`), the `TraitError` cases and clamping are not modelled.
- NumValue.NumValue.Integer: inherits Create's gaps: the `CInt` coercion (`'5'` held as the int `5`, `min='1'` printed as `1`), the `TraitError` cases and clamping are not modelled.
- Upload.FileUpload.Create: the size limit is parsed with the corrected `ToBytes`. The code as written raises `ValueError` for a one-digit `maxsize` such as `"5"` or `"7B"`, which the model accepts (see Findings).
- Layout, CSS, HTML templating and visibility strings; `width`, `border` and `collapsible` of `Group`.
- Names returned by `os.listdir` are taken to be non-empty; the code would index an empty one.
- Lower-casing and whitespace are the ASCII parts of Python's Unicode rules.
- The shell echo of `use/__init__.py` is the oracle `Host.echo`. A failed run, a non-zero exit status and undecodable output all give `None`.
- PyText.Strip on the echo output uses the text whitespace set. The code strips the bytes, where the characters 28 to 31 are not whitespace.
- `EPATH` is read when the module is imported. A missing `ENVIRON_CONFIG_DIRS` raises `KeyError` at import; the constructor `Use.Environment.constructor` requires the variable instead.
- Use.Environment.Use: Python's recursion limit for nested `use` lines is a `fuel` bound. Running out gives `RecursionLimit`.
- `os.environ` is a map and `sys.path` a list. Putting a variable into the real process environment is not modelled.
- The IPython magic registration at the end of `use/__init__.py` is not modelled.

## Findings

| source | as written | input that shows it | evidently intended | confidence | as-written member | corrected member |
|---|---|---|---|---|---|---|
| nanohublib/ui/upload.py:43-51 | `int(numstr[:-1])` is evaluated before the suffix is checked | `to_bytes("5")` (also `"7B"`): `int("")` raises, so `ValueError: Cannot parse '5'` | a plain number of any length is accepted, `to_bytes("5") == 5` | not executed | Upload.ToBytesAsWritten, Upload.SingleDigitRejected | Upload.ToBytes, Upload.ToBytesOfSizeString |
