# dwdat2py in Dafny

dwdat2py is a thin Python binding to Dewesoft's DWDataReader shared library,
which reads Dewesoft measurement files (`.dxd`/`.d7d`). This project models the
parts of the binding that make decisions of their own:

- `libdirfind` and its inner `readpath`, which find the library directory. They
  try the `DEWELIBDIR` environment variable first, then a config file named
  `dewelibdir`, `dewelibdir.txt` or `dewelibdir.pth` in the config directory.
  In that file the first line that is neither blank nor a `#` comment is the
  directory.
- `wrappersimport`, the context manager that inits the library, opens a file,
  publishes `fileinfo`, runs the user's block, then closes the file and
  de-inits. It is modelled with the library's usage protocol:
  init → open → … → close → (open → … → close)* → de-init. Closing with no file
  open is forbidden.
- The `wrappers` functions that do more than pass a call through:
  - `open_data_file` chooses the file-name encoding;
  - `get_channel_list_count` raises RuntimeError when the library reports -1;
  - `get_channel_list`, `get_reduced_values_count` and `get_reduced_values`
    turn a non-zero DWStatus code into RuntimeError with the status name;
    `get_channel_list` and `get_reduced_values` first allocate a ctypes buffer,
    whose length must not be negative;
  - `get_channel_list` also decodes the NUL-terminated text fields of each
    channel;
  - `channel_reduced` finds a channel by index or by name and projects one
    component out of every reduced record.

Modules:

| file | module | contents |
|---|---|---|
| `results.dfy` | `Results` | `Option`, `Result` |
| `pytext.dfy` | `PyText` | Python's `str.strip` with its whitespace set |
| `dwheader.dfy` | `DWHeader` | the `DWStatus` enumeration, the C integer widths, the raw ctypes records, NUL-terminated `c_char` fields |
| `wrappers.dfy` | `Wrappers` | the native library as an oracle (`Native`), the text codecs (`Codecs`), status checking, the data wrappers, `channel_reduced`, the protocol (`Step`/`Run`), and the `Library` class holding the module state |
| `dwdat2py.dfy` | `DwDat2Py` | `libdirfind`/`readpath` and `wrappersimport` |

How the outside world appears in the model:

- **Native library.** DWDataReader is a `Native` value of functions: the status
  each entry point returns and the data it writes into its out-buffers.
- **Codecs.** The encoders and decoders, and the locale's preferred encoding,
  are a `Codecs` value.
- **Environment and file system.** The environment variable is an
  `Option<string>`; `None` means unset. The file system is a predicate
  `pathExists` plus a map from readable file names to their lines.
- **Exceptions.** Every Python exception the core raises is a constructor of a
  result type:
  - `RuntimeError(message)`;
  - `InvalidStatus(code)`, the ValueError raised by `DWStatus(stat)` for an
    unknown code;
  - `NegativeLength`, the ValueError raised by a ctypes array of negative
    length;
  - `ChannelNotFound`, the ValueError of `channel_reduced`;
  - `TupleIndexOutOfRange`, the IndexError of `rec[reduction]`;
  - `FileNotFound` and `Runtime` for `libdirfind`.
- **Loops.** Each loop in the source is a method with a `for`/`while` loop,
  proved equal to a specification function: `ReadPath`, `LibDirFind`,
  `GetChannelList` and `ChannelReduced`. The lemmas state the properties
  against those functions.

## Model

| member | source | states |
|---|---|---|
| PyText.Strip | dwdat2py/__init__.py:69 | the result has no leading or trailing whitespace, is a slice of the input with only whitespace cut off at both ends, and is empty exactly when the line is all whitespace |
| PyText.StripTrailingSpace | dwdat2py/__init__.py:69 | stripping a line made of a clean text and trailing whitespace (the newline `for line in fo` keeps) gives the text back |
| DWHeader.FromCode | dwdat2py/dwheader.py:20-29 | `DWStatus(code)` is defined exactly for the codes 0..8, and the member found has that value |
| DWHeader.FromName | dwdat2py/dwheader.py:20-29 | a member found by name carries that name |
| DWHeader.CodeRoundTrip | dwdat2py/dwheader.py:20-29 | looking up a member's value gives the member back |
| DWHeader.NameRoundTrip | dwdat2py/dwheader.py:20-29 | looking up a member's `.name` gives the member back |
| DWHeader.CString | dwdat2py/wrappers.py:190-192 | reading a `c_char` array field gives the prefix of the buffer before the first NUL: a prefix with no NUL, followed by a NUL unless it is the whole buffer |
| DWHeader.CStringOfTerminated | dwdat2py/wrappers.py:190-192 | a field holding a NUL-free text, a NUL and any further bytes reads back as exactly that text |
| DWHeader.CStringNoNul | dwdat2py/wrappers.py:190-192 | a field with no NUL in it reads back whole |
| Wrappers.StatusError | dwdat2py/wrappers.py:120-121 | a known code gives RuntimeError whose message is the name of the DWStatus member with that code; an unknown code gives the ValueError of the enum lookup |
| Wrappers.CheckStatus | dwdat2py/wrappers.py:119-123 | the call succeeds exactly when the status is 0, passing the value through; otherwise it fails with the status error |
| Wrappers.StatusErrorNamesCode | dwdat2py/wrappers.py:184-186 | a failed check raises RuntimeError exactly for the codes 1..8, whose message, looked up as a DWStatus name, gives back the code; any other code is reported as that code |
| Wrappers.EncodeFileName | dwdat2py/wrappers.py:113-117 | a bytes name goes to the library unchanged; a str name is encoded with `fsencoding` when that is given and non-empty, and with `os.fsencode` otherwise |
| Wrappers.RawFileNameIgnoresEncoding | dwdat2py/wrappers.py:101-105 | `fsencoding` has no effect on a bytes name |
| Wrappers.GetChannelListCount | dwdat2py/wrappers.py:159-162 | the count is returned unless it is -1, which raises RuntimeError "get_channel_list_count returned -1" |
| Wrappers.ChosenEncoding | dwdat2py/wrappers.py:187 | a given non-empty encoding is used, otherwise the locale's preferred encoding |
| Wrappers.DecodeChannel | dwdat2py/wrappers.py:190-193 | index, color, array size and data type are copied from the slot; name, unit and description are the slot's fields up to the first NUL, decoded with the chosen encoding |
| Wrappers.DecodeChannelStopsAtNul | dwdat2py/wrappers.py:190-193 | whatever bytes follow the terminating NUL of a text field do not change the decoded channel |
| Wrappers.ChannelListOf | dwdat2py/wrappers.py:183-194 | succeeds exactly when the count is non-negative and DWGetChannelList returns 0; -1 raises the count error, a count below -1 the negative-length error, and a non-zero status its status error; on success there is one channel per slot, in slot order, with index, color, array size and data type copied |
| Wrappers.GetChannelList | dwdat2py/wrappers.py:183-194 | the loop that appends one decoded channel per slot returns exactly `ChannelListOf` |
| Wrappers.GetReducedValuesCount | dwdat2py/wrappers.py:212-218 | returns (count, seconds) from the library exactly when its status is 0, and the status error otherwise |
| Wrappers.GetReducedValues | dwdat2py/wrappers.py:238-242 | a negative count fails when the buffer is allocated, before the library is called; otherwise the call succeeds exactly when the status is 0, giving `count` records in buffer order, each (time_stamp, ave, min, max, rms) |
| Wrappers.TupleItem | dwdat2py/wrappers.py:284 | `rec[reduction]` on a tuple: defined exactly for `-len <= i < len`; a non-negative index selects that item, a negative one the item `len + i` |
| Wrappers.ReductionSelectsField | dwdat2py/wrappers.py:255-261 | reductions 0..4 select time_stamp, ave, min, max and rms; -5..-1 count from the end as Python tuples do; any other reduction has no item |
| Wrappers.ProjectAll | dwdat2py/wrappers.py:284 | the projection succeeds exactly when every record has item `reduction`, and then gives that item of each record in order; otherwise IndexError (so an empty record list never fails) |
| Wrappers.Matches | dwdat2py/wrappers.py:274-277 | the getter's comparison: an int key is compared with the channel's `index` field, a str key with its decoded `name` |
| Wrappers.FindChannel | dwdat2py/wrappers.py:274-281 | gives the first channel that matches the key, or none exactly when no channel matches |
| Wrappers.ChannelReducedOutcome | dwdat2py/wrappers.py:272-284 | an error of `get_channel_list` propagates unchanged; ValueError `(channel, 'not found in data')` is raised exactly when the list is read and no channel in it matches; an IndexError names the reduction asked for |
| Wrappers.ChannelReduced | dwdat2py/wrappers.py:246-284 | the loop that searches with `break` and then fetches and projects gives exactly `ChannelReducedOutcome` |
| Wrappers.ChannelReducedResult | dwdat2py/wrappers.py:246-284 | a success comes from the first library slot whose decoded channel matches the key; the count is asked for that slot's `index` field; the result has that many elements, element `i` being item `reduction` of record `i` read from position 0 |
| Wrappers.ChannelReducedNotFound | dwdat2py/wrappers.py:276-281 | when no channel matches, the result is ValueError `(channel, 'not found in data')`, whatever the library would answer about reduced values |
| Wrappers.IndexKeyFindsIndexField | dwdat2py/wrappers.py:274 | an int key is compared with the channel's `index` field, not its position in the list |
| Wrappers.NameKeyFindsFirst | dwdat2py/wrappers.py:274-279 | a str key finds the first channel whose decoded name equals it |
| Wrappers.Step | dwdat2py/wrappers.py:23-33 | the usage protocol for one call: init and the user's code are always allowed; open and de-init need an initialised library; close needs an open file (the library crashes otherwise, wrappers.py:132); init leaves the library initialised, close and de-init leave no file open, de-init ends the session, and only a successful open reaches the file-open phase |
| Wrappers.Run | dwdat2py/wrappers.py:23-33 | the protocol over a history: a broken protocol stays broken; a history from a valid phase can only break at an open, a close or a de-init; a history ending in de-init leaves the library uninitialised, one ending in close leaves it initialised |
| Wrappers.RunAppend | dwdat2py/wrappers.py:23-33 | running the protocol over two histories one after the other is running it over their concatenation |
| Wrappers.CloseNeedsOpenFile | dwdat2py/wrappers.py:132 | `close_data_file` is allowed after a history exactly when that history left a file open |
| Wrappers.Library.constructor | dwdat2py/wrappers.py:48-59 | the loaded library starts uninitialised, with no calls made and no `fileinfo` |
| Wrappers.Library.Init | dwdat2py/wrappers.py:65-70 | returns DWInit's status, records the call, and leaves the library initialised |
| Wrappers.Library.OpenDataFile | dwdat2py/wrappers.py:91-123 | requires an initialised library; opens the encoded name, returns the file info or the status error, and moves to the file-open phase exactly on success |
| Wrappers.Library.CloseDataFile | dwdat2py/wrappers.py:129-136 | requires an open file; returns DWCloseDataFile's status unchecked and goes back to initialised |
| Wrappers.Library.DeInit | dwdat2py/wrappers.py:76-82 | requires an initialised library; returns DWDeInit's status unchecked and ends the session |
| Wrappers.Library.RunBody | dwdat2py/__init__.py:136-137 | the user's block adds one call and leaves the phase and `fileinfo` unchanged |
| DwDat2Py.JoinPath | dwdat2py/__init__.py:76 | `os.path.join` on POSIX: an absolute second part replaces the first; otherwise the result starts with the first part, ends with the second, and has one `/` inserted between them exactly when the first part is non-empty and does not end in `/` |
| DwDat2Py.IsPathLine | dwdat2py/__init__.py:69-72 | a line is taken exactly when its first non-whitespace character exists and is not `#` |
| DwDat2Py.FirstPathLine | dwdat2py/__init__.py:66-74 | empty exactly when no line is a path line; otherwise the stripped first path line, free of outer whitespace and not starting with `#` |
| DwDat2Py.ReadPath | dwdat2py/__init__.py:66-74 | a missing file is the FileNotFoundError its caller catches; otherwise the loop with `continue` and early `return` gives `FirstPathLine` of the file's lines |
| DwDat2Py.FirstPathLineAfter | dwdat2py/__init__.py:68-73 | lines that are blank or comments are skipped up to the first path line, whose stripped text is the answer whatever follows |
| DwDat2Py.CommentedConfigFile | tests/test_init.py:52-54 | the test's config file (blank line, comment, blank line, directory, four newlines) yields the directory |
| DwDat2Py.FirstCandidate | dwdat2py/__init__.py:77-85 | none exactly when no candidate exists; otherwise the first existing candidate in extension order, read with `readpath` |
| DwDat2Py.CandidatesInOrder | dwdat2py/__init__.py:76-85 | the candidates are `dewelibdir`, `dewelibdir.txt` and `dewelibdir.pth` in that order; the first existing one decides |
| DwDat2Py.LibDirOutcome | dwdat2py/__init__.py:55-93 | every directory returned is non-empty and exists; every FileNotFoundError names a path that does not exist, either a non-empty one read from the environment or a file, or the config directory; a RuntimeError comes only once the environment variable is unset or empty and the config directory exists, and carries one of the two messages "No configfile found in …" or "… found but no library path in it" |
| DwDat2Py.LibDirFind | dwdat2py/__init__.py:34-93 | the method with its candidate loop gives exactly `LibDirOutcome` |
| DwDat2Py.EnvVarWins | dwdat2py/__init__.py:55-57 | a non-empty DEWELIBDIR that exists is returned, whatever the config directory and files are |
| DwDat2Py.EnvVarMissing | dwdat2py/__init__.py:58-60 | a non-empty DEWELIBDIR that does not exist raises FileNotFoundError for it |
| DwDat2Py.EmptyEnvVarIsUnset | dwdat2py/__init__.py:55-58 | an empty DEWELIBDIR behaves as an unset one |
| DwDat2Py.MissingConfigDir | dwdat2py/__init__.py:62-64 | with no usable DEWELIBDIR, a missing config directory raises FileNotFoundError for it, whatever the files are |
| DwDat2Py.ConfigFileOutcome | dwdat2py/__init__.py:76-93 | with no usable DEWELIBDIR and an existing config directory: no candidate gives RuntimeError "No configfile found in …"; for the path read from whichever candidate is found first (`dewelibdir`, `.txt` or `.pth`), a path that exists is returned, one that does not raises FileNotFoundError, and an empty one raises RuntimeError "… found but no library path in it"; when `dewelibdir` itself exists it decides, even when a later candidate has a path |
| DwDat2Py.SessionCalls | dwdat2py/__init__.py:130-142 | the calls `wrappersimport` makes: init, then open of the encoded name; the body runs, and de-init is called, exactly when the open succeeded |
| DwDat2Py.WrappersImport | dwdat2py/__init__.py:130-142 | init then open; on success `fileinfo` is published, the body runs, and close and de-init follow whether or not the body raised; on open failure the error propagates with no close and no de-init, and the library stays initialised |
| DwDat2Py.CleanupOnceInOrder | dwdat2py/__init__.py:136-142 | once the body is entered, close and then de-init each happen exactly once |
| DwDat2Py.OpenFailureSkipsCleanup | dwdat2py/__init__.py:131-136 | when opening fails, neither the body, the close nor the de-init runs |
| DwDat2Py.OpenFailureLeavesInitialised | dwdat2py/__init__.py:131-136 | as written, a failed open leaves an uninitialised library initialised |
| DwDat2Py.GuardedSessionCalls | dwdat2py/__init__.py:130-142 | the calls of the guarded form: init, then open, and always de-init last; the body and close appear exactly when the open succeeded |
| DwDat2Py.GuardedSessionDeInitialises | dwdat2py/__init__.py:131-142 | with init and open inside the `try` and the clean-up guarded by the `init`/`opened` flags, every session ends de-initialised, from any phase |
| DwDat2Py.GuardedCleanupOnce | dwdat2py/__init__.py:139-142 | with the guarded clean-up, de-init runs once in every session, and close runs exactly when the file opened |
| DwDat2Py.WrappersImportGuarded | dwdat2py/__init__.py:130-142 | the guarded context manager: same results as `wrappersimport`, and the library always ends uninitialised |

## Left out

- Loading the shared library is not modelled: the `DEWELIBDIR or libdirfind()` choice, the platform name mangling, the existence assertion and `LoadLibrary` (wrappers.py:48-59). The model starts from a loaded library.
- `CONFIGDIR` is derived from `XDG_CONFIG_HOME`, `~/.config` or `~` (__init__.py:24-28). The model takes it as a parameter.
- `os.path.join` is modelled for POSIX only, not `ntpath`.
- `readpath`: opening a candidate is modelled as either succeeding or raising FileNotFoundError. No other OSError is modelled, nor decode errors while reading. The file is given already split into lines, each keeping its newline.
- `get_version` passes its call straight through and is not modelled.
- The other enumerations and structures of the header are not modelled. Only `DWStatus`, `DWFileInfo`, `DWChannel` and `DWReducedValue` are used.
- Text encoding and decoding, and their errors (UnicodeError, LookupError for an unknown encoding), are not modelled. The codecs are uninterpreted total functions.
- Doubles are opaque 64-bit values; no floating-point arithmetic is done on them.
- The fixed widths of the channel text fields (100, 20 and 200 bytes) are not enforced on the library's answers.
- Wrappers.ChannelReducedOutcome: a key of any type other than int or str (a bool, float, …) is compared with the name and never matches. It is not modelled. Only `ByIndex`/`ByName` exist.
- Wrappers.ProjectAll: `reduction` as a slice or a non-int is not modelled.
- Wrappers.GetReducedValues: Python ints outside the C `int` range passed as arguments (ctypes raises or truncates) are not modelled. The arguments are `int32`.
- Wrappers.Library: the native library's answers are fixed per call and do not depend on the session history. The data wrappers read the `Native` oracle directly rather than through the session state.
- Wrappers.Library.Init: the phase after `init` does not depend on the status DWInit returns. A non-zero status is still taken as initialising the library, because the source never checks it (wrappers.py:70, __init__.py:131-133). The protocol conformance that DwDat2Py.WrappersImport and DwDat2Py.WrappersImportGuarded keep (`Valid()`, open only after init) rests on this assumption; with a failed init the vendor library's behaviour is unknown.
- Wrappers.Step: repeating `init` on an initialised library, and a failed open, are assumed to leave the phase unchanged. The vendor library's behaviour there is unknown.
- DwDat2Py.WrappersImport: the body of the `with` block is opaque. It is assumed not to call into the library, and only whether it raises is modelled.

## Findings

| source | as written | input that shows it | evidently intended | confidence | as-written member | corrected member |
|---|---|---|---|---|---|---|
| dwdat2py/__init__.py:130-142 | `wrappers.init()` and `wrappers.open_data_file(...)` run before the `try`, so when opening raises, the `finally` never runs and `de_init` is never called; the `init`/`opened` flags that guard the clean-up are always true when they are read | `DWOpenDataFile` returning a non-zero status such as 2 (`DWSTAT_ERROR_FILE_CANNOT_OPEN`) for a missing file | the clean-up guarded by `if opened` / `if init` also covers a failed open, so the library is de-initialised | medium, not executed | DwDat2Py.OpenFailureLeavesInitialised | DwDat2Py.GuardedSessionDeInitialises |
