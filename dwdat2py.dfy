/** The package module: where the vendor library directory is looked up, and
    the context manager that runs a block of user code between init/open and
    close/de-init. The environment, the file system and the native library
    are inputs. */
module DwDat2Py {
  import opened Results
  import opened PyText
  import opened DWHeader
  import opened Wrappers

  // ---------------------------------------------------------------------------
  // libdirfind
  // ---------------------------------------------------------------------------

  /** How the search ends: the library directory, FileNotFoundError carrying
      the path that does not exist, or RuntimeError with its message. */
  datatype LibDirResult = Found(dir: string) | FileNotFound(path: string) | Runtime(message: string)

  const ConfigBaseName: string := "dewelibdir"

  /** The endings tried after the config file's base name, in order. */
  const Extensions: seq<string> := ["", ".txt", ".pth"]

  /** `os.path.join(a, b)` on POSIX: an absolute `b` replaces `a`; otherwise
      `b` is appended to `a`, with one `/` put between them exactly when `a` is
      non-empty and does not already end in one. */
  function JoinPath(a: string, b: string): (r: string)
    ensures |b| > 0 && b[0] == '/' ==> r == b
    ensures !(|b| > 0 && b[0] == '/') ==>
              && |r| == |a| + |b| + (if a != "" && a[|a| - 1] != '/' then 1 else 0)
              && r[..|a|] == a && r[|r| - |b|..] == b
              && (a != "" && a[|a| - 1] != '/' ==> r[|a|] == '/')
  {
    if |b| > 0 && b[0] == '/' then b
    else if a == "" || a[|a| - 1] == '/' then a + b
    else a + "/" + b
  }

  /** The name every candidate starts with: the base name in the config directory. */
  function ConfigFile(configDir: string): string
  {
    JoinPath(configDir, ConfigBaseName)
  }

  function NoConfigFileMessage(configDir: string): string
  {
    "No configfile found in " + configDir
  }

  function NoPathMessage(configFile: string): string
  {
    configFile + " found but no library path in it"
  }

  /** A line `readpath` takes: non-empty once stripped and not a `#` comment. */
  predicate IsPathLine(line: string)
    ensures IsPathLine(line) <==> var k := SkipSpace(line, 0); k < |line| && line[k] != '#'
  {
    var s := Strip(line);
    s != "" && s[0] != '#'
  }

  /** What `readpath` returns for a file with these lines: the first line that
      is a path line, stripped, or `""` when there is none. */
  function FirstPathLine(lines: seq<string>): (r: string)
    ensures r == "" <==> forall i :: 0 <= i < |lines| ==> !IsPathLine(lines[i])
    ensures r != "" ==> exists i :: 0 <= i < |lines| && IsPathLine(lines[i]) && r == Strip(lines[i])
                                    && forall j :: 0 <= j < i ==> !IsPathLine(lines[j])
    ensures NoOuterSpace(r) && (r == "" || r[0] != '#')
  {
    if lines == [] then ""
    else if IsPathLine(lines[0]) then Strip(lines[0])
    else
      var r := FirstPathLine(lines[1..]);
      assert forall i :: 1 <= i < |lines| ==> lines[i] == lines[1..][i - 1];
      r
  }

  /** `readpath(fn)`: None when opening raises FileNotFoundError; otherwise the
      first path line of the file, found by a loop that skips blank lines and
      comments and returns early. */
  method ReadPath(files: map<string, seq<string>>, fn: string) returns (r: Option<string>)
    ensures r == if fn in files then Some(FirstPathLine(files[fn])) else None
  {
    if fn !in files {
      return None;
    }
    var lines := files[fn];
    for i := 0 to |lines|
      invariant FirstPathLine(lines[i..]) == FirstPathLine(lines)
    {
      var stripped := Strip(lines[i]);
      assert lines[i..][1..] == lines[i + 1..];
      if stripped == "" || stripped[0] == '#' {
        continue;
      } else {
        return Some(stripped);
      }
    }
    return Some("");
  }

  /** The contents of the first candidate that can be opened, read by
      `readpath`, or None when no candidate exists. */
  function FirstCandidate(configFile: string, exts: seq<string>, files: map<string, seq<string>>): (r: Option<string>)
    ensures r.None? <==> forall i :: 0 <= i < |exts| ==> configFile + exts[i] !in files
    ensures r.Some? ==> exists i :: 0 <= i < |exts| && configFile + exts[i] in files
                                    && r.value == FirstPathLine(files[configFile + exts[i]])
                                    && forall j :: 0 <= j < i ==> configFile + exts[j] !in files
  {
    if exts == [] then None
    else if configFile + exts[0] in files then Some(FirstPathLine(files[configFile + exts[0]]))
    else
      var r := FirstCandidate(configFile, exts[1..], files);
      assert forall i :: 1 <= i < |exts| ==> exts[i] == exts[1..][i - 1];
      r
  }

  /** What `libdirfind()` returns or raises, given the value of DEWELIBDIR,
      which paths exist, the readable files by their lines and CONFIGDIR. */
  function LibDirOutcome(env: Option<string>, pathExists: string -> bool, files: map<string, seq<string>>,
                         configDir: string): (r: LibDirResult)
    ensures r.Found? ==> r.dir != "" && pathExists(r.dir)
    ensures r.FileNotFound? ==> r.path != "" || r.path == configDir
    ensures r.FileNotFound? ==> !pathExists(r.path)
    ensures r.Runtime? ==> (env.None? || env.value == "") && pathExists(configDir)
    ensures r.Runtime? ==> r.message == NoConfigFileMessage(configDir)
                           || r.message == NoPathMessage(ConfigFile(configDir))
  {
    if env.Some? && env.value != "" then
      if pathExists(env.value) then Found(env.value) else FileNotFound(env.value)
    else if !pathExists(configDir) then FileNotFound(configDir)
    else
      match FirstCandidate(ConfigFile(configDir), Extensions, files)
      case None => Runtime(NoConfigFileMessage(configDir))
      case Some(libdir) =>
        if libdir != "" && pathExists(libdir) then Found(libdir)
        else if libdir != "" then FileNotFound(libdir)
        else Runtime(NoPathMessage(ConfigFile(configDir)))
  }

  /** `libdirfind()`: the environment variable, then the config directory,
      then the candidates in a loop that stops at the first one it can open. */
  method LibDirFind(env: Option<string>, pathExists: string -> bool, files: map<string, seq<string>>,
                    configDir: string) returns (r: LibDirResult)
    ensures r == LibDirOutcome(env, pathExists, files, configDir)
  {
    if env.Some? && env.value != "" && pathExists(env.value) {
      return Found(env.value);
    } else if env.Some? && env.value != "" {
      return FileNotFound(env.value);
    }
    if !pathExists(configDir) {
      return FileNotFound(configDir);
    }
    var configFile := ConfigFile(configDir);
    var libdir: Option<string> := None;
    var k := 0;
    while k < |Extensions| && libdir.None?
      invariant 0 <= k <= |Extensions|
      invariant FirstCandidate(configFile, Extensions, files)
                == if libdir.Some? then libdir else FirstCandidate(configFile, Extensions[k..], files)
    {
      assert Extensions[k..][1..] == Extensions[k + 1..];
      libdir := ReadPath(files, configFile + Extensions[k]);
      k := k + 1;
    }
    if libdir.None? {
      return Runtime(NoConfigFileMessage(configDir));
    }
    var path := libdir.value;
    if path != "" && pathExists(path) {
      return Found(path);
    } else if path != "" {
      return FileNotFound(path);
    }
    return Runtime(NoPathMessage(configFile));
  }

  /** A non-empty DEWELIBDIR that exists is the answer, whatever the config
      directory and files are: no config file is consulted. */
  lemma EnvVarWins(dir: string, pathExists: string -> bool, files: map<string, seq<string>>, configDir: string,
                   otherFiles: map<string, seq<string>>, otherConfigDir: string)
    requires dir != "" && pathExists(dir)
    ensures LibDirOutcome(Some(dir), pathExists, files, configDir) == Found(dir)
    ensures LibDirOutcome(Some(dir), pathExists, files, configDir)
            == LibDirOutcome(Some(dir), pathExists, otherFiles, otherConfigDir)
  {
  }

  /** A non-empty DEWELIBDIR that does not exist raises FileNotFoundError with
      that path, whatever the config files say. */
  lemma EnvVarMissing(dir: string, pathExists: string -> bool, files: map<string, seq<string>>, configDir: string)
    requires dir != "" && !pathExists(dir)
    ensures LibDirOutcome(Some(dir), pathExists, files, configDir) == FileNotFound(dir)
  {
  }

  /** An empty DEWELIBDIR counts as unset. */
  lemma EmptyEnvVarIsUnset(pathExists: string -> bool, files: map<string, seq<string>>, configDir: string)
    ensures LibDirOutcome(Some(""), pathExists, files, configDir) == LibDirOutcome(None, pathExists, files, configDir)
  {
  }

  /** Without a usable DEWELIBDIR, a missing CONFIGDIR raises FileNotFoundError
      with that directory before any config file is read. */
  lemma MissingConfigDir(env: Option<string>, pathExists: string -> bool, files: map<string, seq<string>>,
                         configDir: string, otherFiles: map<string, seq<string>>)
    requires env.None? || env.value == ""
    requires !pathExists(configDir)
    ensures LibDirOutcome(env, pathExists, files, configDir) == FileNotFound(configDir)
    ensures LibDirOutcome(env, pathExists, files, configDir) == LibDirOutcome(env, pathExists, otherFiles, configDir)
  {
  }

  /** The candidates are `dewelibdir`, `dewelibdir.txt` and `dewelibdir.pth`,
      tried in that order; the first one that exists is read and the later
      ones are not looked at. */
  lemma CandidatesInOrder(configFile: string, files: map<string, seq<string>>)
    ensures FirstCandidate(configFile, Extensions, files)
            == if configFile in files then Some(FirstPathLine(files[configFile]))
               else if configFile + ".txt" in files then Some(FirstPathLine(files[configFile + ".txt"]))
               else if configFile + ".pth" in files then Some(FirstPathLine(files[configFile + ".pth"]))
               else None
  {
    var e1 := Extensions[1..];
    var e2 := e1[1..];
    assert configFile + Extensions[0] == configFile;
    assert e1 == [".txt", ".pth"] && e2 == [".pth"] && e2[1..] == [];
    assert FirstCandidate(configFile, e2, files)
           == if configFile + ".pth" in files then Some(FirstPathLine(files[configFile + ".pth"])) else None;
    assert FirstCandidate(configFile, e1, files)
           == if configFile + ".txt" in files then Some(FirstPathLine(files[configFile + ".txt"]))
              else FirstCandidate(configFile, e2, files);
  }

  /** With no usable DEWELIBDIR and an existing CONFIGDIR: no candidate gives
      RuntimeError; a read path that exists is returned; a read path that
      does not exist gives FileNotFoundError; a candidate without a path gives
      RuntimeError, even when a later candidate would hold one. */
  lemma ConfigFileOutcome(env: Option<string>, pathExists: string -> bool, files: map<string, seq<string>>,
                          configDir: string)
    requires env.None? || env.value == ""
    requires pathExists(configDir)
    ensures var cf := ConfigFile(configDir);
            var out := LibDirOutcome(env, pathExists, files, configDir);
            && (cf !in files && cf + ".txt" !in files && cf + ".pth" !in files ==>
                  out == Runtime(NoConfigFileMessage(configDir)))
            && (FirstCandidate(cf, Extensions, files).Some? ==>
                  var p := FirstCandidate(cf, Extensions, files).value;
                  && (p != "" && pathExists(p) ==> out == Found(p))
                  && (p != "" && !pathExists(p) ==> out == FileNotFound(p))
                  && (p == "" ==> out == Runtime(NoPathMessage(cf))))
            && (cf in files ==>
                  var p := FirstPathLine(files[cf]);
                  && (p != "" && pathExists(p) ==> out == Found(p))
                  && (p != "" && !pathExists(p) ==> out == FileNotFound(p))
                  && (p == "" ==> out == Runtime(NoPathMessage(cf))))
  {
    CandidatesInOrder(ConfigFile(configDir), files);
  }

  /** The config file of the tests: a blank line, a comment, another blank
      line, the directory and four newlines. `readpath` gives the directory. */
  lemma {:induction false} CommentedConfigFile(dir: string)
    requires dir != "" && NoOuterSpace(dir) && dir[0] != '#'
    ensures FirstPathLine(["\n", "# this is a comment\n", "\n", dir + "\n", "\n", "\n", "\n"]) == dir
  {
    var blank, comment, pathLine := "\n", "# this is a comment\n", dir + "\n";
    var skipped := [blank, comment, blank];
    assert forall i :: 0 <= i < |skipped| ==> !IsPathLine(skipped[i]) by {
      BlankLineIsNoPath();
      CommentLineIsNoPath();
    }
    assert IsPathLine(pathLine) && Strip(pathLine) == dir by {
      StripTrailingSpace(dir, "\n");
    }
    FirstPathLineAfter(skipped, pathLine, [blank, blank, blank]);
    CommentedFileShape(blank, comment, pathLine);
  }

  lemma CommentedFileShape(blank: string, comment: string, pathLine: string)
    ensures [blank, comment, blank] + [pathLine] + [blank, blank, blank]
            == [blank, comment, blank, pathLine, blank, blank, blank]
  {
  }

  /** Lines that are not path lines are passed over until a path line. */
  lemma {:induction false} FirstPathLineAfter(skipped: seq<string>, line: string, rest: seq<string>)
    requires forall i :: 0 <= i < |skipped| ==> !IsPathLine(skipped[i])
    requires IsPathLine(line)
    ensures FirstPathLine(skipped + [line] + rest) == Strip(line)
  {
    if skipped == [] {
      assert skipped + [line] + rest == [line] + rest;
      assert ([line] + rest)[0] == line;
    } else {
      assert skipped + [line] + rest == [skipped[0]] + (skipped[1..] + [line] + rest);
      FirstPathLineSkips(skipped[0], skipped[1..] + [line] + rest);
      FirstPathLineAfter(skipped[1..], line, rest);
    }
  }

  /** A line that is not a path line is passed over. */
  lemma FirstPathLineSkips(line: string, rest: seq<string>)
    requires !IsPathLine(line)
    ensures FirstPathLine([line] + rest) == FirstPathLine(rest)
  {
    assert ([line] + rest)[1..] == rest;
  }

  lemma BlankLineIsNoPath()
    ensures !IsPathLine("\n")
  {
    assert AllSpace("\n");
  }

  lemma CommentLineIsNoPath()
    ensures !IsPathLine("# this is a comment\n")
  {
    var text := "# this is a comment";
    assert text + "\n" == "# this is a comment\n";
    StripTrailingSpace(text, "\n");
  }

  // ---------------------------------------------------------------------------
  // wrappersimport
  // ---------------------------------------------------------------------------

  /** How the `with` statement ends: normally, by an exception from its body
      (re-raised after the clean-up), or by the error of `open_data_file`. */
  datatype SessionOutcome = Completed(info: FileInfo) | BodyRaised(info: FileInfo) | OpenFailed(error: Error)

  /** The calls `wrappersimport` makes, in order, given the encoded file name
      and whether opening succeeded. */
  function SessionCalls(name: Bytes, openOk: bool): (r: seq<Call>)
    ensures |r| >= 2 && r[0] == Call.Init && r[1] == Open(name, openOk)
    ensures Body in r <==> openOk
    ensures Call.DeInit in r <==> openOk
  {
    if openOk then [Call.Init, Open(name, true), Body, Close, Call.DeInit] else [Call.Init, Open(name, false)]
  }

  /** `wrappersimport(fn, fsencoding)`: init, open and publish `fileinfo`
      before the `try`; once the body has been entered, close and de-init in
      the `finally`. `bodyRaises` says whether the user code raised. */
  method WrappersImport(lib: Library, native: Native, codecs: Codecs, fn: FileName, fsencoding: Option<string>,
                        bodyRaises: bool) returns (r: SessionOutcome)
    requires lib.Valid()
    modifies lib
    ensures lib.Valid()
    ensures var name := EncodeFileName(codecs, fn, fsencoding);
            var openOk := CheckStatus(native.openStatus(name), AsFileInfo(native.openInfo(name)));
            && lib.calls == old(lib.calls) + SessionCalls(name, openOk.Ok?)
            && (openOk.Ok? ==>
                  && lib.fileinfo == Some(openOk.value)
                  && lib.phase == Uninitialised
                  && r == if bodyRaises then BodyRaised(openOk.value) else Completed(openOk.value))
            && (openOk.Err? ==>
                  && lib.fileinfo == old(lib.fileinfo)
                  && lib.phase == (if old(lib.phase) == Uninitialised then Initialised else old(lib.phase))
                  && r == OpenFailed(openOk.error))
  {
    ghost var before := lib.calls;
    ghost var name := EncodeFileName(codecs, fn, fsencoding);
    var initStatus := lib.Init(native);
    var init := true;
    var openOk := lib.OpenDataFile(native, codecs, fn, fsencoding);
    assert lib.calls == before + [Call.Init, Open(name, openOk.Ok?)];
    if openOk.Err? {
      return OpenFailed(openOk.error);
    }
    var isOpen := true;
    lib.fileinfo := Some(openOk.value);
    lib.RunBody();
    if isOpen {
      var closeStatus := lib.CloseDataFile(native);
    }
    if init {
      var deInitStatus := lib.DeInit(native);
    }
    assert lib.calls == before + [Call.Init, Open(name, true), Body, Close, Call.DeInit];
    r := if bodyRaises then BodyRaised(openOk.value) else Completed(openOk.value);
  }

  /** Once the body has been entered, close and de-init each happen exactly
      once, close first, whether the body ends normally or not. */
  lemma CleanupOnceInOrder(name: Bytes)
    ensures var calls := SessionCalls(name, true);
            && calls[2] == Body && calls[3] == Close && calls[4] == Call.DeInit
            && multiset(calls)[Close] == 1 && multiset(calls)[Call.DeInit] == 1
  {
  }

  /** When opening fails the body is never entered and neither close nor
      de-init is called. */
  lemma OpenFailureSkipsCleanup(name: Bytes)
    ensures var calls := SessionCalls(name, false);
            Body !in calls && Close !in calls && Call.DeInit !in calls
  {
  }

  /** As written, a failing open leaves a library that was uninitialised
      initialised once `wrappersimport` has raised. */
  lemma OpenFailureLeavesInitialised(name: Bytes)
    ensures Run(Some(Uninitialised), SessionCalls(name, false)) == Some(Initialised)
  {
    RunCons(Uninitialised, Call.Init, [Open(name, false)]);
    RunCons(Initialised, Open(name, false), []);
  }

  /** The calls of `wrappersimport` with init and open inside the `try`, so
      that the `init` and `opened` flags guard the clean-up. */
  function GuardedSessionCalls(name: Bytes, openOk: bool): (r: seq<Call>)
    ensures |r| >= 3 && r[0] == Call.Init && r[1] == Open(name, openOk) && r[|r| - 1] == Call.DeInit
    ensures Body in r <==> openOk
    ensures Close in r <==> openOk
  {
    [Call.Init, Open(name, openOk)] + (if openOk then [Body, Close] else []) + [Call.DeInit]
  }

  /** With the guarded clean-up every session ends de-initialised, from any
      phase. */
  lemma {:induction false} GuardedSessionDeInitialises(p: Phase, name: Bytes, openOk: bool)
    ensures Run(Some(p), GuardedSessionCalls(name, openOk)) == Some(Uninitialised)
  {
    var calls := GuardedSessionCalls(name, openOk);
    var q := Step(p, Call.Init).value;
    RunCons(p, Call.Init, calls[1..]);
    if openOk {
      assert calls == [Call.Init, Open(name, true), Body, Close, Call.DeInit];
      RunCons(q, Open(name, true), [Body, Close, Call.DeInit]);
      RunCons(FileOpen, Body, [Close, Call.DeInit]);
      RunCons(FileOpen, Close, [Call.DeInit]);
      RunCons(Initialised, Call.DeInit, []);
    } else {
      assert calls == [Call.Init, Open(name, false), Call.DeInit];
      RunCons(q, Open(name, false), [Call.DeInit]);
      RunCons(q, Call.DeInit, []);
    }
  }

  /** With the guarded clean-up de-init is called once in every session, and
      close exactly when the file opened. */
  lemma GuardedCleanupOnce(name: Bytes, openOk: bool)
    ensures multiset(GuardedSessionCalls(name, openOk))[Call.DeInit] == 1
    ensures multiset(GuardedSessionCalls(name, openOk))[Close] == if openOk then 1 else 0
  {
    if openOk {
      assert GuardedSessionCalls(name, openOk) == [Call.Init, Open(name, true)] + [Body, Close] + [Call.DeInit];
    } else {
      assert GuardedSessionCalls(name, openOk) == [Call.Init, Open(name, false)] + [Call.DeInit];
    }
  }

  /** `wrappersimport` with the clean-up guarded by its flags: de-init runs even
      when opening fails. */
  method WrappersImportGuarded(lib: Library, native: Native, codecs: Codecs, fn: FileName,
                               fsencoding: Option<string>, bodyRaises: bool) returns (r: SessionOutcome)
    requires lib.Valid()
    modifies lib
    ensures lib.Valid() && lib.phase == Uninitialised
    ensures var name := EncodeFileName(codecs, fn, fsencoding);
            var openOk := CheckStatus(native.openStatus(name), AsFileInfo(native.openInfo(name)));
            && lib.calls == old(lib.calls) + GuardedSessionCalls(name, openOk.Ok?)
            && (openOk.Ok? ==>
                  && lib.fileinfo == Some(openOk.value)
                  && r == if bodyRaises then BodyRaised(openOk.value) else Completed(openOk.value))
            && (openOk.Err? ==> lib.fileinfo == old(lib.fileinfo) && r == OpenFailed(openOk.error))
  {
    ghost var before := lib.calls;
    ghost var name := EncodeFileName(codecs, fn, fsencoding);
    var init := false;
    var isOpen := false;
    var initStatus := lib.Init(native);
    init := true;
    var openOk := lib.OpenDataFile(native, codecs, fn, fsencoding);
    ghost var opening := [Call.Init, Open(name, openOk.Ok?)];
    assert lib.calls == before + opening;
    if openOk.Ok? {
      isOpen := true;
      lib.fileinfo := Some(openOk.value);
      lib.RunBody();
    }
    if isOpen {
      var closeStatus := lib.CloseDataFile(native);
    }
    assert lib.calls == before + opening + (if openOk.Ok? then [Body, Close] else []);
    if init {
      var deInitStatus := lib.DeInit(native);
    }
    r := if openOk.Err? then OpenFailed(openOk.error)
         else if bodyRaises then BodyRaised(openOk.value)
         else Completed(openOk.value);
  }
}
