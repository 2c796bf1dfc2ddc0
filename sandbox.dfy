/** One execution of submitted code: resolve the language, set up a fresh
    workspace holding the source file, launch the isolated container, normalise
    what it reports, and remove the workspace again. The filesystem is an abstract
    set of directories and a map of files; the random identifiers, the outcome of
    the container run and any filesystem fault are inputs. */
module Sandbox {
  import opened Wrappers
  import opened Languages
  import opened Isolation

  /** A filesystem path as its list of segments below the root. */
  type Path = seq<string>

  /** The absolute path text of `p`, as `path.join` prints it. */
  function Render(p: Path): string
  {
    if p == [] then "/" else RenderSegments(p)
  }

  function RenderSegments(p: Path): string
  {
    if p == [] then "" else "/" + p[0] + RenderSegments(p[1..])
  }

  /** The shared parent of all workspaces, `~/sandbox-runs`. */
  function BaseDir(home: Path): Path
  {
    home + ["sandbox-runs"]
  }

  /** The workspace of one execution, `~/sandbox-runs/run-<uuid>`. */
  function RunDir(home: Path, uuid: string): (d: Path)
    ensures |d| == |BaseDir(home)| + 1 && d[..|BaseDir(home)|] == BaseDir(home)
    ensures d[|d| - 1] == "run-" + uuid
  {
    BaseDir(home) + ["run-" + uuid]
  }

  /** Permission bits, as decimal values of the octal modes. */
  const ModeAllAccess := 511  // 0o777
  const ModeSourceFile := 420  // 0o644

  /** `p` is `d` or lies below it. */
  predicate Within(p: Path, d: Path)
  {
    |d| <= |p| && p[..|d|] == d
  }

  /** What the container saw: the command line and the files of the mounted
      workspace at the moment it was launched. */
  datatype Launch = Launch(command: string, workspace: map<Path, string>)

  /** The observable host state. */
  datatype FsState = FsState(
    dirs: set<Path>,
    files: map<Path, string>,
    modes: map<Path, int>,
    launches: seq<Launch>)

  /** Directories are closed under taking ancestors, and every file lies in a
      directory. */
  ghost predicate Valid(st: FsState)
  {
    (forall d, k :: d in st.dirs && 0 <= k <= |d| ==> d[..k] in st.dirs) &&
    (forall p :: p in st.files ==> |p| > 0 && p[..|p| - 1] in st.dirs)
  }

  /** The files at or below `d`. */
  function FilesWithin(files: map<Path, string>, d: Path): (r: map<Path, string>)
    ensures forall p :: p in r <==> p in files && Within(p, d)
    ensures forall p :: p in r ==> r[p] == files[p]
  {
    map p | p in files && Within(p, d) :: files[p]
  }

  /** `fs.mkdir(p, { recursive: true })`: `p` and all its ancestors exist
      afterwards, and nothing else changes. */
  function MakeDirectory(st: FsState, p: Path): (r: FsState)
    ensures forall k :: 0 <= k <= |p| ==> p[..k] in r.dirs
    ensures r.dirs >= st.dirs && r.files == st.files && r.modes == st.modes && r.launches == st.launches
    ensures forall d :: d in r.dirs ==> d in st.dirs || exists k :: 0 <= k <= |p| && d == p[..k]
  {
    var ancestors := set k | 0 <= k <= |p| :: p[..k];
    st.(dirs := st.dirs + ancestors)
  }

  /** `fs.chmod(p, mode)`. */
  function ChangeMode(st: FsState, p: Path, mode: int): (r: FsState)
    ensures r.modes == st.modes[p := mode]
    ensures r.dirs == st.dirs && r.files == st.files && r.launches == st.launches
  {
    st.(modes := st.modes[p := mode])
  }

  /** `fs.writeFile(p, content, { mode })`. */
  function WriteFile(st: FsState, p: Path, content: string, mode: int): (r: FsState)
    ensures r.files == st.files[p := content] && r.modes == st.modes[p := mode]
    ensures r.dirs == st.dirs && r.launches == st.launches
  {
    st.(files := st.files[p := content], modes := st.modes[p := mode])
  }

  /** `fs.rm(d, { recursive: true, force: true })`: nothing at or below `d`
      remains; everything else is kept. */
  function RemoveTree(st: FsState, d: Path): (r: FsState)
    ensures forall p :: p in r.dirs <==> p in st.dirs && !Within(p, d)
    ensures forall p :: p in r.files <==> p in st.files && !Within(p, d)
    ensures forall p :: p in r.files ==> r.files[p] == st.files[p]
    ensures forall p :: p in r.modes <==> p in st.modes && !Within(p, d)
    ensures forall p :: p in r.modes ==> r.modes[p] == st.modes[p]
    ensures r.launches == st.launches
  {
    var dirs := set p | p in st.dirs && !Within(p, d);
    var files := map p | p in st.files && !Within(p, d) :: st.files[p];
    var modes := map p | p in st.modes && !Within(p, d) :: st.modes[p];
    st.(dirs := dirs, files := files, modes := modes)
  }

  /** The filesystem steps before the `try`, any of which may fail. */
  datatype Step = MkdirBase | ChmodBase | MkdirRun | ChmodRun | WriteSource

  /** What `execAsync` settles with: the captured streams on success, or a
      rejection whose streams may be missing. */
  datatype ExecOutcome =
    | ExecOk(stdout: string, stderr: string)
    | ExecErr(errStdout: Option<string>, errStderr: Option<string>, message: string)

  /** The inputs an execution draws from its surroundings. */
  datatype Environment = Environment(
    home: Path,              // os.homedir()
    fileUuid: string,        // first randomUUID(), for the file name
    dirUuid: string,         // second randomUUID(), for the workspace
    fault: Option<Step>,     // the filesystem step that throws, if any
    exec: ExecOutcome)       // how the container run settles

  datatype RunResult = RunResult(stdout: string, stderr: string)

  datatype RunError =
    | UnsupportedLanguage       // "Unsupported language"
    | FsFailure(step: Step)     // a filesystem step threw
    | CommandNotAFunction       // TypeError: config.command is not a function

  datatype Result = Ok(value: RunResult) | Err(error: RunError)

  /** JavaScript's `x || fallback` on an optional string: a missing and an empty
      string both fall back. */
  function OrElse(x: Option<string>, fallback: string): (r: string)
    ensures x.Some? && x.value != "" ==> r == x.value
    ensures x.None? || x.value == "" ==> r == fallback
  {
    if x.Some? && x.value != "" then x.value else fallback
  }

  /** The `try`/`catch` around the container run: success passes the streams
      through; a rejection keeps whatever was captured, with an empty stdout
      in place of a missing one and the error message in place of a missing or
      empty stderr. Never throws. */
  function Normalize(o: ExecOutcome): (r: RunResult)
    ensures o.ExecOk? ==> r.stdout == o.stdout && r.stderr == o.stderr
    ensures o.ExecErr? ==> (r.stdout == "" <==> o.errStdout.None? || o.errStdout.value == "")
    ensures o.ExecErr? && r.stdout != "" ==> o.errStdout == Some(r.stdout)
    ensures o.ExecErr? && o.errStderr.Some? && o.errStderr.value != "" ==> r.stderr == o.errStderr.value
    ensures o.ExecErr? && (o.errStderr.None? || o.errStderr.value == "") ==> r.stderr == o.message
  {
    match o
    case ExecOk(out, err) => RunResult(out, err)
    case ExecErr(out, err, message) => RunResult(OrElse(out, ""), OrElse(err, message))
  }

  /** A failed run is always visible in stderr when its error carries a message. */
  lemma FailureVisibleInStderr(o: ExecOutcome)
    requires o.ExecErr? && o.message != ""
    ensures Normalize(o).stderr != ""
  {
  }

  /** The five filesystem steps before the `try`, in the source's order; when
      `fault` names one of them, the state is the one it leaves behind. */
  function Setup(st: FsState, base: Path, temp: Path, file: Path, code: string, fault: Option<Step>): FsState
  {
    if fault == Some(MkdirBase) then st
    else
      var s1 := MakeDirectory(st, base);
      if fault == Some(ChmodBase) then s1
      else
        var s2 := ChangeMode(s1, base, ModeAllAccess);
        if fault == Some(MkdirRun) then s2
        else
          var s3 := MakeDirectory(s2, temp);
          if fault == Some(ChmodRun) then s3
          else
            var s4 := ChangeMode(s3, temp, ModeAllAccess);
            if fault == Some(WriteSource) then s4
            else WriteFile(s4, file, code, ModeSourceFile)
  }

  /** The whole routine for a given lookup of the language key: the guard, the
      set-up steps, the template that builds the command, and the `try` whose
      `finally` removes the workspace. */
  function RunWith(lookup: Lookup, st: FsState, code: string, env: Environment): (FsState, Result)
  {
    if lookup.Undefined? then (st, Err(UnsupportedLanguage))
    else
      var extension := if lookup.Config? then Extension(lookup.toolchain) else "undefined";
      var filename := "code-" + env.fileUuid + extension;
      var temp := RunDir(env.home, env.dirUuid);
      var staged := Setup(st, BaseDir(env.home), temp, temp + [filename], code, env.fault);
      if env.fault.Some? then (staged, Err(FsFailure(env.fault.value)))
      else if lookup.Inherited? then (staged, Err(CommandNotAFunction))
      else
        var command := DockerCommand(Render(temp), lookup.toolchain, filename);
        var launched := staged.(launches := staged.launches + [Launch(command, FilesWithin(staged.files, temp))]);
        (RemoveTree(launched, temp), Ok(Normalize(env.exec)))
  }

  /** The routine as written: the key is looked up the way JavaScript indexes
      an object literal, so inherited member names pass the guard. */
  function RunAsWritten(language: string, st: FsState, code: string, env: Environment): (FsState, Result)
  {
    RunWith(JsLookup(language), st, code, env)
  }

  /** The routine with the guard evidently intended: only the table's own keys
      are accepted. */
  function Run(language: string, st: FsState, code: string, env: Environment): (FsState, Result)
  {
    RunWith(OwnLookup(language), st, code, env)
  }

  /** Both versions agree on every key except the inherited member names. */
  lemma RunVersionsAgree(language: string, st: FsState, code: string, env: Environment)
    requires language !in ObjectPrototypeMembers
    ensures RunAsWritten(language, st, code, env) == Run(language, st, code, env)
  {
    LookupsDifferOnPrototypeMembers(language);
  }

  /** An unknown key is rejected before anything is created, written or run. */
  lemma UnknownKeyAllocatesNothing(language: string, st: FsState, code: string, env: Environment)
    requires Resolve(language).None?
    ensures Run(language, st, code, env) == (st, Err(UnsupportedLanguage))
  {
  }

  /** The routine as written also rejects an unknown key untouched, provided
      the key is not an inherited member name. */
  lemma UnknownKeyRejectedAsWritten(language: string, st: FsState, code: string, env: Environment)
    requires Resolve(language).None? && language !in ObjectPrototypeMembers
    ensures RunAsWritten(language, st, code, env) == (st, Err(UnsupportedLanguage))
  {
    RunVersionsAgree(language, st, code, env);
  }

  /** A supported key is never reported as unsupported. */
  lemma SupportedKeyAccepted(language: string, st: FsState, code: string, env: Environment)
    requires Resolve(language).Some?
    ensures Run(language, st, code, env).1 != Err(UnsupportedLanguage)
  {
  }

  /** The container is launched exactly when the run returns a result, and then
      exactly once; earlier launches are kept. */
  lemma LaunchIffResult(lookup: Lookup, st: FsState, code: string, env: Environment)
    ensures var (after, r) := RunWith(lookup, st, code, env);
            |after.launches| == |st.launches| + (if r.Ok? then 1 else 0)
            && after.launches[..|st.launches|] == st.launches
  {
    if !lookup.Undefined? {
      var extension := if lookup.Config? then Extension(lookup.toolchain) else "undefined";
      var temp := RunDir(env.home, env.dirUuid);
      SetupKeepsLaunches(st, BaseDir(env.home), temp, temp + ["code-" + env.fileUuid + extension], code, env.fault);
    }
  }

  lemma SetupKeepsLaunches(st: FsState, base: Path, temp: Path, file: Path, code: string, fault: Option<Step>)
    ensures Setup(st, base, temp, file, code, fault).launches == st.launches
  {
  }

  /** Nothing lies at or below a path that is neither a directory nor a file. */
  lemma NothingWithinMissingDir(st: FsState, d: Path)
    requires Valid(st) && d !in st.dirs && d !in st.files
    ensures forall p :: p in st.dirs ==> !Within(p, d)
    ensures forall p :: p in st.files ==> !Within(p, d)
  {
    forall p | p in st.dirs ensures !Within(p, d) {
      if |d| <= |p| {
        assert p[..|d|] in st.dirs;
      }
    }
    forall p | p in st.files ensures !Within(p, d) {
      if |d| == |p| {
        assert p[..|d|] == p;
      } else if |d| < |p| {
        var parent := p[..|p| - 1];
        assert parent[..|d|] in st.dirs;
        assert parent[..|d|] == p[..|d|];
      }
    }
  }

  lemma MakeDirectoryKeepsValid(st: FsState, p: Path)
    requires Valid(st)
    ensures Valid(MakeDirectory(st, p))
  {
    var r := MakeDirectory(st, p);
    forall d, k | d in r.dirs && 0 <= k <= |d| ensures d[..k] in r.dirs {
      if d !in st.dirs {
        var j :| 0 <= j <= |p| && d == p[..j];
        assert d[..k] == p[..k];
      }
    }
  }

  lemma RemoveTreeKeepsValid(st: FsState, d: Path)
    requires Valid(st)
    ensures Valid(RemoveTree(st, d))
  {
  }

  lemma SetupKeepsValid(st: FsState, base: Path, temp: Path, file: Path, code: string, fault: Option<Step>)
    requires Valid(st)
    requires |file| > 0 && file[..|file| - 1] == temp
    ensures Valid(Setup(st, base, temp, file, code, fault))
  {
    MakeDirectoryKeepsValid(st, base);
    var s2 := ChangeMode(MakeDirectory(st, base), base, ModeAllAccess);
    MakeDirectoryKeepsValid(s2, temp);
    assert temp[..|temp|] == temp;
  }

  /** Each execution moves the host from a valid state to a valid state. */
  lemma RunKeepsValid(lookup: Lookup, st: FsState, code: string, env: Environment)
    requires Valid(st)
    ensures Valid(RunWith(lookup, st, code, env).0)
  {
    if !lookup.Undefined? {
      var extension := if lookup.Config? then Extension(lookup.toolchain) else "undefined";
      var temp := RunDir(env.home, env.dirUuid);
      var file := temp + ["code-" + env.fileUuid + extension];
      assert file[..|file| - 1] == temp;
      SetupKeepsValid(st, BaseDir(env.home), temp, file, code, env.fault);
      var staged := Setup(st, BaseDir(env.home), temp, file, code, env.fault);
      if env.fault.None? && lookup.Config? {
        var command := DockerCommand(Render(temp), lookup.toolchain, file[|file| - 1]);
        RemoveTreeKeepsValid(staged.(launches := staged.launches + [Launch(command, FilesWithin(staged.files, temp))]), temp);
      }
    }
  }

  /** The random identifiers have the shape `randomUUID` gives them, and the
      workspace name is not yet taken. */
  ghost predicate FreshEnvironment(st: FsState, env: Environment)
  {
    IsUuid(env.fileUuid) && IsUuid(env.dirUuid)
    && RunDir(env.home, env.dirUuid) !in st.dirs && RunDir(env.home, env.dirUuid) !in st.files
  }

  /** Creating the base directory puts nothing at or below a fresh workspace
      path one level beneath it. */
  lemma BaseLeavesWorkspaceFree(st: FsState, base: Path, temp: Path)
    requires Valid(st) && temp !in st.dirs && temp !in st.files
    requires |temp| == |base| + 1 && temp[..|base|] == base
    ensures forall p :: p in MakeDirectory(st, base).dirs ==> !Within(p, temp)
    ensures forall p :: p in st.files ==> !Within(p, temp)
  {
    NothingWithinMissingDir(st, temp);
  }

  /** The set-up with no fault, on a fresh workspace: the workspace holds exactly
      the source file with the submitted content, and removing the workspace
      gives back the files of before and the directories after the base was
      created. */
  lemma FreshSetupHoldsOnlySource(st: FsState, base: Path, temp: Path, file: Path, code: string)
    requires Valid(st) && temp !in st.dirs && temp !in st.files
    requires |temp| == |base| + 1 && temp[..|base|] == base
    requires |file| == |temp| + 1 && file[..|temp|] == temp
    ensures var staged := Setup(st, base, temp, file, code, None);
            && FilesWithin(staged.files, temp) == map[file := code]
            && RemoveTree(staged, temp).files == st.files
            && RemoveTree(staged, temp).dirs == MakeDirectory(st, base).dirs
  {
    BaseLeavesWorkspaceFree(st, base, temp);
    var s1 := MakeDirectory(st, base);
    var s2 := ChangeMode(s1, base, ModeAllAccess);
    var s3 := MakeDirectory(s2, temp);
    var staged := Setup(st, base, temp, file, code, None);
    assert staged == WriteFile(ChangeMode(s3, temp, ModeAllAccess), file, code, ModeSourceFile);
    StagedFiles(st.files, temp, file, code);
    StagedDirs(s1.dirs, s3.dirs, base, temp);
  }

  lemma StagedFiles(files: map<Path, string>, temp: Path, file: Path, code: string)
    requires forall p :: p in files ==> !Within(p, temp)
    requires |file| == |temp| + 1 && file[..|temp|] == temp
    ensures FilesWithin(files[file := code], temp) == map[file := code]
    ensures (map p | p in files[file := code] && !Within(p, temp) :: files[file := code][p]) == files
  {
  }

  lemma StagedDirs(baseDirs: set<Path>, dirs: set<Path>, base: Path, temp: Path)
    requires forall p :: p in baseDirs ==> !Within(p, temp)
    requires |temp| == |base| + 1 && temp[..|base|] == base
    requires forall k :: 0 <= k <= |base| ==> base[..k] in baseDirs
    requires dirs == baseDirs + set k | 0 <= k <= |temp| :: temp[..k]
    ensures (set p | p in dirs && !Within(p, temp)) == baseDirs
  {
    assert temp[..|temp|] == temp;
    forall k | 0 <= k <= |temp| && !Within(temp[..k], temp) ensures temp[..k] in baseDirs {
      assert temp[..k] == base[..k];
    }
  }

  /** A supported key with no filesystem fault: the container is launched once,
      with the isolation command for a fresh workspace that holds exactly one
      file, `code-<uuid><extension>`, whose content is the submitted code; the
      result is the normalised outcome; and afterwards the workspace is gone, so
      that the host keeps only the shared base directory. */
  lemma SuccessfulRunStagesAndCleansUp(language: string, st: FsState, code: string, env: Environment)
    requires Valid(st) && FreshEnvironment(st, env)
    requires Resolve(language).Some? && env.fault.None?
    ensures var t := Resolve(language).value;
            var temp := RunDir(env.home, env.dirUuid);
            var filename := SourceFileName(env.fileUuid, t);
            var (after, r) := Run(language, st, code, env);
            && r == Ok(Normalize(env.exec))
            && after.launches == st.launches
                 + [Launch(DockerCommand(Render(temp), t, filename), map[temp + [filename] := code])]
            && after.files == st.files
            && after.dirs == MakeDirectory(st, BaseDir(env.home)).dirs
  {
    var t := Resolve(language).value;
    var base := BaseDir(env.home);
    var temp := RunDir(env.home, env.dirUuid);
    var filename := SourceFileName(env.fileUuid, t);
    var file := temp + [filename];
    assert file[..|temp|] == temp;
    FreshSetupHoldsOnlySource(st, base, temp, file, code);
    SetupKeepsLaunches(st, base, temp, file, code, None);
  }

  /** Once the `try` is entered the workspace is removed, whatever the
      lookup, the earlier state and the freshness of the names: after a run
      that returns streams nothing is left at or below the workspace. */
  lemma CleanupOnceTried(lookup: Lookup, st: FsState, code: string, env: Environment)
    ensures var (after, r) := RunWith(lookup, st, code, env);
            var temp := RunDir(env.home, env.dirUuid);
            r.Ok? ==>
              && (forall p :: p in after.dirs ==> !Within(p, temp))
              && (forall p :: p in after.files ==> !Within(p, temp))
  {
  }

  /** A fault in one of the steps before the `try` aborts the run with that
      step's error and launches nothing; once the workspace directory has been
      created it is left on disk, because its removal belongs to the `try`. */
  lemma FaultBeforeTryLeavesWorkspace(language: string, st: FsState, code: string, env: Environment)
    requires Resolve(language).Some? && env.fault.Some?
    ensures var (after, r) := Run(language, st, code, env);
            && r == Err(FsFailure(env.fault.value))
            && after.launches == st.launches
            && (env.fault.value in {ChmodRun, WriteSource} ==> RunDir(env.home, env.dirUuid) in after.dirs)
  {
    var t := Resolve(language).value;
    var temp := RunDir(env.home, env.dirUuid);
    var file := temp + [SourceFileName(env.fileUuid, t)];
    SetupKeepsLaunches(st, BaseDir(env.home), temp, file, code, env.fault);
    assert temp == temp[..|temp|];
  }

  /** Before the workspace is created nothing of it exists: a fault in the first
      three steps leaves a fresh workspace path unused. */
  lemma EarlyFaultCreatesNoWorkspace(language: string, st: FsState, code: string, env: Environment)
    requires Valid(st) && FreshEnvironment(st, env)
    requires Resolve(language).Some? && env.fault.Some? && env.fault.value in {MkdirBase, ChmodBase, MkdirRun}
    ensures var after := Run(language, st, code, env).0;
            && (forall p :: p in after.dirs ==> !Within(p, RunDir(env.home, env.dirUuid)))
            && (forall p :: p in after.files ==> !Within(p, RunDir(env.home, env.dirUuid)))
  {
    BaseLeavesWorkspaceFree(st, BaseDir(env.home), RunDir(env.home, env.dirUuid));
  }

  /** The defect of the routine as written: an inherited member name passes
      the guard, the workspace is created and the source written under the name
      `code-<uuid>undefined`, and then the command template throws outside the
      `try`, so the workspace stays on disk. */
  lemma PrototypeKeyLeaksWorkspace(key: string, st: FsState, code: string, env: Environment)
    requires key in ObjectPrototypeMembers && env.fault.None?
    ensures var (after, r) := RunAsWritten(key, st, code, env);
            var temp := RunDir(env.home, env.dirUuid);
            && r == Err(CommandNotAFunction)
            && temp in after.dirs
            && temp + ["code-" + env.fileUuid + "undefined"] in after.files
            && after.files[temp + ["code-" + env.fileUuid + "undefined"]] == code
            && after.launches == st.launches
  {
    var temp := RunDir(env.home, env.dirUuid);
    assert key !in Keys;
    assert temp == temp[..|temp|];
  }

  /** With the intended guard every inherited name is rejected and nothing is
      touched. */
  lemma PrototypeKeyRejected(key: string, st: FsState, code: string, env: Environment)
    requires key in ObjectPrototypeMembers
    ensures Run(key, st, code, env) == (st, Err(UnsupportedLanguage))
  {
    assert key !in Keys;
  }

  /** The host as a mutable object: its directories, files, modes and the log of
      container launches. */
  class Host {
    var dirs: set<Path>
    var files: map<Path, string>
    var modes: map<Path, int>
    var launches: seq<Launch>

    function State(): FsState
      reads this
    {
      FsState(dirs, files, modes, launches)
    }

    constructor (initial: FsState)
      ensures State() == initial
    {
      dirs, files, modes, launches := initial.dirs, initial.files, initial.modes, initial.launches;
    }

    /** `fs.mkdir(p, { recursive: true })`, which rejects when `fails`. */
    method Mkdir(p: Path, fails: bool) returns (ok: bool)
      modifies this
      ensures ok == !fails
      ensures State() == if ok then MakeDirectory(old(State()), p) else old(State())
    {
      ok := !fails;
      if ok {
        dirs := dirs + set k | 0 <= k <= |p| :: p[..k];
      }
    }

    /** `fs.chmod(p, mode)`, which rejects when `fails`. */
    method Chmod(p: Path, mode: int, fails: bool) returns (ok: bool)
      modifies this
      ensures ok == !fails
      ensures State() == if ok then ChangeMode(old(State()), p, mode) else old(State())
    {
      ok := !fails;
      if ok {
        modes := modes[p := mode];
      }
    }

    /** `fs.writeFile(p, content, { mode })`, which rejects when `fails`. */
    method Write(p: Path, content: string, mode: int, fails: bool) returns (ok: bool)
      modifies this
      ensures ok == !fails
      ensures State() == if ok then WriteFile(old(State()), p, content, mode) else old(State())
    {
      ok := !fails;
      if ok {
        files := files[p := content];
        modes := modes[p := mode];
      }
    }

    /** Hands `command` to the container runtime with `workspace` mounted; the
        runtime settles with `outcome`. */
    method Exec(command: string, workspace: Path, outcome: ExecOutcome) returns (o: ExecOutcome)
      modifies this
      ensures o == outcome
      ensures State() == old(State()).(launches := old(launches) + [Launch(command, FilesWithin(old(files), workspace))])
    {
      launches := launches + [Launch(command, FilesWithin(files, workspace))];
      o := outcome;
    }

    /** `fs.rm(d, { recursive: true, force: true })`. */
    method Rm(d: Path)
      modifies this
      ensures State() == RemoveTree(old(State()), d)
    {
      dirs := set p | p in dirs && !Within(p, d);
      files := map p | p in files && !Within(p, d) :: files[p];
      modes := map p | p in modes && !Within(p, d) :: modes[p];
    }

    /** `runCodeInDocker`, step by step on the host, with the own-key guard. */
    method RunCodeInDocker(language: string, code: string, env: Environment) returns (r: Result)
      modifies this
      ensures (State(), r) == Run(language, old(State()), code, env)
    {
      var config := Resolve(language);
      if config.None? {
        return Err(UnsupportedLanguage);
      }
      var t := config.value;
      var filename := SourceFileName(env.fileUuid, t);
      var temp := RunDir(env.home, env.dirUuid);
      var ok := Stage(BaseDir(env.home), temp, temp + [filename], code, env.fault);
      if !ok {
        return Err(FsFailure(env.fault.value));
      }
      var command := DockerCommand(Render(temp), t, filename);
      // try: the run and its normalisation; finally: the workspace goes.
      var outcome := Exec(command, temp, env.exec);
      r := Ok(Normalize(outcome));
      Rm(temp);
    }

    /** The workspace set-up before the `try`: the base directory, its mode,
        the run directory, its mode and the source file, stopping at the step
        that throws. */
    method Stage(base: Path, temp: Path, file: Path, code: string, fault: Option<Step>) returns (ok: bool)
      modifies this
      ensures ok == fault.None?
      ensures State() == Setup(old(State()), base, temp, file, code, fault)
    {
      ok := Mkdir(base, fault == Some(MkdirBase));
      if !ok { return; }
      ok := Chmod(base, ModeAllAccess, fault == Some(ChmodBase));
      if !ok { return; }
      ok := Mkdir(temp, fault == Some(MkdirRun));
      if !ok { return; }
      ok := Chmod(temp, ModeAllAccess, fault == Some(ChmodRun));
      if !ok { return; }
      assert fault.Some? ==> fault.value.WriteSource?;
      ok := Write(file, code, ModeSourceFile, fault == Some(WriteSource));
    }
  }
}
