/** The pass that keeps the rustc UI tests rustc accepts and expects gccrs to compile them
    too, as written or inside a `no_std` or `no_core` crate
    (src/passes/gccrs_rustc_successes.rs). */
module GccrsRustcSuccesses {

  import opened Options
  import opened Strings
  import opened Paths
  import opened Errors
  import opened Fs
  import opened Config
  import opened Compilers
  import opened Passes
  import opened Process
  import opened FileCollector

  datatype Variant = Full | NoStd | NoCore

  /** `Display for GccrsRustcSuccesses`; it is empty for `Full`. */
  function Suffix(v: Variant): (r: string)
    ensures r == "" <==> v == Full
  {
    match v
    case Full => ""
    case NoStd => "no-std"
    case NoCore => "no-core"
  }

  /** `src/test/ui` inside the rust checkout. */
  function UiTests(args: Args): Path {
    Join(args.rustPath, Rel(["src", "test", "ui"]))
  }

  /** Where `fetch` copies to: the variants that rewrite files get a directory of their own. */
  function OutDir(v: Variant, args: Args): (r: Path)
    ensures v == Full ==> r == args.outputDir
    ensures v == NoStd ==> r == Join(args.outputDir, Rel(["no-std"]))
    ensures v == NoCore ==> r == Join(args.outputDir, Rel(["no-core"]))
  {
    match v
    case Full => args.outputDir
    case NoStd => Join(args.outputDir, Rel(["no-std"]))
    case NoCore => Join(args.outputDir, Rel(["no-core"]))
  }

  /** The three variants copy into three different places. */
  lemma OutDirsDistinct(a: Variant, b: Variant, args: Args)
    ensures OutDir(a, args) == OutDir(b, args) ==> a == b
  {
    var n := |args.outputDir.comps|;
    assert |OutDir(Full, args).comps| == n;
    assert |OutDir(NoStd, args).comps| == n + 1 && OutDir(NoStd, args).comps[n] == "no-std";
    assert |OutDir(NoCore, args).comps| == n + 1 && OutDir(NoCore, args).comps[n] == "no-core";
  }

  /** `fetch`: the UI tests, copied under the variant's directory relative to the checkout. */
  method Fetch(v: Variant, args: Args, fs: FileSystem) returns (r: Result<seq<Path>>)
    modifies fs
    ensures (r, fs.files) == CopyAll(old(fs.files), fs.denied, RustFiles(fs.Walk(UiTests(args))), OutDir(v, args), args.rustPath)
    ensures fs.cwd == old(fs.cwd)
  {
    var outDir: Path;
    match v {
      case Full => outDir := args.outputDir;
      case NoStd => outDir := Join(args.outputDir, Rel(["no-std"]));
      case NoCore => outDir := Join(args.outputDir, Rel(["no-core"]));
    }
    r := CopyRsFiles(fs, UiTests(args), outDir, args.rustPath);
  }

  /** What is put in front of the test's text. */
  function Prelude(v: Variant): (r: string)
    ensures r == "" <==> v == Full
    // crate attributes, each on a line of its own ahead of the test's first line
    ensures v != Full ==> StartsWith(r, "#![") && r[|r| - 1] == '\n'
  {
    match v
    case Full => ""
    case NoStd => "#![no_std]\n"
    case NoCore => "#![feature(no_core)]\n#![no_core]\n"
  }

  /** The rustc pre-check: compile the rewritten file as a library crate. */
  function Precheck(args: Args, file: Path): Invocation {
    Invocation(Display(args.rustc),
               ["--edition", "2021", "--crate-name", "rustc_output", "--crate-type", "lib", Display(file)],
               map["RUSTC_BOOTSTRAP" := "1"], Some(Null), Some(Null))
  }

  /** Seconds the pre-check may run before it is killed. */
  const PrecheckSeconds: nat := 30

  /** The case expected to compile: gccrs on the file, with a five-minute limit. */
  function Case(v: Variant, args: Args, file: Path): TestCase {
    Test("Compile " + Suffix(v) + " success `" + Display(file) + "`", Display(args.gccrs), 0, 5 * 60, "", "",
         [GccrsDefaultFlag, Display(file)])
  }

  /** What `adapt` gives for `file`, and the store afterwards. */
  function Outcome(v: Variant, args: Args, files: map<Path, Content>, denied: set<Path>, runner: Runner, file: Path)
    : (r: (Result<TestCase>, map<Path, Content>))
    // a file rustc is known to reject is skipped and left as it is
    ensures ReadText(files, denied, file).Ok? && Contains(ReadText(files, denied, file).value, "ERROR")
            ==> r == (Ok(Skip), files)
    // otherwise the file now starts with the prelude, followed by what it held
    ensures ReadText(files, denied, file).Ok? && !Contains(ReadText(files, denied, file).value, "ERROR")
            ==> r.1 == files[file := Utf8(Prelude(v) + ReadText(files, denied, file).value)]
    // without a pre-check, every readable file without `ERROR` becomes a test
    ensures v == Full && ReadText(files, denied, file).Ok? && !Contains(ReadText(files, denied, file).value, "ERROR")
            ==> r.0 == Ok(Case(v, args, file))
    // the other variants keep a file only when rustc compiles it in time
    ensures v != Full && ReadText(files, denied, file).Ok? && !Contains(ReadText(files, denied, file).value, "ERROR")
            ==> (r.0 == Ok(Case(v, args, file)) <==> TimedRun(runner, Precheck(args, file), PrecheckSeconds) == Ok(true))
    // a file rustc rejects, or that is killed at the limit, is skipped; a pre-check that cannot
    // be started, waited for or killed is an error
    ensures v != Full && ReadText(files, denied, file).Ok? && !Contains(ReadText(files, denied, file).value, "ERROR")
            ==> r.0 == match TimedRun(runner, Precheck(args, file), PrecheckSeconds)
                       case Ok(b) => Ok(if b then Case(v, args, file) else Skip)
                       case Err(e) => Err(e)
    ensures r.0.Ok? ==> r.0.value == Skip || r.0.value == Case(v, args, file)
    ensures ReadText(files, denied, file).Err? ==> r == (Err(ReadText(files, denied, file).error), files)
  {
    match ReadText(files, denied, file)
    case Err(e) => (Err(e), files)
    case Ok(text) =>
      if Contains(text, "ERROR") then (Ok(Skip), files)
      else
        var files' := files[file := Utf8(Prelude(v) + text)];
        if v == Full then (Ok(Case(v, args, file)), files')
        else
          match TimedRun(runner, Precheck(args, file), PrecheckSeconds)
          case Err(e) => (Err(e), files')
          case Ok(valid) => (if valid then Ok(Case(v, args, file)) else Ok(Skip), files')
  }

  /** Every test this pass generates runs gccrs, with its required flag first, on the file
      alone, expecting success within 300 seconds. */
  lemma CaseShape(v: Variant, args: Args, file: Path)
    ensures var t := Case(v, args, file);
            && t.Test? && t.binary == Display(args.gccrs) && t.exitCode == 0 && t.timeout == 300
            && t.args == DefaultArgs(Rust1) + [Display(file)]
            && t.name == "Compile " + Suffix(v) + " success `" + Display(file) + "`"
  {
  }

  /** The rustc pre-check of `adapt`, killed after 30 seconds. */
  method RunPrecheck(args: Args, runner: Runner, file: Path) returns (r: Result<bool>)
    ensures r == TimedRun(runner, Precheck(args, file), PrecheckSeconds)
  {
    var check := new Compiler(RustcBootstrap, args);
    check.Edition(E2021);
    check.CrateName("rustc_output");
    var cmd := check.Command();
    cmd.Arg("--crate-type");
    cmd.Arg("lib");
    cmd.Arg(Display(file));
    assert cmd.Snapshot() == Precheck(args, file);
    r := RunWithTimeout(runner, cmd, PrecheckSeconds);
  }

  /** The case `adapt` builds for a file it keeps. */
  method Build(v: Variant, args: Args, file: Path) returns (t: TestCase)
    ensures t == Case(v, args, file)
  {
    var compiler := new Compiler(Rust1, args);
    t := FromCompiler(compiler);
    t := WithName(t, "Compile " + Suffix(v) + " success `" + Display(file) + "`");
    t := WithExitCode(t, 0);
    t := WithTimeout(t, 5 * 60);
    t := WithArg(t, Display(file));
    assert t.args == [GccrsDefaultFlag, Display(file)];
  }

  /** `adapt`: read, skip on `ERROR`, rewrite the file with the prelude, pre-check with rustc
      for the crate-less variants, then build the case. */
  method Adapt(v: Variant, args: Args, fs: FileSystem, runner: Runner, file: Path) returns (r: Result<TestCase>)
    modifies fs
    ensures (r, fs.files) == Outcome(v, args, old(fs.files), fs.denied, runner, file)
    ensures fs.cwd == old(fs.cwd)
  {
    var read := fs.ReadToString(file);
    if read.Err? {
      return Err(read.error);
    }
    var content := read.value;
    if Contains(content, "ERROR") {
      return Ok(Skip);
    }
    var err := fs.Write(file, Prelude(v) + content);
    if err.Some? {
      // the store refuses reads and writes of the same paths, so a file just read can be written
      assert false;
    }
    if v == NoStd || v == NoCore {
      var isValid := RunPrecheck(args, runner, file);
      if isValid.Err? {
        return Err(isValid.error);
      }
      if !isValid.value {
        return Ok(Skip);
      }
    }
    var t := Build(v, args, file);
    r := Ok(t);
  }
}
