/** The pass that checks gccrs's parser against rustc's (src/passes/gccrs_parsing.rs): rustc
    decides, when the cases are generated, whether each file of rustc's test suite parses, and
    gccrs is expected to agree. */
module GccrsParsing {

  import opened Options
  import opened Paths
  import opened Errors
  import opened Fs
  import opened Config
  import opened Compilers
  import opened Passes
  import opened Process
  import opened FileCollector

  /** `src/test` inside the rust checkout. */
  function TestsPath(args: Args): Path {
    Join(args.rustPath, Rel(["src", "test"]))
  }

  /** `fetch`: the UI tests are copied under the output directory, keeping their path relative
      to the rust checkout. */
  method Fetch(args: Args, fs: FileSystem) returns (r: Result<seq<Path>>)
    modifies fs
    ensures (r, fs.files) == CopyAll(old(fs.files), fs.denied, RustFiles(fs.Walk(TestsPath(args))), args.outputDir, args.rustPath)
    ensures fs.cwd == old(fs.cwd)
  {
    r := CopyRsFiles(fs, TestsPath(args), args.outputDir, args.rustPath);
  }

  /** The reference run: rustc in edition 2021, stopping after parsing, with the bootstrap
      variable set so that the unstable `-Z` flag is accepted, both streams discarded. */
  function ParseCheck(args: Args, file: Path): Invocation {
    Invocation(Display(args.rustc), ["--edition", "2021", "-Z", "parse-only", Display(file)],
               map["RUSTC_BOOTSTRAP" := "1"], Some(Null), Some(Null))
  }

  /** What `adapt` gives for `file` when rustc's verdict is `runner`'s. */
  function Outcome(args: Args, runner: Runner, file: Path): (r: Result<TestCase>)
    ensures r.Ok? <==> runner.status(ParseCheck(args, file)).Exited?
    ensures r.Ok? ==> r.value.Test? && r.value.binary == Display(args.gccrs) && r.value.timeout == 1
    ensures r.Ok? ==> (r.value.exitCode == 0 <==> runner.status(ParseCheck(args, file)).success)
    ensures r.Ok? ==> r.value.exitCode <= 1
    ensures r.Ok? ==> r.value.args == DefaultArgs(Rust1) + ["-fsyntax-only", Display(file)]
  {
    match StatusOf(runner, ParseCheck(args, file))
    case Err(e) => Err(e)
    case Ok(valid) =>
      Ok(Test("Parse `" + Display(file) + "`", Display(args.gccrs), if valid then 0 else 1, 1, "", "",
              [GccrsDefaultFlag, "-fsyntax-only", Display(file)]))
  }

  /** `adapt`: runs rustc in parse-only mode, then builds a gccrs `-fsyntax-only` case whose
      expected exit code is 0 exactly when rustc accepted the file. */
  method Adapt(args: Args, runner: Runner, file: Path) returns (r: Result<TestCase>)
    ensures r == Outcome(args, runner, file)
  {
    var check := new Compiler(RustcBootstrap, args);
    check.Edition(E2021);
    var cmd := check.Command();
    cmd.Arg("-Z");
    cmd.Arg("parse-only");
    cmd.Arg(Display(file));
    assert cmd.Snapshot() == ParseCheck(args, file);
    var status := RunStatus(runner, cmd);
    if status.Err? {
      return Err(status.error);
    }
    var isValid := status.value;
    var compiler := new Compiler(Rust1, args);
    var t := FromCompiler(compiler);
    t := WithName(t, "Parse `" + Display(file) + "`");
    t := WithExitCode(t, if !isValid then 1 else 0);
    t := WithTimeout(t, 1);
    t := WithArg(t, "-fsyntax-only");
    t := WithArg(t, Display(file));
    assert t.args == [GccrsDefaultFlag, "-fsyntax-only", Display(file)];
    r := Ok(t);
  }
}
