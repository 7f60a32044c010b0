/** The pass that turns gccrs's own DejaGnu test files into rustc runs
    (src/passes/rustc_dejagnu.rs): each file is compiled with rustc, expecting failure when
    the file announces an error. */
module RustcDejagnu {

  import opened Strings
  import opened Paths
  import opened Errors
  import opened Fs
  import opened Config
  import opened Compilers
  import opened Passes
  import opened FileCollector

  /** `gcc/testsuite/rust` inside the gccrs checkout. */
  function TestsPath(args: Args): Path {
    Join(args.gccrsPath, Rel(["gcc", "testsuite", "rust"]))
  }

  /** `fetch`: the test files are copied under the output directory, keeping their path
      relative to the gccrs checkout. */
  method Fetch(args: Args, fs: FileSystem) returns (r: Result<seq<Path>>)
    modifies fs
    ensures (r, fs.files) == CopyAll(old(fs.files), fs.denied, RustFiles(fs.Walk(TestsPath(args))), args.outputDir, args.gccrsPath)
    ensures fs.cwd == old(fs.cwd)
  {
    r := CopyRsFiles(fs, TestsPath(args), args.outputDir, args.gccrsPath);
  }

  /** The exit code rustc is expected to give: 255 for a file with a `fn main()` (so that no
      `main` returning a code can pass), otherwise 1 for a file holding a `dg-error` directive
      or bytes that are not UTF-8, otherwise 0. */
  function ExitCode(c: Content): (r: uint8)
    ensures r == 255 <==> c.Utf8? && Contains(c.text, "fn main()")
    ensures r == 1 <==> c.NonUtf8? || (Contains(c.text, "dg-error") && !Contains(c.text, "fn main()"))
    ensures r == 0 <==> c.Utf8? && !Contains(c.text, "dg-error") && !Contains(c.text, "fn main()")
  {
    match c
    case NonUtf8 => 1
    case Utf8(text) => if Contains(text, "fn main()") then 255 else if Contains(text, "dg-error") then 1 else 0
  }

  /** The case for a file with contents `c`: rustc on the file, writing to one shared output
      name, with a five-second limit. */
  function Case(args: Args, file: Path, c: Content): TestCase {
    Test("Run rustc on `" + Display(file) + "`", Display(args.rustc), ExitCode(c), 5, "", "",
         [Display(file), "-o", "rustc_out"])
  }

  /** What `adapt` gives for `file`: the read error, or the case for its contents. */
  function Outcome(args: Args, files: map<Path, Content>, denied: set<Path>, file: Path): (r: Result<TestCase>)
    ensures r.Ok? <==> Read(files, denied, file).Ok?
    ensures r.Err? ==> r.error == Read(files, denied, file).error
    ensures r.Ok? ==> r.value == Case(args, file, Read(files, denied, file).value)
  {
    match Read(files, denied, file)
    case Err(e) => Err(e)
    case Ok(c) => Ok(Case(args, file, c))
  }

  /** `adapt`: reads the file's bytes, derives the exit code, then builds the case from a rustc
      compiler, which contributes no argument of its own. */
  method Adapt(args: Args, fs: FileSystem, file: Path) returns (r: Result<TestCase>)
    ensures r == Outcome(args, fs.files, fs.denied, file)
  {
    var bytes := fs.ReadBytes(file);
    if bytes.Err? {
      return Err(bytes.error);
    }
    var exitCode: uint8;
    match bytes.value {
      case Utf8(content) =>
        exitCode := if Contains(content, "dg-error") then 1 else 0;
        if Contains(content, "fn main()") {
          exitCode := 255;
        }
      case NonUtf8 =>
        exitCode := 1;
    }
    var compiler := new Compiler(RustcBootstrap, args);
    var t := FromCompiler(compiler);
    t := WithName(t, "Run rustc on `" + Display(file) + "`");
    t := WithExitCode(t, exitCode);
    t := WithTimeout(t, 5);
    t := WithArg(t, Display(file));
    t := WithArg(t, "-o");
    t := WithArg(t, "rustc_out");
    assert t.args == [Display(file), "-o", "rustc_out"];
    assert exitCode == ExitCode(bytes.value);
    r := Ok(t);
  }

  /** A readable file always yields a test (never a skip) that runs exactly rustc with the file,
      `-o rustc_out`, and no flag of the compiler's own; a file with a `main` is never expected
      to succeed. */
  lemma CaseShape(args: Args, file: Path, c: Content)
    ensures var t := Case(args, file, c);
            && t.Test? && t.binary == Display(args.rustc) && t.timeout == 5
            && t.args == [Display(file)] + ["-o", "rustc_out"] + DefaultArgs(RustcBootstrap)
            && (c.Utf8? && Contains(c.text, "fn main()") ==> t.exitCode != 0)
            && (c.NonUtf8? ==> t.exitCode == 1)
  {
  }
}
