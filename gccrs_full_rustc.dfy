/** The pass that runs gccrs on every rustc UI test, expecting it to fail on the files rustc
    fails on (src/passes/gccrs_full_rustc.rs). The file is not declared among the passes of
    src/passes.rs and no pass name selects it, so the dispatcher never reaches it. */
module GccrsFullRustc {

  import opened Strings
  import opened Paths
  import opened Errors
  import opened Fs
  import opened Config
  import opened Passes
  import opened FileCollector

  /** `src/test/ui` inside the rust checkout. */
  function UiTests(args: Args): Path {
    Join(args.rustPath, Rel(["src", "test", "ui"]))
  }

  /** `fetch`: the UI tests, copied under the output directory relative to the checkout. */
  method Fetch(args: Args, fs: FileSystem) returns (r: Result<seq<Path>>)
    modifies fs
    ensures (r, fs.files) == CopyAll(old(fs.files), fs.denied, RustFiles(fs.Walk(UiTests(args))), args.outputDir, args.rustPath)
    ensures fs.cwd == old(fs.cwd)
  {
    r := CopyRsFiles(fs, UiTests(args), args.outputDir, args.rustPath);
  }

  /** What `adapt` gives for `file`: built from the default case, not from a compiler, so the
      gccrs flag is absent; failure, with `error` on stderr, is expected exactly for a file
      mentioning `ERROR`. */
  function Outcome(args: Args, files: map<Path, Content>, denied: set<Path>, file: Path): (r: Result<TestCase>)
    ensures r.Ok? <==> ReadText(files, denied, file).Ok?
    ensures r.Err? ==> r.error == ReadText(files, denied, file).error
    ensures r.Ok? ==> r.value.Test? && r.value.binary == Display(args.gccrs) && r.value.args == [Display(file)]
                      && r.value.timeout == 5 && r.value.stdout == ""
    ensures r.Ok? ==> (r.value.exitCode == 1 <==> Contains(ReadText(files, denied, file).value, "ERROR"))
    ensures r.Ok? ==> r.value.exitCode <= 1
    ensures r.Ok? ==> (r.value.stderr == "error" <==> r.value.exitCode == 1)
    ensures r.Ok? ==> (r.value.stderr == "" <==> r.value.exitCode == 0)
  {
    match ReadText(files, denied, file)
    case Err(e) => Err(e)
    case Ok(text) =>
      var failing := Contains(text, "ERROR");
      Ok(Test("Compile `" + Display(file) + "`", Display(args.gccrs), if failing then 1 else 0, 5,
              if failing then "error" else "", "", [Display(file)]))
  }

  /** `adapt`. */
  method Adapt(args: Args, fs: FileSystem, file: Path) returns (r: Result<TestCase>)
    ensures r == Outcome(args, fs.files, fs.denied, file)
  {
    var read := fs.ReadToString(file);
    if read.Err? {
      return Err(read.error);
    }
    var exitCode: uint8 := if Contains(read.value, "ERROR") then 1 else 0;
    var t := Default();
    t := WithName(t, "Compile `" + Display(file) + "`");
    t := WithBinary(t, Display(args.gccrs));
    t := WithExitCode(t, exitCode);
    t := WithTimeout(t, 5);
    t := WithArg(t, Display(file));
    if exitCode == 1 {
      t := WithStderr(t, "error");
    }
    assert t == Outcome(args, fs.files, fs.denied, file).value;
    r := Ok(t);
  }
}
