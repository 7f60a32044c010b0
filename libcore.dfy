/** The pass that compiles the core library of two rust releases with gccrs, stopping after
    each compilation step (src/passes/libcore.rs). Fetching checks the release out in the rust
    checkout, copies its sources and goes back to `master`. */
module LibCore {

  import opened Options
  import opened Strings
  import opened Paths
  import opened Errors
  import opened Fs
  import opened Config
  import opened Compilers
  import opened Passes
  import opened Process
  import opened Steps
  import opened FileCollector

  datatype Variant = V149(step: CompileStep) | V129(step: CompileStep)

  /** `tag`: the release the variant compiles. */
  function Tag(v: Variant): (r: string)
    ensures v.V149? ==> r == "1.49.0"
    ensures v.V129? ==> r == "1.29.0"
  {
    match v
    case V149(_) => "1.49.0"
    case V129(_) => "1.29.0"
  }

  /** Two variants with the same tag and step are the same variant. */
  lemma VariantsDistinguished(a: Variant, b: Variant)
    ensures Tag(a) == Tag(b) && a.step == b.step ==> a == b
  {
    assert "1.49.0"[2] != "1.29.0"[2];
  }

  /** The case of a variant: gccrs on the crate root, stopping after the variant's step. */
  function Case(v: Variant, args: Args, file: Path): TestCase {
    Test("Compiling libcore " + Tag(v) + " (" + CompileOption(v.step) + " step)", Display(args.gccrs), 0,
         DefaultTimeout, "", "", [GccrsDefaultFlag, Display(file), CompileOption(v.step)])
  }

  /** The last argument tells gccrs where to stop, so the cases of two steps differ. */
  lemma CaseShape(v: Variant, args: Args, file: Path)
    ensures var t := Case(v, args, file);
            && t.Test? && t.binary == Display(args.gccrs) && t.exitCode == 0 && t.timeout == 15
            && |t.args| == 3 && t.args[0] == GccrsDefaultFlag && t.args[1] == Display(file)
            && StartsWith(t.args[2], "-frust-compile-until=")
    ensures forall w: Variant :: w.step != v.step ==> Case(w, args, file) != Case(v, args, file)
  {
    forall w: Variant | w.step != v.step
      ensures Case(w, args, file) != Case(v, args, file)
    {
      CompileOptionsDistinct(w.step, v.step);
      assert Case(w, args, file).args[2] != Case(v, args, file).args[2];
    }
  }

  /** `adapt`: never fails and never skips. */
  method Adapt(v: Variant, args: Args, file: Path) returns (r: Result<TestCase>)
    ensures r == Ok(Case(v, args, file))
  {
    var compiler := new Compiler(Rust1, args);
    var t := FromCompiler(compiler);
    t := WithName(t, "Compiling libcore " + Tag(v) + " (" + CompileOption(v.step) + " step)");
    t := WithArg(t, Display(file));
    t := WithArg(t, CompileOption(v.step));
    t := WithExitCode(t, 0);
    assert t.args == [GccrsDefaultFlag, Display(file), CompileOption(v.step)];
    r := Ok(t);
  }

  /** The git checkout of the rust repository; only its checked-out revision is modelled. */
  class Repository {
    var revision: string

    constructor (revision: string)
      ensures this.revision == revision
    {
      this.revision := revision;
    }
  }

  /** What fetching reads and changes: the stored files, the working directory and the
      checked-out revision. */
  datatype World = World(files: map<Path, Content>, cwd: Path, revision: string)

  /** A git run with the given arguments; nothing about its environment or streams is set. */
  function GitRun(gitArgs: seq<string>): Invocation {
    Invocation("git", gitArgs, map[], None, None)
  }

  /** `rust_git(["checkout", rev])`: note the working directory, enter the checkout, run git,
      come back, and report an unsuccessful git as a `git` error naming its arguments. */
  function CheckoutSpec(denied: set<Path>, tree: map<Path, seq<WalkItem>>, runner: Runner, rustPath: Path, w: World, rev: string)
    : (r: (Option<Error>, World))
    ensures r.1.files == w.files
    // an unreadable working directory fails before anything else happens
    ensures CurrentDir(denied, w.cwd).Err? ==> r == (Some(CurrentDir(denied, w.cwd).error), w)
    // it succeeds exactly when every step does; the directory is then restored and the
    // revision is the one asked for
    ensures r.0.None? <==> CurrentDir(denied, w.cwd).Ok? && ChangeDir(denied, tree, rustPath).None?
                           && runner.status(GitRun(["checkout", rev])) == Exited(true)
                           && ChangeDir(denied, tree, w.cwd).None?
    ensures r.0.None? ==> r.1 == w.(revision := rev)
    // git ran but failed: the error names the arguments it was given
    ensures (ChangeDir(denied, tree, rustPath).None? && runner.status(GitRun(["checkout", rev])) == Exited(false)
             && ChangeDir(denied, tree, w.cwd).None?) ==> r == (Some(Misc(Git("checkout " + rev))), w)
    // git could not be started: the process stays in the checkout
    ensures CurrentDir(denied, w.cwd).Ok? && ChangeDir(denied, tree, rustPath).None?
            && runner.status(GitRun(["checkout", rev])) == SpawnFailed
            ==> r.0.Some? && r.1 == w.(cwd := rustPath)
  {
    assert JoinWith(" ", ["checkout", rev]) == "checkout " + rev;
    match CurrentDir(denied, w.cwd)
    case Err(e) => (Some(e), w)
    case Ok(oldDir) =>
      match ChangeDir(denied, tree, rustPath)
      case Some(e) => (Some(e), w)
      case None =>
        match runner.status(GitRun(["checkout", rev]))
        case SpawnFailed => (Some(Io(NotFound)), w.(cwd := rustPath))
        case Exited(success) =>
          var w' := if success then w.(revision := rev) else w;
          match ChangeDir(denied, tree, oldDir)
          case Some(e) => (Some(e), w'.(cwd := rustPath))
          case None => (if success then None else Some(Misc(Git(JoinWith(" ", ["checkout", rev])))), w')
  }

  /** `library/core` inside the rust checkout. */
  function CorePath(args: Args): Path {
    Join(args.rustPath, Rel(["library", "core"]))
  }

  /** The one file `fetch` returns: the output directory joined with the core library's path in
      the checkout, then `src/lib.rs`. */
  function Target(args: Args): (r: Path)
    ensures FileName(r) == Some("lib.rs") && Extension(r) == Some("rs")
  {
    var r := Join(Join(Join(args.outputDir, CorePath(args)), Rel(["src"])), Rel(["lib.rs"]));
    LastIndexOfAppend("lib", '.', "rs");
    assert "lib.rs" == "lib" + ['.'] + "rs";
    r
  }

  /** `fetch`: check out the release, copy the core library's sources under the output
      directory, check out `master` again, and return the crate root. */
  function FetchSpec(v: Variant, args: Args, denied: set<Path>, tree: map<Path, seq<WalkItem>>, runner: Runner, w: World)
    : (r: (Result<seq<Path>>, World))
    ensures w.files.Keys <= r.1.files.Keys
    ensures r.0.Ok? ==> r.0.value == [Target(args)] && r.1.revision == "master" && r.1.cwd == w.cwd
  {
    match CheckoutSpec(denied, tree, runner, args.rustPath, w, Tag(v))
    case (Some(e), w1) => (Err(e), w1)
    case (None, w1) =>
      var srcs := RustFiles(WalkOf(tree, CorePath(args)));
      var (copied, files2) := CopyAll(w1.files, denied, srcs, args.outputDir, args.rustPath);
      var w2 := w1.(files := files2);
      if copied.Err? then (Err(copied.error), w2)
      else
        match CheckoutSpec(denied, tree, runner, args.rustPath, w2, "master")
        case (Some(e), w3) => (Err(e), w3)
        case (None, w3) => (Ok([Target(args)]), w3)
  }

  /** A successful fetch returns exactly the crate root and leaves the checkout on `master`,
      in the directory it started from. */
  lemma FetchSucceeds(v: Variant, args: Args, denied: set<Path>, tree: map<Path, seq<WalkItem>>, runner: Runner, w: World)
    ensures var (r, w') := FetchSpec(v, args, denied, tree, runner, w);
            r.Ok? ==> r.value == [Target(args)] && w'.revision == "master" && w'.cwd == w.cwd
                      && runner.status(GitRun(["checkout", Tag(v)])) == Exited(true)
                      && runner.status(GitRun(["checkout", "master"])) == Exited(true)
  {
  }

  /** A failing copy returns its error right after the first checkout: the checkout stays on
      the release's tag. */
  lemma CopyFailureKeepsTag(v: Variant, args: Args, denied: set<Path>, tree: map<Path, seq<WalkItem>>, runner: Runner, w: World)
    requires CheckoutSpec(denied, tree, runner, args.rustPath, w, Tag(v)).0.None?
    requires var w1 := CheckoutSpec(denied, tree, runner, args.rustPath, w, Tag(v)).1;
             CopyAll(w1.files, denied, RustFiles(WalkOf(tree, CorePath(args))),
                     args.outputDir, args.rustPath).0.Err?
    ensures var (r, w') := FetchSpec(v, args, denied, tree, runner, w);
            r.Err? && w'.revision == Tag(v) && w'.cwd == w.cwd
  {
  }

  /** A checkout git refuses fails the fetch with the `git checkout <tag>` error, before
      anything is copied. */
  lemma FailedCheckoutError(v: Variant, args: Args, denied: set<Path>, tree: map<Path, seq<WalkItem>>, runner: Runner, w: World)
    requires ChangeDir(denied, tree, args.rustPath).None? && ChangeDir(denied, tree, w.cwd).None?
    requires runner.status(GitRun(["checkout", Tag(v)])) == Exited(false)
    ensures FetchSpec(v, args, denied, tree, runner, w) == (Err(Misc(Git("checkout " + Tag(v)))), w)
  {
  }

  /** Where the copy puts the crate root: the checkout's `library/core/src/lib.rs`, stripped of
      the checkout's path, under the output directory. */
  function CopiedRoot(args: Args): Path {
    Join(args.outputDir, Rel(["library", "core", "src", "lib.rs"]))
  }

  /** The returned path is the copied crate root only in degenerate set-ups: when the checkout
      path is absolute, the join keeps the checkout itself, so the case names the original file;
      when it is relative, the checkout path reappears under the output directory. */
  lemma TargetVersusCopy(args: Args)
    ensures Target(args) == CopiedRoot(args)
            <==> (args.rustPath.absolute && args.outputDir == args.rustPath)
                 || (!args.rustPath.absolute && args.rustPath.comps == [])
    ensures args.rustPath.absolute ==> Target(args) == Join(CorePath(args), Rel(["src", "lib.rs"]))
  {
    var t, c := Target(args), CopiedRoot(args);
    var o, p := args.outputDir, args.rustPath;
    var tail := ["library", "core", "src", "lib.rs"];
    if p.absolute {
      assert t == Path(true, p.comps + tail);
      if t == c {
        assert o.comps == c.comps[..|o.comps|] == p.comps;
      }
    } else {
      assert t == Path(o.absolute, o.comps + p.comps + tail);
      if t == c {
        assert |p.comps| == 0;
      }
    }
  }

  /** The checkout's crate root, `library/core/src/lib.rs`. */
  function Root(args: Args): Path {
    Join(CorePath(args), Rel(["src", "lib.rs"]))
  }

  /** The evidently intended target: when the checkout's crate root is among the files the
      walk finds, a successful fetch has stored its copy at `CopiedRoot`. */
  lemma CopiedRootStored(v: Variant, args: Args, denied: set<Path>, tree: map<Path, seq<WalkItem>>, runner: Runner, w: World)
    requires Root(args) in RustFiles(WalkOf(tree, CorePath(args)))
    ensures var (r, w') := FetchSpec(v, args, denied, tree, runner, w);
            r.Ok? ==> CopiedRoot(args) in w'.files
  {
    var (r, w') := FetchSpec(v, args, denied, tree, runner, w);
    if r.Ok? {
      var w1 := CheckoutSpec(denied, tree, runner, args.rustPath, w, Tag(v)).1;
      var srcs := RustFiles(WalkOf(tree, CorePath(args)));
      FetchOkFiles(v, args, denied, tree, runner, w);
      CopyAllShape(w1.files, denied, srcs, args.outputDir, args.rustPath);
      var i :| 0 <= i < |srcs| && srcs[i] == Root(args);
      RootDestination(args);
      assert CopyAll(w1.files, denied, srcs, args.outputDir, args.rustPath).0.value[i] == CopiedRoot(args);
    }
  }

  /** A successful fetch keeps the store its copy left. */
  lemma FetchOkFiles(v: Variant, args: Args, denied: set<Path>, tree: map<Path, seq<WalkItem>>, runner: Runner, w: World)
    ensures var (r, w') := FetchSpec(v, args, denied, tree, runner, w);
            var w1 := CheckoutSpec(denied, tree, runner, args.rustPath, w, Tag(v)).1;
            var c := CopyAll(w1.files, denied, RustFiles(WalkOf(tree, CorePath(args))), args.outputDir, args.rustPath);
            r.Ok? ==> c.0.Ok? && w'.files == c.1
  {
  }

  /** The copy of the crate root lands at `CopiedRoot`. */
  lemma RootDestination(args: Args)
    ensures Destination(Root(args), args.outputDir, args.rustPath) == CopiedRoot(args)
  {
    var rel := Rel(["library", "core", "src", "lib.rs"]);
    assert Root(args) == Join(args.rustPath, rel);
    StripJoin(args.rustPath, rel);
  }

  /** `rust_git(["checkout", rev])`. */
  method Checkout(fs: FileSystem, repo: Repository, runner: Runner, rustPath: Path, rev: string) returns (err: Option<Error>)
    modifies fs, repo
    ensures (err, World(fs.files, fs.cwd, repo.revision))
            == CheckoutSpec(fs.denied, fs.tree, runner, rustPath, World(old(fs.files), old(fs.cwd), old(repo.revision)), rev)
  {
    var oldDir := fs.GetCurrentDir();
    if oldDir.Err? {
      return Some(oldDir.error);
    }
    err := fs.SetCurrentDir(rustPath);
    if err.Some? {
      return;
    }
    var gitArgs := ["checkout", rev];
    var git := new Command("git");
    git.Args(gitArgs);
    assert git.Snapshot() == GitRun(gitArgs);
    var res := runner.status(git.Snapshot());
    if res.SpawnFailed? {
      return Some(Io(NotFound));
    }
    if res.success {
      repo.revision := rev;
    }
    err := fs.SetCurrentDir(oldDir.value);
    if err.Some? {
      return;
    }
    err := if res.success then None else Some(Misc(Git(JoinWith(" ", gitArgs))));
  }

  /** `fetch`. */
  method Fetch(v: Variant, args: Args, fs: FileSystem, repo: Repository, runner: Runner) returns (r: Result<seq<Path>>)
    modifies fs, repo
    ensures (r, World(fs.files, fs.cwd, repo.revision))
            == FetchSpec(v, args, fs.denied, fs.tree, runner, World(old(fs.files), old(fs.cwd), old(repo.revision)))
  {
    var rustPath := args.rustPath;
    var corePath := Join(rustPath, Rel(["library", "core"]));
    var err := Checkout(fs, repo, runner, rustPath, Tag(v));
    if err.Some? {
      return Err(err.value);
    }
    var copied := CopyRsFiles(fs, corePath, args.outputDir, rustPath);
    if copied.Err? {
      return Err(copied.error);
    }
    err := Checkout(fs, repo, runner, rustPath, "master");
    if err.Some? {
      return Err(err.value);
    }
    r := Ok([Join(Join(Join(args.outputDir, corePath), Rel(["src"])), Rel(["lib.rs"]))]);
  }
}
