/** The generator's entry point (src/main.rs): expanding a pass name into pass instances,
    fetching and adapting each instance's files, and writing the test-suite file. */
module Driver {

  import opened Options
  import opened Strings
  import opened Paths
  import opened Errors
  import opened Fs
  import opened Config
  import opened Passes
  import opened Process
  import opened FileCollector
  import Steps
  import GP = GccrsParsing
  import RD = RustcDejagnu
  import GS = GccrsRustcSuccesses
  import B3 = Blake3
  import LC = LibCore
  import AE = AstExport

  /** One pass instance (`Box<dyn Pass>`) with its sub-strategy. */
  datatype Pass =
    | Parsing
    | Dejagnu
    | Successes(successes: GS.Variant)
    | Blake(blake: B3.Variant)
    | Core(core: LC.Variant)
    | Ast(ast: AE.Variant)

  /** The pass name an instance belongs to. */
  function KindOf(p: Pass): PassKind {
    match p
    case Parsing => GccrsParsing
    case Dejagnu => RustcDejagnu
    case Successes(v) =>
      if v.Full? then GccrsRustcSucess else if v.NoStd? then GccrsRustcSucessNoStd else GccrsRustcSucessNoCore
    case Blake(_) => PassKind.Blake3
    case Core(_) => PassKind.LibCore
    case Ast(_) => PassKind.AstExport
  }

  /** `pass_dispatch`. */
  function PassDispatch(k: PassKind): (r: seq<Pass>)
    ensures |r| > 0 && forall i :: 0 <= i < |r| ==> KindOf(r[i]) == k
  {
    match k
    case GccrsParsing => [Parsing]
    case RustcDejagnu => [Dejagnu]
    case GccrsRustcSucess => [Successes(GS.Full)]
    case GccrsRustcSucessNoStd => [Successes(GS.NoStd)]
    case GccrsRustcSucessNoCore => [Successes(GS.NoCore)]
    case Blake3 => seq(|B3.Variants()|, i requires 0 <= i < |B3.Variants()| => Blake(B3.Variants()[i]))
    case LibCore =>
      seq(|Steps.Variants()|, i requires 0 <= i < |Steps.Variants()| => Core(LC.V149(Steps.Variants()[i])))
      + seq(|Steps.Variants()|, i requires 0 <= i < |Steps.Variants()| => Core(LC.V129(Steps.Variants()[i])))
    case AstExport => [Ast(AE.Compile), Ast(AE.Run)]
  }

  /** Every pass name expands to instances of that pass only: one for each single-strategy
      pass, the four Blake3 variants in order, 1.49 then 1.29 of libcore each with the three
      steps in order, and the two AST-export strategies. */
  lemma DispatchShape(k: PassKind)
    ensures var r := PassDispatch(k);
            && |r| > 0
            && (forall i :: 0 <= i < |r| ==> KindOf(r[i]) == k)
            && (k.Blake3? ==> |r| == 4 && forall i :: 0 <= i < 4 ==> r[i] == Blake(B3.Variants()[i]))
            && (k.LibCore? ==> |r| == 6 && forall i :: 0 <= i < 3 ==>
                  r[i] == Core(LC.V149(Steps.Variants()[i])) && r[i + 3] == Core(LC.V129(Steps.Variants()[i])))
            && (k.AstExport? ==> r == [Ast(AE.Compile), Ast(AE.Run)])
            && (!k.Blake3? && !k.LibCore? && !k.AstExport? ==> |r| == 1)
  {
    var r := PassDispatch(k);
    if k.LibCore? {
      assert forall i :: 0 <= i < 3 ==> r[i + 3] == Core(LC.V129(Steps.Variants()[i]));
    }
  }

  /** No instance is dispatched twice. */
  lemma DispatchDistinct(k: PassKind, i: nat, j: nat)
    requires i < j < |PassDispatch(k)|
    ensures PassDispatch(k)[i] != PassDispatch(k)[j]
  {
    DispatchShape(k);
    var vs := Steps.Variants();
    if k.LibCore? && j < 3 {
      assert PassDispatch(k)[i] == Core(LC.V149(vs[i])) && PassDispatch(k)[j] == Core(LC.V149(vs[j]));
    } else if k.LibCore? && 3 <= i {
      assert PassDispatch(k)[i] == Core(LC.V129(vs[i - 3])) && PassDispatch(k)[j] == Core(LC.V129(vs[j - 3]));
    }
  }

  /** The store after a pass that copies files. */
  function Copied(w: LC.World, c: (Result<seq<Path>>, map<Path, Content>)): (Result<seq<Path>>, LC.World) {
    (c.0, w.(files := c.1))
  }

  /** `fetch` of each instance; only libcore's moves the working directory or the checkout. */
  function FetchSpec(p: Pass, args: Args, denied: set<Path>, tree: map<Path, seq<WalkItem>>, runner: Runner, w: LC.World)
    : (r: (Result<seq<Path>>, LC.World))
    ensures !p.Core? ==> r.1.cwd == w.cwd && r.1.revision == w.revision
  {
    match p
    case Parsing =>
      Copied(w, CopyAll(w.files, denied, RustFiles(WalkOf(tree, GP.TestsPath(args))), args.outputDir, args.rustPath))
    case Dejagnu =>
      Copied(w, CopyAll(w.files, denied, RustFiles(WalkOf(tree, RD.TestsPath(args))), args.outputDir, args.gccrsPath))
    case Successes(v) =>
      Copied(w, CopyAll(w.files, denied, RustFiles(WalkOf(tree, GS.UiTests(args))), GS.OutDir(v, args), args.rustPath))
    case Blake(v) => (B3.Fetch(v, args), w)
    case Core(v) => LC.FetchSpec(v, args, denied, tree, runner, w)
    case Ast(_) =>
      var (r, files) := AE.ExportAll(args, denied, tree, runner, w.files, RustFiles(WalkOf(tree, AE.TestsPath(args))));
      (r, w.(files := files))
  }

  /** The instances whose `adapt` writes to the store. */
  predicate Rewrites(p: Pass) {
    p.Successes? || p.Blake?
  }

  /** `adapt` of each instance, and the store afterwards. */
  function AdaptSpec(p: Pass, args: Args, denied: set<Path>, tree: map<Path, seq<WalkItem>>, runner: Runner,
                     files: map<Path, Content>, file: Path)
    : (r: (Result<TestCase>, map<Path, Content>))
    ensures !Rewrites(p) ==> r.1 == files
  {
    match p
    case Parsing => (GP.Outcome(args, runner, file), files)
    case Dejagnu => (RD.Outcome(args, files, denied, file), files)
    case Successes(v) => GS.Outcome(v, args, files, denied, runner, file)
    case Blake(v) => B3.Outcome(v, args, files, denied, file)
    case Core(v) => (Ok(LC.Case(v, args, file)), files)
    case Ast(v) => (AE.Outcome(v, args, files, tree, runner, file), files)
  }

  /** The `adapt` of an instance as a function of the store and the file. */
  type Adapter = (map<Path, Content>, Path) -> (Result<TestCase>, map<Path, Content>)

  function AdapterOf(p: Pass, args: Args, denied: set<Path>, tree: map<Path, seq<WalkItem>>, runner: Runner): Adapter {
    (files, file) => AdaptSpec(p, args, denied, tree, runner, files, file)
  }

  /** The text found so far put in front of the outcome of the remaining files. */
  function Prefixed(acc: string, r: (Result<string>, map<Path, Content>)): (Result<string>, map<Path, Content>) {
    (if r.0.Ok? then Ok(acc + r.0.value) else r.0, r.1)
  }

  /** `apply_pass`: every file adapted in order, stopping at the first error; the rendered
      cases one after the other. */
  function ApplyAll(adapt: Adapter, files: map<Path, Content>, paths: seq<Path>): (r: (Result<string>, map<Path, Content>))
    ensures KeepsStore(adapt) ==> r.1 == files
    // the run stops at the first file whose `adapt` fails
    ensures |paths| > 0 && r.0.Ok? ==> adapt(files, paths[0]).0.Ok?
    decreases |paths|
  {
    if |paths| == 0 then (Ok(""), files)
    else
      var (one, files1) := adapt(files, paths[0]);
      if one.Err? then (Err(one.error), files1)
      else Prefixed(Render(one.value), ApplyAll(adapt, files1, paths[1..]))
  }

  /** The suite of a run of files is the suite of its first part followed by that of the
      rest, adapted against the store the first part left; an error in the first part ends
      the suite there. */
  lemma {:induction false} ApplyAllAppend(adapt: Adapter, files: map<Path, Content>, a: seq<Path>, b: seq<Path>)
    ensures var (ra, fa) := ApplyAll(adapt, files, a);
            && (ra.Ok? ==> ApplyAll(adapt, files, a + b) == Prefixed(ra.value, ApplyAll(adapt, fa, b)))
            && (ra.Err? ==> ApplyAll(adapt, files, a + b) == (ra, fa))
    decreases |a|
  {
    if |a| == 0 {
      assert a + b == b;
      var r := ApplyAll(adapt, files, b);
      if r.0.Ok? {
        assert "" + r.0.value == r.0.value;
      }
    } else {
      assert (a + b)[0] == a[0] && (a + b)[1..] == a[1..] + b;
      ApplyAllUnfold(adapt, files, a);
      ApplyAllUnfold(adapt, files, a + b);
      var (one, files1) := adapt(files, a[0]);
      if one.Ok? {
        ApplyAllAppend(adapt, files1, a[1..], b);
        var ra := ApplyAll(adapt, files1, a[1..]);
        if ra.0.Ok? {
          PrefixedPrefixed(Render(one.value), ra.0.value, ApplyAll(adapt, ra.1, b));
        }
      }
    }
  }

  /** The rendered cases one after the other. */
  function RenderAll(cases: seq<TestCase>): string {
    if |cases| == 0 then "" else Render(cases[0]) + RenderAll(cases[1..])
  }

  /** The tests among some cases, in order. */
  function TestsOnly(cases: seq<TestCase>): (r: seq<TestCase>)
    ensures forall t :: t in r <==> t in cases && t.Test?
  {
    if |cases| == 0 then []
    else
      assert forall t :: t in cases <==> t == cases[0] || t in cases[1..];
      (if cases[0].Test? then [cases[0]] else []) + TestsOnly(cases[1..])
  }

  /** A `Skip` contributes nothing to a suite. */
  lemma {:induction false} SkipsRenderNothing(cases: seq<TestCase>)
    ensures RenderAll(cases) == RenderAll(TestsOnly(cases))
  {
    if |cases| > 0 {
      SkipsRenderNothing(cases[1..]);
      var rest := TestsOnly(cases[1..]);
      if cases[0].Test? {
        assert ([cases[0]] + rest)[1..] == rest;
      } else {
        assert [] + rest == rest;
      }
    }
  }

  /** An `adapt` that leaves the store as it is. */
  ghost predicate KeepsStore(adapt: Adapter) {
    forall files, file :: adapt(files, file).1 == files
  }

  /** Only the instances that rewrite files change the store in `adapt`. */
  lemma KeepsStoreOf(p: Pass, args: Args, denied: set<Path>, tree: map<Path, seq<WalkItem>>, runner: Runner)
    ensures !Rewrites(p) ==> KeepsStore(AdapterOf(p, args, denied, tree, runner))
  {
  }

  /** The cases of files adapted independently of one another. */
  function Cases(adapt: Adapter, files: map<Path, Content>, paths: seq<Path>): seq<TestCase>
    requires forall i :: 0 <= i < |paths| ==> adapt(files, paths[i]).0.Ok?
  {
    seq(|paths|, i requires 0 <= i < |paths| => adapt(files, paths[i]).0.value)
  }

  /** For an `adapt` that does not write to the store, `apply_pass` succeeds exactly when
      every file's `adapt` does, and then gives the rendered cases in file order. */
  lemma {:induction false} ApplyAllCases(adapt: Adapter, files: map<Path, Content>, paths: seq<Path>)
    requires KeepsStore(adapt)
    ensures var r := ApplyAll(adapt, files, paths);
            && r.1 == files
            && (r.0.Ok? <==> forall i :: 0 <= i < |paths| ==> adapt(files, paths[i]).0.Ok?)
            && (r.0.Ok? ==> r.0.value == RenderAll(Cases(adapt, files, paths)))
    decreases |paths|
  {
    if |paths| > 0 {
      var (one, files1) := adapt(files, paths[0]);
      assert files1 == files;
      ApplyAllCases(adapt, files, paths[1..]);
      assert forall i :: 1 <= i < |paths| ==> paths[1..][i - 1] == paths[i];
      if one.Ok? {
        assert ApplyAll(adapt, files, paths) == Prefixed(Render(one.value), ApplyAll(adapt, files, paths[1..]));
        if forall i :: 0 <= i < |paths| ==> adapt(files, paths[i]).0.Ok? {
          var cs := Cases(adapt, files, paths);
          assert cs[0] == one.value;
          assert Cases(adapt, files, paths[1..]) == cs[1..];
        }
      }
    }
  }

  /** One instance of `main`'s loop: fetch its files, then build its suite. */
  function RunOne(p: Pass, args: Args, denied: set<Path>, tree: map<Path, seq<WalkItem>>, runner: Runner, w: LC.World)
    : (Result<string>, LC.World)
  {
    var (fetched, w1) := FetchSpec(p, args, denied, tree, runner, w);
    if fetched.Err? then (Err(fetched.error), w1)
    else
      var (suite, files2) := ApplyAll(AdapterOf(p, args, denied, tree, runner), w1.files, fetched.value);
      (suite, w1.(files := files2))
  }

  /** The suites found so far put in front of the outcome of the remaining instances. */
  function SuitesAfter(done: seq<string>, r: (Result<seq<string>>, LC.World)): (Result<seq<string>>, LC.World) {
    (if r.0.Ok? then Ok(done + r.0.value) else r.0, r.1)
  }

  /** The suites of the instances in dispatch order, stopping at the first failure. */
  function RunPasses(passes: seq<Pass>, args: Args, denied: set<Path>, tree: map<Path, seq<WalkItem>>, runner: Runner, w: LC.World)
    : (r: (Result<seq<string>>, LC.World))
    decreases |passes|
  {
    if |passes| == 0 then (Ok([]), w)
    else
      var (suite, w1) := RunOne(passes[0], args, denied, tree, runner, w);
      if suite.Err? then (Err(suite.error), w1)
      else SuitesAfter([suite.value], RunPasses(passes[1..], args, denied, tree, runner, w1))
  }

  /** Success gives one suite per instance: the i-th is the suite the i-th instance builds
      from the state the instances before it leave, and each of those runs succeeded. */
  lemma {:induction false} RunPassesShape(passes: seq<Pass>, args: Args, denied: set<Path>, tree: map<Path, seq<WalkItem>>,
                                          runner: Runner, w: LC.World)
    ensures var (r, _) := RunPasses(passes, args, denied, tree, runner, w);
            r.Ok? ==> && |r.value| == |passes|
                      && forall i :: 0 <= i < |passes| ==>
                           var before := RunPasses(passes[..i], args, denied, tree, runner, w);
                           && before.0.Ok?
                           && RunOne(passes[i], args, denied, tree, runner, before.1).0 == Ok(r.value[i])
    decreases |passes|
  {
    if |passes| > 0 {
      var (suite, w1) := RunOne(passes[0], args, denied, tree, runner, w);
      if suite.Ok? {
        var rest := RunPasses(passes[1..], args, denied, tree, runner, w1);
        RunPassesShape(passes[1..], args, denied, tree, runner, w1);
        if rest.0.Ok? {
          var r := RunPasses(passes, args, denied, tree, runner, w).0;
          assert r == Ok([suite.value] + rest.0.value);
          forall i | 0 <= i < |passes|
            ensures var before := RunPasses(passes[..i], args, denied, tree, runner, w);
                    before.0.Ok? && RunOne(passes[i], args, denied, tree, runner, before.1).0 == Ok(r.value[i])
          {
            if i == 0 {
              assert passes[..0] == [];
            } else {
              assert passes[..i][0] == passes[0] && passes[..i][1..] == passes[1..][..i - 1];
              assert passes[i] == passes[1..][i - 1];
              assert r.value[i] == rest.0.value[i - 1];
            }
          }
        }
      }
    }
  }

  /** The first line of the test-suite file. */
  const Header: string := "tests:\n"

  /** The store names files relative to the directory `main` starts in. A relative path opened
      once the working directory has moved from `start` to `cwd` names the file under `cwd`. */
  function Resolve(start: Path, cwd: Path, p: Path): (r: Path)
    ensures cwd == start ==> r == p
    ensures p.absolute ==> r == p
  {
    if cwd == start then p else Join(cwd, p)
  }

  /** A relative path opened from a moved working directory lies under that directory. */
  lemma ResolvedUnder(start: Path, cwd: Path, p: Path)
    requires cwd != start && !p.absolute
    ensures IsUnder(Resolve(start, cwd, p), cwd) && StripPrefix(Resolve(start, cwd, p), cwd) == Some(p)
  {
    StripJoin(cwd, p);
    JoinIsUnder(cwd, p);
  }

  /** `main` after argument parsing: make the output directory if it is missing, check that
      both checkouts exist, build every suite, then write the header and the suites; the
      error, if any, and the state at the end. */
  function MainSpec(args: Args, kind: PassKind, denied: set<Path>, tree: map<Path, seq<WalkItem>>, runner: Runner, w: LC.World)
    : (r: (Option<Error>, LC.World))
    ensures r.0.None? ==> && Present(w.files, tree, args.rustPath) && Present(w.files, tree, args.gccrsPath)
                          && RunPasses(PassDispatch(kind), args, denied, tree, runner, w).0.Ok?
    ensures r.0.None? && !Present(w.files, tree, args.outputDir) ==> args.outputDir !in denied
  {
    var created := if Present(w.files, tree, args.outputDir) then None else MakeDir(w.files, denied, tree, args.outputDir);
    if created.Some? then (created, w)
    else if !Present(w.files, tree, args.rustPath) then (Some(NoRust(args.rustPath)), w)
    else if !Present(w.files, tree, args.gccrsPath) then (Some(NoGccrs(args.gccrsPath)), w)
    else
      var (suites, w1) := RunPasses(PassDispatch(kind), args, denied, tree, runner, w);
      var yaml := Resolve(w.cwd, w1.cwd, args.yaml);
      // a failed `assert!` unwinds out of `main` before the file is opened
      if suites.Err? && suites.error == Panic then (Some(Panic), w1)
      else
      match Access(denied, yaml)
      case Some(e) => (Some(e), w1)
      case None =>
        if suites.Err? then (Some(suites.error), w1.(files := w1.files[yaml := Utf8(Header)]))
        else (None, w1.(files := w1.files[yaml := Utf8(Header + Concat(suites.value))]))
  }

  /** A missing rust checkout is reported before a missing gccrs checkout, and either before
      any pass has run: nothing has changed. */
  lemma CheckoutsCheckedFirst(args: Args, kind: PassKind, denied: set<Path>, tree: map<Path, seq<WalkItem>>, runner: Runner, w: LC.World)
    requires Present(w.files, tree, args.outputDir) || MakeDir(w.files, denied, tree, args.outputDir).None?
    ensures !Present(w.files, tree, args.rustPath)
            ==> MainSpec(args, kind, denied, tree, runner, w) == (Some(NoRust(args.rustPath)), w)
    ensures Present(w.files, tree, args.rustPath) && !Present(w.files, tree, args.gccrsPath)
            ==> MainSpec(args, kind, denied, tree, runner, w) == (Some(NoGccrs(args.gccrsPath)), w)
  {
  }

  /** Once the checks pass and the file can be opened, the test-suite file is the header
      followed by every suite in dispatch order; when an instance fails it holds the header
      alone and that failure is reported, except for a panic, which leaves the file alone. */
  lemma SuiteFileWritten(args: Args, kind: PassKind, denied: set<Path>, tree: map<Path, seq<WalkItem>>, runner: Runner, w: LC.World)
    requires Present(w.files, tree, args.outputDir) || MakeDir(w.files, denied, tree, args.outputDir).None?
    requires Present(w.files, tree, args.rustPath) && Present(w.files, tree, args.gccrsPath)
    requires Resolve(w.cwd, RunPasses(PassDispatch(kind), args, denied, tree, runner, w).1.cwd, args.yaml) !in denied
    ensures var (err, w') := MainSpec(args, kind, denied, tree, runner, w);
            var (suites, w1) := RunPasses(PassDispatch(kind), args, denied, tree, runner, w);
            var yaml := Resolve(w.cwd, w1.cwd, args.yaml);
            && (err.None? <==> suites.Ok?)
            && (suites.Err? ==> err == Some(suites.error))
            && (suites == Err(Panic) ==> w' == w1)
            && (suites != Err(Panic) ==> yaml in w'.files && w'.files[yaml].Utf8?
                                         && StartsWith(w'.files[yaml].text, Header))
            && (suites.Ok? ==> w'.files[yaml].text == Header + Concat(suites.value)
                               && |suites.value| == |PassDispatch(kind)|)
            && (suites.Err? && suites.error != Panic ==> w'.files[yaml].text == Header)
  {
    RunPassesShape(PassDispatch(kind), args, denied, tree, runner, w);
    var (suites, _) := RunPasses(PassDispatch(kind), args, denied, tree, runner, w);
    if suites.Ok? {
      assert (Header + Concat(suites.value))[..|Header|] == Header;
    } else {
      assert Header[..|Header|] == Header;
    }
  }

  /** When git cannot be started for libcore's first checkout, the `?` returns from inside the
      rust checkout: the run fails with that error, and the header is written to the
      test-suite file's relative path taken from the rust checkout. */
  lemma StrandedSuiteFile(args: Args, denied: set<Path>, tree: map<Path, seq<WalkItem>>, runner: Runner, w: LC.World)
    requires Present(w.files, tree, args.outputDir) || MakeDir(w.files, denied, tree, args.outputDir).None?
    requires Present(w.files, tree, args.rustPath) && Present(w.files, tree, args.gccrsPath)
    requires ChangeDir(denied, tree, args.rustPath).None? && runner.status(LC.GitRun(["checkout", "1.49.0"])) == SpawnFailed
    requires w.cwd !in denied && w.cwd != args.rustPath && !args.yaml.absolute && Join(args.rustPath, args.yaml) !in denied
    ensures var (err, w') := MainSpec(args, PassKind.LibCore, denied, tree, runner, w);
            && err == Some(Io(NotFound)) && w'.cwd == args.rustPath
            && w'.files == w.files[Join(args.rustPath, args.yaml) := Utf8(Header)]
  {
    var passes := PassDispatch(PassKind.LibCore);
    DispatchShape(PassKind.LibCore);
    var first := passes[0];
    assert first == Core(LC.V149(Steps.Variants()[0]));
    assert LC.Tag(first.core) == "1.49.0";
    var c := LC.CheckoutSpec(denied, tree, runner, args.rustPath, w, "1.49.0");
    assert c.0.Some? && c.1 == w.(cwd := args.rustPath);
    assert RunOne(first, args, denied, tree, runner, w) == (Err(Io(NotFound)), w.(cwd := args.rustPath));
  }

  /** `pass.fetch(&args)` through the trait object. */
  method FetchPass(p: Pass, args: Args, fs: FileSystem, repo: LC.Repository, runner: Runner) returns (r: Result<seq<Path>>)
    modifies fs, repo
    ensures (r, LC.World(fs.files, fs.cwd, repo.revision))
            == FetchSpec(p, args, fs.denied, fs.tree, runner, LC.World(old(fs.files), old(fs.cwd), old(repo.revision)))
  {
    match p {
      case Parsing => r := GP.Fetch(args, fs);
      case Dejagnu => r := RD.Fetch(args, fs);
      case Successes(v) => r := GS.Fetch(v, args, fs);
      case Blake(v) => r := B3.Fetch(v, args);
      case Core(v) => r := LC.Fetch(v, args, fs, repo, runner);
      case Ast(_) => r := AE.Fetch(args, fs, runner);
    }
  }

  /** `pass.adapt(&args, file)` through the trait object. */
  method AdaptPass(p: Pass, args: Args, fs: FileSystem, runner: Runner, file: Path) returns (r: Result<TestCase>)
    modifies fs
    ensures (r, fs.files) == AdaptSpec(p, args, fs.denied, fs.tree, runner, old(fs.files), file)
    ensures fs.cwd == old(fs.cwd)
  {
    match p {
      case Parsing => r := GP.Adapt(args, runner, file);
      case Dejagnu => r := RD.Adapt(args, fs, file);
      case Successes(v) => r := GS.Adapt(v, args, fs, runner, file);
      case Blake(v) => r := B3.Adapt(v, args, fs, file);
      case Core(v) => r := LC.Adapt(v, args, file);
      case Ast(v) =>
        if v.Compile? {
          r := AE.AdaptCompilation(args, fs, runner, file);
        } else {
          r := runner.astRun(file);
        }
    }
  }

  /** `ApplyAll` takes one step: the first file, then the rest. */
  lemma ApplyAllUnfold(adapt: Adapter, files: map<Path, Content>, paths: seq<Path>)
    requires |paths| > 0
    ensures var (one, files1) := adapt(files, paths[0]);
            && (one.Err? ==> ApplyAll(adapt, files, paths) == (Err(one.error), files1))
            && (one.Ok? ==> ApplyAll(adapt, files, paths) == Prefixed(Render(one.value), ApplyAll(adapt, files1, paths[1..])))
  {
  }

  lemma PrefixedPrefixed(acc: string, s: string, x: (Result<string>, map<Path, Content>))
    ensures Prefixed(acc, Prefixed(s, x)) == Prefixed(acc + s, x)
  {
    if x.0.Ok? {
      assert acc + (s + x.0.value) == (acc + s) + x.0.value;
    }
  }

  /** `apply_pass`. */
  method ApplyPass(p: Pass, args: Args, fs: FileSystem, runner: Runner, paths: seq<Path>) returns (r: Result<string>)
    modifies fs
    ensures (r, fs.files) == ApplyAll(AdapterOf(p, args, fs.denied, fs.tree, runner), old(fs.files), paths)
    ensures fs.cwd == old(fs.cwd)
  {
    ghost var adapt := AdapterOf(p, args, fs.denied, fs.tree, runner);
    ghost var all := ApplyAll(adapt, fs.files, paths);
    var acc := "";
    assert paths[0..] == paths;
    assert all.0.Ok? ==> "" + all.0.value == all.0.value;
    for i := 0 to |paths|
      invariant all == Prefixed(acc, ApplyAll(adapt, fs.files, paths[i..]))
      invariant fs.cwd == old(fs.cwd)
    {
      assert paths[i..][0] == paths[i] && paths[i..][1..] == paths[i + 1..];
      ApplyAllUnfold(adapt, fs.files, paths[i..]);
      var one := AdaptPass(p, args, fs, runner, paths[i]);
      if one.Err? {
        return Err(one.error);
      }
      var text := Fmt(one.value);
      PrefixedPrefixed(acc, text, ApplyAll(adapt, fs.files, paths[i + 1..]));
      acc := acc + text;
    }
    assert paths[|paths|..] == [];
    assert acc + "" == acc;
    r := Ok(acc);
  }

  /** One instance of `main`'s loop. */
  method RunPass(p: Pass, args: Args, fs: FileSystem, repo: LC.Repository, runner: Runner) returns (r: Result<string>)
    modifies fs, repo
    ensures (r, LC.World(fs.files, fs.cwd, repo.revision))
            == RunOne(p, args, fs.denied, fs.tree, runner, LC.World(old(fs.files), old(fs.cwd), old(repo.revision)))
  {
    var files := FetchPass(p, args, fs, repo, runner);
    if files.Err? {
      return Err(files.error);
    }
    r := ApplyPass(p, args, fs, runner, files.value);
  }

  lemma SuitesAfterAfter(done: seq<string>, s: string, x: (Result<seq<string>>, LC.World))
    ensures SuitesAfter(done, SuitesAfter([s], x)) == SuitesAfter(done + [s], x)
  {
    if x.0.Ok? {
      assert done + ([s] + x.0.value) == (done + [s]) + x.0.value;
    }
  }

  /** The suites of `main`, collected in dispatch order. */
  method RunAll(passes: seq<Pass>, args: Args, fs: FileSystem, repo: LC.Repository, runner: Runner) returns (r: Result<seq<string>>)
    modifies fs, repo
    ensures (r, LC.World(fs.files, fs.cwd, repo.revision))
            == RunPasses(passes, args, fs.denied, fs.tree, runner, LC.World(old(fs.files), old(fs.cwd), old(repo.revision)))
  {
    ghost var all := RunPasses(passes, args, fs.denied, fs.tree, runner, LC.World(fs.files, fs.cwd, repo.revision));
    var done: seq<string> := [];
    assert passes[0..] == passes;
    assert all.0.Ok? ==> [] + all.0.value == all.0.value;
    for i := 0 to |passes|
      invariant all == SuitesAfter(done, RunPasses(passes[i..], args, fs.denied, fs.tree, runner, LC.World(fs.files, fs.cwd, repo.revision)))
    {
      assert passes[i..][0] == passes[i] && passes[i..][1..] == passes[i + 1..];
      var suite := RunPass(passes[i], args, fs, repo, runner);
      if suite.Err? {
        return Err(suite.error);
      }
      SuitesAfterAfter(done, suite.value, RunPasses(passes[i + 1..], args, fs.denied, fs.tree, runner, LC.World(fs.files, fs.cwd, repo.revision)));
      done := done + [suite.value];
    }
    assert passes[|passes|..] == [];
    assert done + [] == done;
    r := Ok(done);
  }

  /** The end of `main`: open the test-suite file, write the header, then fail with the
      passes' error or write every suite. */
  method WriteSuites(fs: FileSystem, yaml: Path, suites: Result<seq<string>>) returns (err: Option<Error>)
    modifies fs
    ensures err == match Access(fs.denied, yaml)
                   case Some(e) => Some(e)
                   case None => if suites.Err? then Some(suites.error) else None
    ensures fs.files == match Access(fs.denied, yaml)
                        case Some(_) => old(fs.files)
                        case None => old(fs.files)[yaml := Utf8(Header + (if suites.Ok? then Concat(suites.value) else ""))]
    ensures fs.cwd == old(fs.cwd)
  {
    ghost var before := fs.files;
    err := fs.Write(yaml, Header);
    if err.Some? {
      return;
    }
    if suites.Err? {
      assert Header + "" == Header;
      return Some(suites.error);
    }
    var text := Header;
    for j := 0 to |suites.value|
      invariant text == Header + Concat(suites.value[..j])
      invariant fs.files == before[yaml := Utf8(Header)] && fs.cwd == old(fs.cwd)
    {
      ConcatAppend(suites.value[..j], [suites.value[j]]);
      assert suites.value[..j + 1] == suites.value[..j] + [suites.value[j]];
      text := text + suites.value[j];
    }
    assert suites.value[..|suites.value|] == suites.value;
    err := fs.Write(yaml, text);
    assert fs.files == before[yaml := Utf8(Header + Concat(suites.value))];
  }

  /** `main`, after the arguments are parsed. */
  method Run(args: Args, kind: PassKind, fs: FileSystem, repo: LC.Repository, runner: Runner) returns (err: Option<Error>)
    modifies fs, repo
    ensures (err, LC.World(fs.files, fs.cwd, repo.revision))
            == MainSpec(args, kind, fs.denied, fs.tree, runner, LC.World(old(fs.files), old(fs.cwd), old(repo.revision)))
  {
    var start := fs.cwd;
    if !fs.Exists(args.outputDir) {
      err := fs.CreateDir(args.outputDir);
      if err.Some? {
        return;
      }
    }
    if !fs.Exists(args.rustPath) {
      return Some(NoRust(args.rustPath));
    }
    if !fs.Exists(args.gccrsPath) {
      return Some(NoGccrs(args.gccrsPath));
    }
    var passes := PassDispatch(kind);
    var suites := RunAll(passes, args, fs, repo, runner);
    if suites.Err? && suites.error == Panic {
      return Some(Panic);
    }
    err := WriteSuites(fs, Resolve(start, fs.cwd, args.yaml), suites);
    assert Header + "" == Header;
  }
}
