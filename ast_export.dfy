/** The pass that checks gccrs's AST pretty-printer: the printed form of every gccrs test is
    expected to compile whenever the original does (src/passes/ast_export.rs). */
module AstExport {

  import opened Options
  import opened Paths
  import opened Errors
  import opened Fs
  import opened Config
  import opened Compilers
  import opened Passes
  import opened Process
  import opened FileCollector

  /** `Compile` is the sub-strategy src/passes/ast_export.rs defines. `Run` is named by the
      dispatcher in src/main.rs but not defined by this revision of ast_export.rs; its fetch is
      taken to be the shared one and its per-file outcome is an input (`Runner.astRun`). */
  datatype Variant = Compile | Run

  /** `gcc/testsuite/rust` inside the gccrs checkout. */
  function TestsPath(args: Args): Path {
    Join(args.gccrsPath, Rel(["gcc", "testsuite", "rust"]))
  }

  /** `ast-export` inside the output directory. */
  function OutDir(args: Args): Path {
    Join(args.outputDir, Rel(["ast-export"]))
  }

  /** The file gccrs writes its pretty-printed AST to, in the working directory. */
  const DumpFile: Path := Rel(["gccrs.ast-pretty.dump"])

  /** Where an entry's printed form goes: its copy's path with the extension `pretty-rs`. */
  function PrettyPath(outDir: Path, entry: Path): Path {
    WithExtension(Join(outDir, entry), "pretty-rs")
  }

  /** The gccrs run that dumps an entry's AST (the source treats `Kind::Crab1` as gccrs). */
  function DumpRun(args: Args, entry: Path): Invocation {
    Invocation(Display(args.gccrs), [GccrsDefaultFlag, Display(entry), "-frust-dump-ast-pretty"],
               map[], Some(Null), Some(Null))
  }

  /** The store after gccrs ran on an entry: the new dump if it wrote one, otherwise the
      previous dump, if any, is still there. */
  function AfterDump(files: map<Path, Content>, dumped: Option<Content>): map<Path, Content> {
    match dumped
    case None => files
    case Some(c) => files[DumpFile := c]
  }

  /** One entry of `fetch`, after gccrs could be started: make the printed form's directory if
      it is missing, copy the entry next to it, and copy the dump into it. The error or the
      printed form's path, and the store at that point. */
  function ExportEntry(outDir: Path, denied: set<Path>, tree: map<Path, seq<WalkItem>>, files: map<Path, Content>, entry: Path)
    : (r: (Result<Path>, map<Path, Content>))
    ensures files.Keys <= r.1.Keys
    ensures r.0.Ok? ==> r.0.value == PrettyPath(outDir, entry)
                        && Join(outDir, entry) in r.1 && PrettyPath(outDir, entry) in r.1
  {
    var original := Join(outDir, entry);
    var pretty := WithExtension(original, "pretty-rs");
    var dirErr := match Parent(pretty)
                  case None => None
                  case Some(d) => if Present(files, tree, d) then None else Access(denied, d);
    if dirErr.Some? then (Err(dirErr.value), files)
    else
      match Copy(files, denied, entry, original)
      case Err(e) => (Err(e), files)
      case Ok(files1) =>
        match Copy(files1, denied, DumpFile, pretty)
        case Err(e) => (Err(e), files1)
        case Ok(files2) => (Ok(pretty), files2)
  }

  /** One entry of `fetch`: run gccrs on it, then export. Only a gccrs that cannot be started
      aborts; its exit status is not looked at. */
  function ExportOne(args: Args, denied: set<Path>, tree: map<Path, seq<WalkItem>>, runner: Runner, files: map<Path, Content>, entry: Path)
    : (r: (Result<Path>, map<Path, Content>))
    ensures runner.status(DumpRun(args, entry)).SpawnFailed? ==> r == (Err(Io(NotFound)), files)
    ensures runner.status(DumpRun(args, entry)).Exited?
            ==> r == ExportEntry(OutDir(args), denied, tree, AfterDump(files, runner.dump(DumpRun(args, entry))), entry)
    ensures files.Keys <= r.1.Keys
    ensures r.0.Ok? ==> r.0.value == PrettyPath(OutDir(args), entry)
                        && Join(OutDir(args), entry) in r.1 && PrettyPath(OutDir(args), entry) in r.1
  {
    var run := DumpRun(args, entry);
    match runner.status(run)
    case SpawnFailed => (Err(Io(NotFound)), files)
    case Exited(_) => ExportEntry(OutDir(args), denied, tree, AfterDump(files, runner.dump(run)), entry)
  }

  /** Whether gccrs reports success or failure makes no difference to an entry's export. */
  lemma StatusIgnored(args: Args, denied: set<Path>, tree: map<Path, seq<WalkItem>>, r1: Runner, r2: Runner,
                      files: map<Path, Content>, entry: Path)
    requires r1.status(DumpRun(args, entry)).Exited? && r2.status(DumpRun(args, entry)).Exited?
    requires r1.dump(DumpRun(args, entry)) == r2.dump(DumpRun(args, entry))
    ensures ExportOne(args, denied, tree, r1, files, entry) == ExportOne(args, denied, tree, r2, files, entry)
  {
  }

  /** The dump file is shared by all entries: when gccrs writes none for an entry, its printed
      form is the previous entry's dump. */
  lemma StaleDump(args: Args, denied: set<Path>, tree: map<Path, seq<WalkItem>>, runner: Runner, files: map<Path, Content>, entry: Path)
    requires runner.status(DumpRun(args, entry)).Exited? && runner.dump(DumpRun(args, entry)).None?
    requires DumpFile in files && DumpFile != Join(OutDir(args), entry) && Extension(entry) == Some("rs")
    ensures var (r, files') := ExportOne(args, denied, tree, runner, files, entry);
            r.Ok? ==> files'[r.value] == files[DumpFile]
  {
    PrettyAwayFrom(OutDir(args), entry);
  }

  /** The printed form never overwrites the dump or the copy it sits beside. */
  lemma PrettyAwayFrom(outDir: Path, entry: Path)
    requires Extension(entry) == Some("rs")
    ensures PrettyPath(outDir, entry) != DumpFile && PrettyPath(outDir, entry) != Join(outDir, entry)
  {
    var original := Join(outDir, entry);
    JoinExtension(outDir, entry);
    WithExtensionOf(original, "pretty-rs");
    ExtensionShape(original);
    var pretty := PrettyPath(outDir, entry);
    var last := pretty.comps[|pretty.comps| - 1];
    assert last == FileStem(original).value + "." + "pretty-rs";
    assert last[|last| - 1] == 's';
    var dump := DumpFile.comps[0];
    assert dump[|dump| - 1] == 'p';
  }

  /** When the output directory does not re-root an entry (a gccrs checkout given by an
      absolute path makes `join` return the entry itself), the entry is copied onto itself,
      and a successful export leaves that test file empty. */
  lemma SelfCopyEmpties(outDir: Path, denied: set<Path>, tree: map<Path, seq<WalkItem>>, files: map<Path, Content>, entry: Path)
    requires Join(outDir, entry) == entry && Extension(entry) == Some("rs")
    ensures var (r, files') := ExportEntry(outDir, denied, tree, files, entry);
            r.Ok? ==> files'[entry] == Utf8("")
  {
    PrettyAwayFrom(outDir, entry);
  }

  /** `fetch` over the entries, one at a time in walk order, stopping at the first error. */
  function ExportAll(args: Args, denied: set<Path>, tree: map<Path, seq<WalkItem>>, runner: Runner, files: map<Path, Content>, entries: seq<Path>)
    : (r: (Result<seq<Path>>, map<Path, Content>))
    ensures files.Keys <= r.1.Keys
    ensures r.0.Ok? ==> |r.0.value| == |entries|
    decreases |entries|
  {
    if |entries| == 0 then (Ok([]), files)
    else
      match ExportOne(args, denied, tree, runner, files, entries[0])
      case (Err(e), files1) => (Err(e), files1)
      case (Ok(p), files1) =>
        var (rest, files2) := ExportAll(args, denied, tree, runner, files1, entries[1..]);
        (if rest.Ok? then Ok([p] + rest.value) else Err(rest.error), files2)
  }

  /** `ExportAll` takes one step: the first entry, then the rest. */
  lemma ExportAllUnfold(args: Args, denied: set<Path>, tree: map<Path, seq<WalkItem>>, runner: Runner,
                        files: map<Path, Content>, entries: seq<Path>)
    requires |entries| > 0
    ensures var (one, files1) := ExportOne(args, denied, tree, runner, files, entries[0]);
            && (one.Err? ==> ExportAll(args, denied, tree, runner, files, entries) == (Err(one.error), files1))
            && (one.Ok? ==> ExportAll(args, denied, tree, runner, files, entries)
                            == After([one.value], ExportAll(args, denied, tree, runner, files1, entries[1..])))
  {
    var (one, files1) := ExportOne(args, denied, tree, runner, files, entries[0]);
    if one.Ok? {
      var (rest, files2) := ExportAll(args, denied, tree, runner, files1, entries[1..]);
      assert ExportAll(args, denied, tree, runner, files, entries)
          == (if rest.Ok? then Ok([one.value] + rest.value) else Err(rest.error), files2);
    }
  }

  /** A successful fetch returns the printed forms in walk order, and both each printed form
      and the copy of its original are stored when it finishes. */
  lemma {:induction false} ExportAllShape(args: Args, denied: set<Path>, tree: map<Path, seq<WalkItem>>, runner: Runner,
                                          files: map<Path, Content>, entries: seq<Path>)
    ensures var (r, files') := ExportAll(args, denied, tree, runner, files, entries);
            && files.Keys <= files'.Keys
            && (r.Ok? ==> (|r.value| == |entries|
                           && forall i :: 0 <= i < |entries| ==>
                                r.value[i] == PrettyPath(OutDir(args), entries[i])
                                && r.value[i] in files' && Join(OutDir(args), entries[i]) in files'))
    decreases |entries|
  {
    if |entries| > 0 {
      var (one, files1) := ExportOne(args, denied, tree, runner, files, entries[0]);
      if one.Ok? {
        ExportAllShape(args, denied, tree, runner, files1, entries[1..]);
        var (rest, files2) := ExportAll(args, denied, tree, runner, files1, entries[1..]);
        if rest.Ok? {
          var r := [one.value] + rest.value;
          forall i | 0 <= i < |entries|
            ensures r[i] == PrettyPath(OutDir(args), entries[i])
                    && r[i] in files2 && Join(OutDir(args), entries[i]) in files2
          {
            if i > 0 {
              assert r[i] == rest.value[i - 1] && entries[i] == entries[1..][i - 1];
            }
          }
        }
      }
    }
  }

  /** `get_original_file_from_pretty`: the path with the extension `rs` (set twice, as the
      source does); an original that does not exist stops the program (`assert!`). */
  function OriginalFromPretty(files: map<Path, Content>, tree: map<Path, seq<WalkItem>>, pretty: Path): (r: Result<Path>)
    ensures r.Ok? <==> Present(files, tree, WithExtension(WithExtension(pretty, "rs"), "rs"))
    ensures r.Ok? ==> r.value == WithExtension(WithExtension(pretty, "rs"), "rs")
    ensures r.Err? ==> r.error == Panic
  {
    var original := WithExtension(WithExtension(pretty, "rs"), "rs");
    if Present(files, tree, original) then Ok(original) else Err(Panic)
  }

  /** Mapping an entry's printed form back gives the path of its copy. */
  lemma PrettyBack(outDir: Path, e: Path)
    requires Extension(e) == Some("rs")
    ensures WithExtension(WithExtension(PrettyPath(outDir, e), "rs"), "rs") == Join(outDir, e)
  {
    var original := Join(outDir, e);
    JoinExtension(outDir, e);
    PrettyRoundTrip(original);
    WithSameExtension(original, "rs");
  }

  /** Mapping a fetched printed form back gives the copy of its original, which a successful
      fetch has stored, so the existence check passes for every fetched file. */
  lemma PrettyMapsBack(args: Args, denied: set<Path>, tree: map<Path, seq<WalkItem>>, runner: Runner,
                        files: map<Path, Content>, entries: seq<Path>, i: nat)
    requires forall k :: 0 <= k < |entries| ==> Extension(entries[k]) == Some("rs")
    requires ExportAll(args, denied, tree, runner, files, entries).0.Ok? && i < |entries|
    ensures var (r, files') := ExportAll(args, denied, tree, runner, files, entries);
            i < |r.value| && OriginalFromPretty(files', tree, r.value[i]) == Ok(Join(OutDir(args), entries[i]))
  {
    ExportAllShape(args, denied, tree, runner, files, entries);
    PrettyBack(OutDir(args), entries[i]);
  }

  /** The gccrs run that decides whether the original compiles. */
  function CompileRun(args: Args, original: Path): Invocation {
    Invocation(Display(args.gccrs), [GccrsDefaultFlag, Display(original)], map[], Some(Null), Some(Null))
  }

  /** The case for a printed form whose original compiles. */
  function Case(args: Args, original: Path, pretty: Path): TestCase {
    Test("Compile prettified `" + Display(original) + "`", Display(args.gccrs), 0, DefaultTimeout, "", "",
         [GccrsDefaultFlag, Display(pretty)])
  }

  /** The decision of `adapt_compilation` once the original is known: the printed form of an
      original gccrs compiles is expected to compile too; one whose original does not compile
      is skipped. */
  function CompileDecision(args: Args, runner: Runner, original: Path, pretty: Path): (r: Result<TestCase>)
    ensures r.Ok? <==> runner.status(CompileRun(args, original)).Exited?
    ensures r == Ok(Skip) <==> runner.status(CompileRun(args, original)) == Exited(false)
    ensures r.Ok? && r.value.Test? ==> r.value == Case(args, original, pretty)
  {
    match StatusOf(runner, CompileRun(args, original))
    case Err(e) => Err(e)
    case Ok(valid) => Ok(if valid then Case(args, original, pretty) else Skip)
  }

  /** `adapt_compilation`: fails when the original is missing, then decides. */
  function CompileOutcome(args: Args, files: map<Path, Content>, tree: map<Path, seq<WalkItem>>, runner: Runner, pretty: Path)
    : (r: Result<TestCase>)
    ensures OriginalFromPretty(files, tree, pretty).Err? ==> r == Err(Panic)
    ensures OriginalFromPretty(files, tree, pretty).Ok? ==>
              r == CompileDecision(args, runner, OriginalFromPretty(files, tree, pretty).value, pretty)
  {
    match OriginalFromPretty(files, tree, pretty)
    case Err(e) => Err(e)
    case Ok(original) => CompileDecision(args, runner, original, pretty)
  }

  /** A non-skipped case runs gccrs on the printed form with its required flag and expects
      success. */
  lemma CaseShape(args: Args, original: Path, pretty: Path)
    ensures var t := Case(args, original, pretty);
            t.Test? && t.exitCode == 0 && t.binary == Display(args.gccrs) && t.args == DefaultArgs(Rust1) + [Display(pretty)]
  {
  }

  /** `adapt` of each sub-strategy. */
  function Outcome(v: Variant, args: Args, files: map<Path, Content>, tree: map<Path, seq<WalkItem>>, runner: Runner, pretty: Path)
    : (r: Result<TestCase>)
    ensures v == Compile ==> r == CompileOutcome(args, files, tree, runner, pretty)
    ensures v == Run ==> r == runner.astRun(pretty)
  {
    match v
    case Compile => CompileOutcome(args, files, tree, runner, pretty)
    case Run => runner.astRun(pretty)
  }

  /** `get_original_file_from_pretty`. */
  method GetOriginalFileFromPretty(fs: FileSystem, pretty: Path) returns (r: Result<Path>)
    ensures r == OriginalFromPretty(fs.files, fs.tree, pretty)
  {
    var original := WithExtension(pretty, "rs");
    original := WithExtension(original, "rs");
    if !fs.Exists(original) {
      return Err(Panic);
    }
    r := Ok(original);
  }

  /** The compiler run and case assembly of `adapt_compilation`. */
  method Decide(args: Args, runner: Runner, original: Path, pretty: Path) returns (r: Result<TestCase>)
    ensures r == CompileDecision(args, runner, original, pretty)
  {
    var check := new Compiler(Rust1, args);
    var cmd := check.Command();
    cmd.Arg(Display(original));
    assert cmd.Snapshot() == CompileRun(args, original);
    var status := RunStatus(runner, cmd);
    if status.Err? {
      return Err(status.error);
    }
    if status.value {
      var compiler := new Compiler(Rust1, args);
      var t := FromCompiler(compiler);
      t := WithName(t, "Compile prettified `" + Display(original) + "`");
      t := WithExitCode(t, 0);
      t := WithArg(t, Display(pretty));
      assert t.args == [GccrsDefaultFlag, Display(pretty)];
      r := Ok(t);
    } else {
      r := Ok(Skip);
    }
  }

  /** `adapt_compilation`. */
  method AdaptCompilation(args: Args, fs: FileSystem, runner: Runner, pretty: Path) returns (r: Result<TestCase>)
    ensures r == CompileOutcome(args, fs.files, fs.tree, runner, pretty)
  {
    var found := GetOriginalFileFromPretty(fs, pretty);
    if found.Err? {
      return Err(found.error);
    }
    r := Decide(args, runner, found.value, pretty);
  }

  /** One iteration of `fetch`'s loop. */
  method FetchEntry(args: Args, fs: FileSystem, runner: Runner, entry: Path) returns (r: Result<Path>)
    modifies fs
    ensures (r, fs.files) == ExportOne(args, fs.denied, fs.tree, runner, old(fs.files), entry)
    ensures fs.cwd == old(fs.cwd)
  {
    var outDir := Join(args.outputDir, Rel(["ast-export"]));
    var newPathOriginal := Join(outDir, entry);
    var newPath := WithExtension(Join(outDir, entry), "pretty-rs");
    var gccrs := new Compiler(Rust1, args);
    var cmd := gccrs.Command();
    cmd.Arg(Display(entry));
    cmd.Arg("-frust-dump-ast-pretty");
    assert cmd.Snapshot() == DumpRun(args, entry);
    var status := RunStatus(runner, cmd);
    if status.Err? {
      return Err(status.error);
    }
    var dumped := runner.dump(cmd.Snapshot());
    if dumped.Some? {
      fs.files := fs.files[DumpFile := dumped.value];
    }
    var parent := Parent(newPath);
    if parent.Some? && !fs.Exists(parent.value) {
      var err := fs.CreateDirAll(parent.value);
      if err.Some? {
        return Err(err.value);
      }
    }
    var err := fs.CopyFile(entry, newPathOriginal);
    if err.Some? {
      return Err(err.value);
    }
    err := fs.CopyFile(DumpFile, newPath);
    if err.Some? {
      return Err(err.value);
    }
    r := Ok(newPath);
  }

  /** `fetch`: for each test in walk order, dump its AST with gccrs, copy it and its printed
      form under `ast-export`; the printed forms are returned. */
  method Fetch(args: Args, fs: FileSystem, runner: Runner) returns (r: Result<seq<Path>>)
    modifies fs
    ensures (r, fs.files) == ExportAll(args, fs.denied, fs.tree, runner, old(fs.files), RustFiles(fs.Walk(TestsPath(args))))
    ensures fs.cwd == old(fs.cwd)
  {
    var entries := RustFiles(fs.Walk(TestsPath(args)));
    ghost var all := ExportAll(args, fs.denied, fs.tree, runner, fs.files, entries);
    var done: seq<Path> := [];
    var i := 0;
    assert entries[0..] == entries;
    assert all.0.Ok? ==> [] + all.0.value == all.0.value;
    while i < |entries|
      invariant 0 <= i <= |entries|
      invariant all == After(done, ExportAll(args, fs.denied, fs.tree, runner, fs.files, entries[i..]))
      invariant fs.cwd == old(fs.cwd)
    {
      assert entries[i..][0] == entries[i] && entries[i..][1..] == entries[i + 1..];
      ExportAllUnfold(args, fs.denied, fs.tree, runner, fs.files, entries[i..]);
      var one := FetchEntry(args, fs, runner, entries[i]);
      if one.Err? {
        return Err(one.error);
      }
      AfterAfter(done, one.value, ExportAll(args, fs.denied, fs.tree, runner, fs.files, entries[i + 1..]));
      done := done + [one.value];
      i := i + 1;
    }
    assert entries[i..] == [];
    assert done + [] == done;
    r := Ok(done);
  }
}
