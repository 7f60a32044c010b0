/** The pass that compiles the Blake3 reference implementation with gccrs and with rustc,
    each behind its own prelude (src/passes/blake3.rs). */
module Blake3 {

  import opened Options
  import opened Strings
  import opened Paths
  import opened Errors
  import opened Fs
  import opened Config
  import opened Compilers
  import opened Passes

  /** The text of the Blake3 reference implementation the source embeds; its contents are not
      part of this model. */
  const Template: string

  datatype Variant = GccrsOriginal | GccrsPrelude | RustcNoStd | RustcNoCore

  /** `Blake3::variants()`, in declaration order. */
  function Variants(): (r: seq<Variant>)
    ensures |r| == 4 && r[0] == GccrsOriginal && r[1] == GccrsPrelude && r[2] == RustcNoStd && r[3] == RustcNoCore
  {
    [GccrsOriginal, GccrsPrelude, RustcNoStd, RustcNoCore]
  }

  /** No variant is missing from `Variants()`. */
  lemma VariantsComplete(v: Variant)
    ensures v in Variants()
  {
    match v {
      case GccrsOriginal => assert Variants()[0] == v;
      case GccrsPrelude => assert Variants()[1] == v;
      case RustcNoStd => assert Variants()[2] == v;
      case RustcNoCore => assert Variants()[3] == v;
    }
  }

  /** `suffix`: the tag naming the variant's file and test. */
  function Suffix(v: Variant): (r: string)
    // the file name `blake3-{suffix}.rs` keeps `rs` as its extension
    ensures |r| > 0 && '.' !in r
  {
    match v
    case GccrsOriginal => "original"
    case GccrsPrelude => "gccrs-prelude"
    case RustcNoStd => "rustc-no-std"
    case RustcNoCore => "rustc-no-core"
  }

  /** The suffixes tell the variants apart. */
  lemma SuffixesDistinct(a: Variant, b: Variant)
    ensures Suffix(a) == Suffix(b) ==> a == b
  {
  }

  /** The file of a variant: `blake3-{suffix}.rs` in the output directory. */
  function FileFor(v: Variant, args: Args): Path {
    Join(args.outputDir, Rel(["blake3-" + Suffix(v) + ".rs"]))
  }

  /** `fetch`: exactly the variant's own file, which `adapt` then creates. */
  function Fetch(v: Variant, args: Args): (r: Result<seq<Path>>)
    ensures r.Ok? && |r.value| == 1
    ensures IsUnder(r.value[0], args.outputDir) && Extension(r.value[0]) == Some("rs")
  {
    var file := FileFor(v, args);
    assert file.comps[..|args.outputDir.comps|] == args.outputDir.comps;
    var name := "blake3-" + Suffix(v) + ".rs";
    LastIndexOfAppend("blake3-" + Suffix(v), '.', "rs");
    assert name == ("blake3-" + Suffix(v)) + ['.'] + "rs";
    assert name[|"blake3-" + Suffix(v)| + 1..] == "rs";
    Ok([file])
  }

  /** Different variants fetch, and so write, different files. */
  lemma {:induction false} FilesDistinct(a: Variant, b: Variant, args: Args)
    ensures Fetch(a, args).value[0] == Fetch(b, args).value[0] ==> a == b
  {
    assert Fetch(a, args).value[0] == FileFor(a, args) && Fetch(b, args).value[0] == FileFor(b, args);
    var na, nb := "blake3-" + Suffix(a) + ".rs", "blake3-" + Suffix(b) + ".rs";
    var n := |args.outputDir.comps|;
    assert FileFor(a, args).comps[n] == na && FileFor(b, args).comps[n] == nb;
    assert na[7..|na| - 3] == Suffix(a);
    assert nb[7..|nb| - 3] == Suffix(b);
    SuffixesDistinct(a, b);
  }

  /** The text put before the template. */
  function Prelude(v: Variant): (r: string)
    ensures r == "" <==> v == GccrsOriginal
    ensures v == RustcNoStd || v == RustcNoCore ==> StartsWith(r, "#![")
  {
    match v
    case GccrsOriginal => ""
    case RustcNoStd => "#![no_std]\n"
    case GccrsPrelude => "lang_item prelude!"
    case RustcNoCore =>
      var rest := "feature(no_core)]\n#![no_core]\n + lang_item prelude!";
      assert ("#![" + rest)[..3] == "#![";
      "#![" + rest
  }

  /** The `Gccrs*` variants compile with gccrs, the `Rustc*` ones with rustc. */
  function KindOf(v: Variant): Kind {
    match v
    case GccrsOriginal => Rust1
    case GccrsPrelude => Rust1
    case RustcNoStd => RustcBootstrap
    case RustcNoCore => RustcBootstrap
  }

  /** The case of a variant: its compiler, asked for a library crate, on the file. */
  function Case(v: Variant, args: Args, file: Path): TestCase {
    Test("Compile Blake3 reference implementation (" + Suffix(v) + ")",
         Display(ProgramPath(KindOf(v), args)), 0, DefaultTimeout, "", "",
         CrateTypeArgs(KindOf(v), Library) + DefaultArgs(KindOf(v)) + [Display(file)])
  }

  /** The test runs gccrs with its required flag, or rustc asked for a library crate, on the
      file, expecting success within the default limit. */
  lemma CaseShape(v: Variant, args: Args, file: Path)
    ensures var t := Case(v, args, file);
            && t.Test? && t.exitCode == 0 && t.timeout == 15
            && (KindOf(v) == Rust1 ==> t.binary == Display(args.gccrs) && t.args == [GccrsDefaultFlag, Display(file)])
            && (KindOf(v) == RustcBootstrap ==> t.binary == Display(args.rustc) && t.args == ["--crate-type", "lib", Display(file)])
  {
  }

  /** What `adapt` gives, and the store afterwards: the file now holds the prelude followed by
      the template. */
  function Outcome(v: Variant, args: Args, files: map<Path, Content>, denied: set<Path>, file: Path)
    : (r: (Result<TestCase>, map<Path, Content>))
    ensures r.0.Ok? <==> file !in denied
    ensures r.0.Ok? ==> r.0.value == Case(v, args, file) && r.1 == files[file := Utf8(Prelude(v) + Template)]
    ensures r.0.Err? ==> r.1 == files
  {
    match Access(denied, file)
    case Some(e) => (Err(e), files)
    case None => (Ok(Case(v, args, file)), files[file := Utf8(Prelude(v) + Template)])
  }

  /** The test half of `adapt`: a compiler of the variant's kind asked for a library crate,
      finalized, with the file appended. */
  method Build(v: Variant, args: Args, file: Path) returns (t: TestCase)
    ensures t == Case(v, args, file)
  {
    var compiler: Compiler;
    if v == GccrsOriginal || v == GccrsPrelude {
      compiler := new Compiler(Rust1, args);
    } else {
      compiler := new Compiler(RustcBootstrap, args);
    }
    assert compiler.kind == KindOf(v);
    compiler.CrateType(Library);
    t := FromCompiler(compiler);
    t := WithArg(t, Display(file));
    t := WithName(t, "Compile Blake3 reference implementation (" + Suffix(v) + ")");
    t := WithExitCode(t, 0);
  }

  /** `adapt`: overwrite the file with the variant's prelude and the template, then build the
      test. */
  method Adapt(v: Variant, args: Args, fs: FileSystem, file: Path) returns (r: Result<TestCase>)
    modifies fs
    ensures (r, fs.files) == Outcome(v, args, old(fs.files), fs.denied, file)
    ensures fs.cwd == old(fs.cwd)
  {
    var prelude: string;
    match v {
      case GccrsOriginal => prelude := "";
      case RustcNoStd => prelude := "#![no_std]\n";
      case GccrsPrelude => prelude := "lang_item prelude!";
      case RustcNoCore => prelude := "#![" + "feature(no_core)]\n#![no_core]\n + lang_item prelude!";
    }
    assert prelude == Prelude(v);
    var err := fs.Write(file, prelude + Template);
    match err {
      case Some(e) => return Err(e);
      case None =>
    }
    var t := Build(v, args, file);
    r := Ok(t);
  }
}
