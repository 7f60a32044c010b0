/** The older rustc test-suite adaptor's entry point (rustc-testsuite-adaptor/src/main.rs):
    copy rustc's UI tests under the output directory and write one test per copy. */
module AdaptorMain {

  import opened Options
  import opened Strings
  import opened Paths
  import opened Errors
  import opened Fs
  import opened FileCollector
  import opened Adaptor

  /** The adaptor's command line, less the pass list, which `main` does not read. */
  datatype Args = Args(outputDir: Path, yaml: Path, rustc: Path, compiler: Path)

  /** `src/test/ui` inside the rustc checkout. */
  function UiTests(rustc: Path): Path {
    Join(rustc, Rel(["src", "test", "ui"]))
  }

  /** The sources `fetch_test_cases` maps over. */
  function Sources(tree: map<Path, seq<WalkItem>>, rustc: Path): seq<Path> {
    RustFiles(WalkOf(tree, UiTests(rustc)))
  }

  /** The five lines the fold writes for one copied test; there is no exit code line. */
  function BlockLines(p: Path, compiler: Path): seq<string> {
    [ "  - name: Compile " + Display(p),
      "    binary: " + Display(compiler),
      "    timeout: 5",
      "    args:",
      "      - \"" + Display(p) + "\"" ]
  }

  /** The text the fold adds for one copied test. */
  function Block(p: Path, compiler: Path): string {
    Unlines(BlockLines(p, compiler))
  }

  /** The text the fold has added after the given copies, in order. */
  function Body(paths: seq<Path>, compiler: Path): string
    decreases |paths|
  {
    if |paths| == 0 then "" else Body(paths[..|paths| - 1], compiler) + Block(paths[|paths| - 1], compiler)
  }

  /** Every block's lines, one block after the other. */
  function AllLines(paths: seq<Path>, compiler: Path): (r: seq<string>)
    ensures |r| == 5 * |paths|
    decreases |paths|
  {
    if |paths| == 0 then [] else AllLines(paths[..|paths| - 1], compiler) + BlockLines(paths[|paths| - 1], compiler)
  }

  lemma {:induction false} BodyUnlines(paths: seq<Path>, compiler: Path)
    ensures Body(paths, compiler) == Unlines(AllLines(paths, compiler))
    decreases |paths|
  {
    if |paths| > 0 {
      var n := |paths| - 1;
      BodyUnlines(paths[..n], compiler);
      UnlinesConcat(AllLines(paths[..n], compiler), BlockLines(paths[n], compiler));
    }
  }

  lemma {:induction false} AllLinesAt(paths: seq<Path>, compiler: Path, i: nat, k: nat)
    requires i < |paths| && k < 5
    ensures AllLines(paths, compiler)[5 * i + k] == BlockLines(paths[i], compiler)[k]
    decreases |paths|
  {
    var n := |paths| - 1;
    if i < n {
      assert paths[..n][i] == paths[i];
      AllLinesAt(paths[..n], compiler, i, k);
    }
  }

  /** The first line of the test-suite file. */
  const Header: string := "tests:\n"

  /** No line of the blocks holds a line break when no path's display does. */
  lemma {:induction false} AllLinesSingle(paths: seq<Path>, compiler: Path)
    requires '\n' !in Display(compiler)
    requires forall i :: 0 <= i < |paths| ==> '\n' !in Display(paths[i])
    ensures forall j :: 0 <= j < |AllLines(paths, compiler)| ==> '\n' !in AllLines(paths, compiler)[j]
    decreases |paths|
  {
    if |paths| > 0 {
      var n := |paths| - 1;
      assert forall i :: 0 <= i < n ==> paths[..n][i] == paths[i];
      AllLinesSingle(paths[..n], compiler);
      var b := BlockLines(paths[n], compiler);
      assert forall k :: 0 <= k < 5 ==> '\n' !in b[k];
    }
  }

  /** The file's text splits into `tests:` followed by every block's lines. */
  lemma YamlSplit(paths: seq<Path>, compiler: Path)
    requires '\n' !in Display(compiler)
    requires forall i :: 0 <= i < |paths| ==> '\n' !in Display(paths[i])
    ensures SplitLines(Header + Body(paths, compiler)) == ["tests:"] + AllLines(paths, compiler)
  {
    var lines := AllLines(paths, compiler);
    var all := ["tests:"] + lines;
    BodyUnlines(paths, compiler);
    AllLinesSingle(paths, compiler);
    assert all[1..] == lines;
    assert Unlines(all) == "tests:" + "\n" + Unlines(lines);
    assert Header == "tests:" + "\n";
    assert Header + Body(paths, compiler) == Unlines(all);
    assert forall j :: 1 <= j < |all| ==> all[j] == lines[j - 1];
    SplitUnlines(all);
  }

  /** The file the adaptor writes for the given copies: `tests:` and then, for each copy in
      order, exactly five lines naming it, the compiler, the 5-second timeout, `args:` and the
      copy's quoted path. */
  lemma YamlLines(paths: seq<Path>, compiler: Path)
    requires '\n' !in Display(compiler)
    requires forall i :: 0 <= i < |paths| ==> '\n' !in Display(paths[i])
    ensures var ls := SplitLines(Header + Body(paths, compiler));
            && |ls| == 1 + 5 * |paths| && ls[0] == "tests:"
            && forall i :: 0 <= i < |paths| ==>
                 ls[1 + 5 * i] == "  - name: Compile " + Display(paths[i])
                 && ls[2 + 5 * i] == "    binary: " + Display(compiler)
                 && ls[3 + 5 * i] == "    timeout: 5"
                 && ls[4 + 5 * i] == "    args:"
                 && ls[5 + 5 * i] == "      - \"" + Display(paths[i]) + "\""
  {
    YamlSplit(paths, compiler);
    var lines := AllLines(paths, compiler);
    forall i | 0 <= i < |paths|
      ensures lines[5 * i] == "  - name: Compile " + Display(paths[i])
      ensures lines[1 + 5 * i] == "    binary: " + Display(compiler)
      ensures lines[2 + 5 * i] == "    timeout: 5"
      ensures lines[3 + 5 * i] == "    args:"
      ensures lines[4 + 5 * i] == "      - \"" + Display(paths[i]) + "\""
    {
      AllLinesAt(paths, compiler, i, 0);
      AllLinesAt(paths, compiler, i, 1);
      AllLinesAt(paths, compiler, i, 2);
      AllLinesAt(paths, compiler, i, 3);
      AllLinesAt(paths, compiler, i, 4);
    }
  }

  /** `main` after argument parsing: make the output directory if it is missing, check for the
      rustc checkout, copy its UI tests lazily while folding them into the file's text, and
      write the file only when every copy succeeded. The error, if any, and the store. */
  function MainSpec(args: Args, denied: set<Path>, tree: map<Path, seq<WalkItem>>, files: map<Path, Content>)
    : (r: (Option<Error>, map<Path, Content>))
    ensures files.Keys <= r.1.Keys
    ensures r.0.None? ==> && Present(files, tree, args.rustc)
                          && args.yaml in r.1 && r.1[args.yaml].Utf8? && StartsWith(r.1[args.yaml].text, Header)
  {
    var created := if Present(files, tree, args.outputDir) then None else MakeDir(files, denied, tree, args.outputDir);
    if created.Some? then (created, files)
    else if !Present(files, tree, args.rustc) then (Some(NoRustc(args.rustc)), files)
    else
      var (copied, files1) := CopyAll(files, denied, Sources(tree, args.rustc), args.outputDir, args.rustc);
      if copied.Err? then (Some(copied.error), files1)
      else
        match Access(denied, args.yaml)
        case Some(e) => (Some(e), files1)
        case None =>
          assert (Header + Body(copied.value, args.compiler))[..|Header|] == Header;
          (None, files1[args.yaml := Utf8(Header + Body(copied.value, args.compiler))])
  }

  /** A missing checkout is reported before anything is copied; a failed copy ends the run
      with only the copies before it made and no test-suite file written; otherwise the file
      holds one block per UI test, in walk order, each naming the test's copy under the
      output directory. */
  lemma MainOutcome(args: Args, denied: set<Path>, tree: map<Path, seq<WalkItem>>, files: map<Path, Content>)
    requires Present(files, tree, args.outputDir) || MakeDir(files, denied, tree, args.outputDir).None?
    requires forall i :: 0 <= i < |Sources(tree, args.rustc)| ==> Sources(tree, args.rustc)[i] in files
    ensures !Present(files, tree, args.rustc) ==> MainSpec(args, denied, tree, files) == (Some(NoRustc(args.rustc)), files)
    ensures var (copied, files1) := CopyAll(files, denied, Sources(tree, args.rustc), args.outputDir, args.rustc);
            var (err, files') := MainSpec(args, denied, tree, files);
            Present(files, tree, args.rustc) ==>
              && (copied.Err? ==> err == Some(copied.error) && files' == files1)
              && (copied.Ok? <==> forall i :: 0 <= i < |Sources(tree, args.rustc)| ==>
                                    Copyable(denied, Sources(tree, args.rustc)[i], args.outputDir, args.rustc))
              && (copied.Ok? && args.yaml !in denied ==>
                    err.None? && files'[args.yaml] == Utf8(Header + Body(copied.value, args.compiler))
                    && |copied.value| == |Sources(tree, args.rustc)|
                    && forall i :: 0 <= i < |copied.value| ==>
                         copied.value[i] == Destination(Sources(tree, args.rustc)[i], args.outputDir, args.rustc))
  {
    CopyAllShape(files, denied, Sources(tree, args.rustc), args.outputDir, args.rustc);
    CopyAllOk(files, denied, Sources(tree, args.rustc), args.outputDir, args.rustc);
  }

  /** One step of the fold: the text so far followed by the next copy's block. */
  lemma FoldStep(yml: string, paths: seq<Path>, p: Path, compiler: Path)
    requires yml == Header + Body(paths, compiler)
    ensures yml + Block(p, compiler) == Header + Body(paths + [p], compiler)
  {
    assert (paths + [p])[..|paths|] == paths;
  }

  /** The lazy copy stream of `fetch_test_cases`, adapted and folded into the file's text: each
      source is copied when the fold pulls it, and the first failure stops the fold. */
  method CopyAndFold(args: Args, fs: FileSystem, srcs: seq<Path>) returns (r: Result<seq<Path>>, yml: string)
    modifies fs
    ensures (r, fs.files) == CopyAll(old(fs.files), fs.denied, srcs, args.outputDir, args.rustc)
    ensures r.Ok? ==> yml == Header + Body(r.value, args.compiler)
    ensures fs.cwd == old(fs.cwd)
  {
    ghost var all := CopyAll(fs.files, fs.denied, srcs, args.outputDir, args.rustc);
    var stream := new Stream(srcs);
    var adapted := new FileAdaptor(stream);
    yml := Header;
    var done: seq<Path> := [];
    assert srcs[0..] == srcs;
    assert all.0.Ok? ==> [] + all.0.value == all.0.value;
    while true
      invariant stream.Valid() && adapted.inner == stream && stream.items == srcs
      invariant all == After(done, CopyAll(fs.files, fs.denied, srcs[stream.pos..], args.outputDir, args.rustc))
      invariant yml == Header + Body(done, args.compiler)
      invariant fs.cwd == old(fs.cwd)
      decreases |srcs| - stream.pos
    {
      ghost var i := stream.pos;
      var item := adapted.Next();
      if item.None? {
        break;
      }
      assert srcs[i..][0] == srcs[i] && srcs[i..][1..] == srcs[i + 1..];
      CopyAllUnfold(fs.files, fs.denied, srcs[i..], args.outputDir, args.rustc);
      var one := CopyEntry(fs, item.value, args.outputDir, args.rustc);
      if one.Err? {
        return Err(one.error), yml;
      }
      AfterAfter(done, one.value, CopyAll(fs.files, fs.denied, srcs[i + 1..], args.outputDir, args.rustc));
      FoldStep(yml, done, one.value, args.compiler);
      yml := yml + Block(one.value, args.compiler);
      done := done + [one.value];
    }
    assert srcs[stream.pos..] == [];
    assert done + [] == done;
    r := Ok(done);
  }

  /** `main`, after the arguments are parsed. */
  method Run(args: Args, fs: FileSystem) returns (err: Option<Error>)
    modifies fs
    ensures (err, fs.files) == MainSpec(args, fs.denied, fs.tree, old(fs.files))
  {
    if !fs.Exists(args.outputDir) {
      err := fs.CreateDir(args.outputDir);
      if err.Some? {
        return;
      }
    }
    if !fs.Exists(args.rustc) {
      return Some(NoRustc(args.rustc));
    }
    var copied, yml := CopyAndFold(args, fs, RustFiles(fs.Walk(UiTests(args.rustc))));
    if copied.Err? {
      return Some(copied.error);
    }
    err := fs.Write(args.yaml, yml);
  }
}
