/** The generated test case and its rendering into the runner's YAML-like format
    (src/passes.rs), and the names of the passes. */
module Passes {

  import opened Strings
  import opened Compilers

  /** Rust's `u8` (exit codes) and `i32` (timeouts). */
  newtype uint8 = x: int | 0 <= x < 0x100
  newtype int32 = x: int | -0x8000_0000 <= x < 0x8000_0000

  /** One test for the runner, or no test at all for this file. */
  datatype TestCase =
    | Test(
        name: string,
        binary: string,
        exitCode: uint8,
        timeout: int32,
        stderr: string,
        stdout: string,
        args: seq<string>)
    | Skip

  /** The runner's timeout when a pass does not choose one. */
  const DefaultTimeout: int32 := 15

  /** `TestCase::default()`. */
  function Default(): (r: TestCase)
    ensures r.Test? && r.name == "" && r.binary == "" && r.stdout == "" && r.stderr == "" && r.args == []
    ensures r.exitCode == 0 && r.timeout == DefaultTimeout
  {
    Test("", "", 0, DefaultTimeout, "", "", [])
  }

  /** The default case is a test with every text empty, no arguments, exit code 0 and the
      default timeout; it renders as a block of exactly seven lines. */
  lemma DefaultIsBlank()
    ensures Default().Test? && Default().name == "" && Default().binary == ""
    ensures Default().stdout == "" && Default().stderr == "" && Default().args == []
    ensures Default().exitCode == 0 && Default().timeout == 15
    ensures SplitLines(Render(Default())) == [
      "  - name: ", "    binary: ", "    timeout: 15", "    exit_code: 0",
      "    stdout: \"\"", "    stderr: \"\"", "    args:"]
  {
    assert NatToString(15) == "15" && NatToString(0) == "0";
    assert IntToString(Default().timeout as int) == "15";
    assert NatToString(Default().exitCode as nat) == "0";
    var h := HeaderLines(Default());
    assert "  - name: " + "" == "  - name: " && "    binary: " + "" == "    binary: ";
    assert "    stdout: \"" + "" + "\"" == "    stdout: \"\"";
    assert "    stderr: \"" + "" + "\"" == "    stderr: \"\"";
    assert h[0] == "  - name: ";
    assert h[1] == "    binary: ";
    assert h[2] == "    timeout: 15";
    assert h[3] == "    exit_code: 0";
    assert h[4] == "    stdout: \"\"";
    assert h[5] == "    stderr: \"\"";
    assert h[6] == "    args:";
    assert h == [
      "  - name: ", "    binary: ", "    timeout: 15", "    exit_code: 0",
      "    stdout: \"\"", "    stderr: \"\"", "    args:"];
    assert Lines(Default()) == HeaderLines(Default()) + ArgLines([]);
    RenderedLines(Default());
  }

  // Each builder sets one field of a test and leaves a `Skip` alone.

  function WithExitCode(t: TestCase, exitCode: uint8): (r: TestCase)
    ensures t.Skip? ==> r == Skip
    ensures t.Test? ==> r == t.(exitCode := exitCode)
  {
    match t
    case Skip => Skip
    case Test(n, b, _, to, e, o, a) => Test(n, b, exitCode, to, e, o, a)
  }

  function WithTimeout(t: TestCase, timeout: int32): (r: TestCase)
    ensures t.Skip? ==> r == Skip
    ensures t.Test? ==> r == t.(timeout := timeout)
  {
    match t
    case Skip => Skip
    case Test(n, b, c, _, e, o, a) => Test(n, b, c, timeout, e, o, a)
  }

  function WithName(t: TestCase, name: string): (r: TestCase)
    ensures t.Skip? ==> r == Skip
    ensures t.Test? ==> r == t.(name := name)
  {
    match t
    case Skip => Skip
    case Test(_, b, c, to, e, o, a) => Test(name, b, c, to, e, o, a)
  }

  function WithBinary(t: TestCase, binary: string): (r: TestCase)
    ensures t.Skip? ==> r == Skip
    ensures t.Test? ==> r == t.(binary := binary)
  {
    match t
    case Skip => Skip
    case Test(n, _, c, to, e, o, a) => Test(n, binary, c, to, e, o, a)
  }

  /** `with_stderr`, which gccrs_full_rustc.rs calls; the passes.rs modelled here does not
      declare it, so it is given the shape of its siblings. */
  function WithStderr(t: TestCase, stderr: string): (r: TestCase)
    ensures t.Skip? ==> r == Skip
    ensures t.Test? ==> r == t.(stderr := stderr)
  {
    match t
    case Skip => Skip
    case Test(n, b, c, to, _, o, a) => Test(n, b, c, to, stderr, o, a)
  }

  /** `with_arg`: one more argument, at the end. */
  function WithArg(t: TestCase, arg: string): (r: TestCase)
    ensures t.Skip? ==> r == Skip
    ensures t.Test? ==> r == t.(args := t.args + [arg])
  {
    match t
    case Skip => Skip
    case Test(n, b, c, to, e, o, a) => Test(n, b, c, to, e, o, a + [arg])
  }

  /** `with_args`: a left fold of `with_arg` over `xs`. */
  function WithArgs(t: TestCase, xs: seq<string>): (r: TestCase)
    decreases |xs|
    ensures t.Skip? ==> r == Skip
    ensures t.Test? ==> r == t.(args := t.args + xs)
  {
    if |xs| == 0 then t
    else
      var r := WithArgs(WithArg(t, xs[0]), xs[1..]);
      assert t.Test? ==> t.args + [xs[0]] + xs[1..] == t.args + xs;
      r
  }

  /** `TestCase::from_compiler`: finalizes the compiler and records its program and its
      arguments (the kind's defaults included); its environment is not recorded. */
  method FromCompiler(compiler: Compiler) returns (t: TestCase)
    requires !compiler.finalized
    modifies compiler, compiler.cmd
    ensures t == Test("", compiler.cmd.program, 0, DefaultTimeout, "", "",
                      old(compiler.cmd.args) + DefaultArgs(compiler.kind))
    ensures compiler.cmd.args == old(compiler.cmd.args) + DefaultArgs(compiler.kind)
    ensures compiler.finalized
  {
    var cmd := compiler.Command();
    t := WithArgs(WithBinary(Default(), cmd.program), cmd.args);
  }

  function ArgLine(arg: string): string {
    "      - \"" + arg + "\""
  }

  function ArgLines(args: seq<string>): (r: seq<string>)
    ensures |r| == |args|
    ensures forall i :: 0 <= i < |args| ==> r[i] == ArgLine(args[i])
  {
    if |args| == 0 then [] else [ArgLine(args[0])] + ArgLines(args[1..])
  }

  /** The seven fixed lines `Display` writes for a test, without their newlines. */
  function HeaderLines(t: TestCase): seq<string>
    requires t.Test?
  {
    [ "  - name: " + t.name,
      "    binary: " + t.binary,
      "    timeout: " + IntToString(t.timeout as int),
      "    exit_code: " + NatToString(t.exitCode as nat),
      "    stdout: \"" + t.stdout + "\"",
      "    stderr: \"" + t.stderr + "\"",
      "    args:" ]
  }

  /** The lines `Display` writes for a case, without their newlines. */
  function Lines(t: TestCase): (r: seq<string>)
    ensures t.Skip? ==> r == []
    ensures t.Test? ==> |r| == 7 + |t.args|
  {
    match t
    case Skip => []
    case Test(_, _, _, _, _, _, args) => HeaderLines(t) + ArgLines(args)
  }

  /** What `format!("{}", t)` yields. */
  function Render(t: TestCase): (r: string)
    ensures t.Skip? ==> r == ""
    ensures t.Test? ==> StartsWith(r, "  - name: " + t.name + "\n")
  {
    var ls := Lines(t);
    if t.Skip? then Unlines(ls)
    else
      var first := "  - name: " + t.name;
      assert ls[0] == first;
      assert Unlines(ls) == first + "\n" + Unlines(ls[1..]);
      assert (first + "\n" + Unlines(ls[1..]))[..|first + "\n"|] == first + "\n";
      Unlines(ls)
  }

  /** `writeln!(f, "{line}")`, with the lines written so far kept alongside. */
  method WriteLine(out: string, ghost written: seq<string>, line: string)
    returns (out': string, ghost written': seq<string>)
    requires out == Unlines(written)
    ensures out' == out + line + "\n" && written' == written + [line]
    ensures out' == Unlines(written')
  {
    out' := out + line + "\n";
    written' := written + [line];
    UnlinesSnoc(written, line);
  }

  /** The first seven `writeln!` calls of `Display for TestCase`. */
  method WriteHeader(t: TestCase) returns (out: string)
    requires t.Test?
    ensures out == Unlines(HeaderLines(t))
  {
    ghost var written: seq<string> := [];
    out := "";
    out, written := WriteLine(out, written, "  - name: " + t.name);
    out, written := WriteLine(out, written, "    binary: " + t.binary);
    out, written := WriteLine(out, written, "    timeout: " + IntToString(t.timeout as int));
    out, written := WriteLine(out, written, "    exit_code: " + NatToString(t.exitCode as nat));
    out, written := WriteLine(out, written, "    stdout: \"" + t.stdout + "\"");
    out, written := WriteLine(out, written, "    stderr: \"" + t.stderr + "\"");
    out, written := WriteLine(out, written, "    args:");
    assert written == HeaderLines(t);
  }

  /** `Display for TestCase`: writes the seven fixed lines, then one line per argument. */
  method Fmt(t: TestCase) returns (out: string)
    ensures out == Render(t)
  {
    if t.Skip? {
      return "";
    }
    ghost var h := HeaderLines(t);
    var args := t.args;
    out := WriteHeader(t);
    assert h + ArgLines(args[..0]) == h;
    for i := 0 to |args|
      invariant out == Unlines(h + ArgLines(args[..i]))
    {
      ArgStep(h, args, i);
      out := out + ArgLine(args[i]) + "\n";
    }
    assert args[..|args|] == args;
  }

  /** Writing the line of argument `i` extends the rendering by that argument's line. */
  lemma ArgStep(h: seq<string>, args: seq<string>, i: nat)
    requires i < |args|
    ensures Unlines(h + ArgLines(args[..i])) + ArgLine(args[i]) + "\n"
         == Unlines(h + ArgLines(args[..i + 1]))
  {
    assert ArgLines(args[..i + 1]) == ArgLines(args[..i]) + [ArgLine(args[i])];
    UnlinesSnoc(h + ArgLines(args[..i]), ArgLine(args[i]));
    assert (h + ArgLines(args[..i])) + [ArgLine(args[i])] == h + ArgLines(args[..i + 1]);
  }

  /** No text field of a test holds a line break. */
  predicate SingleLineFields(t: TestCase) {
    t.Test? && '\n' !in t.name && '\n' !in t.binary && '\n' !in t.stdout && '\n' !in t.stderr
    && forall i :: 0 <= i < |t.args| ==> '\n' !in t.args[i]
  }

  /** None of the seven fixed lines of a test with single-line fields holds a line break. */
  lemma HeaderSingle(t: TestCase)
    requires SingleLineFields(t)
    ensures forall k :: 0 <= k < 7 ==> '\n' !in HeaderLines(t)[k]
  {
    var h := HeaderLines(t);
    assert '\n' !in NatToString(t.exitCode as nat);
    assert '\n' !in h[0] && '\n' !in h[1] && '\n' !in h[2] && '\n' !in h[3];
    assert '\n' !in h[4] && '\n' !in h[5] && '\n' !in h[6];
  }

  /** An argument line holds a line break only if its argument does. */
  lemma ArgLinesSingle(args: seq<string>)
    requires forall i :: 0 <= i < |args| ==> '\n' !in args[i]
    ensures forall k :: 0 <= k < |args| ==> '\n' !in ArgLines(args)[k]
  {
    forall k | 0 <= k < |args| ensures '\n' !in ArgLines(args)[k] {
      assert ArgLines(args)[k] == "      - \"" + args[k] + "\"";
    }
  }

  /** No line of a test with single-line fields holds a line break. */
  lemma LinesSingle(t: TestCase)
    requires SingleLineFields(t)
    ensures forall k :: 0 <= k < |Lines(t)| ==> '\n' !in Lines(t)[k]
  {
    var h := HeaderLines(t);
    var a := ArgLines(t.args);
    assert Lines(t) == h + a;
    HeaderSingle(t);
    ArgLinesSingle(t.args);
    forall k | 0 <= k < |h + a| ensures '\n' !in (h + a)[k] {
      if k < 7 {
        assert (h + a)[k] == h[k];
      } else {
        assert (h + a)[k] == a[k - 7];
      }
    }
  }

  /** The rendered block splits back into its lines: name, binary, timeout, exit code, stdout
      and stderr (written even when empty), the `args:` header, then one quoted line per
      argument in order — 7 + |args| lines in all. */
  lemma RenderedLines(t: TestCase)
    requires SingleLineFields(t)
    ensures SplitLines(Render(t)) == Lines(t)
    ensures |SplitLines(Render(t))| == 7 + |t.args|
    ensures Lines(t)[0] == "  - name: " + t.name && Lines(t)[1] == "    binary: " + t.binary
    ensures Lines(t)[2] == "    timeout: " + IntToString(t.timeout as int)
    ensures Lines(t)[3] == "    exit_code: " + NatToString(t.exitCode as nat)
    ensures Lines(t)[4] == "    stdout: \"" + t.stdout + "\"" && Lines(t)[5] == "    stderr: \"" + t.stderr + "\""
    ensures Lines(t)[6] == "    args:"
    ensures forall i :: 0 <= i < |t.args| ==> Lines(t)[7 + i] == "      - \"" + t.args[i] + "\""
  {
    LinesSingle(t);
    SplitUnlines(Lines(t));
  }

  /** `Skip` renders as nothing. */
  lemma SkipRendersEmpty()
    ensures Render(Skip) == ""
  {
  }

  /** The passes that can be selected by name. */
  datatype PassKind =
    | GccrsParsing
    | RustcDejagnu
    | GccrsRustcSucess
    | GccrsRustcSucessNoStd
    | GccrsRustcSucessNoCore
    | Blake3
    | LibCore
    | AstExport

  /** `Display for PassKind`. */
  function PassKindName(k: PassKind): (r: string)
    // a kebab-case command-line value
    ensures |r| > 0 && r[0] != '-' && r[|r| - 1] != '-'
    ensures forall i :: 0 <= i < |r| ==> 'a' <= r[i] <= 'z' || '0' <= r[i] <= '9' || r[i] == '-'
  {
    match k
    case GccrsParsing => "gccrs-parsing"
    case RustcDejagnu => "rustc-dejagnu"
    case GccrsRustcSucess => "gccrs-rustc-success"
    case GccrsRustcSucessNoStd => "gccrs-rustc-success-no-std"
    case GccrsRustcSucessNoCore => "gccrs-rustc-success-no-core"
    case Blake3 => "blake3"
    case LibCore => "libcore"
    case AstExport => "ast-export"
  }

  /** The display names tell the passes apart. */
  lemma PassKindNamesDistinct(a: PassKind, b: PassKind)
    ensures PassKindName(a) == PassKindName(b) ==> a == b
  {
  }
}
