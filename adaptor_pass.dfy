/** The test case of the older rustc test-suite adaptor and its rendering, and that tool's
    pass names (rustc-testsuite-adaptor/src/pass.rs). */
module AdaptorPass {

  import opened Strings
  import P = Passes

  /** A test for the runner; unlike the generator's, there is no `Skip` and no expected
      output, and the exit code is an `i32`. */
  datatype TestCase = TestCase(name: string, binary: string, exitCode: P.int32, timeout: P.int32, args: seq<string>)

  /** `TestCase::default()` (derived): every text empty, every number zero, no arguments. */
  function Default(): (r: TestCase)
    ensures r.name == "" && r.binary == "" && r.exitCode == 0 && r.timeout == 0 && r.args == []
  {
    TestCase("", "", 0, 0, [])
  }

  // Each builder replaces one field and keeps the others (`TestCase { x, ..self }`).

  function WithExitCode(t: TestCase, exitCode: P.int32): (r: TestCase)
    ensures r == t.(exitCode := exitCode)
  {
    TestCase(t.name, t.binary, exitCode, t.timeout, t.args)
  }

  function WithTimeout(t: TestCase, timeout: P.int32): (r: TestCase)
    ensures r == t.(timeout := timeout)
  {
    TestCase(t.name, t.binary, t.exitCode, timeout, t.args)
  }

  function WithName(t: TestCase, name: string): (r: TestCase)
    ensures r == t.(name := name)
  {
    TestCase(name, t.binary, t.exitCode, t.timeout, t.args)
  }

  function WithBinary(t: TestCase, binary: string): (r: TestCase)
    ensures r == t.(binary := binary)
  {
    TestCase(t.name, binary, t.exitCode, t.timeout, t.args)
  }

  /** `with_arg`: pushes onto the moved argument vector. */
  method WithArg(t: TestCase, arg: string) returns (r: TestCase)
    ensures r == t.(args := t.args + [arg])
    ensures |r.args| == |t.args| + 1 && r.args[..|t.args|] == t.args && r.args[|t.args|] == arg
  {
    var newArgs := t.args;
    newArgs := newArgs + [arg];
    r := TestCase(t.name, t.binary, t.exitCode, t.timeout, newArgs);
  }

  /** The five lines `Display` ends with a newline. */
  function HeaderLines(t: TestCase): seq<string> {
    [ "  - name: " + t.name,
      "    binary: " + t.binary,
      "    timeout: " + IntToString(t.timeout as int),
      "    exit_code: " + IntToString(t.exitCode as int),
      "    args:" ]
  }

  /** What `format!("{}", t)` yields: the arguments are written with `write!`, so no newline
      follows any of them. */
  function Render(t: TestCase): (r: string)
    ensures StartsWith(r, "  - name: " + t.name + "\n")
  {
    var h := HeaderLines(t);
    var first := "  - name: " + t.name;
    assert Unlines(h) == first + "\n" + Unlines(h[1..]);
    assert (first + "\n" + Unlines(h[1..]) + Concat(P.ArgLines(t.args)))[..|first + "\n"|] == first + "\n";
    Unlines(h) + Concat(P.ArgLines(t.args))
  }

  /** No text field holds a line break. */
  predicate SingleLineFields(t: TestCase) {
    '\n' !in t.name && '\n' !in t.binary && forall i :: 0 <= i < |t.args| ==> '\n' !in t.args[i]
  }

  lemma {:induction false} ConcatNoNewline(xs: seq<string>)
    requires forall i :: 0 <= i < |xs| ==> '\n' !in xs[i]
    ensures '\n' !in Concat(xs)
  {
    if |xs| > 0 {
      ConcatNoNewline(xs[1..]);
    }
  }

  /** As written, the rendering is the five fixed lines followed by a single line holding every
      argument, one after the other. */
  lemma ArgsShareOneLine(t: TestCase)
    requires SingleLineFields(t)
    ensures |t.args| == 0 ==> SplitLines(Render(t)) == HeaderLines(t)
    ensures |t.args| > 0 ==> SplitLines(Render(t)) == HeaderLines(t) + [Concat(P.ArgLines(t.args))]
  {
    var h := HeaderLines(t);
    assert '\n' !in IntToString(t.timeout as int) && '\n' !in IntToString(t.exitCode as int);
    assert forall k :: 0 <= k < |h| ==> '\n' !in h[k];
    var a := P.ArgLines(t.args);
    assert forall i :: 0 <= i < |a| ==> a[i] == P.ArgLine(t.args[i]);
    ConcatNoNewline(a);
    if |t.args| == 0 {
      assert Render(t) == Unlines(h);
      SplitUnlines(h);
    } else {
      assert Concat(a) != "";
      SplitUnlinesTail(h, Concat(a));
    }
  }

  /** A test with two arguments renders as six lines, not seven: both arguments share the
      last one. */
  lemma TwoArgsRenderOnSixLines(t: TestCase)
    requires SingleLineFields(t) && t.args == ["a", "b"]
    ensures |SplitLines(Render(t))| == 6
    ensures SplitLines(Render(t))[5] == "      - \"a\"      - \"b\""
  {
    ArgsShareOneLine(t);
    var a := P.ArgLines(t.args);
    assert a == [P.ArgLine("a"), P.ArgLine("b")];
    ConcatPair(P.ArgLine("a"), P.ArgLine("b"));
    assert (HeaderLines(t) + [Concat(a)])[5] == Concat(a);
  }

  lemma ConcatPair(x: string, y: string)
    ensures Concat([x, y]) == x + y
  {
    assert [x, y][1..] == [y] && [y][1..] == [];
    assert Concat([y]) == y + "";
  }

  /** The rendering the generator's own renderer gives: one line per argument. */
  function RenderFixed(t: TestCase): string {
    Unlines(HeaderLines(t) + P.ArgLines(t.args))
  }

  /** With one line per argument the rendering splits into 5 + |args| lines: the five fixed
      ones, then each argument quoted on its own line, in order. */
  lemma RenderFixedLines(t: TestCase)
    requires SingleLineFields(t)
    ensures SplitLines(RenderFixed(t)) == HeaderLines(t) + P.ArgLines(t.args)
    ensures |SplitLines(RenderFixed(t))| == 5 + |t.args|
    ensures forall i :: 0 <= i < |t.args| ==> SplitLines(RenderFixed(t))[5 + i] == "      - \"" + t.args[i] + "\""
  {
    var ls := HeaderLines(t) + P.ArgLines(t.args);
    assert '\n' !in IntToString(t.timeout as int) && '\n' !in IntToString(t.exitCode as int);
    forall k | 0 <= k < |ls| ensures '\n' !in ls[k] {
      if k >= 5 {
        assert ls[k] == P.ArgLine(t.args[k - 5]);
      }
    }
    SplitUnlines(ls);
  }

  /** The five `writeln!` calls of `Display for TestCase`. */
  method WriteHeader(t: TestCase) returns (out: string)
    ensures out == Unlines(HeaderLines(t))
  {
    ghost var written: seq<string> := [];
    out := "";
    out, written := P.WriteLine(out, written, "  - name: " + t.name);
    out, written := P.WriteLine(out, written, "    binary: " + t.binary);
    out, written := P.WriteLine(out, written, "    timeout: " + IntToString(t.timeout as int));
    out, written := P.WriteLine(out, written, "    exit_code: " + IntToString(t.exitCode as int));
    out, written := P.WriteLine(out, written, "    args:");
    assert written == HeaderLines(t);
  }

  /** `Display for TestCase`: the fixed lines, then each argument with `write!`. */
  method Fmt(t: TestCase) returns (out: string)
    ensures out == Render(t)
  {
    out := WriteHeader(t);
    var args := t.args;
    ghost var head := out;
    assert P.ArgLines(args[..0]) == [];
    for i := 0 to |args|
      invariant out == head + Concat(P.ArgLines(args[..i]))
    {
      assert P.ArgLines(args[..i + 1]) == P.ArgLines(args[..i]) + [P.ArgLine(args[i])];
      ConcatAppend(P.ArgLines(args[..i]), [P.ArgLine(args[i])]);
      out := out + P.ArgLine(args[i]);
    }
    assert args[..|args|] == args;
  }

  /** The adaptor's pass names. */
  datatype PassKind = GccrsParsing | RustcDejagnu

  /** A name that is not a pass's, kept for the message. */
  datatype InvalidPassKind = InvalidPassKind(name: string)

  /** `Display for InvalidPassKind`. */
  function InvalidMessage(e: InvalidPassKind): (r: string)
    ensures StartsWith(r, "invalid pass name provided: ")
  {
    "invalid pass name provided: " + e.name
  }

  datatype Parsed = Parsed(kind: PassKind) | Invalid(error: InvalidPassKind)

  /** `PassKind::from_str`. */
  function FromStr(s: string): (r: Parsed)
    ensures r.Parsed? <==> s == "gccrs-parsing" || s == "rustc-dejagnu"
    ensures r.Invalid? ==> r.error == InvalidPassKind(s)
  {
    if s == "gccrs-parsing" then Parsed(GccrsParsing)
    else if s == "rustc-dejagnu" then Parsed(RustcDejagnu)
    else Invalid(InvalidPassKind(s))
  }

  /** The two names select the two passes, and every pass has a name. */
  lemma FromStrSelects(k: PassKind)
    ensures FromStr("gccrs-parsing") == Parsed(GccrsParsing)
    ensures FromStr("rustc-dejagnu") == Parsed(RustcDejagnu)
    ensures exists s :: FromStr(s) == Parsed(k)
  {
    if k.GccrsParsing? {
      assert FromStr("gccrs-parsing") == Parsed(k);
    } else {
      assert FromStr("rustc-dejagnu") == Parsed(k);
    }
  }
}
