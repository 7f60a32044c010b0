/** Builder around compiler invocations (src/compiler.rs): a `Command` whose argument list and
    environment are appended to in place, wrapped by a `Compiler` that knows which of the two
    compilers it drives and how each spells the capabilities the generator uses. */
module Compilers {

  import opened Options
  import opened Paths
  import opened Config

  /** All used Rust editions. */
  datatype Edition = E2021

  function EditionStr(e: Edition): string {
    match e
    case E2021 => "2021"
  }

  /** `Rust1` is gccrs, `RustcBootstrap` is rustc. */
  datatype Kind = Rust1 | RustcBootstrap

  datatype CrateType = Library

  datatype Stdio = Null | Inherit | Piped

  /** The flag gccrs needs before it agrees to compile anything. */
  const GccrsDefaultFlag := "-frust-incomplete-and-experimental-compiler-do-not-use"

  /** `Kind::as_path_from_args`. */
  function ProgramPath(kind: Kind, args: Args): Path {
    match kind
    case Rust1 => args.gccrs
    case RustcBootstrap => args.rustc
  }

  /** What `default_args` appends for each kind. */
  function DefaultArgs(kind: Kind): (r: seq<string>)
    ensures r == [] <==> kind == RustcBootstrap
    ensures kind == Rust1 ==> r == [GccrsDefaultFlag]
  {
    match kind
    case Rust1 => [GccrsDefaultFlag]
    case RustcBootstrap => []
  }

  /** What `default_env` sets for each kind. */
  function DefaultEnv(kind: Kind): (r: map<string, string>)
    ensures r.Keys <= {"RUSTC_BOOTSTRAP"}
    ensures "RUSTC_BOOTSTRAP" in r <==> kind == RustcBootstrap
    ensures kind == RustcBootstrap ==> r["RUSTC_BOOTSTRAP"] == "1"
  {
    match kind
    case Rust1 => map[]
    case RustcBootstrap => map["RUSTC_BOOTSTRAP" := "1"]
  }

  /** What `crate_name(name)` appends for each kind. */
  function CrateNameArgs(kind: Kind, name: string): (r: seq<string>)
    ensures |r| == 2 && r[1] == name
  {
    match kind
    case Rust1 => ["-frust-crate-name", name]
    case RustcBootstrap => ["--crate-name", name]
  }

  /** What `crate_type(t)` appends: gccrs has no equivalent flag. */
  function CrateTypeArgs(kind: Kind, t: CrateType): seq<string> {
    match kind
    case Rust1 => []
    case RustcBootstrap => ["--crate-type", match t case Library => "lib"]
  }

  /** What `edition(e)` appends for each kind. */
  function EditionArgs(kind: Kind, e: Edition): (r: seq<string>)
    ensures |r| == 2 && r[1] == EditionStr(e)
  {
    match kind
    case Rust1 => ["-frust-edition", EditionStr(e)]
    case RustcBootstrap => ["--edition", EditionStr(e)]
  }

  /** Everything a built `Command` describes: what would be spawned. */
  datatype Invocation = Invocation(
    program: string,
    args: seq<string>,
    env: map<string, string>,
    stdout: Option<Stdio>,
    stderr: Option<Stdio>)

  /** `std::process::Command`: a program and the settings appended to it in place. */
  class Command {
    const program: string
    var args: seq<string>
    var env: map<string, string>
    var stdout: Option<Stdio>
    var stderr: Option<Stdio>

    /** `Command::new(program)`. */
    constructor (program: string)
      ensures this.program == program && args == [] && env == map[]
      ensures stdout == None && stderr == None
    {
      this.program := program;
      args, env := [], map[];
      stdout, stderr := None, None;
    }

    function Snapshot(): Invocation
      reads this
    {
      Invocation(program, args, env, stdout, stderr)
    }

    /** `cmd.arg(a)`. */
    method Arg(a: string)
      modifies this
      ensures args == old(args) + [a]
      ensures env == old(env) && stdout == old(stdout) && stderr == old(stderr)
    {
      args := args + [a];
    }

    /** `cmd.arg(a)` for each `a` of `xs`, in order. */
    method Args(xs: seq<string>)
      modifies this
      ensures args == old(args) + xs
      ensures env == old(env) && stdout == old(stdout) && stderr == old(stderr)
    {
      var i := 0;
      while i < |xs|
        invariant 0 <= i <= |xs|
        invariant args == old(args) + xs[..i]
        invariant env == old(env) && stdout == old(stdout) && stderr == old(stderr)
      {
        Arg(xs[i]);
        i := i + 1;
        assert xs[..i] == xs[..i - 1] + [xs[i - 1]];
      }
      assert xs[..i] == xs;
    }

    /** `cmd.env(key, value)`. */
    method Env(key: string, value: string)
      modifies this
      ensures env == old(env)[key := value]
      ensures args == old(args) && stdout == old(stdout) && stderr == old(stderr)
    {
      env := env[key := value];
    }

    /** `cmd.stdout(s)`. */
    method SetStdout(s: Stdio)
      modifies this
      ensures stdout == Some(s)
      ensures args == old(args) && env == old(env) && stderr == old(stderr)
    {
      stdout := Some(s);
    }

    /** `cmd.stderr(s)`. */
    method SetStderr(s: Stdio)
      modifies this
      ensures stderr == Some(s)
      ensures args == old(args) && env == old(env) && stdout == old(stdout)
    {
      stderr := Some(s);
    }
  }

  /** A compiler invocation under construction. The builder steps of the source take the
      compiler by value and hand it back; here they change it in place. */
  class Compiler {
    const cmd: Command
    const kind: Kind
    var stdout: Option<Stdio>
    var stderr: Option<Stdio>
    /** Whether `command()`, the destructive last step, has been taken. */
    ghost var finalized: bool

    /** `Compiler::new(kind, args)`: the program is the configured path for that kind and
        nothing has been added yet. */
    constructor (kind: Kind, args: Args)
      ensures fresh(cmd) && this.kind == kind && !finalized
      ensures cmd.program == Display(ProgramPath(kind, args))
      ensures cmd.args == [] && cmd.env == map[] && cmd.stdout == None && cmd.stderr == None
      ensures stdout == None && stderr == None
    {
      cmd := new Command(Display(ProgramPath(kind, args)));
      this.kind := kind;
      stdout, stderr := None, None;
      finalized := false;
    }

    /** `crate_name(name)`: appends the kind's flag and the name after everything so far. */
    method CrateName(name: string)
      requires !finalized
      modifies cmd
      ensures cmd.args == old(cmd.args) + CrateNameArgs(kind, name)
      ensures cmd.env == old(cmd.env) && cmd.stdout == old(cmd.stdout) && cmd.stderr == old(cmd.stderr)
    {
      match kind {
        case Rust1 => cmd.Arg("-frust-crate-name");
        case RustcBootstrap => cmd.Arg("--crate-name");
      }
      cmd.Arg(name);
    }

    /** `crate_type(t)`: only rustc gets a flag; for gccrs nothing changes. */
    method CrateType(t: CrateType)
      requires !finalized
      modifies cmd
      ensures cmd.args == old(cmd.args) + CrateTypeArgs(kind, t)
      ensures cmd.env == old(cmd.env) && cmd.stdout == old(cmd.stdout) && cmd.stderr == old(cmd.stderr)
    {
      if kind == RustcBootstrap {
        cmd.Arg("--crate-type");
        match t
        case Library => cmd.Arg("lib");
      }
    }

    /** `edition(e)`: appends the kind's flag and the edition's name. */
    method Edition(e: Edition)
      requires !finalized
      modifies cmd
      ensures cmd.args == old(cmd.args) + EditionArgs(kind, e)
      ensures cmd.env == old(cmd.env) && cmd.stdout == old(cmd.stdout) && cmd.stderr == old(cmd.stderr)
    {
      match kind {
        case Rust1 => cmd.Arg("-frust-edition");
        case RustcBootstrap => cmd.Arg("--edition");
      }
      cmd.Arg(EditionStr(e));
    }

    /** `command()`: appends the kind's default arguments after everything already added, sets
        its default environment, and routes both streams, taking the optional settings (the
        source hands the `stdout` setting to the error stream and the `stderr` setting to the
        output stream; as nothing sets either, both streams end up null). It is the last
        builder step: a second call would append the defaults again. */
    method Command() returns (c: Command)
      requires !finalized
      modifies this, cmd
      ensures c == cmd && finalized
      ensures cmd.args == old(cmd.args) + DefaultArgs(kind)
      ensures cmd.env == old(cmd.env) + DefaultEnv(kind)
      ensures cmd.stderr == Some(old(stdout).GetOr(Null))
      ensures cmd.stdout == Some(old(stderr).GetOr(Null))
      ensures stdout == None && stderr == None
    {
      if kind == Rust1 {
        cmd.Arg(GccrsDefaultFlag);
      } else {
        cmd.Env("RUSTC_BOOTSTRAP", "1");
      }
      cmd.SetStderr(stdout.GetOr(Null));
      cmd.SetStdout(stderr.GetOr(Null));
      stdout, stderr := None, None;
      finalized := true;
      c := cmd;
    }
  }
}
