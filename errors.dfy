/** The generator's error type (src/error.rs) and the `Result` its fallible operations return. */
module Errors {

  import opened Paths

  /** The kind of a `std::io::Error`, as far as the model distinguishes them. */
  datatype IoKind = NotFound | PermissionDenied | InvalidData | Other

  datatype MiscKind = Git(argString: string)

  /** `Error`. `Panic` is not a variant of the source's type: it stands for a failed
      `assert!`, which unwinds out of `main` where the other errors are returned; the entry
      point ends on it without writing anything further. `NoRustc` is
      the variant the older adaptor's main.rs reports for a missing rustc checkout; that
      crate's error.rs, otherwise the same as this one, does not declare it. */
  datatype Error =
    | Io(kind: IoKind)
    | NoRust(rustPath: Path)
    | NoGccrs(gccrsPath: Path)
    | NoRustc(rustcPath: Path)
    | PathPrefix
    | WalkDir
    | Misc(misc: MiscKind)
    | Panic

  datatype Result<+T> = Ok(value: T) | Err(error: Error) {

    predicate IsFailure() {
      Err?
    }

    function PropagateFailure<U>(): Result<U>
      requires Err?
    {
      Err(error)
    }

    function Extract(): T
      requires Ok?
    {
      value
    }
  }
}
