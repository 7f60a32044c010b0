# Rust-GCC test-suite generator, modelled in Dafny

The generator builds a test manifest for the gccrs compiler, which the "ftf" test runner reads.
It reads the passes named on its command line and expands each name into one or more pass
instances. For each instance, it fetches the files to test, usually by copying Rust sources from
a rust or gccrs checkout into an output directory. It then adapts each file into a test case. A
test case names a binary (gccrs or rustc), its arguments, an expected exit code, a timeout, and
the expected standard output and error. The rendered cases go into a YAML-like file. The file
starts with `tests:` and then holds one block per test. An instance can also decide `Skip`, which
renders as nothing.

Each pass decides its tests in its own way:
- **gccrs-parsing** mirrors rustc's parse-only verdict.
- **rustc-dejagnu** expects exit code 255, 1 or 0. It picks one by searching the file for
  `fn main()` and `dg-error`.
- **gccrs-rustc-success** skips files that mention `ERROR`. Its no-std and no-core variants
  rewrite each file with a prelude and keep it only when rustc compiles it within 30 seconds.
- **blake3** writes the Blake3 reference implementation in four variants.
- **libcore** checks out two rust releases in turn and compiles the core library with gccrs. It
  stops after each of three pipeline stages.
- **ast-export** dumps gccrs's pretty-printed AST of every gccrs test next to a copy of the test.
  It then expects the printed form to compile whenever the original does.

The model also covers the older `rustc-testsuite-adaptor` crate. That crate has its own plain
test case, its own pass-name parser, and a pass-through stream adaptor. Its `main` copies the
rustc UI tests and writes a fixed five-line block for each one.

External effects are inputs of the model:
- **Files.** `Fs.FileSystem` holds a map from path to content (valid UTF-8 text or not). It also
  holds the set of paths on which every operation fails, the walk result of each directory, and
  the working directory.
- **Processes.** `Process.Runner` gives the verdict of every compiler run: whether it could be
  started, whether it succeeded, and how a bounded wait ended. It also gives gccrs's AST dumps.
- **Git.** `LibCore.Repository` holds the checked-out revision.

The imperative parts are classes and methods. Most passes, and both entry points, are methods
proved equal to pure specification functions: `Adapt` = `Outcome`, `Fetch` = `CopyAll`/`ExportAll`,
`ApplyPass` = `ApplyAll`, `Run` = `MainSpec`. The compiler builder, the stream adaptor and the
filesystem are classes whose methods change their fields in place. The lemmas state what the
source promises about those functions.

Where the code and its own comments differ, the model follows the code:
- Capability arguments (`crate_type`, `edition`, `crate_name`) come before the kind's default
  arguments. The caller's extra arguments come after both.
- The stdout and stderr lines are written even when they are empty.
- A failed copy in libcore's `fetch` leaves the checkout on the release tag.
- libcore's `fetch` returns `output_dir` joined with the checkout's `library/core` path. That is
  not where the copy put the crate root (`LibCore.TargetVersusCopy`).
- `Compiler::command` routes the `stdout` setting to the error stream and the `stderr` setting to
  the output stream. Nothing ever sets either, so both streams are null.

Some edge cases of the code are kept as they are:
- `maybe_create_output_dir` uses `fs::create_dir`, which makes one directory. It fails when the
  parent is missing (`Fs.MakeDir`).
- `fs::copy` opens its target with truncation, so copying a file onto itself leaves it empty. In
  ast-export an absolute gccrs checkout makes `output_dir.join(entry)` the entry itself
  (`AstExport.SelfCopyEmpties`).
- When git cannot be started, libcore's `?` returns from inside the rust checkout. `main` then
  opens the test-suite file's relative path from there (`Driver.StrandedSuiteFile`).
- A failed `assert!` (a missing original in ast-export) ends `main` before the test-suite file
  is opened.

## Model

| member | source | states |
|---|---|---|
| Passes.DefaultIsBlank | src/passes.rs:38-54 | the default case is a test with empty name, binary, stdout, stderr and arguments, exit code 0 and timeout 15, and it renders as exactly seven lines |
| Passes.WithExitCode | src/passes.rs:63-72 | `Skip` stays `Skip`; on a test only the exit code changes |
| Passes.WithTimeout | src/passes.rs:74-83 | `Skip` stays `Skip`; on a test only the timeout changes |
| Passes.WithName | src/passes.rs:85-91 | `Skip` stays `Skip`; on a test only the name changes |
| Passes.WithArg | src/passes.rs:93-99 | `Skip` stays `Skip`; on a test exactly one argument is appended at the end |
| Passes.WithArgs | src/passes.rs:101-103 | `Skip` stays `Skip`; on a test the arguments become the old ones followed by `xs` in order |
| Passes.WithBinary | src/passes.rs:105-111 | `Skip` stays `Skip`; on a test only the binary changes |
| Passes.Default | src/passes.rs:38-51 | the default case is a test with empty name, binary, stdout, stderr and arguments, exit code 0 and the default timeout |
| Passes.WithStderr | src/passes/gccrs_full_rustc.rs:38 | `Skip` stays `Skip`; on a test only the expected stderr changes |
| Passes.FromCompiler | src/passes.rs:56-61 | the case holds the command's program and its arguments (including the kind's defaults); the environment is not recorded; the compiler is finalized, so no builder step can follow |
| Passes.Fmt | src/passes.rs:114-143 | writing the seven fixed lines and then one line per argument produces `Render(t)`; `Skip` produces nothing |
| Passes.WriteHeader | src/passes.rs:127-133 | the seven `writeln!` calls produce the seven header lines, each ended by a newline |
| Passes.LinesSingle | src/passes.rs:127-136 | when no field holds a line break, no rendered line holds one |
| Passes.RenderedLines | src/passes.rs:127-137 | the rendering splits back into 7 + |args| lines: name, binary, timeout, exit code, quoted stdout, quoted stderr (even when empty), `args:`, then each argument quoted on its own line in order |
| Passes.Render | src/passes.rs:114-143 | `Skip` renders as nothing; a test's rendering starts with its `  - name:` line |
| Passes.SkipRendersEmpty | src/passes.rs:117 | `Skip` renders as the empty string |
| Passes.PassKindNamesDistinct | src/passes.rs:186-199 | the eight pass display names are pairwise distinct |
| Passes.PassKindName | src/passes.rs:186-201 | each display name is a non-empty kebab-case word of lower-case letters, digits and inner dashes |
| Compilers.CrateNameArgs | src/compiler.rs:99-107 | `crate_name` adds two arguments, the second one being the name |
| Compilers.EditionArgs | src/compiler.rs:123-131 | `edition` adds two arguments, the second one being the edition's name ("2021") |
| Compilers.DefaultArgs | src/compiler.rs:57-64 | gccrs gets exactly its required flag; rustc gets no default argument |
| Compilers.DefaultEnv | src/compiler.rs:66-71 | only `RUSTC_BOOTSTRAP` can be set, and it is set, to `1`, exactly for rustc |
| Compilers.Command.Args | src/passes/libcore.rs:49 | appending a run of arguments one at a time appends exactly that run, in order, and changes nothing else |
| Compilers.Compiler.constructor | src/compiler.rs:84-91 | a new compiler runs gccrs for `Rust1` and rustc for `RustcBootstrap`, with no arguments, no environment and no stream settings |
| Compilers.Compiler.CrateName | src/compiler.rs:99-107 | appends `-frust-crate-name n` for gccrs or `--crate-name n` for rustc after the earlier arguments |
| Compilers.Compiler.CrateType | src/compiler.rs:111-119 | appends `--crate-type lib` for rustc; for gccrs nothing changes |
| Compilers.Compiler.Edition | src/compiler.rs:123-131 | appends `-frust-edition 2021` for gccrs or `--edition 2021` for rustc after the earlier arguments |
| Compilers.Compiler.Command | src/compiler.rs:136-145 | appends gccrs's required flag after every earlier argument (nothing for rustc), sets `RUSTC_BOOTSTRAP=1` only for rustc, and routes both streams to null when no setting was made; it may be taken once, after which the compiler is finalized and the builder steps (`CrateName`, `CrateType`, `Edition`) no longer apply |
| Steps.Variants | src/steps.rs:10-16 | exactly three steps, in the order Expansion, TypeCheck, End |
| Steps.VariantsComplete | src/steps.rs:10-16 | no step is missing from the list |
| Steps.CompileOption | src/steps.rs:19-25 | every option starts with `-frust-compile-until=` |
| Steps.CompileOptionsDistinct | src/steps.rs:19-25 | each option is the common prefix followed by the step's name, so different steps have different options |
| Paths.StripPrefix | src/main.rs:58 | the strip succeeds exactly when the path lies under the prefix, and its result is relative and joins back onto the prefix to give the path |
| Paths.StripJoin | src/main.rs:57-59 | stripping a base from a relative path just joined onto it gives the joined part back |
| Paths.Parent | src/main.rs:61-63 | a parent exists exactly when the path has a component, and it is the path without its last component |
| Paths.Extension | src/main.rs:36 | an extension holds no dot |
| Paths.WithExtensionOf | src/passes/ast_export.rs:64 | replacing an extension changes only the extension of the last component |
| Paths.PrettyRoundTrip | src/passes/ast_export.rs:11-12 | swapping `rs` for `pretty-rs` and back restores the path |
| Paths.JoinExtension | src/passes/ast_export.rs:63-64 | joining onto the output directory keeps the extension, and it commutes with replacing the extension |
| Fs.Read | src/passes/rustc_dejagnu.rs:23-25 | reading succeeds exactly for a stored path the environment does not refuse, and then gives its contents |
| Fs.ReadText | src/passes/gccrs_rustc_successes.rs:49 | reading as text succeeds exactly when the read does and the bytes are valid UTF-8 |
| Fs.MakeDir | src/main.rs:23-28 | `fs::create_dir` succeeds exactly when the path is not refused and its parent exists; a missing parent gives `NotFound` |
| Fs.Copy | src/main.rs:65 | a copy succeeds exactly when the source can be read and the target can be written; the target then holds the source's contents, or nothing when source and target are the same file, since the target is truncated on opening |
| Fs.CurrentDir | src/passes/libcore.rs:46 | reading the working directory succeeds exactly when it is not a refused path, and then gives that directory; otherwise `PermissionDenied` |
| Fs.ChangeDir | src/passes/libcore.rs:47 | changing directory succeeds exactly for a directory the environment does not refuse |
| Fs.FileSystem.Write | src/passes/gccrs_rustc_successes.rs:65 | on success the file's contents are replaced by the text, and on failure nothing changes |
| Fs.FileSystem.CreateDir | src/main.rs:25 | gives the error `MakeDir` describes |
| Fs.FileSystem.CreateDirAll | src/main.rs:61-63 | fails exactly on a refused path |
| Fs.FileSystem.CopyFile | src/main.rs:65 | the store changes as `Copy` says, or not at all when the copy fails |
| Fs.FileSystem.GetCurrentDir | src/passes/libcore.rs:46 | gives what `CurrentDir` says for the current working directory |
| Fs.FileSystem.SetCurrentDir | src/passes/libcore.rs:47-51 | the working directory moves only when the change succeeds |
| Process.StatusOf | src/passes/gccrs_parsing.rs:28-29 | `status()?.success()` fails exactly when the program cannot be started, and otherwise gives its success |
| Process.TimedRun | src/passes/gccrs_rustc_successes.rs:75-82 | a bounded run fails if the spawn, the wait or the kill fails, and it counts as a success only when the child exits successfully in time |
| Process.RunWithTimeout | src/passes/gccrs_rustc_successes.rs:68-82 | spawning, waiting and killing give the verdict `TimedRun` describes |
| FileCollector.RustFiles | src/main.rs:32-38 | keeps exactly the readable entries whose extension is `rs`, and drops every unreadable item |
| FileCollector.RustFilesConcat | src/main.rs:32-38 | filtering keeps walk order: the files of two consecutive stretches of a walk are the files of the first, then those of the second |
| FileCollector.CopyOne | src/main.rs:56-68 | copying one file succeeds exactly when it is stored and every step can succeed; the destination is `to` joined with the path stripped of the prefix, and a path outside the prefix fails with `PathPrefix` |
| FileCollector.CopyAll | src/main.rs:49-70 | copies never remove a stored file, and a success gives one destination per source |
| FileCollector.CopyAllShape | src/main.rs:54-69 | copies only add files; on success there is one destination per source, the i-th being the i-th source re-rooted under `to` |
| FileCollector.CopyAllFrame | src/main.rs:54-69 | copies write only to destinations: every other stored file keeps its contents |
| FileCollector.CopyAllOk | src/main.rs:54-69 | copying succeeds exactly when every source can be copied |
| FileCollector.CopyAllContents | src/main.rs:54-69 | when no destination is itself a source, each destination ends up holding its source's contents |
| FileCollector.ContentAt | src/main.rs:54-69 | when no destination is itself a source and the copies succeed, the i-th destination holds the i-th source's contents |
| FileCollector.DestinationInjective | src/main.rs:57-59 | two sources under the prefix that map to the same destination are the same path |
| FileCollector.CopiedUnder | src/main.rs:54-69 | every copied file lies under the directory it was copied to |
| FileCollector.CopyEntry | src/main.rs:56-68 | one closure call of `copy_rs_files` changes the store as `CopyOne` says |
| FileCollector.CopyRsFiles | src/main.rs:49-70 | `copy_rs_files` gives the outcome and the store `CopyAll` describes over the filtered walk, and keeps the working directory |
| GccrsParsing.Fetch | src/passes/gccrs_parsing.rs:12-17 | copies the `rs` files of `rust_path/src/test` under the output directory, stripped of `rust_path` |
| GccrsParsing.Outcome | src/passes/gccrs_parsing.rs:19-39 | fails exactly when rustc cannot be started; otherwise a gccrs test with timeout 1 and arguments [required flag, `-fsyntax-only`, file], whose exit code is 0 exactly when rustc accepts the file, and 1 otherwise |
| GccrsParsing.Adapt | src/passes/gccrs_parsing.rs:19-39 | building the rustc reference run and the gccrs case gives `Outcome` |
| RustcDejagnu.Fetch | src/passes/rustc_dejagnu.rs:14-19 | copies the `rs` files of `gccrs_path/gcc/testsuite/rust` under the output directory, stripped of `gccrs_path` |
| RustcDejagnu.ExitCode | src/passes/rustc_dejagnu.rs:27-43 | 255 exactly for UTF-8 text containing `fn main()`; 1 exactly for invalid UTF-8 or text with `dg-error` but no `fn main()`; 0 exactly for text with neither |
| RustcDejagnu.Outcome | src/passes/rustc_dejagnu.rs:21-54 | fails exactly when the file cannot be read, with the read's error; otherwise gives exactly `Case` of the contents read, so the exit-code and shape facts of `ExitCode` and `CaseShape` hold of what `adapt` returns |
| RustcDejagnu.Adapt | src/passes/rustc_dejagnu.rs:21-54 | reading the bytes, overwriting the exit code for `fn main()` and building the case gives `Outcome` |
| RustcDejagnu.CaseShape | src/passes/rustc_dejagnu.rs:45-51 | never `Skip`; the test runs rustc with exactly [file, `-o`, `rustc_out`] and timeout 5 |
| GccrsRustcSuccesses.OutDir | src/passes/gccrs_rustc_successes.rs:38-43 | the output directory itself for Full, `no-std` and `no-core` below it for the other two |
| GccrsRustcSuccesses.OutDirsDistinct | src/passes/gccrs_rustc_successes.rs:38-43 | the three variants copy into three different places |
| GccrsRustcSuccesses.Suffix | src/passes/gccrs_rustc_successes.rs:20-30 | the display suffix is empty exactly for Full |
| GccrsRustcSuccesses.Prelude | src/passes/gccrs_rustc_successes.rs:59-63 | the prelude is empty exactly for Full; otherwise it is crate attributes starting with `#![` and ending in a newline |
| GccrsRustcSuccesses.Fetch | src/passes/gccrs_rustc_successes.rs:33-46 | copies the `rs` files of `rust_path/src/test/ui` under the variant's directory, stripped of `rust_path` |
| GccrsRustcSuccesses.Outcome | src/passes/gccrs_rustc_successes.rs:48-97 | on `ERROR` the result is `Skip` and the file is not rewritten; otherwise the file becomes the prelude followed by its text; Full keeps it; the other variants keep it when rustc compiles it within 30 seconds, give `Skip` when rustc rejects it or is killed at the limit, and fail with the error when the pre-check cannot be started, waited for or killed; read errors pass through unchanged |
| GccrsRustcSuccesses.CaseShape | src/passes/gccrs_rustc_successes.rs:89-94 | a kept file gives a gccrs test with [required flag, file], exit code 0, timeout 300 and the name `Compile {suffix} success` |
| GccrsRustcSuccesses.RunPrecheck | src/passes/gccrs_rustc_successes.rs:68-82 | the rustc library pre-check, edition 2021, crate name `rustc_output`, killed after 30 seconds |
| GccrsRustcSuccesses.Build | src/passes/gccrs_rustc_successes.rs:89-96 | the builder chain gives the pass's case |
| GccrsRustcSuccesses.Adapt | src/passes/gccrs_rustc_successes.rs:48-97 | reading, skipping, rewriting, pre-checking and building give `Outcome`'s result and store |
| GccrsFullRustc.Fetch | src/passes/gccrs_full_rustc.rs:12-21 | copies the `rs` files of `rust_path/src/test/ui` under the output directory, stripped of `rust_path` |
| GccrsFullRustc.Outcome | src/passes/gccrs_full_rustc.rs:23-44 | fails exactly on a read error; otherwise a test (never `Skip`) of the configured gccrs on exactly [file] with timeout 5, exit code 1 exactly when the text contains `ERROR` and 0 otherwise, and expected stderr `error` exactly when the exit code is 1 |
| GccrsFullRustc.Adapt | src/passes/gccrs_full_rustc.rs:23-44 | reading and building the case gives `Outcome` |
| Blake3.Variants | src/passes/blake3.rs:25-32 | exactly GccrsOriginal, GccrsPrelude, RustcNoStd, RustcNoCore, in that order |
| Blake3.VariantsComplete | src/passes/blake3.rs:25-32 | no variant is missing from the list |
| Blake3.Suffix | src/passes/blake3.rs:35-42 | every suffix is non-empty and holds no dot, so each file keeps the extension `rs` |
| Blake3.SuffixesDistinct | src/passes/blake3.rs:35-42 | the suffixes are pairwise distinct |
| Blake3.Fetch | src/passes/blake3.rs:46-57 | exactly one path, an `rs` file in the output directory |
| Blake3.FilesDistinct | src/passes/blake3.rs:47-50 | the files returned by the fetches of different variants are different |
| Blake3.CaseShape | src/passes/blake3.rs:68-82 | gccrs variants run gccrs with [required flag, file]; rustc variants run rustc with [`--crate-type`, `lib`, file]; exit code 0 and the default timeout 15 |
| Blake3.Prelude | src/passes/blake3.rs:60-66 | the prelude is empty exactly for GccrsOriginal; the rustc variants start with a crate attribute |
| Blake3.Outcome | src/passes/blake3.rs:59-83 | fails exactly when the file cannot be written; otherwise the file holds the variant's prelude followed by the template, and the case is the variant's |
| Blake3.Build | src/passes/blake3.rs:68-82 | the compiler choice and builder chain give the variant's case |
| Blake3.Adapt | src/passes/blake3.rs:59-83 | writing the file and building the case gives `Outcome`'s result and store |
| LibCore.Tag | src/passes/libcore.rs:18-23 | `1.49.0` for V149 and `1.29.0` for V129 |
| LibCore.VariantsDistinguished | src/passes/libcore.rs:18-29 | the tag and the step together determine the variant |
| LibCore.CaseShape | src/passes/libcore.rs:70-80 | a gccrs test with [required flag, file, the step's option], exit code 0 and timeout 15; cases of different steps differ |
| LibCore.Adapt | src/passes/libcore.rs:70-80 | never fails and never skips |
| LibCore.CheckoutSpec | src/passes/libcore.rs:45-54 | an unreadable working directory fails first and changes nothing; otherwise it succeeds exactly when the checkout can be entered and git checks out; on success the revision changes and the directory is restored; a refused checkout gives `Git("checkout <rev>")`; when git cannot be started the directory stays inside the checkout |
| LibCore.Target | src/passes/libcore.rs:63-67 | the returned file is named `lib.rs` |
| LibCore.FetchSucceeds | src/passes/libcore.rs:56-67 | a successful fetch checks out the tag, then `master`; it returns exactly the crate root and leaves the checkout on `master` in the starting directory |
| LibCore.CopyFailureKeepsTag | src/passes/libcore.rs:58 | a failed copy after the first checkout fails the fetch and leaves the checkout on the release's tag |
| LibCore.FailedCheckoutError | src/passes/libcore.rs:37-56 | when git refuses the first checkout, the fetch fails with `Git("checkout <tag>")` before anything is copied |
| LibCore.TargetVersusCopy | src/passes/libcore.rs:63-67 | the returned path is the copied crate root only when the checkout is the output directory or is empty; for an absolute checkout it names the checkout's own file |
| LibCore.FetchSpec | src/passes/libcore.rs:33-68 | a fetch never removes a stored file; success returns exactly the crate root and leaves the checkout on `master` in the starting directory |
| LibCore.CopiedRootStored | src/passes/libcore.rs:58-67 | when the walk finds the crate root, a successful fetch has stored its copy at `output_dir/library/core/src/lib.rs`, which is the path to return |
| LibCore.Checkout | src/passes/libcore.rs:45-54 | noting the working directory, entering the checkout, running a `git` command built with `args` and coming back gives `CheckoutSpec` |
| LibCore.Fetch | src/passes/libcore.rs:33-68 | checkout of the tag, copy, checkout of `master`, with early returns, gives `FetchSpec` |
| AstExport.ExportEntry | src/passes/ast_export.rs:72-82 | only adds files; on success it returns the printed form's path, and both the copy and the printed form are stored |
| AstExport.ExportOne | src/passes/ast_export.rs:62-83 | a gccrs that cannot be started aborts with `NotFound`; otherwise its dump, or the previous one, is exported |
| AstExport.StatusIgnored | src/passes/ast_export.rs:66-70 | gccrs's exit status makes no difference to the export |
| AstExport.StaleDump | src/passes/ast_export.rs:66-80 | when gccrs writes no dump for an `rs` entry, its printed form is the previous entry's dump |
| AstExport.PrettyAwayFrom | src/passes/ast_export.rs:63-64 | the printed form's path is neither the dump file nor the copy's path |
| AstExport.SelfCopyEmpties | src/passes/ast_export.rs:63-79 | when the output directory does not re-root an entry, the entry is copied onto itself and a successful export leaves it empty |
| AstExport.ExportAllShape | src/passes/ast_export.rs:58-84 | a successful fetch returns each entry's printed-form path in walk order, with every printed form and every copy stored |
| AstExport.ExportAll | src/passes/ast_export.rs:50-85 | never removes a stored file, and a success gives one printed-form path per entry |
| AstExport.OriginalFromPretty | src/passes/ast_export.rs:10-17 | the path with extension `rs` (set twice), and a panic when that file does not exist |
| AstExport.PrettyBack | src/passes/ast_export.rs:11-12 | mapping a printed-form path back gives the copy's path |
| AstExport.PrettyMapsBack | src/passes/ast_export.rs:63-80 | the i-th path a successful fetch returns maps back to the copy of the i-th entry, which is stored |
| AstExport.CompileDecision | src/passes/ast_export.rs:22-42 | fails exactly when gccrs cannot be started; `Skip` exactly when the original fails to compile; any test is the printed form's case |
| AstExport.CompileOutcome | src/passes/ast_export.rs:19-43 | a missing original panics; otherwise the decision on it |
| AstExport.CaseShape | src/passes/ast_export.rs:33-37 | a kept case runs gccrs with [required flag, printed form] and expects exit code 0 |
| AstExport.Outcome | src/passes/ast_export.rs:87-91 | `Compile` is `adapt_compilation`; `Run` is the runner's given outcome |
| AstExport.GetOriginalFileFromPretty | src/passes/ast_export.rs:10-17 | setting the extension twice and checking the file gives `OriginalFromPretty` |
| AstExport.Decide | src/passes/ast_export.rs:22-40 | the compile run and case assembly give `CompileDecision` |
| AstExport.AdaptCompilation | src/passes/ast_export.rs:19-43 | gives `CompileOutcome` |
| AstExport.FetchEntry | src/passes/ast_export.rs:62-83 | one iteration gives `ExportOne`'s result and store |
| AstExport.Fetch | src/passes/ast_export.rs:50-85 | the sequential loop over the walk gives `ExportAll`'s result and store |
| Driver.DispatchShape | src/main.rs:72-102 | every name expands to instances of that pass only: one for each single-strategy pass, Blake3's four in `variants()` order, libcore's six (V149 with the three steps, then V129 with the same three), and ast-export's two |
| Driver.DispatchDistinct | src/main.rs:72-102 | no instance is dispatched twice |
| Driver.PassDispatch | src/main.rs:72-102 | every name expands to at least one instance, each of that pass |
| Driver.FetchSpec | src/main.rs:154 | only libcore's fetch moves the working directory or the checkout |
| Driver.AdaptSpec | src/main.rs:107 | only the instances that rewrite files change the store |
| Driver.ApplyAllAppend | src/main.rs:104-112 | the suite of two runs of files is the suite of the first followed by the suite of the second, and an error in the first ends it |
| Driver.TestsOnly | src/main.rs:104-112 | keeps exactly the cases that are tests |
| Driver.SkipsRenderNothing | src/main.rs:104-112 | `Skip` cases contribute nothing to a suite |
| Driver.KeepsStoreOf | src/main.rs:104-112 | the `adapt` of an instance that does not rewrite files leaves the store as it is |
| Driver.ApplyAll | src/main.rs:104-112 | an `adapt` that keeps the store leaves it unchanged, and a success needs the first file's `adapt` to succeed |
| Driver.ApplyAllCases | src/main.rs:104-112 | for an `adapt` that keeps the store, `apply_pass` succeeds exactly when every file's `adapt` does, and then gives the rendered cases concatenated in file order |
| Driver.RunPassesShape | src/main.rs:149-168 | success gives one suite per instance: for every i, the instances before the i-th succeed and the i-th suite is what that instance builds from the state they leave |
| Driver.CheckoutsCheckedFirst | src/main.rs:129-134 | a missing rust checkout fails with `NoRust` before gccrs is checked; a missing gccrs checkout fails with `NoGccrs`; neither changes anything |
| Driver.SuiteFileWritten | src/main.rs:143-180 | the file, at `yaml` resolved against the working directory the passes leave, starts with `tests:\n`; it holds the header followed by every suite in dispatch order exactly when every instance succeeds, and the header alone with that error reported otherwise; a panic reports `Panic` and writes nothing |
| Driver.Resolve | src/main.rs:170-174 | a path is opened as given while the working directory is where `main` started, and an absolute path always is |
| Driver.ResolvedUnder | src/passes/libcore.rs:46-49 | a relative path opened from a moved working directory names a file under it |
| Driver.StrandedSuiteFile | src/passes/libcore.rs:46-50 | when git cannot be started for libcore's first checkout, the run fails with `NotFound`, stays in the rust checkout, and writes the header to the test-suite file's path under that checkout |
| Driver.MainSpec | src/main.rs:126-183 | a run without error found both checkouts and had every instance succeed; it created the output directory only when the path was not refused |
| Driver.FetchPass | src/main.rs:154 | fetch through the trait object gives `FetchSpec` |
| Driver.AdaptPass | src/main.rs:107 | adapt through the trait object gives `AdaptSpec` |
| Driver.ApplyPass | src/main.rs:104-112 | the fold over the files gives `ApplyAll` |
| Driver.RunPass | src/main.rs:151-167 | one iteration of `main`'s loop gives `RunOne` |
| Driver.RunAll | src/main.rs:149-168 | the suites in dispatch order, stopping at the first failure, give `RunPasses` |
| Driver.WriteSuites | src/main.rs:170-180 | opening the file, writing the header and then the suites, or failing with the passes' error after the header |
| Driver.Run | src/main.rs:126-183 | `main` after argument parsing gives `MainSpec` |
| AdaptorPass.WithExitCode | rustc-testsuite-adaptor/src/pass.rs:21-23 | only the exit code changes |
| AdaptorPass.WithTimeout | rustc-testsuite-adaptor/src/pass.rs:25-27 | only the timeout changes |
| AdaptorPass.WithName | rustc-testsuite-adaptor/src/pass.rs:29-31 | only the name changes |
| AdaptorPass.WithArg | rustc-testsuite-adaptor/src/pass.rs:33-41 | exactly one argument is appended at the end, and the earlier ones are kept |
| AdaptorPass.WithBinary | rustc-testsuite-adaptor/src/pass.rs:43-48 | only the binary changes |
| AdaptorPass.Default | rustc-testsuite-adaptor/src/pass.rs:11-18 | the derived default has empty name, binary and arguments and zero exit code and timeout |
| AdaptorPass.Render | rustc-testsuite-adaptor/src/pass.rs:51-65 | the rendering starts with the `  - name:` line |
| AdaptorPass.WriteHeader | rustc-testsuite-adaptor/src/pass.rs:53-57 | the five `writeln!` calls produce the five header lines |
| AdaptorPass.Fmt | rustc-testsuite-adaptor/src/pass.rs:51-65 | writing the header and then each argument with `write!` produces `Render(t)` |
| AdaptorPass.ArgsShareOneLine | rustc-testsuite-adaptor/src/pass.rs:59-61 | as written, the rendering splits into the five header lines and then, when there are arguments, one line holding them all |
| AdaptorPass.TwoArgsRenderOnSixLines | rustc-testsuite-adaptor/src/pass.rs:59-61 | a test with two arguments renders as six lines, both arguments on the last |
| AdaptorPass.RenderFixedLines | rustc-testsuite-adaptor/src/pass.rs:53-61 | written one argument per line, the rendering splits into 5 + |args| lines, each argument quoted on its own line in order |
| AdaptorPass.InvalidMessage | rustc-testsuite-adaptor/src/pass.rs:89-93 | the message starts with `invalid pass name provided: ` |
| AdaptorPass.FromStr | rustc-testsuite-adaptor/src/pass.rs:98-104 | succeeds exactly for `gccrs-parsing` and `rustc-dejagnu`; any other string fails with `InvalidPassKind` carrying it |
| AdaptorPass.FromStrSelects | rustc-testsuite-adaptor/src/pass.rs:99-101 | each of the two names selects its own pass, and every pass has a name |
| Adaptor.Stream.Next | rustc-testsuite-adaptor/src/adaptor.rs:14-16 | the item at the position, which moves past it, or nothing at the end |
| Adaptor.FileAdaptor.constructor | rustc-testsuite-adaptor/src/adaptor.rs:20-26 | adapting wraps the stream unchanged |
| Adaptor.FileAdaptor.Next | rustc-testsuite-adaptor/src/adaptor.rs:14-16 | exactly what the wrapped stream's `next` gives; it ends exactly when the wrapped one does |
| Adaptor.Drain | rustc-testsuite-adaptor/src/adaptor.rs:8-17 | draining an adapted stream yields exactly the items the wrapped one had left, in order |
| AdaptorMain.AllLines | rustc-testsuite-adaptor/src/main.rs:63-67 | five lines per copied test |
| AdaptorMain.AllLinesAt | rustc-testsuite-adaptor/src/main.rs:63-67 | the k-th line of the i-th block is at position 5i + k |
| AdaptorMain.YamlSplit | rustc-testsuite-adaptor/src/main.rs:58-70 | the text splits into `tests:` followed by every block's lines |
| AdaptorMain.YamlLines | rustc-testsuite-adaptor/src/main.rs:58-70 | the file has 1 + 5n lines: `tests:`, then for each copy in order its name `Compile p`, the binary, `timeout: 5`, `args:` and the quoted path, with no exit code line |
| AdaptorMain.MainOutcome | rustc-testsuite-adaptor/src/main.rs:50-75 | a missing checkout fails with `NoRustc` before anything is copied; a failed copy ends the run with nothing written; otherwise the file holds the header and one block per copy |
| AdaptorMain.MainSpec | rustc-testsuite-adaptor/src/main.rs:50-75 | never removes a stored file; a run without error found the checkout and wrote the test-suite file, starting with `tests:\n` |
| AdaptorMain.FoldStep | rustc-testsuite-adaptor/src/main.rs:60-70 | one fold step appends the next copy's block |
| AdaptorMain.CopyAndFold | rustc-testsuite-adaptor/src/main.rs:23-48 | the lazy copy stream, adapted and folded, copies as `CopyAll` says and, on success, builds the header followed by one block per copy in order |
| AdaptorMain.Run | rustc-testsuite-adaptor/src/main.rs:50-75 | `main` after argument parsing gives `MainSpec` |

## Findings

| source | as written | input that shows it | evidently intended | confidence | as-written member | corrected member |
|---|---|---|---|---|---|---|
| rustc-testsuite-adaptor/src/pass.rs:59-61 | each argument is written with `write!`, so no newline follows it | a test with arguments `a` and `b` renders as 6 lines, the last one being `      - "a"      - "b"` | one line per argument (`writeln!`), as the generator's own renderer does at src/passes.rs:135-137 | medium (not executed) | AdaptorPass.TwoArgsRenderOnSixLines | AdaptorPass.RenderFixedLines |
| src/passes/libcore.rs:63-67 | returns `output_dir.join(core_path)/src/lib.rs`, and `core_path` already starts with `rust_path` | an absolute `rust_path` gives the checkout's own `library/core/src/lib.rs`, not the copy | the copied root `output_dir/library/core/src/lib.rs`, where `copy_rs_files` put it | medium (not executed) | LibCore.TargetVersusCopy | LibCore.CopiedRootStored |

## Left out

- Process spawning, waiting and killing are not executed. A run is an abstract verdict given by `Process.Runner`.
- Directory trees are not modelled. A walk is an input list, and directories are not created. A path exists when it is a stored file or a walk root, and the working directory always counts as an existing parent. `create_dir` and `create_dir_all` appear only through their errors.
- Paths are not normalised: a relative and an absolute name for one file are different keys, and `.` and `..` are not resolved.
- One set of refused paths covers both reading and writing. A file that can be read but not written is not modelled.
- rayon parallelism is modelled as sequential, order-preserving folds with first-error short-circuit. Under parallelism, which error wins is not fixed; the model always reports the first in order.
- `ThreadPoolBuilder` is left out.
- git is not executed. Only the checked-out revision and the working directory are modelled.
- Argument parsing (clap, structopt) is left out. The parsed arguments are the `Config.Args` value, or `AdaptorMain.Args` for the older crate.
- Logging and `warn_on_file_not_found` (`which`) are left out, because they only print.
- `InvalidPassKind` in src/passes.rs:177-184 has no producer in the generator, since clap parses pass names. The older crate's copy is modelled as `AdaptorPass.InvalidMessage`.
- The Blake3 template is an uninitialised constant string, because its contents are an embedded foreign file.
- UTF-8 validity is abstract: a file's contents are either text or invalid bytes.
- `AstExport::Run` is named by the dispatcher (src/main.rs:99) but not defined in src/passes/ast_export.rs. Its fetch is taken to be the shared one, and its `adapt` outcome is an input (`Runner.astRun`).
- src/passes/ast_export.rs uses `Kind::Crab1`, which src/compiler.rs does not define. It is treated as gccrs (`Rust1`).
- src/passes/gccrs_full_rustc.rs is modelled, but the dispatcher never selects it, as src/passes.rs:1-6 does not declare it. `with_stderr`, which src/passes.rs at this revision does not define, is `Passes.WithStderr`.
- src/passes/gccrs_privacy.rs is left out, because its `adapt` is not implemented.
- rustc-testsuite-adaptor/src/error.rs lacks `NoRustc`. The model adds it to `Errors.Error`.
- The older crate's pass list and `PassKind` are parsed but unused by its `main`, which always copies the UI tests.
- `FileAdaptor` wraps the copy stream before the copies run. The adaptor is the identity, so the order of wrapping makes no difference.
- A panic is the error `Panic`, which ends `main` before the test-suite file is opened. Unwinding, and the other rayon tasks that finish meanwhile, are not modelled.
- Rust's `i32` and `u8` are newtypes. No arithmetic is done on them, so no overflow can arise.
- Strings are sequences of characters. `display()` of a path joins its components with `/`.
