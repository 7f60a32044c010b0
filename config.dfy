/** The run configuration (src/args.rs). The selected pass is handed to `Driver.Run` on its
    own, because its type is declared with the passes. */
module Config {

  import opened Paths

  datatype Args = Args(
    outputDir: Path,
    yaml: Path,
    rustc: Path,
    gccrs: Path,
    rustPath: Path,
    gccrsPath: Path,
    jobs: nat)
}
