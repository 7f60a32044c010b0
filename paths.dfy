/** Filesystem paths as Rust's `std::path` treats them: an optional root and a list of
    components. Only the operations the generator applies are modelled. */
module Paths {

  import opened Options
  import opened Strings

  datatype Path = Path(absolute: bool, comps: seq<string>)

  /** A relative path made of the given components (`Path::new("a").join("b")`). */
  function Rel(comps: seq<string>): Path {
    Path(false, comps)
  }

  /** `base.join(p)`: an absolute `p` replaces `base` entirely. */
  function Join(base: Path, p: Path): Path {
    if p.absolute then p else Path(base.absolute, base.comps + p.comps)
  }

  /** `p` lies under `dir` (`p.starts_with(dir)`), comparing whole components. */
  predicate IsUnder(p: Path, dir: Path) {
    p.absolute == dir.absolute && |dir.comps| <= |p.comps| && p.comps[..|dir.comps|] == dir.comps
  }

  /** `p.strip_prefix(prefix)`: the relative rest of `p`, or `None` for `StripPrefixError`. */
  function StripPrefix(p: Path, prefix: Path): (r: Option<Path>)
    ensures r.Some? <==> IsUnder(p, prefix)
    ensures r.Some? ==> !r.value.absolute && Join(prefix, r.value) == p
  {
    if IsUnder(p, prefix) then Some(Rel(p.comps[|prefix.comps|..])) else None
  }

  /** Stripping a base from a path just joined onto it gives back the joined part. */
  lemma StripJoin(base: Path, rest: Path)
    requires !rest.absolute
    ensures StripPrefix(Join(base, rest), base) == Some(rest)
  {
    assert Join(base, rest).comps[|base.comps|..] == rest.comps;
  }

  /** A relative path joined onto `dir` lies under `dir`. */
  lemma JoinIsUnder(dir: Path, rest: Path)
    requires !rest.absolute
    ensures IsUnder(Join(dir, rest), dir)
  {
    assert Join(dir, rest).comps[..|dir.comps|] == dir.comps;
  }

  /** `p.parent()`: `None` for a path without components (the root, or the empty path). */
  function Parent(p: Path): (r: Option<Path>)
    ensures r.Some? <==> |p.comps| > 0
    ensures r.Some? ==> r.value.absolute == p.absolute && r.value.comps + [p.comps[|p.comps| - 1]] == p.comps
  {
    if |p.comps| == 0 then None else Some(Path(p.absolute, p.comps[..|p.comps| - 1]))
  }

  /** `p.display()`. */
  function Display(p: Path): string {
    (if p.absolute then "/" else "") + JoinWith("/", p.comps)
  }

  /** `p.file_name()`: the last component unless it is `..` or `.`. */
  function FileName(p: Path): Option<string> {
    if |p.comps| == 0 then None
    else
      var last := p.comps[|p.comps| - 1];
      if last == ".." || last == "." then None else Some(last)
  }

  /** Rust's `rsplit_file_at_dot`: the parts before and after the last dot of a file name,
      where a name whose only dot is its first character has no extension. */
  function SplitAtDot(name: string): (Option<string>, Option<string>) {
    if name == ".." then (Some(name), None)
    else
      LastIndexOfSpec(name, '.');
      match LastIndexOf(name, '.')
      case None => (None, Some(name))
      case Some(i) => if i == 0 then (Some(name), None) else (Some(name[..i]), Some(name[i + 1..]))
  }

  /** `p.extension()`. */
  function Extension(p: Path): (r: Option<string>)
    ensures r.Some? ==> '.' !in r.value
  {
    match FileName(p)
    case None => None
    case Some(name) =>
      LastIndexOfSpec(name, '.');
      var (before, after) := SplitAtDot(name);
      if before.Some? then after else None
  }

  /** `p.file_stem()`. */
  function FileStem(p: Path): Option<string> {
    match FileName(p)
    case None => None
    case Some(name) =>
      var (before, after) := SplitAtDot(name);
      if before.Some? then before else after
  }

  /** `p.with_extension(ext)`: the last component becomes the stem followed by `.ext`
      (or the stem alone for an empty `ext`); a path without a file name is unchanged. */
  function WithExtension(p: Path, ext: string): Path {
    match FileStem(p)
    case None => p
    case Some(stem) =>
      Path(p.absolute, p.comps[..|p.comps| - 1] + [if ext == "" then stem else stem + "." + ext])
  }

  /** The shape of a file name that has an extension: a non-empty stem, a dot, the extension. */
  lemma ExtensionShape(p: Path)
    requires Extension(p).Some?
    ensures |p.comps| > 0 && FileStem(p).Some?
    ensures |FileStem(p).value| > 0
    ensures p.comps[|p.comps| - 1] == FileStem(p).value + "." + Extension(p).value
  {
    var name := p.comps[|p.comps| - 1];
    LastIndexOfSpec(name, '.');
    var i := LastIndexOf(name, '.').value;
    assert name == name[..i] + "." + name[i + 1..];
  }

  /** Replacing an existing extension by one without dots changes only the extension. */
  lemma {:induction false} WithExtensionOf(p: Path, ext: string)
    requires Extension(p).Some? && ext != "" && '.' !in ext
    ensures Extension(WithExtension(p, ext)) == Some(ext)
    ensures FileStem(WithExtension(p, ext)) == FileStem(p)
    ensures WithExtension(p, ext).absolute == p.absolute
    ensures WithExtension(p, ext).comps[..|p.comps| - 1] == p.comps[..|p.comps| - 1]
    ensures |WithExtension(p, ext).comps| == |p.comps|
  {
    ExtensionShape(p);
    var stem := FileStem(p).value;
    var q := WithExtension(p, ext);
    var name := stem + "." + ext;
    assert q.comps[|q.comps| - 1] == name;
    LastIndexOfAppend(stem, '.', ext);
    assert stem + "." + ext == stem + ['.'] + ext;
    assert name[..|stem|] == stem;
    assert name[|stem| + 1..] == ext;
  }

  /** Setting the extension a path already has changes nothing. */
  lemma WithSameExtension(p: Path, ext: string)
    requires Extension(p) == Some(ext) && ext != ""
    ensures WithExtension(p, ext) == p
  {
    ExtensionShape(p);
    var q := WithExtension(p, ext);
    assert q.comps == p.comps[..|p.comps| - 1] + [p.comps[|p.comps| - 1]];
  }

  /** Swapping an `rs` extension for `pretty-rs` and back restores the path. */
  lemma PrettyRoundTrip(p: Path)
    requires Extension(p) == Some("rs")
    ensures Extension(WithExtension(p, "pretty-rs")) == Some("pretty-rs")
    ensures WithExtension(WithExtension(p, "pretty-rs"), "rs") == p
  {
    var q := WithExtension(p, "pretty-rs");
    WithExtensionOf(p, "pretty-rs");
    WithExtensionOf(q, "rs");
    ExtensionShape(p);
    var r := WithExtension(q, "rs");
    assert r.comps == r.comps[..|r.comps| - 1] + [r.comps[|r.comps| - 1]];
    assert p.comps == p.comps[..|p.comps| - 1] + [p.comps[|p.comps| - 1]];
  }

  /** Joining a file path onto a directory keeps its extension (an absolute path is its own join). */
  lemma JoinExtension(dir: Path, p: Path)
    requires Extension(p).Some?
    ensures Extension(Join(dir, p)) == Extension(p)
    ensures WithExtension(Join(dir, p), "pretty-rs") == Join(dir, WithExtension(p, "pretty-rs"))
  {
    if !p.absolute {
      var j := Join(dir, p);
      assert j.comps[|j.comps| - 1] == p.comps[|p.comps| - 1];
      assert j.comps[..|j.comps| - 1] == dir.comps + p.comps[..|p.comps| - 1];
    } else {
      WithExtensionOf(p, "pretty-rs");
    }
  }
}
