/** The filesystem the generator reads and writes, as an abstract store. File contents are
    either valid UTF-8 text or bytes that are not; directories are not tracked, except as the
    roots a directory walk can start from. */
module Fs {

  import opened Options
  import opened Paths
  import opened Errors

  /** A file's bytes: valid UTF-8 (`String::from_utf8` succeeds) or not. */
  datatype Content = Utf8(text: string) | NonUtf8

  /** One item a `WalkDir` iteration yields: an entry, or an entry that could not be read. */
  datatype WalkItem = Entry(path: Path) | Unreadable

  /** `fs::read` of `p`: fails for a path the environment refuses or a missing file. */
  function Read(files: map<Path, Content>, denied: set<Path>, p: Path): (r: Result<Content>)
    ensures r.Ok? <==> p !in denied && p in files
    ensures r.Ok? ==> r.value == files[p]
  {
    if p in denied then Err(Io(PermissionDenied))
    else if p !in files then Err(Io(NotFound))
    else Ok(files[p])
  }

  /** `fs::read_to_string` of `p`: as `Read`, and fails with `InvalidData` on invalid UTF-8. */
  function ReadText(files: map<Path, Content>, denied: set<Path>, p: Path): (r: Result<string>)
    ensures r.Ok? <==> Read(files, denied, p).Ok? && files[p].Utf8?
    ensures r.Ok? ==> files[p] == Utf8(r.value)
  {
    match Read(files, denied, p)
    case Err(e) => Err(e)
    case Ok(Utf8(text)) => Ok(text)
    case Ok(NonUtf8) => Err(Io(InvalidData))
  }

  /** The error, if any, of an operation that only needs `p` to be accessible
      (`fs::write` of `p`, `fs::create_dir_all(p)`). */
  function Access(denied: set<Path>, p: Path): Option<Error> {
    if p in denied then Some(Io(PermissionDenied)) else None
  }

  /** `fs::copy(from, to)`: the error, or the new contents of the store. The target is opened
      with truncation after the source is opened, so a file copied onto itself ends up empty. */
  function Copy(files: map<Path, Content>, denied: set<Path>, from: Path, to: Path): (r: Result<map<Path, Content>>)
    ensures r.Ok? <==> Read(files, denied, from).Ok? && to !in denied
    ensures r.Ok? && from != to ==> r.value == files[to := files[from]]
    ensures r.Ok? && from == to ==> r.value == files[to := Utf8("")]
  {
    match Read(files, denied, from)
    case Err(e) => Err(e)
    case Ok(c) =>
      if to in denied then Err(Io(PermissionDenied))
      else if from == to then Ok(files[to := Utf8("")])
      else Ok(files[to := c])
  }

  /** The directory `fs::create_dir(p)` creates `p` in exists: a root has none to need, a
      one-component relative path is made in the working directory, and any other parent must
      be present. */
  predicate ParentExists(files: map<Path, Content>, tree: map<Path, seq<WalkItem>>, p: Path) {
    match Parent(p)
    case None => true
    case Some(d) => (!d.absolute && d.comps == []) || Present(files, tree, d)
  }

  /** The error of `fs::create_dir(p)`, if any: a refused path, or a missing parent (unlike
      `create_dir_all`, it makes one directory only). */
  function MakeDir(files: map<Path, Content>, denied: set<Path>, tree: map<Path, seq<WalkItem>>, p: Path): (r: Option<Error>)
    ensures r.None? <==> p !in denied && ParentExists(files, tree, p)
    ensures r.Some? && p !in denied ==> r == Some(Io(NotFound))
  {
    if p in denied then Some(Io(PermissionDenied))
    else if !ParentExists(files, tree, p) then Some(Io(NotFound))
    else None
  }

  /** `WalkDir::new(root)` over `tree`: a root that cannot be walked yields a single error item. */
  function WalkOf(tree: map<Path, seq<WalkItem>>, root: Path): seq<WalkItem> {
    if root in tree then tree[root] else [Unreadable]
  }

  /** `p.exists()`: a stored file, or a directory a walk can start from. */
  predicate Present(files: map<Path, Content>, tree: map<Path, seq<WalkItem>>, p: Path) {
    p in files || p in tree
  }

  /** The error of `env::set_current_dir(p)`, if any: a refused path, or one that is not a
      directory. */
  function ChangeDir(denied: set<Path>, tree: map<Path, seq<WalkItem>>, p: Path): (r: Option<Error>)
    ensures r.None? <==> p !in denied && p in tree
  {
    if p in denied then Some(Io(PermissionDenied))
    else if p !in tree then Some(Io(NotFound))
    else None
  }

  /** `env::current_dir()`: the working directory, unless it cannot be read (a refused
      path). */
  function CurrentDir(denied: set<Path>, cwd: Path): (r: Result<Path>)
    ensures r.Ok? <==> cwd !in denied
    ensures r.Ok? ==> r.value == cwd
    ensures r.Err? ==> r.error == Io(PermissionDenied)
  {
    if cwd in denied then Err(Io(PermissionDenied)) else Ok(cwd)
  }

  /** The host's filesystem and process working directory. `denied` (the paths on which every
      operation fails) and `tree` (what a directory walk from each root yields, in walk order)
      are inputs the model does not change. */
  class FileSystem {
    var files: map<Path, Content>
    var cwd: Path
    const denied: set<Path>
    const tree: map<Path, seq<WalkItem>>

    constructor (files: map<Path, Content>, cwd: Path, denied: set<Path>, tree: map<Path, seq<WalkItem>>)
      ensures this.files == files && this.cwd == cwd && this.denied == denied && this.tree == tree
    {
      this.files, this.cwd, this.denied, this.tree := files, cwd, denied, tree;
    }

    /** `WalkDir::new(root)`. */
    function Walk(root: Path): seq<WalkItem> {
      WalkOf(tree, root)
    }

    /** `p.exists()`. */
    predicate Exists(p: Path)
      reads this
    {
      Present(files, tree, p)
    }

    method ReadBytes(p: Path) returns (r: Result<Content>)
      ensures r == Read(files, denied, p)
    {
      r := Read(files, denied, p);
    }

    method ReadToString(p: Path) returns (r: Result<string>)
      ensures r == ReadText(files, denied, p)
    {
      r := ReadText(files, denied, p);
    }

    /** `fs::write(p, text)`. */
    method Write(p: Path, text: string) returns (err: Option<Error>)
      modifies this
      ensures err == Access(denied, p)
      ensures files == if err.None? then old(files)[p := Utf8(text)] else old(files)
      ensures cwd == old(cwd)
    {
      err := Access(denied, p);
      if err.None? {
        files := files[p := Utf8(text)];
      }
    }

    /** `fs::create_dir_all(p)`; directories are not tracked, so only its failure is visible. */
    method CreateDirAll(p: Path) returns (err: Option<Error>)
      ensures err == Access(denied, p)
    {
      err := Access(denied, p);
    }

    /** `fs::create_dir(p)`; only its failure is visible. */
    method CreateDir(p: Path) returns (err: Option<Error>)
      ensures err == MakeDir(files, denied, tree, p)
    {
      if p in denied {
        err := Some(Io(PermissionDenied));
      } else if !ParentExists(files, tree, p) {
        err := Some(Io(NotFound));
      } else {
        err := None;
      }
    }

    /** `fs::copy(from, to)`. */
    method CopyFile(from: Path, to: Path) returns (err: Option<Error>)
      modifies this
      ensures err.None? <==> Copy(old(files), denied, from, to).Ok?
      ensures files == if err.None? then Copy(old(files), denied, from, to).value else old(files)
      ensures err.Some? ==> Copy(old(files), denied, from, to) == Err(err.value)
      ensures cwd == old(cwd)
    {
      var r := Copy(files, denied, from, to);
      if r.Ok? {
        files := r.value;
        err := None;
      } else {
        err := Some(r.error);
      }
    }

    /** `env::current_dir()`. */
    method GetCurrentDir() returns (r: Result<Path>)
      ensures r == CurrentDir(denied, cwd)
    {
      if cwd in denied {
        r := Err(Io(PermissionDenied));
      } else {
        r := Ok(cwd);
      }
    }

    /** `env::set_current_dir(p)`: fails for a refused path or one that is not a directory. */
    method SetCurrentDir(p: Path) returns (err: Option<Error>)
      modifies this
      ensures err == ChangeDir(denied, tree, p)
      ensures cwd == if err.None? then p else old(cwd)
      ensures files == old(files)
    {
      if p in denied {
        err := Some(Io(PermissionDenied));
      } else if p !in tree {
        err := Some(Io(NotFound));
      } else {
        err := None;
        cwd := p;
      }
    }
  }
}
