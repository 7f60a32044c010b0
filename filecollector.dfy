/** Collecting the Rust sources of a tree and copying them under the output directory
    (`fetch_rust_files` and `copy_rs_files`, src/main.rs). */
module FileCollector {

  import opened Options
  import opened Paths
  import opened Errors
  import opened Fs

  /** `fetch_rust_files`: the readable entries of a walk whose extension is `rs`, in walk
      order. */
  function RustFiles(walk: seq<WalkItem>): (r: seq<Path>)
    ensures |r| <= |walk|
    ensures forall p :: p in r <==> Entry(p) in walk && Extension(p) == Some("rs")
  {
    if |walk| == 0 then []
    else
      var rest := RustFiles(walk[1..]);
      assert forall w :: w in walk <==> w == walk[0] || w in walk[1..];
      if walk[0].Entry? && Extension(walk[0].path) == Some("rs") then [walk[0].path] + rest else rest
  }

  /** Filtering keeps walk order: the files of two consecutive stretches of a walk are the
      files of the first followed by those of the second. */
  lemma {:induction false} RustFilesConcat(a: seq<WalkItem>, b: seq<WalkItem>)
    ensures RustFiles(a + b) == RustFiles(a) + RustFiles(b)
    decreases |a|
  {
    if |a| == 0 {
      assert a + b == b;
    } else {
      assert (a + b)[1..] == a[1..] + b;
      RustFilesConcat(a[1..], b);
    }
  }

  /** Where `copy_rs_files` puts `p`: `to` joined with `p` stripped of `prefix`. */
  function Destination(p: Path, to: Path, prefix: Path): Path
    requires IsUnder(p, prefix)
  {
    Join(to, StripPrefix(p, prefix).value)
  }

  /** The destination and the directory made for it accept writes. */
  predicate Writable(denied: set<Path>, dest: Path) {
    dest !in denied && (Parent(dest).Some? ==> Parent(dest).value !in denied)
  }

  /** Every step of copying `p` can succeed, given that `p` is a stored file. */
  predicate Copyable(denied: set<Path>, p: Path, to: Path, prefix: Path) {
    IsUnder(p, prefix) && p !in denied && Writable(denied, Destination(p, to, prefix))
  }

  /** One file of `copy_rs_files`: strip the prefix, re-root under `to`, create the parent
      directory, copy. The error of the first failing step, or the destination and the new
      store. */
  function CopyOne(files: map<Path, Content>, denied: set<Path>, p: Path, to: Path, prefix: Path)
    : (r: Result<(Path, map<Path, Content>)>)
    ensures r.Ok? <==> p in files && Copyable(denied, p, to, prefix)
    ensures r.Ok? ==> r.value.0 == Destination(p, to, prefix)
                      && r.value.1 == files[r.value.0 := if r.value.0 == p then Utf8("") else files[p]]
    ensures !IsUnder(p, prefix) ==> r == Err(PathPrefix)
  {
    match StripPrefix(p, prefix)
    case None => Err(PathPrefix)
    case Some(rel) =>
      var dest := Join(to, rel);
      var dirErr := match Parent(dest) case None => None case Some(d) => Access(denied, d);
      if dirErr.Some? then Err(dirErr.value)
      else
        match Copy(files, denied, p, dest)
        case Err(e) => Err(e)
        case Ok(files') => Ok((dest, files'))
  }

  /** The destinations of the sources that lie under `prefix`. */
  function Destinations(srcs: seq<Path>, to: Path, prefix: Path): set<Path> {
    if |srcs| == 0 then {}
    else (if IsUnder(srcs[0], prefix) then {Destination(srcs[0], to, prefix)} else {})
         + Destinations(srcs[1..], to, prefix)
  }

  /** `copy_rs_files` over the sources `srcs`, one after another, stopping at the first error:
      the destinations in order or that error, and the store afterwards (the copies made before
      an error stay). */
  function CopyAll(files: map<Path, Content>, denied: set<Path>, srcs: seq<Path>, to: Path, prefix: Path)
    : (r: (Result<seq<Path>>, map<Path, Content>))
    ensures files.Keys <= r.1.Keys
    ensures r.0.Ok? ==> |r.0.value| == |srcs|
    decreases |srcs|
  {
    if |srcs| == 0 then (Ok([]), files)
    else
      match CopyOne(files, denied, srcs[0], to, prefix)
      case Err(e) => (Err(e), files)
      case Ok((dest, files')) =>
        var (rest, files'') := CopyAll(files', denied, srcs[1..], to, prefix);
        (if rest.Ok? then Ok([dest] + rest.value) else Err(rest.error), files'')
  }

  /** Copies only add files; on success the i-th destination is the i-th source re-rooted
      under `to`, and it is stored. */
  lemma {:induction false} CopyAllShape(files: map<Path, Content>, denied: set<Path>, srcs: seq<Path>, to: Path, prefix: Path)
    ensures var r := CopyAll(files, denied, srcs, to, prefix);
            && files.Keys <= r.1.Keys
            && (r.0.Ok? ==> |r.0.value| == |srcs|)
            && (r.0.Ok? ==> forall i :: 0 <= i < |srcs| ==>
                  IsUnder(srcs[i], prefix) && r.0.value[i] == Destination(srcs[i], to, prefix) && r.0.value[i] in r.1)
    decreases |srcs|
  {
    if |srcs| > 0 {
      var one := CopyOne(files, denied, srcs[0], to, prefix);
      if one.Ok? {
        CopyAllShape(one.value.1, denied, srcs[1..], to, prefix);
      }
    }
  }

  /** Copying succeeds exactly when every source can be copied. */
  lemma {:induction false} CopyAllOk(files: map<Path, Content>, denied: set<Path>, srcs: seq<Path>, to: Path, prefix: Path)
    requires forall i :: 0 <= i < |srcs| ==> srcs[i] in files
    ensures CopyAll(files, denied, srcs, to, prefix).0.Ok?
            <==> forall i :: 0 <= i < |srcs| ==> Copyable(denied, srcs[i], to, prefix)
    decreases |srcs|
  {
    if |srcs| > 0 {
      var one := CopyOne(files, denied, srcs[0], to, prefix);
      if one.Ok? {
        var files' := one.value.1;
        assert forall i :: 0 <= i < |srcs[1..]| ==> srcs[1..][i] == srcs[i + 1];
        CopyAllOk(files', denied, srcs[1..], to, prefix);
        if forall i :: 0 <= i < |srcs[1..]| ==> Copyable(denied, srcs[1..][i], to, prefix) {
          assert forall i :: 0 <= i < |srcs| ==> Copyable(denied, srcs[i], to, prefix) by {
            forall i | 0 <= i < |srcs| ensures Copyable(denied, srcs[i], to, prefix) {
              if i > 0 { assert srcs[i] == srcs[1..][i - 1]; }
            }
          }
        }
      }
    }
  }

  /** Copies write only to destinations: every other stored file is left alone. */
  lemma {:induction false} CopyAllFrame(files: map<Path, Content>, denied: set<Path>, srcs: seq<Path>, to: Path, prefix: Path)
    ensures var files' := CopyAll(files, denied, srcs, to, prefix).1;
            forall p :: p in files && p !in Destinations(srcs, to, prefix) ==> p in files' && files'[p] == files[p]
    decreases |srcs|
  {
    if |srcs| > 0 {
      var one := CopyOne(files, denied, srcs[0], to, prefix);
      if one.Ok? {
        CopyAllFrame(one.value.1, denied, srcs[1..], to, prefix);
      }
    }
  }

  /** Copies never write over a source, so each destination ends up holding its source's
      contents and every other stored file is left alone. */
  lemma {:induction false} CopyAllContents(files: map<Path, Content>, denied: set<Path>, srcs: seq<Path>, to: Path, prefix: Path)
    requires forall i :: 0 <= i < |srcs| ==> srcs[i] in files
    requires forall i, j :: 0 <= i < |srcs| && 0 <= j < |srcs| && IsUnder(srcs[i], prefix) ==>
               Destination(srcs[i], to, prefix) != srcs[j]
    ensures var (res, files') := CopyAll(files, denied, srcs, to, prefix);
            (forall p :: p in files && p !in Destinations(srcs, to, prefix) ==> p in files' && files'[p] == files[p])
            && (res.Ok? ==> |res.value| == |srcs| && forall i :: 0 <= i < |srcs| ==>
                  res.value[i] in files' && files'[res.value[i]] == files[srcs[i]])
  {
    CopyAllFrame(files, denied, srcs, to, prefix);
    var (res, files') := CopyAll(files, denied, srcs, to, prefix);
    if res.Ok? {
      forall i | 0 <= i < |srcs|
        ensures res.value[i] in files' && files'[res.value[i]] == files[srcs[i]]
      {
        ContentAt(files, denied, srcs, to, prefix, i);
      }
    }
  }

  /** The i-th destination of a successful run of copies holds the i-th source's contents. */
  lemma {:induction false} ContentAt(files: map<Path, Content>, denied: set<Path>, srcs: seq<Path>, to: Path, prefix: Path, i: nat)
    requires forall i :: 0 <= i < |srcs| ==> srcs[i] in files
    requires forall i, j :: 0 <= i < |srcs| && 0 <= j < |srcs| && IsUnder(srcs[i], prefix) ==>
               Destination(srcs[i], to, prefix) != srcs[j]
    requires i < |srcs| && CopyAll(files, denied, srcs, to, prefix).0.Ok?
    ensures var (res, files') := CopyAll(files, denied, srcs, to, prefix);
            res.value[i] in files' && files'[res.value[i]] == files[srcs[i]]
    decreases |srcs|
  {
    var one := CopyOne(files, denied, srcs[0], to, prefix);
    var (d0, files1) := one.value;
    assert d0 != srcs[0];
    var tail := srcs[1..];
    assert forall k :: 0 <= k < |tail| ==> tail[k] == srcs[k + 1];
    var (rest, files2) := CopyAll(files1, denied, tail, to, prefix);
    if i == 0 {
      if d0 in Destinations(tail, to, prefix) {
        var j := DestinationSource(tail, to, prefix, d0);
        DestinationInjective(srcs[0], tail[j], to, prefix);
        CopyAllShape(files1, denied, tail, to, prefix);
        ContentAt(files1, denied, tail, to, prefix, j);
      } else {
        CopyAllFrame(files1, denied, tail, to, prefix);
      }
    } else {
      assert srcs[i] != d0;
      ContentAt(files1, denied, tail, to, prefix, i - 1);
    }
  }

  /** A member of `Destinations` is the destination of some source. */
  lemma {:induction false} DestinationSource(srcs: seq<Path>, to: Path, prefix: Path, d: Path) returns (j: nat)
    requires d in Destinations(srcs, to, prefix)
    ensures j < |srcs| && IsUnder(srcs[j], prefix) && Destination(srcs[j], to, prefix) == d
    decreases |srcs|
  {
    if IsUnder(srcs[0], prefix) && Destination(srcs[0], to, prefix) == d {
      j := 0;
    } else {
      var k := DestinationSource(srcs[1..], to, prefix, d);
      j := k + 1;
    }
  }

  /** Two sources under `prefix` with the same destination are the same path. */
  lemma DestinationInjective(p: Path, q: Path, to: Path, prefix: Path)
    requires IsUnder(p, prefix) && IsUnder(q, prefix)
    ensures Destination(p, to, prefix) == Destination(q, to, prefix) ==> p == q
  {
    var rp, rq := StripPrefix(p, prefix).value, StripPrefix(q, prefix).value;
    if Destination(p, to, prefix) == Destination(q, to, prefix) {
      assert Join(to, rp).comps[|to.comps|..] == rp.comps;
      assert Join(to, rq).comps[|to.comps|..] == rq.comps;
    }
  }

  /** Each copied file lies under the directory it was copied to. */
  lemma CopiedUnder(files: map<Path, Content>, denied: set<Path>, srcs: seq<Path>, to: Path, prefix: Path)
    ensures var res := CopyAll(files, denied, srcs, to, prefix).0;
            res.Ok? ==> forall i :: 0 <= i < |res.value| ==> IsUnder(res.value[i], to)
  {
    var res := CopyAll(files, denied, srcs, to, prefix).0;
    CopyAllShape(files, denied, srcs, to, prefix);
    if res.Ok? {
      forall i | 0 <= i < |res.value| ensures IsUnder(res.value[i], to) {
        JoinIsUnder(to, StripPrefix(srcs[i], prefix).value);
      }
    }
  }

  /** The destinations found so far put in front of the outcome of the remaining copies. */
  function After(done: seq<Path>, r: (Result<seq<Path>>, map<Path, Content>)): (Result<seq<Path>>, map<Path, Content>) {
    (if r.0.Ok? then Ok(done + r.0.value) else r.0, r.1)
  }

  /** `CopyAll` takes one step: the first copy, then the rest. */
  lemma CopyAllUnfold(files: map<Path, Content>, denied: set<Path>, srcs: seq<Path>, to: Path, prefix: Path)
    requires |srcs| > 0
    ensures var one := CopyOne(files, denied, srcs[0], to, prefix);
            && (one.Err? ==> CopyAll(files, denied, srcs, to, prefix) == (Err(one.error), files))
            && (one.Ok? ==> CopyAll(files, denied, srcs, to, prefix)
                            == After([one.value.0], CopyAll(one.value.1, denied, srcs[1..], to, prefix)))
  {
  }

  lemma AfterAfter(done: seq<Path>, d: Path, x: (Result<seq<Path>>, map<Path, Content>))
    ensures After(done, After([d], x)) == After(done + [d], x)
  {
    if x.0.Ok? {
      assert done + ([d] + x.0.value) == (done + [d]) + x.0.value;
    }
  }

  /** One turn of `copy_rs_files`' loop: the outcome after the copies made so far is decided
      by the next copy, then by the rest. */
  lemma CopyAllStep(done: seq<Path>, files: map<Path, Content>, denied: set<Path>, srcs: seq<Path>, i: nat,
                    to: Path, prefix: Path)
    requires i < |srcs|
    ensures var one := CopyOne(files, denied, srcs[i], to, prefix);
            && (one.Err? ==> After(done, CopyAll(files, denied, srcs[i..], to, prefix)) == (Err(one.error), files))
            && (one.Ok? ==> After(done, CopyAll(files, denied, srcs[i..], to, prefix))
                            == After(done + [one.value.0], CopyAll(one.value.1, denied, srcs[i + 1..], to, prefix)))
  {
    assert srcs[i..][0] == srcs[i] && srcs[i..][1..] == srcs[i + 1..];
    CopyAllUnfold(files, denied, srcs[i..], to, prefix);
    var one := CopyOne(files, denied, srcs[i], to, prefix);
    if one.Ok? {
      AfterAfter(done, one.value.0, CopyAll(one.value.1, denied, srcs[i + 1..], to, prefix));
    }
  }

  /** The body of the closure `copy_rs_files` maps over the files: copy one entry. */
  method CopyEntry(fs: FileSystem, p: Path, to: Path, prefix: Path) returns (r: Result<Path>)
    modifies fs
    ensures var one := CopyOne(old(fs.files), fs.denied, p, to, prefix);
            && (one.Ok? ==> r == Ok(one.value.0) && fs.files == one.value.1)
            && (one.Err? ==> r == Err(one.error) && fs.files == old(fs.files))
    ensures fs.cwd == old(fs.cwd)
  {
    var rel := StripPrefix(p, prefix);
    if rel.None? {
      return Err(PathPrefix);
    }
    var dest := Join(to, rel.value);
    var parent := Parent(dest);
    if parent.Some? {
      var err := fs.CreateDirAll(parent.value);
      if err.Some? {
        return Err(err.value);
      }
    }
    var err := fs.CopyFile(p, dest);
    if err.Some? {
      return Err(err.value);
    }
    r := Ok(dest);
  }

  /** `copy_rs_files(from, to, prefix)`. */
  method CopyRsFiles(fs: FileSystem, from: Path, to: Path, prefix: Path) returns (r: Result<seq<Path>>)
    modifies fs
    ensures (r, fs.files) == CopyAll(old(fs.files), fs.denied, RustFiles(fs.Walk(from)), to, prefix)
    ensures fs.cwd == old(fs.cwd)
  {
    var srcs := RustFiles(fs.Walk(from));
    ghost var all := CopyAll(fs.files, fs.denied, srcs, to, prefix);
    var done: seq<Path> := [];
    var i := 0;
    assert srcs[0..] == srcs;
    assert all.0.Ok? ==> [] + all.0.value == all.0.value;
    while i < |srcs|
      invariant 0 <= i <= |srcs|
      invariant all == After(done, CopyAll(fs.files, fs.denied, srcs[i..], to, prefix))
      invariant fs.cwd == old(fs.cwd)
    {
      CopyAllStep(done, fs.files, fs.denied, srcs, i, to, prefix);
      var one := CopyEntry(fs, srcs[i], to, prefix);
      if one.Err? {
        return Err(one.error);
      }
      done := done + [one.value];
      i := i + 1;
    }
    assert srcs[i..] == [];
    assert done + [] == done;
    r := Ok(done);
  }
}
