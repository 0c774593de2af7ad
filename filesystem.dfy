/**
 * The part of the operating system the organizer works on: a tree of
 * directories and files, `os.mkdir`, `os.makedirs(..., exist_ok=True)`,
 * `shutil.move` of a file and `os.listdir`.
 *
 * A path is the sequence of its components below one root, and a file's
 * content is an opaque number. `order` lists every entry in the order it
 * appeared; a directory listing follows it.
 */
module FileSys {
  import opened Wrappers

  type Path = seq<string>

  type Blob = nat

  datatype OsError = FileExists | FileNotFound | NotADirectory

  datatype Fs = Fs(dirs: set<Path>, files: map<Path, Blob>, order: seq<Path>)

  /** The state after an operation, and the error it raised, if any */
  datatype Step = Step(fs: Fs, err: Option<OsError>)

  function Parent(p: Path): Path
    requires p != []
  {
    p[..|p| - 1]
  }

  /** The root is always a directory. */
  predicate IsDir(fs: Fs, p: Path) { p == [] || p in fs.dirs }

  predicate IsFile(fs: Fs, p: Path) { p in fs.files }

  predicate Exists(fs: Fs, p: Path) { IsDir(fs, p) || IsFile(fs, p) }

  predicate NoDuplicates(s: seq<Path>)
  {
    forall i, j :: 0 <= i < j < |s| ==> s[i] != s[j]
  }

  /**
   * A tree: no path is both a directory and a file, every entry sits in a
   * directory, and `order` lists every entry once.
   */
  ghost predicate WellFormed(fs: Fs)
  {
    && [] !in fs.dirs && [] !in fs.files
    && (forall p :: p in fs.dirs ==> p !in fs.files)
    && (forall p :: p in fs.dirs ==> p != [] && IsDir(fs, Parent(p)))
    && (forall p :: p in fs.files ==> p != [] && IsDir(fs, Parent(p)))
    && (forall p :: p in fs.order <==> p in fs.dirs || p in fs.files)
    && NoDuplicates(fs.order)
  }

  // ---------------------------------------------------------------- os.mkdir

  /** `os.mkdir(p)`: the parent must be an existing directory and `p` must not exist. */
  function AfterMkdir(fs: Fs, p: Path): Step
  {
    if Exists(fs, p) then Step(fs, Some(FileExists))
    else if !Exists(fs, Parent(p)) then Step(fs, Some(FileNotFound))
    else if IsFile(fs, Parent(p)) then Step(fs, Some(NotADirectory))
    else Step(Fs(fs.dirs + {p}, fs.files, fs.order + [p]), None)
  }

  /**
   * `os.makedirs(p, exist_ok=True)`: a missing parent is made first (its
   * `FileExistsError` swallowed), then `p` itself; a failing `mkdir` is
   * forgiven when `p` is a directory by then.
   */
  function AfterMakeDirs(fs: Fs, p: Path): Step
    decreases |p|
  {
    if p == [] then Step(fs, None)
    else
      var head := Parent(p);
      var up :=
        if head != [] && !Exists(fs, head) then
          var r := AfterMakeDirs(fs, head);
          if r.err == Some(FileExists) then Step(r.fs, None) else r
        else Step(fs, None);
      if up.err.Some? then up
      else
        var m := AfterMkdir(up.fs, p);
        if m.err.Some? && IsDir(up.fs, p) then Step(up.fs, None) else m
  }

  // ---------------------------------------------------------------- shutil.move

  /** `order` without `p` */
  function Without(s: seq<Path>, p: Path): (r: seq<Path>)
    ensures forall q :: q in r <==> q in s && q != p
    ensures NoDuplicates(s) ==> NoDuplicates(r)
  {
    if s == [] then []
    else
      var init := s[..|s| - 1];
      var front := Without(init, p);
      assert forall q :: q in s <==> q in init || q == s[|s| - 1];
      assert NoDuplicates(s) ==> NoDuplicates(init) && s[|s| - 1] !in init by {
        if NoDuplicates(s) {
          forall q | q in init ensures q != s[|s| - 1] {
            var i :| 0 <= i < |init| && init[i] == q;
            assert s[i] == q;
          }
        }
      }
      if s[|s| - 1] == p then front else front + [s[|s| - 1]]
  }

  /**
   * `shutil.move(src, dst)` of a file to a path that does not exist yet:
   * the file keeps its content under its new path.
   */
  function AfterMove(fs: Fs, src: Path, dst: Path): Step
  {
    if !IsFile(fs, src) then Step(fs, Some(FileNotFound))
    else if Exists(fs, dst) then Step(fs, Some(FileExists))
    else if !Exists(fs, Parent(dst)) then Step(fs, Some(FileNotFound))
    else if IsFile(fs, Parent(dst)) then Step(fs, Some(NotADirectory))
    else Step(Fs(fs.dirs, (fs.files - {src})[dst := fs.files[src]], Without(fs.order, src) + [dst]), None)
  }

  // ---------------------------------------------------------------- os.listdir

  /** The names of the entries directly inside `d`, in the order they appeared */
  function Children(order: seq<Path>, d: Path): (names: seq<string>)
    ensures forall x :: x in names <==> d + [x] in order
  {
    if order == [] then []
    else
      var last := order[|order| - 1];
      var front := Children(order[..|order| - 1], d);
      assert forall q :: q in order <==> q in order[..|order| - 1] || q == last;
      if last != [] && Parent(last) == d then
        assert last == d + [last[|last| - 1]];
        front + [last[|last| - 1]]
      else front
  }

  /** `os.listdir(d)` */
  function Listing(fs: Fs, d: Path): seq<string>
  {
    Children(fs.order, d)
  }

  // ---------------------------------------------------------------- properties

  /** In a well-formed tree, a name is listed in `d` exactly when `d/name` exists. */
  lemma {:induction false} ListDirIff(fs: Fs, d: Path, x: string)
    requires WellFormed(fs)
    ensures x in Listing(fs, d) <==> Exists(fs, d + [x])
  {
    assert d + [x] != [];
  }

  lemma {:induction false} MkdirWellFormed(fs: Fs, p: Path)
    requires WellFormed(fs)
    ensures WellFormed(AfterMkdir(fs, p).fs)
  {
    var r := AfterMkdir(fs, p);
    if r.err.None? {
      assert p !in fs.order;
      assert p != [] && IsDir(fs, Parent(p));
    }
  }

  lemma {:induction false} MoveWellFormed(fs: Fs, src: Path, dst: Path)
    requires WellFormed(fs)
    ensures WellFormed(AfterMove(fs, src, dst).fs)
  {
    var r := AfterMove(fs, src, dst);
    if r.err.None? {
      assert dst !in fs.order;
      var w := Without(fs.order, src);
      assert dst !in w;
      assert forall q :: q in r.fs.order <==> q in w || q == dst;
      forall q | q in r.fs.files ensures q != [] && IsDir(r.fs, Parent(q)) {
        if q != dst {
          assert q in fs.files;
        }
      }
    }
  }

  /** A failing operation changes nothing. */
  lemma {:induction false} FailedStepsChangeNothing(fs: Fs, p: Path, src: Path)
    ensures AfterMkdir(fs, p).err.Some? ==> AfterMkdir(fs, p).fs == fs
    ensures AfterMove(fs, src, p).err.Some? ==> AfterMove(fs, src, p).fs == fs
  {
  }

  /** `makedirs` keeps the tree well formed, never touches a file, and fails without changing anything. */
  lemma {:induction false} MakeDirsEffect(fs: Fs, p: Path)
    requires WellFormed(fs)
    ensures var r := AfterMakeDirs(fs, p);
      WellFormed(r.fs) && r.fs.files == fs.files && fs.dirs <= r.fs.dirs
      && (r.err.Some? ==> r.fs == fs) && (r.err.None? ==> IsDir(r.fs, p))
    decreases |p|
  {
    if p != [] {
      var head := Parent(p);
      var up :=
        if head != [] && !Exists(fs, head) then
          var r := AfterMakeDirs(fs, head);
          if r.err == Some(FileExists) then Step(r.fs, None) else r
        else Step(fs, None);
      if head != [] && !Exists(fs, head) {
        MakeDirsEffect(fs, head);
      }
      assert WellFormed(up.fs) && up.fs.files == fs.files && fs.dirs <= up.fs.dirs && (up.err.Some? ==> up.fs == fs);
      if up.err.None? {
        MkdirWellFormed(up.fs, p);
        var m := AfterMkdir(up.fs, p);
        assert m.err.None? ==> IsDir(m.fs, p);
        assert m.err.Some? ==> m.fs == up.fs;
      }
    }
  }

  /** The only directories `makedirs(p)` creates are prefixes of `p`. */
  lemma {:induction false} MakeDirsCreatesPrefixes(fs: Fs, p: Path)
    ensures forall q :: q in AfterMakeDirs(fs, p).fs.dirs ==> q in fs.dirs || (|q| <= |p| && q == p[..|q|])
    decreases |p|
  {
    if p != [] {
      var head := Parent(p);
      assert forall q :: |q| <= |head| && q == head[..|q|] ==> q == p[..|q|];
      if head != [] && !Exists(fs, head) {
        MakeDirsCreatesPrefixes(fs, head);
      }
    }
  }

  /** In a well-formed tree, `makedirs(p)` succeeds exactly when no prefix of `p` is a file. */
  lemma {:induction false} MakeDirsSucceedsIff(fs: Fs, p: Path)
    requires WellFormed(fs)
    ensures AfterMakeDirs(fs, p).err.None? <==> forall k :: 0 < k <= |p| ==> !IsFile(fs, p[..k])
    decreases |p|
  {
    if p != [] {
      var head := Parent(p);
      assert forall k :: 0 < k < |p| ==> head[..k] == p[..k];
      assert p[..|p|] == p;
      if head != [] && !Exists(fs, head) {
        MakeDirsSucceedsIff(fs, head);
        MakeDirsEffect(fs, head);
        NothingBelowMissing(fs, head, p);
      } else if head != [] && IsFile(fs, head) {
        assert p[..|p| - 1] == head;
      } else {
        if head != [] {
          PrefixesOfDirAreDirs(fs, head);
        }
      }
    }
  }

  /** Below a path that does not exist, nothing exists. */
  lemma {:induction false} NothingBelowMissing(fs: Fs, head: Path, p: Path)
    requires WellFormed(fs) && p != [] && head == Parent(p) && head != [] && !Exists(fs, head)
    ensures !Exists(fs, p)
  {
  }

  /** Every proper prefix of a directory is a directory. */
  lemma {:induction false} PrefixesOfDirAreDirs(fs: Fs, d: Path)
    requires WellFormed(fs) && IsDir(fs, d)
    ensures forall k :: 0 < k <= |d| ==> IsDir(fs, d[..k]) && !IsFile(fs, d[..k])
    decreases |d|
  {
    if d != [] {
      assert d in fs.dirs;
      var h := Parent(d);
      assert IsDir(fs, h);
      PrefixesOfDirAreDirs(fs, h);
      forall k | 0 < k <= |d| ensures IsDir(fs, d[..k]) && !IsFile(fs, d[..k]) {
        if k == |d| {
          assert d[..k] == d;
        } else {
          assert d[..k] == h[..k];
        }
      }
    }
  }

  /** Some file of a non-empty map, the same one every time */
  ghost function AnyFile(files: map<Path, Blob>): (p: Path)
    requires files != map[]
    ensures p in files
  {
    var p :| p in files; p
  }

  /** The contents of the files, counted with multiplicity: how many files hold each blob */
  ghost function Bills(files: map<Path, Blob>): (b: multiset<Blob>)
    ensures |b| == |files|
    decreases |files|
  {
    if files == map[] then multiset{}
    else
      var p := AnyFile(files);
      assert |files - {p}| == |files| - 1 by {
        assert (files - {p}).Keys == files.Keys - {p};
      }
      Bills(files - {p}) + multiset{files[p]}
  }

  /** Taking any one file out of the tally removes exactly one copy of its content. */
  lemma {:induction false} BillsWithout(files: map<Path, Blob>, q: Path)
    requires q in files
    ensures Bills(files) == Bills(files - {q}) + multiset{files[q]}
    decreases |files|
  {
    var p := AnyFile(files);
    if p != q {
      var fp, fq := files - {p}, files - {q};
      var both := fp - {q};
      assert fp.Keys == files.Keys - {p} && fq.Keys == files.Keys - {q};
      assert q in fp && fp[q] == files[q] && p in fq && fq[p] == files[p];
      assert fq - {p} == both;
      BillsWithout(fp, q);
      BillsWithout(fq, p);
      calc {
        Bills(files);
        Bills(fp) + multiset{files[p]};
        Bills(both) + multiset{files[q]} + multiset{files[p]};
        Bills(both) + multiset{files[p]} + multiset{files[q]};
        Bills(fq) + multiset{files[q]};
      }
    }
  }

  /**
   * A move that succeeds takes the file away from `src`, which was a file,
   * and puts the same content at `dst`, which did not exist, leaving every
   * other path alone.
   */
  lemma {:induction false} MoveEffect(fs: Fs, src: Path, dst: Path)
    ensures var r := AfterMove(fs, src, dst);
      r.err.None? ==> src in fs.files && !Exists(fs, dst) && r.fs.files == (fs.files - {src})[dst := fs.files[src]]
  {
  }

  /** Whatever its outcome, a move keeps the number of files holding each content: nothing is lost or duplicated. */
  lemma {:induction false} MoveKeepsContents(fs: Fs, src: Path, dst: Path)
    ensures var r := AfterMove(fs, src, dst);
      |r.fs.files| == |fs.files| && Bills(r.fs.files) == Bills(fs.files)
  {
    if AfterMove(fs, src, dst).err.None? {
      MoveEffect(fs, src, dst);
      assert Exists(fs, dst) <== dst in fs.files;
      BillsRenamed(fs.files, src, dst);
    }
  }

  /** Giving one file a new, unused path keeps the tally of contents. */
  lemma {:induction false} BillsRenamed(files: map<Path, Blob>, src: Path, dst: Path)
    requires src in files && dst !in files
    ensures var moved := (files - {src})[dst := files[src]];
      |moved| == |files| && Bills(moved) == Bills(files)
  {
    var moved := (files - {src})[dst := files[src]];
    assert moved - {dst} == files - {src};
    BillsWithout(moved, dst);
    BillsWithout(files, src);
  }

  /** The file system the organizer works on, changed in place by the primitive operations */
  class FileSystem {
    var dirs: set<Path>
    var files: map<Path, Blob>
    var order: seq<Path>

    function State(): Fs
      reads this
    {
      Fs(dirs, files, order)
    }

    constructor (s: Fs)
      ensures State() == s
    {
      dirs, files, order := s.dirs, s.files, s.order;
    }

    /** `os.mkdir(p)` */
    method Mkdir(p: Path) returns (err: Option<OsError>)
      modifies this
      ensures Step(State(), err) == AfterMkdir(old(State()), p)
    {
      if p == [] || p in dirs || p in files {
        return Some(FileExists);
      }
      var parent := p[..|p| - 1];
      if parent in files {
        return Some(NotADirectory);
      }
      if parent != [] && parent !in dirs {
        return Some(FileNotFound);
      }
      dirs := dirs + {p};
      order := order + [p];
      return None;
    }

    /** `os.makedirs(p, exist_ok=True)` */
    method MakeDirs(p: Path) returns (err: Option<OsError>)
      modifies this
      ensures Step(State(), err) == AfterMakeDirs(old(State()), p)
      decreases |p|
    {
      if p == [] {
        return None;
      }
      var head := p[..|p| - 1];
      if head != [] && !Exists(State(), head) {
        err := MakeDirs(head);
        if err == Some(FileExists) {
          err := None;
        }
        if err.Some? {
          return;
        }
      }
      ghost var up := State();
      err := Mkdir(p);
      if err.Some? && IsDir(State(), p) {
        err := None;
      }
      assert Step(State(), err) == (var m := AfterMkdir(up, p); if m.err.Some? && IsDir(up, p) then Step(up, None) else m);
    }

    /** `shutil.move(src, dst)` of a file */
    method Move(src: Path, dst: Path) returns (err: Option<OsError>)
      modifies this
      ensures Step(State(), err) == AfterMove(old(State()), src, dst)
    {
      if src !in files {
        return Some(FileNotFound);
      }
      if dst == [] || dst in dirs || dst in files {
        return Some(FileExists);
      }
      var parent := dst[..|dst| - 1];
      if parent in files {
        return Some(NotADirectory);
      }
      if parent != [] && parent !in dirs {
        return Some(FileNotFound);
      }
      var content := files[src];
      files := (files - {src})[dst := content];
      order := Without(order, src) + [dst];
      return None;
    }

    /** `os.listdir(d)` */
    method ListDir(d: Path) returns (names: seq<string>)
      ensures names == Listing(State(), d)
    {
      names := Children(order, d);
    }
  }
}
