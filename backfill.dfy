/**
 * What `ensure_year_organized` achieves on an account folder that has no
 * year folder yet: every loose file whose name holds a date ends up in
 * `<year>/<same name>` with its content, and every other file of the tree
 * stays where it is with its content.
 */
module Backfill {
  import opened Wrappers
  import opened Text
  import opened Dates
  import opened FileSys
  import opened Router
  import Patterns

  predicate Dated(f: string) { DateTargets(f).Some? }

  function YearOf(f: string): string
    requires Dated(f)
  {
    DateTargets(f).value.year
  }

  /** An account folder in a well-formed tree with no subdirectory named by four digits */
  ghost predicate Unorganized(fs: Fs, dir: Path)
  {
    WellFormed(fs) && IsDir(fs, dir) && forall y :: IsYearName(y) ==> !IsDir(fs, dir + [y])
  }

  /**
   * The year folder of each dated name: the proofs below speak of this map
   * rather than of `DateTargets` itself.
   */
  function YearsOf(names: seq<string>): (years: map<string, string>)
    ensures forall g :: g in years <==> g in names && Dated(g)
    ensures forall g :: g in years ==> years[g] == YearOf(g) && IsYearName(years[g])
  {
    if names == [] then map[]
    else
      var rest := YearsOf(names[1..]);
      var g := names[0];
      if Dated(g) then (YearOfIsYearName(g); rest[g := YearOf(g)]) else rest
  }

  /** `q` is `dir/g` for a dated name `g` among `done` */
  predicate MovedFrom(dir: Path, years: map<string, string>, done: seq<string>, q: Path)
  {
    |q| == |dir| + 1 && q[..|dir|] == dir && q[|dir|] in done && q[|dir|] in years
  }

  /** `years` gives the year folder of `f` exactly when its name holds a date. */
  predicate Agrees(years: map<string, string>, f: string)
  {
    (f in years <==> Dated(f)) && (f in years ==> years[f] == YearOf(f))
  }

  /** `years` agrees on every name of `names`, stated name by name so the proofs unfold it one name at a time */
  predicate AgreesOn(years: map<string, string>, names: seq<string>)
    decreases |names|
  {
    names == [] || (Agrees(years, names[0]) && AgreesOn(years, names[1..]))
  }

  lemma {:induction false} YearsOfAgrees(names: seq<string>, rest: seq<string>)
    requires forall g :: g in rest ==> g in names
    ensures AgreesOn(YearsOf(names), rest)
    decreases |rest|
  {
    if rest != [] {
      assert rest[0] in names;
      YearsOfAgrees(names, rest[1..]);
    }
  }

  /** The only directories not in `fs0` lie at most one level below `dir`. */
  ghost predicate DirsBounded(dirs0: set<Path>, dirs: set<Path>, dir: Path)
  {
    forall q :: q in dirs ==> q in dirs0 || |q| <= |dir| + 1
  }

  /** No file of `dir` bears the name of the year folder of a dated name. */
  ghost predicate YearsFree(files: map<Path, Blob>, dir: Path, years: map<string, string>)
  {
    forall g :: g in years ==> dir + [years[g]] !in files
  }

  /** The dated names among `done` are no longer files of `dir`. */
  ghost predicate Gone(files: map<Path, Blob>, dir: Path, years: map<string, string>, done: seq<string>)
  {
    forall g :: g in done && g in years ==> dir + [g] !in files
  }

  /** Each dated name among `done` that was a file of `dir` is in its year folder with its content. */
  ghost predicate Placed(files0: map<Path, Blob>, files: map<Path, Blob>, dir: Path, years: map<string, string>,
                         done: seq<string>)
  {
    forall g :: g in done && g in years && dir + [g] in files0 ==>
      dir + [years[g], g] in files && files[dir + [years[g], g]] == files0[dir + [g]]
  }

  /** Every other file keeps its path and content. */
  ghost predicate Kept(files0: map<Path, Blob>, files: map<Path, Blob>, dir: Path, years: map<string, string>,
                       done: seq<string>)
  {
    forall q :: q in files0 && !MovedFrom(dir, years, done, q) ==> q in files && files[q] == files0[q]
  }

  /** The files in the year folders of `dir` are dated names among `done`, each in its own year. */
  ghost predicate OnlyPlaced(files: map<Path, Blob>, dir: Path, years: map<string, string>, done: seq<string>)
  {
    forall q :: q in files && |q| == |dir| + 2 && q[..|dir|] == dir && IsYearName(q[|dir|]) ==>
      q[|dir| + 1] in done && q[|dir| + 1] in years && years[q[|dir| + 1]] == q[|dir|]
  }

  /**
   * The state `cur` reached from `fs0` once the names `done` of `dir` have
   * been handled: each dated one has gone to its year folder with its
   * content, every other file of `fs0` is untouched, the files in year
   * folders are exactly the ones moved there, and the only new directories
   * are the year folders.
   */
  ghost predicate Migrated(fs0: Fs, cur: Fs, dir: Path, years: map<string, string>, done: seq<string>)
  {
    WellFormed(cur) && IsDir(cur, dir) && DirsBounded(fs0.dirs, cur.dirs, dir) && YearsFree(cur.files, dir, years)
    && Gone(cur.files, dir, years, done) && Placed(fs0.files, cur.files, dir, years, done)
    && Kept(fs0.files, cur.files, dir, years, done) && OnlyPlaced(cur.files, dir, years, done)
  }

  lemma {:induction false} YearOfIsYearName(f: string)
    requires Dated(f)
    ensures IsYearName(YearOf(f))
  {
    YearIsFourDigits(f);
  }

  /** Nothing lies below a missing year folder. */
  lemma {:induction false} NothingInYearFolders(fs: Fs, dir: Path, q: Path)
    requires Unorganized(fs, dir)
    requires |q| == |dir| + 2 && q[..|dir|] == dir && IsYearName(q[|dir|])
    ensures !Exists(fs, q)
  {
    assert Parent(q) == dir + [q[|dir|]];
    assert dir + [q[|dir|]] != [];
  }

  lemma {:induction false} MigratedAtStart(fs: Fs, dir: Path, years: map<string, string>)
    requires Unorganized(fs, dir) && YearsFree(fs.files, dir, years)
    ensures Migrated(fs, fs, dir, years, [])
  {
    forall q | q in fs.files && |q| == |dir| + 2 && q[..|dir|] == dir && IsYearName(q[|dir|])
      ensures false
    {
      NothingInYearFolders(fs, dir, q);
    }
  }

  /** An undated name changes nothing. */
  lemma {:induction false} MigratedUndated(fs0: Fs, cur: Fs, dir: Path, years: map<string, string>,
                                           done: seq<string>, f: string)
    requires Migrated(fs0, cur, dir, years, done) && f !in years
    ensures Migrated(fs0, cur, dir, years, done + [f])
  {
    forall q | q in fs0.files && !MovedFrom(dir, years, done + [f], q)
      ensures !MovedFrom(dir, years, done, q)
    {
    }
  }

  /** `makedirs(dir/year)` succeeds and creates at most the year folder. */
  lemma {:induction false} YearFolderMade(fs0: Fs, cur: Fs, dir: Path, years: map<string, string>,
                                          done: seq<string>, f: string)
    requires Migrated(fs0, cur, dir, years, done) && f in years
    ensures var y := years[f];
      var s := AfterMakeDirs(cur, dir + [y]);
      s.err.None? && WellFormed(s.fs) && s.fs.files == cur.files && cur.dirs <= s.fs.dirs
      && IsDir(s.fs, dir + [y]) && DirsBounded(fs0.dirs, s.fs.dirs, dir)
  {
    var y := years[f];
    var p := dir + [y];
    PrefixesOfDirAreDirs(cur, dir);
    forall k | 0 < k <= |p| ensures !IsFile(cur, p[..k]) {
      if k <= |dir| {
        assert p[..k] == dir[..k];
      } else {
        assert p[..k] == p;
      }
    }
    MakeDirsSucceedsIff(cur, p);
    MakeDirsEffect(cur, p);
    MakeDirsCreatesPrefixes(cur, p);
  }

  /** A name that is no longer a file (handled before) changes nothing: the move fails. */
  lemma {:induction false} MigratedGone(fs0: Fs, cur: Fs, s: Fs, dir: Path, years: map<string, string>,
                                        done: seq<string>, f: string)
    requires Unorganized(fs0, dir) && Migrated(fs0, cur, dir, years, done) && f in years
    requires WellFormed(s) && s.files == cur.files && cur.dirs <= s.dirs && DirsBounded(fs0.dirs, s.dirs, dir)
    requires dir + [f] !in cur.files
    ensures Migrated(fs0, s, dir, years, done + [f])
  {
    forall q | q in fs0.files && !MovedFrom(dir, years, done + [f], q)
      ensures q in s.files && s.files[q] == fs0.files[q]
    {
      assert !MovedFrom(dir, years, done, q);
    }
    var src := dir + [f];
    assert src[..|dir|] == dir && src[|dir|] == f;
  }

  /** A dated loose file still in place moves to its year folder. */
  lemma {:induction false} MigratedMoved(fs0: Fs, cur: Fs, s: Fs, dir: Path, years: map<string, string>,
                                         done: seq<string>, f: string)
    requires Unorganized(fs0, dir) && Migrated(fs0, cur, dir, years, done) && f in years && IsYearName(years[f])
    requires WellFormed(s) && s.files == cur.files && cur.dirs <= s.dirs && IsDir(s, dir + [years[f]])
    requires DirsBounded(fs0.dirs, s.dirs, dir)
    requires dir + [f] in cur.files
    ensures var m := AfterMove(s, dir + [f], dir + [years[f], f]);
      m.err.None? && Migrated(fs0, m.fs, dir, years, done + [f])
  {
    var y := years[f];
    var src, dst := dir + [f], dir + [y, f];
    assert f !in done;
    assert dst[..|dir|] == dir && dst[|dir|] == y && dst[|dir| + 1] == f;
    assert dst !in s.files;
    NothingInYearFolders(fs0, dir, dst);
    assert dst !in s.dirs;
    assert Parent(dst) == dir + [y];
    MoveWellFormed(s, src, dst);
    var m := AfterMove(s, src, dst);
    var next := (cur.files - {src})[dst := cur.files[src]];
    assert m.fs.files == next;
    assert m.fs.dirs == s.dirs;
    MovedKeepsYearsFree(cur.files, next, dir, years, f, y);
    MovedKeepsGone(cur.files, next, dir, years, done, f, y);
    MovedKeepsPlaced(fs0.files, cur.files, next, dir, years, done, f);
    MovedKeepsKept(fs0.files, cur.files, next, dir, years, done, f);
    MovedKeepsOnlyPlaced(cur.files, next, dir, years, done, f);
  }

  lemma {:induction false} MovedKeepsYearsFree(files: map<Path, Blob>, next: map<Path, Blob>, dir: Path,
                                               years: map<string, string>, f: string, y: string)
    requires YearsFree(files, dir, years)
    requires dir + [f] in files && next == (files - {dir + [f]})[dir + [y, f] := files[dir + [f]]]
    ensures YearsFree(next, dir, years)
  {
    forall g | g in years ensures dir + [years[g]] !in next {
      assert |dir + [years[g]]| != |dir + [y, f]|;
    }
  }

  lemma {:induction false} MovedKeepsGone(files: map<Path, Blob>, next: map<Path, Blob>, dir: Path,
                                          years: map<string, string>, done: seq<string>, f: string, y: string)
    requires Gone(files, dir, years, done)
    requires dir + [f] in files && next == (files - {dir + [f]})[dir + [y, f] := files[dir + [f]]]
    ensures Gone(next, dir, years, done + [f])
  {
    forall g | g in done + [f] && g in years ensures dir + [g] !in next {
      assert |dir + [g]| != |dir + [y, f]|;
    }
  }

  lemma {:induction false} MovedKeepsPlaced(files0: map<Path, Blob>, files: map<Path, Blob>, next: map<Path, Blob>,
                                            dir: Path, years: map<string, string>, done: seq<string>, f: string)
    requires f in years && f !in done
    requires Placed(files0, files, dir, years, done) && Kept(files0, files, dir, years, done)
    requires dir + [f] in files && next == (files - {dir + [f]})[dir + [years[f], f] := files[dir + [f]]]
    ensures Placed(files0, next, dir, years, done + [f])
  {
    var src := dir + [f];
    assert src[..|dir|] == dir && src[|dir|] == f;
    assert !MovedFrom(dir, years, done, src);
    forall g | g in done + [f] && g in years && dir + [g] in files0
      ensures dir + [years[g], g] in next && next[dir + [years[g], g]] == files0[dir + [g]]
    {
      var q := dir + [years[g], g];
      assert |q| != |src|;
      if g != f {
        assert q != dir + [years[f], f] by { assert q[|dir| + 1] == g; }
      }
    }
  }

  lemma {:induction false} MovedKeepsKept(files0: map<Path, Blob>, files: map<Path, Blob>, next: map<Path, Blob>,
                                          dir: Path, years: map<string, string>, done: seq<string>, f: string)
    requires f in years && dir + [years[f], f] !in files0
    requires Kept(files0, files, dir, years, done)
    requires dir + [f] in files && next == (files - {dir + [f]})[dir + [years[f], f] := files[dir + [f]]]
    ensures Kept(files0, next, dir, years, done + [f])
  {
    var src := dir + [f];
    assert src[..|dir|] == dir && src[|dir|] == f;
    forall q | q in files0 && !MovedFrom(dir, years, done + [f], q)
      ensures q in next && next[q] == files0[q]
    {
      assert q != src;
      assert !MovedFrom(dir, years, done, q);
    }
  }

  lemma {:induction false} MovedKeepsOnlyPlaced(files: map<Path, Blob>, next: map<Path, Blob>, dir: Path,
                                                years: map<string, string>, done: seq<string>, f: string)
    requires f in years && OnlyPlaced(files, dir, years, done)
    requires dir + [f] in files && next == (files - {dir + [f]})[dir + [years[f], f] := files[dir + [f]]]
    ensures OnlyPlaced(next, dir, years, done + [f])
  {
    var dst := dir + [years[f], f];
    assert dst[..|dir|] == dir && dst[|dir|] == years[f] && dst[|dir| + 1] == f;
  }

  /** The loop turn for a dated name, once `makedirs` has made its year folder */
  lemma {:induction false} MigratedDated(fs0: Fs, cur: Fs, dir: Path, years: map<string, string>,
                                         done: seq<string>, f: string)
    requires Unorganized(fs0, dir) && Migrated(fs0, cur, dir, years, done) && f in years && IsYearName(years[f])
    ensures var s := AfterMakeDirs(cur, dir + [years[f]]);
      s.err.None? && Migrated(fs0, AfterMove(s.fs, dir + [f], dir + [years[f], f]).fs, dir, years, done + [f])
  {
    var y := years[f];
    YearFolderMade(fs0, cur, dir, years, done, f);
    var s := AfterMakeDirs(cur, dir + [y]);
    if dir + [f] in cur.files {
      MigratedMoved(fs0, cur, s.fs, dir, years, done, f);
    } else {
      MigratedGone(fs0, cur, s.fs, dir, years, done, f);
      FailedStepsChangeNothing(s.fs, dir + [y, f], dir + [f]);
    }
  }

  /** One turn of the loop keeps the migration invariant and raises nothing. */
  lemma {:induction false} MigratedStep(fs0: Fs, cur: Fs, dir: Path, years: map<string, string>,
                                        done: seq<string>, f: string)
    requires Unorganized(fs0, dir) && Migrated(fs0, cur, dir, years, done)
    requires Agrees(years, f)
    ensures BackfillStep(cur, dir, f).err.None? && Migrated(fs0, BackfillStep(cur, dir, f).fs, dir, years, done + [f])
  {
    if f in years {
      YearOfIsYearName(f);
      MigratedDated(fs0, cur, dir, years, done, f);
    } else {
      MigratedUndated(fs0, cur, dir, years, done, f);
    }
  }

  lemma {:induction false} MigratedFrom(fs0: Fs, cur: Fs, dir: Path, years: map<string, string>,
                                        done: seq<string>, rest: seq<string>)
    requires Unorganized(fs0, dir) && Migrated(fs0, cur, dir, years, done)
    requires AgreesOn(years, rest)
    ensures BackfillFrom(cur, dir, rest).err.None?
    ensures Migrated(fs0, BackfillFrom(cur, dir, rest).fs, dir, years, done + rest)
    decreases |rest|
  {
    if rest == [] {
      assert done + rest == done;
    } else {
      var f := rest[0];
      MigratedStep(fs0, cur, dir, years, done, f);
      var s := BackfillStep(cur, dir, f);
      MigratedFrom(fs0, s.fs, dir, years, done + [f], rest[1..]);
      BackfillFromStep(cur, dir, rest);
      assert (done + [f]) + rest[1..] == done + rest;
      MigratedSame(fs0, BackfillFrom(s.fs, dir, rest[1..]).fs, BackfillFrom(cur, dir, rest).fs, dir, years,
                   (done + [f]) + rest[1..], done + rest);
    }
  }

  /** The backfill loop after its first turn, when that turn raised nothing */
  lemma {:induction false} BackfillFromStep(cur: Fs, dir: Path, rest: seq<string>)
    requires rest != [] && BackfillStep(cur, dir, rest[0]).err.None?
    ensures BackfillFrom(cur, dir, rest) == BackfillFrom(BackfillStep(cur, dir, rest[0]).fs, dir, rest[1..])
  {
  }

  lemma {:induction false} MigratedSame(fs0: Fs, a: Fs, b: Fs, dir: Path, years: map<string, string>,
                                        d: seq<string>, e: seq<string>)
    requires Migrated(fs0, a, dir, years, d) && a == b && d == e
    ensures Migrated(fs0, b, dir, years, e)
  {
  }

  /**
   * `ensure_year_organized` on an account folder with no year folder, where
   * no loose file bears the name of the year folder a dated one goes to,
   * raises nothing; each loose file with a date in its name is moved to
   * `<year>/<same name>` with its content, each loose file without one
   * stays, and every file elsewhere keeps its path and content.
   */
  lemma {:induction false} BackfillOrganizes(fs: Fs, dir: Path)
    requires Unorganized(fs, dir)
    requires forall f :: f in LooseFiles(fs, dir) && Dated(f) ==> dir + [YearOf(f)] !in fs.files
    ensures var r := AfterBackfill(fs, dir);
      var years := YearsOf(LooseFiles(fs, dir));
      r.err.None?
      && (forall f :: f in years ==>
            dir + [f] !in r.fs.files && dir + [years[f], f] in r.fs.files
            && r.fs.files[dir + [years[f], f]] == fs.files[dir + [f]])
      && (forall q :: q in fs.files && !MovedFrom(dir, years, LooseFiles(fs, dir), q) ==>
            q in r.fs.files && r.fs.files[q] == fs.files[q])
  {
    assert !HasYearFolder(fs, dir);
    var files := LooseFiles(fs, dir);
    var years := YearsOf(files);
    assert YearsFree(fs.files, dir, years);
    MigratedAtStart(fs, dir, years);
    YearsOfAgrees(files, files);
    MigratedFrom(fs, fs, dir, years, [], files);
    assert [] + files == files;
  }

  /** A name of four digits holds no date. */
  lemma {:induction false} YearNameUndated(y: string)
    requires IsYearName(y)
    ensures !Dated(y)
  {
    NoDateIffNoShortDate(y);
    var name := SplitExt(y).0;
    assert |name| <= |y|;
    assert |Patterns.ShortDate| == 8;
  }

  /** A turn that raises nothing keeps the tree well formed and leaves the undated file `dir/y` in place. */
  lemma {:induction false} ClashSurvives(fs: Fs, dir: Path, f: string, y: string)
    requires WellFormed(fs) && IsYearName(y) && dir + [y] in fs.files
    requires BackfillStep(fs, dir, f).err.None?
    ensures WellFormed(BackfillStep(fs, dir, f).fs) && dir + [y] in BackfillStep(fs, dir, f).fs.files
  {
    if Dated(f) {
      var t := DateTargets(f).value;
      var s := AfterMakeDirs(fs, dir + [t.year]);
      MakeDirsEffect(fs, dir + [t.year]);
      YearNameUndated(y);
      assert dir + [f] != dir + [y];
      MoveEffect(s.fs, dir + [f], dir + [t.year, f]);
      MoveWellFormed(s.fs, dir + [f], dir + [t.year, f]);
      FailedStepsChangeNothing(s.fs, dir + [t.year, f], dir + [f]);
    }
  }

  /**
   * When a file `dir/y` bears the name of the year folder of a dated name
   * among `files`, `makedirs` fails on it and the loop raises, at that name
   * or earlier; the turns before it are not undone.
   */
  lemma {:induction false} BackfillFromClash(fs: Fs, dir: Path, files: seq<string>, y: string)
    requires WellFormed(fs) && IsYearName(y) && dir + [y] in fs.files
    requires exists f :: f in files && Dated(f) && YearOf(f) == y
    ensures BackfillFrom(fs, dir, files).err.Some?
    decreases |files|
  {
    var f := files[0];
    var s := BackfillStep(fs, dir, f);
    if Dated(f) && YearOf(f) == y {
      var p := dir + [y];
      MakeDirsSucceedsIff(fs, p);
      assert p[..|p|] == p;
    } else if s.err.None? {
      ClashSurvives(fs, dir, f, y);
      var w :| w in files && Dated(w) && YearOf(w) == y;
      assert w in files[1..] by { assert w != f; }
      BackfillFromClash(s.fs, dir, files[1..], y);
      BackfillFromStep(fs, dir, files);
    }
  }

  /**
   * On an account folder with no year folder, `ensure_year_organized`
   * raises exactly when some loose file with a date in its name has a year
   * folder already taken by a file of the same name.
   */
  lemma {:induction false} BackfillRaisesIff(fs: Fs, dir: Path)
    requires Unorganized(fs, dir)
    ensures AfterBackfill(fs, dir).err.Some?
      <==> exists f :: f in LooseFiles(fs, dir) && Dated(f) && dir + [YearOf(f)] in fs.files
  {
    assert !HasYearFolder(fs, dir);
    if exists f :: f in LooseFiles(fs, dir) && Dated(f) && dir + [YearOf(f)] in fs.files {
      var f :| f in LooseFiles(fs, dir) && Dated(f) && dir + [YearOf(f)] in fs.files;
      YearOfIsYearName(f);
      BackfillFromClash(fs, dir, LooseFiles(fs, dir), YearOf(f));
    } else {
      BackfillOrganizes(fs, dir);
    }
  }
}
