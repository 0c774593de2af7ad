/**
 * What routing one bill promises: which key finds its account, when it is
 * reported as not found, where it ends up, and that no bill is ever lost or
 * overwritten on the way.
 */
module Routing {
  import opened Wrappers
  import opened Dates
  import opened Tokens
  import opened Mapping
  import opened FileSys
  import opened Router

  /** Some provider has an account under `token`. */
  predicate Known(mapping: map<Key, Entry>, token: string)
  {
    exists p: Provider :: (p, token) in mapping
  }

  // ---------------------------------------------------------------- the lookup

  /** From provider `i` on, the search stops at the first provider `k` whose key is present. */
  lemma {:induction false} FirstHitFrom(mapping: map<Key, Entry>, token: string, i: nat, k: nat)
    requires i <= k < |ProviderOrder| && (ProviderOrder[k], token) in mapping
    requires forall j :: i <= j < k ==> (ProviderOrder[j], token) !in mapping
    ensures FirstHit(mapping, token, i) == Some(mapping[(ProviderOrder[k], token)])
    decreases k - i
  {
    if i < k {
      FirstHitFrom(mapping, token, i + 1, k);
    }
  }

  /** BELL, TELUS and ROGERS are tried in that order and the first present key wins. */
  lemma {:induction false} FirstHitIsFirstProvider(mapping: map<Key, Entry>, token: string, k: nat)
    requires k < |ProviderOrder| && (ProviderOrder[k], token) in mapping
    requires forall j :: 0 <= j < k ==> (ProviderOrder[j], token) !in mapping
    ensures FirstHit(mapping, token, 0) == Some(mapping[(ProviderOrder[k], token)])
  {
    FirstHitFrom(mapping, token, 0, k);
  }

  /** The search finds nothing exactly when no provider has the token, and what it finds belongs to the token. */
  lemma {:induction false} FirstHitFindsKnown(mapping: map<Key, Entry>, token: string)
    ensures FirstHit(mapping, token, 0).Some? <==> Known(mapping, token)
    ensures FirstHit(mapping, token, 0).Some? ==>
      exists p: Provider :: (p, token) in mapping && mapping[(p, token)] == FirstHit(mapping, token, 0).value
  {
    var r0, r1, r2 := FirstHit(mapping, token, 0), FirstHit(mapping, token, 1), FirstHit(mapping, token, 2);
    assert FirstHit(mapping, token, 3).None?;
    assert r2 == if (Rogers, token) in mapping then Some(mapping[(Rogers, token)]) else None;
    assert r1 == if (Telus, token) in mapping then Some(mapping[(Telus, token)]) else r2;
    assert r0 == if (Bell, token) in mapping then Some(mapping[(Bell, token)]) else r1;
    if Known(mapping, token) {
      var p: Provider :| (p, token) in mapping;
      assert p == Bell || p == Telus || p == Rogers;
    }
  }

  /**
   * The lookup succeeds exactly when the last four digits or the extension
   * are known; the last four digits win when both are; what it returns is
   * the entry one provider has under the returned token.
   */
  lemma {:induction false} LookupMeaning(mapping: map<Key, Entry>, t: TokenPair)
    ensures Lookup(mapping, t).Some? <==>
      (t.last4 != [] && Known(mapping, t.last4)) || (t.ext != [] && Known(mapping, t.ext))
    ensures t.last4 != [] && Known(mapping, t.last4) ==> Lookup(mapping, t).value.1 == t.last4
    ensures Lookup(mapping, t).Some? ==>
      var (e, token) := Lookup(mapping, t).value;
      token != [] && exists p: Provider :: (p, token) in mapping && mapping[(p, token)] == e
  {
    FirstHitFindsKnown(mapping, t.last4);
    FirstHitFindsKnown(mapping, t.ext);
  }

  // ---------------------------------------------------------------- the outcome

  /**
   * The last step never reports "not found"; it skips exactly when the
   * destination exists, and then changes nothing.
   */
  lemma {:induction false} PlaceFacts(fs: Fs, src: Path, dest: Path, hierarchy: string)
    ensures var r := Place(fs, src, dest, hierarchy);
      r.outcome != NotFound
      && (r.outcome == Skipped <==> Exists(fs, dest))
      && (Exists(fs, dest) ==> r == Processed(Skipped, fs))
      && (r.outcome.Raised? ==> r.fs == fs)
      && (dest != [] && !Exists(fs, dest) && IsFile(fs, src) && IsDir(fs, Parent(dest)) && !IsFile(fs, Parent(dest))
          ==> r.outcome == Moved(hierarchy))
  {
  }

  /**
   * A moved bill is at its new path with its old content and gone from its
   * old one, and every other path is as it was: nothing is overwritten.
   */
  lemma {:induction false} PlaceMovesOneFile(fs: Fs, src: Path, dest: Path, hierarchy: string)
    requires Place(fs, src, dest, hierarchy).outcome.Moved?
    ensures var r := Place(fs, src, dest, hierarchy).fs;
      src != dest && src in fs.files && dest !in fs.files
      && dest in r.files && r.files[dest] == fs.files[src] && src !in r.files
      && forall q :: q != src && q != dest ==> (q in r.files <==> q in fs.files) && (q in r.files ==> r.files[q] == fs.files[q])
  {
  }

  /** The file steps report only a move, a skip or an error. */
  lemma {:induction false} DeliverFinds(fs: Fs, src: Path, acct: Path, d: DateTarget, hierarchy: string)
    ensures Deliver(fs, src, acct, d, hierarchy).outcome != NotFound
  {
    var s1 := AfterMakeDirs(fs, acct);
    if s1.err.None? {
      var s2 := AfterBackfill(s1.fs, acct);
      if s2.err.None? {
        var s3 := AfterMakeDirs(s2.fs, acct + [d.year]);
        if s3.err.None? {
          PlaceFacts(s3.fs, src, acct + [d.year, d.finalName], hierarchy);
        }
      }
    }
  }

  /**
   * Past the lookup, a bill is skipped exactly when the folders were made,
   * the backfill raised nothing, and its destination exists by then; a skip
   * changes nothing after those steps.
   */
  lemma {:induction false} DeliverSkippedIff(fs: Fs, src: Path, acct: Path, d: DateTarget, hierarchy: string)
    ensures var s1 := AfterMakeDirs(fs, acct);
      var s2 := AfterBackfill(s1.fs, acct);
      var s3 := AfterMakeDirs(s2.fs, acct + [d.year]);
      var r := Deliver(fs, src, acct, d, hierarchy);
      (r.outcome == Skipped <==>
        s1.err.None? && s2.err.None? && s3.err.None? && Exists(s3.fs, acct + [d.year, d.finalName]))
      && (r.outcome == Skipped ==> r.fs == s3.fs)
  {
    var s1 := AfterMakeDirs(fs, acct);
    if s1.err.None? {
      var s2 := AfterBackfill(s1.fs, acct);
      if s2.err.None? {
        var s3 := AfterMakeDirs(s2.fs, acct + [d.year]);
        if s3.err.None? {
          PlaceFacts(s3.fs, src, acct + [d.year, d.finalName], hierarchy);
        }
      }
    }
  }

  /** "not found" exactly when no account is known for the tokens or the name has no date; then nothing changes. */
  lemma {:induction false} ProcessWithNotFound(fs: Fs, mapping: map<Key, Entry>, src: Path, destRoot: Path,
                                               t: TokenPair, date: Option<DateTarget>)
    ensures var r := ProcessWith(fs, mapping, src, destRoot, t, date);
      (r.outcome == NotFound <==> Lookup(mapping, t).None? || date.None?)
      && (r.outcome == NotFound ==> r.fs == fs)
  {
    if Lookup(mapping, t).Some? && date.Some? {
      var (e, token) := Lookup(mapping, t).value;
      var d := date.value;
      DeliverFinds(fs, src, AccountDir(destRoot, e, token), d, Hierarchy(e, token, d));
    }
  }

  /**
   * A bill is reported as not found exactly when neither its last four
   * digits nor its extension name a known account, or its name holds no
   * date; a bill not found is left where it is.
   */
  lemma {:induction false} ProcessNotFoundIff(fs: Fs, mapping: map<Key, Entry>, sourceDir: Path, destRoot: Path,
                                              fileName: string)
    ensures var r := Process(fs, mapping, sourceDir, destRoot, fileName);
      var t := AccountTokens(fileName);
      (r.outcome == NotFound <==>
        !((t.last4 != [] && Known(mapping, t.last4)) || (t.ext != [] && Known(mapping, t.ext)))
        || DateTargets(fileName).None?)
      && (r.outcome == NotFound ==> r.fs == fs)
  {
    var t := AccountTokens(fileName);
    LookupMeaning(mapping, t);
    ProcessWithNotFound(fs, mapping, sourceDir + [fileName], destRoot, t, DateTargets(fileName));
  }

  /**
   * A bill the file steps report as moved is at `acct/year/yy-mm-dd.ext` and
   * no longer at `src`; when `src` was a file to begin with, the new path
   * holds that file's content.
   */
  lemma {:induction false} DeliverMoved(fs: Fs, src: Path, acct: Path, d: DateTarget, hierarchy: string)
    requires Deliver(fs, src, acct, d, hierarchy).outcome.Moved?
    ensures var r := Deliver(fs, src, acct, d, hierarchy);
      r.outcome == Moved(hierarchy) && acct + [d.year, d.finalName] in r.fs.files && src !in r.fs.files
      && (src in fs.files ==> r.fs.files[acct + [d.year, d.finalName]] == fs.files[src])
  {
    var s1 := AfterMakeDirs(fs, acct);
    var s2 := AfterBackfill(s1.fs, acct);
    var s3 := AfterMakeDirs(s2.fs, acct + [d.year]);
    assert s1.err.None? && s2.err.None? && s3.err.None?;
    PlaceMovesOneFile(s3.fs, src, acct + [d.year, d.finalName], hierarchy);
    if src in fs.files {
      MakeDirsKeepsFiles(fs, acct);
      BackfillKeepsOrEmpties(s1.fs, acct, src);
      MakeDirsKeepsFiles(s2.fs, acct + [d.year]);
    }
  }

  /** A moved bill went from `src`, with its content, to `account/year/yy-mm-dd.ext`, and the hierarchy names that path. */
  lemma {:induction false} ProcessWithMoved(fs: Fs, mapping: map<Key, Entry>, src: Path, destRoot: Path,
                                            t: TokenPair, date: Option<DateTarget>)
    requires ProcessWith(fs, mapping, src, destRoot, t, date).outcome.Moved?
    ensures Lookup(mapping, t).Some? && date.Some?
    ensures var r := ProcessWith(fs, mapping, src, destRoot, t, date);
      var (e, token) := Lookup(mapping, t).value;
      var dest := AccountDir(destRoot, e, token) + [date.value.year, date.value.finalName];
      r.outcome.hierarchy == Hierarchy(e, token, date.value) && dest in r.fs.files && src !in r.fs.files
      && (src in fs.files ==> r.fs.files[dest] == fs.files[src])
  {
    ProcessWithNotFound(fs, mapping, src, destRoot, t, date);
    var (e, token) := Lookup(mapping, t).value;
    var d := date.value;
    DeliverMoved(fs, src, AccountDir(destRoot, e, token), d, Hierarchy(e, token, d));
  }

  /**
   * A bill reported as moved is at `dest/corp/Provider/token/year/yy-mm-dd.ext`
   * for the account its tokens found and the date of its name, holds the
   * content the bill had in the source folder, and is no longer there.
   */
  lemma {:induction false} ProcessMovedTo(fs: Fs, mapping: map<Key, Entry>, sourceDir: Path, destRoot: Path,
                                          fileName: string)
    requires Process(fs, mapping, sourceDir, destRoot, fileName).outcome.Moved?
    ensures Lookup(mapping, AccountTokens(fileName)).Some? && DateTargets(fileName).Some?
    ensures var r := Process(fs, mapping, sourceDir, destRoot, fileName);
      var (e, token) := Lookup(mapping, AccountTokens(fileName)).value;
      var d := DateTargets(fileName).value;
      r.outcome.hierarchy == Hierarchy(e, token, d)
      && AccountDir(destRoot, e, token) + [d.year, d.finalName] in r.fs.files
      && sourceDir + [fileName] !in r.fs.files
      && (sourceDir + [fileName] in fs.files ==>
            r.fs.files[AccountDir(destRoot, e, token) + [d.year, d.finalName]] == fs.files[sourceDir + [fileName]])
  {
    ProcessWithMoved(fs, mapping, sourceDir + [fileName], destRoot, AccountTokens(fileName), DateTargets(fileName));
  }

  // ---------------------------------------------------------------- the moved bill's content

  /** `makedirs` touches no file, whatever its outcome. */
  lemma {:induction false} MakeDirsKeepsFiles(fs: Fs, p: Path)
    ensures AfterMakeDirs(fs, p).fs.files == fs.files
    decreases |p|
  {
    if p != [] {
      var head := Parent(p);
      if head != [] && !Exists(fs, head) {
        MakeDirsKeepsFiles(fs, head);
      }
    }
  }

  /**
   * The file `fs0` had at `src` is still there with its content, or the
   * backfill of `dir` moved it away and nothing is at `src` since: a loose
   * file of `dir` is one level below it, and the backfill only moves into
   * `dir/<year>/`, two levels below.
   */
  ghost predicate Untouched(fs0: Fs, fs: Fs, dir: Path, src: Path)
  {
    src in fs0.files
    && ((src in fs.files && fs.files[src] == fs0.files[src]) || (src !in fs.files && |src| == |dir| + 1))
  }

  lemma {:induction false} BackfillStepUntouched(fs0: Fs, fs: Fs, dir: Path, f: string, src: Path)
    requires Untouched(fs0, fs, dir, src)
    ensures Untouched(fs0, BackfillStep(fs, dir, f).fs, dir, src)
  {
    match DateTargets(f)
    case None =>
    case Some(t) =>
      var s := AfterMakeDirs(fs, dir + [t.year]);
      MakeDirsKeepsFiles(fs, dir + [t.year]);
      if s.err.None? {
        MoveEffect(s.fs, dir + [f], dir + [t.year, f]);
        FailedStepsChangeNothing(s.fs, dir + [t.year, f], dir + [f]);
      }
  }

  lemma {:induction false} BackfillFromUntouched(fs0: Fs, fs: Fs, dir: Path, files: seq<string>, src: Path)
    requires Untouched(fs0, fs, dir, src)
    ensures Untouched(fs0, BackfillFrom(fs, dir, files).fs, dir, src)
    decreases |files|
  {
    if files != [] {
      var s := BackfillStep(fs, dir, files[0]);
      BackfillStepUntouched(fs0, fs, dir, files[0], src);
      if s.err.None? {
        BackfillFromUntouched(fs0, s.fs, dir, files[1..], src);
      }
    }
  }

  /**
   * After `ensure_year_organized(dir)`, a path that held a file holds the
   * same content or nothing: the backfill never brings another file there.
   */
  lemma {:induction false} BackfillKeepsOrEmpties(fs: Fs, dir: Path, src: Path)
    requires src in fs.files
    ensures var r := AfterBackfill(fs, dir).fs;
      src in r.files ==> r.files[src] == fs.files[src]
  {
    if !HasYearFolder(fs, dir) {
      BackfillFromUntouched(fs, fs, dir, LooseFiles(fs, dir), src);
    }
  }

  // ---------------------------------------------------------------- no bill is lost

  /**
   * `r` is a well-formed successor of `fs` with the same number of files,
   * as many files holding each content as `fs` has, and every directory of `fs`.
   */
  ghost predicate KeepsBills(fs: Fs, r: Fs)
  {
    WellFormed(r) && |r.files| == |fs.files| && Bills(r.files) == Bills(fs.files) && fs.dirs <= r.dirs
  }

  lemma {:induction false} KeepsBillsChain(a: Fs, b: Fs, c: Fs)
    requires KeepsBills(a, b) && KeepsBills(b, c)
    ensures KeepsBills(a, c)
  {
  }

  /** One backfill turn keeps the tree well formed and every file's content. */
  lemma {:induction false} BackfillStepKeepsBills(fs: Fs, dir: Path, f: string)
    requires WellFormed(fs)
    ensures KeepsBills(fs, BackfillStep(fs, dir, f).fs)
  {
    var date := DateTargets(f);
    if date.Some? {
      MoveToYearKeepsBills(fs, dir, f, date.value.year);
    }
  }

  /** `makedirs(dir/year)` and the move of `dir/f` into it */
  lemma {:induction false} MoveToYearKeepsBills(fs: Fs, dir: Path, f: string, year: string)
    requires WellFormed(fs)
    ensures var s := AfterMakeDirs(fs, dir + [year]);
      KeepsBills(fs, s.fs) && (s.err.None? ==> KeepsBills(fs, AfterMove(s.fs, dir + [f], dir + [year, f]).fs))
  {
    var s := AfterMakeDirs(fs, dir + [year]);
    MakeDirsEffect(fs, dir + [year]);
    MoveWellFormed(s.fs, dir + [f], dir + [year, f]);
    MoveKeepsContents(s.fs, dir + [f], dir + [year, f]);
  }

  lemma {:induction false} BackfillFromKeepsBills(fs: Fs, dir: Path, files: seq<string>)
    requires WellFormed(fs)
    ensures KeepsBills(fs, BackfillFrom(fs, dir, files).fs)
    decreases |files|
  {
    if files != [] {
      BackfillStepKeepsBills(fs, dir, files[0]);
      var s := BackfillStep(fs, dir, files[0]);
      if s.err.None? {
        BackfillFromKeepsBills(s.fs, dir, files[1..]);
      }
    }
  }

  /** `ensure_year_organized` keeps the tree well formed and every file's content. */
  lemma {:induction false} BackfillKeepsBills(fs: Fs, dir: Path)
    requires WellFormed(fs)
    ensures KeepsBills(fs, AfterBackfill(fs, dir).fs)
  {
    if !HasYearFolder(fs, dir) {
      BackfillFromKeepsBills(fs, dir, LooseFiles(fs, dir));
    }
  }

  lemma {:induction false} MakeDirsKeepsBills(fs: Fs, p: Path)
    requires WellFormed(fs)
    ensures KeepsBills(fs, AfterMakeDirs(fs, p).fs)
  {
    MakeDirsEffect(fs, p);
  }

  lemma {:induction false} PlaceKeepsBills(fs: Fs, src: Path, dest: Path, hierarchy: string)
    requires WellFormed(fs)
    ensures KeepsBills(fs, Place(fs, src, dest, hierarchy).fs)
  {
    if !Exists(fs, dest) {
      var s := AfterMove(fs, src, dest);
      MoveWellFormed(fs, src, dest);
      MoveKeepsContents(fs, src, dest);
      assert Place(fs, src, dest, hierarchy).fs == s.fs;
    }
  }

  lemma {:induction false} DeliverKeepsBills(fs: Fs, src: Path, acct: Path, d: DateTarget, hierarchy: string)
    requires WellFormed(fs)
    ensures KeepsBills(fs, Deliver(fs, src, acct, d, hierarchy).fs)
  {
    var s1 := AfterMakeDirs(fs, acct);
    MakeDirsKeepsBills(fs, acct);
    if s1.err.None? {
      var s2 := AfterBackfill(s1.fs, acct);
      BackfillKeepsBills(s1.fs, acct);
      KeepsBillsChain(fs, s1.fs, s2.fs);
      if s2.err.None? {
        var s3 := AfterMakeDirs(s2.fs, acct + [d.year]);
        MakeDirsKeepsBills(s2.fs, acct + [d.year]);
        KeepsBillsChain(fs, s2.fs, s3.fs);
        if s3.err.None? {
          var r := Place(s3.fs, src, acct + [d.year, d.finalName], hierarchy);
          PlaceKeepsBills(s3.fs, src, acct + [d.year, d.finalName], hierarchy);
          KeepsBillsChain(fs, s3.fs, r.fs);
          assert Deliver(fs, src, acct, d, hierarchy) == r;
        }
      }
    }
  }

  /**
   * Processing a bill, whatever its outcome, keeps the tree well formed,
   * removes no directory, and keeps the number of files and every file's
   * content: bills are only ever moved, never lost or duplicated.
   */
  lemma {:induction false} ProcessKeepsBills(fs: Fs, mapping: map<Key, Entry>, sourceDir: Path, destRoot: Path,
                                             fileName: string)
    requires WellFormed(fs)
    ensures KeepsBills(fs, Process(fs, mapping, sourceDir, destRoot, fileName).fs)
  {
    ProcessWithKeepsBills(fs, mapping, sourceDir + [fileName], destRoot, AccountTokens(fileName), DateTargets(fileName));
  }

  lemma {:induction false} ProcessWithKeepsBills(fs: Fs, mapping: map<Key, Entry>, src: Path, destRoot: Path,
                                                 t: TokenPair, date: Option<DateTarget>)
    requires WellFormed(fs)
    ensures KeepsBills(fs, ProcessWith(fs, mapping, src, destRoot, t, date).fs)
  {
    if Lookup(mapping, t).Some? && date.Some? && !(t.last4 == [] && t.ext == []) {
      var (e, token) := Lookup(mapping, t).value;
      var d := date.value;
      DeliverKeepsBills(fs, src, AccountDir(destRoot, e, token), d, Hierarchy(e, token, d));
    }
  }
}
