/**
 * Routing one bill (`process_single_file`) and the one-time migration of an
 * account folder's loose dated files into year folders
 * (`ensure_year_organized`).
 *
 * A bill is looked up by its last four digits, then by its extension, each
 * time trying BELL, TELUS and ROGERS in that order; it is then moved to
 * `dest/corp/Provider/token/year/yy-mm-dd.ext`, never over an existing path.
 */
module Router {
  import opened Wrappers
  import opened Text
  import opened Dates
  import opened Tokens
  import opened Mapping
  import opened FileSys

  /** The order in which the providers are tried */
  const ProviderOrder: seq<Provider> := [Bell, Telus, Rogers]

  /** The entry of the first provider, from number `k` on, with a key for `token` */
  function FirstHit(mapping: map<Key, Entry>, token: string, k: nat): (r: Option<Entry>)
    decreases |ProviderOrder| - k
  {
    if k >= |ProviderOrder| then None
    else if (ProviderOrder[k], token) in mapping then Some(mapping[(ProviderOrder[k], token)])
    else FirstHit(mapping, token, k + 1)
  }

  /** The entry found and the token that found it: the last four digits first, then the extension */
  function Lookup(mapping: map<Key, Entry>, t: TokenPair): Option<(Entry, string)>
  {
    if t.last4 != [] && FirstHit(mapping, t.last4, 0).Some? then Some((FirstHit(mapping, t.last4, 0).value, t.last4))
    else if t.ext != [] && FirstHit(mapping, t.ext, 0).Some? then Some((FirstHit(mapping, t.ext, 0).value, t.ext))
    else None
  }

  /** `dest_root/corp/provider.capitalize()/token` */
  function AccountDir(destRoot: Path, e: Entry, token: string): Path
  {
    destRoot + [Strip(e.corp), Capitalize(ProviderName(e.provider)), token]
  }

  /** The hierarchy string shown for a moved bill */
  function Hierarchy(e: Entry, token: string, d: DateTarget): string
  {
    Strip(e.corp) + " -> " + Capitalize(ProviderName(e.provider)) + " -> " + token + " -> " + d.year + " -> " + d.finalName
  }

  /** `(True, hierarchy)`, `(False, "not_found")`, `(False, "skipped")`, or an exception */
  datatype Outcome = Moved(hierarchy: string) | NotFound | Skipped | Raised(err: OsError)

  datatype Processed = Processed(outcome: Outcome, fs: Fs)

  // ---------------------------------------------------------------- ensure_year_organized

  /** `re.fullmatch(r"\d{4}", e)` */
  predicate IsYearName(e: string) { |e| == 4 && AllDigits(e) }

  /** Some subdirectory of `dir` is named by four digits. */
  predicate HasYearFolder(fs: Fs, dir: Path)
  {
    exists e :: e in Listing(fs, dir) && IsDir(fs, dir + [e]) && IsYearName(e)
  }

  /** The names among `names` that are files of `dir`, in order */
  function FilesAmong(fs: Fs, dir: Path, names: seq<string>): (r: seq<string>)
    ensures forall f :: f in r <==> f in names && IsFile(fs, dir + [f])
  {
    if names == [] then []
    else
      var front := FilesAmong(fs, dir, names[..|names| - 1]);
      var last := names[|names| - 1];
      assert forall f :: f in names <==> f in names[..|names| - 1] || f == last;
      if IsFile(fs, dir + [last]) then front + [last] else front
  }

  /** `[f for f in os.listdir(dir) if os.path.isfile(...)]` */
  function LooseFiles(fs: Fs, dir: Path): seq<string>
  {
    FilesAmong(fs, dir, Listing(fs, dir))
  }

  /**
   * One turn of the backfill loop: a dated file goes to `<year>/<same name>`
   * (a failing move is ignored), an undated one stays; a failing `makedirs`
   * raises.
   */
  function BackfillStep(fs: Fs, dir: Path, f: string): Step
  {
    match DateTargets(f)
    case None => Step(fs, None)
    case Some(t) =>
      var s := AfterMakeDirs(fs, dir + [t.year]);
      if s.err.Some? then s
      else Step(AfterMove(s.fs, dir + [f], dir + [t.year, f]).fs, None)
  }

  /** The backfill loop from the file `files[0]` on; an error ends it. */
  function BackfillFrom(fs: Fs, dir: Path, files: seq<string>): Step
    decreases |files|
  {
    if files == [] then Step(fs, None)
    else
      var s := BackfillStep(fs, dir, files[0]);
      if s.err.Some? then s else BackfillFrom(s.fs, dir, files[1..])
  }

  /** `ensure_year_organized(dir)`: nothing happens once a year folder exists. */
  function AfterBackfill(fs: Fs, dir: Path): Step
  {
    if HasYearFolder(fs, dir) then Step(fs, None)
    else BackfillFrom(fs, dir, LooseFiles(fs, dir))
  }

  // ---------------------------------------------------------------- process_single_file

  /** `process_single_file` once the tokens and the date of the file name are known */
  function ProcessWith(fs: Fs, mapping: map<Key, Entry>, src: Path, destRoot: Path,
                       t: TokenPair, date: Option<DateTarget>): Processed
  {
    if t.last4 == [] && t.ext == [] then Processed(NotFound, fs)
    else
      match Lookup(mapping, t)
      case None => Processed(NotFound, fs)
      case Some((e, token)) =>
        match date
        case None => Processed(NotFound, fs)
        case Some(d) => Deliver(fs, src, AccountDir(destRoot, e, token), d, Hierarchy(e, token, d))
  }

  /**
   * The file steps: make the account folder, backfill it, make the year
   * folder, then move the bill there unless its new path exists.
   */
  function Deliver(fs: Fs, src: Path, acct: Path, d: DateTarget, hierarchy: string): Processed
  {
    var s1 := AfterMakeDirs(fs, acct);
    if s1.err.Some? then Processed(Raised(s1.err.value), s1.fs)
    else
      var s2 := AfterBackfill(s1.fs, acct);
      if s2.err.Some? then Processed(Raised(s2.err.value), s2.fs)
      else
        var s3 := AfterMakeDirs(s2.fs, acct + [d.year]);
        if s3.err.Some? then Processed(Raised(s3.err.value), s3.fs)
        else Place(s3.fs, src, acct + [d.year, d.finalName], hierarchy)
  }

  /** The last step: no move onto an existing path */
  function Place(fs: Fs, src: Path, dest: Path, hierarchy: string): Processed
  {
    if Exists(fs, dest) then Processed(Skipped, fs)
    else
      var s := AfterMove(fs, src, dest);
      if s.err.Some? then Processed(Raised(s.err.value), s.fs)
      else Processed(Moved(hierarchy), s.fs)
  }

  /** `process_single_file(source_dir, dest_root, file_name)` with the organizer's mapping */
  function Process(fs: Fs, mapping: map<Key, Entry>, sourceDir: Path, destRoot: Path, fileName: string): Processed
  {
    ProcessWith(fs, mapping, sourceDir + [fileName], destRoot, AccountTokens(fileName), DateTargets(fileName))
  }

  // ---------------------------------------------------------------- the methods

  /** `for prov in ("BELL", "TELUS", "ROGERS"): ... break` */
  method FindEntry(mapping: map<Key, Entry>, token: string) returns (entry: Option<Entry>)
    ensures entry == FirstHit(mapping, token, 0)
  {
    var k := 0;
    while k < |ProviderOrder|
      invariant 0 <= k <= |ProviderOrder|
      invariant FirstHit(mapping, token, k) == FirstHit(mapping, token, 0)
    {
      var key := (ProviderOrder[k], token);
      if key in mapping {
        return Some(mapping[key]);
      }
      k := k + 1;
    }
    return None;
  }

  /** `ensure_year_organized(dir)` */
  method EnsureYearOrganized(fs: FileSystem, dir: Path) returns (err: Option<OsError>)
    modifies fs
    ensures Step(fs.State(), err) == AfterBackfill(old(fs.State()), dir)
  {
    if HasYearFolder(fs.State(), dir) {
      return None;
    }
    var files := LooseFiles(fs.State(), dir);
    var i := 0;
    assert files[i..] == files;
    while i < |files|
      invariant 0 <= i <= |files|
      invariant BackfillFrom(fs.State(), dir, files[i..]) == AfterBackfill(old(fs.State()), dir)
    {
      assert files[i..][1..] == files[i + 1..];
      err := BackfillFile(fs, dir, files[i]);
      if err.Some? {
        return;
      }
      i := i + 1;
    }
    return None;
  }

  /** The body of the backfill loop for the file `f` */
  method BackfillFile(fs: FileSystem, dir: Path, f: string) returns (err: Option<OsError>)
    modifies fs
    ensures Step(fs.State(), err) == BackfillStep(old(fs.State()), dir, f)
  {
    var date := DateTargets(f);
    if date.None? {
      return None;
    }
    var yearDir := dir + [date.value.year];
    err := fs.MakeDirs(yearDir);
    if err.Some? {
      return;
    }
    var ignored := fs.Move(dir + [f], yearDir + [f]);
    assert dir + [date.value.year, f] == yearDir + [f];
    return None;
  }

  /** `process_single_file(source_dir, dest_root, file_name)` */
  method ProcessSingleFile(fs: FileSystem, mapping: map<Key, Entry>, sourceDir: Path, destRoot: Path, fileName: string)
    returns (outcome: Outcome)
    modifies fs
    ensures Processed(outcome, fs.State()) == Process(old(fs.State()), mapping, sourceDir, destRoot, fileName)
  {
    var src := sourceDir + [fileName];
    var t := ExtractAccountTokens(fileName);
    var date := DateTargets(fileName);
    outcome := Route(fs, mapping, src, destRoot, t, date);
  }

  /** The two lookup loops: by the last four digits, then by the extension */
  method LookupEntry(mapping: map<Key, Entry>, t: TokenPair) returns (found: Option<(Entry, string)>)
    ensures found == Lookup(mapping, t)
  {
    var entry: Option<Entry> := None;
    var token := "";
    if t.last4 != [] {
      entry := FindEntry(mapping, t.last4);
      token := t.last4;
    }
    if entry.None? && t.ext != [] {
      entry := FindEntry(mapping, t.ext);
      token := t.ext;
    }
    if entry.None? {
      return None;
    }
    return Some((entry.value, token));
  }

  /** The steps of `process_single_file` after the file name is read */
  method Route(fs: FileSystem, mapping: map<Key, Entry>, src: Path, destRoot: Path, t: TokenPair, date: Option<DateTarget>)
    returns (outcome: Outcome)
    modifies fs
    ensures Processed(outcome, fs.State()) == ProcessWith(old(fs.State()), mapping, src, destRoot, t, date)
  {
    if t.last4 == [] && t.ext == [] {
      return NotFound;
    }
    var found := LookupEntry(mapping, t);
    if found.None? || date.None? {
      return NotFound;
    }
    var (e, token) := found.value;
    var d := date.value;
    outcome := DeliverBill(fs, src, AccountDir(destRoot, e, token), d, Hierarchy(e, token, d));
  }

  /** The file steps of `process_single_file` */
  method DeliverBill(fs: FileSystem, src: Path, acct: Path, d: DateTarget, hierarchy: string) returns (outcome: Outcome)
    modifies fs
    ensures Processed(outcome, fs.State()) == Deliver(old(fs.State()), src, acct, d, hierarchy)
  {
    ghost var fs0 := fs.State();
    var err := fs.MakeDirs(acct);
    ghost var s1 := AfterMakeDirs(fs0, acct);
    assert fs.State() == s1.fs && err == s1.err;
    if err.Some? {
      return Raised(err.value);
    }
    err := EnsureYearOrganized(fs, acct);
    ghost var s2 := AfterBackfill(s1.fs, acct);
    assert fs.State() == s2.fs && err == s2.err;
    if err.Some? {
      return Raised(err.value);
    }
    var yearDir := acct + [d.year];
    err := fs.MakeDirs(yearDir);
    ghost var s3 := AfterMakeDirs(s2.fs, yearDir);
    assert fs.State() == s3.fs && err == s3.err;
    if err.Some? {
      return Raised(err.value);
    }
    var dest := yearDir + [d.finalName];
    assert dest == acct + [d.year, d.finalName];
    outcome := PlaceBill(fs, src, dest, hierarchy);
  }

  /** `if os.path.exists(dest): return False, "skipped"`, else `shutil.move(src, dest)` */
  method PlaceBill(fs: FileSystem, src: Path, dest: Path, hierarchy: string) returns (outcome: Outcome)
    modifies fs
    ensures Processed(outcome, fs.State()) == Place(old(fs.State()), src, dest, hierarchy)
  {
    if Exists(fs.State(), dest) {
      return Skipped;
    }
    var err := fs.Move(src, dest);
    if err.Some? {
      return Raised(err.value);
    }
    return Moved(hierarchy);
  }
}
