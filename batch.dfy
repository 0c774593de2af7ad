/**
 * The organizer's batch run (`FileOrganizerWorker.run`): collect the PDF
 * bills of the source (one file, or the files of one folder), route each in
 * turn, count the outcomes, and report the progress percentages shown.
 */
module Batch {
  import opened Text
  import opened Mapping
  import opened FileSys
  import opened Router
  import opened Routing

  /** `name.lower().endswith('.pdf')` */
  predicate IsPdfName(name: string)
  {
    |name| >= 4 && LowerStr(name)[|name| - 4..] == ".pdf"
  }

  /** One `(source_dir, file_name)` pair of `pdf_files` */
  datatype Job = Job(sourceDir: Path, fileName: string)

  /** The PDF names among `names`, in order, as jobs in `dir` */
  function PdfJobsAmong(dir: Path, names: seq<string>): (jobs: seq<Job>)
    ensures |jobs| <= |names|
    ensures forall j :: j in jobs <==> j.sourceDir == dir && j.fileName in names && IsPdfName(j.fileName)
  {
    if names == [] then []
    else
      var front := PdfJobsAmong(dir, names[..|names| - 1]);
      var last := names[|names| - 1];
      assert forall f :: f in names <==> f in names[..|names| - 1] || f == last;
      if IsPdfName(last) then front + [Job(dir, last)] else front
  }

  /**
   * `pdf_files`: the source itself when it is a PDF file, the PDF files
   * directly inside it when it is a folder, nothing otherwise.
   */
  function PdfJobs(fs: Fs, source: Path): seq<Job>
  {
    if IsFile(fs, source) then
      if source != [] && IsPdfName(source[|source| - 1]) then [Job(Parent(source), source[|source| - 1])] else []
    else if IsDir(fs, source) then PdfJobsAmong(source, LooseFiles(fs, source))
    else []
  }

  /** `int((idx - 1) / total * 100)`, taken as the exact integer floor */
  function Percent(idx: nat, total: nat): nat
    requires 1 <= idx <= total
  {
    (idx - 1) * 100 / total
  }

  /** The percentages shown before each of the first `n` files */
  function ProgressUpTo(n: nat, total: nat): (p: seq<nat>)
    requires n <= total
    ensures |p| == n && forall k :: 0 <= k < n ==> p[k] == Percent(k + 1, total)
  {
    if n == 0 then [] else ProgressUpTo(n - 1, total) + [Percent(n, total)]
  }

  /** `moved`, `skipped` and `not_found` */
  datatype Tally = Tally(moved: nat, skipped: nat, notFound: nat)
  {
    function Sum(): nat { moved + skipped + notFound }
  }

  /** A move counts as moved, "not found" as not found, a skip or an exception as skipped. */
  function Count(t: Tally, o: Outcome): Tally
  {
    match o
    case Moved(_) => t.(moved := t.moved + 1)
    case NotFound => t.(notFound := t.notFound + 1)
    case Skipped => t.(skipped := t.skipped + 1)
    case Raised(_) => t.(skipped := t.skipped + 1)
  }

  /** The `error_occurred` report, or the `finished` report with every percentage emitted */
  datatype Report = NoPdfFiles | Finished(tally: Tally, total: nat, percents: seq<nat>)

  datatype RunResult = RunResult(report: Report, fs: Fs)

  /** `process_single_file` with the organizer's mapping and destination root, as a function of the tree and the job */
  function Processor(mapping: map<Key, Entry>, destRoot: Path): (Fs, Job) -> Processed
  {
    (fs: Fs, j: Job) => Process(fs, mapping, j.sourceDir, destRoot, j.fileName)
  }

  /** The loop from the job `jobs[0]` on, starting from the counts `t`, each job handled by `process` */
  function RunFrom(fs: Fs, process: (Fs, Job) -> Processed, jobs: seq<Job>, t: Tally): (Fs, Tally)
    decreases |jobs|
  {
    if jobs == [] then (fs, t)
    else
      var p := process(fs, jobs[0]);
      RunFrom(p.fs, process, jobs[1..], Count(t, p.outcome))
  }

  /** The report and the final tree for the job list `jobs`, each job handled by `process` */
  function RunWith(fs: Fs, process: (Fs, Job) -> Processed, jobs: seq<Job>): RunResult
  {
    if jobs == [] then RunResult(NoPdfFiles, fs)
    else
      var (fs', t) := RunFrom(fs, process, jobs, Tally(0, 0, 0));
      RunResult(Finished(t, |jobs|, ProgressUpTo(|jobs|, |jobs|) + [100]), fs')
  }

  /** `FileOrganizerWorker.run` */
  function Run(fs: Fs, mapping: map<Key, Entry>, source: Path, destRoot: Path): RunResult
  {
    RunWith(fs, Processor(mapping, destRoot), PdfJobs(fs, source))
  }

  // ---------------------------------------------------------------- the method

  /** `FileOrganizerWorker.run` on the organizer's mapping */
  method RunWorker(fs: FileSystem, mapping: map<Key, Entry>, source: Path, destRoot: Path) returns (report: Report)
    modifies fs
    ensures RunResult(report, fs.State()) == Run(old(fs.State()), mapping, source, destRoot)
  {
    var jobs := PdfJobs(fs.State(), source);
    var total := |jobs|;
    if total == 0 {
      return NoPdfFiles;
    }
    var tally, percents := RunJobs(fs, mapping, destRoot, jobs);
    return Finished(tally, total, percents + [100]);
  }

  /** The loop over `pdf_files`, with the percentage emitted before each file */
  method RunJobs(fs: FileSystem, mapping: map<Key, Entry>, destRoot: Path, jobs: seq<Job>)
    returns (tally: Tally, percents: seq<nat>)
    modifies fs
    ensures (fs.State(), tally) == RunFrom(old(fs.State()), Processor(mapping, destRoot), jobs, Tally(0, 0, 0))
    ensures percents == ProgressUpTo(|jobs|, |jobs|)
  {
    ghost var process := Processor(mapping, destRoot);
    ghost var goal := RunFrom(fs.State(), process, jobs, Tally(0, 0, 0));
    var total := |jobs|;
    var moved, skipped, notFound := 0, 0, 0;
    percents := [];
    var idx := 1;
    assert jobs[idx - 1..] == jobs;
    while idx <= total
      invariant 1 <= idx <= total + 1
      invariant percents == ProgressUpTo(idx - 1, total)
      invariant RunFrom(fs.State(), process, jobs[idx - 1..], Tally(moved, skipped, notFound)) == goal
    {
      assert ProgressUpTo(idx, total) == percents + [Percent(idx, total)];
      percents := percents + [Percent(idx, total)];
      var job := jobs[idx - 1];
      ghost var rest := jobs[idx - 1..];
      assert rest[0] == job && rest[1..] == jobs[idx..];
      ghost var before := fs.State();
      ghost var t := Tally(moved, skipped, notFound);
      var outcome := ProcessSingleFile(fs, mapping, job.sourceDir, destRoot, job.fileName);
      ghost var p := process(before, job);
      assert p == Processed(outcome, fs.State());
      assert RunFrom(before, process, rest, t) == RunFrom(p.fs, process, rest[1..], Count(t, p.outcome));
      moved, skipped, notFound := Tallied(moved, skipped, notFound, outcome);
      idx := idx + 1;
    }
    tally := Tally(moved, skipped, notFound);
  }

  /** The counters after one outcome: an exception counts as skipped */
  method Tallied(moved: nat, skipped: nat, notFound: nat, outcome: Outcome) returns (moved': nat, skipped': nat, notFound': nat)
    ensures Tally(moved', skipped', notFound') == Count(Tally(moved, skipped, notFound), outcome)
  {
    moved', skipped', notFound' := moved, skipped, notFound;
    match outcome {
      case Moved(_) => moved' := moved + 1;
      case NotFound => notFound' := notFound + 1;
      case Skipped => skipped' := skipped + 1;
      case Raised(_) => skipped' := skipped + 1;
    }
  }

  // ---------------------------------------------------------------- what the run promises

  /**
   * The jobs of a folder are exactly its PDF files, with the folder as their
   * source; a PDF file source is its own one job; anything else has none.
   */
  lemma {:induction false} PdfJobsMeaning(fs: Fs, source: Path)
    requires WellFormed(fs)
    ensures IsDir(fs, source) ==> forall j :: j in PdfJobs(fs, source) <==>
      j.sourceDir == source && IsFile(fs, source + [j.fileName]) && IsPdfName(j.fileName)
    ensures IsFile(fs, source) ==>
      PdfJobs(fs, source) == if IsPdfName(source[|source| - 1]) then [Job(Parent(source), source[|source| - 1])] else []
    ensures !Exists(fs, source) ==> PdfJobs(fs, source) == []
  {
    if IsDir(fs, source) {
      assert !IsFile(fs, source);
      forall f ensures f in Listing(fs, source) && IsFile(fs, source + [f]) <==> IsFile(fs, source + [f]) {
        ListDirIff(fs, source, f);
      }
    }
  }

  lemma {:induction false} CountAddsOne(t: Tally, o: Outcome)
    ensures Count(t, o).Sum() == t.Sum() + 1 && Count(t, o).moved >= t.moved
  {
  }

  /** Every job is counted exactly once. */
  lemma {:induction false} RunFromCounts(fs: Fs, process: (Fs, Job) -> Processed, jobs: seq<Job>, t: Tally)
    ensures RunFrom(fs, process, jobs, t).1.Sum() == t.Sum() + |jobs|
    decreases |jobs|
  {
    if jobs != [] {
      var p := process(fs, jobs[0]);
      CountAddsOne(t, p.outcome);
      RunFromCounts(p.fs, process, jobs[1..], Count(t, p.outcome));
    }
  }

  /** The loop keeps the tree well formed and every bill's content when each job does. */
  lemma {:induction false} RunFromKeepsBills(fs: Fs, process: (Fs, Job) -> Processed, jobs: seq<Job>, t: Tally)
    requires WellFormed(fs)
    requires forall s: Fs, j: Job :: WellFormed(s) ==> KeepsBills(s, process(s, j).fs)
    ensures KeepsBills(fs, RunFrom(fs, process, jobs, t).0)
    decreases |jobs|
  {
    if jobs != [] {
      var p := process(fs, jobs[0]);
      RunFromKeepsBills(p.fs, process, jobs[1..], Count(t, p.outcome));
      KeepsBillsChain(fs, p.fs, RunFrom(p.fs, process, jobs[1..], Count(t, p.outcome)).0);
    }
  }

  /** Each job keeps the tree well formed and every bill's content. */
  lemma {:induction false} ProcessorKeepsBills(mapping: map<Key, Entry>, destRoot: Path)
    ensures forall s: Fs, j: Job :: WellFormed(s) ==> KeepsBills(s, Processor(mapping, destRoot)(s, j).fs)
  {
    forall s: Fs, j: Job | WellFormed(s) ensures KeepsBills(s, Processor(mapping, destRoot)(s, j).fs) {
      ProcessKeepsBills(s, mapping, j.sourceDir, destRoot, j.fileName);
    }
  }

  /**
   * A run reports "no PDF files" exactly when the source has none, and then
   * changes nothing; otherwise moved, skipped and not found add up to the
   * number of PDF files, and no bill is lost or duplicated.
   */
  lemma {:induction false} RunReport(fs: Fs, mapping: map<Key, Entry>, source: Path, destRoot: Path)
    requires WellFormed(fs)
    ensures var r := Run(fs, mapping, source, destRoot);
      (r.report == NoPdfFiles <==> PdfJobs(fs, source) == [])
      && (r.report == NoPdfFiles ==> r.fs == fs)
      && (r.report.Finished? ==> r.report.total == |PdfJobs(fs, source)| && r.report.tally.Sum() == r.report.total)
      && KeepsBills(fs, r.fs)
  {
    ProcessorKeepsBills(mapping, destRoot);
    RunWithReport(fs, Processor(mapping, destRoot), PdfJobs(fs, source));
  }

  /** The same for any step that keeps bills */
  lemma {:induction false} RunWithReport(fs: Fs, process: (Fs, Job) -> Processed, jobs: seq<Job>)
    requires WellFormed(fs)
    requires forall s: Fs, j: Job :: WellFormed(s) ==> KeepsBills(s, process(s, j).fs)
    ensures var r := RunWith(fs, process, jobs);
      (r.report == NoPdfFiles <==> jobs == [])
      && (r.report == NoPdfFiles ==> r.fs == fs)
      && (r.report.Finished? ==> r.report.total == |jobs| && r.report.tally.Sum() == r.report.total)
      && KeepsBills(fs, r.fs)
  {
    if jobs != [] {
      RunFromCounts(fs, process, jobs, Tally(0, 0, 0));
      RunFromKeepsBills(fs, process, jobs, Tally(0, 0, 0));
    }
  }

  lemma {:induction false} MulMonotone(x: nat, y: nat, d: nat)
    requires x <= y
    ensures x * d <= y * d
  {
    var k := y - x;
    assert y * d == x * d + k * d;
  }

  lemma {:induction false} DivBelow(a: nat, d: nat, m: nat)
    requires d > 0 && a < m * d
    ensures a / d < m
  {
    var q := a / d;
    assert q * d <= a;
    if m <= q {
      MulMonotone(m, q, d);
      assert false;
    }
  }

  lemma {:induction false} DivMonotone(a: nat, b: nat, d: nat)
    requires a <= b && d > 0
    ensures a / d <= b / d
  {
    var q := b / d;
    assert b < q * d + d;
    assert q * d + d == (q + 1) * d;
    DivBelow(a, d, q + 1);
  }

  /**
   * The percentages shown: one per file and a final 100; the first is 0,
   * each one before a file is below 100, and they never go down.
   */
  lemma {:induction false} ProgressShape(total: nat)
    requires total >= 1
    ensures var p := ProgressUpTo(total, total) + [100];
      |p| == total + 1 && p[0] == 0 && p[total] == 100
      && (forall k :: 0 <= k < total ==> p[k] < 100)
      && (forall i, j :: 0 <= i <= j <= total ==> p[i] <= p[j])
  {
    var p := ProgressUpTo(total, total) + [100];
    forall k | 0 <= k < total ensures p[k] < 100 {
      DivBelow(k * 100, total, 100);
      assert 100 * total == total * 100;
    }
    forall i, j | 0 <= i <= j <= total ensures p[i] <= p[j] {
      if j < total {
        DivMonotone(i * 100, j * 100, total);
      }
    }
  }
}
