/**
 * Date resolution of a bill's file name (`extract_date_targets`): a full
 * `YYYY-MM-DD` date anywhere in the stem wins over a short `YY-MM-DD` one,
 * whose year is read as `20YY`; the result names the year folder and the
 * normalised file name `YY-MM-DD<original extension>`.
 */
module Dates {
  import opened Wrappers
  import opened Text
  import opened Patterns

  /** The source's `(date_str, year_folder, final_name)` triple */
  datatype DateTarget = DateTarget(date: string, year: string, finalName: string)

  /** `yyyy-mm-dd`, every `y`, `m` and `d` a digit */
  predicate IsIsoDate(d: string)
  {
    |d| == 10 && AllDigits(d[..4]) && d[4] == '-' && AllDigits(d[5..7]) && d[7] == '-' && AllDigits(d[8..10])
  }

  function Target(yyyy: string, mm: string, dd: string, ext: string): DateTarget
    requires |yyyy| == 4
  {
    DateTarget(yyyy + "-" + mm + "-" + dd, yyyy, yyyy[2..] + "-" + mm + "-" + dd + ext)
  }

  /** The target read from a full date at position `i` of the stem */
  function FullTarget(name: string, i: nat, ext: string): (t: DateTarget)
    requires MatchesAt(name, i, FullDate)
    ensures t.date == name[i..i + 10] && t.year == name[i..i + 4]
    ensures IsIsoDate(t.date) && t.finalName == t.date[2..] + ext
  {
    DigitsInMatch(name, i, FullDate, 0, 4);
    DigitsInMatch(name, i, FullDate, 5, 7);
    DigitsInMatch(name, i, FullDate, 8, 10);
    assert SymMatches(FullDate[4], name[i + 4]) && SymMatches(FullDate[7], name[i + 7]);
    var t := Target(name[i..i + 4], name[i + 5..i + 7], name[i + 8..i + 10], ext);
    assert t.date == name[i..i + 10];
    t
  }

  /** The target read from a short date at position `i` of the stem: the year gets "20" in front */
  function ShortTarget(name: string, i: nat, ext: string): (t: DateTarget)
    requires MatchesAt(name, i, ShortDate)
    ensures t.date == "20" + name[i..i + 8] && t.year == "20" + name[i..i + 2]
    ensures IsIsoDate(t.date) && t.finalName == t.date[2..] + ext
  {
    DigitsInMatch(name, i, ShortDate, 0, 2);
    DigitsInMatch(name, i, ShortDate, 3, 5);
    DigitsInMatch(name, i, ShortDate, 6, 8);
    assert SymMatches(ShortDate[2], name[i + 2]) && SymMatches(ShortDate[5], name[i + 5]);
    var t := Target("20" + name[i..i + 2], name[i + 3..i + 5], name[i + 6..i + 8], ext);
    assert name[i..i + 8] == name[i..i + 2] + "-" + name[i + 3..i + 5] + "-" + name[i + 6..i + 8];
    assert t.date == "20" + name[i..i + 8];
    t
  }

  /**
   * `extract_date_targets`: `None` stands for the source's `("", "", "")`.
   * The first full date of the stem is used when there is one; otherwise the
   * first short date, with "20" put in front of its two-digit year.
   */
  function DateTargets(fileName: string): (r: Option<DateTarget>)
    ensures r.Some? ==> IsIsoDate(r.value.date) && r.value.year == r.value.date[..4]
    ensures r.Some? ==> r.value.finalName == r.value.date[2..] + SplitExt(fileName).1
  {
    var (name, ext) := SplitExt(fileName);
    match FindFrom(name, FullDate, 0)
    case Some(i) => Some(FullTarget(name, i, ext))
    case None =>
      match FindFrom(name, ShortDate, 0)
      case Some(i) => Some(ShortTarget(name, i, ext))
      case None => None
  }

  /** The year folder is four digits. */
  lemma {:induction false} YearIsFourDigits(fileName: string)
    requires DateTargets(fileName).Some?
    ensures |DateTargets(fileName).value.year| == 4 && AllDigits(DateTargets(fileName).value.year)
  {
  }

  /** A full date wins: its first occurrence in the stem becomes the date. */
  lemma {:induction false} FullDateWins(fileName: string, i: nat)
    requires MatchesAt(SplitExt(fileName).0, i, FullDate)
    requires forall k :: 0 <= k < i ==> !MatchesAt(SplitExt(fileName).0, k, FullDate)
    ensures DateTargets(fileName).Some?
    ensures DateTargets(fileName).value.date == SplitExt(fileName).0[i..i + 10]
    ensures DateTargets(fileName).value.year == SplitExt(fileName).0[i..i + 4]
  {
    assert FindFrom(SplitExt(fileName).0, FullDate, 0) == Some(i);
  }

  /** Without a full date, the first short date is used and its year is "20" followed by its two digits. */
  lemma {:induction false} ShortDateFallback(fileName: string, i: nat)
    requires forall k :: !MatchesAt(SplitExt(fileName).0, k, FullDate)
    requires MatchesAt(SplitExt(fileName).0, i, ShortDate)
    requires forall k :: 0 <= k < i ==> !MatchesAt(SplitExt(fileName).0, k, ShortDate)
    ensures DateTargets(fileName).Some?
    ensures DateTargets(fileName).value.date == "20" + SplitExt(fileName).0[i..i + 8]
    ensures DateTargets(fileName).value.year == "20" + SplitExt(fileName).0[i..i + 2]
  {
    var name := SplitExt(fileName).0;
    assert FindFrom(name, FullDate, 0).None?;
    assert FindFrom(name, ShortDate, 0) == Some(i);
  }

  lemma {:induction false} FullContainsShort(s: string, i: nat)
    requires MatchesAt(s, i, FullDate)
    ensures MatchesAt(s, i + 2, ShortDate)
  {
    forall k | 0 <= k < |ShortDate| ensures SymMatches(ShortDate[k], s[i + 2 + k]) {
      assert SymMatches(FullDate[k + 2], s[i + k + 2]);
    }
  }

  /** No date is resolved exactly when the stem holds no `dd-dd-dd` at all (a full date contains one). */
  lemma {:induction false} NoDateIffNoShortDate(fileName: string)
    ensures DateTargets(fileName).None? <==> forall k :: !MatchesAt(SplitExt(fileName).0, k, ShortDate)
  {
    var name := SplitExt(fileName).0;
    match FindFrom(name, FullDate, 0)
    case Some(i) =>
      FullContainsShort(name, i);
    case None =>
  }

  /** The `yy-mm-dd` part of an ISO date is a short date and holds no dot. */
  lemma {:induction false} ShortPartOfIsoDate(d: string)
    requires IsIsoDate(d)
    ensures MatchesAt(d[2..], 0, ShortDate) && '.' !in d[2..]
  {
    var s := d[2..];
    assert AllDigits(d[..4]);
    forall k | 0 <= k < 8 ensures SymMatches(ShortDate[k], s[k]) && s[k] != '.' {
      assert s[k] == d[k + 2];
      if k < 2 {
        assert d[k + 2] == d[..4][k + 2];
      } else if 3 <= k < 5 {
        assert d[k + 2] == d[5..7][k - 3];
      } else if 6 <= k {
        assert d[k + 2] == d[8..10][k - 6];
      }
    }
  }

  /** An eight-character short date followed by an extension resolves to that short date. */
  lemma {:induction false} ShortStemResolves(stem: string, ext: string)
    requires |stem| == 8 && MatchesAt(stem, 0, ShortDate) && '.' !in stem
    requires ext == [] || (ext[0] == '.' && '.' !in ext[1..])
    ensures DateTargets(stem + ext) == Some(ShortTarget(stem, 0, ext))
  {
    SplitExtOfJoin(stem, ext);
    assert FindFrom(stem, FullDate, 0).None?;
    assert FindFrom(stem, ShortDate, 0) == Some(0);
  }

  lemma {:induction false} RereadTarget(t: DateTarget, ext: string)
    requires IsIsoDate(t.date) && t.year == t.date[..4] && t.finalName == t.date[2..] + ext
    requires ext == [] || (ext[0] == '.' && '.' !in ext[1..])
    ensures DateTargets(t.finalName) == Some(DateTarget("20" + t.date[2..], "20" + t.year[2..], t.finalName))
  {
    var stem := t.date[2..];
    ShortPartOfIsoDate(t.date);
    ShortStemResolves(stem, ext);
    var u := ShortTarget(stem, 0, ext);
    assert stem[0..8] == stem && stem[0..2] == t.year[2..];
  }

  /** Putting "20" in front of the last two digits gives back a year exactly when it already began with "20". */
  lemma {:induction false} CenturyRestored(t: DateTarget)
    requires IsIsoDate(t.date) && t.year == t.date[..4]
    ensures DateTarget("20" + t.date[2..], "20" + t.year[2..], t.finalName) == t <==> t.year[..2] == "20"
  {
    if t.year[..2] == "20" {
      assert t.date == t.date[..2] + t.date[2..];
      assert t.year == t.year[..2] + t.year[2..];
    }
    if DateTarget("20" + t.date[2..], "20" + t.year[2..], t.finalName) == t {
      assert t.year[..2] == ("20" + t.year[2..])[..2];
    }
  }

  /**
   * Reading the normalised name back yields the same month and day and the
   * year "20" + the last two digits of the original year: the same target
   * exactly when the original year is in the 2000s.
   */
  lemma {:induction false} NormalizedNameRereads(fileName: string)
    requires DateTargets(fileName).Some?
    ensures var t := DateTargets(fileName).value;
      DateTargets(t.finalName) == Some(DateTarget("20" + t.date[2..], "20" + t.year[2..], t.finalName))
    ensures var t := DateTargets(fileName).value;
      DateTargets(t.finalName) == Some(t) <==> t.year[..2] == "20"
  {
    var t := DateTargets(fileName).value;
    RereadTarget(t, SplitExt(fileName).1);
    CenturyRestored(t);
  }
}
