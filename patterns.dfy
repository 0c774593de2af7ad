/**
 * Hand-written scanners for the regular expressions of the organizer.
 *
 * Fixed-length patterns made of `\d` and literal characters are written as
 * a `Pattern`; `FindFrom` is `re.search` on them and `RemoveAll` is
 * `re.sub(pattern, "", s)`, which drops every non-overlapping occurrence,
 * scanning left to right. The remaining scanners cover the variable-length
 * expressions used for account extensions:
 *   `\(([^)]+)\)`             a parenthesised group,
 *   `\s+(\d{3,4})\s*$`        a trailing 3-4 digit group,
 *   `\s+TOKEN\s*$`, `\s+TOKEN\s*`   the two ways a found extension is cut out.
 */
module Patterns {
  import opened Wrappers
  import opened Text

  datatype Sym = AnyDigit | Lit(c: char)

  type Pattern = seq<Sym>

  predicate SymMatches(p: Sym, c: char)
  {
    match p
    case AnyDigit => IsDigit(c)
    case Lit(x) => c == x
  }

  /** The pattern occurs in `s` starting at position `i` */
  predicate MatchesAt(s: string, i: nat, p: Pattern)
  {
    i + |p| <= |s| && forall k :: 0 <= k < |p| ==> SymMatches(p[k], s[i + k])
  }

  /** `\d{n}` */
  function Digits(n: nat): (p: Pattern)
    ensures |p| == n && forall k :: 0 <= k < n ==> p[k] == AnyDigit
  {
    seq(n, _ => AnyDigit)
  }

  const Dash: Pattern := [Lit('-')]

  /** `\d{4}-\d{2}-\d{2}` */
  const FullDate: Pattern := Digits(4) + Dash + Digits(2) + Dash + Digits(2)
  /** `\d{2}-\d{2}-\d{2}` */
  const ShortDate: Pattern := Digits(2) + Dash + Digits(2) + Dash + Digits(2)
  /** `_\d{4}-\d{2}-\d{2}` */
  const UnderscoreFullDate: Pattern := [Lit('_')] + FullDate
  /** `_\d{2}-\d{2}-\d{2}` */
  const UnderscoreShortDate: Pattern := [Lit('_')] + ShortDate
  /** `\d{3}-\d{3}-\d{4}` */
  const HyphenPhone: Pattern := Digits(3) + Dash + Digits(3) + Dash + Digits(4)
  /** `\d{10}` */
  const TenDigits: Pattern := Digits(10)

  /** The characters an occurrence covers where the pattern has `\d` are digits. */
  lemma {:induction false} DigitsInMatch(s: string, i: nat, p: Pattern, a: nat, b: nat)
    requires MatchesAt(s, i, p) && a <= b <= |p|
    requires forall k :: a <= k < b ==> p[k] == AnyDigit
    ensures AllDigits(s[i + a..i + b])
  {
    var t := s[i + a..i + b];
    forall k | 0 <= k < |t| ensures IsDigit(t[k]) {
      assert SymMatches(p[a + k], s[i + a + k]);
    }
  }

  /** `re.search` from position `i`: the leftmost occurrence at or after `i` */
  function FindFrom(s: string, p: Pattern, i: nat): (r: Option<nat>)
    ensures r.Some? ==> i <= r.value && MatchesAt(s, r.value, p)
    ensures r.Some? ==> forall k :: i <= k < r.value ==> !MatchesAt(s, k, p)
    ensures r.None? ==> forall k :: i <= k ==> !MatchesAt(s, k, p)
    decreases |s| - i
  {
    if i + |p| > |s| then None
    else if MatchesAt(s, i, p) then Some(i)
    else FindFrom(s, p, i + 1)
  }

  lemma {:induction false} MatchesAtShift(s: string, p: Pattern, k: nat)
    requires |s| > 0
    ensures MatchesAt(s[1..], k, p) <==> MatchesAt(s, k + 1, p)
  {
    if MatchesAt(s, k + 1, p) {
      assert forall j :: 0 <= j < |p| ==> SymMatches(p[j], s[1..][k + j]);
    }
  }

  /** `re.sub(p, "", s)`: every non-overlapping occurrence, found left to right, is dropped */
  function RemoveAll(s: string, p: Pattern): (r: string)
    requires |p| > 0
    ensures |r| <= |s|
    ensures (forall k :: !MatchesAt(s, k, p)) ==> r == s
    decreases |s|
  {
    if s == [] then []
    else if MatchesAt(s, 0, p) then RemoveAll(s[|p|..], p)
    else
      var rest := RemoveAll(s[1..], p);
      assert (forall k :: !MatchesAt(s, k, p)) ==> rest == s[1..] by {
        if forall k :: !MatchesAt(s, k, p) {
          forall k: nat ensures !MatchesAt(s[1..], k, p) {
            MatchesAtShift(s, p, k);
          }
        }
      }
      [s[0]] + rest
  }

  /** Index of the first ')' at or after `i` */
  function CloseParen(s: string, i: nat): (r: Option<nat>)
    requires i <= |s|
    ensures r.Some? ==> i <= r.value < |s| && s[r.value] == ')'
    ensures r.Some? ==> forall k :: i <= k < r.value ==> s[k] != ')'
    ensures r.None? ==> forall k :: i <= k < |s| ==> s[k] != ')'
    decreases |s| - i
  {
    if i == |s| then None
    else if s[i] == ')' then Some(i)
    else CloseParen(s, i + 1)
  }

  /**
   * `\(([^)]+)\)` tried at position `i`: the '(' there, then at least one
   * character other than ')', then the first ')'; the result is that ')'.
   */
  function ParenAt(s: string, i: nat): (r: Option<nat>)
    requires i <= |s|
    ensures r.Some? ==> i + 2 <= r.value < |s| && s[i] == '(' && s[r.value] == ')'
    ensures r.Some? ==> forall k :: i < k < r.value ==> s[k] != ')'
  {
    if i < |s| && s[i] == '(' then
      match CloseParen(s, i + 1)
      case Some(j) => if j >= i + 2 then Some(j) else None
      case None => None
    else None
  }

  /** `re.search(r"\(([^)]+)\)", s)` from position `i`: the leftmost group, as (index of '(', index of ')') */
  function ParenGroupFrom(s: string, i: nat): (r: Option<(nat, nat)>)
    requires i <= |s|
    ensures r.Some? ==> i <= r.value.0 < |s| && ParenAt(s, r.value.0) == Some(r.value.1)
    ensures r.Some? ==> forall k :: i <= k < r.value.0 ==> ParenAt(s, k).None?
    ensures r.None? ==> forall k :: i <= k <= |s| ==> ParenAt(s, k).None?
    decreases |s| - i
  {
    if i == |s| then None
    else match ParenAt(s, i)
      case Some(j) => Some((i, j))
      case None => ParenGroupFrom(s, i + 1)
  }

  function ParenGroup(s: string): Option<(nat, nat)>
  {
    ParenGroupFrom(s, 0)
  }

  /** `re.sub(r"\([^)]+\)", "", s)`: every parenthesised group, found left to right, is dropped */
  function RemoveParenGroups(s: string): (r: string)
    ensures |r| <= |s|
    ensures ParenGroup(s).None? ==> r == s
    decreases |s|
  {
    if s == [] then []
    else match ParenAt(s, 0)
      case Some(j) => RemoveParenGroups(s[j + 1..])
      case None =>
        var rest := RemoveParenGroups(s[1..]);
        assert ParenGroup(s).None? ==> rest == s[1..] by {
          if ParenGroup(s).None? {
            ParenShift(s);
          }
        }
        [s[0]] + rest
  }

  lemma {:induction false} ParenShift(s: string)
    requires |s| > 0 && ParenGroup(s).None?
    ensures ParenGroup(s[1..]).None?
  {
    var t := s[1..];
    forall k | 0 <= k <= |t| ensures ParenAt(t, k).None? {
      ParenAtShift(s, k);
    }
  }

  lemma {:induction false} ParenAtShift(s: string, i: nat)
    requires i < |s|
    ensures ParenAt(s[1..], i).Some? ==> ParenAt(s, i + 1) == Some(ParenAt(s[1..], i).value + 1)
  {
    var t := s[1..];
    if ParenAt(t, i).Some? {
      var j := ParenAt(t, i).value;
      assert t[i] == s[i + 1];
      assert forall k :: i + 1 <= k < j ==> t[k] == s[k + 1];
      assert CloseParen(s, i + 2) == Some(j + 1);
    }
  }

  /** Length of the run of digits that ends `s` */
  function TrailingDigitRun(s: string): (n: nat)
    ensures n <= |s|
    ensures forall k :: |s| - n <= k < |s| ==> IsDigit(s[k])
    ensures n < |s| ==> !IsDigit(s[|s| - n - 1])
  {
    if s != [] && IsDigit(s[|s| - 1]) then 1 + TrailingDigitRun(s[..|s| - 1]) else 0
  }

  /**
   * `re.search(r"\s+(\d{3,4})\s*$", s)`: after the trailing whitespace, the
   * string must end in a run of exactly three or four digits that follows a
   * whitespace character; the result is that digit group.
   */
  function TrailingDigitGroup(s: string): (r: Option<string>)
    ensures r.Some? ==> 3 <= |r.value| <= 4 && AllDigits(r.value)
  {
    var t := RStrip(s);
    var n := TrailingDigitRun(t);
    if 3 <= n <= 4 && n < |t| && IsSpace(t[|t| - n - 1]) then Some(t[|t| - n..]) else None
  }

  /** The content of a parenthesised group qualifies as an extension code: `^[\dA-Za-z]{2,6}$` */
  predicate IsCode(c: string)
  {
    2 <= |c| <= 6 && AllAlnum(c)
  }

  /**
   * The extension rule shared by the mapping builder and the token
   * extractor: the stripped content of the first parenthesised group when
   * it is a code (and nothing when it is not), or, only when there is no
   * parenthesised group at all, a trailing 3-4 digit group.
   */
  function ExtensionCode(s: string): (ext: string)
    ensures ext == [] || IsCode(ext) || (3 <= |ext| <= 4 && AllDigits(ext))
    ensures ext == [] || IsToken(ext)
    ensures ParenGroup(s).Some? ==> ext == [] || IsCode(ext)
    ensures ParenGroup(s).None? ==> ext == (match TrailingDigitGroup(s) case Some(d) => d case None => [])
  {
    match ParenGroup(s)
    case Some(g) =>
      var c := Strip(s[g.0 + 1..g.1]);
      if IsCode(c) then c else []
    case None =>
      match TrailingDigitGroup(s)
      case Some(d) => d
      case None => []
  }

  /** `tok` starts with a character `\s` cannot match, so `\s+TOKEN` leaves no choice to backtracking */
  predicate IsToken(tok: string)
  {
    tok != [] && !IsSpace(tok[0])
  }

  /**
   * `re.sub(r"\s+" + re.escape(tok) + r"\s*$", "", s)`: when, after the
   * trailing whitespace, `s` ends in `tok` preceded by whitespace, that
   * tail and the whitespace before it are dropped.
   */
  function RemoveTrailingToken(s: string, tok: string): (r: string)
    requires IsToken(tok)
    ensures |r| <= |s| && r == s[..|r|]
  {
    var t := RStrip(s);
    if |tok| < |t| && t[|t| - |tok|..] == tok && IsSpace(t[|t| - |tok| - 1]) then
      var r := RStrip(t[..|t| - |tok|]);
      assert t[..|t| - |tok|] == s[..|t| - |tok|];
      r
    else s
  }

  /** `s[i..]` begins with `tok` */
  predicate StartsWithAt(s: string, i: nat, tok: string)
  {
    i + |tok| <= |s| && s[i..i + |tok|] == tok
  }

  /**
   * `re.sub(r"\s+" + re.escape(tok) + r"\s*", "", s)`, not anchored: every
   * whitespace run directly followed by `tok`, together with `tok` and the
   * whitespace after it, is dropped, scanning left to right.
   */
  function RemoveSpacedToken(s: string, tok: string): (r: string)
    requires IsToken(tok)
    ensures |r| <= |s|
    decreases |s|
  {
    if s == [] then []
    else
      var n := SpaceRun(s, 0);
      if n > 0 && StartsWithAt(s, n, tok) then
        var e := n + |tok|;
        RemoveSpacedToken(s[e + SpaceRun(s, e)..], tok)
      else [s[0]] + RemoveSpacedToken(s[1..], tok)
  }
}
