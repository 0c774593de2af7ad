/**
 * Character classes and string helpers that the regular expressions and
 * string methods of the organizer rely on, restricted to ASCII:
 * `\d`, `\s`, `str.isalpha`, `str.isalnum`, `str.upper`, `str.lower`,
 * `str.strip`, `re.sub(r"\D", "", s)` and `os.path.splitext`.
 */
module Text {
  import opened Wrappers

  /** `\d` */
  predicate IsDigit(c: char) { '0' <= c <= '9' }

  /** `str.isalpha` on one ASCII character */
  predicate IsAlpha(c: char) { 'A' <= c <= 'Z' || 'a' <= c <= 'z' }

  /** `str.isalnum` on one ASCII character */
  predicate IsAlnum(c: char) { IsAlpha(c) || IsDigit(c) }

  /** `\s` and `str.isspace`: tab to carriage return, the four separators 0x1C-0x1F, space */
  predicate IsSpace(c: char) { c == ' ' || '\t' <= c <= '\r' || '\U{1C}' <= c <= '\U{1F}' }

  predicate AllDigits(s: string) { forall k :: 0 <= k < |s| ==> IsDigit(s[k]) }

  predicate AllAlnum(s: string) { forall k :: 0 <= k < |s| ==> IsAlnum(s[k]) }

  function Upper(c: char): (u: char)
    ensures IsAlpha(c) <==> IsAlpha(u)
    ensures !('a' <= u <= 'z')
  {
    if 'a' <= c <= 'z' then (c as int - 32) as char else c
  }

  function Lower(c: char): (l: char)
    ensures !('A' <= l <= 'Z')
  {
    if 'A' <= c <= 'Z' then (c as int + 32) as char else c
  }

  /** `str.upper`: exactly the lower-case letters change, and none is left */
  function UpperStr(s: string): (u: string)
    ensures |u| == |s| && forall k :: 0 <= k < |s| ==> u[k] == Upper(s[k])
    ensures forall k :: 0 <= k < |s| ==> !('a' <= u[k] <= 'z') && (u[k] != s[k] <==> 'a' <= s[k] <= 'z')
  {
    seq(|s|, k requires 0 <= k < |s| => Upper(s[k]))
  }

  /** `str.lower`: exactly the upper-case letters change, and none is left */
  function LowerStr(s: string): (l: string)
    ensures |l| == |s| && forall k :: 0 <= k < |s| ==> l[k] == Lower(s[k])
    ensures forall k :: 0 <= k < |s| ==> !('A' <= l[k] <= 'Z') && (l[k] != s[k] <==> 'A' <= s[k] <= 'Z')
  {
    seq(|s|, k requires 0 <= k < |s| => Lower(s[k]))
  }

  /** Upper-casing is blind to the case it starts from, so comparing upper-cased names ignores case. */
  lemma {:induction false} UpperIgnoresCase(s: string)
    ensures UpperStr(LowerStr(s)) == UpperStr(s) && UpperStr(UpperStr(s)) == UpperStr(s)
  {
    assert forall k :: 0 <= k < |s| ==> UpperStr(LowerStr(s))[k] == UpperStr(s)[k];
  }

  /** `str.capitalize`: first character upper-cased, the rest lower-cased */
  function Capitalize(s: string): (c: string)
    ensures |c| == |s|
    ensures |s| > 0 ==> c[0] == Upper(s[0]) && c[1..] == LowerStr(s[1..])
  {
    if s == [] then [] else [Upper(s[0])] + LowerStr(s[1..])
  }

  /** Leading whitespace removed */
  function LStrip(s: string): (r: string)
    ensures |r| <= |s| && r == s[|s| - |r|..]
    ensures r != [] ==> !IsSpace(r[0])
    ensures forall k :: 0 <= k < |s| - |r| ==> IsSpace(s[k])
  {
    if s != [] && IsSpace(s[0]) then LStrip(s[1..]) else s
  }

  /** Trailing whitespace removed */
  function RStrip(s: string): (r: string)
    ensures |r| <= |s| && r == s[..|r|]
    ensures r != [] ==> !IsSpace(r[|r| - 1])
    ensures forall k :: |r| <= k < |s| ==> IsSpace(s[k])
  {
    if s != [] && IsSpace(s[|s| - 1]) then RStrip(s[..|s| - 1]) else s
  }

  /** `str.strip()` */
  function Strip(s: string): (r: string)
    ensures |r| <= |s|
    ensures r != [] ==> !IsSpace(r[0]) && !IsSpace(r[|r| - 1])
  {
    RStrip(LStrip(s))
  }

  /** Number of consecutive digits of `s` starting at position `i` */
  function DigitRun(s: string, i: nat): (n: nat)
    requires i <= |s|
    ensures i + n <= |s|
    ensures forall k :: i <= k < i + n ==> IsDigit(s[k])
    ensures i + n < |s| ==> !IsDigit(s[i + n])
    decreases |s| - i
  {
    if i < |s| && IsDigit(s[i]) then 1 + DigitRun(s, i + 1) else 0
  }

  /** Number of consecutive whitespace characters of `s` starting at position `i` */
  function SpaceRun(s: string, i: nat): (n: nat)
    requires i <= |s|
    ensures i + n <= |s|
    ensures forall k :: i <= k < i + n ==> IsSpace(s[k])
    ensures i + n < |s| ==> !IsSpace(s[i + n])
    decreases |s| - i
  {
    if i < |s| && IsSpace(s[i]) then 1 + SpaceRun(s, i + 1) else 0
  }

  /** `re.sub(r"\D", "", s)`: the digits of `s`, in order */
  function DigitsOnly(s: string): (d: string)
    ensures |d| <= |s|
    ensures AllDigits(d)
  {
    if s == [] then []
    else (if IsDigit(s[0]) then [s[0]] else []) + DigitsOnly(s[1..])
  }

  lemma {:induction false} DigitsOnlyAppend(a: string, b: string)
    ensures DigitsOnly(a + b) == DigitsOnly(a) + DigitsOnly(b)
  {
    if a == [] {
      assert a + b == b;
    } else {
      assert (a + b)[1..] == a[1..] + b;
      DigitsOnlyAppend(a[1..], b);
    }
  }

  lemma {:induction false} DigitsOnlyOfDigits(s: string)
    requires AllDigits(s)
    ensures DigitsOnly(s) == s
  {
    if s != [] {
      DigitsOnlyOfDigits(s[1..]);
    }
  }

  lemma {:induction false} DigitsOnlyOfSpaces(s: string)
    requires forall k :: 0 <= k < |s| ==> IsSpace(s[k])
    ensures DigitsOnly(s) == []
  {
    if s != [] {
      DigitsOnlyOfSpaces(s[1..]);
    }
  }

  lemma {:induction false} NoDigitsOnly(s: string)
    requires forall k :: 0 <= k < |s| ==> !IsDigit(s[k])
    ensures DigitsOnly(s) == []
  {
    if s != [] {
      NoDigitsOnly(s[1..]);
    }
  }

  /**
   * Three digit groups of 3, 3 and 4 at `s`, `a` and `b`, separated by
   * characters that are not digits: the digits of it all are the three groups.
   */
  lemma {:induction false} DigitsOfGroups(w: string, s: nat, a: nat, b: nat)
    requires s + 3 <= a && a + 3 <= b && b + 4 <= |w|
    requires AllDigits(w[s..s + 3]) && AllDigits(w[a..a + 3]) && AllDigits(w[b..b + 4])
    requires forall k :: s + 3 <= k < a ==> !IsDigit(w[k])
    requires forall k :: a + 3 <= k < b ==> !IsDigit(w[k])
    ensures DigitsOnly(w[s..b + 4]) == w[s..s + 3] + w[a..a + 3] + w[b..b + 4]
  {
    GroupThenGap(w, s, s + 3, a, b + 4);
    GroupThenGap(w, a, a + 3, b, b + 4);
    DigitsOnlyOfDigits(w[b..b + 4]);
  }

  /** A digit group, then characters that are not digits: the digits from the group on are the group and the digits after the gap. */
  lemma {:induction false} GroupThenGap(w: string, i: nat, j: nat, k: nat, l: nat)
    requires i <= j <= k <= l <= |w|
    requires AllDigits(w[i..j])
    requires forall n :: j <= n < k ==> !IsDigit(w[n])
    ensures DigitsOnly(w[i..l]) == w[i..j] + DigitsOnly(w[k..l])
  {
    SliceDigits(w, i, j, l);
    SliceDigits(w, j, k, l);
    GapDigits(w, j, k);
    DigitsOnlyOfDigits(w[i..j]);
  }

  /** The digits of a slice are the digits of its two halves. */
  lemma {:induction false} SliceDigits(w: string, i: nat, j: nat, k: nat)
    requires i <= j <= k <= |w|
    ensures DigitsOnly(w[i..k]) == DigitsOnly(w[i..j]) + DigitsOnly(w[j..k])
  {
    SliceSplit(w, i, j, k);
    DigitsOnlyAppend(w[i..j], w[j..k]);
  }

  /** A slice without digits has no digits to keep. */
  lemma {:induction false} GapDigits(w: string, i: nat, j: nat)
    requires i <= j <= |w|
    requires forall k :: i <= k < j ==> !IsDigit(w[k])
    ensures DigitsOnly(w[i..j]) == []
  {
    var g := w[i..j];
    assert forall k :: 0 <= k < |g| ==> g[k] == w[i + k];
    NoDigitsOnly(g);
  }

  lemma {:induction false} SliceSplit(w: string, i: nat, j: nat, k: nat)
    requires i <= j <= k <= |w|
    ensures w[i..k] == w[i..j] + w[j..k]
  {
  }

  /** Python's `s[-4:]` on a string of at least four characters */
  function Tail4(s: string): (t: string)
    requires |s| >= 4
    ensures |t| == 4 && s == s[..|s| - 4] + t
    ensures AllDigits(s) ==> AllDigits(t)
  {
    s[|s| - 4..]
  }

  /** Position of the last '.' in `s`, if any */
  function LastDot(s: string): (d: Option<nat>)
    ensures d.Some? ==> d.value < |s| && s[d.value] == '.' && '.' !in s[d.value + 1..]
    ensures d.None? ==> '.' !in s
  {
    if s == [] then None
    else if s[|s| - 1] == '.' then Some(|s| - 1)
    else
      var d := LastDot(s[..|s| - 1]);
      assert s == s[..|s| - 1] + [s[|s| - 1]];
      d
  }

  predicate AllDots(s: string) { forall k :: 0 <= k < |s| ==> s[k] == '.' }

  /**
   * `os.path.splitext` on a bare file name (no directory separators):
   * the extension starts at the last dot, unless every character before
   * that dot is itself a dot (".bashrc" has no extension).
   */
  function SplitExt(name: string): (r: (string, string))
    ensures r.0 + r.1 == name
    ensures r.1 == [] || (r.1[0] == '.' && '.' !in r.1[1..] && !AllDots(r.0))
  {
    match LastDot(name)
    case None => (name, [])
    case Some(d) =>
      if AllDots(name[..d]) then (name, [])
      else
        assert name[..d] + name[d..] == name;
        (name[..d], name[d..])
  }

  /** A stem with no dot, followed by an extension of the shape SplitExt produces, splits back into the two. */
  lemma {:induction false} SplitExtOfJoin(stem: string, ext: string)
    requires stem != [] && '.' !in stem
    requires ext == [] || (ext[0] == '.' && '.' !in ext[1..])
    ensures SplitExt(stem + ext) == (stem, ext)
  {
    var name := stem + ext;
    if ext == [] {
      assert name == stem;
      assert LastDot(name).None?;
    } else {
      var d := LastDot(name);
      assert name[|stem|] == '.';
      assert d.Some?;
      assert d.value == |stem|;
      assert name[..d.value] == stem;
      assert !AllDots(stem) by { assert stem[0] != '.'; }
    }
  }
}
