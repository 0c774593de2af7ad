/**
 * Account tokens read from a bill's file name (`extract_account_tokens`).
 *
 * The extension comes from the stem exactly as in the mapping builder
 * (`ExtensionCode`). The last four digits are looked for in a working copy
 * of the stem from which the dates, and, when an extension was found, the
 * parenthesised groups and the spaced extension, have been removed. Three
 * rules are tried in order:
 *   1. phone numbers, one shape after the other, the first occurrence of each
 *      shape only, accepted when it starts the copy or follows a character that
 *      is not alphanumeric;
 *   2. `re.finditer(r"\d{7,10}")` chunks not preceded by a letter: the longest,
 *      then the rightmost;
 *   3. `re.finditer(r"\d{4,}")` runs not preceded by a letter and not a bare
 *      four-digit "19xx"/"20xx": the rightmost.
 */
module Tokens {
  import opened Wrappers
  import opened Text
  import opened Patterns

  /** The source's `(last4, ext)` pair; "" where nothing was found */
  datatype TokenPair = TokenPair(last4: string, ext: string)

  /** A match of a regular expression: where it starts and how long it is */
  datatype Span = Span(start: nat, len: nat)
  {
    function End(): nat { start + len }
  }

  predicate InBounds(w: string, m: Span) { m.End() <= |w| }

  predicate AllInBounds(w: string, ms: seq<Span>) { forall m :: m in ms ==> InBounds(w, m) }

  /** `match.group(1)` */
  function Group(w: string, m: Span): string
    requires InBounds(w, m)
  {
    w[m.start..m.End()]
  }

  /** Starts strictly increase: the order in which `re.finditer` yields its matches */
  predicate Ascending(ms: seq<Span>)
  {
    forall j, k :: 0 <= j < k < |ms| ==> ms[j].start < ms[k].start
  }

  // ---------------------------------------------------------------- working copy

  /**
   * `base_for_last4`: the four date patterns are removed one after the other;
   * with an extension, the parenthesised groups and every whitespace run
   * followed by the extension (up to the whitespace after it) go too.
   */
  function WorkingCopy(base: string, ext: string): (w: string)
    requires ext == [] || IsToken(ext)
    ensures |w| <= |base|
  {
    var w := RemoveAll(RemoveAll(RemoveAll(RemoveAll(base, UnderscoreFullDate), UnderscoreShortDate), FullDate), ShortDate);
    if ext == [] then w else RemoveSpacedToken(RemoveParenGroups(w), ext)
  }

  // ---------------------------------------------------------------- rule 1: phone numbers

  /** The three phone shapes, in the order they are tried */
  datatype PhoneShape = SpaceSeparated | HyphenSeparated | Plain

  const PhoneShapes: seq<PhoneShape> := [SpaceSeparated, HyphenSeparated, Plain]

  /**
   * `\d{3}\s+\d{3}\s+\d{4}` tried at position `i`; the result is the end of
   * the match. The digit groups must be followed by whitespace, so each
   * whitespace run is taken whole.
   */
  function SpacedPhoneAt(w: string, i: nat): (e: Option<nat>)
    requires i <= |w|
    ensures e.Some? ==> i + 12 <= e.value <= |w|
  {
    if DigitsAt(w, i, 3) && i + 3 < |w| && IsSpace(w[i + 3]) then
      var a := i + 3 + SpaceRun(w, i + 3);
      if DigitsAt(w, a, 3) && a + 3 < |w| && IsSpace(w[a + 3]) then
        var b := a + 3 + SpaceRun(w, a + 3);
        if DigitsAt(w, b, 4) then Some(b + 4) else None
      else None
    else None
  }

  /** `\d{n}` at position `i` */
  predicate DigitsAt(w: string, i: nat, n: nat)
  {
    i + n <= |w| && AllDigits(w[i..i + n])
  }

  /** `re.search(r"\d{3}\s+\d{3}\s+\d{4}", w)` from position `i` */
  function FindSpaced(w: string, i: nat): (r: Option<nat>)
    requires i <= |w|
    ensures r.Some? ==> i <= r.value <= |w| && SpacedPhoneAt(w, r.value).Some?
    ensures r.Some? ==> forall k :: i <= k < r.value ==> SpacedPhoneAt(w, k).None?
    ensures r.None? ==> forall k :: i <= k <= |w| ==> SpacedPhoneAt(w, k).None?
    decreases |w| - i
  {
    if SpacedPhoneAt(w, i).Some? then Some(i)
    else if i == |w| then None
    else FindSpaced(w, i + 1)
  }

  /** `re.search(r"(\d{3}\s+\d{3}\s+\d{4})", w)` */
  function SpacedMatch(w: string): (r: Option<Span>)
    ensures r.Some? ==> InBounds(w, r.value) && SpacedPhoneAt(w, r.value.start) == Some(r.value.End())
  {
    match FindSpaced(w, 0)
    case Some(i) => Some(Span(i, SpacedPhoneAt(w, i).value - i))
    case None => None
  }

  /** `re.search(r"(\d{3}-\d{3}-\d{4})", w)` */
  function HyphenMatch(w: string): (r: Option<Span>)
    ensures r.Some? ==> InBounds(w, r.value) && r.value.len == 12 && MatchesAt(w, r.value.start, HyphenPhone)
  {
    match FindFrom(w, HyphenPhone, 0)
    case Some(i) => Some(Span(i, 12))
    case None => None
  }

  /** `re.search(r"(\d{10})", w)` */
  function PlainMatch(w: string): (r: Option<Span>)
    ensures r.Some? ==> InBounds(w, r.value) && r.value.len == 10 && MatchesAt(w, r.value.start, TenDigits)
  {
    match FindFrom(w, TenDigits, 0)
    case Some(i) => Some(Span(i, 10))
    case None => None
  }

  /** The first occurrence of a phone shape in `w` */
  function PhoneMatch(w: string, shape: PhoneShape): (r: Option<Span>)
    ensures r.Some? ==> InBounds(w, r.value) && r.value.len >= 10
  {
    match shape
    case SpaceSeparated => SpacedMatch(w)
    case HyphenSeparated => HyphenMatch(w)
    case Plain => PlainMatch(w)
  }

  /** `re.sub(r"\D", "", phone_str)` */
  function PhoneDigits(w: string, m: Span): string
    requires InBounds(w, m)
  {
    DigitsOnly(Group(w, m))
  }

  /** The source's guard: the match starts the copy or follows a character that is not alphanumeric */
  predicate Guarded(w: string, m: Span)
    requires m.start <= |w|
  {
    m.start == 0 || !IsAlnum(w[m.start - 1])
  }

  /** A phone match is accepted when its digits number ten and it is guarded. */
  predicate Accepted(w: string, m: Span)
    requires InBounds(w, m)
  {
    |PhoneDigits(w, m)| == 10 && Guarded(w, m)
  }

  /** The phone rule, from shape number `k` on: the first shape whose first match is accepted */
  function PhoneRuleFrom(w: string, k: nat): (r: Option<Span>)
    ensures r.Some? ==> InBounds(w, r.value) && r.value.len >= 10 && Accepted(w, r.value)
    decreases |PhoneShapes| - k
  {
    if k >= |PhoneShapes| then None
    else
      match PhoneMatch(w, PhoneShapes[k])
      case Some(m) => if Accepted(w, m) then Some(m) else PhoneRuleFrom(w, k + 1)
      case None => PhoneRuleFrom(w, k + 1)
  }

  /** The last four phone digits are the last four characters of the accepted match. */
  lemma {:induction false} PhoneRuleTail(w: string, k: nat)
    requires PhoneRuleFrom(w, k).Some?
    ensures var m := PhoneRuleFrom(w, k).value; Tail4(PhoneDigits(w, m)) == w[m.End() - 4..m.End()]
    decreases |PhoneShapes| - k
  {
    var m := PhoneMatch(w, PhoneShapes[k]);
    if m.Some? && Accepted(w, m.value) {
      PhoneDigitsAreTen(w, PhoneShapes[k], m.value);
    } else {
      PhoneRuleTail(w, k + 1);
    }
  }

  /** The digits of a `\d{3}\s+\d{3}\s+\d{4}` match at `s` */
  lemma {:induction false} SpacedDigits(w: string, s: nat)
    requires s <= |w| && SpacedPhoneAt(w, s).Some?
    ensures var e := SpacedPhoneAt(w, s).value;
      |DigitsOnly(w[s..e])| == 10 && Tail4(DigitsOnly(w[s..e])) == w[e - 4..e]
  {
    var a := s + 3 + SpaceRun(w, s + 3);
    var b := a + 3 + SpaceRun(w, a + 3);
    assert SpacedPhoneAt(w, s) == Some(b + 4);
    DigitsOfGroups(w, s, a, b);
  }

  /** The digits of a `\d{3}-\d{3}-\d{4}` match at `s` */
  lemma {:induction false} HyphenDigits(w: string, s: nat)
    requires MatchesAt(w, s, HyphenPhone)
    ensures |DigitsOnly(w[s..s + 12])| == 10 && Tail4(DigitsOnly(w[s..s + 12])) == w[s + 8..s + 12]
  {
    DigitsInMatch(w, s, HyphenPhone, 0, 3);
    DigitsInMatch(w, s, HyphenPhone, 4, 7);
    DigitsInMatch(w, s, HyphenPhone, 8, 12);
    assert SymMatches(HyphenPhone[3], w[s + 3]) && SymMatches(HyphenPhone[7], w[s + 7]);
    DigitsOfGroups(w, s, s + 4, s + 8);
  }

  /** The digits of a `\d{10}` match at `s` */
  lemma {:induction false} PlainDigits(w: string, s: nat)
    requires MatchesAt(w, s, TenDigits)
    ensures DigitsOnly(w[s..s + 10]) == w[s..s + 10]
  {
    DigitsInMatch(w, s, TenDigits, 0, 10);
    DigitsOnlyOfDigits(w[s..s + 10]);
  }

  /**
   * Every phone shape holds exactly ten digits, so the source's
   * `len(phone_digits) == 10` always holds, and the last four of them are the
   * last four characters of the match.
   */
  lemma {:induction false} PhoneDigitsAreTen(w: string, shape: PhoneShape, m: Span)
    requires PhoneMatch(w, shape) == Some(m)
    ensures InBounds(w, m) && |PhoneDigits(w, m)| == 10 && Tail4(PhoneDigits(w, m)) == w[m.End() - 4..m.End()]
  {
    match shape
    case SpaceSeparated => SpacedMatchDigits(w, m);
    case HyphenSeparated => HyphenMatchDigits(w, m);
    case Plain => PlainMatchDigits(w, m);
  }

  lemma {:induction false} SpacedMatchDigits(w: string, m: Span)
    requires SpacedMatch(w) == Some(m)
    ensures InBounds(w, m) && |PhoneDigits(w, m)| == 10 && Tail4(PhoneDigits(w, m)) == w[m.End() - 4..m.End()]
  {
    SpacedDigits(w, m.start);
  }

  lemma {:induction false} HyphenMatchDigits(w: string, m: Span)
    requires HyphenMatch(w) == Some(m)
    ensures InBounds(w, m) && |PhoneDigits(w, m)| == 10 && Tail4(PhoneDigits(w, m)) == w[m.End() - 4..m.End()]
  {
    HyphenDigits(w, m.start);
  }

  lemma {:induction false} PlainMatchDigits(w: string, m: Span)
    requires PlainMatch(w) == Some(m)
    ensures InBounds(w, m) && |PhoneDigits(w, m)| == 10 && Tail4(PhoneDigits(w, m)) == w[m.End() - 4..m.End()]
  {
    PlainDigits(w, m.start);
  }

  /** No phone shape's first match is guarded (the ten-digit check never fails). */
  predicate NoPhone(w: string)
  {
    forall k :: 0 <= k < |PhoneShapes| ==>
      PhoneMatch(w, PhoneShapes[k]).None? || !Guarded(w, PhoneMatch(w, PhoneShapes[k]).value)
  }

  lemma {:induction false} NoPhoneIff(w: string)
    ensures PhoneRuleFrom(w, 0).None? <==> NoPhone(w)
  {
    PhoneStep(w, 0);
    PhoneStep(w, 1);
    PhoneStep(w, 2);
  }

  /** One step of the phone loop: shape `k` yields nothing exactly when its first match is absent or unguarded. */
  lemma {:induction false} PhoneStep(w: string, k: nat)
    requires k < |PhoneShapes|
    ensures PhoneRuleFrom(w, k).None? <==> PhoneRejected(w, k) && PhoneRuleFrom(w, k + 1).None?
  {
    if PhoneMatch(w, PhoneShapes[k]).Some? {
      PhoneDigitsAreTen(w, PhoneShapes[k], PhoneMatch(w, PhoneShapes[k]).value);
    }
  }

  predicate PhoneRejected(w: string, k: nat)
    requires k < |PhoneShapes|
  {
    PhoneMatch(w, PhoneShapes[k]).None? || !Guarded(w, PhoneMatch(w, PhoneShapes[k]).value)
  }

  lemma {:induction false} PhoneDigitsIfAny(w: string)
    ensures forall k :: 0 <= k < |PhoneShapes| && PhoneMatch(w, PhoneShapes[k]).Some? ==>
      |PhoneDigits(w, PhoneMatch(w, PhoneShapes[k]).value)| == 10
  {
    forall k | 0 <= k < |PhoneShapes| && PhoneMatch(w, PhoneShapes[k]).Some?
      ensures |PhoneDigits(w, PhoneMatch(w, PhoneShapes[k]).value)| == 10
    {
      PhoneDigitsAreTen(w, PhoneShapes[k], PhoneMatch(w, PhoneShapes[k]).value);
    }
  }

  // ---------------------------------------------------------------- rules 2 and 3: digit runs

  /**
   * `re.finditer(r"\d{7,10}", w)` from position `i`: at a digit run of seven
   * or more, a greedy chunk of at most ten digits, the search going on right
   * after it; elsewhere the search moves one character on.
   */
  function ChunksFrom(w: string, i: nat): (r: seq<Span>)
    requires i <= |w|
    ensures forall m :: m in r ==> i <= m.start && InBounds(w, m) && 7 <= m.len <= 10 && AllDigits(Group(w, m))
    ensures Ascending(r)
    decreases |w| - i
  {
    if i == |w| then []
    else
      var n := DigitRun(w, i);
      if n >= 7 then
        var len := if n < 10 then n else 10;
        assert AllDigits(w[i..i + len]);
        [Span(i, len)] + ChunksFrom(w, i + len)
      else ChunksFrom(w, i + 1)
  }

  /**
   * `re.finditer(r"\d{4,}", w)` from position `i`: the maximal digit runs of
   * four or more.
   */
  function RunsFrom(w: string, i: nat): (r: seq<Span>)
    requires i <= |w|
    ensures forall m :: m in r ==>
              (i <= m.start && InBounds(w, m) && m.len >= 4 && m.len == DigitRun(w, m.start) && AllDigits(Group(w, m)))
    ensures Ascending(r)
    decreases |w| - i
  {
    if i == |w| then []
    else
      var n := DigitRun(w, i);
      if n >= 4 then
        assert AllDigits(w[i..i + n]);
        [Span(i, n)] + RunsFrom(w, i + n)
      else
        RunsFrom(w, i + 1)
  }

  datatype Rule = Secondary | Fallback

  /** The `continue` tests and the length test of each rule's candidate loop */
  predicate Keep(w: string, rule: Rule, m: Span)
    requires InBounds(w, m)
  {
    match rule
    case Secondary =>
      !(m.start > 0 && IsAlpha(w[m.start - 1]))
      && !(m.start > 0 && Upper(w[m.start - 1]) == 'X')
      && 7 <= m.len <= 10
    case Fallback =>
      !(m.len == 4 && (Group(w, m)[..2] == "19" || Group(w, m)[..2] == "20"))
      && !(m.start > 0 && IsAlpha(w[m.start - 1]))
  }

  /** The `candidates` list: the matches the rule keeps, in order */
  function Kept(w: string, rule: Rule, ms: seq<Span>): (r: seq<Span>)
    requires AllInBounds(w, ms)
    ensures forall m :: m in r <==> m in ms && Keep(w, rule, m)
    ensures Ascending(ms) ==> Ascending(r)
    decreases |ms|
  {
    if ms == [] then []
    else
      var last := ms[|ms| - 1];
      var front := Kept(w, rule, ms[..|ms| - 1]);
      assert forall m :: m in ms <==> m in ms[..|ms| - 1] || m == last;
      assert Ascending(ms) ==> forall j :: 0 <= j < |front| ==> front[j].start < last.start by {
        if Ascending(ms) {
          forall j | 0 <= j < |front| ensures front[j].start < last.start {
            assert front[j] in ms[..|ms| - 1];
            var p :| 0 <= p < |ms| - 1 && ms[..|ms| - 1][p] == front[j];
            assert ms[p] == front[j];
          }
        }
      }
      if Keep(w, rule, last) then front + [last] else front
  }

  /** `(a.len, a.start) > (b.len, b.start)`: the key of the secondary rule's `max` */
  predicate LongerOrLater(a: Span, b: Span)
  {
    a.len > b.len || (a.len == b.len && a.start > b.start)
  }

  /** `max(candidates, key=lambda x: (len(x[0]), x[1]))`: the first candidate with the greatest key */
  function LongestThenRightmost(cs: seq<Span>): (r: Span)
    requires |cs| > 0
    ensures r in cs
    ensures forall c :: c in cs ==> !LongerOrLater(c, r)
    decreases |cs|
  {
    if |cs| == 1 then cs[0]
    else
      var b := LongestThenRightmost(cs[..|cs| - 1]);
      assert forall c :: c in cs ==> c in cs[..|cs| - 1] || c == cs[|cs| - 1];
      if LongerOrLater(cs[|cs| - 1], b) then cs[|cs| - 1] else b
  }

  /** `max(candidates, key=lambda x: x[1])`: the first candidate with the greatest start */
  function Rightmost(cs: seq<Span>): (r: Span)
    requires |cs| > 0
    ensures r in cs
    ensures forall c :: c in cs ==> c.start <= r.start
    decreases |cs|
  {
    if |cs| == 1 then cs[0]
    else
      var b := Rightmost(cs[..|cs| - 1]);
      assert forall c :: c in cs ==> c in cs[..|cs| - 1] || c == cs[|cs| - 1];
      if cs[|cs| - 1].start > b.start then cs[|cs| - 1] else b
  }

  /** The secondary winner is the only candidate no other exceeds in (length, start). */
  lemma {:induction false} LongestThenRightmostUnique(cs: seq<Span>, m: Span)
    requires m in cs && forall c :: c in cs ==> !LongerOrLater(c, m)
    ensures LongestThenRightmost(cs) == m
  {
    var r := LongestThenRightmost(cs);
    assert !LongerOrLater(r, m) && !LongerOrLater(m, r);
  }

  /** Starts are distinct, so the fallback winner is the only candidate with the greatest start: the last one. */
  lemma {:induction false} RightmostUnique(cs: seq<Span>, m: Span)
    requires Ascending(cs) && m in cs && forall c :: c in cs ==> c.start <= m.start
    ensures Rightmost(cs) == m && m == cs[|cs| - 1]
  {
    var r := Rightmost(cs);
    var p :| 0 <= p < |cs| && cs[p] == r;
    var q :| 0 <= q < |cs| && cs[q] == m;
    assert cs[|cs| - 1].start <= m.start;
  }

  /** Rule 2: the longest, then rightmost, kept chunk */
  function ChunkRule(w: string): (r: Option<Span>)
    ensures r.Some? ==> r.value in ChunksFrom(w, 0) && InBounds(w, r.value) && Keep(w, Secondary, r.value)
    ensures r.Some? ==> forall c :: c in ChunksFrom(w, 0) && Keep(w, Secondary, c) ==> !LongerOrLater(c, r.value)
    ensures r.None? <==> forall c :: c in ChunksFrom(w, 0) ==> !Keep(w, Secondary, c)
  {
    var cs := Kept(w, Secondary, ChunksFrom(w, 0));
    if cs == [] then None else Some(LongestThenRightmost(cs))
  }

  /** Rule 3: the rightmost kept run */
  function RunRule(w: string): (r: Option<Span>)
    ensures r.Some? ==> r.value in RunsFrom(w, 0) && InBounds(w, r.value) && Keep(w, Fallback, r.value)
    ensures r.Some? ==> forall c :: c in RunsFrom(w, 0) && Keep(w, Fallback, c) ==> c.start <= r.value.start
    ensures r.None? <==> forall c :: c in RunsFrom(w, 0) ==> !Keep(w, Fallback, c)
  {
    var cs := Kept(w, Fallback, RunsFrom(w, 0));
    if cs == [] then None else Some(Rightmost(cs))
  }

  // ---------------------------------------------------------------- the result

  /** `phone_digits[-4:]` or `best[0][-4:]` of the first rule that finds something, or "" */
  function Last4(w: string): (last4: string)
    ensures last4 == [] || (|last4| == 4 && AllDigits(last4))
  {
    match PhoneRuleFrom(w, 0)
    case Some(m) => Tail4(PhoneDigits(w, m))
    case None =>
      match ChunkRule(w)
      case Some(m) => Tail4(Group(w, m))
      case None =>
        match RunRule(w)
        case Some(m) => Tail4(Group(w, m))
        case None => []
  }

  /** `extract_account_tokens(file_name)` */
  function AccountTokens(fileName: string): (r: TokenPair)
    ensures r.last4 == [] || (|r.last4| == 4 && AllDigits(r.last4))
    ensures r.ext == [] || IsCode(r.ext) || (3 <= |r.ext| <= 4 && AllDigits(r.ext))
  {
    var base := SplitExt(fileName).0;
    var ext := ExtensionCode(base);
    TokenPair(Last4(WorkingCopy(base, ext)), ext)
  }

  /** The working copy `AccountTokens` searches */
  function WorkingCopyOf(fileName: string): string
  {
    var base := SplitExt(fileName).0;
    WorkingCopy(base, ExtensionCode(base))
  }

  // ---------------------------------------------------------------- properties

  /** A digit sequence of `w` with the given last four characters */
  ghost predicate EndsDigitSequence(w: string, last4: string)
  {
    exists m :: InBounds(w, m) && m.len >= 4 && AllDigits(Group(w, m)) && last4 == w[m.End() - 4..m.End()]
  }

  /** A match whose last four digits are its last four characters ends a digit sequence with them. */
  lemma {:induction false} PhoneEndsDigitSequence(w: string, m: Span)
    requires InBounds(w, m) && m.len >= 4 && |PhoneDigits(w, m)| == 10
    requires Tail4(PhoneDigits(w, m)) == w[m.End() - 4..m.End()]
    ensures EndsDigitSequence(w, Tail4(PhoneDigits(w, m)))
  {
    var d := Span(m.End() - 4, 4);
    assert Group(w, d) == Tail4(PhoneDigits(w, m));
  }

  lemma {:induction false} SpanEndsDigitSequence(w: string, m: Span)
    requires InBounds(w, m) && m.len >= 4 && AllDigits(Group(w, m))
    ensures EndsDigitSequence(w, Tail4(Group(w, m)))
  {
    assert Tail4(Group(w, m)) == w[m.End() - 4..m.End()];
  }

  /** The last four are "" or the last four characters of a digit sequence of the working copy. */
  lemma {:induction false} Last4EndsDigitSequence(w: string)
    ensures Last4(w) == [] || EndsDigitSequence(w, Last4(w))
  {
    if PhoneRuleFrom(w, 0).Some? {
      PhoneRuleTail(w, 0);
      PhoneEndsDigitSequence(w, PhoneRuleFrom(w, 0).value);
    } else if ChunkRule(w).Some? {
      SpanEndsDigitSequence(w, ChunkRule(w).value);
    } else if RunRule(w).Some? {
      SpanEndsDigitSequence(w, RunRule(w).value);
    }
  }

  /**
   * The tokens of a file name: a found last4 is the last four characters of
   * a digit sequence of the working copy, which is no longer than the stem,
   * and the extension is the extension rule applied to the stem.
   */
  lemma {:induction false} AccountTokensFound(fileName: string)
    ensures var t := AccountTokens(fileName);
      (t.last4 == [] || EndsDigitSequence(WorkingCopyOf(fileName), t.last4))
      && |WorkingCopyOf(fileName)| <= |SplitExt(fileName).0|
      && t.ext == ExtensionCode(SplitExt(fileName).0)
  {
    Last4EndsDigitSequence(WorkingCopyOf(fileName));
  }

  /**
   * Rule 1 comes first: when the first match of phone shape `k` is guarded
   * and no earlier shape's first match is, the last four digits of that
   * match are the result, whatever the other rules would find.
   */
  lemma {:induction false} PhoneRuleChoice(w: string, k: nat, m: Span)
    requires k < |PhoneShapes| && PhoneMatch(w, PhoneShapes[k]) == Some(m) && Guarded(w, m)
    requires forall j :: 0 <= j < k ==> PhoneRejected(w, j)
    ensures Last4(w) == w[m.End() - 4..m.End()]
  {
    PhoneDigitsAreTen(w, PhoneShapes[k], m);
    assert PhoneRuleFrom(w, k) == Some(m);
    if k > 0 {
      PhoneSkip(w, 0);
    }
    if k > 1 {
      PhoneSkip(w, 1);
    }
  }

  /** One turn of the phone loop */
  lemma {:induction false} PhoneRuleStep(w: string, k: nat)
    requires k < |PhoneShapes|
    ensures PhoneRuleFrom(w, k) ==
      match PhoneMatch(w, PhoneShapes[k])
      case Some(m) => if |PhoneDigits(w, m)| == 10 && Guarded(w, m) then Some(m) else PhoneRuleFrom(w, k + 1)
      case None => PhoneRuleFrom(w, k + 1)
  {
  }

  lemma {:induction false} PhoneSkip(w: string, k: nat)
    requires k < |PhoneShapes| && PhoneRejected(w, k)
    ensures PhoneRuleFrom(w, k) == PhoneRuleFrom(w, k + 1)
  {
  }

  /**
   * Rule 2 comes next: with no guarded phone match, the kept chunk that no
   * other kept chunk beats in (length, start) gives the result.
   */
  lemma {:induction false} ChunkRuleChoice(w: string, m: Span)
    requires NoPhone(w)
    requires m in ChunksFrom(w, 0) && Keep(w, Secondary, m)
    requires forall c :: c in ChunksFrom(w, 0) && Keep(w, Secondary, c) ==> !LongerOrLater(c, m)
    ensures Last4(w) == w[m.End() - 4..m.End()]
  {
    NoPhoneIff(w);
    LongestThenRightmostUnique(Kept(w, Secondary, ChunksFrom(w, 0)), m);
  }

  /**
   * Rule 3 comes last: with no guarded phone match and no kept chunk, the
   * kept run with the greatest start gives the result.
   */
  lemma {:induction false} FallbackRuleChoice(w: string, m: Span)
    requires NoPhone(w)
    requires forall c :: c in ChunksFrom(w, 0) ==> !Keep(w, Secondary, c)
    requires m in RunsFrom(w, 0) && Keep(w, Fallback, m)
    requires forall c :: c in RunsFrom(w, 0) && Keep(w, Fallback, c) ==> c.start <= m.start
    ensures Last4(w) == w[m.End() - 4..m.End()]
  {
    NoPhoneIff(w);
    assert PhoneRuleFrom(w, 0).None? && ChunkRule(w).None?;
    var cs := Kept(w, Fallback, RunsFrom(w, 0));
    assert m in cs;
    RightmostUnique(cs, m);
    assert RunRule(w) == Some(m);
  }

  /** Nothing is found exactly when all three rules come up empty. */
  lemma {:induction false} NoLast4Iff(w: string)
    ensures Last4(w) == [] <==>
      NoPhone(w)
      && (forall c :: c in ChunksFrom(w, 0) ==> !Keep(w, Secondary, c))
      && (forall c :: c in RunsFrom(w, 0) ==> !Keep(w, Fallback, c))
  {
    NoPhoneIff(w);
    PhoneDigitsIfAny(w);
  }

  /** The fallback winner is a whole digit run: no digit on either side of it. */
  lemma {:induction false} FallbackWinnerIsWholeRun(w: string)
    requires RunRule(w).Some?
    ensures var m := RunRule(w).value;
      (m.start == 0 || !IsDigit(w[m.start - 1])) && (m.End() == |w| || !IsDigit(w[m.End()]))
  {
    RunIsWhole(w, RunRule(w).value);
  }

  /** Every run of `\d{4,}` is a whole digit run: no digit on either side of it. */
  lemma {:induction false} RunIsWhole(w: string, m: Span)
    requires m in RunsFrom(w, 0)
    ensures (m.start == 0 || !IsDigit(w[m.start - 1])) && (m.End() == |w| || !IsDigit(w[m.End()]))
  {
    RunStopsAtNonDigit(w, m);
    if m.start > 0 {
      RunsFollowNonDigits(w, 0, m);
    }
  }

  lemma {:induction false} RunStopsAtNonDigit(w: string, m: Span)
    requires m in RunsFrom(w, 0)
    ensures m.End() == |w| || !IsDigit(w[m.End()])
  {
  }

  /** A run `re.finditer` yields after its starting point follows a character that is not a digit. */
  lemma {:induction false} RunsFollowNonDigits(w: string, i: nat, m: Span)
    requires i <= |w| && m in RunsFrom(w, i) && m.start > i
    ensures !IsDigit(w[m.start - 1])
    decreases |w| - i
  {
    assert m.len == DigitRun(w, m.start) && IsDigit(w[m.start]);
    var n := DigitRun(w, i);
    if n >= 4 {
      var rest := RunsFrom(w, i + n);
      assert RunsFrom(w, i) == [Span(i, n)] + rest;
      assert m in rest && i + n <= m.start;
      assert i + n < m.start by {
        assert i + n < |w| ==> !IsDigit(w[i + n]);
      }
      RunsFollowNonDigits(w, i + n, m);
    } else {
      var rest := RunsFrom(w, i + 1);
      assert RunsFrom(w, i) == rest;
      assert m in rest && i + 1 <= m.start;
      assert n == if IsDigit(w[i]) then 1 + DigitRun(w, i + 1) else 0;
      if m.start > i + 1 {
        RunsFollowNonDigits(w, i + 1, m);
      }
    }
  }

  /** The test for a preceding 'X' or 'x' never removes a chunk the letter test kept. */
  lemma {:induction false} XTestSubsumed(w: string, m: Span)
    requires InBounds(w, m) && 7 <= m.len <= 10
    ensures Keep(w, Secondary, m) <==> !(m.start > 0 && IsAlpha(w[m.start - 1]))
  {
  }

  lemma {:induction false} DigitRunOfDigits(w: string, i: nat)
    requires i <= |w| && forall k :: i <= k < |w| ==> IsDigit(w[k])
    ensures DigitRun(w, i) == |w| - i
    decreases |w| - i
  {
    if i < |w| {
      DigitRunOfDigits(w, i + 1);
    }
  }

  /** `\d{7,10}` cuts twelve digits into one ten-digit chunk; the last two digits are no match. */
  lemma {:induction false} TwelveDigitsOneChunk(w: string)
    requires |w| == 12 && AllDigits(w)
    ensures ChunksFrom(w, 0) == [Span(0, 10)]
  {
    DigitRunOfDigits(w, 0);
    DigitRunOfDigits(w, 10);
    DigitRunOfDigits(w, 11);
    assert ChunksFrom(w, 12) == [];
    assert ChunksFrom(w, 11) == [];
    assert ChunksFrom(w, 10) == [];
  }

  // ---------------------------------------------------------------- the candidate loops

  /**
   * `extract_account_tokens` as the source runs it: a loop over the phone
   * shapes, then, for each digit rule, a loop collecting the candidates and a
   * loop taking their maximum.
   */
  method ExtractAccountTokens(fileName: string) returns (t: TokenPair)
    ensures t == AccountTokens(fileName)
  {
    var base := SplitExt(fileName).0;
    var ext := ExtensionCode(base);
    var w := WorkingCopy(base, ext);
    var last4 := FindLast4(w);
    return TokenPair(last4, ext);
  }

  /** The three rules tried in order on the working copy */
  method FindLast4(w: string) returns (last4: string)
    ensures last4 == Last4(w)
  {
    var phone := FirstAcceptedPhone(w);
    if phone.Some? {
      return Tail4(PhoneDigits(w, phone.value));
    }

    var candidates := CollectCandidates(w, Secondary, ChunksFrom(w, 0));
    if candidates != [] {
      var best := PickLongestThenRightmost(candidates);
      return Tail4(Group(w, best));
    }

    candidates := CollectCandidates(w, Fallback, RunsFrom(w, 0));
    if candidates != [] {
      var best := PickRightmost(candidates);
      return Tail4(Group(w, best));
    }
    return [];
  }

  /** The `for pattern in phone_patterns` loop: the first accepted phone match */
  method FirstAcceptedPhone(w: string) returns (found: Option<Span>)
    ensures found == PhoneRuleFrom(w, 0)
  {
    var k := 0;
    while k < |PhoneShapes|
      invariant 0 <= k <= |PhoneShapes|
      invariant PhoneRuleFrom(w, k) == PhoneRuleFrom(w, 0)
    {
      PhoneRuleStep(w, k);
      var m := PhoneMatch(w, PhoneShapes[k]);
      if m.Some? {
        var digits := PhoneDigits(w, m.value);
        if |digits| == 10 && Guarded(w, m.value) {
          return m;
        }
      }
      k := k + 1;
    }
    return None;
  }

  /** `max(candidates, key=lambda x: (len(x[0]), x[1]))`, scanning the list */
  method PickLongestThenRightmost(candidates: seq<Span>) returns (best: Span)
    requires |candidates| > 0
    ensures best == LongestThenRightmost(candidates)
  {
    best := candidates[0];
    var i := 1;
    while i < |candidates|
      invariant 1 <= i <= |candidates|
      invariant best == LongestThenRightmost(candidates[..i])
    {
      assert candidates[..i + 1][..i] == candidates[..i];
      if LongerOrLater(candidates[i], best) {
        best := candidates[i];
      }
      i := i + 1;
    }
    assert candidates[..i] == candidates;
  }

  /** `max(candidates, key=lambda x: x[1])`, scanning the list */
  method PickRightmost(candidates: seq<Span>) returns (best: Span)
    requires |candidates| > 0
    ensures best == Rightmost(candidates)
  {
    best := candidates[0];
    var i := 1;
    while i < |candidates|
      invariant 1 <= i <= |candidates|
      invariant best == Rightmost(candidates[..i])
    {
      assert candidates[..i + 1][..i] == candidates[..i];
      if candidates[i].start > best.start {
        best := candidates[i];
      }
      i := i + 1;
    }
    assert candidates[..i] == candidates;
  }

  /** The `for match in ...: ... candidates.append(...)` loop of one rule */
  method CollectCandidates(w: string, rule: Rule, ms: seq<Span>) returns (candidates: seq<Span>)
    requires AllInBounds(w, ms)
    ensures candidates == Kept(w, rule, ms)
  {
    candidates := [];
    var j := 0;
    while j < |ms|
      invariant 0 <= j <= |ms|
      invariant candidates == Kept(w, rule, ms[..j])
    {
      assert ms[..j + 1][..j] == ms[..j];
      if Keep(w, rule, ms[j]) {
        candidates := candidates + [ms[j]];
      }
      j := j + 1;
    }
    assert ms[..j] == ms;
  }
}
