/**
 * The account mapping read from the spreadsheet (`build_mapping_from_excel`).
 *
 * Rows are read top to bottom. A row whose first cell names a provider and
 * whose second and third cells are blank starts that provider's section.
 * Inside a section, a row with a corporation and an account cell gives an
 * entry, stored under (provider, last four digits) and under (provider,
 * extension) for each of the two that is not empty; a later row overwrites
 * an earlier one under the same key.
 */
module Mapping {
  import opened Wrappers
  import opened Text
  import opened Patterns

  datatype Provider = Bell | Telus | Rogers

  /** The upper-case name the spreadsheet and the entries use */
  function ProviderName(p: Provider): string
  {
    match p
    case Bell => "BELL"
    case Telus => "TELUS"
    case Rogers => "ROGERS"
  }

  /** `cell0.upper() in ("BELL", "TELUS", "ROGERS")` */
  function ProviderOf(cell: string): (r: Option<Provider>)
    ensures r.Some? <==> UpperStr(cell) in {"BELL", "TELUS", "ROGERS"}
    ensures r.Some? ==> ProviderName(r.value) == UpperStr(cell)
  {
    var u := UpperStr(cell);
    if u == "BELL" then Some(Bell)
    else if u == "TELUS" then Some(Telus)
    else if u == "ROGERS" then Some(Rogers)
    else None
  }

  /** The source's entry dictionary */
  datatype Entry = Entry(provider: Provider, corp: string, last4: string, ext: string)

  type Key = (Provider, string)

  type Row = seq<string>

  /** `str(row[k]).strip()`, "" for a missing or empty cell */
  function Cell(row: Row, k: nat): string
  {
    if k < |row| then Strip(row[k]) else ""
  }

  /** `cell == "" or cell == "nan"` */
  predicate Blank(cell: string)
  {
    cell == "" || cell == "nan"
  }

  /** The provider a section header row names, if the row is one */
  function HeaderOf(row: Row): (r: Option<Provider>)
    ensures r.Some? ==> Blank(Cell(row, 1)) && Blank(Cell(row, 2)) && ProviderOf(Cell(row, 0)) == r
  {
    match ProviderOf(Cell(row, 0))
    case Some(p) => if Blank(Cell(row, 1)) && Blank(Cell(row, 2)) then Some(p) else None
    case None => None
  }

  // ---------------------------------------------------------------- the account cell

  predicate IsSeparator(c: char) { c == '-' || IsSpace(c) }

  /** `\d{3}[-\s]?\d{3}[-\s]?\d{4}` tried at position `i`; the result is the end of the match */
  function BuilderPhoneAt(s: string, i: nat): (e: Option<nat>)
    ensures e.Some? ==> i + 10 <= e.value <= |s|
  {
    if i + 3 <= |s| && AllDigits(s[i..i + 3]) then
      var j := if i + 3 < |s| && IsSeparator(s[i + 3]) then i + 4 else i + 3;
      if j + 3 <= |s| && AllDigits(s[j..j + 3]) then
        var k := if j + 3 < |s| && IsSeparator(s[j + 3]) then j + 4 else j + 3;
        if k + 4 <= |s| && AllDigits(s[k..k + 4]) then Some(k + 4) else None
      else None
    else None
  }

  /** `re.search(r"(\d{3}[-\s]?\d{3}[-\s]?\d{4})", s)` from position `i`: (start, end) */
  function FindBuilderPhone(s: string, i: nat): (r: Option<(nat, nat)>)
    requires i <= |s|
    ensures r.Some? ==> i <= r.value.0 && BuilderPhoneAt(s, r.value.0) == Some(r.value.1)
    ensures r.Some? ==> forall k :: i <= k < r.value.0 ==> BuilderPhoneAt(s, k).None?
    ensures r.None? ==> forall k :: i <= k <= |s| ==> BuilderPhoneAt(s, k).None?
    decreases |s| - i
  {
    match BuilderPhoneAt(s, i)
    case Some(e) => Some((i, e))
    case None => if i == |s| then None else FindBuilderPhone(s, i + 1)
  }

  /** The account cell with the found extension cut out */
  function WithoutExtension(acct: string, ext: string): (r: string)
    requires ext == [] || IsToken(ext)
    ensures |r| <= |acct|
    ensures ext == [] ==> r == acct
  {
    if ext == [] then acct
    else if ParenGroup(acct).Some? then RemoveParenGroups(acct)
    else RemoveTrailingToken(acct, ext)
  }

  /** `all_digits[-4:] if len(all_digits) >= 4 else ""` */
  function LastFourOfAll(s: string): (r: string)
    ensures r == [] || (|r| == 4 && AllDigits(r))
    ensures |DigitsOnly(s)| >= 4 <==> r != []
  {
    var all := DigitsOnly(s);
    if |all| >= 4 then Tail4(all) else []
  }

  /** The last four digits of the account cell once the extension is cut out */
  function LastFour(s: string): (r: string)
    ensures r == [] || (|r| == 4 && AllDigits(r))
  {
    match FindBuilderPhone(s, 0)
    case Some((b, e)) =>
      var digits := DigitsOnly(s[b..e]);
      if |digits| == 10 then Tail4(digits) else LastFourOfAll(s)
    case None => LastFourOfAll(s)
  }

  /** The account cell read as (last four, extension) */
  function ParseAccount(acct: string): (r: (string, string))
    ensures r.0 == [] || (|r.0| == 4 && AllDigits(r.0))
    ensures r.1 == [] || IsCode(r.1) || (3 <= |r.1| <= 4 && AllDigits(r.1))
  {
    var ext := ExtensionCode(acct);
    (LastFour(WithoutExtension(acct, ext)), ext)
  }

  // ---------------------------------------------------------------- rows

  /** `current_provider` before row `i`: the provider of the last header row above it */
  function SectionBefore(rows: seq<Row>, i: nat): Option<Provider>
    requires i <= |rows|
  {
    LatestHeader(Headers(rows), i)
  }

  /** Which rows are header rows, and of which provider */
  function Headers(rows: seq<Row>): (hs: seq<Option<Provider>>)
    ensures |hs| == |rows| && forall j :: 0 <= j < |rows| ==> hs[j] == HeaderOf(rows[j])
  {
    seq(|rows|, j requires 0 <= j < |rows| => HeaderOf(rows[j]))
  }

  /** The last provider among the first `i` header results */
  function LatestHeader(hs: seq<Option<Provider>>, i: nat): Option<Provider>
    requires i <= |hs|
  {
    if i == 0 then None
    else if hs[i - 1].Some? then hs[i - 1]
    else LatestHeader(hs, i - 1)
  }

  /** The entry row `i` produces, if any */
  function RowEntry(rows: seq<Row>, i: nat): (r: Option<Entry>)
    requires i < |rows|
    ensures r.Some? ==> HeaderOf(rows[i]).None? && SectionBefore(rows, i) == Some(r.value.provider)
    ensures r.Some? ==> !Blank(Cell(rows[i], 1)) && !Blank(Cell(rows[i], 2)) && r.value.corp == Cell(rows[i], 1)
  {
    var row := rows[i];
    if HeaderOf(row).Some? then None
    else match SectionBefore(rows, i)
      case None => None
      case Some(p) =>
        if Blank(Cell(row, 1)) || Blank(Cell(row, 2)) then None
        else
          var (last4, ext) := ParseAccount(Cell(row, 2));
          Some(Entry(p, Cell(row, 1), last4, ext))
  }

  /** The keys an entry is stored under */
  function KeysOf(e: Entry): (ks: set<Key>)
    ensures forall k :: k in ks <==> k.0 == e.provider && k.1 != [] && (k.1 == e.last4 || k.1 == e.ext)
  {
    (if e.last4 != [] then {(e.provider, e.last4)} else {}) + (if e.ext != [] then {(e.provider, e.ext)} else {})
  }

  /** The entries of the rows, one per row, None where a row emits nothing */
  function RowEntries(rows: seq<Row>): (es: seq<Option<Entry>>)
    ensures |es| == |rows| && forall j :: 0 <= j < |rows| ==> es[j] == RowEntry(rows, j)
  {
    seq(|rows|, j requires 0 <= j < |rows| => RowEntry(rows, j))
  }

  /** The parser's shapes: last four empty or four digits, extension empty, a code or three or four digits */
  predicate ShapedEntry(e: Entry)
  {
    (e.last4 == [] || (|e.last4| == 4 && AllDigits(e.last4)))
    && (e.ext == [] || IsCode(e.ext) || (3 <= |e.ext| <= 4 && AllDigits(e.ext)))
  }

  lemma {:induction false} RowEntryShaped(rows: seq<Row>, i: nat)
    requires i < |rows| && RowEntry(rows, i).Some?
    ensures ShapedEntry(RowEntry(rows, i).value)
  {
  }

  /** Entry number `j` is stored under `key` */
  predicate Writes(es: seq<Option<Entry>>, j: nat, key: Key)
    requires j < |es|
  {
    es[j].Some? && key in KeysOf(es[j].value)
  }

  /** The two dictionary stores of one entry */
  function Store(m: map<Key, Entry>, e: Entry): (r: map<Key, Entry>)
    ensures r.Keys == m.Keys + KeysOf(e)
    ensures forall k :: k in KeysOf(e) ==> r[k] == e
    ensures forall k :: k in m && k !in KeysOf(e) ==> r[k] == m[k]
  {
    var m1 := if e.last4 != [] then m[(e.provider, e.last4) := e] else m;
    if e.ext != [] then m1[(e.provider, e.ext) := e] else m1
  }

  /** The dictionary after storing the entries in order */
  function Fill(es: seq<Option<Entry>>): map<Key, Entry>
  {
    if es == [] then map[]
    else
      var m := Fill(es[..|es| - 1]);
      match es[|es| - 1]
      case Some(e) => Store(m, e)
      case None => m
  }

  /** The mapping the rows produce */
  function MappingOf(rows: seq<Row>): map<Key, Entry>
  {
    Fill(RowEntries(rows))
  }

  // ---------------------------------------------------------------- the row loop

  /** `build_mapping_from_excel` on the rows of the sheet */
  method BuildMapping(rows: seq<Row>) returns (mapping: map<Key, Entry>)
    ensures mapping == MappingOf(rows)
  {
    ghost var es := RowEntries(rows);
    mapping := map[];
    var current: Option<Provider> := None;
    var i := 0;
    while i < |rows|
      invariant 0 <= i <= |rows|
      invariant current == SectionBefore(rows, i)
      invariant mapping == Fill(es[..i])
    {
      FillStep(es, i);
      RowStep(rows, i);
      var row := rows[i];
      var cell0, cell1, cell2 := Cell(row, 0), Cell(row, 1), Cell(row, 2);
      var header := ProviderOf(cell0);
      if header.Some? && Blank(cell1) && Blank(cell2) {
        current := header;
      } else if current.Some? && !Blank(cell1) && !Blank(cell2) {
        var corp := cell1;
        var (last4, ext) := ParseAccount(cell2);
        var entry := Entry(current.value, corp, last4, ext);
        if last4 != [] {
          mapping := mapping[(current.value, last4) := entry];
        }
        if ext != [] {
          mapping := mapping[(current.value, ext) := entry];
        }
      }
      i := i + 1;
    }
    assert es[..i] == es;
  }

  lemma {:induction false} FillStep(es: seq<Option<Entry>>, i: nat)
    requires i < |es|
    ensures Fill(es[..i + 1]) == match es[i] case Some(e) => Store(Fill(es[..i]), e) case None => Fill(es[..i])
  {
    assert es[..i + 1][..i] == es[..i];
  }

  /** What one row does to the section and what it emits, case by case as the loop tests them */
  lemma {:induction false} RowStep(rows: seq<Row>, i: nat)
    requires i < |rows|
    ensures var row := rows[i];
      if ProviderOf(Cell(row, 0)).Some? && Blank(Cell(row, 1)) && Blank(Cell(row, 2)) then
        RowEntry(rows, i).None? && SectionBefore(rows, i + 1) == ProviderOf(Cell(row, 0))
      else
        SectionBefore(rows, i + 1) == SectionBefore(rows, i)
        && RowEntry(rows, i) ==
             if SectionBefore(rows, i).Some? && !Blank(Cell(row, 1)) && !Blank(Cell(row, 2)) then
               Some(Entry(SectionBefore(rows, i).value, Cell(row, 1), ParseAccount(Cell(row, 2)).0, ParseAccount(Cell(row, 2)).1))
             else None
  {
  }

  // ---------------------------------------------------------------- properties

  /** A header row emits nothing and opens its provider's section. */
  lemma {:induction false} HeaderRowEmitsNothing(rows: seq<Row>, i: nat)
    requires i < |rows| && ProviderOf(Cell(rows[i], 0)).Some? && Blank(Cell(rows[i], 1)) && Blank(Cell(rows[i], 2))
    ensures RowEntry(rows, i).None?
    ensures SectionBefore(rows, i + 1) == ProviderOf(Cell(rows[i], 0))
  {
  }

  /** Rows above the first header emit nothing. */
  lemma {:induction false} NoSectionNoEntry(rows: seq<Row>, i: nat)
    requires i < |rows| && forall j :: 0 <= j < i ==> HeaderOf(rows[j]).None?
    ensures RowEntry(rows, i).None?
  {
    NoSectionIffNoHeader(Headers(rows), i);
  }

  /** There is no current section exactly when no row above is a header row. */
  lemma {:induction false} NoSectionIffNoHeader(hs: seq<Option<Provider>>, i: nat)
    requires i <= |hs|
    ensures LatestHeader(hs, i).None? <==> forall j :: 0 <= j < i ==> hs[j].None?
  {
    if i > 0 && hs[i - 1].None? {
      NoSectionIffNoHeader(hs, i - 1);
    }
  }

  /** A row whose corporation or account cell is blank emits nothing. */
  lemma {:induction false} BlankCellNoEntry(rows: seq<Row>, i: nat)
    requires i < |rows| && (Blank(Cell(rows[i], 1)) || Blank(Cell(rows[i], 2)))
    ensures RowEntry(rows, i).None?
  {
  }

  /** A key is in the mapping exactly when some entry is stored under it. */
  lemma {:induction false} KeyPresentIffWritten(es: seq<Option<Entry>>, key: Key)
    ensures key in Fill(es) <==> exists j :: 0 <= j < |es| && Writes(es, j, key)
  {
    if es != [] {
      var front := es[..|es| - 1];
      KeyPresentIffWritten(front, key);
      assert forall j :: 0 <= j < |front| ==> (Writes(front, j, key) <==> Writes(es, j, key));
      if Writes(es, |es| - 1, key) {
        assert key in Fill(es);
      }
    }
  }

  /** The entry under a key is the last one stored under it: later rows overwrite earlier ones. */
  lemma {:induction false} LastWriterWins(es: seq<Option<Entry>>, key: Key, j: nat)
    requires j < |es| && Writes(es, j, key)
    requires forall l :: j < l < |es| ==> !Writes(es, l, key)
    ensures key in Fill(es) && Fill(es)[key] == es[j].value
  {
    var front := es[..|es| - 1];
    if j < |es| - 1 {
      assert forall l :: 0 <= l < |front| ==> (Writes(front, l, key) <==> Writes(es, l, key));
      LastWriterWins(front, key, j);
      assert !Writes(es, |es| - 1, key);
    }
  }

  /** Every stored entry is one of the entries, stored under its own provider and one of its own tokens. */
  lemma {:induction false} FillStoresOwnKeys(es: seq<Option<Entry>>)
    ensures forall k :: k in Fill(es) ==> k in KeysOf(Fill(es)[k])
  {
    if es != [] {
      var front := es[..|es| - 1];
      FillStoresOwnKeys(front);
      FillLast(es);
    }
  }

  /** Every stored entry is one of the entries. */
  lemma {:induction false} FillStoresEntries(es: seq<Option<Entry>>)
    ensures forall k :: k in Fill(es) ==> Some(Fill(es)[k]) in es
  {
    if es != [] {
      var front := es[..|es| - 1];
      FillStoresEntries(front);
      FillLast(es);
      assert forall x :: x in front ==> x in es;
    }
  }

  lemma {:induction false} FillLast(es: seq<Option<Entry>>)
    requires es != []
    ensures Fill(es) == match es[|es| - 1] case Some(e) => Store(Fill(es[..|es| - 1]), e) case None => Fill(es[..|es| - 1])
  {
  }

  /** So every stored entry has the parser's shapes and sits under its own provider and tokens. */
  lemma {:induction false} MappingWellFormed(rows: seq<Row>)
    ensures forall k :: k in MappingOf(rows) ==> k.0 == MappingOf(rows)[k].provider && k.1 != []
    ensures forall k :: k in MappingOf(rows) ==> k.1 == MappingOf(rows)[k].last4 || k.1 == MappingOf(rows)[k].ext
    ensures forall k :: k in MappingOf(rows) ==> ShapedEntry(MappingOf(rows)[k])
  {
    var es := RowEntries(rows);
    FillStoresOwnKeys(es);
    FillStoresEntries(es);
    forall k | k in MappingOf(rows) ensures ShapedEntry(MappingOf(rows)[k]) {
      var j :| 0 <= j < |es| && es[j] == Some(Fill(es)[k]);
      RowEntryShaped(rows, j);
    }
  }

  /** An entry with neither a last four nor an extension adds no key. */
  lemma {:induction false} NoTokensNoKey(es: seq<Option<Entry>>)
    requires es != [] && es[|es| - 1].Some?
    requires es[|es| - 1].value.last4 == [] && es[|es| - 1].value.ext == []
    ensures Fill(es) == Fill(es[..|es| - 1])
  {
    assert KeysOf(es[|es| - 1].value) == {};
  }

  /** Every phone shape of the builder holds ten digits, so its last four are the last four characters of the match. */
  lemma {:induction false} BuilderPhoneDigits(s: string, i: nat)
    requires BuilderPhoneAt(s, i).Some?
    ensures var e := BuilderPhoneAt(s, i).value;
      |DigitsOnly(s[i..e])| == 10 && Tail4(DigitsOnly(s[i..e])) == s[e - 4..e]
  {
    var j := if i + 3 < |s| && IsSeparator(s[i + 3]) then i + 4 else i + 3;
    var k := if j + 3 < |s| && IsSeparator(s[j + 3]) then j + 4 else j + 3;
    assert BuilderPhoneAt(s, i) == Some(k + 4);
    DigitsOfGroups(s, i, j, k);
  }

  /** So the last four of a cell with a phone number are that number's last four characters. */
  lemma {:induction false} LastFourOfPhone(s: string)
    requires FindBuilderPhone(s, 0).Some?
    ensures var e := FindBuilderPhone(s, 0).value.1; LastFour(s) == s[e - 4..e]
  {
    BuilderPhoneDigits(s, FindBuilderPhone(s, 0).value.0);
  }
}
