# Axora utility-bill organizer: a Dafny model of its core

Axora files PDF utility bills into a folder tree. It first reads an account
mapping from a spreadsheet. Under a provider header row (BELL, TELUS, ROGERS),
each row names a corporation and an account. The account cell gives the last
four digits of the account and an optional extension code. Each entry is
stored under `(provider, last4)` and `(provider, ext)`.

For each bill, the organizer reads two things from the file name:

- the account tokens: the last four digits and the extension;
- a date, either `yyyy-mm-dd` or `yy-mm-dd`.

It then looks the bill up. It tries the last four digits first, then the
extension, and each time tries BELL, TELUS and ROGERS in that order. The bill
is moved to `dest/<corp>/<Provider>/<token>/<yyyy>/<yy-mm-dd><ext>`, where `<ext>` keeps its dot.

- A destination that already exists makes the bill "skipped".
- A bill with no usable tokens, no mapping entry or no date is "not found".

Whenever a bill is about to go into an account folder that has no
four-digit subfolder, the folder's loose dated files are moved into year folders
(`ensure_year_organized`). The background worker runs this for one PDF or
for every PDF of a folder. It reports the progress percentage and the
moved / skipped / not-found counts.

Each module is one file.

- `Wrappers` (`wrappers.dfy`): `Option`.
- `Text` (`text.dfy`): ASCII character classes, as Python's `str` predicates
  decide them on ASCII. Also `upper`, `lower`, `capitalize`, `strip`,
  `re.sub(r"\D", "", s)` and `os.path.splitext`.
- `Patterns` (`patterns.dfy`): the regular expressions the core uses.
  - They are written as fixed-length digit/literal patterns, with `re.search`
    as the leftmost match and `re.sub` as left-to-right removal.
  - Also the parenthesised group `\(([^)]+)\)` and the trailing
    `\s+(\d{3,4})\s*$` group.
  - Also the extension rule that the mapping builder and the token extractor
    share.
- `Dates` (`dates.dfy`): `extract_date_targets`.
- `Tokens` (`tokens.dfy`): `extract_account_tokens`.
  - Pure specification functions, one per rule.
  - Methods with the source's loops over the phone patterns and the candidate
    lists, each proved equal to its specification.
- `Mapping` (`mapping.dfy`): `build_mapping_from_excel`.
  - A method with the row loop, proved equal to a declarative fold.
  - Lemmas: a key is present exactly when some row writes it, the last writer
    wins, and every stored entry is keyed by its own provider and tokens.
- `FileSys` (`filesystem.dfy`): the file tree. It is a value (`Fs`) and a
  class `FileSystem` whose methods update it in place:
  - `os.mkdir`;
  - `os.makedirs(..., exist_ok=True)`;
  - `shutil.move` of one file;
  - `os.listdir`.
- `Router` (`router.dfy`): provider lookup, `process_single_file` and
  `ensure_year_organized`. Each is a specification function and an
  imperative method proved against it.
- `Routing` (`routing.dfy`): lemmas about the routing functions.
  - Lookup means "a provider knows the token", with last4 preferred.
  - Outcomes: not found iff tokens or date are missing; skipped iff the
    destination exists once the folders are made and the backfill has run;
    a move moves exactly one file, and the bill keeps its content.
  - Bills are never lost. The file count is kept, and so is the multiset of
    file contents: as many files hold each content as before. No directory
    disappears.
- `Backfill` (`backfill.dfy`): what `ensure_year_organized` achieves on an
  account folder with no four-digit subdirectory. When no file already takes
  the name of a year folder, every dated loose file ends up in its year folder
  with its content and every other file stays where it was. Otherwise the
  backfill raises.
- `Batch` (`batch.dfy`): `FileOrganizerWorker.run`.
  - The job list, the progress percentages, the tally and the final report.

## Model

| member | source | states |
|---|---|---|
| Text.UpperStr | axora.py:510 | keeps the length; exactly the lower-case letters change, and no lower-case letter is left |
| Text.LowerStr | axora.py:67-71 | keeps the length; exactly the upper-case letters change, and no upper-case letter is left |
| Text.UpperIgnoresCase | axora.py:510 | upper-casing gives the same result from the lower-cased string and is idempotent, so the provider test ignores case |
| Text.Capitalize | axora.py:612 | first character upper-cased, the rest lower-cased, length kept |
| Text.LStrip | axora.py:506-508 | drops exactly the leading whitespace: the result is a suffix, starts with a non-space, and everything dropped is whitespace |
| Text.RStrip | axora.py:506-508 | drops exactly the trailing whitespace: the result is a prefix, ends with a non-space, and everything dropped is whitespace |
| Text.Strip | axora.py:506-508 | the stripped string is no longer and neither starts nor ends with whitespace |
| Text.DigitRun | axora.py:674 | the length of the maximal run of digits starting at a position |
| Text.DigitsOnly | axora.py:543 | `re.sub(r"\D", "", s)` keeps only digits and is no longer than its input |
| Text.DigitsOnlyAppend | axora.py:667 | removing non-digits distributes over concatenation |
| Text.GroupThenGap | axora.py:667 | a digit group followed by a gap without digits contributes exactly that group |
| Text.DigitsOfGroups | axora.py:667 | digit groups of 3, 3 and 4 with non-digit gaps between them give exactly those ten digits |
| Text.Tail4 | axora.py:545 | `s[-4:]`: the last four characters, digits when `s` is all digits |
| Text.LastDot | axora.py:633 | the index of the last '.' (no '.' after it), or none when there is no '.' |
| Text.SplitExt | axora.py:633 | `os.path.splitext`: stem + extension is the name; the extension is empty or a '.' with no further dot, and leading dots stay in the stem |
| Text.SplitExtOfJoin | axora.py:710 | a dot-free non-empty stem joined with an extension splits back into the same two parts |
| Patterns.Digits | axora.py:712 | `\d{n}` is n digit symbols |
| Patterns.DigitsInMatch | axora.py:712-714 | the characters a match covers where the pattern has `\d` are digits |
| Patterns.FindFrom | axora.py:712-716 | `re.search`: the leftmost match at or after the start, and no match when none exists |
| Patterns.RemoveAll | axora.py:648-651 | `re.sub` of a fixed pattern never lengthens and is the identity when nothing matches |
| Patterns.CloseParen | axora.py:528 | the first ')' at or after a position |
| Patterns.ParenAt | axora.py:528 | a group `(`, at least one non-')' character, then the first `)` |
| Patterns.ParenGroupFrom | axora.py:528 | the leftmost parenthesised group, and none when no position starts one |
| Patterns.RemoveParenGroups | axora.py:533 | removing the groups never lengthens and is the identity when there is no group |
| Patterns.TrailingDigitRun | axora.py:535 | the run of digits that ends the string is maximal |
| Patterns.TrailingDigitGroup | axora.py:535-537 | a found trailing group has three or four digits |
| Patterns.ExtensionCode | axora.py:636-645 | the extension is empty, an alphanumeric code of length 2-6 from the first parenthesised group, or, only when there is no group, the trailing 3-4 digit group |
| Patterns.RemoveTrailingToken | axora.py:538 | removing the trailing extension leaves a prefix of the account string |
| Patterns.RemoveSpacedToken | axora.py:655 | removing every spaced occurrence of the extension never lengthens |
| Dates.FullTarget | axora.py:712-714 | the date is the ten characters matched, the year their first four, the final name `yy-mm-dd` plus the extension |
| Dates.ShortTarget | axora.py:716-720 | the date and year get "20" in front of the two-digit year; the final name is `yy-mm-dd` plus the extension |
| Dates.DateTargets | axora.py:709-723 | a found target is an ISO date whose year is its first four characters, and the final name is its last eight characters plus the file's extension |
| Dates.YearIsFourDigits | axora.py:720-723 | the year folder is four digits |
| Dates.FullDateWins | axora.py:712-714 | the first full date in the stem is the one used |
| Dates.ShortDateFallback | axora.py:715-720 | with no full date, the first short date is used and its year is "20" + yy |
| Dates.NoDateIffNoShortDate | axora.py:712-718 | no date iff the stem holds no `dd-dd-dd` at all |
| Dates.ShortStemResolves | axora.py:716-723 | a bare `yy-mm-dd` stem plus extension reads back as that short date |
| Dates.RereadTarget | axora.py:722-723 | reading the final name again gives the same month and day and the year "20" + yy |
| Dates.CenturyRestored | axora.py:720 | that year is the original year iff the original year starts with "20" |
| Dates.NormalizedNameRereads | axora.py:709-723 | renaming a bill and reading its date again is idempotent exactly for years 2000-2099 |
| Tokens.WorkingCopy | axora.py:647-655 | `base_for_last4` is never longer than the stem |
| Tokens.SpacedPhoneAt | axora.py:659 | a `\d{3}\s+\d{3}\s+\d{4}` match spans at least twelve characters |
| Tokens.FindSpaced | axora.py:664 | the leftmost spaced phone number |
| Tokens.SpacedMatch | axora.py:659-664 | a spaced phone match lies in bounds and ends where the pattern does |
| Tokens.HyphenMatch | axora.py:660-664 | a hyphenated phone match is twelve characters of the pattern |
| Tokens.PlainMatch | axora.py:661-664 | a ten-digit match is ten digits |
| Tokens.PhoneMatch | axora.py:663-666 | each shape's match lies in bounds and spans at least ten characters |
| Tokens.PhoneRuleFrom | axora.py:663-671 | the phone rule returns only a match whose start is unguarded (string start or non-alphanumeric before it) |
| Tokens.PhoneDigitsAreTen | axora.py:666-668 | every phone shape's match has exactly ten digits, whose last four are the match's last four characters |
| Tokens.PhoneRuleTail | axora.py:667-671 | the returned phone's last four digits are the last four characters of the match |
| Tokens.NoPhoneIff | axora.py:663-671 | the phone rule gives nothing iff every shape's first match is absent or guarded |
| Tokens.PhoneStep | axora.py:663-671 | one shape after the other: nothing from shape k on iff shape k is rejected and nothing from k+1 on |
| Tokens.ChunksFrom | axora.py:674 | `re.finditer(r"\d{7,10}")`: in-bounds, ascending, all-digit chunks of 7 to 10 |
| Tokens.RunsFrom | axora.py:692 | `re.finditer(r"\d{4,}")`: in-bounds, ascending runs of at least four digits |
| Tokens.Kept | axora.py:676-685 | the candidate list holds exactly the matches the loop keeps, in order |
| Tokens.LongestThenRightmost | axora.py:688 | `max` by (length, start): a candidate that no other beats |
| Tokens.Rightmost | axora.py:704 | `max` by start: the candidate with the largest start |
| Tokens.LongestThenRightmostUnique | axora.py:688 | any candidate no other beats is the one chosen |
| Tokens.RightmostUnique | axora.py:704 | the rightmost candidate is the last one |
| Tokens.ChunkRule | axora.py:673-689 | the chosen chunk is kept and beaten by no kept chunk; none iff no chunk is kept |
| Tokens.RunRule | axora.py:691-705 | the chosen run is kept and rightmost among kept runs; none iff no run is kept |
| Tokens.Last4 | axora.py:657-707 | the last four digits are empty or four digits |
| Tokens.AccountTokens | axora.py:632-707 | last4 is empty or four digits; ext is empty, a code or a 3-4 digit group |
| Tokens.AccountTokensFound | axora.py:632-707 | a found last4 is the last four characters of a digit sequence in the file name's working copy, which is no longer than the stem; the extension is the stem's extension rule |
| Tokens.Last4EndsDigitSequence | axora.py:657-707 | a found last4 is the last four characters of a digit sequence in the working copy |
| Tokens.PhoneRuleChoice | axora.py:663-671 | the first accepted phone shape decides last4: the last four characters of its match |
| Tokens.ChunkRuleChoice | axora.py:673-689 | with no phone, the longest-then-rightmost kept chunk decides last4 |
| Tokens.FallbackRuleChoice | axora.py:691-705 | with no phone and no chunk, the rightmost kept run decides last4 |
| Tokens.NoLast4Iff | axora.py:657-707 | last4 is empty iff all three rules find nothing |
| Tokens.FallbackWinnerIsWholeRun | axora.py:692-705 | the fallback winner has no digit on either side |
| Tokens.RunIsWhole | axora.py:692 | every `\d{4,}` match is a whole digit run |
| Tokens.XTestSubsumed | axora.py:679-682 | the 'X' test never excludes a chunk that the letter test keeps |
| Tokens.TwelveDigitsOneChunk | axora.py:674 | twelve digits give one ten-digit chunk and no second chunk |
| Tokens.ExtractAccountTokens | axora.py:632-707 | the method's result equals the specification `AccountTokens` |
| Tokens.FindLast4 | axora.py:657-707 | the three-rule cascade, with early returns, equals `Last4` |
| Tokens.FirstAcceptedPhone | axora.py:663-671 | the loop over the phone patterns returns the phone rule's match |
| Tokens.PickLongestThenRightmost | axora.py:688 | the running maximum equals `LongestThenRightmost` |
| Tokens.PickRightmost | axora.py:704 | the running maximum equals `Rightmost` |
| Tokens.CollectCandidates | axora.py:676-685 | the loop with its `continue` tests builds `Kept` |
| Mapping.ProviderOf | axora.py:510 | a cell names a provider iff its upper-case form is BELL, TELUS or ROGERS |
| Mapping.HeaderOf | axora.py:510-513 | a header row has a provider in cell 0 and blank cells 1 and 2 |
| Mapping.BuilderPhoneAt | axora.py:541 | `\d{3}[-\s]?\d{3}[-\s]?\d{4}` spans at least ten characters |
| Mapping.FindBuilderPhone | axora.py:541 | the leftmost such phone number, or none |
| Mapping.WithoutExtension | axora.py:529-538 | the account string without its extension is no longer, and unchanged without one |
| Mapping.LastFourOfAll | axora.py:547-548 | four digits iff the cell holds at least four digits |
| Mapping.LastFour | axora.py:541-551 | last4 is empty or four digits |
| Mapping.ParseAccount | axora.py:526-551 | last4 is empty or four digits; ext is empty, a code or a 3-4 digit group |
| Mapping.RowEntry | axora.py:505-558 | an entry comes from a non-header row with both cells non-blank, inside the section of its provider, with the corp from cell 1 |
| Mapping.KeysOf | axora.py:560-563 | an entry's keys are its provider with each non-empty token |
| Mapping.Store | axora.py:560-563 | storing an entry adds its keys, maps each to it, and leaves other keys alone |
| Mapping.BuildMapping | axora.py:499-565 | the row loop with `current_provider` equals the fold `MappingOf` |
| Mapping.RowEntryShaped | axora.py:553-558 | every entry has well-shaped tokens |
| Mapping.HeaderRowEmitsNothing | axora.py:510-513 | a header row stores nothing and opens its provider's section |
| Mapping.NoSectionNoEntry | axora.py:515-516 | rows before any header store nothing |
| Mapping.NoSectionIffNoHeader | axora.py:503-516 | no section is open iff no earlier row is a header |
| Mapping.BlankCellNoEntry | axora.py:518-521 | a row with a blank corp or account cell stores nothing |
| Mapping.KeyPresentIffWritten | axora.py:560-565 | a key is in the mapping iff some row writes it |
| Mapping.LastWriterWins | axora.py:560-563 | a key maps to the entry of the last row that writes it |
| Mapping.FillStoresOwnKeys | axora.py:560-563 | every key is one of its entry's own keys |
| Mapping.FillStoresEntries | axora.py:553-563 | every stored entry comes from some row |
| Mapping.MappingWellFormed | axora.py:553-563 | every key carries its entry's provider and a non-empty token of it, and every entry is well shaped |
| Mapping.NoTokensNoKey | axora.py:560-563 | an entry with neither token is not stored |
| Mapping.BuilderPhoneDigits | axora.py:541-545 | the builder's phone match has ten digits |
| Mapping.LastFourOfPhone | axora.py:541-545 | with a phone match, last4 is its last four characters |
| FileSys.Without | axora.py:627 | removing a path from the order keeps all others and no duplicates |
| FileSys.Children | axora.py:726 | the names listed in a directory are exactly the entries directly below it |
| FileSys.ListDirIff | axora.py:726-730 | a name is listed iff that entry exists |
| FileSys.MkdirWellFormed | axora.py:615 | `os.mkdir` keeps the tree well formed |
| FileSys.MoveWellFormed | axora.py:627 | `shutil.move` of a file keeps the tree well formed |
| FileSys.FailedStepsChangeNothing | axora.py:615-627 | a failing mkdir or move leaves the tree unchanged |
| FileSys.MakeDirsEffect | axora.py:615 | `os.makedirs(exist_ok=True)` keeps the tree well formed and the files unchanged, adds directories only, and on success the path is a directory |
| FileSys.MakeDirsCreatesPrefixes | axora.py:615 | every new directory is a prefix of the requested path |
| FileSys.MakeDirsSucceedsIff | axora.py:615 | makedirs succeeds iff no prefix of the path is a file |
| FileSys.NothingBelowMissing | axora.py:726-730 | nothing exists below a missing directory |
| FileSys.PrefixesOfDirAreDirs | axora.py:615 | every prefix of a directory is a directory |
| FileSys.Bills | axora.py:627 | the multiset of the files' contents has one element per file |
| FileSys.BillsWithout | axora.py:627 | taking one file out of the map takes exactly one copy of its content out of the multiset |
| FileSys.BillsRenamed | axora.py:627 | giving a file a new, unused path keeps the file count and the multiset of contents |
| FileSys.MoveEffect | axora.py:627 | a successful move had a file at the source and nothing at the destination; afterwards the source is gone, the destination holds its content, and every other path is unchanged |
| FileSys.MoveKeepsContents | axora.py:627 | whatever the outcome, a move keeps the file count and the multiset of contents: no content is lost or duplicated |
| FileSys.FileSystem.constructor | axora.py:615 | the object starts in the given state |
| FileSys.FileSystem.Mkdir | axora.py:615 | the in-place mkdir equals `AfterMkdir` |
| FileSys.FileSystem.MakeDirs | axora.py:615 | the in-place makedirs loop equals `AfterMakeDirs` |
| FileSys.FileSystem.Move | axora.py:627 | the in-place move equals `AfterMove` |
| FileSys.FileSystem.ListDir | axora.py:726 | the listing equals `Listing` |
| Router.FilesAmong | axora.py:730 | the files among the listed names, in order |
| Router.FindEntry | axora.py:582-596 | the provider loop with `break` returns `FirstHit` |
| Router.LookupEntry | axora.py:578-599 | the two lookup loops return `Lookup` |
| Router.BackfillFile | axora.py:732-740 | one loop turn equals `BackfillStep`: undated names skipped, makedirs errors raised, move errors swallowed |
| Router.EnsureYearOrganized | axora.py:725-740 | the in-place migration equals `AfterBackfill` |
| Router.ProcessSingleFile | axora.py:569-630 | the in-place processing equals `Process` |
| Router.Route | axora.py:598-630 | the in-place routing after tokenisation equals `ProcessWith` |
| Router.DeliverBill | axora.py:610-630 | the folder creation, migration and placement equal `Deliver` |
| Router.PlaceBill | axora.py:623-630 | the existence check and move equal `Place` |
| Routing.FirstHitFrom | axora.py:583-588 | the loop stops at the first provider holding the key |
| Routing.FirstHitIsFirstProvider | axora.py:583-588 | the entry found is the first provider's in BELL, TELUS, ROGERS order |
| Routing.FirstHitFindsKnown | axora.py:583-596 | a hit iff some provider knows the token, and the hit is that provider's entry |
| Routing.LookupMeaning | axora.py:578-599 | found iff a non-empty last4 or ext is known; last4 wins when known; the token used is non-empty and keys the entry |
| Routing.PlaceFacts | axora.py:623-627 | placing never says not found; skipped iff the destination exists, and then nothing changes; an error changes nothing; the success conditions give a move |
| Routing.PlaceMovesOneFile | axora.py:627 | a moved bill ends at the destination with its content, and every other file is untouched |
| Routing.DeliverFinds | axora.py:610-630 | past the lookup the outcome is never not found |
| Routing.DeliverSkippedIff | axora.py:615-625 | past the lookup, skipped iff makedirs and the backfill raised nothing and the destination exists after them; a skip changes nothing after those steps |
| Routing.ProcessWithNotFound | axora.py:598-607 | not found iff no entry or no date, and then nothing changes |
| Routing.ProcessNotFoundIff | axora.py:574-607 | not found iff neither token is known or the name has no date, and then nothing changes |
| Routing.DeliverMoved | axora.py:610-630 | a move lands in `<account>/<year>/<final name>`, the source is gone, and the new path holds the source file's original content |
| Routing.ProcessWithMoved | axora.py:598-630 | a move needs an entry and a date, and lands at the computed path with the computed hierarchy and the source file's original content |
| Routing.ProcessMovedTo | axora.py:569-630 | a moved bill is at `dest/corp/Provider/token/year/final` with the content it had in the source folder, its hierarchy line matches, and the source file is gone |
| Routing.MakeDirsKeepsFiles | axora.py:615 | makedirs leaves every file as it was, whatever its outcome |
| Routing.BackfillFromUntouched | axora.py:731-740 | through the migration loop, a file keeps its path and content, or is moved away one level down and nothing returns to its path |
| Routing.BackfillKeepsOrEmpties | axora.py:725-740 | after `ensure_year_organized`, a path that held a file holds the same content or nothing |
| Routing.KeepsBillsChain | axora.py:615-627 | keeping bills (well formed, same count, same multiset of contents, no directory lost) composes |
| Routing.BackfillStepKeepsBills | axora.py:732-740 | one migration turn keeps the file count, the multiset of contents and every directory |
| Routing.MoveToYearKeepsBills | axora.py:736-738 | making the year folder, and then the move, each keep the file count, the multiset of contents and every directory |
| Routing.BackfillFromKeepsBills | axora.py:731-740 | the migration loop, raising or not, keeps the file count, the multiset of contents and every directory |
| Routing.BackfillKeepsBills | axora.py:725-740 | `ensure_year_organized` keeps the file count, the multiset of contents and every directory |
| Routing.MakeDirsKeepsBills | axora.py:615 | makedirs keeps the file count, the multiset of contents and every directory |
| Routing.PlaceKeepsBills | axora.py:623-627 | placing keeps the file count, the multiset of contents and every directory |
| Routing.DeliverKeepsBills | axora.py:610-630 | delivering keeps the file count, the multiset of contents and every directory |
| Routing.ProcessKeepsBills | axora.py:569-630 | processing a bill keeps the file count, the multiset of contents and every directory |
| Routing.ProcessWithKeepsBills | axora.py:598-630 | routing keeps the file count, the multiset of contents and every directory |
| Backfill.YearsOf | axora.py:731-735 | exactly the dated names, each mapped to its four-digit year folder |
| Backfill.YearOfIsYearName | axora.py:732-735 | a dated name's year folder is a four-digit name |
| Backfill.NothingInYearFolders | axora.py:726-728 | with no four-digit subdirectory, nothing lies in any year folder |
| Backfill.MigratedAtStart | axora.py:725-730 | the migration invariant holds before the loop |
| Backfill.MigratedStep | axora.py:732-740 | one turn keeps the invariant and raises nothing |
| Backfill.YearsOfAgrees | axora.py:731-735 | the year map agrees with the date of every listed name |
| Backfill.MigratedFrom | axora.py:731-740 | the whole loop keeps the invariant and raises nothing |
| Backfill.BackfillOrganizes | axora.py:725-740 | on a folder with no four-digit subdirectory, where no file takes the name of a dated loose file's year folder: no error; each dated loose file is at `<year>/<name>` with its content and gone from the top; every other file keeps its path and content |
| Backfill.YearNameUndated | axora.py:712-718 | a four-digit name holds no date, so such a file is never moved itself |
| Backfill.ClashSurvives | axora.py:732-738 | a turn that raises nothing leaves a four-digit file in place |
| Backfill.BackfillFromClash | axora.py:731-738 | a file named like the year folder of a listed dated name makes `makedirs` fail and the loop raise |
| Backfill.BackfillRaisesIff | axora.py:725-740 | on a folder with no four-digit subdirectory, the backfill raises iff a dated loose file's year folder name is taken by a file |
| Batch.PdfJobsAmong | axora.py:69-70 | exactly the names ending in ".pdf" in any case, with the folder as their source |
| Batch.ProgressUpTo | axora.py:81-83 | one percentage per file, `(idx-1)*100/total` |
| Batch.RunWorker | axora.py:59-108 | the worker's report and the new tree equal `Run` |
| Batch.RunJobs | axora.py:81-101 | the loop's tally, tree and reported percentages equal `RunFrom` and `ProgressUpTo` |
| Batch.Tallied | axora.py:88-100 | the counter update equals `Count`: moved, not found, or skipped (exceptions too) |
| Batch.PdfJobsMeaning | axora.py:64-70 | a folder gives exactly its PDF files; a PDF file gives one job in its parent; a missing path gives nothing |
| Batch.CountAddsOne | axora.py:88-100 | every outcome adds exactly one to the counters |
| Batch.RunFromCounts | axora.py:81-100 | the counts add up to the number of files processed |
| Batch.RunFromKeepsBills | axora.py:81-100 | a loop over a step that keeps bills keeps bills |
| Batch.ProcessorKeepsBills | axora.py:87 | the worker's step keeps bills |
| Batch.RunWithReport | axora.py:72-108 | for any step that keeps bills: no jobs iff "no PDF files", with nothing changed; otherwise the counts add up to the job count; no bill is lost |
| Batch.RunReport | axora.py:64-108 | "no PDF files" iff there are no jobs, and then nothing changes; otherwise the total is the job count and the counts add up to it; no bill is lost |
| Batch.DivMonotone | axora.py:82 | floor division is monotone |
| Batch.ProgressShape | axora.py:81-102 | the reported percentages start at 0, end at 100, stay below 100 before the last file, and never decrease |

## Left out

- The spreadsheet reader (pandas) is left out. A sheet is its rows of cell strings (`seq<seq<string>>`). A cell past the end of a row reads as "". An empty (NaN) cell is given as "" or as "nan", and both count as blank, as in the source.
- The Qt user interface is left out, including signals, threads, message boxes and the progress and result messages. The history JSON is left out too. The messages do not change the result.
- The outer `try/except` of `FileOrganizerWorker.run` is left out, and so is its error signal (axora.py:110-111). In the model only the file operations can fail. Their errors are `Raised` outcomes, counted as skipped by the inner handler (axora.py:98-100).
- Batch.Percent: computed as exact integer floor division. The source uses floats: `int((idx - 1) / total * 100)` exposes rounding, so idx=30, total=100 gives 28 there and 29 here.
- Text: only ASCII is modelled for `isalpha`, `isalnum`, `isspace`, `upper`, `lower` and `\d`. Non-ASCII letters, digits and whitespace behave differently in Python.
- FileSys: a path is a sequence of components below one root. `os.path.join`, relative paths, `"."` (the `dirname or "."` case at axora.py:67), separators and symbolic links are not modelled.
- FileSys: `os.listdir` order is an explicit `order` sequence (creation and move order). The real order depends on the operating system.
- FileSys.FileSystem.Move: `shutil.move` onto an existing path is an error here. The real call replaces an existing file, and moves into an existing directory. The organizer checks existence before moving (axora.py:624). The migration does not check. Backfill.BackfillOrganizes shows that its moves never meet an existing path when no file takes a year folder's name.
- FileSys: moving a directory is not modelled; only files are moved.
- Patterns.RemoveAll: the contract states only that `re.sub` never lengthens and is the identity when nothing matches. Which characters the left-to-right removal keeps is fixed by the function body, not stated as a separate property.
- Patterns.RemoveParenGroups: the contract states only the length bound and the identity without a group. The kept characters are fixed by the body only.
- Patterns.RemoveSpacedToken: the contract states only the length bound. The kept characters are fixed by the body only.
- Patterns.RemoveTrailingToken: the contract states only that the result is a prefix of the input. The exact cut point is fixed by the body only.
- Tokens.WorkingCopy: the contract states only the length bound. The removals it chains are the four above, applied in the order of axora.py:647-655.
- FileSys: path components are compared exactly. On a case-insensitive file system (Windows, macOS) `os.path.exists` at axora.py:624 also finds "24-01-15.PDF" when asked for "24-01-15.pdf", so the source skips such a bill where the model moves it.
- FileSys: the errors `os.makedirs` can raise are reduced to three kinds. Permissions, disk space and concurrent changes are not modelled.
- Router.EnsureYearOrganized: an account folder that already has a four-digit subfolder is returned unchanged, as in the source. The model does not say what its files are then.
- The rest of the repository is not part of this model: the other scripts, the PyQt6 variant and the build and packaging tools.
