# Touhou popularity-poll analysis, modelled in Dafny

This project models the deterministic core of the TouhouVoteDataAnalyze scripts. These are
batch scripts for the Chinese (CN) and Japanese (JP) editions of a Touhou fan popularity poll.
Every script reads spreadsheets or JSON, reshapes the data and then writes a file or draws a
chart. The model covers the reshaping in between:

- **The aggregation store** (`SummarizeAllData.py`):
  - session keys parsed from sheet names;
  - character and song records created first-wins;
  - song casts kept duplicate-free;
  - raw-sheet vote totals written only for registered sessions;
  - gender buckets, keyword lists and the session sort.

  A `Store` class holds the store and has one method per loading pass. Functions state the
  same passes over values, and lemmas prove the store invariants and the "nothing else
  changes" frames.
- **Tag vote shares and rankings** (`data_statistic/ChracterTagStatistics.py`):
  - the `tags_dict` accumulation over a 2 × 20 grid per tag (an `array2` in the imperative
    model);
  - `vote_data_processing` of session keys;
  - the stable per-session rankings.
- **Downstream tag comparisons** (`data_statistic/CharacterTagDifferent.py` and
  `data_statistic/CharacterTagAnalyze_ByTag.py`): the thresholded union difference sorted by its
  magnitude, and the per-session rate lookup with a 0.0 default. Links prove what these scripts
  see when their input is the statistics script's output.
- **Character and song popularity** (`Character-MusicAnalyze.py`):
  - vote shares over the raw total;
  - full credit of every song to each listed character;
  - the left merge with zero defaults;
  - the Spearman guard;
  - the exclusive-or outlier filter;
  - the cross-region ratio test;
  - the unique-song set differences.
- **Grouping joins** (`TouhouVote.py` and `TouhouVoteMusic.py`): a left merge followed by a drop
  of the unmatched rows, proved equal to an inner join whose output is an order-preserving
  subsequence of its input.
- **Per-sheet share reports** (`GroupAnalyze_jp.py`, `CharacterAnalyze_jp.py`, `top30.py` and
  `difference.py`):
  - leading-number sheet ordering;
  - the skip and raise rules;
  - group sums, the top-30 sum, target percentages and the signed difference.
- **Keyword-script preprocessing**:
  - `CharacterTagAnalyze-freq.py`, `-LDA.py`, `-textrank.py` and `-clusters.py`, and
    `TagAnalyze.py`;
  - name cleaning, URL lists, stopword sets and token filters;
  - the top-N selections;
  - the keyword × entry co-occurrence matrix.

The source's shared helpers are modelled once:

- `wrappers.dfy`: Option and an all-or-nothing map;
- `strings.dfy`: Python string operations, and each regular expression as an explicit
  function;
- `seqs.dfy`: sums, filters and prefix lemmas;
- `sorting.dfy`: a stable insertion sort with its sortedness, permutation and tie-order
  lemmas;
- `odict.dfy`: an insertion-ordered string-keyed dict;
- `sheets.dfy`: cells, rows, sheets, `to_int`, `to_float` and `clean_str`.

Vote counts are `int`. Shares, means and ratios are exact `real`. Spreadsheet cells are a
`Cell` datatype: missing, integer, float with the text Python prints for it, or text.

Where the loop is in the source, the model has a method with a loop. That method is proved
equal to a specification function, and the lemmas are about that function.

## Model

| member | source | states |
|---|---|---|
| Summarize.ParseSession | SummarizeAllData.py:27-29 | the session key ends in "_" + suffix; before it stands the sheet name's leading digit run when there is one (any trailing annotation dropped), and otherwise the whole sheet name; it never fails |
| SummarizeProps.SessionOrdinalOfDigits | SummarizeAllData.py:27-29 | a sheet name beginning with a digit run gives a session whose sort key `int(x.split('_')[0])` is the value of that run, whatever follows it |
| Summarize.CharId | SummarizeAllData.py:64 | an id holds only word characters and no upper-case letter |
| SummarizeProps.CharIdIdempotent | SummarizeAllData.py:64 | an id cleaned again is unchanged, so the id depends on the name alone |
| Summarize.StrippedText | SummarizeAllData.py:62-63 | `str(x).strip()` is absent exactly for a missing cell |
| Summarize.Roles | SummarizeAllData.py:140 | a missing 所属角色 gives no names; otherwise one name per '\|'-separated piece |
| Summarize.StatsOf | SummarizeAllData.py:69-77 | the statistics record has one entry per schema field, in schema order, each `to_int` or `to_float` of its column |
| Summarize.SplitKeywords | SummarizeAllData.py:235 | every keyword is non-empty, trimmed and free of '、' |
| Summarize.StripNonEmptySpec | SummarizeAllData.py:235 | the pieces kept by `[kw.strip() for kw in parts if kw.strip()]` are non-empty and trimmed, and hold no separator that no piece held |
| Summarize.StripAll | SummarizeAllData.py:235 | one stripped piece per input piece, in order |
| Summarize.StripAllClean | SummarizeAllData.py:235 | every stripped piece is trimmed and holds no separator that the pieces did not hold |
| Summarize.StripWithin | SummarizeAllData.py:235 | every character of `s.strip()` is a character of `s` |
| Summarize.Bucket | SummarizeAllData.py:215-221 | a gender bucket holds the label's vote sum exactly when that sum is positive |
| SummarizeProps.BucketSpec | SummarizeAllData.py:215-221 | a present bucket is the positive sum of the label's votes; an absent one means that sum is not positive |
| SummarizeProps.GenderWithinTotal | SummarizeAllData.py:215-217 | with no negative vote cell, the three gender sums together are at most the sheet's total vote sum |
| Summarize.SortSessions | SummarizeAllData.py:243-244 | the sort fails exactly when some key's `int(x.split('_')[0])` raises, and otherwise keeps the length |
| SummarizeProps.OrdinalLeTotalPreorder | SummarizeAllData.py:243-244 | comparing by the integer key is a total preorder |
| SummarizeProps.SortSessionsSpec | SummarizeAllData.py:243-244 | a successful sort is ascending by the integer key, a permutation of its input, and keeps sessions with equal keys in their original order (the sort is stable) |
| SummarizeProps.SortPassProps | SummarizeAllData.py:243-244 | both session lists end sorted and permuted, the invariants hold, and nothing else changes |
| Sheets.ToInt | SummarizeAllData.py:31-36 | `to_int` is None for a missing cell and is the value of an integer cell |
| Sheets.ToIntRoundTrip | SummarizeAllData.py:31-36 | a cell written from an integer reads back as that integer, whether it holds the number, its text or its float |
| Sheets.Trunc | SummarizeAllData.py:34 | `int(x)` of a float truncates toward zero |
| Sheets.ToFloat | SummarizeAllData.py:38-43 | `to_float` is None for a missing cell, keeps the value of an integer or float cell, and reads a text cell as a plain decimal |
| Sheets.ToFloatRoundTrip | SummarizeAllData.py:38-43 | an integer written as number, text or float reads back through `to_float` as that integer, as it does through `to_int` |
| Sheets.CleanStr | SummarizeAllData.py:46-49 | `clean_str` is None exactly for a missing cell, and is otherwise trimmed |
| Sheets.VoteSumAppend | SummarizeAllData.py:89 | the dropna sum of a vote column splits over concatenated rows |
| SummarizeStore.Store.constructor | SummarizeAllData.py:18-24 | the store starts as the initial data: `missing_gender` set, everything else empty |
| SummarizeStore.Store.AddNamedChar | SummarizeAllData.py:62-79 | the store becomes the named-row update: a record created first-wins, `by_work` extended at creation, the session's statistics and index entry |
| SummarizeStore.Store.AddCharRow | SummarizeAllData.py:59-79 | one grouped character row (JP), as the row function states it |
| SummarizeStore.Store.LoadCharSheet | SummarizeAllData.py:53-81 | one grouped character sheet: session registered, index entry reset, rows loaded, extra works recorded |
| SummarizeStore.Store.LoadCharSheets | SummarizeAllData.py:53-81 | the grouped character pass, sheet after sheet (JP lines 53-81, CN lines 94-119) |
| SummarizeStore.Store.AddNamedSong | SummarizeAllData.py:139-154 | the named song row update: record created first-wins, cast extended append-if-absent, statistics and index entry |
| SummarizeStore.Store.AddSongRow | SummarizeAllData.py:136-154 | one grouped song row (JP; the CN body is lines 171-199) |
| SummarizeStore.Store.LoadSongSheet | SummarizeAllData.py:132-154 | one grouped song sheet, the index entry created by `setdefault` |
| SummarizeStore.Store.LoadSongSheets | SummarizeAllData.py:132-154 | the grouped song pass (JP lines 132-154, CN lines 167-199) |
| SummarizeStore.Store.LoadTotal | SummarizeAllData.py:85-90 | one full sheet: `ok` exactly when the pass function succeeds, and then the store is its result (a missing vote column is the script's KeyError) |
| SummarizeStore.Store.LoadTotals | SummarizeAllData.py:85-90 | a total-vote pass (lines 85-90, 123-128, 158-163 and 203-208); `ok` exactly when it does not stop, and then the store is the pass's result |
| SummarizeStore.Store.LoadGenderSheet | SummarizeAllData.py:212-222 | one gender sheet, failing exactly where the pass function does |
| SummarizeStore.Store.LoadGender | SummarizeAllData.py:211-222 | the gender pass |
| SummarizeStore.Store.AddTagRow | SummarizeAllData.py:229-240 | one keyword row |
| SummarizeStore.Store.LoadTags | SummarizeAllData.py:225-240 | the keyword pass over the first sheet; `ok` is false for a workbook without sheets |
| SummarizeStore.Store.SortSessionLists | SummarizeAllData.py:243-244 | the two in-place sorts; `ok` is false where a key raises |
| SummarizeStore.Run | SummarizeAllData.py:51-244 | running every pass in order on a fresh store returns exactly the `Summary` function's value, or None where the script stops |
| SummarizeStore.TotalsStaysFailed | SummarizeAllData.py:85-90 | once a total-vote pass has stopped, it stays stopped |
| SummarizeStore.GenderStaysFailed | SummarizeAllData.py:212-222 | once the gender pass has stopped, it stays stopped |
| SummarizeProps.InitialInv | SummarizeAllData.py:18-24 | the initial store satisfies the store invariant. The invariant: every id is that of its name; `by_work` lists only characters with that first work, each once; no song lists a character twice; every listed session is indexed |
| SummarizeProps.CharWithKeeps | SummarizeAllData.py:66-68 | a named row keeps each known character's identity and keywords, and creates only `tr` |
| SummarizeProps.CharWithWorks | SummarizeAllData.py:66-68 | `by_work` changes only when the name is new and its first work is non-empty, and then by listing the name under that work |
| SummarizeProps.CharWithFrame | SummarizeAllData.py:78-79 | a named row touches no song, gender or session list, and adds exactly its own session to the index |
| SummarizeProps.CharRowFirstWins | SummarizeAllData.py:66-67 | a grouped row keeps id, Japanese name, first work and keywords of every known character; a new one has no keywords, and no Japanese name in the CN pass |
| SummarizeProps.CharRowCreates | SummarizeAllData.py:60-67 | a row with a missing 译名 changes nothing; a created character is the stripped 译名, with that name's id and the row's cleaned first work |
| SummarizeProps.CharRowWorks | SummarizeAllData.py:68 | `by_work` is unchanged for a known name or an empty or missing first work |
| SummarizeProps.CharRowFrame | SummarizeAllData.py:59-79 | a grouped row touches no song, gender or session list, and adds at most its own session to the index |
| SummarizeProps.WorksStable | SummarizeAllData.py:68 | `by_work` stays sound and duplicate-free when unchanged and when every character keeps its first work |
| SummarizeProps.WorksAppend | SummarizeAllData.py:68 | `by_work` stays sound and duplicate-free when a new character is appended under its own first work |
| SummarizeProps.CharWithInv | SummarizeAllData.py:62-79 | a named row with the name's id keeps the invariant |
| SummarizeProps.CharRowInv | SummarizeAllData.py:59-79 | every grouped character row keeps the invariant |
| SummarizeProps.CharRowsProps | SummarizeAllData.py:59-79 | a sheet's rows keep the invariant and every known record, create only bare records, and change no song, gender or session list |
| SummarizeProps.CharSheetProps | SummarizeAllData.py:53-81 | one grouped sheet keeps all of that, and appends its session to its own region's list only |
| SummarizeProps.CharSheetsProps | SummarizeAllData.py:53-81 | a whole grouped character pass keeps the invariant and every record, and touches no song or gender |
| SummarizeProps.SongWithKeeps | SummarizeAllData.py:141-144 | a named song row keeps every known song's titles and extends its cast at the end only; with no roles no cast changes |
| SummarizeProps.SongWithFrame | SummarizeAllData.py:141-154 | a named song row touches no character, `by_work`, gender or session list, removes no index entry, and keeps casts duplicate-free |
| SummarizeProps.SongRowFirstWins | SummarizeAllData.py:141-144 | a grouped song row keeps every known song's titles and extends its cast at the end only |
| SummarizeProps.SongRowNoRoles | SummarizeAllData.py:140 | a row with a missing 所属角色 leaves every cast as it was |
| SummarizeProps.SongRowFrame | SummarizeAllData.py:136-154 | a grouped song row changes no character, `by_work`, gender or session list; a row without 译名 changes nothing |
| SummarizeProps.SongRowInv | SummarizeAllData.py:136-154 | every grouped song row keeps the invariant, so casts stay duplicate-free |
| SummarizeProps.SongRowsProps | SummarizeAllData.py:136-154 | a sheet's song rows keep the invariant and every song, and change no character |
| SummarizeProps.KeepsSongsTrans | SummarizeAllData.py:141-144 | keeping titles and extending casts at the end composes |
| SummarizeProps.SongSheetProps | SummarizeAllData.py:132-154 | one grouped song sheet keeps all of that and indexes its session |
| SummarizeProps.SongSheetsProps | SummarizeAllData.py:132-154 | a whole grouped song pass keeps the invariant and every song |
| SummarizeProps.TotalsSheetFails | SummarizeAllData.py:86-89 | with every listed session indexed, a full sheet stops the script exactly when its session is registered and the vote column is absent |
| SummarizeProps.TotalsSheetWrites | SummarizeAllData.py:86-90 | an unregistered session changes nothing; a registered session's total becomes the sum of the sheet's non-missing integer votes |
| SummarizeProps.TotalsSheetFrame | SummarizeAllData.py:90 | a full sheet changes only that session's total |
| SummarizeProps.TotalsSheetsProps | SummarizeAllData.py:85-90 | a completed total-vote pass keeps the invariant and changes only totals |
| SummarizeProps.TotalsLastSheetWins | SummarizeAllData.py:85-90 | a session's total after the pass is the vote sum of the last sheet of that session |
| SummarizeProps.RegisteredStays | SummarizeAllData.py:87 | a total-vote pass leaves the session lists, the index keys and so every registration as they were |
| SummarizeProps.GenderSheetsProps | SummarizeAllData.py:211-222 | a completed gender pass keeps the invariant and changes only `gender` |
| SummarizeProps.GenderSheetsFails | SummarizeAllData.py:214-217 | the gender pass stops exactly when some sheet lacks the 性别 or the 票数 column |
| SummarizeProps.TagWithSpec | SummarizeAllData.py:236-240 | the keyword update keeps every identity and statistic and gives `tr` the list. An unknown name becomes a bare record with empty sessions and no first work. Only characters change, so the name is not added to `by_work` |
| SummarizeProps.TagRowSpec | SummarizeAllData.py:229-240 | a row with missing name or keywords changes nothing; otherwise the stripped name ends with the row's split keywords and nothing else changes |
| SummarizeProps.TagKeepsTrans | SummarizeAllData.py:229-240 | keeping identities and statistics composes over rows |
| SummarizeProps.TagRowKeeps | SummarizeAllData.py:229-240 | one keyword row keeps the store's records and the invariant |
| SummarizeProps.TagRowsProps | SummarizeAllData.py:229-240 | the whole keyword pass keeps the records and the invariant |
| SummarizeProps.CharStageInv | SummarizeAllData.py:52-128 | a character stage (grouped sheets, then totals) keeps the invariant |
| SummarizeProps.SongStageInv | SummarizeAllData.py:131-208 | a song stage keeps the invariant |
| SummarizeProps.FinalStageInv | SummarizeAllData.py:211-244 | gender, keywords and the sort keep the invariant and leave both session lists sorted |
| SummarizeProps.SummaryInv | SummarizeAllData.py:18-244 | the JSON the script writes satisfies every store invariant, and its session lists are sorted by ordinal |
| Strings.Strip | SummarizeAllData.py:62 | `str.strip()` is no longer than its input and has no white space at either end |
| Strings.StripIdempotent | SummarizeAllData.py:62 | stripping twice is stripping once |
| Strings.StripFixed | SummarizeAllData.py:62 | a string without white space at either end is its own strip |
| Strings.RemoveNonWord | SummarizeAllData.py:64 | `re.sub(r"\W+", "", s)` keeps only word characters and never lengthens |
| Strings.RemoveNonWordOfWord | SummarizeAllData.py:64 | a string of word characters is left as it is |
| Strings.Lower | SummarizeAllData.py:64 | `lower()` maps each character through the single-character lowering, keeping the length |
| Strings.LowerChar | SummarizeAllData.py:64 | a lowered character is not upper-case; word characters stay word characters, and other non-upper characters are unchanged |
| Strings.LowerOfNonUpper | SummarizeAllData.py:64 | a string without upper-case letters is its own `lower()` |
| Strings.LeadingDigits | SummarizeAllData.py:28 | `^(\d+)` matches the longest decimal prefix |
| Strings.LeadingDigitsOfRun | SummarizeAllData.py:28 | a digit run followed by a non-digit is exactly the leading run |
| Strings.Split | SummarizeAllData.py:140 | `split(sep)` returns at least one piece, none holding the separator |
| Strings.SplitJoin | SummarizeAllData.py:140 | joining the pieces with the separator gives the string back |
| Strings.SplitHead | SummarizeAllData.py:243 | the first piece of `a + "_" + b` is `a` when `a` holds no '_' |
| Strings.FirstParenGroup | SummarizeAllData.py:80 | the first `\(([^)]+)\)` group is non-empty and holds no ')' |
| Strings.ParseIntOfDigits | SummarizeAllData.py:243 | `int()` reads a decimal digit run as its value |
| Strings.ParseIntOfNegDigits | SummarizeAllData.py:34 | `int()` reads '-' and a digit run as the negated value |
| Strings.ParseDecimalOfDigits | SummarizeAllData.py:41 | `float()` reads a decimal digit run as its value |
| Strings.ParseDecimalOfNegDigits | SummarizeAllData.py:41 | `float()` reads '-' and a digit run as the negated value |
| Strings.ParseDecimalOfIntToString | SummarizeAllData.py:41 | `float(str(n)) == n` for every integer |
| Strings.ParseIntOfIntToString | SummarizeAllData.py:34 | `int(str(n)) == n` for every integer |
| Strings.DigitsValueOfNatDigits | SummarizeAllData.py:34 | the digits `str()` prints for a natural number read back as that number |
| TagStatistics.Characters | data_statistic/ChracterTagStatistics.py:15-16 | the character records of the loaded summary, one per entry, in key order |
| TagStatistics.TagList | data_statistic/ChracterTagStatistics.py:14-16 | a tag is in `tag_list` exactly when some character's keyword list holds it |
| TagStatistics.Tags | data_statistic/ChracterTagStatistics.py:19 | `np.unique(tag_list)` holds exactly the keywords of all characters, strictly ascending (so each once) |
| TagStatistics.VoteDataProcessing | data_statistic/ChracterTagStatistics.py:29-36 | the key fails exactly when it has no digit; the session index is at least -1 and the region below 2; the region is 0 exactly when the key's ASCII letters spell "cn" |
| TagSessionKeys.VoteDataProcessingExample | data_statistic/ChracterTagStatistics.py:28 | the comment's example: '3_jp' is (2, 1) |
| TagSessionKeys.VoteDataProcessingOfRun | data_statistic/ChracterTagStatistics.py:29-36 | a key of digits m, '_' and a region suffix maps to (value of m − 1, 0 for cn and 1 for jp) |
| TagSessionKeys.VoteDataProcessingOfLeading | data_statistic/ChracterTagStatistics.py:29-36 | the same for the leading digit run of a sheet name |
| TagSessionKeys.VoteDataProcessingOfSession | data_statistic/ChracterTagStatistics.py:29-36 | every key the summary writes, `parse_session` of a name with leading number k, maps to (k − 1, region) |
| TagSessionKeys.ParseSessionKey | SummarizeAllData.py:27-29 | a sheet name with a leading digit run gives that run + "_" + suffix |
| TagSessionKeys.AsciiLettersAppend | data_statistic/ChracterTagStatistics.py:31 | the `[a-zA-Z]` letters of a concatenation are the concatenated letters |
| TagSessionKeys.AsciiLettersOfDigits | data_statistic/ChracterTagStatistics.py:31 | a digit run has no ASCII letters |
| TagSessionKeys.AsciiLettersOfSuffix | data_statistic/ChracterTagStatistics.py:31 | the letters of "_cn" and "_jp" are "cn" and "jp" |
| TagSessionKeys.SessionKeyLetters | data_statistic/ChracterTagStatistics.py:31-35 | the letters of a session key are its region suffix |
| TagSessionKeys.FirstDigitRunOfRun | data_statistic/ChracterTagStatistics.py:30 | the first `\d+` match of a digit run followed by a non-digit is that run |
| TagSessionKeys.SessionStepOfSession | data_statistic/ChracterTagStatistics.py:52-56 | a counted entry of session k (1 ≤ k ≤ 20) adds `v / total_votes` at column k − 1 of its region's row |
| Strings.FirstDigitRun | data_statistic/ChracterTagStatistics.py:30 | `re.findall(r'\d+', s)[0]` is a non-empty digit run, and is absent exactly when `s` has no digit |
| Strings.AsciiLetters | data_statistic/ChracterTagStatistics.py:31 | `''.join(re.findall(r'[a-zA-Z]', s))` holds only ASCII letters |
| TagStatistics.NumpyIndex | data_statistic/ChracterTagStatistics.py:56 | a numpy index is valid exactly in −n..n−1, and a negative one counts from the end (session key "0_…" lands in column 19) |
| TagStatistics.Lookup | data_statistic/ChracterTagStatistics.py:52 | a found field is in the record; a missing one (KeyError) is in none of its entries |
| TagStatistics.SessionStep | data_statistic/ChracterTagStatistics.py:52-56 | an entry is skipped exactly when its rank is at most the boundary; an added amount lands inside the grid, for a rank above the boundary |
| TagStatisticsProps.SessionStepFails | data_statistic/ChracterTagStatistics.py:52-56 | an entry raises exactly when the rank is missing, or, for a rank above the boundary, when the key has no digit, its session exceeds 20, or the vote or a non-zero session total is missing |
| TagStatistics.ZeroGrid | data_statistic/ChracterTagStatistics.py:41 | `np.zeros((2, 20))` is a 2 × 20 grid of zeros |
| TagStatistics.Bump | data_statistic/ChracterTagStatistics.py:56 | `g[n][c] += a` changes that cell by `a` and no other |
| TagStatistics.ApplyStep | data_statistic/ChracterTagStatistics.py:52-56 | applying a step keeps the grid 2 × 20 |
| TagStatistics.SessionsFold | data_statistic/ChracterTagStatistics.py:50-56 | the session loop keeps the grid 2 × 20 |
| TagStatistics.CharsFold | data_statistic/ChracterTagStatistics.py:44-56 | the character loop keeps the grid 2 × 20 |
| TagStatistics.TagGrid | data_statistic/ChracterTagStatistics.py:41-56 | `tags_dict[tag]` is 2 × 20 |
| TagStatistics.TableOf | data_statistic/ChracterTagStatistics.py:39-56 | `tags_dict` has exactly the tags as keys, each holding its TagGrid, and fails exactly when some tag's loop raises |
| TagStatistics.GridOf | data_statistic/ChracterTagStatistics.py:41 | the grid value an `array2` holds, cell for cell |
| TagStatistics.GridExt | data_statistic/ChracterTagStatistics.py:41 | two 2 × 20 grids agreeing on every cell are equal |
| TagStatistics.AddSessions | data_statistic/ChracterTagStatistics.py:50-56 | the session loop over the array: `ok` exactly when the loop does not raise, and then the array holds the fold's grid |
| TagStatistics.AccumulateTag | data_statistic/ChracterTagStatistics.py:41-56 | the zeroed array filled by the loops over characters and sessions is TagGrid |
| TagStatistics.CharsFoldStep | data_statistic/ChracterTagStatistics.py:44-50 | one more character runs its session loop when it carries the tag, and is passed over otherwise |
| TagStatistics.SessionsStaysFailed | data_statistic/ChracterTagStatistics.py:50-56 | once the session loop has raised, later sessions change nothing |
| TagStatistics.CharsStaysFailed | data_statistic/ChracterTagStatistics.py:44-56 | once the character loop has raised, later characters change nothing |
| TagStatistics.BuildTable | data_statistic/ChracterTagStatistics.py:39-56 | the loop over tags builds exactly TableOf |
| TagStatistics.TableStaysFailed | data_statistic/ChracterTagStatistics.py:39-56 | once a tag's loop has raised, the table fails |
| TagStatistics.Shares | data_statistic/ChracterTagStatistics.py:98-102 | `temp_dict.items()` is one (tag, cell) pair per tag, in tag order |
| TagStatistics.SharesOf | data_statistic/ChracterTagStatistics.py:98-102 | the loop filling `temp_dict` yields exactly those pairs |
| TagStatistics.RegionRanksSpec | data_statistic/ChracterTagStatistics.py:93-124 | a region's table holds exactly the sessions lo..hi, each with its sorted ranking |
| TagStatistics.RankRegion | data_statistic/ChracterTagStatistics.py:96-108 | the per-session ranking loop builds that table |
| TagStatistics.Run | data_statistic/ChracterTagStatistics.py:13-124 | the script from the loaded summary to the two ranking tables is the `Statistics` function's value |
| TagStatisticsProps.SessionsFoldFails | data_statistic/ChracterTagStatistics.py:50-56 | the session loop raises exactly when one of its entries does |
| TagStatisticsProps.SessionsFoldCells | data_statistic/ChracterTagStatistics.py:50-56 | a completed session loop adds at each cell the sum of what its entries add there |
| TagStatisticsProps.SessionsFoldSpec | data_statistic/ChracterTagStatistics.py:50-56 | both of the above |
| TagStatisticsProps.CharsFoldSpec | data_statistic/ChracterTagStatistics.py:44-56 | the character loop raises exactly when a character carrying the tag has an entry that raises, and otherwise adds at each cell the sum over those characters |
| TagStatisticsProps.TagGridSpec | data_statistic/ChracterTagStatistics.py:39-56 | cell [tag][n][c] is the sum, over characters carrying the tag, of `v / total_votes` of their entries in (n, c) ranked above the boundary; the loop raises exactly when such an entry is unusable |
| TagStatisticsProps.TopRankedContributeNothing | data_statistic/ChracterTagStatistics.py:52-53 | entries ranked within the boundary contribute nothing |
| TagStatisticsProps.KeywordMembershipOnly | data_statistic/ChracterTagStatistics.py:46 | the grid depends on a keyword list only through whether it holds the tag |
| TagStatisticsProps.DuplicateKeywordCountsOnce | data_statistic/ChracterTagStatistics.py:46 | a character listing the tag twice contributes as if it listed it once |
| TagStatisticsProps.StepMonotone | data_statistic/ChracterTagStatistics.py:52-56 | with non-negative votes and totals, a larger boundary never adds more for an entry |
| TagStatisticsProps.CellAmountMonotone | data_statistic/ChracterTagStatistics.py:50-56 | the same over one character's sessions |
| TagStatisticsProps.CellSumMonotone | data_statistic/ChracterTagStatistics.py:44-56 | the same over the characters |
| TagStatisticsProps.BoundaryMonotone | data_statistic/ChracterTagStatistics.py:7 | with non-negative votes, raising `rank_boundary` never increases a cell, and cells stay non-negative |
| TagStatisticsProps.Firsts | data_statistic/ChracterTagStatistics.py:105 | the tags of a ranked list, in order |
| TagStatisticsProps.ByShareDescTotal | data_statistic/ChracterTagStatistics.py:105 | ordering by value, largest first, is a total preorder |
| TagStatisticsProps.RankingSorted | data_statistic/ChracterTagStatistics.py:105 | a ranking is non-increasing by value |
| TagStatisticsProps.RankingTies | data_statistic/ChracterTagStatistics.py:105 | over ascending tags, equal values keep ascending tag order (the sort is stable) |
| TagStatisticsProps.RankingEntries | data_statistic/ChracterTagStatistics.py:101-105 | a ranking has one entry per tag, each a (tag, cell) pair of the session |
| TagStatisticsProps.RankingNoDup | data_statistic/ChracterTagStatistics.py:101-105 | no tag appears twice in a ranking |
| TagStatisticsProps.RankingCovers | data_statistic/ChracterTagStatistics.py:101-105 | every tag appears in a ranking, and nothing else; there is no cardinality filter |
| TagStatisticsProps.RankingWellRanked | data_statistic/ChracterTagStatistics.py:101-105 | all four ranking facts together |
| TagStatisticsProps.EntryCell | data_statistic/ChracterTagStatistics.py:102 | an entry's value is its tag's cell for that session |
| TagStatisticsProps.SharesCarryCells | data_statistic/ChracterTagStatistics.py:102 | so every entry of a list drawn from the shares carries its cell |
| TagStatisticsProps.RankingCarriesCells | data_statistic/ChracterTagStatistics.py:101-105 | every ranking entry carries its tag's cell for that session |
| TagStatisticsProps.SessionRankingProps | data_statistic/ChracterTagStatistics.py:98-108 | a session's ranking of all tags is well ranked and carries the cells |
| TagStatisticsProps.RegionProps | data_statistic/ChracterTagStatistics.py:93-124 | a region table holds exactly its sessions, each well ranked and carrying the cells |
| TagStatisticsProps.StatisticsProps | data_statistic/ChracterTagStatistics.py:93-124 | when the script gets through, the CN table has sessions 1..11 and the JP table 3..20. Each list ranks every tag exactly once, by its cell, largest first, ties in ascending tag order |
| TagStatisticsProps.StatisticsFails | data_statistic/ChracterTagStatistics.py:39-56 | the script raises exactly when some tag has a carrying character with an unusable session entry |
| TagCompare.Dump | data_statistic/ChracterTagStatistics.py:137-153 | the saved JSON object has one member per session, in insertion order, keyed by the session's decimal text |
| TagCompare.SessionRange | data_statistic/ChracterTagStatistics.py:96 | `range(lo, hi + 1)` lists lo, lo + 1, ..., hi (the JP loop is line 112) |
| TagCompare.LoadRates | data_statistic/CharacterTagDifferent.py:11-23 | loading succeeds exactly when the list loading does, with the same sessions, each holding its list's tag → rate dict |
| TagCompareProps.LoadWithNone | data_statistic/CharacterTagDifferent.py:13-16 | loading fails exactly when some key is rejected by the key conversion (`int(session)`) |
| TagCompareProps.LoadWithKeys | data_statistic/CharacterTagDifferent.py:13-16 | a successful load converts every key, and its keys are the converted keys |
| TagCompareProps.LoadWithLast | data_statistic/CharacterTagDifferent.py:13-16 | after a load, each key holds the list of the last member with that key |
| TagCompareProps.LoadWithSpec | data_statistic/CharacterTagDifferent.py:13-16 | all three loading facts together |
| TagCompareProps.DumpPrefix | data_statistic/ChracterTagStatistics.py:137-140 | the saved object of a longer session list extends that of its prefix by one member |
| TagCompareProps.DumpLoadWith | data_statistic/ChracterTagStatistics.py:137-153 | reading back the saved object, with a key conversion that inverts `str`, gives the sessions and lists back |
| TagCompareProps.IntKeysReadBack | data_statistic/CharacterTagDifferent.py:14 | `int(str(s)) == s` for every session |
| TagCompareProps.DumpLoad | data_statistic/CharacterTagDifferent.py:11-16 | saving every session of a table, in any order, and loading it with `int()` gives the table back |
| TagCompareProps.RestrictAll | data_statistic/CharacterTagDifferent.py:13-16 | restricting a table to all its sessions is the table |
| TagCompareProps.RestrictSnoc | data_statistic/CharacterTagDifferent.py:13-16 | the table of a longer session list adds one session to the table of its prefix |
| TagCompareProps.TableReload | data_statistic/CharacterTagDifferent.py:11-23 | a table with sessions lo..hi, saved in the order `range(lo, hi + 1)`, loads back unchanged |
| TagCompareProps.RateMapKeys | data_statistic/CharacterTagDifferent.py:14 | `{tag: float(value) for tag, value in tag_list}` has the list's tags as keys |
| TagCompareProps.RateMapAt | data_statistic/CharacterTagDifferent.py:14 | an entry whose tag does not come again later sets that tag's rate (a later duplicate wins) |
| TagCompareProps.DistinctTagsOfNoDup | data_statistic/CharacterTagDifferent.py:14 | duplicate-free tags make a list name each tag once |
| TagCompareProps.RateMapOfDistinct | data_statistic/CharacterTagDifferent.py:14 | on a list naming each tag once, every entry's rate is what the dict holds |
| TagCompareProps.TableReloadRates | data_statistic/CharacterTagDifferent.py:11-23 | a saved table whose lists carry given rate maps loads into those maps |
| TagCompare.DiffOf | data_statistic/CharacterTagDifferent.py:45-47 | the row for a tag stores that tag and diff = cn_rate − jp_rate |
| TagCompare.CollectDiffs | data_statistic/CharacterTagDifferent.py:41-49 | the append loop builds exactly the specification function's kept rows, in iteration order |
| TagCompareProps.DiffsOfEntries | data_statistic/CharacterTagDifferent.py:44-49 | every kept row belongs to a visited tag, with `get(tag, 0.0)` rates and \|diff\| at least the threshold |
| TagCompareProps.DiffsOfComplete | data_statistic/CharacterTagDifferent.py:44-49 | every visited tag whose \|diff\| reaches the threshold is kept (the bound is inclusive) |
| TagCompareProps.DiffsOfNoDup | data_statistic/CharacterTagDifferent.py:42-49 | the tags of a set give kept rows with distinct tags |
| TagCompareProps.ByAbsDiffDescTotal | data_statistic/CharacterTagDifferent.py:52 | ordering by \|diff\|, largest first, is a total preorder |
| TagCompareProps.SortedDiffsPerm | data_statistic/CharacterTagDifferent.py:52 | the sorted list is non-increasing by \|diff\| and a permutation of the kept rows |
| TagCompareProps.SortedDiffsEntries | data_statistic/CharacterTagDifferent.py:47-52 | every sorted row is a kept row of a visited tag |
| TagCompareProps.SortedDiffsOrder | data_statistic/CharacterTagDifferent.py:44-52 | both of the above |
| TagCompareProps.SortedDiffsNoDup | data_statistic/CharacterTagDifferent.py:42-52 | the sorted list holds each tag at most once |
| TagCompareProps.SortedDiffsTagsSound | data_statistic/CharacterTagDifferent.py:42-52 | every listed tag is in either session, and its difference reaches the threshold |
| TagCompareProps.SortedDiffsTagsComplete | data_statistic/CharacterTagDifferent.py:42-52 | every tag of either session whose difference reaches the threshold is listed |
| TagCompareProps.SortedDiffsTags | data_statistic/CharacterTagDifferent.py:42-52 | a tag is listed exactly when it is in the union of both maps and \|cn − jp\| ≥ threshold, a missing side counting 0.0 |
| TagCompareProps.SortedDiffsSpec | data_statistic/CharacterTagDifferent.py:41-52 | the sorted diff list in full: sorted, a permutation, each tag once, each row right, exactly the qualifying tags |
| TagCompareProps.CompareNoTag | data_statistic/CharacterTagDifferent.py:35-36 | (also lines 55-56) the "no tag" message appears exactly when no tag of either session differs by at least the threshold; an absent session is an empty map |
| TagCompareProps.CompareChart | data_statistic/CharacterTagDifferent.py:57-68 | the chart has one bar per kept tag, each tag once. Each height is (cn − jp) × 100, red exactly where CN is higher, at least the threshold from zero. Larger magnitudes come first |
| TagCompareProps.CompareAbsentCn | data_statistic/CharacterTagDifferent.py:35 | a missing CN session compares as empty, so with non-negative JP rates no bar is red |
| TagCompareProps.CompareOver | data_statistic/CharacterTagDifferent.py:35-68 | comparing two sessions over the same tags shows exactly their differences |
| TagCompareProps.DifferentScriptOfLoaded | data_statistic/CharacterTagDifferent.py:11-36 | once both files load, the script is the comparison of session 11 with session 20 at threshold 0.01 |
| TagCompareProps.DifferentOfTables | data_statistic/CharacterTagDifferent.py:11-68 | on two saved tables whose lists carry given rates, the script loads and shows the session-11 vs session-20 differences |
| TagCompareProps.DifferentOfSaved | data_statistic/CharacterTagDifferent.py:11-68 | the same for saved tables whose lists each name every tag once |
| TagCompareProps.RatesTable | data_statistic/CharacterTagDifferent.py:13-16 | every session's tag → rate map, one per session |
| TagCompareProps.CarriesOwnRates | data_statistic/CharacterTagDifferent.py:14 | a list naming each tag once carries its own rate map |
| TagCompareProps.TableCarriesOwnRates | data_statistic/CharacterTagDifferent.py:13-16 | so does every list of a table of such lists |
| TagCompare.Heat | data_statistic/CharacterTagAnalyze_ByTag.py:36-49 | exactly one value per requested session |
| TagCompare.ExtractRelativeHeat | data_statistic/CharacterTagAnalyze_ByTag.py:36-49 | the loop with its `found` flag and `break` returns exactly the specification function's values, one per session in order |
| TagCompareProps.FirstRateSpec | data_statistic/CharacterTagAnalyze_ByTag.py:41-48 | the value is the rate of the first pair whose tag matches (later matches ignored), and 0.0 when none matches |
| TagCompareProps.FirstRateOfDistinct | data_statistic/CharacterTagAnalyze_ByTag.py:42-46 | on a list naming each tag once, the value is the tag's entry and agrees with CharacterTagDifferent's dict lookup |
| TagCompareProps.IntLeTotalOrder | data_statistic/CharacterTagAnalyze_ByTag.py:30-31 | integer comparison is a total order |
| TagCompareProps.SortedSessionsSpec | data_statistic/CharacterTagAnalyze_ByTag.py:30-31 | `sorted(keys())` holds the loaded sessions strictly ascending |
| TagCompareProps.ByTagScriptSpec | data_statistic/CharacterTagAnalyze_ByTag.py:7-52 | each curve runs over its loaded sessions in increasing order, each once, with the rate of the tag's first entry in each |
| TagCompareProps.ByTagScriptOfLoaded | data_statistic/CharacterTagAnalyze_ByTag.py:7-52 | once both files load, the script is the two curves over the loaded tables |
| TagCompareProps.ListCarriesRates | data_statistic/CharacterTagAnalyze_ByTag.py:42-48 | a list carrying a rate map loads into that map, and the first-match scan reads it too |
| TagCompareProps.StrictRangeIsRange | data_statistic/CharacterTagAnalyze_ByTag.py:30-31 | a strictly increasing list holding exactly lo..hi is lo, lo + 1, ..., hi |
| TagCompareProps.IncreasingRangeIsRange | data_statistic/CharacterTagAnalyze_ByTag.py:30-31 | the same for a list increasing by at least one each step |
| TagCompareProps.RangeStep | data_statistic/CharacterTagAnalyze_ByTag.py:30-31 | such a list has no gap |
| TagCompareProps.RangeAt | data_statistic/CharacterTagAnalyze_ByTag.py:30-31 | its i-th element is lo + i |
| TagCompareProps.TableCurve | data_statistic/CharacterTagAnalyze_ByTag.py:30-52 | the curve drawn from a saved table runs over lo..hi, and its point for session s is the tag's rate there (0.0 when absent) |
| TagCompareProps.ByTagOfTables | data_statistic/CharacterTagAnalyze_ByTag.py:7-52 | on two saved tables, the CN curve runs over 1..11 and the JP curve over 3..20 |
| TagCompareProps.ByTagOfSaved | data_statistic/CharacterTagAnalyze_ByTag.py:7-52 | the same for saved tables whose lists each name every tag once |
| TagCompareLinks.TagCells | data_statistic/ChracterTagStatistics.py:102 | each tag with its grid cell for the session, and nothing else |
| TagCompareLinks.ListCarriesCells | data_statistic/ChracterTagStatistics.py:101-108 | a well-ranked list whose entries carry their cells carries the tag → cell map |
| TagCompareLinks.ListRatesCells | data_statistic/CharacterTagDifferent.py:14 | such a list loads into the tag → cell map |
| TagCompareLinks.RegionDistinct | data_statistic/ChracterTagStatistics.py:93-124 | each list of a ranked region names every tag once |
| TagCompareLinks.RegionRates | data_statistic/CharacterTagDifferent.py:14 | a ranked region's session s loads into the tags' cells in column s − 1 |
| TagCompareLinks.RatesOfStatistics | data_statistic/CharacterTagDifferent.py:11-23 | the rates read back from the statistics script's files are its grid cells: CN session s (1..11) is row 0, column s − 1; JP session s (3..20) is row 1, column s − 1 |
| TagCompareLinks.DifferentOfStatistics | data_statistic/CharacterTagDifferent.py:11-68 | on the statistics script's files the comparison loads and shows the differences between the grid cells of CN session 11 and JP session 20 |
| TagCompareLinks.ByTagOfStatistics | data_statistic/CharacterTagAnalyze_ByTag.py:7-52 | on those files the CN curve runs over 1..11 and the JP curve over 3..20, each point the tag's rate in that session |
| CharacterMusic.ShareColumn | Character-MusicAnalyze.py:79-93 | one `得票率` cell per grouped row |
| CharacterMusicProps.TotalVotesNonNeg | Character-MusicAnalyze.py:79-82 | the `.sum()` of non-negative vote cells, missing cells skipped, is non-negative |
| CharacterMusicProps.SubsequenceTotal | Character-MusicAnalyze.py:79-93 | a sheet holding some of another's rows in order has no more votes than it |
| CharacterMusicProps.CellAtMostTotal | Character-MusicAnalyze.py:79-93 | one vote cell is at most its sheet's total |
| CharacterMusicProps.ShareAt | Character-MusicAnalyze.py:90-93 | a vote at most the total gives a share in [0, 1] |
| CharacterMusicProps.ShareBounds | Character-MusicAnalyze.py:79-93 | a grouped sheet's shares over the raw total lie in [0, 1]. A share is missing exactly where the vote is missing or the raw total is 0 |
| CharacterMusicProps.NameMapKeys | Character-MusicAnalyze.py:75 | `dict(zip(...))` has exactly the sheet's Japanese names as keys |
| CharacterMusicProps.NameMapLast | Character-MusicAnalyze.py:75 | a name whose row is the last with that name maps to that row's Chinese name (later rows win) |
| CharacterMusicProps.NameMapSpec | Character-MusicAnalyze.py:75 | both of the above |
| CharacterMusic.CreditedNames | Character-MusicAnalyze.py:124-134 | a song with a missing association cell credits no one |
| CharacterMusic.UnifyAll | Character-MusicAnalyze.py:128-134 | each '\|'-separated piece, trimmed, unified in order: kept as is in the Chinese sheet, `char_name_map.get(name, name)` in the Japanese one |
| CharacterMusic.Repeat | Character-MusicAnalyze.py:136 | n copies of the credit, used to count appends |
| CharacterMusicProps.RepeatSnoc | Character-MusicAnalyze.py:136 | one more append adds one copy at the end |
| CharacterMusic.AddCreditsSnoc | Character-MusicAnalyze.py:136-139 | crediting one more name appends the credit to that name's list (`setdefault(..., []).append`) and changes nothing else |
| CharacterMusic.CreditSong | Character-MusicAnalyze.py:122-139 | the loop body for one song credits each of its names with the song's (std, raw) pair |
| CharacterMusic.BuildCredits | Character-MusicAnalyze.py:119-139 | the loop builds exactly the specification function's character → credits map |
| CharacterMusic.AddCreditsNonEmpty | Character-MusicAnalyze.py:136 | crediting keeps every list non-empty |
| CharacterMusic.CreditsNonEmpty | Character-MusicAnalyze.py:119-139 | every list of the built map holds at least one credit, so `np.mean` never sees an empty list |
| CharacterMusicProps.AddCreditsSpec | Character-MusicAnalyze.py:128-139 | a name's list grows by one copy of the credit per occurrence of the name; the keys grow by exactly the listed names |
| CharacterMusicProps.CreditsSpec | Character-MusicAnalyze.py:119-139 | each character's credits are one full (std, raw) pair for each time a song lists it, in song order |
| CharacterMusicProps.CreditsKeys | Character-MusicAnalyze.py:119-139 | a character has credits exactly when some song lists it |
| CharacterMusicProps.NoCredits | Character-MusicAnalyze.py:119-153 | the map is empty exactly when no song lists anyone |
| CharacterMusicProps.CreditsUndivided | Character-MusicAnalyze.py:136-139 | each credit is the whole (std, raw) pair of a song that lists the character (nothing is split among co-credited characters) |
| CharacterMusic.Stds | Character-MusicAnalyze.py:144 | the `std` of each record, in order |
| CharacterMusic.Raws | Character-MusicAnalyze.py:145 | the `raw` of each record, in order |
| CharacterMusicProps.SumRBounds | Character-MusicAnalyze.py:148-149 | a sum of n values in [lo, hi] lies in [n·lo, n·hi] |
| CharacterMusicProps.MeanBounds | Character-MusicAnalyze.py:148-149 | `np.mean` of a non-empty list lies between any bounds of its values |
| CharacterMusicProps.AnalysisSpec | Character-MusicAnalyze.py:106-180 | the region analysis fails (the merge on an empty frame raises KeyError) exactly when no song lists anyone. Otherwise it keeps every character row once, in order, with the mean std, mean raw and count of its unified name's credits, or 0, 0.0, 0 without credits |
| CharacterMusicProps.StdPairs | Character-MusicAnalyze.py:186 | one (std, average song std) pair per kept row |
| CharacterMusicProps.CorrelationRowsSpec | Character-MusicAnalyze.py:186 | `dropna()` keeps the rows with a standardized share, in sheet order |
| CharacterMusicProps.CorrelationGuardSpec | Character-MusicAnalyze.py:186-189 | Spearman's coefficient is computed exactly when at least two rows survive `dropna`, on their pairs in order |
| CharacterMusicProps.PopularityTotal | Character-MusicAnalyze.py:243 | descending order by (std, average song std), NaN last, is a total preorder |
| CharacterMusicProps.OutliersSpec | Character-MusicAnalyze.py:240-243 | the outlier list is sorted by that order and is a permutation of the rows where exactly one of \|std\| and \|avg std\| exceeds 2.5 |
| CharacterMusicProps.ReportSpec | Character-MusicAnalyze.py:245-259 | "no outliers" is printed exactly when no row is an outlier. Otherwise each listed row's remark is the value that is extreme, and the "both extreme" remark never appears (the XOR filter excludes it) |
| CharacterMusic.SongCross | Character-MusicAnalyze.py:313-331 | a song with a missing association cell contributes no rows |
| CharacterMusic.CrossOf | Character-MusicAnalyze.py:321-331 | one row per name: the title, the name through `char_name_map`, the song's std and the region |
| CharacterMusic.CrossSong | Character-MusicAnalyze.py:314-331 | the loop body yields exactly the song's rows |
| CharacterMusic.ProcessMusicCross | Character-MusicAnalyze.py:311-332 | the loop yields the specification function's rows, song by song |
| CharacterMusicProps.SongCrossNames | Character-MusicAnalyze.py:321-331 | the cross rows carry the Japanese-style unified names in both regions |
| CharacterMusicProps.CnCrossRenames | Character-MusicAnalyze.py:131-132 | (against line 324) a Chinese song's cross names are its credited names passed through `char_name_map`, unlike the region analysis |
| CharacterMusic.Names | Character-MusicAnalyze.py:429 | the `角色名称_统一` column, in order |
| CharacterMusicProps.NamedUnique | Character-MusicAnalyze.py:426-431 | with unique names, a name selects no row or exactly its row |
| CharacterMusic.Pairing | Character-MusicAnalyze.py:426-431 | a key with rows on both sides pairs every Chinese row with every Japanese row |
| CharacterMusic.KeyRows | Character-MusicAnalyze.py:426-431 | the merged rows of each key, key by key |
| CharacterMusicProps.KeysMembers | Character-MusicAnalyze.py:426-431 | the sorted key list holds the names of either side and no other |
| CharacterMusicProps.OuterMergeOrder | Character-MusicAnalyze.py:426-431 | rows following the sorted keys come in strictly increasing name order |
| CharacterMusicProps.OuterMergeNames | Character-MusicAnalyze.py:426-431 | such rows name the names of either side and no other |
| CharacterMusicProps.JoinKeyUnique | Character-MusicAnalyze.py:426-431 | with unique names, each key gives exactly one row, with each side's rates or 0 |
| CharacterMusicProps.FlattenSingletons | Character-MusicAnalyze.py:426-431 | concatenating one-row groups lists those rows in order |
| CharacterMusicProps.OuterMergeRows | Character-MusicAnalyze.py:426-431 | row i of the outer merge is that of the i-th sorted key |
| CharacterMusicProps.OuterMergeSpec | Character-MusicAnalyze.py:426-431 | with unique names, the outer merge plus `fillna(0)` has one row per name of either side, in increasing order, with that side's rates or 0 |
| CharacterMusicProps.ImpactPositive | Character-MusicAnalyze.py:435-445 | with all rates positive the flag is \|(cn_raw/jp_raw)/(cn_avg/jp_avg) − 1\| > 0.5 |
| CharacterMusicProps.OneRegionNeverImpacted | Character-MusicAnalyze.py:431-445 | a character absent from one region (zeros filled in) is never flagged: a NaN ratio fails the comparison |
| CharacterMusicProps.SongsInOneRegionImpacted | Character-MusicAnalyze.py:435-445 | a character with votes in both regions and songs in just one is always flagged |
| CharacterMusicProps.DeviationSymmetric | Character-MusicAnalyze.py:450-451 | a ratio and its reciprocal print the same deviation, at least 1 |
| CharacterMusicProps.DeviationInfinite | Character-MusicAnalyze.py:450-451 | infinity and 0 both print as infinity |
| CharacterMusicProps.ImpactReportSpec | Character-MusicAnalyze.py:443-454 | the printed lines are exactly the flagged merge rows, each with its two deviations |
| CharacterMusicProps.TitlesSpec | Character-MusicAnalyze.py:479-480 | the title set holds exactly the non-missing titles |
| CharacterMusicProps.OnlyInSpec | Character-MusicAnalyze.py:483-486 | `sorted(a − b)` holds exactly the titles of a not in b, strictly increasing |
| CharacterMusicProps.UniqueSongsSpec | Character-MusicAnalyze.py:476-498 | the two printed lists hold the titles only one region has, each once, in increasing order, and share no title |
| Grouping.AsFloat | TouhouVote.py:6 | `.astype(float)` keeps a cell's numeric value and makes numeric cells floats |
| Grouping.EntriesOf | TouhouVote.py:10 | the dictionary `df[[key, value]]`: one entry per row, in file order |
| GroupingProps.WorkRowsSpec | TouhouVote.py:3-5 | the dictionary exists unless a work cell holds text (the `> 5` comparison raises TypeError). It then holds exactly the rows whose work code is a number above 5 |
| GroupingProps.WorkDictionarySpec | TouhouVote.py:3-10 | each entry pairs a kept row's key (日文名 or 译名) with its work code, a float above 5 |
| GroupingProps.MusicDictionarySpec | TouhouVoteMusic.py:4-8 | the song dictionary holds exactly the info rows with a present 所属角色, keyed by 曲目 or 译名 |
| Grouping.MergeRow | TouhouVote.py:14 | a left merge gives one row per matching entry, or the row itself with a missing value when none matches |
| GroupingProps.Copies | TouhouVote.py:14-15 | an inner join gives one copy per matching entry |
| GroupingProps.DropRow | TouhouVote.py:14-15 | with present values, dropping missing values from a row's left merge gives its inner-join copies |
| GroupingProps.AllKept | TouhouVote.py:15 | `dropna` keeps everything when nothing is missing |
| GroupingProps.FilterNone | TouhouVote.py:15 | `dropna` keeps nothing when everything is missing |
| GroupingProps.MergeDropIsInnerJoin | TouhouVote.py:14-15 | with a dictionary of present values, left merge plus `dropna` is the inner join: exactly the unmatched rows go |
| GroupingProps.Origins | TouhouVote.py:14-15 | each joined row's input row is a valid row index |
| GroupingProps.InnerJoinShape | TouhouVote.py:14 | each joined row is an input row with the value of an entry whose key matches its key |
| GroupingProps.OriginsOrdered | TouhouVote.py:14 | joined rows keep the order of their input rows |
| GroupingProps.OriginsCover | TouhouVote.py:14-15 | an input row survives exactly when some entry matches its key |
| GroupingProps.InnerJoinRows | TouhouVote.py:14-15 | all three facts of the join together |
| GroupingProps.KeyEqEquivalence | TouhouVote.py:14 | the merge's key matching (numbers by value, text by content, missing matching missing) is reflexive, symmetric and transitive |
| GroupingProps.MatchesAtMostOne | TouhouVote.py:14 | a dictionary with unique keys matches a key at most once |
| GroupingProps.UniqueKeysInOrder | TouhouVote.py:14-15 | with unique keys each grouped row comes from a different vote row, in order |
| GroupingProps.UniqueKeysVotes | TouhouVote.py:14-15 | with unique keys and non-negative votes a grouped sheet holds no more votes than its vote sheet |
| Grouping.ProcessSheets | TouhouVote.py:13-16 | (also lines 25-28, and TouhouVoteMusic.py lines 13-16 and 29-32) the loop over the workbook's sheets yields exactly the specification function's grouped workbook, or None at the first sheet the merge rejects |
| GroupingProps.JoinBookSpec | TouhouVote.py:11-16 | a workbook is grouped exactly when every sheet has the key column and lacks the value column. Then there is one grouped sheet per sheet, same name and order, holding the merged and dropped rows |
| GroupingProps.GroupedRows | TouhouVote.py:13-16 | every grouped row is a vote row joined with a matching entry |
| GroupingProps.WorkRowAt | TouhouVote.py:10-16 | a row joined with a work entry carries the work code, above 5, of a fun.xlsx row with its key |
| GroupingProps.WorkBookSpec | TouhouVote.py:10-20 | one region: grouped exactly when every sheet has the key column and no work column; then each grouped row carries a kept work code above 5 for its key |
| Grouping.Both | TouhouVote.py:18-32 | the Japanese workbook is written first; the Chinese one is written only if the Japanese one was |
| GroupingProps.VoteGroupingSpec | TouhouVote.py:1-32 | the whole script: the Japanese and then the Chinese workbook, each grouped as WorkBookSpec states, the second only after the first |
| GroupingProps.MusicBookSpec | TouhouVoteMusic.py:8-21 | one region: grouped exactly when every sheet has the key column and no 所属角色 column; then each grouped row carries a present 所属角色 of an info row with its key |
| Wrappers.MapAllSpec | TouhouVote.py:13-16 | processing every sheet succeeds exactly when each one does, and then holds each sheet's result in order |
| Wrappers.MapAllSnoc | TouhouVote.py:13-16 | one more sheet extends the processed list, or fails |
| Wrappers.MapAllPrefixFails | TouhouVote.py:13-16 | once a sheet fails, the whole run fails |
| ODicts.Put | SummarizeAllData.py:66-67 | `d[k] = v` sets k to v; the key order keeps an old key in place and appends a new one |
| ODicts.Items | SummarizeAllData.py:58 | `d.items()` lists each key with its value, in insertion order |
| ODicts.Empty | SummarizeAllData.py:58 | `{}` has no keys |
| ODicts.ItemsOf | SummarizeAllData.py:58 | the entries for the given keys, in their order |
| Sorting.Insert | data_statistic/CharacterTagDifferent.py:52 | inserting one element keeps every element |
| Sorting.SortWith | data_statistic/CharacterTagDifferent.py:52 | `sorted(..., key=...)` returns a permutation of its input |
| Sorting.InsertSorted | data_statistic/CharacterTagDifferent.py:52 | inserting into a sorted list keeps it sorted |
| Sorting.SortWithSorted | data_statistic/CharacterTagDifferent.py:52 | the sort's result is ordered by the key |
| Sorting.InsertTies | data_statistic/CharacterTagDifferent.py:52 | inserting keeps tied elements in their order |
| Sorting.SortKeepsTies | data_statistic/CharacterTagDifferent.py:52 | Python's sort is stable: tied elements keep any order they had |
| Sorting.FilterInsert | data_statistic/CharacterTagDifferent.py:52 | inserting an element of a tie class adds it in front of that class |
| Sorting.SortStable | data_statistic/CharacterTagDifferent.py:52 | each class of tied elements comes out in its input order |
| Sorting.Dedup | Character-MusicAnalyze.py:479 | collapsing adjacent duplicates keeps exactly the same elements |
| Sorting.SortedUnique | Character-MusicAnalyze.py:483-486 | `sorted(set(xs))` holds exactly the elements of xs |
| Sorting.DedupStrict | Character-MusicAnalyze.py:486 | a sorted list with adjacent duplicates collapsed is strictly increasing |
| Sorting.SortedUniqueStrict | Character-MusicAnalyze.py:486 | `sorted(set(xs))` is strictly increasing, so each element appears once |
| Sorting.LexLeTotal | Character-MusicAnalyze.py:486 | Python's string order is total |
| Sorting.LexLeTrans | Character-MusicAnalyze.py:486 | and transitive |
| Sorting.LexLeAntisym | Character-MusicAnalyze.py:486 | and antisymmetric |
| Sorting.StrLeTotalOrder | Character-MusicAnalyze.py:486 | all three together |
| Sorting.SortedStrings | Character-MusicAnalyze.py:486 | `sorted(set(xs))` on strings holds exactly the elements of xs, strictly increasing |
| Seqs.AppendNew | SummarizeAllData.py:144 | `if c not in chars: chars.append(c)` keeps the old list as a prefix, adds exactly the new names, and keeps the list duplicate-free |
| Seqs.AppendNewFresh | SummarizeAllData.py:140-144 | every name added after the old list comes from the new names and was not in the old list |
| Seqs.AppendNewDistinct | SummarizeAllData.py:140-144 | each added name is added once, even when the old list has duplicates |
| Seqs.AppendNewFirstSeen | SummarizeAllData.py:140-144 | the added names come in the order of their first occurrence among the new names |
| Seqs.Filter | Character-MusicAnalyze.py:186 | a filter keeps only elements that pass, no more than it was given |
| Seqs.FilterMembers | Character-MusicAnalyze.py:186 | exactly the elements that pass |
| Seqs.FilterAppend | Character-MusicAnalyze.py:186 | filtering splits over concatenation |
| Reports.Lookup | CharacterAnalyze_jp.py:40 | `book[name]` finds a sheet of that name, and fails exactly when no sheet has it |
| Reports.CollectSnoc | CharacterAnalyze_jp.py:39-65 | one more visited sheet appends its (name, share) entry when it is measured, and nothing otherwise |
| ReportsProps.ExtractNumberOfRun | CharacterAnalyze_jp.py:10-24 | `extract_number` keys a name by its leading digit run: "11" and "11_jp" both sort at 11 |
| ReportsProps.ExtractNumberOfNat | CharacterAnalyze_jp.py:10-24 | `extract_number(str(n) + rest)` is n |
| ReportsProps.ExtractNumberInfinite | CharacterAnalyze_jp.py:12-24 | the key is infinity exactly for NaN and for text not starting with a digit |
| ReportsProps.ByNumberTotal | CharacterAnalyze_jp.py:32 | ordering by that key is a total preorder |
| ReportsProps.NumberOrderSpec | CharacterAnalyze_jp.py:32 | (also GroupAnalyze_jp.py line 33) the visiting order is a permutation of the workbook with non-decreasing keys, unnumbered sheets last |
| ReportsProps.NumberOrderStable | CharacterAnalyze_jp.py:32 | sheets sharing a key keep their workbook order (`sorted` is stable) |
| ReportsProps.ByIntTotal | top30.py:15 | ordering by `int(name)` is a total preorder |
| ReportsProps.IntOrderSpec | top30.py:14-17 | the order exists exactly when every sheet name is an int literal, and is then a permutation sorted by int value |
| ReportsProps.PermutationDistinctNames | CharacterAnalyze_jp.py:27 | reordering keeps the sheet names distinct |
| ReportsProps.LookupDistinct | CharacterAnalyze_jp.py:40 | with distinct names, `book[sh.name]` is sh |
| ReportsProps.CollectMembers | CharacterAnalyze_jp.py:39-65 | an entry is collected exactly when it is a measured sheet's name and share |
| ReportsProps.CollectEmpty | CharacterAnalyze_jp.py:39-73 | nothing is collected exactly when every sheet is rejected |
| ReportsProps.CollectOfPermutation | CharacterAnalyze_jp.py:32-65 | visiting a permutation of the workbook collects the measured sheets of the workbook |
| ReportsProps.CollectOrdered | CharacterAnalyze_jp.py:39-65 | entries keep any relation the visiting order keeps between sheet names |
| ReportsProps.CollectSorted | CharacterAnalyze_jp.py:32-65 | visiting the sorted workbook lists the measured sheets in sorted order |
| ReportsProps.CollectDistinct | CharacterAnalyze_jp.py:37-65 | distinct sheet names give distinct entries |
| ReportsProps.MatchingFirst | CharacterAnalyze_jp.py:54-58 | `target_row[...].iloc[0]` is the first row with the character's name |
| ReportsProps.MatchingNone | CharacterAnalyze_jp.py:54-57 | `target_row.empty` holds exactly when no row has the name |
| ReportsProps.CharacterStepEarly | CharacterAnalyze_jp.py:43-51 | a missing column skips the sheet; a raw sum that raises rejects it; a zero raw total skips it |
| ReportsProps.CharacterStepNoTarget | CharacterAnalyze_jp.py:54-57 | past those checks, the sheet is skipped for lacking the character exactly when no row has its name |
| ReportsProps.CharacterStepFirstRow | CharacterAnalyze_jp.py:58-65 | the share is the first matching row's votes over the raw total × 100. A zero count skips the sheet, an empty count records NaN, and text raises |
| Reports.SheetTarget | CharacterAnalyze_jp.py:40-69 | the loop body for one sheet yields the specification function's outcome |
| Reports.CharacterAnalyze | CharacterAnalyze_jp.py:31-73 | the script's loop yields the specification function's result, or None where line 73 raises |
| ReportsProps.CharacterAnalysisSpec | CharacterAnalyze_jp.py:26-73 | the script raises exactly when no sheet yields a share; otherwise it lists the measured sheets with their shares. They come in increasing leading number, each sheet once |
| Reports.SheetShares | GroupAnalyze_jp.py:41-57 | the loop body for one sheet yields the specification function's shares, or None where it raises |
| Reports.Extend | GroupAnalyze_jp.py:60-65 | appending the rows one at a time extends the list by all of them, in order |
| Reports.GroupAnalyze | GroupAnalyze_jp.py:33-70 | the script's loop yields the specification function's result, or None where it raises |
| GroupReportProps.WorkCodesMembers | GroupAnalyze_jp.py:56 | a code is among the work codes exactly when some row carries it |
| GroupReportProps.RealLeTotalOrder | GroupAnalyze_jp.py:56 | the order on codes is total |
| GroupReportProps.GroupsSpec | GroupAnalyze_jp.py:56 | `groupby` forms one group per distinct work code present, strictly increasing, NaN codes dropped |
| GroupReportProps.KeyVotesSnoc | GroupAnalyze_jp.py:56 | one more row adds its votes to the sum of the groups it hits |
| GroupReportProps.HitAbsent | GroupAnalyze_jp.py:56 | a row whose code is not among the groups adds nothing |
| GroupReportProps.HitOnce | GroupAnalyze_jp.py:56 | a row whose code is among distinct groups adds its votes once |
| GroupReportProps.KeyVotesEmpty | GroupAnalyze_jp.py:56 | no groups, no votes |
| GroupReportProps.VoteTotalSnoc | GroupAnalyze_jp.py:50 | the vote total of one more row adds that row's votes |
| GroupReportProps.KeyVotesPartition | GroupAnalyze_jp.py:56 | summing over codes that list every code present once counts every coded row once |
| GroupReportProps.GroupPartition | GroupAnalyze_jp.py:56 | the group sums add up to the votes of the rows with a work code |
| GroupReportProps.PctSumFor | GroupAnalyze_jp.py:57 | the percentages of the given groups add up to their votes over the total × 100 |
| GroupReportProps.SharesPartition | GroupAnalyze_jp.py:56-57 | a sheet's percentages add up to its coded votes over the raw total × 100 |
| GroupReportProps.GroupStepRules | GroupAnalyze_jp.py:41-53 | line 42 reads 首次出现作品 before line 45 checks for it, so a sheet without that column raises. A sheet without 票数, or with a zero raw total, is skipped. A missing raw sheet raises |
| GroupReportProps.SharesOfSpec | GroupAnalyze_jp.py:56-65 | one share per work code, strictly increasing, each its group's votes over the total × 100, tagged with the sheet |
| GroupReportProps.SharesOfCodes | GroupAnalyze_jp.py:56-65 | the shares name exactly the codes the rows carry |
| GroupReportProps.GroupStepShares | GroupAnalyze_jp.py:49-65 | a sheet that contributes has a non-zero raw total, and contributes its groups' shares over that total |
| GroupReportProps.GroupAnalysisSpec | GroupAnalyze_jp.py:33-70 | the script gets past line 70 exactly when no sheet raises and some sheet contributes. Its shares are then exactly those of the sheets |
| Reports.SheetTop | top30.py:23-49 | the loop body for one sheet yields the specification function's outcome |
| Reports.Top30 | top30.py:14-53 | the script's loop yields the specification function's result |
| TopReportProps.Take | top30.py:38 | `.head(30)` keeps min(30, n) values |
| TopReportProps.SumRRemove | top30.py:38 | a sum is one element plus the sum of the rest |
| TopReportProps.SumRPerm | top30.py:37-38 | reordering does not change a sum |
| TopReportProps.SumRNonNeg | top30.py:38 | a sum of non-negative values is non-negative |
| TopReportProps.PrefixBound | top30.py:37-38 | the first k of a descending non-negative list sum to at least any k or fewer of its elements |
| TopReportProps.PrefixAtMost | top30.py:38 | a prefix of non-negative values sums to at most the whole |
| TopReportProps.DescendingTotal | top30.py:37 | descending order is a total preorder |
| TopReportProps.VoteValuesTotal | top30.py:31-38 | the present vote values sum to the vote total |
| TopReportProps.VoteValuesAppend | top30.py:37 | the vote values split over concatenated rows |
| TopReportProps.VoteValuesFrom | top30.py:37 | each vote value comes from a row |
| TopReportProps.VoteValuesSub | top30.py:37 | fewer rows give a sub-multiset of the vote values |
| TopReportProps.VoteValuesRemove | top30.py:37 | removing a row removes its value |
| TopReportProps.VoteValuesNonNeg | top30.py:37 | non-negative votes give non-negative values |
| TopReportProps.VoteValuesLength | top30.py:37 | there are no more values than rows |
| TopReportProps.SortedValues | top30.py:37 | `sort_values(ascending=False)` gives a descending permutation of the vote values (NaN rows never reach the sum) |
| TopReportProps.TopSumIsPrefix | top30.py:37-38 | the top sum is the sum of the first thirty values in descending order |
| TopReportProps.TopSumBound | top30.py:37-38 | no choice of at most thirty vote values sums to more than the top sum |
| TopReportProps.TopSumBeatsAnyRows | top30.py:37-38 | no choice of at most thirty rows has more votes than the top sum |
| TopReportProps.TopSumOfFew | top30.py:37-38 | with at most thirty values the top sum is the whole total |
| TopReportProps.TopSumAtMostTotal | top30.py:37-38 | the top sum never exceeds the sheet's total |
| TopReportProps.TopSumNonNeg | top30.py:37-38 | it is non-negative |
| TopReportProps.TopStepBounds | top30.py:31-45 | a measured share lies between 0 and the sheet's total over the raw total × 100, so at most 100 when the grouped sheet holds no more votes than the raw one |
| ReportsProps.Top30CollectEmpty | top30.py:22-53 | nothing is collected exactly when every sheet is rejected |
| ReportsProps.Top30CollectMembers | top30.py:22-49 | the collected entries are the measured sheets' names and shares |
| ReportsProps.Top30CollectOrder | top30.py:14-49 | they come in non-decreasing int order of name |
| ReportsProps.Top30AnalysisSpec | top30.py:14-53 | the script raises when a name is not an int literal, or when no sheet yields a share. Otherwise it lists the measured sheets with their shares, in increasing int order |
| ReportsProps.MappedNameLast | difference.py:11 | `set_index('译名')['日文名'].to_dict()` maps a name to the 日文名 of its last row |
| ReportsProps.MappedNameNone | difference.py:11-16 | the lookup fails exactly when no row has the name |
| ReportsProps.AnalyzeSheetNoTarget | difference.py:19-39 | past the sheet, column and zero-total checks, "target not found" is raised exactly when no row matches |
| ReportsProps.AnalyzeSheetFirstRow | difference.py:36-41 | `analyze_sheet` reads the first matching row's votes over the raw total × 100: NaN for an empty count, a raise for text, and no skip for a zero count |
| ReportsProps.DifferenceSpec | difference.py:10-59 | the script crashes exactly when fun.xlsx lacks a column or the character. It exits with the first failing analysis's reason. It prints only when both succeed, and then the difference is positive exactly when the Chinese share is higher |
| Keywords.CleanText | CharacterTagAnalyze-freq.py:53-58 | the page key is stripped (no outer whitespace) |
| Keywords.SlashKey | CharacterTagAnalyze-textrank.py:59-64 | the textrank key, `lstrip('/')` then `strip()`, is stripped |
| Keywords.PartialPath | TagAnalyze.py:50-59 | `p = text.lstrip('/')` never starts with '/' |
| KeywordsProps.ReplaceHead | CharacterTagAnalyze-freq.py:57 | `replace("天为", "帝")` starts with 帝 or with the original first character |
| KeywordsProps.ReplacedNoTianWei | CharacterTagAnalyze-freq.py:57 | the replacement leaves no "天为" |
| KeywordsProps.NoTianWeiPiece | CharacterTagAnalyze-freq.py:57-58 | a slice of a text without "天为" has none either |
| KeywordsProps.StripNoTianWei | CharacterTagAnalyze-freq.py:58 | stripping cannot create "天为" |
| KeywordsProps.LStripCharNoTianWei | CharacterTagAnalyze-textrank.py:64 | neither can `lstrip('/')` |
| KeywordsProps.CleanTextSpec | CharacterTagAnalyze-freq.py:56-58 | the key is stripped and holds no "天为" |
| KeywordsProps.SlashKeySpec | CharacterTagAnalyze-textrank.py:62-64 | so is the textrank key |
| KeywordsProps.NoParenFixed | CharacterTagAnalyze-freq.py:56 | `re.sub(r"（.*?）", "", s)` leaves a text without '（' unchanged |
| KeywordsProps.NoTianFixed | CharacterTagAnalyze-freq.py:57 | the replacement leaves a text without 天 unchanged |
| KeywordsProps.TagPathKeepsSpaces | TagAnalyze.py:59 | TagAnalyze.py's path keeps a leading space, which the other scripts' keys strip |
| Keywords.UrlsFor | CharacterTagAnalyze-LDA.py:89 | one URL per suffix |
| KeywordsProps.UrlsForSpec | CharacterTagAnalyze-LDA.py:89 | URL j is base_url + key + suffix j |
| Keywords.BuildUrls | CharacterTagAnalyze-freq.py:59-61 | the append loop builds the same list as the comprehension of the LDA script |
| Keywords.BuildNameDocs | CharacterTagAnalyze-freq.py:51-61 | the name loop builds exactly the specification function's key → URLs dict |
| KeywordsProps.NameDocsKeys | CharacterTagAnalyze-freq.py:52-59 | the keys are exactly the keys of the names other than 蕾拉·普莉兹姆利巴, each once |
| KeywordsProps.NameDocsValues | CharacterTagAnalyze-freq.py:59-61 | each key holds its URLs (a repeated key is reset and rebuilt to the same list) |
| KeywordsProps.NameDocsSpec | CharacterTagAnalyze-freq.py:51-61 | both of the above |
| KeywordsProps.NameTextsSpec | CharacterTagAnalyze-freq.py:50-53 | `dropna` then `str(name)` gives the text of every present cell |
| KeywordsProps.StopwordsSpec | CharacterTagAnalyze-freq.py:42-47 | the stopwords are the four forced words plus the stripped non-blank file lines; without the file just the four; never the empty word |
| KeywordsProps.TagStopwordsSame | TagAnalyze.py:85-91 | TagAnalyze.py's other order of building the set gives the same set |
| KeywordsProps.FreqKeepsSpec | CharacterTagAnalyze-freq.py:87 | a word is kept exactly when it is neither a stopword nor a key and strips to more than one character (the single-character test adds nothing) |
| KeywordsProps.SomeValuesMembers | CharacterTagAnalyze-LDA.py:100-112 | the kept values are exactly those the filter yields |
| KeywordsProps.LdaTokenSpec | CharacterTagAnalyze-LDA.py:100-112 | the LDA filter keeps the stripped word exactly when it is non-empty, no stopword, no key, not a digit run and at least two characters long |
| Keywords.FilterTokens | CharacterTagAnalyze-LDA.py:99-112 | the token loop, with its `continue` checks in order, yields the specification function's tokens |
| KeywordsProps.LdaTokensSpec | CharacterTagAnalyze-LDA.py:99-112 | every token is a stripped, kept word of the page text, and every kept word is a token |
| Keywords.LdaDocuments | CharacterTagAnalyze-LDA.py:94-114 | one document and one name per key, in key order, each the joined tokens of the key's pages |
| Keywords.CombinedDocs | CharacterTagAnalyze-textrank.py:90-96 | one combined text and one name per key, in key order |
| KeywordsProps.DescendingPreorder | CharacterTagAnalyze-textrank.py:111 | ordering by weight, largest first, is a total preorder |
| KeywordsProps.PrefixMultiset | CharacterTagAnalyze-textrank.py:111 | `[:20]` keeps elements of the list |
| KeywordsProps.TopBySpec | CharacterTagAnalyze-textrank.py:111 | `sorted(..., reverse=True)[:n]` keeps min(n, len) elements of the input, non-increasing by weight, with no new duplicates |
| KeywordsProps.TopByTies | CharacterTagAnalyze-textrank.py:111 | the sort is stable: elements of equal weight keep any order the input gave them |
| KeywordsProps.TopByMaximal | CharacterTagAnalyze-textrank.py:111 | an element left out means n were chosen, each weighing at least as much |
| KeywordsProps.CounterItemsSpec | CharacterTagAnalyze-freq.py:88 | `Counter` lists each distinct word once, with its number of occurrences |
| KeywordsProps.CounterItemsNoDup | CharacterTagAnalyze-freq.py:88 | its entries are distinct |
| KeywordsProps.CounterItemsOrder | CharacterTagAnalyze-freq.py:88 | `Counter(filtered)` lists its words in the order of their first occurrence |
| KeywordsProps.MostCommonTies | CharacterTagAnalyze-freq.py:88-89 | `most_common(n)` lists words of equal count in the order of their first occurrence |
| KeywordsProps.SubKeysDistinct | CharacterTagAnalyze-freq.py:89 | choosing some entries keeps their keys distinct |
| KeywordsProps.MostCommonCounts | CharacterTagAnalyze-freq.py:89 | each `most_common` entry is a word with its true count |
| KeywordsProps.MostCommonDistinct | CharacterTagAnalyze-freq.py:89 | no word is listed twice |
| KeywordsProps.MostCommonSpec | CharacterTagAnalyze-freq.py:88-89 | `most_common(n)` lists at most n distinct words with their counts, non-increasing, words of equal count in first-occurrence order |
| KeywordsProps.MostCommonMaximal | CharacterTagAnalyze-freq.py:89 | a word left out means n words were listed, none less frequent than it |
| KeywordsProps.FreqTopSpec | CharacterTagAnalyze-freq.py:83-89 | the top 20: at most 20 distinct kept words of the page text, counts non-increasing, each with its count among the kept words |
| KeywordsProps.ScoreDictSpec | CharacterTagAnalyze-textrank.py:107-110 | the score dict holds exactly the kept words, each with a weight it was given |
| KeywordsProps.ScoreDictLast | CharacterTagAnalyze-textrank.py:107-110 | a word's last pair sets its weight |
| KeywordsProps.ItemsNoDup | CharacterTagAnalyze-textrank.py:111 | `scores.items()` has no duplicate entries |
| KeywordsProps.ItemKeysDistinct | CharacterTagAnalyze-textrank.py:111 | nor duplicate keys |
| KeywordsProps.SubEntries | CharacterTagAnalyze-textrank.py:111 | chosen entries are entries of the dict |
| KeywordsProps.TopScoresEntries | CharacterTagAnalyze-textrank.py:111 | each top entry is a word with its dict weight |
| KeywordsProps.TopScoresDistinct | CharacterTagAnalyze-textrank.py:111 | no word is listed twice |
| KeywordsProps.TopScoresSpec | CharacterTagAnalyze-textrank.py:111 | the top entries: at most n distinct words with their weights, non-increasing |
| KeywordsProps.TopScoresMaximal | CharacterTagAnalyze-textrank.py:111 | a word left out means n words were listed, none lighter than it |
| KeywordsProps.TextRankTopSpec | CharacterTagAnalyze-textrank.py:105-111 | the top 20: distinct kept keywords with their TextRank weights, non-increasing |
| KeywordsProps.TextRankTopMaximal | CharacterTagAnalyze-textrank.py:107-111 | a kept keyword left out means 20 were listed, none lighter than its last weight |
| KeywordsProps.BlockedSnoc | TagAnalyze.py:61-62 | one more name adds one block of three URLs |
| KeywordsProps.KeptMapSpec | TagAnalyze.py:49-53 | one value per name that is not skipped, in order |
| KeywordsProps.TagUrlsBlocks | TagAnalyze.py:48-62 | the URLs come in blocks of three, one block per kept name |
| Keywords.BuildTagUrls | TagAnalyze.py:48-62 | the nested loop builds exactly the specification function's URL list |
| KeywordsProps.TagUrlsSpec | TagAnalyze.py:48-62 | three URLs per kept name, URL 3k + j being base_url + path + suffix j |
| Keywords.TokenizeDocs | TagAnalyze.py:94-97 | one joined token string per document, each keeping the non-blank tokens outside the stopwords |
| KeywordsProps.TagTopSpec | TagAnalyze.py:108-115 | the top 20: distinct features outside the stopwords with their summed weights, non-increasing |
| KeywordsProps.TagTopMaximal | TagAnalyze.py:108-115 | a feature left out means 20 were listed, none lighter |
| KeywordClustersProps.AsciiDigitsAreAlnum | CharacterTagAnalyze-clusters.py:43-44 | an ASCII digit run is already rejected by the `[A-Za-z0-9]+` test |
| KeywordClustersProps.WideDigitsNeedDigitTest | CharacterTagAnalyze-clusters.py:44 | a fullwidth digit run such as "１２" passes the `[A-Za-z0-9]+` test and is rejected only by `\d+` |
| KeywordClustersProps.ParensAfterPlain | CharacterTagAnalyze-clusters.py:41 | `re.sub(r"（.*?）", "", ...)` leaves a prefix without '（' in place |
| KeywordClustersProps.NoteRemoved | CharacterTagAnalyze-clusters.py:41 | a one-line parenthesised note is removed entirely |
| KeywordClustersProps.NoteCleaned | CharacterTagAnalyze-clusters.py:40-41 | a plain stripped name followed by a note cleans to the name |
| KeywordClustersProps.SkippedNamePlain | CharacterTagAnalyze-clusters.py:67 | the skipped name has no '（', no 天 and no outer whitespace |
| KeywordClustersProps.SkippedNameIsClean | CharacterTagAnalyze-clusters.py:66-67 | cleaning leaves the skipped name unchanged |
| KeywordClustersProps.SkipAfterCleaning | CharacterTagAnalyze-clusters.py:66-67 | this script compares after cleaning, so "蕾拉·普莉兹姆利巴（…）" is skipped too. The other scripts compare before cleaning and keep it |
| KeywordClusters.AddListContexts | CharacterTagAnalyze-clusters.py:84-86 | the inner loop appends exactly one context (method, keyword, name) per valid keyword of the list, in order |
| KeywordClustersProps.ListContextsSpec | CharacterTagAnalyze-clusters.py:84-86 | a context is added exactly for the list's valid words, with that method and name |
| KeywordClusters.AddNameContexts | CharacterTagAnalyze-clusters.py:83-86 | the loop over the four methods appends each list's contexts in method order |
| KeywordClustersProps.EntryContextsSpec | CharacterTagAnalyze-clusters.py:83-86 | a context is added exactly when its method is one of the four and its keyword is a valid word of that method's list |
| KeywordClusters.AddEntry | CharacterTagAnalyze-clusters.py:66-86 | one name: the skip check, the entry text, and the contexts of its keyword lists |
| KeywordClusters.FoldStep | CharacterTagAnalyze-clusters.py:65-86 | one more name extends the contexts and updates the entries |
| KeywordClusters.EntryLoop | CharacterTagAnalyze-clusters.py:65-86 | the loop yields exactly the specification function's contexts and entries |
| KeywordClustersProps.NamesSpec | CharacterTagAnalyze-clusters.py:65-66 | one cleaned name per cell |
| KeywordClustersProps.EntriesOfSpec | CharacterTagAnalyze-clusters.py:63-72 | the entries are exactly the cleaned names other than the skipped one |
| KeywordClustersProps.EntriesOfValues | CharacterTagAnalyze-clusters.py:68-72 | each entry holds its valid tokens joined with spaces |
| KeywordClustersProps.EntriesOfTexts | CharacterTagAnalyze-clusters.py:61-72 | in terms of the cells: an entry for each cell that does not clean to the skipped name |
| KeywordClustersProps.ContextsOfSpec | CharacterTagAnalyze-clusters.py:62-86 | every context has one of the four methods, a valid keyword, and a non-skipped name as source |
| KeywordClusters.IndexMap | CharacterTagAnalyze-clusters.py:91-92 | `{x: i for i, x in enumerate(xs)}` maps into range |
| KeywordClustersProps.IndexMapSpec | CharacterTagAnalyze-clusters.py:91-92 | its keys are the elements; each maps to a position holding it, its own position when there are no duplicates |
| KeywordClustersProps.KeywordSetSpec | CharacterTagAnalyze-clusters.py:89-91 | `sorted({kw ...})` holds exactly the contexts' keywords, strictly increasing, each indexed by its position |
| KeywordClustersProps.EntryListSpec | CharacterTagAnalyze-clusters.py:90-92 | `sorted(entry_clean_texts.keys())` holds exactly the entries, strictly increasing, each indexed by its position |
| KeywordClusters.ZeroGrid | CharacterTagAnalyze-clusters.py:94 | `np.zeros` has the given shape |
| KeywordClusters.Grid | CharacterTagAnalyze-clusters.py:94-97 | the counted matrix has the given shape |
| KeywordClusters.BuildMatrix | CharacterTagAnalyze-clusters.py:94-97 | the in-place counting loop over a fresh 2-D array leaves exactly the specification function's counts |
| KeywordClustersProps.GridCell | CharacterTagAnalyze-clusters.py:94-97 | cell (k, e) counts the contexts pairing keyword k with entry e |
| KeywordClustersProps.RowSumUpdate | CharacterTagAnalyze-clusters.py:97 | replacing one cell changes its row's sum by the difference |
| KeywordClustersProps.TotalUpdate | CharacterTagAnalyze-clusters.py:97 | replacing one row changes the total by the difference |
| KeywordClustersProps.BumpTotal | CharacterTagAnalyze-clusters.py:97 | `+= 1` raises the total by one |
| KeywordClustersProps.ZeroRow | CharacterTagAnalyze-clusters.py:94 | a zero row sums to 0 |
| KeywordClustersProps.ZeroTotal | CharacterTagAnalyze-clusters.py:94 | a zero matrix totals 0 |
| KeywordClustersProps.GridTotal | CharacterTagAnalyze-clusters.py:94-97 | the total is the number of contexts that pass the guard |
| KeywordClustersProps.GuardedAll | CharacterTagAnalyze-clusters.py:96 | contexts whose keyword and entry are indexed all pass the guard |
| KeywordClustersProps.ContextsSourced | CharacterTagAnalyze-clusters.py:72-86 | every context's source is an entry |
| KeywordClustersProps.KeywordsIndexed | CharacterTagAnalyze-clusters.py:89-91 | every context's keyword is indexed |
| KeywordClustersProps.SourcesIndexed | CharacterTagAnalyze-clusters.py:90-92 | every source that is an entry is indexed |
| KeywordClustersProps.GuardAlwaysHolds | CharacterTagAnalyze-clusters.py:96 | the guard `kw in keyword_index and entry in entry_index` never fails |
| KeywordClustersProps.MatrixTotal | CharacterTagAnalyze-clusters.py:61-97 | so the matrix counts every context exactly once |
| KeywordClustersProps.MatrixCell | CharacterTagAnalyze-clusters.py:61-97 | and its cell (k, e) is the number of contexts pairing the k-th sorted keyword with the e-th sorted entry |
| Strings.LStrip | SummarizeAllData.py:62 | the leading-white-space half of `strip()`: a suffix of the input, everything dropped is white space, and what is left does not start with white space |
| Strings.RStrip | SummarizeAllData.py:62 | the trailing half: a prefix of the input, everything dropped is white space, and what is left does not end with white space |
| Strings.LStripChar | CharacterTagAnalyze-textrank.py:64 | `lstrip('/')` keeps a suffix, drops only copies of the character and stops at the first other character |
| Strings.IndexOf | CharacterTagAnalyze-clusters.py:41 | the nearest following '）' that the lazy `.*?` stops at: absent exactly when the character does not occur, otherwise an occurrence with none before it |
| Strings.RemoveFullwidthParens | CharacterTagAnalyze-clusters.py:41 | `re.sub(r"（.*?）", "", s)` never lengthens the text (what it removes is stated in KeywordClustersProps) |
| Strings.DigitValue | SummarizeAllData.py:34 | a decimal digit, ASCII or full-width, stands for a value below ten |
| Strings.DigitChar | SummarizeAllData.py:34 | each value below ten has an ASCII digit that reads back as that value |
| Strings.NatDigits | SummarizeAllData.py:34 | `str(n)` of a natural number is a non-empty run of ASCII digits |
| Strings.DropUnderscores | SummarizeAllData.py:34 | removing the single underscores `int()` accepts between digits leaves only digits |
| Strings.DigitsNoUnderscore | SummarizeAllData.py:34 | a digit run has no doubled underscore, so `int()` does not reject it for that |
| Strings.DropUnderscoresOfDigits | SummarizeAllData.py:34 | a digit run without underscores is unchanged by their removal |
| Strings.ParseUnsignedOfDigits | SummarizeAllData.py:34 | an unsigned digit run reads as its decimal value |
| Strings.ParseSignedNeg | SummarizeAllData.py:34 | a '-' before a readable unsigned part negates its value |
| Strings.ParseSignedPlain | SummarizeAllData.py:34 | without a sign the unsigned part's value is the result |
| Strings.ParseSignedOfDigits | SummarizeAllData.py:34 | a digit run reads as its value under the signed reading |
| Strings.ParseIntOfStripped | SummarizeAllData.py:34 | on text without surrounding white space, `int()` gives what the signed reading gives |
| Strings.NegStripped | SummarizeAllData.py:34 | '-' followed by digits has no surrounding white space |
| Strings.DigitsStripped | SummarizeAllData.py:34 | a digit run has no surrounding white space |
| Sheets.Num | TouhouVote.py:5 | the numeric reading of a work cell compared with `> 5`: present exactly for integer and float cells |

## Code over stated intent

Where the scripts' stated intent and their code differ, the model follows the code.

- The cross-region ratio test (Character-MusicAnalyze.py:426-445) divides without a guard. Undefined ratios are not excluded: an infinite ratio passes the `> 0.5` test and is flagged, and a NaN ratio fails it. `CharacterMusic` therefore uses an extended-real value with explicit infinity and NaN cases.
- The tag-share denominator (data_statistic/ChracterTagStatistics.py:52-56) is the session's `total_votes` from the store. It is not the sum over the characters that carry the tag.
- The column check in GroupAnalyze_jp.py:45 runs after line 42 has read the column, so a missing column is an error rather than a warning.

## Left out

- Spreadsheet and JSON I/O (`pd.ExcelFile`, `read_excel`, `to_excel`, `ExcelWriter`, `json.load`, `json.dump`, file paths). A workbook is a sequence of named sheets of row records, and each script's result is the value it would write.
- Plotting, fonts and chart text in every script, and all of `data_statistic/CharacterTagAnalyze_BySession.py`, which only slices a ranking for a bar chart.
- `TagGetMoeWiki.py`: browser automation and HTML parsing, with no logic the other scripts depend on.
- Web fetching, retries, the MD5 cache file names and the HTML text extraction in the keyword scripts. The fetched page texts are parameters.
- The NLP and ML libraries: `jieba` tokenisation, TF-IDF, TextRank, `CountVectorizer`, `TfidfVectorizer`, LDA, `KMeans` and WordCloud. Their outputs are parameters, and the model covers the filters and selections around them. Their own errors are not modelled either. In particular, `CountVectorizer` raises "empty vocabulary" for a text without tokens (CharacterTagAnalyze-clusters.py:77-78), and `KMeans` raises for a matrix with fewer rows than clusters (line 99). KeywordClusters.Matrix always returns a matrix.
- The LDA topic listings and the clusters CSV file. They are formatting of library output.
- `StandardScaler` (Character-MusicAnalyze.py:96-101) needs square roots over floats. Standardised values are given reals.
- `spearmanr` (Character-MusicAnalyze.py:189): the coefficient and p-value are not modelled, only the guard of at least two rows that decides whether it runs.
- The pivot code at Character-MusicAnalyze.py:339-378: its result is overwritten at line 426 and reaches no output.
- Sheets.ToFloat: a text cell is read only in plain decimal notation. Texts that Python's `float()` also accepts are None in the model: exponent notation ("1e3"), digits with underscores ("1_000"), and "nan", "inf" or "infinity" in any case, which give a NaN or an infinity in the script.
- CharacterMusic.SongRow: a song row's vote share and standardized share are finite given reals. A missing song vote or a zero raw song total (Character-MusicAnalyze.py:79, 92-93) would give NaN or an infinity in the script. The model does not cover that case, nor how `np.mean` (line 149) and `fillna(0)` (lines 172-173) would pass such values on. Character shares do model it, as `Option<real>`.
- Floating point: vote shares, means and ratios are exact reals. `round(…, 2)` (CharacterAnalyze_jp.py:65, top30.py:44, GroupAnalyze_jp.py:57, difference.py:54) and percent formatting are not modelled. Non-integral float cells carry the text Python prints for them as given data.
- `astype(float)` on the work-code column (TouhouVote.py:6, GroupAnalyze_jp.py:42) is not modelled beyond the numeric reading of the cell.
- Python set iteration order (the keyword and song sets) is a parameter, so results that depend on it are stated for every order.
- Unicode: `\d` is modelled for ASCII and full-width digits only, and `\w` by an explicit table of blocks. `lower()` is modelled for the upper-case letters of ASCII, Latin-1 (U+00C0 to U+00DE except U+00D7), Greek (U+0391 to U+03A9 except U+03A2), Cyrillic (U+0400 to U+042F) and full-width Latin (U+FF21 to U+FF3A). Python covers every Unicode decimal digit, word character and cased letter.
- pandas internals beyond relational meaning: merge on key columns of different dtypes (int64 against object raises ValueError) and the index behaviour of duplicated keys are not modelled. Merges are key matching on sequences, and NaN keys match NaN keys as pandas does.
- Exceptions: where a script catches every exception around a sheet, the model's error cases are the ones the code raises on purpose or through a missing column, a zero total or an absent name. Other library exceptions (a corrupt file, a wrong cell type inside pandas) are not modelled.
- The stopword file is `Option<seq<string>>`: present with its lines, or absent. Encoding errors while reading it are not modelled.
- The co-occurrence matrix is a numpy float matrix in the source and natural-number counts in the model. Every value it holds is a count.
- Strings.RemoveFullwidthParens: its own contract states only that the text never grows. What it removes is stated by the KeywordClustersProps lemmas about it.
