# channel_monitor: extracting follower counts into a dated history

This project models `extract_append.py` of the channel_monitor repository.
That script reads cached profile pages of three platforms (Bilibili, Douyin,
Xiaohongshu), pulls the follower count out of each page with a platform-specific
regular expression, and stamps the count with the date and time in the file
name. It merges the count into a JSON history keyed by date and then by
platform, and finally prints a summary with a growth analysis.

The model is organised by the script's structure:

- `wrappers.dfy`: `Option` and `Result`.
- `text.dfy`: characters, ASCII digits, decimal values, zero padding, the
  first `>` after a position, `str.lower()` and `split(sep)[0]`.
- `search.dfy`: `re.search` as the first start position at which a match
  attempt succeeds (`FirstHit`).
- `patterns.dfy`, `bilibili.dfy`, `xiaohongshu.dfy`, `douyin_steps.dfy`,
  `douyin.dfy`: the three follower patterns. Each has a declarative predicate
  (`…Finds`: the pattern matches at `p` and the engine reports group 1 at
  `m`) and a deterministic matcher for one start position (`…MatchAt`). The
  two are proved equivalent in both directions.
  - Every `[^>]*…>` run ends at the first `>`, so the Bilibili and Xiaohongshu
    groups are unique.
  - The lazy `.*?` of the Douyin pattern makes the engine prefer the least
    label `<div>` and then the least number `<div>`; `DouyinPreferred` states
    that preference.
- `extractors.dfy`: the three `extract_*_followers` methods (`ExtractFollowers`)
  and the leftmost-match property of `re.search`.
- `timestamps.dfy`: `extract_timestamp_from_filename`, meaning the first
  `\d{8}_\d{6}` token, `strptime`'s validity check, `isoformat()`, and the date
  key `timestamp.split('T')[0]`.
- `ordering.dfy`: Python's string order and `sorted` over the names of the
  (POSIX) paths.
- `history.dfy`: the stored file, `load_existing_data`, the merge of one
  count (`append_data`), runs of merges and the summary with its growth rows.
- `driver.dfy`: `process_html_file`, plus the class `DataExtractor` with
  `AppendData`, `DisplaySummary` and the fail-fast batch loop
  `ProcessAllHtmlFiles`.
- `samples.dfy`: the fragments quoted in the doc strings, run through the
  model.

The output file is the field `store` of `DataExtractor`:

- `Missing`: the file does not exist;
- `Unreadable`: reading or parsing it raises;
- `Saved(h)`: the file holds the history `h`.

The cache directory is `Option<map<string, string>>`, from file name to
content, where `None` means the directory does not exist. `datetime.now()` is
a parameter: `clock(i)` is the time read while processing the `i`-th file.

Three behaviours of the code to note:

- When a page fails, `process_html_file` raises and `process_all_html_files`
  does not catch the exception. The run stops there and no summary is shown
  (`Outcome.Stopped`).
- The growth analysis compares the counts on the least and the greatest date
  of the whole history. A platform missing on either of those two dates gets
  no row, even if it was recorded on other dates.
- The timestamp is read from the lower-cased file name, the same string the
  platform is chosen from (`extract_append.py:77`, `:89`).

## Model

| member | source | states |
|---|---|---|
| BilibiliRegex.BilibiliMatchAtSound | extract_append.py:23-24 | a group the Bilibili matcher reports at a start position is a real match of the pattern there, and the group spans the `title` digits |
| BilibiliRegex.BilibiliMatchAtComplete | extract_append.py:23-24 | every match of the Bilibili pattern at a start position is the one the matcher reports, so group 1 is unique there |
| BilibiliRegex.BilibiliFindsGroup | extract_append.py:23-27 | group 1 of a Bilibili match is a non-empty run of ASCII digits, the text `int(match.group(1))` converts |
| XiaohongshuRegex.XiaohongshuMatchAtSound | extract_append.py:46-47 | a group the Xiaohongshu matcher reports is a real match of the count-then-`粉丝` pattern at that position |
| XiaohongshuRegex.XiaohongshuMatchAtComplete | extract_append.py:46-47 | every Xiaohongshu match at a position is the one the matcher reports |
| XiaohongshuRegex.XiaohongshuFindsGroup | extract_append.py:46-49 | group 1 of a Xiaohongshu match is a non-empty run of digits |
| DouyinRegex.DouyinMatchAtSound | extract_append.py:35-36 | a group the Douyin matcher reports is a match of the pattern (with `re.DOTALL`) whose label and number divs are the ones the lazy `.*?` prefers |
| DouyinRegex.DouyinMatchAtComplete | extract_append.py:35-36 | a preferred Douyin match at a position is exactly what the matcher reports |
| DouyinRegex.DouyinFirstPreferred | extract_append.py:35 | taking the first label div after the header and the first number div after it gives the least (label, number) pair of all matches, which is the lazy quantifiers' choice |
| DouyinRegex.DouyinFindsGroup | extract_append.py:35-38 | group 1 of a Douyin match is a non-empty run of digits |
| DouyinSteps.DouyinHeadUnique | extract_append.py:35 | the header `<div[^>]*data-e2e="user-info-fans"[^>]*>` can end at only one place for a given start |
| DouyinRegex.DouyinTryReported | extract_append.py:35-36 | any way the Douyin pattern matches at a position, preferred or not, makes the matcher report a group there: the lazy quantifiers choose among matches and never lose one |
| Extractors.MatchAtSound | extract_append.py:18-50 | for each platform, a reported group is a match of that platform's pattern |
| Extractors.MatchAtComplete | extract_append.py:18-50 | for each platform, every match at a position is the reported one |
| Extractors.FindsUnique | extract_append.py:18-50 | two matches at the same start report the same group |
| Extractors.FollowersAtSound | extract_append.py:18-50 | a count found at a position is the decimal value of the digits of a match there |
| Extractors.FindsMatches | extract_append.py:18-50 | a match that reports a group is a match of the pattern (`Matches`) |
| Extractors.MatchesReported | extract_append.py:18-50 | wherever the pattern matches in any way (for Douyin, with any label and number div), the matcher reports a group there |
| Extractors.MatchesMiss | extract_append.py:18-50 | where no count is found at a position, the pattern does not match there in any way |
| Extractors.ExtractFollowersSound | extract_append.py:18-50 | a count `extract_*_followers` returns is the value of group 1 of a match, and no earlier start position matches the pattern in any way |
| Extractors.ExtractFollowersNone | extract_append.py:18-50 | `None` is returned only when the pattern matches nowhere in the page, in any way |
| Extractors.ExtractFollowersLeftmost | extract_append.py:18-50 | the leftmost match decides the count, whatever follows it |
| Search.FirstHitSound | extract_append.py:24 | `re.search` reports the first start position at which a match attempt succeeds, and no earlier attempt succeeds |
| Search.FirstHitNone | extract_append.py:24 | when the search fails, every attempt fails |
| Search.FirstHitLeftmost | extract_append.py:24 | a success with no earlier success is the search result |
| Timestamps.FindTokenSound | extract_append.py:57 | the token the search reports is the first `\d{8}_\d{6}` in the name, read field by field |
| Timestamps.FindTokenFirst | extract_append.py:57 | the first token in the name is the one the search reports |
| Timestamps.FindTokenNone | extract_append.py:57 | no token is reported only when the name holds none |
| Timestamps.ExtractTimestampOfToken | extract_append.py:57-63 | with a first token, the result is its ISO form when the date and time are real, and otherwise the `strptime` error |
| Timestamps.ExtractTimestampNoToken | extract_append.py:64 | with no token, the result is `now` in ISO form |
| Timestamps.IsoFormatOfToken | extract_append.py:59-63 | the ISO timestamp of a token is its digits regrouped as `YYYY-MM-DDTHH:MM:SS` |
| Timestamps.DateKeyOfIso | extract_append.py:133 | the date key of an ISO timestamp is its date part |
| Timestamps.DateKeyOfToken | extract_append.py:133 | the date key of a token's timestamp is its first eight digits as `YYYY-MM-DD` |
| Timestamps.IsoDateRoundTrip | extract_append.py:63 | the date part of `isoformat()` reads back as the year, month and day |
| Timestamps.LowerKeepsTokens | extract_append.py:77-89 | lower-casing the name does not change the token found, so the lower-cased name gives the same timestamp |
| Timestamps.DaysInMonth | extract_append.py:62 | `strptime` accepts between 28 and 31 days in a month (the Gregorian rule) |
| Text.Lower | extract_append.py:77 | the model's ASCII lower-casing keeps the length and maps `A`-`Z` to `a`-`z` one character at a time, leaving every other character alone |
| Text.BeforeFirst | extract_append.py:133 | `split('T')[0]` is a prefix without `T`, cut at the first `T` |
| Ordering.StrLtTotal | extract_append.py:198 | Python's string order compares any two distinct names |
| Ordering.StrLtTransitive | extract_append.py:198 | Python's string order is transitive |
| Ordering.SortedUnique | extract_append.py:167 | two strictly sorted listings of the same names are equal, so `sorted` has one answer |
| Ordering.SortedLength | extract_append.py:198 | the sorted listing of a set has one entry per member (`len(sorted_dates)`) |
| Ordering.SortedNames | extract_append.py:167 | the method sorting a set of names returns its sorted listing |
| History.LoadSaved | extract_append.py:104-107 | a file holding a history loads as that history; that `json.dump` then `json.load` gives back the same history is built into the `Stored` abstraction, not proved |
| History.LoadRecovers | extract_append.py:108-111 | a missing or unreadable file loads as the empty history |
| History.Merge | extract_append.py:136-142 | after recording a count, its date is in the history with the platform added, and the pair holds the new count |
| History.MergeOthers | extract_append.py:136-142 | every other (date, platform) pair keeps its count or its absence |
| History.MergeIntoEmpty | extract_append.py:136-142 | recording into an empty history gives `{date: {platform: count}}` |
| History.MergeLastWins | extract_append.py:139-142 | a second count for the same pair overwrites the first and leaves no trace of it |
| History.MergeIdempotent | extract_append.py:142 | recording the same count twice equals recording it once |
| History.MergeAllLookup | extract_append.py:126-146 | after a run of records, each pair holds the count of its last record, or its old count when no record names it |
| History.MergeAllDates | extract_append.py:136-137 | after a run of records, the dates are the old ones plus those of the records |
| History.GrowthRowsComplete | extract_append.py:217-222 | every growth row is for a listed platform counted on both dates, with the two counts, their difference, and a percentage only when the first count is positive; every such platform has a row |
| History.GrowthRowsStep | extract_append.py:217-222 | the rows for one more platform are the earlier rows, plus that platform's row when it is counted on both dates |
| History.SummarizeReport | extract_append.py:189-216 | a non-empty history is summarised with its dates sorted, each listed once, from the least to the greatest; one date gives no growth rows |
| Driver.PlatformOfFirst | extract_append.py:77-86 | the chosen platform's name occurs in the lower-cased file name and no name tested before it does; no platform is chosen only when no name occurs |
| Driver.ProcessHtmlFileOk | extract_append.py:66-95 | a file yields an entry exactly when its name names a platform, the platform's pattern matches the page and the timestamp is readable; the entry carries the three values and the file name |
| Driver.ProcessHtmlFileRaises | extract_append.py:88-98 | with no platform in the name, or no match in the page, the file raises "could not extract data" |
| Driver.EntryTimestamp | extract_append.py:89-93 | an entry's timestamp is the timestamp of the lower-cased file name |
| Driver.EntryDateKey | extract_append.py:133 | the date key of an entry from a name whose first token is at `p` is that token's date as `YYYY-MM-DD` |
| Driver.StoreAfterLoads | extract_append.py:126-146 | after a run of appends, the file loads as the records merged into what it loaded as before |
| Driver.StoreAfterStep | extract_append.py:126-146 | each append loads the file, merges one record and writes the result |
| Driver.RecordsStep | extract_append.py:167-172 | one more successful file adds its record at the end of the run |
| Driver.RecordsMerged | extract_append.py:167-172 | after `k` successful files, each pair holds the count of the last of them that names it, or its old count |
| Driver.HtmlNames | extract_append.py:156 | the files the batch sees are files of the cache directory |
| Driver.HtmlNamesExact | extract_append.py:156 | a name is listed exactly when it is a file of the cache directory whose last five characters are `.html` |
| Driver.GrowthAnalysis | extract_append.py:217-223 | the loop over `douyin`, `bilibili`, `xiaohongshu` produces exactly the growth rows of the first and last dates |
| Driver.DataExtractor.AppendData | extract_append.py:120-146 | reports whether the pair already had a count, and leaves the file holding the loaded history with the record merged in |
| Driver.DataExtractor.DisplaySummary | extract_append.py:183-223 | the summary is that of the history the file loads as |
| Driver.DataExtractor.ProcessAllHtmlFiles | extract_append.py:148-181 | returns early, leaving the file alone, when there is no directory or no `.html` file; otherwise it processes the names in sorted order and stops at the first failure, with the records of all earlier files merged in; when every file succeeds, processed equals total and the summary is shown |
| Samples.BilibiliLeading | extract_append.py:21-27 | a page that opens with the Bilibili fans block reports the `title` number, whatever the tag text says |
| Samples.DouyinLeading | extract_append.py:33-38 | a page that opens with the Douyin fans block reports the number in its number div |
| Samples.XiaohongshuLeading | extract_append.py:44-49 | a page that opens with the Xiaohongshu count span reports that count |
| Samples.BilibiliSampleCount | extract_append.py:21 | the Bilibili doc-string fragment yields 532 |
| Samples.DouyinSampleCount | extract_append.py:33 | the Douyin doc-string fragment yields 5439 |
| Samples.XiaohongshuSampleCount | extract_append.py:44 | the Xiaohongshu doc-string fragment yields 1865 |
| Samples.NameTimestamp | extract_append.py:57-63 | a name with a digit-free prefix and a `YYYYMMDD_HHMMSS` token gets that token's date and time, or the error when they are not real |
| Samples.SampleNameTimestamp | extract_append.py:54-63 | `bilibili_20251112_154753.html` gives `2025-11-12T15:47:53` and the date key `2025-11-12` |
| Samples.IsoSample | extract_append.py:63 | 2025-11-12 15:47:53 in ISO form is `2025-11-12T15:47:53` |
| Samples.SampleNamePlatform | extract_append.py:77-79 | the sample file name is a Bilibili file |
| Samples.SampleEntry | extract_append.py:66-95 | the sample name with the Bilibili fragment gives the entry (bilibili, 532, `2025-11-12T15:47:53`, the name) |

## Left out

- File I/O: reading pages with UTF-8, `Path.exists`, and the directory listing. A page is its decoded text, and the cache directory is a map from names to contents.
- `Path.glob('*.html')` is modelled as "the name ends with `.html`" (`HtmlNames`). This includes names that start with a dot, such as `.x.html`, which `Path.glob` also lists. Sub-directories whose names end in `.html` are not modelled: the directory holds only files.
- Paths follow POSIX rules. On Windows, `Path.glob('*.html')` (`extract_append.py:156`) also lists names ending in `.HTML`, and `sorted()` (`extract_append.py:167`) orders `WindowsPath`s by their lower-cased text. The processing order, and so which of two files for the same date and platform wins, may then differ from the model's `HtmlNames` and `SortedNames`.
- JSON syntax: `json.load` and `json.dump` are not modelled. A file that fails to parse is `Unreadable`. A file holding valid JSON other than an object of objects of integers is not modelled.
- `datetime.now()` is a parameter (`clock`), so the model has no clock.
- `\d` is ASCII-only in the model. Python 3 `\d` also matches other Unicode decimal digits, so non-ASCII digits in a page or a file name are not modelled.
- Text.Lower: only `A`-`Z` are lower-cased. Python's `lower()` also maps other cased letters, can give more than one character (`'İ'.lower()` is `i` followed by U+0307), and lower-cases `Σ` according to its context. For example, `BILIBILİ_20251112_154753.html` lower-cases in Python to a name containing `bilibili`, so it is a Bilibili file (`extract_append.py:77-78`). The model leaves `İ` alone, finds no platform, and reports `NotExtracted`.
- Extractors.FollowersAt: `int(match.group(1))` on more than 4300 digits raises `ValueError` in CPython 3.11 and later (and in the 3.7.14+ security releases), and the exception escapes `process_all_html_files`. The model's `NumberIn` returns the value for any length.
- The `print` output is left out: the progress lines, the warnings, and the per-date listing of counts (`extract_append.py:203-209`). The summary value holds what is printed, but not its formatting.
- The growth percentage is a floating-point division (`extract_append.py:222`). The model records only whether a percentage is computed (`hasPercent`, true when the first count is positive), not its value.
- `if entry:` (`extract_append.py:170`) is always true: `process_html_file` either returns a non-empty dictionary or raises. The model therefore has no "skipped" branch, and `processed` always equals the number of files handled.
- `main` and the command-line entry point are not modelled.
- Samples.BilibiliSample, Samples.DouyinSample, Samples.XiaohongshuSample: each fragment is written as pieces (`Concat`). Equality with the literal doc-string text (`extract_append.py:21`, `:33`, `:44`) is not proved.
- History.Merge: the model does not state that merges of different pairs commute.
- History.GrowthRows: the function states only a bound on the number of rows. What each row holds, and that no platform is missing, is proved separately in `GrowthRowsComplete`.
