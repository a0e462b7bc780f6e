# Tracktive competitor tracker: change detection and classification, in Dafny

This project models the engine of the Tracktive AI competitor tracker (`app.py`).
On each scan it fetches a competitor's website and normalises the page text.
It stores a content snapshot, then classifies the change against the previous
snapshot. The classifier asks a local language model through `ollama`, parses
the model's `KEY: value` reply, and falls back to a word-set heuristic when
the model fails. Each change record is stored with a score and a category.
The change records later feed a weekly news digest and the PDF report text.

Modules, one per component of `app.py`:

- `Text`: the Python `str` operations the code relies on. These are
  `isspace`, `strip`, `split(sep)`, argument-less `split()`, `join`, ASCII
  `lower()`, `int()`, `str(int)` and slicing.
- `Records`: the values passed between components. They are the
  classification result, the stored change record, the digest news item and
  the prompts sent to the model.
- `Response`: `_clean_ollama_response` and `_parse_enhanced_response`.
- `Classifier`: `analyze_content_changes` and `_fallback_news_analysis`.
- `Ranking`: the digest's activity counter and its stable descending sort.
- `Digest`: `generate_weekly_summary` and `_fallback_news_summary`.
- `Report`: `PDFGenerator.format_ai_summary`.
- `Scraper`: the text normaliser of `scrape_website` and the page record it
  returns.
- `Tracker`: `analyze_changes_with_ai` and the `scan_all` loop.
  - The store is a class with one `seq` field per table.
  - Its methods are proved against functions on a value copy of the tables
    (`AnalyzeStep`, `ScanAllFrom`).
  - The lemmas are stated over that value copy.

Several things the program gets from outside become function parameters:

- The language model becomes a parameter `Model = Prompt -> Option<string>`.
  `None` means the `ollama` call raised (non-zero exit, timeout, binary
  missing); `Some(stdout)` is the model's raw output. As in `_call_ollama`,
  that output is cleaned before anyone reads it.
- The HTTP fetch with HTML text extraction becomes a parameter
  `Fetcher = string -> FetchOutcome`. A fetch gives the lines of the page text,
  the raw changelog extract and the fetch time, or an error message.
- The MD5 hash becomes a parameter `string -> string`.

Where the loops of the source build lists, strings or dictionaries, the model
has methods with loops. Each such method is proved equal to a specification
function, and the properties are proved about those functions.

## Model

| member | source | states |
|---|---|---|
| Text.Strip | app.py:693-697 | `str.strip()` with Python's whitespace set: the result is trimmed, a trimmed string is left alone, and the result is empty exactly when the input is all whitespace |
| Text.StripCutsEnds | app.py:693-697 | `strip()` removes exactly the whitespace at both ends: the result is a slice of the input with nothing but whitespace before and after it |
| Text.TokensOfStrip | app.py:777-778 | `s.strip().split() == s.split()`: stripping loses no word |
| Text.JoinSplitOn | app.py:693 | joining the pieces of `s.split(c)` with `c` gives `s` back |
| Text.SplitOnJoin | app.py:706 | splitting a join on a separator that no part contains gives the parts back |
| Text.TokensOfJoin | app.py:504-505 | argument-less `split()` of words joined by single spaces gives the words back |
| Text.TokensOfBlankJoin | app.py:778-779 | joining parts with a whitespace separator neither merges nor splits words: the words of the join are the words of the parts, in order |
| Text.LowerIdempotent | app.py:504-505 | lower-casing twice is lower-casing once |
| Text.ParseIntOfIntToString | app.py:719-722 | `int()` reads back any integer that `str()` wrote |
| Response.CleanOllamaResponse | app.py:691-701 | the cleaning loop returns exactly the specification `Clean`: the stripped lines of the stripped reply that are non-blank and do not start with `>>>` or `...`, joined by newlines |
| Response.CleanLines | app.py:697-699 | every kept line is stripped, non-empty and not an echo, there are no more kept lines than input lines, and kept lines have no newline if the input lines have none |
| Response.CleanLinesAppend | app.py:697-699 | each line is kept or dropped on its own: cleaning a concatenation is the concatenation of the cleanings, so kept lines keep their order |
| Response.CleanIdempotent | app.py:691-701 | cleaning a cleaned reply changes nothing |
| Response.ParseEnhancedResponse | app.py:703-730 | the parsing loop returns `ParseLines` of the reply's lines: every field takes the value of the last line that starts with its key, or its default |
| Response.ParseLinesAppend | app.py:715-728 | one more line overwrites exactly the field whose key it starts with; a malformed `IMPORTANCE:` value gives 5; any other line leaves the result unchanged |
| Response.ParseDefaults | app.py:706-713 | a field whose key appears on no line keeps its default (`content_update`, 5, the default texts), and the source link is always the website |
| Response.LastValueAbsent | app.py:715-728 | a key has no value exactly when no line starts with it |
| Response.ParseOfProtocolLines | app.py:715-728 | the five `KEY: value` lines the prompt asks for parse back to the result they were written from |
| Response.ParseOfProtocolReply | app.py:319-325 | a reply written in the protocol survives cleaning and parsing unchanged, its score included, with no clamping |
| Classifier.Words | app.py:504-505 | the word set of a text holds only non-empty words without whitespace |
| Classifier.FirstScan | app.py:291-299 | with no baseline the result is `first_scan` with score 3 and the website as source |
| Classifier.FallbackNewsAnalysis | app.py:502-545 | the score is one of 3, 5, 7, 8 and fixes the category one-to-one. It is 8 exactly when an added word is a business keyword. It is at least 7 exactly when that holds or more than 50 words were added or removed. It is at least 5 exactly when one of those holds or more than 10 words were added or removed. Comparisons are strict, so exactly 10 or 50 falls to the lower tier |
| Classifier.MajorChange | app.py:519-527 | the major tier is `major_announcement`/8 on a keyword hit and `major_update`/7 otherwise |
| Classifier.FallbackIgnoresCase | app.py:504-505 | the fallback does not depend on letter case |
| Classifier.ChangePromptFor | app.py:302-310 | the prompt names the competitor and its website, and carries each text's first min(800, length) characters, as `old_content[:800]` and `new_content[:800]` do |
| Classifier.AnalyzeContentChanges | app.py:289-327 | the method returns `Analysis`. An empty text on either side gives a first scan. Otherwise the parsed, cleaned model reply is returned, or the fallback when the model call fails |
| Classifier.AnalysisShape | app.py:291-299 | every path names the website as source, and an empty text on either side gives the first scan whatever the model says |
| Classifier.AnalysisWithoutModel | app.py:319-327 | when the model fails, the score is one of 3, 5, 7, 8 |
| Classifier.AnalysisTakesProtocolReply | app.py:319-325 | a protocol reply from the model is stored as written, with no clamping of the score |
| Ranking.FirstAppearances | app.py:645-647 | the dictionary's keys are exactly the names counted, each once |
| Ranking.FirstAppearancesInOrder | app.py:645-647 | the keys are in order of first appearance: an earlier key occurs among the names before the first occurrence of any later key, which is the order the stable sort breaks ties by |
| Ranking.ActivityTotal | app.py:645-647 | the per-competitor counts add up to the number of news items |
| Ranking.ActivityEntries | app.py:645-647 | each entry counts its competitor's items and is at least 1, every competitor with an item has an entry, and no competitor has two |
| Ranking.InsertByCount | app.py:649 | one insertion step of the sort is a permutation and keeps the order non-increasing |
| Ranking.RankByCount | app.py:649 | the sorted counter is a permutation of the counter, by non-increasing count |
| Ranking.RankByCountStable | app.py:649 | the sort is stable: entries with equal counts keep their order |
| Ranking.TopActiveAreMostActive | app.py:649-651 | at most three competitors are listed, by non-increasing count, and none left out has more items than one listed |
| Digest.TypeLabel | app.py:565 | the type label has the change type's length and no underscore |
| Digest.TypeLabelChars | app.py:565 | in the label each underscore becomes a space, a letter that starts a word becomes a capital of the same letter, a letter inside a word becomes lower case, and any other character is kept |
| Digest.NewsItemOf | app.py:560-567 | a news item keeps the competitor, title, excerpt and score, shows the type's label, and its date is the first min(10, length) characters of the detection time |
| Digest.SelectNews | app.py:553-572 | the selection loop returns the news items of the first fifteen changes, the priority items among them and the set of competitors |
| Digest.NewsItemsAreRecent | app.py:557 | there are min(15, number of changes) items, the i-th made from the i-th change |
| Digest.PriorityExactly | app.py:571-572 | an item is a priority item exactly when its score is at least 7; there are no more priority items than items |
| Digest.CountActivity | app.py:645-647 | the counter loop yields the counter's entries in key-insertion order |
| Digest.ActivityPerCompetitor | app.py:635 | the counter has one entry per distinct competitor, the number the summary reports |
| Digest.DigestOfFacts | app.py:621-663 | the fallback lists at most three top stories, the first priority items. It lists min(3, competitors) active competitors by non-increasing count, none left out more active than one listed. The counts add up to the number of items |
| Digest.FallbackNewsSummary | app.py:621-663 | the concatenation builds exactly `FallbackSummary`, section by section, with the thresholds 3, 0 and 2 on the number of priority items |
| Digest.GenerateWeeklySummary | app.py:547-619 | the method returns `WeeklySummary`. No changes give the fixed text. Otherwise the cleaned model digest is returned, or the fallback newsletter when the model fails |
| Digest.NoChangesNoNews | app.py:549-550 | an empty change list gives "No significant competitor news or updates detected this week." whatever the model |
| Digest.ModelDigestIsClean | app.py:614-616 | a digest written by the model is empty or made of trimmed, non-blank, non-echo lines |
| Report.FormatLine | app.py:255-260 | a heading is wrapped in bold, a bullet is indented, any other line is kept as is |
| Report.FormatSummary | app.py:247-262 | the formatting loop returns the specification `FormatAiSummary`: the stripped non-blank lines, marked up, joined by `<br/>` |
| Report.EntriesOfNonBlankLines | app.py:251-260 | there is one entry per non-blank line, in order, each the markup of its line |
| Report.BlankLinesVanish | app.py:253-254 | blank lines add no entry |
| Scraper.SplitDoubleSpace | app.py:778 | `split("  ")` yields at least one piece and no piece holds a double space |
| Scraper.JoinSplitDoubleSpace | app.py:778 | joining the pieces with a double space gives the text back |
| Scraper.Chunks | app.py:777-779 | every chunk is non-empty, trimmed and free of double spaces |
| Scraper.NormalizeShape | app.py:777-779 | the clean text has no leading or trailing whitespace and no two consecutive spaces |
| Scraper.NormalizeIdempotent | app.py:777-779 | normalising the clean text again changes nothing |
| Scraper.NormalizeKeepsWords | app.py:777-779 | the normaliser changes only whitespace: the words of the clean text are the words of the page's lines, in order |
| Scraper.PageOf | app.py:784-790 | the stored content is the first min(5000, length) characters of the clean text, the hash is taken over the whole clean text, and the changelog keeps its first min(2000, length) characters |
| Tracker.Scrape | app.py:759-798 | a successful fetch gives the page record of its normalised text, with the hash of that text and the fetch time; a failed fetch gives its error message and time |
| Tracker.FindCompetitor | app.py:830-835 | the lookup finds a competitor with the id, or reports that there is none |
| Tracker.MarkChecked | app.py:903-905 | every row with the id gets the scan time as `last_checked`, and the other rows are unchanged |
| Tracker.ScanError | app.py:859-867 | empty content gives the `error` record with score 1 |
| Tracker.Store.AnalyzeChangesWithAi | app.py:824-910 | the method leaves exactly the store and result of `AnalyzeStep` |
| Tracker.AnalyzeStepWrites | app.py:830-910 | an unknown id, or a scrape without a hash, writes nothing. Otherwise one snapshot and one change record are appended, the new snapshot is the competitor's latest content, and only that competitor's `last_checked` changes |
| Tracker.LatestContentWithoutHistory | app.py:838-846 | a competitor without snapshots has the empty text as previous content |
| Tracker.EmptyContentIsScanError | app.py:854-867 | empty content gives `error`/1 and does not consult the model |
| Tracker.FirstScanWithoutHistory | app.py:838-856 | content for a competitor without snapshots is classified `first_scan`/3 |
| Tracker.SecondScanComparesWithFirst | app.py:838-856 | the snapshot is stored before the next classification reads it. A second scan compares with the first scan's content, and a scan after one that found no content is a first scan again |
| Tracker.ScanStepResult | app.py:1414-1428 | one turn names its competitor and fails exactly when the fetch failed, reporting a non-empty fetch error as it is and an empty one as the missing-hash error; a success carries a change record |
| Tracker.ScanStepStore | app.py:1414-1428 | one turn keeps the roster, and the store gains exactly the record the turn reports, with one snapshot, losing nothing stored before |
| Tracker.ScanAllStore | app.py:1414-1428 | the scan keeps the roster. The change table gains exactly the reported records, the snapshot table one snapshot per record, and nothing stored before is lost |
| Tracker.ScanAllResults | app.py:1414-1428 | there is exactly one result per competitor, in order, and each fails exactly when its own fetch failed, so one failure does not stop the rest |
| Tracker.ScanAllOverStore | app.py:1414-1428 | the same, for the store's own competitor list |
| Tracker.Store.ScanAll | app.py:1409-1432 | the loop leaves exactly the results and store of `ScanAllFrom` over the competitor list read at the start |

Two behaviours of the code are kept as written:

- `_parse_enhanced_response` neither clamps the score to 1..10 nor maps
  unknown categories to a default, and the model keeps it that way
  (`Classifier.AnalysisTakesProtocolReply`).
- A fetch error with an EMPTY message is not caught by
  `current_data.get('error')`. `analyze_changes_with_ai` then raises `KeyError`
  on the missing hash before anything is committed, and `scan_all` reports
  that error (`Tracker.ScanStepResult`).

## Left out

- Flask routes, Slack posting, PDF layout with ReportLab, the scheduler
  thread, SQLite schema migration and row-positional reads: I/O and
  persistence glue. `static/script.js` is browser UI and is not part of this
  model.
- The HTTP fetch, BeautifulSoup tag removal and text extraction: a `Fetcher`
  parameter gives the lines of the page text. `str.splitlines` is part of
  that parameter.
- `_extract_changelog_content`'s section search and regular expressions are
  foreign library behaviour; only its 2000-character cap is modelled.
- The MD5 hash is a function parameter.
- The `ollama` subprocess, its 60-second timeout and `kill` are process I/O.
  They are the `Model` parameter, treated as deterministic for a given prompt.
- The prompt prose is fixed text. A `Prompt` carries only the values placed
  into it: the 800-character heads, the news items and their counts.
- The generic `except` of `_parse_enhanced_response` is left out. Nothing in
  its body can raise on a string, so that path is unreachable.
- Digest.NewsItemOf: the `.get` defaults for title, excerpt, score and type
  are not modelled, because the stored change records always carry those keys.
- Text.Lower: `lower()` is modelled on ASCII letters only, because Unicode
  case mapping is out of scope.
- Digest.TitleCase: `title()` is modelled on ASCII letters only, and other
  cased letters count as word boundaries. This affects only the prompt text.
- Text.ParseInt: `int()` accepts ASCII digits only, not other Unicode decimal
  digits.
- Tracker.LatestContent: `ORDER BY scraped_at DESC LIMIT 1` is modelled as
  the last snapshot appended. This is the same whenever scan times increase,
  and they come from the clock.
- Tracker.Store.ScanAll: the competitors are scanned in the store's order.
  The `ORDER BY name` of `get_competitors` is left to whoever fills the
  store.
- SQLite errors and other exceptions of the database layer are not modelled.
  The only exception modelled is the missing-hash `KeyError`, which leaves
  nothing committed.
- `generate_competitive_insights`, `_fallback_competitive_insights_with_industry`
  and the industry context texts are fixed prose around a count and are not
  part of this model.
