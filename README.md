# FansBar statistics core, modelled in Dafny

FansBar collects follower statistics from four sites and keeps a log of them:

- CSDN (`csdn.py`)
- Juejin (`juejin.py`)
- Zhihu (`zhihu.py`)
- Toutiao (`toutiao.py`)

From those logs it builds a trend report (`data_analysis.py`) and shows the latest counts in a menu bar (`menu_bar_app.py`). The model also covers the small `config.env` reader of the command-line entry point (`get_fans.py`) and the JSON settings store (`settings.py`).

Each modelled scraper has two parts:

1. **An extraction cascade.** Stages are tried in order: a structured lookup, a label lookup, then a plain-text regular expression. An earlier result wins, with the exceptions noted below.
2. **A store step.**
   - CSDN and Juejin sanitise their counters to digits and test them with `all(int(x) > 0 ...)`. They append a row only when the sample is complete.
   - Zhihu and Toutiao append their row whatever it holds.

   Every log is append-only, and its column header is written when the file is created.

## Modules

| module | what it models |
|---|---|
| `Text`, `Lists`, `Wrappers` | Python's `str.strip`, `int()`, `str(n)`, `isdigit`, `lower`, `split`/`join` and a first-match search, as used by the scrapers |
| `Pattern` | the `re.search(...).group(1)` number patterns, computed as the leftmost greedy match |
| `CsvLog` | the log files, as `Option<seq<string>>` (absent, or the lines), and the class `LogFile` whose `Append` writes the header once |
| `Validation` | sanitising, the short-circuiting completeness test, and the shared tail "test, then append if complete" |
| `Csdn`, `Juejin`, `Zhihu`, `Toutiao` | the four scrapers, each as methods proved equal to a specification function, plus lemmas about that function |
| `Analysis` | `read_csv_data`, the pair loops and the empty-data check of `generate_html`, `calculate_change`, `get_change_class`, `format_change` |
| `Columns` | ties the column the report reads to the column each writer fills |
| `Config` | `load_config` |
| `Settings` | `load_settings`, `save_settings`, `update_setting` over a settings file |
| `MenuBar` | the display rotation and the title update of `collect_data` |

Inputs that the code gets from the outside are parameters of the model:

- the page a request or a browser returns;
- what BeautifulSoup finds in it (one value per lookup);
- the clock readings;
- whether a file can be written;
- what `strptime` makes of a timestamp.

## Behaviour worth knowing

- **CSDN stage 3: the last hit wins.** The loop over 粉丝 text nodes breaks only its inner three-level loop, so every later text node that yields a number overwrites the earlier one (`Csdn.LastHitWins`). A stage-1 value of exactly `"0"` counts as unresolved.
- **The header is written when the log file does not exist.** An existing empty file gets rows and no header.
- **Zhihu and Toutiao append every row they build.** Zhihu appends whatever it found, complete or not (`Zhihu.AppendUnconditional`); Toutiao does the same, sentinel `未找到` included (`Toutiao.RowAlwaysWritten`).
- **A config line without `=` ends the reading.** The first such line that is neither blank nor a comment stops the loop; the entries read before it are kept and later lines are ignored (`Config.MalformedStops`).
- **Toutiao's numbers precede their labels.** Its patterns take the digits before the label (`(\d+)\s*粉丝`). Only Juejin's reads pattern accepts thousands separators.

## Model

| member | source | states |
|---|---|---|
| Text.Strip | csdn.py:42-45 | the stripped text has no leading or trailing whitespace, is empty exactly when the text is all whitespace, and is the text itself when that is already trimmed |
| Text.StripTwice | zhihu.py:111-113 | stripping is idempotent, and `int()` of a stripped text equals `int()` of the text |
| Text.DigitsOnly | csdn.py:70-77 | `re.sub(r'[^\d]', '', s)` yields only digits, is no longer than s, and is empty exactly when s has no digit |
| Text.DigitsOnlyConcat | csdn.py:70-71 | removing non-digits distributes over concatenation |
| Text.DigitsOnlyIdempotent | juejin.py:106-109 | sanitising an already sanitised counter changes nothing |
| Text.FirstDigitRunPlace | csdn.py:63-65 | `re.findall(r'\d+', t)[0]` is the maximal run of digits starting at the first digit of t |
| Text.PyIntOfDigits | csdn.py:82-84 | `int()` on a string of digits raises exactly when it is empty, and otherwise gives its decimal value |
| Text.NatTextValue | zhihu.py:162-169 | the decimal text `str(n)` writes denotes n |
| Text.IntTextNoComma | zhihu.py:162-169 | an integer written as text never holds a comma, so it cannot break a row |
| Text.SplitJoin | data_analysis.py:24-31 | splitting a comma-joined row of comma-free fields gives the fields back |
| Text.JoinSplit | csdn.py:94-95 | joining the comma-split pieces of a line gives the line back |
| Text.IndexOf | get_fans.py:26 | the index found is the first occurrence of the character, and none is found exactly when it is absent |
| Lists.FirstWhere | csdn.py:50-54 | the index found satisfies the test and no earlier element does; none is found only when no element does |
| Lists.FirstWhereUnique | juejin.py:50-52 | an element that satisfies the test with none before it is the one found |
| Pattern.FirstMatch | juejin.py:72 | the position found is the leftmost at which the pattern matches |
| Pattern.Search | juejin.py:72-74 | the search fails exactly when the pattern matches nowhere; a group is a non-empty run of the group's class |
| Pattern.SearchDigits | toutiao.py:143-150 | a `(\d+)` group is a non-empty run of digits |
| Pattern.SearchIntValue | zhihu.py:123-125 | `int(m.group(1))` never raises and gives the value of the leftmost match |
| Pattern.NoLeadNoMatch | juejin.py:72-92 | a pattern whose label is absent from the text finds nothing |
| Pattern.GroupIsWholeRun | toutiao.py:143-145 | a `(\d+)\s*label` match starts at the beginning of a run of digits, never inside one |
| CsvLog.FieldsOfRow | data_analysis.py:24-31 | `csv.reader` reads a written row of at least two comma-free fields back as those fields |
| CsvLog.ExistingLinesKept | csdn.py:91-95 | appends to an existing log keep every old line in place and add the rows at the end |
| CsvLog.HeaderWrittenOnce | csdn.py:88-95 | a log created by N appends is one header line followed by the N rows |
| CsvLog.HeaderCountedOnce | toutiao.py:159-165 | the header occurs exactly once in a log that N appends create |
| CsvLog.LogFile.Append | toutiao.py:159-165 | the file gains the header only if it did not exist, then the row as its last line; old lines are kept |
| Validation.Sanitise | csdn.py:70-77 | the sanitised counter is all digits; it is empty exactly when the raw text was non-empty and digitless; an empty raw text becomes "0" |
| Validation.SanitiseNumber | csdn.py:70-71 | a counter that is already a number is unchanged |
| Validation.SanitiseSeparated | csdn.py:69-71 | thousands separators vanish: digits, separator, digits become the digits alone |
| Validation.AllPositivePasses | csdn.py:82-84 | the completeness test is true exactly when every conversion is a number above 0 |
| Validation.AllPositiveRaises | csdn.py:82-84 | the test raises exactly when some conversion fails while all before it are positive |
| Validation.AllPositiveFields | juejin.py:114-116 | both statements above, over the counters themselves |
| Validation.PositiveDigits | csdn.py:83 | on a sanitised counter `int(x) > 0` holds exactly when it has a non-zero digit |
| Validation.SanitisedRaises | csdn.py:70-84 | `int` raises on a sanitised counter exactly when the raw counter had text but no digit |
| Validation.ZeroBeforeEmptyDoesNotRaise | csdn.py:82-84 | a "0" ahead of an empty counter makes the test False without raising |
| Validation.EmptyAfterPositivesRaises | csdn.py:82-84 | an empty counter after positive ones raises |
| Validation.SettleComplete | csdn.py:82-95 | a sample is stored as complete exactly when every counter is positive and the log can be written |
| Validation.SettleAppendsOnlyComplete | csdn.py:86-95 | the log gains exactly the sample's row when it is complete, and is untouched otherwise |
| Validation.SettleFailsOnRaise | csdn.py:82-84 | a conversion that raises after positive counters ends the call with the error record |
| Csdn.ExtractCounts | csdn.py:33-67 | the three-stage cascade as run computes the cascade function |
| Csdn.NearestDigitsOf | csdn.py:59-67 | the three-level ancestor loop yields the nearby digits, or keeps the current value |
| Csdn.CascadeSection | csdn.py:34-45 | stage 1 alone decides visitors, originals and following: the first, second and fourth statistics texts when there are at least four, "0" otherwise |
| Csdn.SectionWins | csdn.py:44-48 | a follower text found by stage 1 that is not "0" is final |
| Csdn.FirstFansBlockWins | csdn.py:48-54 | otherwise the first block with 粉丝 and a statistics element decides |
| Csdn.LastHitWins | csdn.py:57-67 | stage 3 ends with the number of the last text node that yields one |
| Csdn.NoHitKeeps | csdn.py:57-67 | stage 3 without a hit keeps the follower text |
| Csdn.NearbyDigitsPlace | csdn.py:59-66 | a node's number is the first digit run of its nearest ancestor with a digit, within three levels |
| Csdn.NearbyDigitsNone | csdn.py:61-67 | a node with no digit within three ancestor levels yields nothing |
| Csdn.ExtractCsdnStats | csdn.py:24-120 | one call returns the record and leaves the log the outcome function describes |
| Csdn.CompleteIff | csdn.py:82-86 | `data_complete` holds exactly when the page was fetched, all four sanitised counters are positive and the log was written |
| Csdn.AppendOnlyWhenComplete | csdn.py:86-95 | the log gains the sample's row exactly when the record is complete, and is unchanged otherwise |
| Csdn.FetchFailureIsError | csdn.py:110-120 | a page that cannot be fetched gives the "Error" record and no row |
| Csdn.DigitlessCounterIsError | csdn.py:82-84 | a digitless counter after positive ones gives the "Error" record and no row |
| Csdn.RecordCarriesSample | csdn.py:101-109 | a non-error record carries exactly the counters the completeness test examined, the first clock reading and the site |
| Csdn.LogRowFields | csdn.py:94-95 | the row reads back as the stamp and the four counters in header order |
| Juejin.ExtractCounts | juejin.py:42-103 | the label, pattern and structured-data stages as run compute the cascade function |
| Juejin.NextToFirstLabel | juejin.py:50-52 | the label stage reads the div right after the first labelled div |
| Juejin.NoLabelUnresolved | juejin.py:43-51 | without a labelled div the counter stays "0" |
| Juejin.FallbackOnlyUnresolved | juejin.py:70-92 | the pattern stage runs only for a counter still "0", takes the leftmost match, or keeps "0" |
| Juejin.FallbackNeedsLabel | juejin.py:72-74 | a label absent from the page text leaves the counter "0" |
| Juejin.FallbackShape | juejin.py:72-92 | pattern results are digit runs, and digit-and-comma runs for reads |
| Juejin.ScriptsIgnored | juejin.py:95-103 | the `ld+json` scripts never change the counters |
| Juejin.ExtractJuejinStats | juejin.py:33-161 | one call returns the record and leaves the log the outcome function describes |
| Juejin.CompleteIff | juejin.py:114-118 | `data_complete` holds exactly when the page was fetched, all four sanitised counters are positive and the log was written |
| Juejin.AppendOnlyWhenComplete | juejin.py:118-134 | the log gains the sample's row exactly when the record is complete |
| Juejin.FetchFailureIsError | juejin.py:149-161 | missing content gives the "Error" record and no row |
| Juejin.DigitlessCounterIsError | juejin.py:106-116 | a digitless counter after positive ones gives the "Error" record |
| Juejin.RecordCarriesSample | juejin.py:140-148 | a non-error record carries exactly the counters the completeness test examined |
| Juejin.LogRowFields | juejin.py:133-134 | the row reads back as the stamp and the four counters in header order |
| Zhihu.ExtractZhihuStats | zhihu.py:21-185 | one call returns the record and leaves the log the outcome function describes |
| Zhihu.ApplyMetaTags | zhihu.py:84-98 | the meta-tag stage as run computes the meta stage function |
| Zhihu.ApplyProfileCard | zhihu.py:101-115 | the profile-card stage as run computes the card stage function |
| Zhihu.ApplyFullText | zhihu.py:118-143 | the full-text stage as run computes the full-text stage function |
| Zhihu.MetaOnlyPresent | zhihu.py:86-96 | the meta stage sets only upvotes, likes and followers, and only from a present non-empty content |
| Zhihu.MetaAborts | zhihu.py:84-98 | a content `int` rejects ends the stage: earlier counters are set, later ones are not |
| Zhihu.CardSets | zhihu.py:103-113 | collections come from the card's first `N 次收藏` and are kept when there is no card or no match; following comes from the NumberBoard value and is kept when the board is absent or `int()` rejects it; no other field changes |
| Zhihu.FullTextKeepsNonZero | zhihu.py:123-141 | the full-text stage never overwrites a non-zero counter |
| Zhihu.FullTextFills | zhihu.py:123-141 | each of the five counters that is 0 takes `int()` of the leftmost match of its own pattern in the page source |
| Zhihu.FullTextGate | zhihu.py:118 | with no zero counter the page source is not consulted |
| Zhihu.NoSourceInitial | zhihu.py:33-60 | without a page the record has five zero counters, is incomplete, and no row is written |
| Zhihu.AppendUnconditional | zhihu.py:146-173 | the row is appended whenever the log can be written, complete or not, with the returned counters |
| Zhihu.CompleteIff | zhihu.py:176-177 | `data_complete` holds exactly when all five counters are above 0 |
| Zhihu.MetaFollowersKept | zhihu.py:94-141 | a non-zero meta follower count survives the later stages |
| Zhihu.RowFieldsRead | zhihu.py:162-169 | the row reads back as the timestamp and five counters in header order |
| Zhihu.UnreadableFile | zhihu.py:204-211 | an unreadable file gives followers 0, incomplete, and no row |
| Toutiao.ParseToutiaoUserStats | toutiao.py:64-246 | one call returns the result, leaves the log, and enters the JavaScript stage and quits the browser as the outcome function describes |
| Toutiao.FieldShape | toutiao.py:143-150 | a field is `未找到` exactly when its pattern fails, and is a digit run otherwise |
| Toutiao.FieldIsWholeRun | toutiao.py:143-148 | a found field is the whole digit run before its label |
| Toutiao.RowAlwaysWritten | toutiao.py:158-165 | with a result, the log gained the row of exactly the returned fields; without one, it is unchanged |
| Toutiao.ResultWhenStored | toutiao.py:225-230 | a loaded page and a writable log always give the three fields as the result |
| Toutiao.FailureIsNone | toutiao.py:232-237 | no browser, a load failure or an unwritable log give None and no row |
| Toutiao.JsGate | toutiao.py:170-223 | the JavaScript stage runs exactly when a result has a field not found |
| Toutiao.QuitOnlyOwnBrowser | toutiao.py:238-246 | the browser is quit exactly when this call created it |
| Toutiao.RowFieldsRead | toutiao.py:165 | the row reads back as the stamp and the three fields |
| Analysis.ColumnFor | data_analysis.py:33-40 | the value column is 3, 2, 4 or 5 by the first platform named in the lower-cased path, none when none is named |
| Analysis.ReadCsvData | data_analysis.py:14-44 | the reading loop computes the read function: nothing for an absent or empty file, header skipped |
| Analysis.ReadLinesCounts | data_analysis.py:28-42 | with a value column, at least as many timestamps as values are collected, and exactly one more precisely when some non-empty row is too short for the column: its timestamp was appended before the IndexError ended the reading |
| Analysis.ReadBack | data_analysis.py:28-40 | rows long enough for the column read back as their first fields and their column |
| Analysis.ReadSkipsHeader | data_analysis.py:24-26 | a header-first log reads back as its rows alone |
| Analysis.CountValueIsInt | data_analysis.py:68 | a digit text gives the number `int` reads, anything else 0 |
| Analysis.CountValueOfText | data_analysis.py:68 | a count written as decimal text reads back as itself |
| Analysis.NormalisePairs | data_analysis.py:63-71 | the pair loop computes the pair function, skipping unparsable timestamps and missing values |
| Analysis.PairsInOrder | data_analysis.py:64-71 | the pairs are the entries of timestamps that parse and have a value, taken at strictly increasing indices, so their order is the order of the timestamps; there are no more pairs than timestamps or values |
| Analysis.PairsComplete | data_analysis.py:64-71 | when every timestamp parses and has a value, pair i is timestamp i with value i |
| Analysis.ErrorPageIff | data_analysis.py:56-60 | the error page is produced exactly when all four series are empty |
| Analysis.CalculateChange | data_analysis.py:853-865 | no change exactly when there are fewer than two values or the first is 0 |
| Analysis.ChangeSign | data_analysis.py:864 | the change is positive exactly when the last value exceeds the first, negative exactly when it is below |
| Analysis.ClassFollowsSign | data_analysis.py:877-887 | the class is "positive" exactly for a rise and "negative" exactly for a fall |
| Analysis.FormatChangeReadsBack | data_analysis.py:867-875 | "数据不足" exactly when there is no change, a trailing `%` otherwise, and a leading `+` exactly for a rise |
| Columns.CsdnFollowersColumn | data_analysis.py:33-34 | in the CSDN log the column read is the follower counter the scraper wrote |
| Columns.ToutiaoFansColumn | data_analysis.py:35-36 | in the Toutiao log the column read is the fan field the scraper wrote |
| Columns.JuejinFollowersColumn | data_analysis.py:37-38 | in the Juejin log the column read is the follower counter the scraper wrote |
| Columns.ZhihuFollowersColumn | data_analysis.py:39-40 | in the Zhihu log the column read is the follower counter the scraper wrote |
| Config.ClassifyCases | get_fans.py:24-26 | a line is skipped exactly when blank or a comment once stripped; it is malformed exactly when otherwise without `=`; a key never holds `=` |
| Config.Apply | get_fans.py:22-27 | reading never removes a key |
| Config.LoadConfig | get_fans.py:11-32 | the loop over the lines computes the read function, and both URL keys are always present |
| Config.NoFileDefaults | get_fans.py:13-21 | without a file the result is exactly the two default URLs |
| Config.SkippedLineIgnored | get_fans.py:24-25 | blank and comment lines change nothing |
| Config.SplitAtFirstEquals | get_fans.py:26-27 | a line is split at its first `=`; key and value are stripped, and the value may hold `=` |
| Config.ApplyAppend | get_fans.py:23-27 | reading in two parts equals reading at once when the first part does not stop |
| Config.LaterOverrides | get_fans.py:27 | a later entry overrides earlier ones and the defaults, and adds unknown keys |
| Config.MalformedStops | get_fans.py:26-30 | a line without `=` stops reading; entries before it are kept, lines after it ignored |
| Config.UntouchedKeyKept | get_fans.py:13-27 | a key no line assigns keeps its starting value |
| Settings.SettingsStore.LoadSettings | settings.py:22-35 | loading gives a copy of the defaults updated with the saved object, or the defaults |
| Settings.SettingsStore.SaveSettings | settings.py:37-50 | saving returns whether the file could be written, and then holds the whole dictionary |
| Settings.SettingsStore.UpdateSetting | settings.py:52-58 | updating saves the loaded settings with the one key assigned |
| Settings.NoFileDefaults | settings.py:12-17 | without a usable file the settings are exactly the defaults |
| Settings.SavedOverridesDefaults | settings.py:29-31 | saved keys override defaults, default keys absent from the file keep their default, nothing else appears |
| Settings.DefaultKeysPresent | settings.py:24 | every default key is always present |
| Settings.LoadSaveLoad | settings.py:27-31 | saving what was loaded and loading again gives the same settings |
| Settings.UpdateThenLoad | settings.py:54-58 | after an update of k to v, loading gives v for k and the old value for every other key |
| MenuBar.MenuBarApp.constructor | menu_bar_app.py:25-27 | the app starts on CSDN with both records absent |
| MenuBar.MenuBarApp.RotateStep | menu_bar_app.py:45-51 | one step of the rotation computes the rotation function and leaves the records alone |
| MenuBar.MenuBarApp.CollectData | menu_bar_app.py:54-70 | collecting stores both records and then applies the title update |
| MenuBar.RotateStepCases | menu_bar_app.py:46-51 | on CSDN with data: CSDN followers shown, turn to Toutiao; Toutiao symmetrically; otherwise unchanged |
| MenuBar.AdvancesOnlyWithData | menu_bar_app.py:46-51 | the display moves on exactly when the platform on show has data, whatever the other holds |
| MenuBar.TitleFromPresentRecord | menu_bar_app.py:46-70 | a title is only ever set from a present record |
| MenuBar.RefreshKeepsDisplay | menu_bar_app.py:66-70 | the immediate title update never changes the display, and shows what the next rotation would |
| MenuBar.AlternatesWithBoth | menu_bar_app.py:45-52 | with both records the display alternates and shows both titles in two steps |

## Left out

- **Network, browser and file I/O** are not modelled. The page a request or the browser returns is an input. So are whether the browser starts and whether a file can be written. Reads and writes of a file are single steps that either happen completely or not at all.
- **BeautifulSoup lookups** (`select`, `find`, `find_all`, `find_next`, `get_text`, `.parent`) are not computed from markup. Their results are inputs of the page datatypes.
- **The clock** is a parameter. `strptime`/`strftime` are a parameter `parse`, and the `:.2f` rendering is a parameter `fixed`.
- **The Toutiao JavaScript stage** only prints what its regular expressions find, so only whether it is entered is modelled. So are the scrolling, waiting and retry steps before the page source is read.
- **Debug snapshot files** are not modelled. They are written, never read.
- **`print` output and `traceback` output** are not modelled.
- **`monitor_platforms` and the `__main__` blocks** are not modelled. They are sleep loops and console output.
- **The menu bar's threads, timers and `rumps` UI** are not modelled. Only the state of one rotation step and one collection is.
- **`generate_analysis_page` and the HTML and echarts markup** are not modelled. `generate_html` is modelled up to the data it embeds.
- **`build.py` and `test_zhihu_parser.py`** are not part of this model. They build the application and print what the Zhihu parser returns; neither states a property of the core.
- **`\d`, `isdigit` and `int()`** are modelled on ASCII digits. Python also accepts other Unicode decimal digits. Python's limit of 4300 digits for `int()` is not modelled.
- **`csv.reader` quoting, and the `"\r\n"` terminator** that the Zhihu `csv.writer` uses, are not modelled. The lines are taken without terminators. Every modelled field is comma-free and quote-free.
- **`\s`** is modelled as the characters `str.isspace` accepts, the same set `strip` removes.
- **Settings values** are `null`, booleans, integers, strings, and an opaque form for other JSON values. A settings file that is not a JSON object is treated as unreadable. `dict.update` would accept a JSON list of pairs; that case is left out.
- **A partially written file** (an exception in the middle of a write) is not modelled.
- Settings.SettingsStore.SaveSettings: a failed save leaves the file unchanged. A failure after `open(..., 'w')` truncates the file in the source, and that case is not modelled.
- Analysis.CalculateChange: the change is exact real arithmetic; floating-point rounding is not modelled.
- Config.LoadConfig: the file is given as its lines. Python's universal-newline splitting is not modelled.
