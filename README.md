# Watchtower, modelled in Dafny

Watchtower is a terminal dashboard. It collects world and local news from RSS
feeds, crypto prices, stock indices, commodities, prediction markets and the
weather, and asks a chat-completion service for an "intelligence brief". This
project models the parts of it that are sequential once the network,
goroutines, floating point and rendering are set aside, and proves what those
parts promise.

The modules follow the repository's packages:

- `Dashboard` (ui/model.go). The dashboard's `Update` is a class `Model` with
  the model's fields. Its three viewports are an `array`, and its cache is a
  `Cache.Disk` object. Each case of `Update` is a method, proved equal to a
  pure transition function `Next`. The key table, selection clamping, paging,
  the scroll-into-view rule, per-source result bookkeeping and brief-request
  gating are lemmas about `Next`. The brief-cache gating of `fetchBrief` and
  `loadCachedBrief` is also proved there.
- `UiText` (ui/model.go). This holds `minInt`, `maxInt`, `truncate` and
  `wordWrap`. `wordWrap`'s loop is proved against a fold over the words, and
  the fold is proved to keep the words and to respect the width.
- `Setup` (ui/setup.go). The first-run wizard is a class `SetupWizard` whose
  `Update` is proved equal to a step machine `Next`, with its guards as lemmas.
- `Feeds` (feeds/feeds.go). This holds `ThreatLevel.String` and the tiered
  first-match keyword classifier. It also holds the tail of `fetchFeeds`, with
  its per-feed entry filter, the in-place severity sort and the de-duplication
  loop.
- `Intel` (intel/intel.go). This holds the line-oriented section parser for
  the brief reply, the threat and risk-row parsers, `clamp`, the local-summary
  parser, and `GenerateBrief`'s early returns and error paths.
- `Cache` (intel/cache.go). The one-file brief cache is a class `Disk` over a
  map from paths to file contents, with the operating-system faults as an
  input.
- `Markets` (markets/markets.go). This holds `commaSeparate`, the fan-in of
  the per-symbol result slots, and the prediction-market record transform.
- `Weather` (weather/weather.go). This holds the compass sectors, the WMO code
  table, and the daily forecast loop over the decoded arrays.
- `Strings` and `Wrappers`. These are the Go library functions the core calls
  (`strings.TrimSpace`, `Split`, `SplitN`, `Fields`, `ToLower`, `strconv.Atoi`
  and `Itoa`), with their own lemmas, plus the `Option` and `Result` types.

Strings are sequences of characters, and times are integer seconds.

## Model

| member | source | states |
|---|---|---|
| UiText.MinInt | ui/model.go:1409-1414 | the result is the smaller argument |
| UiText.MaxInt | ui/model.go:1416-1421 | the result is the larger argument |
| UiText.Truncate | ui/model.go:1423-1428 | a string that fits comes back unchanged; a longer one becomes its first n-1 characters and "…", n characters in all; it is defined exactly where the Go slice does not panic |
| UiText.WordWrap | ui/model.go:1371-1392 | the loop computes the word fold `WrapText` |
| UiText.WrapTextKeepsWords | ui/model.go:1371-1392 | a width of 0 or less returns the input; otherwise the output's words are the input's words, in order |
| UiText.WrappedKeepsWords | ui/model.go:1375-1391 | joining the wrapped lines with newlines keeps the words, with or without the eager flush |
| UiText.WrapTextFits | ui/model.go:1371-1392 | when every word is shorter than the width, every output line fits the width |
| UiText.LongFirstWordGivesBlankLine | ui/model.go:1379-1382 | as written, for any text whose first word is at least as long as the width, the wrapped text starts with a newline |
| UiText.LongWordAloneGivesBlankLine | ui/model.go:1379-1382 | the one-word instance: a single word at least as long as the width wraps to a newline followed by the word |
| UiText.IntendedWrap | ui/model.go:1379-1382 | the corrected wrap keeps the words and emits no empty line |
| UiText.IntendedWrapFits | ui/model.go:1379-1382 | the corrected wrap fits every line when no word is longer than the width |
| Dashboard.ScrolledIntoView | ui/model.go:1202-1230 | scrollNewsIntoView's new viewport: only the offset moves, and article 0 gives offset 0; ScrollRules states each branch |
| Dashboard.ScrollRules | ui/model.go:1202-1230 | item 0 gives offset 0; a height of 0 or less changes nothing; a visible item leaves the offset alone; an item above moves the offset to the item's first line, one below to its last line minus height plus one |
| Dashboard.ScrolledIsVisible | ui/model.go:1202-1230 | after scrolling, all three lines of an article other than the first are inside the window |
| Dashboard.ScrollNewsIntoView | ui/model.go:1202-1230 | through the array element, only the tab's viewport changes, to the scrolled one |
| Dashboard.ActionOf | ui/model.go:171-362 | the action of each key string of Update's key switch, with every other key ignored; a tab digit names a tab in range |
| Dashboard.ControlKeys | ui/model.go:173-199 | q/ctrl+c quit, tab/right/l and shift+tab/left/h switch tabs, 1-3 pick a tab, r refreshes, b and B ask for a brief, each in both directions |
| Dashboard.NavigationKeys | ui/model.go:200-259 | j/down, k/up and enter, in both directions |
| Dashboard.PagingKeys | ui/model.go:260-361 | d, u, G and g, in both directions |
| Dashboard.InitialIsValid | ui/model.go:110-128 | the initial state is valid: overview tab, three viewports, selections at 0 |
| Dashboard.NextKeepsValid | ui/model.go:157-505 | every message keeps the tab in [0,3), three viewports and non-negative selections |
| Dashboard.ActKeepsValid | ui/model.go:171-362 | every key keeps the state valid |
| Dashboard.NavKeepsValid | ui/model.go:200-361 | the selection and scrolling keys keep the state valid |
| Dashboard.ControlKeepsValid | ui/model.go:173-259 | the other keys keep the state valid |
| Dashboard.ResultKeepsValid | ui/model.go:380-492 | every result message keeps the state valid |
| Dashboard.TabKeys | ui/model.go:175-184 | next tab is (t+1) mod 3, previous is (t+2) mod 3, a digit sets its tab, nothing else changes |
| Dashboard.NewsSelectionKeys | ui/model.go:200-350 | on the News tab with n articles: j/k move by one and d/u by ten, clamped to [0, n-1]; G selects n-1; g selects 0 and goes to the top; j, k, d, u, G and g each ask for one redraw |
| Dashboard.NewsSelectionInRange | ui/model.go:200-361 | a selection inside the News list stays inside it under every key |
| Dashboard.SelectionScrolls | ui/model.go:200-218 | selecting an article scrolls only its own tab's viewport and leaves the other tab's selection alone |
| Dashboard.LocalTabScrolls | ui/model.go:200-361 | on the Local tab, j/k only scroll one line and g only goes to the top |
| Dashboard.LocalSelectionKeys | ui/model.go:260-343 | only d, u and G on the Local tab move the Local selection, and they keep it inside a non-empty list |
| Dashboard.QuitAndRefresh | ui/model.go:173-187 | q quits with the state unchanged; r and the tick only zero the refresh time and issue the fetches, leaving `loading` alone |
| Dashboard.BriefKeys | ui/model.go:188-199 | b and B mark the brief as loading and request it (B forcing a refresh) only with an API key; without one nothing happens |
| Dashboard.EnterOpens | ui/model.go:238-259 | on the News tab and on the Local tab alike, enter on a selected article opens its URL with an "Opening: " status, or reports a missing URL, the status expiring 3 seconds later and nothing else changing; with no selected article on either tab the state is unchanged and no command is issued |
| Dashboard.SettleFacts | ui/model.go:380-467 | a result's source stops loading; an error is recorded and the data kept; a success stores the payload and clears the error; other error entries are untouched |
| Dashboard.ResultBookkeeping | ui/model.go:380-492 | every result clears its own `loading` entry and changes no other entry of `loading` but "brief", nor any other entry of `errors`; the error and success cases as in SettleFacts |
| Dashboard.FollowUpBookkeeping | ui/model.go:380-492 | what a result does after the shared bookkeeping leaves data and errors alone and may only set `loading["brief"]` |
| Dashboard.StoredPayloads | ui/model.go:380-492 | each successful result stores exactly its own payload in its own slot |
| Dashboard.BriefLoadingUntouched | ui/model.go:380-467 | a result other than the brief, and news that does not ask for the first brief, removes only its own `loading` entry |
| Dashboard.FirstNewsAsksForBrief | ui/model.go:387-390 | successful news with an API key and no brief sets `loading["brief"]` and issues one brief request for those headlines; otherwise it issues nothing |
| Dashboard.FailedNewsAsksNothing | ui/model.go:380-384 | failed news issues no command |
| Dashboard.BriefArrives | ui/model.go:469-485 | a successful brief is stored, its error and loading entries cleared, the refresh time set, the status set to expire after 4 seconds, and it is saved exactly when it did not come from the cache |
| Dashboard.BriefFails | ui/model.go:469-473 | a failed brief records the error, keeps the old brief and the refresh time, and saves nothing |
| Dashboard.StatusExpiry | ui/model.go:498-501 | the status line is cleared only after its expiry, and nothing else changes |
| Dashboard.FetchBriefGate | ui/model.go:1285-1299 | the cache is read only when not forced and cacheMins > 0; a hit is a from-cache brief, and anything else is the generated brief |
| Dashboard.LoadCachedBriefGate | ui/model.go:1303-1315 | no message when cacheMins is 0 or the cache misses or fails; otherwise the cached brief, marked as from the cache |
| Dashboard.SavedBriefIsFoundAgain | ui/model.go:1285-1299 | a brief saved fresh is found by the next unforced fetchBrief while it is within the cache age |
| Dashboard.RunFetchBrief | ui/model.go:1285-1299 | fetchBrief's command yields the message FetchBriefGate describes |
| Dashboard.RunLoadCachedBrief | ui/model.go:1303-1315 | loadCachedBrief's command yields the message LoadCachedBriefGate describes |
| Dashboard.Model.constructor | ui/model.go:110-128 | the new model is in the initial state and valid |
| Dashboard.Model.Resize | ui/model.go:161-169 | the window size is recorded and every viewport takes its width less 4 and height less 6 |
| Dashboard.Model.SelectNewsAt | ui/model.go:200-218 | the News selection is set and scrolled into view |
| Dashboard.Model.SelectLocalAt | ui/model.go:260-287 | the Local selection is set and scrolled into view |
| Dashboard.Model.ScrollTo | ui/model.go:200-218 | the active tab's viewport is replaced |
| Dashboard.Model.KeyDown | ui/model.go:200-218 | the j/down case, as `DownNext` |
| Dashboard.Model.KeyUp | ui/model.go:219-237 | the k/up case, as `UpNext` |
| Dashboard.Model.OpenArticle | ui/model.go:238-259 | the enter case, as `OpenSelected` |
| Dashboard.Model.KeyPageDown | ui/model.go:260-287 | the d case, as `PageDownNext` |
| Dashboard.Model.KeyPageUp | ui/model.go:288-315 | the u case, as `PageUpNext` |
| Dashboard.Model.KeyBottom | ui/model.go:316-343 | the G case, as `BottomNext` |
| Dashboard.Model.KeyTop | ui/model.go:344-361 | the g case, as `TopNext` |
| Dashboard.Model.AskForBrief | ui/model.go:188-199 | the b and B cases, as `BriefRequest` |
| Dashboard.Model.Navigate | ui/model.go:200-361 | the selection and scrolling keys, as `ActNext` |
| Dashboard.Model.HandleKey | ui/model.go:171-362 | the key case of Update, as `KeyNext` |
| Dashboard.Model.SettleResult | ui/model.go:380-467 | the shared half of a result case: loading, errors and data as `Settle` |
| Dashboard.Model.NewsArrived | ui/model.go:387-396 | the brief request after news, as `NewsFollowUp` |
| Dashboard.Model.BriefArrived | ui/model.go:474-491 | after a brief, as `BriefFollowUp`, writing a fresh brief to the disk cache |
| Dashboard.Model.HandleNews | ui/model.go:380-397 | the global news case |
| Dashboard.Model.HandleBrief | ui/model.go:469-492 | the brief case, with the cache write |
| Dashboard.Model.HandleLocal | ui/model.go:399-411 | the local news and weather cases, which refresh the Local header |
| Dashboard.Model.HandleResult | ui/model.go:380-492 | every result case, with the cache write |
| Dashboard.Model.HandleSimple | ui/model.go:364-501 | the resize, spinner, tick, openURL and clearStatus cases |
| Dashboard.Model.Update | ui/model.go:157-505 | Update's new state, commands and disk contents are those of `Next`, and the state stays valid |
| Setup.EditInput | ui/setup.go:105-108 | an unfocused input is unchanged; focus and limit are kept; a limited input stays within its limit |
| Setup.TypingAppends | ui/setup.go:105-108 | typing into a focused unlimited input appends the text |
| Setup.InitialIsValid | ui/setup.go:41-68 | the new wizard is valid |
| Setup.NextKeepsValid | ui/setup.go:76-168 | every message keeps the provider index in [0,6) |
| Setup.ProviderStep | ui/setup.go:89-97 | Up/Shift-Tab and Down/Tab cycle the provider modulo 6; Enter moves to the API-key step |
| Setup.ApiKeyGate | ui/setup.go:99-104 | Enter leaves the API-key step exactly when a key was typed |
| Setup.LocationGate | ui/setup.go:111-118 | Enter moves to saving, with geocoding set and a geocode issued, exactly when city and country are both typed |
| Setup.GeocodeOutcome | ui/setup.go:149-156 | a geocode result clears geocoding; a failure records the error; a success starts saving and issues the save |
| Setup.SaveOutcome | ui/setup.go:158-164 | a save result clears saving; a success moves to done; a failure records the error |
| Setup.SavingRetry | ui/setup.go:129-133 | Enter in the saving step with an error returns to the location step and clears the error |
| Setup.EscQuits | ui/setup.go:135-142 | Esc quits from every step; in the done step every key quits |
| Setup.StepOrder | ui/setup.go:76-168 | the step moves only forward by one, back from saving to location, or to done on a save result |
| Setup.SetupWizard.constructor | ui/setup.go:41-68 | the new wizard is in its initial state |
| Setup.SetupWizard.DispatchKey | ui/setup.go:88-136 | the per-step key switch, as `StepKey` |
| Setup.SetupWizard.GeocodeDone | ui/setup.go:149-156 | the geocode result case, as `Next` |
| Setup.SetupWizard.SaveDone | ui/setup.go:158-164 | the save result case, as `Next` |
| Setup.SetupWizard.Update | ui/setup.go:76-168 | Update's new state and commands are those of `Next`, and the state stays valid |
| Feeds.LevelName | feeds/feeds.go:25-38 | the four named levels map to their upper-case names, and every other value to "INFO", in both directions |
| Feeds.AnyContained | feeds/feeds.go:119-124 | true exactly when some keyword of the list occurs in the text |
| Feeds.FirstMatchingTier | feeds/feeds.go:117-127 | the first matching tier in table order, or none when no tier matches |
| Feeds.ClassifyThreat | feeds/feeds.go:117-127 | classifyThreat: the result is (ThreatInfo, "general") or the level and category of some tier of the table; ClassifyIsFirstMatch says which |
| Feeds.ClassifyIsFirstMatch | feeds/feeds.go:117-127 | the classification is the level and category of the first tier with a keyword in the lower-cased title, and (ThreatInfo, "general") when there is none |
| Feeds.ClassifiedLevelIsNamed | feeds/feeds.go:117-127 | the level is always between Info and Critical |
| Feeds.CriticalWins | feeds/feeds.go:84-125 | any title whose lowercase form contains a critical keyword is Critical/"conflict", whatever lower-tier keywords it also contains |
| Feeds.CriticalBeatsMedium | feeds/feeds.go:84-103 | the instance "Nuclear election", which also holds the medium keyword "election", is Critical/"conflict" |
| Feeds.CyberattackIsSecurity | feeds/feeds.go:83-115 | a title with "cyberattack" and none of the critical keywords is High/"security", because "attack" is scanned first |
| Feeds.CyberattackTitleQualifies | feeds/feeds.go:83-115 | the title "Cyberattack" contains "cyberattack" and none of the critical keywords |
| Feeds.Ingested | feeds/feeds.go:165-193 | a feed yields at most one item per entry |
| Feeds.IngestedAreFresh | feeds/feeds.go:165-192 | every item has a title, is at most a day old, and carries its feed's name and locality |
| Feeds.IngestedCount | feeds/feeds.go:165-178 | exactly the entries with a title and within the cutoff yield an item |
| Feeds.IngestEntries | feeds/feeds.go:165-193 | the entry loop computes `Ingested` |
| Feeds.SortBySeverity | feeds/feeds.go:200-205 | after the sort, threat level is descending and then publish time descending, and the items are a permutation of the input |
| Feeds.Dedup | feeds/feeds.go:208-218 | the loop keeps the first item of each key |
| Feeds.TitleKey | feeds/feeds.go:211 | the de-duplication key has min(40, length) characters, each the lowercase of the title's character at that position |
| Feeds.KeptIndices | feeds/feeds.go:208-218 | the kept items form an order-preserving subsequence of first-of-their-key items |
| Feeds.DedupKeysDistinct | feeds/feeds.go:208-218 | no two kept items share a key |
| Feeds.DedupKeepsEveryKey | feeds/feeds.go:208-218 | every key of the input survives |
| Feeds.FetchFeeds | feeds/feeds.go:139-219 | the result is the collected items, sorted and then de-duplicated |
| Intel.Clamp | intel/intel.go:386-394 | the result lies in [lo, hi], is v inside it, and is lo below and hi above |
| Intel.Headers | intel/intel.go:311-337 | one header decision per line |
| Intel.LastHeader | intel/intel.go:307-340 | the last line that opens the section, or none |
| Intel.NextHeader | intel/intel.go:307-340 | the first header line at or after a position, or the end |
| Intel.LineHeader | intel/intel.go:311-336 | only a line whose trimmed text is exactly a header opens that section |
| Intel.SplitSections | intel/intel.go:307-340 | every section in the map holds the block of lines after its last header up to the next header, trimmed as a whole, and a section without a header is absent |
| Intel.ClosedIsSection | intel/intel.go:307-340 | after the last line, each stored section is its section text |
| Intel.CleanThreat | intel/intel.go:346-355 | a cleaned threat line has no surrounding spaces |
| Intel.ThreatRow | intel/intel.go:346-355 | a kept threat is not empty and is trimmed |
| Intel.ThreatsAreClean | intel/intel.go:346-355 | every threat is non-empty and trimmed |
| Intel.BulletStripped | intel/intel.go:348-350 | " • War " becomes "War" |
| Intel.MarkersStrippedInOrder | intel/intel.go:348-352 | on the example "•-*X", the bullet, dash and asterisk are removed once each, in that order, leaving "X"; the general rule is CleanThreat's definition |
| Intel.DashAfterAsteriskKept | intel/intel.go:348-352 | "*-X" becomes "-X", since the dash is looked for before the asterisk |
| Intel.CleanThreatLine | intel/intel.go:347-352 | the cleaning statements compute `CleanThreat` |
| Intel.ThreatLoop | intel/intel.go:346-355 | the loop over the section lines yields `ThreatsOf` of those lines |
| Intel.ParseThreats | intel/intel.go:346-355 | the threat loop yields the cleaned non-empty lines in order |
| Intel.RiskRow | intel/intel.go:357-381 | a row is kept exactly when it is non-empty, has at least two pipe parts, a non-empty country and an integer score; the score is clamped to [0,100]; the reason is the trimmed third part or "" |
| Intel.RisksAreClamped | intel/intel.go:357-381 | every risk has a country and a score in [0,100] |
| Intel.SkippedRowIsTransparent | intel/intel.go:357-371 | a skipped row leaves the risks before and after it as they were |
| Intel.ReasonKeepsPipes | intel/intel.go:363-375 | "A\|7\|b\|c" has the reason "b\|c" |
| Intel.RiskLine | intel/intel.go:359-380 | one turn of the risk loop computes `RiskRow`, with `continue` as none |
| Intel.RiskLoop | intel/intel.go:358-381 | the loop over the section lines yields `RisksOf` of those lines |
| Intel.ParseRisks | intel/intel.go:357-381 | the risk loop yields the parsed rows in order |
| Intel.ParseBriefResponse | intel/intel.go:301-384 | the summary, threats and risks are those of the sections, with "" for a missing one |
| Intel.StoredSection | intel/intel.go:343 | reading a section from the map with "" for a missing one gives its section text |
| Intel.MissingSectionIsEmpty | intel/intel.go:343-358 | a reply without a header yields an empty summary, no threats or no risks |
| Intel.EmptyLineContributesNothing | intel/intel.go:346-371 | an empty section has no threats and no risks |
| Intel.LastHeaderWins | intel/intel.go:313-337 | on an example with two SUMMARY: headers, the section is the trimmed block after the second and the line before the first is ignored; the general rule is SectionText, which SplitSections is proved to compute |
| Intel.FirstSummaryLine | intel/intel.go:283-289 | the first line starting with "SUMMARY:", if any |
| Intel.FirstSummaryLineIsFirst | intel/intel.go:283-289 | it is the first such line, or there is none |
| Intel.SummaryLinesAreClean | intel/intel.go:283-293 | each collected line is non-empty, trimmed and no header |
| Intel.LocalResult | intel/intel.go:295-298 | the result is the collected lines joined by spaces, or the whole content trimmed |
| Intel.LocalSummaryIsTrimmed | intel/intel.go:279-299 | the local summary never has surrounding spaces |
| Intel.LocalLine | intel/intel.go:283-293 | one turn of the local-summary loop keeps its invariant |
| Intel.LocalFinish | intel/intel.go:295-298 | the end of the local-summary parse |
| Intel.LocalLoop | intel/intel.go:284-293 | after the loop, `inSummary` says whether a "SUMMARY:" line was seen, and the collected lines are the trimmed non-empty lines after the first one, other "SUMMARY:" lines excluded |
| Intel.ParseLocalBriefResponse | intel/intel.go:279-299 | the loop computes `LocalSummary`, which is trimmed |
| Intel.PlanBrief | intel/intel.go:43-67 | an empty key gives the "none" placeholder; no items give the no-items placeholder; otherwise the first min(40, n) headlines are asked about |
| Intel.GenerateBrief | intel/intel.go:42-158 | placeholders return at once; a failed request, a non-200 status, an undecodable body and an empty choice list are errors with their messages; otherwise the parsed brief |
| Cache.RecordRoundTrip | intel/cache.go:59-84 | a brief and its record convert into each other with no field lost |
| Cache.TmpPath | intel/cache.go:90 | the temporary path differs from the cache path |
| Cache.PathOf | intel/cache.go:20-30 | the path is an error exactly when home or the directory fails |
| Cache.AbsentIsMiss | intel/cache.go:40-43 | an absent file is a miss, not an error |
| Cache.CorruptIsMiss | intel/cache.go:49-52 | an undecodable file is a miss, not an error |
| Cache.LoadErrors | intel/cache.go:34-66 | load fails exactly for a missing home or directory or a read error on an existing file |
| Cache.StaleRule | intel/cache.go:55-57 | with maxAge > 0 an older record is rejected; age equal to maxAge is kept; maxAge of 0 or less skips the check |
| Cache.SaveNilIsNoop | intel/cache.go:70-73 | saving nil changes nothing |
| Cache.SaveTouchesOnlyCacheFiles | intel/cache.go:70-95 | saving touches only the cache path and its temporary file |
| Cache.SavePathIsOldOrComplete | intel/cache.go:89-94 | the cache path holds what it held before or the complete record |
| Cache.FailedSaveKeepsPath | intel/cache.go:70-95 | a failed save leaves the cache path as it was |
| Cache.SaveThenLoad | intel/cache.go:59-84 | a successful save is found by the next load within maxAge, equal to the saved brief |
| Cache.ClearAbsentSucceeds | intel/cache.go:98-108 | clearing an absent cache succeeds and changes nothing |
| Cache.ClearThenLoad | intel/cache.go:98-108 | a successful clear removes the cache file only, and the next load misses |
| Cache.Disk.constructor | intel/cache.go:20-30 | the disk holds the given home, files and faults |
| Cache.Disk.CacheFilePath | intel/cache.go:20-30 | cacheFilePath as `PathOf` |
| Cache.Disk.LoadCachedBrief | intel/cache.go:34-66 | LoadCachedBrief's result, as `LoadOf` |
| Cache.Disk.SaveCachedBrief | intel/cache.go:70-95 | the files after the write and rename, as `SavedFiles` |
| Cache.Disk.ClearBriefCache | intel/cache.go:98-108 | the error and the files after the remove, as `ClearOf` |
| Markets.CommaSeparate | markets/markets.go:426-454 | the loop computes `CommaSpec`: the leading "-" kept, and commas every three digits from the right |
| Markets.ShortIsUnchanged | markets/markets.go:427-438 | at most three digits after an optional "-" come back unchanged |
| Markets.CommasRemovedRoundTrip | markets/markets.go:426-454 | removing the commas from the output gives back the input |
| Markets.GroupDigitsIsWellGrouped | markets/markets.go:440-449 | the first group has one to three digits and every later group exactly three |
| Markets.WellGroupedEnds | markets/markets.go:440-449 | the output neither starts nor ends with a comma |
| Markets.FillSlots | markets/markets.go:214-239 | whatever the completion order, each slot holds its own goroutine's result |
| Markets.SuccessesHaveWitness | markets/markets.go:241-250 | there are no successes exactly when every slot failed, and every slot is a success or a failure |
| Markets.ErrorOnlyWhenAllFail | markets/markets.go:251-254 | an error is reported exactly when there are slots and every one failed |
| Markets.OneSuccessIsEnough | markets/markets.go:241-254 | with one success, failed slots are dropped silently |
| Markets.Aggregated | markets/markets.go:241-254 | the fan-in's result: on success the successful slots' values in slot order; an error only when there is no success and some failure |
| Markets.Aggregate | markets/markets.go:241-254 | the loop computes the aggregated result: successes in slot order, or the errors joined with "; " |
| Markets.FetchStockIndices | markets/markets.go:198-255 | the indices in definition order, whatever the completion order, or the joined error |
| Markets.FetchCommodities | markets/markets.go:279-322 | the commodities in definition order, or the joined error |
| Markets.ToMarket | markets/markets.go:367-391 | title and slug copied; the category is the first tag or "politics"; the end date is the first 10 characters or "" |
| Markets.MarketsAreTitled | markets/markets.go:362-366 | every market has a title |
| Markets.MarketsCount | markets/markets.go:361-393 | one market per record with a question |
| Markets.TransformMarkets | markets/markets.go:361-393 | the record loop computes `MarketsOf` |
| Weather.GoRem | weather/weather.go:138 | Go's truncated remainder: its sign follows the dividend |
| Weather.GoQuot | weather/weather.go:138 | Go's truncated quotient |
| Weather.CompassIndexInRange | weather/weather.go:136-143 | for deg >= 0 the index is in [0,7] and the fallback "N" is never used |
| Weather.WindDirectionStr | weather/weather.go:136-143 | windDirectionStr: the name is always one of the eight compass points; SectorBounds and NorthSpan say which |
| Weather.SectorBounds | weather/weather.go:138 | sector 0 covers [0,22] and [338,359]; sector k covers [45k-22, 45k+22] |
| Weather.NorthSpan | weather/weather.go:136-143 | "N" exactly for [0,22] and [338,359] |
| Weather.FullTurn | weather/weather.go:136-143 | a full turn names the same direction |
| Weather.NegativeDegreesCanPanic | weather/weather.go:138-139 | -67 gives a negative index, where Go panics; -23 does not |
| Weather.WmoCodeToEmoji | weather/weather.go:146-176 | wmoCodeToEmoji: every code has a non-empty icon and description; DayMattersOnlyForClearSky and UnknownIffUnlisted state the table's shape |
| Weather.DayMattersOnlyForClearSky | weather/weather.go:146-176 | isDay matters exactly for code 0 |
| Weather.UnknownIffUnlisted | weather/weather.go:146-176 | "Unknown" exactly for the codes the table does not list |
| Weather.ConditionsOf | weather/weather.go:90-106 | the icon and description follow the code and the day flag; the city, time and wind direction are copied |
| Weather.ParseDate | weather/weather.go:112 | a parsed date has ten characters, a month in 1..12 and a day within the month |
| Weather.ForecastDay | weather/weather.go:112-129 | one loop turn: none exactly when the date does not parse, otherwise that day's forecast |
| Weather.AssembleForecasts | weather/weather.go:108-130 | the loop computes `ForecastsOf` over the visited days |
| Weather.ForecastCount | weather/weather.go:108-130 | at most one forecast per visited day, and exactly one when every date parses |
| Weather.ForecastsAreDays | weather/weather.go:108-130 | every forecast is a visited day with a parseable date |
| Weather.DayFields | weather/weather.go:117-121 | daily icons use isDay = true; rain is 0 when the precipitation array is short |

## Left out

- The network clients are not modelled: `FetchCryptoPrices`, `fetchYahooChart`, the request half of `FetchPredictionMarkets`, the `weather.Fetch` request, the chat-completion calls and `config.Geocode`. Their decoded results are inputs. RSS and JSON decoding are left out the same way.
- `GenerateLocalBrief` is modelled only through its reply parser.
- Goroutines, the `sync.WaitGroup` and the mutex are not modelled. `fetchFeeds` and the group fetches are modelled after the join. The slot writes take an arbitrary completion order.
- `go intel.SaveCachedBrief` (ui/model.go:481) is modelled as a synchronous call on the `Disk`.
- The tea.Cmd runtime is not modelled. Commands are a list of tags, and `tea.Batch` is the list itself.
- Floating point is left out: prices, percent changes, `FormatPrice`, `FormatLargeNum`, probabilities, `probabilityBar` and temperatures. Those values are carried unread as `real`.
- Rendering is left out: every `render*` function, lipgloss and ui/styles.go. Their outputs come in through `Env`: the header-line counts, the bottom offset for `GotoBottom`, and the formatted cache stamp for the status line.
- `viewport.SetContent` is not modelled.
- The bubbles viewport is reduced to width, height and offset. `SetYOffset`, `LineDown`, `LineUp`, `HalfViewDown` and `HalfViewUp` do not clamp.
- The spinner's frames are not modelled. Its tick is a `SpinnerFrame` tag.
- The text inputs do not track a cursor. Editing appends at the end or deletes the last character. Only the Tab key's focus change is modelled in the location step.
- Wall-clock time is an integer parameter. The same goes for `formatAge` and the cache-age text.
- `openURL`, `exec.LookPath` and `exec.Command` are not modelled. Opening a URL is an `OpenURL` tag.
- `Init` and `View` are not modelled, in either model. View produces only rendering.
- config/config.go and main.go are not part of this model. They do file I/O, HTTP geocoding and program wiring. The dashboard reads the API key, the cache minutes and the refresh interval from a `Settings` record. ui/model.go reads the key as `GroqAPIKey`.
- The text helpers count characters where Go's `len` counts bytes. The two agree on ASCII text.
- Feeds.TitleKey and Feeds.Dedup take the first 40 characters of a title where Go takes the first 40 bytes, so on titles with non-ASCII characters the model's keys can differ from Go's, and Dedup can then keep different items.
- UiText.Truncate counts its result as n characters; in Go the ellipsis is 3 bytes, so `len` of a truncated string is n+2 for ASCII input.
- `strings.ToLower` is modelled on ASCII letters only.
- Weather.ParseDate checks the "2006-01-02" layout and calendar validity. It does not build a `time.Time`.
- Dashboard.Model.HandleNews keeps `selectedNewsIdx` as it is when a shorter news list arrives, because ui/model.go:385 does not clamp it. The valid-state invariant therefore only requires the index to be non-negative.
- Cache.StaleRule treats a negative `maxAge` like 0, because intel/cache.go:55 tests `maxAge > 0`. A negative `briefCacheMins` therefore disables the age check.
- Weather.AssembleForecasts requires `TemperaturesCover`: every visited day whose date parses has a maximum and a minimum temperature. weather/weather.go:124-125 reads those arrays unguarded and panics otherwise. Weather.ForecastsOf and Weather.ForecastDay carry the same requirement.
- Weather.WindDirectionStr requires a degree value for which Go's index is not negative, because Go panics otherwise. NegativeDegreesCanPanic shows such a value.
- UiText.Truncate requires `n >= 1` for a string longer than `n`, because Go panics on the slice in that case.
- Feeds.SortBySeverity promises no order among items with equal level and time, because `sort.Slice` is not stable.

## Findings

| source | as written | input that shows it | evidently intended | confidence | as-written member | corrected member |
|---|---|---|---|---|---|---|
| ui/model.go:1379-1382 | the line is flushed when `line.Len() + len(w) + 1 > width` even when the line is empty, so a first word at least as long as the width is preceded by an empty line | `wordWrap("abcde", 5)` gives `"\nabcde"` | flush only a non-empty line, so no empty line appears | not executed | UiText.LongFirstWordGivesBlankLine | UiText.IntendedWrap, UiText.IntendedWrapFits |
