# CodeWave narration player: a Dafny model

CodeWave is a React Native app that "reads" programming articles aloud. An
article is a list of segments, each either prose or a code block. The heart of
the app is the player screen's playback engine. While the player is playing, a
50 ms interval advances the progress of the current segment. How fast it
advances depends on the segment kind, on the code mode (skip, label, summary)
and on the playback speed. When progress reaches 100, the player moves on to the
next segment or stops at the last one. Around the engine sit:

- the article and segment types and the built-in library of fourteen articles;
- the segment renderer and the progress bar;
- the library list, with its category filter and its paging, refresh and scroll logic;
- the tab host, which mounts tab pages lazily;
- the article card, with its relative creation-time label;
- the theme provider;
- the scene backdrop table.

Each part is a module in its own file:

| file | module | models |
|---|---|---|
| `wrappers.dfy` | `Wrappers` | `Option` |
| `types.dfy` | `Types` | code modes and scene modes |
| `mock_data.dfy` | `MockData` | segments, articles, the built-in library |
| `decimal.dfy` | `Decimal` | decimal printing of counts, used in labels |
| `player_screen.dfy` | `PlayerScreen` | the playback engine: the pure `Session` state and its events, and the class `Player` that applies them in place |
| `content_renderer.dfy` | `ContentRenderer` | what a segment shows under each code mode |
| `progress_bar.dfy` | `ProgressBar` | the overall progress width and the two time labels |
| `article_card.dfy` | `ArticleCard` | `formatCreateTime` and the card's choices |
| `library_screen.dfy` | `LibraryScreen` | filtering, paging, refresh and scrolling: the pure `Feed` state, and the class `Library` |
| `main_tabs.dfy` | `MainTabs` | the class `Tabs`: lazily mounted tab pages, article selection |
| `theme_context.dfy` | `ThemeContext` | mode resolution and the class `ThemeProvider` |
| `mode_background.dfy` | `ModeBackground` | the scene-to-backdrop table and its fallback |

Screens that keep state in `useState` fields are classes. Their methods change
those fields and state the new state as a pure transition function of the old
state (`ensures State() == Ticked(old(State()))`). The lemmas are stated about
those transition functions. Timers are never waited for. Each firing of the
player's interval is one `Tick`, and each pending library timeout runs at one
`FireTimer` step. Speeds and progress are `real`: the source's arithmetic
without floating-point rounding.

Some behaviours of the code that a reader might not expect, each proved as a
lemma:

- Replacing the article resets nothing: the index, progress and playing flag
  are kept (`PlayerScreen.ArticleSwapKeepsState`).
- Playing an article with no segments is not refused. The first tick sets the
  progress to 100 and the second stops playback (`PlayerScreen.EmptyArticle`).
- A code mode outside the three known ones paces code at factor 1, the prose
  rate. It does not use the summary rate.
- A prose segment takes 200 ticks (10 s) at speed 1: each tick adds 0.5 to
  the progress (`PlayerScreen.TwoProseSegments`).

## Model

| member | source | states |
|---|---|---|
| MockData.MockIds | src/data/mockData.ts:28-508 | the built-in library holds 14 articles whose ids are 1 to 14 in order |
| MockData.MockIdsDistinct | src/data/mockData.ts:28-508 | the library ids are pairwise distinct |
| MockData.MockCreateTimes | src/data/mockData.ts:17-25 | no library article sets the optional `createTime` |
| MockData.MockCategoriesKnown | src/data/mockData.ts:28-508 | every library article is in Frontend, System, Architecture or DevOps |
| MockData.MockShapes | src/data/mockData.ts:28-508 | every library article opens with two prose segments, holds a code segment and ends on prose |
| Decimal.NatToString | src/components/ArticleCard.tsx:32 | a count prints as at least one decimal digit with no leading zero; it prints as one digit exactly when it is below 10 |
| Decimal.NatToStringRoundTrip | src/components/ArticleCard.tsx:32 | reading the printed digits back gives the number printed |
| Decimal.NatToStringInjective | src/components/ArticleCard.tsx:32 | different counts print differently |
| PlayerScreen.SpeedFactor | src/pages/PlayerScreen.tsx:56-62 | the factor lies in [0.8, 2]; it is 1 for prose, for the skip mode and for an unknown mode |
| PlayerScreen.Pace | src/pages/PlayerScreen.tsx:56-64 | a tick completes the segment exactly for code in skip mode; otherwise it advances by at least 0.4 at speed ≥ 1, and by at most the speed (≤ 2) |
| PlayerScreen.SegmentAt | src/pages/PlayerScreen.tsx:53-54 | a segment is found exactly when the index is in range, and it is the one at the index |
| PlayerScreen.NextSpeed | src/pages/PlayerScreen.tsx:80-82 | the speed button always yields 1, 1.5 or 2 |
| PlayerScreen.CurrentSegment | src/pages/PlayerScreen.tsx:109-112 | the shown segment is the one at the index, or the "内容结束。" text when the index is out of range |
| PlayerScreen.InitialState | src/pages/PlayerScreen.tsx:27-32 | a new screen is paused on segment 0 at progress 0, in summary mode, at speed 1, in the standard scene |
| PlayerScreen.EventsPreserveValid | src/pages/PlayerScreen.tsx:35-96 | every event keeps index ≥ 0, progress in [0, 102) and the speed in {1, 1.5, 2} |
| PlayerScreen.PausedTicksChangeNothing | src/pages/PlayerScreen.tsx:39-71 | any number of ticks while paused leaves the state unchanged |
| PlayerScreen.AdvancedInRange | src/pages/PlayerScreen.tsx:53-64 | from a progress in [0, 100) at a valid speed, one tick's new progress is in [0, 102) |
| PlayerScreen.TickPreservesValid | src/pages/PlayerScreen.tsx:37-66 | a tick keeps the index non-negative, the progress in [0, 102) and the speed valid |
| PlayerScreen.PaceRule | src/pages/PlayerScreen.tsx:53-64 | below 100 a tick adds 0.5 × speed × factor (1 prose, 2 label, 0.8 summary, 1 other mode); skip mode or a missing segment sets 100; nothing else changes |
| PlayerScreen.SegmentEnd | src/pages/PlayerScreen.tsx:42-51 | at ≥ 100 a tick moves to the next index at 0 and keeps playing, or at the last index stops at 100 on the same index |
| PlayerScreen.Overshoot | src/pages/PlayerScreen.tsx:42-64 | a tick from below 100 ends below 100 + speed; the roll-over waits for the next tick |
| PlayerScreen.Headway | src/pages/PlayerScreen.tsx:41-65 | every tick while playing gains ≥ 0.4, completes the segment, moves to the next index or stops |
| PlayerScreen.TicksAdd | src/pages/PlayerScreen.tsx:40-66 | m + n ticks are m ticks followed by n ticks |
| PlayerScreen.PlaybackEnds | src/pages/PlayerScreen.tsx:35-78 | from any valid playing state, some number of ticks stops playback at 100 on the last segment (or on the index it had, if past the end) |
| PlayerScreen.SkipRoundTrips | src/pages/PlayerScreen.tsx:84-96 | skipping forward then back (or back then forward) from an inner index returns to it at progress 0 |
| PlayerScreen.SkipGuards | src/pages/PlayerScreen.tsx:84-96 | skip back at index 0 and skip forward at the last index do nothing; neither touches playing, speed, mode or article |
| PlayerScreen.SpeedCycle | src/pages/PlayerScreen.tsx:80-82 | the speed cycles 1 → 1.5 → 2 → 1, any other value goes to 1, and three presses restore a valid speed |
| PlayerScreen.SkipModeCompletesCode | src/pages/PlayerScreen.tsx:58-59 | in skip mode a code segment completes on the next tick, still playing, on the same index |
| PlayerScreen.ArticleSwapKeepsState | src/pages/PlayerScreen.tsx:72-78 | a new article resets neither index, progress nor playing; at equal length the running interval keeps pacing by the old segments |
| PlayerScreen.EmptyArticle | src/pages/PlayerScreen.tsx:42-54 | playing an empty article: the first tick sets 100, the second stops |
| PlayerScreen.ProseTicks | src/pages/PlayerScreen.tsx:56-64 | n ticks on prose below 100 add exactly 0.5 × speed × n |
| PlayerScreen.TwoProseSegments | src/pages/PlayerScreen.tsx:40-66 | two prose segments at speed 1: 200 ticks finish the first, tick 201 moves on, tick 401 finishes the second, tick 402 stops |
| PlayerScreen.Player.constructor | src/pages/PlayerScreen.tsx:27-32 | the fields start as the initial session |
| PlayerScreen.Player.Tick | src/pages/PlayerScreen.tsx:41-65 | the fields become the ticked session and stay valid |
| PlayerScreen.Player.PlayPause | src/pages/PlayerScreen.tsx:173 | playing is toggled and the interval re-armed |
| PlayerScreen.Player.SkipBack | src/pages/PlayerScreen.tsx:84-89 | the fields become the skipped-back session |
| PlayerScreen.Player.SkipForward | src/pages/PlayerScreen.tsx:91-96 | the fields become the skipped-forward session |
| PlayerScreen.Player.CycleSpeed | src/pages/PlayerScreen.tsx:80-82 | the speed becomes the next speed |
| PlayerScreen.Player.SetCodeMode | src/pages/PlayerScreen.tsx:31 | the mode is set; a changed mode re-arms the interval |
| PlayerScreen.Player.SetSceneMode | src/pages/PlayerScreen.tsx:30 | only the scene changes |
| PlayerScreen.Player.SetArticle | src/pages/PlayerScreen.tsx:72-78 | the article is replaced; only a new segment count re-arms the interval |
| ContentRenderer.SpokenLine | src/components/ContentRenderer.tsx:40 | the label line is the quoted "正在朗读：" prefix plus the label |
| ContentRenderer.Render | src/components/ContentRenderer.tsx:15-76 | prose shows its text; code shows the skip notice, the label view or the summary view exactly for the skip, label and summary modes; an unknown mode shows nothing |
| ContentRenderer.RenderShows | src/components/ContentRenderer.tsx:15-73 | prose looks the same in every mode; skipped code shows only the notice; the summary view shows the summary and the raw code |
| ContentRenderer.RenderMatchesPace | src/components/ContentRenderer.tsx:23-73 | the view agrees with the pacing: skipped exactly when the tick completes at once; the label view goes with factor 2, the summary view with 0.8, no view with 1 |
| ProgressBar.TotalProgress | src/components/ProgressBar.tsx:17-18 | the width × total equals 100 × index + progress; there is no value for zero segments |
| ProgressBar.TotalProgressBounds | src/components/ProgressBar.tsx:17-18 | with the index in range and progress in [0, 100] the width lies in [0, 100] |
| ProgressBar.TotalProgressContinuous | src/components/ProgressBar.tsx:17-18 | finishing a segment and starting the next give the same width |
| ProgressBar.TotalProgressMonotone | src/components/ProgressBar.tsx:17-18 | the width never shrinks as index or progress grows |
| ProgressBar.ElapsedLabel | src/components/ProgressBar.tsx:26 | the label is "00:", then digits, then a final "0" |
| ProgressBar.ElapsedLabelReadsBack | src/components/ProgressBar.tsx:26 | the segment index can be read back from the label |
| ProgressBar.RemainingLabel | src/components/ProgressBar.tsx:27 | the label is a minus sign followed by the duration |
| ArticleCard.DatePart | src/components/ArticleCard.tsx:16 | the part before the first space, or the whole string: a space-free prefix ending at a space or at the end |
| ArticleCard.IsoForm | src/components/ArticleCard.tsx:11 | only the first space becomes 'T'; every other character is kept |
| ArticleCard.CreateTimeBuckets | src/components/ArticleCard.tsx:7-44 | an unparsable or future time gives the date part; otherwise ≥ 1 day gives whole days + "天前", else ≥ 1 h whole hours (1–23) + "小时前", else ≥ 1 min whole minutes (1–59) + "分钟前", else "刚刚" |
| ArticleCard.RenderCard | src/components/ArticleCard.tsx:59-108 | the playing indicator shows exactly when current and playing; the title is highlighted when current; the meta line is the formatted creation time when one is set, else the duration |
| ArticleCard.MockCardsShowDuration | src/components/ArticleCard.tsx:84-94 | every library card shows its duration |
| ModeBackground.ConfigFor | src/components/ModeBackground.tsx:51 | a scene in the table gets its entry; any other gets the standard entry |
| ModeBackground.LayerFor | src/components/ModeBackground.tsx:58-68 | the chosen layer carries the configured intensity |
| ModeBackground.Background | src/components/ModeBackground.tsx:50-69 | nothing is drawn exactly when inactive; otherwise the layer has the scene's variant and intensity |
| ModeBackground.SceneTable | src/components/ModeBackground.tsx:17-43 | the five scene entries, and the standard fallback for a scene outside the union |
| ModeBackground.LayerRoundTrip | src/components/ModeBackground.tsx:58-68 | the layer chosen for a variant shows that variant, particles included as the default branch |
| ThemeContext.ColorSchemes | src/state/theme/ThemeContext.tsx:118 | dark resolves to the dark palette and light to the light palette; the two differ, so the palette is the dark one exactly when the mode is dark |
| ThemeContext.SystemTheme | src/state/theme/ThemeContext.tsx:84-87 | the system theme is dark exactly when the reported scheme is "dark"; null or anything else is light |
| ThemeContext.ResolveMode | src/state/theme/ThemeContext.tsx:111-116 | auto resolves to the system theme; light and dark resolve to themselves |
| ThemeContext.StoredMode | src/state/theme/ThemeContext.tsx:124-127 | a stored value is adopted exactly when it is "light", "dark" or "auto", and it is adopted as the mode of that name |
| ThemeContext.StoredModeRoundTrip | src/state/theme/ThemeContext.tsx:124-127 | a mode written under its name is read back as the same mode |
| ThemeContext.ThemeProvider.constructor | src/state/theme/ThemeContext.tsx:89-94 | the mode starts dark, not yet loaded, with the system theme read at mount |
| ThemeContext.ThemeProvider.ResolvedMode | src/state/theme/ThemeContext.tsx:111-116 | under auto the resolved mode is the remembered system theme; otherwise it is the chosen mode |
| ThemeContext.ThemeProvider.Value | src/state/theme/ThemeContext.tsx:111-165 | nothing is provided before loading finishes; afterwards the chosen mode, the provider's resolved mode, and exactly that mode's colour scheme |
| ThemeContext.ThemeProvider.FinishLoading | src/state/theme/ThemeContext.tsx:121-135 | a valid stored mode is adopted, anything else keeps the mode; the provider is loaded either way |
| ThemeContext.ThemeProvider.SetTheme | src/state/theme/ThemeContext.tsx:146-152 | the mode becomes the chosen one; nothing else changes |
| ThemeContext.ThemeProvider.SystemAppearanceChanged | src/state/theme/ThemeContext.tsx:97-108 | a system change is heard only under auto; otherwise the remembered system theme stays |
| MainTabs.Visibility | src/navigation/MainTabs.tsx:70-77 | one flag per mounted page, set exactly for the active tab |
| MainTabs.ExactlyOneShown | src/navigation/MainTabs.tsx:70-77 | with no duplicates and the active tab mounted, exactly one page is displayed |
| MainTabs.AtMostThreeMounted | src/navigation/MainTabs.tsx:30-35 | a duplicate-free tab list has at most three entries |
| MainTabs.Tabs.Displayed | src/navigation/MainTabs.tsx:70-77 | one display flag per mounted page |
| MainTabs.Tabs.constructor | src/navigation/MainTabs.tsx:17-20 | the player tab is active and the only one mounted; no article, not playing |
| MainTabs.Tabs.HandleTabChange | src/navigation/MainTabs.tsx:30-35 | the tab becomes active and is appended once if new; the earlier order is kept; no duplicates arise |
| MainTabs.Tabs.HandleArticleSelect | src/navigation/MainTabs.tsx:24-28 | the article becomes current, the tab host's playing flag (read only by the library cards) is set, the player tab is active and no page is mounted or unmounted |
| MainTabs.OnePageShown | src/navigation/MainTabs.tsx:70-77 | in every reachable tab state exactly one page is displayed, and at most three are mounted |
| LibraryScreen.FilterCategory | src/pages/LibraryScreen.tsx:32-36 | an article is kept exactly when it is in the list and has the category |
| LibraryScreen.FilterConcat | src/pages/LibraryScreen.tsx:32-36 | filtering keeps list order: the filter of a concatenation is the concatenation of the filters |
| LibraryScreen.Filtered | src/pages/LibraryScreen.tsx:32-36 | the "全部" category shows the whole list |
| LibraryScreen.FilterKeepsDistinctIds | src/pages/LibraryScreen.tsx:32-36 | filtering keeps ids pairwise distinct |
| LibraryScreen.MockDistinctIds | src/data/mockData.ts:28-508 | the built-in library has pairwise distinct ids |
| LibraryScreen.ShortCategoryEmpty | src/pages/LibraryScreen.tsx:32-36 | a category other than "全部" shorter than every article's category shows an empty list |
| LibraryScreen.EmptyCategories | src/pages/LibraryScreen.tsx:29-36 | the last three filter tabs (AI, Mysql, App) show an empty list |
| LibraryScreen.FirstPageLoaded | src/pages/LibraryScreen.tsx:83-91 | from an empty list the first min(10, n) articles are shown, with more expected exactly when some are missing |
| LibraryScreen.NextPageLoaded | src/pages/LibraryScreen.tsx:51-63 | the next up to 10 articles are appended; the list stays a prefix of the category; more is expected exactly when some are missing |
| LibraryScreen.EarlyLoadGivesFirstPage | src/pages/LibraryScreen.tsx:39-67 | a next-page load that replaces the pending first-page timer loads that same first page |
| LibraryScreen.CategorySelectedAsWritten | src/pages/LibraryScreen.tsx:70-101 | a category change as written: the same category changes nothing; a new one sets the category, empties the list, expects more, stops loading and replaces the pending timer by a first-page timer, exactly as the corrected change does except that `refreshing` is left as it was |
| LibraryScreen.CategorySelected | src/pages/LibraryScreen.tsx:70-101 | a new category empties the list, expects more, stops loading and refreshing and schedules the first page; the same category changes nothing |
| LibraryScreen.LoadRequested | src/pages/LibraryScreen.tsx:39-50 | a load request changes nothing exactly when loading or nothing is left; list, category and refresh flag are kept |
| LibraryScreen.Refreshed | src/pages/LibraryScreen.tsx:104-118 | refresh changes nothing exactly when already refreshing; afterwards a refresh is on |
| LibraryScreen.Scrolled | src/pages/LibraryScreen.tsx:134-146 | a scroll starts a load exactly when near the bottom (within 200) with more to load, nothing loading and no refresh |
| LibraryScreen.TimerFired | src/pages/LibraryScreen.tsx:50-66 | the pending callback runs and the slot is empty afterwards; the refresh flag ends exactly when the refresh timer fires |
| LibraryScreen.EventsPreserveValid | src/pages/LibraryScreen.tsx:39-146 | mounting and every event of the corrected screen keep the list a prefix of the category; loading holds exactly while a page is pending; with nothing pending, more is expected exactly when some are missing; refreshing holds exactly while the refresh is pending |
| LibraryScreen.EventsPreserveValidAsWritten | src/pages/LibraryScreen.tsx:39-146 | mounting and every event of the screen as written keep the same consistency, except that refreshing need only hold while the refresh is pending: the list is always a prefix of the category |
| LibraryScreen.ValidIsValidAsWritten | src/pages/LibraryScreen.tsx:70-131 | the corrected consistency implies the as-written one |
| LibraryScreen.ScrollLoadsNextPage | src/pages/LibraryScreen.tsx:134-146 | a near-bottom scroll and its timer strictly extend the list by the next page |
| LibraryScreen.RoundStep | src/pages/LibraryScreen.tsx:39-67 | one request-and-fire round from a settled state appends min(10, missing) articles and settles again |
| LibraryScreen.RoundsLoad | src/pages/LibraryScreen.tsx:39-67 | after k rounds the first min(shown + 10k, n) articles are listed |
| LibraryScreen.EveryArticleReachable | src/pages/LibraryScreen.tsx:134-146 | scrolling lists the whole category in the end, and then nothing more is expected |
| LibraryScreen.LibraryPages | src/pages/LibraryScreen.tsx:39-91 | under "全部" the first page is 10 articles with more expected; one more load lists all 14 with none expected |
| LibraryScreen.StuckReachable | src/pages/LibraryScreen.tsx:70-131 | as written, a refresh followed by a category change leaves a refresh showing with no timer to end it |
| LibraryScreen.StuckForever | src/pages/LibraryScreen.tsx:104-146 | once stuck, refresh and scroll are ignored for good, and no timer or category change ends it |
| LibraryScreen.ValidNeverStuck | src/pages/LibraryScreen.tsx:104-131 | the corrected screen is never stuck |
| LibraryScreen.CardStates | src/pages/LibraryScreen.tsx:174-183 | a card is current exactly when its id is the current article's id, and playing exactly when current and playing |
| LibraryScreen.AtMostOneCurrent | src/pages/LibraryScreen.tsx:174-183 | in a consistent screen over a list with distinct ids, at most one card is current |
| LibraryScreen.Library.constructor | src/pages/LibraryScreen.tsx:22-27 | the screen mounts on "全部" with an empty list and the first page pending, consistent in both the corrected and the as-written sense |
| LibraryScreen.Library.SelectCategory | src/pages/LibraryScreen.tsx:70-101 | the new state is the corrected category change, from any state the screen as written can reach (`InvAsWritten`) to one it can reach, and from a corrected-consistent state (`Inv`) to one |
| LibraryScreen.Library.SelectCategoryAsWritten | src/pages/LibraryScreen.tsx:70-101 | the new state is the category change as written, keeping the as-written consistency |
| LibraryScreen.Library.LoadMore | src/pages/LibraryScreen.tsx:39-67 | the new state is the load request, from any state the screen as written can reach (`InvAsWritten`) to one it can reach, and from a corrected-consistent state (`Inv`) to one when no refresh is running (its only caller checks that) |
| LibraryScreen.Library.Refresh | src/pages/LibraryScreen.tsx:104-131 | the new state is the refresh, from any state the screen as written can reach (`InvAsWritten`) to one it can reach, and from a corrected-consistent state (`Inv`) to one |
| LibraryScreen.Library.Scroll | src/pages/LibraryScreen.tsx:134-146 | the new state is the scroll handler's, from any state the screen as written can reach (`InvAsWritten`) to one it can reach, and from a corrected-consistent state (`Inv`) to one |
| LibraryScreen.Library.FireTimer | src/pages/LibraryScreen.tsx:50-66 | the new state is the pending callback's, from any state the screen as written can reach (`InvAsWritten`) to one it can reach, and from a corrected-consistent state (`Inv`) to one |
| LibraryScreen.ReplayStuck | src/pages/LibraryScreen.tsx:70-146 | on the screen object: refresh, then another category; the first page arrives but the screen is stuck, a further pull and a scroll to the bottom change nothing, and the corrected consistency no longer holds |

## Left out

- Real time is not modelled. The 50 ms interval and the 100/500/800 ms timeouts become explicit steps (`Tick`, `FireTimer`). React's scheduling of state setters is also left out: each updater is one atomic step.
- Floating point is not modelled: speeds and progress are exact reals. As IEEE doubles, a sum of increments such as 0.6 or 0.4 that is exactly 100 in reals can land just below 100. The roll-over would then come one tick later than in the model.
- The prose of the built-in articles is left empty: the text of the text segments, the raw code and the summaries. Ids, titles, authors, durations, categories, segment kinds, languages and spoken labels are kept.
- Animations, styles, icons, the scene colour switch of the player and the driving-mode button size are left out.
- `new Date()` and `Date` parsing are calls into the platform. `FormatCreateTime` takes the parser and the current time in milliseconds as parameters.
- The `try`/`catch` of `formatCreateTime` is not modelled. An unparsable time does not throw: `new Date` yields an invalid date, which the code tests for (src/components/ArticleCard.tsx:15). The parser parameter returns `None` for it, and the model takes the same date-part branch.
- Storage reads and writes of the theme are not modelled. The start-up read is the `stored` parameter of `FinishLoading`; the write in `setTheme` is left out. The system appearance is a parameter of the constructor and of `SystemAppearanceChanged`.
- The network, authentication, post creation and the profile screen are not part of this model. Neither are navigation or the remaining components.
- Selecting an article sets only the tab host's playing flag. The player screen keeps its own flag, so it stays paused until its play button is pressed. The model keeps the two flags apart (`MainTabs.Tabs.isPlaying`, `PlayerScreen.Player`) and does not connect them.
- The tab host's player page receives a null article until one is chosen. The player screen reads `article.segments` without a check, so that first render would throw. The model keeps `currentArticle` as an `Option` and does not model the crash.
- A scene name that every object inherits (`toString`, `constructor`, ...) finds a value in the scene table, so the code does not fall back to the standard scene; `OtherScene` stands only for names that do fall back. The scene selector emits only the five declared scenes.
- Unmounting the library screen clears its timer. That clean-up is not modelled.

## Findings

| source | as written | input that shows it | evidently intended | confidence | as-written member | corrected member |
|---|---|---|---|---|---|---|
| src/pages/LibraryScreen.tsx:70-101 | a category change clears the pending timeout, which may be the refresh timeout, but never resets `refreshing` | pull to refresh, then tap another category before 800 ms pass | the refresh ends with the timeout that would have ended it, so that refresh and scroll loading keep working | not executed | LibraryScreen.StuckReachable | LibraryScreen.ValidNeverStuck |

In the code as written (`LibraryScreen.CategorySelectedAsWritten`), the refresh
spinner never stops. Every later pull to refresh returns at its first guard.
Every scroll fails its `!refreshing` test, so nothing beyond the first page
ever loads (`LibraryScreen.StuckForever`; replayed on the screen object by
`LibraryScreen.ReplayStuck`). The corrected category change
(`LibraryScreen.CategorySelected`) also clears `refreshing`. With it, every
event keeps `refreshing` true exactly while the refresh timeout is pending
(`LibraryScreen.EventsPreserveValid`), so the screen never gets stuck. The
code as written still keeps the list a prefix of the chosen category and the
loading flag tied to its timer (`LibraryScreen.EventsPreserveValidAsWritten`);
only the tie between `refreshing` and its timer is lost.
