# stats-cards, modelled in Dafny

stats-cards is a small web service that draws SVG cards. It draws a GitHub
contribution-activity graph, a top-languages card (from GitHub or WakaTime),
and "pin" cards for a GitHub repository, a GitHub gist or a Hugging Face
model, dataset or Space. This project models the logic between the upstream
HTTP answers and the card layouts. That logic covers:

- the error card each upstream failure becomes;
- the get-or-fetch discipline of the shared result cache;
- the grouping of contribution days into months;
- the geometry of the activity graph, the language bar and its legend, and the
  tag strip of a Hugging Face pin;
- the static tables: themes, activity colours, pipeline tags, hardware names,
  language colours and error cards.

Modules:

- **Activity** (`activity.dfy`): `src/routes/activity.rs`.
  - The month grouping is a method whose loop is proved equal to the function
    `Grouping`. `Grouping` adds the calendar week by week, cutting each week's
    matched days wherever the month changes. The first piece becomes a new week
    of the last month, and every later piece a new month. The loop is also
    proved to satisfy the predicate `Grouped`. Grouping conserves the matched
    days in order. Neighbouring months differ. Every month has a first week
    that holds a day.
  - The render sweep is a set of methods over integer cursors. They are proved
    against the functions `DayCells`, `LastDayX` and `LabelX`.
- **Languages** (`languages.dfy`): `src/routes/languages.rs`.
  - The WakaTime and GitHub error tables.
  - The per-language byte tally. It is a method over a `map`, proved to keep
    every byte.
  - The top-six selection, specified by order and dominance.
  - The bar and legend layout.
- **Pin** (`pin.dfy`): `src/routes/pin.rs`.
  - Dispatch of the upstream answers.
  - The three cached data routes.
  - The assembly and layout of the Hugging Face tags.
  - The fields of the repository and gist pins.
- **Themes** (`theme.dfy`): `src/data/theme.rs`.
- **HuggingFace** (`huggingface.dfy`) and **PipelineTags** (`pipeline_tag.dfy`):
  the display tables and the `RepoData` accessors of `src/api/huggingface.rs`.
- **Svg** (`svg.dfy`): `src/utils/svg.rs`.
- **Language** (`language.dfy`): `src/data/language.rs`.
- **PreparedTemplates** (`prepared_templates.dfy`): `src/prepared_templates.rs`.
- Supporting modules:
  - **Upstream**: the payload types of the GitHub, WakaTime and Hugging Face answers.
  - **Stats**: the normalised values that are cached and drawn.
  - **ResultCache**: the cache, as a class over a `map`.
  - **Casts**: Rust's `as i32`.
  - **Text**: prefix and substring tests, ASCII case mapping, split and join.
  - **Wrappers**: `Option` and `Result`.

Parameters stand in for functions this model cannot see:

| parameter | stands for |
|---|---|
| `calcWidth` | font measurement at 13 px |
| `wrapRows` | the three-argument `wrap_text` |
| `textWrap` | `textwrap::wrap` |
| `fmtNum` | `fmt_num` |
| `ghHandleError`, `hfHandleError` | the error-message handlers |
| `colors` | the language colour table |
| `fetch…` | the HTTP requests |

## Model

| member | source | states |
|---|---|---|
| Activity.PeriodFromKey | src/routes/activity.rs:67-76 | "year", "6_months" and "3_months" give 365, 180 and 90 days, each if and only if; any other key gives None |
| Activity.WindowDays | src/routes/activity.rs:93-96 | the window is always 365, 180 or 90 days, and an unknown period falls back to 180 |
| Activity.MonthKey | src/routes/activity.rs:120 | a date is cut to its first 7 characters, which are a prefix of it |
| Activity.FindMonthFrom | src/routes/activity.rs:121-124 | the month found is the first whose first day contains the key; None means no month contains it |
| Activity.GroupWeek | src/routes/activity.rs:117-158 | one week's days extend the open month, or close it and open the next when the month name changes, so the tagged days so far equal the earlier matches followed by this week's matched days; ending the week there gives exactly `AddWeek` of the months before the week and the week's matched days |
| Activity.AddDay | src/routes/activity.rs:125-156 | one matched day opens the first month, or closes the open month with the unfinished week and opens its own on a change of month, then joins the unfinished week; the state stays exactly `AddWeek` of the days matched so far |
| Activity.Split | src/routes/activity.rs:137-157 | a week's pieces start in the open month, and the last piece is the month of the last matched day |
| Activity.SplitKeepsDays | src/routes/activity.rs:137-157 | the pieces hold the week's matched days, in order, each labelled with its month |
| Activity.SplitCutsAtChanges | src/routes/activity.rs:137-148 | every piece after the first is of a different month from the piece before it and holds a day |
| Activity.SplitWithinMonth | src/routes/activity.rs:137-157 | a week whose matched days are all of the open month is one piece holding those days |
| Activity.AddWeekWithinMonth | src/routes/activity.rs:137-162 | a week whose matched days are all of the last month adds exactly one week, holding those days, to that month |
| Activity.SplitWeekExample | src/routes/activity.rs:117-167 | two weeks [Jan a1, Jan a2] and [Jan a3, Feb b1] give January with weeks [a1, a2] and [a3], then February with week [b1] |
| Activity.AddWeekFirstDay | src/routes/activity.rs:130-135 | before any month is open, the first matched day opens its month with a week holding that day |
| Activity.AddWeekSameMonth | src/routes/activity.rs:150-156 | a matched day of the last month joins that month's last week |
| Activity.AddWeekNewMonth | src/routes/activity.rs:137-148 | a matched day of another month opens that month with one week holding the day |
| Activity.StartExact | src/routes/activity.rs:117-118 | a week ended before any day matched adds an empty week to the open month |
| Activity.StepFirst | src/routes/activity.rs:130-135 | the loop's first opened month, ended at once, is `AddWeek` with that day |
| Activity.StepNewMonth | src/routes/activity.rs:137-148 | closing the open month on a change of month keeps the loop state equal to `AddWeek` |
| Activity.StepSameMonth | src/routes/activity.rs:150-156 | pushing a day of the open month keeps the loop state equal to `AddWeek` |
| Activity.GroupingSnoc | src/routes/activity.rs:117-162 | one more contribution week extends the calendar by `AddWeek` of its matched days |
| Activity.EndWeek | src/routes/activity.rs:160-162 | closing a week into the open month keeps the grouping invariant and counts one more week once a day has matched |
| Activity.NewMonth | src/routes/activity.rs:137-148 | on a month change the unfinished week (possibly empty) becomes the old month's last week, and the new month starts empty with a different name |
| Activity.Finish | src/routes/activity.rs:165-167 | pushing the open month after the last week yields a calendar that satisfies `Grouped` |
| Activity.GroupByMonth | src/routes/activity.rs:113-167 | the output is exactly `Grouping` of the weeks, and it satisfies `Grouped`: the output's days, labelled with their month, are exactly the days whose 7-character prefix some month's first day contains, in week order; unmatched days are dropped; the output is empty iff nothing matched; neighbouring months differ; every month has a week whose first week has a day; weeks = input weeks from the first match on + one per month change |
| Activity.ActivityCacheKey | src/routes/activity.rs:87 | the key is `github:activity:` followed by `username:period`, and the cache reads it as an activity entry |
| Activity.GetActivityIntl | src/routes/activity.rs:78-173 | an empty username gives FailedFindUser before the cache; a hit returns the cached months unchanged; on a miss, a transport failure gives Unknown, an error message goes to the handler, a null user gives FailedFindUser, and a user gives exactly `Grouping` of its weeks, which is then inserted |
| Activity.DayFill | src/routes/activity.rs:213-216 | a day coloured with one of the five GitHub keys is filled with the theme's colour for that level; any other colour is kept unchanged |
| Activity.LayoutDays | src/routes/activity.rs:202-204 | the cells of all days equal `DayCells` of the flattened calendar; the last drawn x is `LastDayX` |
| Activity.CursorStep | src/routes/activity.rs:212-222 | drawing one day records the cursor as its cell, moves y down by 16, and only a weekday-6 day moves x right by 16 and resets y |
| Activity.LayoutWeek | src/routes/activity.rs:211-225 | the cursor after a week's days is the cursor of the days drawn so far plus that week |
| Activity.LayoutMonth | src/routes/activity.rs:210-228 | the cursor after a month's weeks is the cursor of the days drawn so far plus that month's days |
| Activity.LayoutMonthLabels | src/routes/activity.rs:230-244 | label i is the month's name at `LabelX`: the months' start x, plus 8 when the previous month had exactly one week; the start x grows by 16·min(weeks, 4), +5 for five or more weeks |
| Activity.LayoutWeekLabels | src/routes/activity.rs:250-254 | "Mon", "Wed" and "Fri" at x = 20, 32 apart from y = base + 28 |
| Activity.RenderActivity | src/routes/activity.rs:175-268 | an error renders its card; otherwise cells start at x = 50, y = base + 16·first weekday (base 67 with a title, 35 without); width = last day's x + 32; height 195 with a title, 163 without; month labels at y = base − 6; requires a first month, week and day |
| Activity.CellsLeftToRight | src/routes/activity.rs:217-222 | x never decreases from one cell to the next, and every cell lies within the width |
| Activity.CellRowsAreWeekdays | src/routes/activity.rs:204-221 | when days are consecutive weekdays, each day is drawn at y = base + 16·weekday |
| Activity.MonthLabelsLeftToRight | src/routes/activity.rs:230-244 | when every month has a week, each month label is at least 8 to the right of the previous one |
| Activity.GroupedCanRender | src/routes/activity.rs:187-195 | a grouped calendar with at least one match has the first month, week and day that render unwraps |
| Languages.WakaErrorTemplate | src/routes/languages.rs:70-80 | "Not found." ⇔ FailedFindUser; "Time range not matching user's public stats range." ⇔ FailedFindLanguages; otherwise Unknown |
| Languages.GithubErrorTemplate | src/routes/languages.rs:131-141 | a message containing "rate limit exceeded" gives APIRateLimit, tested before "Bad credentials", which gives BadCredentials; otherwise Unknown |
| Languages.WakaOutcome | src/routes/languages.rs:65-108 | a transport failure gives Unknown; an error goes through the table; NoData and fewer than 6 languages give FailedFindLanguages; otherwise exactly the first 6 in upstream order, coloured from the table, each with percent 100 × its percentage / the sum of the six (0 when either is 0) |
| Languages.WakaTop | src/routes/languages.rs:95-107 | the first six WakaTime entries, in order, as name and percentage |
| Languages.SumPercentsIsShare | src/routes/languages.rs:95-107 | the percentages given to the entries of one total add up to the percentage their summed amounts would get |
| Languages.SharesSumTo100 | src/routes/languages.rs:95-107 | with real arithmetic, shares of a non-zero total sum to exactly 100 |
| Languages.WakaSharesSumTo100 | src/routes/languages.rs:95-107 | the six WakaTime shares sum to 100 unless their percentages sum to 0 |
| Languages.GithubFailure | src/routes/languages.rs:126-150 | the route stops before aggregating exactly on a transport failure (Unknown), an error message (table), a null user (FailedFindUser) or zero repositories (FailedFindLanguages) |
| Languages.TallyStep | src/routes/languages.rs:157-164 | adding one edge's size to its language's entry (or creating it) keeps every total exact |
| Languages.AggregateLanguageBytes | src/routes/languages.rs:152-164 | the keys are exactly the languages that occur; each total is the sum of that language's edge sizes; the totals sum to the sum of all edge sizes |
| Languages.InsertDesc | src/routes/languages.rs:166-168 | inserting an entry into the ordered list adds exactly that entry |
| Languages.SortDesc | src/routes/languages.rs:166-168 | the sort is a permutation of its input |
| Languages.SortDescSorted | src/routes/languages.rs:166-168 | the sort is in non-increasing order of total |
| Languages.SortDescMembers | src/routes/languages.rs:166-168 | the sort has exactly the entries it was given and repeats none |
| Languages.EntriesOf | src/routes/languages.rs:166-167 | the map's entries, each exactly once, in some key order |
| Languages.SelectTop | src/routes/languages.rs:166-170 | min(count, 6) entries of the totals, no name twice, non-increasing, and every unselected total is at most every selected one |
| Languages.TopOfSorted | src/routes/languages.rs:168-170 | any prefix of the sorted distinct entries has the selection's properties |
| Languages.GithubOutcome | src/routes/languages.rs:126-191 | the failures above; otherwise up to six distinct occurring languages with the largest totals, in order, coloured from the table, each with its share of the shown bytes |
| Languages.TopStatsCorrect | src/routes/languages.rs:166-191 | selecting from exact totals and sharing out the selection answers correctly |
| Languages.NoEdgesGivesEmpty | src/routes/languages.rs:148-170 | repositories without any language edge give an empty list, not FailedFindLanguages |
| Languages.WakaLangsKey | src/routes/languages.rs:59 | the key is `wakatime:langs:` followed by the username, read back as a languages entry |
| Languages.GithubLangsKey | src/routes/languages.rs:120 | the key is `github:langs:` followed by the username, read back as a languages entry |
| Languages.TopLangsByWaka | src/routes/languages.rs:55-114 | a hit returns the cached list; a miss returns `WakaOutcome` and inserts it only when it is a success |
| Languages.TopLangsByGithub | src/routes/languages.rs:116-197 | a hit returns the cached list; a miss returns the GitHub outcome and inserts it only when it is a success |
| Languages.LayoutBars | src/routes/languages.rs:210-227 | the first segment starts at x = 20 and each next one starts where the previous ended; widths are 275·percent/100 |
| Languages.LayoutLegend | src/routes/languages.rs:229-251 | entry i's dot is at (20 or 175, its row) and its text at (x + 18, y + 11) |
| Languages.LegendGrid | src/routes/languages.rs:233-247 | among the first six entries, x = 20 for i < 3, else 175, and y = 93 + 24·(i mod 3) |
| Languages.BarsFillTrack | src/routes/languages.rs:216-223 | the segments' widths sum to 275·(sum of shares)/100, so shares summing to 100 exactly fill the track |
| Languages.RenderTopLangs | src/routes/languages.rs:199-261 | an error renders its card; otherwise a card named after the username, with the theme's data, the bar segments and the legend |
| Pin.ParseIcon | src/routes/pin.rs:59-67 | a kind read from a request is the one whose lower-case name was given |
| Pin.ParseIconName | src/routes/pin.rs:59-67 | every kind is read back from its name |
| Pin.DebugName | src/routes/pin.rs:183 | the variant name used in the key reads, lower-cased, as the kind's request name |
| Pin.HfPrefixSpelled | src/routes/pin.rs:183 | the Hugging Face cache prefix is `huggingface:{kind}:` with the kind's variant name |
| Pin.HfFetch | src/routes/pin.rs:146-156 | the endpoint asked matches the kind, and its answer is wrapped as an answer of that kind |
| Pin.HuggingfaceGetData | src/routes/pin.rs:141-171 | a transport failure gives Unknown; a failed answer goes to the Hub's handler; a record is returned as it is, of the kind answered |
| Pin.HuggingfaceDataOfAskedKind | src/routes/pin.rs:141-171 | whatever the Hub answers, any data is of the kind that was asked for |
| Pin.GithubGetData | src/routes/pin.rs:305-318 | a transport failure gives Unknown; an error message goes to the handler; otherwise the repository itself |
| Pin.GistGetData | src/routes/pin.rs:454-468 | as for a repository, and a viewer without that gist gives FailedFindRepo |
| Pin.HfCacheKey | src/routes/pin.rs:183 | the key is the kind's prefix followed by `username:repo`, read back as an entry of that kind |
| Pin.RepoCacheKey | src/routes/pin.rs:329 | the key is `github:repo:` followed by `username:repo`, read back as a repository entry |
| Pin.GistCacheKey | src/routes/pin.rs:478 | the key is `github:gist:` followed by the id, read back as a gist entry |
| Pin.OwnerAndRepoInjective | src/routes/pin.rs:183 | when owners contain no colon, equal `username:repo` parts mean equal owners and repositories |
| Pin.RepoCacheKeyInjective | src/routes/pin.rs:329 | two repository pins share a key only when they are the same pin, for owners without a colon |
| Pin.OwnerAndRepoCollide | src/routes/pin.rs:183 | with a colon in the owner, two different pins share a key |
| Pin.GetHuggingfacePinImpl | src/routes/pin.rs:173-199 | an empty owner or repo gives FailedFindRepo before the cache; a hit returns the cached record; a miss returns the dispatched answer and inserts only a record; data is always of the asked kind |
| Pin.GetGithubPinImpl | src/routes/pin.rs:320-345 | the same discipline for repositories |
| Pin.GetGistPinImpl | src/routes/pin.rs:470-494 | the same discipline for gists; an empty id gives FailedFindRepo |
| Pin.KindTags | src/routes/pin.rs:213-245 | a model offers its model type, then its pipeline's display name; a dataset its first task category; a Space exactly "Running on {hardware}" |
| Pin.LicenseTags | src/routes/pin.rs:253-257 | a license tag exists iff there is a license other than "other", and it is the license upper-cased |
| Pin.AssembleTags | src/routes/pin.rs:213-264 | the tags collected one after another equal the kind tags, then the license, or else the first repository tag |
| Pin.RawTagsShape | src/routes/pin.rs:213-264 | at most three tags; a Space's first is its hardware; a shown license comes last; the repository's own tag appears only alone |
| Pin.PlacedTagsAt | src/routes/pin.rs:266-278 | tag i has width `calcWidth`+8, starts at the cursor after the tags before it, and is visible iff its end is within 400 |
| Pin.LayoutTags | src/routes/pin.rs:266-281 | the strip, moving the cursor by width+10 for every tag kept or not, equals the visible placed tags |
| Pin.KeptTagsArePrefix | src/routes/pin.rs:266-281 | the kept tags are the offered ones, in order, up to the first that does not fit; each ends within 400; each starts at least 10 after the previous one ends |
| Pin.RenderHuggingfacePin | src/routes/pin.rs:201-303 | an error renders its card; otherwise the likes, downloads, kind, kept tags, and the full id as title exactly when the owner is shown |
| Pin.DescriptionRows | src/routes/pin.rs:365-368 | a description is wrapped; without one the single row is "No description provided" |
| Pin.Counter | src/routes/pin.rs:370-381 | a counter is hidden exactly when it is zero, otherwise formatted after the cast to i32 |
| Pin.LangText | src/routes/pin.rs:383-390 | the language shows its name, its text width and its colour from the table |
| Pin.MetaCountersIndent | src/routes/pin.rs:403-407 | the language's width + 35, or 0 without a language |
| Pin.ForksCounterIndent | src/routes/pin.rs:408-412 | the stars' text width + 35, or 0 when the stars are hidden |
| Pin.GithubPinLayout | src/routes/pin.rs:359-412 | the title is `username/repo` when the owner is shown, else the repo; one row iff `isSingleTextRow`; the indents as above |
| Pin.RenderGithubPin | src/routes/pin.rs:347-418 | an error renders its card; otherwise stars and forks are hidden exactly at zero, a language appears iff the repository has one, and no description gives the one fixed row |
| Pin.LargestFile | src/routes/pin.rs:510 | the largest file, and of equally large files the last, as `max_by_key` picks it |
| Pin.RenderGithubGist | src/routes/pin.rs:496-571 | the title is the largest file's name (the gist id when there are no files), its language is shown, the owner is the gist's, and forks are hidden exactly when their i32 cast is zero |
| Pin.GistForksShown | src/routes/pin.rs:537-543 | a non-zero i32 fork count is formatted as that count |
| Pin.GistForksWrapHidden | src/routes/pin.rs:537-542 | a fork total of 2^32 wraps to 0 under the cast to i32, so its counter is hidden |
| Themes.ActivityColorFromKey | src/data/theme.rs:12-21 | a level is found only for its own key |
| Themes.ActivityKeyRoundTrip | src/data/theme.rs:12-21 | each level's key is read back as that level |
| Themes.ActivityColorFromKeyInjective | src/data/theme.rs:12-21 | distinct keys give distinct levels |
| Themes.ActivityColorFromKeyCaseSensitive | src/data/theme.rs:13-14 | the comparison is case-sensitive |
| Themes.ParseTheme | src/data/theme.rs:34-60 | a parsed theme is the one of that name, or CatppuccinMacchiato for the alias "catpuccin-macchiato" |
| Themes.ThemeNameRoundTrip | src/data/theme.rs:34-60 | every theme's name parses back to it |
| Themes.ThemeNameInjective | src/data/theme.rs:34-60 | no two themes share a name |
| Themes.GetDataWellFormed | src/data/theme.rs:63-208 | every theme's five colours are hex colours |
| Themes.GetActivityColorWellFormed | src/data/theme.rs:210-333 | every theme has a hex colour for every level |
| Themes.WhiteKeepsGithubPalette | src/data/theme.rs:255-261 | under White, Small to VeryHigh map back to the GitHub key that produced them |
| Themes.InactiveIsSurface | src/data/theme.rs:117-286 | for Dark, White, OneDarkProFlat, Dracula and KanagawaWave, Inactive is the theme's surface background |
| PipelineTags.PipelineTagNameRoundTrip | src/api/huggingface.rs:13-124 | every pipeline tag's serialised name parses back to it |
| PipelineTags.PipelineTagNameInjective | src/api/huggingface.rs:13-124 | serialised names are pairwise distinct |
| PipelineTags.PipelineTagDisplayRoundTrip | src/api/huggingface.rs:126-189 | every display string identifies its tag |
| PipelineTags.PipelineTagDisplayInjective | src/api/huggingface.rs:126-189 | display strings are pairwise distinct |
| HuggingFace.HardwareDisplayEmpty | src/api/huggingface.rs:307-330 | the display is empty exactly for CpuBasic and CpuXL |
| HuggingFace.HardwareDisplayA10G | src/api/huggingface.rs:307-330 | exactly the four A10G sizes display as "A10G" |
| HuggingFace.HardwareDisplayL40S | src/api/huggingface.rs:307-330 | exactly the three L40S sizes display as "L40S" |
| HuggingFace.GetId | src/api/huggingface.rs:397-403 | the id of the shared base record |
| HuggingFace.GetLikes | src/api/huggingface.rs:405-413 | the base record's likes, formatted after the cast to i32 |
| HuggingFace.GetLicense | src/api/huggingface.rs:415-421 | the license of the base record's card data |
| HuggingFace.GetDownloadsCount | src/api/huggingface.rs:423-429 | None exactly for a Space; a model's or dataset's downloads formatted after the cast to i32 |
| HuggingFace.GetRepoTags | src/api/huggingface.rs:431-437 | the tags of the shared base record |
| Casts.AsI32 | src/api/huggingface.rs:412 | `as i32` gives the value in the i32 range congruent modulo 2^32 |
| Casts.AsI32Small | src/api/huggingface.rs:412 | a value already in range is kept |
| Casts.AsI32LargeU32 | src/api/huggingface.rs:412 | a u32 of 2^31 or more becomes negative, 2^32 less |
| Svg.KeptFrom | src/utils/svg.rs:6-14 | only lines with index ≤ 2 are kept, in order, each unchanged except that the line at index 2 gets "..." |
| Svg.WrapTextLines | src/utils/svg.rs:4-22 | the markup splits back at "\n" into one tspan per wrapped line, at most three, the third ending in "..." |
| Language.LangColor | src/data/language.rs:10-15 | the colour is a table colour or "#818181", and "#818181" whenever the lower-cased name is absent |
| Language.LangColorFromTable | src/data/language.rs:10-13 | a lower-case name in the table gets its table colour |
| Language.LangColorIgnoresCase | src/data/language.rs:11 | names differing in ASCII letter case get the same colour |
| PreparedTemplates.Render | src/prepared_templates.rs:16-46 | both lines of every card are non-empty, and the "spelled correctly" second line belongs exactly to FailedFindUser and FailedFindRepo |
| PreparedTemplates.FirstLineIdentifiesTemplate | src/prepared_templates.rs:17-42 | the first lines are pairwise distinct |
| ResultCache.Cache.Get | src/routes/pin.rs:184-187 | a hit iff the key is present, and the hit is the stored entry, of the key's kind |
| ResultCache.Cache.Insert | src/routes/pin.rs:195-196 | the entry is stored under its key and nothing else changes |
| Text.ToLower | src/data/language.rs:11 | same length, each character lower-cased |
| Text.ToUpper | src/routes/pin.rs:255 | same length, each character upper-cased |
| Text.SplitJoin | src/utils/svg.rs:21 | joining separator-free parts and splitting at the separator gives the parts back |

## Left out

- Network and clocks: the HTTP clients, `Utc::now` and the RFC 3339 date
  window are not modelled. A fetch is a parameter that takes the window length
  in days (activity) or the owner and repository (pins).
- The cache's TTL, LRU eviction and capacity are not modelled; the cache is a
  map with get and insert only.
- The cache stores JSON text. Here it holds typed snapshots, so the serde round
  trip of the cached value is taken as exact. `ResultCache.Cache.Valid` ties
  each key's prefix to the kind of snapshot stored under it.
- Language shares and bar widths use `real`, not `f64`/`f32` with rounding.
  A zero total, which gives NaN in the source, gives a share of 0 here.
- `calc_width`, the three-argument `wrap_text`, `textwrap::wrap`, `fmt_num`
  (`human_format`) and the two error-message handlers are uninterpreted
  parameters. The language colour table `lang2hex.json` is an abstract map.
- Text.ToLower / Text.ToUpper map ASCII letters only; Rust's full Unicode case
  mapping is not modelled.
- SVG markup: the render functions produce records of coordinates, colours and
  texts instead of `format!` strings. The `<g>` grouping of days into weeks and
  months is not kept. The templates (`src/templates.rs`) are not part of this
  model.
- Activity.RenderActivity computes the day cells and the month labels in two
  passes over the calendar; the source computes both in one nested `map`. The
  values are the same.
- Activity.RenderActivity requires a first month, week and day on success, where
  the source panics on `unwrap`. Activity.GroupedCanRender shows that a grouped
  calendar with at least one match meets this.
- Activity.GroupByMonth requires every date to be at least 7 characters long,
  where the source's `split_off(7)` panics.
- Integer widths: the activity cursors (`i32`), byte totals (`i64`) and
  `usize` widths are unbounded integers. Only the `as i32` casts before
  `fmt_num` and in the gist's fork count are modelled.
- Cache keys are built with `:` separators. An owner containing `:` can make
  two pins share a key (Pin.OwnerAndRepoCollide); keys are unique only for
  owners without a colon (Pin.OwnerAndRepoInjective).
- The axum handlers, query-parameter defaults, `src/main.rs`,
  `src/data/config.rs`, the health and index routes, and the browser scripts are
  not part of this model.
- The language selection breaks ties among equal totals in whatever order the
  map's keys are picked. The source's `HashMap` iteration order is unspecified.
  The model promises only order and dominance, not one tie order.
