# DevWrapped core, modelled in Dafny

DevWrapped turns a GitHub user's public profile into a "year in review":
it fetches the profile, a commit search, the repository list and the recent
event stream, aggregates them into a statistics record, asks a language model
(through a serverless proxy) for a narrative, and walks the user through a
sequence of slides.

This project models the logic underneath that flow and proves what it
guarantees:

- **GitHub aggregation** (`github_service.dfy`, module `GitHubService`, with
  the generic counters of `counting.dfy`, module `Counting`): the mapping of
  HTTP statuses to typed errors; the per-language counts and the top three
  languages; the five recent repositories with their defaults; the set of
  active days; the current streak; the activity label; the most active month;
  the active-day estimate; and the whole `fetchGitHubData` with the first
  failing request deciding the error. The counting loops, the active-day loop
  and the streak loop are methods with loop invariants, each proved equal to
  a specification function whose properties are proved as lemmas.
- **Year availability** (`date_utils.dfy`, module `DateUtils`): the 90-day
  rule that decides which years are offered and how a selected year is
  described, with "now" injected.
- **The wizard** (`app.dfy`, module `App`): the `App` component's state as a
  class whose methods are `startAnalysis`, `nextStep`, `prevStep` and the
  reset from the share card, plus which screen each step renders and the
  progress footer.
- **The model proxy** (`gemini_proxy.dfy`, module `GeminiProxy`): the
  method, key and body checks, the model-name and year defaults, the
  first-match error classifier and the response each path produces. An
  error body is given as the kind of message it carries; `MessageText`
  holds the exact wording of each.
- **Scroll milestones** (`mixpanel.dfy`, module `Mixpanel`): the choice of
  at most one of five milestones for a scroll percentage, and the event
  that would be sent.
- **Shared shapes** (`types.dfy`, module `Types`): the `Step` enum as the
  consecutive integers 0..7, and the `GitHubStats` and `AIInsights` records.
  `strings.dfy` (module `Strings`) holds JavaScript's `||` defaulting,
  `includes`, `padStart` and number formatting; `wrappers.dfy` holds
  `Option` and `Result`.

Inputs the code reads from the outside world are parameters: the four GitHub
responses (status, `x-ratelimit-remaining` header, decoded body), the current
instant, the outcome of parsing a request body, the outcome of the model call
and of the JSON check of its answer. An event is given with its raw
`created_at` text, the day number of its date (whole days, as `new Date` on the
`YYYY-MM-DD` prefix yields them) and the index of its month in the browser's
time zone.

The code computes less than its own declarations suggest, and the model
follows what it computes. `types.ts` declares a `longestStreak` (line 22), a
`'sporadic'` activity pattern (line 26) and a monthly `contributionGrid` with
levels (line 27); `services/githubService.ts` never produces any of them, so an
account without events is labelled "burst". The prompt presents `activeDays`
as "Active Development Days" (`netlify/functions/gemini-proxy.ts:95`), but the
value is `max(distinct days, floor(commits / 2.5))`
(`services/githubService.ts:101`), not the number of days with events. The
"Current Streak" (`gemini-proxy.ts:98`) is the run of consecutive days ending
at the latest active day (`githubService.ts:78-91`), whether or not that day is
today.

## Model

| member | source | states |
|---|---|---|
| GitHubService.StatusError | services/githubService.ts:14-32 | no error exactly for a 2xx status; 401 is AUTH_INVALID; 403 is RATE_LIMIT exactly when the remaining-quota header is "0", else FORBIDDEN; 404 is USER_NOT_FOUND with the username; 500 and above is SERVER_OFFLINE; any other status is CORE_ERROR carrying it |
| GitHubService.ErrorMessage | services/githubService.ts:17-32 | every thrown message starts with its error code followed by ": " |
| GitHubService.FetchWithAuth | services/githubService.ts:12-35 | an ok response yields its body and never an error; any other yields exactly the error of its status |
| GitHubService.RecentRepos | services/githubService.ts:48-54 | the first min(5, n) repositories in order, name, URL and stars copied, description defaulting to "No description provided." and language to "Unknown", neither ever empty |
| GitHubService.CountLanguages | services/githubService.ts:56-60 | the loop's counter equals the tally of the truthy languages in list order |
| GitHubService.LanguageOccurrences | services/githubService.ts:56-60 | the count accumulated for a language is the number of repositories whose language is that one |
| GitHubService.LanguageCounts | services/githubService.ts:56-60 | the counter has one entry per language that some repository has (null and empty languages never appear), each counting exactly those repositories, in first-seen order |
| GitHubService.TopEntriesSpec | services/githubService.ts:62-65 | the top list holds min(3, n) counter entries, by non-increasing count; nothing left out counts more than anything kept; among equal counts the kept ones are an order-preserving prefix of the first seen |
| GitHubService.TopLanguagesFallback | services/githubService.ts:109 | the published list has one to three entries and is exactly [{Unknown, 0}] when no language was seen |
| GitHubService.DatePrefix | services/githubService.ts:73 | the date key is the longest prefix of `created_at` without a 'T', ending just before the first 'T' |
| GitHubService.DateKeys | services/githubService.ts:72-76 | one date key per event, in event order |
| GitHubService.ActiveDays | services/githubService.ts:69-74 | the active days are duplicate-free, no more than the events, and hold exactly the days on which some event happened |
| GitHubService.DayCountMatchesKeyCount | services/githubService.ts:69-74 | when date keys and day numbers identify the same events, there are as many distinct days as distinct date strings |
| GitHubService.CollectActiveDays | services/githubService.ts:69-76 | the loop builds exactly the active-day set and the list of date keys |
| GitHubService.SortDescending | services/githubService.ts:80 | the active days, each once, strictly latest first |
| GitHubService.StreakOf | services/githubService.ts:78-91 | zero exactly without active days; otherwise between 1 and the number of distinct days, every day of the run ending at the latest active day is active and the day before it is not |
| GitHubService.CurrentStreak | services/githubService.ts:78-91 | the streak loop, with its break at the first gap, computes exactly that run length; today is not consulted |
| GitHubService.StreakFromSorted | services/githubService.ts:83-90 | a prefix of consecutive days of the descending list that ends at a gap (or at the end) has the length of the run ending at the latest day |
| GitHubService.ActivityPatternOf | services/githubService.ts:93 | "consistent" exactly above 15 distinct days, else "burst", never "sporadic" |
| GitHubService.CountMonths | services/githubService.ts:94-98 | the loop's month counter equals the tally of the events' months in event order |
| GitHubService.MostActiveMonthSpec | services/githubService.ts:94-99 | without events there is no top month (so "October" is shown); otherwise the name shown is that of the top month of the sorted counter, a month with the largest event count, the first-seen one among ties |
| GitHubService.TotalCommits | services/githubService.ts:43 | `total_count` when the search result has one, otherwise 0 |
| GitHubService.MostActiveMonth | services/githubService.ts:99 | the long name of the top month of the counter, or "October" when there is none; always one of the twelve month names |
| GitHubService.EstimatedActiveDays | services/githubService.ts:101 | never below the distinct-day count; equals the larger of that count and floor(commits / 2.5) |
| GitHubService.LastActivity | services/githubService.ts:115 | the first date key when there is one and it is non-empty, otherwise the date part of the current instant |
| GitHubService.BuildStats | services/githubService.ts:103-117 | profile fields copied; `topLanguages` is the top three of the language counter, or [{Unknown, 0}] without languages; the fields the code does not set are absent; `totalCommits` is `total_count` or 0; repositories are public plus private-or-0; `activeDays` is the larger of the distinct-day count and floor(2t/5); the streak is the run ending at the latest active day; "October" without events, otherwise the name of the top month; `firstActivity` is "2024-01-01"; `lastActivity` is the date of the first event, or today's without one |
| GitHubService.FetchGitHubData | services/githubService.ts:37-117 | succeeds exactly when all four responses are ok; otherwise fails with the error of the first failing one, in request order; on success returns the statistics built from the four bodies |
| GitHubService.StatsConsistency | services/githubService.ts:78-117 | streak ≤ distinct days ≤ published active days, distinct days ≤ events, streak 0 exactly without events, label consistent with the day count, one to three top languages, at most five recent repositories; with consistent dates the label and `activeDays` are those of the number of distinct date strings, the size of the `Set` |
| Counting.Bump | services/githubService.ts:58 | an increment adds a new key with count 1 at the end, or raises exactly that key's count by one, keeping keys distinct and in place |
| Counting.Tally | services/githubService.ts:56-60 | the counter has distinct keys, one per item value seen, each counting that value's occurrences |
| Counting.TallyFirstSeen | services/githubService.ts:62 | `Object.entries` order: entries appear in the order their keys were first seen |
| Counting.SortByCount | services/githubService.ts:64 | the sort is a permutation of the entries by non-increasing count |
| Counting.SortStable | services/githubService.ts:64 | the sort is stable: entries with equal count keep their relative order |
| Counting.SortedHead | services/githubService.ts:99 | the first sorted entry is the earliest entry with the largest count |
| Counting.TallyMode | services/githubService.ts:94-99 | the head key of the sorted counter is a most frequent item, seen before any other equally frequent one |
| Counting.Distinct | services/githubService.ts:69-74 | a `Set` built by `add` holds each seen value once and nothing else, in the order of first insertion |
| Counting.SameGroupingCount | services/githubService.ts:69-74 | two labellings that agree on which events coincide have equally many distinct values |
| DateUtils.DaysSinceYearStart | utils/dateUtils.ts:14-17 | the floor of the elapsed milliseconds over a day's length; non-negative on a real clock |
| DateUtils.DaysFromPreviousYear | utils/dateUtils.ts:36 | the two day counts add up to the 90-day window; the previous-year share is positive exactly below 90 days |
| DateUtils.CalculateYearAvailability | utils/dateUtils.ts:11-48 | at 90 days or more: current year only, no selection, the "limited to last 90 days" note; below: current and previous year, selection enabled, the split note; the two flags are always each other's negation |
| DateUtils.AvailabilityWindow | utils/dateUtils.ts:22-46 | on a real clock the current year is offered first, a second year (the previous one) exactly below 90 days, and then both day counts lie within the window |
| DateUtils.GetYearDisplayInfo | utils/dateUtils.ts:50-79 | the current year is "partial" in both sub-branches, any other year "mixed"; "full" never occurs; the current year is described as its last 90 days once 90 days have passed and by its elapsed day count before that; any other year quotes the previous-year share `90 - daysSinceYearStart` of the window, next to the current year |
| DateUtils.PreviousYearFigureGoesNegative | utils/dateUtils.ts:71-78 | for another year after day 90 the quoted day figure is negative and printed with a minus sign |
| Types.Ord | types.ts:60-69 | the enum values are 0..7 |
| Types.FromOrd | types.ts:60-69 | each of 0..7 names exactly one step |
| Types.OrdRoundTrip | types.ts:60-69 | step and number convert back and forth without loss |
| App.NextStepOf | App.tsx:88-92 | below Share the step advances by exactly one; Share stays |
| App.PrevStepOf | App.tsx:94-100 | above Stats the step goes back by one; Stats goes to Entry; Entry and Analysis stay |
| App.NavigationRoundTrip | App.tsx:88-100 | next then back returns on Stats..Archetype, back then next returns above Stats; Entry, Analysis, Stats are consecutive forwards |
| App.RenderStep | App.tsx:102-128 | the share screen shows exactly when the step is Share and both stats and insights are present; each slide renders nothing without its data; the landing page shows the current error |
| App.SlidesHaveData | App.tsx:102-124 | after a successful analysis no slide from Stats on is empty, and five forward steps reach the share screen |
| App.ProgressFooter | App.tsx:151-159 | shown exactly for Stats ≤ step < Share; caption "Process_0" and the slide number 1..5; bar fraction within [0, 1], empty on Stats and full on Archetype |
| App.AppState.constructor | App.tsx:61-65 | starts on Entry with no user, data or error |
| App.AppState.BeginAnalysis | App.tsx:67-70 | records the user, shows the loader and clears the error, touching nothing else |
| App.AppState.StartAnalysis | App.tsx:67-86 | both calls succeed: stats and insights stored, step Stats, no error; insights fail: stats already stored, back to Entry with the message or "Failed to analyze GitHub profile."; fetch fails: nothing stored, back to Entry with the message or the fallback |
| App.AppState.NextStep | App.tsx:88-92 | moves the step as `NextStepOf`, nothing else changes |
| App.AppState.PrevStep | App.tsx:94-100 | moves the step as `PrevStepOf`, nothing else changes |
| App.AppState.Reset | App.tsx:118-121 | from the share screen, returns to the landing page keeping the data |
| GeminiProxy.ModelName | netlify/functions/gemini-proxy.ts:187 | a non-empty model name is used as given, otherwise "gemini-3-flash-preview" |
| GeminiProxy.AnalysisYear | netlify/functions/gemini-proxy.ts:75 | a given non-zero analysis year is used, otherwise the current year |
| GeminiProxy.YearContext | netlify/functions/gemini-proxy.ts:76-79 | the partial-year wording exactly when the analysed year is the current one (the phrase `Handle` passes to the model) |
| GeminiProxy.ClassifyError | netlify/functions/gemini-proxy.ts:349-370 | the first matching substring group decides: auth 401, rate limit 429, safety 400, timeout 408, size 413; 500 with the GEMINI_INTERNAL_ERROR message carrying the error text exactly when none matches |
| GeminiProxy.KeyBeatsRateLimit | netlify/functions/gemini-proxy.ts:355-361 | a message containing both "key" and "429" matches the rate-limit group yet is classified 401 |
| GeminiProxy.EmptyMessageIsInternal | netlify/functions/gemini-proxy.ts:349-352 | an error without a message is a 500 whose text is "GEMINI_INTERNAL_ERROR: Session failed to initialize." |
| GeminiProxy.CatchResponse | netlify/functions/gemini-proxy.ts:335-384 | the catch block answers with the classified status and text, the error's name (or "Unknown") and the model name in the headers |
| GeminiProxy.Handle | netlify/functions/gemini-proxy.ts:4-386 | OPTIONS gets 200 with the CORS headers and an empty body; other non-POST methods 405; a POST without key 500 GEMINI_CONFIG_ERROR; an unparsable body goes to the catch block with the default model; no stats 400 "Missing stats data"; stats whose `topLanguages` or `recentRepos` cannot be mapped make the prompt template throw into the catch block, with no model call; the model is called exactly otherwise, with the defaulted model and year and the year phrase that says "current" exactly for the current year; a model error is answered by the catch block, an empty answer 500 GEMINI_NULL_TRACE with no headers, a valid or repaired answer 200 with its text and the JSON headers, an unrepairable one 500 GEMINI_JSON_MALFORMED with the parse message; 200 exactly for preflight and a non-empty answer that is or was repaired into valid JSON |
| GeminiProxy.ConfigCheckedFirst | netlify/functions/gemini-proxy.ts:39-47 | without a key the answer does not depend on the body or the model: always the same 500 |
| GeminiProxy.UnparsableBodyClassified | netlify/functions/gemini-proxy.ts:349-370 | a body parse error mentioning "token" goes through the classifier and is answered 413 with the default model in the headers |
| GeminiProxy.ModelRateLimitClassified | netlify/functions/gemini-proxy.ts:335-384 | an error thrown by the model call that mentions "429" and no API key is answered 429 with the rate-limit text and the called model in `X-AI-Model` |
| GeminiProxy.ModelHeaderNamesModel | netlify/functions/gemini-proxy.ts:310-384 | every `X-AI-Model` header is non-empty and names the model that was called; every allowed origin is "*" |
| Mixpanel.Find | services/mixpanelService.ts:37 | the result is a milestone whose window holds p, the first one in list order; none exactly when no window holds p |
| Mixpanel.MilestoneUnique | services/mixpanelService.ts:36-37 | the windows are disjoint, so at most one milestone matches; none between 30 and 50, below 25 or from 105 |
| Mixpanel.TrackScrollDepth | services/mixpanelService.ts:34-46 | an event exactly when a milestone matches, named "Scroll Depth", reporting the milestone (not p) and the page unless the extra properties override them; the extra properties are all present and nothing else is added |
| Mixpanel.ReportedPercentage | services/mixpanelService.ts:36-45 | the reported percentage is one of the five milestones, at most five points below the real one |
| Strings.OrDefault | services/githubService.ts:51-52 | `value \|\| fallback`: the value when it is a non-empty string, otherwise the fallback |
| Strings.ContainsWitness | netlify/functions/gemini-proxy.ts:355-367 | `includes` holds whenever t occurs at some position of s |
| Strings.ContainsHasPosition | netlify/functions/gemini-proxy.ts:355-367 | conversely, every `includes` hit has a position where t occurs |
| Strings.IntToString | utils/dateUtils.ts:31-77 | a number in a template literal starts with a minus sign exactly when negative; otherwise it is the decimal rendering of the number, and after the sign that of its magnitude |
| Strings.NatToStringRoundTrip | utils/dateUtils.ts:31-77 | the decimal rendering reads back as the number it renders and has no leading zero |
| Strings.PadStart | App.tsx:154 | `padStart`: the string right-aligned in the requested width, filled on the left |

## Left out

- The `fetch` calls, URL building, request headers and token, and JSON decoding: the four responses are inputs, with only the fields the code reads.
- `new Date` and `toLocaleString`: the day number and month index of each event and the current instant are inputs; string dates are assumed to be well-formed `YYYY-MM-DD...` texts, for which sorting the strings and sorting the day numbers agree.
- Floating point: `diff <= 1.1` between distinct whole days is `diff == 1`, and `floor(t / 2.5)` is computed exactly as `(2t) / 5`.
- Counter objects whose keys look like array indices (a language named "123") are ordered first by `Object.entries`; the model keeps plain insertion order for every key.
- GitHubService.BuildStats: `longestStreak`, `contributionGrid`, `allLanguages`, `reposCreatedThisYear`, `followers`, `following`, `totalStarsReceived`, `accountAge`, `bio`, `company`, `location` and `analysisYear` are not set by the code and are left `None`.
- The language-model call, the prompt text and the regular-expression repair of its JSON answer: their outcomes are inputs.
- GeminiProxy.Handle: whether the prompt template throws is an input (`PromptBuild`), not derived from the shape of `stats`; the TypeError's name and message, which depend on the JavaScript engine, are part of that input.
- The `X-Processing-Time` header and all timing, logging and console output.
- services/geminiService.ts, services/security.ts, the analytics and `sessionStorage` calls, `trackEvent`, `identifyUser`, `trackTimeOnPage` and the other tracking helpers: foreign calls or timing without logic to prove.
- App.AppState.StartAnalysis: the 3.5-second `setTimeout` before the Stats slide is not modelled; the method ends in the state reached after it fires.
- React rendering, styling, background animation and the components under components/.
- Mixpanel.TrackScrollDepth: a percentage that is NaN is not modelled.
