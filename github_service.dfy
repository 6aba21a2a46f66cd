/**
 * The aggregation performed by `fetchGitHubData` (services/githubService.ts)
 * once the four JSON responses are in hand: status codes become typed errors,
 * repositories become language counts and a recent-project list, events become
 * an active-day set, a current streak, a most active month and an activity label.
 *
 * The HTTP responses, the current date and the parsing done by `Date` are
 * inputs. An event carries its raw `created_at` text together with the day
 * number of its date prefix (what `new Date(prefix)` yields, in whole UTC days)
 * and the index of its calendar month in the browser's time zone.
 */
module GitHubService {
  import opened Wrappers
  import opened Strings
  import opened Types
  import opened Counting

  function Min(a: int, b: int): int { if a <= b then a else b }

  function Max(a: int, b: int): int { if a >= b then a else b }

  // ---------------------------------------------------------------------------
  // Responses and typed errors (fetchWithAuth)
  // ---------------------------------------------------------------------------

  /** A response: its status, its `x-ratelimit-remaining` header and its decoded JSON body. */
  datatype Response<T> = Response(status: int, rateLimitRemaining: Option<string>, body: T)

  datatype GitHubError =
    | AuthInvalid
    | RateLimit
    | Forbidden
    | UserNotFound(username: string)
    | ServerOffline
    | CoreError(status: int)

  /** `res.ok`: a 2xx status. */
  predicate IsOk(status: int)
  {
    200 <= status <= 299
  }

  /** The error `fetchWithAuth` throws for a status, or None when the response is ok. */
  function StatusError(status: int, rateLimitRemaining: Option<string>, username: string): (e: Option<GitHubError>)
    ensures e.None? <==> IsOk(status)
    ensures status == 401 ==> e == Some(AuthInvalid)
    ensures status == 403 ==> e == Some(if rateLimitRemaining == Some("0") then RateLimit else Forbidden)
    ensures status == 404 ==> e == Some(UserNotFound(username))
    ensures status >= 500 ==> e == Some(ServerOffline)
    ensures !IsOk(status) && status != 401 && status != 403 && status != 404 && status < 500 ==>
      e == Some(CoreError(status))
  {
    if IsOk(status) then None
    else if status == 401 then Some(AuthInvalid)
    else if status == 403 then
      (if rateLimitRemaining == Some("0") then Some(RateLimit) else Some(Forbidden))
    else if status == 404 then Some(UserNotFound(username))
    else if status >= 500 then Some(ServerOffline)
    else Some(CoreError(status))
  }

  /** The code each error message starts with. */
  function ErrorCode(e: GitHubError): string
  {
    match e
    case AuthInvalid => "GITHUB_AUTH_INVALID"
    case RateLimit => "GITHUB_RATE_LIMIT"
    case Forbidden => "GITHUB_FORBIDDEN"
    case UserNotFound(_) => "GITHUB_USER_NOT_FOUND"
    case ServerOffline => "GITHUB_SERVER_OFFLINE"
    case CoreError(_) => "GITHUB_CORE_ERROR"
  }

  /** The `message` of the thrown Error: its code, a colon, and a human-readable explanation. */
  function ErrorMessage(e: GitHubError): (m: string)
    ensures |m| >= |ErrorCode(e)| + 2
    ensures m[..|ErrorCode(e)| + 2] == ErrorCode(e) + ": "
  {
    var prefix := ErrorCode(e) + ": ";
    assert (prefix + Explanation(e))[..|prefix|] == prefix;
    prefix + Explanation(e)
  }

  /** The text after the code in each thrown message. */
  function Explanation(e: GitHubError): string
  {
    match e
    case AuthInvalid => "The provided Personal Access Token is unauthorized or has expired."
    case RateLimit => "API quota exceeded. Please use a Personal Access Token to increase your limits."
    case Forbidden => "Access denied. This may be due to repository privacy restrictions."
    case UserNotFound(u) => "The user profile \"" + u + "\" does not exist."
    case ServerOffline => "GitHub services are currently experiencing high latency or downtime."
    case CoreError(s) => "Received status " + IntToString(s) + " from telemetry source."
  }

  /** `fetchWithAuth`: the decoded body of an ok response, the typed error of any other. */
  function FetchWithAuth<T>(res: Response<T>, username: string): (r: Result<T, GitHubError>)
    ensures r.Success? <==> IsOk(res.status)
    ensures r.Success? ==> r.value == res.body
    ensures r.Failure? ==> StatusError(res.status, res.rateLimitRemaining, username) == Some(r.error)
  {
    match StatusError(res.status, res.rateLimitRemaining, username)
    case None => Success(res.body)
    case Some(e) => Failure(e)
  }

  // ---------------------------------------------------------------------------
  // Repositories: recent projects and language counts
  // ---------------------------------------------------------------------------

  /** The fields of one element of the repository list that the code reads. */
  datatype RepoJson = RepoJson(
    name: string,
    htmlUrl: string,
    description: Option<string>,
    language: Option<string>,
    stargazersCount: int)

  const NoDescription := "No description provided."
  const UnknownLanguage := "Unknown"

  function ToGitHubRepo(repo: RepoJson): GitHubRepo
  {
    GitHubRepo(repo.name, repo.htmlUrl, OrDefault(repo.description, NoDescription),
               OrDefault(repo.language, UnknownLanguage), repo.stargazersCount)
  }

  /** `reposData.slice(0, 5).map(...)`: the first five repositories with defaults filled in. */
  function RecentRepos(repos: seq<RepoJson>): (recent: seq<GitHubRepo>)
    ensures |recent| == Min(5, |repos|)
    ensures forall i :: 0 <= i < |recent| ==>
      && recent[i].name == repos[i].name
      && recent[i].url == repos[i].htmlUrl
      && recent[i].stars == repos[i].stargazersCount
      && recent[i].description == OrDefault(repos[i].description, NoDescription)
      && recent[i].language == OrDefault(repos[i].language, UnknownLanguage)
    ensures forall i :: 0 <= i < |recent| ==> recent[i].description != "" && recent[i].language != ""
  {
    seq(Min(5, |repos|), i requires 0 <= i < Min(5, |repos|) => ToGitHubRepo(repos[i]))
  }

  /** The languages the counting loop feeds to `langMap`, in list order: only truthy ones. */
  function LanguagesOf(repos: seq<RepoJson>): (langs: seq<string>)
    ensures |langs| <= |repos|
    ensures "" !in langs
    decreases |repos|
  {
    if repos == [] then []
    else
      var init, last := repos[..|repos| - 1], repos[|repos| - 1];
      LanguagesOf(init) + (if Truthy(last.language) then [last.language.value] else [])
  }

  /** Indices of the repositories whose language is l. */
  function ReposWithLanguage(repos: seq<RepoJson>, l: string): set<nat>
  {
    set i: nat | i < |repos| && repos[i].language == Some(l)
  }

  /** The count the loop accumulates for a language is the number of repositories with that language. */
  lemma {:induction false} LanguageOccurrences(repos: seq<RepoJson>, l: string)
    requires l != ""
    ensures multiset(LanguagesOf(repos))[l] == |ReposWithLanguage(repos, l)|
    decreases |repos|
  {
    if repos != [] {
      var n := |repos| - 1;
      LanguageOccurrences(repos[..n], l);
      LanguagesSnoc(repos, l);
      ReposWithLanguageSnoc(repos, l);
    }
  }

  /** One repository more adds one occurrence of l exactly when its language is l. */
  lemma LanguagesSnoc(repos: seq<RepoJson>, l: string)
    requires repos != [] && l != ""
    ensures multiset(LanguagesOf(repos))[l] ==
      multiset(LanguagesOf(repos[..|repos| - 1]))[l] + (if repos[|repos| - 1].language == Some(l) then 1 else 0)
  {
    var last := repos[|repos| - 1];
    var extra := if Truthy(last.language) then [last.language.value] else [];
    assert LanguagesOf(repos) == LanguagesOf(repos[..|repos| - 1]) + extra;
  }

  /** One repository more adds its index exactly when its language is l. */
  lemma ReposWithLanguageSnoc(repos: seq<RepoJson>, l: string)
    requires repos != []
    ensures var n := |repos| - 1;
      && n !in ReposWithLanguage(repos[..n], l)
      && ReposWithLanguage(repos, l) ==
           ReposWithLanguage(repos[..n], l) + (if repos[n].language == Some(l) then {n} else {})
  {
    var n := |repos| - 1;
    var before := ReposWithLanguage(repos[..n], l);
    forall i: nat ensures i in ReposWithLanguage(repos, l) <==> i in before || (i == n && repos[n].language == Some(l)) {
      if i < n {
        assert repos[i] == repos[..n][i];
      }
    }
  }

  /**
   * The `forEach` that fills `langMap`: one bump per repository with a truthy
   * language, in list order.
   */
  method CountLanguages(repos: seq<RepoJson>) returns (langMap: seq<Entry<string>>)
    ensures langMap == Tally(LanguagesOf(repos))
  {
    langMap := [];
    for i := 0 to |repos|
      invariant langMap == Tally(LanguagesOf(repos[..i]))
    {
      ghost var next := repos[..i + 1];
      assert next[..i] == repos[..i] && next[i] == repos[i];
      assert LanguagesOf(next) == LanguagesOf(repos[..i]) + (if Truthy(repos[i].language) then [repos[i].language.value] else []);
      if Truthy(repos[i].language) {
        TallySnoc(LanguagesOf(repos[..i]), repos[i].language.value);
        langMap := Bump(langMap, repos[i].language.value);
      } else {
        assert LanguagesOf(next) == LanguagesOf(repos[..i]);
      }
    }
    assert repos[..|repos|] == repos;
  }

  /**
   * Each `langMap` entry counts exactly the repositories whose language is its
   * key; repositories without a language (null or empty) contribute nothing, and
   * entries appear in the order languages were first met.
   */
  lemma LanguageCounts(repos: seq<RepoJson>)
    ensures DistinctKeys(Tally(LanguagesOf(repos)))
    ensures forall l :: HasKey(Tally(LanguagesOf(repos)), l) <==> l != "" && ReposWithLanguage(repos, l) != {}
    ensures forall e :: e in Tally(LanguagesOf(repos)) ==> e.key != "" && e.count == |ReposWithLanguage(repos, e.key)|
    ensures forall i, j :: 0 <= i < j < |Tally(LanguagesOf(repos))| ==>
      FirstIndex(LanguagesOf(repos), Tally(LanguagesOf(repos))[i].key) <
      FirstIndex(LanguagesOf(repos), Tally(LanguagesOf(repos))[j].key)
  {
    var langs := LanguagesOf(repos);
    var es := Tally(langs);
    forall l ensures HasKey(es, l) <==> l != "" && ReposWithLanguage(repos, l) != {} {
      if l != "" {
        LanguageOccurrences(repos, l);
      }
    }
    forall e | e in es ensures e.key != "" && e.count == |ReposWithLanguage(repos, e.key)| {
      var i :| 0 <= i < |es| && es[i] == e;
      assert HasKey(es, e.key);
      LanguageOccurrences(repos, e.key);
    }
    TallyFirstSeen(langs);
  }

  /** `Object.entries(langMap).map(...)`: each entry as a `{ name, count }` record. */
  function ToLanguageStats(es: seq<Entry<string>>): (stats: seq<LanguageStat>)
    ensures |stats| == |es|
    ensures forall i :: 0 <= i < |es| ==> stats[i] == LanguageStat(es[i].key, es[i].count)
  {
    seq(|es|, i requires 0 <= i < |es| => LanguageStat(es[i].key, es[i].count))
  }

  /** The entries `.sort((a, b) => b.count - a.count).slice(0, 3)` keeps. */
  function TopEntries(langMap: seq<Entry<string>>): seq<Entry<string>>
  {
    var sorted := SortByCount(langMap);
    sorted[..Min(3, |sorted|)]
  }

  /** `topLanguages` before the fallback. */
  function TopLanguages(langMap: seq<Entry<string>>): seq<LanguageStat>
  {
    ToLanguageStats(TopEntries(langMap))
  }

  /** The `topLanguages` field: the computed list, or `[{ name: 'Unknown', count: 0 }]` when it is empty. */
  function TopLanguagesOrUnknown(top: seq<LanguageStat>): seq<LanguageStat>
  {
    if |top| > 0 then top else [LanguageStat(UnknownLanguage, 0)]
  }

  lemma {:induction false} WithCountPrefix<K>(es: seq<Entry<K>>, k: nat, c: nat)
    requires k <= |es|
    ensures WithCount(es[..k], c) <= WithCount(es, c)
  {
    if k > 0 {
      assert es[..k][1..] == es[1..][..k - 1];
      WithCountPrefix(es[1..], k - 1, c);
    }
  }

  /**
   * The top list holds at most three entries of `langMap`, by non-increasing
   * count; nothing left out has a larger count than anything kept; among
   * entries of equal count the kept ones are the first seen, in first-seen order.
   */
  lemma TopEntriesSpec(langMap: seq<Entry<string>>)
    ensures |TopEntries(langMap)| == Min(3, |langMap|)
    ensures SortedByCount(TopEntries(langMap))
    ensures forall e :: e in TopEntries(langMap) ==> e in langMap
    ensures forall e, i :: e in langMap && e !in TopEntries(langMap) && 0 <= i < |TopEntries(langMap)| ==>
      e.count <= TopEntries(langMap)[i].count
    ensures forall c: nat :: WithCount(TopEntries(langMap), c) <= WithCount(langMap, c)
  {
    TopEntriesKept(langMap);
    TopEntriesMaximal(langMap);
    forall c: nat ensures WithCount(TopEntries(langMap), c) <= WithCount(langMap, c) {
      WithCountPrefix(SortByCount(langMap), Min(3, |langMap|), c);
      SortStable(langMap, c);
    }
  }

  lemma TopEntriesKept(langMap: seq<Entry<string>>)
    ensures forall e :: e in TopEntries(langMap) ==> e in langMap
  {
    var sorted := SortByCount(langMap);
    forall e | e in TopEntries(langMap) ensures e in langMap {
      assert e in sorted;
      assert e in multiset(sorted);
    }
  }

  lemma TopEntriesMaximal(langMap: seq<Entry<string>>)
    ensures forall e, i :: e in langMap && e !in TopEntries(langMap) && 0 <= i < |TopEntries(langMap)| ==>
      e.count <= TopEntries(langMap)[i].count
  {
    var sorted := SortByCount(langMap);
    var top := TopEntries(langMap);
    forall e, i | e in langMap && e !in top && 0 <= i < |top| ensures e.count <= top[i].count {
      assert e in multiset(sorted);
      var j :| 0 <= j < |sorted| && sorted[j] == e;
      assert j >= |top|;
    }
  }

  /** The published list is `[{Unknown, 0}]` exactly when no language was seen, and never longer than three. */
  lemma TopLanguagesFallback(langMap: seq<Entry<string>>)
    ensures var top := TopLanguagesOrUnknown(TopLanguages(langMap));
      && 1 <= |top| <= 3
      && (langMap == [] ==> top == [LanguageStat(UnknownLanguage, 0)])
      && (langMap != [] ==> top == TopLanguages(langMap))
  {
    TopEntriesSpec(langMap);
  }

  // ---------------------------------------------------------------------------
  // Events: active days
  // ---------------------------------------------------------------------------

  type Month = m: nat | m < 12

  /** The fields of one event the code reads (see the module comment). */
  datatype Event = Event(createdAt: string, day: int, month: Month)

  /** `s.split('T')[0]`: the longest prefix of s that holds no 'T'. */
  function DatePrefix(s: string): (key: string)
    ensures key <= s
    ensures 'T' !in key
    ensures |key| < |s| ==> s[|key|] == 'T'
  {
    if s == [] || s[0] == 'T' then [] else [s[0]] + DatePrefix(s[1..])
  }

  /** The `dates` array: the date key of each event, in event order. */
  function DateKeys(events: seq<Event>): (dates: seq<string>)
    ensures |dates| == |events|
    ensures forall i :: 0 <= i < |events| ==> dates[i] == DatePrefix(events[i].createdAt)
  {
    seq(|events|, i requires 0 <= i < |events| => DatePrefix(events[i].createdAt))
  }

  /** The day number of each event, in event order. */
  function DayNumbers(events: seq<Event>): (days: seq<int>)
    ensures |days| == |events|
    ensures forall i :: 0 <= i < |events| ==> days[i] == events[i].day
  {
    seq(|events|, i requires 0 <= i < |events| => events[i].day)
  }

  /**
   * `activeDaysSet`: the distinct active days, in the order a JavaScript `Set`
   * keeps them (first occurrence).
   */
  function ActiveDays(events: seq<Event>): (days: seq<int>)
    ensures NoDuplicates(days)
    ensures |days| <= |events|
    ensures forall d :: d in days <==> exists i :: 0 <= i < |events| && events[i].day == d
  {
    var numbers := DayNumbers(events);
    assert forall d :: d in numbers <==> exists i :: 0 <= i < |events| && events[i].day == d by {
      forall d | d in numbers ensures exists i :: 0 <= i < |events| && events[i].day == d {
        var i :| 0 <= i < |numbers| && numbers[i] == d;
      }
    }
    Distinct(numbers)
  }

  /** Two events share a date key exactly when they share a day number. */
  predicate ConsistentDates(events: seq<Event>)
  {
    SameGrouping(DateKeys(events), DayNumbers(events))
  }

  /**
   * There are as many distinct day numbers as distinct date keys, so counting
   * days is counting the strings the source puts in its `Set`.
   */
  lemma DayCountMatchesKeyCount(events: seq<Event>)
    requires ConsistentDates(events)
    ensures |Distinct(DateKeys(events))| == |ActiveDays(events)|
  {
    SameGroupingCount(DateKeys(events), DayNumbers(events));
  }

  /** The `forEach` that fills `activeDaysSet` and `dates`. */
  method CollectActiveDays(events: seq<Event>) returns (activeDaysSet: seq<int>, dates: seq<string>)
    ensures activeDaysSet == ActiveDays(events)
    ensures dates == DateKeys(events)
  {
    var days, keys := DayNumbers(events), DateKeys(events);
    activeDaysSet, dates := [], [];
    for i := 0 to |events|
      invariant activeDaysSet == Distinct(days[..i])
      invariant dates == keys[..i]
    {
      DistinctSnoc(days, i);
      assert days[i] == events[i].day;
      assert days[i] in activeDaysSet <==> days[i] in days[..i];
      var date := DatePrefix(events[i].createdAt);
      if events[i].day !in activeDaysSet {
        activeDaysSet := activeDaysSet + [events[i].day];
      }
      dates := dates + [date];
      assert keys[..i + 1] == keys[..i] + [date];
    }
    assert days[..|events|] == days;
    assert keys[..|events|] == keys;
  }

  // ---------------------------------------------------------------------------
  // Current streak
  // ---------------------------------------------------------------------------

  /** The latest of the days. */
  function MaxOf(days: seq<int>): (m: int)
    requires days != []
    ensures m in days && forall d :: d in days ==> d <= m
  {
    if |days| == 1 then days[0]
    else
      var rest := MaxOf(days[1..]);
      assert days == [days[0]] + days[1..];
      if days[0] > rest then days[0] else rest
  }

  /** The days as a set. */
  function DaySet(days: seq<int>): set<int>
  {
    set d | d in days
  }

  /** Every day from top - k + 1 up to top is active. */
  predicate RunOfDays(days: set<int>, top: int, k: nat)
  {
    forall e :: top - k < e <= top ==> e in days
  }

  /** Length of the run of consecutive days in `days` that ends (walking backwards) at d. */
  function RunDown(days: set<int>, d: int): nat
    decreases |days|
  {
    if d in days then 1 + RunDown(days - {d}, d - 1) else 0
  }

  lemma {:induction false} RunDownShape(days: set<int>, d: int)
    ensures RunDown(days, d) <= |days|
    ensures RunOfDays(days, d, RunDown(days, d))
    ensures d - RunDown(days, d) !in days
    decreases |days|
  {
    if d in days {
      var rest := days - {d};
      RunDownShape(rest, d - 1);
      assert RunDown(days, d) == 1 + RunDown(rest, d - 1);
      assert |rest| == |days| - 1;
      forall e | d - RunDown(days, d) < e <= d ensures e in days {
        if e < d { assert e in rest; }
      }
    }
  }

  /** The run is determined by where the first gap is. */
  lemma {:induction false} RunDownExact(days: set<int>, d: int, k: nat)
    requires RunOfDays(days, d, k)
    requires d - k !in days
    ensures RunDown(days, d) == k
    decreases k
  {
    if k == 0 {
      assert d !in days;
    } else {
      assert d in days;
      RunDownExact(days - {d}, d - 1, k - 1);
    }
  }

  lemma {:induction false} DaySetSize(days: seq<int>)
    ensures |DaySet(days)| <= |days|
    decreases |days|
  {
    if days != [] {
      DaySetSize(days[1..]);
      assert DaySet(days) == {days[0]} + DaySet(days[1..]) by {
        assert days == [days[0]] + days[1..];
      }
    }
  }

  /**
   * The current streak: zero without active days, otherwise the length of the
   * run of consecutive calendar days ending at the latest active day.
   */
  function StreakOf(days: seq<int>): (s: nat)
    ensures s == 0 <==> days == []
    ensures days != [] ==> 1 <= s <= |days|
    ensures days != [] ==> RunOfDays(DaySet(days), MaxOf(days), s) && MaxOf(days) - s !in days
  {
    if days == [] then 0
    else
      RunDownShape(DaySet(days), MaxOf(days));
      DaySetSize(days);
      RunDown(DaySet(days), MaxOf(days))
  }

  predicate StrictlyDescending(q: seq<int>)
  {
    forall i, j :: 0 <= i < j < |q| ==> q[i] > q[j]
  }

  function InsertDescending(x: int, q: seq<int>): (r: seq<int>)
    requires StrictlyDescending(q) && x !in q
    ensures StrictlyDescending(r)
    ensures |r| == |q| + 1
    ensures forall y :: y in r <==> y == x || y in q
  {
    if q == [] || q[0] < x then [x] + q
    else
      assert q == [q[0]] + q[1..];
      var rest := InsertDescending(x, q[1..]);
      assert forall i :: 0 <= i < |rest| ==> rest[i] < q[0] by {
        forall i | 0 <= i < |rest| ensures rest[i] < q[0] {
          assert rest[i] in rest;
        }
      }
      [q[0]] + rest
  }

  /** `Array.from(activeDaysSet).sort().reverse()`: the active days, latest first. */
  function SortDescending(days: seq<int>): (sorted: seq<int>)
    requires NoDuplicates(days)
    ensures StrictlyDescending(sorted)
    ensures |sorted| == |days|
    ensures forall d :: d in sorted <==> d in days
  {
    if days == [] then []
    else
      assert days == [days[0]] + days[1..];
      InsertDescending(days[0], SortDescending(days[1..]))
  }

  /**
   * The streak loop: walk the days latest first and count while each is
   * exactly one day before the previous one. With distinct whole days the
   * source's test `diff <= 1.1` holds exactly when `diff == 1`.
   */
  method CurrentStreak(activeDaysSet: seq<int>, dates: seq<string>) returns (currentStreak: nat)
    requires NoDuplicates(activeDaysSet)
    requires |dates| > 0 <==> |activeDaysSet| > 0
    ensures currentStreak == StreakOf(activeDaysSet)
  {
    currentStreak := 0;
    if |dates| > 0 {
      var sortedDates := SortDescending(activeDaysSet);
      var lastDate := sortedDates[0];
      currentStreak := 1;
      var i := 1;
      while i < |sortedDates|
        invariant 1 <= i <= |sortedDates|
        invariant currentStreak == i
        invariant forall j :: 0 <= j < i ==> sortedDates[j] == sortedDates[0] - j
        invariant lastDate == sortedDates[i - 1]
      {
        var currentDate := sortedDates[i];
        var diff := lastDate - currentDate;
        if diff <= 1 {
          currentStreak := currentStreak + 1;
          lastDate := currentDate;
        } else {
          break;
        }
        i := i + 1;
      }
      StreakFromSorted(activeDaysSet, sortedDates, currentStreak);
    }
  }

  lemma StreakFromSorted(days: seq<int>, q: seq<int>, k: nat)
    requires StrictlyDescending(q) && (forall d :: d in q <==> d in days)
    requires 1 <= k <= |q|
    requires forall j :: 0 <= j < k ==> q[j] == q[0] - j
    requires k == |q| || q[k] < q[0] - k
    ensures StreakOf(days) == k
  {
    assert q[0] in days;
    var top := MaxOf(days);
    forall e | q[0] - k < e <= q[0] ensures e in DaySet(days) {
      assert q[q[0] - e] == e;
    }
    RunDownExact(DaySet(days), top, k);
  }

  // ---------------------------------------------------------------------------
  // Activity label, most active month, active-day estimate
  // ---------------------------------------------------------------------------

  /** `activeDaysSet.size > 15 ? 'consistent' : 'burst'`. */
  function ActivityPatternOf(distinctDays: nat): (p: ActivityPattern)
    ensures p == Consistent <==> distinctDays > 15
    ensures p == Burst <==> distinctDays <= 15
    ensures p != Sporadic
  {
    if distinctDays > 15 then Consistent else Burst
  }

  const MonthNames: seq<string> := ["January", "February", "March", "April", "May", "June", "July",
                                    "August", "September", "October", "November", "December"]

  /** `toLocaleString('en-US', { month: 'long' })` for a month index. */
  function MonthName(m: Month): string
  {
    MonthNames[m]
  }

  /** The months the `monthCounts` loop bumps, one per event, in event order. */
  function MonthsOf(events: seq<Event>): (months: seq<Month>)
    ensures |months| == |events|
    ensures forall i :: 0 <= i < |events| ==> months[i] == events[i].month
  {
    seq(|events|, i requires 0 <= i < |events| => events[i].month)
  }

  /** The `forEach` that fills `monthCounts`. */
  method CountMonths(events: seq<Event>) returns (monthCounts: seq<Entry<Month>>)
    ensures monthCounts == Tally(MonthsOf(events))
  {
    monthCounts := [];
    for i := 0 to |events|
      invariant monthCounts == Tally(MonthsOf(events[..i]))
    {
      var months := MonthsOf(events[..i + 1]);
      assert months[..i] == MonthsOf(events[..i]);
      assert months == months[..i] + [events[i].month];
      monthCounts := Bump(monthCounts, events[i].month);
    }
    assert events[..|events|] == events;
  }

  /** The month of the first sorted `monthCounts` entry, if there is one. */
  function TopMonth(monthCounts: seq<Entry<Month>>): Option<Month>
  {
    var sorted := SortByCount(monthCounts);
    if sorted == [] then None else Some(sorted[0].key)
  }

  /** The name of that month, or 'October' when there are no entries. */
  function MostActiveMonth(monthCounts: seq<Entry<Month>>): (name: string)
    ensures TopMonth(monthCounts).None? ==> name == "October"
    ensures TopMonth(monthCounts).Some? ==> name == MonthNames[TopMonth(monthCounts).value]
    ensures name in MonthNames
  {
    assert MonthNames[9] == "October";
    match TopMonth(monthCounts)
    case None => "October"
    case Some(m) => MonthName(m)
  }

  /**
   * Without events there is no top month, so the name shown is 'October'.
   * Otherwise the name shown is that of the top month m, a month with the
   * largest number of events; any other month with as many events first
   * occurs later in the event list.
   */
  lemma MostActiveMonthSpec(events: seq<Event>) returns (m: Month)
    ensures events == [] ==> TopMonth(Tally(MonthsOf(events))) == None
    ensures events != [] ==> TopMonth(Tally(MonthsOf(events))) == Some(m) && IsMode(MonthsOf(events), m)
    ensures events == [] ==> MostActiveMonth(Tally(MonthsOf(events))) == "October"
    ensures events != [] ==> MostActiveMonth(Tally(MonthsOf(events))) == MonthNames[m]
  {
    if events != [] {
      m := TallyMode(MonthsOf(events));
    } else {
      m := 0;
    }
  }

  /**
   * `Math.max(size, Math.min(t, Math.floor(t / 2.5)))` on whole numbers, with
   * `t / 2.5` as the exact quotient `2t / 5`.
   */
  function EstimatedActiveDays(distinctDays: nat, totalCommits: nat): (days: nat)
    ensures days >= distinctDays
    ensures days == Max(distinctDays, (2 * totalCommits) / 5)
    ensures days <= Max(distinctDays, totalCommits)
  {
    Max(distinctDays, Min(totalCommits, (2 * totalCommits) / 5))
  }

  // ---------------------------------------------------------------------------
  // The whole aggregation
  // ---------------------------------------------------------------------------

  /** The fields of the user profile the code reads. */
  datatype UserJson = UserJson(login: string, avatarUrl: string, htmlUrl: string, publicRepos: int, totalPrivateRepos: Option<int>)

  /** The commit search result: `total_count`, possibly absent. */
  datatype SearchJson = SearchJson(totalCount: Option<nat>)

  /** `commitSearch.total_count || 0`. */
  function TotalCommits(search: SearchJson): (total: nat)
    ensures search.totalCount.Some? ==> total == search.totalCount.value
    ensures search.totalCount.None? ==> total == 0
  {
    match search.totalCount
    case Some(t) => t
    case None => 0
  }

  const FirstActivity := "2024-01-01"

  /** The statistics record, from the values the aggregation computes. */
  function MakeStats(
    user: UserJson, totalCommits: nat, activeDays: nat, topLanguages: seq<LanguageStat>,
    recentRepos: seq<GitHubRepo>, streak: nat, mostActiveMonth: string, lastActivity: string,
    activityPattern: ActivityPattern): GitHubStats
  {
    GitHubStats(
      username := user.login,
      avatarUrl := user.avatarUrl,
      profileUrl := user.htmlUrl,
      totalCommits := totalCommits,
      activeDays := activeDays,
      topLanguages := TopLanguagesOrUnknown(topLanguages),
      allLanguages := None,
      reposContributed := user.publicRepos + (match user.totalPrivateRepos case Some(p) => p case None => 0),
      reposCreatedThisYear := None,
      recentRepos := recentRepos,
      streak := streak,
      longestStreak := None,
      mostActiveMonth := mostActiveMonth,
      firstActivity := FirstActivity,
      lastActivity := lastActivity,
      activityPattern := activityPattern,
      contributionGrid := None,
      followers := None,
      following := None,
      totalStarsReceived := None,
      accountAge := None,
      bio := None,
      company := None,
      location := None,
      analysisYear := None)
  }

  /** `dates[0] || today`: the first event's date key, or today's when there is none (or it is empty). */
  function LastActivity(dates: seq<string>, nowIso: string): (last: string)
    ensures |dates| > 0 && dates[0] != "" ==> last == dates[0]
    ensures |dates| == 0 || dates[0] == "" ==> last == DatePrefix(nowIso)
  {
    if |dates| > 0 && dates[0] != "" then dates[0] else DatePrefix(nowIso)
  }

  /**
   * The statistics object built from four ok responses. `nowIso` is
   * `new Date().toISOString()`, used only when there is no event.
   */
  function BuildStats(user: UserJson, search: SearchJson, repos: seq<RepoJson>, events: seq<Event>, nowIso: string): (stats: GitHubStats)
    ensures stats.username == user.login && stats.avatarUrl == user.avatarUrl && stats.profileUrl == user.htmlUrl
    ensures search.totalCount.Some? ==> stats.totalCommits == search.totalCount.value
    ensures search.totalCount.None? ==> stats.totalCommits == 0
    ensures stats.reposContributed ==
      user.publicRepos + (if user.totalPrivateRepos.Some? then user.totalPrivateRepos.value else 0)
    ensures stats.activeDays == Max(|ActiveDays(events)|, (2 * stats.totalCommits) / 5)
    ensures stats.streak == StreakOf(ActiveDays(events))
    ensures stats.recentRepos == RecentRepos(repos)
    ensures stats.topLanguages == TopLanguagesOrUnknown(TopLanguages(Tally(LanguagesOf(repos))))
    ensures stats.allLanguages.None? && stats.reposCreatedThisYear.None? && stats.longestStreak.None?
    ensures stats.contributionGrid.None? && stats.followers.None? && stats.following.None?
    ensures stats.totalStarsReceived.None? && stats.accountAge.None? && stats.bio.None?
    ensures stats.company.None? && stats.location.None? && stats.analysisYear.None?
    ensures stats.activityPattern == ActivityPatternOf(|ActiveDays(events)|)
    ensures events == [] ==> stats.mostActiveMonth == "October"
    ensures events != [] ==> exists m :: TopMonth(Tally(MonthsOf(events))) == Some(m) && stats.mostActiveMonth == MonthNames[m]
    ensures stats.firstActivity == FirstActivity
    ensures events != [] && DatePrefix(events[0].createdAt) != "" ==> stats.lastActivity == DatePrefix(events[0].createdAt)
    ensures events == [] || DatePrefix(events[0].createdAt) == "" ==> stats.lastActivity == DatePrefix(nowIso)
  {
    var days := ActiveDays(events);
    MakeStats(
      user, TotalCommits(search), EstimatedActiveDays(|days|, TotalCommits(search)),
      TopLanguages(Tally(LanguagesOf(repos))), RecentRepos(repos), StreakOf(days),
      MostActiveMonth(Tally(MonthsOf(events))), LastActivity(DateKeys(events), nowIso),
      ActivityPatternOf(|days|))
  }

  /**
   * `fetchGitHubData` with the four responses given in request order: the
   * first non-ok response decides the thrown error; otherwise the statistics.
   */
  method FetchGitHubData(
    username: string,
    userRes: Response<UserJson>,
    searchRes: Response<SearchJson>,
    reposRes: Response<seq<RepoJson>>,
    eventsRes: Response<seq<Event>>,
    nowIso: string)
    returns (r: Result<GitHubStats, GitHubError>)
    ensures r.Success? <==> IsOk(userRes.status) && IsOk(searchRes.status) && IsOk(reposRes.status) && IsOk(eventsRes.status)
    ensures !IsOk(userRes.status) ==> r == Failure(StatusError(userRes.status, userRes.rateLimitRemaining, username).value)
    ensures IsOk(userRes.status) && !IsOk(searchRes.status) ==>
      r == Failure(StatusError(searchRes.status, searchRes.rateLimitRemaining, username).value)
    ensures IsOk(userRes.status) && IsOk(searchRes.status) && !IsOk(reposRes.status) ==>
      r == Failure(StatusError(reposRes.status, reposRes.rateLimitRemaining, username).value)
    ensures IsOk(userRes.status) && IsOk(searchRes.status) && IsOk(reposRes.status) && !IsOk(eventsRes.status) ==>
      r == Failure(StatusError(eventsRes.status, eventsRes.rateLimitRemaining, username).value)
    ensures r.Success? ==> r.value == BuildStats(userRes.body, searchRes.body, reposRes.body, eventsRes.body, nowIso)
  {
    var userData := FetchWithAuth(userRes, username);
    if userData.Failure? { return Failure(userData.error); }
    var commitSearch := FetchWithAuth(searchRes, username);
    if commitSearch.Failure? { return Failure(commitSearch.error); }
    var totalCommits := TotalCommits(commitSearch.value);
    var reposData := FetchWithAuth(reposRes, username);
    if reposData.Failure? { return Failure(reposData.error); }
    var repos := reposData.value;

    var recentRepos := RecentRepos(repos);
    var langMap := CountLanguages(repos);
    var topLanguages := TopLanguages(langMap);

    var eventsData := FetchWithAuth(eventsRes, username);
    if eventsData.Failure? { return Failure(eventsData.error); }
    var events := eventsData.value;

    var activeDaysSet, dates := CollectActiveDays(events);
    var currentStreak := CurrentStreak(activeDaysSet, dates);
    var activityPattern := ActivityPatternOf(|activeDaysSet|);
    var monthCounts := CountMonths(events);
    var mostActiveMonth := MostActiveMonth(monthCounts);
    var estimatedActiveDays := EstimatedActiveDays(|activeDaysSet|, totalCommits);

    r := Success(MakeStats(
      userData.value, totalCommits, estimatedActiveDays, topLanguages, recentRepos, currentStreak,
      mostActiveMonth, LastActivity(dates, nowIso), activityPattern));
  }

  /**
   * Cross-field facts of every statistics object: the streak is at most the
   * number of distinct days, which is at most the published active-day figure
   * and at most the number of events; the streak is zero exactly without
   * events; the label is 'consistent' exactly above 15 distinct days; there are
   * one to three top languages and at most five recent repositories. When
   * every date key names one day number and vice versa, the label and the
   * active-day figure are those of the number of distinct date strings, the
   * size of the source's `Set`.
   */
  lemma StatsConsistency(user: UserJson, search: SearchJson, repos: seq<RepoJson>, events: seq<Event>, nowIso: string)
    ensures var s := BuildStats(user, search, repos, events, nowIso);
      && s.streak <= |ActiveDays(events)| <= s.activeDays
      && |ActiveDays(events)| <= |events|
      && (s.streak == 0 <==> events == [])
      && (s.activityPattern == Consistent <==> |ActiveDays(events)| > 15)
      && 1 <= |s.topLanguages| <= 3
      && |s.recentRepos| <= 5
      && s.activeDays >= (2 * s.totalCommits) / 5
      && (ConsistentDates(events) ==>
            && s.activityPattern == ActivityPatternOf(|Distinct(DateKeys(events))|)
            && s.activeDays == EstimatedActiveDays(|Distinct(DateKeys(events))|, s.totalCommits))
  {
    if ConsistentDates(events) {
      DayCountMatchesKeyCount(events);
    }
    TopLanguagesFallback(Tally(LanguagesOf(repos)));
    if events != [] {
      assert events[0].day in DayNumbers(events);
    }
  }
}
