/**
 * The record shapes and the wizard step enumeration that the rest of the
 * application shares (types.ts).
 */
module Types {
  import opened Wrappers

  /** The eight wizard screens, in the order the enumeration numbers them. */
  datatype Step = Entry | Analysis | Stats | Patterns | AIInsights | Narrative | Archetype | Share

  /** The numeric value the enumeration assigns to a step. */
  function Ord(s: Step): (n: nat)
    ensures n <= 7
  {
    match s
    case Entry => 0
    case Analysis => 1
    case Stats => 2
    case Patterns => 3
    case AIInsights => 4
    case Narrative => 5
    case Archetype => 6
    case Share => 7
  }

  /** The step whose numeric value is n; the inverse of Ord on 0..7. */
  function FromOrd(n: nat): (s: Step)
    requires n <= 7
    ensures Ord(s) == n
  {
    if n == 0 then Entry
    else if n == 1 then Analysis
    else if n == 2 then Stats
    else if n == 3 then Patterns
    else if n == 4 then Step.AIInsights
    else if n == 5 then Narrative
    else if n == 6 then Archetype
    else Share
  }

  /** The numbering is a bijection between the steps and 0..7, so "+1" and "-1" stay inside the enumeration. */
  lemma OrdRoundTrip(s: Step, n: nat)
    requires n <= 7
    ensures FromOrd(Ord(s)) == s
    ensures Ord(FromOrd(n)) == n
    ensures Ord(s) == n <==> s == FromOrd(n)
  {
  }

  /** A repository as the interface `GitHubRepo` describes it. */
  datatype GitHubRepo = GitHubRepo(name: string, url: string, description: string, language: string, stars: int)

  /** One `{ name, count }` entry of the language lists. */
  datatype LanguageStat = LanguageStat(name: string, count: int)

  /** The three labels the `activityPattern` union admits. */
  datatype ActivityPattern = Burst | Consistent | Sporadic

  /** One `contributionGrid` entry: a month, its count and its level. */
  datatype MonthActivity = MonthActivity(month: string, count: int, level: int)

  /**
   * The published statistics. Fields the interface marks optional, and fields
   * the interface declares but the fetch code never sets (they are `undefined`
   * at run time), are Options.
   */
  datatype GitHubStats = GitHubStats(
    username: string,
    avatarUrl: string,
    profileUrl: string,
    totalCommits: int,
    activeDays: int,
    topLanguages: seq<LanguageStat>,
    allLanguages: Option<seq<LanguageStat>>,
    reposContributed: int,
    reposCreatedThisYear: Option<int>,
    recentRepos: seq<GitHubRepo>,
    streak: int,
    longestStreak: Option<int>,
    mostActiveMonth: string,
    firstActivity: string,
    lastActivity: string,
    activityPattern: ActivityPattern,
    contributionGrid: Option<seq<MonthActivity>>,
    followers: Option<int>,
    following: Option<int>,
    totalStarsReceived: Option<int>,
    accountAge: Option<int>,
    bio: Option<string>,
    company: Option<string>,
    location: Option<string>,
    analysisYear: Option<int>)

  datatype KeyFactor = KeyFactor(factor: string, evidence: string)

  datatype ArchetypeExplanation = ArchetypeExplanation(reasoning: seq<string>, keyFactors: seq<KeyFactor>, confidence: real)

  datatype ForwardLooking = ForwardLooking(recommendations: seq<string>, risks: seq<string>, opportunities: seq<string>)

  /** The structured narrative the AI generator returns; every field is required. */
  datatype AIInsights = AIInsights(
    archetype: string,
    archetypeDescription: string,
    archetypeExplanation: ArchetypeExplanation,
    narrative: string,
    cardInsight: string,
    insights: seq<string>,
    patterns: seq<string>,
    forwardLooking: ForwardLooking,
    executiveSummary: string)
}
