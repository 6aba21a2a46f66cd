/**
 * The wizard of App.tsx: the `step`, `username`, `stats`, `insights` and
 * `error` state of the `App` component, the transitions `startAnalysis`,
 * `nextStep`, `prevStep` and the reset from the share screen, which screen
 * each step shows, and the progress footer.
 *
 * The two asynchronous calls of `startAnalysis` are inputs: their outcomes
 * (a value, or a thrown error with its possibly missing message).
 */
module App {
  import opened Wrappers
  import opened Strings
  import opened Types

  const FailureMessage := "Failed to analyze GitHub profile."

  /** `step < Step.Share ? step + 1 : step`. */
  function NextStepOf(step: Step): (next: Step)
    ensures Ord(step) < Ord(Share) ==> Ord(next) == Ord(step) + 1
    ensures step == Share ==> next == Share
  {
    if Ord(step) < Ord(Share) then FromOrd(Ord(step) + 1) else step
  }

  /** `step > Stats ? step - 1 : step == Stats ? Entry : step`. */
  function PrevStepOf(step: Step): (prev: Step)
    ensures Ord(step) > Ord(Stats) ==> Ord(prev) == Ord(step) - 1
    ensures step == Stats ==> prev == Entry
    ensures Ord(step) < Ord(Stats) ==> prev == step
  {
    if Ord(step) > Ord(Stats) then FromOrd(Ord(step) - 1)
    else if step == Stats then Entry
    else step
  }

  /**
   * Forward and back undo each other on the slides: from any step between
   * Stats and Archetype, next then back returns; from any step after Stats,
   * back then next returns. Back from Stats leaves the slides for the landing
   * page, and neither button moves Entry or Analysis backwards.
   */
  lemma NavigationRoundTrip(step: Step)
    ensures Ord(Stats) <= Ord(step) < Ord(Share) ==> PrevStepOf(NextStepOf(step)) == step
    ensures Ord(step) > Ord(Stats) ==> NextStepOf(PrevStepOf(step)) == step
    ensures PrevStepOf(Stats) == Entry && NextStepOf(Entry) == Analysis && NextStepOf(Analysis) == Stats
  {
    OrdRoundTrip(step, Ord(step));
  }

  /** What `renderStep` shows. */
  datatype Screen =
    | Landing(error: Option<string>)
    | Loading
    | StatsSlide(stats: GitHubStats)
    | PatternDetection(insights: AIInsights)
    | InsightsSlide(insights: AIInsights)
    | NarrativeSummary(insights: AIInsights)
    | ArchetypeReveal(insights: AIInsights)
    | ShareScreen(stats: GitHubStats, insights: AIInsights)
    | Nothing

  /** `renderStep`: each slide needs its data, and renders nothing without it. */
  function RenderStep(step: Step, stats: Option<GitHubStats>, insights: Option<AIInsights>, error: Option<string>): (screen: Screen)
    ensures screen.ShareScreen? <==> step == Share && stats.Some? && insights.Some?
    ensures screen.ShareScreen? ==> screen == ShareScreen(stats.value, insights.value)
    ensures screen.StatsSlide? <==> step == Stats && stats.Some?
    ensures screen.Landing? <==> step == Entry
    ensures screen.Landing? ==> screen.error == error
    ensures screen.Nothing? <==>
      (step == Stats && stats.None?) || (Ord(Patterns) <= Ord(step) <= Ord(Archetype) && insights.None?)
      || (step == Share && (stats.None? || insights.None?))
  {
    match step
    case Entry => Landing(error)
    case Analysis => Loading
    case Stats => if stats.Some? then StatsSlide(stats.value) else Nothing
    case Patterns => if insights.Some? then PatternDetection(insights.value) else Nothing
    case AIInsights => if insights.Some? then InsightsSlide(insights.value) else Nothing
    case Narrative => if insights.Some? then NarrativeSummary(insights.value) else Nothing
    case Archetype => if insights.Some? then ArchetypeReveal(insights.value) else Nothing
    case Share => if stats.Some? && insights.Some? then ShareScreen(stats.value, insights.value) else Nothing
  }

  /** The progress footer: its caption and the filled fraction of its bar. */
  datatype Footer = Footer(caption: string, barFraction: real)

  /**
   * Shown while `Stats <= step < Share`: the caption is `Process_` and the
   * slide number `step - Stats + 1` padded to two digits, and the bar is
   * `(step - Stats) / (Share - Stats - 1)` full.
   */
  function ProgressFooter(step: Step): (footer: Option<Footer>)
    ensures footer.Some? <==> Ord(Stats) <= Ord(step) < Ord(Share)
    ensures footer.Some? ==>
      && footer.value.caption == "Process_0" + [DigitChar(Ord(step) - Ord(Stats) + 1)]
      && 0.0 <= footer.value.barFraction <= 1.0
      && (footer.value.barFraction == 0.0 <==> step == Stats)
      && (footer.value.barFraction == 1.0 <==> step == Archetype)
  {
    if Ord(Stats) <= Ord(step) < Ord(Share) then
      var number := Ord(step) - Ord(Stats) + 1;
      var caption := "Process_" + PadStart(NatToString(number), 2, '0');
      assert PadStart(NatToString(number), 2, '0') == "0" + [DigitChar(number)] by {
        var padded := PadStart(NatToString(number), 2, '0');
        assert padded[1..] == [DigitChar(number)];
        assert padded == [padded[0]] + padded[1..];
      }
      var fraction := (Ord(step) - Ord(Stats)) as real / (Ord(Share) - Ord(Stats) - 1) as real;
      Some(Footer(caption, fraction))
    else
      None
  }

  /** The state of the `App` component. */
  class AppState {
    var step: Step
    var username: string
    var stats: Option<GitHubStats>
    var insights: Option<AIInsights>
    var error: Option<string>

    /** The initial `useState` values. */
    constructor()
      ensures step == Entry && username == "" && stats == None && insights == None && error == None
    {
      step := Entry;
      username := "";
      stats := None;
      insights := None;
      error := None;
    }

    /** The screen currently rendered. */
    function Screen(): Screen
      reads this
    {
      RenderStep(step, stats, insights, error)
    }

    /** The synchronous start of `startAnalysis`: record the user, show the loader, clear the error. */
    method BeginAnalysis(user: string)
      modifies this
      ensures username == user && step == Analysis && error == None
      ensures stats == old(stats) && insights == old(insights)
    {
      username := user;
      step := Analysis;
      error := None;
    }

    /**
     * `startAnalysis` to completion. The statistics are stored as soon as they
     * arrive, before the insights are requested; the slides open only when
     * both calls succeed. Either failure stores the error's message (or the
     * generic one when it has none) and returns to the landing page, keeping
     * whatever was stored before.
     */
    method StartAnalysis(user: string, fetched: Result<GitHubStats, Option<string>>, generated: Result<AIInsights, Option<string>>)
      modifies this
      ensures username == user
      ensures fetched.Success? && generated.Success? ==>
        step == Stats && error == None && stats == Some(fetched.value) && insights == Some(generated.value)
      ensures fetched.Success? && generated.Failure? ==>
        && step == Entry && error == Some(OrDefault(generated.error, FailureMessage))
        && stats == Some(fetched.value) && insights == old(insights)
      ensures fetched.Failure? ==>
        && step == Entry && error == Some(OrDefault(fetched.error, FailureMessage))
        && stats == old(stats) && insights == old(insights)
      ensures error.Some? ==> error.value != ""
    {
      BeginAnalysis(user);
      match fetched {
        case Failure(message) =>
          error := Some(OrDefault(message, FailureMessage));
          step := Entry;
        case Success(fetchedStats) =>
          stats := Some(fetchedStats);
          match generated {
            case Failure(message) =>
              error := Some(OrDefault(message, FailureMessage));
              step := Entry;
            case Success(fetchedInsights) =>
              insights := Some(fetchedInsights);
              step := Stats;
          }
      }
    }

    /** `nextStep`. */
    method NextStep()
      modifies this
      ensures step == NextStepOf(old(step))
      ensures username == old(username) && stats == old(stats) && insights == old(insights) && error == old(error)
    {
      if Ord(step) < Ord(Share) {
        step := FromOrd(Ord(step) + 1);
      }
    }

    /** `prevStep`. */
    method PrevStep()
      modifies this
      ensures step == PrevStepOf(old(step))
      ensures username == old(username) && stats == old(stats) && insights == old(insights) && error == old(error)
    {
      if Ord(step) > Ord(Stats) {
        step := FromOrd(Ord(step) - 1);
      } else if step == Stats {
        step := Entry;
      }
    }

    /** The share card's `onReset`, reachable only while the share screen is shown. */
    method Reset()
      requires Screen().ShareScreen?
      modifies this
      ensures step == Entry
      ensures username == old(username) && stats == old(stats) && insights == old(insights) && error == old(error)
      ensures Screen() == Landing(error)
    {
      step := Entry;
    }
  }

  /**
   * After a successful analysis every slide has its data: walking forward from
   * Stats to Share never shows an empty screen, and the share screen is
   * reached after five steps.
   */
  lemma SlidesHaveData(stats: GitHubStats, insights: AIInsights, error: Option<string>)
    ensures forall step :: Ord(Stats) <= Ord(step) ==> !RenderStep(step, Some(stats), Some(insights), error).Nothing?
    ensures RenderStep(NextStepOf(NextStepOf(NextStepOf(NextStepOf(NextStepOf(Stats))))),
                       Some(stats), Some(insights), error) == ShareScreen(stats, insights)
  {
  }
}
