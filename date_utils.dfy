/**
 * Year availability (utils/dateUtils.ts): how far the current year has got
 * decides whether the 90-day window of the GitHub events API reaches back
 * into the previous year, which years are offered, and how a selected year
 * is described.
 *
 * "Now" is an input: the current year, the current instant and the instant
 * of 1 January 00:00 local time of that year, both in milliseconds.
 */
module DateUtils {
  import opened Strings

  const MsPerDay: int := 1000 * 60 * 60 * 24

  /** GITHUB_EVENTS_LIMIT_DAYS: how far back the events API reaches. */
  const EventsLimitDays: int := 90

  /** The injected clock. */
  datatype Clock = Clock(currentYear: int, nowMs: int, yearStartMs: int)

  /** A real clock: the current instant is not before 1 January of its own year. */
  predicate ValidClock(clock: Clock)
  {
    clock.yearStartMs <= clock.nowMs
  }

  /** `Math.floor((today - yearStart) / 86400000)`: whole days elapsed since 1 January. */
  function DaysSinceYearStart(nowMs: int, yearStartMs: int): (days: int)
    ensures days * MsPerDay <= nowMs - yearStartMs < (days + 1) * MsPerDay
    ensures yearStartMs <= nowMs ==> days >= 0
  {
    (nowMs - yearStartMs) / MsPerDay
  }

  datatype YearAvailability = YearAvailability(
    currentYear: int,
    daysSinceYearStart: int,
    canShowCurrentYearOnly: bool,
    canShowYearSelection: bool,
    availableYears: seq<int>,
    dataLimitation: string)

  /** `90 - daysSinceYearStart`: the part of the window that falls in the previous year. */
  function DaysFromPreviousYear(daysSinceYearStart: int): (days: int)
    ensures daysSinceYearStart + days == EventsLimitDays
    ensures days > 0 <==> daysSinceYearStart < EventsLimitDays
  {
    EventsLimitDays - daysSinceYearStart
  }

  function CurrentYearOnlyNote(currentYear: int): string
  {
    "GitHub API limited to last 90 days. Showing " + IntToString(currentYear) + " data only."
  }

  function MixedWindowNote(days: int, currentYear: int): string
  {
    "GitHub API shows last 90 days: " + IntToString(days) + " days from " + IntToString(currentYear)
      + " + " + IntToString(DaysFromPreviousYear(days)) + " days from " + IntToString(currentYear - 1) + "."
  }

  /** `calculateYearAvailability` for the injected clock. */
  function CalculateYearAvailability(clock: Clock): (a: YearAvailability)
    ensures a.currentYear == clock.currentYear
    ensures a.daysSinceYearStart == DaysSinceYearStart(clock.nowMs, clock.yearStartMs)
    ensures a.canShowCurrentYearOnly <==> a.daysSinceYearStart >= EventsLimitDays
    ensures a.canShowYearSelection == !a.canShowCurrentYearOnly
    ensures a.canShowCurrentYearOnly ==>
      a.availableYears == [clock.currentYear] && a.dataLimitation == CurrentYearOnlyNote(clock.currentYear)
    ensures !a.canShowCurrentYearOnly ==>
      && a.availableYears == [clock.currentYear, clock.currentYear - 1]
      && a.dataLimitation == MixedWindowNote(a.daysSinceYearStart, clock.currentYear)
  {
    var currentYear := clock.currentYear;
    var daysSinceYearStart := DaysSinceYearStart(clock.nowMs, clock.yearStartMs);
    if daysSinceYearStart >= EventsLimitDays then
      YearAvailability(currentYear, daysSinceYearStart, true, false, [currentYear],
                       CurrentYearOnlyNote(currentYear))
    else
      YearAvailability(currentYear, daysSinceYearStart, false, true, [currentYear, currentYear - 1],
                       MixedWindowNote(daysSinceYearStart, currentYear))
  }

  /**
   * On a real clock the figures of the availability are consistent: the day
   * count is non-negative; the current year is always offered, first; a
   * second year is offered exactly while the window still reaches into the
   * previous year, and then the two day counts are positive-or-zero and
   * positive, and add up to the 90-day window.
   */
  lemma AvailabilityWindow(clock: Clock)
    requires ValidClock(clock)
    ensures var a := CalculateYearAvailability(clock);
      && a.daysSinceYearStart >= 0
      && 1 <= |a.availableYears| <= 2
      && a.availableYears[0] == clock.currentYear
      && (|a.availableYears| == 2 <==> a.daysSinceYearStart < EventsLimitDays)
      && (|a.availableYears| == 2 ==>
            && a.availableYears[1] == clock.currentYear - 1
            && 0 <= a.daysSinceYearStart < EventsLimitDays
            && 0 < DaysFromPreviousYear(a.daysSinceYearStart) <= EventsLimitDays)
  {
  }

  datatype DataQuality = Full | Partial | Mixed

  datatype YearDisplayInfo = YearDisplayInfo(isCurrentYear: bool, dataQuality: DataQuality, description: string)

  /** `getYearDisplayInfo` for the injected clock. */
  function GetYearDisplayInfo(selectedYear: int, clock: Clock): (info: YearDisplayInfo)
    ensures info.isCurrentYear <==> selectedYear == clock.currentYear
    ensures info.isCurrentYear ==> info.dataQuality == Partial
    ensures !info.isCurrentYear ==> info.dataQuality == Mixed
    ensures info.dataQuality != Full
    ensures info.isCurrentYear && DaysSinceYearStart(clock.nowMs, clock.yearStartMs) >= EventsLimitDays ==>
      info.description == LastNinetyDaysNote(clock.currentYear)
    ensures info.isCurrentYear && DaysSinceYearStart(clock.nowMs, clock.yearStartMs) < EventsLimitDays ==>
      info.description == DaysAvailableNote(clock.currentYear, DaysSinceYearStart(clock.nowMs, clock.yearStartMs))
    ensures !info.isCurrentYear ==>
      info.description ==
        MixedYearNote(selectedYear, DaysFromPreviousYear(DaysSinceYearStart(clock.nowMs, clock.yearStartMs)), clock.currentYear)
  {
    var a := CalculateYearAvailability(clock);
    if selectedYear == a.currentYear then
      if a.canShowCurrentYearOnly then
        YearDisplayInfo(true, Partial, LastNinetyDaysNote(a.currentYear))
      else
        YearDisplayInfo(true, Partial, DaysAvailableNote(a.currentYear, a.daysSinceYearStart))
    else
      var daysFromPreviousYear := 90 - a.daysSinceYearStart;
      YearDisplayInfo(false, Mixed, MixedYearNote(selectedYear, daysFromPreviousYear, a.currentYear))
  }

  function LastNinetyDaysNote(year: int): string
  {
    IntToString(year) + " data (last 90 days only due to GitHub API limits)"
  }

  function DaysAvailableNote(year: int, days: int): string
  {
    IntToString(year) + " data (" + IntToString(days) + " days available)"
  }

  function MixedYearNote(selectedYear: int, days: int, currentYear: int): string
  {
    IntToString(selectedYear) + " data (last " + IntToString(days) + " days only, mixed with "
      + IntToString(currentYear) + ")"
  }

  /**
   * For any year but the current one the description quotes
   * `90 - daysSinceYearStart` days, and nothing guards it: once 90 days of the
   * year have passed (from 91 on) the quoted figure is negative.
   */
  lemma PreviousYearFigureGoesNegative(selectedYear: int, clock: Clock)
    requires selectedYear != clock.currentYear
    requires DaysSinceYearStart(clock.nowMs, clock.yearStartMs) > EventsLimitDays
    ensures var figure := 90 - DaysSinceYearStart(clock.nowMs, clock.yearStartMs);
      && figure < 0
      && GetYearDisplayInfo(selectedYear, clock).description == MixedYearNote(selectedYear, figure, clock.currentYear)
      && GetYearDisplayInfo(selectedYear, clock).description[|IntToString(selectedYear)| + 12] == '-'
  {
    var figure := 90 - DaysSinceYearStart(clock.nowMs, clock.yearStartMs);
    MinusSignQuoted(selectedYear, figure, clock.currentYear);
  }

  /** A negative figure is printed with a minus sign right after "<year> data (last ". */
  lemma MinusSignQuoted(selectedYear: int, days: int, currentYear: int)
    requires days < 0
    ensures MixedYearNote(selectedYear, days, currentYear)[|IntToString(selectedYear)| + 12] == '-'
  {
    var prefix := IntToString(selectedYear) + " data (last ";
    assert |prefix| == |IntToString(selectedYear)| + 12;
    var quoted := prefix + IntToString(days);
    assert quoted[|prefix|] == '-';
    var withText := quoted + " days only, mixed with ";
    assert withText[|prefix|] == '-';
    var withYear := withText + IntToString(currentYear);
    assert withYear[|prefix|] == '-';
    assert MixedYearNote(selectedYear, days, currentYear) == withYear + ")";
  }
}
