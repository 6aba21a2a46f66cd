/**
 * The milestone choice of `trackScrollDepth` (services/mixpanelService.ts): a
 * scroll percentage is reported only when it falls in the five-point window
 * just above one of five fixed milestones, and then as that milestone.
 *
 * The analytics call itself is left out; the model returns the event that
 * would be passed to it, if any. A percentage is a real number (never NaN).
 */
module Mixpanel {
  import opened Wrappers

  const Milestones: seq<int> := [25, 50, 75, 90, 100]

  /** `scrollPercentage >= m && scrollPercentage < m + 5`. */
  predicate InWindow(p: real, m: int)
  {
    m as real <= p < (m + 5) as real
  }

  /** `ms.find(m => InWindow(p, m))`. */
  function Find(ms: seq<int>, p: real): (found: Option<int>)
    ensures found.Some? ==> found.value in ms && InWindow(p, found.value)
    ensures found.None? <==> forall m :: m in ms ==> !InWindow(p, m)
    ensures found.Some? ==> exists i :: 0 <= i < |ms| && ms[i] == found.value && forall j :: 0 <= j < i ==> !InWindow(p, ms[j])
  {
    if ms == [] then None
    else if InWindow(p, ms[0]) then Some(ms[0])
    else
      var rest := Find(ms[1..], p);
      assert ms == [ms[0]] + ms[1..];
      if rest.Some? then
        var i :| 0 <= i < |ms[1..]| && ms[1..][i] == rest.value && forall j :: 0 <= j < i ==> !InWindow(p, ms[1..][j]);
        assert ms[i + 1] == rest.value;
        rest
      else rest
  }

  /** The milestone reported for a scroll percentage, if any. */
  function MilestoneFor(p: real): Option<int>
  {
    Find(Milestones, p)
  }

  /**
   * The windows of the five milestones do not overlap, so at most one matches
   * and `find`'s choice is the only possible one; between 30 and 50 none does.
   */
  lemma MilestoneUnique(p: real)
    ensures forall m1, m2 :: m1 in Milestones && m2 in Milestones && InWindow(p, m1) && InWindow(p, m2) ==> m1 == m2
    ensures MilestoneFor(p).Some? <==> exists m :: m in Milestones && InWindow(p, m)
    ensures 30.0 <= p < 50.0 ==> MilestoneFor(p) == None
    ensures p < 25.0 || 105.0 <= p ==> MilestoneFor(p) == None
  {
  }

  /** A property value: a string or a number. */
  datatype PropValue = Str(s: string) | Num(n: real)

  datatype TrackedEvent = TrackedEvent(name: string, properties: map<string, PropValue>)

  /**
   * `trackScrollDepth`: the event handed to `trackEvent`, or None when no
   * milestone matches. The caller's extra properties are spread last, so they
   * override the two the function sets.
   */
  function TrackScrollDepth(p: real, pageName: string, additionalProps: Option<map<string, PropValue>>): (event: Option<TrackedEvent>)
    ensures event.Some? <==> MilestoneFor(p).Some?
    ensures event.Some? ==> event.value.name == "Scroll Depth"
    ensures event.Some? ==> "page_name" in event.value.properties && "scroll_percentage" in event.value.properties
    ensures event.Some? && (additionalProps.None? || "scroll_percentage" !in additionalProps.value) ==>
      event.value.properties["scroll_percentage"] == Num(MilestoneFor(p).value as real)
    ensures event.Some? && (additionalProps.None? || "page_name" !in additionalProps.value) ==>
      event.value.properties["page_name"] == Str(pageName)
    ensures event.Some? && additionalProps.Some? ==>
      forall k :: k in additionalProps.value ==> k in event.value.properties && event.value.properties[k] == additionalProps.value[k]
    ensures event.Some? ==>
      forall k :: k in event.value.properties ==>
        k == "page_name" || k == "scroll_percentage" || (additionalProps.Some? && k in additionalProps.value)
  {
    match MilestoneFor(p)
    case None => None
    case Some(milestone) =>
      var extra := match additionalProps case Some(props) => props case None => map[];
      var props := map["page_name" := Str(pageName), "scroll_percentage" := Num(milestone as real)] + extra;
      Some(TrackedEvent("Scroll Depth", props))
  }

  /** The reported percentage is always one of the milestones, at most five points below the real one. */
  lemma ReportedPercentage(p: real, pageName: string)
    ensures var event := TrackScrollDepth(p, pageName, None);
      event.Some? ==>
        exists m :: m in Milestones && event.value.properties["scroll_percentage"] == Num(m as real)
          && m as real <= p < m as real + 5.0
  {
    if MilestoneFor(p).Some? {
      var m := MilestoneFor(p).value;
      assert m in Milestones;
    }
  }
}
