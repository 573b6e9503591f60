/**
 * The client's basic timelines: which of home, local, social and global
 * exist, which are available to the signed-in user (or to a visitor) under
 * the server's and the user's policies and the user's preferences, and
 * which offer the "with replies" option.
 */
module Timelines {
  import opened Common

  /** `basicTimelineTypes`, in order. */
  const BasicTimelineTypes: seq<string> := ["home", "local", "social", "global"]

  /** `isBasicTimeline`. */
  predicate IsBasicTimeline(timeline: string)
    ensures IsBasicTimeline(timeline) <==>
      timeline == "home" || timeline == "local" || timeline == "social" || timeline == "global"
  {
    timeline in BasicTimelineTypes
  }

  /** `basicTimelineIconClass`. */
  function IconClass(timeline: string): (icon: string)
    requires IsBasicTimeline(timeline)
    ensures |icon| > 6 && icon[..6] == "ti ti-"
    ensures icon == "ti ti-home" <==> timeline == "home"
  {
    if timeline == "home" then "ti ti-home"
    else if timeline == "local" then "ti ti-planet"
    else if timeline == "social" then "ti ti-universe"
    else "ti ti-whirl"
  }

  /** Each basic timeline has an icon of its own. */
  lemma IconClassDistinct(a: string, b: string)
    requires IsBasicTimeline(a) && IsBasicTimeline(b)
    ensures IconClass(a) == IconClass(b) <==> a == b
  {
    var d := ["ti ti-home", "ti ti-planet", "ti ti-universe", "ti ti-whirl"];
    assert d[0][6] == 'h' && d[1][6] == 'p' && d[2][6] == 'u' && d[3][6] == 'w';
  }

  /** The timeline policies of the server or of the signed-in user. */
  datatype Policies = Policies(ltlAvailable: bool, gtlAvailable: bool)

  /** The preferences that hide timelines. */
  datatype TimelinePrefs = TimelinePrefs(hideLocalTimeLine: bool, hideSocialTimeLine: bool, hideGlobalTimeLine: bool)

  /** The client's globals the check reads: the signed-in user's policies
      (None for a visitor), the server's policies and the preferences. */
  datatype Client = Client(me: Option<Policies>, instance: Policies, prefs: TimelinePrefs)

  /** `isAvailableBasicTimeline`; None is `null` or `undefined`. */
  predicate IsAvailable(timeline: Option<string>, c: Client)
    ensures IsAvailable(timeline, c) ==> timeline.Some? && IsBasicTimeline(timeline.value)
  {
    match timeline
    case None => false
    case Some(t) =>
      if t == "home" then c.me.Some?
      else if t == "local" then
        (c.me.None? && c.instance.ltlAvailable && !c.prefs.hideLocalTimeLine)
        || (c.me.Some? && c.me.value.ltlAvailable && !c.prefs.hideLocalTimeLine)
      else if t == "social" then c.me.Some? && c.me.value.ltlAvailable && !c.prefs.hideSocialTimeLine
      else if t == "global" then
        (c.me.None? && c.instance.gtlAvailable && !c.prefs.hideGlobalTimeLine)
        || (c.me.Some? && c.me.value.gtlAvailable && !c.prefs.hideGlobalTimeLine)
      else false
  }

  /** The policies that decide local and global: the user's when signed in,
      the server's for a visitor. */
  function Governing(c: Client): Policies
  {
    if c.me.Some? then c.me.value else c.instance
  }

  /** Availability timeline by timeline: home needs a signed-in user; social
      needs one whose policies allow the local timeline and social not
      hidden; local and global follow the governing policies unless hidden;
      nothing else is ever available. */
  lemma AvailabilityRules(c: Client, timeline: string)
    ensures IsAvailable(Some("home"), c) <==> c.me.Some?
    ensures IsAvailable(Some("social"), c) <==> c.me.Some? && c.me.value.ltlAvailable && !c.prefs.hideSocialTimeLine
    ensures IsAvailable(Some("local"), c) <==> Governing(c).ltlAvailable && !c.prefs.hideLocalTimeLine
    ensures IsAvailable(Some("global"), c) <==> Governing(c).gtlAvailable && !c.prefs.hideGlobalTimeLine
    ensures !IsBasicTimeline(timeline) ==> !IsAvailable(Some(timeline), c)
    ensures !IsAvailable(None, c)
  {
  }

  /** `availableBasicTimelines`. */
  function AvailableBasicTimelines(c: Client): (r: seq<string>)
    ensures forall t :: t in r <==> IsBasicTimeline(t) && IsAvailable(Some(t), c)
  {
    Filter(BasicTimelineTypes, (t: string) => IsAvailable(Some(t), c))
  }

  /** The available timelines keep the order of `basicTimelineTypes`: the
      result is that list with the unavailable ones left out. */
  lemma AvailableInOrder(c: Client)
    ensures AvailableBasicTimelines(c)
      == (if IsAvailable(Some("home"), c) then ["home"] else [])
       + ((if IsAvailable(Some("local"), c) then ["local"] else [])
       + ((if IsAvailable(Some("social"), c) then ["social"] else [])
       + (if IsAvailable(Some("global"), c) then ["global"] else [])))
  {
    FilterFour("home", "local", "social", "global", (t: string) => IsAvailable(Some(t), c));
  }

  /** Filtering a four-element list keeps each element that passes, in place. */
  lemma FilterFour<T(!new)>(a: T, b: T, d: T, e: T, p: T -> bool)
    ensures Filter([a, b, d, e], p)
      == (if p(a) then [a] else []) + ((if p(b) then [b] else []) + ((if p(d) then [d] else []) + (if p(e) then [e] else [])))
  {
    assert [a, b, d, e] == [a] + [b, d, e];
    assert [b, d, e] == [b] + [d, e];
    assert [d, e] == [d] + [e];
    assert [e] == [e] + [];
    FilterCons(a, [b, d, e], p);
    FilterCons(b, [d, e], p);
    FilterCons(d, [e], p);
    FilterCons(e, [], p);
  }

  lemma FilterCons<T(!new)>(x: T, s: seq<T>, p: T -> bool)
    ensures Filter([x] + s, p) == (if p(x) then [x] else []) + Filter(s, p)
  {
    assert ([x] + s)[1..] == s;
  }

  /** A visitor never has home or social. */
  lemma VisitorTimelines(c: Client)
    requires c.me.None?
    ensures "home" !in AvailableBasicTimelines(c) && "social" !in AvailableBasicTimelines(c)
  {
  }

  /** `hasWithReplies`. */
  predicate HasWithReplies(timeline: Option<string>)
    ensures HasWithReplies(timeline) ==> timeline.Some? && IsBasicTimeline(timeline.value)
  {
    timeline == Some("local") || timeline == Some("social")
  }

  /** Of the basic timelines exactly local and social offer replies. */
  lemma WithRepliesTimelines()
    ensures Filter(BasicTimelineTypes, (t: string) => HasWithReplies(Some(t))) == ["local", "social"]
  {
    FilterFour("home", "local", "social", "global", (t: string) => HasWithReplies(Some(t)));
  }
}
