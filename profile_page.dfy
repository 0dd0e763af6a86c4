/**
 * The profile page's figures and achievement badges
 * (src/pages/ProfilePage.tsx): counts of all, public and private recordings,
 * the current streak, which badges and messages are shown, and whether the
 * heat map and the progress chart it embeds can render.
 */
module ProfilePage {
  import opened Js
  import opened Store
  import opened ActivityCalendar
  import opened ProgressChart

  datatype Stats = Stats(totalRecordings: nat, publicRecordings: nat, privateRecordings: nat, currentStreak: int)

  function IsPublicRec(r: Recording): bool { r.isPublic }

  /** The `stats` object; None when there is no user (the page renders nothing). */
  function ComputeStats(user: Option<User>, recs: seq<Recording>): (s: Option<Stats>)
    ensures s.None? <==> user.None?
  {
    match user
    case None => None
    case Some(u) =>
      Some(Stats(|recs|, |Filter(recs, IsPublicRec)|, |Filter(recs, Negate(IsPublicRec))|,
                 u.streakCount))
  }

  /**
   * The public and private counts partition the total, each counts exactly
   * the recordings of its kind, and the streak is the user's `streakCount`.
   */
  lemma StatsSpec(u: User, recs: seq<Recording>, r: Recording)
    ensures var s := ComputeStats(Some(u), recs).value;
      && s.totalRecordings == |recs|
      && s.publicRecordings + s.privateRecordings == s.totalRecordings
      && multiset(Filter(recs, IsPublicRec))[r] == (if r.isPublic then multiset(recs)[r] else 0)
      && multiset(Filter(recs, Negate(IsPublicRec)))[r] == (if r.isPublic then 0 else multiset(recs)[r])
      && s.currentStreak == u.streakCount
  {
    FilterSplit(recs, IsPublicRec);
    FilterCounts(recs, IsPublicRec, r);
    FilterCounts(recs, Negate(IsPublicRec), r);
  }

  /** What the achievements panel shows. */
  datatype Panel = Panel(firstRecording: bool, communityContributor: bool,
                         practiceMakesPerfect: bool, noAchievementsYet: bool)

  /** The panel as written: the "First Recording" badge carries no condition. */
  function PanelAsWritten(s: Stats): (p: Panel)
    ensures p.firstRecording
    ensures p.communityContributor <==> s.publicRecordings > 0
    ensures p.practiceMakesPerfect <==> s.totalRecordings >= 5
    ensures p.noAchievementsYet <==> s.totalRecordings == 0
  {
    Panel(true, s.publicRecordings > 0, s.totalRecordings >= 5, s.totalRecordings == 0)
  }

  /**
   * With no recordings the page claims the first recording was made and, in
   * the same panel, that no achievement has been earned yet.
   */
  lemma FirstBadgeWithoutRecordings(u: User)
    ensures var p := PanelAsWritten(ComputeStats(Some(u), []).value);
      p.firstRecording && p.noAchievementsYet
  {
  }

  /** The panel with the "First Recording" badge earned by one recording. */
  function ProfilePanel(s: Stats): (p: Panel)
    ensures p.firstRecording <==> s.totalRecordings >= 1
    ensures p.communityContributor <==> s.publicRecordings > 0
    ensures p.practiceMakesPerfect <==> s.totalRecordings >= 5
    ensures p.noAchievementsYet <==> s.totalRecordings == 0
  {
    Panel(s.totalRecordings >= 1, s.publicRecordings > 0, s.totalRecordings >= 5, s.totalRecordings == 0)
  }

  /**
   * On real statistics, the "no achievements yet" message shows exactly when
   * no badge does, and each badge implies the first: public recordings and a
   * five-recording practice are recordings.
   */
  lemma PanelConsistent(u: User, recs: seq<Recording>)
    ensures var p := ProfilePanel(ComputeStats(Some(u), recs).value);
      && (p.noAchievementsYet <==> !(p.firstRecording || p.communityContributor || p.practiceMakesPerfect))
      && (p.communityContributor ==> p.firstRecording)
      && (p.practiceMakesPerfect ==> p.firstRecording)
      && (p.firstRecording <==> recs != [])
  {
    FilterSplit(recs, IsPublicRec);
  }

  /**
   * The badges follow the recordings themselves: "Community Contributor"
   * exactly when some recording is public, "Practice Makes Perfect" exactly
   * when there are at least five, on either version of the panel.
   */
  lemma BadgesFollowRecordings(u: User, recs: seq<Recording>)
    ensures var s := ComputeStats(Some(u), recs).value;
      && (ProfilePanel(s).communityContributor <==> exists r :: r in recs && r.isPublic)
      && (PanelAsWritten(s).communityContributor <==> exists r :: r in recs && r.isPublic)
      && (ProfilePanel(s).practiceMakesPerfect <==> |recs| >= 5)
  {
    var pub := Filter(recs, IsPublicRec);
    if |pub| > 0 {
      assert pub[0] in pub;
    }
    if exists r :: r in recs && r.isPublic {
      var r :| r in recs && r.isPublic;
      assert r in pub;
    }
  }

  /**
   * What the page shows: nothing without a user, a crash when one of the
   * embedded components throws while rendering, or its figures, heat map
   * and chart.
   */
  datatype PageView = Nothing | Crashed | Shown(stats: Stats, calendar: Heatmap, chart: ChartView)

  /**
   * The page, given the `recordings` property it hands to
   * `<ActivityCalendar />` and `<ProgressChart />` (None: not passed). A
   * missing property makes the component's `recordings.filter` throw; the
   * chart also throws when a rated recording has no date.
   */
  function RenderPage(user: Option<User>, recs: seq<Recording>,
                      calendarProp: Option<seq<Recording>>, chartProp: Option<seq<Recording>>,
                      dayOf: string -> Day, monthOf: Day -> string, today: Day): (v: PageView)
    ensures v == Nothing <==> user.None?
    ensures user.Some? && (calendarProp.None? || chartProp.None?) ==> v == Crashed
    ensures v.Shown? ==>
      && calendarProp.Some? && chartProp.Some? && v.chart != Throws
      && ComputeStats(user, recs) == Some(v.stats)
  {
    if user.None? then Nothing
    else if calendarProp.None? || chartProp.None? then Crashed
    else if View(chartProp.value) == Throws then Crashed
    else Shown(ComputeStats(user, recs).value, Render(calendarProp.value, dayOf, monthOf, today),
               View(chartProp.value))
  }

  /**
   * The page as written passes neither component its `recordings`, so for
   * every signed-in user it crashes and the heat map and chart never show.
   */
  function PageAsWritten(user: Option<User>, recs: seq<Recording>,
                         dayOf: string -> Day, monthOf: Day -> string, today: Day): (v: PageView)
    ensures v == Nothing <==> user.None?
    ensures user.Some? ==> v == Crashed
  {
    RenderPage(user, recs, None, None, dayOf, monthOf, today)
  }

  /** The page with the store's recordings passed to both components. */
  function ProfileView(user: Option<User>, recs: seq<Recording>,
                       dayOf: string -> Day, monthOf: Day -> string, today: Day): (v: PageView)
    ensures v == Nothing <==> user.None?
    ensures user.Some? ==> (v == Crashed <==> View(recs) == Throws)
    ensures v.Shown? ==> v.calendar == Render(recs, dayOf, monthOf, today) && v.chart == View(recs)
  {
    RenderPage(user, recs, Some(recs), Some(recs), dayOf, monthOf, today)
  }

  /**
   * With the recordings passed, a signed-in user's page crashes only when a
   * rated recording has no date; otherwise it shows the heat map of the
   * store's recordings, whose counts add up to those dated in the window,
   * and the chart, which says "No progress yet" exactly when nothing is rated.
   */
  lemma ProfileViewShowsProgress(u: User, recs: seq<Recording>,
                                 dayOf: string -> Day, monthOf: Day -> string, today: Day)
    ensures var v := ProfileView(Some(u), recs, dayOf, monthOf, today);
      && (v == Crashed <==> exists r :: r in recs && r.metrics.Some? && r.date.None?)
      && (v != Crashed ==>
            && v.Shown?
            && v.calendar == Render(recs, dayOf, monthOf, today)
            && SumCounts(v.calendar.cells) == CountIn(recs, dayOf, Window(today))
            && (v.chart == NoProgressYet <==> forall r :: r in recs ==> r.metrics.None?))
  {
    var rated := Filter(recs, HasMetrics);
    ProgressDataSpec(recs, "");
    if exists r :: r in recs && r.metrics.Some? && r.date.None? {
      var r :| r in recs && r.metrics.Some? && r.date.None?;
      assert r in rated;
    }
    ActivityTotal(recs, dayOf, today);
    NoProgressIffUnrated(recs);
  }
}
