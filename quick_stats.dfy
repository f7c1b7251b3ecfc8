/** The four summary cards of the dashboard
    (components/dashboard/quick-stats.tsx). */
module QuickStats {
  import opened Rows

  datatype QuickStat = QuickStat(title: string, value: StatValue, description: string)

  const AverageTitle: string := "Average Progress"

  /** The `stats` array, in its fixed order. */
  function QuickStatsOf(rs: seq<Roadmap>): (stats: seq<QuickStat>)
    ensures |stats| == 4
    ensures stats[0].title == "Total Roadmaps" && stats[1].title == "In Progress"
    ensures stats[2].title == "Completed" && stats[3].title == AverageTitle
    ensures stats[0].value == Count(|rs|)
    ensures stats[1].value == Count(|WithStatus(rs, InProgress)|)
    ensures stats[2].value == Count(|WithStatus(rs, Completed)|)
    ensures stats[1].value.n + stats[2].value.n <= |rs|
    ensures stats[3].value == Percent(AverageProgress(rs))
  {
    TwoStatusCountsBounded(rs, InProgress, Completed);
    [ QuickStat("Total Roadmaps", Count(|rs|), "Career paths you're exploring"),
      QuickStat("In Progress", Count(CountStatus(rs, InProgress)), "Currently active roadmaps"),
      QuickStat("Completed", Count(CountStatus(rs, Completed)), "Successfully finished paths"),
      QuickStat(AverageTitle, Percent(AverageProgress(rs)), "Overall completion rate") ]
  }

  /** `stat.title === "Average Progress" && averageProgress > 0` */
  predicate ShowsBar(stat: QuickStat, averageProgress: real) {
    stat.title == AverageTitle && averageProgress > 0.0
  }

  /** Only the fourth card can carry a bar, and it does exactly when some
      roadmap has a positive completion percentage; its value is a
      percentage between 0 and 100. */
  lemma BarOnlyOnAverage(rs: seq<Roadmap>, i: nat)
    requires PctInRange(rs)
    requires i < 4
    ensures var stats := QuickStatsOf(rs);
      && (ShowsBar(stats[i], AverageProgress(rs)) ==> i == 3)
      && (ShowsBar(stats[3], AverageProgress(rs)) <==> exists j :: 0 <= j < |rs| && Pct(rs[j]) > 0.0)
      && 0.0 <= AverageProgress(rs) <= 100.0
  {
    AverageProgressBounds(rs);
    AverageProgressPositiveIff(rs);
  }
}
