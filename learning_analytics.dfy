/** The statistics cards of the analytics page
    (components/analytics/learning-analytics.tsx): counts over the roadmaps,
    milestone sums, the mock learning streak, the de-duplicated skill list,
    and what each card renders after its value. */
module LearningAnalytics {
  import opened Rows
  import Seqs

  /** `calculateLearningStreak`: three days per roadmap in progress, at least one. */
  function LearningStreak(rs: seq<Roadmap>): (n: nat)
    ensures n >= 1 && n >= 3 * CountStatus(rs, InProgress)
    ensures n == 1 || n == 3 * CountStatus(rs, InProgress)
  {
    var activeDays := CountStatus(rs, InProgress);
    if activeDays * 3 > 1 then activeDays * 3 else 1
  }

  /** The streak is 1 exactly when no roadmap is in progress. */
  lemma LearningStreakOne(rs: seq<Roadmap>)
    ensures LearningStreak(rs) == 1 <==> CountStatus(rs, InProgress) == 0
  {
  }

  function Skills(r: Roadmap): seq<string> {
    r.skills.GetOr([])
  }

  /** `userRoadmaps.flatMap((r) => r.skills || [])` */
  function AllSkills(rs: seq<Roadmap>): (all: seq<string>) {
    if |rs| == 0 then [] else AllSkills(rs[..|rs| - 1]) + Skills(rs[|rs| - 1])
  }

  /** A skill is in the flattened list exactly when some roadmap lists it. */
  lemma {:induction false} AllSkillsMembership(rs: seq<Roadmap>, s: string)
    ensures s in AllSkills(rs) <==> exists i :: 0 <= i < |rs| && s in Skills(rs[i])
  {
    if |rs| > 0 {
      var init := rs[..|rs| - 1];
      AllSkillsMembership(init, s);
      if exists i :: 0 <= i < |rs| && s in Skills(rs[i]) {
        var i :| 0 <= i < |rs| && s in Skills(rs[i]);
        if i < |init| {
          assert init[i] == rs[i];
        }
      }
      if exists i :: 0 <= i < |init| && s in Skills(init[i]) {
        var i :| 0 <= i < |init| && s in Skills(init[i]);
        assert init[i] == rs[i];
      }
    }
  }

  /** `getUniqueSkills`: `[...new Set(allSkills)]`. */
  function UniqueSkills(rs: seq<Roadmap>): seq<string> {
    Seqs.Dedup(AllSkills(rs))
  }

  /** The unique skills have no duplicates and are exactly the skills some
      roadmap lists; a roadmap without a skills list contributes none. */
  lemma UniqueSkillsSpec(rs: seq<Roadmap>, s: string)
    ensures Seqs.NoDuplicates(UniqueSkills(rs))
    ensures s in UniqueSkills(rs) <==> exists i :: 0 <= i < |rs| && s in Skills(rs[i])
    ensures |UniqueSkills(rs)| <= |AllSkills(rs)|
  {
    AllSkillsMembership(rs, s);
  }

  /** The unique skills keep the order of first occurrence in the flattened list. */
  lemma UniqueSkillsOrder(rs: seq<Roadmap>, i: nat, j: nat)
    requires i < j < |UniqueSkills(rs)|
    ensures Seqs.FirstIndex(AllSkills(rs), UniqueSkills(rs)[i]) < Seqs.FirstIndex(AllSkills(rs), UniqueSkills(rs)[j])
  {
    Seqs.DedupKeepsFirstOccurrenceOrder(AllSkills(rs), i, j);
  }

  /** `userRoadmaps.reduce((acc, r) => acc + (r.milestones?.length || 0), 0)` */
  function TotalMilestones(rs: seq<Roadmap>): nat {
    if |rs| == 0 then 0 else TotalMilestones(rs[..|rs| - 1]) + |rs[|rs| - 1].milestones.GetOr([])|
  }

  /** The sum of `progress?.completed_milestones?.length || 0`. */
  function CompletedMilestones(rs: seq<Roadmap>): nat {
    if |rs| == 0 then 0
    else CompletedMilestones(rs[..|rs| - 1]) + |rs[|rs| - 1].completedMilestones.GetOr([])|
  }

  /** Both milestone sums add up over a split of the roadmap list. */
  lemma {:induction false} MilestoneSumsAppend(a: seq<Roadmap>, b: seq<Roadmap>)
    ensures TotalMilestones(a + b) == TotalMilestones(a) + TotalMilestones(b)
    ensures CompletedMilestones(a + b) == CompletedMilestones(a) + CompletedMilestones(b)
  {
    if |b| == 0 {
      assert a + b == a;
    } else {
      assert (a + b)[..|a + b| - 1] == a + b[..|b| - 1];
      MilestoneSumsAppend(a, b[..|b| - 1]);
    }
  }

  /** The total is 0 exactly when no roadmap has a milestone (a missing list
      counts as none). */
  lemma {:induction false} TotalMilestonesZero(rs: seq<Roadmap>)
    ensures TotalMilestones(rs) == 0 <==> forall i :: 0 <= i < |rs| ==> |rs[i].milestones.GetOr([])| == 0
  {
    if |rs| > 0 {
      var init := rs[..|rs| - 1];
      TotalMilestonesZero(init);
      if TotalMilestones(rs) == 0 {
        forall i | 0 <= i < |rs| ensures |rs[i].milestones.GetOr([])| == 0 {
          if i < |init| { assert init[i] == rs[i]; }
        }
      } else if TotalMilestones(init) > 0 {
        var i :| 0 <= i < |init| && |init[i].milestones.GetOr([])| != 0;
        assert init[i] == rs[i];
      }
    }
  }

  /** A card; `total` is undefined for the cards without one. */
  datatype Stat = Stat(title: string, value: StatValue, total: Option<nat>, description: string)

  /** The six cards, in the order of the `stats` array. */
  function Stats(rs: seq<Roadmap>, sessionCount: nat): (stats: seq<Stat>)
    ensures |stats| == 6
    ensures stats[0].title == "Active Roadmaps" && stats[1].title == "Completion Rate"
    ensures stats[2].title == "Milestones Achieved" && stats[3].title == "Learning Streak"
    ensures stats[4].title == "Mentor Sessions" && stats[5].title == "Skills Acquired"
    ensures stats[0].value == Count(|WithStatus(rs, InProgress)|) && stats[0].total == Some(|rs|)
    ensures stats[0].value.n <= |rs|
    ensures stats[1].value == Percent(AverageProgress(rs))
    ensures stats[2].value == Count(CompletedMilestones(rs)) && stats[2].total == Some(TotalMilestones(rs))
    ensures stats[3].value == Count(LearningStreak(rs)) && stats[3].value.n >= 1
    ensures stats[4].value == Count(sessionCount)
    ensures stats[5].value == Count(|UniqueSkills(rs)|)
    ensures stats[1].total.None? && stats[3].total.None? && stats[4].total.None? && stats[5].total.None?
  {
    [ Stat("Active Roadmaps", Count(CountStatus(rs, InProgress)), Some(|rs|), "Currently learning"),
      Stat("Completion Rate", Percent(AverageProgress(rs)), None, "Average progress"),
      Stat("Milestones Achieved", Count(CompletedMilestones(rs)), Some(TotalMilestones(rs)), "Learning milestones"),
      Stat("Learning Streak", Count(LearningStreak(rs)), None, "Days active"),
      Stat("Mentor Sessions", Count(sessionCount), None, "AI conversations"),
      Stat("Skills Acquired", Count(|UniqueSkills(rs)|), None, "Unique skills") ]
  }

  /** What the cards tell about the roadmaps: no more active roadmaps than
      roadmaps, a completion rate between 0 and 100, a milestone total of 0
      exactly when no roadmap has milestones, and a streak of 1 exactly when
      nothing is in progress. */
  lemma StatsCards(rs: seq<Roadmap>, sessionCount: nat)
    requires PctInRange(rs)
    ensures var stats := Stats(rs, sessionCount);
      && stats[0].value.n <= stats[0].total.value
      && 0.0 <= stats[1].value.avg <= 100.0
      && (stats[2].total == Some(0) <==> forall i :: 0 <= i < |rs| ==> |rs[i].milestones.GetOr([])| == 0)
      && (stats[3].value == Count(1) <==> CountStatus(rs, InProgress) == 0)
  {
    AverageProgressBounds(rs);
    TotalMilestonesZero(rs);
    LearningStreakOne(rs);
  }

  /** What a card renders below its title. `Text` is a bare value React prints
      as text, such as the number 0 produced by a falsy `&&`. */
  datatype Node = Value(v: StatValue) | OutOf(total: nat) | Description(text: string) | Bar(percent: real) | Text(text: string)

  /** The bar's fill: `(value / total) * 100` with a non-number value read as 0.
      Its precondition is the division the page performs. */
  function BarPercent(v: StatValue, total: nat): real
    requires total > 0
  {
    (if v.Count? then v.n as real else 0.0) / total as real * 100.0
  }

  /** `{stat.total && <div>/ {stat.total}</div>}` as written: an undefined
      total renders nothing, a zero total renders the number 0 itself. */
  function OutOfAsWritten(total: Option<nat>): (nodes: seq<Node>)
    ensures total.Some? && total.value > 0 ==> nodes == [OutOf(total.value)]
    ensures nodes == [Text("0")] <==> total == Some(0)
  {
    match total
    case None => []
    case Some(t) => if t == 0 then [Text("0")] else [OutOf(t)]
  }

  /** `{stat.total && <Progress value={…} />}` as written; the bar is only
      built, and the division only made, for a positive total. */
  function BarAsWritten(s: Stat): (nodes: seq<Node>)
    ensures nodes == [Text("0")] <==> s.total == Some(0)
    ensures |nodes| == 1 && nodes[0].Bar? <==> s.total.Some? && s.total.value > 0
  {
    match s.total
    case None => []
    case Some(t) => if t == 0 then [Text("0")] else [Bar(BarPercent(s.value, t))]
  }

  /** The card body as written (lines 93-103). */
  function CardBodyAsWritten(s: Stat): (nodes: seq<Node>)
    ensures |nodes| >= 2 && nodes[0] == Value(s.value)
  {
    [Value(s.value)] + OutOfAsWritten(s.total) + [Description(s.description)] + BarAsWritten(s)
  }

  /** With no roadmaps, the "Active Roadmaps" card as written prints a stray
      "0" after its value and another after its description. */
  lemma StrayZeroWithoutRoadmaps(sessionCount: nat)
    ensures var card := CardBodyAsWritten(Stats([], sessionCount)[0]);
      card == [Value(Count(0)), Text("0"), Description("Currently learning"), Text("0")]
  {
  }

  /** The evidently intended guard: render X only for a positive total. */
  function TotalGuard(total: Option<nat>, x: Node): (nodes: seq<Node>)
    ensures nodes == [] || nodes == [x]
    ensures nodes == [x] <==> total.Some? && total.value > 0
  {
    if total.Some? && total.value > 0 then [x] else []
  }

  /** The corrected card body: the "/ total" label and the bar appear exactly
      for a positive total, the bar never divides by zero, and no bare text is
      printed. */
  function CardBody(s: Stat): (nodes: seq<Node>)
    ensures |nodes| >= 2 && nodes[0] == Value(s.value)
    ensures forall i :: 0 <= i < |nodes| ==> !nodes[i].Text?
    ensures (exists i :: 0 <= i < |nodes| && nodes[i].Bar?) <==> s.total.Some? && s.total.value > 0
    ensures (exists i :: 0 <= i < |nodes| && nodes[i].OutOf?) <==> s.total.Some? && s.total.value > 0
  {
    if s.total.Some? && s.total.value > 0 then
      var nodes := [Value(s.value), OutOf(s.total.value), Description(s.description), Bar(BarPercent(s.value, s.total.value))];
      assert nodes[3].Bar? && nodes[1].OutOf?;
      nodes
    else
      [Value(s.value), Description(s.description)]
  }
}
