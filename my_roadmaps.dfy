/** The "My Roadmaps" page (components/roadmaps/my-roadmaps.tsx): four tabs
    filtering the user's roadmaps by status, the card shown for each roadmap,
    and the empty state. */
module MyRoadmaps {
  import opened Rows
  import Strings
  import RoadmapProgress

  /** Either the empty state, or the four tabs with their lists. */
  datatype View =
    | EmptyState
    | Tabs(inProgress: seq<Roadmap>, notStarted: seq<Roadmap>, completed: seq<Roadmap>, paused: seq<Roadmap>)

  /** The page for a list of roadmaps. */
  function Page(rs: seq<Roadmap>): (v: View)
    ensures v.EmptyState? <==> |rs| == 0
  {
    if |rs| == 0 then EmptyState
    else Tabs(WithStatus(rs, InProgress), WithStatus(rs, NotStarted), WithStatus(rs, Completed), WithStatus(rs, Paused))
  }

  /** Every tab holds exactly the roadmaps of its status; a roadmap lies in at
      most one tab, and in none when its status is none of the four; the tab
      sizes and the unlisted roadmaps add up to the input length. */
  lemma TabsPartition(rs: seq<Roadmap>, r: Roadmap)
    requires |rs| > 0
    ensures var v := Page(rs);
      && (r in v.inProgress <==> r in rs && r.status == InProgress)
      && (r in v.notStarted <==> r in rs && r.status == NotStarted)
      && (r in v.completed <==> r in rs && r.status == Completed)
      && (r in v.paused <==> r in rs && r.status == Paused)
      && ((if r in v.inProgress then 1 else 0) + (if r in v.notStarted then 1 else 0)
          + (if r in v.completed then 1 else 0) + (if r in v.paused then 1 else 0) <= 1)
      && (!IsKnownStatus(r.status) ==> r !in v.inProgress && r !in v.notStarted && r !in v.completed && r !in v.paused)
      && |v.inProgress| + |v.notStarted| + |v.completed| + |v.paused| <= |rs|
  {
    StatusPartitionSizes(rs);
  }

  /** Each tab keeps the input order: filtering a concatenation filters the
      parts. */
  lemma TabOrder(a: seq<Roadmap>, b: seq<Roadmap>, s: string)
    ensures WithStatus(a + b, s) == WithStatus(a, s) + WithStatus(b, s)
  {
    WithStatusConcat(a, b, s);
  }

  /** What `RoadmapCard` shows for one roadmap. */
  datatype Card = Card(
    progress: real,
    completedMilestones: nat,
    totalMilestones: nat,
    statusLabel: string,
    statusVariant: string,
    buttonLabel: string)

  /** `roadmap.status.replace("_", " ")`: only the first underscore. */
  function StatusLabel(status: string): (text: string)
    ensures |text| == |status|
  {
    Strings.ReplaceFirst(status, '_', ' ')
  }

  /** The label replaces the first underscore by a space and keeps every other
      character, later underscores included. */
  lemma StatusLabelFirstUnderscore(status: string, k: nat)
    requires k < |status| && status[k] == '_' && '_' !in status[..k]
    ensures StatusLabel(status) == status[..k] + " " + status[k + 1..]
  {
    Strings.ReplaceFirstAt(status, '_', ' ', k);
  }

  lemma StatusLabelNoUnderscore(status: string)
    requires '_' !in status
    ensures StatusLabel(status) == status
  {
    Strings.ReplaceFirstAbsent(status, '_', ' ');
  }

  /** The label of the link button. */
  function ButtonLabel(status: string): (text: string)
    ensures text == "Start Roadmap" <==> status == NotStarted
    ensures text == "Start Roadmap" || text == "Continue Learning"
  {
    if status == NotStarted then "Start Roadmap" else "Continue Learning"
  }

  /** `RoadmapCard`: missing progress and milestone lists count as 0. */
  function CardOf(r: Roadmap): (card: Card)
    ensures r.completionPct.None? ==> card.progress == 0.0
    ensures r.completionPct.Some? && r.completionPct.value != 0.0 ==> card.progress == r.completionPct.value
    ensures r.completedMilestones.None? ==> card.completedMilestones == 0
    ensures r.milestones.None? ==> card.totalMilestones == 0
    ensures r.milestones.Some? ==> card.totalMilestones == |r.milestones.value|
    ensures r.completedMilestones.Some? ==> card.completedMilestones == |r.completedMilestones.value|
    ensures card.statusVariant == RoadmapProgress.StatusVariant(r.status)
  {
    Card(
      Pct(r),
      |r.completedMilestones.GetOr([])|,
      |r.milestones.GetOr([])|,
      StatusLabel(r.status),
      RoadmapProgress.StatusVariant(r.status),
      ButtonLabel(r.status))
  }
}
