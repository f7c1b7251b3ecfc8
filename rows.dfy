/** The database rows the components receive, as values, and the filters and
    folds over them that several components share. */
module Rows {

  datatype Option<+T> = None | Some(value: T) {
    function GetOr(default: T): T {
      match this
      case Some(v) => v
      case None => default
    }
  }

  /** The four statuses a user roadmap is given by the application. The column
      itself is a free string: filters compare against these literals. */
  const NotStarted: string := "not_started"
  const InProgress: string := "in_progress"
  const Paused: string := "paused"
  const Completed: string := "completed"

  predicate IsKnownStatus(s: string) {
    s == NotStarted || s == InProgress || s == Paused || s == Completed
  }

  /** An ISO time stamp produced by `new Date().toISOString()`; its content is
      not interpreted. */
  type Timestamp = string

  /** The value of a dashboard or analytics card: a count, or the rounded
      average shown as "n%". */
  datatype StatValue = Count(n: nat) | Percent(avg: real)

  /** The structured curriculum of a template: subjects, then topics, then steps. */
  datatype Step = Step(id: string)
  datatype Topic = Topic(id: string, steps: seq<Step>)
  datatype Subject = Subject(id: string, topics: seq<Topic>)

  /** A row of `roadmap_templates`. */
  datatype Template = Template(
    id: string,
    title: string,
    description: string,
    category: string,
    difficulty: string,
    duration: string,
    skills: Option<seq<string>>,
    milestones: Option<seq<string>>)

  /** A row of `user_roadmaps`, with the `progress` object flattened into
      `completionPct` and `completedMilestones`, and `subjects` the structure
      of the joined template when it has one. A null `progress_data` is the
      empty map: every read of it falls back to `{}`. */
  datatype Roadmap = Roadmap(
    id: string,
    userId: string,
    templateId: string,
    title: string,
    description: string,
    status: string,
    category: string,
    difficulty: string,
    duration: string,
    skills: Option<seq<string>>,
    milestones: Option<seq<string>>,
    completionPct: Option<real>,
    completedMilestones: Option<seq<nat>>,
    progressData: map<string, bool>,
    subjects: Option<seq<Subject>>,
    currentStreak: Option<int>,
    startedAt: Option<Timestamp>,
    completedAt: Option<Timestamp>,
    updatedAt: Option<Timestamp>)

  /** `rs.filter((r) => r.status === s)` */
  function WithStatus(rs: seq<Roadmap>, s: string): (r: seq<Roadmap>)
    ensures |r| <= |rs|
    ensures forall x :: x in r <==> x in rs && x.status == s
  {
    if |rs| == 0 then []
    else (if rs[0].status == s then [rs[0]] else []) + WithStatus(rs[1..], s)
  }

  /** `rs.filter((r) => r.status === s).length` */
  function CountStatus(rs: seq<Roadmap>, s: string): nat {
    |WithStatus(rs, s)|
  }

  /** Filtering distributes over concatenation, so it keeps the input order. */
  lemma {:induction false} WithStatusConcat(a: seq<Roadmap>, b: seq<Roadmap>, s: string)
    ensures WithStatus(a + b, s) == WithStatus(a, s) + WithStatus(b, s)
  {
    if |a| == 0 {
      assert a + b == b;
    } else {
      assert (a + b)[0] == a[0];
      assert (a + b)[1..] == a[1..] + b;
      WithStatusConcat(a[1..], b, s);
    }
  }

  /** Roadmaps whose status is none of `ss`. */
  function WithOtherStatus(rs: seq<Roadmap>, ss: set<string>): (r: seq<Roadmap>)
    ensures forall x :: x in r <==> x in rs && x.status !in ss
  {
    if |rs| == 0 then []
    else (if rs[0].status !in ss then [rs[0]] else []) + WithOtherStatus(rs[1..], ss)
  }

  /** Filters on two different statuses pick disjoint parts of the input, so
      their counts add up to at most the input length. */
  lemma {:induction false} TwoStatusCountsBounded(rs: seq<Roadmap>, s1: string, s2: string)
    requires s1 != s2
    ensures CountStatus(rs, s1) + CountStatus(rs, s2) <= |rs|
  {
    if |rs| > 0 {
      TwoStatusCountsBounded(rs[1..], s1, s2);
    }
  }

  /** The four status filters and the remainder split the input exactly. */
  lemma {:induction false} StatusPartitionSizes(rs: seq<Roadmap>)
    ensures CountStatus(rs, InProgress) + CountStatus(rs, NotStarted) + CountStatus(rs, Completed)
      + CountStatus(rs, Paused) + |WithOtherStatus(rs, {InProgress, NotStarted, Completed, Paused})| == |rs|
  {
    if |rs| > 0 {
      StatusPartitionSizes(rs[1..]);
    }
  }

  /** `r.progress?.completion_percentage || 0` */
  function Pct(r: Roadmap): real {
    r.completionPct.GetOr(0.0)
  }

  /** `rs.reduce((acc, r) => acc + (r.progress?.completion_percentage || 0), 0)` */
  function SumPct(rs: seq<Roadmap>): real {
    if |rs| == 0 then 0.0 else SumPct(rs[..|rs| - 1]) + Pct(rs[|rs| - 1])
  }

  predicate PctInRange(rs: seq<Roadmap>) {
    forall i :: 0 <= i < |rs| ==> 0.0 <= Pct(rs[i]) <= 100.0
  }

  lemma {:induction false} SumPctBounds(rs: seq<Roadmap>)
    requires PctInRange(rs)
    ensures 0.0 <= SumPct(rs) <= 100.0 * |rs| as real
  {
    if |rs| > 0 {
      var init := rs[..|rs| - 1];
      assert PctInRange(init) by {
        forall i | 0 <= i < |init| ensures 0.0 <= Pct(init[i]) <= 100.0 {
          assert init[i] == rs[i];
        }
      }
      SumPctBounds(init);
    }
  }

  /** With percentages between 0 and 100, the sum is positive exactly when
      some roadmap has a positive percentage. */
  lemma {:induction false} SumPctPositiveIff(rs: seq<Roadmap>)
    requires PctInRange(rs)
    ensures SumPct(rs) > 0.0 <==> exists i :: 0 <= i < |rs| && Pct(rs[i]) > 0.0
  {
    if |rs| > 0 {
      var init := rs[..|rs| - 1];
      assert PctInRange(init) by {
        forall i | 0 <= i < |init| ensures 0.0 <= Pct(init[i]) <= 100.0 {
          assert init[i] == rs[i];
        }
      }
      SumPctPositiveIff(init);
      SumPctBounds(init);
      if SumPct(init) > 0.0 {
        var i :| 0 <= i < |init| && Pct(init[i]) > 0.0;
        assert rs[i] == init[i];
      }
      if exists i :: 0 <= i < |rs| && Pct(rs[i]) > 0.0 {
        var i :| 0 <= i < |rs| && Pct(rs[i]) > 0.0;
        if i < |init| {
          assert init[i] == rs[i];
        }
      }
    }
  }

  /** The mean completion percentage used by the dashboard and the analytics
      page, 0 for no roadmaps. */
  function AverageProgress(rs: seq<Roadmap>): (avg: real)
    ensures |rs| == 0 ==> avg == 0.0
    ensures |rs| > 0 ==> avg * |rs| as real == SumPct(rs)
  {
    if |rs| > 0 then SumPct(rs) / |rs| as real else 0.0
  }

  /** With percentages between 0 and 100, so is their average; and it is
      positive exactly when their sum is. */
  lemma AverageProgressBounds(rs: seq<Roadmap>)
    requires PctInRange(rs)
    ensures 0.0 <= AverageProgress(rs) <= 100.0
    ensures AverageProgress(rs) > 0.0 <==> SumPct(rs) > 0.0
  {
    SumPctBounds(rs);
  }

  /** The average is positive exactly when some roadmap has made progress. */
  lemma AverageProgressPositiveIff(rs: seq<Roadmap>)
    requires PctInRange(rs)
    ensures AverageProgress(rs) > 0.0 <==> exists i :: 0 <= i < |rs| && Pct(rs[i]) > 0.0
  {
    AverageProgressBounds(rs);
    SumPctPositiveIff(rs);
  }
}
