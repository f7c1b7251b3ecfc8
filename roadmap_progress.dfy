/** The progress model of a structured roadmap (components/roadmaps/roadmap-details.tsx):
    a tree of subjects, topics and steps; a flat map from the composite key
    `subjectId-topicId-stepId` to "done"; counts over the tree; the status and
    time-stamp rule applied when a step is toggled; and the manual status
    transitions offered by the page's buttons. */
module RoadmapProgress {
  import opened Rows
  import Seqs

  /** The template literal `${subjectId}-${topicId}-${stepId}`. */
  function StepKey(subjectId: string, topicId: string, stepId: string): string {
    subjectId + "-" + topicId + "-" + stepId
  }

  /** `progressData[key]` is truthy: an absent key counts as not done. */
  predicate IsDone(pd: map<string, bool>, key: string) {
    key in pd && pd[key]
  }

  /** The keys of a topic's steps, in the order the page walks them. */
  function StepKeys(subjectId: string, topicId: string, steps: seq<Step>): (keys: seq<string>)
    ensures |keys| == |steps|
  {
    if |steps| == 0 then []
    else StepKeys(subjectId, topicId, steps[..|steps| - 1]) + [StepKey(subjectId, topicId, steps[|steps| - 1].id)]
  }

  /** The keys of all steps of a subject's topics. */
  function TopicKeys(subjectId: string, topics: seq<Topic>): seq<string> {
    if |topics| == 0 then []
    else
      var t := topics[|topics| - 1];
      TopicKeys(subjectId, topics[..|topics| - 1]) + StepKeys(subjectId, t.id, t.steps)
  }

  /** The keys of every step of the roadmap. */
  function SubjectKeys(subjects: seq<Subject>): seq<string> {
    if |subjects| == 0 then []
    else
      var s := subjects[|subjects| - 1];
      SubjectKeys(subjects[..|subjects| - 1]) + TopicKeys(s.id, s.topics)
  }

  /** The number of keys that are done. */
  function CountDone(pd: map<string, bool>, keys: seq<string>): (n: nat)
    ensures n <= |keys|
  {
    if |keys| == 0 then 0
    else CountDone(pd, keys[..|keys| - 1]) + (if IsDone(pd, keys[|keys| - 1]) then 1 else 0)
  }

  /** The `{ completed, total, percentage }` object the page computes. */
  datatype Progress = Progress(completed: nat, total: nat) {
    function Percentage(): real {
      if total > 0 then (completed as real / total as real) * 100.0 else 0.0
    }
  }

  /** Progress over a list of step keys: the steps done out of all steps. */
  function KeysProgress(pd: map<string, bool>, keys: seq<string>): (p: Progress)
    ensures p.total == |keys| && p.completed <= p.total
    ensures p.completed == |keys| <==> forall i :: 0 <= i < |keys| ==> IsDone(pd, keys[i])
  {
    AllDoneIff(pd, keys);
    Progress(CountDone(pd, keys), |keys|)
  }

  lemma {:induction false} AllDoneIff(pd: map<string, bool>, keys: seq<string>)
    ensures CountDone(pd, keys) == |keys| <==> forall i :: 0 <= i < |keys| ==> IsDone(pd, keys[i])
  {
    if |keys| > 0 {
      var init := keys[..|keys| - 1];
      AllDoneIff(pd, init);
      if forall i :: 0 <= i < |keys| ==> IsDone(pd, keys[i]) {
        assert forall i :: 0 <= i < |init| ==> IsDone(pd, init[i]) by {
          forall i | 0 <= i < |init| ensures IsDone(pd, init[i]) { assert init[i] == keys[i]; }
        }
      } else if CountDone(pd, init) == |init| {
        forall i | 0 <= i < |init| ensures IsDone(pd, keys[i]) { assert init[i] == keys[i]; }
      }
    }
  }

  /** `calculateProgress`: step counts when the template has a subject
      structure, otherwise the milestone counts (a missing list counts as 0). */
  function OverallProgress(r: Roadmap): Progress {
    match r.subjects
    case None => Progress(|r.completedMilestones.GetOr([])|, |r.milestones.GetOr([])|)
    case Some(ss) => KeysProgress(r.progressData, SubjectKeys(ss))
  }

  /** The percentage reads 100 exactly when there is at least one step and all
      of them are done, and 0 when there are none. */
  lemma PercentageFullIff(p: Progress)
    requires p.completed <= p.total
    ensures p.Percentage() == 100.0 <==> p.total > 0 && p.completed == p.total
    ensures p.total == 0 ==> p.Percentage() == 0.0
  {
    if p.total > 0 {
      var q := p.completed as real / p.total as real;
      assert q * p.total as real == p.completed as real;
      if q * 100.0 == 100.0 {
        assert q == 1.0;
      }
    }
  }

  lemma {:induction false} CountDoneConcat(pd: map<string, bool>, a: seq<string>, b: seq<string>)
    ensures CountDone(pd, a + b) == CountDone(pd, a) + CountDone(pd, b)
  {
    if |b| == 0 {
      assert a + b == a;
    } else {
      assert (a + b)[..|a + b| - 1] == a + b[..|b| - 1];
      CountDoneConcat(pd, a, b[..|b| - 1]);
    }
  }

  /** Sum over topics of `getTopicProgress(subjectId, topic).completed`. */
  function TopicsDone(pd: map<string, bool>, subjectId: string, topics: seq<Topic>): nat {
    if |topics| == 0 then 0
    else
      var t := topics[|topics| - 1];
      TopicsDone(pd, subjectId, topics[..|topics| - 1]) + CountDone(pd, StepKeys(subjectId, t.id, t.steps))
  }

  /** Sum over topics of `getTopicProgress(subjectId, topic).total`. */
  function TopicsTotal(topics: seq<Topic>): nat {
    if |topics| == 0 then 0 else TopicsTotal(topics[..|topics| - 1]) + |topics[|topics| - 1].steps|
  }

  /** A subject's counts are the sums of its topics' counts. */
  lemma {:induction false} SubjectIsSumOfTopics(pd: map<string, bool>, s: Subject)
    ensures KeysProgress(pd, TopicKeys(s.id, s.topics)) == Progress(TopicsDone(pd, s.id, s.topics), TopicsTotal(s.topics))
  {
    TopicsSum(pd, s.id, s.topics);
  }

  lemma {:induction false} TopicsSum(pd: map<string, bool>, subjectId: string, topics: seq<Topic>)
    ensures CountDone(pd, TopicKeys(subjectId, topics)) == TopicsDone(pd, subjectId, topics)
    ensures |TopicKeys(subjectId, topics)| == TopicsTotal(topics)
  {
    if |topics| > 0 {
      var t := topics[|topics| - 1];
      TopicsSum(pd, subjectId, topics[..|topics| - 1]);
      CountDoneConcat(pd, TopicKeys(subjectId, topics[..|topics| - 1]), StepKeys(subjectId, t.id, t.steps));
    }
  }

  /** Sum over subjects of `getSubjectProgress(subject).completed`. */
  function SubjectsDone(pd: map<string, bool>, subjects: seq<Subject>): nat {
    if |subjects| == 0 then 0
    else
      var s := subjects[|subjects| - 1];
      SubjectsDone(pd, subjects[..|subjects| - 1]) + CountDone(pd, TopicKeys(s.id, s.topics))
  }

  /** Sum over subjects of `getSubjectProgress(subject).total`. */
  function SubjectsTotal(subjects: seq<Subject>): nat {
    if |subjects| == 0 then 0
    else SubjectsTotal(subjects[..|subjects| - 1]) + TopicsTotal(subjects[|subjects| - 1].topics)
  }

  /** The overall counts are the sums of the subjects' counts. */
  lemma {:induction false} OverallIsSumOfSubjects(pd: map<string, bool>, subjects: seq<Subject>)
    ensures KeysProgress(pd, SubjectKeys(subjects)) == Progress(SubjectsDone(pd, subjects), SubjectsTotal(subjects))
  {
    if |subjects| > 0 {
      var s := subjects[|subjects| - 1];
      OverallIsSumOfSubjects(pd, subjects[..|subjects| - 1]);
      TopicsSum(pd, s.id, s.topics);
      CountDoneConcat(pd, SubjectKeys(subjects[..|subjects| - 1]), TopicKeys(s.id, s.topics));
    }
  }

  /** `{ ...currentProgressData, [stepKey]: !isCompleted }`: the toggled key
      flips (absent counts as false, so it becomes true); every other entry is
      unchanged. */
  function Toggled(pd: map<string, bool>, key: string): (pd': map<string, bool>)
    ensures key in pd' && IsDone(pd', key) == !IsDone(pd, key)
    ensures pd'.Keys == pd.Keys + {key}
    ensures forall k :: k in pd && k != key ==> pd'[k] == pd[k]
  {
    pd[key := !IsDone(pd, key)]
  }

  /** Changing one entry of the map changes the count by the number of times
      the key is walked, times the change of that entry. */
  lemma {:induction false} CountDoneAfterUpdate(pd: map<string, bool>, key: string, v: bool, keys: seq<string>)
    ensures CountDone(pd[key := v], keys) as int
      == CountDone(pd, keys) as int
         + Seqs.Occurrences(keys, key) * ((if v then 1 else 0) - (if IsDone(pd, key) then 1 else 0))
  {
    if |keys| > 0 {
      CountDoneAfterUpdate(pd, key, v, keys[..|keys| - 1]);
    }
  }

  /** When the toggled step occurs once in the tree, the completed count moves
      by exactly one: up when the step is checked, down when it is unchecked. */
  lemma ToggleMovesCountByOne(pd: map<string, bool>, key: string, keys: seq<string>)
    requires Seqs.Occurrences(keys, key) == 1
    ensures IsDone(pd, key) ==> CountDone(Toggled(pd, key), keys) + 1 == CountDone(pd, keys)
    ensures !IsDone(pd, key) ==> CountDone(Toggled(pd, key), keys) == CountDone(pd, keys) + 1
  {
    CountDoneAfterUpdate(pd, key, !IsDone(pd, key), keys);
  }

  /** The composite key is not injective: ids containing '-' can make two
      different steps share one entry of the map, so toggling one toggles both. */
  lemma SharedKeyExample()
    ensures StepKey("a-b", "c", "d") == StepKey("a", "b-c", "d")
  {
  }

  /** The status written by `toggleStep` (line 113): "completed" when the new
      percentage is 100, otherwise "in_progress" for a roadmap not yet
      started, otherwise the old status. */
  function StatusAfterToggle(oldStatus: string, p: Progress): string {
    if p.Percentage() == 100.0 then Completed
    else if oldStatus == NotStarted then InProgress
    else oldStatus
  }

  /** A toggle yields "completed" exactly when all steps are done or the roadmap
      was already completed (unchecking keeps it completed); it never yields
      "not_started"; a paused roadmap stays paused unless the last step is
      done; and a known status stays a known status. */
  lemma StatusAfterToggleRule(oldStatus: string, p: Progress)
    requires p.completed <= p.total
    ensures var s := StatusAfterToggle(oldStatus, p);
      && (s == Completed <==> (p.total > 0 && p.completed == p.total) || oldStatus == Completed)
      && s != NotStarted
      && (oldStatus == Paused && !(p.total > 0 && p.completed == p.total) ==> s == Paused)
      && (IsKnownStatus(oldStatus) ==> IsKnownStatus(s))
  {
    PercentageFullIff(p);
  }

  /** The fields written to `user_roadmaps` by one update. */
  datatype RoadmapUpdate = RoadmapUpdate(
    progressData: Option<map<string, bool>>,
    status: string,
    updatedAt: Timestamp,
    startedAt: Option<Timestamp>,
    completedAt: Option<Timestamp>)

  /** The row after the update: written fields replaced, others kept. */
  function ApplyUpdate(r: Roadmap, u: RoadmapUpdate): (r': Roadmap)
    ensures r'.status == u.status && r'.updatedAt == Some(u.updatedAt)
    ensures r'.progressData == (if u.progressData.Some? then u.progressData.value else r.progressData)
    ensures r'.startedAt == (if u.startedAt.Some? then u.startedAt else r.startedAt)
    ensures r'.completedAt == (if u.completedAt.Some? then u.completedAt else r.completedAt)
    ensures r'.(status := r.status, updatedAt := r.updatedAt, progressData := r.progressData,
                startedAt := r.startedAt, completedAt := r.completedAt) == r
  {
    r.(progressData := if u.progressData.Some? then u.progressData.value else r.progressData,
       status := u.status,
       updatedAt := Some(u.updatedAt),
       startedAt := if u.startedAt.Some? then u.startedAt else r.startedAt,
       completedAt := if u.completedAt.Some? then u.completedAt else r.completedAt)
  }

  /** The update `toggleStep` sends for one step, or None when the roadmap has
      no subject structure (the walk over `template.structure.subjects` throws). */
  function ToggleUpdate(r: Roadmap, key: string, now: Timestamp): Option<RoadmapUpdate> {
    match r.subjects
    case None => None
    case Some(ss) =>
      var pd := Toggled(r.progressData, key);
      var p := KeysProgress(pd, SubjectKeys(ss));
      Some(RoadmapUpdate(
        Some(pd),
        StatusAfterToggle(r.status, p),
        now,
        if r.status == NotStarted then Some(now) else None,
        if p.Percentage() == 100.0 then Some(now) else None))
  }

  /** A toggle writes the flipped map; it stamps started_at exactly when the
      roadmap was not started, and completed_at exactly when every step is
      done after the flip. */
  lemma ToggleUpdateStamps(r: Roadmap, key: string, now: Timestamp)
    requires r.subjects.Some?
    ensures var u := ToggleUpdate(r, key, now);
      var pd := Toggled(r.progressData, key);
      var keys := SubjectKeys(r.subjects.value);
      && u.Some?
      && u.value.progressData == Some(pd)
      && (u.value.startedAt.Some? <==> r.status == NotStarted)
      && (u.value.completedAt.Some? <==> |keys| > 0 && forall i :: 0 <= i < |keys| ==> IsDone(pd, keys[i]))
      && (u.value.status == Completed <==> u.value.completedAt.Some? || r.status == Completed)
  {
    var pd := Toggled(r.progressData, key);
    var p := KeysProgress(pd, SubjectKeys(r.subjects.value));
    PercentageFullIff(p);
    StatusAfterToggleRule(r.status, p);
  }

  /** The update `updateRoadmapStatus(newStatus)` sends. */
  function StatusUpdate(r: Roadmap, newStatus: string, now: Timestamp): RoadmapUpdate {
    RoadmapUpdate(
      None,
      newStatus,
      now,
      if newStatus == InProgress && r.status == NotStarted then Some(now) else None,
      if newStatus == Completed then Some(now) else None)
  }

  /** The targets of the buttons shown for a status (lines 285-314). */
  function OfferedTransitions(status: string): seq<string> {
    if status == NotStarted then [InProgress]
    else if status == InProgress then [Paused, Completed]
    else if status == Paused then [InProgress]
    else if status == Completed then [InProgress]
    else []
  }

  /** The manual transition graph: start, pause or complete, resume, restart.
      No button leads back to "not_started" or to the current status, an
      unknown status offers nothing, and of the offered transitions only
      "Start Roadmap" stamps started_at while only "Mark Complete" stamps
      completed_at. */
  lemma ManualTransitions(r: Roadmap, t: string, now: Timestamp)
    ensures t in OfferedTransitions(r.status) <==>
      || (r.status == NotStarted && t == InProgress)
      || (r.status == InProgress && (t == Paused || t == Completed))
      || (r.status == Paused && t == InProgress)
      || (r.status == Completed && t == InProgress)
    ensures t in OfferedTransitions(r.status) ==> t != NotStarted && t != r.status && IsKnownStatus(r.status)
    ensures t in OfferedTransitions(r.status) ==>
      var u := StatusUpdate(r, t, now);
      && u.status == t && u.progressData.None?
      && (u.startedAt.Some? <==> r.status == NotStarted)
      && (u.completedAt.Some? <==> r.status == InProgress && t == Completed)
  {
  }

  /** `getStatusColor` (shared by the roadmap list and the details page). */
  function StatusVariant(status: string): (v: string)
    ensures v == "outline" <==> status != InProgress && status != Completed && status != Paused
    ensures v == "secondary" <==> status == Paused
  {
    if status == InProgress then "default"
    else if status == Completed then "default"
    else if status == Paused then "secondary"
    else "outline"
  }
}
