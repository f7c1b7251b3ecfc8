/** The roadmap details page (components/roadmaps/roadmap-details.tsx) as a
    stateful component: the roadmap row it shows, the isUpdating flag, the
    sets of expanded subjects and topics, and the handlers that change them.
    The counting walks are the page's nested loops, each proved equal to the
    counting functions of RoadmapProgress. */
module RoadmapDetailsView {
  import opened Rows
  import opened RoadmapProgress

  /** The `user_activities` row inserted when a step is toggled. */
  datatype Activity = Activity(userId: string, activityType: string, roadmapId: string, stepKey: string)

  /** `getTopicProgress`: one pass over the topic's steps. */
  method CountTopicSteps(pd: map<string, bool>, subjectId: string, topic: Topic) returns (p: Progress)
    ensures p == KeysProgress(pd, StepKeys(subjectId, topic.id, topic.steps))
  {
    var total, completed := 0, 0;
    var i := 0;
    while i < |topic.steps|
      invariant 0 <= i <= |topic.steps|
      invariant total == i
      invariant completed == CountDone(pd, StepKeys(subjectId, topic.id, topic.steps[..i]))
    {
      assert topic.steps[..i + 1][..i] == topic.steps[..i];
      total := total + 1;
      if IsDone(pd, StepKey(subjectId, topic.id, topic.steps[i].id)) {
        completed := completed + 1;
      }
      i := i + 1;
    }
    assert topic.steps[..i] == topic.steps;
    p := Progress(completed, total);
  }

  /** Adding the steps of one more topic to a walk over a subject's topics. */
  lemma TopicKeysSnoc(pd: map<string, bool>, subjectId: string, topics: seq<Topic>, j: nat)
    requires j < |topics|
    ensures TopicKeys(subjectId, topics[..j + 1])
      == TopicKeys(subjectId, topics[..j]) + StepKeys(subjectId, topics[j].id, topics[j].steps)
    ensures CountDone(pd, TopicKeys(subjectId, topics[..j + 1]))
      == CountDone(pd, TopicKeys(subjectId, topics[..j])) + CountDone(pd, StepKeys(subjectId, topics[j].id, topics[j].steps))
  {
    assert topics[..j + 1][..j] == topics[..j];
    CountDoneConcat(pd, TopicKeys(subjectId, topics[..j]), StepKeys(subjectId, topics[j].id, topics[j].steps));
  }

  /** Adding the steps of one more subject to the walk over the roadmap. */
  lemma SubjectKeysSnoc(pd: map<string, bool>, subjects: seq<Subject>, k: nat)
    requires k < |subjects|
    ensures SubjectKeys(subjects[..k + 1]) == SubjectKeys(subjects[..k]) + TopicKeys(subjects[k].id, subjects[k].topics)
    ensures CountDone(pd, SubjectKeys(subjects[..k + 1]))
      == CountDone(pd, SubjectKeys(subjects[..k])) + CountDone(pd, TopicKeys(subjects[k].id, subjects[k].topics))
  {
    assert subjects[..k + 1][..k] == subjects[..k];
    CountDoneConcat(pd, SubjectKeys(subjects[..k]), TopicKeys(subjects[k].id, subjects[k].topics));
  }

  /** `getSubjectProgress`: the nested walk over a subject's topics and steps. */
  method CountSubjectSteps(pd: map<string, bool>, subject: Subject) returns (p: Progress)
    ensures p == KeysProgress(pd, TopicKeys(subject.id, subject.topics))
  {
    var total, completed := 0, 0;
    var j := 0;
    while j < |subject.topics|
      invariant 0 <= j <= |subject.topics|
      invariant total == |TopicKeys(subject.id, subject.topics[..j])|
      invariant completed == CountDone(pd, TopicKeys(subject.id, subject.topics[..j]))
    {
      var topic := subject.topics[j];
      var i := 0;
      while i < |topic.steps|
        invariant 0 <= i <= |topic.steps|
        invariant total == |TopicKeys(subject.id, subject.topics[..j])| + i
        invariant completed == CountDone(pd, TopicKeys(subject.id, subject.topics[..j]))
                               + CountDone(pd, StepKeys(subject.id, topic.id, topic.steps[..i]))
      {
        assert topic.steps[..i + 1][..i] == topic.steps[..i];
        total := total + 1;
        if IsDone(pd, StepKey(subject.id, topic.id, topic.steps[i].id)) {
          completed := completed + 1;
        }
        i := i + 1;
      }
      assert topic.steps[..i] == topic.steps;
      TopicKeysSnoc(pd, subject.id, subject.topics, j);
      j := j + 1;
    }
    assert subject.topics[..j] == subject.topics;
    p := Progress(completed, total);
  }

  /** The triple walk of `calculateProgress` and `toggleStep` over all subjects,
      topics and steps; the walk over one subject's topics and steps is the
      same nested loop as `getSubjectProgress`. */
  method CountAllSteps(pd: map<string, bool>, subjects: seq<Subject>) returns (p: Progress)
    ensures p == KeysProgress(pd, SubjectKeys(subjects))
  {
    var total, completed := 0, 0;
    var k := 0;
    while k < |subjects|
      invariant 0 <= k <= |subjects|
      invariant total == |SubjectKeys(subjects[..k])|
      invariant completed == CountDone(pd, SubjectKeys(subjects[..k]))
    {
      var q := CountSubjectSteps(pd, subjects[k]);
      SubjectKeysSnoc(pd, subjects, k);
      total := total + q.total;
      completed := completed + q.completed;
      k := k + 1;
    }
    assert subjects[..k] == subjects;
    p := Progress(completed, total);
  }

  /** A set toggled in and out: `toggleSubject` and `toggleTopic` copy the set
      and add or delete one id. */
  function Flipped(s: set<string>, x: string): (s': set<string>)
    ensures x in s' <==> x !in s
    ensures forall y :: y != x ==> (y in s' <==> y in s)
  {
    if x in s then s - {x} else s + {x}
  }

  /** Expanding and collapsing the same entry restores the set. */
  lemma FlipTwice(s: set<string>, x: string)
    ensures Flipped(Flipped(s, x), x) == s
  {
  }

  class RoadmapDetails {
    var roadmap: Roadmap
    var isUpdating: bool
    var expandedSubjects: set<string>
    var expandedTopics: set<string>

    constructor (initial: Roadmap)
      ensures roadmap == initial && !isUpdating
      ensures expandedSubjects == {} && expandedTopics == {}
    {
      roadmap := initial;
      isUpdating := false;
      expandedSubjects := {};
      expandedTopics := {};
    }

    /** `calculateProgress` */
    method CalculateProgress() returns (p: Progress)
      ensures p == OverallProgress(roadmap)
    {
      match roadmap.subjects {
        case None =>
          p := Progress(|roadmap.completedMilestones.GetOr([])|, |roadmap.milestones.GetOr([])|);
        case Some(ss) =>
          p := CountAllSteps(roadmap.progressData, ss);
      }
    }

    /** `getSubjectProgress` */
    method GetSubjectProgress(subject: Subject) returns (p: Progress)
      ensures p == KeysProgress(roadmap.progressData, TopicKeys(subject.id, subject.topics))
    {
      p := CountSubjectSteps(roadmap.progressData, subject);
    }

    /** `getTopicProgress` */
    method GetTopicProgress(subjectId: string, topic: Topic) returns (p: Progress)
      ensures p == KeysProgress(roadmap.progressData, StepKeys(subjectId, topic.id, topic.steps))
    {
      p := CountTopicSteps(roadmap.progressData, subjectId, topic);
    }

    /** `toggleStep`. The backend is a parameter: `updateFails` says whether
        the update of `user_roadmaps` reports an error; on success the row read
        back is the old row with the update applied. Without a subject
        structure the walk throws before anything is written. The returned
        activity is the `user_activities` row inserted, if any. */
    method ToggleStep(subjectId: string, topicId: string, stepId: string, now: Timestamp, updateFails: bool)
      returns (activity: Option<Activity>)
      modifies this
      ensures !isUpdating
      ensures expandedSubjects == old(expandedSubjects) && expandedTopics == old(expandedTopics)
      ensures var key := StepKey(subjectId, topicId, stepId);
        var u := ToggleUpdate(old(roadmap), key, now);
        && (activity.Some? <==> u.Some?)
        && (activity.Some? ==> activity.value == Activity(old(roadmap).userId, "step_completed", old(roadmap).id, key))
        && roadmap == (if u.None? || updateFails then old(roadmap) else ApplyUpdate(old(roadmap), u.value))
    {
      isUpdating := true;
      activity := None;
      var stepKey := StepKey(subjectId, topicId, stepId);
      var current := roadmap.progressData;
      var newProgressData := current[stepKey := !IsDone(current, stepKey)];
      match roadmap.subjects {
        case None =>
          // the walk over a missing structure throws; the catch only logs
        case Some(ss) =>
          var p := CountAllSteps(newProgressData, ss);
          var newPercentage := p.Percentage();
          activity := Some(Activity(roadmap.userId, "step_completed", roadmap.id, stepKey));
          var status := if newPercentage == 100.0 then Completed
                        else if roadmap.status == NotStarted then InProgress
                        else roadmap.status;
          var startedAt := if roadmap.status == NotStarted then Some(now) else None;
          var completedAt := if newPercentage == 100.0 then Some(now) else None;
          var updateData := RoadmapUpdate(Some(newProgressData), status, now, startedAt, completedAt);
          if !updateFails {
            roadmap := ApplyUpdate(roadmap, updateData);
          }
      }
      isUpdating := false;
    }

    /** `updateRoadmapStatus`, called by the status buttons. */
    method UpdateRoadmapStatus(newStatus: string, now: Timestamp, updateFails: bool)
      modifies this
      ensures !isUpdating
      ensures expandedSubjects == old(expandedSubjects) && expandedTopics == old(expandedTopics)
      ensures roadmap == if updateFails then old(roadmap) else ApplyUpdate(old(roadmap), StatusUpdate(old(roadmap), newStatus, now))
    {
      isUpdating := true;
      var startedAt := if newStatus == InProgress && roadmap.status == NotStarted then Some(now) else None;
      var completedAt := if newStatus == Completed then Some(now) else None;
      var updateData := RoadmapUpdate(None, newStatus, now, startedAt, completedAt);
      if !updateFails {
        roadmap := ApplyUpdate(roadmap, updateData);
      }
      isUpdating := false;
    }

    /** `toggleSubject` */
    method ToggleSubject(subjectId: string)
      modifies this
      ensures expandedSubjects == Flipped(old(expandedSubjects), subjectId)
      ensures roadmap == old(roadmap) && isUpdating == old(isUpdating) && expandedTopics == old(expandedTopics)
    {
      var newExpanded := expandedSubjects;
      if subjectId in newExpanded {
        newExpanded := newExpanded - {subjectId};
      } else {
        newExpanded := newExpanded + {subjectId};
      }
      expandedSubjects := newExpanded;
    }

    /** `toggleTopic`, keyed by `subjectId-topicId`. */
    method ToggleTopic(topicKey: string)
      modifies this
      ensures expandedTopics == Flipped(old(expandedTopics), topicKey)
      ensures roadmap == old(roadmap) && isUpdating == old(isUpdating) && expandedSubjects == old(expandedSubjects)
    {
      var newExpanded := expandedTopics;
      if topicKey in newExpanded {
        newExpanded := newExpanded - {topicKey};
      } else {
        newExpanded := newExpanded + {topicKey};
      }
      expandedTopics := newExpanded;
    }
  }
}
