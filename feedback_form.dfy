/** The feedback form (components/feedback/feedback-form.tsx): its field
    state, the submit guard, the row it inserts and how the fields are reset.
    The signed-in user and the outcome of the insert are parameters. */
module FeedbackForm {
  import opened Rows

  /** The three feedback types offered; `Value()` is what the form stores. */
  datatype FeedbackType = BugReport | FeatureRequest | General {
    function Value(): string {
      match this
      case BugReport => "bug_report"
      case FeatureRequest => "feature_request"
      case General => "general"
    }
  }

  predicate IsTypeValue(t: string) {
    t == "bug_report" || t == "feature_request" || t == "general"
  }

  /** The value of the "No specific roadmap" option. */
  const NoSpecificRoadmap := "none"

  /** A row of the `feedback` table as the form inserts it. */
  datatype FeedbackRow = FeedbackRow(userId: string, roadmapId: Option<string>, feedbackType: string,
                                     title: string, description: string, status: string)

  /** The submit guard: every required field non-empty. Whitespace counts as
      content; nothing is trimmed. */
  predicate CanSubmit(feedbackType: string, title: string, description: string) {
    feedbackType != "" && title != "" && description != ""
  }

  /** The inserted row: `roadmap_id: roadmapId || null` and status "open". */
  function NewFeedback(userId: string, roadmapId: string, feedbackType: string, title: string, description: string): (row: FeedbackRow)
    ensures row.status == "open"
    ensures row.roadmapId.None? <==> roadmapId == ""
    ensures row.roadmapId.Some? ==> row.roadmapId.value == roadmapId
  {
    FeedbackRow(userId, if roadmapId == "" then None else Some(roadmapId), feedbackType, title, description, "open")
  }

  /** Picking "No specific roadmap" sends the literal "none", not null; only
      a form where no roadmap was ever picked sends null. */
  lemma NoSpecificRoadmapIsSent(userId: string, feedbackType: string, title: string, description: string)
    ensures NewFeedback(userId, NoSpecificRoadmap, feedbackType, title, description).roadmapId == Some("none")
    ensures NewFeedback(userId, "", feedbackType, title, description).roadmapId == None
  {
  }

  class Form {
    /** The ids of the user's roadmaps offered in the roadmap select. */
    const roadmapIds: seq<string>
    var feedbackType: string
    var title: string
    var description: string
    var roadmapId: string
    var isSubmitting: bool
    var isSubmitted: bool

    /** The type is empty or one of the three offered values, and the roadmap
        is empty or one of the select's options. */
    predicate Valid()
      reads this
    {
      (feedbackType == "" || IsTypeValue(feedbackType)) &&
      (roadmapId == "" || roadmapId == NoSpecificRoadmap || roadmapId in roadmapIds)
    }

    constructor (ids: seq<string>)
      ensures Valid()
      ensures roadmapIds == ids
      ensures feedbackType == "" && title == "" && description == "" && roadmapId == ""
      ensures !isSubmitting && !isSubmitted
    {
      roadmapIds := ids;
      feedbackType := "";
      title := "";
      description := "";
      roadmapId := "";
      isSubmitting := false;
      isSubmitted := false;
    }

    /** The submit button is disabled while submitting or while a required
        field is empty. */
    predicate SubmitDisabled()
      reads this
    {
      isSubmitting || feedbackType == "" || title == "" || description == ""
    }

    /** The button is enabled exactly when a submit would get past the guard
        and no submit is running. */
    lemma SubmitEnabledIff()
      ensures !SubmitDisabled() <==> !isSubmitting && CanSubmit(feedbackType, title, description)
    {
    }

    /** A click on one of the type cards. */
    method SelectType(t: FeedbackType)
      requires Valid()
      modifies this
      ensures Valid()
      ensures feedbackType == t.Value()
      ensures title == old(title) && description == old(description) && roadmapId == old(roadmapId)
      ensures isSubmitting == old(isSubmitting) && isSubmitted == old(isSubmitted)
    {
      feedbackType := t.Value();
    }

    /** A choice in the roadmap select: "none" or one of the user's roadmaps. */
    method SelectRoadmap(value: string)
      requires Valid()
      requires value == NoSpecificRoadmap || value in roadmapIds
      modifies this
      ensures Valid()
      ensures roadmapId == value
      ensures feedbackType == old(feedbackType) && title == old(title) && description == old(description)
      ensures isSubmitting == old(isSubmitting) && isSubmitted == old(isSubmitted)
    {
      roadmapId := value;
    }

    method SetTitle(value: string)
      requires Valid()
      modifies this
      ensures Valid()
      ensures title == value
      ensures feedbackType == old(feedbackType) && description == old(description) && roadmapId == old(roadmapId)
      ensures isSubmitting == old(isSubmitting) && isSubmitted == old(isSubmitted)
    {
      title := value;
    }

    method SetDescription(value: string)
      requires Valid()
      modifies this
      ensures Valid()
      ensures description == value
      ensures feedbackType == old(feedbackType) && title == old(title) && roadmapId == old(roadmapId)
      ensures isSubmitting == old(isSubmitting) && isSubmitted == old(isSubmitted)
    {
      description := value;
    }

    /** `handleSubmit`. `user` is the signed-in user's id, if any, and
        `insertFails` whether the insert reports an error. Returns the row
        sent to the database, if one was sent. A guard failure changes
        nothing; a missing user or a failed insert keeps the fields; a
        successful insert clears them and shows the thank-you card. */
    method HandleSubmit(user: Option<string>, insertFails: bool) returns (sent: Option<FeedbackRow>)
      requires Valid()
      modifies this
      ensures Valid()
      ensures !CanSubmit(old(feedbackType), old(title), old(description)) ==>
        sent.None? && isSubmitting == old(isSubmitting) && isSubmitted == old(isSubmitted) &&
        feedbackType == old(feedbackType) && title == old(title) && description == old(description) && roadmapId == old(roadmapId)
      ensures CanSubmit(old(feedbackType), old(title), old(description)) ==> !isSubmitting
      ensures sent.Some? <==> CanSubmit(old(feedbackType), old(title), old(description)) && user.Some?
      ensures sent.Some? ==> sent.value == NewFeedback(user.value, old(roadmapId), old(feedbackType), old(title), old(description))
      ensures var succeeded := sent.Some? && !insertFails;
        if succeeded then
          isSubmitted && feedbackType == "" && title == "" && description == "" && roadmapId == ""
        else
          isSubmitted == old(isSubmitted) &&
          feedbackType == old(feedbackType) && title == old(title) && description == old(description) && roadmapId == old(roadmapId)
    {
      sent := None;
      if !CanSubmit(feedbackType, title, description) {
        return;
      }
      isSubmitting := true;
      if user.Some? {
        var row := NewFeedback(user.value, roadmapId, feedbackType, title, description);
        sent := Some(row);
        if !insertFails {
          isSubmitted := true;
          feedbackType := "";
          title := "";
          description := "";
          roadmapId := "";
        }
      }
      isSubmitting := false;
    }
  }

  /** A successful submit leaves a form that cannot be submitted again until
      a type, a title and a description are entered anew. */
  lemma ResetFormIsBlocked(f: Form)
    requires f.feedbackType == "" && f.title == "" && f.description == ""
    ensures f.SubmitDisabled()
    ensures !CanSubmit(f.feedbackType, f.title, f.description)
  {
  }
}
