/** The "Create Roadmap" dialog (components/roadmaps/create-roadmap-dialog.tsx):
    the row built from the selected template and the dialog's state flags.
    The signed-in user and the outcome of the insert are parameters. */
module CreateRoadmapDialog {
  import opened Rows

  /** The `roadmapData` record inserted into `user_roadmaps`. */
  datatype NewRoadmapRow = NewRoadmapRow(
    userId: string,
    templateId: string,
    title: string,
    description: string,
    category: string,
    difficulty: string,
    duration: string,
    skills: Option<seq<string>>,
    milestones: Option<seq<string>>,
    status: string)

  /** `a || b` on strings: the empty string is falsy. */
  function OrElse(a: string, b: string): (r: string)
    ensures r == a || r == b
    ensures r == a <==> a != "" || a == b
  {
    if a != "" then a else b
  }

  /** The row for a template: custom title and description when typed, the
      template's otherwise; everything else copied from the template; status
      always "not_started". */
  function NewRoadmapRecord(userId: string, t: Template, customTitle: string, customDescription: string): (row: NewRoadmapRow)
    ensures row.userId == userId && row.templateId == t.id
    ensures customTitle != "" ==> row.title == customTitle
    ensures customTitle == "" ==> row.title == t.title
    ensures customDescription != "" ==> row.description == customDescription
    ensures customDescription == "" ==> row.description == t.description
    ensures row.category == t.category && row.difficulty == t.difficulty && row.duration == t.duration
    ensures row.skills == t.skills && row.milestones == t.milestones
    ensures row.status == NotStarted
  {
    NewRoadmapRow(userId, t.id, OrElse(customTitle, t.title), OrElse(customDescription, t.description),
                  t.category, t.difficulty, t.duration, t.skills, t.milestones, "not_started")
  }

  class Dialog {
    const templates: seq<Template>
    var open: bool
    var selectedTemplate: Option<Template>
    var customTitle: string
    var customDescription: string
    var isLoading: bool

    constructor (ts: seq<Template>)
      ensures templates == ts && !open && selectedTemplate.None?
      ensures customTitle == "" && customDescription == "" && !isLoading
    {
      templates := ts;
      open := false;
      selectedTemplate := None;
      customTitle := "";
      customDescription := "";
      isLoading := false;
    }

    /** A click on one of the template cards. */
    method SelectTemplate(i: nat)
      requires i < |templates|
      modifies this
      ensures selectedTemplate == Some(templates[i])
      ensures open == old(open) && customTitle == old(customTitle) && customDescription == old(customDescription)
      ensures isLoading == old(isLoading)
    {
      selectedTemplate := Some(templates[i]);
    }

    /** `onOpenChange` of the dialog, and the "Cancel" button with `false`. */
    method SetOpen(value: bool)
      modifies this
      ensures open == value
      ensures selectedTemplate == old(selectedTemplate) && customTitle == old(customTitle)
      ensures customDescription == old(customDescription) && isLoading == old(isLoading)
    {
      open := value;
    }

    /** The "Title (Optional)" input. */
    method SetCustomTitle(value: string)
      modifies this
      ensures customTitle == value
      ensures open == old(open) && selectedTemplate == old(selectedTemplate)
      ensures customDescription == old(customDescription) && isLoading == old(isLoading)
    {
      customTitle := value;
    }

    /** The "Description (Optional)" text area. */
    method SetCustomDescription(value: string)
      modifies this
      ensures customDescription == value
      ensures open == old(open) && selectedTemplate == old(selectedTemplate)
      ensures customTitle == old(customTitle) && isLoading == old(isLoading)
    {
      customDescription := value;
    }

    /** `handleCreateRoadmap`. `user` is the signed-in user's id, if any;
        `insertResult` the id of the inserted row, or `None` when the insert
        reports an error. Returns the row sent and the page navigated to.
        Without a selected template nothing happens; the dialog closes only
        after a successful insert. */
    method HandleCreateRoadmap(user: Option<string>, insertResult: Option<string>)
      returns (sent: Option<NewRoadmapRow>, navigatedTo: Option<string>)
      modifies this
      ensures selectedTemplate == old(selectedTemplate) && customTitle == old(customTitle)
      ensures customDescription == old(customDescription)
      ensures old(selectedTemplate).None? ==> sent.None? && navigatedTo.None? && open == old(open) && isLoading == old(isLoading)
      ensures old(selectedTemplate).Some? ==> !isLoading
      ensures sent.Some? <==> old(selectedTemplate).Some? && user.Some?
      ensures sent.Some? ==> sent.value == NewRoadmapRecord(user.value, old(selectedTemplate).value, customTitle, customDescription)
      ensures navigatedTo.Some? <==> sent.Some? && insertResult.Some?
      ensures navigatedTo.Some? ==> navigatedTo.value == "/roadmaps/" + insertResult.value && !open
      ensures navigatedTo.None? ==> open == old(open)
    {
      sent := None;
      navigatedTo := None;
      if selectedTemplate.None? {
        return;
      }
      isLoading := true;
      if user.Some? {
        var row := NewRoadmapRecord(user.value, selectedTemplate.value, customTitle, customDescription);
        sent := Some(row);
        if insertResult.Some? {
          open := false;
          navigatedTo := Some("/roadmaps/" + insertResult.value);
        }
      }
      isLoading := false;
    }
  }
}
