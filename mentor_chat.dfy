/** The mentor chat (components/mentor/mentor-chat.tsx): the transcript, the
    mock reply with its roadmap context, the send handler with the session it
    stores, and starting or loading a session. Message ids and timestamps
    come from the clock and are parameters; the reply's random pick is a
    parameter below five; the database calls are outcomes passed in. */
module MentorChat {
  import opened Rows
  import opened Strings

  datatype Role = User | Assistant

  datatype Message = Message(id: string, role: Role, content: string)

  /** The greeting's name: the part of the e-mail before the first "@", or
      "there" when that part is empty or there is no e-mail. */
  function GreetingName(email: Option<string>): (name: string)
    ensures name != "" && '@' !in name
    ensures email.Some? && name != "there" ==> name <= email.value
    ensures email.None? || BeforeFirst(email.value, '@') == "" ==> name == "there"
  {
    var local := if email.None? then "" else BeforeFirst(email.value, '@');
    if local == "" then "there"
    else
      BeforeFirstIsPrefix(email.value, '@');
      local
  }

  const WelcomeTail := "! I'm your AI Career Mentor. I'm here to help you navigate your career journey, provide guidance on your roadmaps, and answer any questions about professional development. How can I assist you today?"

  function Welcome(email: Option<string>): string {
    "Hello " + GreetingName(email) + WelcomeTail
  }

  const NewSessionWelcome := "Hello! I'm your AI Career Mentor. How can I help you with your career development today?"

  const Apology := "I apologize, but I'm having trouble responding right now. Please try again in a moment."

  /** The fixed parts of the five canned replies. */
  const RoadmapQuestionHead := "That's a great question about "
  const RoadmapQuestionTail := "! Based on your current progress, I'd recommend focusing on building practical projects to reinforce your learning. Consider starting with small, manageable projects that align with your career goals."
  const GuidanceHead := "I understand you're looking for guidance on "
  const GuidanceTail := ". Here's my advice: consistency is key. Set aside dedicated time each day for learning, even if it's just 30 minutes. The compound effect of daily practice will accelerate your progress significantly."
  const NetworkingReply := "Excellent question! For someone at your stage, I'd suggest connecting with others in your field through online communities, attending virtual meetups, and contributing to open-source projects. Networking and practical experience often matter as much as technical knowledge."
  const SmallStepsReply := "That's a common challenge many professionals face. My recommendation is to break down your goals into smaller, actionable steps. Instead of feeling overwhelmed by the entire roadmap, focus on completing one milestone at a time. Celebrate small wins along the way!"
  const PortfolioReply := "Based on current industry trends, the skills you're developing are highly valuable. I'd encourage you to document your learning journey through a blog or portfolio. This not only reinforces your knowledge but also demonstrates your expertise to potential employers."

  /** The five canned replies; the first two name a topic depending on words
      in the lower-cased message. */
  function CannedReply(pick: nat, userMessage: string): string
    requires pick < 5
  {
    var lower := Lower(userMessage);
    match pick
    case 0 => RoadmapQuestionHead + (if Contains(lower, "roadmap") then "your roadmap" else "career development") + RoadmapQuestionTail
    case 1 => GuidanceHead + (if Contains(lower, "skill") then "skill development" else "your career path") + GuidanceTail
    case 2 => NetworkingReply
    case 3 => SmallStepsReply
    case 4 => PortfolioReply
  }

  const ContextHead := " Since you're currently working on "
  const ContextTail := ", you might want to focus on the practical applications of what you're learning."

  function ContextSentence(title: string): string {
    ContextHead + title + ContextTail
  }

  /** The reply: the canned text, followed by a sentence about the first
      roadmap in progress when there is one. */
  function Reply(userMessage: string, rs: seq<Roadmap>, pick: nat): (reply: string)
    requires pick < 5
    ensures CannedReply(pick, userMessage) <= reply
    ensures CountStatus(rs, InProgress) > 0 ==>
      reply == CannedReply(pick, userMessage) + ContextSentence(WithStatus(rs, InProgress)[0].title)
    ensures CountStatus(rs, InProgress) == 0 <==> reply == CannedReply(pick, userMessage)
  {
    var inProgress := WithStatus(rs, InProgress);
    if |inProgress| > 0 then CannedReply(pick, userMessage) + ContextSentence(inProgress[0].title)
    else CannedReply(pick, userMessage)
  }

  /** `j` is the position of the first roadmap in progress. */
  predicate FirstInProgressAt(rs: seq<Roadmap>, j: int) {
    0 <= j < |rs| && rs[j].status == InProgress && forall k :: 0 <= k < j ==> rs[k].status != InProgress
  }

  /** The roadmap named by the context sentence is the first one in input
      order whose status is in progress. */
  lemma {:induction false} FirstInProgress(rs: seq<Roadmap>)
    requires CountStatus(rs, InProgress) > 0
    ensures exists j :: FirstInProgressAt(rs, j) && rs[j] == WithStatus(rs, InProgress)[0]
  {
    if rs[0].status != InProgress {
      FirstInProgress(rs[1..]);
      var j :| FirstInProgressAt(rs[1..], j) && rs[1..][j] == WithStatus(rs[1..], InProgress)[0];
      assert rs[j + 1] == rs[1..][j];
      forall k | 0 <= k < j + 1 ensures rs[k].status != InProgress {
        if k > 0 { assert rs[k] == rs[1..][k - 1]; }
      }
      assert FirstInProgressAt(rs, j + 1);
    } else {
      assert WithStatus(rs, InProgress)[0] == rs[0];
      assert FirstInProgressAt(rs, 0);
    }
  }

  /** `generateAIResponse`: picks a reply and extends it with `+=`. */
  method GenerateAIResponse(userMessage: string, rs: seq<Roadmap>, pick: nat) returns (response: string)
    requires pick < 5
    ensures response == Reply(userMessage, rs, pick)
  {
    response := CannedReply(pick, userMessage);
    if |rs| > 0 {
      var inProgressRoadmaps := WithStatus(rs, InProgress);
      if |inProgressRoadmaps| > 0 {
        response := response + ContextSentence(inProgressRoadmaps[0].title);
      }
    }
  }

  /** `Discussion about ${content.slice(0, 50)}...` */
  function SessionSummary(content: string): (summary: string)
    ensures 20 <= |summary| <= 70
    ensures summary[..17] == "Discussion about " && summary[|summary| - 3..] == "..."
    ensures |content| <= 50 ==> summary == "Discussion about " + content + "..."
  {
    "Discussion about " + Take(content, 50) + "..."
  }

  /** The write to `mentor_sessions` a send makes. */
  datatype SessionWrite =
    | UpdateSession(sessionId: string, messages: seq<Message>)
    | InsertSession(userId: string, messages: seq<Message>, summary: string)
  {
    function Messages(): seq<Message> {
      match this
      case UpdateSession(_, ms) => ms
      case InsertSession(_, ms, _) => ms
    }
  }

  /** Where a send can fail: the reply, or the session write after the
      reply was shown. */
  datatype Failure = NoFailure | ReplyThrows | WriteThrows

  /** A stored session as the session list hands it over. */
  datatype StoredSession = StoredSession(id: string, messages: Option<seq<Message>>)

  /** What one send does after the user's message `u` is built, from the
      transcript `prior` before it and the current session: the transcript
      gains `u` and the reply, or `u` and the apology when the reply fails,
      or all three when the write fails after the reply was shown. Without a
      failure the transcript shown is exactly the one stored: an update of
      the current session, or an insert whose returned id, if any, becomes
      the current session. */
  predicate SendEffect(prior: seq<Message>, u: Message, reply: string, sessionId: Option<string>, userId: string,
                       replyId: string, apologyId: string, failure: Failure, insertedId: Option<string>,
                       transcript: seq<Message>, write: Option<SessionWrite>, newSessionId: Option<string>)
  {
    var a := Message(replyId, Assistant, reply);
    var e := Message(apologyId, Assistant, Apology);
    && (failure == NoFailure ==> transcript == prior + [u, a])
    && (failure == ReplyThrows ==> transcript == prior + [u, e])
    && (failure == WriteThrows ==> transcript == prior + [u, a, e])
    && (write.Some? <==> failure == NoFailure)
    && (write.Some? ==> write.value.Messages() == transcript)
    && (write.Some? && sessionId.Some? ==> write.value == UpdateSession(sessionId.value, transcript))
    && (write.Some? && sessionId.None? ==> write.value == InsertSession(userId, transcript, SessionSummary(u.content)))
    && newSessionId == (if write.Some? && sessionId.None? && insertedId.Some? then insertedId else sessionId)
  }

  /** The `try`/`catch` of `handleSendMessage` after the user's message is
      shown; `aiResponse` is what `generateAIResponse` returns when it does
      not fail. */
  method Exchange(prior: seq<Message>, userMessage: Message, aiResponse: string, sessionId: Option<string>,
                  userId: string, replyId: string, apologyId: string, failure: Failure, insertedId: Option<string>)
    returns (transcript: seq<Message>, write: Option<SessionWrite>, newSessionId: Option<string>)
    ensures SendEffect(prior, userMessage, aiResponse, sessionId, userId, replyId, apologyId, failure, insertedId,
                       transcript, write, newSessionId)
  {
    transcript := prior + [userMessage];
    write := None;
    newSessionId := sessionId;
    if failure == ReplyThrows {
      transcript := transcript + [Message(apologyId, Assistant, Apology)];
    } else {
      var assistantMessage := Message(replyId, Assistant, aiResponse);
      transcript := transcript + [assistantMessage];
      var sessionMessages := prior + [userMessage, assistantMessage];
      if failure == WriteThrows {
        transcript := transcript + [Message(apologyId, Assistant, Apology)];
      } else if sessionId.Some? {
        write := Some(UpdateSession(sessionId.value, sessionMessages));
      } else {
        write := Some(InsertSession(userId, sessionMessages, SessionSummary(userMessage.content)));
        if insertedId.Some? {
          newSessionId := insertedId;
        }
      }
    }
  }

  class Chat {
    const userId: string
    const roadmaps: seq<Roadmap>
    var messages: seq<Message>
    var inputMessage: string
    var isLoading: bool
    var currentSessionId: Option<string>

    constructor (uid: string, email: Option<string>, rs: seq<Roadmap>)
      ensures userId == uid && roadmaps == rs
      ensures messages == [Message("welcome", Assistant, Welcome(email))]
      ensures inputMessage == "" && !isLoading && currentSessionId.None?
    {
      userId := uid;
      roadmaps := rs;
      messages := [Message("welcome", Assistant, Welcome(email))];
      inputMessage := "";
      isLoading := false;
      currentSessionId := None;
    }

    method SetInput(value: string)
      modifies this
      ensures inputMessage == value
      ensures messages == old(messages) && isLoading == old(isLoading) && currentSessionId == old(currentSessionId)
    {
      inputMessage := value;
    }

    /** `handleSendMessage`. A blank input or a pending reply does nothing.
        Otherwise the trimmed input becomes the user's message, the input is
        cleared, and the exchange runs as `SendEffect` states. */
    method HandleSendMessage(userMessageId: string, replyId: string, apologyId: string, pick: nat,
                             failure: Failure, insertedId: Option<string>)
      returns (write: Option<SessionWrite>)
      requires pick < 5
      modifies this
      ensures Trim(old(inputMessage)) == "" || old(isLoading) ==>
        write.None? && messages == old(messages) && inputMessage == old(inputMessage)
        && isLoading == old(isLoading) && currentSessionId == old(currentSessionId)
      ensures !(Trim(old(inputMessage)) == "" || old(isLoading)) ==>
        inputMessage == "" && !isLoading &&
        SendEffect(old(messages), Message(userMessageId, User, Trim(old(inputMessage))),
                   Reply(Trim(old(inputMessage)), roadmaps, pick), old(currentSessionId), userId,
                   replyId, apologyId, failure, insertedId, messages, write, currentSessionId)
    {
      write := None;
      var trimmed := Trim(inputMessage);
      if trimmed == "" || isLoading {
        return;
      }
      var userMessage := Message(userMessageId, User, trimmed);
      inputMessage := "";
      isLoading := true;
      var aiResponse := GenerateAIResponse(trimmed, roadmaps, pick);
      var transcript, sessionId;
      transcript, write, sessionId := Exchange(messages, userMessage, aiResponse, currentSessionId, userId,
                                               replyId, apologyId, failure, insertedId);
      messages := transcript;
      currentSessionId := sessionId;
      isLoading := false;
    }

    /** `loadPreviousSession`: adopt the stored messages (none when absent)
        and the session's id. */
    method LoadPreviousSession(session: StoredSession)
      modifies this
      ensures messages == session.messages.GetOr([])
      ensures currentSessionId == Some(session.id)
      ensures inputMessage == old(inputMessage) && isLoading == old(isLoading)
    {
      messages := session.messages.GetOr([]);
      currentSessionId := Some(session.id);
    }

    /** `startNewSession`: a single short welcome and no session. */
    method StartNewSession()
      modifies this
      ensures messages == [Message("welcome", Assistant, NewSessionWelcome)]
      ensures currentSessionId.None?
      ensures inputMessage == old(inputMessage) && isLoading == old(isLoading)
    {
      messages := [Message("welcome", Assistant, NewSessionWelcome)];
      currentSessionId := None;
    }
  }
}
