/** The mentor chat endpoint (app/api/mentor/chat/route.ts): `POST` checks
    the signed-in user and the message, answers with one of five canned
    replies and saves the exchange in `mentor_sessions`. The client, the
    parsed request body, the random choice of reply and the outcome of the
    session write are parameters. */
module MentorRoute {
  import opened Rows
  import MentorChat

  /** The five replies of `generateMockResponse`. */
  const ProjectsReply := "That's an excellent question! Based on current industry trends, I'd recommend focusing on building practical projects that demonstrate your skills. Consider creating a portfolio that showcases your problem-solving abilities."
  const GoalsReply := "I understand your concern about career progression. The key is to set clear, measurable goals and break them down into actionable steps. Consistency in learning and networking will accelerate your growth."
  const TShapedReply := "Great point about skill development! I'd suggest adopting a T-shaped learning approach - develop deep expertise in one area while maintaining broad knowledge across related fields."
  const AdaptabilityReply := "That's a common challenge many professionals face. My advice is to focus on continuous learning and adaptability. The tech industry evolves rapidly, so staying curious and open to new technologies is crucial."
  const BalanceReply := "Excellent question about work-life balance! Remember that sustainable career growth requires taking care of your well-being. Set boundaries, take breaks, and celebrate your achievements along the way."

  const MockReplies := [ProjectsReply, GoalsReply, TShapedReply, AdaptabilityReply, BalanceReply]

  /** `generateMockResponse`: `pick` stands for
      `Math.floor(Math.random() * responses.length)`; the message itself is
      never looked at. */
  function MockResponse(pick: nat): (reply: string)
    requires pick < |MockReplies|
    ensures reply in MockReplies
  {
    MockReplies[pick]
  }

  /** The five replies are pairwise different, so each pick gives its own reply. */
  lemma MockResponseInjective(i: nat, j: nat)
    requires i < |MockReplies| && j < |MockReplies|
    requires MockResponse(i) == MockResponse(j)
    ensures i == j
  {
    assert |ProjectsReply| == 224 && |GoalsReply| == 204 && |TShapedReply| == 180;
    assert |AdaptabilityReply| == 208 && |BalanceReply| == 200;
  }

  /** The JSON body of the request: `message` and `sessionId`, each absent,
      a string, or `null`. */
  datatype RequestBody = RequestBody(message: Option<string>, sessionId: Option<string>)

  /** A JavaScript string is truthy when it is not empty. */
  predicate Truthy(s: Option<string>) {
    s.Some? && s.value != ""
  }

  /** A message of the saved session; its timestamp is left out. */
  datatype SessionMessage = SessionMessage(role: MentorChat.Role, content: string)

  /** The write to `mentor_sessions`: an update of the row with this id owned
      by this user, or the insert of a new row with its summary. */
  datatype SessionWrite =
    | Update(sessionId: string, userId: string, messages: seq<SessionMessage>)
    | Insert(userId: string, messages: seq<SessionMessage>, summary: string)

  datatype ResponseBody = ErrorBody(error: string) | ReplyBody(response: string)

  /** What one request does: the HTTP status and JSON body returned, and the
      session write made, if any. */
  datatype Outcome = Outcome(status: nat, body: ResponseBody, write: Option<SessionWrite>)

  /** Where the handler can throw: creating the client, or reading the JSON
      body of the request. */
  datatype Throw = NoThrow | ClientThrows | BodyThrows

  /** `POST`. `user` is the signed-in user's id, if any; `writeFails` whether
      the session write reports an error, which the handler ignores. */
  function Post(thrown: Throw, authError: bool, user: Option<string>, body: RequestBody, pick: nat, writeFails: bool): (o: Outcome)
    requires pick < |MockReplies|
    ensures thrown == ClientThrows ==> o == Outcome(500, ErrorBody("Internal server error"), None)
    ensures o.status == 401 <==> thrown != ClientThrows && (authError || user.None?)
    ensures o.status == 401 ==> o.body == ErrorBody("Unauthorized") && o.write.None?
    ensures o.status == 400 ==> o.body == ErrorBody("Message is required") && o.write.None?
    ensures o.status == 200 ==> o.body == ReplyBody(MockResponse(pick))
    ensures o.write.Some? <==> o.status == 200
    ensures o.status in {200, 400, 401, 500}
  {
    if thrown == ClientThrows then Outcome(500, ErrorBody("Internal server error"), None)
    else if authError || user.None? then Outcome(401, ErrorBody("Unauthorized"), None)
    else if thrown == BodyThrows then Outcome(500, ErrorBody("Internal server error"), None)
    else if !Truthy(body.message) then Outcome(400, ErrorBody("Message is required"), None)
    else
      var message := body.message.value;
      var reply := MockResponse(pick);
      var messages := [SessionMessage(MentorChat.User, message), SessionMessage(MentorChat.Assistant, reply)];
      var write :=
        if Truthy(body.sessionId) then Update(body.sessionId.value, user.value, messages)
        else Insert(user.value, messages, MentorChat.SessionSummary(message));
      Outcome(200, ReplyBody(reply), Some(write))
  }

  /** A signed-in request with a message gets the reply, and the saved
      session holds exactly that message and that reply, in this order. The
      write belongs to the signed-in user: an update only touches a row of
      theirs with the given session id, and without a session id a new row is
      inserted whose summary starts with the message. */
  lemma PostSavesExchange(user: Option<string>, body: RequestBody, pick: nat, writeFails: bool)
    requires pick < |MockReplies|
    requires user.Some? && Truthy(body.message)
    ensures var o := Post(NoThrow, false, user, body, pick, writeFails);
      && o.status == 200
      && o.write.Some?
      && (o.write.value.Update? <==> Truthy(body.sessionId))
      && o.write.value.userId == user.value
      && o.write.value.messages == [SessionMessage(MentorChat.User, body.message.value),
                                    SessionMessage(MentorChat.Assistant, MockResponse(pick))]
      && (o.write.value.Update? ==> o.write.value.sessionId == body.sessionId.value)
      && (o.write.value.Insert? && |body.message.value| <= 50 ==>
            o.write.value.summary == "Discussion about " + body.message.value + "...")
  {
  }

  /** A request is answered 400 exactly when the user is signed in, the body
      was read, and the message is missing or empty. */
  lemma MessageRequired(thrown: Throw, authError: bool, user: Option<string>, body: RequestBody, pick: nat, writeFails: bool)
    requires pick < |MockReplies|
    ensures Post(thrown, authError, user, body, pick, writeFails).status == 400 <==>
      thrown == NoThrow && !authError && user.Some? && !Truthy(body.message)
    ensures Post(thrown, authError, user, body, pick, writeFails).status == 500 <==>
      thrown == ClientThrows || (thrown == BodyThrows && !authError && user.Some?)
  {
  }

  /** An error reported by the session write is ignored: the response is the
      same whether or not the write succeeds. */
  lemma WriteErrorIgnored(thrown: Throw, authError: bool, user: Option<string>, body: RequestBody, pick: nat)
    requires pick < |MockReplies|
    ensures Post(thrown, authError, user, body, pick, true) == Post(thrown, authError, user, body, pick, false)
  {
  }
}
