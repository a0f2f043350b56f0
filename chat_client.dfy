/**
 * The chat client's conversation state and its handlers
 * (src/components/ChatInterface.tsx): submitting a message, selecting a
 * stored session and starting a new one. Rendering, focus and scrolling are
 * not modelled.
 *
 * A submit suspends once, on the network round trip. It is modelled as an
 * atomic pair: StartSubmit (guard, optimistic user turn) and FinishSubmit
 * (therapist turn, or roll back), which HandleSubmit composes around the
 * server, a function parameter. Clock readings are parameters.
 */
module ChatClient {
  import opened Wrappers
  import opened ChatTypes
  import opened JsString
  import ChatRoute

  /** The request body the client posts: the message and the current session
      id, which JSON.stringify drops when it is undefined. There is no
      history field. */
  datatype Outgoing = Outgoing(message: string, sessionId: Option<string>)

  /** How the request ended: it threw, the response was not ok, or it
      delivered the server's reply. */
  datatype FetchOutcome = Threw | NotOk | Delivered(sessionId: string, content: string, segments: seq<Segment>)

  /** The JSON value the server receives for an outgoing request. */
  function RequestBody(request: Outgoing): (r: ChatRoute.Json)
    ensures r.JObj? && "message" in r.fields && r.fields["message"] == ChatRoute.JStr(request.message)
    ensures "conversationHistory" !in r.fields
    ensures "sessionId" in r.fields <==> request.sessionId.Some?
    ensures request.sessionId.Some? ==> r.fields["sessionId"] == ChatRoute.JStr(request.sessionId.value)
  {
    var message := map["message" := ChatRoute.JStr(request.message)];
    if request.sessionId.Some? then
      ChatRoute.JObj(message["sessionId" := ChatRoute.JStr(request.sessionId.value)])
    else
      ChatRoute.JObj(message)
  }

  /** The submit guard: a non-blank input and no request in flight. */
  predicate CanSubmit(input: string, isLoading: bool)
    ensures CanSubmit(input, isLoading) <==> !isLoading && exists k :: 0 <= k < |input| && !IsWhiteSpace(input[k])
  {
    TrimEmptyIffAllWhiteSpace(input);
    Trim(input) != "" && !isLoading
  }

  /** JavaScript truthiness of `sessionId: string | undefined`. */
  predicate HasSessionId(sessionId: Option<string>) {
    sessionId.Some? && sessionId.value != ""
  }

  /** `prev.slice(0, -1)`. */
  function DropLast(ms: seq<Message>): (r: seq<Message>)
    ensures ms != [] ==> ms == r + [ms[|ms| - 1]]
    ensures ms == [] ==> r == []
  {
    if |ms| == 0 then [] else ms[..|ms| - 1]
  }

  class ChatInterface {
    var messages: seq<Message>
    var input: string
    var isLoading: bool
    var sessionId: Option<string>

    constructor ()
      ensures messages == [] && input == "" && !isLoading && sessionId.None?
    {
      messages := [];
      input := "";
      isLoading := false;
      sessionId := None;
    }

    /** The text area's change handler. */
    method SetInput(text: string)
      modifies this
      ensures input == text
      ensures messages == old(messages) && isLoading == old(isLoading) && sessionId == old(sessionId)
    {
      input := text;
    }

    /** The synchronous part of `handleSubmit`: unless the guard refuses,
        clear the input, set loading, append the user turn optimistically and
        return the request to send. */
    method StartSubmit(now: string) returns (request: Option<Outgoing>)
      modifies this
      ensures request.Some? <==> CanSubmit(old(input), old(isLoading))
      ensures request.None? ==>
        messages == old(messages) && input == old(input) && isLoading == old(isLoading) && sessionId == old(sessionId)
      ensures request.Some? ==>
        && request.value == Outgoing(Trim(old(input)), old(sessionId))
        && request.value.message != ""
        && input == "" && isLoading && sessionId == old(sessionId)
        && messages == old(messages) + [Message(User, Trim(old(input)), now, None)]
        && WellFormedMessage(messages[|messages| - 1])
    {
      if Trim(input) == "" || isLoading {
        return None;
      }
      var userMessage := Trim(input);
      input := "";
      isLoading := true;
      var newUserMessage := Message(User, userMessage, now, None);
      messages := messages + [newUserMessage];
      request := Some(Outgoing(userMessage, sessionId));
    }

    /** The part of `handleSubmit` after the round trip: on delivery adopt
        the session id if none is set and append the therapist turn; on
        failure drop the last turn and put the message back in the input;
        in both cases stop loading. */
    method FinishSubmit(userMessage: string, outcome: FetchOutcome, now: string)
      modifies this
      ensures !isLoading
      ensures outcome.Delivered? ==>
        && messages == old(messages) + [Message(Therapist, outcome.content, now, Some(outcome.segments))]
        && sessionId == (if HasSessionId(old(sessionId)) then old(sessionId) else Some(outcome.sessionId))
        && input == old(input)
      ensures !outcome.Delivered? ==>
        messages == DropLast(old(messages)) && input == userMessage && sessionId == old(sessionId)
    {
      if outcome.Delivered? {
        if !HasSessionId(sessionId) {
          sessionId := Some(outcome.sessionId);
        }
        var therapistMessage := Message(Therapist, outcome.content, now, Some(outcome.segments));
        messages := messages + [therapistMessage];
      } else {
        messages := DropLast(messages);
        input := userMessage;
      }
      isLoading := false;
    }

    /** `handleSubmit` as one step: the request goes to `server`, with no
        other handler running in between. */
    method HandleSubmit(sentAt: string, repliedAt: string, server: Outgoing -> FetchOutcome)
      modifies this
      ensures !CanSubmit(old(input), old(isLoading)) ==>
        messages == old(messages) && input == old(input) && isLoading == old(isLoading) && sessionId == old(sessionId)
      ensures CanSubmit(old(input), old(isLoading)) ==> !isLoading
      ensures CanSubmit(old(input), old(isLoading)) ==>
        var userTurn := Message(User, Trim(old(input)), sentAt, None);
        match server(Outgoing(Trim(old(input)), old(sessionId)))
        case Delivered(id, content, segments) =>
          && messages == old(messages) + [userTurn, Message(Therapist, content, repliedAt, Some(segments))]
          && input == ""
          && sessionId == (if HasSessionId(old(sessionId)) then old(sessionId) else Some(id))
        case _ =>
          messages == old(messages) && input == Trim(old(input)) && sessionId == old(sessionId)
    {
      var request := StartSubmit(sentAt);
      if request.None? {
        return;
      }
      var outcome := server(request.value);
      FinishSubmit(request.value.message, outcome, repliedAt);
      assert old(messages) + [Message(User, request.value.message, sentAt, None)]
        == DropLast(old(messages) + [Message(User, request.value.message, sentAt, None)]) + [Message(User, request.value.message, sentAt, None)];
    }

    /** `handleSelectSession`: the session id and the turns are replaced wholesale. */
    method SelectSession(session: Session)
      modifies this
      ensures sessionId == Some(session.sessionId) && messages == session.messages
      ensures input == old(input) && isLoading == old(isLoading)
    {
      sessionId := Some(session.sessionId);
      messages := session.messages;
    }

    /** `handleNewSession`: no session id and no turns. */
    method NewSession()
      modifies this
      ensures sessionId.None? && messages == []
      ensures input == old(input) && isLoading == old(isLoading)
    {
      sessionId := None;
      messages := [];
    }
  }

  /** What the endpoint makes of a request the client sends: the message
      passes validation, the prompt holds no history (only the system prompt
      and the message), and the session id is the client's when it has one. */
  lemma ClientRequestAtServer(request: Outgoing, freshId: string)
    requires request.message != ""
    ensures ChatRoute.RequestMessage(RequestBody(request)) == Some(request.message)
    ensures ChatRoute.Prompt(ChatRoute.Prop(RequestBody(request), "conversationHistory"), request.message)
      == Some([ChatRoute.SystemTurn(), ChatRoute.UserTurn(request.message)])
    ensures ChatRoute.ResolveSessionId(ChatRoute.Prop(RequestBody(request), "sessionId"), freshId)
      == ChatRoute.JStr(if HasSessionId(request.sessionId) then request.sessionId.value else freshId)
  {
    var body := RequestBody(request);
    assert "conversationHistory" != "message" by { assert |"conversationHistory"| != |"message"|; }
    assert "conversationHistory" != "sessionId" by { assert |"conversationHistory"| != |"sessionId"|; }
    assert "sessionId" != "message" by { assert |"sessionId"| != |"message"|; }
    ChatRoute.NonArrayHistoryIgnored(ChatRoute.Prop(body, "conversationHistory"), request.message);
  }
}
