/**
 * The chat endpoint's POST handler (src/app/api/chat/route.ts): validate the
 * request, resolve the session id, assemble the prompt, ask the completion
 * service for a structured reply and join its segments into the reply text.
 *
 * The completion service is the function parameter `complete`, the parsing
 * of its JSON reply is `parse`, and the freshly generated session id is the
 * parameter `freshId`.
 */
module ChatRoute {
  import opened Wrappers
  import opened ChatTypes

  /** A JSON value, as `request.json()` yields it. */
  datatype Json =
    | JNull
    | JBool(b: bool)
    | JNum(n: real)
    | JStr(s: string)
    | JArr(items: seq<Json>)
    | JObj(fields: map<string, Json>)

  /** JavaScript truthiness of a value that may be undefined (None). */
  predicate Truthy(v: Option<Json>) {
    match v
    case None => false
    case Some(JNull) => false
    case Some(JBool(b)) => b
    case Some(JNum(n)) => n != 0.0
    case Some(JStr(s)) => s != ""
    case Some(_) => true
  }

  /** Reading property `key` of a value that is not null: an object's own
      field, and undefined for everything else. */
  function Prop(v: Json, key: string): Option<Json> {
    if v.JObj? && key in v.fields then Some(v.fields[key]) else None
  }

  const MESSAGE_REQUIRED := "Message is required"
  const PROCESS_FAILED := "Failed to process chat message"

  /** The persona instructions sent first; their wording is not part of the model. */
  const SYSTEM_PROMPT: string

  /** The labels the structured-output schema allows for a segment's strategies. */
  const SCHEMA_STRATEGY_ENUM: seq<string> := [
    "active_listening",
    "validation",
    "cognitive_reframing",
    "empathy",
    "open_ended_questions",
    "reflection",
    "normalization",
    "psychoeducation",
    "grounding",
    "summarization"
  ]

  /** The schema admits exactly the labels of the taxonomy, in the same order. */
  lemma SchemaEnumIsTaxonomy()
    ensures SCHEMA_STRATEGY_ENUM == THERAPEUTIC_STRATEGIES
    ensures forall name :: name in SCHEMA_STRATEGY_ENUM <==> ParseStrategy(name).Some?
  {
  }

  // ---------------------------------------------------------------------
  // Request validation and session id
  // ---------------------------------------------------------------------

  /** The request's `message` when it passes validation: present, a string,
      and not empty. */
  function RequestMessage(body: Json): (r: Option<string>)
    ensures r.Some? <==> exists s :: Prop(body, "message") == Some(JStr(s)) && s != ""
    ensures r.Some? ==> Prop(body, "message") == Some(JStr(r.value))
  {
    var message := Prop(body, "message");
    if !Truthy(message) || !message.value.JStr? then None else Some(message.value.s)
  }

  /** `existingSessionId || generateSessionId()`. */
  function ResolveSessionId(supplied: Option<Json>, freshId: string): (r: Json)
    ensures forall s :: supplied == Some(JStr(s)) && s != "" ==> r == JStr(s)
    ensures supplied.None? || supplied == Some(JStr("")) || supplied == Some(JNull) ==> r == JStr(freshId)
    ensures supplied == Some(JBool(false)) || supplied == Some(JNum(0.0)) ==> r == JStr(freshId)
    ensures supplied.Some? && supplied.value !in {JNull, JBool(false), JNum(0.0), JStr("")} ==> r == supplied.value
  {
    if Truthy(supplied) then supplied.value else JStr(freshId)
  }

  // ---------------------------------------------------------------------
  // Prompt assembly
  // ---------------------------------------------------------------------

  datatype PromptRole = System | UserRole | Assistant

  /** One entry of the prompt; an undefined content stays undefined (None). */
  datatype PromptEntry = PromptEntry(role: PromptRole, content: Option<Json>)

  function SystemTurn(): PromptEntry {
    PromptEntry(System, Some(JStr(SYSTEM_PROMPT)))
  }

  function UserTurn(message: string): PromptEntry {
    PromptEntry(UserRole, Some(JStr(message)))
  }

  /** A history entry as the loop pushes it: role "user" stays user, every
      other role becomes assistant; the content is passed through. */
  function HistoryEntry(msg: Json): (r: PromptEntry)
    ensures r.role != System
    ensures r.role == UserRole <==> Prop(msg, "role") == Some(JStr("user"))
    ensures r.content == Prop(msg, "content")
  {
    PromptEntry(if Prop(msg, "role") == Some(JStr("user")) then UserRole else Assistant, Prop(msg, "content"))
  }

  function HistoryEntries(items: seq<Json>): (r: seq<PromptEntry>)
    ensures |r| == |items|
  {
    seq(|items|, i requires 0 <= i < |items| => HistoryEntry(items[i]))
  }

  /** The entries that follow the system prompt: the history, when it is an
      array, then the new message. None when reading a history entry throws,
      which happens exactly for a null entry. */
  function ConversationMessages(history: Option<Json>, message: string): (r: Option<seq<PromptEntry>>)
    ensures r.None? <==>
      history.Some? && history.value.JArr? &&
      exists i :: 0 <= i < |history.value.items| && history.value.items[i] == JNull
    ensures r.Some? ==> |r.value| >= 1 && r.value[|r.value| - 1] == UserTurn(message)
  {
    if Truthy(history) && history.value.JArr? then
      var items := history.value.items;
      if exists i :: 0 <= i < |items| && items[i] == JNull then None
      else Some(HistoryEntries(items) + [UserTurn(message)])
    else Some([UserTurn(message)])
  }

  /** The whole prompt sent upstream. */
  function Prompt(history: Option<Json>, message: string): (r: Option<seq<PromptEntry>>)
    ensures r.None? <==> ConversationMessages(history, message).None?
    ensures r.Some? ==> |r.value| >= 2 && r.value[0] == SystemTurn() && r.value[|r.value| - 1] == UserTurn(message)
  {
    var messages := ConversationMessages(history, message);
    if messages.None? then None else Some([SystemTurn()] + messages.value)
  }

  /** The prompt keeps the history's length and order and each entry's
      content, maps role "user" to user and every other role to assistant,
      opens with the system prompt and closes with the new message. */
  lemma PromptFromHistory(items: seq<Json>, message: string)
    requires forall i :: 0 <= i < |items| ==> items[i] != JNull
    ensures Prompt(Some(JArr(items)), message).Some?
    ensures var p := Prompt(Some(JArr(items)), message).value;
      && |p| == |items| + 2
      && p[0] == SystemTurn()
      && p[|p| - 1] == UserTurn(message)
      && forall i :: 0 <= i < |items| ==>
           && p[i + 1].content == Prop(items[i], "content")
           && p[i + 1].role != System
           && (p[i + 1].role == UserRole <==> Prop(items[i], "role") == Some(JStr("user")))
  {
  }

  /** A history that is missing or not an array contributes nothing. */
  lemma NonArrayHistoryIgnored(history: Option<Json>, message: string)
    requires history.None? || !history.value.JArr?
    ensures Prompt(history, message) == Some([SystemTurn(), UserTurn(message)])
  {
    assert [SystemTurn()] + [UserTurn(message)] == [SystemTurn(), UserTurn(message)];
  }

  /** A null history entry makes the loop throw. */
  lemma NullHistoryEntryThrows(items: seq<Json>, message: string, i: int)
    requires 0 <= i < |items| && items[i] == JNull
    ensures Prompt(Some(JArr(items)), message).None?
  {
  }

  /** The history loop: push each converted entry, then the new message. */
  method BuildMessages(history: Option<Json>, message: string) returns (messages: Option<seq<PromptEntry>>)
    ensures messages == ConversationMessages(history, message)
  {
    var acc: seq<PromptEntry> := [];
    if Truthy(history) && history.value.JArr? {
      var items := history.value.items;
      for i := 0 to |items|
        invariant forall k :: 0 <= k < i ==> items[k] != JNull
        invariant |acc| == i && forall k :: 0 <= k < i ==> acc[k] == HistoryEntry(items[k])
      {
        if items[i] == JNull {
          return None;
        }
        acc := acc + [HistoryEntry(items[i])];
      }
      assert acc == HistoryEntries(items);
      assert !exists k :: 0 <= k < |items| && items[k] == JNull;
    } else {
      assert acc + [UserTurn(message)] == [UserTurn(message)];
    }
    acc := acc + [UserTurn(message)];
    return Some(acc);
  }

  // ---------------------------------------------------------------------
  // Joining the segments
  // ---------------------------------------------------------------------

  /** `Array.prototype.join`. */
  function Join(parts: seq<string>, sep: string): (r: string)
    ensures |parts| > 0 ==> |parts[0]| <= |r| && r[..|parts[0]|] == parts[0]
  {
    if |parts| == 0 then ""
    else if |parts| == 1 then parts[0]
    else parts[0] + sep + Join(parts[1..], sep)
  }

  function Texts(segments: seq<Segment>): (r: seq<string>)
    ensures |r| == |segments| && forall i :: 0 <= i < |r| ==> r[i] == segments[i].text
  {
    seq(|segments|, i requires 0 <= i < |segments| => segments[i].text)
  }

  /** `segments.map((s) => s.text).join(" ")`. */
  function JoinTexts(segments: seq<Segment>): (r: string)
    ensures segments == [] ==> r == ""
    ensures |segments| >= 1 ==> |r| == TotalLength(Texts(segments)) + |segments| - 1
  {
    if |segments| >= 1 then
      JoinLength(Texts(segments), " ");
      Join(Texts(segments), " ")
    else
      Join(Texts(segments), " ")
  }

  function TotalLength(parts: seq<string>): nat {
    if |parts| == 0 then 0 else |parts[0]| + TotalLength(parts[1..])
  }

  /** Where part `i` starts in the joined string. */
  function Offset(parts: seq<string>, sep: string, i: nat): nat
    requires i <= |parts|
  {
    if i == 0 then 0 else |parts[0]| + |sep| + Offset(parts[1..], sep, i - 1)
  }

  /** For n >= 1 parts the joined length is the sum of the lengths plus n - 1 separators. */
  lemma {:induction false} JoinLength(parts: seq<string>, sep: string)
    requires |parts| >= 1
    ensures |Join(parts, sep)| == TotalLength(parts) + (|parts| - 1) * |sep|
  {
    if |parts| > 1 {
      JoinLength(parts[1..], sep);
    }
  }

  /** A slice of a suffix is a shifted slice of the whole. */
  lemma SliceOfSuffix(whole: string, d: nat, x: nat, y: nat)
    requires d <= |whole| && x <= y <= |whole| - d
    ensures whole[d + x..d + y] == whole[d..][x..y]
  {
  }

  /** Each part sits in the joined string at its offset, followed by the
      separator unless it is the last: the joined text is the parts, in
      order, with exactly one separator between neighbours. */
  lemma {:induction false} JoinPlacesParts(parts: seq<string>, sep: string, i: nat)
    requires i < |parts|
    ensures Offset(parts, sep, i) + |parts[i]| <= |Join(parts, sep)|
    ensures Join(parts, sep)[Offset(parts, sep, i)..Offset(parts, sep, i) + |parts[i]|] == parts[i]
    ensures i + 1 < |parts| ==>
      Offset(parts, sep, i) + |parts[i]| + |sep| <= |Join(parts, sep)| &&
      Join(parts, sep)[Offset(parts, sep, i) + |parts[i]|..Offset(parts, sep, i) + |parts[i]| + |sep|] == sep
  {
    if |parts| > 1 {
      var j := Join(parts, sep);
      var rest := Join(parts[1..], sep);
      assert j == parts[0] + sep + rest;
      var d := |parts[0]| + |sep|;
      if i == 0 {
        assert j[..|parts[0]|] == parts[0];
        assert j[|parts[0]|..d] == sep;
      } else {
        JoinPlacesParts(parts[1..], sep, i - 1);
        var o := Offset(parts[1..], sep, i - 1);
        assert j[d..] == rest;
        SliceOfSuffix(j, d, o, o + |parts[i]|);
        if i + 1 < |parts| {
          SliceOfSuffix(j, d, o + |parts[i]|, o + |parts[i]| + |sep|);
        }
      }
    }
  }

  /** Joining is associative over concatenation of non-empty part lists. */
  lemma {:induction false} JoinAppend(a: seq<string>, b: seq<string>, sep: string)
    requires |a| >= 1 && |b| >= 1
    ensures Join(a + b, sep) == Join(a, sep) + sep + Join(b, sep)
  {
    if |a| == 1 {
      assert (a + b)[1..] == b;
    } else {
      assert (a + b)[1..] == a[1..] + b;
      JoinAppend(a[1..], b, sep);
    }
  }

  // ---------------------------------------------------------------------
  // The handler
  // ---------------------------------------------------------------------

  /** What the completion service gave back: a thrown failure, or the first
      choice's message content, which may be missing (None). */
  datatype Upstream = Threw | Returned(content: Option<string>)

  datatype ChatReply =
    | BadRequest(error: string)
    | ServerError(error: string)
    | Replied(sessionId: Json, content: string, segments: seq<Segment>)

  function Status(r: ChatReply): int {
    match r
    case BadRequest(_) => 400
    case ServerError(_) => 500
    case Replied(_, _, _) => 200
  }

  /** POST. `body` is None when the request body is not JSON. `sent` is the
      prompt handed to the completion service, None when it is never called. */
  method Post(body: Option<Json>, freshId: string, complete: seq<PromptEntry> -> Upstream,
              parse: string -> Option<seq<Segment>>)
    returns (reply: ChatReply, sent: Option<seq<PromptEntry>>)
    ensures Status(reply) == 200 || reply == BadRequest(MESSAGE_REQUIRED) || reply == ServerError(PROCESS_FAILED)
    ensures body.None? || body == Some(JNull) ==> reply == ServerError(PROCESS_FAILED) && sent.None?
    ensures Status(reply) == 400 <==> body.Some? && body.value != JNull && RequestMessage(body.value).None?
    ensures Status(reply) == 400 ==> sent.None?
    ensures sent.Some? <==>
      body.Some? && body.value != JNull && RequestMessage(body.value).Some? &&
      Prompt(Prop(body.value, "conversationHistory"), RequestMessage(body.value).value).Some?
    ensures sent.Some? ==>
      sent == Prompt(Prop(body.value, "conversationHistory"), RequestMessage(body.value).value)
    ensures Status(reply) == 200 <==>
      sent.Some? && complete(sent.value).Returned? && complete(sent.value).content.Some? &&
      complete(sent.value).content.value != "" && parse(complete(sent.value).content.value).Some?
    ensures reply.Replied? ==>
      && reply.sessionId == ResolveSessionId(Prop(body.value, "sessionId"), freshId)
      && Some(reply.segments) == parse(complete(sent.value).content.value)
      && reply.content == JoinTexts(reply.segments)
  {
    if body.None? || body.value == JNull {
      return ServerError(PROCESS_FAILED), None;
    }
    var request := body.value;
    var message := Prop(request, "message");
    if !Truthy(message) || !message.value.JStr? {
      return BadRequest(MESSAGE_REQUIRED), None;
    }
    var sessionId := ResolveSessionId(Prop(request, "sessionId"), freshId);
    var messages := BuildMessages(Prop(request, "conversationHistory"), message.value.s);
    if messages.None? {
      return ServerError(PROCESS_FAILED), None;
    }
    sent := Some([SystemTurn()] + messages.value);
    var response := complete(sent.value);
    if !response.Returned? || response.content.None? || response.content.value == "" {
      return ServerError(PROCESS_FAILED), sent;
    }
    var segments := parse(response.content.value);
    if segments.None? {
      return ServerError(PROCESS_FAILED), sent;
    }
    var fullContent := JoinTexts(segments.value);
    reply := Replied(sessionId, fullContent, segments.value);
  }
}
