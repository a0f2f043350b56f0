# therapist-chat, modelled in Dafny

A model of the sequential core of a browser chat client that forwards a
user's message to a completion service asked for a structured,
strategy-annotated therapeutic reply, and keeps conversation sessions. Five
parts are modelled, one module each:

- `ChatTypes` (`chat_types.dfy`): segments, messages, sessions, and the
  closed taxonomy of ten therapeutic strategies.
- `Storage` (`storage.dfy`): the browser-local session collection, one
  serialized array under a fixed key. `getSession` finds the first match,
  `saveSession` is an upsert by session id, and `deleteSession` filters the
  id out. The store is the class `BrowserStorage`; its slot is reassigned by
  `SaveSession` and `DeleteSession`.
- `ChatRoute` (`chat_route.dfy`): the chat endpoint's POST handler. It
  validates the request, resolves the session id, assembles the prompt (the
  method `BuildMessages` is the history loop), calls the completion service,
  joins the segment texts with single spaces, and maps failures to 400 and
  500.
- `SessionsRoute` (`sessions_route.dfy`): the session listing GET handler.
  It keeps the `session-*.json` files, skips the files that fail to read or
  parse (the loop `CollectSummaries`), summarizes the rest and sorts them
  newest first.
- `ChatClient` (`chat_client.dfy`): the chat client's state (`messages`,
  `input`, `isLoading`, `sessionId`) as the class `ChatInterface`, with the
  submit, select-session and new-session handlers.

`JsString` (`js_string.dfy`) holds the JavaScript string operations these
rely on: `trim`, `startsWith` and `endsWith`. `Wrappers` holds `Option`.

The I/O is replaced by values and parameters:

- The completion service is the function parameter `complete`.
- Parsing its JSON reply is `parse`.
- `generateSessionId` is the parameter `freshId`.
- The stored slot is the value JSON.parse gives for it.
- The transcripts directory is its listing, each file paired with the
  session it parses to.
- `new Date(s).getTime()` is the parameter `epochMillis`.
- Clock readings are timestamp parameters.
- The server the client talks to is the function parameter `server`.

The client never sends a conversation history. `ChatClient.ClientRequestAtServer`
proves that every request it sends reaches the completion service as the
system prompt followed by the new message alone.

Three facts about the code shape the model:

- The chat endpoint is stateless. It never reads or writes a transcript
  file, so no server-side save is modelled.
- The roles are `user` and `therapist`.
- An empty segment list from the completion service gives empty content.

## Model

| member | source | states |
|---|---|---|
| ChatTypes.ParseStrategy | src/types/chat.ts:34-47 | a label parses exactly when it is in the taxonomy, and the parsed strategy carries that label |
| ChatTypes.TaxonomyHasTenDistinctLabels | src/types/chat.ts:34-45 | the taxonomy has exactly ten labels, pairwise distinct |
| ChatTypes.LabelRoundTrip | src/types/chat.ts:34-47 | every strategy's label is in the taxonomy and parses back to that strategy |
| ChatTypes.LabelInjective | src/types/chat.ts:34-47 | two strategies have the same label only if they are the same strategy |
| ChatTypes.SegmentStrategies | src/types/chat.ts:2-5 | a segment whose plain-string labels are all in the taxonomy has them as strategies, one per label, in order |
| JsString.TrimStart | src/components/ChatInterface.tsx:27-28 | removes exactly a leading run of white space and leaves a string that does not start with white space |
| JsString.TrimEnd | src/components/ChatInterface.tsx:27-28 | removes exactly a trailing run of white space and leaves a string that does not end with white space |
| JsString.Trim | src/components/ChatInterface.tsx:27-28 | the trimmed input is no longer than the input and neither starts nor ends with white space |
| JsString.TrimBounds | src/components/ChatInterface.tsx:27-28 | the trimmed input is a slice of the input with only white space outside it |
| JsString.TrimIsMaximalInfix | src/components/ChatInterface.tsx:27-28 | trim keeps a contiguous middle part with only white space around it, and the kept part neither starts nor ends with white space |
| JsString.TrimEmptyIffAllWhiteSpace | src/components/ChatInterface.tsx:27 | the trimmed input is empty iff the input is all white space, which is when the submit guard refuses |
| JsString.TrimIdempotent | src/components/ChatInterface.tsx:28 | trimming the trimmed message changes nothing |
| Storage.ReadSessions | src/lib/storage.ts:5-15 | with no window, no stored value or an unparsable one the collection reads as empty; otherwise it is the stored sequence |
| Storage.FindIndex | src/lib/storage.ts:26-28 | the index of the first session with the id, or -1 exactly when no session has it |
| Storage.FindSession | src/lib/storage.ts:17-20 | the first session with the id, and null iff no session has the id |
| Storage.Upsert | src/lib/storage.ts:26-34 | the collection saveSession writes holds the session; it keeps the length when the id is present, and otherwise grows by one with the session in front |
| Storage.Remove | src/lib/storage.ts:43 | the filtered collection is no longer, holds no session with the id, and holds exactly the other sessions |
| Storage.FirstMatchUnique | src/lib/storage.ts:26-28 | there is only one first match for an id |
| Storage.SaveReplacesFirstMatch | src/lib/storage.ts:26-31 | saving an id already present puts the session at the first match's index; the length and every other element are unchanged |
| Storage.SavePrependsNew | src/lib/storage.ts:32-34 | saving a new id puts the session at index 0, followed by the old collection in its original order |
| Storage.GetAfterSave | src/lib/storage.ts:17-36 | after saving a session, looking up its id gives that session back |
| Storage.SaveKeepsOtherLookups | src/lib/storage.ts:17-36 | saving a session does not change the lookup of any other id |
| Storage.SaveIdempotent | src/lib/storage.ts:22-37 | saving the same session twice leaves the same collection as saving it once |
| Storage.DeleteAbsentIsIdentity | src/lib/storage.ts:43 | deleting an id no session has leaves the collection unchanged |
| Storage.DeleteKeepsOrder | src/lib/storage.ts:43 | deleting distributes over concatenation, so the survivors keep their relative order |
| Storage.DeleteCount | src/lib/storage.ts:43 | deleting shortens the collection by exactly the number of sessions with the id |
| Storage.GetAfterDelete | src/lib/storage.ts:17-45 | after deleting an id, looking it up gives null |
| Storage.BrowserStorage.GetAllSessions | src/lib/storage.ts:5-15 | a non-empty read comes from a defined window and a parsed stored value, and with a defined window a stored array reads back as that array |
| Storage.BrowserStorage.GetSession | src/lib/storage.ts:17-20 | null iff no stored session has the id; otherwise the first stored session with that id |
| Storage.BrowserStorage.ExportSession | src/lib/storage.ts:52-56 | null iff the session is not found; otherwise the serialization of the first stored session with that id |
| Storage.BrowserStorage.SaveSession | src/lib/storage.ts:22-37 | without a window nothing changes; otherwise the slot holds the upsert of the old collection, and the saved session can be read back |
| Storage.BrowserStorage.DeleteSession | src/lib/storage.ts:39-45 | without a window nothing changes; otherwise the slot holds the old collection without the id; the id can no longer be found |
| ChatRoute.SchemaEnumIsTaxonomy | src/app/api/chat/route.ts:46-57 | the labels the response schema allows are exactly the taxonomy's, in the same order |
| ChatRoute.RequestMessage | src/app/api/chat/route.ts:85-90 | a message passes validation iff it is present, a string, and not empty |
| ChatRoute.ResolveSessionId | src/app/api/chat/route.ts:92 | any truthy supplied id is kept, whatever its type; a missing id or a falsy one (null, false, 0, the empty string) is replaced by the fresh one |
| ChatRoute.HistoryEntry | src/app/api/chat/route.ts:99-102 | a history entry is never a system entry; it is a user entry iff its role is "user"; its content is passed through |
| ChatRoute.ConversationMessages | src/app/api/chat/route.ts:95-107 | fails iff the history is an array with a null entry; otherwise it ends with the new message as a user entry |
| ChatRoute.Prompt | src/app/api/chat/route.ts:95-116 | fails iff the conversation part fails; otherwise it has at least two entries, the system prompt first and the new message last |
| ChatRoute.HistoryEntries | src/app/api/chat/route.ts:97-104 | the history part has one entry per history item |
| ChatRoute.PromptFromHistory | src/app/api/chat/route.ts:95-116 | the prompt is the system prompt, then the history in its length and order with each content kept and role "user" mapped to user and any other role to assistant, then the new message as a user entry |
| ChatRoute.NonArrayHistoryIgnored | src/app/api/chat/route.ts:97 | a missing or non-array history contributes nothing to the prompt |
| ChatRoute.NullHistoryEntryThrows | src/app/api/chat/route.ts:98-102 | a null history entry makes prompt assembly fail |
| ChatRoute.BuildMessages | src/app/api/chat/route.ts:95-107 | the loop builds exactly the converted history followed by the new message, or fails on a null entry |
| ChatRoute.Join | src/app/api/chat/route.ts:133 | the joined string begins with the first part |
| ChatRoute.JoinTexts | src/app/api/chat/route.ts:133 | no segments give empty content; n >= 1 segments give content whose length is the sum of the text lengths plus n - 1 |
| ChatRoute.Texts | src/app/api/chat/route.ts:133 | one text per segment, in order |
| ChatRoute.JoinLength | src/app/api/chat/route.ts:133 | for n >= 1 segments the content's length is the sum of the text lengths plus n - 1 separators |
| ChatRoute.JoinPlacesParts | src/app/api/chat/route.ts:133 | each segment's text appears in the content at its offset, followed by one separator unless it is the last |
| ChatRoute.JoinAppend | src/app/api/chat/route.ts:133 | joining two non-empty lists is joining each and putting one separator between them |
| ChatRoute.Post | src/app/api/chat/route.ts:80-146 | a body that is not JSON or is null gives 500; an invalid message gives 400 and no upstream call; otherwise exactly the assembled prompt is sent; the reply is 200 iff the service returns non-empty content that parses; then it carries the resolved session id, the parsed segments unchanged and their joined texts; every other outcome is 500 with the generic error |
| SessionsRoute.TranscriptFiles | src/app/api/sessions/route.ts:18-20 | keeps exactly the files whose names start with "session-" and end with ".json" |
| SessionsRoute.IsTranscriptName | src/app/api/sessions/route.ts:18-20 | a name that passes the filter is at least as long as the prefix and the suffix together, since the two cannot overlap |
| SessionsRoute.TranscriptFilesKeepOrder | src/app/api/sessions/route.ts:18-20 | the filter distributes over concatenation, so it keeps the order and multiplicity of the files it keeps |
| SessionsRoute.Summaries | src/app/api/sessions/route.ts:29-45 | there are no more summaries than files |
| SessionsRoute.SummariesSound | src/app/api/sessions/route.ts:29-45 | each summary comes from a file that parsed, with that session's id, start time and message count and that file's name |
| SessionsRoute.SummariesComplete | src/app/api/sessions/route.ts:29-45 | every file that parsed is summarized, whatever failures surround it |
| SessionsRoute.CollectSummaries | src/app/api/sessions/route.ts:29-45 | the loop collects the summaries of the parsed files in order and skips the rest |
| SessionsRoute.Insert | src/app/api/sessions/route.ts:48-51 | inserting adds one element and keeps every element already there |
| SessionsRoute.SortNewestFirst | src/app/api/sessions/route.ts:48-51 | the sorted list has the input's length and holds every input element |
| SessionsRoute.InsertPermutes | src/app/api/sessions/route.ts:48-51 | inserting adds exactly the one element |
| SessionsRoute.InsertBounded | src/app/api/sessions/route.ts:48-51 | inserting keeps every start time under a bound that all elements respect |
| SessionsRoute.InsertSorted | src/app/api/sessions/route.ts:48-51 | inserting into a newest-first list keeps it newest first |
| SessionsRoute.SortIsOrderedPermutation | src/app/api/sessions/route.ts:48-51 | the sorted list is a permutation of its input, ordered by start time non-increasing |
| SessionsRoute.Get | src/app/api/sessions/route.ts:6-61 | a missing directory gives an empty list; an unreadable one gives 500; otherwise the result is a permutation of the summaries of the parsed matching files, newest first, no longer than the matching files, each from a matching file |
| ChatClient.RequestBody | src/components/ChatInterface.tsx:45-48 | the posted body carries the message, carries the session id exactly when one is set, and never carries a history |
| ChatClient.CanSubmit | src/components/ChatInterface.tsx:27 | the submit guard passes iff no request is in flight and the input has a character that is not white space |
| ChatClient.DropLast | src/components/ChatInterface.tsx:73 | removes the last turn of a non-empty list, and leaves an empty list empty |
| ChatClient.ChatInterface.constructor | src/components/ChatInterface.tsx:9-12 | no turns, empty input, not loading, no session id |
| ChatClient.ChatInterface.SetInput | src/components/ChatInterface.tsx:164 | sets the input and nothing else |
| ChatClient.ChatInterface.StartSubmit | src/components/ChatInterface.tsx:25-48 | refuses, changing nothing, iff the trimmed input is empty or a request is in flight; otherwise clears the input, sets loading, appends one user turn with the trimmed input and no segments, and sends only that message and the current session id |
| ChatClient.ChatInterface.FinishSubmit | src/components/ChatInterface.tsx:51-78 | on delivery appends the therapist turn and adopts the returned session id only if none is set; on failure drops the optimistic turn and restores the message to the input; loading ends either way |
| ChatClient.ChatInterface.HandleSubmit | src/components/ChatInterface.tsx:25-79 | a refused submit changes nothing; a delivered one leaves the old turns plus the user and therapist turns; a failed one leaves exactly the old turns and the trimmed message in the input; loading ends |
| ChatClient.ChatInterface.SelectSession | src/components/ChatInterface.tsx:88-91 | replaces the session id and the turns wholesale |
| ChatClient.ChatInterface.NewSession | src/components/ChatInterface.tsx:93-96 | clears the session id and empties the turns |
| ChatClient.ClientRequestAtServer | src/components/ChatInterface.tsx:45-48 | a request the client sends passes validation, reaches the completion service as the system prompt and the message alone, and keeps the client's session id when it has one |

## Left out

- The completion service's HTTP transport and client construction (src/app/api/chat/route.ts:5-9, 111-121) are a foreign network call. The function parameter `complete` stands for them.
- `JSON.parse` and `JSON.stringify` are not modelled. The stored slot is taken to read back what was written. Parsing a completion is the parameter `parse`.
- `localStorage`, `fs.access`, `fs.readdir` and `fs.readFile` are not modelled. They are replaced by the `Slot` and `Directory` values.
- A stored value that parses to something other than an array of sessions is not modelled.
- The `typeof window` test is the boolean `windowDefined`.
- Storage.BrowserStorage.SaveSession: always writes the slot. In the source, `localStorage.setItem` can throw, for example when the quota is exceeded, and `saveSession` then throws to its caller (src/lib/storage.ts:36).
- Storage.BrowserStorage.DeleteSession: always writes the slot. In the source, `localStorage.setItem` can throw, and `deleteSession` then throws to its caller (src/lib/storage.ts:44).
- The key name under which the collection is stored is not modelled. The one `Slot` stands for the value under that key.
- SessionsRoute.Get: lists only files that parse to a `Session`. In the source, a file whose JSON is an object with a non-null `messages` field is listed even when it is not a session. Its `sessionId` and `startedAt` are then undefined, and its `messageCount` is whatever `messages.length` gives, for example a string's length. The source skips a file only when reading it, parsing it or reading `session.messages.length` throws (src/app/api/sessions/route.ts:32-38). `TranscriptFile.session` cannot represent such a file.
- `generateSessionId` uses `Math.random`, which is floating point and nondeterministic. The model takes the fresh id as a parameter and does not model its format.
- `new Date(...)` parsing in the sort comparator becomes the integer function `epochMillis`. Invalid dates, whose comparison yields NaN, are not modelled.
- SessionsRoute.SortNewestFirst: models `Array.prototype.sort` as a stable insertion sort. Only ordering and permutation are proved about it; stability is not stated.
- Numbers in request bodies are reals. NaN, which is falsy in JavaScript, is not modelled.
- The wording of the system prompt is not reproduced. `SYSTEM_PROMPT` is an opaque constant.
- The rest of the response schema (field names, `strict`, `additionalProperties`) is not modelled. It binds the remote service, not this code. Only its strategy enum is compared with the taxonomy.
- `exportAllSessions` (src/lib/storage.ts:47-50) is only `JSON.stringify` of `getAllSessions`. `downloadAsJson` (src/lib/storage.ts:58-68) is DOM and Blob plumbing.
- Nothing in the core calls `ChatTypes.WellFormedSegment` and `ChatTypes.WellFormedMessage`, and the code never checks them. The only message shown to satisfy `WellFormedMessage` is the user turn that `StartSubmit` appends.
- Rendering, React effects, refs, scrolling, focus, the Enter-key handler and the history panel's visibility are not modelled. This covers all of src/components/MessageList.tsx and src/components/SessionHistory.tsx.
- Concurrent submissions are not modelled, and neither is selecting a session while a request is in flight. Submit is one atomic start-and-finish step. With interleaving, the rollback `slice(0, -1)` could remove a turn other than the optimistic one.
- The session lookup endpoint src/app/api/sessions/[sessionId]/route.ts is not part of this model.
- Logging with `console.error` is not modelled.
