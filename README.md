# Chat proxy and chat client, modelled in Dafny

This project models the core of a Next.js chat application: a serverless
proxy that forwards a conversation to a completion API, and browser hooks
that consume the streamed answer and keep the saved conversations.

- **The proxy handler** (`POST` in `route.ts`) sends at most two completion calls; both are made on every path that reaches the stream.
  The first decides whether the model asks for `web_search`.
  If it does, the search runs and the second call gets the conversation extended by the tool request and the search digest.
  Otherwise the second call gets the unmodified conversation.
  The handler is modelled as a function from the request and everything
  the outside world answers (`Route.Env`) to the response and the trace of requests made.
- **The stream normaliser** (`createStreamResponse`) re-frames the upstream body line by line.
  It is modelled imperatively: a `Reader` hands out decoded chunks, and a `Controller` collects frames and counts closes.
  It is proved against the specification function `RouteStream.StreamFrames`.
- **The search tool** (`performWebSearch`) renders a digest or a placeholder text and never fails.
  The copy of this function at the top of `route.ts` is the same code.
  It is modelled once, as `Serper`.
- **The chat hook** (`useChat`) is the class `ChatHook.ChatSession`.
  It holds the message list and the loading and search flags.
  Its read loop accumulates the streamed text into the last assistant message.
  It is proved against `ChatHook.SentMessages`.
- **The conversation store** (`useConversations`) is the class `ConversationsHook.ConversationStore`.
  Its list updates are the functions `UpdateAll`, `Without` and `FindById`.
- **`truncateText`** is the function `Utils.TruncateText`.

`Builtins` holds the JavaScript built-ins the code relies on: `startsWith`, `split` on one character, `trim`, `${n}` for a number, `Response.ok`, and `FlatMap`, the fold that stands for the `for … of` loops appending to a text or enqueuing frames.
`Types` holds the records of `src/types/index.ts`.

Four behaviours of the code that the model keeps:

- The outgoing stream ends with `data: [DONE]` only when the upstream sends that line.
- No `{error}` frame is ever emitted.
- The search marker is sent only for a non-empty query.
- Every chunk is split on its own, so a line cut by a chunk boundary is dropped (`RouteStream.SplitLineDropped`).
  The concatenated content therefore need not rebuild the full answer.

## Model

| member | source | states |
|---|---|---|
| Utils.Prefix | src/lib/utils.ts:21 | `substring(0, n)` has length `n` clamped to `0..|text|` and is a prefix of the text |
| Utils.TruncateBounds | src/lib/utils.ts:19-22 | a fitting text is returned unchanged; a longer one becomes `text[..maxLength] + "..."`; the result is at most `maxLength + 3` long and starts with a prefix of the text |
| Utils.TruncateIdempotent | src/lib/utils.ts:19-22 | truncating a truncated text changes nothing |
| Builtins.TrimEmptyIffBlank | src/hooks/useChat.ts:15 | `!content.trim()` holds exactly when every character is white space |
| Serper.Shown | src/lib/serper.ts:34 | `results.slice(0, 5)` is a prefix of the results of length `min(5, |results|)` |
| Serper.PerformWebSearch | src/lib/serper.ts:1-47 | the request goes out only with a key, with `gl: jp`, `hl: ja`, `num: 5`; the loop builds exactly the text `SearchText` describes |
| Serper.SearchDigest | src/lib/serper.ts:33-41 | a successful search opens with the header naming the query, then the blocks of the first five results, then the panel |
| Serper.BlocksInOrder | src/lib/serper.ts:34-36 | the result blocks appear in source order, one per result |
| Serper.ExtraResultsIgnored | src/lib/serper.ts:34 | results beyond the fifth never reach the text |
| Serper.PanelAppended | src/lib/serper.ts:38-41 | the knowledge-panel block is appended after the results iff a panel is present; a missing title or description renders as empty |
| Serper.NoResultsPlaceholder | src/lib/serper.ts:27-31 | a missing or empty `organic` list gives the no-results placeholder |
| Serper.DigestIffSuccess | src/lib/serper.ts:1-47 | the text opens with `【` exactly on success and with `(` on every failure, so a digest and a placeholder are never confused |
| Serper.StatusRecoverable | src/lib/serper.ts:22-24 | a non-ok status gives `(検索エラー: <status>)`, and the status reads back from its digits |
| Route.UpstreamConversation | src/app/api/chat/route.ts:68-69 | the system turn, then the last `min(40, |messages|)` client messages in their order |
| Route.Marker | src/app/api/chat/route.ts:183 | the marker is present iff the turn searched with a non-empty query, and it carries that query |
| Route.Post | src/app/api/chat/route.ts:54-168 | no key gives a 500 error with no call made; otherwise the decision call over the upstream conversation is made first; a stream is opened by the last call made |
| Route.MissingKeyNoFetch | src/app/api/chat/route.ts:58-66 | a missing completion key gives status 500 and no request at all |
| Route.ErrorStatuses | src/app/api/chat/route.ts:89-176 | a failed decision call returns its own status with `APIエラー: <status>`; every other error is 500; once the streaming call is made, a throw gives the 500 server error, a failed status gives 500 `Stream error` and no stream |
| Route.DirectPath | src/app/api/chat/route.ts:143-159 | without a search request the calls are the decision and the streaming call over the unmodified conversation; the outcome is the stream with no marker, the 500 server error when the call throws, or 500 `Stream error` for a failed status |
| Route.SearchPath | src/app/api/chat/route.ts:102-139 | the streaming call runs over the conversation, then the model's tool request, then a `tool` turn answering `toolCall.id` with the digest; its outcome is the stream with the marker, the 500 server error or 500 `Stream error`; malformed arguments give 500 before any search |
| Route.SearchIff | src/app/api/chat/route.ts:102-106 | a search call, an extended conversation or a marker happen only when `tool_calls[0]` names `web_search` |
| Route.CallBudget | src/app/api/chat/route.ts:54-168 | at most three requests: the decision first, at most one search, and the streaming call last whenever more than one request is made |
| RouteStream.WireText | src/app/api/chat/route.ts:185 | every frame starts with `data: `; the done frame is exactly `data: [DONE]\n\n` |
| RouteStream.Reader.Read | src/app/api/chat/route.ts:196-197 | each read hands out the next decoded chunk; after the last one it reports the end or throws |
| RouteStream.RelayLine | src/app/api/chat/route.ts:203-213 | one line enqueues exactly the frames `LineFrames` gives it |
| RouteStream.RelayLines | src/app/api/chat/route.ts:202-214 | the lines of a chunk are relayed in their order |
| RouteStream.RelayChunk | src/app/api/chat/route.ts:199-214 | a chunk is split at `\n` on its own and its lines relayed |
| RouteStream.RelayNext | src/app/api/chat/route.ts:196-200 | a read relays the delivered chunk, or stops the loop with nothing enqueued |
| RouteStream.Pump | src/app/api/chat/route.ts:194-215 | the read loop enqueues the frames of every chunk in order and ends on the end or a read error |
| RouteStream.StreamBody | src/app/api/chat/route.ts:181-221 | the frames are the marker (if any) and the frames of the chunks; the stream is closed exactly once, with or without a body, after the end or a read error, a read error adds no frame, and no frame can be enqueued after the close |
| RouteStream.LineMapping | src/app/api/chat/route.ts:203-213 | a `data:` line other than `data: [DONE]` with a non-empty delta gives one content frame; the done line gives the done frame; every other line gives nothing |
| RouteStream.ChunksFramesAppend | src/app/api/chat/route.ts:199-200 | no carry-over: the frames of two runs of chunks are the frames of each run |
| RouteStream.SplitLineDropped | src/app/api/chat/route.ts:199-210 | a `data:` line cut in two by a chunk boundary gives no frame |
| RouteStream.BodyFrames | src/app/api/chat/route.ts:202-214 | the body never yields a marker, and every content frame from it carries a non-empty delta |
| RouteStream.MarkerFirstAndOnce | src/app/api/chat/route.ts:183-186 | the marker is the first frame and appears nowhere else, and it is there iff there is a marker |
| ChatHook.Project | src/hooks/useChat.ts:40-43 | the body holds one `{role, content}` per message, in order |
| ChatHook.WithLastContent | src/hooks/useChat.ts:83-93 | only the last message changes, and only its content, and only when it is the assistant's |
| ChatHook.LastUserIndex | src/hooks/useChat.ts:126 | the index of the last user message, or -1 when there is none |
| ChatHook.IndexOfId | src/hooks/useChat.ts:142 | the index of the first message with the id, or -1 when there is none |
| ChatHook.SendShape | src/hooks/useChat.ts:17-31 | a send appends exactly two messages and leaves the earlier ones; the user message is the one built from the id, the trimmed text and the time; the answer keeps its id, role and time and holds the streamed text or the notice |
| ChatHook.AbortKeepsText | src/hooks/useChat.ts:101-114 | an abort keeps the text streamed so far; any other failure replaces the answer with the notice |
| ChatHook.RequestBody | src/hooks/useChat.ts:40-43 | the request carries the earlier messages and the trimmed user message, never the empty answer |
| ChatHook.LineTextCases | src/hooks/useChat.ts:70-98 | only the content of a parsed `data:` payload that is not the search event reaches the answer |
| ChatHook.StreamTextAppend | src/hooks/useChat.ts:63-68 | no carry-over: the text of two runs of chunks is the text of each run |
| ChatHook.ChatSession.constructor | src/hooks/useChat.ts:8-11 | the list is empty and the flags are off |
| ChatHook.ChatSession.ConsumeLine | src/hooks/useChat.ts:70-98 | the search event sets `isSearching` and the query (or null) and leaves the messages alone; content extends the accumulated text and the answer |
| ChatHook.LinesFlags | src/hooks/useChat.ts:75-79 | after a run of lines the search indicator is on iff it was on or some line is a search event, holds the query of the last search event, and is unchanged when no line is one |
| ChatHook.LinesFlagsAppend | src/hooks/useChat.ts:63-79 | the indicator after two runs of lines is that of the second run started from the first |
| ChatHook.ChatSession.ConsumeChunk | src/hooks/useChat.ts:67-99 | after each line the answer holds all deltas received so far; the other messages are unchanged; the search indicator is `LinesFlags` of the chunk's lines |
| ChatHook.ChatSession.ConsumeBody | src/hooks/useChat.ts:61-100 | the read loop leaves the answer holding the text of all chunks in order, and the search indicator as `LinesFlags` of the lines of all chunks |
| ChatHook.ChatSession.Exchange | src/hooks/useChat.ts:45-100 | the exception is the rejection, the HTTP error message, `No response body` or the read failure; the answer holds what was streamed before it; the search indicator follows the streamed lines and is unchanged when no body was read |
| ChatHook.ChatSession.SendMessage | src/hooks/useChat.ts:14-121 | a blank text or a loading turn changes nothing; otherwise the messages become `SentMessages`, the request is the projected earlier messages plus the user message, and both flags and the query are reset |
| ChatHook.ChatSession.RegenerateLastMessage | src/hooks/useChat.ts:123-137 | a no-op when loading, with fewer than two messages or no user message; otherwise the list is cut before the last user message, whose content is returned for the resend |
| ChatHook.ChatSession.EditAndResend | src/hooks/useChat.ts:139-151 | a no-op when loading or when no message has the id; otherwise the list is cut before that message and the new content is returned for the resend |
| ChatHook.ChatSession.StopGeneration | src/hooks/useChat.ts:153-157 | both flags drop, and the messages and the query are kept |
| ChatHook.ChatSession.ClearMessages | src/hooks/useChat.ts:159-164 | an empty list, both flags off, no query |
| ConversationsHook.FirstUser | src/hooks/useConversations.ts:57 | the first user message, or none exactly when there is no user message |
| ConversationsHook.UpdateAll | src/hooks/useConversations.ts:50-69 | the conversations with the id are updated, the others kept, in the same positions |
| ConversationsHook.Without | src/hooks/useConversations.ts:74 | exactly the conversations without the id remain |
| ConversationsHook.FindById | src/hooks/useConversations.ts:81 | the first conversation with the id; none for the null id or an id no conversation has |
| ConversationsHook.TitleRule | src/hooks/useConversations.ts:55-61 | a non-default title is kept; the default becomes `truncateText(firstUser.content, 30)` when there is a user message and stays otherwise |
| ConversationsHook.DerivedTitleBound | src/hooks/useConversations.ts:59 | a derived title is at most 33 characters: the content itself, or its first 30 characters and `...` |
| ConversationsHook.DerivedTitleStable | src/hooks/useConversations.ts:55-61 | deriving again with the same messages changes nothing |
| ConversationsHook.WithoutAppend | src/hooks/useConversations.ts:74 | the remaining conversations keep their order |
| ConversationsHook.WithoutAbsent | src/hooks/useConversations.ts:74 | deleting an id no conversation has changes nothing |
| ConversationsHook.FindAfterDelete | src/hooks/useConversations.ts:73-82 | after a deletion the id is found no more, and every other id finds the same conversation as before |
| ConversationsHook.UpdateKeeps | src/hooks/useConversations.ts:49-70 | an update keeps every id, every creation time and every other conversation; the updated one gets the messages, the time and the derived title |
| ConversationsHook.ConversationStore.CreateConversation | src/hooks/useConversations.ts:35-47 | a default-titled, empty conversation with the two clock reads as its creation and update times goes first and becomes the active one; its id is returned |
| ConversationsHook.ConversationStore.UpdateConversation | src/hooks/useConversations.ts:49-71 | the list becomes `UpdateAll` of the old list; the active id is kept |
| ConversationsHook.ConversationStore.DeleteConversation | src/hooks/useConversations.ts:73-78 | the list becomes `Without` of the old list; the active id is cleared iff it was this id, and the active conversation is never the deleted one |
| ConversationsHook.ConversationStore.GetActiveConversation | src/hooks/useConversations.ts:80-82 | a conversation of the list with the active id, or none exactly when no conversation has the active id |

## Left out

- `JSON.parse` and `JSON.stringify` are oracles: `Route.Env.parseArgs`, `RouteStream.DeltaParser`, `ChatHook.PayloadParser` and the `json` parameter of `RouteStream.WireText`.
- `TextDecoder`: chunks are already-decoded strings, so a multi-byte character split across reads is not modelled.
- TruncateBounds: lengths count Unicode scalar values, while JavaScript counts UTF-16 code units, so a text with characters outside the Basic Multilingual Plane is cut at a different place.
- `process.env`, `fetch`, headers, `MODEL_ID`, `SEARCH_TOOL` and `SYSTEM_PROMPT` become the credential flags, the upstream replies and the `systemPrompt` parameter. `src/lib/constants.ts` is not part of this model.
- `console.log` and `console.error` are left out; they only print.
- Post: a request body that is not JSON, and a `messages` that is not a list, are not modelled: the messages are given as a parsed list of turns.
- Post: a `tool_calls[0]` without `function` throws and is answered with status 500 by the outer `catch`; this is not modelled, since every `ToolCall` carries a name and an argument text.
- Post: a missing or non-string `args.query` is not modelled, since `ArgsParsed` carries a string.
- Serper: result fields that are absent render as `undefined` in JavaScript; the model takes them as strings. A non-array `organic` is not modelled.
- ChatSession.ConsumeLine: a non-string truthy `content` would be concatenated as text; the model takes contents as strings.
- `ReadableStream`, backpressure and the ordering between returning the response and running `start`: `Post` and `StreamBody` are separate steps.
- `AbortController` is not a field. An abort is the `AbortError` outcome of a send, and `StopGeneration` only drops the flags.
- React: state batching, the `messages` captured when a callback was created, and any operation interleaved with a running send. Each method runs as one step.
- The `setTimeout` resend in regenerate and edit: `RegenerateLastMessage` and `EditAndResend` return the text to resend.
- `localStorage` loading and saving in `useConversations` is left out.
- `generateId` and `Date.now` become parameters: ids and times.
- UpdateAll: one time serves every conversation with the id, while the source reads the clock once per match; the two differ only when ids repeat.
- The optional `isSearching` and `searchQuery` fields of `Message` are never set by the hooks, and stay absent.
- Not claimed: the streamed content rebuilds the full upstream answer. It does not when a line is cut by a chunk boundary.
