# Chat session controller and Gemini request shaping, in Dafny

This project models the core of a browser chat client that holds several
conversations with a Gemini language model. It has two parts.

**The session controller** is in `App.tsx` and is modelled as the class
`App.ChatApp`. Its state has five parts: the conversation list, the selected
conversation id, the active model, the global system prompt and one
`isStreaming` busy flag. Its handlers are:

- create, delete and select a conversation;
- send a message: the guards, an optional new conversation, the user message,
  an empty MODEL placeholder, the streamed chunks merged into the placeholder,
  and the error text on failure;
- regenerate: reset one message slot, resend the messages before it and write
  the new reply into that same slot;
- the title reply that follows a conversation's first message.

The list updates the handlers give to `setConversations` are pure functions in
`ConversationStore`: `find`, `findIndex`, `filter`, and `map` with one edit
per conversation. The records of `types.ts` are in `Types`. The model catalog,
the default prompt and the fixed strings are in `Constants`.

A handler that awaits a stream is split where it suspends:

- `BeginSend` and `BeginRegenerate` run up to the call of `streamChat`;
- `OnChunk` is the `onChunk` callback;
- `OnStreamError` is the `catch` block;
- `Settle` is the `finally` block.

The field `pending` holds the locals those callbacks close over: the target
id, the placeholder id or slot index, and `accumulatedText`. While a stream is
open, other events can run between chunks: create, delete, select, or a title
reply. `Valid()` says this is safe. `HandleSendMessage` and `HandleRegenerate`
run one handler to the end over a given stream, with a loop over its chunks.

**The service wrapper** is in `services/geminiService.ts` and is modelled as
`GeminiService`. It covers:

- the API-key check;
- the history role mapping;
- the request's `contents`, whose last turn is always forced to 'user';
- the `fullText` accumulator loop of `streamChat`;
- the fallback of `generateTitle`.

The SDK is not modelled. A stream is a `StreamScript`: the `text` field of
each chunk, then either completion or an exception. A title call is a
`TitleResponse`.

The model follows the code as written, including these behaviours:

- A send failure writes "Error processing request.". A regeneration failure
  writes "Error during regeneration.".
- Regeneration does not check that the message before the slot is a USER
  message.
- Regeneration writes by index. A send writes only while the placeholder is
  still the last message.
- Regenerating the first message sends an empty history. `streamChat` then
  throws, and the slot gets the regeneration error.
- `generateTitle` calls `getClient` outside its `try`. With no key it rejects,
  so `.then` never runs and the title stays as it was. Other failures, and an
  empty reply, give "New Conversation".
- Stored conversations are parsed without a guard. The model only covers "no
  stored list gives an empty list".

## Model

| member | source | states |
|---|---|---|
| `GeminiService.GetClient` | services/geminiService.ts:7-13 | a client exists exactly when the key is present and non-empty, and it carries that key; otherwise the error is the fixed configuration message |
| `GeminiService.ApiRole` | services/geminiService.ts:25 | a history turn is 'user' exactly for a USER message, and 'model' for MODEL and SYSTEM |
| `GeminiService.TurnsMapsEach` | services/geminiService.ts:24-27 | the history map yields one turn per message, in order, each holding the role mapping and the content |
| `GeminiService.ContentsShape` | services/geminiService.ts:24-37 | the contents built by `BuildContents` exist exactly for a non-empty list and have the same length as it; the last turn is 'user' with the last message's content whatever its role; every earlier turn is 'user' for a USER message and 'model' for MODEL and SYSTEM, with the content as its only part |
| `GeminiService.ContentsIgnoreAttachments` | services/geminiService.ts:24-37 | only role and content reach the request: histories that agree on those give identical contents, so attachments are never forwarded |
| `GeminiService.ConcatSnoc` | services/geminiService.ts:49 | appending one more chunk to the accumulator appends it at the end, with no separator |
| `GeminiService.StreamChat` | services/geminiService.ts:15-58 | no key, or an empty list, throws before any request; otherwise the request holds the model, the shaped contents and the system prompt; onChunk receives each chunk's text in order ("" for a chunk without text); the result is the concatenation of exactly those strings, or the stream error is rethrown |
| `GeminiService.GenerateTitle` | services/geminiService.ts:60-71 | with no key the call rejects; otherwise a non-empty reply is the title and an empty reply or an error gives "New Conversation", so a title is never empty |
| `ConversationStore.FindChat` | App.tsx:22 | the result is the first conversation with the id, or none exactly when no conversation has it |
| `ConversationStore.MessageIndex` | App.tsx:49-50 | the result is the first index holding the message id, or none exactly when no message has it |
| `ConversationStore.WithoutChat` | App.tsx:42 | exactly the conversations with another id remain, and the list does not grow |
| `ConversationStore.WithoutChatDistributes` | App.tsx:42 | the filter distributes over concatenation, so survivors keep their order |
| `ConversationStore.WithoutChatAbsent` | App.tsx:42 | deleting an id that no conversation has leaves the list unchanged |
| `ConversationStore.ApplyEdit` | App.tsx:54-179 | the spread updates of the handlers (lines 57, 74, 83, 126, 132, 146 and 162-166) as edits: no edit changes a conversation's id, and only a message replacement changes the message count |
| `ConversationStore.UpdateChatAt` | App.tsx:125-127 | the `prev.map` updater `UpdateChat` keeps the length, applies the edit to every conversation with the id and leaves every other conversation as it was |
| `App.TrimEmptyIffBlank` | App.tsx:92 | `text.trim()`, modelled by `Trim`, is empty exactly when every character is ECMAScript whitespace |
| `App.EffectivePrompt` | App.tsx:156 | the conversation's own prompt is used when present and non-empty, the global prompt otherwise |
| `App.TitleSubject` | App.tsx:130 | the title subject is the text, or "File Analysis" for an empty text, and is never empty |
| `App.ResolveTarget` | App.tsx:95-114 | with nothing selected (null or ""), the target is a new conversation prepended to the list; otherwise it is the selected conversation, and none exactly when no conversation has that id |
| `App.AppendWritesCompose` | App.tsx:124-147 | the send's two writes (the user message with a new lastUpdated, then the placeholder) equal one write of both messages |
| `App.ChunkWriteComposes` | App.tsx:157-167 | a chunk write over the appended placeholder equals the append with the new text in the placeholder: each write replaces the content |
| `App.SlotWriteComposes` | App.tsx:69-76 | a chunk write into a reset slot equals the reset with the new text, keeping the reset's timestamp |
| `App.SendEffect` | App.tsx:116-147 | after a send, the target conversation holds its old messages, then the user message, then the reply: exactly two more. lastUpdated is bumped, the rest of it is kept, and every other conversation is untouched |
| `App.RegenerateEffect` | App.tsx:54-85 | after a regeneration, the target conversation is itself with only message `idx` changed, to the new content and timestamp: its id, title, model, prompt, lastUpdated, message count and every other message are kept, and every other conversation is unchanged |
| `App.RegenerateFirstMessageFails` | App.tsx:52-85 | regenerating index 0 resends `messages[..0]`, an empty history, so the stream call fails whatever the key and the stream, and slot 0 of the target ends holding the regeneration error text, with the message count kept |
| `App.ChatApp.RegenerateSlot` | App.tsx:47-50 | regeneration proceeds only when no stream is in flight, a conversation is selected and exists, and the message id is in it; the slot index is then valid |
| `App.ChatApp.Load` | App.tsx:11-20 | start-up state: the stored list or an empty one, no selection, the first catalog model, the default prompt, not streaming; the ids counted as issued are exactly the stored ones |
| `App.ChatApp.SelectChat` | App.tsx:192 | selecting sets the selected id and changes nothing else |
| `App.ChatApp.SetActiveModel` | App.tsx:204 | the active model is replaced and nothing else changes |
| `App.ChatApp.SetSystemPrompt` | App.tsx:206 | the global prompt is replaced and nothing else changes |
| `App.ChatApp.CreateNewChat` | App.tsx:28-39 | exactly one conversation, built by `NewChat`, is prepended and selected: a fresh id, "New Conversation", no messages, the active model's id, the global prompt. The rest of the list is unchanged |
| `App.ChatApp.DeleteChat` | App.tsx:41-44 | the list becomes the filter without the id; the selection becomes null only if it was that id |
| `App.ChatApp.BeginSend` | App.tsx:91-149 | it does nothing for blank text without attachments, while streaming, or for a missing selected conversation. Otherwise it appends the user message (`UserMessage`: attachments only when there are some) and an empty MODEL placeholder (`Placeholder`) to the target, asks for a title only for a first message, sets the busy flag and calls the stream with the messages up to the user message and the effective prompt |
| `App.ChatApp.AppendExchange` | App.tsx:124-149 | the target conversation gets both messages and a new lastUpdated; the busy flag is set and the pending stream targets the placeholder |
| `App.ChatApp.BeginRegenerate` | App.tsx:46-61 | it does nothing on an early return. Otherwise only the slot is reset to "" with a new timestamp, the request history is exactly the messages before the slot, and the busy flag is set |
| `App.ChatApp.OnChunk` | App.tsx:69-167 | both onChunk callbacks, the regeneration's (lines 69-77) and the send's (lines 157-167): the accumulated text grows by the chunk and all of it is written into the stream's slot in that one conversation |
| `App.ChatApp.OnStreamError` | App.tsx:79-179 | both catch blocks, the regeneration's (lines 79-85) and the send's (lines 170-179): the slot gets the fixed error text of its handler, replacing any partial text |
| `App.ChatApp.Settle` | App.tsx:86-182 | both finally blocks (lines 86-88 and 180-182): the busy flag is cleared and no stream is pending |
| `App.ChatApp.OnTitle` | App.tsx:130-134 | a title that comes back replaces only that conversation's title; a rejected title call changes nothing |
| `App.ChatApp.RunSendStream` | App.tsx:151-182 | after the chunks c1..ck the placeholder holds c1+...+ck, or the send error text on failure; the busy flag ends cleared |
| `App.ChatApp.RunRegenerateStream` | App.tsx:63-88 | after the chunks c1..ck the slot holds c1+...+ck, or the regeneration error text on failure; the busy flag ends cleared |
| `App.ChatApp.HandleSendMessage` | App.tsx:91-183 | a whole send: no change in the guarded cases. Otherwise the target ends with its old messages, the user message and a MODEL reply holding the stream's text or the error text. A title is requested for a first message only, and the busy flag ends cleared. The issued ids grow only by the target's id, which is new only when a conversation was created |
| `App.ChatApp.HandleRegenerate` | App.tsx:46-89 | a whole regeneration: no change in the guarded cases. Otherwise only the slot changes, to the stream's text for `messages[0..idx)` or the error text. The request excludes the slot, and the busy flag ends cleared |
| `App.SendHelloFromStartUp` | App.tsx:11-183 | from start-up with nothing stored, sending "Hello" creates and selects "c1". The conversation then holds exactly the user message and a MODEL reply with the streamed text or the send error, the title request is for "Hello", the client ends idle, and "c1" is the only id issued |
| `App.SendAgain` | App.tsx:91-183 | a follow-up send into the selected conversation, which already holds messages. It still has a fresh id on offer. It appends the user message and a reply with the stream's text for the whole history, keeps the earlier messages and requests no title |

## Left out

- Persistence: the `localStorage` read and writes and `JSON.parse`/`JSON.stringify` are browser I/O. The stored list is a constructor parameter. A corrupt stored list, which makes start-up throw, is not modelled.
- `App.ChatApp.Load` requires the stored list to have distinct ids; the list is only ever written by this client, which never repeats an id.
- `uuidv4()` and `Date.now()` are parameters. Conversation ids are fresh: the ghost set `issuedIds` records every id handed out. A handler uses one timestamp for all of its `Date.now()` calls.
- The Gemini SDK is replaced by `StreamScript` and `TitleResponse`. The sampling settings (temperature, topP, topK), the title prompt wording and the title request's model id are not modelled. `console.error` is not modelled.
- `HandleSendMessage` and `HandleRegenerate` first run `StreamChat` over the whole stream and then apply its `onChunk` calls in order. Nothing else runs between the chunks, so the sequence of states is the same. Other interleavings (React batching, a title reply between chunks) are covered by calling the phase methods directly.
- `App.ChatApp.OnChunk` and `App.ChatApp.OnStreamError`: on a send, the source mutates the last message object in place, and that object is shared with the previous state. The model replaces the value instead, so this aliasing is not captured.
- Sidebar.tsx:69 sorts the conversation array in place, newest `lastUpdated` first, on every render. That array is the controller's own state, so the stored snapshot has this order too. The model keeps the order of the handlers' writes. Its statements about positions, such as the prepend of `App.ChatApp.CreateNewChat`, the order kept by `ConversationStore.WithoutChatDistributes` and the index kept by `App.SendEffect`, describe the updaters' results, not the array after a render.
- The input box (ChatInput.tsx:23-24) passes only `text.trim()` and never passes attachments. The model's send accepts any text and any attachments, a wider set of inputs than the input box produces.
- The sidebar-open flag and all rendering are presentational and not modelled.
- `Message.tokens` is carried but never set by the core.

## Findings

None. The quirks listed above are modelled as written.
