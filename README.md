# KodeKey chat: conversation store and chat turn

This project models the core of the KodeKey chat page (`kodekey-chatbot/chatbot.py`) in Dafny: the conversations a
session holds, and what one chat turn does to the active conversation.

- **Conversation store** (`store.dfy`, class `Store.ConversationStore`): an insertion-ordered dictionary from
  conversation id to conversation record, plus the active conversation id. The dictionary is a `seq` of ids in
  insertion order beside a `map`. The class invariant `Valid()` says four things: the ids are unique, they are
  exactly the map's keys, the store is never empty, and the active id is a key. The operations are the first-run
  initialisation (the constructor), new chat, selecting a conversation, delete, import and "Clear All Chats". A
  fresh id stands in for `uuid4` and an opaque timestamp string for `datetime.now()`.
- **Conversation record and chat turn** (`conversations.dfy`): a record holds the title, messages, creation time,
  model id, personality and temperature. `Turn` states what one submitted message does to a record.
  `ConversationStore.Submit` performs the same steps in place on the active record and is proved to match `Turn`:
  - strip the input and ignore it when it is blank;
  - append the user message and title the conversation on its first message;
  - look up the personality's system prompt;
  - build the request;
  - fold the streamed chunks into one reply and append it as the assistant message.
- **Pipeline** (`pipeline.dfy`): the request is one system message followed by the last 20 messages. The stream is
  given as the deltas received before any fault plus an optional exception text. `stream_response` skips deltas
  whose content is `None` (an empty string is yielded) and turns a backend exception into one `"❌ Error: ..."` chunk. `Accumulate` is the
  `response_text += chunk` loop.
- **Titles** (`titles.dfy`): `get_conversation_title`.
- **Catalog** (`catalog.dfy`): the `models` and `system_prompts` tables, the model-name lookup with its fallback to
  the first name, and the `ChatBot` constructor's API-key check.
- **Text** (`text.dfy`): Python's `str.strip()`, with Python's set of whitespace code points.

Behaviour of the code that the model keeps as written:
- An unknown model id falls back silently to the first catalog name. It is not reported as an error.
- Deleting the last conversation is a silent no-op. The model reports it as `KeptLast`.
- Deleting an unknown id while more than one conversation exists raises `KeyError`. The model reports it as
  `Missing` and leaves the store as it was.
- Import stores whatever was parsed, without checking its shape.
- A personality with no system prompt would make line 510 raise `KeyError` after the user message and title were
  stored. `Turn` keeps that branch as the `UnknownPersonality` outcome, but the page never reaches it (see
  "## Left out").
- A title is the stripped first 30 code points, and `"..."` follows whenever the message is longer than 30. The
  ellipsis depends on the length, not on whether stripping removed anything.

## Model

| member | source | states |
|---|---|---|
| Text.Strip | kodekey-chatbot/chatbot.py:495-499 | The stripped input is no longer than the input. It is empty exactly when the input is all whitespace. It starts and ends with a non-whitespace code point. |
| Text.StripDecomposes | kodekey-chatbot/chatbot.py:495-499 | The stripped text is one contiguous slice of the input that starts after the leading whitespace. Every code point outside that slice is whitespace. |
| Text.StripKeepsStripped | kodekey-chatbot/chatbot.py:218 | A string with no whitespace at either end is unchanged by strip. |
| Text.StripIdempotent | kodekey-chatbot/chatbot.py:218 | Stripping twice gives the same result as stripping once. |
| Catalog.Lookup | kodekey-chatbot/chatbot.py:510 | Dictionary indexing returns `None` exactly when no entry has the key. Otherwise it returns the value of an entry with that key. |
| Catalog.FirstKeyWith | kodekey-chatbot/chatbot.py:302-305 | The generator returns `None` exactly when no entry has the value. Otherwise it returns the key of the first entry, in insertion order, with that value. |
| Catalog.LookupEntry | kodekey-chatbot/chatbot.py:116-129 | In a table with distinct keys, looking up an entry's key gives that entry's value. |
| Catalog.ModelNameFor | kodekey-chatbot/chatbot.py:301-306 | The selected model name is always a catalog name. It is the first catalog name when no entry has the conversation's model id. |
| Catalog.ModelNameRoundTrip | kodekey-chatbot/chatbot.py:302-306 | For a model id in the catalog, mapping the id to its name and back gives the same id. |
| Catalog.CatalogKeysDistinct | kodekey-chatbot/chatbot.py:116-129 | Neither table repeats a key, and no two model names share a model id. |
| Catalog.DefaultsResolve | kodekey-chatbot/chatbot.py:116-129 | The default model id maps to "Claude Sonnet 4" and back. The default personality "Assistant" has a system prompt. |
| Catalog.NewChatBot | kodekey-chatbot/chatbot.py:101-107 | Construction succeeds exactly when the argument key or the environment key is non-empty, with the argument taking precedence. On failure the error is "KodeKey API key is required". A constructed client never has an empty key. |
| Titles.FirstUserContent | kodekey-chatbot/chatbot.py:214 | The result is `None` exactly when no message has role user. Otherwise it is the content of the first user message. |
| Titles.Title | kodekey-chatbot/chatbot.py:209-223 | A title has at most 33 code points. It is "New Chat" when there is no user message, including for an empty list. |
| Titles.TitleOfFirstUser | kodekey-chatbot/chatbot.py:214-221 | When the first user message has at most 30 code points, the title is that message stripped. Otherwise the title is its first 30 code points stripped, followed by "...". |
| Titles.ShortMessageNotSuffixed | kodekey-chatbot/chatbot.py:218-220 | When the first user message has at most 30 code points, no "..." is appended: the title is exactly that message stripped, so it is no longer than the message. |
| Titles.FirstMessageTitle | kodekey-chatbot/chatbot.py:502-504 | A stripped, non-empty first message gives a non-empty title. If the message has at most 30 code points, the title is the message itself. |
| Titles.AppendKeepsTitle | kodekey-chatbot/chatbot.py:214-221 | Only the first user message decides the title: appending a message that is not the first user message leaves the title unchanged. |
| Pipeline.RecentMessages | kodekey-chatbot/chatbot.py:515 | `messages[-20:]` is the suffix of length `min(20, n)`. |
| Pipeline.BuildRequest | kodekey-chatbot/chatbot.py:507-516 | The request has `1 + min(20, n)` entries. The first is the system message with the prompt. The rest are the last messages of the conversation, in their original order. |
| Pipeline.RequestEndsWithNewest | kodekey-chatbot/chatbot.py:497-516 | The newest message is always the last entry of the request. |
| Pipeline.LongConversationWindow | kodekey-chatbot/chatbot.py:514-516 | A conversation of more than 20 messages sends exactly the system message and its last 20 messages. |
| Pipeline.Present | kodekey-chatbot/chatbot.py:158-160 | At most one chunk is yielded per delta. Every chunk is the content of some delta, and every delta that is not `None` has its content among the chunks. |
| Pipeline.PresentSingle | kodekey-chatbot/chatbot.py:158-160 | A single delta yields its content when that is not `None`, and nothing when it is. |
| Pipeline.PresentAppend | kodekey-chatbot/chatbot.py:158-160 | Two consecutive stretches of deltas yield the chunks of the first, then those of the second. With `PresentSingle` this fixes the chunks as the non-`None` contents in the order received, none dropped or repeated. |
| Pipeline.StreamChunks | kodekey-chatbot/chatbot.py:147-163 | Without a fault, the yielded chunks are the received contents. After a fault, one final chunk follows them: the error marker plus the exception text. |
| Pipeline.Concat | kodekey-chatbot/chatbot.py:521-529 | The accumulated reply is at least as long as each chunk. It is empty exactly when every chunk is empty. |
| Pipeline.ConcatAppend | kodekey-chatbot/chatbot.py:529 | Concatenating two chunk sequences one after the other gives the concatenation of the joined sequence. |
| Pipeline.ConcatKeepsEachChunk | kodekey-chatbot/chatbot.py:524-529 | Every chunk appears in the reply at its place, after all earlier chunks and before all later ones. |
| Pipeline.Accumulate | kodekey-chatbot/chatbot.py:521-529 | The accumulating loop leaves the in-order concatenation of all chunks in the buffer. |
| Pipeline.Reply | kodekey-chatbot/chatbot.py:523-547 | When displaying the stream raises, the reply is "❌ Error generating response: " and the exception text. Otherwise, without a backend fault, it is exactly the concatenated streamed content. After a backend fault, it is the content received before the fault, then the error marker and the exception text. |
| Pipeline.HelloReply | kodekey-chatbot/chatbot.py:524-529 | Streaming "Hel" and then "lo!" gives the reply "Hello!". |
| Conversations.NewConversation | kodekey-chatbot/chatbot.py:173-180 | A new record has no messages and the given creation time. Its stored title is the one derived from its messages. Its model id maps to a catalog name and back. Its personality has a system prompt. |
| Conversations.Turn | kodekey-chatbot/chatbot.py:495-547 | A turn is rejected exactly when the input is all whitespace, and a rejected turn leaves the record unchanged. It stops at the system-prompt lookup exactly when the input is not blank and the personality is not a key. |
| Conversations.WithUserMessage | kodekey-chatbot/chatbot.py:497-504 | The user message is appended and the settings are untouched. The title is derived from the messages when this is the first message, and is otherwise unchanged. |
| Conversations.WithAssistantMessage | kodekey-chatbot/chatbot.py:536-539 | The assistant message is appended and nothing else changes. The title the messages determine is the same as before. |
| Conversations.TurnKeepsTitleDerived | kodekey-chatbot/chatbot.py:502-504 | For a conversation that is new or already has a user message, and whose stored title is the derived one, the stored title is still the derived one after a turn. |
| Conversations.TurnAppendsMessages | kodekey-chatbot/chatbot.py:495-547 | A turn keeps the earlier messages and appends the stripped user message. It then appends exactly one assistant message holding the reply, so the count grows by exactly 2. When the personality has no prompt, it grows by exactly 1. Settings and creation time are unchanged. |
| Conversations.TurnTitlesFirstMessage | kodekey-chatbot/chatbot.py:502-504 | The title changes only on the first message. It then becomes the non-empty derived title, which is the stripped input when that has at most 30 code points. |
| Conversations.TurnRequest | kodekey-chatbot/chatbot.py:506-516 | An answered turn's request starts with the personality's system prompt. It has `1 + min(20, n + 1)` entries and ends with the new user message. |
| Conversations.TurnRecordsBackendFailure | kodekey-chatbot/chatbot.py:519-539 | After a backend fault, the stored assistant message is the received content followed by the error-marked text. The failure is not dropped. |
| Conversations.FirstTurn | kodekey-chatbot/chatbot.py:495-539 | The first answered turn of an empty conversation leaves exactly two messages: the stripped input as a user message, then the reply as an assistant message. |
| Conversations.HelloTurn | kodekey-chatbot/chatbot.py:495-539 | On a new conversation, "Hi" with a stream of "Hel" and "lo!" stores exactly "Hi" and then "Hello!". |
| Conversations.HelloTitle | kodekey-chatbot/chatbot.py:502-504 | In the same scenario, the conversation is titled "Hi". |
| Store.Remove | kodekey-chatbot/chatbot.py:203 | After the removal, the remaining ids are exactly the old ids other than the deleted one. |
| Store.RemoveSplices | kodekey-chatbot/chatbot.py:203-206 | In a duplicate-free order, deleting a key splices it out. The other keys keep their order, none repeats, and one fewer remains. |
| Store.KeyCount | kodekey-chatbot/chatbot.py:202 | `len(conversations)` equals the number of ids in the insertion order. |
| Store.ConversationStore.constructor | kodekey-chatbot/chatbot.py:165-181 | The first run creates exactly one new conversation, which is active, and establishes the invariant. |
| Store.ConversationStore.Create | kodekey-chatbot/chatbot.py:186-197 | Create appends exactly one new id, holding a new record ("New Chat", no messages, default model, "Assistant"), and makes it active. All earlier records are unchanged. |
| Store.ConversationStore.Select | kodekey-chatbot/chatbot.py:358-365 | A clicked key becomes active, and the invariant is kept. |
| Store.ConversationStore.Delete | kodekey-chatbot/chatbot.py:200-207 | With one entry, delete is a no-op. For an unknown id, it is `Missing` and changes nothing. Otherwise it removes exactly that id and keeps the order of the rest. If that id was active, the first remaining key becomes active. The store stays non-empty with a valid active id. |
| Store.ConversationStore.Import | kodekey-chatbot/chatbot.py:232-242 | A parsed record is stored unchanged under the fresh id, appended last, and made active. A parse failure changes nothing. |
| Store.ConversationStore.ClearAll | kodekey-chatbot/chatbot.py:399-414 | Afterwards the store is exactly one new conversation under the given id, and that id is active. |
| Store.ConversationStore.Submit | kodekey-chatbot/chatbot.py:495-547 | The step-by-step turn changes only the active record, exactly as `Turn` prescribes. Order, active id and all other records are unchanged, and the invariant is kept. |

## Left out

- Page setup, CSS, `render_message`, the sidebar widgets and `st.rerun` are left out: they are presentation only.
  The quick-action buttons (476-492) are left out because they only reassign a local variable and never submit.
- The settings update (333-338) is not modelled: the model, personality and temperature come from widgets. The
  record carries those three fields, and the turn reads them.
- The OpenAI client and its network calls are not modelled. A streamed call becomes the deltas it delivers before
  any fault and the text of the exception it raises. Rendering that raises during the stream becomes
  `displayFault`.
- `get_response` (the non-streaming call) is not modelled: the page never calls it, and it is only a network call
  with the same error-as-text policy.
- `uuid.uuid4`, `datetime.now` and `os.getenv`/`load_dotenv` become parameters: a fresh id, an opaque timestamp
  string and optional environment values.
- JSON encoding and decoding are not modelled, so `export_conversation` (a `json.dumps` of the stored record) is
  left out. Import receives the parsed record, or `None` when parsing failed. A parsed value with missing keys or
  another shape cannot be represented; the page would store it anyway.
- Temperature is carried as an opaque `real` and never computed with. The slider and floating point are left out.
- A re-run of `initialize_session_state` on an already initialised session is a no-op and is not modelled. The
  `chatbot` session slot and the early returns of `main` (417-424) are not modelled either. Those returns happen
  when no client is configured, or when the active id is empty, which a `uuid4` string never is.
- The `if st.session_state.conversations:` guard of "Clear All Chats" (400) is not a branch in the model. The
  store is never empty, so the guard always holds.
- The incremental display of partial text (the `"▌"` cursor) and any concurrency between sessions are left out.
- The page only reaches the chat turn after the settings panel (295-338) has run for the same active conversation.
  There, line 319 raises `ValueError` for a personality that is not a key, and lines 334-338 rewrite the
  personality to a key. So the `KeyError` of line 510 never happens: `Turn`'s `UnknownPersonality` outcome
  models a branch of the turn block that the page does not take, and every non-blank turn the page performs
  appends exactly two messages (`TurnAppendsMessages`).
- The stored `title` is never shown by the page: the page recomputes the title from the messages when it displays
  them. The model keeps the stored field as the code writes it.
