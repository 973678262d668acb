# Career-counsellor chat: a verified model of the chat core

The application is a chat service where signed-in users talk to a career-counselling
assistant. It keeps conversation sessions and their messages per user. A streaming
subscription relays the assistant's reply fragment by fragment and stores the finished
exchange. The first exchange of a fresh "New Chat" session also gives it a generated title.

The model covers four parts of the code:

- `Trpc` (trpc.dfy) covers the request context and the `enforceUserIsAuthed` guard.
  - A session lookup that throws degrades to an anonymous context.
  - Every protected procedure runs only when the context has a session with a user.
    Otherwise it fails with `UNAUTHORIZED`.
- `Title` (title.dfy) is `generateSessionTitle`. It is written identically in both
  adapters, so it is defined once. It contains:
  - `split(" ")`, `slice(0, 6)` and `join(" ")`, modelled exactly;
  - the cut to 47 characters plus `...` when the result is longer than 50;
  - the "Career Discussion" fallback when the result is shorter than 10.
- `Gemini` (gemini.dfy) covers the two adapters' history construction and the
  streaming generator.
  - The generator drops empty chunks.
  - It reports any failure with one fixed message. That includes having no last
    message to send.
  - The SDK is a parameter: `service` maps a request to the finite stream the model
    would produce.
- `Chat` (chat.dfy) is the router, as a `ChatStore` class.
  - The store holds session rows, kept most recently updated first, and message rows,
    kept in creation order.
  - A monotone `clock` stands for `new Date()`, and a counter issues row identifiers.
  - Each procedure runs the guard, then the input schema, then the ownership lookup
    where there is one, then the effect. Each method applies the guard itself, by calling
    `EnforceUserIsAuthed`. `RunProtected` states the same wrapping generically.
  - `streamResponse` is relayed against an abstract `service`. Asked over the history,
    it either throws before any stream exists (`Threw`) or hands back the stream of
    fragments and how it ended (`Opened`).

`Wrappers` holds `Option`/`Result`. `Seqs` holds a generic filter, a pairwise-order
predicate (`Chain`) and string concatenation, with their lemmas.

The store's invariant `Valid()` states:

- sessions are strictly ordered by `updatedAt`, and their ids are pairwise distinct;
- messages are strictly ordered by `createdAt`;
- every timestamp is at most the clock, and every id is below the counter;
- every session whose title the relay generated has messages.

The last point is what makes an automatic title happen at most once per session. A
turn retitles only a session with no earlier messages, and the store records that it
did so.

## Model

| member | source | states |
|---|---|---|
| Trpc.CreateContext | src/server/api/trpc.ts:9-25 | A lookup that throws gives a context whose session is null, so it is unauthenticated. A resolved lookup's session, or null, is passed through unchanged. |
| Trpc.EnforceUserIsAuthed | src/server/api/trpc.ts:44-53 | Fails exactly when there is no session or the session has no user. The error is `UNAUTHORIZED`. On success the procedure sees that same session and user. |
| Trpc.RunProtected | src/server/api/trpc.ts:55 | An unauthenticated call yields `UNAUTHORIZED` whatever the procedure. An authenticated one yields the procedure's result on the guard's context. The store's methods apply the same guard themselves, through `EnforceUserIsAuthed`. |
| Trpc.FailedLookupIsUnauthorized | src/server/api/trpc.ts:18-24 | A context built after the session lookup threw lets no protected procedure run. |
| Title.Split | src/lib/ai/gemini.ts:74 | `split(" ")` always yields at least one segment. |
| Title.SplitHasNoSpaces | src/lib/ai/gemini.ts:74 | No segment of `split(" ")` contains a space. |
| Title.Join | src/lib/ai/gemini.ts:75 | `join(" ")` of at least one segment starts with the first segment. |
| Title.JoinSplit | src/lib/ai/gemini.ts:74-75 | Joining the segments with single spaces gives back the original string (round trip). |
| Title.JoinedSegmentsArePrefix | src/lib/ai/gemini.ts:74-75 | Joining any first k segments gives a prefix of the string. |
| Title.FirstWords | src/lib/ai/gemini.ts:74-75 | The first six segments, joined again, are a prefix of the first message. |
| Title.FirstWordsSpaces | src/lib/ai/gemini.ts:74-75 | The joined first six segments hold at most five spaces. A message with at most six segments is kept whole. |
| Title.GenerateSessionTitle | src/lib/ai/gemini.ts:73-86 | Every generated title is 10 to 50 characters long. |
| Title.TitleCases | src/lib/ai/gemini.ts:74-85 | Three cases. The first six words of length 10..50 are the title and a prefix of the message. Longer words are cut to their first 47 characters plus `...`, exactly 50 characters, and that part is a prefix of the message. Words shorter than 10 give "Career Discussion". |
| Title.TitleComesFromMessage | src/lib/ai/gemini-new.ts:79-93 | Every title is a prefix of the message, or a 47-character prefix followed by `...`, or the fallback title. |
| Gemini.SdkRole | src/lib/ai/gemini.ts:50 | The SDK role is "user" exactly for the stored role "USER" and "model" for every other role. |
| Gemini.ToTurns | src/lib/ai/gemini.ts:49-52 | One turn per message, in order. Each turn's role is "user" for a "USER" message and "model" for any other, and its only text part is the message's content. |
| Gemini.StartChat | src/lib/ai/gemini.ts:35-57 | Fails, with the fixed connection error, exactly when there are no messages. Otherwise the history is the prompt turn, the greeting turn, then `ToTurns` of every message but the last: "user" for "USER", "model" for any other role. The last message's content is sent on its own. |
| Gemini.NewHistory | src/lib/ai/gemini-new.ts:44-59 | The greeting turn followed by `ToTurns` of every message: "user" for "USER", "model" for any other role. |
| Gemini.AdaptersAgree | src/lib/ai/gemini-new.ts:44-59 | After its prompt turn, the streaming adapter's history is the other adapter's history without its final turn. That final turn carries exactly the message the streaming adapter sends separately. |
| Gemini.NonEmptyConcat | src/lib/ai/gemini.ts:59-64 | Dropping empty chunks does not change the concatenated text. |
| Gemini.GenerateStream | src/lib/ai/gemini.ts:29-71 | With no messages, nothing is yielded and the stream fails with the connection error. Otherwise it yields the upstream's non-empty chunks in order and spells the same text. It ends normally exactly when the upstream does, and otherwise fails with the connection error. |
| Chat.Caller | src/server/api/routers/chat.ts:23 | A caller id exists exactly when the guard passes, and it is the session user's id. |
| Chat.Owned | src/server/api/routers/chat.ts:40-42 | `where: { userId }` keeps exactly the caller's rows. |
| Chat.MessagesOf | src/server/api/routers/chat.ts:82-88 | A session's messages are exactly the message rows with that session id. |
| Chat.FindFirst | src/server/api/routers/chat.ts:77-81 | A found row has the asked id and owner. Nothing is found exactly when no row has both. |
| Chat.LimitOf | src/server/api/routers/chat.ts:33-34 | The page size is the given limit when one is given and 20 when none is, always within 1..100. |
| Chat.NotFoundIffMissingOrForeign | src/server/api/routers/chat.ts:77-96 | `Session not found` happens exactly when the id names no row or names another user's row. |
| Chat.Window | src/server/api/routers/chat.ts:47 | Without a cursor the window is all the caller's rows. With one, it is a suffix of them that starts at the cursor row, and it is empty exactly when no row has the cursor's id. |
| Chat.FindMany | src/server/api/routers/chat.ts:39-55 | At most `take` rows, a prefix of the window, and the whole window when fewer come back. Every row is a stored row of the caller. |
| Chat.FindManyOrdered | src/server/api/routers/chat.ts:43-45 | With the store ordered, the rows come back in `updatedAt`-descending order. |
| Chat.NextPageStartsAtCursor | src/server/api/routers/chat.ts:57-61 | With distinct ids, using the popped row's id as the next cursor yields exactly the rows the page left out. |
| Chat.PopExtraRow | src/server/api/routers/chat.ts:57-61 | When the look-ahead row comes back, popping it leaves the first `limit` rows, still ordered and still the caller's. The next page starts at the popped row. |
| Chat.Paginate | src/server/api/routers/chat.ts:39-66 | The page is the first `limit` rows of the window (at most `limit`, ordered, the caller's). `nextCursor` is present exactly when more rows remain, and then names the first row of the next page. |
| Chat.Retitle | src/server/api/routers/chat.ts:214-217 | The same rows in the same order. The row with the id gets the new title, every other title is kept, and no id, owner or timestamp changes. |
| Chat.RetitleKeepsOrder | src/server/api/routers/chat.ts:214-217 | Renaming a row keeps the store's order and distinct-id invariants. |
| Chat.RetitleFinds | src/server/api/routers/chat.ts:214-217 | After renaming, the lookup finds the renamed row. Every other row is unchanged and still present. |
| Chat.FindFirstUnique | src/server/api/routers/chat.ts:200-205 | When only one row has the id, the lookup returns that row. |
| Chat.MessagesOfAppend | src/server/api/routers/chat.ts:287-293 | Appending a message extends exactly its own session's message list. |
| Chat.ToEntries | src/server/api/routers/chat.ts:296-300 | One entry per message, in order, with the message's content. The role is "USER" exactly for a user message. |
| Chat.ToEntriesAppend | src/server/api/routers/chat.ts:296-300 | The `{ role, content }` history of the earlier messages plus the new one is the earlier history plus the new entry. |
| Chat.Forward | src/server/api/routers/chat.ts:305-311 | Every fragment is forwarded in order, and `fullResponse` is their concatenation. |
| Chat.TurnEffect | src/server/api/routers/chat.ts:286-357 | The specification `RelayTurn` meets. A turn only appends messages, one when it fails and two when it completes. A service that throws ends the turn with `Failed to process stream` and forwards nothing. The history sent is the prior messages plus one. At most this session joins the auto-titled set. The clock advances one tick and one id is issued on failure, and three ticks and two ids on completion. |
| Chat.ThrowingServiceFailsTurn | src/server/api/routers/chat.ts:303-364 | When obtaining the stream throws, exactly the user message is added, nothing is forwarded, sessions and titles are unchanged, and the turn ends with "Failed to process stream". |
| Chat.FinishedStreamStoresReply | src/server/api/routers/chat.ts:307-347 | With a stream that ends normally, the turn completes after forwarding exactly its fragments. The user message and then the assistant message holding their concatenation are appended. |
| Chat.RelayTitle | src/server/api/routers/chat.ts:327-338 | A session with no earlier messages, still titled "New Chat", gets the generated title. Every other session keeps its title. A generated title never qualifies for retitling again. |
| Chat.ChatStore.CreateSession | src/server/api/routers/chat.ts:13-28 | The guard fails with `UNAUTHORIZED` and changes nothing. Otherwise the store gains a new "New Chat" session of the caller, with a fresh id and created/updated at the next tick, placed first. The clock and the id counter each advance by one. The optional inputs are ignored. |
| Chat.ChatStore.GetSessions | src/server/api/routers/chat.ts:31-67 | Checks the guard first, then the limit. A page holds at most `limit` rows, in order, all the caller's. `nextCursor` is present exactly when more rows remain, and re-querying with it gives exactly the remaining rows. |
| Chat.ChatStore.GetSession | src/server/api/routers/chat.ts:70-99 | Returns the caller's session exactly when it exists and is theirs, otherwise `Session not found`. The returned messages are exactly that session's messages, oldest first. |
| Chat.ChatStore.UpdateSessionTitle | src/server/api/routers/chat.ts:192-218 | Checks the guard, then a title of 1..100 characters, then ownership, each failure changing nothing. On success only that row's title changes, and the returned row is what a later lookup finds. |
| Chat.ChatStore.DeleteSession | src/server/api/routers/chat.ts:221-247 | Checks the guard, then ownership. On success exactly the rows with that id are removed, it is not found for any user afterwards, and `{ success: true }` is returned. |
| Chat.ChatStore.CreateMessage | src/server/api/routers/chat.ts:287-293 | A new message row with the next id and tick is appended, extending its session's message list by exactly that row. |
| Chat.ChatStore.TouchSession | src/server/api/routers/chat.ts:332-344 | The update sets the title and `updatedAt` to the next tick. The row moves to the front of the most-recently-updated order and nothing else changes. |
| Chat.ChatStore.Finish | src/server/api/routers/chat.ts:315-345 | The assistant message holds the accumulated text. The session is retitled with the generated title exactly when it had no earlier messages and is titled "New Chat". Otherwise it is only touched. Two ticks pass and one id is issued. |
| Chat.ChatStore.StreamResponse | src/server/api/routers/chat.ts:250-370 | Checks the guard, then content of 1..2000 characters, then ownership. Each failure changes nothing and forwards nothing. Otherwise the turn has exactly the effect described under `RelayTurn`. |
| Chat.ChatStore.RelayTurn | src/server/api/routers/chat.ts:286-357 | The user message is stored first, and the service is asked over the prior messages plus it. A service that throws ends the turn with `INTERNAL_SERVER_ERROR` "Failed to process stream". Otherwise every fragment is forwarded. On a throw or an upstream error only the user message persists. On completion the assistant message is stored and the session retitled or touched. A session is auto-titled at most once. |
| Chat.ChatStore.Complete | src/server/api/routers/chat.ts:315-347 | The completion branch of the turn, stated in terms of the store before the turn began. |

## Left out

- Database failures are not modelled. The in-memory store never fails, so the
  `Failed to save assistant message` path (src/server/api/routers/chat.ts:348-355) does
  not arise. The `Failed to process stream` catch (src/server/api/routers/chat.ts:358-364)
  is reached here only by a throw from obtaining or subscribing to the stream
  (src/server/api/routers/chat.ts:303-307). That is the service's `Threw` answer, and the
  user message stays stored. The same catch would also take a failing lookup or user-message
  insert, which is not modelled.
- Asynchrony is not modelled: no concurrency, no interleaving of two subscriptions on
  one session, and no unsubscribe or cancellation. The upstream stream is a finite
  sequence of fragments followed by its end.
- The SDK calls (`getGenerativeModel`, `startChat`, `sendMessageStream`,
  `chats.create`, `generateContent`) are not modelled. They and the network are the
  `service` parameter.
- The router imports `getChatResponseStream`, which src/lib/ai/gemini.ts does not
  export. The one streaming function there is `getChatResponseStreamGenerator`. The
  relay is therefore modelled over an abstract `service`, and the generator is modelled
  separately.
- `getChatResponse` in gemini-new.ts is modelled only as far as its `history`. Past that
  point it calls `model.generateContent` (src/lib/ai/gemini-new.ts:62), but no `model` is
  defined, so that call throws. The catch (src/lib/ai/gemini-new.ts:66-70) then rethrows
  the fixed "Sorry, I'm having trouble connecting…" error. The `return response.text()` at
  line 65 is never reached, so the function always fails with that message.
- The router also imports `getChatResponse`, which src/lib/ai/gemini.ts does not define
  (src/server/api/routers/chat.ts:4). It is used only in the commented-out `sendMessage`
  (src/server/api/routers/chat.ts:101-189), which is not modelled.
- Chat.ChatStore.RelayTurn: an upstream error is reported as `INTERNAL_SERVER_ERROR`
  carrying the upstream message. What the transport would add on top of `emit.error(error)`
  is not modelled.
- The relay does not fix which `service` is used. As written, the router calls
  `getChatResponseStream` (src/server/api/routers/chat.ts:6, 303), which the adapter does
  not define. Every turn then stores the user message and ends with
  `Failed to process stream`, which is the `Threw` case (see "## Findings"). If the missing
  export already stops the module from loading, no procedure runs at all, and that is not
  modelled.
- Identifiers are natural numbers issued by a counter, not cuid strings. As a result,
  the empty-string cursor that `input.cursor ? … : undefined` would ignore does not exist here.
- The cursor is modelled as inclusive: the page starts at the cursor row. A cursor that
  names none of the caller's rows yields an empty page. How the database treats a cursor
  row that belongs to another user is not modelled.
- `getSessions` also returns `_count.messages` for each session. That derived count is
  not modelled.
- Chat.ChatStore.GetSessions: the limit is an integer. Zod would also accept a
  fractional number in 1..100, which the database would then reject, and that path is
  not modelled.
- Schema rejections are one `BAD_REQUEST` error. Zod's own message text and field
  details (the `zodError` of the error formatter, trpc.ts:29-37) are not modelled.
- String lengths are counted in characters. JavaScript counts UTF-16 code units, so a
  character outside the Basic Multilingual Plane counts once here and twice there. This
  affects the 2000-character, 100-character, 50-character and 10-character limits.
- Chat.ChatStore.DeleteSession removes only the session row. The database schema, and
  so any cascade to the session's messages, is not part of this model. The messages stay
  but no procedure can reach them.
- Chat.ChatStore.UpdateSessionTitle leaves `updatedAt` unchanged, because the update
  only sets `title`. An automatic `@updatedAt` bump, if the schema declares one, is not
  modelled.
- `updatedAt` changes only when a turn completes, as the router does. A message stored
  by a turn that then fails does not touch its session.
- The wording of the persona prompt and the greeting is held symbolically, as
  `Gemini.Persona` and `Gemini.Greeting`, and `Gemini.Wording` gives their verbatim
  text. No proof depends on the wording.
- Console logging is not modelled.

## Findings

| source | as written | input that shows it | evidently intended | confidence | as-written member | corrected member |
|---|---|---|---|---|---|---|
| src/server/api/routers/chat.ts:6 | The stream source is `getChatResponseStream`, which src/lib/ai/gemini.ts does not define, so the call at line 303 throws and the catch at lines 358-364 answers. | Any `streamResponse` that passes the guard, the schema and the ownership lookup. | Call `getChatResponseStreamGenerator` (src/lib/ai/gemini.ts:29) and relay its chunks. | medium, not executed; depends on the missing import resolving to `undefined` rather than failing the build | Chat.ThrowingServiceFailsTurn | Chat.FinishedStreamStoresReply |
