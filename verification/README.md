# Discord ↔ Revolt relay: a Dafny model of the routing core

This project models the decision logic of a chat relay that copies messages between paired
Discord and Revolt channels ("bridges"). Each author can have per-bridge identity overrides
("masquerades"). The model covers the Revolt bot (`server/bot/revolt.ts`) and the relay
wiring (`server/bot/bridge.ts`). These are pure functions over small immutable datatypes.
Every storage read, client lookup and network outcome is an input value.

Modules:

- `Wrappers`: `Option` (TypeScript's `undefined`/`null`) and `Result` (a promise that
  resolves or rejects).
- `Js`: the JavaScript semantics the code relies on:
  - truthiness of optional strings;
  - the `||` fallback, where an empty string falls through;
  - template interpolation, where an undefined value renders as the text `undefined`;
  - `split('\n')[0]`.
- `Seqs`: `Array.prototype.find`.
- `Logs`: log records (level, message, boolean metadata flags), counting records per level,
  `createLog` (appending to the store) and `clearErrorLogs`.
- `Shared`: the bridge, masquerade and settings rows, and the `sendMessage` options bag.
- `RevoltBot`:
  - the ready flag and the client events that drive it;
  - `sendMessage` (ready gate, channel check, masquerade object, reply quote, warning on a
    failed reply fetch);
  - the inbound `message` filter (drops bot authors, then runs the callback with the first
    enabled bridge on the message's channel).
- `BridgeRelay`:
  - the shared identity rule;
  - both directional handlers, with the Revolt avatar URL, reply-id extraction and content
    default;
  - the one closing record each relay attempt writes;
  - `initializeBridge` with its token guard and error-log clearing.
- `Scenarios`: concrete relays through the Discord-to-Revolt handler.

A handler invocation is a single step. The log is a sequence of records that steps append to.
A relay result says which send request was issued (if any), every record appended, and
whether an error escaped.

Behaviours of the code that the model reproduces as written:

- A failing `clearErrorLogs` is not best-effort. The outer `catch` of `initializeBridge` turns
  it into one "Failed to initialize bridge" error record, and no success record is written.
  The bots stay constructed and both handlers stay registered.
- A failing masquerade lookup drops the message with one "Failed to relay" error record. The
  message is not sent under the native identity instead.
- Name and avatar fall back to the native values field by field. A masquerade row with only
  a username keeps the author's own avatar, so the identity mixes the two sources.
- When the replied-to message is fetched, the Revolt bot both sets `replies` and prepends a
  quote line. The structural reply and the quoted preview appear together.
- The quote interpolates `replyMessage.author?.username` and
  `replyMessage.content?.split('\n')[0]` directly. A missing author or content renders as
  `undefined` in the quote line (`Js.Render`).
- A failed send in the Discord-to-Revolt direction writes two error records. The Revolt bot
  writes one ("Failed to send Revolt message", or the not-ready record), then the handler
  writes its own "Failed to relay" record. A failed masquerade read writes only the handler's
  record, because nothing is sent (`BridgeRelay.FailedSendTwoErrors`).
- The reply id a Discord message carries is a Discord message id, but the Revolt bot looks
  it up in the Revolt channel with `getMessage`. In that direction the fetch normally finds
  nothing or is rejected, so a quoted, linked reply (`Fetched`) is the exception there. The
  model keeps all three fetch outcomes as inputs and does not decide which one occurs.

## Model

| member | source | states |
|---|---|---|
| `Js.Or` | server/bot/bridge.ts:55-56 | `a \|\| b`: the result is the left operand when it is a non-empty string and the right operand exactly when the left is empty or missing; it is truthy iff either operand is |
| `Js.FirstLine` | server/bot/revolt.ts:114 | `split('\n')[0]` is a prefix of the text, holds no line feed, and stops exactly at the first line feed |
| `Js.Render` | server/bot/revolt.ts:114 | a template literal renders a present value verbatim and an undefined one as the single-line text `undefined` |
| `Js.SplitJoin` | server/bot/revolt.ts:114 | splitting `a + "\n" + b` at the first line feed gives back `a` and `b` when `a` is a single line |
| `Seqs.Find` | server/bot/revolt.ts:168 | `find` returns an element iff one satisfies the predicate, and then the first one in order |
| `Logs.ClearErrors` | server/bot/bridge.ts:126 | clearing removes every error record and keeps every other record with its multiplicity |
| `Logs.Write` | server/bot/bridge.ts:128-132 | writing records keeps the store as a prefix and appends exactly those records in order; counts per level and the multiset of records add up |
| `Logs.WriteOne` | server/bot/bridge.ts:128-132 | writing one record keeps the store as a prefix, puts the record last, and raises exactly its own level's count by one |
| `Logs.ClearErrorsNoOp` | server/bot/bridge.ts:126 | clearing a store without error records changes nothing |
| `Logs.ClearErrorsIdempotent` | server/bot/bridge.ts:126 | clearing twice is the same as clearing once |
| `RevoltBot.Create` | server/bot/revolt.ts:9-47 | a new bot is not ready and has written only two info records |
| `RevoltBot.OnEvent` | server/bot/revolt.ts:20-56 | `ready` sets the flag; `error` and a rejected login leave it unchanged; each event writes one record, an error record iff it is not `ready` |
| `RevoltBot.RunEvents` | server/bot/revolt.ts:20-40 | a run of events writes one record per event and never clears the ready flag |
| `RevoltBot.ReadyIffReadySeen` | server/bot/revolt.ts:20-40 | after any run of events the bot is ready iff it was ready before or a `ready` event occurred |
| `RevoltBot.ReadyAfterStartup` | server/bot/revolt.ts:9-40 | from construction the bot is ready iff some `ready` event has arrived |
| `RevoltBot.MasqueradeFor` | server/bot/revolt.ts:102-105 | the masquerade object exists iff the username is non-empty and then carries it as `name`; its avatar is present iff the avatar URL is non-empty, and is that URL |
| `RevoltBot.Excerpt` | server/bot/revolt.ts:114 | `content?.split('\n')[0]` is undefined iff the content is, and otherwise the whole first line: a prefix without a line feed that stops only at a line feed or at the end |
| `RevoltBot.ReplyPreview` | server/bot/revolt.ts:114 | the preview starts with the `> **` quote marker and ends with a line feed followed by the relayed content |
| `RevoltBot.WithReply` | server/bot/revolt.ts:108-125 | one warning record iff a reply id is given and the fetch is rejected, and no other record. Content and `replies` change iff a reply id is given and the message was fetched, to the preview and `[id]` |
| `RevoltBot.PreviewRoundTrip` | server/bot/revolt.ts:114 | the reply preview's first line is `> **{author}:** {excerpt}` and the rest is the relayed content verbatim |
| `RevoltBot.SendMessage` | server/bot/revolt.ts:67-149 | not ready: fails with "Revolt bot not ready", one error record, nothing sent. Missing or unsendable channel: fails, one error record, nothing sent. Otherwise: the masquerade is present iff a username is given, with the avatar only when non-empty. Quote and `replies = [id]` appear only when the replied-to message was fetched. A failed fetch means one warning and unchanged content. Exactly one error record on failure and none on success. The last record is an error iff the call fails |
| `RevoltBot.SendLogs` | server/bot/revolt.ts:88-146 | past the channel check a send writes at least one record. The warnings are the reply step's and no new one is added. One error record is added iff the delivery fails, and the last record is the success record (with `isReply`) or the failure record |
| `RevoltBot.Submit` | server/bot/revolt.ts:88-148 | after the channel check: the message is submitted and the outcome is the delivery's. Masquerade, quote and warning as for `sendMessage`. One error record iff the delivery fails, and it is the last record |
| `RevoltBot.BridgeFor` | server/bot/revolt.ts:168 | a bridge is found iff some bridge is enabled and on the message's channel, and then it is the first such bridge |
| `RevoltBot.HandledLogs` | server/bot/revolt.ts:155-187 | a message that found its bridge writes the "Received" and "Processing" info records, then the callback's records verbatim, then one error record iff the callback threw |
| `RevoltBot.OnMessage` | server/bot/revolt.ts:151-189 | bot authors are dropped with no record. The callback runs iff an enabled bridge matches the channel, and with the first such bridge. A failed storage read or a throwing callback becomes exactly one caught error record |
| `BridgeRelay.ResolveIdentity` | server/bot/bridge.ts:46-56 | with no masquerade row for the author the native name and avatar are used. Otherwise the first row's non-empty fields win, and each empty field falls back to the native value |
| `BridgeRelay.MasqueradePrecedence` | server/bot/bridge.ts:55-56 | a matching row with both fields set overrides the native identity, whatever it is |
| `BridgeRelay.MasqueradeOf` | server/bot/bridge.ts:90 | the lookup finds a row iff some row belongs to the author, and then the first such row |
| `BridgeRelay.InlineIdentityAgrees` | server/bot/bridge.ts:90-102 | the find-then-`\|\|` code in the handlers computes the shared identity rule |
| `BridgeRelay.RevoltAvatarUrl` | server/bot/bridge.ts:84-87 | the URL exists iff the author has an avatar asset id; it is the Revolt avatar base path followed by that id |
| `BridgeRelay.FirstReplyId` | server/bot/bridge.ts:95 | the reply id is the first element of `reply_ids`, and absent when the list is missing or empty |
| `BridgeRelay.ContentOrEmpty` | server/bot/bridge.ts:99 | a missing Revolt content is sent as the empty string; a present one verbatim |
| `BridgeRelay.DiscordRequest` | server/bot/bridge.ts:45-59 | the Discord handler sends to the bridge's Revolt channel, with the content and reference id verbatim and the shared identity rule |
| `BridgeRelay.RevoltRequest` | server/bot/bridge.ts:84-105 | the Revolt handler sends to the bridge's Discord channel, with the defaulted content, the first reply id and the shared identity rule |
| `BridgeRelay.DirectionParity` | server/bot/bridge.ts:41-124 | both directions resolve identity with one rule and pass reply ids through. Messages with the same neutral view yield the same send options and content |
| `BridgeRelay.Concluding` | server/bot/bridge.ts:61-77 | the handler's closing record is info (with `isReply` set iff a reply id is truthy) iff the send succeeded, and error with the failure message iff it failed |
| `BridgeRelay.DiscordToRevolt` | server/bot/bridge.ts:41-78 | a disabled bridge or missing Revolt bot means no send and no record. A failed masquerade read means one error record. Otherwise the Revolt bot's records are followed by exactly one own record: info with `isReply` on success, error on failure. Nothing is thrown |
| `BridgeRelay.FailedSendTwoErrors` | server/bot/bridge.ts:46-77 | once the masquerades are read, a relay whose Revolt send fails leaves exactly two error records and a successful one leaves none |
| `BridgeRelay.RevoltToDiscord` | server/bot/bridge.ts:80-124 | a disabled bridge, missing Discord bot or missing author means no send and no record. Otherwise the same as the Discord direction: exactly one own closing record, nothing thrown |
| `BridgeRelay.RevoltInbound` | server/bot/revolt.ts:151-189 | end to end, an inbound Revolt message has an error caught iff it is not from a bot and the bridge read failed. A bridge is selected iff some enabled bridge serves the channel. The error records are then exactly the relay handler's |
| `BridgeRelay.NoSelfLoop` | server/bot/revolt.ts:153 | a Revolt message from a bot selects no bridge and writes no record, so it is never relayed |
| `BridgeRelay.RelayFailureContained` | server/bot/bridge.ts:107-123 | once bridges are read, the inbound filter never catches anything from the relay. A failed Discord send adds exactly one error record beyond the Discord bot's own |
| `BridgeRelay.InitializeBridge` | server/bot/bridge.ts:11-141 | both bots are constructed and handlers registered iff both tokens are non-empty. Errors are cleared only after registration. On success no error record remains, info records grow by exactly four, and the last record is the success record. On every other path the earlier records stay and exactly one error record is appended last |
| `BridgeRelay.StartupSurvivesClearing` | server/bot/bridge.ts:15-39 | the startup records are error-free, so clearing after them keeps each of them with its multiplicity |
| `BridgeRelay.InitializeKeepsRecords` | server/bot/bridge.ts:11-132 | after a successful initialization each record occurs exactly as often as before (none if it is an error record) plus its occurrences among the startup records and the success record |
| `BridgeRelay.Conclude` | server/bot/bridge.ts:126-140 | after registration: a successful clearing leaves no error record, keeps every other record with exactly its multiplicity, adds the success record once and ends with it; a rejected clearing keeps the store and adds exactly one error record, last |
| `Scenarios.PlainRelay` | server/bot/bridge.ts:41-69 | without masquerades a Discord "hello" from alice is sent to the paired Revolt channel as alice, with no reply id |
| `Scenarios.MasqueradedRelay` | server/bot/bridge.ts:46-56 | a masquerade row naming the author "Al" renames the post and keeps the native avatar |
| `Scenarios.ReplyFetchFails` | server/bot/revolt.ts:108-127 | a reply whose original cannot be fetched is still sent, unquoted and unlinked, with one warning |

## Left out

- The revolt.js and discord.js clients, `loginBot`, and the event-emitter wiring. An event
  is one application of `RevoltBot.OnEvent`. A registered handler is a function applied to
  one message.
- `server/bot/discord.ts` is not part of this model. The Discord bot is only its presence
  plus the report of its `sendMessage` (outcome and records). Its constructor's records, its
  inbound filter and its bridge lookup are not modelled. The Discord-to-Revolt handler starts
  from the bridge that filter selected.
- Async scheduling and handlers running concurrently. Each handler invocation is one
  sequential step. The module-level bot singletons become explicit parameters.
- Which log store is written. The Revolt bot writes to the module singleton `storage`
  imported in `server/bot/revolt.ts`, while `initializeBridge` writes to the store passed
  as its parameter. The model assumes they are the same store and keeps one sequence.
- Repeated calls of `initializeBridge`. The bot singletons and the handlers registered
  on them are never disposed, so an earlier call's bots and handlers stay live after a
  later call. `BridgeRelay.InitializeBridge` models one call on fresh module state and
  describes only the bots constructed by that call.
- Storage. `getSettings`, `getBridges`, `getMasquerades` and `clearErrorLogs` are input
  outcomes. The log store is a sequence of records.
- Timestamps, and metadata other than the boolean flags (`isReply`, `hasUsername`, token
  presence). Error messages inside metadata are dropped.
- The network fetch of the replied-to message and the delivery itself. Both are input
  outcomes of `RevoltBot.SendEnv`.
- The synchronous `catch` around `loginBot` in the Revolt bot constructor. A rejected login
  arrives later as the `LoginRejected` event.
