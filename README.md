# Autosupport bot: intent gating, response resolution and confinement

This project models the two decision engines of a Discord moderation-and-support bot.

- **Autosupport dispatcher** (`src/autosupport.ts`). Given a message, it picks the Wit.ai intent with the highest confidence. The intent counts only if that confidence is at least 0.95. The reply is the guild's canned response to that intent, trimmed, followed by a footer naming the intent and its confidence. In dev mode, the responses of every guild are merged (later guilds win), and the first configured Wit.ai token is used.
- **Confinement command** (`src/commands/context/_confine.ts`). A moderator picks one of three durations for a guild member. The guild's confinement role is granted, and a record saying when the confinement ends is stored under the member's id.

Modules follow the program:

- `Config` (config.dfy): the global `config` and the per-guild `responseCache`. Each is an insertion-ordered list of entries, because a JavaScript `Map` iterates in insertion order.
- `JsString` (jsstring.dfy): `trim`, using exactly the ECMAScript white-space and line-terminator code points, and `startsWith`.
- `JsNumber` (jsnumber.dfy): `Number(...)`, only for whole-valued exponent-form literals such as the duration menu's values.
- `AutoSupport` (autosupport.dfy): intent selection is pure functions and lemmas. `getResponse` is the method `GetResponse`. The dev-mode nested loops are the method `AggregateResponses`, proved equal to the recursive `Aggregated`.
- `Confine` (confine.dfy): the command is a transition function `Step` over a `State`, plus lemmas about single steps and about whole runs (`Run`). The class `ConfineCommand` holds `confinementCache`, the target's role set, the phase and the prompt. It has one method per event, and each method's new state is `Step` of its old state.

Foreign calls become inputs:

- Tesseract's recognised text is `ocr`; None means it threw.
- Wit.ai's intent list is `nlu`; None means the client or the call threw.
- `toFixed(2)` is the function parameter `toFixed2`.
- The outcome of `roles.add` is `Grant`. Whether `interaction.reply` resolved is `replied`.
- The clock is the `now` of each event. A select also carries `settledAt`, the `Date.now()` read once `roles.add` has resolved. It may fall after the 10-second deadline that the component itself beat.

What a dispatch asks of OCR and Wit.ai is part of its result (`Dispatch`), so the model can say when no call is made.

Four points of the code are easy to misread; the model follows the code as written:

- **Tie-break.** The reducer keeps `prev` only when it is strictly more confident. Among equally confident maxima, the **last** one in delivered order is selected, not the first (`ReduceSelectsLastMaximum`, `TieSelectsLater`).
- **OCR failure.** There is no local handler around the OCR calls. An OCR exception therefore ends the whole dispatch at the outer `catch`: no Wit.ai call and no reply. It does not carry on with empty image text.
- **Start guard.** `interaction.isUserContextMenuCommand` is read as a method reference and never called. It is always truthy, so that guard never returns.
- **Duration label.** The option labelled "1 hour" has the value `'10e3'`, which is 10000 ms (10 seconds). The model keeps the value as written (`HourValue`).

## Model

| member | source | states |
|---|---|---|
| `AutoSupport.Reduce` | src/autosupport.ts:11-13 | The reduction over a non-empty list returns one of its candidates, and that candidate is at least as confident as every candidate. |
| `AutoSupport.ReduceSelectsLastMaximum` | src/autosupport.ts:11-13 | The reduction returns the candidate at the unique position that is maximal and strictly more confident than every later candidate. Ties go to the later candidate. |
| `AutoSupport.HighestConfidenceIntent` | src/autosupport.ts:6-18 | An empty list selects nothing. A selected intent is in the list, is at least as confident as every candidate, and has confidence >= 0.95 (inclusive). Nothing is selected exactly when every candidate is below 0.95. |
| `AutoSupport.SelectedIsLastMaximum` | src/autosupport.ts:11-17 | A selected intent is the last of the most confident candidates. |
| `AutoSupport.TieSelectsLater` | src/autosupport.ts:11-17 | Of two equally confident candidates that clear the gate, the second is selected. |
| `AutoSupport.AggregatedUndefined` | src/autosupport.ts:53-64 | An intent name that no non-null guild configuration defines is absent from the dev-mode merge. |
| `AutoSupport.AggregatedLast` | src/autosupport.ts:53-64 | In the merge, an intent name has the value from the last guild, in cache order, that defines it. Null entries are skipped. |
| `AutoSupport.AggregateResponses` | src/autosupport.ts:53-62 | The nested loops that copy every guild's responses into one collection produce exactly the recursive merge `Aggregated`. |
| `AutoSupport.ResponseContent` | src/autosupport.ts:52-70 | The lookup code that fills `responseContent` in dev mode (via the merge) and in normal mode (via the own guild) yields exactly `ResolveResponse`. |
| `AutoSupport.ResolveResponse` | src/autosupport.ts:52-70 | Normal mode: the own guild's value for the intent, or "" when the guild is unconfigured or the intent is unmapped. |
| `AutoSupport.DevModeResponse` | src/autosupport.ts:55-64 | Dev mode: the response is the last defining guild's value, or "" if no guild defines the intent. |
| `AutoSupport.NormalModeIsolation` | src/autosupport.ts:65-70 | In normal mode, the response depends only on the message's own guild entry. |
| `AutoSupport.Reply` | src/autosupport.ts:72-75 | The reply is the trimmed response followed by the footer `"\n-# triggered intent <name> with <pct>% confidence"`, even when the response is empty. Both parts can be read back. |
| `AutoSupport.WitTokenKey` | src/autosupport.ts:37 | The token key: in dev mode, the first configured key, or none when no token is configured. In normal mode, the message's guild id. |
| `AutoSupport.GetResponse` | src/autosupport.ts:20-82 | See the rules below this table. |
| `AutoSupport.ExampleSelection` | src/autosupport.ts:11-17 | For candidates 0.97 and 0.3, the 0.97 intent is selected. |
| `AutoSupport.ExampleReply` | src/autosupport.ts:73 | The reply to "reset_password" with response "Visit /reset" and "97.00" is "Visit /reset" followed by the footer. |
| `Config.IndexOf` | src/autosupport.ts:66 | The first entry with the key, or -1 exactly when no entry has it. |
| `Config.Has` | src/commands/context/_confine.ts:23 | `responseCache.has`: true exactly when some entry has the guild's key, even one holding null. |
| `Config.Get` | src/autosupport.ts:66 | `responseCache.get`: the value of the first entry for the guild (None when that value is null), and None when no entry has the key. |
| `Config.AccessToken` | src/autosupport.ts:36-38 | A token is found only for a defined key that has an entry, and always for such a key. |
| `JsString.TrimStart` | src/autosupport.ts:73 | The result is a suffix of the input. Everything removed is white space, and the result does not start with white space. |
| `JsString.TrimEnd` | src/autosupport.ts:73 | The result is a prefix of the input. Everything removed is white space, and the result does not end with white space. |
| `JsString.Trim` | src/autosupport.ts:73 | `trim` never lengthens a string, and its result neither starts nor ends with white space. |
| `JsString.TrimIsInterior` | src/autosupport.ts:73 | `trim` keeps a contiguous slice and removes only white space on either side of it. |
| `JsString.TrimOfTrimmed` | src/autosupport.ts:73 | A string without white space at its ends is its own trim. |
| `JsString.TrimIdempotent` | src/autosupport.ts:73 | Trimming twice is trimming once. |
| `JsNumber.Scientific` | src/commands/context/_confine.ts:55 | `Number(s)` for `<digits>[.<digits>]e<digits>`: no value without an `e`; a value only when the text before the first `e` is a mantissa and the text after it is digits, so every character is a digit, `.` or `e`. |
| `Confine.MayStart` | src/commands/context/_confine.ts:18-23 | The start guards: in a guild, the target is a `GuildMember`, and dev mode is on or some cache entry has the guild's key. |
| `Confine.Step` | src/commands/context/_confine.ts:14-66 | The transition function of one run. A finished run ignores every event, and a step that ends in `Idle` changed nothing. The other rows state its paths. |
| `Confine.OptionsAreFixed` | src/commands/context/_confine.ts:25-31 | The menu offers every option, in order "1 hour", "1 day", "1 week", with values "10e3", "8.64e7", "6.048e8" and durations 10000, 86400000 and 604800000 ms. |
| `Confine.HourValue` | src/commands/context/_confine.ts:27 | The value "10e3" of the option labelled "1 hour" denotes 10000 ms. |
| `Confine.DayValue` | src/commands/context/_confine.ts:28 | The value "8.64e7" denotes 86400000 ms. |
| `Confine.WeekValue` | src/commands/context/_confine.ts:29 | The value "6.048e8" denotes 604800000 ms. |
| `Confine.ValuesDenoteMillis` | src/commands/context/_confine.ts:55 | `Number(value)` of every option is the duration the record adds. |
| `Confine.StartGuards` | src/commands/context/_confine.ts:18-36 | The wait starts iff the interaction is in a guild, the target is a `GuildMember`, dev mode is on or the guild is in `responseCache`, and `interaction.reply` resolved. When the guards fail, nothing changes. When the reply throws, the run ends with no prompt. On a start, the menu is shown with a 10,000 ms deadline. No path changes the records or roles. |
| `Confine.CommitEffect` | src/commands/context/_confine.ts:48-58 | The moderator's timely select with id "confinement_time" and a successful grant commits. See the rules below this table. |
| `Confine.NonCommitPaths` | src/commands/context/_confine.ts:38-62 | Each non-commit path changes neither records nor roles. See the rules below this table. |
| `Confine.OnlyCommitWrites` | src/commands/context/_confine.ts:46-62 | A step changes the records or the roles only if it is a commit. |
| `Confine.DoneIsFinal` | src/commands/context/_confine.ts:41-44 | After the single awaited component or the timeout, no further event changes anything. There is at most one commit per invocation. |
| `Confine.StepTouchesOnlyTarget` | src/commands/context/_confine.ts:49-56 | One event never changes the target once chosen. It changes at most the target's record. The roles either stay the same or gain the committed record's role. |
| `Confine.RunTouchesOnlyTarget` | src/commands/context/_confine.ts:49-56 | Over any sequence of events, the target never changes once chosen. Every other user's record is unchanged. The roles either stay the same or gain exactly the committed record's role. |
| `Confine.ConfineCommand.ContextMenuRun` | src/commands/context/_confine.ts:14-36 | The invocation changes the command's state exactly as `Step` does for `Invoke`, including the run that ends when `interaction.reply` throws. |
| `Confine.ConfineCommand.OnComponent` | src/commands/context/_confine.ts:38-59 | A component event changes the state exactly as `Step` does for `Select`: the filter, the delete, the custom-id check, then `roles.add` before `confinementCache.set`. |
| `Confine.ConfineCommand.OnTick` | src/commands/context/_confine.ts:41-44 | At the 10,000 ms deadline, the state changes exactly as `Step` does for `Tick`. |

`AutoSupport.GetResponse` states these rules:

- A message with no content and no attachments, or one outside a guild, makes no OCR call, no Wit.ai call and no reply.
- OCR is called exactly when the first attachment's content type starts with "image".
- Wit.ai is called unless OCR threw. The call uses the utterance `content + "\n" + imageText`, where `imageText` is "" without an image.
- The token key is the first configured key in dev mode, and the message's guild id otherwise.
- A reply is sent exactly when an intent is selected, and it is `Reply` of the resolved response.

`Confine.CommitEffect` states these rules for a commit:

- The guild's configured role is added to the member.
- The same role goes into the record stored under the target's id.
- The record's release date is `settledAt` plus the duration. `settledAt` is the clock reading after the grant resolved, which may be past the deadline.
- The prompt is edited to the confirmation.
- No other user's record changes.

`Confine.NonCommitPaths` covers these paths:

- Another user's component is filtered out: the state stays the same and the wait continues.
- A non-select component deletes the prompt.
- A different custom id ends the run with nothing changed.
- A failed grant stores no record and shows the error.
- The timeout shows the error.
- A tick before the deadline does nothing.

## Left out

- Discord, Wit.ai and Tesseract I/O are inputs or results of the model: `reply`, `edit`, `delete`, `sendTyping`, `wit.message`, and worker create/recognise/terminate. A failing `sendTyping` (which would suppress the reply) is not modelled. Neither is a failing `res.delete` or a failing confirmation `res.edit` (which would re-edit the prompt with an error). A failing `interaction.reply` is modelled (`replied`).
- Number formatting: `(confidence * 100).toFixed(2)` is the parameter `toFixed2`. Confidences are exact `real`s.
- `Number(...)` is defined only for whole-valued literals of the form `<digits>[.<digits>]e<digits>`, which covers the menu's three values. The selected value is the option itself, so an empty `values` array (which `Number(undefined)` would turn into an invalid date) is not modelled.
- The Wit.ai client's treatment of an undefined access token is foreign code. The model records the token it would be given, and treats any failure as `nlu == None`.
- The `id` field of a Wit.ai intent is not read by the code and is not modelled.
- Concurrency among dispatches and unsynchronised access to both caches are not modelled. The model is single-threaded.
- Logger calls, the catch-all handlers (beyond "nothing else happens") and `registerApplicationCommands` are not modelled.
- Dev-mode confinement in an unconfigured guild calls `roles.add(undefined)`. The grant outcome is an input. If that grant succeeds, the model adds no role and stores a record whose role is undefined.
- `releaseDate` is an integer of milliseconds. The `Date` range limit is not modelled.
- `targetRoles` is the role set of the member the interaction targets. Which member object that is, is not modelled.
- `Object.keys` puts integer-like keys first. Snowflake guild ids are too large to be array indices, so the model uses insertion order.
- No sweep that revokes expired confinements exists in this code, so none is modelled.
