# Chat session engine of yui-chat, in Dafny

This project models the chat session engine of a browser-local chat room. Several tabs of one browser share a conversation. Each tab keeps a log (newest first) and a copy of it in a local-storage slot, capped at 2000 entries. It also keeps an "entered" flag and, in one variant, a per-name message count. It posts `chat`, `join`, `leave`, `req-presence` and `clear` messages on a broadcast channel. Outgoing text is read as a blank input, the `cut` command (drop every entry whose message matches `/img/i`), the `clear` command (empty the log everywhere), or a message to post.

The engine exists in two variants with different policies, and both are modelled:

- `YuiChat.Session` is the monolithic component `src/YuiChat.tsx`. Entering reloads the log from storage and does not save it. Leaving wipes the log, the ranking and the storage slot. "clear" saves an empty array. This variant keeps the ranking.
- `ChatHandlers.Handlers` is the refactored hook `src/features/chat/hooks/useChatHandlers.ts`. Entering puts the join notice in front of the current log and saves it. Leaving keeps the log and saves a farewell notice. "clear" removes the slot. A normal send builds the new log from its `chatLog` argument, not from the current log.

Both variants share these modules:

- `Text`: JavaScript's `trim` and the `/img/i` test.
- `Commands`: the order in which a send is read.
- `LogStore`: the storage slot and its save/load contract.
- `LogViews`: the `cut` filter, the recent-participants projection and the ranking bump.

Each handler is a method on a class whose fields are the state the source changes: `log`, `stored`, `entered`, `name`, `message`, `ranking` and `outbox`. Each method's `ensures` gives the whole new state in terms of the old one. `Synced()` says that the storage holds exactly the part of the log a save keeps. Every handler that saves establishes it. The monolithic `Enter` is proved to break it.

Inputs the source takes from the environment are method parameters:

- random ids (`token`; notices get `"sys-" + token`);
- `Date.now()` (`now`);
- the text of the join and leave notices (`greeting`, `farewell`);
- the name validator (`validateName`, a function given to the hook's constructor).

Broadcasts are appended to `outbox` in the order they are posted. Inbound broadcasts are calls to `Receive`.

## Model

| member | source | states |
|---|---|---|
| Text.MentionsImg | src/YuiChat.tsx:159 | defines `/img/i`: "img" in any ASCII letter case at some position |
| Text.MentionsImgExtends | src/YuiChat.tsx:159 | a message that mentions img still does with more text on either side |
| Text.TrimStart | src/YuiChat.tsx:153 | leading-white-space half of `trim`: result no longer than the input, starts with a non-space |
| Text.TrimEnd | src/YuiChat.tsx:153 | trailing-white-space half of `trim`: result no longer than the input, ends with a non-space |
| Text.TrimStartDropsSpace | src/YuiChat.tsx:153 | TrimStart keeps a suffix of the input and drops only white space |
| Text.TrimEndDropsSpace | src/YuiChat.tsx:153 | TrimEnd keeps a prefix of the input and drops only white space |
| Text.Trim | src/YuiChat.tsx:153 | `trim` result is empty or begins and ends with a non-space |
| Text.BlankIffAllSpace | src/YuiChat.tsx:153 | `!text.trim()` holds exactly when every character is JavaScript white space |
| Text.TrimStartPadded | src/YuiChat.tsx:156 | leading white space in front of a word is exactly what TrimStart removes |
| Text.TrimEndPadded | src/YuiChat.tsx:156 | trailing white space after a word is exactly what TrimEnd removes |
| Text.TrimPadded | src/YuiChat.tsx:156 | trim gives back a word with non-space ends from any white-space padding around it |
| Commands.ClassifyBlankIff | src/features/chat/hooks/useChatHandlers.ts:151 | a send is a no-op exactly when the text is all white space |
| Commands.ClassifyPaddedCommands | src/features/chat/hooks/useChatHandlers.ts:153-176 | "cut" and "clear" are recognised with any surrounding white space |
| Commands.ClassifyPaddedPost | src/features/chat/hooks/useChatHandlers.ts:151-178 | only the exact command word acts as a command: any other word with non-space ends, under any white-space padding, is posted |
| Commands.Classify | src/YuiChat.tsx:153-177 | defines the order of the tests on a send (blank, then "cut", then "clear", else a post); its meaning is pinned down by the three Classify lemmas |
| LogStore.Kept | src/YuiChat.tsx:31-33 | a save keeps exactly the first min(length, 2000) entries, in order |
| LogStore.Save | src/YuiChat.tsx:31-33 | defines a save: the slot is overwritten with an array of `Kept(log)`; its contract is given by the round-trip lemmas |
| LogStore.Load | src/features/chat/api/chatApi.test.ts:18-58 | defines the store's load: the stored array, else []; its contract is given by `LoadSaveRoundTrip`, `LoadSaveTruncates` and `LoadFailsSoft` |
| LogStore.LoadSaveRoundTrip | src/features/chat/api/chatApi.test.ts:37-40 | save then load gives back a log of at most 2000 entries |
| LogStore.LoadSaveTruncates | src/features/chat/api/chatApi.test.ts:42-52 | save then load of a longer log gives its first 2000 entries |
| LogStore.LoadFailsSoft | src/features/chat/api/chatApi.test.ts:18-35 | load is [] when the slot is removed, unparsable or not an array |
| LogStore.LoadAsWritten | src/YuiChat.tsx:23-30 | defines the monolithic loader as written: [] for a removed or unparsable slot, the array otherwise, and the non-array value passed through |
| LogStore.LoadAsWrittenPassesNonArray | src/YuiChat.tsx:23-30 | the monolithic loader hands back a non-array payload where the store contract gives [] |
| LogStore.LoadAgreesWithAsWritten | src/YuiChat.tsx:23-30 | the monolithic loader and the store contract agree on every slot except a non-array payload |
| LogViews.Cut | src/YuiChat.tsx:159 | `cut` keeps exactly the entries whose message does not match /img/i, never more entries than before |
| LogViews.CutAppend | src/YuiChat.tsx:159 | `cut` works entry by entry in the original relative order: Cut(a + b) == Cut(a) + Cut(b) |
| LogViews.CutIdempotent | src/features/chat/hooks/useChatHandlers.ts:156 | a second `cut` removes nothing more |
| LogViews.CutUnchangedIff | src/features/chat/hooks/useChatHandlers.ts:156 | `cut` leaves the log unchanged exactly when no message matches /img/i |
| LogViews.Recent | src/YuiChat.tsx:56 | exactly the entries with a name, a colour, not system, at most 300000 ms old |
| LogViews.RecentAppend | src/YuiChat.tsx:56 | the filter works entry by entry and keeps the log order: Recent(a + b) == Recent(a) + Recent(b) |
| LogViews.Upsert | src/YuiChat.tsx:57-60 | `map.set` by name: keys grow by the name, its value is replaced, other values kept, one per key |
| LogViews.LastColorIsLast | src/YuiChat.tsx:57-60 | the reference colour is that of the last entry with the name, none exactly when no entry has it |
| LogViews.Tally | src/YuiChat.tsx:57-62 | the reduce gives one participant per distinct name, id == name, colour of the last entry with that name |
| LogViews.Participants | src/YuiChat.tsx:52-63 | one participant per name of every qualifying entry, id == name, colour of the last qualifying entry in log order |
| LogViews.ParticipantsComeFromRecentEntries | src/YuiChat.tsx:52-63 | every participant comes from a qualifying log entry with its name and colour |
| LogViews.ParticipantsIgnoreOthers | src/YuiChat.tsx:56 | a name with only old, system, nameless or colourless entries yields no participant |
| LogViews.ParticipantsExample | src/YuiChat.tsx:52-63 | two in-window entries by one author make one participant (older entry's colour); an entry past the window none |
| LogViews.Bump | src/YuiChat.tsx:76-80 | the name's count rises by one, every other count is unchanged |
| ChatModel.Notice | src/YuiChat.tsx:104-111 | defines a join or leave notice: id "sys-" + token, author 管理人, colour #0000ff, system, no email |
| YuiChat.EmailField | src/YuiChat.tsx:187 | defines the email recorded on a sent message: none when it trims to nothing, else the trimmed text |
| YuiChat.EmailFieldTrims | src/YuiChat.tsx:187 | an all-space email is left out; a padded address is recorded without its padding |
| YuiChat.Session.constructor | src/YuiChat.tsx:36-47 | initial state; the entry form is shown, so the log is loaded from storage (src/YuiChat.tsx:207-209) |
| YuiChat.Session.Receive | src/YuiChat.tsx:66-97 | chat: log [entry] + old, saved, ranking bumped only for non-system named entries; req-presence: one join only when entered; clear: log empty and saved empty; session fields untouched |
| YuiChat.Session.Enter | src/YuiChat.tsx:100-124 | blank name: no change; else entered, log = [notice] + stored log, storage untouched (out of sync when under the cap), outbox + [chat, join, req-presence] |
| YuiChat.Session.Exit | src/YuiChat.tsx:127-148 | outbox + [chat notice, leave]; not entered; log and ranking empty; slot removed |
| YuiChat.Session.Send | src/YuiChat.tsx:151-201 | blank: no change; cut: Cut of the log, saved, nothing posted; clear: empty, saved, one clear; else one new head entry with session name/colour and untrimmed text, saved, one chat posted, name counted |
| YuiChat.Session.Reload | src/YuiChat.tsx:204 | the log becomes what storage holds; nothing else changes |
| ChatHandlers.Handlers.constructor | src/features/chat/hooks/useChatHandlers.ts:7-29 | the state the hook's setters act on, not entered, empty outbox |
| ChatHandlers.Handlers.Receive | src/features/chat/hooks/useChatHandlers.ts:35-62 | chat: log [entry] + old and saved, no duplicate check; req-presence: one join only when entered; clear: log empty, slot removed |
| ChatHandlers.Handlers.Enter | src/features/chat/hooks/useChatHandlers.ts:69-107 | rejected name: its error, no change; else entered, log [notice] + old saved, outbox + [chat, join(entry name, colour), req-presence] |
| ChatHandlers.Handlers.Exit | src/features/chat/hooks/useChatHandlers.ts:110-146 | log [notice] + old saved (not emptied), outbox + [chat, leave], not entered, name and draft reset |
| ChatHandlers.Handlers.Send | src/features/chat/hooks/useChatHandlers.ts:149-198 | blank: no change; cut: Cut of the current log, saved, nothing posted; clear: empty, slot removed, one clear; else [entry] + chatLog argument, saved, one chat posted |
| ChatHandlers.Handlers.Reload | src/features/chat/hooks/useChatHandlers.ts:201-204 | the log is replaced wholesale by what storage holds |
| Scenarios.YuiChatEchoIsKeptTwice | src/YuiChat.tsx:68-82 | a tab handed its own chat back logs it twice and counts it twice |
| Scenarios.HandlersEchoIsKeptTwice | src/features/chat/hooks/useChatHandlers.ts:37-45 | a tab handed its own chat back stores it twice |
| Scenarios.HandlersStaleSendDropsArrival | src/features/chat/hooks/useChatHandlers.ts:187-191 | a send given a log read before an arrival drops that arrival from log and storage |

The model follows the code as written, including on these points:

- The monolithic `Enter` does not save the log.
- The monolithic `Exit` does not add its farewell notice to the local log.
- The hook's `Exit` keeps the log.
- A participant's colour comes from the last qualifying entry in log order. The log is newest first, so that is the oldest entry in the window, not the newest.

## Findings

| source | as written | input that shows it | evidently intended | confidence | as-written member | corrected member |
|---|---|---|---|---|---|---|
| src/YuiChat.tsx:26 | `dat ? JSON.parse(dat) : []` returns whatever JSON the slot holds | the slot holds `{"not":"array"}` (or `null`, `0`); the loader returns that value as the log, and the spread in the enter handler then throws | [] for any payload that is not an array, as the store contract of src/features/chat/api/chatApi.test.ts:27-30 requires | not executed; medium | LogStore.LoadAsWrittenPassesNonArray | LogStore.LoadFailsSoft |

`LogStore.LoadAsWritten` models the loader as written. `LogStore.Load` is the corrected loader. `LogStore.LoadFailsSoft` proves that it returns [] for a removed slot, an unparsable payload and a non-array payload. Both session classes use `Load`; "## Left out" names what that leaves out of the monolithic component.

## Left out

- React scheduling (`startTransition`, batched and deferred state updates, `useDeferredValue`) is left out. Every handler is modelled as running to completion on the current state.
- The delays of the `setTimeout` calls in enter are modelled only as the order of the three posted messages. Events arriving before the timers fire are not interleaved.
- BroadcastChannel delivery is left out: whether a sender receives its own message, loss, and ordering between tabs. Inbound messages are calls to `Receive`. The scenarios show what follows if a tab is handed its own message.
- `channelRef.current` being null, which would make posting a no-op, is left out. Posting always appends to the outbox.
- Handlers closing over stale `entered`/`name`/`color` values are left out. The hook's `chatLog` argument is the one staleness the model keeps, because the source takes it as an explicit parameter.
- The `showRanking`, `windowRows` and `isPending` UI flags and all rendering are left out (src/ChatRoom.tsx and the JSX of src/YuiChat.tsx:211-268). The 120-character input cap is enforced by the browser.
- The mount-time effect that reloads the log while the entry form is shown is modelled only in `YuiChat.Session.constructor`. After an exit it would reload a removed slot, which gives the [] the exit already set.
- Ids from `Math.random()`, `Date.now()` and the Japanese notice texts are parameters. The notices' author and colour are constants.
- `validateName` is not part of this model. The hook takes it as a function parameter and throws exactly when it answers with a non-empty message.
- JSON encoding is abstract. A payload is unparsable, an array of chat records, or some other JSON value. Array elements that are not chat records are not modelled.
- The Supabase-backed `src/features/chat/api/chatApi.ts` is left out: remote insert, select, delete and subscribe. The hook's store is modelled on the local-storage contract that src/features/chat/api/chatApi.test.ts checks.
- The ranking view `ChatRanking` is not part of this model. Only the `ranking` state that the monolithic component keeps is modelled.
- Also left out: src/shared/components/TermsModal.tsx (GPU animation), the mobile push-notification stub and the test configuration.
- LogViews.Participants: the order of the list (each name where it first appears among the qualifying entries, as a Map keeps insertion order) is computed but not stated in the contract.
- The optional email of a sent message, `email.trim() || undefined`, is modelled as absent for a blank email and the trimmed text otherwise. The JavaScript distinction between `undefined` and a missing key is not kept.
- YuiChat.Session.constructor: uses the corrected loader `Load`, so a non-array payload gives an empty log. The component as written puts that value into its log, and the next render's `filter` throws (src/YuiChat.tsx:208, :56); that crash is not modelled.
- YuiChat.Session.Enter: uses the corrected loader `Load`, so a non-array payload gives `[notice]`. As written, the spread at src/YuiChat.tsx:112 throws after `setEntered(true)` at :103 has run; that crash is not modelled.
- YuiChat.Session.Reload: uses the corrected loader `Load`, so a non-array payload gives an empty log. As written, src/YuiChat.tsx:204 puts the value into the log and the next render throws; that crash is not modelled.
