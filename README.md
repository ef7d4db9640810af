# Tari: a verified model of the LM-Studio chat client

Tari is a small Android chat front-end for an LM-Studio server, which speaks the OpenAI chat-completions
protocol. The user connects to a host and picks a model from a whitelist. Messages are sent to the
server, and every turn is kept in a local Room (SQLite) table.

This Dafny project models four pieces of the app:

- the backend client `LMStudioClient`;
- the session state machine `TariViewModel`;
- the message store `MessageDao`;
- the pure helpers inside the Compose screens.

Modules:

- `Wrappers` (`wrappers.dfy`): `Option` and `Result`. They stand in for Kotlin's nullable types and for
  exceptions.
- `Text` (`text.dfy`): the Kotlin string functions the app relies on. These are `isWhitespace`/`isBlank`,
  `trim`, `trimEnd('/')`, `lowercase`, `capitalize` and `Int.toString`.
- `Network` (`network.dfy`): the wire datatypes, `executeRequest`'s error mapping, `getModels`, `setModel`,
  the chat payload and the classification of the first choice of a chat response.
  - An HTTP call is an abstract `HttpOutcome`: a status and an optional body, or an `IOException` with an
    optional message.
  - The missing body mirrors the `response.body?` check in `executeRequest`. OkHttp 5 documents the body of
    a response returned by `Call.execute()` as never null. If that holds, the "Empty response body" branch
    is never taken, and an empty reply arrives as `Some("")` and fails in the decoder instead.
  - The chat backend is a function from the request payload to that outcome, so what the client sends is
    part of the model.
  - JSON decoding is a parameter `string -> Option<T>`, where `None` is kotlinx's `SerializationException`.
- `Data` (`data.dfy`): `MessageEntity` rows and a table with SQLite's AUTOINCREMENT counter.
  - `insert` with `REPLACE`, `getAll` ordered by timestamp, and `clearAll`.
  - A stable reference sort, `SortByTimestamp`, with the lemma that any sorted permutation equals it when
    timestamps are distinct.
  - The `MessageDao` class, whose methods are proved against these functions.
- `ViewModel` (`view_model.dfy`): `UiState`, the whitelist, `loadDefaultHost`, and the `TariViewModel`
  class.
  - Its methods are `TryConnect`, `SelectModel`, `ClearChat`, `SendMessage`, `InsertPersisted` and the
    store-feed collector `OnStoreFeed`.
  - Each action is one sequential method. An exception that escapes the action is returned as its outcome.
  - `Synced` says the in-memory history equals the stored conversation in timestamp order.
  - `ClearChat` makes the state synced.
  - After a reply, `SendMessage` keeps a synced state synced when both turns are stamped no earlier than
    every stored row, the reply no earlier than the user turn.
  - After a failed send, the store holds the extra user turn, which the history lacks until `OnStoreFeed`
    runs.
- `Screens` (`screens.dfy`): the picker's whitelist filter, the label fallback, the "no whitelisted models"
  notice, `friendlyRole` and the Send button guard.
- `Scenarios` (`scenarios.dfy`): complete sessions against stub servers. These are a connect, a text reply,
  an HTTP 500, and a reply that only calls a tool.

Where the app's intended behaviour and its code part ways, the model follows the code:

- **Exceptions.**
  - Intended: client errors are reported, never thrown at the caller.
  - In the code, `tryConnect` catches only `LMStudioException`. A body that does not decode raises kotlinx's
    `SerializationException`, which is not an `IOException`, so it escapes; the model returns it as
    `Uncaught`.
  - `sendMessage` catches nothing.
- **The tool-call log step.**
  - When a reply is a bare tool call, `generateText` writes a log file named after today's date before it
    returns `""`. This step runs inside `executeRequest`'s `catch (e: IOException)`.
  - An `IOException` from the file write therefore turns the reply into "Network error while contacting
    host: …".
  - The date comes from ThreeTenABP's `LocalDate.now()`. Without its time-zone data registered, that call
    throws a `ZoneRulesException`, which escapes `generateText` and `sendMessage`.
  - The model takes the step's outcome as an input (`Network.LogOutcome`); see `Network.ToolCallLogFailure`
    and `Scenarios.ToolCallWithoutZoneRulesExchange`.
- **History sent with a message.**
  - Intended: `sendMessage` sends the persisted conversation.
  - The code sends the in-memory `chatHistory` plus the new user turn.
  - The two agree when the state is `Synced` and the user turn is stamped no earlier than every stored row:
    the stored conversation with the user turn added is then the history plus that turn. See the first
    clause of `ViewModel.SendKeepsSynced` and the last clause of `ViewModel.TariViewModel.SendMessage`.
- **Reply text.** The stored reply to content `"hello"` is `"\nhello"`, because the client prepends a
  newline. `Scenarios.TextExchange` shows it both in the history and in the
  stored row.
- **Tie order.** Intended: timestamp ties keep insertion order. `ORDER BY timestamp` leaves the order of
  ties unspecified, so `Data.MessageDao.GetAll` promises only a sorted permutation.
- **Loading flag.** The `loading` flag is never assigned in the code.

## Model

| member | source | states |
|---|---|---|
| `Text.SkipForward` | app/src/main/java/com/example/tarimobileas/ui/Screens.kt:137 | trim's start is the first position whose character is not dropped: everything before it is dropped |
| `Text.IsBlank` | app/src/main/java/com/example/tarimobileas/ui/Screens.kt:136 | `isBlank()`: the empty string is blank, and a string that starts with a non-whitespace character is not |
| `Text.SkipBackward` | app/src/main/java/com/example/tarimobileas/network/LMStudioClient.kt:49 | trimming from the end stops right after the last kept character, never below the lower bound: everything after it is dropped |
| `Text.TrimIsSlice` | app/src/main/java/com/example/tarimobileas/ui/Screens.kt:137 | what `trim()` leaves is one contiguous slice of the input, and everything cut off on either side is whitespace |
| `Text.TrimEnd` | app/src/main/java/com/example/tarimobileas/network/LMStudioClient.kt:49 | `trimEnd(c)` is a prefix not ending in `c`, and every character it removed is `c` |
| `Text.TrimEndUnique` | app/src/main/java/com/example/tarimobileas/network/LMStudioClient.kt:49 | those properties determine `trimEnd(c)`: any prefix not ending in `c` after which only `c` follows is its result |
| `Text.TrimEndIdempotent` | app/src/main/java/com/example/tarimobileas/network/LMStudioClient.kt:47-50 | trimming `'/'` from a normalised host again changes nothing |
| `Text.Trim` | app/src/main/java/com/example/tarimobileas/ui/Screens.kt:137 | `trim()` is empty exactly for blank input and keeps no whitespace at either end |
| `Text.Lowercase` | app/src/main/java/com/example/tarimobileas/ui/Screens.kt:161 | same length, each character lower-cased |
| `Text.Capitalize` | app/src/main/java/com/example/tarimobileas/ui/Screens.kt:164 | same length, the first character upper-cased, the rest unchanged |
| `Text.LowercaseEqualsWord` | app/src/main/java/com/example/tarimobileas/ui/Screens.kt:161-163 | `raw.lowercase() == w` for a lower-case word `w` holds exactly when `raw` spells `w` with letters in any case |
| `Text.NatToDecimal` | app/src/main/java/com/example/tarimobileas/network/LMStudioClient.kt:185 | the status code's numeral is a non-empty string of digits without a leading zero |
| `Text.DecimalRoundTrip` | app/src/main/java/com/example/tarimobileas/network/LMStudioClient.kt:185 | reading the numeral back gives the number |
| `Text.IntToDecimal` | app/src/main/java/com/example/tarimobileas/network/LMStudioClient.kt:185 | `Int.toString()`: non-empty; starts with `-` exactly for a negative number; the digits after any sign read back as the absolute value |
| `Network.LMStudioClient.constructor` | app/src/main/java/com/example/tarimobileas/network/LMStudioClient.kt:47-50 | the stored host is the argument with trailing `/` removed, so it never ends in `/` |
| `Network.ExecuteRequest` | app/src/main/java/com/example/tarimobileas/network/LMStudioClient.kt:174-194 | only a 2xx response with a body reaches `onSuccess`; an `IOException` it throws becomes the "Network error while contacting" exception, any other result passes through; an undelivered response is an `LMStudioException`; no `IOException` ever leaves it |
| `Network.IsSuccessful` | app/src/main/java/com/example/tarimobileas/network/LMStudioClient.kt:183 | `isSuccessful`: a status in 200..299 (no contract; used by `Delivered`) |
| `Network.ExecuteRequestFailures` | app/src/main/java/com/example/tarimobileas/network/LMStudioClient.kt:178-193 | an I/O failure gives "Network error while contacting host: message"; a missing body gives "Empty response body from host" whatever the status; a non-2xx status gives a message that starts "Failed request – HTTP", then the code, and ends with the body |
| `Network.ModelIds` | app/src/main/java/com/example/tarimobileas/network/LMStudioClient.kt:81 | an id is in the list exactly when some entry carries it; never longer than the input |
| `Network.ModelIdsAppend` | app/src/main/java/com/example/tarimobileas/network/LMStudioClient.kt:81 | `mapNotNull` distributes over concatenation, so ids keep the order of their entries |
| `Network.ModelIdsCount` | app/src/main/java/com/example/tarimobileas/network/LMStudioClient.kt:81 | one id per entry that has one: null ids are dropped and nothing is added |
| `Network.DecodeModels` | app/src/main/java/com/example/tarimobileas/network/LMStudioClient.kt:78-82 | the handler succeeds exactly when the body decodes, with that listing's ids; otherwise it is a `SerializationException` |
| `Network.GetModels` | app/src/main/java/com/example/tarimobileas/network/LMStudioClient.kt:71-83 | succeeds exactly for a delivered body that decodes, with that listing's ids; an undecodable body is a `SerializationException`; other failures are `LMStudioException`s |
| `Network.SetModel` | app/src/main/java/com/example/tarimobileas/network/LMStudioClient.kt:90-113 | succeeds exactly when the response is delivered; every failure is an `LMStudioException` whose message is "Failed to switch model: " followed by the message `executeRequest` failed with |
| `Network.ChatPayload` | app/src/main/java/com/example/tarimobileas/network/LMStudioClient.kt:125-130 | the messages are the system prompt followed by the history unchanged (length plus one); the model is "openai/gpt-oss-120b", tool choice "auto", tools the fixed declarations |
| `Network.KindOf` | app/src/main/java/com/example/tarimobileas/network/LMStudioClient.kt:150-161 | a message is a text reply exactly when its content is present and not blank, and a tool invocation exactly when it has no text but a non-empty tool call list |
| `Network.ChoiceReply` | app/src/main/java/com/example/tarimobileas/network/LMStudioClient.kt:146-162 | no choices is the "empty choices array" error; a reply exists exactly when the first choice has text, or has tool calls and the log step completed; the reply is empty exactly when there is no text |
| `Network.ChoiceReplyByKind` | app/src/main/java/com/example/tarimobileas/network/LMStudioClient.kt:150-161 | text gives "\n" + content even when tool calls are present, whatever the log step does; tool calls alone give "" once the log is written and the log step's `IOException` or `ZoneRulesException` otherwise; neither gives the "empty response" error |
| `Network.ChoiceReplyReadsFirstOnly` | app/src/main/java/com/example/tarimobileas/network/LMStudioClient.kt:146-149 | two responses with the same first choice get the same classification |
| `Network.DecodeReply` | app/src/main/java/com/example/tarimobileas/network/LMStudioClient.kt:142-163 | the handler is a `SerializationException` for a body that does not decode, and the classification of the decoded response otherwise |
| `Network.GenerateText` | app/src/main/java/com/example/tarimobileas/network/LMStudioClient.kt:123-164 | the backend receives the chat payload for the history; an undelivered response is an `LMStudioException`, an undecodable one a `SerializationException`; otherwise the result is the classification of the decoded response, with an `IOException` from the log step turned into a network error |
| `Network.GenerateTextSuccess` | app/src/main/java/com/example/tarimobileas/network/LMStudioClient.kt:142-162 | a reply is produced exactly when the response is delivered, decodes, and its first choice is text, or a tool invocation whose log step completed |
| `Network.ToolCallLogFailure` | app/src/main/java/com/example/tarimobileas/network/LMStudioClient.kt:152-158 | for a tool-call reply, an `IOException` from the log write gives "Network error while contacting host: message", and a `ZoneRulesException` from reading the date escapes unchanged |
| `Data.IndexOfId` | app/src/main/java/com/example/tarimobileas/data/MessageDao.kt:12 | a found position holds the key; no position means no row has the key |
| `Data.Inserted` | app/src/main/java/com/example/tarimobileas/data/MessageDao.kt:12-13 | `insert` with `REPLACE`: the stored row is in the table afterwards; the table grows by at most one row; the counter never goes back and moves past an explicit id |
| `Data.InsertedWellFormed` | app/src/main/java/com/example/tarimobileas/data/MessageEntity.kt:8 | insertion keeps primary keys unique, non-zero and below the AUTOINCREMENT counter |
| `Data.InsertUnsetIdAppends` | app/src/main/java/com/example/tarimobileas/data/MessageEntity.kt:8 | inserting with id 0 adds exactly one row, under the counter's id, which no row had, and leaves the other rows unchanged |
| `Data.InsertExistingIdReplaces` | app/src/main/java/com/example/tarimobileas/data/MessageDao.kt:12 | inserting an existing key replaces that row; the count and all other rows are unchanged |
| `Data.InsertNewIdAppends` | app/src/main/java/com/example/tarimobileas/data/MessageDao.kt:12-13 | inserting a new explicit key appends the entity and moves the counter past it |
| `Data.InsertedLookup` | app/src/main/java/com/example/tarimobileas/data/MessageDao.kt:12-13 | after an insert, the stored row's key finds exactly the stored row |
| `Data.InsertByTimestamp` | app/src/main/java/com/example/tarimobileas/data/MessageDao.kt:15 | inserting into a timestamp-sorted list keeps it sorted and adds exactly that row |
| `Data.SortByTimestamp` | app/src/main/java/com/example/tarimobileas/data/MessageDao.kt:15 | the reference order is sorted by timestamp and a permutation of the rows |
| `Data.SortAppendLatest` | app/src/main/java/com/example/tarimobileas/data/MessageDao.kt:15 | a row stamped no earlier than all others comes last, after the others in their previous order |
| `Data.SortedPermutationUnique` | app/src/main/java/com/example/tarimobileas/data/MessageDao.kt:15-16 | with distinct timestamps, two sorted permutations of the same rows are equal, so any result `getAll` may return is the reference order |
| `Data.MessageDao.constructor` | app/src/main/java/com/example/tarimobileas/data/MessageDao.kt:9-10 | a new table is empty and its first fresh id is 1 |
| `Data.MessageDao.Insert` | app/src/main/java/com/example/tarimobileas/data/MessageDao.kt:12-13 | the table becomes `Inserted(old table, entity)` and stays well formed |
| `Data.MessageDao.GetAll` | app/src/main/java/com/example/tarimobileas/data/MessageDao.kt:15-16 | every row, nothing added or dropped (same multiset), sorted by ascending timestamp |
| `Data.MessageDao.ClearAll` | app/src/main/java/com/example/tarimobileas/data/MessageDao.kt:18-19 | no rows remain; the AUTOINCREMENT counter is not reset |
| `Data.ClearedReadsEmpty` | app/src/main/java/com/example/tarimobileas/data/MessageDao.kt:15-19 | reading an emptied table yields the empty list |
| `ViewModel.LoadDefaultHost` | app/src/main/java/com/example/tarimobileas/ui/TariViewModel.kt:18-26 | the configured host when there is one, otherwise "http://192.168.178.107:1234" |
| `ViewModel.ToMessages` | app/src/main/java/com/example/tarimobileas/ui/TariViewModel.kt:63 | same length; each message carries its row's role and content, in row order |
| `ViewModel.ToMessagesAppend` | app/src/main/java/com/example/tarimobileas/ui/TariViewModel.kt:63 | the mapping distributes over concatenation |
| `ViewModel.PersistedAppendLatest` | app/src/main/java/com/example/tarimobileas/ui/TariViewModel.kt:62-64 | storing a row stamped no earlier than the others appends its turn to the conversation the feed delivers |
| `ViewModel.SendKeepsSynced` | app/src/main/java/com/example/tarimobileas/ui/TariViewModel.kt:85-101 | with timestamps taken in order, a failed send adds the user turn to the stored conversation, and a completed one adds the user turn and then the reply |
| `ViewModel.TariViewModel.constructor` | app/src/main/java/com/example/tarimobileas/ui/TariViewModel.kt:42-49 | the state starts empty and the client gets the default host without trailing `/` |
| `ViewModel.TariViewModel.OnStoreFeed` | app/src/main/java/com/example/tarimobileas/ui/TariViewModel.kt:59-67 | only the history changes; it is the turns of a timestamp-sorted permutation of the stored rows, and with distinct timestamps exactly the stored conversation |
| `ViewModel.TariViewModel.TryConnect` | app/src/main/java/com/example/tarimobileas/ui/TariViewModel.kt:123-139 | the trimmed host is set before contacting the server and stays; a model list replaces `models` only; an `LMStudioException` reports its message and leaves the state unchanged; any other exception is a decoding failure, which escapes and leaves the state unchanged |
| `ViewModel.TariViewModel.SelectModel` | app/src/main/java/com/example/tarimobileas/ui/TariViewModel.kt:79-82 | sets `selectedModel` and nothing else |
| `ViewModel.TariViewModel.ClearChat` | app/src/main/java/com/example/tarimobileas/ui/TariViewModel.kt:71-77 | the store is emptied (the id counter kept) and only `chatHistory` is reset; the state is synced afterwards |
| `ViewModel.TariViewModel.InsertPersisted` | app/src/main/java/com/example/tarimobileas/ui/TariViewModel.kt:104-106 | the turn is appended as one new row under the next fresh id with the given timestamp, and the id counter moves up by one |
| `ViewModel.TariViewModel.SendMessage` | app/src/main/java/com/example/tarimobileas/ui/TariViewModel.kt:85-102 | the user row is stored before the call; the backend gets the history plus the user turn. A reply stores the assistant row and makes the history grow by exactly those two turns. A failure returns the error, stores only the user row and leaves the state untouched. The id counter moves up by two after a reply and by one after a failure. A synced state stays synced after a reply when both turns are stamped no earlier than every stored row and the reply no earlier than the user turn |
| `Screens.FilterWhitelisted` | app/src/main/java/com/example/tarimobileas/ui/Screens.kt:44 | an id is shown exactly when it is listed and whitelisted; never more ids than listed |
| `Screens.DisplayedModels` | app/src/main/java/com/example/tarimobileas/ui/Screens.kt:44 | every shown id is a whitelist key |
| `Screens.FilterKeepsOrder` | app/src/main/java/com/example/tarimobileas/ui/Screens.kt:44 | the shown ids are the listed ids at strictly increasing positions, so the order is preserved |
| `Screens.FilterCounts` | app/src/main/java/com/example/tarimobileas/ui/Screens.kt:44 | each whitelisted id is shown as often as it is listed; no other id is shown |
| `Screens.FriendlyName` | app/src/main/java/com/example/tarimobileas/ui/Screens.kt:64 | the whitelist label for a whitelisted id, otherwise the id itself |
| `Screens.DisplayedLabelsFromWhitelist` | app/src/main/java/com/example/tarimobileas/ui/Screens.kt:62-64 | every label the picker shows is one of the whitelist's labels |
| `Screens.NoticeIffNoWhitelisted` | app/src/main/java/com/example/tarimobileas/ui/Screens.kt:75-81 | the "No whitelisted models" notice shows exactly when no listed id is whitelisted |
| `Screens.FriendlyRole` | app/src/main/java/com/example/tarimobileas/ui/Screens.kt:161-165 | `friendlyRole`: the result is Nini, Tari or the capitalised role, and it is empty exactly when the role is |
| `Screens.FriendlyRoleCases` | app/src/main/java/com/example/tarimobileas/ui/Screens.kt:161-165 | "user" in any letter case shows as Nini, "assistant" in any case as Tari, any other role capitalised |
| `Screens.SendClick` | app/src/main/java/com/example/tarimobileas/ui/Screens.kt:135-140 | something is sent exactly when the input is not blank; then it is the trimmed input and the field is reset; otherwise the field keeps its text |
| `Screens.SentTextIsTrimmed` | app/src/main/java/com/example/tarimobileas/ui/Screens.kt:135-140 | the sent text is a non-empty slice of the input without whitespace at either end, and everything cut off is whitespace |
| `Scenarios.ConnectExchange` | app/src/main/java/com/example/tarimobileas/ui/TariViewModel.kt:129-134 | connecting to "http://h:1234/" against a stub listing stores host "http://h:1234" and models ["m1", "m2"], dropping the entry without an id |
| `Scenarios.HelloReply` | app/src/main/java/com/example/tarimobileas/network/LMStudioClient.kt:151 | a first choice with content "hello" classifies as the reply "\nhello", whatever the log step would do |
| `Scenarios.TextExchange` | app/src/main/java/com/example/tarimobileas/ui/TariViewModel.kt:85-102 | sending "hi" to a server answering "hello" leaves the history [user "hi", assistant "\nhello"] and stores the rows (1, user, "hi") and (2, assistant, "\nhello") |
| `Scenarios.ServerErrorText` | app/src/main/java/com/example/tarimobileas/network/LMStudioClient.kt:183-186 | a 500 response with body "boom" fails with "Failed request – HTTP 500: boom" before any body handler runs |
| `Scenarios.ServerErrorGenerates` | app/src/main/java/com/example/tarimobileas/network/LMStudioClient.kt:142-186 | a chat server answering HTTP 500 makes `generateText` fail with that message whatever the decoder and the log step would do |
| `Scenarios.ServerErrorExchange` | app/src/main/java/com/example/tarimobileas/ui/TariViewModel.kt:89-95 | after an HTTP 500 the history is unchanged, only the user row is stored, and the error names the status |
| `Scenarios.ToolCallExchange` | app/src/main/java/com/example/tarimobileas/network/LMStudioClient.kt:152-160 | a reply with no content and a tool call, with the log written, stores the user row and an assistant row with empty text, and the history gains both turns |
| `Scenarios.ToolCallReply` | app/src/main/java/com/example/tarimobileas/network/LMStudioClient.kt:152-160 | a tool-call reply classifies as "" once the log is written and as `ZoneRulesException` when the date cannot be read |
| `Scenarios.ToolCallWithoutZoneRulesExchange` | app/src/main/java/com/example/tarimobileas/ui/TariViewModel.kt:85-95 | when the tool-call log step cannot read the date, `sendMessage` fails with `ZoneRulesException` after storing only the user row, and the history is unchanged |

## Left out

- OkHttp transport, its timeouts and URL building are not modelled. A request's outcome is an input. A
  host that OkHttp rejects as a URL throws an `IllegalArgumentException`. From `getModels` and
  `generateText` it reaches the caller uncaught; `setModel`'s `catch (e: Exception)` wraps it as "Failed to
  switch model: …". The model has no such outcome.
- kotlinx JSON encoding and decoding are not modelled. Decoded datatypes stand in for the JSON, and
  decoding is a parameter. The body `setModel` builds by interpolation is not modelled; the model makes no
  claim that it is valid JSON.
- The `SYSTEM_PROMPT` text and the `TOOLS` declarations are opaque constants; no property depends on their
  content. The malformed property keys `directory="."` and `args=[]` are kept as data.
- `writeLogFile`, the log written when a reply is a tool call, is modelled only by how it ends
  (`Network.LogOutcome`): written, an `IOException`, or a `ZoneRulesException` from reading the date. The
  file's name, directory and content are not modelled. No call to `AndroidThreeTen.init` appears in
  `MainActivity.kt` or the view model, so the `ZoneRulesException` outcome is likely, but the model keeps
  all three outcomes open. The scenarios show a written log and a `ZoneRulesException`.
- `exportConversation` and reading `config.properties` are not modelled; both are file I/O. Only the
  fallback choice of `loadDefaultHost` is modelled.
- Coroutines, `withContext`, `viewModelScope.launch` and the `collectLatest` subscription are not modelled.
  Each action is one sequential method. The store feed is a separate method, `OnStoreFeed`, which the
  environment calls. Its race with `sendMessage` reading `chatHistory` is not modelled.
- `isLoading` is never assigned by the app, so it is carried unchanged.
- `System.currentTimeMillis()` is not modelled. Timestamps are parameters.
- `DatabaseProvider` and its synchronized singleton are not modelled. The store is passed to the view
  model's constructor.
- Compose layout, navigation, theming, the activity and the build files are not modelled.
- Ids and timestamps are unbounded integers. Overflow of Kotlin's 64-bit `Long` is not modelled.
- `Text.Lowercase` and `Text.Capitalize` change ASCII letters only. Kotlin's Unicode case mapping of other
  letters is not modelled. `capitalize()` also upper-cases by the rules of the device's default locale
  (under a Turkish locale `i` becomes `İ`); the model uses the locale-independent ASCII mapping.
- `Data.MessageDao.GetAll` promises a sorted permutation of the rows, not a tie order. SQL's `ORDER BY`
  leaves the order of rows with equal timestamps open. `Data.Inserted` replaces a conflicting row in place;
  SQLite deletes it and inserts anew, which differs only in that unspecified tie order.
- `ViewModel.TariViewModel.OnStoreFeed` pins the history to the stored conversation only when timestamps
  are distinct. This follows from the open tie order.
- `ViewModel.TariViewModel.TryConnect` reports the exception's message. The `"Unable to connect"`
  fallback for a null message is never taken, because every `LMStudioException` is built with a message.
- `defaultHosts` in the view model is read only by the connection screen's preset menu
  (`ConnectionScreen.kt`). That screen is not modelled, so neither is the list.
