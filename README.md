# Foma chatbot — a Dafny model of the client session and the relay

Foma is a practice chatbot. It plays a 28-year-old non-believer whom the user
talks with about faith. The model has two parts.

- **The relay** (`server/server.js`) keeps a table of eight personas
  ("difficulties"). For `POST /api/chat` it:
  - validates the requested persona;
  - builds the system prompt: a fixed behaviour text, then the persona's
    profile line and typical phrases;
  - maps the client's log onto the generation API's turns, always dropping
    the first message;
  - picks the sampling settings, with a higher temperature for the rude
    persona;
  - answers 200 with the text, 400 for a name that is neither a persona nor
    an inherited `Object.prototype` member (see "## Findings"), or 500 for
    any failure.

  `GET /api/difficulties` lists every persona with its first three phrases.
- **The client session** (`client/src/App.js`) is a React component. It:
  - keeps the chat log, the input field, the typing flag, the chosen persona,
    the persona catalog (fetched, or a built-in fallback), the viewed chat,
    the archive listing, a status line and an error banner;
  - sends a message in two halves: append the user's line, then one reply or
    one error bubble;
  - chooses one of four error texts for a failed send;
  - saves snapshots into the browser's IndexedDB store `chats`, keyed by the
    ISO time of the save, then lists them newest first, deletes them, and
    exports one chat or the whole archive;
  - imports a chat file, and views and resumes a chat.

The Dafny modules follow that split:

| file | module | contents |
|---|---|---|
| `protocol.dfy` | `Protocol` | what travels between client and relay: `Message`, `DifficultyInfo`, `ChatBody`, `Option` |
| `jsstring.dfy` | `JsString` | the JavaScript built-ins the core relies on: `trim` with the ECMAScript whitespace set, `join`, and the order of `<` on strings, which is also IndexedDB's key order |
| `relay.dfy` | `Relay` | `server/server.js` as pure functions over the constant persona table; the generation API is a function parameter |
| `session.dfy` | `Session` | `client/src/App.js` as the class `SessionController`; its fields are the component's state, and the map `archive` stands for the IndexedDB store |
| `catalog.dfy` | `Catalog` | how the client's fallback catalog lines up with the relay's table |
| `scenarios.dfy` | `Scenarios` | whole sessions on fresh controllers: sends, failures, saves, listings, the export/import round trip |

Everything that comes from outside the program is a parameter of the method
that consumes it:
- the relay's reply to a send;
- the outcome of each store request;
- the records `getAll` returns (required to be the store in ascending key
  order);
- the parsed import file;
- every clock reading (`toLocaleTimeString`, `toISOString`).

The source calls `fetchSavedChats` after a save or a delete. The model makes
that a separate `FetchSavedChats` call.

One might expect failed-send bubbles to be kept out of the history sent to
the relay. They are not: `handleSendMessage` sends the whole log, bubbles
included (`client/src/App.js:82-92`), and the relay passes each bubble on as
a model turn (`Scenarios.ErrorBubbleResent`). The model follows the code.

## Model

| member | source | states |
|---|---|---|
| Relay.Keys | server/server.js:125 | `Object.keys` of the table: one key per profile, in table order |
| Relay.FindProfile | server/server.js:112 | an own property lookup finds a profile exactly when the key is one of the table's keys, and the profile found carries that key |
| Relay.ProfilesWellFormed | server/server.js:41-74 | the eight persona keys are pairwise distinct and every persona has at least three phrases |
| Relay.LookupAt | server/server.js:41-74 | the key of each profile selects exactly that profile |
| Relay.ProfileInstruction | server/server.js:115 | the persona instruction is the profile header and text, the phrases header, the phrases joined by ", ", then a newline |
| Relay.ProfileInstructionListsPhrase | server/server.js:115 | every phrase of the profile appears in the instruction at the offset `join` gives it, so in declaration order |
| Relay.PersonalityInstruction | server/server.js:111-116 | for an own key or a name with no property at all: the instruction is empty exactly for a key outside the table, and otherwise it is that profile's instruction |
| Relay.SystemInstruction | server/server.js:129-130 | for an own key or a name with no property at all: the system prompt starts with the base text, continues with the persona instruction, and equals the base text exactly when the persona is unknown |
| Relay.ToContent | server/server.js:135-136 | one message becomes one turn with the same text, a `user` turn exactly for the user's messages and a `model` turn otherwise |
| Relay.MapContents | server/server.js:134-137 | one turn per message, in order, with the same text; the role is `user` exactly for the user's messages and `model` otherwise |
| Relay.HistoryToContents | server/server.js:134-137 | the first message is dropped (an empty history gives no turns); turn i carries message i+1's text and role |
| Relay.ContentsIgnoreFirst | server/server.js:134 | whatever the first message is, it never reaches the generation API |
| Relay.MapContentsAppend | server/server.js:134-137 | mapping a log grown by one message gives the old turns plus that message's turn |
| Relay.HistoryToContentsAppend | server/server.js:134-137 | for a non-empty log, one more message adds exactly one more turn at the end |
| Relay.GenerationConfigFor | server/server.js:144-148 | temperature 1.2 exactly for the rude persona and 1.0 otherwise; 200 output tokens; top-p 0.9 |
| Relay.ResolveDifficulty | server/server.js:121 | an absent persona defaults to the open one; a present one is kept as sent |
| Relay.UnsupportedDifficultyError | server/server.js:125 | the 400 text is the fixed prefix followed by a non-empty key list |
| Relay.UnsupportedErrorListsKey | server/server.js:123-127 | the 400 error text names every persona key, each at the offset `join` gives it behind the fixed prefix |
| Relay.GenerationRequestFor | server/server.js:129-148 | the request handed to the generation API: the base text followed by the persona instruction, the history without its first message (turn i carries message i+1's text and role), temperature 1.2 exactly for the rude persona, 200 tokens, top-p 0.9 |
| Relay.AnswerValidated | server/server.js:129-160 | after validation: 200 with the generated text exactly when a history is present and generation succeeds; anything else is the one fixed 500 error |
| Relay.HandleChat | server/server.js:119-161 | the corrected handler, which validates against the table's own keys (see "## Findings"): status 400 exactly for a persona outside the table, with the key list; 200 exactly when the persona is known, a history is present and generation succeeds, with the generated text; every 500 carries the same fixed error; no other status |
| Relay.JsPropertyLookup | server/server.js:123 | `difficultyProfiles[d]` is an own profile exactly for a table key and an inherited member exactly for an `Object.prototype` name outside the table |
| Relay.HandleChatAsWritten | server/server.js:119-160 | the handler as written answers 400 only for names that are neither keys nor inherited names; an inherited name gets the 500 error |
| Relay.AsWrittenAgreesOffPrototype | server/server.js:123-127 | away from the inherited names the handler as written and the validated handler give the same response |
| Relay.InheritedNameEscapesValidation | server/server.js:112-115 | `"toString"` is rejected with 400 by the validated handler but gets 500 from the handler as written |
| Relay.FailureDetailHidden | server/server.js:157-160 | two different generation failures give identical responses |
| Relay.Take3 | server/server.js:169 | `slice(0, 3)`: the first three phrases, or all of them when there are fewer |
| Relay.ListDifficulties | server/server.js:164-170 | one listing entry per profile, in table order; id and name are the key, description is the profile text, phrases are its first three |
| Relay.ListedIdsAccepted | server/server.js:164-170 | every listed id passes the chat handler's validation, both as written and corrected, and selects the profile whose text the listing shows |
| JsString.TrimStart | client/src/App.js:79 | removes exactly the leading whitespace: the result is a suffix, everything cut is whitespace, and it does not start with whitespace |
| JsString.TrimEnd | client/src/App.js:79 | removes exactly the trailing whitespace: the result is a prefix, everything cut is whitespace, and it does not end with whitespace |
| JsString.Trim | client/src/App.js:79 | `trim()` never lengthens a string and gives "" exactly for a string made only of whitespace |
| JsString.Join | server/server.js:115 | `join` of no elements is "", of one element is that element |
| JsString.JoinPlacesElement | server/server.js:115 | `join` lays out element i at its offset, followed by the separator unless it is last, and the last element ends the string |
| JsString.PrefixedJoinPlacesElement | server/server.js:125 | the same placement behind a fixed prefix |
| JsString.Less | client/src/App.js:178 | string `<`, the order of IndexedDB's string keys: lexicographic by character, a proper prefix first; its properties are the lemmas below |
| JsString.LessByFirstDifference | client/src/App.js:178 | of two strings that agree up to some position, the one that ends there sorts first, and otherwise the characters at that position decide |
| JsString.LessIrreflexive | client/src/App.js:178 | no key sorts before itself |
| JsString.LessAsymmetric | client/src/App.js:178 | two keys never sort before each other |
| JsString.LessTotal | client/src/App.js:178 | of two distinct keys one sorts first |
| JsString.LessTransitive | client/src/App.js:178 | the key order is transitive |
| Session.ErrorText | client/src/App.js:100-107 | a failure with a server error shows "Ошибка: " and that text; any other failure shows one of the three fixed texts |
| Session.ErrorTextPriority | client/src/App.js:100-107 | each of the four failure texts is shown exactly under its own condition, in the source's order; a failure with a server error always shows "Ошибка: " and that text, even on a 503 |
| Session.Greeting | client/src/App.js:12 | the session opens with one model message carrying the greeting text, not an error |
| Session.UserMessage | client/src/App.js:81 | the user's message carries the raw typed text and the send time, from the user, not an error |
| Session.ReplyMessage | client/src/App.js:95-116 | the reply appends one model message, which is an error bubble exactly when the send failed; its text is the reply, or the cross mark before the error text |
| Session.ReplyBanner | client/src/App.js:97-108 | the banner is cleared exactly on success, and otherwise it holds the chosen error text |
| Session.ReadBack | client/src/App.js:239-244 | an exported file read back carries its history and persona again |
| Session.Reverse | client/src/App.js:182 | `reverse()`: same length, element i is the i-th from the end |
| Session.ReverseIsNewestFirst | client/src/App.js:180-183 | reversing the key-ordered records gives every stored record exactly once, most recent id first |
| Session.ReverseDescends | client/src/App.js:182 | reversing an ascending sequence of keys gives a descending one |
| Session.FirstIsLeast | client/src/App.js:178 | the first record `getAll` returns has the least key in the store |
| Session.TailInKeyOrder | client/src/App.js:178 | without its first record, a key-ordered enumeration enumerates the store without that key |
| Session.EmptyEnumeration | client/src/App.js:178 | `getAll` returns nothing exactly when the store is empty |
| Session.InKeyOrderUnique | client/src/App.js:178 | the key-ordered enumeration of a store is unique, so the listing depends only on the store's contents |
| Session.LeastKeyExists | client/src/App.js:178 | every non-empty set of keys has a least key |
| Session.ConsInKeyOrder | client/src/App.js:178 | the least record followed by an enumeration of the rest enumerates the whole store in key order |
| Session.KeyOrderExists | client/src/App.js:133 | every store keyed by `id` has a key-ordered enumeration, so `getAll` always has an answer |
| Session.ViewedHistory | client/src/App.js:512-523 | the chat view has messages to render exactly for a viewed record, namely its history; an imported bare array has none |
| Session.SessionController.constructor | client/src/App.js:11-25 | the initial state: one greeting from the model, empty input, not typing, the open persona, nothing viewed, listed or reported |
| Session.SessionController.SendBlocked | client/src/App.js:79 | a pending reply always blocks a send |
| Session.SendBlockedExactly | client/src/App.js:79 | a send is refused exactly when the input is whitespace only or a reply is pending |
| Session.SessionController.SetInput | client/src/App.js:381 | the input field holds the typed text |
| Session.SessionController.SelectDifficulty | client/src/App.js:416 | the chosen persona becomes current |
| Session.SessionController.LoadDifficulties | client/src/App.js:48-75 | a fetched listing is used as it is and clears the banner; a failed fetch installs the fallback catalog and the warning |
| Session.SessionController.BeginSend | client/src/App.js:77-93 | input that trims to nothing, or a pending reply, changes nothing and sends nothing; otherwise the raw input is appended as the user's message, the field is cleared, typing is set, and the whole log is sent with the current persona |
| Session.SessionController.CompleteSend | client/src/App.js:95-119 | exactly one model message is appended, the banner follows the reply, and typing is cleared whether the send succeeded or failed |
| Session.SessionController.SendMessage | client/src/App.js:77-120 | a whole send: refused without change when blocked; otherwise the log grows by the user's line and one reply, in that order, and typing ends off |
| Session.SessionController.StoreStatus | client/src/App.js:126-127 | the status after a store request: the success text, the failure text, or the store's error code behind "Ошибка IndexedDB: " |
| Session.SessionController.SaveChat | client/src/App.js:142-171 | a successful put stores a snapshot of the log and persona under the save time and changes no other key; a failed one leaves the store alone |
| Session.SessionController.FetchSavedChats | client/src/App.js:173-191 | on success the listing is the store's records newest first; on failure it stays as it was, and only a failed open reports |
| Session.SessionController.DeleteChat | client/src/App.js:193-215 | a successful delete removes exactly that key (a missing key is a no-op); a failed one leaves the store alone |
| Session.SessionController.ExportCurrentChat | client/src/App.js:239-255 | the file holds the current persona, the whole log and the export time |
| Session.SessionController.ExportAllChats | client/src/App.js:257-291 | a file exactly on success, holding every record in key order; a failed request leaves the "exporting" status standing; a failed open ends on the export-failure status |
| Session.SessionController.LoadChatFromFile | client/src/App.js:217-237 | a file with a history puts that bare array into the view; a file without one, or an unreadable one, only sets the status; the log and persona are never touched |
| Session.SessionController.LoadChatFromFileCorrected | client/src/App.js:217-237 | as above, but the view holds a record built from the file, with the history and the persona (the open one when the file names none) |
| Session.SessionController.ViewSavedChat | client/src/App.js:293-297 | the chosen record is viewed |
| Session.SessionController.CloseView | client/src/App.js:517 | nothing is viewed |
| Session.SessionController.EditChat | client/src/App.js:299-308 | a viewed record replaces the log and the persona and closes the view; with anything else viewed it is a no-op |
| Catalog.Ids | client/src/App.js:60-69 | the ids of a catalog, in its order |
| Catalog.ServerKeysListed | server/server.js:41-74 | the relay's keys in table order |
| Catalog.FallbackIdsListed | client/src/App.js:60-69 | the fallback ids in catalog order |
| Catalog.FallbackIdsAreServerKeys | client/src/App.js:60-69 | the fallback catalog offers exactly the relay's personas, each once |
| Catalog.FallbackIdsCoverKeys | client/src/App.js:60-69 | every fallback id is a relay key, and every relay key is a fallback id |
| Catalog.FallbackIdsDistinct | client/src/App.js:60-69 | no two fallback entries share an id |
| Catalog.FallbackIdsAccepted | client/src/App.js:60-69 | any fallback persona passes the relay's validation, both as written and corrected |
| Catalog.InitialDifficultyIsDefault | client/src/App.js:21 | the client's initial persona is the relay's default, so naming it or not gives the same response from either handler |
| Catalog.FallbackDiffersFromListing | client/src/App.js:60-69 | the fallback catalog is not the relay's listing: the rude persona comes second, and no fallback entry's description is the text the relay lists for the persona with the same id |
| Scenarios.Exchange | client/src/App.js:77-120 | typing a line and sending it while no reply is pending appends the line and one reply, sends the log up to the line under the current persona, sets the banner from the reply and ends with typing off |
| Scenarios.StartSend | client/src/App.js:77-93 | typing a line and sending it while no reply is pending appends the line and leaves typing on |
| Scenarios.SendOnce | client/src/App.js:77-120 | from a fresh session one send gives the greeting, the user's line and one reply; the request carries the first two; typing ends off; the banner follows the reply; the store is untouched |
| Scenarios.FirstExchange | client/src/App.js:77-120 | a first exchange shows the reply as a genuine model message, and the relay hands only the user's line to the model, under the default persona |
| Scenarios.FailedSend | client/src/App.js:98-119 | a failure with no response shows one error bubble with the generic text and sets the banner; typing ends off and the archive is unchanged |
| Scenarios.OverloadedWithServerText | client/src/App.js:101-106 | a 503 that carries an `error` field shows the server's text, not the overloaded text |
| Scenarios.SendWhileTyping | client/src/App.js:79 | a second send while a reply is pending sends nothing; the log keeps only the greeting and the first line, and the field stays cleared |
| Scenarios.BlankInputIgnored | client/src/App.js:79 | whitespace-only input is not sent and stays in the field |
| Scenarios.ErrorBubbleResent | client/src/App.js:82-92 | an error bubble is sent back in the next request's history, and the relay passes it on as a model turn |
| Scenarios.SnapshotSurvivesSend | client/src/App.js:148-152 | a saved record keeps the log as it was at the save, while later sends grow the live log |
| Scenarios.OneRecord | client/src/App.js:178 | a store of one record is enumerated as that record alone |
| Scenarios.TwoRecords | client/src/App.js:178 | a store of two records is enumerated in key order |
| Scenarios.ListingAfterTwoSaves | client/src/App.js:180-183 | after two successful saves and a failed one, the listing shows the later save first and has no trace of the failed one |
| Scenarios.DeleteThenList | client/src/App.js:193-203 | after a delete the listing shows only the remaining record |
| Scenarios.ImportWithoutHistory | client/src/App.js:225-231 | a file without a history leaves the log and the view alone, and resuming does nothing |
| Scenarios.ImportAsWritten | client/src/App.js:225-227 | as written, an imported export leaves the view with no history to render; were the session to go on, resuming it would leave the new session's greeting and persona |
| Scenarios.ImportCorrected | client/src/App.js:299-308 | with the corrected import the view shows the exported log, and resuming restores that log and persona |
| Scenarios.ExportImportRoundTrip | client/src/App.js:239-244 | exporting a chat and importing it into another session with the corrected import resumes the same log and persona |
| Scenarios.ResumeSaved | client/src/App.js:293-308 | resuming a viewed saved chat restores its log and persona and leaves the archive unchanged; after closing the view, resuming does nothing |

## Left out

- Rendering, scrolling, the modal flags (`isSettingsModalOpen`, `isChatViewModalOpen`, `isArchiveModalOpen`), `isLoading` and `currentDescription`. They are presentation state, and no operation of the model reads them.
- axios, Express, CORS, `dotenv` and the Gemini SDK. The HTTP exchange is the parameter `Reply`, and the generation call is the function parameter `generate`.
- IndexedDB's asynchronous callbacks, `db.close()` and the `upgradeneeded` store creation. Each request is one call with its `DbOutcome` as a parameter. The store is the map `archive`.
- FileReader, `Blob`, `URL.createObjectURL` and the download link. `JSON.parse` and `JSON.stringify` are left out too: an import is the parsed `FileRead`, and an export is the file value.
- The model truthiness-checks a file's `chatHistory` only as present or absent. A `chatHistory` that is truthy but not an array is not modelled.
- Clock readings are parameters. Nothing here states how they relate to each other, beyond the ordering that `ListingAfterTwoSaves` assumes.
- Interleavings of asynchronous handlers are not modelled: a save completing during a send, or two fetches racing. Each handler runs to completion.
- `safetySettings` and the model name are fixed configuration that no decision depends on.
- `Relay.BaseSystemInstruction`: only the first sentence of the base prompt stands in for the full text. The properties hold for any base text.
- `JsString.Less`: it compares characters as Dafny code points, but JavaScript compares UTF-16 code units. The two orders differ only for characters outside the Basic Multilingual Plane.
- There is no operation that resets the conversation in `client/src/App.js`, so none is modelled.
- `Relay.PersonalityInstruction`: stands for the own-key lookup only. For an inherited `Object.prototype` name (`"toString"`, `"__proto__"`, ...) the source throws a TypeError at `profile.phrases.join` (`server/server.js:115`), while this function returns "". That case is modelled only through `Relay.HandleChatAsWritten`.
- `Relay.SystemInstruction`: likewise stands for the own-key lookup only. For an inherited name the source throws while building the prompt, while this function gives the bare base text. That case is modelled only through `Relay.HandleChatAsWritten`.
- `Scenarios.ImportAsWritten`: the render of the chat view at `client/src/App.js:523` runs `viewingChat.chatHistory.map` on the bare array, which throws during render. The throw is not modelled: the model lets the session go on after it, so its resume step is one the source never reaches.
- `Session.SessionController.SetInput`: the input field and the send button are disabled while a reply is pending (`client/src/App.js:383`, `:385`). The model does not capture that: `SetInput` may run while typing, and the guard of `BeginSend` still refuses the send then.
- `app.listen`, the console logs and `console.error` of caught errors are I/O.

## Findings

| source | as written | input that shows it | evidently intended | confidence | as-written member | corrected member |
|---|---|---|---|---|---|---|
| server/server.js:123 | the guard `!difficultyProfiles[difficulty]` is a truthiness check on a plain object literal. It lets every name the object inherits from `Object.prototype` through, and `generatePersonalityInstruction` then throws at `profile.phrases.join`, which answers 500 | `{"history": [], "difficulty": "toString"}` | an unknown persona gets 400 with the list of available keys | high (not executed) | Relay.HandleChatAsWritten, Relay.InheritedNameEscapesValidation | Relay.HandleChat |
| client/src/App.js:226 | the import puts the bare `parsedData.chatHistory` array into `viewingChat`. The view renders `viewingChat.chatHistory.map` (line 523), which is undefined on an array, and `handleEditChat` requires `viewingChat.chatHistory`, so an imported chat can be neither shown nor resumed | any exported chat file, imported | the imported record is viewed like a saved one and can be resumed | high (not executed) | Session.SessionController.LoadChatFromFile, Scenarios.ImportAsWritten | Session.SessionController.LoadChatFromFileCorrected, Scenarios.ExportImportRoundTrip |
