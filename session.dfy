/** The browser client's session controller (`client/src/App.js`): the chat
    log and its send flow, the error texts shown on a failed send, the chat
    archive kept in the browser's IndexedDB store `chats` (keyed by `id`),
    export and import of chat files, and viewing and resuming a chat.
    The relay's reply, the store's outcome, the parsed file and every clock
    reading are parameters. */
module Session {
  import opened Protocol
  import opened JsString

  const InitialDifficulty: string := "Открытый"
  const GreetingText: string := "Привет! Я твой AI-помощник. Чем могу помочь?"
  const DifficultiesLoadError: string := "Не удалось загрузить сложности с сервера. Используются резервные."

  /** The persona catalog the client uses when the listing cannot be fetched. */
  const FallbackDifficulties: seq<DifficultyInfo> := [
    DifficultyInfo("Открытый", "Открытый", "Дружелюбный собеседник", ["Интересно...", "А что ты думаешь...", "Хм, никогда так не думал..."]),
    DifficultyInfo("Грубый", "Грубый", "Резкий и саркастичный", ["Бред какой-то...", "Да ладно тебе...", "Серьёзно?!..."]),
    DifficultyInfo("Малообщительный", "Малообщительный", "Говорит мало, односложно отвечает", ["Да", "Нет", "Не знаю..."]),
    DifficultyInfo("Незаинтересованный", "Незаинтересованный", "Скучный, равнодушный", ["И что?", "Скучно...", "А что по телеку?..."]),
    DifficultyInfo("Закрытый", "Закрытый", "Настороженный, боится открыться", ["Не хочу об этом...", "Мне это не нужно...", "Оставь меня в покое..."]),
    DifficultyInfo("Энтузиаст", "Энтузиаст", "Очень активный, задаёт много вопросов", ["Расскажи ещё!", "А как насчёт...", "Это так интересно!..."]),
    DifficultyInfo("Философ", "Философ", "Любит глубокие разговоры", ["А что если...", "Но как же тогда...", "Это поднимает вопрос о..."]),
    DifficultyInfo("Материалист", "Материалист", "Интересуют только практические вопросы", ["А что мне это даст?", "Как это поможет заработать?", "Это практично?..."])
  ]

  // The texts of a failed send. The longer ones are written as their first
  // word plus the rest, so that the verifier can see their leading letters.
  const GenericSendError: string := "Произошла" + " ошибка при отправке сообщения. Пожалуйста, попробуйте снова."
  const ServerErrorPrefix: string := "Ошибка: "
  const NetworkSendError: string := "Проблема" + " с соединением. Убедитесь, что сервер запущен."
  const OverloadedSendError: string := "Сервер" + " перегружен. Пожалуйста, попробуйте через минуту."
  const NetworkErrorCode: string := "ERR_NETWORK"
  const ErrorBubblePrefix: string := "❌ "

  // The archive and file status lines.
  const SavedStatus: string := "Чат успешно сохранен!"
  const SaveFailedStatus: string := "Ошибка при сохранении чата."
  const DeletedStatus: string := "Чат успешно удален."
  const DeleteFailedStatus: string := "Ошибка при удалении чата."
  const OpenFailedPrefix: string := "Ошибка IndexedDB: "
  const NoHistoryStatus: string := "Ошибка: Файл не содержит историю чата."
  const UnreadableFileStatus: string := "Ошибка: Не удалось прочитать JSON-файл."
  const ExportingStatus: string := "Экспортирую все чаты... Пожалуйста, подождите."
  const ExportDoneStatus: string := "Экспорт завершен!"
  const ExportFailedStatus: string := "Ошибка экспорта."

  /** The HTTP reply carried by a failed request (`err.response`), with the
      `error` field of its body when there is one. */
  datatype HttpError = HttpError(status: nat, error: Option<string>)

  /** What axios rejects with: an optional response and an optional `code`. */
  datatype SendFailure = SendFailure(response: Option<HttpError>, code: Option<string>)

  /** The relay's answer to one send, as the client sees it. */
  datatype Reply = Ok(text: string) | Err(failure: SendFailure)

  /** `err.response.data.error` is present and truthy (a non-empty string). */
  predicate HasServerError(f: SendFailure) {
    f.response.Some? && f.response.value.error.Some? && f.response.value.error.value != ""
  }

  predicate IsNetworkFailure(f: SendFailure) {
    f.code == Some(NetworkErrorCode)
  }

  predicate IsOverloaded(f: SendFailure) {
    f.response.Some? && f.response.value.status == 503
  }

  /** The text a failed send shows, chosen in this order: the server's own
      error text, a network failure, an overloaded server, the generic text. */
  function ErrorText(f: SendFailure): (r: string)
    ensures HasServerError(f) ==> r == ServerErrorPrefix + f.response.value.error.value
    ensures !HasServerError(f) ==> r == NetworkSendError || r == OverloadedSendError || r == GenericSendError
  {
    if HasServerError(f) then ServerErrorPrefix + f.response.value.error.value
    else if IsNetworkFailure(f) then NetworkSendError
    else if IsOverloaded(f) then OverloadedSendError
    else GenericSendError
  }

  /** Each of the four texts is chosen exactly under its own condition, so a
      503 that carries an `error` field shows the server's text. */
  lemma ErrorTextPriority(f: SendFailure)
    ensures ServerErrorPrefix <= ErrorText(f) <==> HasServerError(f)
    ensures HasServerError(f) ==> ErrorText(f)[|ServerErrorPrefix|..] == f.response.value.error.value
    ensures ErrorText(f) == NetworkSendError <==> !HasServerError(f) && IsNetworkFailure(f)
    ensures ErrorText(f) == OverloadedSendError <==>
      !HasServerError(f) && !IsNetworkFailure(f) && IsOverloaded(f)
    ensures ErrorText(f) == GenericSendError <==>
      !HasServerError(f) && !IsNetworkFailure(f) && !IsOverloaded(f)
  {
    var t := ErrorText(f);
    if HasServerError(f) {
      assert t[0] == ServerErrorPrefix[0];
      assert t != NetworkSendError && t != OverloadedSendError && t != GenericSendError;
    } else {
      assert t[0] != ServerErrorPrefix[0];
    }
  }

  /** The model's greeting a session starts with. */
  function Greeting(at: string): (m: Message)
    ensures m.sender == ModelSender && m.text == GreetingText && m.timestamp == at && !m.isError
  {
    Message(GreetingText, ModelSender, at, false)
  }

  /** The message a send appends for the user: the raw, untrimmed input. */
  function UserMessage(text: string, at: string): (m: Message)
    ensures m.sender == UserSender && m.text == text && m.timestamp == at && !m.isError
  {
    Message(text, UserSender, at, false)
  }

  /** The one message the reply appends: the reply text, or an error bubble
      whose text is the error text behind a cross mark. */
  function ReplyMessage(reply: Reply, at: string): (m: Message)
    ensures m.sender == ModelSender && m.timestamp == at
    ensures m.isError <==> reply.Err?
    ensures reply.Ok? ==> m.text == reply.text
    ensures reply.Err? ==> m.text == ErrorBubblePrefix + ErrorText(reply.failure)
  {
    match reply
    case Ok(text) => Message(text, ModelSender, at, false)
    case Err(f) => Message(ErrorBubblePrefix + ErrorText(f), ModelSender, at, true)
  }

  /** The `error` banner after the reply: cleared on success, the error text
      on failure. */
  function ReplyBanner(reply: Reply): (b: Option<string>)
    ensures b.None? <==> reply.Ok?
    ensures reply.Err? ==> b == Some(ErrorText(reply.failure))
  {
    match reply
    case Ok(_) => None
    case Err(f) => Some(ErrorText(f))
  }

  /** A saved chat: the record put into the store, keyed by its `id` (the
      ISO time of the save). */
  datatype Entry = Entry(id: string, difficulty: string, chatHistory: seq<Message>)

  /** `viewingChat`: nothing, a record with a `chatHistory` field, or (after
      an import) the bare message array of a file. */
  datatype Viewing = NotViewing | ViewingEntry(entry: Entry) | ViewingHistory(history: seq<Message>)

  /** The file written by exporting the current chat. */
  datatype ExportFile = ExportFile(difficulty: string, chatHistory: seq<Message>, exportTimestamp: string)

  /** The file written by exporting the whole archive. */
  datatype ArchiveExport = ArchiveExport(exportedChats: seq<Entry>, exportTimestamp: string)

  /** The fields of a parsed import file that the client reads. */
  datatype ParsedFile = ParsedFile(difficulty: Option<string>, chatHistory: Option<seq<Message>>, exportTimestamp: Option<string>)

  /** The outcome of reading an import file: no file chosen, text that
      `JSON.parse` rejects (or `null`), or a parsed object. */
  datatype FileRead = NoFile | Unreadable | Parsed(data: ParsedFile)

  /** An exported file read back: every field is present again. */
  function ReadBack(file: ExportFile): (r: ParsedFile)
    ensures r.chatHistory == Some(file.chatHistory) && r.difficulty == Some(file.difficulty)
  {
    ParsedFile(Some(file.difficulty), Some(file.chatHistory), Some(file.exportTimestamp))
  }

  /** The outcome of one store request: done, the request's error callback,
      or the store failing to open with an error code. */
  datatype DbOutcome = Completed | RequestFailed | OpenFailed(errorCode: string)

  /** The store's key path is `id`: every record sits under its own id. */
  predicate KeyedById(archive: map<string, Entry>) {
    forall k | k in archive :: archive[k].id == k
  }

  /** `getAll()` on the store: every record exactly once, in ascending key
      order. */
  predicate InKeyOrder(all: seq<Entry>, archive: map<string, Entry>) {
    (forall i | 0 <= i < |all| :: all[i].id in archive && archive[all[i].id] == all[i]) &&
    (forall k | k in archive :: exists i | 0 <= i < |all| :: all[i].id == k) &&
    (forall i, j | 0 <= i < j < |all| :: Less(all[i].id, all[j].id))
  }

  /** The archive listing the client shows: every record exactly once, most
      recent id first. */
  predicate NewestFirst(listing: seq<Entry>, archive: map<string, Entry>) {
    (forall i | 0 <= i < |listing| :: listing[i].id in archive && archive[listing[i].id] == listing[i]) &&
    (forall k | k in archive :: exists i | 0 <= i < |listing| :: listing[i].id == k) &&
    (forall i, j | 0 <= i < j < |listing| :: Less(listing[j].id, listing[i].id))
  }

  /** `Array.prototype.reverse`. */
  function Reverse<T>(s: seq<T>): (r: seq<T>)
    ensures |r| == |s|
    ensures forall i | 0 <= i < |s| :: r[i] == s[|s| - 1 - i]
  {
    if s == [] then [] else Reverse(s[1..]) + [s[0]]
  }

  /** Reversing the store's key-ordered records gives the newest-first
      listing. */
  lemma ReverseIsNewestFirst(all: seq<Entry>, archive: map<string, Entry>)
    requires InKeyOrder(all, archive)
    ensures NewestFirst(Reverse(all), archive)
  {
    var r := Reverse(all);
    forall k | k in archive ensures exists i | 0 <= i < |r| :: r[i].id == k {
      var j :| 0 <= j < |all| && all[j].id == k;
      assert r[|all| - 1 - j].id == k;
    }
    ReverseDescends(all);
  }

  lemma ReverseDescends(all: seq<Entry>)
    requires forall i, j | 0 <= i < j < |all| :: Less(all[i].id, all[j].id)
    ensures var r := Reverse(all); forall i, j | 0 <= i < j < |r| :: Less(r[j].id, r[i].id)
  {
    var r := Reverse(all);
    forall i, j | 0 <= i < j < |r| ensures Less(r[j].id, r[i].id) {
      assert r[j] == all[|all| - 1 - j] && r[i] == all[|all| - 1 - i];
    }
  }

  /** The first record of a key-ordered enumeration has the least key. */
  lemma FirstIsLeast(all: seq<Entry>, archive: map<string, Entry>)
    requires InKeyOrder(all, archive) && all != []
    ensures forall k | k in archive :: k == all[0].id || Less(all[0].id, k)
  {
    forall k | k in archive ensures k == all[0].id || Less(all[0].id, k) {
      var n :| 0 <= n < |all| && all[n].id == k;
      if n > 0 {
        assert Less(all[0].id, all[n].id);
      }
    }
  }

  /** Dropping the first record of a key-ordered enumeration enumerates the
      archive without that key. */
  lemma TailInKeyOrder(all: seq<Entry>, archive: map<string, Entry>)
    requires InKeyOrder(all, archive) && all != []
    ensures InKeyOrder(all[1..], archive - {all[0].id})
  {
    var k := all[0].id;
    var rest := archive - {k};
    forall n | 1 <= n < |all| ensures all[n].id != k {
      LessIrreflexive(k);
      assert Less(k, all[n].id);
    }
    forall key | key in rest ensures exists n | 0 <= n < |all[1..]| :: all[1..][n].id == key {
      var n :| 0 <= n < |all| && all[n].id == key;
      assert n > 0 && all[1..][n - 1].id == key;
    }
  }

  /** A key-ordered enumeration is empty exactly when the archive is. */
  lemma EmptyEnumeration(all: seq<Entry>, archive: map<string, Entry>)
    requires InKeyOrder(all, archive)
    ensures all == [] <==> archive == map[]
  {
    if all != [] {
      assert all[0].id in archive;
    }
    if archive != map[] {
      var k :| k in archive;
      var n :| 0 <= n < |all| && all[n].id == k;
    }
  }

  /** The key-ordered enumeration of an archive is unique: the listing is a
      function of the archive's contents alone. */
  lemma {:induction false} InKeyOrderUnique(a: seq<Entry>, b: seq<Entry>, archive: map<string, Entry>)
    requires InKeyOrder(a, archive) && InKeyOrder(b, archive)
    ensures a == b
    decreases |a|
  {
    EmptyEnumeration(a, archive);
    EmptyEnumeration(b, archive);
    if a != [] && b != [] {
      FirstIsLeast(a, archive);
      FirstIsLeast(b, archive);
      LessAsymmetric(a[0].id, b[0].id);
      TailInKeyOrder(a, archive);
      TailInKeyOrder(b, archive);
      InKeyOrderUnique(a[1..], b[1..], archive - {a[0].id});
    }
  }

  /** Every finite set of keys has a least key. */
  lemma {:induction false} LeastKeyExists(keys: set<string>) returns (m: string)
    requires keys != {}
    ensures m in keys && forall k | k in keys :: k == m || Less(m, k)
    decreases |keys|
  {
    var x :| x in keys;
    if keys == {x} {
      m := x;
    } else {
      var rest := keys - {x};
      var m' := LeastKeyExists(rest);
      LessTotal(x, m');
      if Less(x, m') {
        m := x;
        forall k | k in keys ensures k == m || Less(m, k) {
          if k != x {
            assert k in rest;
            if k != m' {
              LessTransitive(x, m', k);
            }
          }
        }
      } else {
        m := m';
      }
    }
  }

  /** The record under the least key, followed by a key-ordered enumeration
      of the rest, enumerates the whole archive in key order. */
  lemma ConsInKeyOrder(m: string, tail: seq<Entry>, archive: map<string, Entry>)
    requires KeyedById(archive) && m in archive
    requires forall k | k in archive :: k == m || Less(m, k)
    requires InKeyOrder(tail, archive - {m})
    ensures InKeyOrder([archive[m]] + tail, archive)
  {
    ConsRecords(m, tail, archive);
    ConsOrdered(m, tail, archive);
    ConsCovers(m, tail, archive);
  }

  lemma ConsRecords(m: string, tail: seq<Entry>, archive: map<string, Entry>)
    requires KeyedById(archive) && m in archive
    requires InKeyOrder(tail, archive - {m})
    ensures var all := [archive[m]] + tail;
      forall i | 0 <= i < |all| :: all[i].id in archive && archive[all[i].id] == all[i]
  {
    var all := [archive[m]] + tail;
    forall i | 0 <= i < |all| ensures all[i].id in archive && archive[all[i].id] == all[i] {
      if i > 0 {
        assert all[i] == tail[i - 1];
      }
    }
  }

  lemma ConsOrdered(m: string, tail: seq<Entry>, archive: map<string, Entry>)
    requires KeyedById(archive) && m in archive
    requires forall k | k in archive :: k == m || Less(m, k)
    requires InKeyOrder(tail, archive - {m})
    ensures var all := [archive[m]] + tail;
      forall i, j | 0 <= i < j < |all| :: Less(all[i].id, all[j].id)
  {
    var all := [archive[m]] + tail;
    forall i, j | 0 <= i < j < |all| ensures Less(all[i].id, all[j].id) {
      assert all[j] == tail[j - 1] && tail[j - 1].id in archive - {m};
      if i > 0 {
        assert all[i] == tail[i - 1];
      }
    }
  }

  lemma ConsCovers(m: string, tail: seq<Entry>, archive: map<string, Entry>)
    requires KeyedById(archive) && m in archive
    requires InKeyOrder(tail, archive - {m})
    ensures var all := [archive[m]] + tail;
      forall k | k in archive :: exists i | 0 <= i < |all| :: all[i].id == k
  {
    var all := [archive[m]] + tail;
    forall k | k in archive ensures exists i | 0 <= i < |all| :: all[i].id == k {
      if k == m {
        assert all[0].id == k;
      } else {
        assert k in archive - {m};
        var n :| 0 <= n < |tail| && tail[n].id == k;
        assert all[n + 1].id == k;
      }
    }
  }

  /** Every store keyed by id has a key-ordered enumeration, so `getAll` can
      always answer. */
  lemma {:induction false} KeyOrderExists(archive: map<string, Entry>) returns (all: seq<Entry>)
    requires KeyedById(archive)
    ensures InKeyOrder(all, archive)
    decreases |archive|
  {
    if archive == map[] {
      all := [];
    } else {
      var m := LeastKeyExists(archive.Keys);
      var rest := archive - {m};
      assert |rest| < |archive| by {
        assert rest.Keys == archive.Keys - {m};
      }
      var tail := KeyOrderExists(rest);
      ConsInKeyOrder(m, tail, archive);
      all := [archive[m]] + tail;
    }
  }

  /** What the chat-view modal renders, `viewingChat.chatHistory`: the
      messages of a viewed record, and nothing (`.map` of `undefined`
      throws) for the bare array an import leaves there. */
  function ViewedHistory(v: Viewing): (r: Option<seq<Message>>)
    ensures r.Some? <==> v.ViewingEntry?
    ensures v.ViewingEntry? ==> r.value == v.entry.chatHistory
  {
    match v
    case ViewingEntry(e) => Some(e.chatHistory)
    case _ => None
  }

  /** The client's session: the fields mirror the component's state, and
      `archive` stands for the contents of the IndexedDB store `chats`,
      which outlives the session. */
  class SessionController {
    var messages: seq<Message>
    var input: string
    var isTyping: bool
    var difficulty: string
    var difficulties: seq<DifficultyInfo>
    var viewingChat: Viewing
    var savedChats: seq<Entry>
    var dbStatus: string
    var error: Option<string>
    var archive: map<string, Entry>

    ghost predicate Valid()
      reads this
    {
      KeyedById(archive)
    }

    /** The initial state: one greeting from the model, empty input, not
        typing, the open persona, nothing viewed, saved or reported. */
    constructor (greetingTime: string, store: map<string, Entry>)
      requires KeyedById(store)
      ensures Valid()
      ensures messages == [Greeting(greetingTime)] && input == "" && !isTyping
      ensures difficulty == InitialDifficulty && difficulties == []
      ensures viewingChat == NotViewing && savedChats == [] && dbStatus == "" && error == None
      ensures archive == store
    {
      messages := [Greeting(greetingTime)];
      input := "";
      isTyping := false;
      difficulty := InitialDifficulty;
      difficulties := [];
      viewingChat := NotViewing;
      savedChats := [];
      dbStatus := "";
      error := None;
      archive := store;
    }

    /** The guard of `handleSendMessage`. */
    predicate SendBlocked(): (r: bool)
      reads this
      ensures isTyping ==> r
    {
      Trim(input) == "" || isTyping
    }

    /** The input field's `onChange`. */
    method SetInput(text: string)
      modifies this`input
      ensures input == text
    {
      input := text;
    }

    /** The persona select's `onChange`. */
    method SelectDifficulty(d: string)
      modifies this`difficulty
      ensures difficulty == d
    {
      difficulty := d;
    }

    /** `fetchDifficulties`: the fetched listing, or the fallback catalog and
        a warning when the fetch fails. */
    method LoadDifficulties(fetched: Option<seq<DifficultyInfo>>)
      modifies this`difficulties, this`error
      ensures fetched.Some? ==> difficulties == fetched.value && error == None
      ensures fetched.None? ==> difficulties == FallbackDifficulties && error == Some(DifficultiesLoadError)
    {
      match fetched
      case Some(list) =>
        difficulties := list;
        error := None;
      case None =>
        error := Some(DifficultiesLoadError);
        difficulties := FallbackDifficulties;
    }

    /** The first half of `handleSendMessage`, up to the request: rejected
        without any change when the input trims to nothing or a reply is
        pending; otherwise the user's message is appended, the input cleared,
        the typing flag set, and the whole log (error bubbles included) is
        sent with the current persona. */
    method BeginSend(sentAt: string) returns (request: Option<ChatBody>)
      modifies this`messages, this`input, this`isTyping
      ensures request.None? <==> old(SendBlocked())
      ensures old(SendBlocked()) ==>
        messages == old(messages) && input == old(input) && isTyping == old(isTyping)
      ensures !old(SendBlocked()) ==>
        messages == old(messages) + [UserMessage(old(input), sentAt)] &&
        input == "" && isTyping &&
        request == Some(ChatBody(Some(messages), Some(difficulty)))
    {
      if SendBlocked() {
        return None;
      }
      var userMessage := UserMessage(input, sentAt);
      messages := messages + [userMessage];
      input := "";
      isTyping := true;
      request := Some(ChatBody(Some(messages), Some(difficulty)));
    }

    /** The second half of `handleSendMessage`: exactly one model message is
        appended (the reply, or an error bubble), the banner is set
        accordingly, and the typing flag is cleared in every case. */
    method CompleteSend(reply: Reply, repliedAt: string)
      requires isTyping
      modifies this`messages, this`isTyping, this`error
      ensures messages == old(messages) + [ReplyMessage(reply, repliedAt)]
      ensures error == ReplyBanner(reply)
      ensures !isTyping
    {
      messages := messages + [ReplyMessage(reply, repliedAt)];
      error := ReplyBanner(reply);
      isTyping := false;
    }

    /** A whole send, run to completion: when accepted, the log grows by the
        user's message and one reply, in that order. */
    method SendMessage(reply: Reply, sentAt: string, repliedAt: string) returns (request: Option<ChatBody>)
      modifies this`messages, this`input, this`isTyping, this`error
      ensures request.None? <==> old(SendBlocked())
      ensures old(SendBlocked()) ==>
        messages == old(messages) && input == old(input) && isTyping == old(isTyping) && error == old(error)
      ensures !old(SendBlocked()) ==>
        messages == old(messages) + [UserMessage(old(input), sentAt), ReplyMessage(reply, repliedAt)] &&
        input == "" && !isTyping && error == ReplyBanner(reply) &&
        request == Some(ChatBody(Some(old(messages) + [UserMessage(old(input), sentAt)]), Some(difficulty)))
    {
      request := BeginSend(sentAt);
      if request.Some? {
        CompleteSend(reply, repliedAt);
      }
    }

    /** The status line after a store request. */
    static function StoreStatus(outcome: DbOutcome, done: string, failed: string): (s: string)
      ensures outcome.Completed? ==> s == done
      ensures outcome.RequestFailed? ==> s == failed
      ensures outcome.OpenFailed? ==> s == OpenFailedPrefix + outcome.errorCode
    {
      match outcome
      case Completed => done
      case RequestFailed => failed
      case OpenFailed(code) => OpenFailedPrefix + code
    }

    /** `saveChatToDB`: puts a snapshot of the log and persona under the key
        `now`; no other key changes. On failure the archive is untouched. */
    method SaveChat(now: string, outcome: DbOutcome)
      requires Valid()
      modifies this`archive, this`dbStatus
      ensures Valid()
      ensures outcome.Completed? ==> archive == old(archive)[now := Entry(now, difficulty, messages)]
      ensures !outcome.Completed? ==> archive == old(archive)
      ensures dbStatus == StoreStatus(outcome, SavedStatus, SaveFailedStatus)
    {
      if outcome.Completed? {
        archive := archive[now := Entry(now, difficulty, messages)];
      }
      dbStatus := StoreStatus(outcome, SavedStatus, SaveFailedStatus);
    }

    /** `fetchSavedChats`: the store's records in key order (`all`, what
        `getAll` answers) are shown reversed, newest first. A failed request
        has no handler; a failed open reports its code. */
    method FetchSavedChats(outcome: DbOutcome, all: seq<Entry>)
      requires outcome.Completed? ==> InKeyOrder(all, archive)
      modifies this`savedChats, this`dbStatus
      ensures outcome.Completed? ==> savedChats == Reverse(all) && NewestFirst(savedChats, archive)
      ensures !outcome.Completed? ==> savedChats == old(savedChats)
      ensures outcome.OpenFailed? ==> dbStatus == OpenFailedPrefix + outcome.errorCode
      ensures !outcome.OpenFailed? ==> dbStatus == old(dbStatus)
    {
      match outcome
      case Completed =>
        ReverseIsNewestFirst(all, archive);
        savedChats := Reverse(all);
      case RequestFailed =>
      case OpenFailed(code) =>
        dbStatus := OpenFailedPrefix + code;
    }

    /** `handleDeleteChat`: removes the key `id` and nothing else; deleting
        a key that is not there is a successful no-op. */
    method DeleteChat(id: string, outcome: DbOutcome)
      requires Valid()
      modifies this`archive, this`dbStatus
      ensures Valid()
      ensures outcome.Completed? ==> archive == old(archive) - {id}
      ensures !outcome.Completed? ==> archive == old(archive)
      ensures dbStatus == StoreStatus(outcome, DeletedStatus, DeleteFailedStatus)
    {
      if outcome.Completed? {
        archive := archive - {id};
      }
      dbStatus := StoreStatus(outcome, DeletedStatus, DeleteFailedStatus);
    }

    /** `handleExportCurrentChat`: the record written to the file; the
        session and the archive are left as they are. */
    method ExportCurrentChat(exportedAt: string) returns (file: ExportFile)
      ensures file.difficulty == difficulty && file.chatHistory == messages
      ensures file.exportTimestamp == exportedAt
    {
      file := ExportFile(difficulty, messages, exportedAt);
    }

    /** `handleExportAllChats`: every record in key order with the time of
        export. A failed open ends on the export-failure status; a failed
        request leaves the "exporting" status standing. */
    method ExportAllChats(outcome: DbOutcome, all: seq<Entry>, exportedAt: string) returns (file: Option<ArchiveExport>)
      requires outcome.Completed? ==> InKeyOrder(all, archive)
      modifies this`dbStatus
      ensures file.Some? <==> outcome.Completed?
      ensures outcome.Completed? ==>
        file == Some(ArchiveExport(all, exportedAt)) && dbStatus == ExportDoneStatus
      ensures outcome.RequestFailed? ==> dbStatus == ExportingStatus
      ensures outcome.OpenFailed? ==> dbStatus == ExportFailedStatus
    {
      dbStatus := ExportingStatus;
      match outcome
      case Completed =>
        file := Some(ArchiveExport(all, exportedAt));
        dbStatus := ExportDoneStatus;
      case RequestFailed =>
        file := None;
      case OpenFailed(code) =>
        dbStatus := OpenFailedPrefix + code;
        dbStatus := ExportFailedStatus;
        file := None;
    }

    /** `handleLoadChatFromFile` after the file is read, as the source has it:
        a file with a `chatHistory` field is opened for viewing as that bare
        message array; without it, or unreadable, only the status changes.
        The live log and persona are never touched. */
    method LoadChatFromFile(read: FileRead)
      modifies this`viewingChat, this`dbStatus
      ensures read.NoFile? ==> viewingChat == old(viewingChat) && dbStatus == old(dbStatus)
      ensures read.Unreadable? ==> viewingChat == old(viewingChat) && dbStatus == UnreadableFileStatus
      ensures read.Parsed? && read.data.chatHistory.None? ==>
        viewingChat == old(viewingChat) && dbStatus == NoHistoryStatus
      ensures read.Parsed? && read.data.chatHistory.Some? ==>
        viewingChat == ViewingHistory(read.data.chatHistory.value) && dbStatus == old(dbStatus)
    {
      match read
      case NoFile =>
      case Unreadable =>
        dbStatus := UnreadableFileStatus;
      case Parsed(data) =>
        if data.chatHistory.Some? {
          viewingChat := ViewingHistory(data.chatHistory.value);
        } else {
          dbStatus := NoHistoryStatus;
        }
    }

    /** The import as evidently intended: the parsed record itself is viewed,
        so that it can be resumed like a saved chat (a file without a
        persona resumes with the initial one, which is also what the relay
        assumes when none is sent). */
    method LoadChatFromFileCorrected(read: FileRead)
      modifies this`viewingChat, this`dbStatus
      ensures read.NoFile? ==> viewingChat == old(viewingChat) && dbStatus == old(dbStatus)
      ensures read.Unreadable? ==> viewingChat == old(viewingChat) && dbStatus == UnreadableFileStatus
      ensures read.Parsed? && read.data.chatHistory.None? ==>
        viewingChat == old(viewingChat) && dbStatus == NoHistoryStatus
      ensures read.Parsed? && read.data.chatHistory.Some? ==>
        viewingChat == ViewingEntry(Entry(read.data.exportTimestamp.GetOr(""),
          read.data.difficulty.GetOr(InitialDifficulty), read.data.chatHistory.value)) &&
        dbStatus == old(dbStatus)
    {
      match read
      case NoFile =>
      case Unreadable =>
        dbStatus := UnreadableFileStatus;
      case Parsed(data) =>
        if data.chatHistory.Some? {
          viewingChat := ViewingEntry(Entry(data.exportTimestamp.GetOr(""),
            data.difficulty.GetOr(InitialDifficulty), data.chatHistory.value));
        } else {
          dbStatus := NoHistoryStatus;
        }
    }

    /** `handleViewSavedChat`: open a saved record for viewing. */
    method ViewSavedChat(chat: Entry)
      modifies this`viewingChat
      ensures viewingChat == ViewingEntry(chat)
    {
      viewingChat := ViewingEntry(chat);
    }

    /** The view's close buttons. */
    method CloseView()
      modifies this`viewingChat
      ensures viewingChat == NotViewing
    {
      viewingChat := NotViewing;
    }

    /** `handleEditChat`: resume the viewed record, replacing the log and the
        persona and closing the view. Anything without a `chatHistory`
        field (nothing viewed, or an imported bare array) is a no-op. The
        archive is never touched. */
    method EditChat()
      modifies this`messages, this`difficulty, this`viewingChat
      ensures old(viewingChat).ViewingEntry? ==>
        messages == old(viewingChat).entry.chatHistory &&
        difficulty == old(viewingChat).entry.difficulty &&
        viewingChat == NotViewing
      ensures !old(viewingChat).ViewingEntry? ==>
        messages == old(messages) && difficulty == old(difficulty) && viewingChat == old(viewingChat)
    {
      match viewingChat
      case ViewingEntry(entry) =>
        messages := entry.chatHistory;
        difficulty := entry.difficulty;
        viewingChat := NotViewing;
      case NotViewing =>
      case ViewingHistory(_) =>
    }
  }

  /** The guard of `handleSendMessage` refuses a send exactly when the input
      is whitespace only or a reply is still pending. */
  lemma SendBlockedExactly(c: SessionController)
    ensures c.SendBlocked() <==> IsBlank(c.input) || c.isTyping
  {
  }
}
