/** The relay server (`server/server.js`): the persona table, the system
    prompt built from it, the mapping of the client's history onto the
    generation API's contents, the generation settings, the outcome of
    `POST /api/chat` and the listing served by `GET /api/difficulties`.
    The generation API itself is a function parameter. */
module Relay {
  import opened Protocol
  import opened JsString

  /** One persona ("difficulty") of the table: its key, the behaviour text
      and its typical phrases. */
  datatype Profile = Profile(key: string, primary: string, phrases: seq<string>)

  /** The persona table, in declaration order. */
  const DifficultyProfiles: seq<Profile> := [
    Profile("Открытый",
      "Ты в целом открыт к разговору о вере, задаёшь искренние вопросы, но иногда сомневаешься. Говоришь дружелюбно и заинтересованно.",
      ["Интересно...", "А что ты думаешь о...", "Хм, никогда так не думал", "Расскажи подробнее"]),
    Profile("Малообщительный",
      "Ты говоришь мало, односложно отвечаешь, не развиваешь тему. Не грубый, но закрытый.",
      ["Да", "Нет", "Не знаю", "Может быть", "Ладно", "Ага", "Хм"]),
    Profile("Грубый",
      "Ты агрессивный, саркастичный, можешь нагрубить. Не материшься, но резко высказываешь своё мнение.",
      ["Бред какой-то", "Да ладно тебе", "Серьёзно?!", "Опять эти сказки", "Достал уже"]),
    Profile("Незаинтересованный",
      "Тебе скучно, ты равнодушен к религиозным темам, отвлекаешься на другое, меняешь тему.",
      ["И что?", "Скучно", "А что по телеку?", "Слушай, а давай о другом", "Ну да, ну да"]),
    Profile("Закрытый",
      "Ты насторожен, не доверяешь, боишься открыться. У тебя есть внутренние раны или плохой опыт с религией.",
      ["Не хочу об этом", "Мне это не нужно", "Оставь меня в покое", "Не лезь в душу"]),
    Profile("Энтузиаст",
      "Ты очень активно интересуешься верой, задаёшь много вопросов, можешь быть навязчивым в своём энтузиазме.",
      ["Расскажи ещё!", "А как насчёт...", "Это так интересно!", "У меня миллион вопросов!"]),
    Profile("Философ",
      "Ты любишь глубокие разговоры, задаёшь сложные вопросы о смысле жизни, страданиях, природе Бога.",
      ["А что если...", "Но как же тогда...", "Это поднимает вопрос о...", "С философской точки зрения..."]),
    Profile("Материалист",
      "Тебя интересуют только практические вопросы: деньги, успех, карьера. Духовность должна приносить пользу.",
      ["А что мне это даст?", "Как это поможет заработать?", "Это практично?", "Какая польза?"])
  ]

  /** The persona used when the request names none. */
  const DefaultDifficulty: string := "Открытый"
  /** The persona that gets the higher sampling temperature. */
  const RudeDifficulty: string := "Грубый"

  /** The fixed behaviour text every system prompt starts with. Only its
      first sentence stands in for the full text here. */
  const BaseSystemInstruction: string := "Ты — Фома, обычный человек 28 лет."

  const ProfileHeader: string := "\nТВОЙ ПРОФИЛЬ: "
  const PhrasesHeader: string := "\nТВОИ ТИПИЧНЫЕ ФРАЗЫ: "
  const PhraseSeparator: string := ", "
  const KeySeparator: string := ", "
  const GenerationErrorText: string := "Произошла ошибка при общении с AI"

  /** The names every JavaScript object literal inherits from
      `Object.prototype`; `difficultyProfiles[name]` is truthy for each. */
  const ObjectPrototypeNames: set<string> := {
    "constructor", "hasOwnProperty", "isPrototypeOf", "propertyIsEnumerable",
    "toLocaleString", "toString", "valueOf", "__proto__",
    "__defineGetter__", "__defineSetter__", "__lookupGetter__", "__lookupSetter__"
  }

  /** The keys of a table, in its order (`Object.keys`). */
  function Keys(table: seq<Profile>): (r: seq<string>)
    ensures |r| == |table|
    ensures forall i | 0 <= i < |table| :: r[i] == table[i].key
  {
    seq(|table|, i requires 0 <= i < |table| => table[i].key)
  }

  function ProfileKeys(): seq<string> {
    Keys(DifficultyProfiles)
  }

  /** `table[key]` for an own property: the first profile with that key. */
  function FindProfile(table: seq<Profile>, key: string): (r: Option<Profile>)
    ensures r.Some? <==> key in Keys(table)
    ensures r.Some? ==> r.value in table && r.value.key == key
  {
    if table == [] then None
    else if table[0].key == key then Some(table[0])
    else
      assert forall k :: k in Keys(table[1..]) ==> k in Keys(table);
      assert key in Keys(table) ==> key in Keys(table[1..]) by {
        if key in Keys(table) {
          var i :| 0 <= i < |table| && Keys(table)[i] == key;
          assert i > 0 && Keys(table[1..])[i - 1] == key;
        }
      }
      FindProfile(table[1..], key)
  }

  function Lookup(key: string): Option<Profile> {
    FindProfile(DifficultyProfiles, key)
  }

  /** No two profiles share a key, and every profile has at least three
      phrases. */
  lemma ProfilesWellFormed()
    ensures forall i, j | 0 <= i < j < |DifficultyProfiles| :: DifficultyProfiles[i].key != DifficultyProfiles[j].key
    ensures forall i | 0 <= i < |DifficultyProfiles| :: |DifficultyProfiles[i].phrases| >= 3
  {
  }

  /** The key of the `i`-th profile finds exactly that profile. */
  lemma {:induction false} LookupAt(i: nat)
    requires i < |DifficultyProfiles|
    ensures Lookup(DifficultyProfiles[i].key) == Some(DifficultyProfiles[i])
  {
    ProfilesWellFormed();
    var p := Lookup(DifficultyProfiles[i].key);
    assert p.Some?;
    var j :| 0 <= j < |DifficultyProfiles| && DifficultyProfiles[j] == p.value;
    assert j == i;
  }

  /** The instruction for one profile: the profile line, then the phrases
      line with the phrases joined by ", ", then a final line break. */
  function ProfileInstruction(p: Profile): (r: string)
    ensures var head := ProfileHeader + p.primary + PhrasesHeader;
      var phrases := Join(p.phrases, PhraseSeparator);
      |r| == |head| + |phrases| + 1 &&
      r[..|head|] == head && r[|head|..|r| - 1] == phrases && r[|r| - 1] == '\n'
  {
    ProfileHeader + p.primary + PhrasesHeader + Join(p.phrases, PhraseSeparator) + "\n"
  }

  /** Every phrase of a profile appears in its instruction, at the position
      `Join` gives it, so in declaration order. */
  lemma ProfileInstructionListsPhrase(p: Profile, i: nat)
    requires i < |p.phrases|
    ensures var at := |ProfileHeader + p.primary + PhrasesHeader| + JoinOffset(p.phrases, PhraseSeparator, i);
      at + |p.phrases[i]| <= |ProfileInstruction(p)| &&
      ProfileInstruction(p)[at..at + |p.phrases[i]|] == p.phrases[i]
  {
    var head := ProfileHeader + p.primary + PhrasesHeader;
    var body := head + Join(p.phrases, PhraseSeparator);
    PrefixedJoinPlacesElement(head, p.phrases, PhraseSeparator, i);
    assert ProfileInstruction(p) == body + "\n";
    var at := |head| + JoinOffset(p.phrases, PhraseSeparator, i);
    assert ProfileInstruction(p)[at..at + |p.phrases[i]|] == body[at..at + |p.phrases[i]|];
  }

  /** `generatePersonalityInstruction` for a key that is either one of the
      table's own keys or no property at all: empty exactly for a key outside
      the table, the profile's instruction otherwise. The source throws for
      the inherited `Object.prototype` names instead; that case is modelled by
      `HandleChatAsWritten`. */
  function PersonalityInstruction(difficulty: string): (r: string)
    ensures r == "" <==> Lookup(difficulty).None?
    ensures Lookup(difficulty).Some? ==> r == ProfileInstruction(Lookup(difficulty).value)
  {
    match Lookup(difficulty)
    case None => ""
    case Some(p) => ProfileInstruction(p)
  }

  /** The full system prompt: the base text, then the persona's instruction
      (for the own-key lookup, as `PersonalityInstruction`). */
  function SystemInstruction(difficulty: string): (r: string)
    ensures BaseSystemInstruction <= r
    ensures r[|BaseSystemInstruction|..] == PersonalityInstruction(difficulty)
    ensures r == BaseSystemInstruction <==> Lookup(difficulty).None?
  {
    BaseSystemInstruction + PersonalityInstruction(difficulty)
  }

  /** One entry of the generation API's `contents`, with its single text part. */
  datatype Content = Content(role: string, text: string)

  /** One message as one turn: the user's messages are `user` turns, every
      other message a `model` turn, with the text unchanged. */
  function ToContent(msg: Message): (r: Content)
    ensures r.text == msg.text
    ensures r.role == "user" <==> msg.sender == UserSender
    ensures r.role == "user" || r.role == "model"
  {
    Content(if msg.sender == UserSender then "user" else "model", msg.text)
  }

  /** `map(msg => ({role, parts: [{text}]}))`: the user's messages become
      `user` turns, everything else (greeting, replies, error bubbles)
      becomes `model` turns, in the same order and with the same text. */
  function MapContents(msgs: seq<Message>): (r: seq<Content>)
    ensures |r| == |msgs|
    ensures forall i | 0 <= i < |msgs| ::
      r[i].text == msgs[i].text &&
      (r[i].role == "user" <==> msgs[i].sender == UserSender) &&
      (r[i].role == "user" || r[i].role == "model")
  {
    if msgs == [] then [] else [ToContent(msgs[0])] + MapContents(msgs[1..])
  }

  /** `history.slice(1).map(...)`: the first element is always dropped. */
  function HistoryToContents(history: seq<Message>): (r: seq<Content>)
    ensures |r| == if history == [] then 0 else |history| - 1
    ensures forall i | 0 <= i < |r| ::
      r[i].text == history[i + 1].text &&
      (r[i].role == "user" <==> history[i + 1].sender == UserSender) &&
      (r[i].role == "user" || r[i].role == "model")
  {
    if history == [] then [] else MapContents(history[1..])
  }

  /** The first element of the history never reaches the generation API. */
  lemma ContentsIgnoreFirst(a: Message, b: Message, rest: seq<Message>)
    ensures HistoryToContents([a] + rest) == HistoryToContents([b] + rest)
  {
    assert ([a] + rest)[1..] == rest == ([b] + rest)[1..];
  }

  /** Mapping commutes with appending one message: the contents of a grown
      log are the old contents plus the new turn. */
  lemma {:induction false} MapContentsAppend(msgs: seq<Message>, m: Message)
    ensures MapContents(msgs + [m]) == MapContents(msgs) + [ToContent(m)]
  {
    if msgs != [] {
      assert (msgs + [m])[1..] == msgs[1..] + [m];
      MapContentsAppend(msgs[1..], m);
    } else {
      assert MapContents([m]) == [ToContent(m)] + MapContents([]);
    }
  }

  lemma HistoryToContentsAppend(history: seq<Message>, m: Message)
    requires history != []
    ensures HistoryToContents(history + [m]) == HistoryToContents(history) + [ToContent(m)]
  {
    assert (history + [m])[1..] == history[1..] + [m];
    MapContentsAppend(history[1..], m);
  }

  datatype GenerationConfig = GenerationConfig(temperature: real, maxOutputTokens: nat, topP: real)

  /** The sampling settings: only the rude persona runs hotter. */
  function GenerationConfigFor(difficulty: string): (r: GenerationConfig)
    ensures r.temperature == 1.2 <==> difficulty == RudeDifficulty
    ensures r.temperature == 1.0 <==> difficulty != RudeDifficulty
    ensures r.maxOutputTokens == 200 && r.topP == 0.9
  {
    GenerationConfig(if difficulty == RudeDifficulty then 1.2 else 1.0, 200, 0.9)
  }

  /** What is handed to the generation API. */
  datatype GenerationRequest = GenerationRequest(systemInstruction: string, contents: seq<Content>, config: GenerationConfig)

  /** What the generation API gives back: a text, or a thrown error. */
  datatype GenOutcome = Generated(text: string) | GenerationFailed(detail: string)

  datatype ResponseBody = MessageBody(message: string) | ErrorBody(error: string)
  datatype Response = Response(status: nat, body: ResponseBody)

  /** `const { difficulty = "Открытый" } = req.body`. */
  function ResolveDifficulty(difficulty: Option<string>): (r: string)
    ensures difficulty.None? ==> r == DefaultDifficulty
    ensures difficulty.Some? ==> r == difficulty.value
  {
    difficulty.GetOr(DefaultDifficulty)
  }

  const UnsupportedPrefix: string := "Неподдерживаемая сложность. Доступные: "

  /** The 400 error text: the keys of the table joined by ", ". */
  function UnsupportedDifficultyError(): (r: string)
    ensures UnsupportedPrefix <= r && |r| > |UnsupportedPrefix|
  {
    UnsupportedPrefix + Join(ProfileKeys(), KeySeparator)
  }

  /** The 400 error text names every key, each at the position `Join` gives
      it, so in declaration order. */
  lemma UnsupportedErrorListsKey(i: nat)
    requires i < |ProfileKeys()|
    ensures var at := |UnsupportedPrefix| + JoinOffset(ProfileKeys(), KeySeparator, i);
      at + |ProfileKeys()[i]| <= |UnsupportedDifficultyError()| &&
      UnsupportedDifficultyError()[at..at + |ProfileKeys()[i]|] == ProfileKeys()[i]
  {
    PrefixedJoinPlacesElement(UnsupportedPrefix, ProfileKeys(), KeySeparator, i);
  }

  /** What the handler hands to the generation API: the system prompt for the
      persona, the history without its first message, and the persona's
      sampling settings. */
  function GenerationRequestFor(history: seq<Message>, difficulty: string): (r: GenerationRequest)
    ensures BaseSystemInstruction <= r.systemInstruction
    ensures r.systemInstruction[|BaseSystemInstruction|..] == PersonalityInstruction(difficulty)
    ensures |r.contents| == if history == [] then 0 else |history| - 1
    ensures forall i | 0 <= i < |r.contents| ::
      r.contents[i].text == history[i + 1].text &&
      (r.contents[i].role == "user" <==> history[i + 1].sender == UserSender)
    ensures r.config.temperature == 1.2 <==> difficulty == RudeDifficulty
    ensures r.config.maxOutputTokens == 200 && r.config.topP == 0.9
  {
    GenerationRequest(SystemInstruction(difficulty), HistoryToContents(history), GenerationConfigFor(difficulty))
  }

  /** The part of the handler after validation: a missing `history` throws at
      `history.slice`, and every thrown error becomes the same 500 reply. */
  function AnswerValidated(history: Option<seq<Message>>, difficulty: string, generate: GenerationRequest -> GenOutcome): (r: Response)
    ensures r.status == 200 <==>
      history.Some? && generate(GenerationRequestFor(history.value, difficulty)).Generated?
    ensures r.status == 200 ==> r.body == MessageBody(generate(GenerationRequestFor(history.value, difficulty)).text)
    ensures r.status != 200 ==> r == Response(500, ErrorBody(GenerationErrorText))
  {
    if history.None? then Response(500, ErrorBody(GenerationErrorText))
    else match generate(GenerationRequestFor(history.value, difficulty))
      case Generated(text) => Response(200, MessageBody(text))
      case GenerationFailed(_) => Response(500, ErrorBody(GenerationErrorText))
  }

  /** `POST /api/chat`, with validation against the table's own keys. */
  function HandleChat(body: ChatBody, generate: GenerationRequest -> GenOutcome): (r: Response)
    ensures var d := ResolveDifficulty(body.difficulty);
      (r.status == 400 <==> d !in ProfileKeys()) &&
      (r.status == 400 ==> r.body == ErrorBody(UnsupportedDifficultyError()))
    ensures var d := ResolveDifficulty(body.difficulty);
      (r.status == 200 <==>
        d in ProfileKeys() && body.history.Some? &&
        generate(GenerationRequestFor(body.history.value, d)).Generated?) &&
      (r.status == 200 ==> r.body == MessageBody(generate(GenerationRequestFor(body.history.value, d)).text))
    ensures r.status == 500 ==> r.body == ErrorBody(GenerationErrorText)
    ensures r.status == 200 || r.status == 400 || r.status == 500
  {
    var d := ResolveDifficulty(body.difficulty);
    if Lookup(d).None? then Response(400, ErrorBody(UnsupportedDifficultyError()))
    else AnswerValidated(body.history, d, generate)
  }

  /** How `difficultyProfiles[d]` behaves in JavaScript: an own profile, an
      inherited `Object.prototype` member, or `undefined`. */
  datatype PropertyLookup = OwnProfile(profile: Profile) | Inherited | Missing

  function JsPropertyLookup(key: string): (r: PropertyLookup)
    ensures r.OwnProfile? <==> key in ProfileKeys()
    ensures r.Inherited? <==> key !in ProfileKeys() && key in ObjectPrototypeNames
  {
    match Lookup(key)
    case Some(p) => OwnProfile(p)
    case None => if key in ObjectPrototypeNames then Inherited else Missing
  }

  /** `POST /api/chat` as the source has it: an inherited name passes the
      truthiness guard, then `profile.phrases.join` throws on it inside
      `generatePersonalityInstruction`, and the catch answers 500. */
  function HandleChatAsWritten(body: ChatBody, generate: GenerationRequest -> GenOutcome): (r: Response)
    ensures var d := ResolveDifficulty(body.difficulty);
      r.status == 400 <==> d !in ProfileKeys() && d !in ObjectPrototypeNames
    ensures var d := ResolveDifficulty(body.difficulty);
      d !in ProfileKeys() && d in ObjectPrototypeNames ==> r == Response(500, ErrorBody(GenerationErrorText))
  {
    var d := ResolveDifficulty(body.difficulty);
    match JsPropertyLookup(d)
    case Missing => Response(400, ErrorBody(UnsupportedDifficultyError()))
    case Inherited => Response(500, ErrorBody(GenerationErrorText))
    case OwnProfile(_) => AnswerValidated(body.history, d, generate)
  }

  /** Away from the inherited names the handler as written and the validated
      handler give the same reply. */
  lemma AsWrittenAgreesOffPrototype(body: ChatBody, generate: GenerationRequest -> GenOutcome)
    requires ResolveDifficulty(body.difficulty) !in ObjectPrototypeNames
    ensures HandleChatAsWritten(body, generate) == HandleChat(body, generate)
  {
  }

  /** `"toString"` is not a persona, yet the handler as written does not
      reject it with 400: it fails with 500. */
  lemma InheritedNameEscapesValidation(generate: GenerationRequest -> GenOutcome)
    ensures HandleChatAsWritten(ChatBody(Some([]), Some("toString")), generate).status == 500
    ensures HandleChat(ChatBody(Some([]), Some("toString")), generate).status == 400
  {
    assert "toString" !in ProfileKeys();
  }

  /** The reply to a failed generation does not depend on the failure. */
  lemma FailureDetailHidden(body: ChatBody, g1: GenerationRequest -> GenOutcome, g2: GenerationRequest -> GenOutcome)
    requires body.history.Some?
    requires var req := GenerationRequestFor(body.history.value, ResolveDifficulty(body.difficulty));
      g1(req).GenerationFailed? && g2(req).GenerationFailed?
    ensures HandleChat(body, g1) == HandleChat(body, g2)
  {
  }

  /** `Array.prototype.slice(0, 3)`. */
  function Take3(xs: seq<string>): (r: seq<string>)
    ensures |xs| >= 3 ==> r == xs[..3]
    ensures |xs| < 3 ==> r == xs
  {
    if |xs| >= 3 then xs[..3] else xs
  }

  /** `GET /api/difficulties`: one entry per profile, in table order, whose id
      and name are the key, whose description is the behaviour text and whose
      phrases are the first three. */
  function ListDifficulties(): (r: seq<DifficultyInfo>)
    ensures |r| == |DifficultyProfiles|
    ensures forall i | 0 <= i < |r| ::
      var p := DifficultyProfiles[i];
      r[i].id == p.key && r[i].name == p.key && r[i].description == p.primary &&
      |r[i].phrases| == 3 && r[i].phrases == p.phrases[..3]
  {
    ProfilesWellFormed();
    seq(|DifficultyProfiles|, i requires 0 <= i < |DifficultyProfiles| =>
      var p := DifficultyProfiles[i];
      DifficultyInfo(p.key, p.key, p.primary, Take3(p.phrases)))
  }

  /** Every listed id is accepted by the chat handler, and the listing
      describes the very profile its id selects. */
  lemma ListedIdsAccepted(i: nat, history: Option<seq<Message>>, generate: GenerationRequest -> GenOutcome)
    requires i < |ListDifficulties()|
    ensures HandleChat(ChatBody(history, Some(ListDifficulties()[i].id)), generate).status != 400
    ensures HandleChatAsWritten(ChatBody(history, Some(ListDifficulties()[i].id)), generate).status != 400
    ensures Lookup(ListDifficulties()[i].id).Some? &&
      Lookup(ListDifficulties()[i].id).value.primary == ListDifficulties()[i].description
  {
    LookupAt(i);
  }
}
