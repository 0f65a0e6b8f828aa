/** Values that travel between the browser client and the relay server:
    chat messages, persona listings and the body of a chat request. */
module Protocol {

  datatype Option<T> = None | Some(value: T) {
    function GetOr(default: T): T {
      match this
      case Some(v) => v
      case None => default
    }
  }

  /** The sender strings the client writes into a message. */
  const UserSender: string := "user"
  const ModelSender: string := "model"

  /** One chat message. `timestamp` is the client's local time-of-day text;
      `isError` is false when the field is absent (a genuine utterance). */
  datatype Message = Message(text: string, sender: string, timestamp: string, isError: bool)

  /** One entry of the persona listing (`GET /api/difficulties`), also the
      shape of the client's fallback catalog. */
  datatype DifficultyInfo = DifficultyInfo(id: string, name: string, description: string, phrases: seq<string>)

  /** The JSON body of `POST /api/chat`; `None` is a field that is absent. */
  datatype ChatBody = ChatBody(history: Option<seq<Message>>, difficulty: Option<string>)
}
