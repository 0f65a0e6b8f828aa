/** Whole sessions of the client run against the relay's behaviour: a fresh
    controller is driven through the component's handlers in the order a
    user triggers them, and what the user ends up with is stated about the
    results. */
module Scenarios {
  import opened Protocol
  import opened JsString
  import Relay
  import opened Session

  /** The user types a line and sends it, and the reply arrives: the log
      grows by the line and one reply message, the request carried the log
      up to the line under the current persona, the banner follows the
      reply and the typing indicator ends off. */
  method Exchange(c: SessionController, text: string, t1: string, reply: Reply, t2: string) returns (sent: ChatBody)
    requires !IsBlank(text) && !c.isTyping
    modifies c`input, c`messages, c`isTyping, c`error
    ensures sent == ChatBody(Some(old(c.messages) + [UserMessage(text, t1)]), Some(c.difficulty))
    ensures c.messages == old(c.messages) + [UserMessage(text, t1), ReplyMessage(reply, t2)]
    ensures c.error == ReplyBanner(reply) && !c.isTyping
  {
    c.SetInput(text);
    assert !c.SendBlocked();
    var r := c.SendMessage(reply, t1, t2);
    sent := r.value;
  }

  /** One send from a fresh session: the log is the greeting, the user's
      line and the one reply message; the request carried the greeting and
      the user's line; the typing indicator is off, the banner follows the
      reply and the archive is as it was. */
  method SendOnce(t0: string, store: map<string, Entry>, text: string, t1: string, reply: Reply, t2: string)
    returns (log: seq<Message>, sent: ChatBody, banner: Option<string>, typing: bool, archive: map<string, Entry>)
    requires KeyedById(store) && !IsBlank(text)
    ensures log == [Greeting(t0), UserMessage(text, t1), ReplyMessage(reply, t2)]
    ensures sent == ChatBody(Some([Greeting(t0), UserMessage(text, t1)]), Some(InitialDifficulty))
    ensures banner == ReplyBanner(reply) && !typing && archive == store
  {
    var c := new SessionController(t0, store);
    sent := Exchange(c, text, t1, reply, t2);
    log, banner, typing, archive := c.messages, c.error, c.isTyping, c.archive;
    assert log == [Greeting(t0)] + [UserMessage(text, t1), ReplyMessage(reply, t2)];
    assert [Greeting(t0)] + [UserMessage(text, t1)] == [Greeting(t0), UserMessage(text, t1)];
  }

  /** A first exchange: the greeting, the user's line and the reply; the
      relay hands only the user's line to the model, under the default
      persona. */
  method FirstExchange(t0: string, text: string, t1: string, answer: string, t2: string)
    returns (log: seq<Message>, typing: bool, contents: seq<Relay.Content>, persona: string)
    requires !IsBlank(text)
    ensures |log| == 3 && log[0] == Greeting(t0) && log[1] == UserMessage(text, t1)
    ensures log[2].text == answer && log[2].sender == ModelSender && !log[2].isError
    ensures !typing
    ensures contents == [Relay.Content("user", text)]
    ensures persona == Relay.DefaultDifficulty
  {
    var sent, banner, archive;
    log, sent, banner, typing, archive := SendOnce(t0, map[], text, t1, Ok(answer), t2);
    contents := Relay.HistoryToContents(sent.history.value);
    persona := sent.difficulty.value;
  }

  /** A send that fails without any reply from the server (a timeout, say):
      one error bubble with the generic text, the banner set, the typing
      indicator off, and the archive as it was. */
  method FailedSend(t0: string, store: map<string, Entry>, text: string, t1: string, t2: string)
    returns (log: seq<Message>, banner: Option<string>, typing: bool, archive: map<string, Entry>)
    requires KeyedById(store) && !IsBlank(text)
    ensures |log| == 3 && log[1] == UserMessage(text, t1)
    ensures log[2].isError && log[2].text == ErrorBubblePrefix + GenericSendError
    ensures banner == Some(GenericSendError)
    ensures !typing && archive == store
  {
    var f := SendFailure(None, None);
    assert ErrorText(f) == GenericSendError;
    var sent;
    log, sent, banner, typing, archive := SendOnce(t0, store, text, t1, Err(f), t2);
  }

  /** A 503 whose body carries an `error` field shows the server's text, not
      the overloaded text. */
  method OverloadedWithServerText(t0: string, text: string, t1: string, detail: string, t2: string)
    returns (bubble: Message)
    requires !IsBlank(text) && detail != ""
    ensures bubble.isError && bubble.text == ErrorBubblePrefix + (ServerErrorPrefix + detail)
  {
    var f := SendFailure(Some(HttpError(503, Some(detail))), None);
    assert ErrorText(f) == ServerErrorPrefix + detail;
    var log, _, _, _, _ := SendOnce(t0, map[], text, t1, Err(f), t2);
    bubble := log[2];
  }

  /** The user types a line and sends it, and the reply has not arrived yet:
      the line is appended and the typing indicator is on. */
  method StartSend(c: SessionController, text: string, t: string)
    requires !IsBlank(text) && !c.isTyping
    modifies c`input, c`messages, c`isTyping
    ensures c.messages == old(c.messages) + [UserMessage(text, t)] && c.isTyping && c.input == ""
  {
    c.SetInput(text);
    var _ := c.BeginSend(t);
  }

  /** While a reply is pending a second send is refused: nothing is sent,
      the log holds only the greeting and the first line, and the field
      stays cleared. */
  method SendWhileTyping(t0: string, first: string, t1: string, t2: string)
    returns (secondRequest: Option<ChatBody>, log: seq<Message>, pendingInput: string)
    requires !IsBlank(first)
    ensures secondRequest == None
    ensures log == [Greeting(t0), UserMessage(first, t1)]
    ensures pendingInput == ""
  {
    var c := new SessionController(t0, map[]);
    StartSend(c, first, t1);
    assert c.messages == [Greeting(t0)] + [UserMessage(first, t1)];
    assert c.SendBlocked();
    secondRequest := c.BeginSend(t2);
    log, pendingInput := c.messages, c.input;
  }

  /** Input made of whitespace only is not sent and stays in the field. */
  method BlankInputIgnored(t0: string, text: string, t1: string)
    returns (request: Option<ChatBody>, log: seq<Message>, field: string)
    requires IsBlank(text)
    ensures request == None && log == [Greeting(t0)] && field == text
  {
    var c := new SessionController(t0, map[]);
    c.SetInput(text);
    request := c.BeginSend(t1);
    log, field := c.messages, c.input;
  }

  /** An error bubble stays in the log and is sent back as part of the
      history of the next message, where the relay passes it to the model as
      one of the model's own turns. */
  method ErrorBubbleResent(t0: string, a: string, t1: string, f: SendFailure, t2: string,
                           b: string, t3: string, answer: string, t4: string)
    returns (history: seq<Message>, contents: seq<Relay.Content>)
    requires !IsBlank(a) && !IsBlank(b)
    ensures |history| == 4 && history[2].isError && history[2].text == ErrorBubblePrefix + ErrorText(f)
    ensures |contents| == 3 && contents[1] == Relay.Content("model", ErrorBubblePrefix + ErrorText(f))
  {
    var c := new SessionController(t0, map[]);
    var _ := Exchange(c, a, t1, Err(f), t2);
    var bubble := ReplyMessage(Err(f), t2);
    var log := c.messages;
    assert log == [Greeting(t0)] + [UserMessage(a, t1), bubble];
    var request := Exchange(c, b, t3, Ok(answer), t4);
    history := request.history.value;
    assert history == log + [UserMessage(b, t3)];
    contents := Relay.HistoryToContents(history);
  }

  /** A saved chat is a snapshot: a later exchange grows the live log, but
      the record under the save time keeps the log as it was. */
  method SnapshotSurvivesSend(t0: string, now: string, text: string, t1: string, answer: string, t2: string)
    returns (saved: Entry, log: seq<Message>)
    requires !IsBlank(text)
    ensures saved == Entry(now, InitialDifficulty, [Greeting(t0)])
    ensures |log| == 3 && log[0] == Greeting(t0)
  {
    var c := new SessionController(t0, map[]);
    c.SaveChat(now, Completed);
    var _ := Exchange(c, text, t1, Ok(answer), t2);
    saved, log := c.archive[now], c.messages;
  }

  /** An archive of one record is enumerated as that record alone. */
  lemma OneRecord(all: seq<Entry>, e: Entry)
    requires InKeyOrder(all, map[e.id := e])
    ensures all == [e]
  {
    var archive := map[e.id := e];
    assert InKeyOrder([e], archive) by {
      forall k | k in archive ensures exists i | 0 <= i < 1 :: [e][i].id == k {
        assert [e][0].id == k;
      }
    }
    InKeyOrderUnique(all, [e], archive);
  }

  /** An archive of two records is enumerated in the order of their keys. */
  lemma TwoRecords(all: seq<Entry>, e1: Entry, e2: Entry)
    requires Less(e1.id, e2.id)
    requires InKeyOrder(all, map[e1.id := e1, e2.id := e2])
    ensures all == [e1, e2]
  {
    LessIrreflexive(e1.id);
    var archive := map[e1.id := e1, e2.id := e2];
    assert InKeyOrder([e1, e2], archive) by {
      forall k | k in archive ensures exists i | 0 <= i < 2 :: [e1, e2][i].id == k {
        if k == e1.id {
          assert [e1, e2][0].id == k;
        } else {
          assert [e1, e2][1].id == k;
        }
      }
    }
    InKeyOrderUnique(all, [e1, e2], archive);
  }

  /** Two saves, then the archive list: the later save is listed first, and
      a failed save in between leaves no trace. */
  method ListingAfterTwoSaves(t0: string, early: string, late: string, failedAt: string, all: seq<Entry>)
    returns (listing: seq<Entry>)
    requires Less(early, late)
    requires InKeyOrder(all, map[early := Entry(early, InitialDifficulty, [Greeting(t0)]),
                                 late := Entry(late, InitialDifficulty, [Greeting(t0)])])
    ensures listing == [Entry(late, InitialDifficulty, [Greeting(t0)]), Entry(early, InitialDifficulty, [Greeting(t0)])]
  {
    var c := new SessionController(t0, map[]);
    c.SaveChat(early, Completed);
    c.SaveChat(failedAt, RequestFailed);
    c.SaveChat(late, Completed);
    TwoRecords(all, Entry(early, InitialDifficulty, [Greeting(t0)]), Entry(late, InitialDifficulty, [Greeting(t0)]));
    c.FetchSavedChats(Completed, all);
    listing := c.savedChats;
  }

  /** Deleting a saved chat and listing again shows the remaining chat only. */
  method DeleteThenList(t0: string, keep: string, drop: string, all: seq<Entry>)
    returns (listing: seq<Entry>)
    requires keep != drop
    requires InKeyOrder(all, map[keep := Entry(keep, InitialDifficulty, [Greeting(t0)])])
    ensures listing == [Entry(keep, InitialDifficulty, [Greeting(t0)])]
  {
    var c := new SessionController(t0, map[]);
    c.SaveChat(keep, Completed);
    c.SaveChat(drop, Completed);
    c.DeleteChat(drop, Completed);
    assert c.archive == map[keep := Entry(keep, InitialDifficulty, [Greeting(t0)])];
    OneRecord(all, Entry(keep, InitialDifficulty, [Greeting(t0)]));
    c.FetchSavedChats(Completed, all);
    listing := c.savedChats;
  }

  /** A file without a `chatHistory` field only reports it: the log and the
      view are left alone. */
  method ImportWithoutHistory(t0: string, d: Option<string>, at: Option<string>)
    returns (log: seq<Message>, viewing: Viewing, status: string)
    ensures log == [Greeting(t0)] && viewing == NotViewing && status == NoHistoryStatus
  {
    var c := new SessionController(t0, map[]);
    c.LoadChatFromFile(Parsed(ParsedFile(d, None, at)));
    c.EditChat();
    log, viewing, status := c.messages, c.viewingChat, c.dbStatus;
  }

  /** Import as the source has it: an exported chat, opened in a new
      session, leaves a bare array in the view, so the view has no history
      to render. Were the session to go on past that render, resuming the
      import would do nothing. */
  method ImportAsWritten(file: ExportFile, t0: string)
    returns (shown: Option<seq<Message>>, log: seq<Message>, d: string)
    ensures shown == None
    ensures log == [Greeting(t0)] && d == InitialDifficulty
  {
    var c := new SessionController(t0, map[]);
    c.LoadChatFromFile(Parsed(ReadBack(file)));
    shown := ViewedHistory(c.viewingChat);
    c.EditChat();
    log, d := c.messages, c.difficulty;
  }

  /** Import as evidently intended: the view shows the exported log, and
      resuming it restores that log and persona. */
  method ImportCorrected(file: ExportFile, t0: string)
    returns (shown: Option<seq<Message>>, log: seq<Message>, d: string, viewing: Viewing)
    ensures shown == Some(file.chatHistory)
    ensures log == file.chatHistory && d == file.difficulty && viewing == NotViewing
  {
    var c := new SessionController(t0, map[]);
    c.LoadChatFromFileCorrected(Parsed(ReadBack(file)));
    shown := ViewedHistory(c.viewingChat);
    c.EditChat();
    log, d, viewing := c.messages, c.difficulty, c.viewingChat;
  }

  /** Export, then import into another session and resume: the second
      session continues the first one's conversation with its persona. */
  method ExportImportRoundTrip(t0: string, d: string, text: string, t1: string, answer: string, t2: string,
                               exportedAt: string, u0: string)
    returns (original: seq<Message>, resumed: seq<Message>, originalPersona: string, resumedPersona: string)
    requires !IsBlank(text)
    ensures resumed == original && |original| == 3
    ensures resumedPersona == originalPersona == d
  {
    var a := new SessionController(t0, map[]);
    a.SelectDifficulty(d);
    var _ := Exchange(a, text, t1, Ok(answer), t2);
    var file := a.ExportCurrentChat(exportedAt);
    original, originalPersona := a.messages, a.difficulty;
    var read := ReadBack(file);
    assert read.difficulty == Some(d) && read.chatHistory == Some(original);
    var b := new SessionController(u0, map[]);
    b.LoadChatFromFileCorrected(Parsed(read));
    assert b.viewingChat.entry.difficulty == d;
    b.EditChat();
    resumed, resumedPersona := b.messages, b.difficulty;
  }

  /** Viewing a saved chat and resuming it restores its log and persona and
      leaves the archive as it was; closing the view instead changes
      nothing but the view. */
  method ResumeSaved(t0: string, store: map<string, Entry>, id: string, closeFirst: bool)
    returns (log: seq<Message>, d: string, archive: map<string, Entry>)
    requires KeyedById(store) && id in store
    ensures archive == store
    ensures !closeFirst ==> log == store[id].chatHistory && d == store[id].difficulty
    ensures closeFirst ==> log == [Greeting(t0)] && d == InitialDifficulty
  {
    var c := new SessionController(t0, store);
    c.ViewSavedChat(store[id]);
    if closeFirst {
      c.CloseView();
    }
    c.EditChat();
    log, d, archive := c.messages, c.difficulty, c.archive;
  }
}
