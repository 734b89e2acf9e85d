/** The records the parsers produce and the outgoing response with its
    request payload (telegram_bot/dataclasses.py, telegram_bot/types.py). */
module Records {
  import opened Wrappers
  import opened JsonValues
  import opened Enums

  /** A plain text message. The chat may be absent, in which case both chat
      fields are None. (The dataclass also declares a `message_edition` flag
      that no parser ever supplies; it is not part of this record.) */
  datatype UserMessage = UserMessage(
    chatId: Option<int>,
    username: Option<string>,
    userId: int,
    text: string,
    chatType: Option<ChatType>,
    messageType: Option<MessageType>,
    firstName: Option<string>,
    lastName: Option<string>)

  /** The bot was added to or removed from a chat. */
  datatype StatusChangeWithinChat = StatusChangeWithinChat(
    chatId: int,
    chatType: ChatType,
    userActionType: UserActionType,
    username: Option<string>,
    userId: int,
    firstName: Option<string>,
    lastName: Option<string>)

  /** A command, typed or sent with an inline-keyboard button. A typed command
      keeps the dataclass defaults: no replied message, not sent by a
      keyboard. */
  datatype BotCommand = BotCommand(
    chatId: int,
    chatType: ChatType,
    username: Option<string>,
    userId: int,
    data: string,
    repliedMessageId: Option<int>,
    sentByInlineKeyboard: bool,
    firstName: Option<string>,
    lastName: Option<string>)

  /** What the bot answers: a text for a chat, optionally with a keyboard
      (`replyMarkup`, `JNull` when there is none) and a file to attach. */
  datatype ResponseMessage = ResponseMessage(
    text: string,
    chatId: Option<int>,
    replyMarkup: Json,
    filePath: Option<string>)

  /** `json.dumps(value)`. The encoder itself is not modelled: the payload
      records which value it was given. */
  datatype Encoded = Dumps(value: Json)

  /** The form fields of the outgoing request. */
  datatype DataDict = DataDict(text: string, chatId: Option<int>, replyMarkup: Option<Encoded>)

  /** The attachment, named by the path of the file opened for it. */
  datatype FilesDict = FilesDict(document: string)

  datatype ResponsePayload = ResponsePayload(data: DataDict, files: Option<FilesDict>)

  /** A path is truthy when it is given and not empty. */
  predicate HasFile(m: ResponseMessage) {
    m.filePath.Some? && |m.filePath.value| > 0
  }

  /** `ResponseMessage.to_payload`: the text and chat always; the encoded
      markup only when the markup is truthy; the file only when a path is
      given. */
  function ToPayload(m: ResponseMessage): (p: ResponsePayload)
    ensures p.data.text == m.text && p.data.chatId == m.chatId
    ensures p.data.replyMarkup.Some? <==> Truthy(m.replyMarkup)
    ensures p.data.replyMarkup.Some? ==> p.data.replyMarkup.value == Dumps(m.replyMarkup)
    ensures p.files.Some? <==> HasFile(m)
    ensures p.files.Some? ==> p.files.value.document == m.filePath.value
  {
    var data := DataDict(m.text, m.chatId, None);
    var data := if Truthy(m.replyMarkup) then data.(replyMarkup := Some(Dumps(m.replyMarkup))) else data;
    ResponsePayload(data, if HasFile(m) then Some(FilesDict(m.filePath.value)) else None)
  }

  /** A message without markup and file becomes exactly `{data: {text, chat_id}}`. */
  lemma PlainPayload(text: string, chatId: Option<int>)
    ensures ToPayload(ResponseMessage(text, chatId, JNull, None))
            == ResponsePayload(DataDict(text, chatId, None), None)
  {
  }

  /** Two responses with different texts never share a payload, and neither
      do two with different truthy markups: the payload loses nothing the
      bot sends. */
  lemma ToPayloadInjective(m1: ResponseMessage, m2: ResponseMessage)
    requires !HasFile(m1) && !HasFile(m2)
    requires Truthy(m1.replyMarkup) && Truthy(m2.replyMarkup)
    requires ToPayload(m1) == ToPayload(m2)
    ensures m1.text == m2.text && m1.chatId == m2.chatId && m1.replyMarkup == m2.replyMarkup
  {
  }
}
