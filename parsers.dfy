/** Decoders from a Telegram update (a JSON object) to the records of
    telegram_bot/dataclasses.py (telegram_bot/parsers.py). Each decoder reads
    the payload in the order the source does, so the first missing key or
    ill-shaped value is the failure reported. */
module Parsers {
  import opened Wrappers
  import opened Exceptions
  import opened JsonValues
  import opened Enums
  import opened Records
  import opened Text

  /** The sender's optional names, each read with `.get`. */
  function OptName(author: Json, key: string): (r: Result<Option<string>, Failure>)
    ensures author.JObj? && key !in author.fields ==> r == Ok(None)
    ensures author.JObj? && key in author.fields && author.fields[key].JStr? ==>
              r == Ok(Some(author.fields[key].s))
  {
    var v :- Get(author, key);
    AsOptStr(v)
  }

  /** `ChatType.from_payload_value(chat["type"])`. */
  function ParseChatType(chat: Json): (r: Result<ChatType, Failure>)
    ensures r.Ok? ==> chat.JObj? && "type" in chat.fields && chat.fields["type"].JStr?
                      && r == ChatTypeFromPayload(chat.fields["type"].s)
  {
    var ty :- Index(chat, "type");
    var text :- LowerableText(ty);
    ChatTypeFromPayload(text)
  }

  /** The chat type of an optional chat: None when the chat is falsy. */
  function ParseOptChatType(chat: Json): (r: Result<Option<ChatType>, Failure>)
    ensures !Truthy(chat) ==> r == Ok(None)
    ensures Truthy(chat) ==> (r.Ok? <==> ParseChatType(chat).Ok?)
    ensures Truthy(chat) && r.Ok? ==>
              && r.value.Some?
              && chat.JObj? && "type" in chat.fields && chat.fields["type"].JStr?
              && Ok(r.value.value) == ChatTypeFromPayload(chat.fields["type"].s)
  {
    if !Truthy(chat) then Ok(None)
    else
      var t :- ParseChatType(chat);
      Ok(Some(t))
  }

  // ---------------------------------------------------------------------
  // UserMessageParser.parse
  // ---------------------------------------------------------------------

  /** `message.get("chat")`: the chat of a message object, null when absent. */
  function ChatOf(message: Json): Json
    requires message.JObj?
  {
    if "chat" in message.fields then message.fields["chat"] else JNull
  }

  /** A plain message: the chat fields are None when the message has no
      (truthy) chat; the sender, the text and the message type are required. */
  function ParseUserMessage(event: Obj): (r: Result<UserMessage, Failure>)
    ensures r.Ok? ==>
      && Path(JObj(event), ["message", "from", "id"]) == Some(JInt(r.value.userId))
      && Path(JObj(event), ["message", "text"]) == Some(JStr(r.value.text))
      && r.value.messageType.Some? && r.value.messageType.value != OtherMessage
    ensures r.Ok? && r.value.chatId.Some? ==>
      Path(JObj(event), ["message", "chat", "id"]) == Some(JInt(r.value.chatId.value))
    ensures r.Ok? ==>
      && "message" in event && event["message"].JObj? && "from" in event["message"].fields
      && (!Truthy(ChatOf(event["message"])) ==> r.value.chatId.None? && r.value.chatType.None?)
      && Ok(r.value.chatType) == ParseOptChatType(ChatOf(event["message"]))
      && Ok(r.value.username) == OptName(event["message"].fields["from"], "username")
      && Ok(r.value.firstName) == OptName(event["message"].fields["from"], "first_name")
      && Ok(r.value.lastName) == OptName(event["message"].fields["from"], "last_name")
  {
    var message :- Index(JObj(event), "message");
    var chat :- Get(message, "chat");
    var chatIdValue :- if Truthy(chat) then Get(chat, "id") else Ok(JNull);
    var chatId :- AsOptInt(chatIdValue);
    var from :- Index(message, "from");
    var userIdValue :- Index(from, "id");
    var userId :- AsInt(userIdValue);
    var username :- OptName(from, "username");
    var textValue :- Index(message, "text");
    var text :- AsStr(textValue);
    var firstName :- OptName(from, "first_name");
    var lastName :- OptName(from, "last_name");
    var messageType :- MessageTypeFromMessage(message);
    var chatType :- ParseOptChatType(chat);
    Ok(UserMessage(chatId, username, userId, text, chatType, Some(messageType), firstName, lastName))
  }

  /** A text message in a private chat, with only the sender's id given,
      decodes to the record with every optional name None. */
  lemma ParsePrivateTextMessage(event: Obj, chatId: int, userId: int, text: string)
    requires "message" in event
    requires event["message"] == JObj(map[
      "chat" := JObj(map["id" := JInt(chatId), "type" := JStr("private")]),
      "from" := JObj(map["id" := JInt(userId)]),
      "text" := JStr(text)])
    requires |text| > 0
    ensures ParseUserMessage(event) ==
      Ok(UserMessage(Some(chatId), None, userId, text, Some(Private), Some(Message), None, None))
  {
    LowerOfAsciiToken("private");
  }

  // ---------------------------------------------------------------------
  // ChatStatusChangeMessageParser
  // ---------------------------------------------------------------------

  /** `_parse_user_action_type`: a `left_chat_member` key means the bot left;
      otherwise the action is decoded from `new_chat_member.status`. */
  function ParseUserActionType(update: Json): (r: Result<UserActionType, Failure>)
    ensures update.JObj? && "left_chat_member" in update.fields ==> r == Ok(RemoveBotFromChat)
    ensures update.JObj? && "left_chat_member" !in update.fields
            && Path(update, ["new_chat_member", "status"]).Some?
            && Path(update, ["new_chat_member", "status"]).value.JStr? ==>
              r == UserActionFromPayload(Path(update, ["new_chat_member", "status"]).value.s)
    ensures r.Ok? ==> r.value != OtherAction
  {
    var left :- Contains(update, "left_chat_member");
    if left then
      LowerOfAsciiToken("left");
      UserActionFromPayload("left")
    else
      var member :- Index(update, "new_chat_member");
      var status :- Index(member, "status");
      var value :- LowerableText(status);
      UserActionFromPayload(value)
  }

  /** `telegram_message.get("my_chat_member") or telegram_message.get("message")`. */
  function StatusSource(event: Obj): (src: Json)
    ensures "my_chat_member" in event && Truthy(event["my_chat_member"]) ==> src == event["my_chat_member"]
    ensures !("my_chat_member" in event && Truthy(event["my_chat_member"])) && "message" in event ==>
              src == event["message"]
    ensures src == JNull || ("my_chat_member" in event && src == event["my_chat_member"])
            || ("message" in event && src == event["message"])
  {
    if "my_chat_member" in event && Truthy(event["my_chat_member"]) then event["my_chat_member"]
    else if "message" in event then event["message"]
    else JNull
  }

  /** `ChatStatusChangeMessageParser.parse`: the status update is read from
      `my_chat_member` when that is truthy and from `message` otherwise; chat
      id and sender id are copied, absent names become None. */
  function ParseStatusChange(event: Obj): (r: Result<StatusChangeWithinChat, Failure>)
    ensures r.Ok? && "my_chat_member" in event && Truthy(event["my_chat_member"]) ==>
              && Path(event["my_chat_member"], ["chat", "id"]) == Some(JInt(r.value.chatId))
              && Path(event["my_chat_member"], ["from", "id"]) == Some(JInt(r.value.userId))
    ensures r.Ok? && !("my_chat_member" in event && Truthy(event["my_chat_member"])) ==>
              && "message" in event
              && Path(event["message"], ["chat", "id"]) == Some(JInt(r.value.chatId))
              && Path(event["message"], ["from", "id"]) == Some(JInt(r.value.userId))
    ensures r.Ok? ==> Ok(r.value.userActionType) == ParseUserActionType(StatusSource(event))
    ensures r.Ok? ==> Ok(r.value.chatType) == ParseChatType(StatusSource(event).fields["chat"])
    ensures r.Ok? ==>
              var author := StatusSource(event).fields["from"];
              && ("username" !in author.fields ==> r.value.username.None?)
              && ("first_name" !in author.fields ==> r.value.firstName.None?)
              && ("last_name" !in author.fields ==> r.value.lastName.None?)
  {
    var update := StatusSource(event);
    var chat :- Index(update, "chat");
    var action :- ParseUserActionType(update);
    var author :- Index(update, "from");
    var chatIdValue :- Index(chat, "id");
    var chatId :- AsInt(chatIdValue);
    var chatType :- ParseChatType(chat);
    var username :- OptName(author, "username");
    var userIdValue :- Index(author, "id");
    var userId :- AsInt(userIdValue);
    var firstName :- OptName(author, "first_name");
    var lastName :- OptName(author, "last_name");
    Ok(StatusChangeWithinChat(chatId, chatType, action, username, userId, firstName, lastName))
  }

  // ---------------------------------------------------------------------
  // TelegramCommandParser
  // ---------------------------------------------------------------------

  /** A command sent by pressing a button: the data and the sender come from
      the callback, the chat and the id of the message the button belongs to
      from the replied message, whose `reply_markup` (an empty object when
      absent) tells whether an inline keyboard was attached. */
  function ParseCommandAsCallbackQuery(callback: Json): (r: Result<BotCommand, Failure>)
    ensures r.Ok? ==>
              && Path(callback, ["data"]) == Some(JStr(r.value.data))
              && Path(callback, ["from", "id"]) == Some(JInt(r.value.userId))
              && Path(callback, ["message", "chat", "id"]) == Some(JInt(r.value.chatId))
              && r.value.repliedMessageId.Some?
              && Path(callback, ["message", "message_id"]) == Some(JInt(r.value.repliedMessageId.value))
    ensures r.Ok? && "reply_markup" !in callback.fields["message"].fields ==>
              !r.value.sentByInlineKeyboard
    ensures r.Ok? && "reply_markup" in callback.fields["message"].fields
            && callback.fields["message"].fields["reply_markup"].JObj? ==>
              (r.value.sentByInlineKeyboard <==>
                 "inline_keyboard" in callback.fields["message"].fields["reply_markup"].fields)
  {
    var dataValue :- Index(callback, "data");
    var data :- AsStr(dataValue);
    var replied :- Index(callback, "message");
    var repliedIdValue :- Index(replied, "message_id");
    var repliedId :- AsInt(repliedIdValue);
    var chat :- Index(replied, "chat");
    var author :- Index(callback, "from");
    // `replied` is an object here: indexing it has just succeeded
    var markup := if "reply_markup" in replied.fields then replied.fields["reply_markup"] else JObj(map[]);
    var sent :- Contains(markup, "inline_keyboard");
    var chatIdValue :- Index(chat, "id");
    var chatId :- AsInt(chatIdValue);
    var chatType :- ParseChatType(chat);
    var username :- OptName(author, "username");
    var userIdValue :- Index(author, "id");
    var userId :- AsInt(userIdValue);
    var firstName :- OptName(author, "first_name");
    var lastName :- OptName(author, "last_name");
    Ok(BotCommand(chatId, chatType, username, userId, data, Some(repliedId), sent, firstName, lastName))
  }

  /** A typed command: the data is the message text, and the record keeps the
      defaults of no replied message and no keyboard. */
  function ParseCommandAsMessage(message: Json): (r: Result<BotCommand, Failure>)
    ensures r.Ok? ==>
              && Path(message, ["text"]) == Some(JStr(r.value.data))
              && Path(message, ["from", "id"]) == Some(JInt(r.value.userId))
              && Path(message, ["chat", "id"]) == Some(JInt(r.value.chatId))
              && r.value.repliedMessageId.None?
              && !r.value.sentByInlineKeyboard
  {
    var dataValue :- Index(message, "text");
    var data :- AsStr(dataValue);
    var author :- Index(message, "from");
    var chat :- Index(message, "chat");
    var chatIdValue :- Index(chat, "id");
    var chatId :- AsInt(chatIdValue);
    var chatType :- ParseChatType(chat);
    var username :- OptName(author, "username");
    var userIdValue :- Index(author, "id");
    var userId :- AsInt(userIdValue);
    var firstName :- OptName(author, "first_name");
    var lastName :- OptName(author, "last_name");
    Ok(BotCommand(chatId, chatType, username, userId, data, None, false, firstName, lastName))
  }

  /** `TelegramCommandParser.parse`: a truthy `callback_query` wins over a
      truthy `message`; with neither the update is not a command. */
  function ParseCommand(event: Obj): (r: Result<BotCommand, Failure>)
    ensures r.Ok? ==>
              (r.value.repliedMessageId.Some? <==>
                 "callback_query" in event && Truthy(event["callback_query"]))
    ensures !("callback_query" in event && Truthy(event["callback_query"]))
            && !("message" in event && Truthy(event["message"])) ==>
              r == Err(NotImplemented)
    ensures "callback_query" in event && Truthy(event["callback_query"]) ==>
              r == ParseCommandAsCallbackQuery(event["callback_query"])
    ensures !("callback_query" in event && Truthy(event["callback_query"]))
            && "message" in event && Truthy(event["message"]) ==>
              r == ParseCommandAsMessage(event["message"])
  {
    if "callback_query" in event && Truthy(event["callback_query"]) then
      ParseCommandAsCallbackQuery(event["callback_query"])
    else if "message" in event && Truthy(event["message"]) then
      ParseCommandAsMessage(event["message"])
    else
      Err(NotImplemented)
  }
}
