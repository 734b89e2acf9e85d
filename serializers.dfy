/** The inbound shape rules applied to an update before it is handled
    (telegram_bot/serializers.py), as predicates over the decoded JSON.
    A string field that is required must be a non-empty string; an optional
    one may be absent; only fields declared nullable accept `null`. */
module Serializers {
  import opened Wrappers
  import opened Exceptions
  import opened JsonValues
  import opened Enums
  import opened Records
  import opened Parsers
  import opened Text

  /** A required `CharField(max_length=max)`: a non-empty string no longer
      than `max`; `max` is None when the field has no limit. */
  predicate CharValue(j: Json, max: Option<nat>) {
    j.JStr? && |j.s| > 0 && (max.Some? ==> |j.s| <= max.value)
  }

  /** A `CharField(max_length=100, required=False, allow_blank=True, allow_null=True)`. */
  predicate OptionalName(fields: map<string, Json>, key: string) {
    key in fields ==> fields[key].JNull? || (fields[key].JStr? && |fields[key].s| <= 100)
  }

  /** `TelegramUserSerializer`: an integer id and a boolean `is_bot`; the
      three names are optional, nullable and at most 100 characters. */
  function ValidUser(j: Json): (ok: bool)
    ensures ok ==>
              && j.JObj? && "id" in j.fields && AsInt(j.fields["id"]).Ok?
              && OptName(j, "username").Ok? && OptName(j, "first_name").Ok? && OptName(j, "last_name").Ok?
  {
    && j.JObj?
    && "id" in j.fields && j.fields["id"].JInt?
    && "is_bot" in j.fields && j.fields["is_bot"].JBool?
    && OptionalName(j.fields, "first_name")
    && OptionalName(j.fields, "last_name")
    && OptionalName(j.fields, "username")
  }

  /** `ChatSerializer`: an integer id and a type of at most 25 characters. */
  function ValidChat(j: Json): (ok: bool)
    ensures ok ==>
              && j.JObj? && "id" in j.fields && AsInt(j.fields["id"]).Ok?
              && "type" in j.fields && j.fields["type"].JStr?
              && ParseChatType(j) == ChatTypeFromPayload(j.fields["type"].s)
  {
    && j.JObj?
    && "id" in j.fields && j.fields["id"].JInt?
    && "type" in j.fields && CharValue(j.fields["type"], Some(25))
  }

  /** `EntitiesSerializer`: a type of at most 25 characters. */
  function ValidEntity(j: Json): (ok: bool)
    ensures ok ==>
              && j.JObj? && "type" in j.fields && j.fields["type"].JStr?
              && GetOr(j, "type", JStr("")) == Ok(j.fields["type"])
              && LowerableText(j.fields["type"]) == Ok(j.fields["type"].s)
  {
    j.JObj? && "type" in j.fields && CharValue(j.fields["type"], Some(25))
  }

  /** `MessageSerializer`: sender and chat are required; `text`, `entities`
      (a list of entities, or null) and `left_chat_member` are optional. */
  function ValidMessage(j: Json): (ok: bool)
    ensures ok ==> j.JObj? && Truthy(j) && Truthy(ChatOf(j))
  {
    && j.JObj?
    && "from" in j.fields && ValidUser(j.fields["from"])
    && "chat" in j.fields && ValidChat(j.fields["chat"])
    && ("text" in j.fields ==> CharValue(j.fields["text"], None))
    && ("entities" in j.fields ==>
          j.fields["entities"].JNull?
          || (j.fields["entities"].JArr?
              && forall e :: e in j.fields["entities"].items ==> ValidEntity(e)))
    && ("left_chat_member" in j.fields ==> ValidUser(j.fields["left_chat_member"]))
  }

  /** On a well-shaped message the type decoder reads the first entity
      without error, so it can only fail with NotImplementedError. */
  lemma ValidMessageDecodes(j: Json)
    requires ValidMessage(j)
    ensures FirstEntityType(j).Ok?
    ensures MessageTypeFromMessage(j).Err? ==> MessageTypeFromMessage(j).error == NotImplemented
  {
    var entities := if "entities" in j.fields then j.fields["entities"] else JNull;
    if Truthy(entities) {
      assert entities.JArr? && entities.items[0] in entities.items;
      assert ValidEntity(entities.items[0]);
    }
  }

  /** `ChatMemberSerializer`: sender, chat and the new member's status. */
  function ValidChatMember(j: Json): (ok: bool)
    ensures ok ==>
              && j.JObj? && "new_chat_member" in j.fields && j.fields["new_chat_member"].JObj?
              && "status" in j.fields["new_chat_member"].fields
              && j.fields["new_chat_member"].fields["status"].JStr?
              && ("left_chat_member" !in j.fields ==>
                    ParseUserActionType(j) == UserActionFromPayload(j.fields["new_chat_member"].fields["status"].s))
  {
    && j.JObj?
    && "from" in j.fields && ValidUser(j.fields["from"])
    && "chat" in j.fields && ValidChat(j.fields["chat"])
    && "new_chat_member" in j.fields && j.fields["new_chat_member"].JObj?
    && "status" in j.fields["new_chat_member"].fields
    && CharValue(j.fields["new_chat_member"].fields["status"], None)
  }

  /** `RepliedMessageSerializer`: chat, an integer message id and some
      (non-null) reply markup. */
  function ValidRepliedMessage(j: Json): (ok: bool)
    ensures ok ==>
              && Path(j, ["chat", "id"]).Some? && Path(j, ["chat", "id"]).value.JInt?
              && j.JObj? && "message_id" in j.fields && AsInt(j.fields["message_id"]).Ok?
  {
    && j.JObj?
    && "chat" in j.fields && ValidChat(j.fields["chat"])
    && "message_id" in j.fields && j.fields["message_id"].JInt?
    && "reply_markup" in j.fields && !j.fields["reply_markup"].JNull?
  }

  /** `CallBackQuerySerializer`: sender, data of at most 256 characters and
      the replied message. */
  function ValidCallbackQuery(j: Json): (ok: bool)
    ensures ok ==>
              j.JObj? && "data" in j.fields && AsStr(j.fields["data"]).Ok? && 0 < |AsStr(j.fields["data"]).value| <= 256
  {
    && j.JObj?
    && "from" in j.fields && ValidUser(j.fields["from"])
    && "data" in j.fields && CharValue(j.fields["data"], Some(256))
    && "message" in j.fields && ValidRepliedMessage(j.fields["message"])
  }

  /** The four update kinds the validator knows. */
  predicate HasUpdateKind(event: Obj) {
    "message" in event || "edited_message" in event
    || "my_chat_member" in event || "callback_query" in event
  }

  /** `TelegramBotSerializer` with its `validate` rule: each of the four
      fields that is given must have its shape, and at least one must be
      given. */
  function ValidUpdate(event: Obj): (ok: bool)
    ensures ok ==>
              || ("message" in event && Truthy(event["message"]))
              || ("edited_message" in event && Truthy(event["edited_message"]))
              || ("my_chat_member" in event && Truthy(event["my_chat_member"]))
              || ("callback_query" in event && Truthy(event["callback_query"]))
  {
    && ("message" in event ==> ValidMessage(event["message"]))
    && ("edited_message" in event ==> ValidMessage(event["edited_message"]))
    && ("my_chat_member" in event ==> ValidChatMember(event["my_chat_member"]))
    && ("callback_query" in event ==> ValidCallbackQuery(event["callback_query"]))
    && HasUpdateKind(event)
  }

  /** An update with none of the four kinds is rejected, however well-shaped
      its other fields. */
  lemma ValidateRejectsEmpty(event: Obj)
    requires "message" !in event && "edited_message" !in event
    requires "my_chat_member" !in event && "callback_query" !in event
    ensures !ValidUpdate(event)
  {
  }

  /** A chat type the enumeration knows. */
  predicate KnownChatType(chat: Json)
    requires ValidChat(chat)
  {
    Lower(chat.fields["type"].s) in {"private", "group"}
  }

  lemma ParseKnownChatType(chat: Json)
    requires ValidChat(chat) && KnownChatType(chat)
    ensures ParseChatType(chat).Ok?
  {
  }

  /** A well-shaped user yields its names. */
  lemma ParseUserNames(user: Json, key: string)
    requires ValidUser(user) && key in {"first_name", "last_name", "username"}
    ensures OptName(user, key).Ok?
  {
  }

  /** A well-shaped text message without entities, in a chat of a known
      type, always decodes: the validator admits nothing the plain-message
      decoder then rejects. */
  lemma ValidTextMessageParses(event: Obj)
    requires "message" in event && ValidMessage(event["message"])
    requires "text" in event["message"].fields
    requires "entities" !in event["message"].fields
    requires KnownChatType(event["message"].fields["chat"])
    ensures ParseUserMessage(event).Ok?
  {
    var message := event["message"];
    ParseKnownChatType(message.fields["chat"]);
    ParseUserNames(message.fields["from"], "username");
    ParseUserNames(message.fields["from"], "first_name");
    ParseUserNames(message.fields["from"], "last_name");
  }

  /** A well-shaped button press in a chat of a known type, whose replied
      message carries an object as its markup (as Telegram sends it), always
      decodes. The validator admits any non-null markup, but
      `"inline_keyboard" in markup` raises a TypeError on a number or a
      boolean. */
  lemma ValidCallbackQueryParses(callback: Json)
    requires ValidCallbackQuery(callback)
    requires KnownChatType(callback.fields["message"].fields["chat"])
    requires callback.fields["message"].fields["reply_markup"].JObj?
    ensures ParseCommandAsCallbackQuery(callback).Ok?
  {
    var replied := callback.fields["message"];
    ParseKnownChatType(replied.fields["chat"]);
    ParseUserNames(callback.fields["from"], "username");
    ParseUserNames(callback.fields["from"], "first_name");
    ParseUserNames(callback.fields["from"], "last_name");
  }
}
