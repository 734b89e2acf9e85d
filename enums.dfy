/** The three enumerations decoded from Telegram payload values
    (telegram_bot/enums.py). Decoding lower-cases the payload string first,
    so it is case-insensitive; a value outside the known set raises
    NotImplementedError. */
module Enums {
  import opened Wrappers
  import opened Exceptions
  import opened Text
  import opened JsonValues

  datatype UserActionType = AddBotToChat | RemoveBotFromChat | OtherAction

  datatype ChatType = Private | Group

  datatype MessageType = Command | Message | OtherMessage

  /** The string a decoder calls `.lower()` on: anything but a string has no
      such method. */
  function LowerableText(j: Json): (r: Result<string, Failure>)
    ensures r.Ok? <==> j.JStr?
    ensures r.Ok? ==> r.value == j.s
    ensures r.Err? ==> r.error == AttributeError
  {
    if j.JStr? then Ok(j.s) else Err(AttributeError)
  }

  // ---------------------------------------------------------------------
  // UserActionType.from_payload_value
  // ---------------------------------------------------------------------

  /** `"member"` adds the bot, `"left"` and `"kicked"` remove it; OTHER is
      never produced. */
  function UserActionFromPayload(value: string): (r: Result<UserActionType, Failure>)
    ensures r.Ok? ==> r.value != OtherAction
    ensures r.Err? ==> r.error == NotImplemented
  {
    var v := Lower(value);
    if v == "member" then Ok(AddBotToChat)
    else if v == "left" || v == "kicked" then Ok(RemoveBotFromChat)
    else Err(NotImplemented)
  }

  /** The decoder answers the same for a string and its lower-cased form. */
  lemma UserActionCaseInsensitive(value: string)
    ensures UserActionFromPayload(value) == UserActionFromPayload(Lower(value))
  {
    LowerIdempotent(value);
  }

  /** Exactly the three known statuses (in any letter case) decode. */
  lemma UserActionDecodes(value: string)
    ensures UserActionFromPayload(value) == Ok(AddBotToChat) <==> Lower(value) == "member"
    ensures UserActionFromPayload(value) == Ok(RemoveBotFromChat) <==>
              Lower(value) == "left" || Lower(value) == "kicked"
    ensures UserActionFromPayload(value).Err? <==>
              Lower(value) !in {"member", "left", "kicked"}
  {
  }

  /** `lower()` folds the Kelvin sign into `k`, so a status spelled with it
      still removes the bot. */
  lemma KelvinKickedRemoves()
    ensures UserActionFromPayload([KelvinSign] + "icked") == Ok(RemoveBotFromChat)
  {
    assert Lower([KelvinSign] + "icked") == "kicked" by {
      LowerMatchesToken([KelvinSign] + "icked", "kicked");
    }
  }

  // ---------------------------------------------------------------------
  // ChatType.from_payload_value
  // ---------------------------------------------------------------------

  /** `"private"` and `"group"`; anything else (a `"channel"`, say) raises. */
  function ChatTypeFromPayload(value: string): (r: Result<ChatType, Failure>)
    ensures r.Err? ==> r.error == NotImplemented
  {
    var v := Lower(value);
    if v == "private" then Ok(Private)
    else if v == "group" then Ok(Group)
    else Err(NotImplemented)
  }

  lemma ChatTypeCaseInsensitive(value: string)
    ensures ChatTypeFromPayload(value) == ChatTypeFromPayload(Lower(value))
  {
    LowerIdempotent(value);
  }

  lemma ChatTypeDecodes(value: string)
    ensures ChatTypeFromPayload(value) == Ok(Private) <==> Lower(value) == "private"
    ensures ChatTypeFromPayload(value) == Ok(Group) <==> Lower(value) == "group"
    ensures ChatTypeFromPayload(value).Err? <==> Lower(value) !in {"private", "group"}
  {
  }

  /** A channel is neither a private chat nor a group. */
  lemma ChannelIsRejected()
    ensures ChatTypeFromPayload("channel") == Err(NotImplemented)
  {
    assert Lower("channel") == "channel" by {
      LowerMatchesToken("channel", "channel");
    }
  }

  // ---------------------------------------------------------------------
  // MessageType.from_message_object_in_payload
  // ---------------------------------------------------------------------

  /** The first entity's `type`, as `entities[0].get("type", "")` reads it,
      when the message has a truthy `entities` list; None when it has none. */
  function FirstEntityType(message: Json): (r: Result<Option<Json>, Failure>)
    ensures r.Ok? ==> message.JObj?
  {
    var entities :- Get(message, "entities");
    if Truthy(entities) then
      var first :- First(entities);
      var ty :- GetOr(first, "type", JStr(""));
      Ok(Some(ty))
    else Ok(None)
  }

  /** The decoder as written: it compares the bound method `.lower` (never
      called) with `"bot_command"`. A method is never equal to a string, so a
      message with entities always falls through to NotImplementedError, and
      COMMAND is never returned. */
  function MessageTypeAsWritten(message: Json): (r: Result<MessageType, Failure>)
    ensures r != Ok(Command)
    ensures r.Ok? ==> r.value == Message && FirstEntityType(message) == Ok(None)
  {
    var entityType :- FirstEntityType(message);
    if entityType.Some? then
      if entityType.value.JStr? then Err(NotImplemented) else Err(AttributeError)
    else
      // `message.get("text")`; the message is an object here
      var text := if "text" in message.fields then message.fields["text"] else JNull;
      if Truthy(text) then Ok(Message) else Err(NotImplemented)
  }

  /** The decoder as intended: `.lower()` is called on the first entity's type. */
  function MessageTypeFromMessage(message: Json): (r: Result<MessageType, Failure>)
    ensures r.Ok? ==> r.value != OtherMessage
  {
    var entityType :- FirstEntityType(message);
    if entityType.Some? then
      var ty :- LowerableText(entityType.value);
      if Lower(ty) == "bot_command" then Ok(Command) else Err(NotImplemented)
    else
      var text :- Get(message, "text");
      if Truthy(text) then Ok(Message) else Err(NotImplemented)
  }

  /** As written, no message is ever classified as a command. */
  lemma AsWrittenNeverCommand(message: Json)
    ensures MessageTypeAsWritten(message) != Ok(Command)
  {
  }

  /** The message that exposes the difference: one command entity whose
      type differs from `bot_command` only in letter case. */
  function CommandMessage(): Json {
    JObj(map["text" := JStr("/start"), "entities" := JArr([JObj(map["type" := JStr("Bot_Command")])])])
  }

  lemma AsWrittenRejectsCommand()
    ensures MessageTypeAsWritten(CommandMessage()) == Err(NotImplemented)
    ensures MessageTypeFromMessage(CommandMessage()) == Ok(Command)
  {
    assert Lower("Bot_Command") == "bot_command" by {
      LowerMatchesToken("Bot_Command", "bot_command");
    }
  }

  /** Without a truthy `entities` value the two decoders agree. */
  lemma AsWrittenAgreesWithoutEntities(message: Json)
    requires message.JObj?
    requires "entities" !in message.fields || !Truthy(message.fields["entities"])
    ensures MessageTypeAsWritten(message) == MessageTypeFromMessage(message)
  {
  }

  /** The corrected decoder is case-insensitive in the entity type: a first
      entity whose type lower-cases to `bot_command` makes a COMMAND. */
  lemma CommandEntityDecodes(message: Json, ty: string, rest: seq<Json>, entity: map<string, Json>)
    requires message.JObj? && "entities" in message.fields
    requires message.fields["entities"] == JArr([JObj(entity)] + rest)
    requires "type" in entity && entity["type"] == JStr(ty)
    ensures MessageTypeFromMessage(message) == Ok(Command) <==> Lower(ty) == "bot_command"
  {
    assert ([JObj(entity)] + rest)[0] == JObj(entity);
  }

  /** No entities and a non-empty text make a MESSAGE; no entities and no
      text raise. */
  lemma PlainTextDecodes(message: Json)
    requires message.JObj?
    requires "entities" !in message.fields || !Truthy(message.fields["entities"])
    ensures MessageTypeFromMessage(message) == Ok(Message) <==>
              "text" in message.fields && Truthy(message.fields["text"])
    ensures MessageTypeFromMessage(message).Err? ==> MessageTypeFromMessage(message).error == NotImplemented
  {
  }
}
