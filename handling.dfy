/** The update handler (telegram_bot/message_handling_services.py): it picks
    a processor for an update, lets it act on the answer store and the
    database, and posts the reply it prepares. Calls to the Bot API are
    recorded, in order, in a `TelegramApi` log instead of being sent. */
module Handling {
  import opened Wrappers
  import opened Exceptions
  import opened JsonValues
  import opened Enums
  import opened Records
  import opened Parsers
  import opened Dates
  import opened Constants
  import opened Models
  import opened AnswerStore
  import opened Progress

  // ---------------------------------------------------------------------
  // Commands and keyboards
  // ---------------------------------------------------------------------

  const StartCommand: string := "/start"
  const InstructionsConfirmedCommand: string := "/instructions_confirmed"
  const InputConfirmedCommand: string := "/input_confirmed"
  const InputNotConfirmedCommand: string := "/input_not_confirmed"

  /** The four commands the bot answers. */
  predicate IsKnownCommand(data: string) {
    data == StartCommand || data == InstructionsConfirmedCommand
    || data == InputConfirmedCommand || data == InputNotConfirmedCommand
  }

  /** An inline-keyboard button that sends `callbackData` when pressed. */
  function Button(text: string, callbackData: string): Json {
    JObj(map["text" := JStr(text), "callback_data" := JStr(callbackData)])
  }

  /** One row with the button that starts the questionnaire. */
  const BeginKeyboard: Json := JArr([JArr([Button("Зрозуміло, починаємо", InstructionsConfirmedCommand)])])

  /** The markup of the `/start` and `/input_not_confirmed` replies. */
  const BeginMarkup: Json := JObj(map["inline_keyboard" := BeginKeyboard])

  /** The markup of the greeting in a private chat: it also removes any
      reply keyboard. */
  const GreetingMarkup: Json := JObj(map["remove_keyboard" := JBool(true), "inline_keyboard" := BeginKeyboard])

  /** The two-row markup under the summary of a complete answer set. */
  const ConfirmationMarkup: Json := JObj(map["inline_keyboard" := JArr([
    JArr([Button("Дані корректні.", InputConfirmedCommand)]),
    JArr([Button("Дані не корректні. Маю відредагувати.", InputNotConfirmedCommand)])])])

  /** The `callback_data` of every button in a list of buttons. */
  function RowCommands(row: seq<Json>): set<string> {
    if |row| == 0 then {}
    else
      var b := row[0];
      (if b.JObj? && "callback_data" in b.fields && b.fields["callback_data"].JStr?
       then {b.fields["callback_data"].s} else {})
      + RowCommands(row[1..])
  }

  /** The `callback_data` of every button in a list of rows. */
  function RowsCommands(rows: seq<Json>): set<string> {
    if |rows| == 0 then {}
    else (if rows[0].JArr? then RowCommands(rows[0].items) else {}) + RowsCommands(rows[1..])
  }

  /** The commands the buttons of a markup send. */
  function ButtonCommands(markup: Json): set<string> {
    if markup.JObj? && "inline_keyboard" in markup.fields && markup.fields["inline_keyboard"].JArr?
    then RowsCommands(markup.fields["inline_keyboard"].items)
    else {}
  }

  // ---------------------------------------------------------------------
  // The Bot API
  // ---------------------------------------------------------------------

  /** A request to the Bot API. `EditMessageReplyMarkup` posts
      `{"chat_id", "message_id", "reply_markup": {"inline_keyboard": []}}`,
      which strips the keyboard from a message; `SendMessage` posts a reply. */
  datatype ApiCall =
    | EditMessageReplyMarkup(chatId: int, messageId: Option<int>)
    | SendMessage(payload: ResponsePayload)

  /** The Bot API, as the sequence of requests posted to it. Its answers are
      not read by the handler. */
  class TelegramApi {
    var calls: seq<ApiCall>

    constructor ()
      ensures calls == []
    {
      calls := [];
    }

    method Post(call: ApiCall)
      modifies this
      ensures calls == old(calls) + [call]
    {
      calls := calls + [call];
    }
  }

  // ---------------------------------------------------------------------
  // Choosing a processor
  // ---------------------------------------------------------------------

  datatype ProcessorKind = BotCommandKind | UserMessageKind | MemberStatusChangeKind

  /** The message starts with a `bot_command` entity: a non-empty list of
      entities whose first one is an object with that exact type. */
  predicate StartsWithBotCommand(message: Json) {
    && message.JObj? && "entities" in message.fields
    && message.fields["entities"].JArr? && |message.fields["entities"].items| > 0
    && message.fields["entities"].items[0].JObj?
    && "type" in message.fields["entities"].items[0].fields
    && message.fields["entities"].items[0].fields["type"] == JStr("bot_command")
  }

  /** `_get_message_processor`: a button press is a command; a message is a
      command when its first entity is a bot command, a status change when
      it has no entities and reports a member leaving, and a plain message
      otherwise; a bare `my_chat_member` is a status change; anything else
      is not handled. */
  function GetMessageProcessor(event: Obj): (r: Result<ProcessorKind, Failure>)
    ensures "callback_query" in event ==> r == Ok(BotCommandKind)
    ensures r == Err(NotImplemented) <==>
              "callback_query" !in event && "message" !in event && "my_chat_member" !in event
    ensures "callback_query" !in event && "message" in event ==>
              (r == Ok(BotCommandKind) <==> StartsWithBotCommand(event["message"]))
    ensures "callback_query" !in event && "message" in event && r == Ok(MemberStatusChangeKind) ==>
              event["message"].JObj? && "left_chat_member" in event["message"].fields
    ensures "callback_query" !in event && "message" !in event && "my_chat_member" in event ==>
              r == Ok(MemberStatusChangeKind)
    ensures "callback_query" !in event && "message" in event && event["message"].JObj?
            && ("entities" !in event["message"].fields || !Truthy(event["message"].fields["entities"])) ==>
              r == (if "left_chat_member" in event["message"].fields then Ok(MemberStatusChangeKind)
                    else Ok(UserMessageKind))
    ensures "callback_query" !in event && "message" in event && event["message"].JObj?
            && "entities" in event["message"].fields
            && event["message"].fields["entities"].JArr? && |event["message"].fields["entities"].items| > 0
            && event["message"].fields["entities"].items[0].JObj?
            && "type" in event["message"].fields["entities"].items[0].fields
            && event["message"].fields["entities"].items[0].fields["type"] != JStr("bot_command") ==>
              r == Ok(UserMessageKind)
  {
    if "callback_query" in event then Ok(BotCommandKind)
    else if "message" in event then
      var message := event["message"];
      var entities :- Get(message, "entities");
      if Truthy(entities) then
        var first :- First(entities);
        var ty :- Index(first, "type");
        if ty == JStr("bot_command") then Ok(BotCommandKind) else Ok(UserMessageKind)
      else if "left_chat_member" in message.fields then Ok(MemberStatusChangeKind)
      else Ok(UserMessageKind)
    else if "my_chat_member" in event then Ok(MemberStatusChangeKind)
    else Err(NotImplemented)
  }

  /** A message routed to the command processor is one the message-type
      decoder also reads as a command. */
  lemma RoutedCommandIsCommand(event: Obj)
    requires "callback_query" !in event && "message" in event
    requires GetMessageProcessor(event) == Ok(BotCommandKind)
    ensures MessageTypeFromMessage(event["message"]) == Ok(Command)
  {
    var message := event["message"];
    var items := message.fields["entities"].items;
    assert items == [items[0]] + items[1..];
    Text.LowerOfAsciiToken("bot_command");
    CommandEntityDecodes(message, "bot_command", items[1..], items[0].fields);
  }

  /** The message whose command entity is written `Bot_Command` is not
      routed to the command processor, so it reaches the user-message
      parser, where the message-type decoder as written raises
      NotImplementedError and the corrected one reads a command. */
  lemma CaseVariantCommandReachesDecoder()
    ensures GetMessageProcessor(map["message" := CommandMessage()]) == Ok(UserMessageKind)
    ensures MessageTypeAsWritten(CommandMessage()) == Err(NotImplemented)
    ensures MessageTypeFromMessage(CommandMessage()) == Ok(Command)
  {
    assert !StartsWithBotCommand(CommandMessage());
    AsWrittenRejectsCommand();
  }

  /** A message routed to the status processor reports the bot's removal
      (unless a `my_chat_member` update rides along, which the status parser
      prefers). */
  lemma RoutedLeaveIsRemoval(event: Obj)
    requires "callback_query" !in event && "message" in event && "my_chat_member" !in event
    requires GetMessageProcessor(event) == Ok(MemberStatusChangeKind)
    ensures ParseStatusChange(event).Ok? ==> ParseStatusChange(event).value.userActionType == RemoveBotFromChat
  {
  }

  // ---------------------------------------------------------------------
  // Replies
  // ---------------------------------------------------------------------

  /** A reply without markup and file. */
  function Reply(text: string, chatId: Option<int>): ResponsePayload {
    ToPayload(ResponseMessage(text, chatId, JNull, None))
  }

  /** A reply with a keyboard. */
  function ReplyWithMarkup(text: string, chatId: Option<int>, markup: Json): ResponsePayload {
    ToPayload(ResponseMessage(text, chatId, markup, None))
  }

  /** `BotCommandProcessor.prepare_response`: the four known commands are
      answered, outside group chats only; the start screen and the
      restart offer carry the button that starts the questionnaire, the
      instructions are followed by the first question. */
  function CommandResponse(c: BotCommand): (r: Option<ResponsePayload>)
    ensures r.Some? <==> c.chatType != Group && IsKnownCommand(c.data)
    ensures r.Some? ==> r.value.data.chatId == Some(c.chatId) && r.value.files.None?
    ensures r.Some? && c.data == StartCommand ==>
              r.value.data.text == FirstInstructions && r.value.data.replyMarkup == Some(Dumps(BeginMarkup))
    ensures r.Some? && c.data == InstructionsConfirmedCommand ==>
              r.value.data.text == MessagesMapping[OrderOfMessages[0]] && r.value.data.replyMarkup.None?
    ensures r.Some? && c.data == InputConfirmedCommand ==>
              r.value.data.text == InputConfirmedResponse && r.value.data.replyMarkup.None?
    ensures r.Some? && c.data == InputNotConfirmedCommand ==>
              r.value.data.text == InputNotConfirmedResponse && r.value.data.replyMarkup == Some(Dumps(BeginMarkup))
  {
    if c.chatType == Group then None
    else if c.data == StartCommand then Some(ReplyWithMarkup(FirstInstructions, Some(c.chatId), BeginMarkup))
    else if c.data == InstructionsConfirmedCommand then Some(Reply(MessagesMapping[CaseIdKey], Some(c.chatId)))
    else if c.data == InputConfirmedCommand then Some(Reply(InputConfirmedResponse, Some(c.chatId)))
    else if c.data == InputNotConfirmedCommand then Some(ReplyWithMarkup(InputNotConfirmedResponse, Some(c.chatId), BeginMarkup))
    else None
  }

  /** Every button the bot offers sends a command it answers in a private
      chat, so no keyboard leads to silence. */
  lemma ButtonsAreAnswered(c: BotCommand)
    requires c.chatType == Private
    requires c.data in ButtonCommands(BeginMarkup) + ButtonCommands(GreetingMarkup) + ButtonCommands(ConfirmationMarkup)
    ensures CommandResponse(c).Some?
  {
    var begin := [Button("Зрозуміло, починаємо", InstructionsConfirmedCommand)];
    var yes := [Button("Дані корректні.", InputConfirmedCommand)];
    var no := [Button("Дані не корректні. Маю відредагувати.", InputNotConfirmedCommand)];
    SingleButtonRow("Зрозуміло, починаємо", InstructionsConfirmedCommand);
    SingleButtonRow("Дані корректні.", InputConfirmedCommand);
    SingleButtonRow("Дані не корректні. Маю відредагувати.", InputNotConfirmedCommand);
    assert RowsCommands([JArr(begin)]) == {InstructionsConfirmedCommand} by {
      assert [JArr(begin)][1..] == [];
    }
    assert RowsCommands([JArr(yes), JArr(no)]) == {InputConfirmedCommand, InputNotConfirmedCommand} by {
      assert [JArr(no)][1..] == [];
      assert RowsCommands([JArr(no)]) == {InputNotConfirmedCommand};
      assert [JArr(yes), JArr(no)][1..] == [JArr(no)];
      assert RowsCommands([JArr(yes), JArr(no)]) == RowCommands(yes) + RowsCommands([JArr(no)]);
    }
  }

  /** A row of one button sends that button's command. */
  lemma SingleButtonRow(text: string, data: string)
    ensures RowCommands([Button(text, data)]) == {data}
  {
    assert [Button(text, data)][1..] == [];
  }

  /** The greeting of `MemberStatusChangeProcessor.prepare_response`, as
      intended: the bot greets only when it is added to a private chat. */
  function StatusResponse(s: StatusChangeWithinChat): (r: Option<ResponsePayload>)
    ensures r.Some? <==> s.chatType == Private && s.userActionType == AddBotToChat
    ensures r.Some? ==>
              && r.value.data.text == FirstInstructions && r.value.data.chatId == Some(s.chatId)
              && r.value.data.replyMarkup == Some(Dumps(GreetingMarkup)) && r.value.files.None?
  {
    if s.chatType == Private && s.userActionType == AddBotToChat then
      Some(ReplyWithMarkup(FirstInstructions, Some(s.chatId), GreetingMarkup))
    else None
  }

  /** `MemberStatusChangeProcessor.prepare_response` as written: it reads a
      `status` attribute that the status record does not have, so it raises
      AttributeError whatever the update. */
  function StatusResponseAsWritten(s: StatusChangeWithinChat): (r: Result<Option<ResponsePayload>, Failure>)
    ensures r.Err?
  {
    Err(AttributeError)
  }

  /** The update that exposes the difference: the bot added to a private
      chat gets no greeting as written, and the greeting as intended. */
  lemma AsWrittenNeverGreets(s: StatusChangeWithinChat)
    requires s.chatType == Private && s.userActionType == AddBotToChat
    ensures StatusResponseAsWritten(s) == Err(AttributeError)
    ensures StatusResponse(s).Some?
  {
  }

  // ---------------------------------------------------------------------
  // What handling an update does, as a function of the state
  // ---------------------------------------------------------------------

  /** Everything an update can change: the answer store (hashes and their
      times to live), the two tables and the log of Bot API calls. */
  datatype World = World(
    entries: map<string, map<string, string>>,
    expiry: map<string, int>,
    authors: map<int, Author>,
    records: seq<HeroData>,
    calls: seq<ApiCall>)

  /** The answers stored under `key`; none when the hash does not exist. */
  function AnswersOf(w: World, key: string): map<string, string> {
    AnswerSetOf(w.entries, key)
  }

  /** The request that sends a prepared reply, if there is one. */
  function Sent(reply: Option<ResponsePayload>): seq<ApiCall> {
    if reply.Some? then [SendMessage(reply.value)] else []
  }

  /** The store side of a user message (`UserMessageProcessor.process`):
      nothing happens to a complete answer set; a missing answer set and an
      answer that fails its check are refused with nothing written;
      otherwise the answer is stored under the first unanswered question. */
  function SaveStep(m: UserMessage, entries: map<string, map<string, string>>): (Outcome<Failure>, map<string, map<string, string>>)
  {
    var key := KeyOf(m.chatId);
    var saved := AnswerSetOf(entries, key);
    match CurrentAndNextKeys(saved)
    case Err(_) => (Pass, entries)
    case Ok(keys) =>
      if |saved| == 0 then (Fail(UserInputExpired), entries)
      else if ValidateUserInput(keys.0, m.text).Fail? then (Fail(UserMessageValidationFailed), entries)
      else (Pass, entries[key := saved[keys.0 := m.text]])
  }

  /** A stored answer lands under the first unanswered question of the
      identity's answer set and nowhere else. */
  lemma SaveStepStores(m: UserMessage, entries: map<string, map<string, string>>)
    requires SaveStep(m, entries).0.Pass?
    ensures var key := KeyOf(m.chatId);
            var saved := AnswerSetOf(entries, key);
            match CurrentAndNextKeys(saved)
            case Err(_) => SaveStep(m, entries).1 == entries
            case Ok(keys) => |saved| > 0 && SaveStep(m, entries).1 == entries[key := saved[keys.0 := m.text]]
  {
  }

  /** The reply to a stored answer: the next question while one is left,
      then the summary of `answered` with the confirm and reject buttons. */
  function AnswerReply(chatId: Option<int>, next: Option<string>, answered: map<string, string>): Result<ResponsePayload, Failure>
    requires next.Some? ==> next.value in QuestionKeys
  {
    match ResponseText(next)
    case Ok(prompt) => Ok(Reply(prompt, chatId))
    case Err(_) =>
      match ConfirmationText(answered)
      case Ok(summary) => Ok(ReplyWithMarkup(summary, chatId, ConfirmationMarkup))
      case Err(e) => Err(e)
  }

  /** A user message: `UserMessageProcessor.process`, `prepare_response` and
      the send. A complete answer set gets the closing notice; otherwise the
      answer is stored under the first unanswered question, provided the
      identity's answer set exists and the answer passes its check, and the
      reply is the next question or, after the last one, the summary with
      the confirm and reject buttons. */
  function AnswerStep(m: UserMessage, w: World): (Outcome<Failure>, World)
  {
    var key := KeyOf(m.chatId);
    var saved := AnswersOf(w, key);
    match CurrentAndNextKeys(saved)
    case Err(_) => (Pass, w.(calls := w.calls + [SendMessage(Reply(AllDataReceivedResponse, m.chatId))]))
    case Ok(keys) =>
      if |saved| == 0 then (Fail(UserInputExpired), w)
      else if ValidateUserInput(keys.0, m.text).Fail? then (Fail(UserMessageValidationFailed), w)
      else
        var answered := saved[keys.0 := m.text];
        var stored := w.(entries := w.entries[key := answered]);
        match AnswerReply(m.chatId, keys.1, answered)
        case Ok(reply) => (Pass, stored.(calls := stored.calls + [SendMessage(reply)]))
        case Err(e) => (Fail(e), stored)
  }

  /** A user message whose saving is refused leaves everything as it was
      and sends nothing. */
  lemma AnswerStepRejects(m: UserMessage, w: World)
    ensures SaveStep(m, w.entries).0.Fail? ==> AnswerStep(m, w) == (SaveStep(m, w.entries).0, w)
  {
  }

  /** A user message whose answer is stored: the reply the processor
      prepares from the stored answers decides the outcome and is the one
      message sent. */
  lemma AnswerStepStores(m: UserMessage, w: World, r: Result<ResponsePayload, Failure>)
    requires CurrentAndNextKeys(AnswersOf(w, KeyOf(m.chatId))).Ok?
    requires SaveStep(m, w.entries).0.Pass?
    requires var saved := AnswersOf(w, KeyOf(m.chatId));
             var keys := CurrentAndNextKeys(saved).value;
             r == AnswerReply(m.chatId, keys.1, saved[keys.0 := m.text])
    ensures var stored := w.(entries := SaveStep(m, w.entries).1);
            AnswerStep(m, w) == if r.Ok? then (Pass, stored.(calls := stored.calls + [SendMessage(r.value)]))
                                else (Fail(r.error), stored)
  {
  }

  /** The author record a command creates when its chat has none. */
  function AuthorOf(c: BotCommand): Author {
    Author(c.chatId, c.username, c.firstName, c.lastName)
  }

  /** `/input_confirmed`: the chat's author is fetched or created, then the
      answer set is coerced into a record, stored, and deleted. */
  function ConfirmStep(c: BotCommand, now: DateTime, w: World): (Outcome<Failure>, World)
  {
    var author := if c.chatId in w.authors then w.authors[c.chatId] else AuthorOf(c);
    var withAuthor := w.(authors := w.authors[c.chatId := author]);
    var key := KeyOf(Some(c.chatId));
    var saved := AnswersOf(withAuthor, key);
    if |saved| == 0 then (Fail(UserInputExpired), withAuthor)
    else
      match CoerceAnswers(saved, author, now)
      case Err(e) => (Fail(e), withAuthor)
      case Ok(h) =>
        (Pass, withAuthor.(records := withAuthor.records + [h],
                           entries := withAuthor.entries - {key},
                           expiry := withAuthor.expiry - {key}))
  }

  /** `/input_not_confirmed`: the answer set is deleted. */
  function RejectStep(c: BotCommand, w: World): (Outcome<Failure>, World)
  {
    var key := KeyOf(Some(c.chatId));
    if |AnswersOf(w, key)| == 0 then (Fail(UserInputExpired), w)
    else (Pass, w.(entries := w.entries - {key}, expiry := w.expiry - {key}))
  }

  /** `BotCommandProcessor.process`: a button press first strips the keyboard
      from the message it belongs to; then the command acts. */
  function CommandAct(c: BotCommand, now: DateTime, w: World): (Outcome<Failure>, World)
  {
    var stripped := if c.sentByInlineKeyboard
                    then w.(calls := w.calls + [EditMessageReplyMarkup(c.chatId, c.repliedMessageId)])
                    else w;
    if c.data == InputConfirmedCommand then ConfirmStep(c, now, stripped)
    else if c.data == InputNotConfirmedCommand then RejectStep(c, stripped)
    else (Pass, stripped)
  }

  /** A command: it acts, and when that succeeds its reply, if any, is sent. */
  function CommandStep(c: BotCommand, now: DateTime, w: World): (Outcome<Failure>, World)
  {
    var acted := CommandAct(c, now, w);
    if acted.0.Fail? then acted
    else (Pass, acted.1.(calls := acted.1.calls + Sent(CommandResponse(c))))
  }

  /** A status change: only the greeting, when there is one, is sent. */
  function StatusStep(s: StatusChangeWithinChat, w: World): (Outcome<Failure>, World)
  {
    (Pass, w.(calls := w.calls + Sent(StatusResponse(s))))
  }

  /** A user message, from the update: a message that does not decode stops
      the handler with the decoding failure. */
  function UserUpdateStep(event: Obj, w: World): (Outcome<Failure>, World)
  {
    match ParseUserMessage(event)
    case Err(e) => (Fail(e), w)
    case Ok(m) => AnswerStep(m, w)
  }

  /** A command, from the update. */
  function CommandUpdateStep(event: Obj, now: DateTime, w: World): (Outcome<Failure>, World)
  {
    match ParseCommand(event)
    case Err(e) => (Fail(e), w)
    case Ok(c) => CommandStep(c, now, w)
  }

  /** A status change, from the update. */
  function StatusUpdateStep(event: Obj, w: World): (Outcome<Failure>, World)
  {
    match ParseStatusChange(event)
    case Err(e) => (Fail(e), w)
    case Ok(s) => StatusStep(s, w)
  }

  /** `MessageHandler.handle_telegram_message`: the chosen processor parses
      the update, acts and replies; a failure anywhere stops the handler
      with that failure. */
  function HandleSpec(event: Obj, now: DateTime, w: World): (r: (Outcome<Failure>, World))
    ensures GetMessageProcessor(event).Err? ==> r == (Fail(GetMessageProcessor(event).error), w)
  {
    match GetMessageProcessor(event)
    case Err(e) => (Fail(e), w)
    case Ok(kind) => ProcessorStep(kind, event, now, w)
  }

  /** What the processor of the given kind does with the update. */
  function ProcessorStep(kind: ProcessorKind, event: Obj, now: DateTime, w: World): (r: (Outcome<Failure>, World))
  {
    match kind
    case UserMessageKind => UserUpdateStep(event, w)
    case BotCommandKind => CommandUpdateStep(event, now, w)
    case MemberStatusChangeKind => StatusUpdateStep(event, w)
  }

  // ---------------------------------------------------------------------
  // Properties of handling
  // ---------------------------------------------------------------------

  /** An update of none of the handled kinds changes nothing. */
  lemma UnknownUpdateIgnored(event: Obj, now: DateTime, w: World)
    requires "callback_query" !in event && "message" !in event && "my_chat_member" !in event
    ensures HandleSpec(event, now, w) == (Fail(NotImplemented), w)
  {
  }

  /** No request in `calls` is a reply. */
  predicate NoReplies(calls: seq<ApiCall>) {
    forall i :: 0 <= i < |calls| ==> !calls[i].SendMessage?
  }

  /** The log only grew, by at most two requests; the reply, if any, is the
      last request, and a failure adds none. */
  predicate LogGrewByOneReplyAtMost(before: seq<ApiCall>, after: seq<ApiCall>, o: Outcome<Failure>) {
    && before <= after && |after| <= |before| + 2
    && (|after| > |before| ==> NoReplies(after[|before|..|after| - 1]))
    && (o.Fail? ==> NoReplies(after[|before|..]))
  }

  lemma AnswerStepLog(m: UserMessage, w: World)
    ensures LogGrewByOneReplyAtMost(w.calls, AnswerStep(m, w).1.calls, AnswerStep(m, w).0)
  {
  }

  /** Acting on a command adds to the log only the keyboard removal of a
      button press. */
  lemma CommandActLog(c: BotCommand, now: DateTime, w: World)
    ensures CommandAct(c, now, w).1.calls
            == w.calls + if c.sentByInlineKeyboard then [EditMessageReplyMarkup(c.chatId, c.repliedMessageId)] else []
  {
  }

  lemma CommandStepLog(c: BotCommand, now: DateTime, w: World)
    ensures LogGrewByOneReplyAtMost(w.calls, CommandStep(c, now, w).1.calls, CommandStep(c, now, w).0)
  {
    var acted := CommandAct(c, now, w);
    var edits := if c.sentByInlineKeyboard then [EditMessageReplyMarkup(c.chatId, c.repliedMessageId)] else [];
    CommandActLog(c, now, w);
    var after := CommandStep(c, now, w).1.calls;
    if acted.0.Pass? {
      assert after == w.calls + edits + Sent(CommandResponse(c));
      assert after[|w.calls|..] == edits + Sent(CommandResponse(c));
      assert |after| > |w.calls| ==> after[|w.calls|..|after| - 1] == edits || after[|w.calls|..|after| - 1] == [];
    } else {
      assert after[|w.calls|..] == edits;
    }
  }

  lemma StatusStepLog(s: StatusChangeWithinChat, w: World)
    ensures LogGrewByOneReplyAtMost(w.calls, StatusStep(s, w).1.calls, StatusStep(s, w).0)
  {
    assert StatusStep(s, w).1.calls[|w.calls|..] == Sent(StatusResponse(s));
  }

  /** Whatever the update, the Bot API log only grows, by at most a keyboard
      removal and a reply; the reply, if any, is the last request, and a
      failing update gets none. */
  lemma HandlingAppendsAtMostOneReply(event: Obj, now: DateTime, w: World)
    ensures LogGrewByOneReplyAtMost(w.calls, HandleSpec(event, now, w).1.calls, HandleSpec(event, now, w).0)
  {
    if GetMessageProcessor(event).Ok? {
      ProcessorStepLog(GetMessageProcessor(event).value, event, now, w);
    }
  }

  /** The same for each processor, whichever the router chose. */
  lemma ProcessorStepLog(kind: ProcessorKind, event: Obj, now: DateTime, w: World)
    ensures LogGrewByOneReplyAtMost(w.calls, ProcessorStep(kind, event, now, w).1.calls, ProcessorStep(kind, event, now, w).0)
  {
    match kind
    case UserMessageKind =>
      if ParseUserMessage(event).Ok? {
        AnswerStepLog(ParseUserMessage(event).value, w);
      }
    case BotCommandKind =>
      if ParseCommand(event).Ok? {
        CommandStepLog(ParseCommand(event).value, now, w);
      }
    case MemberStatusChangeKind =>
      if ParseStatusChange(event).Ok? {
        StatusStepLog(ParseStatusChange(event).value, w);
      }
  }

  /** Records were only appended, one at most, and no known author was
      replaced. */
  predicate KeptRecordsAndAuthors(before: World, after: World) {
    && before.records <= after.records && |after.records| <= |before.records| + 1
    && before.authors.Keys <= after.authors.Keys
    && (forall id :: id in before.authors ==> after.authors[id] == before.authors[id])
  }

  lemma AnswerKeepsRecordsAndAuthors(m: UserMessage, w: World)
    ensures KeptRecordsAndAuthors(w, AnswerStep(m, w).1)
  {
  }

  lemma StatusKeepsRecordsAndAuthors(s: StatusChangeWithinChat, w: World)
    ensures KeptRecordsAndAuthors(w, StatusStep(s, w).1)
  {
  }

  lemma CommandKeepsRecordsAndAuthors(c: BotCommand, now: DateTime, w: World)
    ensures KeptRecordsAndAuthors(w, CommandStep(c, now, w).1)
  {
    var stripped := if c.sentByInlineKeyboard
                    then w.(calls := w.calls + [EditMessageReplyMarkup(c.chatId, c.repliedMessageId)])
                    else w;
    var acted := CommandAct(c, now, w).1;
    assert CommandStep(c, now, w).1.records == acted.records;
    assert CommandStep(c, now, w).1.authors == acted.authors;
    if c.data == InputConfirmedCommand {
      ConfirmKeepsRecordsAndAuthors(c, now, stripped);
    }
  }

  /** Confirming appends at most the one record and keeps every known author. */
  lemma ConfirmKeepsRecordsAndAuthors(c: BotCommand, now: DateTime, w: World)
    ensures KeptRecordsAndAuthors(w, ConfirmStep(c, now, w).1)
  {
  }

  /** Whatever the update, records are only ever appended, one at most, and
      a known author is never replaced. */
  lemma HandlingKeepsRecordsAndAuthors(event: Obj, now: DateTime, w: World)
    ensures KeptRecordsAndAuthors(w, HandleSpec(event, now, w).1)
  {
    if GetMessageProcessor(event).Ok? {
      ProcessorKeepsRecordsAndAuthors(GetMessageProcessor(event).value, event, now, w);
    }
  }

  /** The same for each processor, whichever the router chose. */
  lemma ProcessorKeepsRecordsAndAuthors(kind: ProcessorKind, event: Obj, now: DateTime, w: World)
    ensures KeptRecordsAndAuthors(w, ProcessorStep(kind, event, now, w).1)
  {
    match kind
    case UserMessageKind =>
      if ParseUserMessage(event).Ok? {
        AnswerKeepsRecordsAndAuthors(ParseUserMessage(event).value, w);
      }
    case BotCommandKind =>
      if ParseCommand(event).Ok? {
        CommandKeepsRecordsAndAuthors(ParseCommand(event).value, now, w);
      }
    case MemberStatusChangeKind =>
      if ParseStatusChange(event).Ok? {
        StatusKeepsRecordsAndAuthors(ParseStatusChange(event).value, w);
      }
  }

  /** A user message changes no other identity's answers. */
  lemma AnswerKeepsOtherIdentities(m: UserMessage, w: World, key: string)
    requires key != KeyOf(m.chatId)
    ensures AnswersOf(AnswerStep(m, w).1, key) == AnswersOf(w, key)
  {
    AnswerTouchesOneKey(m, w);
  }

  /** A user message writes, if anything, the answer set of its own chat. */
  lemma AnswerTouchesOneKey(m: UserMessage, w: World)
    ensures var entries := AnswerStep(m, w).1.entries;
            || entries == w.entries
            || (KeyOf(m.chatId) in entries && entries == w.entries[KeyOf(m.chatId) := entries[KeyOf(m.chatId)]])
  {
    var key := KeyOf(m.chatId);
    var saved := AnswersOf(w, key);
    AnswerStepRejects(m, w);
    if CurrentAndNextKeys(saved).Ok? && SaveStep(m, w.entries).0.Pass? {
      var keys := CurrentAndNextKeys(saved).value;
      SaveStepStores(m, w.entries);
      AnswerStepStores(m, w, AnswerReply(m.chatId, keys.1, saved[keys.0 := m.text]));
    }
  }

  /** A command changes no other identity's answers. */
  lemma CommandKeepsOtherIdentities(c: BotCommand, now: DateTime, w: World, key: string)
    requires key != KeyOf(Some(c.chatId))
    ensures AnswersOf(CommandStep(c, now, w).1, key) == AnswersOf(w, key)
  {
    CommandTouchesOneKey(c, now, w);
  }

  /** A command removes, if anything, the answer set of its own chat. */
  lemma CommandTouchesOneKey(c: BotCommand, now: DateTime, w: World)
    ensures var entries := CommandStep(c, now, w).1.entries;
            entries == w.entries || entries == w.entries - {KeyOf(Some(c.chatId))}
  {
    var stripped := if c.sentByInlineKeyboard
                    then w.(calls := w.calls + [EditMessageReplyMarkup(c.chatId, c.repliedMessageId)])
                    else w;
    assert CommandStep(c, now, w).1.entries == CommandAct(c, now, w).1.entries;
    if c.data == InputConfirmedCommand {
      ConfirmTouchesOneKey(c, now, stripped);
    }
  }

  /** Confirming removes, if anything, the answer set of the command's chat. */
  lemma ConfirmTouchesOneKey(c: BotCommand, now: DateTime, w: World)
    ensures var entries := ConfirmStep(c, now, w).1.entries;
            entries == w.entries || entries == w.entries - {KeyOf(Some(c.chatId))}
  {
  }

  /** Without an answer set the questionnaire cannot proceed: the message
      fails with UserInputExpired and nothing changes. */
  lemma AnswerNeedsAnswerSet(m: UserMessage, w: World)
    requires AnswersOf(w, KeyOf(m.chatId)) == map[]
    ensures AnswerStep(m, w) == (Fail(UserInputExpired), w)
  {
    var saved := AnswersOf(w, KeyOf(m.chatId));
    assert CaseIdKey !in saved;
    CurrentKeyIsFirstUnanswered(saved, 0);
  }

  /** An accepted answer is stored under the first unanswered question, and
      the question the bot then asks is exactly the one the next answer will
      be stored under. */
  lemma AnswerAdvances(m: UserMessage, w: World)
    requires CurrentAndNextKeys(AnswersOf(w, KeyOf(m.chatId))).Ok?
    requires CurrentAndNextKeys(AnswersOf(w, KeyOf(m.chatId))).value.1.Some?
    requires |AnswersOf(w, KeyOf(m.chatId))| > 0
    requires ValidateUserInput(CurrentAndNextKeys(AnswersOf(w, KeyOf(m.chatId))).value.0, m.text).Pass?
    ensures var saved := AnswersOf(w, KeyOf(m.chatId));
            var (current, next) := CurrentAndNextKeys(saved).value;
            var (o, after) := AnswerStep(m, w);
            && o.Pass?
            && AnswersOf(after, KeyOf(m.chatId)) == saved[current := m.text]
            && CurrentAndNextKeys(AnswersOf(after, KeyOf(m.chatId))).Ok?
            && CurrentAndNextKeys(AnswersOf(after, KeyOf(m.chatId))).value.0 == next.value
            && after.calls == w.calls + [SendMessage(Reply(MessagesMapping[next.value], m.chatId))]
  {
    var saved := AnswersOf(w, KeyOf(m.chatId));
    SavingAdvances(saved, m.text);
  }

  /** The last answer completes the set: the bot replies with the summary,
      headed by its request to check, and the two buttons, and the next
      message will be told that everything was received. */
  lemma LastAnswerSummarised(m: UserMessage, w: World)
    requires CurrentAndNextKeys(AnswersOf(w, KeyOf(m.chatId))).Ok?
    requires CurrentAndNextKeys(AnswersOf(w, KeyOf(m.chatId))).value.1.None?
    requires |AnswersOf(w, KeyOf(m.chatId))| > 0
    requires ValidateUserInput(CurrentAndNextKeys(AnswersOf(w, KeyOf(m.chatId))).value.0, m.text).Pass?
    ensures var (o, after) := AnswerStep(m, w);
            var answered := AnswersOf(after, KeyOf(m.chatId));
            && o.Pass?
            && CurrentAndNextKeys(answered) == Err(AllDataReceived)
            && ConfirmationText(answered).Ok?
            && ConfirmationText(answered).value[..|ConfirmationHeader|] == ConfirmationHeader
            && after.calls == w.calls + [SendMessage(ReplyWithMarkup(ConfirmationText(answered).value, m.chatId, ConfirmationMarkup))]
  {
    var saved := AnswersOf(w, KeyOf(m.chatId));
    SavingAdvances(saved, m.text);
  }

  /** Once an answer set was started (with the marker field alone), the
      first message answers the case id and the bot asks for the hero's
      last name. */
  lemma StartedSetAsksSecondQuestion(m: UserMessage, w: World)
    requires AnswersOf(w, KeyOf(m.chatId)) == map["empty" := "True"]
    ensures var (o, after) := AnswerStep(m, w);
            && o.Pass?
            && AnswersOf(after, KeyOf(m.chatId)) == map["empty" := "True", CaseIdKey := m.text]
            && after.calls == w.calls + [SendMessage(Reply(MessagesMapping[HeroLastNameKey], m.chatId))]
  {
    var saved := AnswersOf(w, KeyOf(m.chatId));
    assert OrderOfMessages[0] == CaseIdKey && OrderOfMessages[1] == HeroLastNameKey;
    NextKeyIsSecondUnanswered(saved, 0, 1);
    assert ValidateUserInput(CaseIdKey, m.text) == Pass;
    assert AnswerReply(m.chatId, Some(HeroLastNameKey), saved[CaseIdKey := m.text])
        == Ok(Reply(MessagesMapping[HeroLastNameKey], m.chatId));
  }

  /** Confirming a complete, well-formed answer set in a private chat stores
      exactly the coerced record, deletes the answers and thanks the user. */
  lemma ConfirmedAnswersAreSaved(c: BotCommand, now: DateTime, w: World, author: Author)
    requires c.data == InputConfirmedCommand && c.chatType == Private && !c.sentByInlineKeyboard
    requires author == if c.chatId in w.authors then w.authors[c.chatId] else AuthorOf(c)
    requires CoerceAnswers(AnswersOf(w, KeyOf(Some(c.chatId))), author, now).Ok?
    ensures var (o, after) := CommandStep(c, now, w);
            && o.Pass?
            && after.records == w.records + [CoerceAnswers(AnswersOf(w, KeyOf(Some(c.chatId))), author, now).value]
            && AnswersOf(after, KeyOf(Some(c.chatId))) == map[]
            && after.authors == w.authors[c.chatId := author]
            && after.calls == w.calls + [SendMessage(Reply(InputConfirmedResponse, Some(c.chatId)))]
  {
    var saved := AnswersOf(w, KeyOf(Some(c.chatId)));
    assert CaseIdKey in saved;
  }

  /** Rejecting an existing answer set deletes it and offers to start
      again. */
  lemma RejectedAnswersAreDeleted(c: BotCommand, now: DateTime, w: World)
    requires c.data == InputNotConfirmedCommand && c.chatType == Private && !c.sentByInlineKeyboard
    requires |AnswersOf(w, KeyOf(Some(c.chatId)))| > 0
    ensures var (o, after) := CommandStep(c, now, w);
            && o.Pass?
            && AnswersOf(after, KeyOf(Some(c.chatId))) == map[]
            && after.records == w.records && after.authors == w.authors
            && after.calls == w.calls + [SendMessage(ReplyWithMarkup(InputNotConfirmedResponse, Some(c.chatId), BeginMarkup))]
  {
  }

  /** In a group chat a command still acts but is never answered. */
  lemma GroupCommandsGetNoReply(c: BotCommand, now: DateTime, w: World)
    requires c.chatType == Group
    ensures CommandStep(c, now, w).1 == CommandAct(c, now, w).1
  {
  }

  // ---------------------------------------------------------------------
  // The processors and the handler
  // ---------------------------------------------------------------------

  /** The state one update can change, read from the objects that hold it. */
  function Snapshot(store: RedisStore, db: Database, api: TelegramApi): World
    reads store, db, api
  {
    World(store.entries, store.expiry, db.authors, db.heroData, api.calls)
  }

  /** `UserMessageProcessor`: one answer to the questionnaire. */
  class UserMessageProcessor {
    const telegramMessage: Obj
    var parsedTelegramMessage: Option<UserMessage>
    var sequentialMessagesProcessor: Option<SequentialMessagesProcessor>
    var allDataReceived: bool

    /** A sequential processor, once made, only asks questions of the
        questionnaire. */
    ghost predicate Valid()
      reads this
    {
      sequentialMessagesProcessor.Some? ==>
        var p := sequentialMessagesProcessor.value;
        p.nextMessageKey.Some? ==> p.nextMessageKey.value in QuestionKeys
    }

    constructor (telegramMessage: Obj)
      ensures Valid()
      ensures this.telegramMessage == telegramMessage
      ensures parsedTelegramMessage.None? && sequentialMessagesProcessor.None? && !allDataReceived
    {
      this.telegramMessage := telegramMessage;
      parsedTelegramMessage := None;
      sequentialMessagesProcessor := None;
      allDataReceived := false;
    }

    /** `process`: parses the update, then builds the sequential processor
        and saves the answer; a complete answer set is only noted. */
    method Process(store: RedisStore) returns (o: Outcome<Failure>)
      requires store.Valid() && Valid()
      modifies this, store
      ensures store.Valid() && Valid()
      ensures store.expiry == old(store.expiry)
      ensures ParseUserMessage(telegramMessage).Err? ==>
                && o == Fail(ParseUserMessage(telegramMessage).error)
                && store.entries == old(store.entries)
      ensures ParseUserMessage(telegramMessage).Ok? ==>
                var m := ParseUserMessage(telegramMessage).value;
                var keys := CurrentAndNextKeys(old(store.UserInput(KeyOf(m.chatId))));
                && parsedTelegramMessage == Some(m)
                && (o, store.entries) == SaveStep(m, old(store.entries))
                && (keys.Err? ==>
                      allDataReceived && sequentialMessagesProcessor == old(sequentialMessagesProcessor))
                && (keys.Ok? ==>
                      && allDataReceived == old(allDataReceived)
                      && sequentialMessagesProcessor.Some?
                      && sequentialMessagesProcessor.value.store == store
                      && sequentialMessagesProcessor.value.userId == m.chatId
                      && sequentialMessagesProcessor.value.currentMessageKey == keys.value.0
                      && sequentialMessagesProcessor.value.nextMessageKey == keys.value.1)
    {
      var parsed := ParseUserMessage(telegramMessage);
      if parsed.Err? {
        return Fail(parsed.error);
      }
      var m := parsed.value;
      parsedTelegramMessage := Some(m);
      var created := SequentialMessagesProcessor.Create(store, m.text, m.chatId);
      if created.Err? {
        allDataReceived := true;
        return Pass;
      }
      sequentialMessagesProcessor := Some(created.value);
      o := created.value.SaveMessage();
    }

    /** `prepare_response`: the closing notice for a complete answer set,
        otherwise the next question or, after the last one, the summary
        with the confirm and reject buttons. It reads the store through the
        sequential processor and changes nothing. */
    method PrepareResponse() returns (r: Result<ResponsePayload, Failure>)
      requires Valid()
      ensures sequentialMessagesProcessor.None? && !allDataReceived ==> r == Err(AttributeError)
      ensures parsedTelegramMessage.None? ==> r.Err?
      ensures parsedTelegramMessage.Some? && sequentialMessagesProcessor.None? && allDataReceived ==>
                r == Ok(Reply(AllDataReceivedResponse, parsedTelegramMessage.value.chatId))
      ensures parsedTelegramMessage.Some? && sequentialMessagesProcessor.Some? ==>
                var p := sequentialMessagesProcessor.value;
                var chatId := parsedTelegramMessage.value.chatId;
                r == AnswerReply(chatId, p.nextMessageKey, p.store.UserInput(KeyOf(p.userId)))
    {
      var text: string;
      var markup := JNull;
      if sequentialMessagesProcessor.None? && allDataReceived {
        text := AllDataReceivedResponse;
      } else if sequentialMessagesProcessor.None? {
        return Err(AttributeError);
      } else {
        var p := sequentialMessagesProcessor.value;
        var prompt := ResponseText(p.nextMessageKey);
        if prompt.Ok? {
          text := prompt.value;
        } else {
          var summary := ConfirmationText(p.store.UserInput(KeyOf(p.userId)));
          if summary.Err? {
            return Err(summary.error);
          }
          text := summary.value;
          markup := ConfirmationMarkup;
        }
      }
      if parsedTelegramMessage.None? {
        return Err(AttributeError);
      }
      return Ok(ToPayload(ResponseMessage(text, parsedTelegramMessage.value.chatId, markup, None)));
    }
  }

  /** `BotCommandProcessor`: a typed command or a button press. */
  class BotCommandProcessor {
    const telegramMessage: Obj
    var parsedTelegramMessage: Option<BotCommand>

    constructor (telegramMessage: Obj)
      ensures this.telegramMessage == telegramMessage && parsedTelegramMessage.None?
    {
      this.telegramMessage := telegramMessage;
      parsedTelegramMessage := None;
    }

    /** `process`: parses the command, strips the keyboard it was sent
        with, and runs it against the store and the tables. */
    method Process(store: RedisStore, db: Database, api: TelegramApi, now: DateTime) returns (o: Outcome<Failure>)
      requires store.Valid() && db.Valid()
      modifies this, store, db, api
      ensures store.Valid() && db.Valid()
      ensures ParseCommand(telegramMessage).Err? ==>
                && o == Fail(ParseCommand(telegramMessage).error)
                && Snapshot(store, db, api) == old(Snapshot(store, db, api))
      ensures ParseCommand(telegramMessage).Ok? ==>
                && parsedTelegramMessage == Some(ParseCommand(telegramMessage).value)
                && (o, Snapshot(store, db, api))
                   == CommandAct(ParseCommand(telegramMessage).value, now, old(Snapshot(store, db, api)))
    {
      var parsed := ParseCommand(telegramMessage);
      if parsed.Err? {
        return Fail(parsed.error);
      }
      var c := parsed.value;
      parsedTelegramMessage := Some(c);
      if c.sentByInlineKeyboard {
        api.Post(EditMessageReplyMarkup(c.chatId, c.repliedMessageId));
      }
      ghost var stripped := Snapshot(store, db, api);
      if c.data == InputConfirmedCommand {
        var author := db.GetOrCreateAuthor(c.chatId, AuthorOf(c));
        var saved := SaveConfirmedData(store, db, c.chatId, author, now);
        o := if saved.Ok? then Pass else Fail(saved.error);
        assert (o, Snapshot(store, db, api)) == ConfirmStep(c, now, stripped);
      } else if c.data == InputNotConfirmedCommand {
        o := RemoveIncorrectInput(store, c.chatId);
      } else {
        o := Pass;
      }
    }

    /** `prepare_response`: the fixed reply of a known command outside
        group chats. */
    method PrepareResponse() returns (r: Result<Option<ResponsePayload>, Failure>)
      ensures parsedTelegramMessage.None? ==> r == Err(AttributeError)
      ensures parsedTelegramMessage.Some? ==> r == Ok(CommandResponse(parsedTelegramMessage.value))
    {
      if parsedTelegramMessage.None? {
        return Err(AttributeError);
      }
      return Ok(CommandResponse(parsedTelegramMessage.value));
    }
  }

  /** `MemberStatusChangeProcessor`: the bot was added to or removed from a
      chat. */
  class MemberStatusChangeProcessor {
    const telegramMessage: Obj
    var parsedTelegramMessage: Option<StatusChangeWithinChat>

    constructor (telegramMessage: Obj)
      ensures this.telegramMessage == telegramMessage && parsedTelegramMessage.None?
    {
      this.telegramMessage := telegramMessage;
      parsedTelegramMessage := None;
    }

    /** `process`: parses the status change. */
    method Process() returns (o: Outcome<Failure>)
      modifies this
      ensures ParseStatusChange(telegramMessage).Err? ==>
                o == Fail(ParseStatusChange(telegramMessage).error)
                && parsedTelegramMessage == old(parsedTelegramMessage)
      ensures ParseStatusChange(telegramMessage).Ok? ==>
                o.Pass? && parsedTelegramMessage == Some(ParseStatusChange(telegramMessage).value)
    {
      var parsed := ParseStatusChange(telegramMessage);
      if parsed.Err? {
        return Fail(parsed.error);
      }
      parsedTelegramMessage := Some(parsed.value);
      return Pass;
    }

    /** `prepare_response`, as intended: the greeting when the bot joins a
        private chat. */
    method PrepareResponse() returns (r: Result<Option<ResponsePayload>, Failure>)
      ensures parsedTelegramMessage.None? ==> r == Err(AttributeError)
      ensures parsedTelegramMessage.Some? ==> r == Ok(StatusResponse(parsedTelegramMessage.value))
    {
      if parsedTelegramMessage.None? {
        return Err(AttributeError);
      }
      return Ok(StatusResponse(parsedTelegramMessage.value));
    }
  }

  /** `_send_response`: posts a prepared reply. */
  method SendResponse(api: TelegramApi, response: ResponsePayload)
    modifies api
    ensures api.calls == old(api.calls) + [SendMessage(response)]
  {
    api.Post(SendMessage(response));
  }

  /** The handler with a `UserMessageProcessor`: process, then reply. */
  method HandleUserMessage(event: Obj, store: RedisStore, db: Database, api: TelegramApi)
    returns (o: Outcome<Failure>)
    requires store.Valid()
    modifies store, api
    ensures store.Valid()
    ensures (o, Snapshot(store, db, api)) == UserUpdateStep(event, old(Snapshot(store, db, api)))
  {
    ghost var before := Snapshot(store, db, api);
    var processor := new UserMessageProcessor(event);
    o := processor.Process(store);
    assert Snapshot(store, db, api) == before.(entries := store.entries);
    o := RespondToUpdate(processor, store, db, api, event, o, before);
  }

  /** The handler once `process` returned `processed` for `event` from the
      state `w`: a failure is returned as it is, otherwise the reply is
      prepared and sent. */
  method RespondToUpdate(processor: UserMessageProcessor, store: RedisStore, db: Database, api: TelegramApi,
                         event: Obj, processed: Outcome<Failure>, ghost w: World)
    returns (o: Outcome<Failure>)
    requires store.Valid() && processor.Valid()
    requires Snapshot(store, db, api) == w.(entries := store.entries)
    requires ParseUserMessage(event).Err? ==>
               processed == Fail(ParseUserMessage(event).error) && store.entries == w.entries
    requires ParseUserMessage(event).Ok? ==>
               var m := ParseUserMessage(event).value;
               var keys := CurrentAndNextKeys(AnswersOf(w, KeyOf(m.chatId)));
               && processor.parsedTelegramMessage == Some(m)
               && (processed, store.entries) == SaveStep(m, w.entries)
               && (keys.Err? ==> processor.allDataReceived && processor.sequentialMessagesProcessor.None?)
               && (keys.Ok? ==>
                     && processor.sequentialMessagesProcessor.Some?
                     && processor.sequentialMessagesProcessor.value.store == store
                     && processor.sequentialMessagesProcessor.value.userId == m.chatId
                     && processor.sequentialMessagesProcessor.value.nextMessageKey == keys.value.1)
    modifies api
    ensures store.Valid()
    ensures (o, Snapshot(store, db, api)) == UserUpdateStep(event, w)
  {
    if processed.Fail? {
      if ParseUserMessage(event).Ok? {
        AnswerStepRejects(ParseUserMessage(event).value, w);
      }
      return processed;
    }
    o := RespondToAnswer(processor, store, db, api, ParseUserMessage(event).value, w);
  }

  /** The rest of the handler once a user message was processed without
      failure: the prepared reply is sent, or its failure returned. */
  method RespondToAnswer(processor: UserMessageProcessor, store: RedisStore, db: Database, api: TelegramApi,
                         ghost m: UserMessage, ghost w: World)
    returns (o: Outcome<Failure>)
    requires store.Valid() && processor.Valid() && processor.parsedTelegramMessage == Some(m)
    requires SaveStep(m, w.entries).0.Pass?
    requires Snapshot(store, db, api) == w.(entries := SaveStep(m, w.entries).1)
    requires var keys := CurrentAndNextKeys(AnswersOf(w, KeyOf(m.chatId)));
             && (keys.Err? ==> processor.allDataReceived && processor.sequentialMessagesProcessor.None?)
             && (keys.Ok? ==>
                   && processor.sequentialMessagesProcessor.Some?
                   && processor.sequentialMessagesProcessor.value.store == store
                   && processor.sequentialMessagesProcessor.value.userId == m.chatId
                   && processor.sequentialMessagesProcessor.value.nextMessageKey == keys.value.1)
    modifies api
    ensures store.Valid()
    ensures (o, Snapshot(store, db, api)) == AnswerStep(m, w)
  {
    SaveStepStores(m, w.entries);
    var r := processor.PrepareResponse();
    if CurrentAndNextKeys(AnswersOf(w, KeyOf(m.chatId))).Ok? {
      AnswerStepStores(m, w, r);
    }
    if r.Err? {
      return Fail(r.error);
    }
    SendResponse(api, r.value);
    o := Pass;
  }

  /** The handler with a `BotCommandProcessor`. */
  method HandleBotCommand(event: Obj, store: RedisStore, db: Database, api: TelegramApi, now: DateTime)
    returns (o: Outcome<Failure>)
    requires store.Valid() && db.Valid()
    modifies store, db, api
    ensures store.Valid() && db.Valid()
    ensures (o, Snapshot(store, db, api)) == CommandUpdateStep(event, now, old(Snapshot(store, db, api)))
  {
    ghost var before := Snapshot(store, db, api);
    var processor := new BotCommandProcessor(event);
    o := processor.Process(store, db, api, now);
    if o.Fail? {
      return;
    }
    var r := processor.PrepareResponse();
    assert CommandUpdateStep(event, now, before) == (Pass, Snapshot(store, db, api).(calls := api.calls + Sent(r.value)));
    if r.value.Some? {
      SendResponse(api, r.value.value);
    } else {
      assert api.calls + [] == api.calls;
    }
  }

  /** The handler with a `MemberStatusChangeProcessor`. */
  method HandleStatusChange(event: Obj, store: RedisStore, db: Database, api: TelegramApi)
    returns (o: Outcome<Failure>)
    modifies api
    ensures (o, Snapshot(store, db, api)) == StatusUpdateStep(event, old(Snapshot(store, db, api)))
  {
    ghost var before := Snapshot(store, db, api);
    var processor := new MemberStatusChangeProcessor(event);
    o := processor.Process();
    if o.Fail? {
      return;
    }
    var r := processor.PrepareResponse();
    assert StatusUpdateStep(event, before) == (Pass, Snapshot(store, db, api).(calls := api.calls + Sent(r.value)));
    if r.value.Some? {
      SendResponse(api, r.value.value);
    } else {
      assert api.calls + [] == api.calls;
    }
  }

  /** `MessageHandler.handle_telegram_message`: picks the processor, lets it
      act, and posts its reply when it has one. Its whole effect is the one
      `HandleSpec` describes. */
  method HandleTelegramMessage(event: Obj, store: RedisStore, db: Database, api: TelegramApi, now: DateTime)
    returns (o: Outcome<Failure>)
    requires store.Valid() && db.Valid()
    modifies store, db, api
    ensures store.Valid() && db.Valid()
    ensures (o, Snapshot(store, db, api)) == HandleSpec(event, now, old(Snapshot(store, db, api)))
  {
    var kind := GetMessageProcessor(event);
    if kind.Err? {
      return Fail(kind.error);
    }
    o := RunProcessor(kind.value, event, store, db, api, now);
  }

  /** Runs the processor the router chose: `process` and then the reply. */
  method RunProcessor(kind: ProcessorKind, event: Obj, store: RedisStore, db: Database, api: TelegramApi, now: DateTime)
    returns (o: Outcome<Failure>)
    requires store.Valid() && db.Valid()
    modifies store, db, api
    ensures store.Valid() && db.Valid()
    ensures (o, Snapshot(store, db, api)) == ProcessorStep(kind, event, now, old(Snapshot(store, db, api)))
  {
    match kind {
      case UserMessageKind =>
        o := HandleUserMessage(event, store, db, api);
      case BotCommandKind =>
        o := HandleBotCommand(event, store, db, api, now);
      case MemberStatusChangeKind =>
        o := HandleStatusChange(event, store, db, api);
    }
  }
}
