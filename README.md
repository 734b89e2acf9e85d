# hero-search-bot: the questionnaire conversation engine

This project models the Telegram bot that collects missing-person records
("hero data") for a DNA registry. It does so in Dafny and proves properties
of the model.

- A user adds the bot and gets the instructions.
- The bot asks eleven questions, one message per answer, in a fixed order:
  case id, hero's names, date of birth, DNA item, relative's names, DNA-database
  flag, comment.
- Each answer is kept in a per-user Redis hash with a 30-minute lifetime.
- When all answers are in, the bot shows a summary with two buttons.
- Confirming stores a `HeroData` row with its `DataEntryAuthor` and deletes
  the hash. Rejecting deletes the hash and offers to start again.
- A report command writes the rows of a date range as a `;`-separated CSV
  file with a fixed header.
- A management command registers the bot's webhook URL.

Modules follow the source files:

| module | file | models |
|---|---|---|
| `Constants` | `constants.dfy` | the question order, the question-to-prompt mapping, the date formats and the texts of `messages_texts.py` |
| `Enums` | `enums.dfy` | `UserActionType`, `ChatType` and `MessageType` decoding |
| `Records` | `dataclasses.dfy` | the parsed records and `ResponseMessage.to_payload` |
| `Parsers` | `parsers.dfy` | the three parsers over the update's JSON tree |
| `Serializers` | `serializers.dfy` | the request-body validation, as predicates |
| `Progress` | `progress.dfy` | `SequentialMessagesProcessor`: which question is next, saving, confirming, coercion into a record |
| `Handling` | `handling.dfy` | the three processors and `MessageHandler` |
| `Report` | `report.dfy` | `ReportGenerator` |
| `Webhook` | `webhook.dfy` | the `set_webhook` command |

Supporting modules:

- `AnswerStore` (`store.dfy`): a Redis hash store with expiry.
- `Models` (`models.dfy`): the two tables.
- `JsonValues` (`json.dfy`): JSON values with Python's indexing and truthiness.
- `Text` (`text.dfy`): `lower`, `split`, `join`, `int()` and `str()`.
- `Dates` (`dates.dfy`): the Gregorian calendar, `strptime` and `strftime`.
- `Wrappers` and `Exceptions` (`wrappers.dfy`): `Option`, `Result`, `Outcome`, and the `Failure` values that stand for raised exceptions.

How the handler is proved:

1. Every processor is a class whose methods update the store, the database
   and the outgoing-request log.
2. `Handling.HandleTelegramMessage` is proved equal to the pure step function
   `HandleSpec` over a snapshot of that state.
3. The conversation properties are lemmas about `HandleSpec` and the step
   functions it dispatches to.

## Model

| member | source | states |
|---|---|---|
| `Constants.OrderOfMessagesShape` | telegram_bot/constants.py:13-25 | there are eleven questions, case id first and comment last, and no key repeats |
| `Constants.MessagesMappingCoversOrder` | telegram_bot/constants.py:27-40 | every question key has a prompt and nothing else has one |
| `Constants.PromptsStartWithInquery` | telegram_bot/constants.py:27-40 | every prompt begins with the common "please enter" opening |
| `Constants.DateFormatsDiffer` | telegram_bot/constants.py:50 | the report writes dates as dd-mm-YYYY while answers are read as dd/mm/YYYY, so the two formats are different |
| `Records.ToPayload` | telegram_bot/dataclasses.py:52-60 | the payload carries the text and chat id; it has `reply_markup` (the JSON dump) exactly when the markup is truthy, and `files` exactly when a path is set |
| `Records.PlainPayload` | telegram_bot/dataclasses.py:52-60 | a message without markup or file becomes a payload holding only text and chat id |
| `Records.ToPayloadInjective` | telegram_bot/dataclasses.py:52-60 | two messages with markup and without files that give the same payload have the same text, chat id and markup |
| `JsonValues.Index` | telegram_bot/parsers.py:22 | `d[k]` succeeds exactly on an object holding `k` and gives its value; on an object without `k` it is a KeyError |
| `JsonValues.GetOr` | telegram_bot/parsers.py:80-82 | `d.get(k, default)` works on objects only and gives the value or the default |
| `JsonValues.Get` | telegram_bot/parsers.py:23 | `d.get(k)` works on objects only and gives None for a missing key |
| `JsonValues.Contains` | telegram_bot/parsers.py:44 | `k in d` on an object is key membership; it fails exactly on values that are neither objects, lists nor strings |
| `JsonValues.First` | telegram_bot/enums.py:39 | `entities[0]` is the first element of a non-empty list |
| `JsonValues.AsInt` | telegram_bot/parsers.py:61 | an integer field is read exactly when the value is an integer |
| `JsonValues.AsOptInt` | telegram_bot/parsers.py:25 | an optional integer is None exactly for null and the number for an integer |
| `JsonValues.AsStr` | telegram_bot/parsers.py:28 | a text field is read exactly when the value is a string |
| `JsonValues.AsOptStr` | telegram_bot/parsers.py:27 | an optional text is None exactly for null and the string for a string |
| `Text.LowerChar` | telegram_bot/enums.py:11 | a character that lowers to a Latin lower-case letter was that letter, its capital, or (for `k`) the Kelvin sign U+212A |
| `Text.Lower` | telegram_bot/enums.py:11 | `lower()` keeps the length and lowers each character in place |
| `Text.LowerCharIdempotent` | telegram_bot/enums.py:11 | lowering a character twice is lowering it once |
| `Text.LowerIdempotent` | telegram_bot/enums.py:11 | lowering a string twice is lowering it once |
| `Text.LowerMatchesToken` | telegram_bot/enums.py:11-13 | a string lowers to a lower-case token exactly when it has the token's length and each character lowers to the token's character |
| `Text.LowerOfAsciiToken` | telegram_bot/enums.py:11-13 | tokens such as `member`, `private` and `bot_command` are their own lower-case form |
| `Text.Split` | telegram_bot/report_generator.py:44-55 | splitting always gives at least one field |
| `Text.SplitJoin` | telegram_bot/report_generator.py:44-55 | splitting a joined line on its separator gives back the fields when no field contains the separator |
| `Text.Digits` | telegram_bot/report_generator.py:37 | a zero-padded field has exactly the requested width, only digits, and spells the number |
| `Text.NatToString` | telegram_bot/models.py:12 | `str(n)` is all digits, spells `n` and has no leading zero |
| `Text.IntToString` | telegram_bot/sequential_messages_processor.py:102 | `str(i)`: the decimal digits of the magnitude with no leading zero, after a `-` for a negative number |
| `Text.ParseInt` | telegram_bot/sequential_messages_processor.py:102 | `int(s)` succeeds exactly on one or more ASCII digits with an optional leading sign, and gives their decimal value, negated after `-` |
| `Text.LeadingZerosIgnored` | telegram_bot/sequential_messages_processor.py:102 | a leading zero changes neither whether `int(s)` succeeds nor its value |
| `Text.IntToStringRoundTrip` | telegram_bot/sequential_messages_processor.py:102 | `int(str(i)) == i` for every integer |
| `Dates.DaysInMonth` | telegram_bot/sequential_messages_processor.py:149 | a month has 28 to 31 days, and February has 29 exactly in a leap year |
| `Dates.FormatDate` | telegram_bot/report_generator.py:37 | `strftime` with `%d`, `%m` and `%Y`: ten characters, the separator at positions 2 and 5, and the day, month and year spelled as zero-padded digits |
| `Dates.ParseDate` | telegram_bot/sequential_messages_processor.py:146-151 | `strptime` accepts only real calendar dates |
| `Dates.FormatDateShape` | telegram_bot/report_generator.py:37 | `strftime` gives ten characters: two separators at positions 2 and 5 and digits elsewhere |
| `Dates.ParseFormatRoundTrip` | telegram_bot/report_generator.py:37 | parsing a formatted date with the same separator gives the date back |
| `Dates.SplitDateFields` | telegram_bot/sequential_messages_processor.py:106-109 | a date text splits on its separator into day, month and year |
| `Dates.ParseDateFields` | telegram_bot/sequential_messages_processor.py:106-109 | parsing is decided field by field: day of 1-2 digits, month of 1-2 digits, year of 4 digits, forming a real date |
| `Dates.AcceptsPaddedDate` | telegram_bot/sequential_messages_processor.py:106-109 | "01/01/1990" is accepted as 1 January 1990 |
| `Dates.AcceptsUnpaddedDate` | telegram_bot/sequential_messages_processor.py:106-109 | "1/1/1990" is accepted too |
| `Dates.RejectsDashes` | telegram_bot/sequential_messages_processor.py:146-151 | "1-1-2022" is rejected |
| `Dates.RejectsDay32` | telegram_bot/sequential_messages_processor.py:146-151 | day 32 is rejected |
| `Dates.RejectsFeb29In1900` | telegram_bot/sequential_messages_processor.py:146-151 | 29 February 1900 is rejected, because 1900 is not a leap year |
| `Enums.LowerableText` | telegram_bot/enums.py:11 | `.lower()` applies to a string; on anything else it is an AttributeError |
| `Enums.UserActionFromPayload` | telegram_bot/enums.py:10-15 | decoding never yields OTHER, and an unknown value raises NotImplementedError |
| `Enums.UserActionCaseInsensitive` | telegram_bot/enums.py:10-15 | decoding ignores case |
| `Enums.UserActionDecodes` | telegram_bot/enums.py:10-15 | "member" means added and "left"/"kicked" mean removed, in any case; the rest is an error (both directions) |
| `Enums.KelvinKickedRemoves` | telegram_bot/enums.py:11-13 | a status spelled with the Kelvin sign, "\u212Aicked", lowers to "kicked" and removes the bot |
| `Enums.ChatTypeFromPayload` | telegram_bot/enums.py:23-28 | an unknown chat type raises NotImplementedError |
| `Enums.ChatTypeCaseInsensitive` | telegram_bot/enums.py:23-28 | decoding ignores case |
| `Enums.ChatTypeDecodes` | telegram_bot/enums.py:23-28 | "private" and "group" decode to their types, in any case; everything else is an error (both directions) |
| `Enums.ChannelIsRejected` | telegram_bot/enums.py:23-28 | a channel update is not handled |
| `Enums.FirstEntityType` | telegram_bot/enums.py:38-39 | the first entity's type can only be read from an object |
| `Enums.MessageTypeAsWritten` | telegram_bot/enums.py:37-43 | the decoder as written never gives COMMAND, and it succeeds only on a message with no truthy entities, as MESSAGE |
| `Enums.MessageTypeFromMessage` | telegram_bot/enums.py:37-43 | the corrected classification never yields OTHER |
| `Enums.AsWrittenNeverCommand` | telegram_bot/enums.py:39 | as written, no message is ever classified as a command |
| `Enums.AsWrittenRejectsCommand` | telegram_bot/enums.py:37-43 | on a message whose first entity type is `Bot_Command`, the as-written classification raises NotImplementedError while the corrected one gives COMMAND |
| `Enums.AsWrittenAgreesWithoutEntities` | telegram_bot/enums.py:41-43 | without entities the as-written and corrected classifications agree |
| `Enums.CommandEntityDecodes` | telegram_bot/enums.py:38-40 | a message is a command exactly when its first entity's type lowers to `bot_command` |
| `Enums.PlainTextDecodes` | telegram_bot/enums.py:41-43 | without entities, a message is a plain MESSAGE exactly when it has truthy text; otherwise it is NotImplementedError |
| `Parsers.OptName` | telegram_bot/parsers.py:27-30 | an absent name becomes None and a string name is kept |
| `Parsers.ParseChatType` | telegram_bot/parsers.py:62 | a chat type is read only from a chat object whose `type` is a string |
| `Parsers.ParseOptChatType` | telegram_bot/parsers.py:32-34 | a falsy chat gives no chat type; a truthy chat succeeds exactly when `chat["type"]` parses, and then gives the decoded `chat["type"]` |
| `Parsers.ParseUserMessage` | telegram_bot/parsers.py:20-35 | the record holds the sender id, the text and the chat id found at their paths in the update, the chat type decoded from the chat, and the sender's username and names read as optional fields, with a non-OTHER message type; with a falsy chat, chat id and chat type are None |
| `Parsers.ParsePrivateTextMessage` | telegram_bot/parsers.py:20-35 | a private text message without entities parses to exactly the record with its chat id, sender, text, MESSAGE type and PRIVATE chat type |
| `Parsers.ParseUserActionType` | telegram_bot/parsers.py:41-47 | a `left_chat_member` key means removal; otherwise `new_chat_member.status` is decoded; OTHER never results |
| `Parsers.ParseStatusChange` | telegram_bot/parsers.py:50-68 | the source is `my_chat_member` when truthy and `message` otherwise; chat id, sender id, action and chat type come from that source, and absent names are None |
| `Parsers.StatusSource` | telegram_bot/parsers.py:51-53 | `my_chat_member or message`: a truthy `my_chat_member` is preferred, otherwise the message is used, and nothing else is ever chosen |
| `Parsers.ParseCommandAsCallbackQuery` | telegram_bot/parsers.py:74-94 | the data, sender, chat and replied message id come from their paths; the keyboard flag is set exactly when the replied markup has `inline_keyboard` |
| `Parsers.ParseCommandAsMessage` | telegram_bot/parsers.py:97-110 | the command is the message text, with no replied message and no keyboard |
| `Parsers.ParseCommand` | telegram_bot/parsers.py:113-121 | a truthy `callback_query` is parsed by the callback sub-parser, otherwise a truthy `message` by the message sub-parser (results and errors alike); a replied message id is present exactly when the command came from a callback; with neither it is NotImplementedError |
| `Serializers.ValidUser` | telegram_bot/serializers.py:23-37 | a validated sender yields an integer id and its three optional names without error |
| `Serializers.ValidChat` | telegram_bot/serializers.py:59-60 | a validated chat has an integer id and a string type, so decoding its type can fail only on an unknown chat type |
| `Serializers.ValidEntity` | telegram_bot/serializers.py:68-69 | a validated entity's `type` is a string, which `.get("type", "")` returns and `.lower()` accepts |
| `Serializers.ValidMessage` | telegram_bot/serializers.py:72-80 | a validated message is a non-empty object with a non-empty chat, so the parser always takes the chat branch |
| `Serializers.ValidMessageDecodes` | telegram_bot/serializers.py:72-80 | on a validated message the type decoder reads the first entity without error and can fail only with NotImplementedError |
| `Serializers.ValidChatMember` | telegram_bot/serializers.py:55-65 | a validated member update carries a string status; without `left_chat_member` its action is decoded from that status |
| `Serializers.ValidRepliedMessage` | telegram_bot/serializers.py:83-86 | the replied message has an integer chat id and an integer message id |
| `Serializers.ValidCallbackQuery` | telegram_bot/serializers.py:89-91 | the button data is a non-empty string of at most 256 characters |
| `Serializers.ValidUpdate` | telegram_bot/serializers.py:94-116 | a validated update has at least one of the four kinds present and non-empty, which is what `validate`'s `any` demands |
| `Serializers.ValidateRejectsEmpty` | telegram_bot/serializers.py:100-116 | an update with none of the four known kinds fails validation |
| `Serializers.ParseKnownChatType` | telegram_bot/serializers.py:59-60 | a validated chat of a known type always parses |
| `Serializers.ParseUserNames` | telegram_bot/serializers.py:23-37 | the optional names of a validated user always parse |
| `Serializers.ValidTextMessageParses` | telegram_bot/serializers.py:72-80 | a validated private or group text message without entities always parses |
| `Serializers.ValidCallbackQueryParses` | telegram_bot/serializers.py:89-91 | a validated callback query whose replied markup is an object always parses |
| `AnswerStore.KeyOfInjective` | telegram_bot/sequential_messages_processor.py:131-133 | two identities never share a Redis key |
| `AnswerStore.AnswerSetOf` | telegram_bot/sequential_messages_processor.py:131-133 | `hgetall` of a key is its hash, or empty when the key is absent |
| `AnswerStore.RedisStore.constructor` | telegram_bot/sequential_messages_processor.py:22 | a new client sees no keys and no expiries |
| `AnswerStore.RedisStore.UserInput` | telegram_bot/sequential_messages_processor.py:131-139 | the answers under an id are non-empty exactly when the key exists |
| `AnswerStore.RedisStore.HSet` | telegram_bot/sequential_messages_processor.py:64-67 | `hset` merges the fields into the key's hash, with the new values winning, and keeps the expiries |
| `AnswerStore.RedisStore.SetTtl` | telegram_bot/sequential_messages_processor.py:59 | `expire` sets the lifetime of an existing key only and changes no hash |
| `AnswerStore.RedisStore.Delete` | telegram_bot/sequential_messages_processor.py:153-155 | `delete` removes the key and its lifetime, and the key no longer exists |
| `AnswerStore.RedisStore.TtlElapsed` | telegram_bot/sequential_messages_processor.py:59 | when a lifetime runs out, exactly that key disappears |
| `Models.Database.constructor` | telegram_bot/models.py:4-26 | the tables start empty |
| `Models.Database.GetOrCreateAuthor` | telegram_bot/message_handling_services.py:179-187 | returns the stored author for the telegram id, or creates one from the defaults; hero rows are unchanged |
| `Models.Database.CreateHeroData` | telegram_bot/sequential_messages_processor.py:101-127 | `objects.create` appends exactly the record and leaves the authors alone |
| `Progress.MissingFrom` | telegram_bot/sequential_messages_processor.py:42-44 | the missing keys are exactly the keys not yet answered, and there are no more of them than keys |
| `Progress.CurrentAndNextKeys` | telegram_bot/sequential_messages_processor.py:37-54 | the current key is an unanswered question; the next key, if any, is a different unanswered question; when nothing is missing it raises AllDataReceived |
| `Progress.MissingSkipsAnswered` | telegram_bot/sequential_messages_processor.py:42-44 | an answered prefix does not affect the missing list |
| `Progress.MissingHead` | telegram_bot/sequential_messages_processor.py:42-46 | the first unanswered key heads the missing list |
| `Progress.MissingTailHead` | telegram_bot/sequential_messages_processor.py:48-52 | after the first unanswered key, the next unanswered key heads the rest of the list |
| `Progress.MissingFirstTwo` | telegram_bot/sequential_messages_processor.py:45-52 | the first two unanswered keys are the first two missing keys |
| `Progress.CurrentKeyIsFirstUnanswered` | telegram_bot/sequential_messages_processor.py:45-47 | the current question is the first unanswered one in the fixed order |
| `Progress.NextKeyIsSecondUnanswered` | telegram_bot/sequential_messages_processor.py:48-52 | the next question is the second unanswered one |
| `Progress.LastUnansweredHasNoNext` | telegram_bot/sequential_messages_processor.py:48-49 | when one question is left there is no next question |
| `Progress.AllDataReceivedIffComplete` | telegram_bot/sequential_messages_processor.py:45-54 | AllDataReceived is raised exactly when every question is answered |
| `Progress.MissingIgnoresOtherKeys` | telegram_bot/sequential_messages_processor.py:42-44 | fields that are not listed keys do not change the missing list |
| `Progress.NonQuestionKeysIgnored` | telegram_bot/sequential_messages_processor.py:56-59 | the `empty` marker, like any non-question field, does not change which question is current |
| `Progress.AnswerFirstMissing` | telegram_bot/sequential_messages_processor.py:42-46 | answering the first missing key removes exactly that key from the front of the list |
| `Progress.SavingAdvances` | telegram_bot/sequential_messages_processor.py:61-72 | saving the current answer makes the old next question the new current question; after the last answer the set is complete |
| `Progress.ValidateUserInput` | telegram_bot/sequential_messages_processor.py:146-151 | only the date-of-birth answer is checked, and it fails exactly when it is not a dd/mm/YYYY date |
| `Progress.PromptExampleDateAccepted` | telegram_bot/messages_texts.py:13-15 | the example date shown in the prompt passes the check |
| `Progress.DashedDateRejected` | telegram_bot/sequential_messages_processor.py:146-151 | a dash-separated birth date fails the check |
| `Progress.ResponseText` | telegram_bot/sequential_messages_processor.py:69-72 | with a next question the reply is exactly that question's prompt from the mapping, which starts with the inquiry opening; without one it raises AllDataReceived |
| `Progress.ConfirmationLines` | telegram_bot/sequential_messages_processor.py:74-88 | the summary lines exist exactly when every listed key is answered; otherwise they raise KeyError on the first missing key |
| `Progress.ConfirmationText` | telegram_bot/sequential_messages_processor.py:74-88 | the summary exists exactly when the set is complete, starts with the request to check, and otherwise raises KeyError on the current question |
| `Progress.SummaryLines` | telegram_bot/sequential_messages_processor.py:76-86 | one line per question, in the given order, each the indentation, the question's caption, ": " and the stored answer |
| `Progress.ConfirmationLinesAre` | telegram_bot/sequential_messages_processor.py:76-86 | with every answer present, the summary's body is exactly those lines, each after a line break |
| `Progress.NewlinedJoin` | telegram_bot/sequential_messages_processor.py:75-87 | lines each after a break, then a break and a last line, are the lines and the last one joined by breaks |
| `Progress.SummarySplits` | telegram_bot/sequential_messages_processor.py:75-87 | a header, lines and a trailer, none holding a break, split on breaks back into exactly those pieces |
| `Progress.HeaderHasNoBreak` | telegram_bot/sequential_messages_processor.py:75 | the request to check is a single line |
| `Progress.CaptionsHaveNoBreak` | telegram_bot/sequential_messages_processor.py:76-86 | there is one caption per question, and each caption is a single line |
| `Progress.SummaryParts` | telegram_bot/sequential_messages_processor.py:74-88 | for any single-line header and captions over single-line answers, the summary splits into the header, one `caption: answer` line per key and the trailing indentation |
| `Progress.SummaryRoundTrip` | telegram_bot/sequential_messages_processor.py:74-88 | for a complete set whose answers hold no line break, the summary's lines are the request to check, then for each question in order its caption and the answer exactly as stored, then the trailing indentation |
| `Progress.Lookup` | telegram_bot/sequential_messages_processor.py:77 | reading an answer raises KeyError exactly when it is missing |
| `Progress.YesTokenAnyCase` | telegram_bot/sequential_messages_processor.py:116-120 | "так" in any case means yes, and "Ні" and "yes" do not |
| `Progress.NoTokenAnyCase` | telegram_bot/sequential_messages_processor.py:121-125 | "ні" in any case means a blank comment, and "так" does not |
| `Progress.ParseCaseId` | telegram_bot/sequential_messages_processor.py:102 | the case id is read with `int`; anything else raises ValueError |
| `Progress.ParseDateOfBirth` | telegram_bot/sequential_messages_processor.py:106-109 | the birth date parses exactly when it is a real dd/mm/YYYY date; anything else raises ValueError |
| `Progress.HasAllAnswersIffComplete` | telegram_bot/sequential_messages_processor.py:100-127 | every field the record reads is present exactly when every question is answered |
| `Progress.CoerceAnswers` | telegram_bot/sequential_messages_processor.py:100-127 | a record is built exactly when all answers are present, the case id is an integer and the birth date is valid; the case id is stored as `str(int(answer))`, so "007" is kept as "7"; the flag is the yes-token, the comment is blanked by the no-token, and the names are kept as typed |
| `Progress.SequentialMessagesProcessor.Init` | telegram_bot/sequential_messages_processor.py:26-35 | the processor holds the message, the identity and the two keys it was given |
| `Progress.SequentialMessagesProcessor.Create` | telegram_bot/sequential_messages_processor.py:33-54 | construction fails with AllDataReceived exactly when no question is left; otherwise it holds the current and next keys of the stored answers |
| `Progress.SequentialMessagesProcessor.SaveMessage` | telegram_bot/sequential_messages_processor.py:61-67 | fails with UserInputExpired exactly when the set is gone and with UserMessageValidationFailed exactly on a bad date, writing nothing; otherwise stores the answer under the current key and keeps the lifetime |
| `Progress.CreateNewRedisEntry` | telegram_bot/sequential_messages_processor.py:56-59 | marks the set as started with a thirty-minute lifetime without changing the current question |
| `Progress.RemoveIncorrectInput` | telegram_bot/sequential_messages_processor.py:90-94 | fails with UserInputExpired exactly when the set is gone, changing nothing; otherwise deletes exactly that set |
| `Progress.SaveConfirmedData` | telegram_bot/sequential_messages_processor.py:96-129 | succeeds exactly when the set exists and coerces; then it appends exactly the coerced record and deletes the set; on any failure neither store nor table changes |
| `Report.TitlesAreWords` | telegram_bot/report_generator.py:61 | the column titles hold only Cyrillic letters and spaces |
| `Report.PathJoin` | telegram_bot/report_generator.py:31 | a joined path ends with the file name |
| `Report.CountChar` | telegram_bot/report_generator.py:56 | a count is zero exactly when the character is absent |
| `Report.FullNameSplits` | telegram_bot/report_generator.py:36-38 | a full name splits back into last, first and patronymic when none holds a space |
| `Report.RowFields` | telegram_bot/report_generator.py:34-55 | a row has eight fields: the case id, the hero's full name, the DNA item or blank, "Так"/"Ні" for the flag, the relative's full name and the comment or blank |
| `Report.RowFieldsAvoid` | telegram_bot/report_generator.py:44-55 | a character absent from the record's text and from the fixed parts is absent from every field |
| `Report.ConvertHeroDataToRow` | telegram_bot/report_generator.py:34-56 | every row ends with a line break |
| `Report.RowIsOneLine` | telegram_bot/report_generator.py:56 | a record without line breaks in its text gives exactly one line |
| `Report.RowRoundTrip` | telegram_bot/report_generator.py:34-56 | splitting a row (without its line break) on `;` gives back its eight fields when the text holds no `;` or line break |
| `Report.HeaderIsJoin` | telegram_bot/report_generator.py:61 | the header is the eight titles joined by `;`, followed by a line break |
| `Report.HeaderShape` | telegram_bot/report_generator.py:61 | the header has one title per row column, splits back into its titles, and holds one line break |
| `Report.HeaderText` | telegram_bot/report_generator.py:61-62 | a file holding only the header is one line |
| `Report.ReportLinesAreRows` | telegram_bot/report_generator.py:61-65 | the file is the header followed by one row per record, in order |
| `Report.RowsGrow` | telegram_bot/report_generator.py:63-65 | each loop step adds exactly the next record's row |
| `Report.ReportLineCount` | telegram_bot/report_generator.py:58-66 | a report of n records without line breaks in their text has exactly n + 1 lines |
| `Report.Files.constructor` | telegram_bot/report_generator.py:60 | no file has been written yet |
| `Report.Files.OpenForWriting` | telegram_bot/report_generator.py:60 | mode "w" truncates the file to nothing |
| `Report.Files.Write` | telegram_bot/report_generator.py:62 | a write appends its text to that file only |
| `Report.ReportGenerator.GetFilterDateTimes` | telegram_bot/report_generator.py:16-19 | the range runs from midnight of the start date to the last microsecond of the end date |
| `Report.ReportGenerator.FilterRangeIsWholeDays` | telegram_bot/report_generator.py:16-19 | every moment of a day within the range lies inside it |
| `Report.ReportGenerator.GetFileName` | telegram_bot/report_generator.py:29-32 | the path lies under the base directory and ends in `<start>_<end>.csv` with both dates in day-month-year form |
| `Report.ReportGenerator.FileNameShape` | telegram_bot/report_generator.py:29-32 | the file is `<start>_<end>.csv`, in dd-mm-YYYY form, under the base directory |
| `Report.WriteRows` | telegram_bot/report_generator.py:63-65 | the loop appends exactly the rows of the records, in order, to the open file |
| `Report.ReportGenerator.GenerateReport` | telegram_bot/report_generator.py:58-66 | returns the computed file name, and that file then holds exactly the header and one row per record |
| `Handling.TelegramApi.constructor` | telegram_bot/message_handling_services.py:293-294 | no request has been sent yet |
| `Handling.TelegramApi.Post` | telegram_bot/message_handling_services.py:300 | a post adds exactly one request to the log |
| `Handling.GetMessageProcessor` | telegram_bot/message_handling_services.py:278-290 | callbacks go to the command processor; a message goes there exactly when its first entity has exactly the type `bot_command`, and to the user-message processor when its first entity has another type; a message without entities goes to the member processor exactly when it has `left_chat_member` and to the user-message processor otherwise; a bare `my_chat_member` update goes to the member processor; NotImplementedError exactly when none of the three keys is present |
| `Handling.RoutedCommandIsCommand` | telegram_bot/message_handling_services.py:282-284 | the router's exact test is consistent with the message-type decoder: every message it sends to the command processor the decoder would also read as COMMAND |
| `Handling.CaseVariantCommandReachesDecoder` | telegram_bot/message_handling_services.py:282-287 | a message whose first entity type is `Bot_Command` goes to the user-message path, where the decoder as written raises NotImplementedError and the corrected one gives COMMAND |
| `Handling.RoutedLeaveIsRemoval` | telegram_bot/message_handling_services.py:285-286 | a leave message routed to the member processor parses as a removal |
| `Handling.CommandResponse` | telegram_bot/message_handling_services.py:261-271 | a reply exists exactly for the four known commands outside group chats; it goes to the command's chat with the text and buttons of that command |
| `Handling.ButtonsAreAnswered` | telegram_bot/message_handling_services.py:198-259 | every button the bot shows carries a command that gets a reply in a private chat |
| `Handling.SingleButtonRow` | telegram_bot/message_handling_services.py:198-218 | a one-button row offers exactly that button's command |
| `Handling.StatusResponse` | telegram_bot/message_handling_services.py:48-74 | the first instructions, with one "understood" button, are sent exactly when the bot is added to a private chat |
| `Handling.StatusResponseAsWritten` | telegram_bot/message_handling_services.py:49-51 | as written, preparing a status response always fails |
| `Handling.AsWrittenNeverGreets` | telegram_bot/message_handling_services.py:48-74 | when the bot is added to a private chat, the as-written code raises AttributeError where the corrected one greets |
| `Handling.SaveStepStores` | telegram_bot/message_handling_services.py:93-100 | a successful save stores the answer under the sender's current question |
| `Handling.AnswerStepRejects` | telegram_bot/message_handling_services.py:93-100 | a rejected answer changes nothing and sends nothing |
| `Handling.AnswerStepStores` | telegram_bot/message_handling_services.py:93-138 | an accepted answer stores the answer, and the reply it sends is the one prepared from the stored answers |
| `Handling.UnknownUpdateIgnored` | telegram_bot/message_handling_services.py:278-290 | an update of no known kind raises NotImplementedError and changes nothing |
| `Handling.HandleSpec` | telegram_bot/message_handling_services.py:303-308 | `handle_telegram_message` as a function of the update and the state: an update the router cannot place fails with the router's error and changes nothing; the lemmas below state the rest |
| `Handling.AnswerStepLog` | telegram_bot/message_handling_services.py:303-308 | handling an answer adds at most two requests to the log, the reply (if any) last, and no reply when it fails |
| `Handling.CommandActLog` | telegram_bot/message_handling_services.py:154-170 | acting on a command adds to the request log only the keyboard removal, and only for a button press |
| `Handling.CommandStepLog` | telegram_bot/message_handling_services.py:154-170 | handling a command adds at most the keyboard removal and then one reply, and no reply when it fails |
| `Handling.StatusStepLog` | telegram_bot/message_handling_services.py:303-308 | handling a status change adds at most one reply to the log, and none when it fails |
| `Handling.ProcessorStepLog` | telegram_bot/message_handling_services.py:303-308 | for each of the three processors, `process` and the reply grow the log by at most a keyboard removal and a reply, the reply last, and none on failure |
| `Handling.HandlingAppendsAtMostOneReply` | telegram_bot/message_handling_services.py:303-308 | whatever the update, the log only grows, by at most a keyboard removal and a reply; the reply, if any, is the last request, and a failing update gets none |
| `Handling.AnswerKeepsRecordsAndAuthors` | telegram_bot/message_handling_services.py:93-100 | answering adds no record beyond one and replaces no author |
| `Handling.StatusKeepsRecordsAndAuthors` | telegram_bot/message_handling_services.py:45-46 | a status change adds no record beyond one and replaces no author |
| `Handling.CommandKeepsRecordsAndAuthors` | telegram_bot/message_handling_services.py:154-196 | a command appends at most one record and never replaces a known author |
| `Handling.ConfirmKeepsRecordsAndAuthors` | telegram_bot/message_handling_services.py:178-191 | `/input_confirmed` appends at most one record and never replaces a known author |
| `Handling.ProcessorKeepsRecordsAndAuthors` | telegram_bot/message_handling_services.py:303-308 | for each of the three processors, records are only appended, one at most, and no known author is replaced |
| `Handling.HandlingKeepsRecordsAndAuthors` | telegram_bot/message_handling_services.py:303-308 | every update only appends records, one at most, and never replaces a known author |
| `Handling.AnswerKeepsOtherIdentities` | telegram_bot/message_handling_services.py:93-100 | one user's answer never changes another identity's answers |
| `Handling.CommandKeepsOtherIdentities` | telegram_bot/message_handling_services.py:154-196 | one user's command never changes another identity's answers |
| `Handling.AnswerTouchesOneKey` | telegram_bot/message_handling_services.py:93-100 | an answer leaves the store as it was or rewrites only the answer set under its own chat's key |
| `Handling.CommandTouchesOneKey` | telegram_bot/message_handling_services.py:154-196 | a command leaves the store as it was or deletes only its own chat's answer set |
| `Handling.ConfirmTouchesOneKey` | telegram_bot/message_handling_services.py:178-191 | `/input_confirmed` leaves the store as it was or deletes only its own chat's answer set |
| `Handling.AnswerNeedsAnswerSet` | telegram_bot/sequential_messages_processor.py:141-144 | with no answer set, an answer fails with UserInputExpired and changes nothing |
| `Handling.AnswerAdvances` | telegram_bot/message_handling_services.py:93-138 | an accepted answer is stored under the first unanswered question, and the bot asks exactly the question the next answer will be stored under |
| `Handling.LastAnswerSummarised` | telegram_bot/message_handling_services.py:102-129 | the last answer completes the set, and the bot replies with the summary and the confirm/reject buttons |
| `Handling.StartedSetAsksSecondQuestion` | telegram_bot/sequential_messages_processor.py:56-72 | in a freshly started set, the first message answers the case id and the bot asks for the hero's last name |
| `Handling.ConfirmedAnswersAreSaved` | telegram_bot/message_handling_services.py:178-191 | confirming a complete, valid set stores exactly the coerced record with its author, deletes the answers and thanks the user |
| `Handling.RejectedAnswersAreDeleted` | telegram_bot/message_handling_services.py:193-196 | rejecting deletes the answers, keeps the tables and offers to start again |
| `Handling.GroupCommandsGetNoReply` | telegram_bot/message_handling_services.py:261-271 | in a group a command still acts but is never answered |
| `Handling.UserMessageProcessor.constructor` | telegram_bot/message_handling_services.py:80-83 | nothing is parsed yet, there is no sequential processor, and the set is not complete |
| `Handling.UserMessageProcessor.Process` | telegram_bot/message_handling_services.py:93-100 | a parse failure changes nothing; otherwise the store changes exactly as the save step says, and a complete set is only noted |
| `Handling.UserMessageProcessor.PrepareResponse` | telegram_bot/message_handling_services.py:102-138 | the reply is the closing notice for a complete set, otherwise the next prompt or the summary with buttons |
| `Handling.BotCommandProcessor.constructor` | telegram_bot/message_handling_services.py:30-32 | holds the update, with nothing parsed |
| `Handling.BotCommandProcessor.Process` | telegram_bot/message_handling_services.py:154-170 | a parse failure changes nothing; otherwise store, tables and log change exactly as the command's action says |
| `Handling.BotCommandProcessor.PrepareResponse` | telegram_bot/message_handling_services.py:261-271 | the reply is the command's response; it is an error before parsing |
| `Handling.MemberStatusChangeProcessor.constructor` | telegram_bot/message_handling_services.py:30-32 | holds the update, with nothing parsed |
| `Handling.MemberStatusChangeProcessor.Process` | telegram_bot/message_handling_services.py:45-46 | parses the status change, or fails with the parse error |
| `Handling.MemberStatusChangeProcessor.PrepareResponse` | telegram_bot/message_handling_services.py:48-74 | the reply is the corrected status response |
| `Handling.SendResponse` | telegram_bot/message_handling_services.py:296-301 | sends exactly one `sendMessage` with the payload |
| `Handling.RespondToAnswer` | telegram_bot/message_handling_services.py:102-138 | after a saved answer, state and outcome are exactly the answer step's |
| `Handling.RespondToUpdate` | telegram_bot/message_handling_services.py:303-308 | after processing a user message, state and outcome are exactly the user-update step's |
| `Handling.HandleUserMessage` | telegram_bot/message_handling_services.py:303-308 | a plain message changes the state exactly as the user-update step says |
| `Handling.HandleBotCommand` | telegram_bot/message_handling_services.py:303-308 | a command changes the state exactly as the command-update step says |
| `Handling.HandleStatusChange` | telegram_bot/message_handling_services.py:303-308 | a status change changes the state exactly as the status-update step says |
| `Handling.HandleTelegramMessage` | telegram_bot/message_handling_services.py:303-308 | handling an update changes the store, the tables and the request log exactly as `HandleSpec` says; the lemmas above give that function's properties |
| `Handling.RunProcessor` | telegram_bot/message_handling_services.py:303-308 | running the chosen processor's `process` and sending its reply changes the state exactly as that processor's step function says |
| `Webhook.NormalizeWebhookUrl` | telegram_bot/management/commands/set_webhook.py:21-24 | the registered URL always ends with the update path |
| `Webhook.NormalizeKeepsOrAppendsOnce` | telegram_bot/management/commands/set_webhook.py:21-24 | a URL that already ends with the path is kept; any other URL gets the path appended once |
| `Webhook.NormalizeIdempotent` | telegram_bot/management/commands/set_webhook.py:21-24 | normalising twice is normalising once |
| `Webhook.Command.constructor` | telegram_bot/management/commands/set_webhook.py:9 | nothing has been printed or sent yet |
| `Webhook.Command.Handle` | telegram_bot/management/commands/set_webhook.py:19-38 | posts the normalised URL to `setWebhook` once; succeeds exactly on status 200 with `ok`, printing the notice and then success, and otherwise raises CommandError with the response in its message |

## Left out

- Identity: the handlers pass `chat_id=` to `SequentialMessagesProcessor` and `save_confirmed_data` (message_handling_services.py:88-91 and 188-191), but the parameter is named `user_id`. As written this is a TypeError. The model follows the evident intent: the answers are keyed by the chat id.
- `sequential_messages_processor.py` imports `TelegramUser` from `models.py` (line 19), which defines no such class. As written this is an ImportError, and the model uses `DataEntryAuthor`.
- `UserInputExpiredException` and `UserMessageValidationFailedException` are imported but not defined in `exceptions.py`. The model raises the failures they evidently stand for.
- `UserMessage.message_edition` is left out. It is a required field without a default (dataclasses.py:14), and the `UserMessage(...)` call at parsers.py:23-35 does not pass it, so as written that call raises TypeError for every message whose fields all parse. The model follows the evident intent: the record is built without the field.
- `_prepare_sequential_messages_processor` checks whether the message was parsed. That check can never fail (a dataclass instance is truthy), so it is not modelled.
- `create_new_redis_entry` is modelled (`Progress.CreateNewRedisEntry`) but no handler calls it in this revision. As a result, the answer set of a user who has never started is empty, and answering fails with UserInputExpired.
- The command flow runs `get_or_create` before `save_confirmed_data`, so a new author is kept even when the save then fails. The model does the same.
- Database constraints are left out: the uniqueness of `username` and the IntegrityError it can raise.
- The report's ORM query (filter on `created_at` and order by it descending) is left out. `GenerateReport` takes the selected records as a sequence.
- The file system is modelled as the list of pieces written to each file. Rows are written as strings, so file encoding is left out.
- `json.dumps` is an uninterpreted wrapper around the markup. In `to_payload`, the opened file handle is represented by its path.
- The network is modelled as a log of outgoing requests. The HTTP answers are not modelled, except the webhook's status code and `ok` flag, which are given as parameters.
- The bot token in URLs renders as `None` when the variable is unset. The `editMessageReplyMarkup` response is ignored, as in the source.
- `print` and `logging` output is left out.
- Report: `Printable` assumes that every record date is a real calendar date and that `created_at` is a valid moment. The ORM guarantees both for stored rows.
- Races between two Redis requests of one update (for example the key expiring between reading the keys and saving) are left out. One update is handled atomically, and `RedisStore.TtlElapsed` models expiry between updates.
- `strptime` also accepts a space-padded day (" 1/01/1990"). `Dates.ParseDate` rejects that form.
- `Dates.ParseDate` accepts ASCII digits only, while `strptime` accepts any Unicode decimal digit (for example "١٥/٠٣/١٩٩٠").
- `Text.Lower` lowers ASCII A–Z, the Kelvin sign U+212A (to `k`), U+0400–U+042F and Ґ (U+0490) only. Other capitals, such as those in U+0460–U+04FF, are left unchanged, and a capital whose Python lower case is two characters (U+0130 İ becomes `i` and U+0307) keeps its single character; none of these can lower to a token the bot compares, so the decoders in telegram_bot/enums.py answer as Python does.
- `Text.ParseInt` does not accept the surrounding whitespace or the digit-group underscores that Python's `int()` allows, and it accepts ASCII digits only, while `int()` accepts any Unicode decimal digit.
- The DRF serializers are modelled as validity predicates, with their `max_length` limits but without their type coercion.
- `JsonValues.AsInt`, `JsonValues.AsStr`, `JsonValues.AsOptInt` and `JsonValues.AsOptStr` fail with TypeError on a value of the wrong type, where the parsers copy the value unchanged, whether read with `[...]` or `.get` (parsers.py:25-28, 61 and 64-67). So an update carrying `"from": {"id": "5"}` parses in the source and fails in the model.
- `Webhook.Command.Handle` takes the URL as a string. Without `--url`, the option is None and the source raises AttributeError on `.endswith` (set_webhook.py:21-23); that path is not modelled.
- `Parsers.ParseUserMessage` uses the corrected message-type decoder (see Findings). So a message whose first entity type is a case variant of `bot_command`, such as `Bot_Command`, is decoded as COMMAND and its text stored as an answer, where the source raises NotImplementedError.
- `Handling.HandleSpec` and `Handling.MemberStatusChangeProcessor.PrepareResponse` use the corrected status response (see Findings). As written, every status update that parses raises AttributeError at message_handling_services.py:49-51. For example, a private-chat `my_chat_member` update with status "kicked" raises in the source, while the model ends with a pass and no change.

## Findings

| source | as written | input that shows it | evidently intended | confidence | as-written member | corrected member |
|---|---|---|---|---|---|---|
| telegram_bot/enums.py:39 | compares the bound method `.lower` (never called) with `"bot_command"`, which is always unequal | a message whose first entity is `{"type": "Bot_Command"}`: the router's exact comparison sends it to the user-message parser, where it raises NotImplementedError instead of giving COMMAND (a `/start` with the exact type goes to the command parser, which never decodes the type) | `.lower()` | not executed | `Enums.MessageTypeAsWritten` (shown by `Handling.CaseVariantCommandReachesDecoder`, `Enums.AsWrittenRejectsCommand`, `Enums.AsWrittenNeverCommand`) | `Enums.MessageTypeFromMessage` (proved by `Enums.CommandEntityDecodes`) |
| telegram_bot/message_handling_services.py:49-51 | reads `.status` from a `StatusChangeWithinChat`, which has no such field, so the call is an AttributeError | the bot being added to a private chat (a `my_chat_member` update with status "member"): no greeting is sent | use the parsed `user_action_type` | not executed | `Handling.StatusResponseAsWritten` (shown by `Handling.AsWrittenNeverGreets`) | `Handling.StatusResponse` |
