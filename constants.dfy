/** The fixed question policy: the eleven answer keys in the order they are
    asked, the prompt for each, the date formats, and the reply texts the
    bot sends (telegram_bot/constants.py and telegram_bot/messages_texts.py). */
module Constants {

  // ---------------------------------------------------------------------
  // Question keys, in the order they are asked
  // ---------------------------------------------------------------------

  const CaseIdKey: string := "case_id"
  const HeroLastNameKey: string := "hero_last_name"
  const HeroFirstNameKey: string := "hero_first_name"
  const HeroPatronymicKey: string := "hero_patronymic"
  const HeroDateOfBirthKey: string := "hero_date_of_birth"
  const ItemUsedForDnaExtractionKey: string := "item_used_for_dna_extraction"
  const RelativeLastNameKey: string := "relative_last_name"
  const RelativeFirstNameKey: string := "relative_first_name"
  const RelativePatronymicKey: string := "relative_patronymic"
  const IsAddedToDnaDbKey: string := "is_added_to_dna_db"
  const CommentKey: string := "comment"

  /** ORDER_OF_MESSAGES. */
  const OrderOfMessages: seq<string> := [
    CaseIdKey, HeroLastNameKey, HeroFirstNameKey, HeroPatronymicKey,
    HeroDateOfBirthKey, ItemUsedForDnaExtractionKey, RelativeLastNameKey,
    RelativeFirstNameKey, RelativePatronymicKey, IsAddedToDnaDbKey, CommentKey
  ]

  /** The set of question keys; any other field of a stored answer set (the
      `"empty"` marker, say) is not a question. */
  const QuestionKeys: set<string> := set k | k in OrderOfMessages

  // ---------------------------------------------------------------------
  // Prompts
  // ---------------------------------------------------------------------

  const InqueryMessageStart: string := "Будь ласка введіть "
  const CaseIdInquery: string := "номер справи в реєстрі."
  const HeroFirstNameInquery: string := "ім'я героя."
  const HeroLastNameInquery: string := "прізвище героя."
  const HeroPatronymicNameInquery: string := "ім'я по батькові героя."
  const HeroDateOfBirthInquery: string := "дату народження героя в форматі ДД/ММ/РРРР, наприклад: 28/08/1990."
  const ItemUsedForDnaExtractionInquery: string := "предмет який використовували для отримання ДНК."
  const RelativeFirstNameInquery: string := "ім'я родича."
  const RelativeLastNameInquery: string := "прізвище родича."
  const RelativePatronymicNameInquery: string := "ім'я по батькову родича."
  const IsAddedToDnaDbInquery: string := "чи доданий зразок ДНК до бази в форматі Так/Ні."
  const CommentInquery: string := "комментар, якщо потрібно. Якщо немає потреби додаткових коментарів, введіть Ні."

  /** MESSAGES_MAPPING: the prompt that asks for each key. */
  const MessagesMapping: map<string, string> := map[
    CaseIdKey := InqueryMessageStart + CaseIdInquery,
    HeroLastNameKey := InqueryMessageStart + HeroLastNameInquery,
    HeroFirstNameKey := InqueryMessageStart + HeroFirstNameInquery,
    HeroPatronymicKey := InqueryMessageStart + HeroPatronymicNameInquery,
    HeroDateOfBirthKey := InqueryMessageStart + HeroDateOfBirthInquery,
    ItemUsedForDnaExtractionKey := InqueryMessageStart + ItemUsedForDnaExtractionInquery,
    RelativeLastNameKey := InqueryMessageStart + RelativeLastNameInquery,
    RelativeFirstNameKey := InqueryMessageStart + RelativeFirstNameInquery,
    RelativePatronymicKey := InqueryMessageStart + RelativePatronymicNameInquery,
    IsAddedToDnaDbKey := InqueryMessageStart + IsAddedToDnaDbInquery,
    CommentKey := InqueryMessageStart + CommentInquery
  ]

  // ---------------------------------------------------------------------
  // Date formats
  // ---------------------------------------------------------------------

  /** DATE_FORMAT, used to print dates in reports and report file names. */
  const DateFormat: string := "%d-%m-%Y"
  const ReportDateSeparator: char := '-'

  /** The format a date-of-birth answer must follow. */
  const AnswerDateFormat: string := "%d/%m/%Y"
  const AnswerDateSeparator: char := '/'

  // ---------------------------------------------------------------------
  // Reply texts
  // ---------------------------------------------------------------------

  const FirstInstructions: string := "\nПривіт, я бот для передачі інформації по пошуку героя ЗСУ.\nЯ буду просити тебе по черзі відправляти мені дані.\nВ кінці буде можливість все перепровірити і, якщо необхідно,\nвідмінити прийняття надісланих даних і все відправити з самого початку."
  const InputConfirmedResponse: string := "Дякую, ваші дані збереджені і будуть передані <link to the admin>."
  const InputNotConfirmedResponse: string := "Введені дані видалено. Я запрошу ввести ще раз усі дані як попередньо. "
  const AllDataReceivedResponse: string := "Від вас отримані всі дані. Якщо це не так, будьласка зверніться до <link_to_admin>"

  // ---------------------------------------------------------------------
  // Properties of the policy
  // ---------------------------------------------------------------------

  /** Eleven keys, no key twice, from `case_id` to `comment`. */
  lemma OrderOfMessagesShape()
    ensures |OrderOfMessages| == 11
    ensures OrderOfMessages[0] == "case_id" && OrderOfMessages[10] == "comment"
    ensures forall i, j :: 0 <= i < j < |OrderOfMessages| ==> OrderOfMessages[i] != OrderOfMessages[j]
  {
  }

  /** There is a prompt for every question key and for nothing else. */
  lemma MessagesMappingCoversOrder()
    ensures MessagesMapping.Keys == QuestionKeys
  {
  }

  /** Every prompt opens with the same polite request. */
  lemma PromptsStartWithInquery()
    ensures forall k :: k in MessagesMapping ==>
              |InqueryMessageStart| < |MessagesMapping[k]|
              && MessagesMapping[k][..|InqueryMessageStart|] == InqueryMessageStart
  {
  }

  /** Reports print dates with dashes, answers are checked with slashes; the
      two formats share the day-month-year layout and differ only there. */
  lemma DateFormatsDiffer()
    ensures DateFormat == "%d" + [ReportDateSeparator] + "%m" + [ReportDateSeparator] + "%Y"
    ensures AnswerDateFormat == "%d" + [AnswerDateSeparator] + "%m" + [AnswerDateSeparator] + "%Y"
    ensures DateFormat != AnswerDateFormat
  {
  }
}
