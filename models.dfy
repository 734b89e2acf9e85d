/** The durable records a confirmed questionnaire becomes, and the table
    store that holds them (the `DataEntryAuthor` and `HeroData` models).
    Only the two operations the engine performs are modelled: get-or-create
    of an author by Telegram id, and appending a record. */
module Models {
  import opened Wrappers
  import opened Dates

  /** The person who entered a questionnaire. */
  datatype Author = Author(
    telegramId: int,
    username: Option<string>,
    firstName: Option<string>,
    lastName: Option<string>)

  /** One confirmed questionnaire. The case id column is text; the item and
      the comment columns may be null. */
  datatype HeroData = HeroData(
    caseId: string,
    heroLastName: string,
    heroFirstName: string,
    heroPatronymic: string,
    heroDateOfBirth: Date,
    itemUsedForDnaExtraction: Option<string>,
    relativeLastName: string,
    relativeFirstName: string,
    relativePatronymic: string,
    isAddedToDnaDb: bool,
    comment: Option<string>,
    createdAt: DateTime,
    author: Author)

  class Database {
    /** Authors by Telegram id (the column is unique). */
    var authors: map<int, Author>
    /** Records in the order they were created. */
    var heroData: seq<HeroData>

    ghost predicate Valid()
      reads this
    {
      forall id :: id in authors ==> authors[id].telegramId == id
    }

    constructor ()
      ensures Valid() && authors == map[] && heroData == []
    {
      authors := map[];
      heroData := [];
    }

    /** `DataEntryAuthor.objects.get_or_create(telegram_id=..., defaults=...)`:
        the stored author when there is one, otherwise `defaults`, stored. */
    method GetOrCreateAuthor(telegramId: int, defaults: Author) returns (author: Author)
      requires Valid() && defaults.telegramId == telegramId
      modifies this
      ensures Valid()
      ensures author == if telegramId in old(authors) then old(authors)[telegramId] else defaults
      ensures authors == old(authors)[telegramId := author]
      ensures heroData == old(heroData)
    {
      if telegramId in authors {
        author := authors[telegramId];
      } else {
        author := defaults;
        authors := authors[telegramId := author];
      }
    }

    /** `HeroData.objects.create(...)`: appends one record. */
    method CreateHeroData(record: HeroData)
      requires Valid()
      modifies this
      ensures Valid()
      ensures heroData == old(heroData) + [record]
      ensures authors == old(authors)
    {
      heroData := heroData + [record];
    }
  }
}
