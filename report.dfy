/** The CSV report of confirmed questionnaires over a range of days
    (`ReportGenerator`). The records come in as a sequence already filtered
    to the range and ordered newest first; the file the report is written to
    is a name-to-contents map. */
module Report {
  import opened Wrappers
  import opened Text
  import opened Dates
  import opened Constants
  import opened Models

  /** The column titles, in column order. */
  const HeaderTitles: seq<string> := [
    "Номер справи", "ПІБ зниклого", "Дата народження зниклого", "Речі для отримання ДНК",
    "Чи додано до бази ДНК", "ПІБ родича", "Коментар", "Дата подання даних"]

  /** The header line: the column titles separated by `;`, then a line
      break. */
  const HeadersLine: string :=
    HeaderTitles[0] + ";" + (HeaderTitles[1] + ";" + (HeaderTitles[2] + ";" + (HeaderTitles[3] + ";"
    + (HeaderTitles[4] + ";" + (HeaderTitles[5] + ";" + (HeaderTitles[6] + ";" + HeaderTitles[7])))))) + "\n"

  /** The number of columns of a report. */
  const ColumnCount: nat := 8

  /** The characters the titles are written with: Cyrillic letters and
      spaces. */
  predicate IsTitleChar(c: char) {
    c == ' ' || '\U{0400}' <= c <= '\U{04FF}'
  }

  lemma TitlesAreWords()
    ensures forall k :: 0 <= k < |HeaderTitles| ==>
              forall i :: 0 <= i < |HeaderTitles[k]| ==> IsTitleChar(HeaderTitles[k][i])
  {
  }

  /** `os.path.join(base, name)`: an absolute `name` replaces the base; a
      base with no trailing separator gets one. */
  function PathJoin(base: string, name: string): (path: string)
    ensures |name| > 0 && name[0] != '/' ==> EndsWith(path, name)
    ensures |name| > 0 && name[0] != '/' ==> |base| <= |path| && path[..|base|] == base
  {
    if |name| > 0 && name[0] == '/' then name
    else if |base| == 0 || base[|base| - 1] == '/' then base + name
    else base + "/" + name
  }

  /** The number of times `c` occurs in `s`. */
  function CountChar(s: string, c: char): (n: nat)
    ensures n == 0 <==> c !in s
  {
    if |s| == 0 then 0
    else (if s[0] == c then 1 else 0) + CountChar(s[1..], c)
  }

  lemma {:induction false} CountCharAppend(a: string, b: string, c: char)
    ensures CountChar(a + b, c) == CountChar(a, c) + CountChar(b, c)
  {
    if |a| > 0 {
      assert (a + b)[1..] == a[1..] + b;
      CountCharAppend(a[1..], b, c);
    } else {
      assert a + b == b;
    }
  }

  /** A character none of the parts holds is not in their join either, as
      long as the separator does not hold it. */
  lemma {:induction false} JoinAvoids(sep: string, parts: seq<string>, c: char)
    requires c !in sep
    requires forall k :: 0 <= k < |parts| ==> c !in parts[k]
    ensures c !in Join(sep, parts)
  {
    if |parts| > 1 {
      JoinAvoids(sep, parts[1..], c);
    }
  }

  /** `"{last} {first} {patronymic}"`. */
  function FullName(last: string, first: string, patronymic: string): string {
    last + " " + first + " " + patronymic
  }

  /** A full name reads back into its three parts, in order, as long as no
      part holds a space. */
  lemma FullNameSplits(last: string, first: string, patronymic: string)
    requires ' ' !in last && ' ' !in first && ' ' !in patronymic
    ensures Split(FullName(last, first, patronymic), ' ') == [last, first, patronymic]
  {
    var parts := [last, first, patronymic];
    assert Join(" ", parts) == FullName(last, first, patronymic) by {
      assert Join(" ", parts[2..]) == patronymic;
      assert Join(" ", parts[1..]) == first + " " + patronymic;
    }
    SplitJoin(parts, ' ');
  }

  /** A record whose dates strftime can print: every date stored by the
      table is one. */
  predicate Printable(h: HeroData) {
    IsValidDate(h.heroDateOfBirth) && IsValidDate(h.createdAt.date)
  }

  /** The free-text parts of a record: the case id, the six name parts, the
      item and the comment. */
  function TextParts(h: HeroData): seq<string> {
    [h.caseId, h.heroLastName, h.heroFirstName, h.heroPatronymic,
     h.itemUsedForDnaExtraction.GetOr(""),
     h.relativeLastName, h.relativeFirstName, h.relativePatronymic,
     h.comment.GetOr("")]
  }

  /** No free-text part of the record holds `c`. */
  predicate TextAvoids(h: HeroData, c: char) {
    forall k :: 0 <= k < |TextParts(h)| ==> c !in TextParts(h)[k]
  }

  /** The eight cells of a record's row: case id, hero's full name, date of
      birth, item (blank when missing), "Так" or "Ні" for the DNA flag,
      relative's full name, comment (blank when missing), creation date. */
  function RowFields(h: HeroData): (fields: seq<string>)
    requires Printable(h)
    ensures |fields| == ColumnCount
    ensures fields[0] == h.caseId
    ensures fields[1] == FullName(h.heroLastName, h.heroFirstName, h.heroPatronymic)
    ensures fields[5] == FullName(h.relativeLastName, h.relativeFirstName, h.relativePatronymic)
    ensures fields[3] == (if h.itemUsedForDnaExtraction.Some? then h.itemUsedForDnaExtraction.value else "")
    ensures fields[4] == (if h.isAddedToDnaDb then "Так" else "Ні")
    ensures fields[6] == (if h.comment.Some? then h.comment.value else "")
  {
    [h.caseId,
     FullName(h.heroLastName, h.heroFirstName, h.heroPatronymic),
     FormatDate(h.heroDateOfBirth, ReportDateSeparator),
     h.itemUsedForDnaExtraction.GetOr(""),
     if h.isAddedToDnaDb then "Так" else "Ні",
     FullName(h.relativeLastName, h.relativeFirstName, h.relativePatronymic),
     h.comment.GetOr(""),
     FormatDate(h.createdAt.date, ReportDateSeparator)]
  }

  /** Every cell avoids a character that is neither a digit, the date
      separator, a space nor in the two flag words, when the record's free
      text avoids it. */
  lemma RowFieldsAvoid(h: HeroData, c: char)
    requires Printable(h) && TextAvoids(h, c)
    requires !IsDigit(c) && c != ReportDateSeparator && c != ' '
    requires c !in "Так" && c !in "Ні"
    ensures forall k :: 0 <= k < ColumnCount ==> c !in RowFields(h)[k]
  {
    FormatDateShape(h.heroDateOfBirth, ReportDateSeparator);
    FormatDateShape(h.createdAt.date, ReportDateSeparator);
    var parts := TextParts(h);
    assert c !in parts[0] && c !in parts[1] && c !in parts[2] && c !in parts[3] && c !in parts[4];
    assert c !in parts[5] && c !in parts[6] && c !in parts[7] && c !in parts[8];
  }

  /** `_convert_hero_data_to_row`: the cells joined by `;`, then a line
      break. */
  function ConvertHeroDataToRow(h: HeroData): (row: string)
    requires Printable(h)
    ensures |row| > 0 && row[|row| - 1] == '\n'
  {
    Join(";", RowFields(h)) + "\n"
  }

  /** A row holds exactly one line break, its last character, as long as
      the record's free text holds no line break. */
  lemma RowIsOneLine(h: HeroData)
    requires Printable(h) && TextAvoids(h, '\n')
    ensures CountChar(ConvertHeroDataToRow(h), '\n') == 1
  {
    var fields := RowFields(h);
    RowFieldsAvoid(h, '\n');
    JoinAvoids(";", fields, '\n');
    CountCharAppend(Join(";", fields), "\n", '\n');
  }

  /** A row reads back into its eight cells, in order, and holds exactly one
      line break, as long as the record's free text holds neither `;` nor a
      line break. The dates read back too. */
  lemma RowRoundTrip(h: HeroData)
    requires Printable(h) && TextAvoids(h, ';') && TextAvoids(h, '\n')
    ensures var row := ConvertHeroDataToRow(h);
            && Split(row[..|row| - 1], ';') == RowFields(h)
            && CountChar(row, '\n') == 1
            && ParseDate(Split(row[..|row| - 1], ';')[2], ReportDateSeparator) == Some(h.heroDateOfBirth)
            && ParseDate(Split(row[..|row| - 1], ';')[7], ReportDateSeparator) == Some(h.createdAt.date)
  {
    var fields := RowFields(h);
    var row := ConvertHeroDataToRow(h);
    assert row[..|row| - 1] == Join([';'], fields);
    RowFieldsAvoid(h, ';');
    SplitJoin(fields, ';');
    RowIsOneLine(h);
    ParseFormatRoundTrip(h.heroDateOfBirth, ReportDateSeparator);
    ParseFormatRoundTrip(h.createdAt.date, ReportDateSeparator);
  }

  /** Eight fields joined by `;`, written out. */
  lemma JoinEight(t: seq<string>)
    requires |t| == 8
    ensures Join(";", t) == t[0] + ";" + (t[1] + ";" + (t[2] + ";" + (t[3] + ";"
              + (t[4] + ";" + (t[5] + ";" + (t[6] + ";" + t[7]))))))
  {
    assert t[7..][1..] == [] && t[6..][1..] == t[7..] && t[5..][1..] == t[6..] && t[4..][1..] == t[5..];
    assert t[3..][1..] == t[4..] && t[2..][1..] == t[3..] && t[1..][1..] == t[2..];
    assert Join(";", t[7..]) == t[7];
    assert Join(";", t[6..]) == t[6] + ";" + Join(";", t[7..]);
    assert Join(";", t[5..]) == t[5] + ";" + Join(";", t[6..]);
    assert Join(";", t[4..]) == t[4] + ";" + Join(";", t[5..]);
    assert Join(";", t[3..]) == t[3] + ";" + Join(";", t[4..]);
    assert Join(";", t[2..]) == t[2] + ";" + Join(";", t[3..]);
    assert Join(";", t[1..]) == t[1] + ";" + Join(";", t[2..]);
    assert Join(";", t) == t[0] + ";" + Join(";", t[1..]);
  }

  /** Titles written only with title characters hold no `;` and no line
      break. */
  lemma WordsAvoidSeparators(t: seq<string>)
    requires forall k :: 0 <= k < |t| ==> forall i :: 0 <= i < |t[k]| ==> IsTitleChar(t[k][i])
    ensures forall k :: 0 <= k < |t| ==> ';' !in t[k] && '\n' !in t[k]
  {
    forall k | 0 <= k < |t| ensures ';' !in t[k] && '\n' !in t[k] {
      forall i | 0 <= i < |t[k]| ensures t[k][i] != ';' && t[k][i] != '\n' {
        assert IsTitleChar(t[k][i]);
      }
    }
  }

  /** The header line is the titles joined by `;`, then a line break. */
  lemma HeaderIsJoin()
    ensures HeadersLine == Join(";", HeaderTitles) + "\n"
  {
    JoinEight(HeaderTitles);
  }

  /** The header has one title per column, reads back into its titles and
      is a single line. */
  lemma HeaderShape()
    ensures |HeaderTitles| == ColumnCount
    ensures Split(HeadersLine[..|HeadersLine| - 1], ';') == HeaderTitles
    ensures CountChar(HeadersLine, '\n') == 1
  {
    var t := HeaderTitles;
    var joined := Join(";", t);
    HeaderIsJoin();
    assert HeadersLine[..|HeadersLine| - 1] == joined;
    TitlesAreWords();
    WordsAvoidSeparators(t);
    SplitJoin(t, ';');
    JoinAvoids(";", t, '\n');
    CountCharAppend(joined, "\n", '\n');
  }

  /** The text of pieces written one after another. */
  function Concat(pieces: seq<string>): string
  {
    if |pieces| == 0 then "" else Concat(pieces[..|pieces| - 1]) + pieces[|pieces| - 1]
  }

  /** The rows of `records`, in the same order. */
  function Rows(records: seq<HeroData>): (rows: seq<string>)
    requires forall k :: 0 <= k < |records| ==> Printable(records[k])
  {
    seq(|records|, k requires 0 <= k < |records| => ConvertHeroDataToRow(records[k]))
  }

  /** The lines of a report, in the order they are written: the header,
      then one row per record. */
  function ReportLines(records: seq<HeroData>): (lines: seq<string>)
    requires forall k :: 0 <= k < |records| ==> Printable(records[k])
  {
    [HeadersLine] + Rows(records)
  }

  /** A report has one line more than there are records; the first is the
      header and line `k + 1` is the row of record `k`, so the rows keep the
      order of the records. */
  lemma ReportLinesAreRows(records: seq<HeroData>)
    requires forall k :: 0 <= k < |records| ==> Printable(records[k])
    ensures |ReportLines(records)| == 1 + |records|
    ensures ReportLines(records)[0] == HeadersLine
    ensures forall k :: 0 <= k < |records| ==> ReportLines(records)[k + 1] == ConvertHeroDataToRow(records[k])
  {
  }

  /** The rows of some records are the rows of all but the last, then the
      last one's row. */
  lemma RowsSnoc(records: seq<HeroData>)
    requires |records| > 0
    requires forall k :: 0 <= k < |records| ==> Printable(records[k])
    ensures Rows(records) == Rows(records[..|records| - 1]) + [ConvertHeroDataToRow(records[|records| - 1])]
  {
    var n := |records|;
    var init := records[..n - 1];
    var grown := Rows(init) + [ConvertHeroDataToRow(records[n - 1])];
    forall k | 0 <= k < n ensures Rows(records)[k] == grown[k] {
      if k < n - 1 {
        assert init[k] == records[k];
      }
    }
  }

  /** One more record adds its row at the end. */
  lemma RowsGrow(records: seq<HeroData>, i: nat)
    requires i < |records|
    requires forall k :: 0 <= k < |records| ==> Printable(records[k])
    ensures Rows(records[..i + 1]) == Rows(records[..i]) + [ConvertHeroDataToRow(records[i])]
  {
    RowsSnoc(records[..i + 1]);
    assert records[..i + 1][..i] == records[..i];
  }

  /** A report of some records is the report of all but the last, then the
      last one's row. */
  lemma ReportLinesSnoc(records: seq<HeroData>)
    requires |records| > 0
    requires forall k :: 0 <= k < |records| ==> Printable(records[k])
    ensures ReportLines(records) == ReportLines(records[..|records| - 1]) + [ConvertHeroDataToRow(records[|records| - 1])]
  {
    RowsSnoc(records);
  }

  /** A report of no records is the header, a single line. */
  lemma HeaderText()
    ensures CountChar(Concat([HeadersLine]), '\n') == 1
  {
    HeaderShape();
    assert Concat([HeadersLine]) == Concat([]) + HeadersLine;
    assert "" + HeadersLine == HeadersLine;
  }

  /** The report's text holds one line break more than there are records:
      the header and each record take exactly one line. */
  lemma {:induction false} ReportLineCount(records: seq<HeroData>)
    requires forall k :: 0 <= k < |records| ==> Printable(records[k]) && TextAvoids(records[k], '\n')
    ensures CountChar(Concat(ReportLines(records)), '\n') == 1 + |records|
  {
    if |records| == 0 {
      assert ReportLines(records) == [HeadersLine];
      HeaderText();
    } else {
      var n := |records|;
      var init := ReportLines(records[..n - 1]);
      var row := ConvertHeroDataToRow(records[n - 1]);
      ReportLineCount(records[..n - 1]);
      RowIsOneLine(records[n - 1]);
      ReportLinesSnoc(records);
      ConcatSnoc(init, row);
      CountCharAppend(Concat(init), row, '\n');
    }
  }

  /** Writing one more piece appends it to the text. */
  lemma ConcatSnoc(pieces: seq<string>, piece: string)
    ensures Concat(pieces + [piece]) == Concat(pieces) + piece
  {
    assert (pieces + [piece])[..|pieces|] == pieces;
  }

  /** The files the report generator writes: for each path, the pieces
      written to it since it was opened, in order. */
  class Files {
    var written: map<string, seq<string>>

    constructor ()
      ensures written == map[]
    {
      written := map[];
    }

    /** `open(path, "w")`: the file exists and is empty. */
    method OpenForWriting(path: string)
      modifies this
      ensures written == old(written)[path := []]
    {
      written := written[path := []];
    }

    /** `write`: appends to an open file. */
    method Write(path: string, text: string)
      requires path in written
      modifies this
      ensures written == old(written)[path := old(written)[path] + [text]]
    {
      written := written[path := written[path] + [text]];
    }
  }

  /** `ReportGenerator`: a report over the days from `startDate` to
      `endDate`, both included. */
  datatype ReportGenerator = ReportGenerator(startDate: Date, endDate: Date)
  {
    /** Dates as `datetime.date` holds them. */
    predicate Valid() {
      IsValidDate(startDate) && IsValidDate(endDate)
    }

    /** `_get_filter_date_times`: the first instant of the start date and
        the last instant of the end date. */
    function GetFilterDateTimes(): (range: (DateTime, DateTime))
      ensures range.0.date == startDate && range.1.date == endDate
    {
      (StartOfDay(startDate), EndOfDay(endDate))
    }

    /** The range holds a moment exactly when its day lies between the two
        dates, both included: no part of the end date is cut off. */
    lemma FilterRangeIsWholeDays(t: DateTime)
      requires IsValidDateTime(t)
      ensures DateTimeLe(GetFilterDateTimes().0, t) && DateTimeLe(t, GetFilterDateTimes().1)
              <==> DateLe(startDate, t.date) && DateLe(t.date, endDate)
    {
    }

    /** `_get_file_name`: `<start>_<end>.csv`, both dates as day-month-year
        with dashes, under `baseDir`. */
    function GetFileName(baseDir: string): (path: string)
      requires Valid()
      ensures |baseDir| <= |path| && path[..|baseDir|] == baseDir
      ensures EndsWith(path, FormatDate(startDate, ReportDateSeparator) + "_"
                             + FormatDate(endDate, ReportDateSeparator) + ".csv")
    {
      assert IsDigit(FormatDate(startDate, ReportDateSeparator)[..2][0]);
      PathJoin(baseDir, FormatDate(startDate, ReportDateSeparator) + "_" + FormatDate(endDate, ReportDateSeparator) + ".csv")
    }

    /** The file name is 25 characters long, ends in `.csv`, and both dates
        read back from it. */
    lemma FileNameShape(baseDir: string)
      requires Valid()
      ensures var name := FormatDate(startDate, ReportDateSeparator) + "_" + FormatDate(endDate, ReportDateSeparator) + ".csv";
              && EndsWith(GetFileName(baseDir), name)
              && |name| == 25
              && EndsWith(name, ".csv")
              && ParseDate(name[..10], ReportDateSeparator) == Some(startDate)
              && ParseDate(name[11..21], ReportDateSeparator) == Some(endDate)
    {
      var start := FormatDate(startDate, ReportDateSeparator);
      var end := FormatDate(endDate, ReportDateSeparator);
      var name := start + "_" + end + ".csv";
      FormatDateShape(startDate, ReportDateSeparator);
      FormatDateShape(endDate, ReportDateSeparator);
      assert name[..10] == start;
      assert name[11..21] == end;
      assert name[|name| - 4..] == ".csv";
      assert IsDigit(name[0]);
      ParseFormatRoundTrip(startDate, ReportDateSeparator);
      ParseFormatRoundTrip(endDate, ReportDateSeparator);
    }

    /** `generate_report`: opens the file for writing, writes the header and
        then one row per record, in the order given, and returns the file's
        path. No other file changes. */
    method GenerateReport(files: Files, baseDir: string, records: seq<HeroData>) returns (fileName: string)
      requires Valid()
      requires forall k :: 0 <= k < |records| ==> Printable(records[k])
      modifies files
      ensures fileName == GetFileName(baseDir)
      ensures files.written == old(files.written)[fileName := ReportLines(records)]
    {
      fileName := GetFileName(baseDir);
      files.OpenForWriting(fileName);
      files.Write(fileName, HeadersLine);
      assert [] + [HeadersLine] == [HeadersLine];
      WriteRows(files, fileName, records);
      assert [HeadersLine] + Rows(records) == ReportLines(records);
    }
  }

  /** The loop of `generate_report`: one row per record, in the order
      given, appended to an open file. */
  method WriteRows(files: Files, fileName: string, records: seq<HeroData>)
    requires fileName in files.written
    requires forall k :: 0 <= k < |records| ==> Printable(records[k])
    modifies files
    ensures files.written == old(files.written)[fileName := old(files.written[fileName]) + Rows(records)]
  {
    ghost var before := files.written[fileName];
    assert Rows(records[..0]) == [] && before + [] == before;
    assert files.written[fileName := before] == files.written;
    var i := 0;
    while i < |records|
      invariant 0 <= i <= |records|
      invariant files.written == old(files.written)[fileName := before + Rows(records[..i])]
    {
      RowsGrow(records, i);
      AppendOne(before, Rows(records[..i]), ConvertHeroDataToRow(records[i]));
      files.Write(fileName, ConvertHeroDataToRow(records[i]));
      i := i + 1;
    }
    assert records[..i] == records;
  }

  /** Appending one element after a concatenation. */
  lemma AppendOne<T>(a: seq<T>, b: seq<T>, x: T)
    ensures (a + b) + [x] == a + (b + [x])
  {
  }
}
