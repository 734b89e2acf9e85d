/** The conversation progress tracker (telegram_bot/sequential_messages_processor.py).
    The pure part decides, from an identity's stored answers, which question
    is current and which comes next, checks an answer, renders the summary
    shown for confirmation and coerces a complete answer set into a record.
    The class and the module-level methods carry out the reads and writes on
    the answer store and on the database. */
module Progress {
  import opened Wrappers
  import opened Exceptions
  import opened Text
  import opened Dates
  import opened Constants
  import opened Models
  import opened AnswerStore

  // ---------------------------------------------------------------------
  // Which questions are still open
  // ---------------------------------------------------------------------

  predicate Distinct(keys: seq<string>) {
    forall i, j :: 0 <= i < j < |keys| ==> keys[i] != keys[j]
  }

  /** The keys of `keys`, in their order, that have no answer in `saved`. */
  function MissingFrom(keys: seq<string>, saved: map<string, string>): (r: seq<string>)
    ensures forall k :: k in r <==> k in keys && k !in saved
    ensures |r| <= |keys|
  {
    if |keys| == 0 then []
    else (if keys[0] in saved then [] else [keys[0]]) + MissingFrom(keys[1..], saved)
  }

  /** The questions not answered yet, in the order they are asked. */
  function MissingKeys(saved: map<string, string>): seq<string> {
    MissingFrom(OrderOfMessages, saved)
  }

  /** `_get_current_and_next_message_keys`: the first and the second
      unanswered question; AllDataReceived when every question is answered. */
  function CurrentAndNextKeys(saved: map<string, string>): (r: Result<(string, Option<string>), Failure>)
    ensures r.Err? ==> r.error == AllDataReceived
    ensures r.Ok? ==> r.value.0 in QuestionKeys && r.value.0 !in saved
    ensures r.Ok? && r.value.1.Some? ==>
              r.value.1.value in QuestionKeys && r.value.1.value !in saved
  {
    var missing := MissingKeys(saved);
    if |missing| == 0 then Err(AllDataReceived)
    else Ok((missing[0], if |missing| == 1 then None else Some(missing[1])))
  }

  /** Answered keys at the front of the order do not show up. */
  lemma {:induction false} MissingSkipsAnswered(keys: seq<string>, saved: map<string, string>, i: nat)
    requires i <= |keys|
    requires forall j :: 0 <= j < i ==> keys[j] in saved
    ensures MissingFrom(keys, saved) == MissingFrom(keys[i..], saved)
  {
    if i > 0 {
      MissingSkipsAnswered(keys[1..], saved, i - 1);
      assert keys[1..][i - 1..] == keys[i..];
    }
  }

  /** The current question is the first one in order without an answer. */
  lemma CurrentKeyIsFirstUnanswered(saved: map<string, string>, i: nat)
    requires i < |OrderOfMessages| && OrderOfMessages[i] !in saved
    requires forall j :: 0 <= j < i ==> OrderOfMessages[j] in saved
    ensures CurrentAndNextKeys(saved).Ok?
    ensures CurrentAndNextKeys(saved).value.0 == OrderOfMessages[i]
  {
    MissingSkipsAnswered(OrderOfMessages, saved, i);
    assert OrderOfMessages[i..] == [OrderOfMessages[i]] + OrderOfMessages[i + 1..];
  }

  /** A key without an answer, preceded only by answered keys, heads the
      missing ones. */
  lemma {:induction false} MissingHead(keys: seq<string>, saved: map<string, string>, i: nat)
    requires i < |keys| && keys[i] !in saved
    requires forall k :: 0 <= k < i ==> keys[k] in saved
    ensures MissingFrom(keys, saved) == [keys[i]] + MissingFrom(keys[i + 1..], saved)
  {
    MissingSkipsAnswered(keys, saved, i);
    assert keys[i..][0] == keys[i] && keys[i..][1..] == keys[i + 1..];
  }

  /** The first two elements of a list built from two known heads. */
  lemma HeadsOf(m: seq<string>, t: seq<string>, rest: seq<string>, a: string, b: string)
    requires m == [a] + t && t == [b] + rest
    ensures |m| >= 2 && m[0] == a && m[1] == b
  {
  }

  /** After the first unanswered key, the next unanswered one heads the
      rest. */
  lemma MissingTailHead(keys: seq<string>, saved: map<string, string>, i: nat, j: nat)
    requires i < j < |keys| && keys[j] !in saved
    requires forall k :: i < k < j ==> keys[k] in saved
    ensures MissingFrom(keys[i + 1..], saved) == [keys[j]] + MissingFrom(keys[j + 1..], saved)
  {
    var tail := keys[i + 1..];
    var h := j - i - 1;
    forall k | 0 <= k < h ensures tail[k] in saved {
      assert tail[k] == keys[i + 1 + k];
    }
    MissingHead(tail, saved, h);
    assert tail[h] == keys[j];
    assert tail[h + 1..] == keys[j + 1..];
  }

  /** The two heads of the missing keys. */
  lemma MissingFirstTwo(keys: seq<string>, saved: map<string, string>, i: nat, j: nat)
    requires i < j < |keys| && keys[i] !in saved && keys[j] !in saved
    requires forall k :: 0 <= k < j && k != i ==> keys[k] in saved
    ensures |MissingFrom(keys, saved)| >= 2
    ensures MissingFrom(keys, saved)[0] == keys[i] && MissingFrom(keys, saved)[1] == keys[j]
  {
    MissingHead(keys, saved, i);
    MissingTailHead(keys, saved, i, j);
    HeadsOf(MissingFrom(keys, saved), MissingFrom(keys[i + 1..], saved), MissingFrom(keys[j + 1..], saved),
            keys[i], keys[j]);
  }

  /** The next question is the second one in order without an answer. */
  lemma NextKeyIsSecondUnanswered(saved: map<string, string>, i: nat, j: nat)
    requires i < j < |OrderOfMessages|
    requires OrderOfMessages[i] !in saved && OrderOfMessages[j] !in saved
    requires forall k :: 0 <= k < j && k != i ==> OrderOfMessages[k] in saved
    ensures CurrentAndNextKeys(saved) == Ok((OrderOfMessages[i], Some(OrderOfMessages[j])))
  {
    MissingFirstTwo(OrderOfMessages, saved, i, j);
  }

  /** With one question left there is no next question. */
  lemma LastUnansweredHasNoNext(saved: map<string, string>, i: nat)
    requires i < |OrderOfMessages| && OrderOfMessages[i] !in saved
    requires forall k :: 0 <= k < |OrderOfMessages| && k != i ==> OrderOfMessages[k] in saved
    ensures CurrentAndNextKeys(saved) == Ok((OrderOfMessages[i], None))
  {
    var keys := OrderOfMessages;
    MissingHead(keys, saved, i);
    var tail := keys[i + 1..];
    assert forall k :: 0 <= k < |tail| ==> tail[k] == keys[i + 1 + k];
    MissingSkipsAnswered(tail, saved, |tail|);
    assert tail[|tail|..] == [];
  }

  /** All data is received exactly when every question has an answer. */
  lemma AllDataReceivedIffComplete(saved: map<string, string>)
    ensures CurrentAndNextKeys(saved) == Err(AllDataReceived) <==> QuestionKeys <= saved.Keys
  {
    if QuestionKeys <= saved.Keys {
      if |MissingKeys(saved)| > 0 {
        assert MissingKeys(saved)[0] in MissingKeys(saved);
      }
    }
  }

  /** A key outside `keys` does not change which of them are missing. */
  lemma {:induction false} MissingIgnoresOtherKeys(keys: seq<string>, saved: map<string, string>, k: string, v: string)
    requires k !in keys
    ensures MissingFrom(keys, saved[k := v]) == MissingFrom(keys, saved)
  {
    if |keys| > 0 {
      MissingIgnoresOtherKeys(keys[1..], saved, k, v);
    }
  }

  /** Fields that are not questions, such as the `"empty"` marker, do not
      count as answers. */
  lemma NonQuestionKeysIgnored(saved: map<string, string>, k: string, v: string)
    requires k !in QuestionKeys
    ensures CurrentAndNextKeys(saved[k := v]) == CurrentAndNextKeys(saved)
  {
    MissingIgnoresOtherKeys(OrderOfMessages, saved, k, v);
  }

  /** Answering the first missing key of a duplicate-free order removes
      exactly that key from the missing ones. */
  lemma {:induction false} AnswerFirstMissing(keys: seq<string>, saved: map<string, string>, v: string)
    requires Distinct(keys) && |MissingFrom(keys, saved)| > 0
    ensures MissingFrom(keys, saved[MissingFrom(keys, saved)[0] := v]) == MissingFrom(keys, saved)[1..]
  {
    var c := MissingFrom(keys, saved)[0];
    assert Distinct(keys[1..]) by {
      forall i, j | 0 <= i < j < |keys[1..]| ensures keys[1..][i] != keys[1..][j] {
        assert keys[1..][i] == keys[i + 1] && keys[1..][j] == keys[j + 1];
      }
    }
    if keys[0] in saved {
      AnswerFirstMissing(keys[1..], saved, v);
    } else {
      assert c == keys[0];
      assert c !in keys[1..] by {
        forall i | 0 <= i < |keys[1..]| ensures keys[1..][i] != c {
          assert keys[1..][i] == keys[i + 1];
        }
      }
      MissingIgnoresOtherKeys(keys[1..], saved, c, v);
    }
  }

  /** Saving an answer for the current question makes the next question the
      current one (or completes the questionnaire): each save advances the
      conversation by exactly one question. */
  lemma SavingAdvances(saved: map<string, string>, v: string)
    requires CurrentAndNextKeys(saved).Ok?
    ensures MissingKeys(saved[CurrentAndNextKeys(saved).value.0 := v]) == MissingKeys(saved)[1..]
    ensures CurrentAndNextKeys(saved).value.1.Some? ==>
              CurrentAndNextKeys(saved[CurrentAndNextKeys(saved).value.0 := v]).Ok?
              && CurrentAndNextKeys(saved[CurrentAndNextKeys(saved).value.0 := v]).value.0
                 == CurrentAndNextKeys(saved).value.1.value
    ensures CurrentAndNextKeys(saved).value.1.None? ==>
              CurrentAndNextKeys(saved[CurrentAndNextKeys(saved).value.0 := v]) == Err(AllDataReceived)
  {
    OrderOfMessagesShape();
    AnswerFirstMissing(OrderOfMessages, saved, v);
  }

  // ---------------------------------------------------------------------
  // Checking an answer and choosing the reply text
  // ---------------------------------------------------------------------

  /** `_validate_user_input`: only the date-of-birth answer is checked, and
      it must be a `DD/MM/YYYY` date. */
  function ValidateUserInput(currentKey: string, value: string): (o: Outcome<Failure>)
    ensures o.Fail? <==> currentKey == HeroDateOfBirthKey && !IsSlashDate(value)
    ensures o.Fail? ==> o.error == UserMessageValidationFailed
  {
    if currentKey == HeroDateOfBirthKey && !IsSlashDate(value) then Fail(UserMessageValidationFailed)
    else Pass
  }

  /** The example date the date-of-birth prompt shows is accepted. */
  lemma PromptExampleDateAccepted()
    ensures ValidateUserInput(HeroDateOfBirthKey, "28/08/1990") == Pass
  {
    var dd, mm, yyyy := "28", "08", "1990";
    assert "28/08/1990" == dd + ['/'] + mm + ['/'] + yyyy;
    assert DigitsValue(dd) == 28 by { assert dd[..1] == "2"; }
    assert DigitsValue(mm) == 8 by { assert mm[..1] == "0"; }
    assert DigitsValue(yyyy) == 1990 by {
      assert yyyy[..3] == "199" && "199"[..2] == "19" && "19"[..1] == "1";
    }
    ParseDateFields(dd, mm, yyyy, '/');
  }

  /** A date written with dashes is not accepted as a date of birth. */
  lemma DashedDateRejected()
    ensures ValidateUserInput(HeroDateOfBirthKey, "28-08-1990") == Fail(UserMessageValidationFailed)
  {
    assert '/' !in "28-08-1990";
  }

  /** `get_response_text`: the prompt for the next question; AllDataReceived
      when there is none. */
  function ResponseText(nextKey: Option<string>): (r: Result<string, Failure>)
    requires nextKey.Some? ==> nextKey.value in QuestionKeys
    ensures r.Err? <==> nextKey.None?
    ensures r.Err? ==> r.error == AllDataReceived
    ensures r.Ok? ==> r.value == MessagesMapping[nextKey.value]
    ensures r.Ok? ==> |InqueryMessageStart| < |r.value|
                      && r.value[..|InqueryMessageStart|] == InqueryMessageStart
  {
    MessagesMappingCoversOrder();
    PromptsStartWithInquery();
    match nextKey
    case Some(k) => Ok(MessagesMapping[k])
    case None => Err(AllDataReceived)
  }

  // ---------------------------------------------------------------------
  // The confirmation summary
  // ---------------------------------------------------------------------

  const ConfirmationHeader: string := "Будьласка підтвердіть чи всі " + "введені дані коректні."
  /** The eight spaces of the template's indentation. */
  const AnswerIndent: string := "        "
  /** A line break and the template's indentation. */
  const ConfirmationIndent: string := "\n" + AnswerIndent

  /** The caption of each answer in the summary, in question order. */
  const ConfirmationLabels: seq<string> := [
    "Номер справи в реєстрі",
    "Прізвище героя",
    "Ім'я героя",
    "Ім'я по батькові героя",
    "Дата народження героя",
    "Предмет використания " + "для отримання зразка ДНК",
    "Прізвище родича",
    "Ім'я родича",
    "Ім'я по батькові родича",
    "Дані є в реєстрі ДНК",
    "Коментар"
  ]

  /** One indented `caption: answer` line per key; a missing answer is a
      KeyError on the first key, in order, that has none. */
  function ConfirmationLines(keys: seq<string>, labels: seq<string>, input: map<string, string>): (r: Result<string, Failure>)
    requires |keys| == |labels|
    ensures r.Ok? <==> |MissingFrom(keys, input)| == 0
    ensures r.Err? ==> r.error == KeyError(MissingFrom(keys, input)[0])
  {
    if |keys| == 0 then Ok("")
    else if keys[0] !in input then Err(KeyError(keys[0]))
    else
      var rest :- ConfirmationLines(keys[1..], labels[1..], input);
      Ok(ConfirmationIndent + labels[0] + ": " + input[keys[0]] + rest)
  }

  /** `get_completed_input_confirmation_text`: the summary of all eleven
      answers. It can be rendered exactly when all data is received, and
      otherwise fails on the current question's key. */
  function ConfirmationText(input: map<string, string>): (r: Result<string, Failure>)
    ensures r.Ok? <==> CurrentAndNextKeys(input) == Err(AllDataReceived)
    ensures r.Err? ==> r.error == KeyError(CurrentAndNextKeys(input).value.0)
    ensures r.Ok? ==> |r.value| > |ConfirmationHeader| && r.value[..|ConfirmationHeader|] == ConfirmationHeader
  {
    var lines :- ConfirmationLines(OrderOfMessages, ConfirmationLabels, input);
    Ok(ConfirmationHeader + lines + ConfirmationIndent)
  }

  /** The line of the summary for each key: its caption, ": " and the
      stored answer, indented. */
  function SummaryLines(keys: seq<string>, labels: seq<string>, input: map<string, string>): (lines: seq<string>)
    requires |keys| == |labels|
    requires forall i :: 0 <= i < |keys| ==> keys[i] in input
    ensures |lines| == |keys|
    ensures forall i :: 0 <= i < |keys| ==> lines[i] == AnswerIndent + labels[i] + ": " + input[keys[i]]
  {
    if |keys| == 0 then []
    else [AnswerIndent + labels[0] + ": " + input[keys[0]]] + SummaryLines(keys[1..], labels[1..], input)
  }

  /** Each line preceded by a line break, all concatenated. */
  function Newlined(lines: seq<string>): string {
    if |lines| == 0 then "" else "\n" + lines[0] + Newlined(lines[1..])
  }

  /** With every answer present, the summary's body is the summary lines,
      each on a line of its own. */
  lemma {:induction false} ConfirmationLinesAre(keys: seq<string>, labels: seq<string>, input: map<string, string>)
    requires |keys| == |labels|
    requires forall i :: 0 <= i < |keys| ==> keys[i] in input
    ensures ConfirmationLines(keys, labels, input) == Ok(Newlined(SummaryLines(keys, labels, input)))
  {
    if |keys| > 0 {
      ConfirmationLinesAre(keys[1..], labels[1..], input);
      var line := AnswerIndent + labels[0] + ": " + input[keys[0]];
      var lines := SummaryLines(keys, labels, input);
      assert lines[1..] == SummaryLines(keys[1..], labels[1..], input);
      assert ConfirmationIndent + labels[0] + ": " + input[keys[0]] == "\n" + line;
    }
  }

  /** Lines each preceded by a break, then a break and a last line, are the
      lines and the last one joined by breaks. */
  lemma {:induction false} NewlinedJoin(lines: seq<string>, last: string)
    ensures "\n" + Join("\n", lines + [last]) == Newlined(lines) + "\n" + last
  {
    if |lines| > 0 {
      var rest := Join("\n", lines[1..] + [last]);
      assert (lines + [last])[1..] == lines[1..] + [last];
      assert Join("\n", lines + [last]) == lines[0] + "\n" + rest;
      NewlinedJoin(lines[1..], last);
      assert "\n" + rest == Newlined(lines[1..]) + "\n" + last;
      assert "\n" + (lines[0] + "\n" + rest) == ("\n" + lines[0]) + ("\n" + rest);
    }
  }

  /** A header, lines and a trailer, none holding a line break, split back
      into exactly those pieces. */
  lemma SummarySplits(header: string, lines: seq<string>, trailer: string)
    requires '\n' !in header && '\n' !in trailer
    requires forall i :: 0 <= i < |lines| ==> '\n' !in lines[i]
    ensures Split(header + Newlined(lines) + "\n" + trailer, '\n') == [header] + lines + [trailer]
  {
    var parts := [header] + (lines + [trailer]);
    var joined := Join("\n", lines + [trailer]);
    NewlinedJoin(lines, trailer);
    JoinCons(header, lines + [trailer]);
    Regroup(header, "\n", joined);
    Regroup(header, Newlined(lines) + "\n", trailer);
    Regroup(header, Newlined(lines), "\n");
    assert Join("\n", parts) == header + Newlined(lines) + "\n" + trailer;
    forall k | 0 <= k < |parts| ensures '\n' !in parts[k] {
      if 0 < k < |parts| - 1 {
        assert parts[k] == lines[k - 1];
      }
    }
    SplitJoin(parts, '\n');
    assert parts == [header] + lines + [trailer];
  }

  /** Concatenation regroups freely. */
  lemma Regroup(a: string, b: string, c: string)
    ensures a + (b + c) == a + b + c
  {
  }

  /** Joining a first part to at least one more puts the separator after it. */
  lemma JoinCons(first: string, rest: seq<string>)
    requires |rest| >= 1
    ensures Join("\n", [first] + rest) == first + "\n" + Join("\n", rest)
  {
    var parts := [first] + rest;
    assert parts[1..] == rest;
  }

  /** The request to check holds no line break. */
  lemma HeaderHasNoBreak()
    ensures '\n' !in ConfirmationHeader
  {
  }

  /** There is one caption per question, and no caption holds a line break. */
  lemma CaptionsHaveNoBreak()
    ensures |ConfirmationLabels| == |OrderOfMessages|
    ensures forall k :: 0 <= k < |ConfirmationLabels| ==> '\n' !in ConfirmationLabels[k]
  {
    forall k | 0 <= k < |ConfirmationLabels| ensures '\n' !in ConfirmationLabels[k] {
      if k < 4 {
      } else if k < 8 {
      } else {
      }
    }
  }

  /** A summary built from any header and captions, none holding a line
      break, over answers holding none, splits into the header, one line
      per key and the trailing indentation. */
  lemma SummaryParts(header: string, keys: seq<string>, labels: seq<string>, input: map<string, string>)
    requires '\n' !in header && |keys| == |labels|
    requires forall i :: 0 <= i < |keys| ==> keys[i] in input && '\n' !in labels[i] && '\n' !in input[keys[i]]
    ensures ConfirmationLines(keys, labels, input).Ok?
    ensures var parts := Split(header + ConfirmationLines(keys, labels, input).value + ConfirmationIndent, '\n');
            && |parts| == |keys| + 2
            && parts[0] == header
            && (forall i :: 0 <= i < |keys| ==> parts[i + 1] == AnswerIndent + labels[i] + ": " + input[keys[i]])
            && parts[|keys| + 1] == AnswerIndent
  {
    ConfirmationLinesAre(keys, labels, input);
    var lines := SummaryLines(keys, labels, input);
    Regroup(header + Newlined(lines), "\n", AnswerIndent);
    forall i | 0 <= i < |lines| ensures '\n' !in lines[i] {
      assert lines[i] == AnswerIndent + labels[i] + ": " + input[keys[i]];
    }
    SummarySplits(header, lines, AnswerIndent);
  }

  /** The summary of a complete answer set whose answers hold no line break
      has one line per question, in question order, each giving the
      question's caption and the stored answer as typed, between the
      request to check and the trailing indentation. */
  lemma SummaryRoundTrip(input: map<string, string>)
    requires forall k :: k in QuestionKeys ==> k in input && '\n' !in input[k]
    ensures ConfirmationText(input).Ok?
    ensures var parts := Split(ConfirmationText(input).value, '\n');
            && |parts| == |OrderOfMessages| + 2
            && parts[0] == ConfirmationHeader
            && (forall i :: 0 <= i < |OrderOfMessages| ==>
                  parts[i + 1] == AnswerIndent + ConfirmationLabels[i] + ": " + input[OrderOfMessages[i]])
            && parts[|OrderOfMessages| + 1] == AnswerIndent
  {
    CaptionsHaveNoBreak();
    HeaderHasNoBreak();
    forall i | 0 <= i < |OrderOfMessages|
      ensures OrderOfMessages[i] in input && '\n' !in input[OrderOfMessages[i]]
    {
      assert OrderOfMessages[i] in QuestionKeys;
    }
    SummaryParts(ConfirmationHeader, OrderOfMessages, ConfirmationLabels, input);
  }

  // ---------------------------------------------------------------------
  // Coercing the answers into a record
  // ---------------------------------------------------------------------

  /** The answer for `key`, a KeyError when there is none. */
  function Lookup(input: map<string, string>, key: string): (r: Result<string, Failure>)
    ensures r.Ok? <==> key in input
    ensures r.Ok? ==> r.value == input[key]
    ensures r.Err? ==> r.error == KeyError(key)
  {
    if key in input then Ok(input[key]) else Err(KeyError(key))
  }

  /** `value.lower() == "так"`. */
  predicate IsYesToken(value: string) {
    Lower(value) == "так"
  }

  /** `value.lower() == "ні"`. */
  predicate IsNoToken(value: string) {
    Lower(value) == "ні"
  }

  /** The yes-token in any letter case sets the flag; the no-token does not. */
  lemma YesTokenAnyCase()
    ensures IsYesToken("так") && IsYesToken("Так") && IsYesToken("ТАК")
    ensures !IsYesToken("Ні") && !IsYesToken("yes")
  {
    LowerMatchesToken("так", "так");
    LowerMatchesToken("Так", "так");
    LowerMatchesToken("ТАК", "так");
    LowerMatchesToken("Ні", "так");
    assert Lower("yes")[0] == 'y';
  }

  /** The no-token in any letter case blanks the comment. */
  lemma NoTokenAnyCase()
    ensures IsNoToken("ні") && IsNoToken("Ні") && IsNoToken("НІ")
    ensures !IsNoToken("так")
  {
    LowerMatchesToken("ні", "ні");
    LowerMatchesToken("Ні", "ні");
    LowerMatchesToken("НІ", "ні");
    LowerMatchesToken("так", "ні");
  }

  /** `int(value)`, a ValueError when it is not a number. */
  function ParseCaseId(value: string): (r: Result<int, Failure>)
    ensures r.Ok? <==> ParseInt(value).Some?
    ensures r.Ok? ==> r.value == ParseInt(value).value
    ensures r.Err? ==> r.error == ValueError
  {
    match ParseInt(value)
    case Some(n) => Ok(n)
    case None => Err(ValueError)
  }

  /** `datetime.strptime(value, "%d/%m/%Y").date()`, a ValueError when it is
      not such a date. */
  function ParseDateOfBirth(value: string): (r: Result<Date, Failure>)
    ensures r.Ok? <==> IsSlashDate(value)
    ensures r.Ok? ==> Some(r.value) == ParseDate(value, AnswerDateSeparator) && IsValidDate(r.value)
    ensures r.Err? ==> r.error == ValueError
  {
    match ParseDate(value, AnswerDateSeparator)
    case Some(d) => Ok(d)
    case None => Err(ValueError)
  }

  /** Every question has an answer, spelled out key by key. */
  predicate HasAllAnswers(input: map<string, string>) {
    && CaseIdKey in input && HeroLastNameKey in input && HeroFirstNameKey in input
    && HeroPatronymicKey in input && HeroDateOfBirthKey in input
    && ItemUsedForDnaExtractionKey in input && RelativeLastNameKey in input
    && RelativeFirstNameKey in input && RelativePatronymicKey in input
    && IsAddedToDnaDbKey in input && CommentKey in input
  }

  /** The key-by-key spelling agrees with the question order. */
  lemma HasAllAnswersIffComplete(input: map<string, string>)
    ensures HasAllAnswers(input) <==> QuestionKeys <= input.Keys
  {
  }

  /** The field coercion of `save_confirmed_data`, in the order the source
      reads the answers: the case id through `int`, the date of birth through
      `strptime`, the flag true exactly for the yes-token, the comment blank
      exactly for the no-token, every other answer as it was typed. The case
      id column holds text, so the number is stored in its decimal form. */
  function CoerceAnswers(input: map<string, string>, author: Author, createdAt: DateTime): (r: Result<HeroData, Failure>)
    ensures r.Ok? <==>
              && HasAllAnswers(input)
              && ParseInt(input[CaseIdKey]).Some?
              && IsSlashDate(input[HeroDateOfBirthKey])
    ensures r.Ok? ==>
              var h := r.value;
              && ParseInt(h.caseId) == ParseInt(input[CaseIdKey])
              && h.caseId == IntToString(ParseInt(input[CaseIdKey]).value)
              && Some(h.heroDateOfBirth) == ParseDate(input[HeroDateOfBirthKey], '/')
              && (h.isAddedToDnaDb <==> IsYesToken(input[IsAddedToDnaDbKey]))
              && h.comment == Some(if IsNoToken(input[CommentKey]) then "" else input[CommentKey])
              && h.heroLastName == input[HeroLastNameKey]
              && h.heroFirstName == input[HeroFirstNameKey]
              && h.heroPatronymic == input[HeroPatronymicKey]
              && h.itemUsedForDnaExtraction == Some(input[ItemUsedForDnaExtractionKey])
              && h.relativeLastName == input[RelativeLastNameKey]
              && h.relativeFirstName == input[RelativeFirstNameKey]
              && h.relativePatronymic == input[RelativePatronymicKey]
              && h.author == author && h.createdAt == createdAt
  {
    var caseIdText :- Lookup(input, CaseIdKey);
    var caseId :- ParseCaseId(caseIdText);
    var heroLastName :- Lookup(input, HeroLastNameKey);
    var heroFirstName :- Lookup(input, HeroFirstNameKey);
    var heroPatronymic :- Lookup(input, HeroPatronymicKey);
    var dateText :- Lookup(input, HeroDateOfBirthKey);
    var dateOfBirth :- ParseDateOfBirth(dateText);
    var item :- Lookup(input, ItemUsedForDnaExtractionKey);
    var relativeLastName :- Lookup(input, RelativeLastNameKey);
    var relativeFirstName :- Lookup(input, RelativeFirstNameKey);
    var relativePatronymic :- Lookup(input, RelativePatronymicKey);
    var flagText :- Lookup(input, IsAddedToDnaDbKey);
    var commentText :- Lookup(input, CommentKey);
    IntToStringRoundTrip(caseId);
    Ok(HeroData(
      IntToString(caseId), heroLastName, heroFirstName, heroPatronymic, dateOfBirth,
      Some(item), relativeLastName, relativeFirstName, relativePatronymic,
      IsYesToken(flagText), Some(if IsNoToken(commentText) then "" else commentText),
      createdAt, author))
  }

  // ---------------------------------------------------------------------
  // The processor and its operations on the store
  // ---------------------------------------------------------------------

  /** One answer in flight: the text received from an identity, and the
      current and next questions computed when the processor was built. */
  class SequentialMessagesProcessor {
    const store: RedisStore
    const messageData: string
    const userId: Option<int>
    const currentMessageKey: string
    const nextMessageKey: Option<string>

    ghost predicate Valid()
      reads this, store
    {
      && store.Valid()
      && currentMessageKey in QuestionKeys
      && (nextMessageKey.Some? ==> nextMessageKey.value in QuestionKeys)
    }

    constructor Init(store: RedisStore, messageData: string, userId: Option<int>,
                     currentMessageKey: string, nextMessageKey: Option<string>)
      requires store.Valid() && currentMessageKey in QuestionKeys
      requires nextMessageKey.Some? ==> nextMessageKey.value in QuestionKeys
      ensures Valid()
      ensures this.store == store && this.messageData == messageData && this.userId == userId
      ensures this.currentMessageKey == currentMessageKey && this.nextMessageKey == nextMessageKey
    {
      this.store := store;
      this.messageData := messageData;
      this.userId := userId;
      this.currentMessageKey := currentMessageKey;
      this.nextMessageKey := nextMessageKey;
    }

    /** The constructor: it reads the identity's answers and fixes the
        current and next questions, or raises AllDataReceived when there is
        no question left. */
    static method Create(store: RedisStore, messageData: string, userId: Option<int>)
      returns (r: Result<SequentialMessagesProcessor, Failure>)
      requires store.Valid()
      ensures r.Err? <==> CurrentAndNextKeys(store.UserInput(KeyOf(userId))).Err?
      ensures r.Err? ==> r.error == AllDataReceived
      ensures r.Ok? ==>
                var keys := CurrentAndNextKeys(store.UserInput(KeyOf(userId))).value;
                && fresh(r.value) && r.value.Valid()
                && r.value.store == store && r.value.messageData == messageData
                && r.value.userId == userId
                && r.value.currentMessageKey == keys.0 && r.value.nextMessageKey == keys.1
    {
      var keys := CurrentAndNextKeys(store.UserInput(KeyOf(userId)));
      if keys.Err? {
        return Err(keys.error);
      }
      var p := new SequentialMessagesProcessor.Init(store, messageData, userId, keys.value.0, keys.value.1);
      return Ok(p);
    }

    /** `save_message`: fails with UserInputExpired when the identity has no
        answer set and with UserMessageValidationFailed when the answer does
        not pass its check, in both cases writing nothing; otherwise stores
        the answer under the current question and changes nothing else, not
        even the time to live. */
    method SaveMessage() returns (o: Outcome<Failure>)
      requires Valid()
      modifies store
      ensures Valid()
      ensures store.expiry == old(store.expiry)
      ensures o == Fail(UserInputExpired) <==> !old(store.Exists(KeyOf(userId)))
      ensures o == Fail(UserMessageValidationFailed) <==>
                old(store.Exists(KeyOf(userId))) && ValidateUserInput(currentMessageKey, messageData).Fail?
      ensures o.Pass? || o == Fail(UserInputExpired) || o == Fail(UserMessageValidationFailed)
      ensures o.Fail? ==> store.entries == old(store.entries)
      ensures o.Pass? ==>
                store.entries == old(store.entries)[KeyOf(userId) := old(store.UserInput(KeyOf(userId)))[currentMessageKey := messageData]]
    {
      if !store.Exists(KeyOf(userId)) {
        return Fail(UserInputExpired);
      }
      var valid := ValidateUserInput(currentMessageKey, messageData);
      if valid.Fail? {
        return valid;
      }
      store.HSet(KeyOf(userId), map[currentMessageKey := messageData]);
      assert store.UserInput(KeyOf(userId)) == old(store.UserInput(KeyOf(userId)))[currentMessageKey := messageData];
      return Pass;
    }
  }

  /** `create_new_redis_entry`: marks the identity's answer set as started
      with the non-question field `"empty"` and gives it thirty minutes. */
  method CreateNewRedisEntry(store: RedisStore, userId: int)
    requires store.Valid()
    modifies store
    ensures store.Valid()
    ensures store.entries == old(store.entries)[KeyOf(Some(userId)) := old(store.UserInput(KeyOf(Some(userId))))["empty" := "True"]]
    ensures store.expiry == old(store.expiry)[KeyOf(Some(userId)) := AnswerSetTtl]
    ensures CurrentAndNextKeys(store.UserInput(KeyOf(Some(userId)))) == CurrentAndNextKeys(old(store.UserInput(KeyOf(Some(userId)))))
  {
    var key := KeyOf(Some(userId));
    ghost var before := store.UserInput(key);
    store.HSet(key, map["empty" := "True"]);
    store.SetTtl(key, AnswerSetTtl);
    assert store.UserInput(key) == before["empty" := "True"];
    NonQuestionKeysIgnored(before, "empty", "True");
  }

  /** `remove_incorrect_input`: UserInputExpired when the identity has no
      answers; otherwise its answer set, and only that, is deleted. */
  method RemoveIncorrectInput(store: RedisStore, userId: int) returns (o: Outcome<Failure>)
    requires store.Valid()
    modifies store
    ensures store.Valid()
    ensures o.Fail? <==> !old(store.Exists(KeyOf(Some(userId))))
    ensures o.Fail? ==> o.error == UserInputExpired
    ensures o.Fail? ==> store.entries == old(store.entries) && store.expiry == old(store.expiry)
    ensures o.Pass? ==> store.entries == old(store.entries) - {KeyOf(Some(userId))}
    ensures o.Pass? ==> store.expiry == old(store.expiry) - {KeyOf(Some(userId))}
  {
    if !store.Exists(KeyOf(Some(userId))) {
      return Fail(UserInputExpired);
    }
    store.Delete(KeyOf(Some(userId)));
    return Pass;
  }

  /** `save_confirmed_data`: with an answer set present, coerces it into a
      record, appends the record and only then deletes the answer set. A
      missing answer set or a coercion failure changes neither the store
      nor the database. */
  method SaveConfirmedData(store: RedisStore, db: Database, userId: int, author: Author, createdAt: DateTime)
    returns (r: Result<HeroData, Failure>)
    requires store.Valid() && db.Valid()
    modifies store, db
    ensures store.Valid() && db.Valid()
    ensures db.authors == old(db.authors)
    ensures r.Ok? <==>
              old(store.Exists(KeyOf(Some(userId)))) && CoerceAnswers(old(store.UserInput(KeyOf(Some(userId)))), author, createdAt).Ok?
    ensures !old(store.Exists(KeyOf(Some(userId)))) ==> r == Err(UserInputExpired)
    ensures old(store.Exists(KeyOf(Some(userId)))) && r.Err? ==>
              r == CoerceAnswers(old(store.UserInput(KeyOf(Some(userId)))), author, createdAt)
    ensures r.Err? ==>
              store.entries == old(store.entries) && store.expiry == old(store.expiry)
              && db.heroData == old(db.heroData)
    ensures r.Ok? ==>
              && r.value == CoerceAnswers(old(store.UserInput(KeyOf(Some(userId)))), author, createdAt).value
              && db.heroData == old(db.heroData) + [r.value]
              && store.entries == old(store.entries) - {KeyOf(Some(userId))}
              && store.expiry == old(store.expiry) - {KeyOf(Some(userId))}
  {
    if !store.Exists(KeyOf(Some(userId))) {
      return Err(UserInputExpired);
    }
    var data := store.UserInput(KeyOf(Some(userId)));
    var record := CoerceAnswers(data, author, createdAt);
    if record.Err? {
      return record;
    }
    db.CreateHeroData(record.value);
    store.Delete(KeyOf(Some(userId)));
    return record;
  }
}
