/**
 * The two checks one poll cycle applies to an API answer: the envelope
 * validator (check_response) and the status formatter (parse_status),
 * with the fixed status vocabulary and the text of every error they raise.
 */
module Homework {
  import opened Wrappers
  import opened Json

  /** The review API the bot polls; it appears in several error texts. */
  const Endpoint := "https://practicum.yandex.ru/api/user_api/homework_statuses/"

  /** HOMEWORK_STATUSES: every documented review status and its verdict. */
  const HomeworkStatuses: map<string, string> := map[
    "approved" := "Работа проверена: ревьюеру всё понравилось. Ура!",
    "reviewing" := "Работа взята на проверку ревьюером.",
    "rejected" := "Работа проверена: у ревьюера есть замечания."
  ]

  /** The text before the homework name in a notification. */
  const NotificationHead := "Изменился статус проверки работы \""

  /** The text between the homework name and the verdict. */
  const NotificationJoin := "\". "

  /**
   * Why validating or formatting failed. Each case is one `raise` of the
   * source, or a TypeError Python itself raises on a malformed record.
   */
  datatype CheckError =
    | ResponseNotDict(response: Json)    // TypeError: the answer is not a dict
    | MissingHomeworks                   // KeyError: no "homeworks" key
    | MissingCurrentDate                 // KeyError: no "current_date" key
    | HomeworksNotList                   // TypeError: "homeworks" is not a list
    | CurrentDateNotInt                  // TypeError: "current_date" is not an int
    | MissingHomeworkName                // KeyError: the record has no "homework_name"
    | MissingStatus                      // KeyError: the record has no "status"
    | UndocumentedStatus(status: Json)   // KeyError: the status is not in the vocabulary
    | RecordNotIterable(record: Json)    // TypeError from `in` on a scalar record
    | RecordNotSubscriptable(record: Json) // TypeError from indexing a str or list record by a key
    | StatusUnhashable(status: Json)     // TypeError from looking a list or dict up in the vocabulary
    | NameNotRendered(name: Json)        // a list or dict name, whose str() the model does not render

  /** str() of a KeyError: the repr of its message, single-quoted. */
  function KeyErrorText(message: string): (text: string)
    ensures |text| == |message| + 2 && text[0] == '\'' && text[|text| - 1] == '\''
    ensures text[1..|text| - 1] == message
  {
    "'" + message + "'"
  }

  /** The failures raised as KeyError, whose str() is quoted. */
  predicate IsKeyError(f: CheckError) {
    f.MissingHomeworks? || f.MissingCurrentDate? || f.MissingHomeworkName? || f.MissingStatus? || f.UndocumentedStatus?
  }

  /** The head of the two messages about a key missing from the answer. */
  const MissingKeyHead := "Ответ от эндпоинта " + Endpoint + " не содержит данные про \""

  /** The head of the two messages about a value of the wrong type in the answer. */
  const WrongTypeHead := "Тип данных значения ключа \""

  /** The head of the two messages about a key missing from a homework record. */
  const MissingFieldHead := "Данные о домашней работе не содержат информацию про \""

  /** The head of the message about a status outside the vocabulary. */
  const UndocumentedHead := "Данные о домашней работе содержат недокументированный статус - "

  /**
   * The message a KeyError failure carries; str() shows it quoted. A
   * missing key is named after the head of its group, and an undocumented
   * status is spelled out after its head.
   */
  function KeyErrorMessage(f: CheckError): (message: string)
    requires IsKeyError(f)
    ensures f.MissingHomeworks? || f.MissingCurrentDate?
            ==> |message| > |MissingKeyHead| && message[..|MissingKeyHead|] == MissingKeyHead
    ensures f.MissingHomeworkName? || f.MissingStatus?
            ==> |message| > |MissingFieldHead| && message[..|MissingFieldHead|] == MissingFieldHead
    ensures f.MissingHomeworks? ==> message == MissingKeyHead + "homeworks\"."
    ensures f.MissingCurrentDate? ==> message == MissingKeyHead + "current_date\"."
    ensures f.MissingHomeworkName? ==> message == MissingFieldHead + "homework_name\"."
    ensures f.MissingStatus? ==> message == MissingFieldHead + "status\"."
    ensures f.UndocumentedStatus? && IsScalar(f.status)
            ==> message == UndocumentedHead + PyStr(f.status) + "."
                && SpelledAt(PyStr(f.status), message, |UndocumentedHead|)
  {
    match f
    case MissingHomeworks => MissingKeyHead + "homeworks\"."
    case MissingCurrentDate => MissingKeyHead + "current_date\"."
    case MissingHomeworkName => MissingFieldHead + "homework_name\"."
    case MissingStatus => MissingFieldHead + "status\"."
    case UndocumentedStatus(status) =>
      var shown := if IsScalar(status) then PyStr(status) else "";
      var message := UndocumentedHead + shown + ".";
      assert message[|UndocumentedHead|..|UndocumentedHead| + |shown|] == shown;
      message
  }

  /** str() of the other failures, all TypeErrors: none starts with a quote. */
  function TypeErrorText(f: CheckError): (text: string)
    requires !IsKeyError(f)
    ensures |text| > 0 && text[0] != '\''
    ensures f.ResponseNotDict? <==> text[0] == 'Н'
  {
    match f
    case ResponseNotDict(response) =>
      var head := "Неверный тип данных ответа от эндпоинта ";
      assert head[0] == 'Н';
      head + Endpoint + ". " + "Требуется словарь, текущий тип - " + PyTypeRepr(response) + "."
    case HomeworksNotList =>
      assert WrongTypeHead[0] == 'Т';
      WrongTypeHead + "homeworks\" не является списком."
    case CurrentDateNotInt =>
      assert WrongTypeHead[0] == 'Т';
      WrongTypeHead + "current_date\" не является целым числом."
    case RecordNotIterable(record) =>
      var head := "argument of type '";
      assert head[0] == 'a';
      head + PyTypeName(record) + "' is not iterable"
    case RecordNotSubscriptable(record) =>
      if record.Str? then
        var head := "string indices must be integers";
        assert head[0] == 's';
        head
      else
        var head := "list indices ";
        assert head[0] == 'l';
        head + "must be integers or slices, not str"
    case StatusUnhashable(status) =>
      var head := "unhashable type: '";
      assert head[0] == 'u';
      head + PyTypeName(status) + "'"
    case NameNotRendered(name) =>
      var head := "homework_name of type '";
      assert head[0] == 'h';
      head + PyTypeName(name) + "' is not rendered"
  }

  /**
   * The text str(error) gives for each failure; the poll loop puts it in
   * its failure notice. Exactly the KeyError texts come quoted.
   */
  function Describe(f: CheckError): (text: string)
    ensures IsKeyError(f) <==> |text| >= 2 && text[0] == '\'' && text[|text| - 1] == '\''
  {
    if IsKeyError(f) then KeyErrorText(KeyErrorMessage(f)) else TypeErrorText(f)
  }

  // ---------------------------------------------------------------------
  // check_response
  // ---------------------------------------------------------------------

  /** The shape of a usable API answer: a dict with a "homeworks" list and an integer "current_date". */
  predicate IsApiAnswer(response: Json) {
    && response.Obj?
    && "homeworks" in response.fields
    && "current_date" in response.fields
    && response.fields["homeworks"].Arr?
    && IsPyInt(response.fields["current_date"])
  }

  /** The poll cursor a usable answer carries. */
  function CurrentDate(response: Json): (d: int)
    requires IsApiAnswer(response)
    ensures response.fields["current_date"].Int? ==> d == response.fields["current_date"].i
    ensures response.fields["current_date"].Bool? ==> (d == 1 <==> response.fields["current_date"].b) && 0 <= d <= 1
  {
    PyIntValue(response.fields["current_date"])
  }

  /**
   * check_response: hands back the "homeworks" list of a usable answer,
   * untouched; otherwise the first check that fails, in the source's order:
   * the type of the answer, then the two keys, then the two value types.
   */
  function CheckResponse(response: Json): (r: Result<seq<Json>, CheckError>)
    ensures r.Success? <==> IsApiAnswer(response)
    ensures r.Success? ==> r.value == response.fields["homeworks"].items
    // a non-dict answer fails before any key is looked at
    ensures !response.Obj? ==> r == Failure(ResponseNotDict(response))
    // a missing "homeworks" is reported whether or not "current_date" is there
    ensures response.Obj? && "homeworks" !in response.fields ==> r == Failure(MissingHomeworks)
    ensures response.Obj? && "homeworks" in response.fields && "current_date" !in response.fields
            ==> r == Failure(MissingCurrentDate)
    // both key checks come before both type checks
    ensures r.Failure? && (r.error.HomeworksNotList? || r.error.CurrentDateNotInt?)
            ==> response.Obj? && "homeworks" in response.fields && "current_date" in response.fields
    ensures r.Failure? && r.error.CurrentDateNotInt? ==> response.fields["homeworks"].Arr?
    // with both keys present, a non-list "homeworks" is reported before a non-int "current_date"
    ensures response.Obj? && "homeworks" in response.fields && "current_date" in response.fields
            && !response.fields["homeworks"].Arr?
            ==> r == Failure(HomeworksNotList)
    ensures response.Obj? && "homeworks" in response.fields && "current_date" in response.fields
            && response.fields["homeworks"].Arr? && !IsPyInt(response.fields["current_date"])
            ==> r == Failure(CurrentDateNotInt)
  {
    if !response.Obj? then Failure(ResponseNotDict(response))
    else if "homeworks" !in response.fields then Failure(MissingHomeworks)
    else if "current_date" !in response.fields then Failure(MissingCurrentDate)
    else
      var homeworks := response.fields["homeworks"];
      var currentDate := response.fields["current_date"];
      if !homeworks.Arr? then Failure(HomeworksNotList)
      else if !IsPyInt(currentDate) then Failure(CurrentDateNotInt)
      else Success(homeworks.items)
  }

  /** Whatever else an answer carries, a "homeworks" list and an int "current_date" make check_response return that list. */
  lemma AnswerRoundTrip(homeworks: seq<Json>, currentDate: int, extra: map<string, Json>)
    ensures var response := Obj(extra["homeworks" := Arr(homeworks)]["current_date" := Int(currentDate)]);
            CheckResponse(response) == Success(homeworks) && CurrentDate(response) == currentDate
  {
  }

  /** The failures check_response raises. */
  predicate IsEnvelopeFailure(f: CheckError) {
    f.ResponseNotDict? || f.MissingHomeworks? || f.MissingCurrentDate? || f.HomeworksNotList? || f.CurrentDateNotInt?
  }

  /** The two missing-key texts differ right after their shared head. */
  lemma MissingKeyTextsDiffer()
    ensures Describe(MissingHomeworks) != Describe(MissingCurrentDate)
  {
    var n := |MissingKeyHead|;
    var a := KeyErrorMessage(MissingHomeworks);
    var b := KeyErrorMessage(MissingCurrentDate);
    assert a[n] == 'h' && b[n] == 'c';
    assert Describe(MissingHomeworks)[n + 1] == a[n];
    assert Describe(MissingCurrentDate)[n + 1] == b[n];
  }

  /** The two wrong-type texts differ right after their shared head. */
  lemma WrongTypeTextsDiffer()
    ensures Describe(HomeworksNotList) != Describe(CurrentDateNotInt)
  {
    var m := |WrongTypeHead|;
    assert Describe(HomeworksNotList)[m] == 'h';
    assert Describe(CurrentDateNotInt)[m] == 'c';
  }

  /** Only the non-dict text opens with 'Н': the others open with a quote or with 'Т'. */
  lemma NonDictLead(f: CheckError)
    ensures |Describe(f)| > 0 && (Describe(f)[0] == 'Н' <==> f.ResponseNotDict?)
  {
    if IsKeyError(f) {
      assert Describe(f)[0] == '\'';
    } else {
      assert Describe(f) == TypeErrorText(f);
    }
  }

  /**
   * Different kinds of envelope failure give different texts, so the loop
   * never takes one for a repeat of another.
   */
  lemma EnvelopeFailureTextsDiffer(f1: CheckError, f2: CheckError)
    requires IsEnvelopeFailure(f1) && IsEnvelopeFailure(f2)
    requires f1.ResponseNotDict? != f2.ResponseNotDict? || f1.MissingHomeworks? != f2.MissingHomeworks?
             || f1.MissingCurrentDate? != f2.MissingCurrentDate? || f1.HomeworksNotList? != f2.HomeworksNotList?
    ensures Describe(f1) != Describe(f2)
  {
    if f1.ResponseNotDict? || f2.ResponseNotDict? {
      NonDictLead(f1);
      NonDictLead(f2);
    } else if IsKeyError(f1) && IsKeyError(f2) {
      MissingKeyTextsDiffer();
    } else if !IsKeyError(f1) && !IsKeyError(f2) {
      WrongTypeTextsDiffer();
    }
  }

  // ---------------------------------------------------------------------
  // parse_status
  // ---------------------------------------------------------------------

  /**
   * The notification for a homework called `name` that now has review
   * status `status`: the fixed head, the name, the joining quote, and the
   * status's verdict at the end.
   */
  function Notification(name: string, status: string): (text: string)
    requires status in HomeworkStatuses
    ensures |text| == |NotificationHead| + |name| + |NotificationJoin| + |HomeworkStatuses[status]|
    ensures text[..|NotificationHead|] == NotificationHead
    ensures text[|NotificationHead|..|NotificationHead| + |name|] == name
    ensures text[|NotificationHead| + |name|..|text| - |HomeworkStatuses[status]|] == NotificationJoin
    ensures text[|text| - |HomeworkStatuses[status]|..] == HomeworkStatuses[status]
  {
    NotificationHead + name + NotificationJoin + HomeworkStatuses[status]
  }

  /** A homework record parse_status can render: a dict with a documented string status and a scalar name. */
  predicate IsRenderable(homework: Json) {
    && homework.Obj?
    && "homework_name" in homework.fields
    && "status" in homework.fields
    && homework.fields["status"].Str?
    && homework.fields["status"].s in HomeworkStatuses
    && IsScalar(homework.fields["homework_name"])
  }

  /**
   * parse_status: the notification for one homework record, or why it has
   * none. A record that is not a dict goes through Python's `in` and
   * indexing just as the source's code does.
   */
  function ParseStatus(homework: Json): (r: Result<string, CheckError>)
    ensures r.Success? <==> IsRenderable(homework)
    ensures r.Success? ==>
              r.value == Notification(PyStr(homework.fields["homework_name"]), homework.fields["status"].s)
    // the name is looked for first, then the status
    ensures homework.Obj? && "homework_name" !in homework.fields ==> r == Failure(MissingHomeworkName)
    ensures homework.Obj? && "homework_name" in homework.fields && "status" !in homework.fields
            ==> r == Failure(MissingStatus)
    // a string status outside the vocabulary never yields a notification
    ensures homework.Obj? && "homework_name" in homework.fields && "status" in homework.fields
            && homework.fields["status"].Str? && homework.fields["status"].s !in HomeworkStatuses
            ==> r == Failure(UndocumentedStatus(homework.fields["status"]))
  {
    if !IsIterable(homework) then Failure(RecordNotIterable(homework))
    else if !PyIn("homework_name", homework) then Failure(MissingHomeworkName)
    else if !PyIn("status", homework) then Failure(MissingStatus)
    else if !homework.Obj? then Failure(RecordNotSubscriptable(homework))
    else
      var name := homework.fields["homework_name"];
      var status := homework.fields["status"];
      if !IsScalar(status) then Failure(StatusUnhashable(status))
      else if !(status.Str? && status.s in HomeworkStatuses) then Failure(UndocumentedStatus(status))
      else if !IsScalar(name) then Failure(NameNotRendered(name))
      else Success(Notification(PyStr(name), status.s))
  }

  /** A well-formed record with a documented status yields exactly the head, its name, and that status's verdict. */
  lemma VerdictMessage(name: string, status: string, extra: map<string, Json>)
    requires status in HomeworkStatuses
    ensures ParseStatus(Obj(extra["homework_name" := Str(name)]["status" := Str(status)]))
            == Success("Изменился статус проверки работы \"" + name + "\". " + HomeworkStatuses[status])
  {
  }

  /** An approved record named hw1, rendered in full. */
  lemma ApprovedExample()
    ensures ParseStatus(Obj(map["homework_name" := Str("hw1"), "status" := Str("approved")]))
            == Success("Изменился статус проверки работы \"" + "hw1" + "\". "
                       + "Работа проверена: ревьюеру всё понравилось. Ура!")
  {
  }

  /** No verdict is a tail of another, longer or equal, verdict. */
  lemma VerdictsSuffixFree(s1: string, s2: string)
    requires s1 in HomeworkStatuses && s2 in HomeworkStatuses && s1 != s2
    requires |HomeworkStatuses[s1]| <= |HomeworkStatuses[s2]|
    ensures HomeworkStatuses[s2][|HomeworkStatuses[s2]| - |HomeworkStatuses[s1]|..] != HomeworkStatuses[s1]
  {
  }

  /** A notification names its homework and its status unambiguously: different records never give the same text. */
  lemma {:induction false} NotificationDeterminesRecord(name1: string, status1: string, name2: string, status2: string)
    requires status1 in HomeworkStatuses && status2 in HomeworkStatuses
    requires Notification(name1, status1) == Notification(name2, status2)
    ensures name1 == name2 && status1 == status2
  {
    var m := Notification(name1, status1);
    var v1, v2 := HomeworkStatuses[status1], HomeworkStatuses[status2];
    assert m[|m| - |v1|..] == v1;
    assert m[|m| - |v2|..] == v2;
    if status1 != status2 {
      if |v1| <= |v2| {
        assert v2[|v2| - |v1|..] == m[|m| - |v1|..];
        VerdictsSuffixFree(status1, status2);
      } else {
        assert v1[|v1| - |v2|..] == m[|m| - |v2|..];
        VerdictsSuffixFree(status2, status1);
      }
    }
    var h := |NotificationHead|;
    var tail := |NotificationJoin| + |v1|;
    assert m[h..|m| - tail] == name1;
    assert m[h..|m| - tail] == name2;
  }
}
