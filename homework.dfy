/** The decisions `homework.py` makes on its inputs: the credential gate, the
    shape check of the API's answer, the verdict table and the formatting of
    the notification for one homework record. Each raised exception of the
    source is a `Failure` (or `Fail`) carrying the same message. */
module Homework {
  import opened Wrappers
  import opened Json

  /** The exceptions the core raises, each with the message the source gives it. */
  datatype Error =
    | MissingToken(name: string)      // ImportError('No token <name>')
    | MissingKey(message: string)     // KeyError(message)
    | WrongType(message: string)      // TypeError(message)
    | NoAttribute(message: string)    // AttributeError(message)
    | RequestFailed(message: string)  // what fetching the answer raised, as str() renders it

  /** Python's `str()` of the exception: an ImportError, TypeError or
      AttributeError shows its message as it is. A KeyError shows `repr()` of
      its message; for the five literal messages the core raises (none holds a
      quote or a backslash) that is the message between single quotes, so
      `MissingKey` is meant only for such messages. */
  function ErrorText(e: Error): (text: string)
    ensures e.MissingToken? ==> |text| >= 9 && text[..9] == "No token " && text[9..] == e.name
    ensures e.MissingKey? ==>
              |text| == |e.message| + 2 && text[0] == '\'' && text[|text| - 1] == '\'' &&
              text[1..|text| - 1] == e.message
    ensures e.WrongType? || e.NoAttribute? || e.RequestFailed? ==> text == e.message
  {
    match e
    case MissingToken(name) => "No token " + name
    case MissingKey(message) => "'" + message + "'"
    case WrongType(message) => message
    case NoAttribute(message) => message
    case RequestFailed(message) => message
  }

  // ---------------------------------------------------------------- tokens

  /** The three credentials read from the environment; `None` when unset. */
  datatype Tokens = Tokens(practicum: Option<string>, telegram: Option<string>, chatId: Option<string>)

  /** A credential is usable when it is set and not the empty string (Python truthiness). */
  predicate Given(token: Option<string>)
  {
    token.Some? && token.value != ""
  }

  /** The credentials with their names, in the order they are checked. */
  function Required(t: Tokens): seq<(string, Option<string>)>
  {
    [("PRACTICUM_TOKEN", t.practicum), ("TELEGRAM_TOKEN", t.telegram), ("TELEGRAM_CHAT_ID", t.chatId)]
  }

  /** Entry `i` of `Required(t)` is missing and every entry before it is given. */
  predicate FirstMissing(t: Tokens, i: nat)
  {
    i < |Required(t)| && !Given(Required(t)[i].1) &&
    forall j :: 0 <= j < i ==> Given(Required(t)[j].1)
  }

  /** `check_tokens`: passes when every credential is given, and otherwise
      fails naming the first missing one. */
  function CheckTokens(t: Tokens): (r: Outcome<Error>)
    ensures r.Pass? <==> forall i :: 0 <= i < |Required(t)| ==> Given(Required(t)[i].1)
    ensures r.Fail? ==> exists i: nat :: FirstMissing(t, i) && r.error == MissingToken(Required(t)[i].0)
  {
    if !Given(t.practicum) then
      assert FirstMissing(t, 0);
      Fail(MissingToken("PRACTICUM_TOKEN"))
    else if !Given(t.telegram) then
      assert FirstMissing(t, 1);
      Fail(MissingToken("TELEGRAM_TOKEN"))
    else if !Given(t.chatId) then
      assert FirstMissing(t, 2);
      Fail(MissingToken("TELEGRAM_CHAT_ID"))
    else
      Pass
  }

  // -------------------------------------------------------------- response

  const HomeworksKey := "homeworks"
  const CurrentDateKey := "current_date"

  /** The answer has the shape the bot expects: a dictionary holding both keys,
      with a list under `homeworks`. */
  predicate WellShaped(response: Json)
  {
    response.JObject? && HomeworksKey in response.fields && CurrentDateKey in response.fields &&
    response.fields[HomeworksKey].JArray?
  }

  /** `check_response`: hands back the list under `homeworks` of a well-shaped
      answer; otherwise the KeyError for the first absent key (`homeworks`
      before `current_date`) or the TypeError for a non-dictionary answer or a
      non-list `homeworks`. */
  function CheckResponse(response: Json): (r: Result<seq<Json>, Error>)
    ensures r.Success? <==> WellShaped(response)
    ensures r.Success? ==> JArray(r.value) == response.fields[HomeworksKey]
    ensures !response.JObject? ==> r == Failure(WrongType("Invalid type homeworks"))
    ensures response.JObject? && HomeworksKey !in response.fields ==>
              r == Failure(MissingKey("No homeworks in homeworks"))
    ensures response.JObject? && HomeworksKey in response.fields && CurrentDateKey !in response.fields ==>
              r == Failure(MissingKey("No current_date in homeworks"))
    ensures response.JObject? && HomeworksKey in response.fields && CurrentDateKey in response.fields &&
            !response.fields[HomeworksKey].JArray? ==>
              r == Failure(WrongType("Invalid type homeworks"))
  {
    match response
    case JObject(fields) =>
      if HomeworksKey !in fields then Failure(MissingKey("No homeworks in homeworks"))
      else if CurrentDateKey !in fields then Failure(MissingKey("No current_date in homeworks"))
      else if fields[HomeworksKey].JArray? then Success(fields[HomeworksKey].items)
      else Failure(WrongType("Invalid type homeworks"))
    case _ => Failure(WrongType("Invalid type homeworks"))
  }

  /** An answer built from a list and a date passes the check and yields that
      list, whatever else the dictionary holds. */
  lemma CheckResponseReturnsList(homeworks: seq<Json>, date: Json, others: map<string, Json>)
    ensures CheckResponse(JObject(others[HomeworksKey := JArray(homeworks)][CurrentDateKey := date]))
            == Success(homeworks)
  {
  }

  /** Only the presence of `current_date` matters, never its value. */
  lemma CurrentDateUninspected(fields: map<string, Json>, date: Json)
    requires CurrentDateKey in fields
    ensures CheckResponse(JObject(fields[CurrentDateKey := date])) == CheckResponse(JObject(fields))
  {
  }

  // ---------------------------------------------------------------- status

  /** `HOMEWORK_VERDICTS`: the closed table from review status to verdict text. */
  const Verdicts: map<string, string> := map[
    "approved" := "Работа проверена: ревьюеру всё понравилось. Ура!",
    "reviewing" := "Работа взята на проверку ревьюером.",
    "rejected" := "Работа проверена: у ревьюера есть замечания."
  ]

  /** The table knows exactly the three review statuses, and gives each its own text. */
  lemma VerdictTable()
    ensures Verdicts.Keys == {"approved", "reviewing", "rejected"}
    ensures Verdicts["approved"] != Verdicts["reviewing"]
    ensures Verdicts["approved"] != Verdicts["rejected"]
    ensures Verdicts["reviewing"] != Verdicts["rejected"]
  {
  }

  const NameKey := "homework_name"
  const StatusKey := "status"

  /** The text before the homework's name in every notification. */
  const StatusPrefix := "Изменился статус проверки работы \""

  /** The notification sentence for a homework name and a verdict text: the
      fixed prefix, the name and its closing quote, then the verdict. */
  function StatusMessage(name: string, verdict: string): (m: string)
    ensures |m| == |StatusPrefix| + |name| + 3 + |verdict|
    ensures m[..|StatusPrefix|] == StatusPrefix
    ensures m[|StatusPrefix|..|StatusPrefix| + |name|] == name
    ensures m[|StatusPrefix| + |name|..|StatusPrefix| + |name| + 3] == "\". "
    ensures m[|m| - |verdict|..] == verdict
  {
    StatusPrefix + name + "\". " + verdict
  }

  /** The status of a record is a key of the verdict table. */
  predicate KnownStatus(status: Json)
  {
    status.JString? && status.s in Verdicts
  }

  /** `parse_status`: the notification for a dictionary record with a name and
      a known status. A record that is not a dictionary has no `get` (an
      AttributeError); otherwise the KeyErrors come in the order name, status,
      unknown status, except that a list or dictionary status cannot be looked
      up at all (a TypeError). */
  function ParseStatus(homework: Json): (r: Result<string, Error>)
    ensures r.Success? <==>
              homework.JObject? && NameKey in homework.fields && StatusKey in homework.fields &&
              KnownStatus(homework.fields[StatusKey])
    ensures r.Success? ==>
              r.value == StatusMessage(Str(homework.fields[NameKey]), Verdicts[homework.fields[StatusKey].s])
    ensures r.Success? ==> StatusPrefix <= r.value
    ensures !homework.JObject? ==>
              r == Failure(NoAttribute("'" + TypeName(homework) + "' object has no attribute 'get'"))
    ensures homework.JObject? && NameKey !in homework.fields ==>
              r == Failure(MissingKey("homework_name not in homework"))
    ensures homework.JObject? && NameKey in homework.fields && StatusKey !in homework.fields ==>
              r == Failure(MissingKey("homework_status not in homework"))
    ensures homework.JObject? && NameKey in homework.fields && StatusKey in homework.fields &&
            !KnownStatus(homework.fields[StatusKey]) ==>
              r.Failure? && (r.error.MissingKey? || r.error.WrongType?)
    ensures homework.JObject? && NameKey in homework.fields && StatusKey in homework.fields &&
            (homework.fields[StatusKey].JArray? || homework.fields[StatusKey].JObject?) ==>
              r == Failure(WrongType("unhashable type: '" + TypeName(homework.fields[StatusKey]) + "'"))
    ensures homework.JObject? && NameKey in homework.fields && StatusKey in homework.fields &&
            !homework.fields[StatusKey].JArray? && !homework.fields[StatusKey].JObject? &&
            !KnownStatus(homework.fields[StatusKey]) ==>
              r == Failure(MissingKey("homework_status not in HOMEWORK_VERDICTS"))
  {
    match homework
    case JObject(fields) =>
      if NameKey !in fields then Failure(MissingKey("homework_name not in homework"))
      else if StatusKey !in fields then Failure(MissingKey("homework_status not in homework"))
      else
        var status := fields[StatusKey];
        if status.JArray? || status.JObject? then
          Failure(WrongType("unhashable type: '" + TypeName(status) + "'"))
        else if !KnownStatus(status) then
          Failure(MissingKey("homework_status not in HOMEWORK_VERDICTS"))
        else
          var message := StatusMessage(Str(fields[NameKey]), Verdicts[status.s]);
          assert message[..|StatusPrefix|] == StatusPrefix;
          Success(message)
    case _ =>
      Failure(NoAttribute("'" + TypeName(homework) + "' object has no attribute 'get'"))
  }

  /** The last two characters of a sequence of at least two. */
  function Tail2(s: string): string
    requires |s| >= 2
  {
    s[|s| - 2..]
  }

  /** Appending on the left does not change the last two characters. */
  lemma Tail2OfConcat(a: string, b: string)
    requires |b| >= 2
    ensures Tail2(a + b) == Tail2(b)
  {
  }

  /** A notification determines both the homework name it shows and the
      status it reports: no two different (name, status) pairs share one. */
  lemma {:induction false} StatusMessageInjective(name1: string, status1: string, name2: string, status2: string)
    requires status1 in Verdicts && status2 in Verdicts
    requires StatusMessage(name1, Verdicts[status1]) == StatusMessage(name2, Verdicts[status2])
    ensures name1 == name2 && status1 == status2
  {
    var v1, v2 := Verdicts[status1], Verdicts[status2];
    var head1, head2 := StatusPrefix + name1 + "\". ", StatusPrefix + name2 + "\". ";
    assert StatusMessage(name1, v1) == head1 + v1;
    assert StatusMessage(name2, v2) == head2 + v2;
    Tail2OfConcat(head1, v1);
    Tail2OfConcat(head2, v2);
    assert Tail2(v1) == Tail2(v2);
    assert status1 == status2 by {
      assert Tail2(Verdicts["approved"]) == "а!";
      assert Tail2(Verdicts["reviewing"]) == "м.";
      assert Tail2(Verdicts["rejected"]) == "я.";
    }
    assert head1 == (head1 + v1)[..|head1|];
    assert head2 == (head2 + v2)[..|head2|];
    assert head1 == head2;
    assert name1 == head1[|StatusPrefix|..|head1| - 3];
    assert name2 == head2[|StatusPrefix|..|head2| - 3];
  }

  /** For one homework name the three statuses give three different notifications. */
  lemma DistinctStatusesDistinctMessages(name: string, status1: string, status2: string)
    requires status1 in Verdicts && status2 in Verdicts && status1 != status2
    ensures StatusMessage(name, Verdicts[status1]) != StatusMessage(name, Verdicts[status2])
  {
  }

  /** Two records that yield the same notification show the same name and have
      the same status: the deduplication of equal messages merges exactly the
      repeats of one review state. */
  lemma ParseStatusInjective(h1: Json, h2: Json)
    requires ParseStatus(h1).Success? && ParseStatus(h1) == ParseStatus(h2)
    ensures Str(h1.fields[NameKey]) == Str(h2.fields[NameKey])
    ensures h1.fields[StatusKey] == h2.fields[StatusKey]
  {
    StatusMessageInjective(Str(h1.fields[NameKey]), h1.fields[StatusKey].s,
                           Str(h2.fields[NameKey]), h2.fields[StatusKey].s);
  }
}
