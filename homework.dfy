/** The response validator, the status interpreter, the verdict table and
    the token check of the homework-review bot. */
module Homework {
  import opened PyJson

  /** HOMEWORK_STATUSES: the verdict text for each known review status. */
  const Verdicts: map<string, string> := map[
    "approved" := "Работа проверена: ревьюеру всё понравилось. Ура!",
    "reviewing" := "Работа взята на проверку ревьюером.",
    "rejected" := "Работа проверена: у ревьюера есть замечания."
  ]

  /** The same table as the Python dict the interpreter subscripts. */
  const StatusTable: Json := JObject(map k | k in Verdicts :: JStr(Verdicts[k]))

  /** The table knows exactly three statuses, and subscripting the dict
      with one of them yields its verdict text. */
  lemma KnownStatuses()
    ensures Verdicts.Keys == {"approved", "reviewing", "rejected"}
    ensures forall status :: status in Verdicts ==>
      Subscript(StatusTable, JStr(status)) == Ok(JStr(Verdicts[status]))
  {
  }

  /** The text every status notification starts with. */
  const MessagePrefix: string := "Изменился статус проверки работы \""

  /** The text logged once per missing token. */
  const EmptyTokenMessage: string := "Работа программы требует наличия токенов"

  /** `homeworks` has a first element to take: a non-empty list, or a
      non-empty str (whose first character Python returns). */
  predicate HasFirst(homeworks: Json) {
    (homeworks.JList? && |homeworks.items| > 0) || (homeworks.JStr? && |homeworks.s| > 0)
  }

  /** check_response: the shape tests only log; what can fail is evaluating
      the membership test, `response['homeworks']` and `[0]` of it (`len`
      cannot fail once the response has been subscripted). */
  function CheckResponse(response: Json): (r: Result<Json>)
    ensures r.Ok? <==>
      response.JObject? && "homeworks" in response.fields && HasFirst(response.fields["homeworks"])
    ensures r.Ok? && response.fields["homeworks"].JList? ==>
      r.value == response.fields["homeworks"].items[0]
    ensures r.Ok? && response.fields["homeworks"].JStr? ==>
      r.value == JStr(response.fields["homeworks"].s[..1])
  {
    var present :- Contains(response, "homeworks");
    var homeworks :- Subscript(response, JStr("homeworks"));
    var latest :- Subscript(homeworks, JInt(0));
    assert homeworks.JStr? && |homeworks.s| > 0 ==> homeworks.s[..1] == [homeworks.s[0]];
    if Len(response) == Ok(0) then Ok(JObject(map[])) else Ok(latest)
  }

  /** Why check_response fails: which exception each malformed response
      raises. */
  lemma CheckResponseFailures(response: Json)
    ensures !response.JObject? ==> CheckResponse(response) == Err(TypeError)
    ensures response.JObject? && "homeworks" !in response.fields ==>
      CheckResponse(response) == Err(KeyError(JStr("homeworks")))
    ensures response.JObject? && "homeworks" in response.fields ==>
      var homeworks := response.fields["homeworks"];
      && (homeworks == JList([]) || homeworks == JStr("") ==> CheckResponse(response) == Err(IndexError))
      && (homeworks.JObject? ==> CheckResponse(response) == Err(KeyError(JInt(0))))
      && (homeworks.JNull? || homeworks.JBool? || homeworks.JInt? ==> CheckResponse(response) == Err(TypeError))
  {
  }

  /** The `return {}` branch is dead: once `response['homeworks']` has been
      evaluated, the response is a dict holding at least that key. */
  lemma EmptyResponseBranchUnreachable(response: Json)
    requires Subscript(response, JStr("homeworks")).Ok?
    ensures Len(response).Ok? && Len(response).value > 0
  {
  }

  /** parse_status: reads `homework_name` and `status`, looks the status up
      in the verdict table and formats the notification. */
  function ParseStatus(homework: Json): (r: Result<string>)
    ensures r.Ok? <==>
      && homework.JObject?
      && "homework_name" in homework.fields
      && "status" in homework.fields
      && homework.fields["status"].JStr?
      && homework.fields["status"].s in Verdicts
    ensures r.Ok? ==>
      r.value == MessagePrefix + Str(homework.fields["homework_name"]) + "\". "
                 + Verdicts[homework.fields["status"].s]
  {
    var homeworkName :- Subscript(homework, JStr("homework_name"));
    var homeworkStatus :- Subscript(homework, JStr("status"));
    var verdict :- Subscript(StatusTable, homeworkStatus);
    Ok(MessagePrefix + Str(homeworkName) + "\". " + Str(verdict))
  }

  /** Why parse_status fails: which exception each malformed homework
      raises. */
  lemma ParseStatusFailures(homework: Json)
    ensures !homework.JObject? ==> ParseStatus(homework) == Err(TypeError)
    ensures homework.JObject? && "homework_name" !in homework.fields ==>
      ParseStatus(homework) == Err(KeyError(JStr("homework_name")))
    ensures homework.JObject? && "homework_name" in homework.fields && "status" !in homework.fields ==>
      ParseStatus(homework) == Err(KeyError(JStr("status")))
    ensures homework.JObject? && "homework_name" in homework.fields && "status" in homework.fields ==>
      var status := homework.fields["status"];
      && (status.JList? || status.JObject? ==> ParseStatus(homework) == Err(TypeError))
      && (Hashable(status) && !(status.JStr? && status.s in Verdicts) ==>
            ParseStatus(homework) == Err(KeyError(status)))
  {
  }

  /** The number of absent tokens. */
  function Missing(tokens: seq<Option<string>>): (n: nat)
    ensures n <= |tokens|
    ensures n == 0 <==> forall k :: 0 <= k < |tokens| ==> tokens[k].Some?
  {
    if tokens == [] then 0
    else Missing(tokens[..|tokens| - 1]) + (if tokens[|tokens| - 1].None? then 1 else 0)
  }

  /** check_tokens: every token is inspected, one critical log line per
      absent one; an empty string counts as present. */
  method CheckTokens(practicumToken: Option<string>, telegramToken: Option<string>,
                     telegramChatId: Option<string>)
    returns (tokenOk: bool, critical: seq<string>)
    ensures tokenOk <==> practicumToken.Some? && telegramToken.Some? && telegramChatId.Some?
    ensures |critical| == Missing([practicumToken, telegramToken, telegramChatId])
    ensures forall k :: 0 <= k < |critical| ==> critical[k] == " " + EmptyTokenMessage
  {
    tokenOk := true;
    critical := [];
    var tokens := [practicumToken, telegramToken, telegramChatId];
    for i := 0 to |tokens|
      invariant tokenOk <==> forall k :: 0 <= k < i ==> tokens[k].Some?
      invariant |critical| == Missing(tokens[..i])
      invariant forall k :: 0 <= k < |critical| ==> critical[k] == " " + EmptyTokenMessage
    {
      assert tokens[..i + 1][..i] == tokens[..i];
      if tokens[i].None? {
        tokenOk := false;
        critical := critical + [" " + EmptyTokenMessage];
      }
    }
    assert tokens[..|tokens|] == tokens;
    assert tokens[0] == practicumToken && tokens[1] == telegramToken && tokens[2] == telegramChatId;
  }
}
