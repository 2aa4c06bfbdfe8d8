/** The polling loop of `main`: one iteration validates the API response,
    interprets the latest homework and notifies only when its status
    differs from the last one notified. */
module Polling {
  import opened PyJson
  import opened Homework

  /** The loop's two variables: `initial_status` and `current_timestamp`. */
  datatype LoopState = LoopState(initialStatus: string, currentTimestamp: Json)

  /** A state together with the messages handed to the transport. */
  datatype Outcome = Outcome(state: LoopState, sent: seq<string>)

  /** The state `main` enters the loop with: no status yet, the cursor at
      the start time. */
  function Initial(now: int): LoopState {
    LoopState("", JInt(now))
  }

  /** The response gets through both check_response and parse_status. */
  predicate Accepted(response: Json) {
    CheckResponse(response).Ok? && ParseStatus(CheckResponse(response).value).Ok?
  }

  /** The status of the latest homework of an accepted response. */
  function StatusOf(response: Json): (s: string)
    requires Accepted(response)
    ensures s in Verdicts
  {
    CheckResponse(response).value.fields["status"].s
  }

  /** The notification text for an accepted response. */
  function MessageOf(response: Json): string
    requires Accepted(response)
  {
    ParseStatus(CheckResponse(response).value).value
  }

  /** The cursor an accepted response moves the loop to. */
  function NextCursor(response: Json): (cursor: Json)
    requires Accepted(response)
    ensures "current_date" in response.fields ==> cursor == response.fields["current_date"]
    ensures "current_date" !in response.fields ==> cursor == JNull
  {
    DictGet(response.fields, "current_date")
  }

  /** One pass through the body of `while True`: any exception leaves both
      variables as they were and sends nothing; otherwise the message is
      sent exactly when the status changed, and the cursor moves to the
      response's `current_date`. */
  function Iteration(st: LoopState, response: Json): (o: Outcome)
    ensures !Accepted(response) ==> o == Outcome(st, [])
    ensures Accepted(response) ==>
      && o.state == LoopState(StatusOf(response), NextCursor(response))
      && o.sent == (if StatusOf(response) != st.initialStatus then [MessageOf(response)] else [])
  {
    match CheckResponse(response)
    case Err(_) => Outcome(st, [])
    case Ok(homework) =>
      match ParseStatus(homework)
      case Err(_) => Outcome(st, [])
      case Ok(message) =>
        var status := homework.fields["status"].s;
        var cursor := DictGet(response.fields, "current_date");
        if status != st.initialStatus then Outcome(LoopState(status, cursor), [message])
        else Outcome(LoopState(st.initialStatus, cursor), [])
  }

  /** Finitely many iterations, one per response, in order. */
  function Run(st: LoopState, responses: seq<Json>): (o: Outcome)
    ensures |o.sent| <= |responses|
    decreases |responses|
  {
    if responses == [] then Outcome(st, [])
    else
      var before := Run(st, responses[..|responses| - 1]);
      var last := Iteration(before.state, responses[|responses| - 1]);
      Outcome(last.state, before.sent + last.sent)
  }

  /** One more response extends a run by one iteration. */
  lemma RunExtends(st: LoopState, responses: seq<Json>, response: Json)
    ensures Run(st, responses + [response])
      == Outcome(Iteration(Run(st, responses).state, response).state,
                 Run(st, responses).sent + Iteration(Run(st, responses).state, response).sent)
  {
    assert (responses + [response])[..|responses|] == responses;
  }

  /** The statuses of the accepted responses, in order. */
  function StatusTrail(responses: seq<Json>): (trail: seq<string>)
    ensures |trail| <= |responses|
    ensures forall k :: 0 <= k < |trail| ==> trail[k] in Verdicts
  {
    if responses == [] then []
    else
      var front := StatusTrail(responses[..|responses| - 1]);
      var last := responses[|responses| - 1];
      if Accepted(last) then front + [StatusOf(last)] else front
  }

  /** The last element of `trail`, or `start` when it is empty. */
  function LastOr(start: string, trail: seq<string>): string {
    if trail == [] then start else trail[|trail| - 1]
  }

  /** The number of positions of `trail` holding a value different from
      the one before it (from `start` for the first position). */
  function Changes(start: string, trail: seq<string>): nat {
    if trail == [] then 0
    else
      var front := trail[..|trail| - 1];
      Changes(start, front) + (if trail[|trail| - 1] != LastOr(start, front) then 1 else 0)
  }

  /** Over any run, the number of messages sent is the number of status
      changes among the accepted responses, and the remembered status is
      the last one seen. */
  lemma {:induction false} SendsEqualStatusChanges(st: LoopState, responses: seq<Json>)
    ensures |Run(st, responses).sent| == Changes(st.initialStatus, StatusTrail(responses))
    ensures Run(st, responses).state.initialStatus == LastOr(st.initialStatus, StatusTrail(responses))
  {
    if responses != [] {
      var front := responses[..|responses| - 1];
      SendsEqualStatusChanges(st, front);
      var trail := StatusTrail(front);
      if Accepted(responses[|responses| - 1]) {
        var full := trail + [StatusOf(responses[|responses| - 1])];
        assert full[..|full| - 1] == trail;
      }
    }
  }

  /** The messages of the accepted responses whose status differs from the
      previous accepted status (from `start` for the first one), in order. */
  function ChangeMessages(start: string, responses: seq<Json>): seq<string> {
    if responses == [] then []
    else
      var front := responses[..|responses| - 1];
      var last := responses[|responses| - 1];
      ChangeMessages(start, front)
        + (if Accepted(last) && StatusOf(last) != LastOr(start, StatusTrail(front))
           then [MessageOf(last)] else [])
  }

  /** Over any run, the messages sent are exactly the notifications of the
      status changes, in the order the changes happened. */
  lemma {:induction false} SentAreChangeMessages(st: LoopState, responses: seq<Json>)
    ensures Run(st, responses).sent == ChangeMessages(st.initialStatus, responses)
  {
    if responses != [] {
      var front := responses[..|responses| - 1];
      SentAreChangeMessages(st, front);
      SendsEqualStatusChanges(st, front);
    }
  }

  /** From the loop's start, the first accepted response is always
      notified: its status is a key of the table, and "" is not. */
  lemma {:induction false} FirstAcceptedIsSent(now: int, rejected: seq<Json>, response: Json)
    requires forall k :: 0 <= k < |rejected| ==> !Accepted(rejected[k])
    requires Accepted(response)
    ensures Run(Initial(now), rejected + [response]).sent == [MessageOf(response)]
  {
    FailuresLeaveStateUntouched(Initial(now), rejected);
    assert (rejected + [response])[..|rejected|] == rejected;
    assert "" !in Verdicts;
  }

  /** A run of failing iterations leaves both variables untouched and sends
      nothing. */
  lemma {:induction false} FailuresLeaveStateUntouched(st: LoopState, responses: seq<Json>)
    requires forall k :: 0 <= k < |responses| ==> !Accepted(responses[k])
    ensures Run(st, responses) == Outcome(st, [])
  {
    if responses != [] {
      FailuresLeaveStateUntouched(st, responses[..|responses| - 1]);
    }
  }

  /** Replaying a response right after it was processed sends nothing and
      changes nothing. */
  lemma ReplayIsSilent(st: LoopState, response: Json)
    ensures Iteration(Iteration(st, response).state, response)
            == Outcome(Iteration(st, response).state, [])
  {
  }

  /** Receiving the same response any positive number of times has the
      effect of receiving it once: at most one message is sent. */
  lemma {:induction false} RepeatedResponseActsOnce(st: LoopState, response: Json, times: nat)
    requires times >= 1
    ensures Run(st, seq(times, _ => response)) == Iteration(st, response)
  {
    var responses := seq(times, _ => response);
    if times == 1 {
      assert responses[..0] == [];
    } else {
      assert responses[..times - 1] == seq(times - 1, _ => response);
      RepeatedResponseActsOnce(st, response, times - 1);
      ReplayIsSilent(st, response);
    }
  }

  /** `message` is the notification of one of the accepted `responses`. */
  predicate NotifiesOneOf(message: string, responses: seq<Json>) {
    exists k :: 0 <= k < |responses| && Accepted(responses[k]) && message == MessageOf(responses[k])
  }

  /** A notification of some of the responses stays one when more arrive. */
  lemma NotifiesOneOfExtends(message: string, responses: seq<Json>, response: Json)
    requires NotifiesOneOf(message, responses)
    ensures NotifiesOneOf(message, responses + [response])
  {
    var k :| 0 <= k < |responses| && Accepted(responses[k]) && message == MessageOf(responses[k]);
    assert (responses + [response])[k] == responses[k];
  }

  /** Every message sent during a run is the notification of one of its
      accepted responses. */
  lemma {:induction false} SentMessagesComeFromResponses(st: LoopState, responses: seq<Json>)
    ensures forall j :: 0 <= j < |Run(st, responses).sent| ==>
      NotifiesOneOf(Run(st, responses).sent[j], responses)
  {
    if responses != [] {
      var n := |responses| - 1;
      var front, response := responses[..n], responses[n];
      assert front + [response] == responses;
      SentMessagesComeFromResponses(st, front);
      RunExtends(st, front, response);
      var before := Run(st, front);
      var last := Iteration(before.state, response);
      assert last.sent == [] || (Accepted(response) && last.sent == [MessageOf(response)]);
      forall j | 0 <= j < |before.sent| + |last.sent|
        ensures NotifiesOneOf((before.sent + last.sent)[j], front + [response])
      {
        if j < |before.sent| {
          NotifiesOneOfExtends(before.sent[j], front, response);
        } else {
          assert (front + [response])[n] == response;
        }
      }
    }
  }

  /** A first poll that sees homework "proj1" under review sends exactly
      one message; the same response on the next poll sends none. */
  lemma ReviewingThenSameAgain(now: int, date: int)
    ensures
      var homework := JObject(map["homework_name" := JStr("proj1"), "status" := JStr("reviewing")]);
      var response := JObject(map["homeworks" := JList([homework]), "current_date" := JInt(date)]);
      Run(Initial(now), [response, response])
        == Outcome(LoopState("reviewing", JInt(date)),
                   [MessagePrefix + "proj1" + "\". " + "Работа взята на проверку ревьюером."])
  {
    var homework := JObject(map["homework_name" := JStr("proj1"), "status" := JStr("reviewing")]);
    var response := JObject(map["homeworks" := JList([homework]), "current_date" := JInt(date)]);
    assert Accepted(response);
    RepeatedResponseActsOnce(Initial(now), response, 2);
    assert seq(2, _ => response) == [response, response];
  }

  lemma ConcatAssociates(a: seq<string>, b: seq<string>, c: seq<string>)
    ensures (a + b) + c == a + (b + c)
  {
  }

  /** The bot's loop variables and the messages it has sent so far. */
  class Bot {
    var initialStatus: string
    var currentTimestamp: Json
    ghost var sent: seq<string>

    function State(): LoopState
      reads this
    {
      LoopState(initialStatus, currentTimestamp)
    }

    /** The loop's starting state (`main` before `while True`). */
    constructor (now: int)
      ensures State() == Initial(now) && sent == []
    {
      initialStatus := "";
      currentTimestamp := JInt(now);
      sent := [];
    }

    /** send_message: a transport error is logged and swallowed, so the
        call always returns; the message joins what was sent. */
    method SendMessage(message: string)
      modifies this
      ensures sent == old(sent) + [message]
      ensures State() == old(State())
    {
      sent := sent + [message];
    }

    /** One pass through the loop body on the response the API returned. */
    method Step(response: Json)
      modifies this
      ensures State() == Iteration(old(State()), response).state
      ensures sent == old(sent) + Iteration(old(State()), response).sent
    {
      var checked := CheckResponse(response);
      if checked.Err? {
        return;
      }
      var homework := checked.value;
      var parsed := ParseStatus(homework);
      if parsed.Err? {
        return;
      }
      if homework.fields["status"].s != initialStatus {
        SendMessage(parsed.value);
        initialStatus := homework.fields["status"].s;
      }
      currentTimestamp := DictGet(response.fields, "current_date");
    }

    /** The loop over a finite sequence of API responses. */
    method Poll(responses: seq<Json>)
      modifies this
      ensures State() == Run(old(State()), responses).state
      ensures sent == old(sent) + Run(old(State()), responses).sent
    {
      ghost var start, before := State(), sent;
      for i := 0 to |responses|
        invariant State() == Run(start, responses[..i]).state
        invariant sent == before + Run(start, responses[..i]).sent
      {
        ghost var done := Run(start, responses[..i]);
        ghost var next := Iteration(done.state, responses[i]);
        assert responses[..i + 1] == responses[..i] + [responses[i]];
        RunExtends(start, responses[..i], responses[i]);
        Step(responses[i]);
        ConcatAssociates(before, done.sent, next.sent);
      }
      assert responses[..|responses|] == responses;
    }
  }

  /** The start of `main`: without all three tokens the program exits
      before the loop. `telegram.Bot` is constructed outside any `try`, so a
      token the Telegram library rejects (a malformed one such as "", which
      the token check lets through) also ends the program before the loop.
      `telegramTokenAccepted` is that library's verdict on the token. */
  method Start(practicumToken: Option<string>, telegramToken: Option<string>,
               telegramChatId: Option<string>, telegramTokenAccepted: bool, now: int)
    returns (bot: Bot?)
    ensures bot == null <==>
      !(practicumToken.Some? && telegramToken.Some? && telegramChatId.Some?) || !telegramTokenAccepted
    ensures bot != null ==> fresh(bot) && bot.State() == Initial(now) && bot.sent == []
  {
    var tokenOk, critical := CheckTokens(practicumToken, telegramToken, telegramChatId);
    if !tokenOk {
      return null;
    }
    if !telegramTokenAccepted {
      return null;
    }
    bot := new Bot(now);
  }
}
