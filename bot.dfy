/**
 * The bot's main loop: the start-up token check, the poll cursor with its
 * fallback to the current time, and one poll cycle with its de-duplication
 * of failure notifications. The network answer and the clock are inputs;
 * every message handed to the messenger is appended to a log.
 */
module Bot {
  import opened Wrappers
  import opened Json
  import opened Homework

  // ---------------------------------------------------------------------
  // check_tokens
  // ---------------------------------------------------------------------

  /** A token as os.getenv returns it is truthy when it is set and not empty. */
  predicate Truthy(token: Option<string>) {
    token.Some? && token.value != ""
  }

  /** Python's all() over a list of tokens. */
  function AllTruthy(tokens: seq<Option<string>>): bool
    decreases |tokens|
  {
    tokens == [] || (Truthy(tokens[0]) && AllTruthy(tokens[1..]))
  }

  /** check_tokens: the bot may start only when every required token is set and not empty. */
  function CheckTokens(practicumToken: Option<string>, telegramToken: Option<string>, chatId: Option<string>): (ok: bool)
    ensures ok <==> && practicumToken.Some? && practicumToken.value != ""
                    && telegramToken.Some? && telegramToken.value != ""
                    && chatId.Some? && chatId.value != ""
  {
    var tokens := [practicumToken, chatId, telegramToken];
    assert tokens[1..] == [chatId, telegramToken] && [chatId, telegramToken][1..] == [telegramToken];
    assert AllTruthy([telegramToken]) == Truthy(telegramToken) by {
      assert [telegramToken][1..] == [];
    }
    assert AllTruthy([chatId, telegramToken]) == (Truthy(chatId) && Truthy(telegramToken));
    AllTruthy(tokens)
  }

  // ---------------------------------------------------------------------
  // One poll cycle
  // ---------------------------------------------------------------------

  /** get_api_answer's from_date: a zero (or False) cursor means "from now". */
  function RequestTimestamp(cursor: int, now: int): (fromDate: int)
    ensures cursor == 0 ==> fromDate == now
    ensures cursor != 0 ==> fromDate == cursor
    ensures now != 0 ==> fromDate != 0
  {
    if cursor != 0 then cursor else now
  }

  /** What the API request of one cycle came back with: the text of the error it raised, or the decoded body. */
  datatype Fetch = FetchFailed(reason: string) | Fetched(body: Json)

  /** What the try block of a cycle achieves when it raises nothing. */
  datatype Progress = Progress(messages: seq<string>, cursor: int)

  /**
   * The try block of one cycle: validate the answer, render the first
   * homework if there is one, and read the new cursor; or the text of the
   * exception that stopped it.
   */
  function TryCycle(fetch: Fetch): (r: Result<Progress, string>)
    ensures fetch.FetchFailed? ==> r == Failure(fetch.reason)
    ensures r.Success? <==>
              && fetch.Fetched? && IsApiAnswer(fetch.body)
              && (fetch.body.fields["homeworks"].items == [] || IsRenderable(fetch.body.fields["homeworks"].items[0]))
    ensures r.Success? ==> r.value.cursor == CurrentDate(fetch.body)
    // an empty list sends nothing; otherwise exactly the first record's notification
    ensures r.Success? ==> |r.value.messages| <= 1
    ensures r.Success? ==>
              var homeworks := fetch.body.fields["homeworks"].items;
              (r.value.messages == [] <==> homeworks == [])
              && (homeworks != [] ==> r.value.messages == [ParseStatus(homeworks[0]).value])
    // a malformed answer or record fails with the text of its validation error
    ensures fetch.Fetched? && CheckResponse(fetch.body).Failure?
            ==> r == Failure(Describe(CheckResponse(fetch.body).error))
    ensures fetch.Fetched? && CheckResponse(fetch.body).Success? && CheckResponse(fetch.body).value != []
            && ParseStatus(CheckResponse(fetch.body).value[0]).Failure?
            ==> r == Failure(Describe(ParseStatus(CheckResponse(fetch.body).value[0]).error))
  {
    match fetch
    case FetchFailed(reason) => Failure(reason)
    case Fetched(response) =>
      match CheckResponse(response)
      case Failure(f) => Failure(Describe(f))
      case Success(homeworks) =>
        if |homeworks| == 0 then Success(Progress([], CurrentDate(response)))
        else
          match ParseStatus(homeworks[0])
          case Failure(f) => Failure(Describe(f))
          case Success(message) => Success(Progress([message], CurrentDate(response)))
  }

  /** The text of the notification a failing cycle sends. */
  const FailurePrefix := "Сбой в работе программы: "

  function FailureNotice(error: string): (notice: string)
    ensures |notice| == |FailurePrefix| + |error|
    ensures notice[..|FailurePrefix|] == FailurePrefix && notice[|FailurePrefix|..] == error
  {
    FailurePrefix + error
  }

  /** Different errors give different failure notices. */
  lemma FailureNoticeInjective(error1: string, error2: string)
    requires FailureNotice(error1) == FailureNotice(error2)
    ensures error1 == error2
  {
    assert error1 == FailureNotice(error1)[|FailurePrefix|..];
    assert error2 == FailureNotice(error2)[|FailurePrefix|..];
  }

  /** The loop's state: the poll cursor and previous_error_message, the last failure notice sent. */
  datatype Poll = Poll(cursor: int, lastError: seq<string>)

  /** One cycle: the state after it, the messages it hands to the messenger, and the from_date it requested. */
  datatype Cycle = Cycle(next: Poll, sent: seq<string>, fromDate: int)

  /**
   * One turn of the main loop. A cycle that raises nothing moves the
   * cursor to the answer's current_date and forgets the last failure; one
   * that raises keeps the cursor and sends its failure notice only when it
   * differs from the one remembered, which it then remembers.
   */
  function Step(p: Poll, now: int, fetch: Fetch): (c: Cycle)
    ensures c.fromDate == RequestTimestamp(p.cursor, now)
    ensures TryCycle(fetch).Success? ==>
              c.next == Poll(TryCycle(fetch).value.cursor, []) && c.sent == TryCycle(fetch).value.messages
    ensures TryCycle(fetch).Failure? ==>
              var notice := FailureNotice(TryCycle(fetch).error);
              && c.next.cursor == p.cursor
              && (notice !in p.lastError ==> c.sent == [notice] && c.next.lastError == [notice])
              && (notice in p.lastError ==> c.sent == [] && c.next == p)
    ensures |p.lastError| <= 1 ==> |c.next.lastError| <= 1
  {
    var fromDate := RequestTimestamp(p.cursor, now);
    match TryCycle(fetch)
    case Success(progress) => Cycle(Poll(progress.cursor, []), progress.messages, fromDate)
    case Failure(error) =>
      var notice := FailureNotice(error);
      if p.lastError == [] || notice !in p.lastError then
        Cycle(Poll(p.cursor, [notice]), [notice], fromDate)
      else
        Cycle(p, [], fromDate)
  }

  /** One pass of the loop: the wall-clock time it starts at, and what its request came back with. */
  datatype Tick = Tick(now: int, fetch: Fetch)

  /** What a finite run of the loop leaves: the state, every message sent, every from_date requested. */
  datatype Trace = Trace(final: Poll, sent: seq<string>, requested: seq<int>)

  /** The loop run over `ticks` from state `start`. */
  function Runs(start: Poll, ticks: seq<Tick>): (t: Trace)
    ensures |t.requested| == |ticks|
    ensures |start.lastError| <= 1 ==> |t.final.lastError| <= 1
    decreases |ticks|
  {
    if ticks == [] then Trace(start, [], [])
    else
      var before := Runs(start, ticks[..|ticks| - 1]);
      var last := ticks[|ticks| - 1];
      var c := Step(before.final, last.now, last.fetch);
      Trace(c.next, before.sent + c.sent, before.requested + [c.fromDate])
  }

  /** Running one tick more extends the trace by exactly that tick's cycle. */
  lemma RunsSnoc(start: Poll, ticks: seq<Tick>, tick: Tick)
    ensures var before := Runs(start, ticks);
            var c := Step(before.final, tick.now, tick.fetch);
            Runs(start, ticks + [tick]) == Trace(c.next, before.sent + c.sent, before.requested + [c.fromDate])
  {
  }

  /** A failing cycle keeps the cursor and leaves its notice as the only cached entry; it sends the notice iff it was not cached. */
  lemma FailingStep(p: Poll, now: int, fetch: Fetch, error: string)
    requires |p.lastError| <= 1
    requires TryCycle(fetch) == Failure(error)
    ensures Step(p, now, fetch).next == Poll(p.cursor, [FailureNotice(error)])
    ensures Step(p, now, fetch).sent == if FailureNotice(error) in p.lastError then [] else [FailureNotice(error)]
  {
  }

  /**
   * However many cycles in a row fail with the same error, its notice goes
   * out at most once, and not at all if it was already the last one sent;
   * the cursor does not move meanwhile.
   */
  lemma {:induction false} RepeatedFailureNotifiesOnce(start: Poll, ticks: seq<Tick>, error: string)
    requires |start.lastError| <= 1
    requires forall i :: 0 <= i < |ticks| ==> TryCycle(ticks[i].fetch) == Failure(error)
    ensures Runs(start, ticks).final.cursor == start.cursor
    ensures Runs(start, ticks).sent
            == if ticks != [] && FailureNotice(error) !in start.lastError then [FailureNotice(error)] else []
    ensures ticks != [] ==> Runs(start, ticks).final.lastError == [FailureNotice(error)]
    decreases |ticks|
  {
    if ticks != [] {
      var init, last := ticks[..|ticks| - 1], ticks[|ticks| - 1];
      assert forall i :: 0 <= i < |init| ==> init[i] == ticks[i];
      RepeatedFailureNotifiesOnce(start, init, error);
      var before := Runs(start, init);
      assert Runs(start, ticks) == Trace(Step(before.final, last.now, last.fetch).next,
                                         before.sent + Step(before.final, last.now, last.fetch).sent,
                                         before.requested + [Step(before.final, last.now, last.fetch).fromDate]);
      FailingStep(before.final, last.now, last.fetch, error);
      if init == [] {
        assert before == Trace(start, [], []);
      }
    }
  }

  /** A cycle that succeeds in between makes the next identical failure notify again. */
  lemma SuccessRearmsNotice(start: Poll, first: Tick, middle: Tick, third: Tick, error: string)
    requires |start.lastError| <= 1
    requires TryCycle(first.fetch) == Failure(error)
    requires TryCycle(middle.fetch).Success?
    requires TryCycle(third.fetch) == Failure(error)
    ensures Runs(start, [first, middle, third]).sent
            == Runs(start, [first]).sent + TryCycle(middle.fetch).value.messages + [FailureNotice(error)]
    ensures Runs(start, [first, middle, third]).final
            == Poll(TryCycle(middle.fetch).value.cursor, [FailureNotice(error)])
  {
    RunsSnoc(start, [], first);
    RunsSnoc(start, [first], middle);
    RunsSnoc(start, [first, middle], third);
    assert [] + [first] == [first];
    assert [first] + [middle] == [first, middle];
    assert [first, middle] + [third] == [first, middle, third];
  }

  /**
   * After a failure, a second failure with a different error sends its own
   * notice and caches only it; when the first notice was not cached either,
   * the two cycles send both notices.
   */
  lemma DistinctFailuresBothNotify(start: Poll, first: Tick, second: Tick, error1: string, error2: string)
    requires |start.lastError| <= 1
    requires TryCycle(first.fetch) == Failure(error1)
    requires TryCycle(second.fetch) == Failure(error2)
    requires error1 != error2
    ensures Runs(start, [first, second]).sent == Runs(start, [first]).sent + [FailureNotice(error2)]
    ensures Runs(start, [first, second]).final == Poll(start.cursor, [FailureNotice(error2)])
    ensures FailureNotice(error1) !in start.lastError
            ==> Runs(start, [first, second]).sent == [FailureNotice(error1), FailureNotice(error2)]
  {
    RunsSnoc(start, [], first);
    RunsSnoc(start, [first], second);
    assert [] + [first] == [first];
    assert [first] + [second] == [first, second];
    if FailureNotice(error2) == FailureNotice(error1) {
      FailureNoticeInjective(error1, error2);
    }
  }

  /** An answer with no homeworks sends nothing, advances the cursor, and clears the remembered failure. */
  lemma EmptyAnswerAdvancesSilently(p: Poll, now: int, currentDate: int, extra: map<string, Json>)
    ensures var c := Step(p, now, Fetched(Obj(extra["homeworks" := Arr([])]["current_date" := Int(currentDate)])));
            c.sent == [] && c.next == Poll(currentDate, [])
  {
  }

  /**
   * A boolean current_date passes the int check: False becomes a zero
   * cursor, so the next cycle asks for updates from the current time.
   */
  lemma FalseCurrentDateRequestsFromNow(p: Poll, now1: int, now2: int, extra: map<string, Json>, next: Fetch)
    ensures var c := Step(p, now1, Fetched(Obj(extra["homeworks" := Arr([])]["current_date" := Bool(false)])));
            c.next == Poll(0, []) && Step(c.next, now2, next).fromDate == now2
  {
  }

  // ---------------------------------------------------------------------
  // main
  // ---------------------------------------------------------------------

  /**
   * The state main keeps between cycles, and the bot it sends through:
   * current_timestamp, previous_error_message (never more than one
   * entry), and the log of every message handed to send_message.
   */
  class Poller {
    var currentTimestamp: int
    var previousErrorMessage: seq<string>
    var sent: seq<string>

    ghost predicate Valid()
      reads this
    {
      |previousErrorMessage| <= 1
    }

    function State(): Poll
      reads this
    {
      Poll(currentTimestamp, previousErrorMessage)
    }

    /** The loop starts from the start-up time with no failure remembered and nothing sent. */
    constructor (startTime: int)
      ensures Valid()
      ensures State() == Poll(startTime, []) && sent == []
    {
      currentTimestamp := startTime;
      previousErrorMessage := [];
      sent := [];
    }

    /** send_message: delivery failures are swallowed, so the message always counts as sent. */
    method SendMessage(message: string)
      modifies this
      ensures sent == old(sent) + [message]
      ensures currentTimestamp == old(currentTimestamp) && previousErrorMessage == old(previousErrorMessage)
    {
      sent := sent + [message];
    }

    /** One pass of the while loop, returning the from_date its request used. */
    method Cycle(now: int, fetch: Fetch) returns (fromDate: int)
      requires Valid()
      modifies this
      ensures Valid()
      ensures var c := Step(old(State()), now, fetch);
              State() == c.next && sent == old(sent) + c.sent && fromDate == c.fromDate
    {
      fromDate := RequestTimestamp(currentTimestamp, now);
      var error: Option<string> := None;
      match fetch {
        case FetchFailed(reason) =>
          error := Some(reason);
        case Fetched(response) =>
          var homeworks := CheckResponse(response);
          if homeworks.Failure? {
            error := Some(Describe(homeworks.error));
          } else {
            if |homeworks.value| > 0 {
              var message := ParseStatus(homeworks.value[0]);
              if message.Failure? {
                error := Some(Describe(message.error));
              } else {
                SendMessage(message.value);
              }
            }
            if error == None {
              currentTimestamp := CurrentDate(response);
            }
          }
      }
      if error.Some? {
        var message := FailureNotice(error.value);
        if previousErrorMessage == [] || message !in previousErrorMessage {
          SendMessage(message);
          previousErrorMessage := [];
          previousErrorMessage := previousErrorMessage + [message];
        }
      } else if previousErrorMessage != [] {
        previousErrorMessage := [];
      }
    }
  }

  /** How main ends: it refuses to start without its tokens, or it runs. */
  datatype Launch = EnvVariableError | Running(trace: Trace)

  /** main over a finite run: the token check first, then the loop from the start-up time. */
  function Launched(practicumToken: Option<string>, telegramToken: Option<string>, chatId: Option<string>,
                    startTime: int, ticks: seq<Tick>): (r: Launch)
    ensures r.EnvVariableError? <==> !CheckTokens(practicumToken, telegramToken, chatId)
    ensures r.Running? ==> r.trace == Runs(Poll(startTime, []), ticks)
    ensures r.Running? ==> |r.trace.requested| == |ticks| && |r.trace.final.lastError| <= 1
    ensures r.Running? && ticks == [] ==> r.trace.sent == [] && r.trace.final == Poll(startTime, [])
  {
    if CheckTokens(practicumToken, telegramToken, chatId) then Running(Runs(Poll(startTime, []), ticks))
    else EnvVariableError
  }

  /**
   * main, for the finitely many cycles in `ticks`: without its tokens it
   * stops before any request or message; otherwise it runs every cycle.
   */
  method RunBot(practicumToken: Option<string>, telegramToken: Option<string>, chatId: Option<string>,
                startTime: int, ticks: seq<Tick>) returns (r: Launch)
    ensures r == Launched(practicumToken, telegramToken, chatId, startTime, ticks)
    ensures r.EnvVariableError? <==> !CheckTokens(practicumToken, telegramToken, chatId)
    ensures r.Running? ==> r.trace == Runs(Poll(startTime, []), ticks)
    ensures r.Running? ==> |r.trace.requested| == |ticks| && |r.trace.final.lastError| <= 1
  {
    if CheckTokens(practicumToken, telegramToken, chatId) == false {
      return EnvVariableError;
    }
    var poller := new Poller(startTime);
    var requested: seq<int> := [];
    for i := 0 to |ticks|
      invariant poller.Valid()
      invariant Trace(poller.State(), poller.sent, requested) == Runs(Poll(startTime, []), ticks[..i])
    {
      var fromDate := poller.Cycle(ticks[i].now, ticks[i].fetch);
      requested := requested + [fromDate];
      assert ticks[..i + 1][..i] == ticks[..i];
    }
    assert ticks[..|ticks|] == ticks;
    r := Running(Trace(poller.State(), poller.sent, requested));
  }
}
