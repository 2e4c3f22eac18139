/** The polling loop of `main` in homework.py as a state machine. The state is
    the watermark `timestamp` and the last notified text `prev_msg`; one
    iteration fetches, moves the watermark, validates, parses or fails, sends
    the message only if it differs from the last one, and sleeps.

    `Iterate` and `Run` specify one iteration and a bounded run as functions;
    the class `Poller` performs them step by step, and `RunBot` is `main` over
    a finite sequence of iterations. */
module Polling {
  import opened Wrappers
  import opened Values
  import opened Exceptions
  import opened Homework

  const StartMessage := "Бот начал работу"
  const StopMessage := "Отсутствует токен. Бот остановлен!"
  const NoNewStatuses := "Нет новых статусов"
  const FailurePrefix := "Сбой в работе программы: "
  const CheckLogPrefix := "Начало проверки ответа сервера "

  /** What the outside world does during one iteration: the clock read when the
      watermark is falsy (line 83), what the request came back with, the clock
      read when `current_date` is absent (line 148), and what became of a send. */
  datatype Tick = Tick(fetchClock: int, fetch: FetchOutcome, updateClock: int, delivery: Delivery)

  datatype LoopState = LoopState(timestamp: Value, prevMsg: string)

  /** The state after some iterations and the events they emitted. */
  datatype Iteration = Iteration(state: LoopState, events: seq<Event>)

  // ---------------------------------------------------------------------------
  // One iteration, specified

  /** The message the `try` block computes, or the exception it raises. A
      response that is not a dict fails at `response.get` before validation. */
  function Outcome(fetch: FetchOutcome): Result<string, Exception> {
    match Classify(fetch)
    case Err(e) => Err(e)
    case Ok(response) => Examine(response)
  }

  /** What the `try` block makes of a decoded response. */
  function Examine(response: Value): Result<string, Exception> {
    if !response.Object? then Err(NoAttributeGet(response))
    else match CheckResponse(response)
      case Err(e) => Err(e)
      case Ok(homeworks) => if |homeworks| > 0 then ParseStatus(homeworks[0]) else Ok(NoNewStatuses)
  }

  /** The watermark after the `try` block: it is reassigned at line 147 as soon
      as a dict has been fetched, whatever happens afterwards. */
  function NextWatermark(timestamp: Value, fetch: FetchOutcome, updateClock: int): Value {
    match Classify(fetch)
    case Err(_) => timestamp
    case Ok(response) =>
      if response.Object? then Lookup(response.fields, "current_date").GetOr(Num(updateClock))
      else timestamp
  }

  /** The events of the `try` block before the message is handled: the request,
      and the validator's log line once a dict has been fetched. */
  function TryEvents(timestamp: Value, fetchClock: int, fetch: FetchOutcome): seq<Event> {
    var result := Classify(fetch);
    [Request(GetApiAnswer(timestamp, fetchClock, fetch).fromDate)]
    + (if result.Ok? && result.value.Object? then [Log(Info, CheckLogPrefix + Str(result.value))] else [])
  }

  /** The text an iteration notifies: the parsed status, or the failure text. */
  function MessageOf(outcome: Result<string, Exception>): string {
    match outcome
    case Ok(m) => m
    case Err(e) => FailurePrefix + ErrorText(e)
  }

  /** The events of handling the outcome: on success, send the message if it
      is new and otherwise log it; on failure, log the failure text and send it
      if it is new. */
  function Handled(outcome: Result<string, Exception>, prevMsg: string, chatId: string, delivery: Delivery): seq<Event> {
    var message := MessageOf(outcome);
    if outcome.Ok? then
      (if message != prevMsg then SendMessage(chatId, message, delivery) else [Log(Info, message)])
    else
      [Log(Error, message)] + (if message != prevMsg then SendMessage(chatId, message, delivery) else [])
  }

  /** One pass of the loop body, `finally` included. */
  function Iterate(s: LoopState, chatId: string, t: Tick): Iteration {
    var outcome := Outcome(t.fetch);
    Iteration(LoopState(NextWatermark(s.timestamp, t.fetch, t.updateClock), MessageOf(outcome)),
              TryEvents(s.timestamp, t.fetchClock, t.fetch) + Handled(outcome, s.prevMsg, chatId, t.delivery) + [Sleep(RetryPeriod)])
  }

  /** What iteration `t` notifies; it depends on the fetch result alone. */
  function Message(t: Tick): string {
    MessageOf(Outcome(t.fetch))
  }

  // ---------------------------------------------------------------------------
  // Properties of one iteration

  lemma TryEventsQuiet(timestamp: Value, fetchClock: int, fetch: FetchOutcome)
    ensures Sent(TryEvents(timestamp, fetchClock, fetch)) == [] && Slept(TryEvents(timestamp, fetchClock, fetch)) == []
  {
    var try := TryEvents(timestamp, fetchClock, fetch);
    assert forall k :: 0 <= k < |try| ==> !try[k].Send? && !try[k].Sleep?;
    NoSendNoSleep(try);
  }

  lemma HandledSendsOnlyChanges(outcome: Result<string, Exception>, prevMsg: string, chatId: string, delivery: Delivery)
    ensures var message := MessageOf(outcome);
      && Sent(Handled(outcome, prevMsg, chatId, delivery)) == (if message != prevMsg then [message] else [])
      && Slept(Handled(outcome, prevMsg, chatId, delivery)) == []
  {
    var message := MessageOf(outcome);
    var log := if outcome.Ok? then [Log(Info, message)] else [Log(Error, message)];
    NoSendNoSleep(log);
    if !outcome.Ok? {
      var sending := if message != prevMsg then SendMessage(chatId, message, delivery) else [];
      SentAppend(log, sending);
      SleptAppend(log, sending);
    }
  }

  /** A message is sent exactly when it differs from the last notified one, in
      the success and in the failure branch alike, and afterwards it is the
      last notified one. */
  lemma IterationSendsOnlyChanges(s: LoopState, chatId: string, t: Tick)
    ensures var r := Iterate(s, chatId, t);
      && Sent(r.events) == (if Message(t) != s.prevMsg then [Message(t)] else [])
      && r.state.prevMsg == Message(t)
  {
    var try := TryEvents(s.timestamp, t.fetchClock, t.fetch);
    var handled := Handled(Outcome(t.fetch), s.prevMsg, chatId, t.delivery);
    TryEventsQuiet(s.timestamp, t.fetchClock, t.fetch);
    HandledSendsOnlyChanges(Outcome(t.fetch), s.prevMsg, chatId, t.delivery);
    assert Sent([Sleep(RetryPeriod)]) == [] by { assert [Sleep(RetryPeriod)][1..] == []; }
    SentAppend(try, handled);
    SentAppend(try + handled, [Sleep(RetryPeriod)]);
  }

  /** Every iteration, whatever its outcome, ends with exactly one sleep of the
      retry period, and sleeps nowhere else. */
  lemma IterationSleepsOnce(s: LoopState, chatId: string, t: Tick)
    ensures var r := Iterate(s, chatId, t);
      && Slept(r.events) == [RetryPeriod]
      && r.events[|r.events| - 1] == Sleep(RetryPeriod)
  {
    var try := TryEvents(s.timestamp, t.fetchClock, t.fetch);
    var handled := Handled(Outcome(t.fetch), s.prevMsg, chatId, t.delivery);
    TryEventsQuiet(s.timestamp, t.fetchClock, t.fetch);
    HandledSendsOnlyChanges(Outcome(t.fetch), s.prevMsg, chatId, t.delivery);
    assert Slept([Sleep(RetryPeriod)]) == [RetryPeriod] by { assert [Sleep(RetryPeriod)][1..] == []; }
    SleptAppend(try, handled);
    SleptAppend(try + handled, [Sleep(RetryPeriod)]);
  }

  /** A failed fetch leaves the watermark as it was, and the failure text,
      the exception's own text behind a fixed opening, becomes the last
      notified message. */
  lemma FetchFailureKeepsWatermark(s: LoopState, chatId: string, t: Tick)
    requires Classify(t.fetch).Err?
    ensures Iterate(s, chatId, t).state
         == LoopState(s.timestamp, FailurePrefix + ErrorText(Classify(t.fetch).error))
  {
  }

  /** Once a dict has been fetched the watermark becomes its `current_date`, or
      the clock when that key is absent, even if validation or parsing then
      fails. */
  lemma FetchedDictMovesWatermark(s: LoopState, chatId: string, t: Tick)
    requires t.fetch.Responded? && t.fetch.statusCode == HttpOk && t.fetch.body.Decoded?
    requires t.fetch.body.value.Object?
    ensures var r := Iterate(s, chatId, t).state.timestamp;
      && (HasKey(t.fetch.body.value, "current_date") ==> r == Lookup(t.fetch.body.value.fields, "current_date").value)
      && (!HasKey(t.fetch.body.value, "current_date") ==> r == Num(t.updateClock))
  {
  }

  /** A decoded response that is not a dict fails at `response.get` with a
      generic AttributeError, before the validator sees it, and leaves the
      watermark as it was. */
  lemma NonDictResponseFailsAtGet(s: LoopState, chatId: string, t: Tick)
    requires t.fetch.Responded? && t.fetch.statusCode == HttpOk && t.fetch.body.Decoded?
    requires !t.fetch.body.value.Object?
    ensures Outcome(t.fetch) == Err(NoAttributeGet(t.fetch.body.value))
    ensures Outcome(t.fetch).error.cls == AttributeError
    ensures Iterate(s, chatId, t).state.timestamp == s.timestamp
  {
  }

  /** Because the validator refuses an empty `homeworks` list, the branch that
      would notify 'Нет новых статусов' is never taken. */
  lemma NoNewStatusesUnreachable(fetch: FetchOutcome)
    ensures Outcome(fetch) != Ok(NoNewStatuses)
  {
    match Classify(fetch)
    case Err(_) =>
    case Ok(response) =>
      if response.Object? && CheckResponse(response).Ok? {
        var homeworks := CheckResponse(response).value;
        var parsed := ParseStatus(homeworks[0]);
        if parsed.Ok? {
          assert parsed.value[0] == StatusPrefix[0];
          assert NoNewStatuses[0] != StatusPrefix[0];
        }
      }
  }

  /** Every iteration has something to say: its message is never empty, so it
      always differs from the empty `prev_msg` the loop starts with. */
  lemma MessageNeverEmpty(t: Tick)
    ensures Message(t) != ""
  {
    var outcome := Outcome(t.fetch);
    if outcome.Ok? {
      var response := Classify(t.fetch).value;
      assert outcome == ParseStatus(CheckResponse(response).value[0]);
    }
  }

  /** What the send attempt came to does not reach the loop: the state, and the
      texts sent, are the same whether or not delivery succeeded. */
  lemma DeliveryDoesNotAffectLoop(s: LoopState, chatId: string, t: Tick, other: Delivery)
    ensures Iterate(s, chatId, t).state == Iterate(s, chatId, t.(delivery := other)).state
    ensures Sent(Iterate(s, chatId, t).events) == Sent(Iterate(s, chatId, t.(delivery := other)).events)
  {
    var t' := t.(delivery := other);
    assert t'.fetch == t.fetch && t'.updateClock == t.updateClock && t'.fetchClock == t.fetchClock;
    IterationSendsOnlyChanges(s, chatId, t);
    IterationSendsOnlyChanges(s, chatId, t');
  }

  // ---------------------------------------------------------------------------
  // A bounded run

  function Run(s: LoopState, chatId: string, ticks: seq<Tick>): Iteration
    decreases |ticks|
  {
    if ticks == [] then Iteration(s, [])
    else
      var first := Iterate(s, chatId, ticks[0]);
      var rest := Run(first.state, chatId, ticks[1..]);
      Iteration(rest.state, first.events + rest.events)
  }

  /** The messages of a run's iterations, in order. */
  function Messages(ticks: seq<Tick>): (ms: seq<string>)
    ensures |ms| == |ticks|
    ensures forall k :: 0 <= k < |ms| ==> ms[k] == Message(ticks[k])
    decreases |ticks|
  {
    if ticks == [] then [] else [Message(ticks[0])] + Messages(ticks[1..])
  }

  /** Reference definition of duplicate suppression: keep each message that
      differs from the one before it, the first compared with `prev`. */
  function Dedup(prev: string, messages: seq<string>): seq<string>
    decreases |messages|
  {
    if messages == [] then []
    else (if messages[0] != prev then [messages[0]] else []) + Dedup(messages[0], messages[1..])
  }

  /** What `Dedup` keeps never repeats itself, nor the message before the run. */
  lemma {:induction false} DedupHasNoRepeats(prev: string, messages: seq<string>)
    ensures var d := Dedup(prev, messages);
      && |d| <= |messages|
      && (|d| > 0 ==> d[0] != prev)
      && (forall i :: 0 <= i < |d| - 1 ==> d[i] != d[i + 1])
    decreases |messages|
  {
    if messages != [] {
      DedupHasNoRepeats(messages[0], messages[1..]);
    }
  }

  function Last(ms: seq<string>): string
    requires ms != []
  {
    ms[|ms| - 1]
  }

  /** A run sends exactly the deduplicated sequence of its messages, and ends
      with the last one as `prev_msg`. */
  lemma {:induction false} RunSendsDeduplicated(s: LoopState, chatId: string, ticks: seq<Tick>)
    ensures Sent(Run(s, chatId, ticks).events) == Dedup(s.prevMsg, Messages(ticks))
    ensures ticks != [] ==> Run(s, chatId, ticks).state.prevMsg == Last(Messages(ticks))
    ensures ticks == [] ==> Run(s, chatId, ticks).state == s
    decreases |ticks|
  {
    if ticks != [] {
      var first := Iterate(s, chatId, ticks[0]);
      var rest := Run(first.state, chatId, ticks[1..]);
      assert Run(s, chatId, ticks) == Iteration(rest.state, first.events + rest.events);
      var m, later := Message(ticks[0]), Messages(ticks[1..]);
      assert Messages(ticks) == [m] + later;
      assert ([m] + later)[0] == m && ([m] + later)[1..] == later;
      assert Dedup(s.prevMsg, Messages(ticks)) == (if m != s.prevMsg then [m] else []) + Dedup(m, later);
      IterationSendsOnlyChanges(s, chatId, ticks[0]);
      RunSendsDeduplicated(first.state, chatId, ticks[1..]);
      SentAppend(first.events, rest.events);
      if ticks[1..] != [] {
        assert Last([m] + later) == Last(later);
      }
    }
  }

  /** A run sleeps once per iteration, for the retry period each time. */
  lemma {:induction false} RunSleepsEveryIteration(s: LoopState, chatId: string, ticks: seq<Tick>)
    ensures Slept(Run(s, chatId, ticks).events) == seq(|ticks|, _ => RetryPeriod)
    decreases |ticks|
  {
    if ticks != [] {
      var first := Iterate(s, chatId, ticks[0]);
      var rest := Run(first.state, chatId, ticks[1..]);
      assert Run(s, chatId, ticks) == Iteration(rest.state, first.events + rest.events);
      IterationSleepsOnce(s, chatId, ticks[0]);
      RunSleepsEveryIteration(first.state, chatId, ticks[1..]);
      SleptAppend(first.events, rest.events);
      assert [RetryPeriod] + seq(|ticks| - 1, _ => RetryPeriod) == seq(|ticks|, _ => RetryPeriod);
    }
  }

  /** Running one more iteration extends the run. */
  lemma {:induction false} RunAppend(s: LoopState, chatId: string, ticks: seq<Tick>, t: Tick)
    ensures var before := Run(s, chatId, ticks);
      var step := Iterate(before.state, chatId, t);
      Run(s, chatId, ticks + [t]) == Iteration(step.state, before.events + step.events)
    decreases |ticks|
  {
    if ticks == [] {
      assert ticks + [t] == [t];
      assert [t][1..] == [];
    } else {
      var first := Iterate(s, chatId, ticks[0]);
      assert (ticks + [t])[0] == ticks[0];
      assert (ticks + [t])[1..] == ticks[1..] + [t];
      RunAppend(first.state, chatId, ticks[1..], t);
      var rest := Run(first.state, chatId, ticks[1..]);
      var step := Iterate(rest.state, chatId, t);
      assert Run(s, chatId, ticks) == Iteration(rest.state, first.events + rest.events);
      EventsAssoc(first.events, rest.events, step.events);
    }
  }

  /** Suppression over a message repeated once, then followed by a new one. */
  lemma DedupRepeat(prev: string, a: string, b: string)
    requires a != prev && b != a
    ensures Dedup(prev, [a, a, b]) == [a, b]
  {
    assert [b][1..] == [];
    assert Dedup(a, [b]) == [b];
    assert [a, b][1..] == [b];
    assert Dedup(a, [a, b]) == [b];
    assert [a, a, b][1..] == [a, b];
  }

  lemma MessagesOfThree(t1: Tick, t2: Tick, t3: Tick)
    ensures Messages([t1, t2, t3]) == [Message(t1), Message(t2), Message(t3)]
  {
    assert [t3][1..] == [];
    assert Messages([t3]) == [Message(t3)];
    assert [t2, t3][1..] == [t3];
    assert Messages([t2, t3]) == [Message(t2), Message(t3)];
    assert [t1, t2, t3][1..] == [t2, t3];
  }

  /** `RunAppend` for a prefix of a given sequence of ticks. */
  lemma RunPrefix(s: LoopState, chatId: string, ticks: seq<Tick>, i: nat)
    requires i < |ticks|
    ensures var before := Run(s, chatId, ticks[..i]);
      var step := Iterate(before.state, chatId, ticks[i]);
      Run(s, chatId, ticks[..i + 1]) == Iteration(step.state, before.events + step.events)
  {
    assert ticks[..i + 1] == ticks[..i] + [ticks[i]];
    RunAppend(s, chatId, ticks[..i], ticks[i]);
  }

  /** Two iterations that meet the same fetch result produce one send between
      them, and a third with a different message produces another. */
  lemma RepeatedMessageSentOnce(s: LoopState, chatId: string, t1: Tick, t2: Tick, t3: Tick)
    requires t1.fetch == t2.fetch
    requires Message(t1) != s.prevMsg
    requires Message(t3) != Message(t1)
    ensures Sent(Run(s, chatId, [t1, t2, t3]).events) == [Message(t1), Message(t3)]
  {
    MessagesOfThree(t1, t2, t3);
    assert Message(t2) == Message(t1);
    DedupRepeat(s.prevMsg, Message(t1), Message(t3));
    RunSendsDeduplicated(s, chatId, [t1, t2, t3]);
  }

  /** The documented scenario: the same transport failure twice, then a 500. */
  lemma RepeatedFailureScenario(chatId: string, clock: int, d: Delivery)
    ensures var timeout := Tick(clock, TransportFailure("timeout"), clock, d);
      var status500 := Tick(clock, Responded(500, Undecodable("")), clock, d);
      Sent(Run(LoopState(Num(clock), ""), chatId, [timeout, timeout, status500]).events)
        == [FailurePrefix + RequestErrorPrefix + "timeout", FailurePrefix + Non200Message(500)]
  {
    var timeout := Tick(clock, TransportFailure("timeout"), clock, d);
    var status500 := Tick(clock, Responded(500, Undecodable("")), clock, d);
    var m1 := FailurePrefix + RequestErrorPrefix + "timeout";
    var m3 := FailurePrefix + Non200Message(500);
    assert Message(timeout) == m1;
    assert Message(status500) == m3;
    assert m1[|FailurePrefix|] == RequestErrorPrefix[0] != Non200Prefix[0] == m3[|FailurePrefix|];
    RepeatedMessageSentOnce(LoopState(Num(clock), ""), chatId, timeout, timeout, status500);
  }

  // ---------------------------------------------------------------------------
  // main

  /** How `main` ends up: stopped at start-up, or polling in some state. */
  datatype Session =
    | Stopped(exitMessage: string, events: seq<Event>)
    | Polling(state: LoopState, events: seq<Event>)

  /** Lines 137-141: the start notice, sent outside duplicate suppression. */
  function StartEvents(chatId: string, delivery: Delivery): seq<Event> {
    SendMessage(chatId, StartMessage, delivery) + [Log(Info, StartMessage)]
  }

  /** `main` over a finite sequence of iterations. */
  function BotSession(settings: Settings, startClock: int, startDelivery: Delivery, ticks: seq<Tick>): Session {
    if !AllPresent(settings) then Stopped(StopMessage, StopEvents(settings))
    else
      Started(settings.telegramChatId.value, startClock, startDelivery, ticks)
  }

  /** The bot once the settings are in place: the start notice, then the run. */
  function Started(chatId: string, startClock: int, startDelivery: Delivery, ticks: seq<Tick>): Session {
    var run := Run(LoopState(Num(startClock), ""), chatId, ticks);
    Polling(run.state, StartEvents(chatId, startDelivery) + run.events)
  }

  /** Lines 133-136: a critical line per missing setting, the stop notice,
      and the exit. */
  function StopEvents(settings: Settings): seq<Event> {
    MissingLogs(settings) + [Log(Critical, StopMessage), Exit(StopMessage)]
  }

  /** With a setting missing the bot stops before the loop: it logs one critical
      line per missing setting, in order, then the stop notice, and exits; it
      never requests, sends or sleeps. */
  lemma MissingSettingStopsBot(settings: Settings, startClock: int, startDelivery: Delivery, ticks: seq<Tick>)
    requires !AllPresent(settings)
    ensures var r := BotSession(settings, startClock, startDelivery, ticks);
      && r.Stopped? && r.exitMessage == StopMessage
      && r.events[..|MissingNames(settings)|] == MissingLogs(settings)
      && r.events[|MissingNames(settings)|..] == [Log(Critical, StopMessage), Exit(StopMessage)]
      && |MissingNames(settings)| > 0
      && Sent(r.events) == [] && Slept(r.events) == []
      && (forall k :: 0 <= k < |r.events| ==> !r.events[k].Request? && !r.events[k].Send?)
  {
    StopEventsQuiet(settings);
  }

  lemma StopEventsQuiet(settings: Settings)
    ensures var events := StopEvents(settings);
      && events[..|MissingNames(settings)|] == MissingLogs(settings)
      && events[|MissingNames(settings)|..] == [Log(Critical, StopMessage), Exit(StopMessage)]
      && Sent(events) == [] && Slept(events) == []
      && (forall k :: 0 <= k < |events| ==> events[k].Log? || events[k].Exit?)
  {
    var logs := MissingLogs(settings);
    var tail := [Log(Critical, StopMessage), Exit(StopMessage)];
    var events := logs + tail;
    assert events[..|logs|] == logs;
    assert events[|logs|..] == tail;
    assert forall k :: 0 <= k < |logs| ==> logs[k].Log?;
    assert forall k :: 0 <= k < |events| ==> events[k].Log? || events[k].Exit? by {
      forall k | 0 <= k < |events|
        ensures events[k].Log? || events[k].Exit?
      {
        if k < |logs| { assert events[k] == logs[k]; } else { assert events[k] == tail[k - |logs|]; }
      }
    }
    NoSendNoSleep(logs);
    NoSendNoSleep(tail);
    SentAppend(logs, tail);
    SleptAppend(logs, tail);
  }

  /** Helper for `TryEventsQuiet` and `StopEventsQuiet`: a trace without send
      and sleep events projects to no sends and no sleeps. */
  lemma {:induction false} NoSendNoSleep(events: seq<Event>)
    requires forall k :: 0 <= k < |events| ==> !events[k].Send? && !events[k].Sleep?
    ensures Sent(events) == [] && Slept(events) == []
    decreases |events|
  {
    if events != [] {
      NoSendNoSleep(events[1..]);
    }
  }

  /** With all settings present the bot announces its start, then sends exactly
      the deduplicated messages of its iterations, the first of them always,
      and sleeps the retry period once per iteration. */
  lemma StartedBotPolls(settings: Settings, startClock: int, startDelivery: Delivery, ticks: seq<Tick>)
    requires AllPresent(settings)
    ensures var r := BotSession(settings, startClock, startDelivery, ticks);
      var messages := Messages(ticks);
      && r.Polling?
      && Sent(r.events) == [StartMessage] + Dedup("", messages)
      && (ticks != [] ==> |Sent(r.events)| > 1 && Sent(r.events)[1] == Message(ticks[0]))
      && Slept(r.events) == seq(|ticks|, _ => RetryPeriod)
  {
    var chatId := settings.telegramChatId.value;
    var s := LoopState(Num(startClock), "");
    var run := Run(s, chatId, ticks);
    assert BotSession(settings, startClock, startDelivery, ticks)
        == Polling(run.state, StartEvents(chatId, startDelivery) + run.events);
    StartEventsSendOnce(chatId, startDelivery);
    SentAppend(StartEvents(chatId, startDelivery), run.events);
    SleptAppend(StartEvents(chatId, startDelivery), run.events);
    RunSendsDeduplicated(s, chatId, ticks);
    RunSleepsEveryIteration(s, chatId, ticks);
    if ticks != [] {
      MessageNeverEmpty(ticks[0]);
      var messages := Messages(ticks);
      assert messages[0] == Message(ticks[0]);
      assert Dedup("", messages) == [messages[0]] + Dedup(messages[0], messages[1..]);
    }
  }

  /** The start notice is sent whatever becomes of it, and nothing sleeps. */
  lemma StartEventsSendOnce(chatId: string, delivery: Delivery)
    ensures Sent(StartEvents(chatId, delivery)) == [StartMessage]
    ensures Slept(StartEvents(chatId, delivery)) == []
  {
    assert Sent([Log(Info, StartMessage)]) == [] && Slept([Log(Info, StartMessage)]) == [] by {
      assert [Log(Info, StartMessage)][1..] == [];
    }
    SentAppend(SendMessage(chatId, StartMessage, delivery), [Log(Info, StartMessage)]);
    SleptAppend(SendMessage(chatId, StartMessage, delivery), [Log(Info, StartMessage)]);
  }

  // ---------------------------------------------------------------------------
  // The loop, step by step

  /** The bot's loop state, updated in place by each iteration. */
  class Poller {
    const chatId: string
    var timestamp: Value
    var prevMsg: string
    /** Everything observable the bot has done so far. */
    var trace: seq<Event>

    function State(): LoopState
      reads this
    {
      LoopState(timestamp, prevMsg)
    }

    /** Lines 137-142: the watermark starts at the clock, the start notice is
        sent, and `prev_msg` starts empty. */
    constructor (chatId: string, clock: int, delivery: Delivery)
      ensures this.chatId == chatId
      ensures State() == LoopState(Num(clock), "")
      ensures trace == StartEvents(chatId, delivery)
    {
      this.chatId := chatId;
      timestamp := Num(clock);
      trace := SendMessage(chatId, StartMessage, delivery) + [Log(Info, StartMessage)];
      prevMsg := "";
    }

    /** The `try` block up to the message: fetch, move the watermark once a
        dict has been fetched, validate, and parse the first homework. */
    method Try(t: Tick) returns (outcome: Result<string, Exception>)
      modifies this
      ensures outcome == Outcome(t.fetch)
      ensures timestamp == NextWatermark(old(timestamp), t.fetch, t.updateClock)
      ensures prevMsg == old(prevMsg)
      ensures trace == old(trace) + TryEvents(old(timestamp), t.fetchClock, t.fetch)
    {
      var answer := GetApiAnswer(timestamp, t.fetchClock, t.fetch);
      trace := trace + [Request(answer.fromDate)];
      match answer.result {
        case Err(e) =>
          outcome := Err(e);
        case Ok(response) =>
          if !response.Object? {
            outcome := Err(NoAttributeGet(response));
          } else {
            timestamp := Lookup(response.fields, "current_date").GetOr(Num(t.updateClock));
            trace := trace + [Log(Info, CheckLogPrefix + Str(response))];
            match CheckResponse(response) {
              case Err(e) =>
                outcome := Err(e);
              case Ok(homeworks) =>
                if |homeworks| > 0 {
                  outcome := ParseStatus(homeworks[0]);
                } else {
                  outcome := Ok(NoNewStatuses);
                }
            }
          }
      }
    }

    /** The rest of the `try` block and the `except` block: notify the
        message if it is new, otherwise log it. */
    method Notify(outcome: Result<string, Exception>, delivery: Delivery)
      modifies this
      ensures timestamp == old(timestamp)
      ensures prevMsg == MessageOf(outcome)
      ensures trace == old(trace) + Handled(outcome, old(prevMsg), chatId, delivery)
    {
      match outcome {
        case Ok(message) =>
          if message != prevMsg {
            trace := trace + SendMessage(chatId, message, delivery);
            prevMsg := message;
          } else {
            trace := trace + [Log(Info, message)];
          }
        // the `except` branch: the failure text
        case Err(error) =>
          var message := FailurePrefix + ErrorText(error);
          trace := trace + [Log(Error, message)];
          if message != prevMsg {
            trace := trace + SendMessage(chatId, message, delivery);
            prevMsg := message;
          }
      }
    }

    /** One pass of the loop body: try, except, finally. */
    method Step(t: Tick)
      modifies this
      ensures State() == Iterate(old(State()), chatId, t).state
      ensures trace == old(trace) + Iterate(old(State()), chatId, t).events
    {
      ghost var before := State();
      ghost var trace0 := trace;
      var outcome := Try(t);
      ghost var try := TryEvents(before.timestamp, t.fetchClock, t.fetch);
      ghost var afterTry := trace;
      Notify(outcome, t.delivery);
      ghost var handled := Handled(outcome, before.prevMsg, chatId, t.delivery);
      ghost var afterNotify := trace;
      // the `finally` clause
      trace := trace + [Sleep(RetryPeriod)];
      EventsAssoc(trace0, try, handled);
      EventsAssoc(trace0, try + handled, [Sleep(RetryPeriod)]);
    }

    /** `while True` cut down to one pass per tick. */
    method Loop(ticks: seq<Tick>)
      modifies this
      ensures State() == Run(old(State()), chatId, ticks).state
      ensures trace == old(trace) + Run(old(State()), chatId, ticks).events
    {
      ghost var start := State();
      ghost var trace0 := trace;
      ghost var run := Iteration(start, []);
      for i := 0 to |ticks|
        invariant run == Run(start, chatId, ticks[..i])
        invariant State() == run.state
        invariant trace == trace0 + run.events
      {
        ghost var step := Iterate(run.state, chatId, ticks[i]);
        RunPrefix(start, chatId, ticks, i);
        Step(ticks[i]);
        EventsAssoc(trace0, run.events, step.events);
        run := Iteration(step.state, run.events + step.events);
      }
      assert ticks[..|ticks|] == ticks;
    }
  }

  lemma EventsAssoc(a: seq<Event>, b: seq<Event>, c: seq<Event>)
    ensures a + (b + c) == (a + b) + c
  {
  }

  /** `main` over a finite sequence of iterations: check the settings, stop if
      one is missing, otherwise start the bot and run one loop pass per tick. */
  method RunBot(settings: Settings, startClock: int, startDelivery: Delivery, ticks: seq<Tick>)
    returns (session: Session)
    ensures session == BotSession(settings, startClock, startDelivery, ticks)
  {
    var ok, logs := CheckTokens(settings);
    if !ok {
      session := Stopped(StopMessage, logs + [Log(Critical, StopMessage), Exit(StopMessage)]);
      return;
    }
    var poller := new Poller(settings.telegramChatId.value, startClock, startDelivery);
    poller.Loop(ticks);
    session := Polling(poller.State(), poller.trace);
  }
}
