/** The building blocks of the notifier in homework.py: its constants, the
    credential check, message dispatch, the classification of a fetch, the
    response validator and the status parser. The polling loop that puts them
    together is in module Polling.

    The foreign calls are not modelled but given: what `requests.get` and
    `.json()` did is a `FetchOutcome`, what `bot.send_message` did is a
    `Delivery`, and every log line, request, send, sleep and exit becomes an
    `Event` of a trace. */
module Homework {
  import opened Wrappers
  import opened Values
  import opened Exceptions

  const RetryPeriod := 600
  const Endpoint := "https://practicum.yandex.ru/api/user_api/homework_statuses/"
  /** `HTTPStatus.OK`. */
  const HttpOk := 200

  /** The verdict text shown for each documented review status. */
  const HomeworkVerdicts: map<string, string> := map[
    "approved" := "Работа проверена: ревьюеру всё понравилось. Ура!",
    "reviewing" := "Работа взята на проверку ревьюером.",
    "rejected" := "Работа проверена: у ревьюера есть замечания."
  ]

  // ---------------------------------------------------------------------------
  // The trace of observable effects

  datatype Level = Debug | Info | Error | Critical

  datatype Event =
    | Log(level: Level, text: string)
    /** `requests.get` on the endpoint with query parameter `from_date`. */
    | Request(fromDate: Value)
    /** `bot.send_message(chat_id, text)`, whether or not it was delivered. */
    | Send(chatId: string, text: string)
    | Sleep(seconds: int)
    /** `sys.exit(message)`. */
    | Exit(message: string)

  /** The texts handed to the messaging client, in order. */
  function Sent(events: seq<Event>): seq<string>
    decreases |events|
  {
    if events == [] then []
    else (if events[0].Send? then [events[0].text] else []) + Sent(events[1..])
  }

  /** The durations slept, in order. */
  function Slept(events: seq<Event>): seq<int>
    decreases |events|
  {
    if events == [] then []
    else (if events[0].Sleep? then [events[0].seconds] else []) + Slept(events[1..])
  }

  lemma {:induction false} SentAppend(a: seq<Event>, b: seq<Event>)
    ensures Sent(a + b) == Sent(a) + Sent(b)
    decreases |a|
  {
    if a == [] {
      assert a + b == b;
    } else {
      assert (a + b)[0] == a[0];
      assert (a + b)[1..] == a[1..] + b;
      SentAppend(a[1..], b);
    }
  }

  lemma {:induction false} SleptAppend(a: seq<Event>, b: seq<Event>)
    ensures Slept(a + b) == Slept(a) + Slept(b)
    decreases |a|
  {
    if a == [] {
      assert a + b == b;
    } else {
      assert (a + b)[0] == a[0];
      assert (a + b)[1..] == a[1..] + b;
      SleptAppend(a[1..], b);
    }
  }

  // ---------------------------------------------------------------------------
  // check_tokens

  /** The three settings read from the environment; `None` when unset. */
  datatype Settings = Settings(
    practicumToken: Option<string>,
    telegramToken: Option<string>,
    telegramChatId: Option<string>)

  const PracticumTokenName := "PRACTICUM_TOKEN"
  const TelegramTokenName := "TELEGRAM_TOKEN"
  const TelegramChatIdName := "TELEGRAM_CHAT_ID"
  const SettingNames: seq<string> := [PracticumTokenName, TelegramTokenName, TelegramChatIdName]

  const NoTokensMsg := "Программа принудительно остановлена. Отсутствует обязательная переменная окружения:"

  /** The settings in the order of `SettingNames`. */
  function SettingValues(s: Settings): (vs: seq<Option<string>>)
    ensures |vs| == |SettingNames|
  {
    [s.practicumToken, s.telegramToken, s.telegramChatId]
  }

  predicate AllPresent(s: Settings) {
    s.practicumToken.Some? && s.telegramToken.Some? && s.telegramChatId.Some?
  }

  /** Where a setting stands in the order of checking. */
  function Position(name: string): nat {
    if name == SettingNames[0] then 0 else if name == SettingNames[1] then 1 else 2
  }

  /** The names of the unset settings, in the order they are checked. */
  function MissingNames(s: Settings): (r: seq<string>)
    ensures r == [] <==> AllPresent(s)
  {
    IfUnset(s.practicumToken, PracticumTokenName)
    + IfUnset(s.telegramToken, TelegramTokenName)
    + IfUnset(s.telegramChatId, TelegramChatIdName)
  }

  lemma PositionsOfNames()
    ensures Position(PracticumTokenName) == 0
    ensures Position(TelegramTokenName) == 1
    ensures Position(TelegramChatIdName) == 2
  {
    assert TelegramTokenName[0] != PracticumTokenName[0];
    assert TelegramChatIdName[0] != PracticumTokenName[0];
    assert TelegramChatIdName[9] != TelegramTokenName[9];
  }

  /** Exactly the unset settings are reported, each once, in the order of
      checking. */
  lemma MissingNamesExactly(s: Settings)
    ensures var r := MissingNames(s);
      && (forall k :: 0 <= k < |r| ==> r[k] in SettingNames)
      && (forall i :: 0 <= i < |SettingNames| ==> (SettingNames[i] in r <==> SettingValues(s)[i].None?))
      && (forall k, l :: 0 <= k < l < |r| ==> Position(r[k]) < Position(r[l]))
  {
    PositionsOfNames();
    var p, t, c := PracticumTokenName, TelegramTokenName, TelegramChatIdName;
    assert p != t && p != c && t != c;
    var a, b, d := IfUnset(s.practicumToken, p), IfUnset(s.telegramToken, t), IfUnset(s.telegramChatId, c);
    var r := a + b + d;
    assert forall k :: 0 <= k < |r| ==> r[k] == (if k < |a| then p else if k < |a| + |b| then t else c);
    assert |r| == |a| + |b| + |d|;
    assert p in r <==> |a| == 1;
    assert t in r <==> |b| == 1;
    assert c in r <==> |d| == 1;
  }

  /** `name` if its setting is unset. */
  function IfUnset(value: Option<string>, name: string): seq<string> {
    if value.None? then [name] else []
  }

  /** The critical line that reports one unset setting. */
  function MissingLog(name: string): Event {
    Log(Critical, NoTokensMsg + " " + name)
  }

  /** One critical line per name, in order. */
  function LogsFor(names: seq<string>): (logs: seq<Event>)
    ensures |logs| == |names|
    ensures forall k :: 0 <= k < |logs| ==> logs[k] == MissingLog(names[k])
    decreases |names|
  {
    if names == [] then [] else [MissingLog(names[0])] + LogsFor(names[1..])
  }

  lemma {:induction false} LogsForAppend(a: seq<string>, b: seq<string>)
    ensures LogsFor(a + b) == LogsFor(a) + LogsFor(b)
  {
    assert LogsFor(a + b) == LogsFor(a) + LogsFor(b) by {
      assert forall k :: 0 <= k < |a + b| ==> (a + b)[k] == (if k < |a| then a[k] else b[k - |a|]);
    }
  }

  /** One critical line per unset setting, in the order they are checked. */
  function MissingLogs(s: Settings): (logs: seq<Event>)
    ensures |logs| == |MissingNames(s)|
    ensures forall k :: 0 <= k < |logs| ==> logs[k] == MissingLog(MissingNames(s)[k])
  {
    LogsFor(MissingNames(s))
  }

  /** Reports whether all three settings are set, logging one critical line
      for each one that is not. */
  method CheckTokens(s: Settings) returns (tokensBool: bool, logs: seq<Event>)
    ensures tokensBool <==> AllPresent(s)
    ensures tokensBool <==> logs == []
    ensures logs == MissingLogs(s)
  {
    tokensBool := true;
    logs := [];
    if s.practicumToken.None? {
      tokensBool := false;
      logs := logs + [MissingLog(PracticumTokenName)];
    }
    ghost var first := IfUnset(s.practicumToken, PracticumTokenName);
    assert logs == LogsFor(first);
    if s.telegramToken.None? {
      tokensBool := false;
      logs := logs + [MissingLog(TelegramTokenName)];
    }
    ghost var second := IfUnset(s.telegramToken, TelegramTokenName);
    assert logs == LogsFor(first) + LogsFor(second);
    if s.telegramChatId.None? {
      tokensBool := false;
      logs := logs + [MissingLog(TelegramChatIdName)];
    }
    ghost var third := IfUnset(s.telegramChatId, TelegramChatIdName);
    assert logs == LogsFor(first) + LogsFor(second) + LogsFor(third);
    LogsForAppend(first, second);
    LogsForAppend(first + second, third);
  }

  // ---------------------------------------------------------------------------
  // send_message

  /** What the messaging client did with one message. */
  datatype Delivery = Delivered | Undelivered(reason: string)

  /** Hands `message` to the messaging client once. A delivery failure is
      logged and goes no further: the result is a trace, not an exception. */
  function SendMessage(chatId: string, message: string, delivery: Delivery): (events: seq<Event>)
    ensures Sent(events) == [message]
    ensures Slept(events) == []
    ensures Send(chatId, message) in events
    ensures delivery.Undelivered? ==> Log(Error, "Произошла ошибка при отправке сообщения " + delivery.reason) in events
  {
    var outcome := match delivery
      case Delivered => [Log(Info, "Сообщение отправлено")]
      case Undelivered(reason) => [Log(Error, "Произошла ошибка при отправке сообщения " + reason)];
    var events := [Log(Debug, "Отправка сообщения - \"" + message + "\" в Телеграм"), Send(chatId, message)] + outcome;
    assert outcome[1..] == [] && Sent(outcome) == [] && Slept(outcome) == [];
    assert events[2..] == outcome;
    assert Sent(events[1..]) == [message] && Slept(events[1..]) == [];
    events
  }

  // ---------------------------------------------------------------------------
  // get_api_answer

  /** What `.json()` made of the body. */
  datatype Body = Decoded(value: Value) | Undecodable(detail: string)

  /** What `requests.get` came back with: a transport exception (its text),
      or a status code and a body. */
  datatype FetchOutcome = TransportFailure(detail: string) | Responded(statusCode: int, body: Body)

  /** The query parameter sent and the decoded response or the exception raised. */
  datatype Answer = Answer(fromDate: Value, result: Result<Value, Exception>)

  const Non200Prefix := "API " + Endpoint + " недоступен, код ошибки "
  const RequestErrorPrefix := "Ошибка в запросе API: "
  const JsonErrorPrefix := "Ошибка json: "

  /** How `get_api_answer` classifies what the request came back with: a
      status other than 200 raises TheAnswerIsNot200Error naming the endpoint
      and the code; a transport exception becomes RequestExceptionError and an
      undecodable body JSONDecoderError, each carrying the underlying text;
      otherwise the decoded body is returned. */
  function Classify(outcome: FetchOutcome): (r: Result<Value, Exception>)
    ensures r.Ok? <==> outcome.Responded? && outcome.statusCode == HttpOk && outcome.body.Decoded?
    ensures r.Ok? ==> r.value == outcome.body.value
    ensures outcome.TransportFailure? ==>
      r == Err(Exception(RequestExceptionError, Some(RequestErrorPrefix + outcome.detail)))
    ensures outcome.Responded? && outcome.statusCode != HttpOk ==>
      r == Err(Exception(TheAnswerIsNot200Error, Some(Non200Message(outcome.statusCode))))
    ensures outcome.Responded? && outcome.statusCode == HttpOk && outcome.body.Undecodable? ==>
      r == Err(Exception(JSONDecoderError, Some(JsonErrorPrefix + outcome.body.detail)))
  {
    match outcome
    case TransportFailure(detail) =>
      Err(Exception(RequestExceptionError, Some(RequestErrorPrefix + detail)))
    case Responded(code, body) =>
      if code != HttpOk then Err(Exception(TheAnswerIsNot200Error, Some(Non200Message(code))))
      else match body
        case Undecodable(detail) => Err(Exception(JSONDecoderError, Some(JsonErrorPrefix + detail)))
        case Decoded(v) => Ok(v)
  }

  /** One call of `get_api_answer(timestamp)`: a falsy watermark is replaced
      by the clock in the query, and the outcome of the request is classified. */
  function GetApiAnswer(timestamp: Value, clock: int, outcome: FetchOutcome): (a: Answer)
    ensures Truthy(timestamp) ==> a.fromDate == timestamp
    ensures !Truthy(timestamp) ==> a.fromDate == Num(clock)
    ensures a.result == Classify(outcome)
  {
    Answer(if Truthy(timestamp) then timestamp else Num(clock), Classify(outcome))
  }

  /** The text of TheAnswerIsNot200Error: the endpoint, then the code. */
  function Non200Message(code: int): string {
    Non200Prefix + IntToString(code)
  }

  /** The status code a TheAnswerIsNot200Error message reports, read back
      from its text: the message names the endpoint and then the code. */
  function StatusCodeIn(message: string): Option<int> {
    if |message| > |Non200Prefix| && message[..|Non200Prefix|] == Non200Prefix then
      var digits := message[|Non200Prefix|..];
      if (digits[0] == '-' ==> |digits| > 1 && AllDigits(digits[1..])) && (digits[0] != '-' ==> AllDigits(digits))
      then Some(ParseInt(digits))
      else None
    else None
  }

  /** The message names the endpoint, and the status code can be read back from it. */
  lemma Non200MessageReportsCode(code: int)
    ensures var m := Non200Message(code);
      && |m| > |Non200Prefix| && m[..|Non200Prefix|] == Non200Prefix
      && ("API " + Endpoint) <= m
      && StatusCodeIn(m) == Some(code)
  {
    var m := Non200Message(code);
    assert m[|Non200Prefix|..] == IntToString(code);
    assert m[..|Non200Prefix|] == Non200Prefix;
    assert ("API " + Endpoint) <= Non200Prefix;
    ParseIntToString(code);
  }

  /** Distinct status codes give distinct failure texts. */
  lemma Non200MessagesDiffer(a: int, b: int)
    requires a != b
    ensures Non200Message(a) != Non200Message(b)
  {
    Non200MessageReportsCode(a);
    Non200MessageReportsCode(b);
  }

  // ---------------------------------------------------------------------------
  // check_response

  const NotADictMsg := "Ответ от API не является словарём"
  const NotAListMsg := "В ключе \"homeworks\" нет списка"
  const EmptyListMsg := "В ключе \"homeworks\" нет значений"

  function MissingKeysMsg(response: Value): string {
    "Ключи \"homeworks\" и \"current_date\" не найден в " + Str(response)
  }

  predicate HasKey(v: Value, key: string) {
    v.Object? && Lookup(v.fields, key).Some?
  }

  /** The `homeworks` list of a response, when it has one. */
  predicate HasHomeworkList(v: Value) {
    HasKey(v, "homeworks") && Lookup(v.fields, "homeworks").value.Array?
  }

  /** Checks the shape of a decoded response, in a fixed order, and returns
      its `homeworks` list. */
  function CheckResponse(response: Value): (r: Result<seq<Value>, Exception>)
    ensures !response.Object? ==> r == Err(Exception(TypeError, Some(NotADictMsg)))
    ensures response.Object? && !(HasKey(response, "homeworks") && HasKey(response, "current_date")) ==>
      r == Err(Exception(KeyError, Some(MissingKeysMsg(response))))
    ensures HasKey(response, "homeworks") && HasKey(response, "current_date") && !HasHomeworkList(response) ==>
      r == Err(Exception(TypeError, Some(NotAListMsg)))
    ensures HasKey(response, "current_date") && HasHomeworkList(response)
            && Lookup(response.fields, "homeworks").value.items == [] ==>
      r == Err(Exception(KeyError, Some(EmptyListMsg)))
    ensures r.Ok? <==> HasKey(response, "current_date") && HasHomeworkList(response)
                       && Lookup(response.fields, "homeworks").value.items != []
    ensures r.Ok? ==> r.value == Lookup(response.fields, "homeworks").value.items && |r.value| > 0
  {
    if !response.Object? then Err(Exception(TypeError, Some(NotADictMsg)))
    else
      var homeworks := Lookup(response.fields, "homeworks");
      if homeworks.None? || Lookup(response.fields, "current_date").None? then
        Err(Exception(KeyError, Some(MissingKeysMsg(response))))
      else if !homeworks.value.Array? then Err(Exception(TypeError, Some(NotAListMsg)))
      else if homeworks.value.items == [] then Err(Exception(KeyError, Some(EmptyListMsg)))
      else Ok(homeworks.value.items)
  }

  // ---------------------------------------------------------------------------
  // parse_status

  const StatusPrefix := "Изменился статус проверки работы \""

  /** `homework.get("homework_name", None)` on a dict. */
  function HomeworkName(homework: Value): Value
    requires homework.Object?
  {
    Lookup(homework.fields, "homework_name").GetOr(Null)
  }

  /** `homework.get("status", None)` on a dict. */
  function HomeworkStatus(homework: Value): Value
    requires homework.Object?
  {
    Lookup(homework.fields, "status").GetOr(Null)
  }

  /** A status that has an entry in the verdict table. */
  predicate Documented(status: Value) {
    status.Text? && status.s in HomeworkVerdicts
  }

  /** Looks the submission's status up in the verdict table and fills the
      notification sentence with its name and verdict. */
  function ParseStatus(homework: Value): (r: Result<string, Exception>)
    ensures r.Ok? <==> homework.Object? && HomeworkName(homework) != Null && Documented(HomeworkStatus(homework))
    ensures r.Ok? ==>
      r.value == StatusPrefix + Str(HomeworkName(homework)) + "\". " + HomeworkVerdicts[HomeworkStatus(homework).s]
    ensures !homework.Object? ==> r == Err(NoAttributeGet(homework))
    ensures homework.Object? && HomeworkName(homework) == Null ==>
      r == Err(Exception(UndocumentedStatusError, None))
    ensures homework.Object? && HomeworkName(homework) != Null && !Documented(HomeworkStatus(homework)) ==>
      r == (if HomeworkStatus(homework).Array? || HomeworkStatus(homework).Object?
            then Err(Unhashable(HomeworkStatus(homework)))
            else Err(Exception(UndocumentedStatusError, None)))
  {
    if !homework.Object? then Err(NoAttributeGet(homework))
    else
      var name := HomeworkName(homework);
      var status := HomeworkStatus(homework);
      if name == Null then Err(Exception(UndocumentedStatusError, None))
      else if status.Array? || status.Object? then Err(Unhashable(status))
      else if !(status.Text? && status.s in HomeworkVerdicts) then Err(Exception(UndocumentedStatusError, None))
      else Ok(StatusPrefix + Str(name) + "\". " + HomeworkVerdicts[status.s])
  }

  /** The notification names the submission: its name can be read back from
      the sentence, right after the fixed opening. */
  lemma StatusMessageNamesHomework(homework: Value)
    requires ParseStatus(homework).Ok?
    ensures var m, name := ParseStatus(homework).value, Str(HomeworkName(homework));
      && |m| > |StatusPrefix| + |name|
      && m[..|StatusPrefix|] == StatusPrefix
      && m[|StatusPrefix|..|StatusPrefix| + |name|] == name
  {
    var name := Str(HomeworkName(homework));
    var verdict := HomeworkVerdicts[HomeworkStatus(homework).s];
    assert ParseStatus(homework).value == StatusPrefix + name + "\". " + verdict;
    Slices(StatusPrefix, name, "\". " + verdict);
  }

  lemma Slices(a: string, b: string, c: string)
    ensures a + b + c == a + (b + c)
    ensures (a + b + c)[..|a|] == a
    ensures (a + b + c)[|a|..|a| + |b|] == b
    ensures (a + b + c)[|a| + |b|..] == c
  {
  }

  /** For one submission name, distinct documented statuses give distinct
      notifications, so a change of verdict is always announced. */
  lemma StatusMessageDeterminesVerdict(h1: Value, h2: Value)
    requires ParseStatus(h1).Ok? && ParseStatus(h2).Ok?
    requires HomeworkName(h1) == HomeworkName(h2)
    requires HomeworkStatus(h1) != HomeworkStatus(h2)
    ensures ParseStatus(h1).value != ParseStatus(h2).value
  {
    var head := StatusPrefix + Str(HomeworkName(h1)) + "\". ";
    var v1, v2 := HomeworkVerdicts[HomeworkStatus(h1).s], HomeworkVerdicts[HomeworkStatus(h2).s];
    assert (head + v1)[|head|..] == v1;
    assert (head + v2)[|head|..] == v2;
  }

  /** An undocumented status is refused. */
  lemma UnknownStatusExample()
    ensures ParseStatus(Object([("homework_name", Text("proj1")), ("status", Text("unknown_status"))]))
         == Err(Exception(UndocumentedStatusError, None))
  {
  }
}
