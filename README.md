# homework_bot notifier, modelled in Dafny

homework_bot is a single-process Telegram notifier. It starts by checking that
its three settings are present:

- `PRACTICUM_TOKEN`, the credential for the homework-review API;
- `TELEGRAM_TOKEN`, the bot token;
- `TELEGRAM_CHAT_ID`, the chat to notify.

Details per setting:

- If any setting is missing, the bot logs critical lines and exits.
- Otherwise it announces its start in the chat and polls the API every 600 seconds.

Each poll does the following:

- It sends the watermark `timestamp` as `from_date`, or the current time when the watermark is falsy (`homework.py:83`).
- It classifies the outcome of the HTTP call.
- Once a dict has been fetched, it moves the watermark to the response's `current_date`, or to the clock when that key is absent. A failed fetch, or a decoded response that is not a dict, leaves the watermark as it was.
- It validates the response's shape.
- It turns the first homework's `status` into a sentence through a three-entry verdict table.

Any failure becomes the text `Сбой в работе программы: <error>`. Whatever the outcome, the text goes to the chat only when it differs from the last text notified (`prev_msg`), and the iteration always ends by sleeping.

The model has these modules:

- `Wrappers`: `Option` and `Result`.
- `Values`: the decoded JSON values and the Python built-ins applied to them:
  - truthiness;
  - `type(v).__name__`;
  - `dict.get`;
  - `repr`;
  - `str`;
  - `str(int)`.
- `Exceptions`: the exception classes that travel through the bot, with their `str()`. This covers the classes declared in `exceptions.py` plus `TypeError`, `KeyError` and `AttributeError`.
- `Homework`:
  - `check_tokens`, as an imperative method that clears a flag across three `if`s;
  - `send_message`;
  - the classification of `get_api_answer`;
  - `check_response`;
  - `parse_status`.
- `Polling`: the `main` loop.
  - `Iterate` and `Run` specify one iteration and a bounded run as functions over the state `(timestamp, prev_msg)` and a trace of events.
  - The class `Poller` performs the loop in place, one `try`/`except`/`finally` at a time.
  - `RunBot` is `main` over a finite sequence of iterations.

Foreign calls are inputs, not code:

- A `FetchOutcome` says what `requests.get` and `.json()` did: a transport failure, or a status code with a decoded or undecodable body.
- A `Delivery` says what became of `bot.send_message`.
- The two clock reads of an iteration are fields of a `Tick`: line 83 and line 148.

Every log line, request, send, sleep and exit is an `Event` in a trace.

Three behaviours of the code are worth knowing before reading the contracts:

- **Empty `homeworks` list.** An empty list is an error: `check_response` raises `KeyError('В ключе "homeworks" нет значений')` (`homework.py:116-117`). So the `'Нет новых статусов'` branch of `main` is dead; `Polling.NoNewStatusesUnreachable` proves it.
- **Watermark fallback.** When `current_date` is absent, the watermark becomes the current time (`homework.py:147-149`).
- **`parse_status` failures.** Not every failure of `parse_status` is `UndocumentedStatusError`:
  - A homework that is not a dict fails at `.get` with `AttributeError`.
  - A `status` that is a list or a dict fails the `in` test with `TypeError`.

## Model

| member | source | states |
|---|---|---|
| Homework.CheckTokens | homework.py:50-68 | The flag is true exactly when all three settings are set. The logs are empty exactly when the flag is true. The logs are one critical line per unset setting, in the order checked. |
| Homework.MissingNames | homework.py:55-68 | No setting is reported missing exactly when all three are set. |
| Homework.MissingNamesExactly | homework.py:55-68 | Every reported name is one of the three settings. A setting is reported exactly when it is unset. The reported names keep the checking order. |
| Homework.MissingLogs | homework.py:52-68 | There is one line per missing name. Line k is the fixed notice followed by the k-th missing name. |
| Homework.LogsFor | homework.py:57-67 | There is one critical line per name, in order, each the fixed notice followed by the name. |
| Homework.SendMessage | homework.py:71-78 | The message is handed to the client exactly once. Nothing sleeps. A failed delivery is logged and goes no further. |
| Homework.Classify | homework.py:85-102 | The result is the decoded body exactly when the status is 200 and the body decodes. A status other than 200 gives TheAnswerIsNot200Error with the endpoint and code message. A transport exception gives RequestExceptionError. An undecodable body gives JSONDecoderError. Each carries the text of its cause. |
| Homework.GetApiAnswer | homework.py:81-102 | `from_date` is the watermark when it is truthy and the clock otherwise. The result is the classification of the outcome. |
| Homework.Non200MessageReportsCode | homework.py:92-95 | The TheAnswerIsNot200Error text starts with the API endpoint. The status code can be read back from it. |
| Homework.Non200MessagesDiffer | homework.py:92-95 | Different status codes give different failure texts. |
| Homework.CheckResponse | homework.py:105-118 | The checks run in order: not a dict gives TypeError; a missing `homeworks` or `current_date` gives KeyError naming the response; a non-list `homeworks` gives TypeError; an empty list gives KeyError. Success happens exactly when none applies, and it returns `response['homeworks']`, which is non-empty. |
| Homework.ParseStatus | homework.py:121-128 | Success happens exactly when the homework is a dict with a name and a documented status. The sentence is the fixed opening, the name, `". "`, then the verdict. A non-dict fails with AttributeError. A missing name fails with UndocumentedStatusError. An unhashable status fails with TypeError. Any other undocumented status fails with UndocumentedStatusError. |
| Homework.StatusMessageNamesHomework | homework.py:128 | A successful notification starts with the fixed opening, and the submission's name can be read back right after it. |
| Homework.StatusMessageDeterminesVerdict | homework.py:31-35 | For the same submission name, two different documented statuses give two different notifications. |
| Homework.UnknownStatusExample | homework.py:125-126 | A status outside the table, such as `unknown_status`, is refused with UndocumentedStatusError. |
| Values.Lookup | homework.py:110 | A key is found exactly when an entry has it. The value found is stored under that key. |
| Values.ParseIntToString | homework.py:93-94 | The decimal form of the status code loses nothing: it reads back to the same integer. |
| Values.IntToStringInjective | homework.py:93-94 | Different integers have different decimal forms. |
| Values.StrRepr | homework.py:112 | The `repr` of a string is delimited by a matching pair of quotes. |
| Polling.HandledSendsOnlyChanges | homework.py:155-166 | Handling the outcome sends the message exactly when it differs from `prev_msg`, in both branches, and never sleeps. |
| Polling.IterationSendsOnlyChanges | homework.py:155-166 | An iteration sends its message exactly when it differs from `prev_msg`. Afterwards `prev_msg` is that message. |
| Polling.IterationSleepsOnce | homework.py:168-169 | Whatever its outcome, every iteration sleeps exactly once, for 600 seconds, and that sleep is its last event. |
| Polling.TryEventsQuiet | homework.py:145-154 | The `try` block before the message is handled neither sends nor sleeps. |
| Polling.FetchFailureKeepsWatermark | homework.py:146-149 | When the fetch fails, the watermark is unchanged. The new `prev_msg` is the failure text built from the exception. |
| Polling.FetchedDictMovesWatermark | homework.py:146-150 | Once a dict has been fetched, the watermark becomes its `current_date`, or the clock when the key is absent, before validation can fail. |
| Polling.NonDictResponseFailsAtGet | homework.py:146-161 | A decoded response that is not a dict fails at `.get` with AttributeError before validation. The watermark is unchanged. |
| Polling.NoNewStatusesUnreachable | homework.py:150-154 | No iteration ever produces 'Нет новых статусов'. |
| Polling.MessageNeverEmpty | homework.py:142-162 | Every iteration's message is non-empty, so it always differs from the initial empty `prev_msg`. |
| Polling.DeliveryDoesNotAffectLoop | homework.py:71-78 | Whether the send was delivered changes neither the next state nor the texts sent. |
| Polling.Messages | homework.py:144-169 | There is one message per iteration, and the k-th is what iteration k notifies. |
| Polling.DedupHasNoRepeats | homework.py:155-166 | The deduplicated sequence is no longer than its input, its first element differs from the previous message, and no two neighbours are equal. |
| Polling.RunSendsDeduplicated | homework.py:142-169 | A bounded run sends exactly the deduplicated sequence of its iterations' messages. It ends with the last message as `prev_msg`. With no iterations it leaves the state unchanged. |
| Polling.RunSleepsEveryIteration | homework.py:168-169 | A bounded run sleeps once per iteration, for 600 seconds each time. |
| Polling.RunAppend | homework.py:144 | Running one more iteration extends the run's state and trace by that iteration. |
| Polling.RunPrefix | homework.py:144 | The same extension, for a prefix of a given sequence of iterations. |
| Polling.DedupRepeat | homework.py:155-159 | A repeated message is kept once, and a new message after it is kept. |
| Polling.MessagesOfThree | homework.py:144-169 | Three iterations give their three messages, in order. |
| Polling.RepeatedMessageSentOnce | homework.py:155-166 | Two iterations with the same fetch result send once, and a third with a different message sends again. |
| Polling.RepeatedFailureScenario | homework.py:97-166 | The same transport failure twice, then a 500, sends two failure texts. |
| Polling.MissingSettingStopsBot | homework.py:133-136 | With a setting missing, the bot logs one critical line per missing setting, in order, then the stop notice, then exits. It never requests or sends anything and never sleeps. |
| Polling.StopEventsQuiet | homework.py:133-136 | The stop path's events are the critical lines first, then the stop notice and the exit. They contain only log lines and the exit. |
| Polling.StartedBotPolls | homework.py:137-169 | With all settings present, the bot sends the start notice, then exactly the deduplicated messages of its iterations, the first of them always. It sleeps 600 seconds once per iteration. |
| Polling.StartEventsSendOnce | homework.py:139-141 | The start notice is sent once, whatever became of the delivery, and nothing sleeps. |
| Polling.NoSendNoSleep | homework.py:133-154 | The helper behind `TryEventsQuiet` and `StopEventsQuiet`: a trace with no send and no sleep events, such as the stop path of lines 133-136 or the `try` block of lines 145-154, sends nothing and sleeps nothing. |
| Polling.Poller.constructor | homework.py:137-142 | The watermark starts at the clock and `prev_msg` starts empty. The trace is the start notice. |
| Polling.Poller.Try | homework.py:145-154 | The `try` block computes the iteration's outcome. It moves the watermark as `NextWatermark` states. It emits the request and the validator's log line. It leaves `prev_msg` alone. |
| Polling.Poller.Notify | homework.py:155-166 | The message is sent if new and otherwise logged. `prev_msg` becomes the message. The watermark is untouched. |
| Polling.Poller.Step | homework.py:144-169 | One pass of the loop body leaves the state and the trace exactly as `Iterate` specifies. |
| Polling.Poller.Loop | homework.py:144-169 | A pass per tick leaves the state and the trace exactly as `Run` specifies. |
| Polling.RunBot | homework.py:131-169 | `main` over a finite sequence of iterations ends exactly as `BotSession` specifies. |

## Left out

- The HTTP request itself: the URL, the `Authorization` header and the query-string encoding (`homework.py:86-90`). Only the `from_date` value sent is recorded.
- Telegram:
  - `telegram.Bot` construction (`homework.py:137`) is not modelled: the chat id is a parameter.
  - `bot.send_message` is an event plus a `Delivery` input.
- Inputs and plumbing modelled as parameters or events instead of code:
  - environment loading (`load_dotenv`, `os.getenv`): the settings are optional strings;
  - the logging configuration (`homework.py:38-47`) and the `exc_info` traceback: only each log line's level and text are kept;
  - `sys.exit`: an `Exit` event.
- Time:
  - `time.time()` is a clock value supplied per read;
  - `time.sleep()` is a `Sleep` event.
- The infinite `while True` is cut to a finite sequence of iterations.
- Whether a JSON decode error raised by `requests` is also a `RequestException` depends on the library version. The model follows the `except` order as written: an undecodable body becomes JSONDecoderError.
- JSON floats are not among the modelled values.
- An `Object` may list a key twice, which no decoded Python `dict` can. `Lookup` returns the first entry; objects with duplicate keys are outside the modelled values.
- In `repr`, non-printable characters beyond ASCII are written out as themselves rather than escaped.
- `repr` of a `dict` key that is not a string is not modelled, because JSON keys are strings.
- The exception classes in `exceptions.py` carry no logic. `BotEmptyError` is declared there but never raised.
- Values.StrRepr: states only that the result is quoted. The escaping rules are given by its definition, and no lemma is proved about them.
