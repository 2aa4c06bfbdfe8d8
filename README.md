# homework_bot: polling core

This project models the core of a Telegram bot. The bot polls the Yandex Practicum
homework-review API and tells a student when the review status of their latest homework
changes. The model follows `homework.py`:

- **Response validation** (`check_response`) is the function `Homework.CheckResponse`. It
  returns the first element of the response's `homeworks`. Its shape tests only log. So
  the real failures are the exceptions Python raises while it evaluates them. A response
  that is not a dict raises `TypeError`. A missing `homeworks` key raises `KeyError`. An
  empty list raises `IndexError`.
- **Status interpretation** (`parse_status`, `HOMEWORK_STATUSES`) is the function
  `Homework.ParseStatus` with the table `Homework.Verdicts`. It builds the Russian
  notification text from `homework_name` and the verdict for `status`.
- **The token check** (`check_tokens`) is the method `Homework.CheckTokens`. Its loop
  inspects all three tokens and produces one critical log line per absent token.
- **The polling loop** (`main`) is the class `Polling.Bot`. It holds the loop's two
  variables, `initial_status` and `current_timestamp`, and a ghost record of the messages
  handed to the transport. `Bot.Step` runs one pass of the loop body. `Bot.Poll` runs one
  pass per response over a finite sequence of API responses. Both are proved against the
  pure functions `Polling.Iteration` and `Polling.Run`, and the lemmas about those
  functions state the de-duplication properties.

The module `PyJson` models JSON documents as Python's `json` module decodes them. It also
models the Python operations the code applies to them: `in`, subscripting, `len`,
`dict.get` and `str`. Each of these returns the built-in exception it would raise
(`KeyError`, `IndexError` or `TypeError`) instead of a value. This is how the model
reproduces which line fails on which input.

Behaviour of the code that a reader might not expect, and that the model reproduces:

- An empty `homeworks` list raises `IndexError`, so the iteration fails and the cursor does
  not advance.
- On any failed iteration both loop variables keep their values; only a successful one
  moves the cursor.
- A `homeworks` value that is a string is not rejected. Its first character is returned,
  and `parse_status` then fails on it.
- The error text built in the `except` branch is never sent, so there is no "last error"
  state.
- A `TELEGRAM_TOKEN` that is present but malformed (the empty string, say) passes
  `check_tokens`, and then `telegram.Bot` rejects it before the loop starts.
- Notification texts are the Russian ones in the code.

## Model

| member | source | states |
|---|---|---|
| Homework.CheckResponse | homework.py:80-94 | succeeds exactly when the response is a dict whose `homeworks` is a non-empty list or str; then returns the list's first element (whatever its type, since the type tests only log) or the str's first character |
| Homework.CheckResponseFailures | homework.py:84-91 | a non-dict raises TypeError; a missing `homeworks` key raises KeyError('homeworks'); an empty list or str raises IndexError; a dict value raises KeyError(0); a null, bool or int value raises TypeError |
| Homework.EmptyResponseBranchUnreachable | homework.py:88-94 | once `response['homeworks']` has been evaluated, `len(response)` is positive, so the `return {}` branch is never taken |
| Homework.KnownStatuses | homework.py:30-34 | HOMEWORK_STATUSES knows exactly approved, reviewing and rejected, and subscripting it with one of them yields that status's verdict text |
| Homework.ParseStatus | homework.py:97-107 | succeeds exactly when the homework is a dict with `homework_name` and a `status` that is a key of HOMEWORK_STATUSES; the message is then the fixed prefix, the name, `". ` and that status's verdict |
| Homework.ParseStatusFailures | homework.py:98-103 | a non-dict raises TypeError; a missing `homework_name` or `status` raises KeyError for that key; an unknown status raises KeyError(status), and a list or dict status raises TypeError (unhashable) |
| Homework.CheckTokens | homework.py:110-119 | returns true exactly when none of the three tokens is None (an empty string is present), and logs the critical message once per absent token, inspecting all three |
| Polling.Iteration | homework.py:137-152 | a response that fails validation or parsing leaves `initial_status` and `current_timestamp` unchanged and sends nothing; otherwise it sends the message exactly when the status differs from `initial_status`, remembers that status, and moves the cursor to `current_date` (null when absent) |
| Polling.Run | homework.py:136-152 | over a run of polls at most one message is sent per poll |
| Polling.SendsEqualStatusChanges | homework.py:134-143 | over any run, the number of messages sent equals the number of status changes among the accepted responses, counted from the starting status, and the remembered status is the last accepted one |
| Polling.SentAreChangeMessages | homework.py:136-146 | over any run, the messages sent are exactly the `parse_status` texts of the accepted responses whose status differs from the previous accepted status (or the starting one), in order |
| Polling.FirstAcceptedIsSent | homework.py:134-141 | from the start state (`initial_status` is ''), the first response that gets through validation and parsing is always notified, since '' is not a key of HOMEWORK_STATUSES |
| Polling.FailuresLeaveStateUntouched | homework.py:149-152 | any number of failing polls leave both loop variables as they were and send nothing |
| Polling.ReplayIsSilent | homework.py:141-146 | processing the same response twice in a row sends nothing the second time and leaves the state as the first time left it |
| Polling.RepeatedResponseActsOnce | homework.py:136-152 | receiving one response any positive number of times in a row has the same effect as receiving it once, so at most one message is sent |
| Polling.SentMessagesComeFromResponses | homework.py:140-142 | every message sent during a run is the `parse_status` text of one of the run's accepted responses |
| Polling.ReviewingThenSameAgain | homework.py:134-143 | from the start, a response whose latest homework "proj1" is `reviewing`, received twice, sends exactly one message (the prefix, "proj1", `". ` and the reviewing verdict) and leaves the status at `reviewing` |
| Polling.Bot.constructor | homework.py:128-134 | the loop starts with `initial_status` '' and the cursor at the start time |
| Polling.Bot.SendMessage | homework.py:50-57 | always returns (transport errors are swallowed); the message joins the sent record and the loop variables are untouched |
| Polling.Bot.Step | homework.py:137-152 | one pass of the loop body changes the variables and the sent record exactly as `Iteration` says |
| Polling.Bot.Poll | homework.py:136-154 | running the loop over a sequence of responses changes the variables and the sent record exactly as `Run` says |
| Polling.Start | homework.py:123-134 | no bot is created (the program ends before the loop) when a token is missing or when the Telegram library rejects the token; otherwise a new bot starts in the initial state |

## Left out

- `get_api_answer` (homework.py:59-77) makes the HTTP request. Its result is the `response`
  input of `Bot.Step`. The hard-coded `from_date` is not modelled, and the cursor is stored
  but not read by anything in the model. When the fetch itself raises, the iteration ends in
  the `except Exception` at homework.py:149 exactly as a failed validation does: a failing
  `requests.get` makes the `except` expression at homework.py:73 raise `UnboundLocalError`,
  and `.json()` raises on a body that is not JSON. The model covers this through any
  response that is not accepted, such as `JNull`.
- `send_message` delivers through Telegram, and a delivery failure is only logged. The model
  records every message handed to the transport and does not model delivery. Exceptions
  other than `TelegramError` raised by the transport are not modelled.
- Logging is not modelled. The one exception is the critical lines of `check_tokens`, which
  `CheckTokens` returns.
- Environment loading and the module-level `print` (homework.py:15-27) are not modelled. The
  three tokens are parameters of `Start`.
- Constructing `telegram.Bot` is not modelled. Whether the library accepts the token is
  the `telegramTokenAccepted` parameter of `Start`.
- `time.time()` is the `now` parameter. `time.sleep` and the process `exit()` are not
  modelled. `Start` returns null where the program exits.
- The error text built at homework.py:150 is never sent, so it has no effect to model.
- The infinite `while True` is modelled as `Bot.Poll` over finitely many responses.
- exeptions.py only declares three exception classes, and homework.py never uses them.
- JSON numbers are integers only. Floats are not modelled.
- PyJson.Str: a `homework_name` that is a JSON list or object appears in the message only as
  `[...]` or `{...}`. Python would print its `repr` here, which is not modelled.
