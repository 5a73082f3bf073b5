# homework_bot notifier, modelled in Dafny

The notifier polls the homework-review API and posts a chat message whenever
a homework's review status changes. Failures are reported in the same chat,
once for each distinct error. This project models its decision logic:

- the start-up credentials check;
- the validation of the API's answer;
- the formatting of a homework record through the fixed verdict table;
- one cycle of the polling loop. A cycle carries the de-duplication dict
  `last_send`, the cursor `timestamp` and the messages handed to the chat
  client.

Files:

- `json_values.dfy` (module `JsonValues`): decoded JSON values. It also has
  Python's `dict.get`, `type(v).__name__`, `str(v)`, and the dict key a value
  hashes to. `True` and `1` are the same key.
- `homework.dfy` (module `Homework`): `HOMEWORK_VERDICTS`, `check_tokens`,
  `check_response` and `parse_status` as functions. A failure is a `Fault`
  value, and `Describe` gives the text of the Python exception it raises.
- `poll_cycle.dfy` (module `PollCycle`): the cycle as a specification function
  `Cycle` over a `State` value. The class `Poller` has the three loop
  variables as fields. Its method `RunCycle` runs the `for` loop over the
  records and is proved to leave exactly `Cycle(old state, fetch)`.
- `poll_properties.dfy` (module `PollProperties`): what one or two
  consecutive cycles guarantee.

The model follows the code as written, including where it behaves
unexpectedly:

- A missing `homeworks` key fails the array check (`response.get` gives
  `None`), not the missing-keys check. The missing-keys check can then only
  find `current_date` missing.
- Every `raise logger.error(...)`, `raise logging.warning(...)` and
  `raise logging.error(...)` raises `None`. So the exception the loop catches
  is a `TypeError` with the text `exceptions must derive from BaseException`,
  whatever the check was. The failure kinds raised this way all produce one
  notification text.
- `last_send` is updated whether or not delivery succeeds, because
  `send_message` swallows every delivery error.
- The cursor takes whatever value `current_date` holds. It is not checked to
  be an integer.
- The error slot `'error'` shares the dict with homework names, and the model
  keeps this.

## Model

| member | source | states |
|---|---|---|
| JsonValues.KeyOf | homework.py:131 | a value can be a dict key exactly when it is not a list or dict; a string is keyed by itself |
| Homework.Describe | homework.py:83-109 | every failure raised through a logging call reads `exceptions must derive from BaseException`; a non-object record gives `'<type>' object has no attribute 'get'`; an unhashable status or name gives `unhashable type: '<type>'` |
| Homework.AllTruthy | homework.py:42 | `all(...)` is true exactly when every credential is present and non-empty |
| Homework.CheckTokens | homework.py:40-42 | true exactly when all three credentials are set and non-empty; any missing one makes it false |
| Homework.CheckResponse | homework.py:80-90 | a non-object fails first; an absent or non-array `homeworks` fails next; then a missing `current_date` fails, and that is the only key this check can report missing; otherwise the `homeworks` array is returned unchanged, including an empty one |
| Homework.ParseStatus | homework.py:93-110 | fails for a non-object record, a missing name, a missing status, a list or dict status (unhashable), and any other status outside the verdict table (unknown); otherwise gives the message with the name and exactly that status's verdict |
| Homework.ResponseFailuresReadAlike | homework.py:83-89 | any two rejected answers raise exceptions with the same text |
| Homework.RecordFailureText | homework.py:95-109 | a record object with a missing field or a hashable unknown status fails with that same text |
| Homework.VerdictsDistinct | homework.py:26-30 | two statuses have the same verdict text only if they are the same status |
| Homework.SameNameMessagesAgreeIffStatusesAgree | homework.py:105-110 | for one homework name, two messages are equal exactly when the statuses are equal |
| PollCycle.Initial | homework.py:115-122 | the start state holds only the empty error slot, an empty outbox and the start time as cursor |
| PollCycle.Notify | homework.py:129-133 | a record succeeds exactly when it formats and its name is hashable; the message is appended only if it differs from `last_send[name]`; afterwards `last_send[name]` is that message; other entries and the cursor are unchanged |
| PollCycle.NotifyAll | homework.py:129-133 | the loop over records never drops a key, never moves the cursor, and only appends to the outbox |
| PollCycle.OnFailure | homework.py:135-139 | the failure message is sent only if it differs from `last_send['error']`, and it is then recorded there |
| PollCycle.Cycle | homework.py:124-141 | a cycle keeps the error slot, keeps every key and only appends to the outbox |
| PollCycle.Poller.constructor | homework.py:115-122 | the loop's state at start-up |
| PollCycle.Poller.SendMessage | homework.py:45-52 | a message handed to the client is appended to the outbox, and nothing else changes |
| PollCycle.Poller.ReportFailure | homework.py:135-139 | the `except` branch leaves exactly `OnFailure` of the old state |
| PollCycle.Poller.RunCycle | homework.py:124-141 | the loop body, with the `for` loop over the records and its early exit on failure, leaves exactly `Cycle` of the old state |
| PollProperties.FirstUnformatted | homework.py:129-130 | the position of the first record that fails to format: every record before it formats |
| PollProperties.CycleError | homework.py:124-136 | a cycle raises an exception exactly when it does not succeed |
| PollProperties.Reached | homework.py:124-134 | the state when the `try` block ends: the cursor is not yet moved, and an early failure leaves the state untouched |
| PollProperties.NotifyAllDoneIff | homework.py:129-134 | the loop gets through all records exactly when every record formats |
| PollProperties.NotifyAllStopsAtFirstFailure | homework.py:129-135 | the loop stops at the first bad record, in the state the records before it left, with that record's failure |
| PollProperties.CycleDecomposes | homework.py:124-141 | a cycle is the `try` block up to where it stopped, followed by the `except` branch with the cycle's error, or by the `else` branch with the new cursor |
| PollProperties.CycleOutcome | homework.py:134-141 | the cursor becomes `current_date` exactly when the cycle succeeds, and the error slot is then cleared; a failing cycle keeps the cursor and records its own failure message |
| PollProperties.FailedRecordKeepsEarlierWork | homework.py:129-139 | after a failure in the middle of the list, the messages of earlier records stay sent and recorded, except under the name `error`, which the failure message overwrites, and the cursor is unchanged |
| PollProperties.StatusMessageIsNotFailureMessage | homework.py:110-136 | a status message never equals a failure message |
| PollProperties.NotifyAllWritesStatusMessages | homework.py:129-133 | the loop over records only writes status messages into `last_send` |
| PollProperties.SameEarlyErrorSentOnce | homework.py:124-139 | the same fetch or validation error in two consecutive cycles is sent once, and the second cycle changes nothing |
| PollProperties.MalformedResponsesReportedOnce | homework.py:80-139 | two malformed answers in a row give one notification, whatever is wrong with each |
| PollProperties.NewErrorReported | homework.py:135-139 | a failing cycle after a different failure always sends its own error message |
| PollProperties.SameErrorSentOnce | homework.py:129-139 | the same error in two consecutive failing cycles is sent once, also when the second cycle fails after processing records: it sends only what its records sent, provided no record named `error` overwrote the slot |
| PollProperties.SuccessClearsErrorMemory | homework.py:135-141 | after a successful cycle, any failure (fetch, validation or record) is reported again, after whatever its records sent |
| PollProperties.KeySet | homework.py:131 | every record's name key is in the set |
| PollProperties.NotifyAllFrame | homework.py:131-133 | entries for names that are not in the list are left as they were |
| PollProperties.NotifyAllRecordsEach | homework.py:129-133 | after the loop over records with distinct names, each name holds its own record's message |
| PollProperties.KeyNotInKeySet | homework.py:131 | a key that no record has is not in the key set |
| PollProperties.NotifyAllSplit | homework.py:129-133 | when the records before position j all format, the loop is the loop over them followed by the loop over the rest |
| PollProperties.NotifyAllSilent | homework.py:129-133 | when every record's message is already recorded under its name, the loop sends and changes nothing |
| PollProperties.RepeatedRecordsSendNothing | homework.py:124-141 | for records that all format, under distinct names, none named `error`: polling again and getting the same records sends nothing, keeps `last_send`, and moves the cursor to the new `current_date` |
| PollProperties.HomeworkNamedErrorResent | homework.py:129-141 | after any successful cycle, a successful answer holding a homework named `error` sends that record's message again (the first such record, with only other names before it), because the `else` branch wiped its entry |
| PollProperties.StatusChangeIsSent | homework.py:129-133 | a record for an already-notified homework is sent exactly when its status changed |
| PollProperties.EndToEnd | homework.py:124-141 | one `reviewing` record at `current_date` 1000 sends one message and moves the cursor to 1000; the same answer at 1100 sends nothing and moves the cursor to 1100 |

## Left out

- `get_api_answer` (the HTTP request, its status check and `.json()`): this is network I/O. A cycle receives a `Fetch` instead, either a decoded body or a failure with the exception's text.
- The Telegram client and `telegram.Bot`: this is a foreign client. The outbox lists every message handed to `send_message`. A delivery error is swallowed there, so no other part of the state depends on it.
- `load_dotenv`, `os.getenv`, logging, `sys.exit` on missing credentials, `time.time()`, `time.sleep(RETRY_PERIOD)` and the endless `while True`: these are environment and side effects. `CheckTokens` takes the three lookups as parameters, and `Poller` takes the start time. One cycle is modelled, and consecutive cycles are stated as lemmas.
- JSON floating-point numbers: these are not part of the `Json` datatype.
- JsonValues.Display: a homework name that is a JSON array or object is rendered as a placeholder rather than Python's `repr`. Such a record never reaches the outbox, because its name is unhashable and the cycle fails at the dict lookup before sending.
- The exact texts of Python exceptions are those of CPython 3.x up to 3.13 (3.14 rewords the unhashable-key message): `exceptions must derive from BaseException`, `'<type>' object has no attribute 'get'` and `unhashable type: '<type>'`.
- Python's dict ordering of `last_send` does not affect behaviour and is not modelled.
