# Homework-status bot: a Dafny model

The bot polls the Practicum homework-review API every ten minutes. It checks
the shape of the answer and turns the first homework record into a Telegram
notification. When a cycle fails, it notifies the failure text once, and stays
silent while the same failure repeats.

The model covers the deterministic core of `homework.py`. The network answer
and the clock become inputs. Every message handed to the messenger is appended
to a log.

- `wrappers.dfy` (module `Wrappers`): `Option` and `Result`.
- `json.dfy` (module `Json`): the decoded JSON answer, plus the Python semantics
  the bot relies on. These are `isinstance(v, int)` (a `bool` passes), the `in`
  operator on dicts, lists and strings (substring test), type names, and
  `str()` of scalars.
- `homework.dfy` (module `Homework`):
  - `HOMEWORK_STATUSES` as the constant `HomeworkStatuses`;
  - `check_response` as `CheckResponse`;
  - `parse_status` as `ParseStatus`;
  - `Describe`, which gives the text `str(error)` yields for each failure the
    two checks raise.
- `bot.dfy` (module `Bot`):
  - `check_tokens` as `CheckTokens`;
  - the `from_date` fallback of `get_api_answer` as `RequestTimestamp`;
  - the body of `main`'s loop as the spec function `Step`, over the state
    `Poll` (the cursor plus `previous_error_message`);
  - the class `Poller`, whose `Cycle` method updates those fields in place and
    is proved equal to `Step`;
  - `RunBot`, which is `main` over a finite sequence of cycles.

A cycle's input is a `Fetch`: either the text of the error the request raised,
or the decoded body. A cycle succeeds when the answer passes `check_response`
and the first record, if there is one, passes `parse_status`. A successful
cycle does three things: it sends at most that one notification, it moves the
cursor to `current_date`, and it clears the error cache. A failing cycle builds
`Сбой в работе программы: <error>` and keeps the cursor. It sends the notice
only if the notice is not already cached, and afterwards the cache holds
exactly that notice.

check_response tests the two keys one after the other (homework.py:115-124).

## Model

| member | source | states |
|---|---|---|
| `Json.PyIntValue` | homework.py:82 | the integer an int-or-bool stands for is zero exactly when Python finds the value false, so `current_timestamp or int(time.time())` can be decided on it |
| `Json.Digits` | homework.py:161 | the decimal digits of a natural number are all digits, at least one, read back as the number, and have no leading zero (only 0 starts with `0`), so they are the numeral `str()` writes |
| `Json.DecimalText` | homework.py:161 | `str()` of an int has a minus sign exactly for negatives, only digits after it, no leading zero, and reads back as the int, so it is the unique numeral |
| `Json.PyStr` | homework.py:159-167 | an f-string renders a str unchanged, an int as exactly `DecimalText` of it (its numeral without leading zeros), `None` as `None`, and a bool as `True` exactly when it is true and `False` otherwise |
| `Json.OccursIsSubstring` | homework.py:145-150 | the string case of Python's `in` finds exactly the windows of the string that spell the key |
| `Json.PyIn` | homework.py:145-150 | `key in v` tests a dict's keys, a list's elements, or a string's substrings |
| `Homework.CheckResponse` | homework.py:108-140 | succeeds iff the answer is a dict with a `homeworks` list and an int (or bool) `current_date`, and then returns that list unchanged; a non-dict fails before any key check; a missing `homeworks` is reported before a missing `current_date`; both key checks precede both type checks; with both keys present, a non-list `homeworks` fails as `HomeworksNotList`, and a list with a non-int `current_date` fails as `CurrentDateNotInt` |
| `Json.PyTypeRepr` | homework.py:112 | `{type(response)}` renders as the type's name inside `<class '...'>` |
| `Homework.KeyErrorMessage` | homework.py:115-161 | the message of each KeyError: each missing key's message is its group's head (endpoint or record) followed by that key in double quotes and a full stop, and an undocumented status is spelled out after its head |
| `Homework.KeyErrorText` | homework.py:115-119 | `str()` of a KeyError is its message between single quotes, two characters longer |
| `Homework.Describe` | homework.py:108-163 | the text `str(error)` gives for each failure; exactly the KeyError texts (missing keys, undocumented status) come in single quotes |
| `Homework.TypeErrorText` | homework.py:108-159 | the TypeError texts of check_response and the runtime TypeErrors of parse_status are non-empty and unquoted; only the non-dict answer's text opens with `Н` |
| `Homework.EnvelopeFailureTextsDiffer` | homework.py:108-137 | the five ways check_response fails give five different texts |
| `Homework.MissingKeyTextsDiffer` | homework.py:115-124 | the texts for a missing `homeworks` and a missing `current_date` differ |
| `Homework.WrongTypeTextsDiffer` | homework.py:129-137 | the texts for a non-list `homeworks` and a non-int `current_date` differ |
| `Homework.CurrentDate` | homework.py:127 | the cursor taken from `response['current_date']` is that int, and a bool becomes 1 exactly when it is `True` and 0 otherwise |
| `Homework.AnswerRoundTrip` | homework.py:126-140 | any dict holding `homeworks: [..]` and an int `current_date` gives back exactly that list, and the cursor is that date |
| `Homework.ParseStatus` | homework.py:143-167 | succeeds iff the record is a dict whose `status` is a documented string and whose name is a scalar; the notification is then head, name and verdict; a missing name fails first, then a missing status; an undocumented string status always fails |
| `Homework.Notification` | homework.py:167 | the notification is the head `Изменился статус проверки работы "`, then the name, then the join `". `, then the status's verdict, and nothing else |
| `Homework.VerdictMessage` | homework.py:156-167 | for each status in the vocabulary, the text is `Изменился статус проверки работы "<name>". <verdict>` with that status's verdict |
| `Homework.ApprovedExample` | homework.py:40-44 | the record `hw1` with status `approved` renders to the full approved sentence |
| `Homework.VerdictsSuffixFree` | homework.py:40-44 | no verdict is a tail of another verdict |
| `Homework.NotificationDeterminesRecord` | homework.py:165-167 | two notifications are equal only when the name and the status are both equal, so the text identifies the record |
| `Bot.CheckTokens` | homework.py:170-180 | true iff all three tokens are set and non-empty |
| `Bot.RequestTimestamp` | homework.py:82 | the request uses `now` when the cursor is 0 and the cursor otherwise, so it never asks from 0 while the clock is non-zero |
| `Bot.TryCycle` | homework.py:193-201 | a fetch error propagates as is; success iff the answer validates and the first record (if any) renders; it emits no message for an empty list, and exactly `parse_status(homeworks[0])` otherwise; the cursor becomes `current_date`; a failed check or a first record that does not render fails with `str()` of that error |
| `Bot.FailureNotice` | homework.py:203 | the notice is `Сбой в работе программы: ` followed by the error text, and nothing else |
| `Bot.FailureNoticeInjective` | homework.py:203 | different error texts give different failure notices |
| `Bot.Step` | homework.py:192-212 | a success sets the cursor to `current_date`, clears the cache and sends the cycle's messages; a failure keeps the cursor and sends its notice iff it is not cached; the notice is then the only cached entry; the cache never grows beyond one |
| `Bot.FailingStep` | homework.py:202-209 | a failing cycle keeps the cursor, leaves its notice as the only cached entry, and sends it iff it was not cached |
| `Bot.Runs` | homework.py:192-214 | a run of n cycles makes n requests, and the cache stays at most one entry long |
| `Bot.RunsSnoc` | homework.py:192-214 | one more cycle extends a run by exactly that cycle's step |
| `Bot.RepeatedFailureNotifiesOnce` | homework.py:205-209 | any number of consecutive cycles that fail with the same error send its notice at most once, and not at all if it was already cached; the cursor stays put |
| `Bot.SuccessRearmsNotice` | homework.py:210-212 | failure, success, then the same failure again: the second failure notifies again |
| `Bot.DistinctFailuresBothNotify` | homework.py:202-209 | after a failure, a second failure with a different error sends its notice and caches only it; when the first notice was not cached, the two cycles send exactly both notices |
| `Bot.EmptyAnswerAdvancesSilently` | homework.py:196-201 | an answer with no homeworks sends nothing, advances the cursor to `current_date` and clears the cache |
| `Bot.FalseCurrentDateRequestsFromNow` | homework.py:82 | a `False` `current_date` passes validation, sets the cursor to 0, and the next request uses the current time |
| `Bot.Poller.constructor` | homework.py:188-190 | the loop starts with the start-up time as cursor, an empty cache and nothing sent |
| `Bot.Poller.SendMessage` | homework.py:68-77 | the message is logged as sent and nothing else changes; delivery errors are swallowed |
| `Bot.Poller.Cycle` | homework.py:192-214 | the in-place update of cursor, cache and sent log equals `Step`, keeps the cache at most one entry long, and returns the `from_date` used |
| `Bot.Launched` | homework.py:183-186 | `main` ends with `EnvVariableError` exactly when a token is missing; otherwise it is the run of `Step` from the start-up time with an empty cache, and a run of n cycles makes n requests, keeps at most one cached notice, and a run of no cycles sends nothing and keeps the start-up time |
| `Bot.RunBot` | homework.py:183-214 | without all three tokens, `main` stops before any request or message; otherwise it runs every cycle, and the result equals the run of `Step` from the start-up time |

## Left out

- The HTTP request, its headers, status-code and JSON-decoding failures (homework.py:85-105): a fetch is an input, either an error text or a decoded body. The `raise error(message)` lines call an exception instance; the text such a failure carries is the input's `reason`.
- Telegram delivery (homework.py:68-77): `send_message` is modelled as appending to the sent log. It never raises, so the cache is updated whether or not delivery succeeded.
- Logging, `load_dotenv`/`os.getenv`, `time.time` and `time.sleep` (RETRY_TIME): tokens, the start-up time and each cycle's `now` are parameters. `int(time.time())` truncation is not modelled. The endless `while True` is a finite sequence of ticks.
- JSON numbers with a fraction or an exponent (Python floats): the `Json` datatype has no float case, so a float `current_date` or status cannot be expressed.
- A bool cursor is carried as 0 or 1. How `requests` renders `from_date=True` in the URL is not modelled.
- Homework.KeyErrorText, Homework.Describe: `str()` of a KeyError is the message in single quotes. The model does not reproduce repr's switch to double quotes or its escaping when an undocumented status text contains a quote, backslash or non-printable character. The runtime TypeError texts follow CPython 3.10 wording.
- Homework.ParseStatus: a `homework_name` that is a list or dict makes the model fail with `NameNotRendered`. Python would render its repr into the notification instead. Scalar names (str, int, bool, None) are rendered as Python's `str()` does.
- Creating the Telegram client, `Bot(token=TELEGRAM_TOKEN)` (homework.py:188), is assumed to succeed. The client library may raise on a malformed token, which would end `main` before any cycle.
- The `exceptions` module (`APIAnswerStatusCodeError`, `EnvVariableError`) is not part of this model. `EnvVariableError` is the `Launch` case of that name.
