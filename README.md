# homework_bot, modelled in Dafny

`homework.py` is a Telegram bot that polls the Practicum homework-review API
and tells its user when the review status of their newest homework changes.
This project models the decisions it makes and proves what they guarantee:

- the credential gate `check_tokens`;
- the shape check `check_response` on the decoded API answer;
- the verdict table `HOMEWORK_VERDICTS` and the notification formatter `parse_status`;
- the per-cycle logic of `main`: format the first record, send only when the
  text differs from `last_status`, and on the first error send one failure
  report and stop.

Files:

- `wrappers.dfy` (module `Wrappers`): `Option`, `Result` and `Outcome`. They stand for `None` and raised exceptions.
- `json.dfy` (module `Json`): the decoded JSON value. It also gives Python's type name and `str()` for the values the messages embed.
- `homework.dfy` (module `Homework`): the three checks and the verdict table.
  - Each exception is an `Error` that carries the source's message.
  - `ErrorText` gives Python's `str()` of it; a `KeyError` shows the `repr()` of its message, which for the messages the core raises is the message between single quotes.
- `bot.dfy` (module `Bot`): the polling loop.
  - `Step` is one cycle and `Run` a sequence of cycles. Both are functions on a `Loop` state.
  - The class `Poller` holds the same state in fields (`lastStatus`, `sent`, `delivered`, `failure`).
  - Its methods `Cycle` and `Serve` are proved to follow `Step` and `Run`.
  - `Launch` is `main`: the credential gate, then the loop.
  - `Changes` is a separate reference definition of deduplication: the list with every message dropped that equals the one just before it.

External inputs are parameters:

- The three tokens are `Option<string>` values. `None` means unset.
- Each cycle is given a `Poll`. It holds the fetched answer or the error fetching raised, and whether the chat accepted the message that cycle sends.

Three behaviours of `homework.py` worth stating:

- A failing cycle ends the program (homework.py:136). `main` re-raises after reporting, so it does not retry at the next cycle.
- `check_tokens` stops at the first missing token (homework.py:49-59). It does not report every missing one.
- A status that is a list or a dictionary cannot be looked up in the verdict table (homework.py:109). Python raises a `TypeError` there, not a `KeyError`.

## Model

| member | source | states |
|---|---|---|
| `Json.TypeName` | homework.py:102 | the Python type name of a decoded value, as the AttributeError of `homework.get` shows it; it is `list` or `dict` exactly for the containers |
| `Json.TypeNameIdentifiesKind` | homework.py:102 | two values have the same type name exactly when they are of the same kind |
| `Json.Str` | homework.py:113 | the f-string's `str()` of the homework name: a string is itself, an integer its canonical decimal notation, `None` and the booleans their names |
| `Json.Decimal` | homework.py:113 | the canonical decimal notation of an integer (no leading zeros, no `-0`), proved to read back as that integer |
| `Json.Digits` | homework.py:113 | the digits of a natural number: only decimal digits, no leading zero, reading back as the number |
| `Homework.ErrorText` | homework.py:135 | Python's `str()` of a raised exception: the message as it is, between single quotes for a KeyError, after `No token ` for the missing-token ImportError |
| `Homework.CheckTokens` | homework.py:47-59 | passes iff all three tokens are set and non-empty; otherwise fails naming the first missing one in the order PRACTICUM_TOKEN, TELEGRAM_TOKEN, TELEGRAM_CHAT_ID |
| `Homework.CheckResponse` | homework.py:85-97 | succeeds iff the answer is a dict with `homeworks` and `current_date` and a list under `homeworks`, returning that list unchanged; a missing `homeworks` is reported before a missing `current_date`; a non-dict answer or a non-list `homeworks` is the TypeError |
| `Homework.CheckResponseReturnsList` | homework.py:87-95 | any dict holding a list under `homeworks` and some `current_date` yields exactly that list |
| `Homework.CurrentDateUninspected` | homework.py:90-93 | replacing the value of `current_date` never changes the outcome of the check |
| `Homework.VerdictTable` | homework.py:29-33 | `HOMEWORK_VERDICTS` knows exactly approved, reviewing and rejected, and gives each a different text |
| `Homework.StatusMessage` | homework.py:113 | the notification is the fixed prefix, the name, its closing quote and a full stop, then the verdict text |
| `Homework.ParseStatus` | homework.py:100-113 | succeeds iff the record is a dict with `homework_name` and a status in the verdict table, giving prefix, quoted name and verdict text; a non-dict record raises AttributeError; missing name, missing status and unknown status are KeyErrors in that order; a list or dict status is a TypeError |
| `Homework.StatusMessageInjective` | homework.py:112-113 | a notification determines the name it shows and the status it reports |
| `Homework.DistinctStatusesDistinctMessages` | homework.py:29-33 | for one name the three statuses give pairwise different notifications |
| `Homework.ParseStatusInjective` | homework.py:102-113 | two records giving the same notification show the same name and carry the same status |
| `Bot.FailureText` | homework.py:135 | the failure report is the fixed failure prefix followed by `str()` of the error |
| `Bot.FailureTextIsNotStatus` | homework.py:113-135 | a failure report never equals a status notification |
| `Bot.Attempt` | homework.py:124-127 | the error of fetching, of `check_response` or of `parse_status` on the first record is passed on unchanged; the outcome is "nothing" iff the validated list is empty; otherwise it is the notification `parse_status` gives for the first record |
| `Bot.OnlyFirstHomeworkMatters` | homework.py:126-127 | answers whose lists start with the same record give the same cycle outcome |
| `Bot.Send` | homework.py:62-69 | a send appends to the messages handed to the chat and, only if the transport accepted it, to the delivered ones; nothing else changes |
| `Bot.Step` | homework.py:123-136 | one pass of the loop body: an ended loop stays as it is; at most one message is appended; a cycle that sends nothing changes nothing; `last_status` changes only to the notification just sent; the loop ends only after sending the report of its error |
| `Bot.Run` | homework.py:122-136 | the `while True` over a sequence of cycles: messages already sent are kept, at most one is added per cycle, an ended loop stays as it is |
| `Bot.RunSnoc` | homework.py:122-139 | running one more cycle is one more step |
| `Bot.RunAfterFailure` | homework.py:134-136 | after a failure no further cycle changes anything |
| `Bot.EmptyListChangesNothing` | homework.py:126-132 | an empty homework list sends nothing, raises nothing and keeps `last_status` |
| `Bot.ChangedMessageIsSent` | homework.py:128-130 | a notification differing from `last_status` is sent and becomes `last_status`, whatever the delivery |
| `Bot.FirstMessageIsSent` | homework.py:120-130 | the first notification is always sent, since `last_status` starts as None |
| `Bot.RepeatedMessageIsSentOnce` | homework.py:128-130 | two consecutive cycles with the same notification send it once, or not at all if it already is `last_status` |
| `Bot.FailureEndsLoop` | homework.py:134-136 | a failing cycle sends exactly one failure report, ends the loop, and later cycles send nothing |
| `Bot.DeliveryIsInvisible` | homework.py:64-69 | delivery success or failure never changes what is sent later, `last_status` or how the loop ends |
| `Bot.StepKeepsReachable` | homework.py:128-136 | a cycle keeps the loop invariant: no message sent twice in a row, and `last_status` is the last message sent while the loop runs |
| `Bot.RunKeepsReachable` | homework.py:122-136 | every sequence of cycles keeps that invariant |
| `Bot.NeverTheSameMessageTwiceInARow` | homework.py:128-130 | from the start, `send_message` is never called twice in a row with the same text (what the chat receives can still repeat, since a failed delivery still becomes `last_status`) |
| `Bot.ChangesSnoc` | homework.py:128-130 | the reference deduplication adds a new message unless it equals the one before it |
| `Bot.RunSendsChanges` | homework.py:122-132 | over cycles that all succeed, the messages sent are the formatted notifications with consecutive repeats removed (the reference `Changes`), and `last_status` is the last one formatted |
| `Bot.RunFailsAt` | homework.py:122-136 | when cycle k is the first to fail, the messages sent are the deduplicated notifications before it followed by its one failure report, and the loop has ended with that error |
| `Bot.ReviewingThenApproved` | homework.py:120-130 | a homework going from reviewing to approved between two cycles yields the two notifications with their verdicts |
| `Bot.Poller.constructor` | homework.py:120 | the loop starts with no `last_status`, nothing sent and no failure |
| `Bot.Poller.Notify` | homework.py:62-69 | the state after `send_message` is `Send` of the state before |
| `Bot.Poller.Abort` | homework.py:134-136 | report the error, then mark the loop ended with it |
| `Bot.Poller.Cycle` | homework.py:123-136 | the state after one pass through the loop body is `Step` of the state before |
| `Bot.Poller.Serve` | homework.py:122-139 | the state after looping over the cycles until one fails is `Run` of the state before |
| `Bot.Launch` | homework.py:116-136 | a failing credential gate sends nothing and ends with its error; otherwise the program sends what `Run` sends and ends with the loop's failure, if any |

## Left out

- `get_api_answer` (HTTP request, status check, JSON decoding): each cycle receives its outcome as the decoded answer or the error that was raised.
- The Telegram bot object and its transport: a send is an entry in `sent`. Whether it arrived is an input flag recorded in `delivered`.
- `send_message` swallows only Telegram errors: the model treats every delivery failure as swallowed.
- Environment and `.env` loading: the tokens are parameters.
- Logging: only side output, not modelled.
- `TIME_RANGE`, `RETRY_PERIOD` and `time.sleep`: timing only. The query window is computed once and never advances; the model does not represent it.
- `Bot.Launch`: the source re-raises the cycle's error wrapped in a plain `Exception`. The model returns the original error as the exit reason.
- Exceptions that are not `Exception` subclasses, such as a keyboard interrupt, are out of scope.
- `Json.Str`: for numbers it follows Python's `str()` only for integers. JSON fractional numbers are not modelled.
- `Json.Str`: a list- or dict-valued `homework_name` is rendered as a fixed placeholder, not as Python's container repr.
