# Dead man's switch: check-in state machine

This project models the decision logic of a scheduled "dead man's switch"
job. Each run loads one record from Dropbox, creating it from a template if
it is missing. It polls a Telegram bot for a check-in message and then takes
exactly one of four branches:

- escalate: email the contacts when the counter is exactly 84 (42 * 2), the status is "not checked in" and no email has been sent yet (`CheckIn.EscalateStep`);
- record a check-in;
- reset the record to the template at 84 or more;
- by default, remind the person if the status is "not checked in", and advance the counter unless the record was just created (`CheckIn.TickStep`).

It then persists the record. The model also covers the two small loops the
job relies on:

- splitting a chat message into pieces no longer than Telegram's limit;
- normalising the Dropbox path.

Files:

- `wrappers.dfy`: the `Option` datatype.
- `telegram.dfy` (module `Telegram`): `chunk_message` as `ChunkMessage` and the send loop of `send_message` as `SendMessage`. They are specified by the functions `Chunks` and `Planned`. The Bot call is the out-parameter: the texts handed to the Bot, in order.
- `paths.dfy` (module `Paths`): the `'//'` to `'/'` rewrite loop as `NormalizePath`. It is specified by `Collapse` ("every run of slashes becomes one slash").
- `dropbox.dfy` (module `Dropbox`): the stored `Record`, `data_template`, and the `DBXUpDown` class. The Dropbox account is a `map` from path to record, plus a log of every upload.
- `check_in.dfy` (module `CheckIn`): `Step` is the specification of one invocation, and `LambdaHandler` is the imperative handler over a `DBXUpDown` object, proved equal to `Step`. `QuietRun` iterates `Step` over invocations with an empty inbox. The lemmas state the branch properties and what happens over a whole cycle.

Two behaviours of the code are easy to misread:

- The reset branch fires only when `status` is "checked in" or "not checked in" and `emailSent` is "yes" or "no" (lambda_function.py:316); reaching the threshold alone does not reset. A record with any other value falls to the default branch, and its counter grows forever (`UnknownValuesNeverReset`).
- `get_from_dropbox` turns every exception of the download into `None`, not only a missing file (lambda_function.py:237-240). So a failed download does not stop the run. `get_or_create_db` then uploads the template over the stored record, and the run proceeds on a fresh record. This is the `downloadFails` parameter of `GetFromDropbox`, `GetOrCreateDb` and `LambdaHandler`.

## Model

| member | source | states |
|---|---|---|
| Telegram.ChunkMessage | lambda_function.py:136-145 | For a positive bound, the chunks concatenate back to the message. Each chunk is at most the bound, every chunk but the last is exactly the bound, there is at least one chunk, and "" gives [""]. The result equals `Chunks` |
| Telegram.ChunksSpec | lambda_function.py:139-145 | The specification function of chunk_message rebuilds the message, respects the bound, gives full-length pieces before the last, and is never empty |
| Telegram.ChunksNonEmpty | lambda_function.py:141-144 | A non-empty message is never split into an empty chunk |
| Telegram.PlanOneSpec | lambda_function.py:124-134 | For one message, what is sent rebuilds it: nothing for an empty message, its chunks for an over-long one. Every piece sent is non-empty and at most MAX_MESSAGE_LENGTH |
| Telegram.PlannedSpec | lambda_function.py:123-134 | Over a list of messages, the pieces sent concatenate to the messages in order (empty messages add nothing). Every piece is non-empty and at most MAX_MESSAGE_LENGTH |
| Telegram.PlannedShort | lambda_function.py:126-134 | When no message exceeds the limit, exactly the non-empty messages are sent, whole and in order |
| Telegram.SendMessage | lambda_function.py:123-134 | The loop hands the Bot exactly `Planned(messages)`: pieces within the limit, none empty, concatenating to the input messages |
| Paths.ReplaceDoubles | lambda_function.py:210 | One `replace('//', '/')` pass, scanning left to right and replacing non-overlapping "//". It removes only slashes, and a string with no "//" comes back unchanged |
| Paths.ReplaceDoublesShrinks | lambda_function.py:209-210 | One `replace('//', '/')` pass keeps the first character and never lengthens the string. It strictly shortens it while a "//" remains, so the loop terminates |
| Paths.CollapseReplaceDoubles | lambda_function.py:209-210 | A replace pass does not change the collapsed form, so the loop's target stays fixed |
| Paths.CollapseFixed | lambda_function.py:209 | A string with no "//" equals its collapsed form, so the loop's exit gives the collapse |
| Paths.CollapseNoDoubleSlash | lambda_function.py:233-235 | The collapsed form never contains "//" |
| Paths.CollapseKeepsText | lambda_function.py:233-235 | Collapsing removes only slashes: the other characters stay, in order |
| Paths.NormalizePath | lambda_function.py:208-210 | The path is '/' + filename with every run of slashes collapsed to one. It starts with '/', has no "//", and keeps the file name's other characters |
| Dropbox.DataTemplate | lambda_function.py:194-195 | The template record: legal status "not checked in", emailSent "no", counter 1, empty lastMessage, lastChecked now |
| Dropbox.GetOrCreate | lambda_function.py:249-261 | The record get_or_create_db returns is the stored one, flagged not new, when get_from_dropbox returns a document. Otherwise it is the template, flagged new, with counter 1 |
| Dropbox.DBXUpDown.constructor | lambda_function.py:189-190 | A new object stands for the account with the given files and has made no uploads |
| Dropbox.DBXUpDown.AddToDropbox | lambda_function.py:204-222 | The file at the normalised path is overwritten with the record, no other file changes, and one upload is logged |
| Dropbox.DBXUpDown.GetFromDropbox | lambda_function.py:227-242 | Returns the stored record exactly when the download does not fail and the normalised path holds a file. Otherwise it returns None |
| Dropbox.DBXUpDown.GetOrCreateDb | lambda_function.py:244-261 | Returns the stored record with newDump false and changes nothing. When get_from_dropbox gives None, it uploads the template and returns it with newDump true |
| CheckIn.Inbox | lambda_function.py:293-296 | A failed fetch, or one whose first update has no message, gives no updates. Otherwise the fetched updates are used. The first update is always readable |
| CheckIn.ReminderIsOneMessage | lambda_function.py:322 | The reminder "Please check in" goes out as one chat message |
| CheckIn.Select | lambda_function.py:298-320 | The branch taken. Escalation only at counter 84 with emailSent "no". Reset only at 84 or more. A check-in only with a message and status "not checked in". Below 84 with an empty inbox, always the default branch. At 84 or more with legal values, always escalation or reset |
| CheckIn.Step | lambda_function.py:298-329 | One run takes the branch `Select` gives. Every branch stamps lastChecked with now, and every branch but reset keeps source. The branch lemmas below state each branch's record and notifications |
| CheckIn.EscalateStep | lambda_function.py:298-306 | At counter 84, "not checked in" and emailSent "no": one email goes to [EMAIL1, EMAIL2] and no reminder is sent. emailSent becomes "yes" and the counter becomes 85. status, lastMessage and source are unchanged, and lastChecked is now |
| CheckIn.CheckInStep | lambda_function.py:308-314 | Below 84, with updates and "not checked in": the persisted record has the first update's text as lastMessage and status "checked in". Its counter is one higher and lastChecked is now; the rest is unchanged. Nothing is sent |
| CheckIn.ResetStep | lambda_function.py:316-318 | At 84 or more, with legal status and emailSent and no escalation due: the persisted record is the template ("from aws", "", "not checked in", "no", now, 1). Nothing is sent |
| CheckIn.TickStep | lambda_function.py:320-329 | Otherwise: the reminder is sent if and only if status is "not checked in". The counter rises by one if and only if the record was not just created. Only the counter and lastChecked change |
| CheckIn.StatusTransitions | lambda_function.py:298-318 | The status goes from "not checked in" to "checked in" only on a recorded check-in, and every recorded check-in does this. It goes back only on a reset. lastMessage changes only on a check-in or a reset |
| CheckIn.AtMostOneNotification | lambda_function.py:298-329 | At most one email and at most one reminder are sent, never both. An email is sent if and only if the branch escalates. A reminder is sent if and only if the default branch runs on "not checked in" |
| CheckIn.StepKeepsInvariant | lambda_function.py:298-329 | Legal status and emailSent values stay legal, and a counter of at least 1 stays at least 1 |
| CheckIn.CounterMonotoneUntilReset | lambda_function.py:298-329 | The counter rises by one, or stays the same on a newly created record. Otherwise the whole record is reset to the template |
| CheckIn.EmailSentTransitions | lambda_function.py:298-318 | An email goes out only when emailSent is "no", and it sets emailSent to "yes". emailSent changes from "no" to "yes" only on escalation. A record with "yes" sends no email and keeps "yes" until a reset |
| CheckIn.CheckedInIsSilent | lambda_function.py:308-329 | A "checked in" record sends nothing. Below the threshold it stays "checked in" and its counter advances unless the record is new |
| CheckIn.NewRecordStep | lambda_function.py:244-256 | A missing record gives the template with newDump true. Its counter is 1, so that run neither escalates nor resets. With no updates it sends the reminder and keeps the counter at 1 |
| CheckIn.EscalateThenReset | lambda_function.py:298-318 | After an escalation the counter is 85, so the next run resets the record to the template whatever the inbox holds, and sends nothing |
| CheckIn.SilentDaysCountUp | lambda_function.py:320-329 | Below the threshold, each silent run on a "not checked in" record sends one reminder and no email, and adds one to the counter. The other fields are unchanged |
| CheckIn.SilenceEscalatesThenResets | lambda_function.py:298-329 | Start "not checked in", emailSent "no" and counter k <= 84. Over 84 - k + 2 silent runs: 84 - k reminders, then exactly one escalation email, then a reset to the template. The first 84 - k runs send no email |
| CheckIn.CheckedInCycleIsQuiet | lambda_function.py:308-329 | After a check-in, silent runs send neither reminders nor emails until the counter reaches 84. The next run resets the record to the template |
| CheckIn.UnknownValuesNeverReset | lambda_function.py:316-329 | A record with a status or emailSent outside the legal values, at or past 84, is never reset or emailed. Its counter grows by one per run |
| CheckIn.LambdaHandler | lambda_function.py:287-329 | The handler emails, chats and persists exactly what `Step` prescribes for the record from get_or_create_db and the fetched inbox. The record file is written once by the branch, after the template upload when the record was missing |

## Left out

- `EmailSender.send_email` is left out: MIME construction, SSL and SMTP are library I/O. An email is only its subject and recipient list.
- The Telegram Bot API is left out (`get_updates`, `bot.send_message`, `get_chat_id`, `send_chat_id`, `_send_message`). The fetched updates are an input, and the texts sent are an output.
- The update's date and `strftime` in `get_latest_message` are left out; the handler never uses them.
- A message whose text is missing is left out: the source would store a null `lastMessage`, and here text is always a string.
- Telegram.SendMessage: does not model the `chat_id` argument or the `str()` conversion of each message. The messages are strings, and every text goes to the one configured chat.
- The Dropbox SDK, JSON dump/load and the datetime-to-ISO hook are left out. A stored document is the record itself, with all six fields and an integer counter. Other stored documents are not modelled:
  - a document missing `noOfDaysElapsed`, `status` or `emailSent` raises `KeyError` at lambda_function.py:289-291;
  - a document missing `source` or `lastMessage` raises nothing. The escalate and default branches persist it with that key still missing, and the check-in branch persists it with `source` still missing. `lastChecked` is written on every branch, and a reset writes the full template;
  - a float counter such as 84.0 raises nothing and compares like the equal integer;
  - a non-numeric counter raises `TypeError` at the `<` of lambda_function.py:308.
- `datetime.datetime.now()` is the parameter `now`. All of its calls within one run are taken to return the same instant.
- Environment variables, and the `sys.exit` paths for an empty token and a failed upload, are left out (lambda_function.py:22-36, 191-192, 224-225). Configuration is the `Config` value.
- The plain-text and HTML email bodies are formatting only and are left out.
- Failures of the notifier are left out. In the source they abort the run before the record is persisted. Here every send succeeds.
- Concurrent invocations are left out; the job assumes one run at a time.
