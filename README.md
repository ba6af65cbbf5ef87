# sedanevis_bot credit ledger, in Dafny

sedanevis_bot is a Telegram bot. It transcribes voice, audio and video messages and YouTube
transcripts, and runs AI text actions on the result: a short summary, key points, minutes of
a meeting. Every user has a balance of credit minutes. This project models the parts of the
bot that decide who may use it, what each job costs, and how the balance and the activity log
change:

- **The two tables** (`database.dfy`): `users`, keyed by the unique `user_id`, and the
  append-only `activity_logs`, whose rows reference existing users. New rows get the column
  defaults. Deleting a user cascades to that user's log rows.
- **Registration, the status gate and logging** (`utils.dfy`): `get_or_create_user`,
  `check_user_status` and `log_activity`. A log commit that fails is rolled back and swallowed.
- **The ledger handlers** (`handlers.dfy`):
  - the media job, with its duration cap, credit gate and debit;
  - the text-action button, which gates on an estimate and bills the tokens actually used;
  - the admin's approve and reject buttons;
  - `/add_credit` and `/set_status`;
  - the language buttons;
  - text input.

  Each handler is a function from the tables before to its outcome and the tables after. A
  method on a `Session` (the open database session) or on `UserData` (`context.user_data`) is
  proved to do what that function says.
- **Pure helpers**:
  - the YouTube video-id parser;
  - the three callback-data formats (`approve:<id>`, `set_lang:<code>`, `yt:<id>:<lang>`) and
    their round trips;
  - the fixed-size chunking of long admin messages;
  - the delivery decision: inline or document, the 600-character preview, the caption cut;
  - the three action estimates;
  - the right-to-left test;
  - the newline-collapse, strip and right-to-left-mark tail of `convert_md_to_html`.

The bot calls several outside services: Telegram, the AI backend, pydub and the token counter.
What they return is passed in as a parameter: `MediaRun`, `ActionRun`, the token counts, the
fetched transcript segments, and whether a log row's commit succeeded. Amounts of credit are
exact `real` numbers.

Four facts about the code shape the ledger:

- The media job bills the duration Telegram declares for the file. The length measured after
  decoding is never used (`Handlers.MediaIgnoresMeasuredLength`).
- A balance change and its log row are committed separately. A failed log commit is rolled back
  and swallowed, so the balance change stands without a log row
  (`Handlers.LostLogBreaksReconciled`).
- A balance can go negative. A text action bills more than its gate checked
  (`Handlers.TextDebitCanOverdraw`), and `/add_credit` accepts negative amounts.
- There is no splitting of long media into chunks: one file is one transcription call.

## Model

| member | source | states |
|---|---|---|
| Database.DeleteUser | database.py:43 | Deleting a user removes every row of that user from the log. Each row of another user is kept as many times as it occurred. Every log row still points at an existing user |
| Database.LogsWithoutNoRows | database.py:43 | A log holding no row of the deleted user is left exactly as it is |
| Database.LogsWithoutCounts | database.py:43 | Each row of another user is kept as many times as it occurs in the log, and no row of the deleted user is kept |
| Database.LogsWithoutConcat | database.py:43 | Removing a user's rows from two runs of the log removes them from each run separately, so the kept rows stay in their original order |
| Utils.AppendLog | utils.py:316-330 | The users table is untouched. The log gains exactly the given row when the commit succeeds and is unchanged when it is rolled back. The row references an existing user, so the tables stay well formed |
| Utils.LogActivity | utils.py:316-330 | The session after `log_activity` is the `AppendLog` of the session before |
| Utils.Registered | utils.py:295-314 | A known id returns its stored row and `false`, with the tables unchanged. An unknown id adds one row with status pending, credit 0 and language fa, and returns `true`. Either way the returned row is the one stored under the id |
| Utils.RegistrationIdempotent | utils.py:300-302 | Registering the same id a second time returns the row stored by the first call and `false`, whatever name and username it carries, and changes nothing |
| Utils.GetOrCreateUser | utils.py:295-314 | The returned user, the flag and the new session are those of `Registered` |
| Utils.Gate | utils.py:339-387 | Without a sender, nothing happens. A sender is greeted if and only if unknown, and is then registered as by `Registered`. A known sender is sent the pending notice exactly when pending, and the rejected notice exactly when rejected or banned. The wrapped handler runs if and only if the sender's existing row is approved, and then it gets that row. The log is never touched, and a known sender leaves the tables unchanged |
| Utils.CheckUserStatus | utils.py:339-390 | The outcome and the new session are those of `Gate`. `context.user_data['db_user']` is set to the user exactly when the handler proceeds |
| Utils.DeliveryDirection | utils.py:185-190 | A transcript is delivered right-to-left exactly when its source names no language, or names fa, ar, he or ur |
| Utils.ActionEstimates | utils.py:170-172 | The plain cost is below the summary estimate, which is at most the minutes estimate, which is at most the key-points estimate. The three estimates are 500/coeff and 1000/coeff apart |
| Utils.ChooseDelivery | utils.py:213-245 | A transcript is sent inline exactly when it is shorter than 4096-500 characters, and then it is sent unchanged. Otherwise the preview is its first 600 characters |
| Utils.TruncateCaption | utils.py:264-269 | The caption never exceeds 1024 characters. A caption within the limit is unchanged. A longer one keeps its first 974 characters, followed by the continuation marker of its direction |
| Utils.DeliverTranscriptionResult | utils.py:146-213 | The transcript becomes `last_text`, and `is_rtl` is the direction of the source language. The decision uses the remaining credit from `context.user_data`, else the stored row, else 0; it also uses the estimates and the inline-or-document choice |
| Utils.CollapseNewlines | utils.py:70 | The result has no run of three newlines. It is empty exactly when the input is. A first character that is not a newline is kept |
| Utils.CollapseLeadingRun | utils.py:70 | A leading run of three or more newlines becomes exactly two, a run of one or two is kept, and any other first character is kept; the rest of the text is collapsed in the same way |
| Utils.CollapseKeepsCleanText | utils.py:70 | A text without a run of three newlines is left exactly as it is |
| Utils.CollapseIdempotent | utils.py:70 | Collapsing a second time changes nothing |
| Utils.CollapseKeepsText | utils.py:70 | Apart from newlines, the collapsed text has the same characters in the same order |
| Utils.StrippedHasNoTriple | utils.py:70 | Stripping the collapsed text does not create a run of three newlines |
| Utils.FinishHtmlPlain | utils.py:70-78 | For every language but fa, the result is the collapsed text stripped, with nothing added. It has no run of three newlines and neither starts nor ends with whitespace |
| Utils.FinishHtmlPersian | utils.py:72-76 | For fa, the result has as many lines as the stripped, collapsed text, and each of its lines is U+200F followed by the matching line of that text |
| Strings.StripTrims | utils.py:70 | `strip()` removes only whitespace and removes all of it at both ends: the result neither starts nor ends with whitespace |
| Strings.JoinSplit | utils.py:74-76 | Joining the pieces of a split on the same character gives back the text |
| Strings.SplitJoin | handlers.py:918 | Splitting a join of pieces that do not contain the separator gives back the pieces |
| Strings.BeforeFirst | handlers.py:841 | `split(m)[0]` is a prefix without the marker. It is the whole text exactly when the marker is absent. Otherwise the marker follows it, and the marker starts nowhere earlier in the text |
| Strings.AfterFirst | handlers.py:841 | The text is the part before the first marker, then the marker, then this part |
| Strings.SecondField | handlers.py:841 | `split(m)[1]` is a prefix of the text after the first marker. It is all of that text exactly when the marker does not occur again. Otherwise it ends where the next marker starts, and the marker starts nowhere earlier in that text |
| Strings.ParseIntRoundTrip | handlers.py:423-424 | `int(str(n)) == n` for every integer |
| Strings.ParseDecimalExtendsParseInt | handlers.py:705-706 | Every text that `int()` accepts is accepted by `float()` with the same value |
| Handlers.Adjust | handlers.py:237-245 | Only the target's balance changes, and it changes by exactly the delta. The log gains the row with that same delta only when its own commit succeeds. Well-formedness is kept |
| Handlers.ApplyAdjust | handlers.py:237-245 | The session after the balance update and the separate `log_activity` is the `Adjust` of the session before |
| Handlers.AdjustKeepsReconciled | handlers.py:237-245 | When its log row is committed, a balance change keeps every user's balance equal to the sum of that user's logged changes |
| Handlers.LostLogBreaksReconciled | utils.py:326-330 | When the log commit fails after the balance commit, a non-zero change leaves the balance out of agreement with the log |
| Handlers.LogsWithoutKeepsOthersTotal | database.py:43 | Removing one user's log rows leaves every other user's logged total unchanged |
| Handlers.DeleteUserKeepsReconciled | database.py:43 | Deleting a user leaves every other user's balance reconciled with the log if it was |
| Handlers.MediaJob | handlers.py:143-259 | A job reaches delivery if and only if all of these hold: there is a media file, it is within the duration cap, its duration/60 is at most the credit, and the download, the decoding and the transcription all succeed. Every other outcome changes nothing. The cost is the declared duration/60. The debit happens exactly when the row exists; it is an `Adjust` by minus the cost with a transcription log row, and the fresh row replaces the snapshot. Delivery still happens without the row |
| Handlers.MediaIgnoresMeasuredLength | handlers.py:165-204 | The length that pydub measures has no effect on the outcome or on the tables |
| Handlers.MediaDebitWithinCredit | handlers.py:168-237 | When the snapshot is the stored row, a debited balance is the old balance less the cost and never negative. A committed log row keeps it reconciled |
| Handlers.HandleMediaFile | handlers.py:143-259 | Outcome, session and `db_user` are those of `MediaJob`. After a delivery, `last_text` and `is_rtl` are set; otherwise they are untouched |
| Handlers.TextAction | handlers.py:298-361 | An action is billed if and only if all of these hold: the caller's row exists and is approved, there is a non-empty last text, the action is known, the estimate is within the credit, and the backend succeeds. Otherwise nothing changes. The bill is the reported total tokens/coeff, applied through `Adjust` with a tokens-consumed log row |
| Handlers.TextDebitCanOverdraw | handlers.py:328-359 | A concrete run where the gate passes on the estimate and the bill takes the balance from 1 to -1 minute |
| Handlers.TextActionBalance | handlers.py:358-361 | After an action the balance is the old balance less the cost. It is non-negative exactly when the cost was within the old balance |
| Handlers.HandleActionButton | handlers.py:298-361 | Outcome and session are those of `TextAction` |
| Handlers.ApprovalDataRoundTrip | handlers.py:423-424 | The data `f"{action}:{user_id}"` parses back to that action and that id |
| Handlers.Approval | handlers.py:411-474 | Approve happens if and only if the caller is the admin, the data parses, the action is approve and the target exists; the same holds for reject. The approved or rejected user is the id parsed from the data. Approve sets status approved and overwrites the balance with 60, logging +60. Reject sets status rejected and logs 0. Every other case changes nothing |
| Handlers.ApproveTwiceSameUsers | handlers.py:440-445 | A second approval grants the starting credit again, by overwriting: it leaves users exactly as the first did |
| Handlers.ApprovalReconciledIffFromZero | handlers.py:444-453 | After a committed approval, a previously reconciled balance stays reconciled if and only if it was 0 |
| Handlers.ApprovalButtons | utils.py:361-366 | The approve and reject buttons sent to the admin for a new user approve and reject that user |
| Handlers.HandleApproval | handlers.py:411-474 | Outcome and session are those of `Approval` |
| Handlers.AddCredit | handlers.py:697-734 | Credit is added if and only if all of these hold: the caller is the admin, there are two arguments, they parse as int and float, and the user exists. The added amount is any parsed float, negative ones included; it goes through `Adjust` with an added-by log row. Otherwise nothing changes |
| Handlers.AddCreditRoundTrip | handlers.py:704-718 | The decimal texts of an id and of a whole number of minutes add exactly those minutes to that user |
| Handlers.AddCreditKeepsReconciled | handlers.py:718-727 | A committed `/add_credit` keeps every balance reconciled with the log |
| Handlers.HandleAddCredit | handlers.py:697-734 | Outcome and session are those of `AddCredit` |
| Handlers.SetStatus | handlers.py:740-773 | The status is set if and only if the caller is the admin, there are two arguments, the status is one of the four, the id parses and the user exists. Then only that status changes, and a zero change `admin_set_status_<status>` is logged. No balance ever changes |
| Handlers.SetStatusKeepsReconciled | handlers.py:767-773 | `/set_status` keeps every balance reconciled, whether or not its log row is committed |
| Handlers.HandleSetStatus | handlers.py:740-773 | Outcome and session are those of `SetStatus` |
| Handlers.SetLanguage | handlers.py:541-561 | The language is updated if and only if the data splits into two fields, the user exists and the code differs from the current one. Only that column changes, and nothing is logged |
| Handlers.LanguageButtonRoundTrip | handlers.py:554-577 | A `set_lang:<code>` button sets the code. Pressing it again is answered as already set, with no change |
| Handlers.HandleSetLanguage | handlers.py:534-561 | Outcome and session are those of `SetLanguage` |
| Handlers.TextInput | handlers.py:59-84 | A text is received if and only if the message has text or a readable document. Its own text wins. The estimates are `ActionEstimates` of the reported token count, so they are ordered as for a transcript |
| Handlers.HandleTextInput | handlers.py:59-84 | The outcome is `TextInput`. `last_text` is set exactly when a text is received, and nothing else in `user_data` changes |
| Handlers.TextFile | handlers.py:97-126 | A file is refused if and only if its MIME type does not start with `text/`. It is received if and only if it is a text file whose content could be read, and then its whole content, empty or not, is the text and the estimates are `ActionEstimates` of the reported token count |
| Handlers.TextFileAsTextInput | handlers.py:59-126 | A non-empty text file gives the same text and the same estimates as that text sent as a message |
| Handlers.HandleTextFile | handlers.py:97-139 | The outcome is `TextFile`. `last_text` is set to the file's content exactly when the file is received, and nothing else in `user_data` changes |
| Handlers.IdAfter | handlers.py:841-847 | The id is a prefix of what follows the first marker and contains neither the cut character nor the marker. It ends at the end of that text or where a cut or a marker starts. Neither starts anywhere earlier in that text |
| Handlers.GetYtVideoId | handlers.py:835-848 | There is no id if and only if none of the four markers occurs. Otherwise the first marker present, in the order watch?v=, youtu.be/, /live/, /shorts/, decides the id, cut at & or ? |
| Handlers.YoutubeCallbackRoundTrip | handlers.py:881-918 | `yt:<id>:<lang>` splits back into the id and the language if and only if neither contains ':' |
| Handlers.YoutubeDataFieldCount | handlers.py:918 | The data splits into three fields plus one per ':' in the id or the language |
| Handlers.YoutubeCallback | handlers.py:909-937 | A transcript is delivered if and only if the data splits into three fields and fetching succeeds. It is delivered right-to-left and costs nothing. It shows the current credit, its estimates are `ActionEstimates` of the reported token count, and its text is the segments joined by spaces |
| Handlers.HandleYoutubeCallback | handlers.py:909-937 | The outcome is `YoutubeCallback`. On delivery `last_text` is the joined transcript and `is_rtl` is true |
| Handlers.ChunksOfConcat | handlers.py:601-602 | The chunks put back together give the message |
| Handlers.ChunksOfSizes | handlers.py:601-602 | Every chunk is non-empty and at most the limit long. All chunks but the last are exactly the limit long |
| Handlers.ChunksOfCount | handlers.py:601-602 | The chunk count is ceil(len/limit): the count times the limit covers the message but falls short of it plus one limit |
| Handlers.ListUsersChunks | handlers.py:652-655 | The sending loop of `/list_users` produces exactly the chunks of 4096 characters |

## Left out

- Telegram I/O is not modelled. This covers replies, message edits, keyboards and their texts,
  the Telethon download of large files, and command registration and polling in main.py.
  Download success is a parameter.
- Audio transcoding with pydub and ffmpeg is reduced to a decode step that either measures a
  length or fails with `CouldntDecodeError`.
- ai_services.py is an oracle. A reply is either an error or a text with a non-negative token
  count. Its error strings are never empty, so a falsy `"error"` value is not modelled.
- The token counter is an input (it reports 0 on failure). A `total_token_count` of `None`,
  which would make the division raise, is not modelled.
- Thread-pool executors and concurrent updates are not modelled, because their point is
  concurrency. Each handler runs as one sequential step on the session.
- A coefficient of 0, which would raise `ZeroDivisionError`, is not modelled: the handlers
  require a positive `TEXT_TOKENS_TO_MINUTES_COEFF`.
- Strings.ParseInt and Strings.ParseDecimal: they accept an optional sign, ASCII digits and,
  for floats, an optional fraction. Python's `int()` and `float()` also accept other Unicode
  decimal digits, such as the Persian digits ۰ to ۹, as well as surrounding whitespace,
  underscores, exponents, `inf` and `nan`. The model rejects all of these, so
  `/add_credit ۱۲۳ ۶۰` is answered as invalid arguments.
- Utils.ChooseDelivery: the preview is the raw first 600 characters. The `html.escape`
  applied to it is display formatting and is not modelled.
- Not modelled as display text:
  - the info section;
  - the message and caption texts built around the transcript, with their float formatting;
  - `format_minutes`;
  - the `details` strings of log rows, which are modelled as the values they are formatted
    from.
- An exception raised while delivering, after a debit has been committed, is not modelled.
  The debit stands in the code.
- For `button_callback_handler`, the markdown rendering of the AI reply and the choice between
  a message and a document for the result are not modelled. Only the plain-text tail of
  `convert_md_to_html` is. The BeautifulSoup and markdown stages depend on those libraries.
- docx creation and parsing are not modelled. The text of a document is an input to
  `TextInput`, `None` when extraction failed.
- For `handle_youtube_url`, the YouTube transcript API calls and the listing of languages are
  not modelled. Only the id parser and the `yt:` data format are. Fetched segments are an
  input to `YoutubeCallback`.
- `error_handler` is not modelled beyond its chunking. The report it builds is made of
  tracebacks and serialised updates.
- These handlers only read or display data and are not modelled: `start`,
  `credit_command_handler`, `settings_command_handler`, `admin_help_command`,
  `user_info_command` and `user_logs_command`. The `message_parts` building of
  `list_users_command` is display formatting; its sending loop is modelled.
- `create_db_and_tables`, timestamps, the surrogate `id` column and `manage_db.py` backups are
  not modelled, because they are storage and file I/O.
- Temporary-file cleanup is not modelled, because it is filesystem work.
- Handlers.HandleTextFile: the download, the UTF-8 read and the token count are inputs. In the
  code `last_text` is set before the tokens are counted (handlers.py:115-123), so a failure of the
  count or of the reply keeps the new `last_text` and shows the failure message. The model
  assumes the count and the reply succeed.
- Handlers.HandleMediaFile: requires `context.user_data['db_user']` to be set. The status gate
  always sets it before this handler runs, and without it the source raises `KeyError`.
- Only the commit of a log row can fail in the model. These other commits are assumed to
  succeed:
  - the balance commits of the media job, the text action and `/add_credit`;
  - the registration commit of `get_or_create_user`;
  - the status commits of approve, reject and `/set_status`;
  - the language commit.

  In the code a failing `db.commit()` raises. In the media job, the outer `except` then
  reports an error, with no debit and no delivery.
