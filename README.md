# DevOps Telegram bot: conversation, extractors, password policy, startup probe

A Dafny model of the logic of `devops_bot/bot/bot.py`, a Telegram bot that
finds email addresses and Russian phone numbers in text a user sends, keeps
them for confirmation, and stores them in two database tables on `/yes`.

- `text.dfy` (`Text`): ASCII character classes standing in for `\d`, `\s` and
  `\b`; the greedy run `RunEnd`; and `Distinct`, the model of `list(set(...))`.
- `emails.dfy` (`Emails`): the email pattern twice. `IsEmail` is the grammar;
  `EmailAt` is what Python's backtracking engine does at one start position:
  the local part is one greedy run, and the domain backs off to the last '.'
  whose letter run ends on a word boundary. The two are proved to agree.
- `phones.dfy` (`Phones`): the phone pattern as a list of required and
  optional character classes. `ItemsMatch` gives the meaning of such a list
  and `Scan` models the engine. They are proved equal for this pattern,
  because no optional item can be skipped when present.
- `extract.dfy` (`Extract`): `re.findall` as a left-to-right scan of
  non-overlapping matches, and `find_emails` / `find_phone_numbers` on top.
  Everything found is an email or phone number of the text. Every email
  with a word boundary at each end, and every phone number, overlaps
  something found. It need not lie inside it: in "a@b.cc@d.ee" the scan
  reports "a@b.cc", and the email "b.cc@d.ee" starting inside it is never
  tried.
- `password.dfy` (`Password`): `check_password_complexity` as the engine
  would run it (lookaheads over the first line, a greedy run, then `$`).
  It is proved equal to the policy it encodes.
- `startup.dfy` (`Startup`): `check_database_availability`, with the
  connection outcomes given as a function from attempt number to success.
- `commands.dfy` (`Commands`): the shell command `get_apt_list` chooses.
- `conversation.dfy` (`Conversation`): class `Bot`, whose fields are
  - `user_states`;
  - each chat's `chat_data`;
  - the `emails` and `phone_numbers` tables.

  It has one method per handler. Its invariant keeps staged lists to
  extraction results and the rows the bot appends to the grammar of their
  table; the rows a table starts with are arbitrary. The database's behaviour during a batch is
  an input (`StoreOutcome`). Scenario methods run whole conversations on a
  bot whose tables already hold arbitrary rows.

The model follows the code where a plain reading of the bot's intended
behaviour would differ:
- `/find_email`, `/find_phone_number` and `/verify_password` do not clear a
  staged list, so an earlier list can be stored later (`StaleListStored`).
- Text sent after `/verify_password` gets no reply, and the password check is
  never called from a handler.
- The chat keeps its intent after a password text.
- `/yes` with nothing staged replies success and inserts nothing.
- `/yes` replies success even when the database refused the batch
  (`FailedStoreReportsSuccess`).
- `/yes` in the password state replies nothing but still resets the chat.
- The `get_apt_list` argument is pasted into the shell command unquoted
  (`UnquotedArgument`).

## Model

| member | source | states |
|---|---|---|
| Text.Distinct | devops_bot/bot/bot.py:296-297 | `list(set(xs))`: no duplicates, every element comes from `xs`, every element of `xs` is kept, and the result is no longer than `xs` |
| Emails.EmailAt | devops_bot/bot/bot.py:295 | the engine's attempt at one start position: when it matches, the match is non-empty and lies inside the text (what it matches is stated by `EmailAtSound` and `EmailAtLongest`) |
| Emails.LastDot | devops_bot/bot/bot.py:295 | the '.' the engine settles on is the last one in the domain run that is followed by at least two letters ending on `\b`; no later '.' fits, and none is found when none fits |
| Emails.EmailAtSound | devops_bot/bot/bot.py:295 | every match the engine reports is a string of the email grammar, with a word boundary before and after it |
| Emails.EmailLayout | devops_bot/bot/bot.py:295 | an email with word boundaries at `t[i..e]` has its '@' where the local run ends, and its last '.' fits and lies inside the domain run, with its letters ending at `e` |
| Emails.EmailAtLongest | devops_bot/bot/bot.py:295 | whenever an email with word boundaries on both sides starts at a position, the engine reports a match there, and that match is at least as long |
| Phones.Scan | devops_bot/bot/bot.py:300 | the engine over a list of required and optional items: each optional item is tried present first and, when the rest then fails, absent; a match ends inside the text, at or after where it started |
| Phones.PhoneAt | devops_bot/bot/bot.py:300 | the engine's attempt at one start position, trying "+7" before "8": a match is non-empty and lies inside the text |
| Phones.ScanSound | devops_bot/bot/bot.py:300 | whatever the backtracking engine matches, the grammar of required and optional items accepts |
| Phones.MatchStarts | devops_bot/bot/bot.py:300 | a string matched by a list with a required item is non-empty and starts with a character the list can start with |
| Phones.ScanComplete | devops_bot/bot/bot.py:300 | for a list in which no present optional item needs skipping, the engine matches every string the grammar accepts, exactly to its end |
| Phones.PhoneAtExact | devops_bot/bot/bot.py:300 | the engine reports a phone match from `i` to `e` if and only if `t[i..e]` is "+7" or "8" followed by the body grammar |
| Phones.PhoneBodyCounts | devops_bot/bot/bot.py:300 | the body after the prefix has 16 items, 10 of them required, and the required items are exactly the digits |
| Phones.ItemsMatchShape | devops_bot/bot/bot.py:300 | a string an item list accepts has between the number of required items and the number of items characters, and exactly as many digits as required items |
| Phones.PhoneShape | devops_bot/bot/bot.py:300 | a phone number is "+7" or "8" followed by exactly ten digits, 11 to 18 characters in all |
| Extract.MatchAt | devops_bot/bot/bot.py:295-301 | the pattern tried at one position: a match is non-empty and inside the text |
| Extract.MatchTable | devops_bot/bot/bot.py:296-301 | the engine's answer at every position of the text, each a non-empty match inside the text or none |
| Extract.Spans | devops_bot/bot/bot.py:296 | `re.findall`'s scan: each span is the match the engine reports where the scan tried, and the spans come in order without overlapping |
| Extract.FindAll | devops_bot/bot/bot.py:296-301 | `re.findall` returns at most one string per character of the text, none of them empty |
| Extract.SpansCover | devops_bot/bot/bot.py:296 | every position where the engine matches lies inside some span of the scan: a match the scan skipped overlaps one it reported |
| Extract.ScanStartsAt | devops_bot/bot/bot.py:296 | a position where the engine matches and no reported span runs past starts a reported span, which is exactly that match |
| Extract.SpanFound | devops_bot/bot/bot.py:296 | the `n`-th string `re.findall` returns is the text of its `n`-th span |
| Extract.FoundAround | devops_bot/bot/bot.py:296 | a position where the engine matches lies inside a string `re.findall` returns, which occurs in the text where it starts |
| Extract.FoundAt | devops_bot/bot/bot.py:296 | at a position where the engine matches and no earlier span runs past, `re.findall` returns exactly the engine's match |
| Extract.TextsAt | devops_bot/bot/bot.py:296 | every string `findall` returns is the text of one of its match spans |
| Extract.EmailSpanSound | devops_bot/bot/bot.py:295-296 | the text of an email match occurs in the input between two word boundaries and satisfies the email grammar |
| Extract.PhoneSpanSound | devops_bot/bot/bot.py:300-301 | the text of a phone match occurs in the input and satisfies the phone grammar |
| Extract.FoundEmailsSound | devops_bot/bot/bot.py:295-296 | every string `re.findall` returns for the email pattern is an email occurring in the text between word boundaries |
| Extract.FoundPhonesSound | devops_bot/bot/bot.py:300-301 | every string `re.findall` returns for the phone pattern is a phone number occurring in the text |
| Extract.FindEmails | devops_bot/bot/bot.py:294-297 | `find_emails` returns no duplicates, and each element is a substring of the text that satisfies the email grammar and has a word boundary at both ends |
| Extract.FindPhoneNumbers | devops_bot/bot/bot.py:299-302 | `find_phone_numbers` returns no duplicates, and each element is a substring of the text that satisfies the phone grammar |
| Extract.FoundEmailKept | devops_bot/bot/bot.py:296-297 | `list(set(...))` keeps every email `re.findall` returns |
| Extract.FoundPhoneKept | devops_bot/bot/bot.py:301-302 | `list(set(...))` keeps every phone number `re.findall` returns |
| Extract.EmailMatched | devops_bot/bot/bot.py:295-296 | where an email with a word boundary at each end starts, the email scan reports a match reaching at least to its end |
| Extract.EmailFoundAround | devops_bot/bot/bot.py:294-297 | wherever the email scan matches, `find_emails` returns an email occurring in the text over that position |
| Extract.EmailFoundAt | devops_bot/bot/bot.py:294-297 | where the email scan matches and no earlier match runs past, `find_emails` returns that match |
| Extract.FindEmailsCover | devops_bot/bot/bot.py:294-297 | every email of the text with a word boundary at each end overlaps an email `find_emails` returns that starts at or before it |
| Extract.FindEmailsComplete | devops_bot/bot/bot.py:294-297 | such an email that no earlier match runs into is found: `find_emails` returns an email starting at the same position and reaching at least as far |
| Extract.FindPhoneNumbersCover | devops_bot/bot/bot.py:299-302 | every phone number in the text overlaps one `find_phone_numbers` returns that starts at or before it |
| Extract.FindPhoneNumbersComplete | devops_bot/bot/bot.py:299-302 | a phone number at a position no earlier match runs into is returned exactly |
| Extract.FindPhoneNumbersShape | devops_bot/bot/bot.py:299-302 | every phone number found is "+7" or "8" with ten more digits, 11 to 18 characters long |
| Extract.NoAtNoEmails | devops_bot/bot/bot.py:294-297 | a text without '@' (the empty text included) yields no emails |
| Extract.SingleEmail | devops_bot/bot/bot.py:294-297 | a text that is one email starting with a word character yields exactly that email |
| Password.CheckPasswordComplexity | devops_bot/bot/bot.py:305-307 | an accepted password has at least 8 characters, every one from `[A-Za-z0-9@$!%*?&]` except possibly a final newline (the full policy is `CheckPasswordComplexityIff`) |
| Password.StrongRunEnds | devops_bot/bot/bot.py:306 | for a password the policy accepts, both the run of allowed characters and the first line end where the trailing newline, if any, begins |
| Password.CheckPasswordComplexityIff | devops_bot/bot/bot.py:305-307 | the pattern accepts a password if and only if, leaving out one trailing newline, it has at least 8 characters, all from `[A-Za-z0-9@$!%*?&]`, including a lower-case letter, an upper-case letter, a digit and a special character |
| Password.TrailingNewlineAccepted | devops_bot/bot/bot.py:306-307 | "Abcdef1!\n" is accepted, because `$` matches before a final newline |
| Password.TwoNewlinesRejected | devops_bot/bot/bot.py:306-307 | "Abcdef1!\n\n" is rejected |
| Password.ShortRejected | devops_bot/bot/bot.py:306 | a password shorter than 8 characters is rejected |
| Startup.CheckDatabaseAvailability | devops_bot/bot/bot.py:55-71 | returns true if and only if one of the first ten attempts connects. The number of attempts is the first successful one, or ten. It sleeps once after each failed attempt before the last, five seconds each time |
| Startup.ImmediateSuccess | devops_bot/bot/bot.py:58-64 | a database that answers at once takes one attempt and no waiting |
| Startup.NeverAvailable | devops_bot/bot/bot.py:56-71 | a database that never answers takes ten attempts and nine sleeps, 45 seconds in all, and is reported unavailable |
| Startup.EleventhAttemptTooLate | devops_bot/bot/bot.py:56-58 | a database that answers only from the eleventh attempt on is reported unavailable |
| Commands.AptCommand | devops_bot/bot/bot.py:258-264 | whatever the arguments, the command starts with "apt " |
| Commands.AptListIffNoArgs | devops_bot/bot/bot.py:258-264 | the installed-package listing is chosen if and only if there are no arguments |
| Commands.AptShowCarriesArgument | devops_bot/bot/bot.py:260-262 | with an argument, the command is "apt show " followed by the first argument verbatim |
| Commands.LaterArgsIgnored | devops_bot/bot/bot.py:259-262 | arguments after the first do not change the command |
| Commands.UnquotedArgument | devops_bot/bot/bot.py:262 | an argument holding ";" reaches the shell command unchanged |
| Conversation.AddRows | devops_bot/bot/bot.py:156-168 | the batch insert appends every row when the connection, every insert and the commit succeed, and otherwise leaves the table as it was |
| Conversation.Bot.constructor | devops_bot/bot/bot.py:23 | no chat has an intent or staged data, and the tables hold whatever rows they are given |
| Conversation.Bot.StagedEmails | devops_bot/bot/bot.py:188 | `chat_data.get('emails_to_add', [])`: empty for a chat with nothing staged, and in a valid bot every element is an email |
| Conversation.Bot.StagedPhoneNumbers | devops_bot/bot/bot.py:192 | the same for `phone_numbers_to_add`, every element a phone number |
| Conversation.Bot.FindEmail | devops_bot/bot/bot.py:148-150 | sets the chat's intent to email, whatever it was; staged data, other chats and the tables are unchanged; the reply asks for text |
| Conversation.Bot.FindPhoneNumber | devops_bot/bot/bot.py:152-154 | sets the chat's intent to phone, with the same frame as `FindEmail` |
| Conversation.Bot.VerifyPassword | devops_bot/bot/bot.py:210-212 | sets the chat's intent to password, with the same frame as `FindEmail` |
| Text.JoinEnds | devops_bot/bot/bot.py:280 | `'\n'.join(parts)`: empty for no parts, otherwise it opens with the first part and closes with the last |
| Conversation.FoundEmailsReplyShape | devops_bot/bot/bot.py:280 | the reply listing found emails opens with "Найденные email-адреса:\n", has the first email right after it, and ends with the "/yes или /no" prompt |
| Conversation.FoundPhonesReplyShape | devops_bot/bot/bot.py:287 | the same for phone numbers, under "Найденные номера телефонов:\n" |
| Conversation.Bot.TextMessage | devops_bot/bot/bot.py:272-291 | with no intent, the help text is the reply and nothing changes. With the password intent there is no reply and no change. With the email or phone intent, a non-empty extraction replaces that chat's staged list of that kind and is listed in the reply; an empty one gets the "not found" reply and keeps what was staged. Intents, tables and their starting rows never change |
| Conversation.Bot.YesHandler | devops_bot/bot/bot.py:184-198 | with no intent, replies "Неверная команда." and changes nothing. Otherwise: with the email intent it batch-inserts the staged emails (or none) into the emails table and replies success; with the phone intent it does the same for phone numbers; the other table is untouched. In every case, the password intent included, it then removes the chat's intent and staged data |
| Conversation.Bot.NoHandler | devops_bot/bot/bot.py:200-207 | with an intent, replies "Операция отменена." and removes the chat's intent and staged data without touching the tables. Without one, replies "Неверная команда." and changes nothing |
| Conversation.AskAndSendEmails | devops_bot/bot/bot.py:272-280 | `/find_email` then a text: the chat wants emails, a non-empty extraction replaces the staged emails and an empty one keeps them; staged phone numbers and the tables are unchanged |
| Conversation.ConfirmStoresFoundEmails | devops_bot/bot/bot.py:276-280 | `/find_email`, a text, `/yes`: the emails table grows by exactly `find_emails` of the text, the phone table is unchanged, and the reply reports success |
| Conversation.ConfirmStoresFoundPhoneNumbers | devops_bot/bot/bot.py:283-287 | the same for phone numbers |
| Conversation.CancelStoresNothing | devops_bot/bot/bot.py:200-205 | `/no` after a staged list leaves both tables as they were |
| Conversation.StaleListStored | devops_bot/bot/bot.py:148-149 | after a second `/find_email` and a text with no emails, `/yes` appends the list staged from the first text |
| Conversation.SwitchedIntentStoresNothing | devops_bot/bot/bot.py:191-196 | switching to `/find_phone_number` after emails were staged: `/yes` leaves both tables as they were, yet reports that phone numbers were added |
| Conversation.FailedStoreReportsSuccess | devops_bot/bot/bot.py:188-190 | when the database refuses the batch, the emails table is as it was and the reply still reports success |
| Conversation.PasswordTextIgnored | devops_bot/bot/bot.py:272-291 | after `/verify_password` a text gets no reply and `/yes` neither; the next text gets the help text |

## Left out

- SSH execution (`ssh_exec_command`) and the diagnostic commands it serves (`get_release` … `get_services`): network I/O. Only `get_apt_list`'s choice of command string is modelled.
- `get_repl_log`: it runs a local shell pipeline.
- PostgreSQL: connecting, SQL text, the fetch functions `get_emails` / `get_phone_numbers` and their handlers. The tables are two in-memory sequences, and a batch insert's fate is the `StoreOutcome` input.
- Telegram wiring, handler registration, polling, `.env` loading, logging and `time.sleep`: framework and I/O. The probe counts its sleeps instead of sleeping.
- Unicode: Python's `\d`, `\s` and `\b` on `str` patterns are Unicode-aware, and the model uses their ASCII members only. On text with non-ASCII characters the model can disagree with the bot in both directions:
  - In "почтаuser@mail.ru" the Cyrillic letters are word characters to Python, so there is no `\b` before "user" and the bot finds no email; the model sees a boundary there and finds "user@mail.ru".
  - In "+7\u00A0926\u00A0123\u00A045\u00A067" the no-break spaces match `\s`, so the bot finds a phone number; the model does not.
  - Non-ASCII digits match `\d` for the bot and not in the model.
  The soundness and completeness lemmas of `Extract` hold for the ASCII reading only.
- Extract.FindEmails: each email stands where it last occurs in the text. Python's `list(set(...))` leaves the order unspecified, and no property here depends on it.
- Extract.FindPhoneNumbers: the same holds for the order of phone numbers.
- The reply texts are modelled as strings, and the listing reply is built with `Join`. Only the header, the first item and the closing prompt are proved (`FoundEmailsReplyShape`, `FoundPhonesReplyShape`); nothing is proved about the separators between items.
- Concurrency: each handler is one atomic step, matching the one-update-at-a-time dispatcher.
