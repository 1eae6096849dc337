# DnD survey bot — a verified model

This project models the core of a Telegram bot that runs a three-question
Dungeons & Dragons survey (`realbot.py`). The bot:

- remembers each user's place in the survey in an in-memory FSM storage
  (state `Idle`, `WantPlay`, `FavClass` or `Style`, plus a small data
  dictionary);
- upserts the user into a `users` table on `/start`;
- appends one row per completed survey to a `dnd_answers` table whose
  `user_id` references `users(id)`;
- hands every inbound message to the first registered handler whose filters
  pass, in registration order: `cmd_start`, `cmd_help`, `q_want_play`,
  `q_fav_class`, `q_style`, `fallback`.

The model has six modules:

- `Wrappers` holds `Option`.
- `TextNorm` holds Python's `str.strip` and `str.lower` on the characters
  that matter here, and the yes/no test of the first question.
- `Survey` holds the entities: states, sessions, table rows, events, replies
  and errors.
- `Routing` holds first-match dispatch over the registration order and the
  routing table it produces.
- `Conversation` gives each handler as a pure transition of the *world*
  (the FSM storage and the two tables), `Step` for one event, `Run` for a
  sequence of events, and the consistency invariant `Inv` with its
  preservation proof.
- `Bot` holds the imperative bot. The `SessionStore` class has the
  storage's `clear` and `set_state` operations, a lookup, and the write
  half of `update_data` (the handler reads the data, merges its key and
  writes the result back). The
  `SurveyBot` class has the six handlers as methods that update the
  storage and the tables in place. Each method is proved to produce exactly
  the transition `Conversation` gives, and `Dispatch` is proved to keep
  `Inv`.

`SurveyProperties` states what the bot promises: restart, upsert, the three
questions, the commit, routing, isolation between users, and an end-to-end
run.

Two behaviours of the code that a reader might not expect:

- The first question accepts only "да" / "нет" (Russian yes / no), in any
  letter case and with any whitespace around them. English "yes" / "no"
  are re-prompted like any other text.
- When the database pool is missing at the last question, the handler
  raises before clearing the session. The user therefore stays in `Style`
  with their data, and no row is written.

## Model

| member | source | states |
|---|---|---|
| TextNorm.StripShape | realbot.py:147-148 | stripping yields nothing exactly when the text is all whitespace; otherwise the result starts and ends with a non-space character |
| TextNorm.StripPadded | realbot.py:147 | stripping removes any whitespace around a word whose ends are not whitespace, and leaves exactly that word |
| TextNorm.IsSpace | realbot.py:147 | the characters CPython's `str.isspace` accepts, which `str.strip()` removes |
| TextNorm.TrimStart | realbot.py:147 | drops leading whitespace |
| TextNorm.TrimEnd | realbot.py:147 | drops trailing whitespace |
| TextNorm.Strip | realbot.py:147 | `str.strip()`: drops whitespace at both ends; its meaning is stated by `StripShape`, `StripPadded` and `StripSplits` |
| TextNorm.StripSplits | realbot.py:147 | the text is its stripped form with only whitespace before and after it |
| TextNorm.Lower | realbot.py:120 | lower-casing keeps the length of the text |
| TextNorm.LowerChar | realbot.py:120 | `str.lower()` on one character, for ASCII and basic Cyrillic capitals; other characters are unchanged |
| TextNorm.LowerCharKeepsSpace | realbot.py:120 | lower-casing maps whitespace to whitespace and non-whitespace to non-whitespace |
| TextNorm.LowerTrimStart | realbot.py:120 | lower-casing commutes with dropping leading whitespace |
| TextNorm.LowerTrimEnd | realbot.py:120 | lower-casing commutes with dropping trailing whitespace |
| TextNorm.NormalizeCommutes | realbot.py:120 | `text.strip().lower()` equals `text.lower().strip()` |
| TextNorm.Normalize | realbot.py:120 | the first question's normalisation: strip, then lower-case |
| TextNorm.YesNo | realbot.py:120-126 | reads the normalised text as yes for "да", no for "нет", and rejects anything else |
| TextNorm.PaddedAnswer | realbot.py:120-126 | any letter-case spelling of "да" or "нет", with any whitespace around it, is accepted and read as the word it spells |
| TextNorm.AcceptedIsPaddedWord | realbot.py:120-126 | the converse of `PaddedAnswer`: every accepted text is a letter-case spelling of "да" or "нет" with only whitespace around it, read as the word it spells, so only the exact words are accepted |
| TextNorm.KeyboardYesAccepted | realbot.py:91 | the keyboard button "Да", with any whitespace around it, is read as yes |
| TextNorm.KeyboardNoAccepted | realbot.py:91 | the keyboard button "Нет", with any whitespace around it, is read as no |
| TextNorm.ExtraCharactersRefused | realbot.py:122-124 | "да!" is refused whatever whitespace surrounds it |
| Routing.FirstMatch | realbot.py:65-218 | the chosen index is in range, its handler's filters pass, no earlier handler's filters pass, and no index is chosen only when no handler's filters pass |
| Routing.Matches | realbot.py:65-218 | the filters each handler is registered with (lines 65, 106, 117, 144, 173, 218): the two commands, the three state-and-text filters and the bare text filter; `Registration` lists the handlers in decorator order |
| Routing.StateHandler | realbot.py:117-218 | the handler that owns text in each state, the fallback standing for no state |
| Routing.Route | realbot.py:65-218 | the handler chosen for a message has all its filters passing |
| Routing.RouteTable | realbot.py:65-218 | `/start` goes to `cmd_start` and `/help` to `cmd_help` in every state; any other non-empty text goes to the current state's question handler, or to `fallback` when idle; a message is dropped exactly when it has no text |
| Survey.TextOf | realbot.py:120 | `message.text or ""`: the text of a message, empty when it has none (also lines 147, 177) |
| Survey.HasText | realbot.py:117 | the `F.text` filter: the message has non-empty text (also lines 144, 173, 218) |
| Survey.SessionOf | realbot.py:23 | looking a user up in the FSM storage: an unseen user reads as no state and empty data |
| Conversation.Restart | realbot.py:65-103 | `cmd_start`: without a pool raises and changes nothing; otherwise upserts the sender, sets the session to `WantPlay` with empty data and greets |
| Conversation.ShowHelp | realbot.py:106-114 | `cmd_help`: replies with the help text and changes nothing |
| Conversation.AnswerWantPlay | realbot.py:117-141 | `q_want_play`: re-prompts unless the text reads as yes or no; otherwise merges `want_play` into the data and moves to `FavClass` |
| Conversation.AnswerFavClass | realbot.py:144-170 | `q_fav_class`: re-prompts on blank text; otherwise merges the stripped class into the data and moves to `Style` |
| Conversation.AnswerStyle | realbot.py:173-215 | `q_style`: re-prompts on blank text, then raises without a pool, raises on a foreign-key violation, and otherwise appends the row, clears the session and reports the row |
| Conversation.Guide | realbot.py:218-224 | `fallback`: replies with guidance and changes nothing |
| Conversation.UserOf | realbot.py:84-86 | the `users` row upserted for the sender: their full name and handle |
| Conversation.Apply | realbot.py:65-224 | the dispatcher calling the chosen handler |
| Conversation.Step | realbot.py:23 | one inbound message: route on the sender's state, then apply the chosen handler; an unrouted message changes nothing |
| Conversation.Run | realbot.py:230 | a sequence of messages handled one after another |
| Conversation.Inv | realbot.py:43-60 | consistency of storage and tables: session data fits its state, everyone mid-survey has a `users` row, every answer row is complete and refers to a `users` row |
| Conversation.StepPreservesInv | realbot.py:65-224 | every dispatch keeps the storage and tables consistent: each session's data fits its state, everyone mid-survey has a `users` row, and every answer row is complete and refers to a `users` row |
| Conversation.RestartPreservesInv | realbot.py:65-103 | `cmd_start` keeps the storage and tables consistent |
| Conversation.WantPlayPreservesInv | realbot.py:117-141 | `q_want_play` keeps the storage and tables consistent |
| Conversation.FavClassPreservesInv | realbot.py:144-170 | `q_fav_class` keeps the storage and tables consistent |
| Conversation.StylePreservesInv | realbot.py:173-215 | `q_style` keeps the storage and tables consistent; the row it appends is complete |
| SurveyProperties.RestartFromAnyState | realbot.py:65-103 | `/start` in any state upserts the sender, sets the session to `WantPlay` with empty data, asks the first question and leaves the answers alone |
| SurveyProperties.RestartWithoutPool | realbot.py:71-72 | without a pool `/start` raises and changes nothing |
| SurveyProperties.RestartIdempotent | realbot.py:65-103 | sending `/start` twice has the same effect and reply as sending it once |
| SurveyProperties.UpsertLatestWins | realbot.py:76-87 | after two `/start` from the same id, that id has one `users` row holding the later name and handle; other rows are unchanged and no other id appears |
| SurveyProperties.InvalidYesNoChangesNothing | realbot.py:120-124 | in `WantPlay`, text that does not normalise to "да" or "нет" changes neither the storage nor the tables and only re-prompts |
| SurveyProperties.ValidYesNoAdvances | realbot.py:120-141 | in `WantPlay`, an accepted word stores `want_play` as "the word is да", keeps the other data, moves to `FavClass` and asks the second question; nothing else changes |
| SurveyProperties.BlankAnswerChangesNothing | realbot.py:147-150 | in `FavClass` or `Style`, text that is all whitespace changes nothing and re-prompts for that question (`q_style` at lines 177-180 behaves the same) |
| SurveyProperties.FavClassAdvances | realbot.py:147-170 | in `FavClass`, text that is not all whitespace is stored stripped, the state moves to `Style`, the last question is asked, and nothing else changes |
| SurveyProperties.CommitAppendsOneRow | realbot.py:177-215 | in `Style` with a consistent store, non-blank text appends exactly one row (sender, stored answers, stripped style), both stored answers are present, the session is cleared, and the summary shows that row |
| SurveyProperties.CommitWithoutPool | realbot.py:182-187 | without a pool the last answer raises, appends nothing and leaves the session in `Style` with its data |
| SurveyProperties.CommitOnlyWhenComplete | realbot.py:173-204 | an answer row is written only by the last question, only with both earlier answers present, and always together with clearing the session |
| SurveyProperties.NoForeignKeyViolation | realbot.py:55 | with a consistent store the database never rejects an answer row for an unknown user |
| SurveyProperties.HelpChangesNothing | realbot.py:106-114 | `/help` in any state only replies |
| SurveyProperties.IdleTextFallsBack | realbot.py:218-224 | outside the survey, non-empty text other than the two commands reaches `fallback` and changes nothing |
| SurveyProperties.SurveyStateOwnsText | realbot.py:117-178 | inside the survey, non-empty text other than the two commands, unknown commands included, is handled as the current question's answer |
| SurveyProperties.NoTextIgnored | realbot.py:117-218 | a message without text reaches no handler and changes nothing |
| SurveyProperties.AnswersOf | realbot.py:192-202 | a user's answer rows contain exactly the rows of the table whose `user_id` is that user, and there are no more of them than rows in the table |
| SurveyProperties.AnswersOfCounts | realbot.py:192-202 | a user's answer rows hold each of that user's rows as many times as the table does, and no row of anyone else |
| SurveyProperties.EventsOf | realbot.py:23 | a user's events are exactly the events of the sequence sent by that user |
| SurveyProperties.AnswersAppendOnly | realbot.py:192-202 | a dispatch either leaves the answers as they were or appends exactly one row, and that row belongs to the sender |
| SurveyProperties.AnswersOfAppend | realbot.py:192-202 | appending a row adds it to its own user's rows and to no one else's |
| SurveyProperties.StepLeavesOthersAlone | realbot.py:23 | a dispatch changes nothing about any user other than the sender: their session, their `users` row and their answer rows |
| SurveyProperties.StepDependsOnlyOnSender | realbot.py:23 | the result of a dispatch, for the sender and in its reply, depends only on what the storage and the tables hold about the sender |
| SurveyProperties.StyleDependsOnlyOnSender | realbot.py:173-215 | `q_style`'s result, for the sender and in its reply, depends only on what the storage and the tables hold about the sender |
| SurveyProperties.RunIsolation | realbot.py:23 | after any interleaving of events from many users, everything about one user is what that user's own events, handled alone in the same order, would have produced |
| SurveyProperties.RunPreservesInv | realbot.py:65-224 | consistency holds after any sequence of events |
| SurveyProperties.ScenarioWantPlay | realbot.py:117-141 | after `/start`, an accepted yes/no moves the user to `FavClass` with that answer stored |
| SurveyProperties.ScenarioFavClass | realbot.py:144-170 | then a stripped class moves the user to `Style` with the class stored |
| SurveyProperties.ScenarioStyle | realbot.py:173-215 | then a stripped style writes the one complete answer row and leaves the session cleared |
| SurveyProperties.SurveyEndToEnd | realbot.py:65-215 | `/start`, then "Да" or "Нет" in any letter case, a class and a style from one user, starting empty, leave exactly one answer row (id, yes/no, class, style), one `users` row and an idle session |
| Bot.SessionStore.constructor | realbot.py:23 | the in-memory storage starts empty |
| Bot.SessionStore.Get | realbot.py:182 | the storage lookup behind `state.get_data()`: an unseen user reads as no state and empty data |
| Bot.SessionStore.SetState | realbot.py:97 | setting the state keeps the user's data and touches no other user |
| Bot.SessionStore.SetData | realbot.py:127 | the write half of `update_data` (also line 152): stores the merged data, keeps the user's state and touches no other user |
| Bot.SessionStore.Clear | realbot.py:96 | clearing leaves the user idle with empty data and touches no other user |
| Bot.SurveyBot.constructor | realbot.py:22-24 | a bot starts with empty FSM storage over `users` and `dnd_answers` tables that survive restarts (lines 43, 53), given they are consistent; the resulting state is consistent |
| Bot.SurveyBot.CmdStart | realbot.py:65-103 | from a consistent state, the in-place `cmd_start` produces exactly the `Restart` transition and keeps the state consistent |
| Bot.SurveyBot.CmdHelp | realbot.py:106-114 | `cmd_help` changes nothing and replies with the help text |
| Bot.SurveyBot.QWantPlay | realbot.py:117-141 | called as registered (text, sender in `WantPlay`) from a consistent state, the in-place `q_want_play` produces exactly the `AnswerWantPlay` transition and keeps the state consistent |
| Bot.SurveyBot.QFavClass | realbot.py:144-170 | called as registered (text, sender in `FavClass`) from a consistent state, the in-place `q_fav_class` produces exactly the `AnswerFavClass` transition and keeps the state consistent |
| Bot.SurveyBot.QStyle | realbot.py:173-215 | called as registered (text, sender in `Style`) from a consistent state, the in-place `q_style` produces exactly the `AnswerStyle` transition and keeps the state consistent |
| Bot.SurveyBot.Fallback | realbot.py:218-224 | `fallback` changes nothing and replies with guidance |
| Bot.SurveyBot.Dispatch | realbot.py:65-224 | handling one message keeps the storage and tables consistent and has exactly the effect and reply of `Step`: first-match routing, then the chosen handler |

## Left out

- Reading `BOT_TOKEN` and `DATABASE_URL` from the environment (realbot.py:13-20) is I/O at start-up. The model has no configuration.
- Creating the pool and running the `CREATE TABLE` statements (realbot.py:34-62) are I/O. Whether the pool exists is the `dbAvailable` flag. The schema appears only through the row types and the foreign key on `dnd_answers.user_id`.
- The Telegram transport, polling and `main` (realbot.py:22, 227-234) are not modelled. Inbound messages are `Event` values, and replies are `Reply` kinds.
- The handlers are `async`, but each event is modelled as handled atomically, one after another. Interleavings inside a handler are not modelled.
- The reply texts and the reply keyboards are presentational. They are modelled as `Reply` kinds; the summary carries the row it reports.
- TextNorm.LowerChar: lower-cases ASCII letters and the basic Cyrillic capitals U+0400–U+042F only. Python's `str.lower` also covers the rest of Unicode, including multi-character results, which no answer the bot compares needs.
- TextNorm.IsSpace is CPython's `str.isspace` set of characters, taken as fixed.
- Recognising `/start` and `/help` (payloads after the command, a `@botname` suffix, letter case) is the transport's job. A message is classified as one of the two commands, other text, or no text. A media caption that is one of the two commands is classified as that command, because the command filters read captions too; any other caption is no text.
- `users.id` and `dnd_answers.user_id` are 64-bit in the database and unbounded in the model. The bot never does arithmetic on them.
- The generated `dnd_answers.id` and `created_at` columns are left out of `AnswerRow`. They are assigned by the database, and nothing in the bot reads them.
- The in-memory storage is keyed by chat and user. In a private chat these coincide, so the model keys by user id.
- Database failures other than a missing pool and the foreign key (connection loss, timeouts) are not modelled.
