# Dialogue summarizer bot: per-chat message store and transcript formatter

The bot remembers the plain-text messages posted in each Telegram chat and
can ask a text-generation service to summarise them. This project models the
part of `DialogueSummarizerBot` that holds state and shapes data:

- the per-chat store `chat_messages`, a `defaultdict(list)` from chat id to
  history, capped at `MAX_MESSAGES_PER_CHAT = 100` records per chat;
- the handlers that touch it: `save_message`, `clear_command`,
  `count_command` and the store-side control flow of `summarize_command`;
- `_format_messages_for_summary`, which renders a history as one line
  `[HH:MM] username: text` per record, joined with `"\n"`.

Files:

- `messages.dfy` (module `Messages`): the record, the time of day and the sender.
  It also builds the record that `save_message` stores.
- `transcript.dfy` (module `Transcript`): the formatter, with reference definitions.
  These are the list of lines, Python's `"\n".join` and `str.split("\n")`.
  It also holds the lemmas tying the formatter to them.
- `history.dfy` (module `ChatHistory`): the capacity rule on one history.
  It also defines replaying a stream of saves.
- `bot.dfy` (module `SummarizerBot`): class `DialogueSummarizerBot`, with a
  `map<int, seq<MessageRecord>>` field and one method per handler.
  The reply of each handler is a datatype that records which branch was
  taken and the numbers it reports.
- `scenarios.dfy` (module `Scenarios`): client code.
  It saves two messages into chat 42 and formats them.
  Then it summarises with a failing upstream, clears and counts.

Reading `chat_messages[chat_id]` on a `defaultdict` inserts an empty list
for an unknown chat. So `clear_command`, `count_command` and
`summarize_command` add that key even when they change no history. The model
keeps this: those methods' contracts say the map becomes
`old(chatMessages)[chatId := old(History(chatId))]` (or `[]` for a clear),
and that every chat's history is unchanged (except the one cleared).

The text-generation call (`_get_summary`) is a parameter
`getSummary: string -> Result<string>` of `SummarizeCommand`. Its `request`
out-parameter is the transcript that was sent, or `None` when no call was
made.

An empty answer from the service is not a failure: the code returns the
stripped content, even an empty one, as the summary (telegram_bot.py:177).
In the model that is simply an `Ok("")` from `getSummary`.

## Model

| member | source | states |
|---|---|---|
| `Messages.MakeRecord` | telegram_bot.py:80-85 | The record copies the user id, the text and the time unchanged. Its name is the username when that is present and non-empty, and the first name otherwise. The name is empty exactly when both are. |
| `Transcript.Pad2` | telegram_bot.py:137 | A number below 100 prints as exactly two decimal digits whose value is that number (zero-padded). |
| `Transcript.FormatTime` | telegram_bot.py:137 | `%H:%M` prints five characters: two digits, `:`, two digits. Parsing them back gives the same hour and minute, so different times print differently. |
| `Transcript.FormatLine` | telegram_bot.py:137-140 | A record's line is `[HH:MM] `, then the name, then `: `, then the text, each piece at its exact position. |
| `Transcript.FormatTranscript` | telegram_bot.py:132-142 | The transcript is empty exactly when there are no records. Otherwise it starts with the first record's `[HH:MM] ` prefix. |
| `Transcript.TranscriptAppend` | telegram_bot.py:136-142 | One more record at the end adds `"\n"` and that record's line at the end of the transcript, as the loop appends lines in order. |
| `Transcript.TranscriptIsJoinOfLines` | telegram_bot.py:134-142 | The transcript equals `"\n".join` of the list with one formatted line per record, in record order. |
| `Transcript.SplitTranscript` | telegram_bot.py:140-142 | If no name or text holds a line break, splitting the transcript at `"\n"` gives back exactly the per-record lines, in order. |
| `Transcript.TranscriptKeepsOrder` | telegram_bot.py:136-142 | Take two different orderings of the same records, with pairwise distinct hour:minute. Their transcripts differ, so the output keeps the order. |
| `ChatHistory.KeepNewest` | telegram_bot.py:91-92 | Trimming keeps `min(length, 100)` records, and they are the newest ones (a suffix, in order). |
| `ChatHistory.SaveAllKeepsNewest` | telegram_bot.py:88-92 | Saving a stream of records one at a time into a history within the cap leaves the newest `min(total, 100)` records of old history plus stream, in order. |
| `ChatHistory.OverflowDropsOldest` | telegram_bot.py:88-92 | After 105 saves into an empty history, 100 records remain: the last 100 saved. The first 5 are gone. |
| `SummarizerBot.DialogueSummarizerBot.constructor` | telegram_bot.py:48-57 | The bot starts with an empty store in which every chat reads as an empty history. |
| `SummarizerBot.DialogueSummarizerBot.SaveMessage` | telegram_bot.py:73-92 | The chat's history becomes the trimmed `old + [record]`. Its length is `min(old + 1, 100)`: either the record was appended, or the oldest record was dropped and then the record appended. Every other chat is unchanged, and all histories stay within the cap. |
| `SummarizerBot.DialogueSummarizerBot.ClearCommand` | telegram_bot.py:183-192 | An empty or unknown chat replies "nothing to delete" and no history changes. Otherwise it reports the previous length (1 to 100) as removed and empties that history. Other chats are unchanged either way. |
| `SummarizerBot.DialogueSummarizerBot.CountCommand` | telegram_bot.py:199-211 | Replies "no messages" exactly when the history is empty (so also for an unknown chat). Otherwise it reports the history's length and the cap 100. No history changes. |
| `SummarizerBot.DialogueSummarizerBot.SummarizeCommand` | telegram_bot.py:96-130 | An empty history makes no upstream request and replies "nothing to summarise". Otherwise it sends exactly the history's transcript. On success it replies with the summary and the history's length; on failure, with the failure notice. No history changes in any branch. |
| `Scenarios.ExampleLines` | telegram_bot.py:137-140 | The record (09:00, alice, hi) prints as `[09:00] alice: hi`. The record (09:01, bob, hey) prints as `[09:01] bob: hey`. |
| `Scenarios.TwoLineTranscript` | telegram_bot.py:132-142 | Those two records in that order give `[09:00] alice: hi\n[09:01] bob: hey`. |

## Left out

- Telegram I/O is left out: the wording of every reply, the "typing" chat
  action, `start_command` and `error_handler`. Replies are modelled only by
  which branch is taken and the numbers reported.
- The OpenAI request in `_get_summary` is not modelled. That covers the
  prompt text, the model name, `max_tokens`, `temperature`,
  `.strip()` and the logging. It is a foreign network call, and the model
  takes it as the opaque parameter `getSummary`.
- `datetime.now()`, `isoformat` and `fromisoformat` are not modelled. The
  record holds the hour and minute it was saved at, the only fields the
  transcript shows; the date, seconds and microseconds are not kept.
- Configuration loading, the exit on missing secrets, logging setup and the
  polling loop in `main` are process plumbing and are not modelled. So is the
  `MessageHandler` filter that passes only non-command text messages: any
  string is accepted as a message text.
- Asynchronous interleaving is not modelled. Each handler runs as one
  sequential method. In `summarize_command` the only `await` that can give
  control back to the event loop before the history is read is the "typing"
  action at telegram_bot.py:108. The upstream call awaited at line 115 does not
  suspend, because `_get_summary` calls the synchronous OpenAI client and
  contains no `await`. So the length read at line 119 is that of the history
  formatted at line 112. The application built at line 234 handles updates one
  at a time. If handlers did run concurrently, a `/clear` at line 108 would
  make the source send an empty transcript upstream. The model's "no request
  exactly when the history is empty" would then not describe the source.
- In-place list mutation and aliasing are not modelled: `.append`, `.clear()`,
  and the bot's field aliasing the module-level `chat_messages`. Histories are
  sequence values in a single map field that the methods reassign. The code
  never hands a history list to anyone else, so no behaviour is lost.
- Exceptions raised inside `summarize_command`'s `try` block other than the
  upstream failure are not modelled. Formatting a record the bot itself
  stored cannot fail. The Markdown reply at telegram_bot.py:124 can fail,
  for example when Telegram rejects unbalanced `*` or `_` in the summary.
  Then the handler at line 126 sends the failure notice even though upstream
  succeeded, while the model replies `Summary`.
