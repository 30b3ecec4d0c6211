# gepeto: conversation assembly, message store and Telegram routing

A Dafny model of the core of *gepeto*, a chat bot that relays messages to a
language-model completion API. Three parts are modelled:

- **Message store** (`src/database.py`). A per-user, append-only log of
  `{user_sid, role, content}` records. A read returns the `{role, content}`
  pairs of one user in store order. Storage errors are logged and swallowed, and
  a failed read returns `None`. In the model the store is
  `Connected(records) | Unconnected`. `Unconnected` is a store whose constructor
  failed. Transient I/O errors are boolean parameters of each call.
- **Conversation assembler** (`src/open_ai_api.py`). `ask_gpt` takes three steps:
  1. It persists the user's turn and reloads that user's history.
  2. It puts the fixed system message in front. That message is never stored.
  3. It calls the completion model once, then persists and returns every
     returned choice in order.

  Every failure becomes a `ConnectionError`. The completion call is a function
  parameter (`Completion`). The model records the exact list handed to it.
- **Telegram routing** (`src/telegram_bot.py`). The bot answers a message from
  a private chat, or one whose lowered text contains `gepeto`. It replies with
  the returned texts joined with no separator. Any other message goes to the
  record-only path.

Files:
- `wrappers.dfy`: `Option` and `Result`.
- `strings.dfy`: the Python string builtins used. These are `str.lower`
  (ASCII), `str.find`, `str(int)` with its inverse, and `''.join`.
- `message_store.dfy`, `assembler.dfy`, `telegram_bot.dfy`: one module per
  source file.

Two calls in the source reach methods that their receivers do not define:
- `insert_user` (`src/open_ai_api.py:11`).
- `insert_group_message` (`src/telegram_bot.py:33`).

Each one is a hook with two variants. One variant is the code as written, where
the call raises. The other stands for a receiver that does define the method.
See "## Findings".

Behaviour of the code worth noting:
- **History reads.** A failed read makes `ask_gpt` raise a `ConnectionError`.
  It does not continue with an empty history.
- **Model failures.** A failed completion call raises. It does not produce a
  fallback reply.
- **Stored roles.** Each choice is stored under the role the provider
  returned. The role is not forced to `assistant`.
- **Missing features.** The code has no token-budget trimming, no retention
  window, and no `delete_all`.

## Model

| member | source | states |
|---|---|---|
| MessageStore.Open | src/database.py:6-10 | The store is usable exactly when the backing file opened; a connected store holds the loaded records |
| MessageStore.FailedOpenDisablesStore | src/database.py:7-24 | After a failed constructor every insert leaves the store as it was and every read returns `None` |
| MessageStore.InsertMessage | src/database.py:12-16 | On success exactly one record with the given user, role and content is appended and every earlier record is unchanged; on any failure nothing is raised and the store is unchanged |
| MessageStore.Filter | src/database.py:20 | The filter returns as many records as the user owns, each belonging to that user and taken from the store |
| MessageStore.GetMessagesByUserSid | src/database.py:18-24 | `None` exactly when the store is unusable or the read fails; otherwise one `{role, content}` entry per record of the user, each projected from a stored record of that user |
| MessageStore.FilterKeepsEveryOwnedRecord | src/database.py:20 | Every record of the user is returned, at the position given by the number of that user's records before it: nothing dropped, nothing reordered, no retention window |
| MessageStore.ReadReturnsEveryMessageInOrder | src/database.py:20-22 | A read returns each of the user's records as its role and content, in insertion order |
| MessageStore.HistoryOfAppend | src/database.py:14-22 | Appending a record extends its owner's history by that message and leaves every other user's history unchanged |
| MessageStore.InsertExtendsOwnHistory | src/database.py:12-22 | After a successful insert, the user's read is the earlier read plus the new `{role, content}` at the end |
| MessageStore.InsertLeavesOtherUsers | src/database.py:14-20 | Inserting for one user, whether or not it fails, leaves every other user's reads unchanged |
| Strings.Lower | src/telegram_bot.py:28 | `text.lower()` keeps the length and lowers each ASCII capital, leaving every other character as it is (ASCII only, see Left out) |
| Strings.IntToString | src/telegram_bot.py:30 | `str(chat.id)` is a non-empty decimal rendering, with a minus sign for negative group ids; its inverse is stated by `Strings.IntToStringRoundTrip` |
| Strings.Find | src/telegram_bot.py:28 | `find` returns -1 iff the pattern occurs nowhere, otherwise the lowest index where it occurs |
| Strings.IntToStringRoundTrip | src/telegram_bot.py:30 | `str(chat.id)` reads back as the chat id |
| Strings.IntToStringInjective | src/telegram_bot.py:29-34 | Distinct chats get distinct conversation identifiers |
| Strings.Join | src/telegram_bot.py:31 | The joined reply is as long as all parts together |
| Strings.JoinPlacesEachPart | src/telegram_bot.py:31 | Part k of the join sits right after parts 0..k-1, with no separator |
| Assembler.InsertInitialData | src/open_ai_api.py:10-15 | A missing `insert_user` raises before any write; the only record ever added is the user's turn with role `user`, so the system message is never stored; the prepend fails exactly when the read fails; a built list is the system message followed by the user's stored history |
| Assembler.PreparedListEndsWithUserMessage | src/open_ai_api.py:12-15 | With a working store the list is `[system] + earlier history + [user turn]`, one longer than the user's stored messages |
| Assembler.GetResponse | src/open_ai_api.py:17-22 | Returns exactly the choices' contents in order whatever inserts fail; the store only grows, by at most one record per choice, and earlier records are untouched |
| Assembler.GetResponseStoresOnlyChoices | src/open_ai_api.py:19-20 | Every record added is the user's record of a choice whose insert did not fail |
| Assembler.GetResponseStoresOnePerChoice | src/open_ai_api.py:19-20 | Without write failures exactly one record is added per choice |
| Assembler.GetResponseStoresEveryChoice | src/open_ai_api.py:19-20 | Without write failures the added records follow choice order, each with that choice's own role and content |
| Assembler.GetResponseExtendsHistory | src/open_ai_api.py:17-22 | Without write failures the user's history gains exactly the choices' messages, in order |
| Assembler.GetResponseLeavesOtherUsers | src/open_ai_api.py:19-20 | Persisting choices never changes another user's reads |
| Assembler.AskGpt | src/open_ai_api.py:25-34 | The model is called iff the list was built, and receives exactly that list, which starts with the system message; after a success the store is what persisting the choices left; a result is exactly the provider's choice contents in order; every failure is a `ConnectionError`, and a completion failure carries the provider's reason; on failure the store keeps what was written before it |
| Assembler.AskGptSendsPromptHistoryAndTurn | src/open_ai_api.py:12-15 | With a working store and no fault on the user's insert or the read (choice inserts may fail) the list sent to the model is `[system] + earlier history + [user turn]` |
| Assembler.AskGptGrowsHistory | src/open_ai_api.py:25-32 | A successful call grows the user's history by the user turn followed by one message per choice (1 + number of choices) |
| Assembler.FirstExchangeStoresTwoMessages | src/open_ai_api.py:25-32 | The first exchange of a new conversation with one choice stores the question and the answer and returns that one answer |
| Assembler.AskGptLeavesOtherUsers | src/open_ai_api.py:25-34 | Whatever succeeds or fails, other users' reads are unchanged |
| Assembler.CompletionFailureKeepsUserMessage | src/open_ai_api.py:26-34 | A failing completion surfaces as a `ConnectionError` and the user's persisted message is not rolled back |
| Assembler.ReadFailureRaisesBeforeCompletion | src/open_ai_api.py:12-34 | A failed history read raises a `ConnectionError` before the model is called, keeping the user's insert |
| Assembler.MissingInsertUserAlwaysFails | src/open_ai_api.py:11 | With the store as written, every `ask_gpt` raises a `ConnectionError`, never calls the model and stores nothing |
| TelegramBot.RouteOf | src/telegram_bot.py:28-34 | Exactly one branch runs, with `str(chat.id)` and the unmodified text; the answer branch iff the chat is private or the lowered text contains `gepeto` somewhere |
| TelegramBot.HandleRequest | src/telegram_bot.py:21-34 | Only the answer branch requests a completion or sends a reply; the record-only branch does neither; the answer branch is exactly `ask_gpt` with `str(chat.id)` and the text: its store and sent list, its texts joined as the reply when it returns, its `ConnectionError` escaping when it raises |
| TelegramBot.PrivateChatIsAnswered | src/telegram_bot.py:28-31 | A private chat is always answered through `ask_gpt` with `str(chat.id)` and the text as sent: same store, same sent list, joined reply or escaping error |
| TelegramBot.GroupMentionIsAnswered | src/telegram_bot.py:28-31 | Any chat whose lowered text contains `gepeto` somewhere is answered exactly the same way |
| TelegramBot.MentionIgnoresCase | src/telegram_bot.py:28 | A text and its lowered form are routed alike |
| TelegramBot.MentionExamples | src/telegram_bot.py:28 | "GEPETO" and "Oi, Gepeto!" address the bot; "bom dia" does not |
| TelegramBot.UnaddressedRecordsOnly | src/telegram_bot.py:32-34 | A non-private message without the name goes only to the record-only operation, with the same id and text; no completion, no reply |
| TelegramBot.MissingGroupRecorderRaises | src/telegram_bot.py:33 | As written, the record-only branch raises, stores nothing, and requests no completion and sends no reply |
| TelegramBot.ReplyIsChoicesInOrder | src/telegram_bot.py:29-31 | The reply is the returned texts joined in provider order, each at its offset |

## Findings

| source | as written | input that shows it | evidently intended | confidence | as-written member | corrected member |
|---|---|---|---|---|---|---|
| src/open_ai_api.py:11 | `_insert_initial_data` calls `insert_user`, which the `Database` class of `src/database.py` does not define, so every call raises `AttributeError`, wrapped as `ConnectionError` | `ask_gpt("1", "oi")` on any store | register the user without touching the message log, then persist, read and ask | high; not executed | Assembler.MissingInsertUserAlwaysFails | Assembler.AskGptGrowsHistory |
| src/telegram_bot.py:33 | the record-only branch calls `insert_group_message`, which `OpenAIAPI` does not define, so the exception escapes `handle_request` and nothing is recorded | a group message "bom dia" | record the message without asking the model and without replying | high; not executed | TelegramBot.MissingGroupRecorderRaises | TelegramBot.UnaddressedRecordsOnly |

## Left out

- `src/twilio_bot.py`, `src/azure_speech_recognizer.py`, `src/graph_ql_client.py`, `app.py`, `src/main.py`: transport, speech SDK, GraphQL network client and start-up glue with no logic of their own. The GraphQL client's 7-day window and sort happen server-side.
- The completion call itself is a function parameter. The model identifier, API key and network are not modelled.
- Sending the reply (`reply_to`) and all logging are I/O. `reply` is the text that would be sent.
- Exception messages are not modelled. `ConnectionError` keeps only its cause, without the text "Error communicating with OpenAI: …".
- The document id that the store adds to each record is not modelled. A read never returns it.
- The insert-user operation is abstract. `InsertUserDefined` stands for a store where it succeeds without touching the message log.
- The group recorder is abstract. It is any function of the store, id and text, and the only property claimed for it is that no completion is requested and no reply is sent.
- Strings.Lower: folds only ASCII capitals. Python's `str.lower` folds every Unicode capital.
- Non-text Telegram messages, whose `text` is `None`: the handler is registered for text messages only.
- Concurrency between requests is not modelled. Each request is one sequential state transition.
- Assembler.GetResponseStoresOnlyChoices: when some choice inserts fail, states only that each appended record comes from a non-failed choice, and that there is at most one per choice. It does not give the exact list.
