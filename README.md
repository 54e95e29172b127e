# Per-user record store of a personal-assistant chat bot

This project models the data side of a Telegram bot that keeps, for each user, a mood
journal, an agenda and a list of exams. The data lives in one Fernet-encrypted JSON file.

- `UserDataManager` keeps every user's record in one in-memory dictionary.
- `get_user` creates a user's record on first access.
- Each `add_*` call appends to one of the user's three lists and rewrites the whole file.
- `clear_user` deletes a user and rewrites the file only when something was deleted.
- At start-up, a missing, undecryptable or unparsable data file gives an empty store.

The bot's `/journal`, `/recherche` and `/organisation` commands build their replies from a
user's record. The `/agenda`, `/exam`, `/ressenti` and `/delete` commands pass the message
on to the store.

Files:

- `records.dfy`, module `Records`: the record types (`JournalEntry`, `UserRecord`,
  `Dataset`). It also gives the effect of each store operation as a function from the old
  dataset to the new one, with lemmas about sequences of calls.
- `vault.dfy`, module `Vault`: the data file. Encryption is modelled symbolically: a token
  records the key it was made under, so decryption succeeds under exactly that key. JSON
  text is a constructor that `Loads` takes apart again. Start-up key selection and
  `_load`'s fallback policy (`LoadedData`) are here too.
- `userdata.dfy`, module `UserData`: the class `UserDataManager`. It holds a mutable `data`
  map, the `dataFile` it rewrites, and a ghost `saves` counter. Its invariant `Valid()`
  says that reloading the file would show every user the record held in memory. Two client
  methods restart the store on the disk a first store left behind.
- `text.dfy`, module `Text`: `"\n".join`, ASCII `str.lower` and substring membership.
- `filtering.dfy`, module `Filtering`: the conditional list comprehension
  `[x for x in xs if keep(x)]`, with what it selects and in which order.
- `handlers.dfy`, module `Handlers`: the reply functions, the conversation states, and the
  class `BotHandlers` with one method per modelled command.

Randomness, the clock and remote services become parameters:

- Fernet's IV and timestamp are the `Seal` argument of every method that writes the file.
- The freshly generated key is the `generated` argument of the constructor.
- For `ressenti_save`, today's date and the recommendation text are arguments.

One behaviour of the code worth knowing: `add_journal_entry` stores whatever date string
its caller passes, with no format check. `/ressenti` passes today's date as `YYYY-MM-DD`.

## Model

| member | source | states |
|---|---|---|
| Records.Touch | userdata.py:86-102 | `get_user` gives an unseen user exactly the empty record and changes no other key; on a known user the map is unchanged; no user's observable record changes |
| Records.GetUserTwice | userdata.py:98-102 | two `get_user` calls on an unseen id insert one record, once (size grows by one), and both see the same empty record |
| Records.WithJournalEntry | userdata.py:104-112 | `add_journal_entry` makes the user's journal the old journal plus `{text, date}`; agenda, exams and every other user are unchanged |
| Records.WithAgendaEvent | userdata.py:114-120 | `add_agenda_event` appends the text to the end of the user's agenda only; nothing else changes |
| Records.WithExam | userdata.py:122-128 | `add_exam` appends the text to the end of the user's exams only; nothing else changes |
| Records.WithoutUser | userdata.py:130-136 | `clear_user` removes exactly that user and keeps every other record; an absent user leaves the map unchanged |
| Records.ClearThenGetUser | userdata.py:130-136 | after `clear_user`, `get_user` yields a fresh empty record; the map shrinks by one exactly when the user was present |
| Records.ApplyOne | userdata.py:104-128 | one `add_*` call appends its text to the end of its own list only, and changes no other user |
| Records.AppendsInCallOrder | userdata.py:104-128 | any interleaving of `add_*` calls for one user appends each text to the end of its own list, in call order; other users are untouched |
| Records.AgendaCallsCount | userdata.py:114-120 | N agenda calls add exactly N events, the i-th call's text at position i |
| Records.JournalCallsCount | userdata.py:104-112 | N journal calls add exactly N entries, the i-th call's entry at position i |
| Records.ExamCallsCount | userdata.py:122-128 | N exam calls add exactly N exams, the i-th call's text at position i |
| Vault.Encrypt | userdata.py:78-80 | a token is made under, and bound to, the given key |
| Vault.Dumps | userdata.py:78 | parsing the JSON text of a dataset gives that dataset back |
| Vault.Decrypt | userdata.py:64-66 | decryption succeeds exactly when the token is valid and was made under the same key |
| Vault.DecryptEncrypt | userdata.py:64-80 | decrypting under the encryption key returns the plaintext |
| Vault.DecryptWrongKey | userdata.py:64-71 | decrypting under another key fails detectably |
| Vault.Loads | userdata.py:68 | parsing succeeds exactly on the JSON text of a dataset |
| Vault.StartupKey | userdata.py:29-39 | an existing key file is used unchanged; otherwise the generated key is used |
| Vault.LoadedData | userdata.py:50-71 | a missing file gives the empty map; a non-empty result only comes from a file that decrypts under the key and parses to that result |
| Vault.LoadAfterSave | userdata.py:50-84 | loading what `_save` wrote, under the same key, reproduces the saved map |
| Vault.LoadGarbled | userdata.py:64-71 | a file that is no valid token loads as the empty map, without failure |
| Vault.LoadUnderOtherKey | userdata.py:64-71 | a file saved under another key also loads as the empty map, so earlier data is dropped silently |
| UserData.UserDataManager.constructor | userdata.py:22-48 | start-up picks the key as `StartupKey` and leaves the key file holding that key (an existing file unchanged, otherwise the generated key written), loads the data file by the fallback policy, and establishes `Valid()` |
| UserData.UserDataManager.Load | userdata.py:50-71 | `_load` sets the map to `LoadedData` of the data file |
| UserData.UserDataManager.Save | userdata.py:73-84 | `_save` overwrites the file with the encryption of the whole map, so reloading it gives the map back; it counts one save |
| UserData.UserDataManager.GetUser | userdata.py:86-102 | returns the stored or the new empty record, updates the map as `Touch`, writes nothing, keeps `Valid()` |
| UserData.UserDataManager.AddJournalEntry | userdata.py:104-112 | the map becomes `WithJournalEntry` of the old map; exactly one save, whose file holds the whole new map |
| UserData.UserDataManager.AddAgendaEvent | userdata.py:114-120 | the map becomes `WithAgendaEvent` of the old map; exactly one save of the whole new map |
| UserData.UserDataManager.AddExam | userdata.py:122-128 | the map becomes `WithExam` of the old map; exactly one save of the whole new map |
| UserData.UserDataManager.ClearUser | userdata.py:130-136 | removes the user; saves once if the user was present, otherwise neither the file nor the save count changes; the file never holds the user afterwards |
| UserData.AgendaSurvivesRestart | userdata.py:22-71 | after `add_agenda_event` and a restart on the data file and key file left behind, whatever key the restart would generate, the user's agenda is the one loaded at first start-up plus the new event |
| UserData.ClearSurvivesRestart | userdata.py:130-136 | after `clear_user` and a restart on the data file and key file left behind, `get_user` returns the empty record |
| Text.JoinLines | bot_handlers.py:73 | `"\n".join`: the length is the total length of the lines plus one separator between each pair; the first line is a prefix |
| Text.JoinLinesEmpty | bot_handlers.py:173 | the joined text is empty exactly for no lines or a single empty line |
| Text.JoinLinesSnoc | bot_handlers.py:73 | joining one more line adds a newline and that line at the end |
| Text.LowerChar | bot_handlers.py:170-171 | ASCII lower-casing of a character: an upper-case letter moves to its lower-case letter, any other character is kept |
| Text.Lower | bot_handlers.py:170-171 | `str.lower` keeps the length, leaves no upper-case ASCII letter, and keeps every other character |
| Text.LowerIdempotent | bot_handlers.py:170-171 | lower-casing twice equals lower-casing once |
| Text.LowerSlice | bot_handlers.py:170-171 | lower-casing a slice equals slicing the lower-cased text |
| Text.ContainsLower | bot_handlers.py:170-171 | a keyword contained in a text is still contained once both are lower-cased |
| Text.ContainsLowerAnyCase | bot_handlers.py:170-171 | `mot in text.lower()` with `mot` the lower-cased keyword holds exactly when the keyword occurs in the text with ASCII letter case ignored |
| Text.SplitJoin | bot_handlers.py:73 | splitting on newlines undoes `"\n".join` of lines that hold no newline |
| Filtering.Filter | bot_handlers.py:171 | the comprehension never yields more elements than its input, and every element it yields is from the input and satisfies the condition |
| Filtering.FilterMembers | bot_handlers.py:171 | an element is in the result exactly when it is in the input and satisfies the condition |
| Filtering.FilterPositions | bot_handlers.py:171 | the result is the sub-sequence of the input at exactly the positions that satisfy the condition, in increasing order |
| Handlers.EntryLine | bot_handlers.py:73 | a `date: text` line starts with the date followed by a colon, and holds a newline only if the date or the text does |
| Handlers.JournalReply | bot_handlers.py:68-73 | `/journal` answers "Aucun ressenti." exactly when the journal is empty, and otherwise the entries' lines joined by newlines |
| Handlers.JournalReplyLines | bot_handlers.py:73 | when no date or text holds a newline, the reply of a non-empty journal has exactly one newline-separated line per entry, the i-th being `date: text` of the i-th entry |
| Handlers.JournalReplyAfterEntry | bot_handlers.py:73 | after one more journal entry, the listing is the old listing followed by the new entry's line |
| Handlers.Search | bot_handlers.py:171 | the matches are entries of the journal whose lower-cased text contains the word, never more than the journal holds (`Handlers.SearchFindsAnyCase` gives the converse) |
| Handlers.SearchReply | bot_handlers.py:170-173 | `/recherche` answers "Aucun résultat." exactly when no entry matches; otherwise it lists the matches as `/journal` does |
| Handlers.SearchIgnoresKeywordCase | bot_handlers.py:170 | the reply is the same for a keyword and its lower-cased form |
| Handlers.SearchFindsAnyCase | bot_handlers.py:170-173 | an entry is among the matches exactly when it is in the journal and its text contains the keyword with ASCII letter case ignored; such an entry makes the reply a listing, not "Aucun résultat." |
| Handlers.OrganisationReply | bot_handlers.py:181-183 | the reply is always `"Agenda:\n" + join(agenda) + "\nExamens:\n" + join(exams)`, so the "Vide." fallback never fires |
| Handlers.OrganisationAfterAgendaEvent | bot_handlers.py:182 | after `add_agenda_event`, the new event is the last line of the agenda section |
| Handlers.OrganisationAfterExam | bot_handlers.py:182 | after `add_exam`, the new exam is the last line of the reply |
| Handlers.BotHandlers.Journal | bot_handlers.py:63-74 | replies `JournalReply` of the sender's journal; an unseen sender gets an empty record in memory, and nothing is written |
| Handlers.BotHandlers.AgendaStart | bot_handlers.py:77-82 | prompts and moves to state 0 (`AGENDA`) |
| Handlers.BotHandlers.AgendaSave | bot_handlers.py:84-90 | stores the message text verbatim as the sender's agenda event, saves once with the file holding the whole new map, ends the conversation |
| Handlers.BotHandlers.ExamStart | bot_handlers.py:93-96 | prompts and moves to state 1 (`EXAM`) |
| Handlers.BotHandlers.ExamSave | bot_handlers.py:98-102 | stores the message text verbatim as the sender's exam, saves once with the file holding the whole new map, ends the conversation |
| Handlers.BotHandlers.RessentiStart | bot_handlers.py:105-110 | prompts and moves to state 2 (`RESSENTI`) |
| Handlers.BotHandlers.RessentiSave | bot_handlers.py:112-131 | journals the text under today's date, saves once with the file holding the whole new map, replies with the recommendation, ends the conversation |
| Handlers.BotHandlers.Recherche | bot_handlers.py:162-174 | with no argument, replies with the usage message and leaves the store untouched; otherwise replies `SearchReply` for the first argument, inserting an empty record for an unseen sender and writing nothing |
| Handlers.BotHandlers.Organisation | bot_handlers.py:177-183 | replies `OrganisationReply` of the sender's record; an unseen sender gets an empty record in memory, and nothing is written |
| Handlers.BotHandlers.Delete | bot_handlers.py:186-191 | clears the sender's record through `clear_user`, writing the new map only when there was a record, so a reload never finds the sender; confirms |

## Left out

- Fernet itself is not modelled: key generation, AES and HMAC, base64, and token expiry. Tokens are symbolic values that record their key.
- An invalid key file makes `Fernet(self.key)` raise at start-up. The model has no such failure.
- An unreadable key file is a fatal start-up error. The model has no such failure.
- JSON is not modelled byte by byte. A file that decrypts to valid JSON of another shape would be loaded as-is by the code. The model treats every non-dataset plaintext as unparsable, which gives the empty map.
- An interrupted write is not modelled. `_save` overwrites the file with a plain `open(..., 'wb')`, which is not atomic, while `Save` replaces the file in one step. A truncated file would be a `Garbled` token, which `Vault.LoadGarbled` shows loads as the empty map.
- Vault.Loads: the split of plaintexts into `JsonText` and `OtherBytes` is a modelling convention that the type does not enforce. `OtherBytes` never parses, even if its bytes happen to be a dataset's JSON text, which the code would load.
- File I/O errors are not modelled, so a failed write in `_save` raises nothing in the model.
- Dictionary insertion order is not modelled. A Dafny `map` has no order, and the order only affects the layout of the JSON text.
- Aliasing is not modelled. `get_user` returns the live dictionary, which callers could mutate. The model returns a copy of the record.
- Text.Lower: lower-cases ASCII letters only, because Python's Unicode case mapping is not modelled.
- The Telegram user id is given as the string the handlers already pass to the store. `str(user.id)` is not modelled.
- Sending replies is not modelled. Each handler returns its reply text instead of awaiting `reply_text`.
- Conversation dispatch (`ConversationHandler`, `app.py`) is not modelled. The wizard steps are methods that return the next state.
- `ressenti_save`: the three Oura fetches and the Cohere call are replaced by the `recommendation` argument, and `datetime.today()` by the `today` argument.
- `start` is not modelled. It replies with a constant help text.
- `oura_ring_4j` is not modelled. It does float division of seconds into hours and `.1f` formatting over remote data.
- `oura_client.py` and `cohere_client.py` are not modelled. They are HTTP and LLM API wrappers.
- Concurrency is not modelled. Handlers may run concurrently with no locking, and the model runs them one at a time.
