# xbot storage and handler logic in Dafny

This project models the logic of the xbot Telegram bot that does not depend on
the network. Every outcome of a collaborator is a parameter, and so are the
clock and the IDs the drivers generate: an insert's error and `_id`, an S3
listing failure, the HTTP exchange with Gemini, `time.Now()`.

- **Message archive** (`internal/dao/message.go`): the `MessageStorage`
  interface and its two backends.
  - The MongoDB collection is a sequence of `Message` in insertion order.
  - The S3 bucket is a map from object key to `Message`.
  - Both `SaveMessage` methods update the caller's `*Message` in place
    (`MessageRecord`). The reads are loops proved against specification
    functions:
    - the chat's documents in collection order, for MongoDB;
    - the objects under seven consecutive per-day key prefixes, sorted by
      `createdAt`, for S3.
  - The key scheme `chatID/YYYY/MM/DD/id.json` is proved to place each key
    under exactly one (chat, day) prefix.
- **Storage selection** (`dao.go`, `mongo.go`, `minio.go`): the package
  variables are the fields of `Dao.DataAccess`. Each start-up step is a method
  whose new state is a step function of the old one.
- **Prompts** (`mongo.go`): `SavePromt`/`GetPromt` form an upsert keyed by chat.
- **Daily polls** (`dao/poll.go`, `dao/pull.go`, `bot/poll.go`, `bot/pull.go`):
  - the keyed record stores;
  - the get-or-create command handlers, which return the Bot API calls they make;
  - the decision the vote handler makes.
- **bot.go helpers**:
  - the transcript of `prepareChatHistory`;
  - the counting, ranking and top-ten text of the `/hualao` leaderboard;
  - command-argument extraction for `/gpt` and `/ask`;
  - the model-list fallback.
- **Gemini client** (`internal/pkg/gemini/client.go`): the `TopK` default, the
  request, and the error chain that `GenerateImage` applies to the response.

Helper modules:

- `Common`: Option, Result, opaque external errors.
- `Documents`: MongoDB `FindOne` over documents in natural order.
- `ObjectIds`: the 12-byte BSON ObjectID and its hex form.
- `Decimal`: Go's `%d` and `%0Nd`.
- `Calendar`: dates with the one-day steps of `AddDate`.
- `Telegram`: the update fields the bot reads.
- `Sorting`: `sort.Slice`, as an in-place insertion sort on an array.

## Model

| member | source | states |
|---|---|---|
| Messages.MessageRecord.Stamp | internal/dao/message.go:48-54 | both timestamps become `now`; the chat ID is taken from `Update.Message.Chat.ID` exactly when both are non-nil, otherwise the caller's is kept; ID and update unchanged |
| Messages.SavedChatId | internal/dao/message.go:52-54 | the chat ID after a save is the update's message chat when the update carries a message, else the old one |
| Messages.MongoDBStorage.SaveMessage | internal/dao/message.go:47-61 | stamps the caller's record; an insert error is returned and nothing is stored; otherwise the record gets the driver's ID and is appended to the collection |
| Messages.MongoDBStorage.GetMessageByChatID | internal/dao/message.go:64-85 | fails exactly when `Find`, a decode of one of the chat's documents, or the cursor fails; otherwise returns the chat's documents in collection order (`ByChat`) |
| Messages.ByChatContents | internal/dao/message.go:64-85 | the read holds exactly the chat's documents, each as often as stored |
| Messages.ByChatOnlyChat | internal/dao/message.go:64-85 | every document returned belongs to the chat |
| Messages.ByChatAppend | internal/dao/message.go:47-85 | filtering distributes over appending, so later saves come back later |
| MessageKeys.GenerateKey | internal/dao/message.go:101-108 | the key is the day prefix `%d/%04d/%02d/%02d/` of chat and date, followed by the ID and `.json` |
| MessageKeys.PrefixesAgree | internal/dao/message.go:157-161 | a key lies under at most one (chat, day) prefix |
| MessageKeys.KeyUnderPrefix | internal/dao/message.go:157-161 | the key of a message saved for chat a on day d is listed under the prefix of chat b and day e iff a = b and d = e |
| MessageKeys.WindowBound | internal/dao/message.go:149-155 | the day j days before today is among the days read iff j <= 6 |
| MessageKeys.KeyInWindow | internal/dao/message.go:149-167 | a message saved for chat a on day d is visible to the read for chat b on `today` iff a = b and d is one of the seven days |
| Decimal.PadIntInjective | internal/dao/message.go:102-107 | two different numbers never format alike at the same `%0Nd` width |
| Decimal.ParsePadInt | internal/dao/message.go:102-107 | the padded decimal text reads back as the number it was made from |
| Calendar.SuccPred | internal/dao/message.go:155 | stepping a day forward and back, or back and forward, returns the same valid date |
| Calendar.BackInjective | internal/dao/message.go:150 | different distances back from the same day give different days |
| Messages.WindowStart | internal/dao/message.go:150 | the first day read is six days before today and not after it |
| Messages.WindowStep | internal/dao/message.go:155-167 | one turn of the day loop visits a new day of the window; its keys are new and extend the visited keys; the next date is the following day, or the day after today at the end |
| Messages.KeysOnAdd | internal/dao/message.go:155-167 | adding a day adds exactly that day's keys, which are disjoint from those already visited |
| Messages.ObjectError | internal/dao/message.go:175-193 | an object's get, read or unmarshal failure is reported with that object's key and cause |
| Messages.ListsConcat | internal/dao/message.go:155-197 | listings of disjoint key sets, one after the other, list the union once each |
| Messages.ReadsMembership | internal/dao/message.go:170-197 | a message is among those read iff some listed key stores it |
| Messages.ScanKeys | internal/dao/message.go:170-197 | stops with the error of some failing listed object, or reads every listed key once, in listing order, each key's stored message |
| Messages.S3MessageStorage.ScanDay | internal/dao/message.go:157-197 | same, over exactly the keys under the day's prefix for the chat |
| Messages.S3MessageStorage.ScanWindow | internal/dao/message.go:147-198 | fails iff some day's listing or some object under the seven prefixes fails; otherwise reads every key under the seven day prefixes exactly once |
| Messages.DayListFailure | internal/dao/message.go:171-172 | a failing listing of a visited day makes the read fail |
| Messages.DayObjectFailure | internal/dao/message.go:175-193 | a failing object under a visited day makes the read fail |
| Messages.NoScanFailure | internal/dao/message.go:155-198 | when no day's listing and no visited object fail, the read does not fail |
| Messages.S3MessageStorage.GetMessageByChatID | internal/dao/message.go:147-206 | fails iff the scan fails; otherwise the result is sorted by `CreatedAt` (non-decreasing) and is a permutation of the messages under the window's keys |
| Messages.S3MessageStorage.SaveMessage | internal/dao/message.go:111-144 | stamps the record; an ID is generated only when the record's is zero; a marshal or put error is returned wrapped and the bucket is unchanged; otherwise the message is stored under `GenerateKey(chat, hex id, today)` |
| Sorting.SortBy | internal/dao/message.go:201-203 | sorts the array in place, non-decreasing by the key, keeping the same multiset of elements |
| ObjectIds.HexRoundTrip | internal/dao/message.go:134 | parsing an ID's hex form gives back the same ID |
| ObjectIds.FromHex | internal/dao/poll.go:49-52 | any string that is not 24 characters long fails to parse |
| Dao.MongoInitStep | internal/dao/mongo.go:30-45 | a nil client is an error, with nothing assigned but the client; otherwise the four collections are set and the storage becomes MongoDB over `messages` |
| Dao.NewMinioClient | internal/dao/minio.go:17-27 | fails iff `minio.New` fails; otherwise a TLS client with the configured endpoint and static credentials |
| Dao.InitMinioStep | internal/dao/minio.go:30-66 | an empty endpoint changes nothing and succeeds; only the client and the storage can change; once creation succeeds the client holds the configured endpoint, keys and TLS on; the storage changes only to S3 when every step succeeded; the bucket is created iff reported missing; errors exactly on client, check or create failure |
| Dao.DaoInitStep | internal/dao/dao.go:16-43 | `"mongodb"` selects MongoDB over the messages collection; `"s3"` forwards `InitMinio` and wraps its error; any other value changes nothing; no path returns `ErrNoStorage` |
| Dao.S3WithoutEndpointKeepsBackend | internal/dao/dao.go:30-37 | `"s3"` with an empty endpoint succeeds and keeps the active backend |
| Dao.MongoStartUp | internal/dao/dao.go:25-28 | MongoDB `Init` then `dao.Init("mongodb")` leaves MongoDB active over the `messages` collection |
| Dao.DataAccess.MongoInit | internal/dao/mongo.go:30-45 | the package variables after the call are those of `MongoInitStep`; same error |
| Dao.DataAccess.InitMinio | internal/dao/minio.go:30-66 | the package variables, error and bucket creation are those of `InitMinioStep` |
| Dao.DataAccess.DaoInit | internal/dao/dao.go:16-43 | the package variables, error and bucket creation are those of `DaoInitStep` |
| Prompts.FindPromt | internal/dao/mongo.go:72-76 | always a record, the zero one on error; not-found iff no record of the chat; otherwise the first record of the chat |
| Prompts.UpsertSaves | internal/dao/mongo.go:47-76 | a successful save keeps one record per chat, and the chat's lookup then yields the saved text, updated at `now` |
| Prompts.UpsertIsolated | internal/dao/mongo.go:47-70 | a save leaves the lookup of every other chat unchanged |
| Prompts.Upsert | internal/dao/mongo.go:50-69 | a record is added iff the chat had none, stamped `now` for creation and update and keeping a given id; every existing record keeps its id, chat and creation time; only the chat's first record may change, and only in its text and `updated_at` |
| Prompts.PromptStore.SavePromt | internal/dao/mongo.go:47-70 | a lookup error other than not-found, or a write error, is returned and nothing is written; otherwise the collection becomes the upsert |
| PollDao.Stamped | internal/dao/poll.go:24-32 | the inserted record carries `now` in both stamps and the driver's ID when its own was zero; nothing else changes |
| PollDao.PollStore.SavePoll | internal/dao/poll.go:24-34 | the insert error is returned unchanged; on success the stamped copy is appended; the caller's value is not changed |
| PollDao.SavedPollFoundByTypeAndDate | internal/dao/poll.go:36-46 | after a save the (type, date) lookup finds a record, the same one as before when one existed |
| PollDao.TypeAndDateIgnoresChat | internal/dao/poll.go:38 | records that differ only in their chat give the same (type, date) outcome |
| PollDao.GetPollByIdAsWritten | internal/dao/poll.go:48-63 | the lookup as written: hex parse, then `poll_id` compared with an ObjectID |
| PollDao.AsWrittenNeverFinds | internal/dao/poll.go:48-63 | as written, the lookup never finds a record: a parse error, or not-found when the driver works |
| PollDao.AsWrittenCounterexample | internal/dao/poll.go:48-63 | a poll saved with ID "5447" fails the parse; a record whose ID is valid hex is still not found |
| PollDao.GetPollById | internal/dao/poll.go:48-63 | the corrected lookup: a driver error is returned; not-found iff no record has the poll ID; a found record has it |
| PollDao.SavedPollFoundById | internal/dao/poll.go:24-63 | after a save, the corrected lookup by poll ID finds a record |
| PullDao.Stamped | internal/dao/pull.go:21-29 | the inserted record carries `now` in both stamps and the driver's ID when its own was zero; nothing else changes |
| PullDao.PullStore.SavePull | internal/dao/pull.go:21-31 | the insert error is returned unchanged; on success the stamped copy is appended; the caller's value is not changed |
| PullDao.SavedPullFound | internal/dao/pull.go:33-43 | after a save the (type, date) lookup finds a record, the same one as before when one existed |
| PullDao.TypeAndDateIgnoresChat | internal/dao/pull.go:35 | the (type, date) lookup has no chat component |
| PollBot.BuildOptions | internal/bot/poll.go:108-112 | one option per configured text, in order |
| PollBot.NewPollRecord | internal/bot/poll.go:129-136 | the record carries the type, date, current chat, sent message ID and sent poll ID, with a zero ID |
| PollBot.NewPollHandler | internal/bot/poll.go:62-150 | a lookup error sends and saves nothing; an existing poll is forwarded from its stored chat and message when the message ID is non-zero and never recreated; otherwise exactly one non-anonymous poll `Title + " for " + date` with the configured options is sent, and the record is saved only when sending succeeded |
| PullBot.NewPullRecord | internal/bot/pull.go:118-123 | the record carries the type, date, current chat and sent message ID, with a zero ID |
| PullBot.NewPullHandler | internal/bot/pull.go:51-137 | as `NewPollHandler`, over the pull store |
| PollBot.UserName | internal/bot/poll.go:170 | the user name is username, two spaces, first and last name |
| PollBot.ShownName | internal/bot/poll.go:193-195 | an empty name is replaced by the anonymous name; any other is kept |
| PollBot.AnonymousNeverShown | internal/bot/poll.go:170-217 | the user name always holds two spaces, so the anonymous fallback never applies |
| PollBot.VoteChat | internal/bot/poll.go:172-180 | the update's message chat beats the voter chat, which beats the chat the poll was sent in |
| PollBot.VoteReaction | internal/bot/poll.go:152-233 | a failed lookup is reported and nothing is sent; after a good lookup an anonymous vote (no user) is the nil-user dereference, before the poll is touched; not-found is the nil-poll dereference; only "shit" polls reply: no options gives the retraction, first option 0 the congratulation, anything else nothing |
| PollBot.AsWrittenVoteNeverReplies | internal/bot/poll.go:160-180 | with the lookup as written, a vote never gets a reply: it fails, or stops at the nil user or the nil poll |
| PollBot.SavedShitPollCongratulates | internal/bot/poll.go:160-231 | with the corrected lookup, a "Yes" vote by a user on a saved shit poll is congratulated in the vote's chat; the same vote without a user is the nil-user dereference |
| ChatHistory.Considered | internal/bot/bot.go:406-409 | all messages when there are at most `maxMessages`, else exactly the last `maxMessages` |
| ChatHistory.PrepareChatHistory | internal/bot/bot.go:401-429 | the prefix followed by the lines of the considered messages, in order |
| ChatHistory.WriteLine | internal/bot/bot.go:412-424 | a message with text adds `name: text` and a newline; any other adds nothing |
| ChatHistory.DisplayNameShape | internal/bot/bot.go:413-423 | every sender gets a non-empty name; a sender with a username is named "@" followed by exactly that username |
| ChatHistory.UsernamesDistinguish | internal/bot/bot.go:413-423 | two senders with usernames share a transcript name iff their usernames agree |
| ChatHistory.ConcatMapAppend | internal/bot/bot.go:411-426 | the transcript of two runs is the first's followed by the second's |
| ChatHistory.RenderEmptyIff | internal/bot/bot.go:411-426 | only the prefix comes out iff no considered message has text |
| ChatHistory.OlderMessagesIgnored | internal/bot/bot.go:406-411 | adding older messages in front never changes what is considered |
| ChatHistory.GptArgumentOf | internal/bot/bot.go:121-128 | either prefix followed by a question yields the question |
| ChatHistory.SystemPrompt | internal/bot/bot.go:117-119 | a stored prompt is used when non-empty, else the default; never empty |
| ChatHistory.AskFirstStep | internal/bot/bot.go:559-572 | the usage reply iff the question is empty; otherwise a search for the non-empty question |
| ChatHistory.AskRoundTrip | internal/bot/bot.go:559-572 | "/ask " + a non-empty q searches for q; text without the prefix gets the usage reply |
| ChatHistory.ModelsFor | internal/bot/bot.go:465-469 | with no summary models configured the list is the default model alone, otherwise exactly the summary models |
| ChatHistory.DefaultModelTried | internal/bot/bot.go:465-469 | the default model is tried iff no summary models are configured or it is one of them; with summary models configured, a model is tried iff it is configured |
| Leaderboard.FirstFromExists | internal/bot/bot.go:777-797 | a user has counted messages iff a first counted message exists, and its sender is that user |
| Leaderboard.CountMessages | internal/bot/bot.go:777-797 | the map holds exactly the senders, each with their count and the names of their first message |
| Leaderboard.Rank | internal/bot/bot.go:800-838 | the rows are the map's entries (a permutation), by count, non-increasing |
| Leaderboard.RankedStats | internal/bot/bot.go:777-838 | counting then ranking yields each sender once, with count and first-seen names, by count, non-increasing |
| Leaderboard.RankingTotal | internal/bot/bot.go:777-843 | the counts of a ranking add up to the messages that have a sender, at most the total shown |
| Leaderboard.TopTenOnly | internal/bot/bot.go:846-849 | rows after the tenth never change the text |
| Leaderboard.WriteRankings | internal/bot/bot.go:846-877 | the lines of the first ten rows, or of all when there are fewer |
| Leaderboard.LeaderboardText | internal/bot/bot.go:756-882 | the fetch-error text, the no-messages text, or the header with the total, the ranked rows of a ranking of the messages, and the footer |
| Gemini.ApplyDefaults | internal/pkg/gemini/client.go:129-131 | a zero `TopK` becomes 40; a non-zero one is kept; the prompt is kept |
| Gemini.BuildRequest | internal/pkg/gemini/client.go:137-151 | exactly one content with one part holding the prompt; candidate count 1; the given `TopK` |
| Gemini.FindImage | internal/pkg/gemini/client.go:214-221 | the inline data of the first part that has some, if any part has |
| Gemini.FirstImageIgnoresLater | internal/pkg/gemini/client.go:214-221 | parts after the first image never matter |
| Gemini.Validated | internal/pkg/gemini/client.go:203-237 | no candidates and no parts are errors; the result is accepted iff the first candidate has an inline-data part, and then holds the first such part's data and MIME type with the candidate's finish reason; otherwise "no image data" |
| Gemini.ValidatedIgnoresLater | internal/pkg/gemini/client.go:203-237 | candidates after the first and parts after the first image never matter |
| Gemini.CheckResponse | internal/pkg/gemini/client.go:203-237 | the checks in the client's order give the outcome of `Validated` |
| Gemini.GenerateImage | internal/pkg/gemini/client.go:122-238 | marshal, request-build, send and read failures and a non-200 status are returned in that order; then an unmarshal error; then the validated response of the request built from the defaulted parameters sent to the endpoint URL |
| Documents.FindOne | internal/dao/poll.go:36-46 | a driver error is returned; not-found iff no document matches; otherwise the first matching document in natural order |
| Documents.FindOneAfterInsert | internal/dao/poll.go:24-46 | after inserting a matching document a lookup finds one, the same as before when one existed |

## Left out

- Network transport is out of scope: Telegram sending, editing, forwarding and webhook handling. Handlers return the Bot API calls they would make instead.
- The AI clients are out of scope: the OpenAI wrapper and the HTTP round trip of the Gemini client, which is the `transport` parameter.
- Serialisation is not modelled. JSON and BSON encoding, `json.Unmarshal` and `bot.EscapeMarkdown` are opaque. Their failures are parameters, and the escape function is a parameter.
- Floating-point settings are not modelled: the Gemini `Temperature` and `TopP` defaults.
- The clock is a parameter: the current Unix time `now` and the local date `today`. Time zones and daylight-saving effects on `AddDate` are not modelled.
- Concurrency is not modelled: concurrent handlers, and races between get-or-create handlers.
- Fresh IDs are parameters: `bson.NewObjectID()` and the `_id` the driver assigns.
- Calendar.LayoutDate: formats `2006-01-02` with at least four year digits. Nothing is proved about it beyond its use as the (type, date) key.
- ChatHistory.PrepareChatHistory: `maxMessages` is a natural number. A negative Go value, which would leave only the prefix, is not modelled; the only caller passes 50.
- ChatHistory.PrepareChatHistory: the source dereferences `Update` without a nil check, so a nil `Update` on a considered message is a precondition. Leaderboard.CountMessages and Leaderboard.LeaderboardText have the same precondition.
- Messages.S3MessageStorage.ScanWindow: a listing failure is modelled per day, before that day's objects. A listing that fails midway may therefore report a different error than the source, but the read fails in exactly the same cases. The order of a listing is unspecified (`:|`).
- Messages.S3MessageStorage.GetMessageByChatID: states sorted and a permutation, but not stability. `sort.Slice` is not stable. Sorting.SortBy is an insertion sort, so it is one order `sort.Slice` may produce.
- Leaderboard.Rank: Go map iteration order is not modelled (`:|`), and neither is the order of rows with equal counts.
- PollBot.VoteReaction: the source dereferences the voter (internal/bot/poll.go:170) and, when nothing is found, a nil poll; the model returns the explicit outcomes `NilUserDereference` and `NilPollDereference`. Vote handling is only reached for updates carrying a poll answer (internal/bot/bot.go:95-96), which its precondition states. Send failures are logged and change nothing.
- PollBot.NewPollHandler: the insert outcome is discarded as in the source, so save errors are only logged.
- The medals in `bot.go` are stored as doubly encoded UTF-8 (mojibake). The model uses the intended 🥇 🥈 🥉 👤.
- Go names declared twice in one package are renamed: `mongo.go` `Init` is `MongoInit`, and `dao.go` `Init` is `DaoInit`. `boolFalse` in `bot/poll.go` and `bot/pull.go` becomes `pollIsAnonymous` and `pullIsAnonymous`.
- `pollColl` is used by `dao/poll.go`, but no shown file declares or assigns it. The poll store is modelled as its own collection.
- `ErrNoStorage` is declared but never returned. The model follows the code, and Dao.DaoInitStep states that it is never returned.
- The default storage branch of `dao.Init` does nothing, and the model follows the code.

## Findings

| source | as written | input that shows it | evidently intended | confidence | as-written member | corrected member |
|---|---|---|---|---|---|---|
| internal/dao/poll.go:48-63 | `GetPollByID` parses the Telegram poll ID as a hex ObjectID and filters `poll_id` by that ObjectID, but `SavePoll` stores `poll_id` as a string | a poll saved with poll ID "5447": the parse fails; with a 24-digit hex ID, an ObjectID never equals a stored string, so nothing is found and no vote gets a reply | filter `poll_id` by the string itself | not executed | PollDao.AsWrittenCounterexample | PollDao.SavedPollFoundById |
