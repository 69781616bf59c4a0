# LinkTracker core in Dafny

LinkTracker is a Telegram bot paired with a "scrapper" service. A chat
registers with the scrapper and subscribes to GitHub repositories, issues,
pull requests and StackOverflow questions. Each subscription carries tags
and author filters. The scrapper periodically resolves every tracked URL
to its latest activity. The updates that pass the author filters are
published to Kafka. The bot consumes them and sends each chat one digest.
In the chat, the bot runs small conversations:

- `/track`: link, tags, filters, confirmation.
- `/untrack`: a numbered list, a choice, a confirmation.
- `/list`: the tracked links, read through a Redis cache.
- `/upds_by_tags`: ask for tags, then list the matching updates.
- `/notifications`: switch the cron pattern of the notification job.

The model follows the program's own structure, one module per source file.

- **The data.** `Schemas` holds the records exchanged between the
  services. `Text` holds the Python string operations the code relies on:
  `strip`, `lower`, `split`, `int`, `str`.
- **The store.** The three tables (`users`, `links`, `user_links`) are the
  value `Subscriptions.Tables`. Every store operation is a function on it,
  and `Subscriptions.Valid` states the database's integrity constraints.
- **The two backends.** `SqlDatabase.SqlDbProcessor` (raw SQL) and
  `OrmDatabase.OrmDbProcessor` (SQLAlchemy) are classes whose fields are
  the tables. Their methods update the fields in place. Each method is
  proved against the common function, so both backends store the same
  thing, and their sweeps are proved to find the same updates up to order.
- **The scrapper.** `ScrapperApi` gives the HTTP routes over the store and
  the status code of each answer. `ScrapperUtils` holds URL classification,
  endpoint construction and the choice of the newest activity.
  `StringMakers` builds the description of an update.
- **Delivery.** `KafkaConsumer` and `BotSendMessage` consume the update
  stream and group it into one message per chat.
- **The bot's state.** `BotState.BotState` is a class holding the global
  `user_states` and `user_data` dictionaries, the Redis cache and the
  messages sent.
- **Each handler** is a method on that state. It is proved equal to a step
  function on a snapshot of the state. Whole conversations are lemmas over
  the composed steps.
- **Notifications.** The notification scheduler is a class that owns the
  cron jobs. Its invariant says that exactly one job runs, and it is the
  current one.

Outside effects are parameters of the model:

- The HTTP calls to the scrapper and to the GitHub and StackExchange APIs
  are functions from request to status or answer.
- Timestamp formatting is a function parameter.
- The notification-window check is the predicate `isNew`.

## Model

| member | source | states |
|---|---|---|
| Text.Strip | src/bot/handlers/track_cmd_handler.py:30 | `strip()`: the result neither starts nor ends with white space and is no longer than the input |
| Text.StripSlice | src/bot/handlers/track_cmd_handler.py:30 | `strip()` is the slice of the text between a leading and a trailing run of white space |
| Text.StripClean | src/bot/handlers/track_cmd_handler.py:30 | text that neither starts nor ends with white space is unchanged by `strip()` |
| Text.Lower | src/bot/handlers/track_cmd_handler.py:100 | `lower()` keeps the length and lowers each character on its own, by `LowerChar`: ASCII Latin capitals and the basic Cyrillic capitals (U+0400–U+042F) map to their small letters, everything else is kept |
| BotState.ConfirmButton | src/bot/handlers/track_cmd_handler.py:100 | the button caption "✅ Подтвердить", capital letter and all, counts as a confirmation |
| Text.Split | src/bot/handlers/track_cmd_handler.py:46 | `split("\n")` gives at least one piece and no piece holds the separator |
| Text.JoinSplit | src/bot/handlers/track_cmd_handler.py:46 | joining the pieces of a split with the separator gives the text back |
| Text.SplitJoin | src/bot/handlers/track_cmd_handler.py:46 | splitting the join of separator-free pieces gives the pieces back |
| Text.SplitWhitespace | src/bot/handlers/upds_by_tag_cmd_handler.py:25 | `split()` gives the maximal runs of non-white-space in order: the words are non-empty and without white space, putting them back between the white-space runs `Gaps(s)` gives the text again, and only the outer runs may be empty; no words exactly when the text is all white space |
| Text.RStrip | src/api/scrapper_api/utils_scrapper_api.py:20 | `rstrip("/")` removes exactly the trailing run of that character |
| Text.RStripAppend | src/api/scrapper_api/utils_scrapper_api.py:20 | one more trailing slash does not change `rstrip("/")` |
| Text.LeadingDigits | src/api/scrapper_api/utils_scrapper_api.py:46 | the greedy `(\d+)` capture: the longest prefix of ASCII digits |
| Text.NatToStringValue | src/bot/handlers/untrack_cmd_handler.py:31 | the digits `str(n)` writes denote n |
| Text.ParseIntToString | src/bot/handlers/untrack_cmd_handler.py:31 | `int(str(i)) == i` for every integer |
| Text.ParseIntRejects | src/bot/handlers/untrack_cmd_handler.py:31-34 | text holding a character that is neither a digit nor a sign is not an integer (the `ValueError` path) |
| Text.IntToStringClean | src/bot/handlers/untrack_cmd_handler.py:31 | `str(i)` has no white space around it, so `strip()` keeps it |
| Text.Find | src/api/scrapper_api/utils_scrapper_api.py:302 | `find(c)`: the first position of c, or -1 when c is absent |
| Schemas.GetStr | src/api/scrapper_api/utils_scrapper_api.py:165 | `get(key, default)` is the stored string when the key holds a string, and the default when the key is missing (a value of another type: see Left out) |
| Schemas.GetInt | src/api/scrapper_api/utils_scrapper_api.py:142 | `get("creation_date", 0)`: the stored integer when the key holds one, the default when it is missing (a value of another type: see Left out) |
| Schemas.GetObj | src/api/scrapper_api/utils_scrapper_api.py:183 | `get("owner", {})` is the stored object when the key holds one, and the empty object when the key is missing (a value of another type: see Left out) |
| StringMakers.MakeDescription | src/api/utils/string_makers.py:4-17 | the description starts with the topic line, ends with the content line and no newline after it, and has the length of the four labelled lines |
| StringMakers.DescriptionRoundTrip | src/api/utils/string_makers.py:4-17 | a description reads back into the same update when topic, author and date are single lines |
| StringMakers.DescriptionInjective | src/api/utils/string_makers.py:4-17 | two updates with single-line fields and the same description are equal |
| ScrapperUtils.GithubUrlToApi | src/api/scrapper_api/utils_scrapper_api.py:13-36 | an endpoint is produced only for a github.com URL and is an api.github.com/repos URL |
| ScrapperUtils.GithubRepoUrl | src/api/scrapper_api/utils_scrapper_api.py:24-34 | `github.com/owner/repo` maps to `api.github.com/repos/owner/repo` |
| ScrapperUtils.GithubItemUrl | src/api/scrapper_api/utils_scrapper_api.py:24-32 | an issue or pull URL maps to the item endpoint, with "pull" becoming "pulls" |
| ScrapperUtils.GithubTrailingSlash | src/api/scrapper_api/utils_scrapper_api.py:20 | a trailing slash does not change the endpoint |
| ScrapperUtils.GithubOtherShape | src/api/scrapper_api/utils_scrapper_api.py:22-36 | a path of one, three or more than four segments has no endpoint |
| ScrapperUtils.GithubFileUrlRejected | src/api/scrapper_api/utils_scrapper_api.py:22-36 | a link to a file inside a repository has no endpoint |
| ScrapperUtils.StackOverflowQuestionId | src/api/scrapper_api/utils_scrapper_api.py:39-53 | the id is a non-empty digit run directly after the questions prefix; other URLs have none |
| ScrapperUtils.QuestionIdOf | src/api/scrapper_api/utils_scrapper_api.py:46-52 | whatever follows the digits is ignored: the id is exactly the digits |
| ScrapperUtils.StackOverflowInfoApiUrl | src/api/scrapper_api/utils_scrapper_api.py:56-66 | an endpoint exists exactly when the id does, and is the StackExchange question URL with `?site=stackoverflow` |
| ScrapperUtils.StackOverflowLastAnswerApiUrl | src/api/scrapper_api/utils_scrapper_api.py:69-79 | the answers endpoint exists exactly when the id does and is built from it |
| ScrapperUtils.StackOverflowCommentsApiUrl | src/api/scrapper_api/utils_scrapper_api.py:82-92 | the comments endpoint exists exactly when the id does and is built from it |
| ScrapperUtils.StackOverflowInfoOf | src/api/scrapper_api/utils_scrapper_api.py:56-66 | a question URL with any trailing part gets the info endpoint of its id |
| ScrapperUtils.GetFirstItem | src/api/scrapper_api/utils_scrapper_api.py:111-123 | an item exactly when the answer has a non-empty "items" list, and then it is the first one |
| ScrapperUtils.PickLatest | src/api/scrapper_api/utils_scrapper_api.py:126-144 | nothing only when both are missing; one present wins; with both, the comment wins only when strictly newer |
| ScrapperUtils.Preview | src/api/scrapper_api/utils_scrapper_api.py:188-190 | bodies of at most 200 characters are kept; longer ones become their first 200 characters plus "..." |
| ScrapperUtils.StackOverflowLastLinkUpd | src/api/scrapper_api/utils_scrapper_api.py:147-197 | an update exists only for a question URL, and its preview is at most 203 characters |
| ScrapperUtils.GithubApiUrl | src/api/scrapper_api/utils_scrapper_api.py:200-226 | the item flag implies an endpoint, and every endpoint is a repos URL of a github.com URL |
| ScrapperUtils.GithubClassifiersAgreeOnItem | src/api/scrapper_api/utils_scrapper_api.py:208-215 | on an issue or pull URL both GitHub classifiers give the same item endpoint |
| ScrapperUtils.GithubApiUrlOfItem | src/api/scrapper_api/utils_scrapper_api.py:208-215 | an issue or pull URL is classified as one item with its endpoint |
| ScrapperUtils.GithubClassifiersAgreeOnRepo | src/api/scrapper_api/utils_scrapper_api.py:217-225 | on a repository URL the listing classifier asks for the repository endpoint's issues listing |
| ScrapperUtils.GithubApiUrlOfRepo | src/api/scrapper_api/utils_scrapper_api.py:217-225 | a repository URL is classified as a listing of its newest issues and pull requests |
| ScrapperUtils.GithubLastLinkUpdate | src/api/scrapper_api/utils_scrapper_api.py:229-291 | an update exists only when the endpoint exists and answered, and its preview is at most 203 characters |
| ScrapperUtils.RemoveUnsafe | src/api/scrapper_api/utils_scrapper_api.py:302 | `urlparse` drops tabs, carriage returns and newlines, and keeps text without them unchanged |
| ScrapperUtils.NetLoc | src/api/scrapper_api/utils_scrapper_api.py:302 | the host never holds '/', '?' or '#' |
| ScrapperUtils.NetLocOfHttps | src/api/scrapper_api/utils_scrapper_api.py:302 | the host of `https://host/path` is `host` |
| ScrapperUtils.CheckLastUpdate | src/api/scrapper_api/utils_scrapper_api.py:294-339 | the provider is chosen by host, GitHub first; other hosts give nothing; a result always passes the window gate, and the provider's update is returned whenever it passes the gate |
| ScrapperUtils.StackOverflowUrlRouted | src/api/scrapper_api/utils_scrapper_api.py:302-308 | any URL on the host stackoverflow.com, with any path, query or fragment, is answered by the StackOverflow provider, subject to the gate |
| ScrapperUtils.StackOverflowQuestionRouted | src/api/scrapper_api/utils_scrapper_api.py:302-308 | a question URL, with any trailing slug or query, is answered by the StackOverflow provider, subject to the gate |
| ScrapperUtils.GithubUrlRouted | src/api/scrapper_api/utils_scrapper_api.py:302-306 | a github.com URL is answered by the GitHub provider, subject to the gate |
| Subscriptions.Empty | src/database/orm_database.py:63-70 | the freshly created tables are empty and valid |
| Subscriptions.RowIndex | src/database/sql_database.py:119-123 | the first row of the (chat, link) pair, or none when the pair is absent |
| Subscriptions.AddUser | src/database/sql_database.py:76-83 | the chat is registered afterwards; a known chat changes nothing; a new one is appended |
| Subscriptions.AddLink | src/database/sql_database.py:85-140 | an unregistered chat is refused and changes nothing; on valid tables a registered chat is refused exactly when it already tracks the url; success appends exactly one row with the request's tags and filters |
| Subscriptions.DeleteChat | src/database/sql_database.py:167-178 | false exactly for an unknown chat, which changes nothing; otherwise the chat and all its rows are gone, every other chat and every other chat's row stays, and the links stay |
| Subscriptions.RemoveUserLink | src/database/sql_database.py:180-213 | nothing exactly when the url is unknown or the chat does not track it; otherwise exactly the chat's first row for the link goes, and the returned id, tags and filters are that row's |
| Subscriptions.LinksOfNone | src/database/orm_database.py:157-159 | a chat without rows has no links |
| Subscriptions.LinksOfAppend | src/database/sql_database.py:147-165 | a chat's links over two runs of rows are the links of each run, in order |
| Subscriptions.AddUserValid | src/database/sql_database.py:76-83 | `add_user` keeps the integrity constraints |
| Subscriptions.AddLinkValid | src/database/sql_database.py:85-140 | `add_link_for_user` keeps the integrity constraints (unique url, fresh serial ids, unique pairs) |
| Subscriptions.DeleteChatValid | src/database/sql_database.py:167-178 | `delete_chat` keeps the integrity constraints |
| Subscriptions.RemoveUserLinkValid | src/database/sql_database.py:180-213 | `remove_user_link` keeps the integrity constraints |
| Subscriptions.AddUserIdempotent | src/database/sql_database.py:76-83 | registering twice equals registering once |
| Subscriptions.AddLinkUnregistered | src/database/sql_database.py:92-96 | an unregistered chat cannot add a link, and nothing changes |
| Subscriptions.AddLinkIds | src/database/sql_database.py:99-112 | a known url keeps its id; a new url gets an id no other link has |
| Subscriptions.AddLinkTwice | src/database/sql_database.py:119-127 | adding the same url again is refused as a duplicate, and nothing changes |
| Subscriptions.AddThenList | src/database/sql_database.py:129-165 | after a successful add, the chat's list gains exactly the new link at its end |
| Subscriptions.AddThenRemove | src/database/sql_database.py:180-213 | removing a link right after adding it returns that row and restores the rows |
| Subscriptions.RemoveUntracked | src/database/sql_database.py:187-203 | removing an unknown or untracked url answers nothing and changes nothing |
| Subscriptions.DeleteChatCascade | src/database/sql_database.py:167-178 | deleting a chat empties its list and leaves every other chat's list as it was |
| Subscriptions.ProcessUserLink | src/database/sql_database.py:249-266 | a row yields an update exactly when its link resolves and the author passes the filters; the update is addressed to the row's chat |
| Subscriptions.Gather | src/database/sql_database.py:237-244 | one result per row, in row order |
| Subscriptions.PresentGather | src/database/sql_database.py:237-245 | dropping the missing gathered results gives the row updates |
| Subscriptions.UpdatesAppend | src/database/sql_database.py:224-245 | the updates of consecutive batches are the concatenated updates |
| Subscriptions.UpdatesMember | src/database/sql_database.py:237-245 | an update is reported exactly when some row yields it |
| Subscriptions.SweepRowsUsers | src/database/sql_database.py:224-233 | every joined row belongs to a registered chat |
| Subscriptions.UpdatesChats | src/database/sql_database.py:256-264 | every update is addressed to the chat of the row it came from |
| Subscriptions.ForChat | src/api/bot_api/bot_send_message.py:15-17 | the updates addressed to one chat, in order |
| Subscriptions.GroupingIsPermutation | src/api/bot_api/bot_send_message.py:15-17 | grouping by chat loses and invents nothing: the groups together are a permutation of the updates |
| Subscriptions.UpdatesRowsOfUsers | src/database/orm_database.py:225-230 | resolving the rows user by user equals grouping the resolved rows user by user |
| Subscriptions.SweepsAgree | src/database/orm_database.py:207-239 | the ORM sweep and the SQL sweep report the same updates, each as often; only the order differs |
| Subscriptions.TagQueriesCompare | src/database/orm_database.py:256-270 | every update of the ORM tag query is one of the SQL tag query; they coincide when no row has filters |
| Subscriptions.TagUpdatesSelected | src/database/sql_database.py:276-290 | a tag update comes from a row of the chat whose tags overlap the request |
| Subscriptions.TagUpdateOfRow | src/database/sql_database.py:268-298 | a row of the chat whose tags overlap the request and whose link resolves puts its update in the SQL tag answer, whatever its filters |
| SqlDatabase.SqlDbProcessor.constructor | src/database/sql_database.py:16-19 | a processor starts over empty, valid tables |
| SqlDatabase.SqlDbProcessor.FindRow | src/database/sql_database.py:119-123 | the lookup loop finds the first row of the pair |
| SqlDatabase.SqlDbProcessor.AddUser | src/database/sql_database.py:76-83 | the new tables are `AddUser` of the old ones and stay valid |
| SqlDatabase.SqlDbProcessor.AddLinkForUser | src/database/sql_database.py:85-140 | result and new tables are `AddLink` of the old ones, and stay valid |
| SqlDatabase.SqlDbProcessor.GetUserLinks | src/database/sql_database.py:142-165 | the loop returns the chat's links in row order |
| SqlDatabase.SqlDbProcessor.DeleteChat | src/database/sql_database.py:167-178 | result and new tables are `DeleteChat` of the old ones, and stay valid |
| SqlDatabase.SqlDbProcessor.RemoveUserLink | src/database/sql_database.py:180-213 | result and new tables are `RemoveUserLink` of the old ones, and stay valid |
| SqlDatabase.SqlDbProcessor.CheckUpdatesForAllUsers | src/database/sql_database.py:215-247 | the batched cursor loop returns the updates of every joined row in row order |
| SqlDatabase.SqlDbProcessor.GetUpdatesForOneUserByTags | src/database/sql_database.py:268-298 | the chat's overlapping rows resolved without their filters |
| OrmDatabase.OrmDbProcessor.constructor | src/database/orm_database.py:19-25 | a processor starts over empty, valid tables |
| OrmDatabase.OrmDbProcessor.AddUser | src/database/orm_database.py:72-83 | the new tables are `AddUser` of the old ones and stay valid |
| OrmDatabase.OrmDbProcessor.FirstUserLink | src/database/orm_database.py:104-107 | found exactly when the pair has a row |
| OrmDatabase.OrmDbProcessor.AddLinkForUser | src/database/orm_database.py:85-119 | result and new tables are `AddLink` of the old ones, and stay valid |
| OrmDatabase.OrmDbProcessor.GetUserLinks | src/database/orm_database.py:154-169 | the chat's links in row order; none for an unknown chat |
| OrmDatabase.OrmDbProcessor.DeleteChat | src/database/orm_database.py:171-179 | result and new tables are `DeleteChat` of the old ones, and stay valid |
| OrmDatabase.OrmDbProcessor.RemoveUserLink | src/database/orm_database.py:181-205 | result and new tables are `RemoveUserLink` of the old ones, and stay valid |
| OrmDatabase.OrmDbProcessor.PageTasks | src/database/orm_database.py:225-230 | a page's tasks are the joined rows of its users, user by user |
| OrmDatabase.OrmDbProcessor.CheckUpdatesForAllUsers | src/database/orm_database.py:207-239 | the paged loop returns the ORM sweep's updates |
| OrmDatabase.OrmDbProcessor.GetUpdatesForOneUserByTags | src/database/orm_database.py:256-270 | the chat's overlapping rows resolved with their filters |
| ScrapperApi.RegisterUser | src/api/scrapper_api/scrapper_api.py:24-42 | always 200 "Чат зарегистрирован"; the chat is registered; a known chat changes nothing |
| ScrapperApi.DeleteChatRoute | src/api/scrapper_api/scrapper_api.py:53-79 | 200 exactly for a registered chat and 404 exactly otherwise, with nothing changed on 404 |
| ScrapperApi.GetLinks | src/api/scrapper_api/scrapper_api.py:90-107 | the chat's links, with `size` equal to their number |
| ScrapperApi.AddLinkRoute | src/api/scrapper_api/scrapper_api.py:119-142 | 200 exactly when the store accepts, echoing the request; every refusal is 409 `LinkAlreadyExists` with nothing changed |
| ScrapperApi.DeleteLinkRoute | src/api/scrapper_api/scrapper_api.py:154-191 | 404 exactly when the url is unknown or not tracked by the chat, with nothing changed; otherwise 200 with the id, url, tags and filters of the chat's first row for that link, and exactly that row removed from the tables |
| ScrapperApi.CheckUpdates | src/api/scrapper_api/scrapper_api.py:203-234 | 200 with the configured backend's sweep; on valid tables it holds the same updates, up to order, as the SQL sweep (the aborted requests are listed under Left out) |
| ScrapperApi.CheckUpdatesReports | src/api/scrapper_api/scrapper_api.py:203-212 | on valid tables `/updates` reports an update exactly when some joined row resolves to it, whichever backend answers |
| ScrapperApi.CheckUpdatesByTags | src/api/scrapper_api/scrapper_api.py:245-268 | always 200; every update is one the SQL tag query would report |
| ScrapperApi.GetLinksUnregistered | src/api/scrapper_api/scrapper_api.py:90-107 | an unregistered chat lists nothing |
| ScrapperApi.BackendsAgreeOnUpdates | src/api/scrapper_api/scrapper_api.py:203-234 | both backends answer `GET /updates` with the same updates up to order |
| ScrapperApi.RegisterThenDelete | src/api/scrapper_api/scrapper_api.py:24-79 | registering then deleting a chat answers 200 "Чат удален" |
| ScrapperApi.DeleteChatTwice | src/api/scrapper_api/scrapper_api.py:53-79 | the second deletion of a chat answers 404 |
| ScrapperApi.AddDuplicateLink | src/api/scrapper_api/scrapper_api.py:119-142 | posting the same link twice: the second answer is 409 and nothing changes |
| ScrapperApi.AddThenDeleteLink | src/api/scrapper_api/scrapper_api.py:119-191 | a link just added is deleted with 200, echoing the added link, and the rows are restored |
| ScrapperApi.DeleteUnknownLink | src/api/scrapper_api/scrapper_api.py:154-191 | deleting a url never added answers 404 and changes nothing |
| ScrapperApi.AddThenGetLinks | src/api/scrapper_api/scrapper_api.py:90-142 | after a successful add the listing grows by exactly the added link at its end |
| BotSendMessage.ChatOrder | src/api/bot_api/bot_send_message.py:15-19 | the grouped chats: each chat once, exactly the chats some update addresses, ordered by the position of each chat's first update |
| BotSendMessage.ChatText | src/api/bot_api/bot_send_message.py:20-23 | a digest is empty exactly when its group is |
| BotSendMessage.TelegramClient.SendMessage | src/api/bot_api/bot_send_message.py:24 | exactly one message is appended to what was sent |
| BotSendMessage.GroupByChat | src/api/bot_api/bot_send_message.py:15-17 | the grouping loop gives the chats in first-occurrence order and each chat's updates in order |
| BotSendMessage.BuildDigest | src/api/bot_api/bot_send_message.py:20-22 | the inner loop builds exactly the group's digest text |
| BotSendMessage.SendDigests | src/api/bot_api/bot_send_message.py:19-24 | the outer loop sends, chat by chat in grouping order, each non-empty digest and nothing else |
| BotSendMessage.SendMessagesToUsers | src/api/bot_api/bot_send_message.py:5-24 | what is sent is exactly the batch's dispatch |
| BotSendMessage.ForChatAddressed | src/api/bot_api/bot_send_message.py:15-17 | a chat that some update addresses has a non-empty group |
| BotSendMessage.DispatchOverShape | src/api/bot_api/bot_send_message.py:19-24 | every grouped chat gets exactly one message, holding its group's digest |
| BotSendMessage.OneMessagePerChat | src/api/bot_api/bot_send_message.py:19-24 | one message per distinct addressed chat, no chat twice, and no other message |
| BotSendMessage.DigestsCoverBatch | src/api/bot_api/bot_send_message.py:15-23 | the digests together hold every update of the batch exactly once |
| BotSendMessage.NoLinksNoMessages | src/api/bot_api/bot_send_message.py:15-24 | a batch without links, or with none, sends nothing |
| BotSendMessage.SingleUpdate | src/api/bot_api/bot_send_message.py:15-24 | a batch of one update sends its chat one message with that entry |
| KafkaConsumer.Handle | src/api/bot_api/kafka_consumer.py:38-48 | a record is delivered exactly when it parses and sending succeeds; otherwise a dead letter holds the raw text and the error |
| KafkaConsumer.Outcomes | src/api/bot_api/kafka_consumer.py:37-48 | one outcome per record |
| KafkaConsumer.HandleRecord | src/api/bot_api/kafka_consumer.py:38-48 | one pass sends the payload's dispatch or produces its dead letter |
| KafkaConsumer.ConsumeMessages | src/api/bot_api/kafka_consumer.py:13-51 | the loop's dead letters and sent messages are those of the records' outcomes, in order |
| KafkaConsumer.OutcomesAppend | src/api/bot_api/kafka_consumer.py:37-48 | records are handled independently: the outcomes of a concatenated stream are concatenated |
| KafkaConsumer.StreamIsCompositional | src/api/bot_api/kafka_consumer.py:37-48 | a failing record does not stop the stream: consuming a then b sends and dead-letters what each does alone |
| KafkaConsumer.EveryRecordAccounted | src/api/bot_api/kafka_consumer.py:37-48 | every record is delivered or dead-lettered, never both and never neither |
| KafkaConsumer.SentIsDigestsOfDelivered | src/api/bot_api/kafka_consumer.py:39-41 | what is sent is the digests of the delivered payloads, one after the other |
| KafkaConsumer.BrokenRecord | src/api/bot_api/kafka_consumer.py:42-48 | a record that does not parse sends nothing and produces one dead letter with the parse error |
| KafkaConsumer.SingleUpdateRecord | src/api/bot_api/kafka_consumer.py:38-41 | a record of one update is delivered as that chat's single digest |
| BotState.ToCache | src/bot/handlers/list_cmd_handler.py:41-42 | the cached list keeps the size and, position by position, the id, url, tags and filters of the response's links |
| BotState.BotState.constructor | src/database/sql_database.py:11-12 | the dictionaries and the cache start empty, and nothing has been said |
| BotState.BotState.Say | src/bot/handlers/list_cmd_handler.py:55 | exactly one reply is appended and nothing else changes |
| ListCmdHandler.NumberedLines | src/bot/handlers/list_cmd_handler.py:53-54 | one line per url |
| ListCmdHandler.NumberedAppend | src/bot/handlers/list_cmd_handler.py:51-54 | one more url adds exactly one numbered line |
| ListCmdHandler.NumberedIsJoin | src/bot/handlers/list_cmd_handler.py:51-54 | the rendering is the numbered lines joined by newlines, with a final newline |
| ListCmdHandler.NumberedReadBack | src/bot/handlers/list_cmd_handler.py:51-54 | split at newlines, line k of the rendering is "{start+k}. {url k}" |
| ListCmdHandler.ListTextShape | src/bot/handlers/list_cmd_handler.py:49-54 | an empty list shows the fixed text; otherwise the header and then one numbered line per link |
| ListCmdHandler.RenderList | src/bot/handlers/list_cmd_handler.py:49-54 | the rendering loop produces the list text |
| ListCmdHandler.ListCmd | src/bot/handlers/list_cmd_handler.py:21-55 | the scrapper is asked exactly on a cache miss; an unparseable cache value raises with nothing changed; hit and fetch answer with the list text |
| TrackCmdHandler.Lines | src/bot/handlers/track_cmd_handler.py:46 | at least one entry, and no entry holds a newline |
| TrackCmdHandler.LinesRoundTrip | src/bot/handlers/track_cmd_handler.py:46 | joining the entries back gives the stripped text |
| TrackCmdHandler.LinesOfTypedList | src/bot/handlers/track_cmd_handler.py:46-47 | entries typed one per line come back as that list |
| TrackCmdHandler.DashToEmpty | src/bot/handlers/track_cmd_handler.py:108-111 | `["-"]` means none; anything else is kept |
| TrackCmdHandler.AddReply | src/bot/handlers/track_cmd_handler.py:120-145 | 200 gives the added text, 409 "already tracked", any other status "not added" |
| TrackCmdHandler.CacheAfterAdd | src/bot/handlers/track_cmd_handler.py:122-135 | the new link is appended to the cached list, or starts a list of one; size equals the number of links |
| TrackCmdHandler.FiltersReadBack | src/bot/handlers/track_cmd_handler.py:78-83 | the filters block of the summary splits back into the quoted filters |
| TrackCmdHandler.TagsReadBack | src/bot/handlers/track_cmd_handler.py:73-76 | the tags block splits back into the quoted tags |
| TrackCmdHandler.TrackStart | src/bot/handlers/track_cmd_handler.py:167-171 | the chat waits for the link and is asked for it |
| TrackCmdHandler.LinkStep | src/bot/handlers/track_cmd_handler.py:22-36 | the stripped link is kept and the chat waits for tags |
| TrackCmdHandler.TagsStep | src/bot/handlers/track_cmd_handler.py:39-52 | the tags are kept one per line and the chat waits for filters |
| TrackCmdHandler.FiltersStep | src/bot/handlers/track_cmd_handler.py:55-90 | the filters are kept and the chat waits for confirmation; the summary is shown, or `KeyError` when link or tags are missing |
| TrackCmdHandler.Forget | src/bot/handlers/track_cmd_handler.py:147-150 | the state and the three entered values are gone |
| TrackCmdHandler.ConfirmStep | src/bot/handlers/track_cmd_handler.py:93-150 | `ValueError` with nothing changed exactly when confirmed with a value missing; otherwise the conversation ends; a refusal replies "not added" and keeps the cache |
| TrackCmdHandler.AddStep | src/bot/handlers/track_cmd_handler.py:102-150 | the confirmed branch raises `ValueError` exactly when a value is missing, and then changes nothing |
| TrackCmdHandler.WholeConversation | src/bot/handlers/track_cmd_handler.py:22-171 | a full confirmed conversation posts the stripped link with its tags and filters, replies for the status, and on 200 caches the new link last |
| TrackCmdHandler.SharedEntries | src/bot/handlers/track_cmd_handler.py:30-32 | the entered link is one global value: a second chat's link replaces the first chat's |
| TrackCmdHandler.TrackCmd | src/bot/handlers/track_cmd_handler.py:167-171 | the handler performs `TrackStart` |
| TrackCmdHandler.HandleWaitingForLink | src/bot/handlers/track_cmd_handler.py:22-36 | the handler performs `LinkStep` |
| TrackCmdHandler.HandleWaitingForTags | src/bot/handlers/track_cmd_handler.py:39-52 | the handler performs `TagsStep` |
| TrackCmdHandler.HandleWaitingForFilters | src/bot/handlers/track_cmd_handler.py:55-90 | the handler performs `FiltersStep`, raising as it does |
| TrackCmdHandler.HandleWaitingForConfirmation | src/bot/handlers/track_cmd_handler.py:93-150 | the handler performs `ConfirmStep`, raising as it does |
| TrackCmdHandler.AddEntered | src/bot/handlers/track_cmd_handler.py:102-150 | the confirmed branch of the handler performs `AddStep` |
| TrackCmdHandler.HandleConfirmTrackMessages | src/bot/handlers/track_cmd_handler.py:153-164 | a message is routed by the sender's state: in each of the four track states the new state is that state's step (`LinkStep`, `TagsStep`, `FiltersStep`, `ConfirmStep`); outside them nothing changes |
| UnknownCmdHandler.UnknownReply | src/bot/handlers/unknown_cmd_handler.py:20-28 | a reply exactly for text starting with "/" that is not a listed command, and it is the fixed text |
| UnknownCmdHandler.ListedCommandsAreSilent | src/bot/handlers/unknown_cmd_handler.py:9-17 | each listed command gets no reply from this handler |
| UnknownCmdHandler.PlainTextIsSilent | src/bot/handlers/unknown_cmd_handler.py:27-28 | text not starting with "/" is never answered |
| UnknownCmdHandler.MadeUpCommandsAreAnswered | tests/test_handlers/test_unknown_cmd.py:7-14 | "/", "/unknown_command" and "/list_all" are answered with the fixed text |
| UnknownCmdHandler.ExtendedCommandIsAnswered | src/bot/handlers/unknown_cmd_handler.py:27-28 | a listed command followed by more text is an unknown command |
| UnknownCmdHandler.UnknownCmd | src/bot/handlers/unknown_cmd_handler.py:20-28 | the handler replies exactly as `UnknownReply` says |
| UntrackCmdHandler.ResponseUrls | src/bot/handlers/untrack_cmd_handler.py:153-159 | the urls of a fetched list, one per link, in order |
| UntrackCmdHandler.Without | src/bot/handlers/untrack_cmd_handler.py:99-101 | exactly the cached links with another url, each as often as before (`WithoutAppend`, `WithoutOne` give the order) |
| UntrackCmdHandler.WithoutAppend | src/bot/handlers/untrack_cmd_handler.py:99-101 | the list comprehension filters piece by piece, so the kept links keep their order |
| UntrackCmdHandler.WithoutOne | src/bot/handlers/untrack_cmd_handler.py:99-101 | a single link is kept exactly when its url differs |
| UntrackCmdHandler.CacheAfterRemove | src/bot/handlers/untrack_cmd_handler.py:88-104 | no cached value stays uncached; a value that is not JSON becomes the empty list; a list becomes `Without` of its links, and size equals their number |
| UntrackCmdHandler.UntrackStart | src/bot/handlers/untrack_cmd_handler.py:128-162 | the chat waits for a choice; on 200 the list is kept and shown numbered, otherwise the fetch error is reported |
| UntrackCmdHandler.TypedNumberIsChosen | src/bot/handlers/untrack_cmd_handler.py:31 | typing `str(n)` chooses n |
| UntrackCmdHandler.ChoiceStep | src/bot/handlers/untrack_cmd_handler.py:23-47 | non-numbers are refused with nothing else changed; a number is kept and confirmation is asked |
| UntrackCmdHandler.ConfirmStep | src/bot/handlers/untrack_cmd_handler.py:50-109 | `ValueError` with nothing changed exactly when confirmed with number or list missing; "cancelled" on refusal; a bad number keeps the conversation |
| UntrackCmdHandler.DeleteStep | src/bot/handlers/untrack_cmd_handler.py:59-109 | the confirmed branch raises `ValueError` exactly when the number or the list is missing, and then changes nothing |
| UntrackCmdHandler.ShownLineNamesChoice | src/bot/handlers/untrack_cmd_handler.py:153-159 | the line numbered n in the shown list names the url that choice n deletes |
| UntrackCmdHandler.SameNumberingAsList | src/bot/handlers/untrack_cmd_handler.py:153-159 | `/untrack` numbers a fetched list exactly as `/list` does |
| UntrackCmdHandler.WholeConversation | src/bot/handlers/untrack_cmd_handler.py:50-109 | `/untrack`, any text that `int(text.strip())` reads as a listed n, and a confirmation delete the n-th listed url and end the conversation |
| UntrackCmdHandler.ConfirmedRemoval | src/bot/handlers/untrack_cmd_handler.py:72-109 | a confirmed listed number deletes that url, replies per status and ends the conversation |
| UntrackCmdHandler.ConfirmedRemovalFiltersCache | src/bot/handlers/untrack_cmd_handler.py:88-104 | after a deletion answered 200, the cached list keeps exactly the links with another url |
| UntrackCmdHandler.RenderChoices | src/bot/handlers/untrack_cmd_handler.py:153-159 | the listing loop produces the choice text |
| UntrackCmdHandler.UntrackCmd | src/bot/handlers/untrack_cmd_handler.py:128-162 | the handler performs `UntrackStart` |
| UntrackCmdHandler.HandleWaitingForChoice | src/bot/handlers/untrack_cmd_handler.py:23-47 | the handler performs `ChoiceStep` |
| UntrackCmdHandler.DropFromCache | src/bot/handlers/untrack_cmd_handler.py:88-104 | the cache becomes `CacheAfterRemove` of the old entry; nothing else changes |
| UntrackCmdHandler.HandleWaitingForConfirmation | src/bot/handlers/untrack_cmd_handler.py:50-109 | the handler performs `ConfirmStep`, raising as it does |
| UntrackCmdHandler.DeleteChosen | src/bot/handlers/untrack_cmd_handler.py:59-109 | the confirmed branch of the handler performs `DeleteStep` |
| UntrackCmdHandler.HandleMessages | src/bot/handlers/untrack_cmd_handler.py:112-125 | a message is routed by the sender's state: waiting for a choice it is `ChoiceStep`, waiting for a confirmation `ConfirmStep`; outside the untrack states nothing changes |
| UpdsByTagCmdHandler.NeedTagText | src/bot/handlers/upds_by_tag_cmd_handler.py:27 | the hint ends with the command it names |
| UpdsByTagCmdHandler.HintAsWrittenIsUnknown | src/bot/handlers/upds_by_tag_cmd_handler.py:27 | the command named in the hint is not a listed command, so sending it draws the unknown-command reply |
| UpdsByTagCmdHandler.HintNamesTagCommand | src/bot/handlers/upds_by_tag_cmd_handler.py:53 | the hint the model sends names `/upds_by_tags`, a listed command the fallback leaves alone |
| UpdsByTagCmdHandler.UpdateRepliesShape | src/bot/handlers/upds_by_tag_cmd_handler.py:48-50 | reply i is about update i, one per update |
| UpdsByTagCmdHandler.Tags | src/bot/handlers/upds_by_tag_cmd_handler.py:25 | non-empty tags, and none exactly when the stripped text is all white space |
| UpdsByTagCmdHandler.NoTagsOnlyForBlankText | src/bot/handlers/upds_by_tag_cmd_handler.py:25-28 | no tags exactly when the stripped text is empty |
| UpdsByTagCmdHandler.AskStep | src/bot/handlers/upds_by_tag_cmd_handler.py:53-62 | the chat waits for tags and is asked for them |
| UpdsByTagCmdHandler.TagsStep | src/bot/handlers/upds_by_tag_cmd_handler.py:13-50 | only a waiting chat is served; its state is cleared; no tags gives the hint; otherwise the fetch result is reported |
| UpdsByTagCmdHandler.OneReplyPerUpdate | src/bot/handlers/upds_by_tag_cmd_handler.py:48-50 | with updates found, exactly one reply per update, in order |
| UpdsByTagCmdHandler.OneReplyOnErrorOrNothing | src/bot/handlers/upds_by_tag_cmd_handler.py:39-46 | a failed request or no updates is answered with one message |
| UpdsByTagCmdHandler.AskThenAnswerOnce | src/bot/handlers/upds_by_tag_cmd_handler.py:20-23 | after one answer the chat no longer waits: a second message is ignored |
| UpdsByTagCmdHandler.UpdsByTagCmd | src/bot/handlers/upds_by_tag_cmd_handler.py:53-62 | the handler performs `AskStep` |
| UpdsByTagCmdHandler.SendUpdates | src/bot/handlers/upds_by_tag_cmd_handler.py:48-50 | the reply loop appends one reply per update, in order |
| UpdsByTagCmdHandler.UpdsByTagHandler | src/bot/handlers/upds_by_tag_cmd_handler.py:13-50 | the handler performs `TagsStep` |
| NotificationCmdHandler.PatternFor | src/bot/handlers/notification_cmd_handler.py:73-86 | "notif_immediate" selects the every-minute pattern, "notif_digest" the digest pattern (corrected to fire once a day, see Findings), anything else nothing |
| NotificationCmdHandler.ImmediateFiresEveryMinute | src/bot/handlers/notification_cmd_handler.py:12 | `"* * * * *"` fires at every minute of the day |
| NotificationCmdHandler.DigestAsWrittenFiresAllHour | src/bot/handlers/notification_cmd_handler.py:13 | `"* 20 * * *"` fires at every minute from 20:00 to 20:59 |
| NotificationCmdHandler.DigestFiresOncePerDay | src/bot/handlers/notification_cmd_handler.py:13 | `"0 20 * * *"` fires at 20:00 and at no other minute of the day |
| NotificationCmdHandler.FiringLog | src/bot/handlers/notification_cmd_handler.py:35-45 | a firing logs the debug line, plus one error line exactly when sending fails |
| NotificationCmdHandler.CronJob.constructor | src/bot/handlers/notification_cmd_handler.py:58 | a new job runs its pattern |
| NotificationCmdHandler.CronJob.Stop | src/bot/handlers/notification_cmd_handler.py:57 | a stopped job no longer runs |
| NotificationCmdHandler.NotificationSchedule.constructor | src/bot/handlers/notification_cmd_handler.py:89 | loading the module schedules the immediate pattern as the only job |
| NotificationCmdHandler.NotificationSchedule.ScheduleNotifications | src/bot/handlers/notification_cmd_handler.py:48-59 | the old job is stopped and a new one runs the pattern; afterwards exactly the new job runs |
| NotificationCmdHandler.NotificationSchedule.Callback | src/bot/handlers/notification_cmd_handler.py:62-86 | a button switches the pattern and reschedules, keeping exactly one running job; an unknown button only alerts |
| NotificationCmdHandler.NotificationSchedule.SendNotificationsGlobal | src/bot/handlers/notification_cmd_handler.py:35-45 | a firing only logs its lines, keeps the one running job and its pattern, and creates no job |

## Findings

| source | as written | input that shows it | evidently intended | confidence | as-written member | corrected member |
|---|---|---|---|---|---|---|
| src/bot/handlers/upds_by_tag_cmd_handler.py:27 | the "at least one tag" hint tells the user to retry with `/upds_by_tag` | send `/upds_by_tags`, then a blank message; the hint names `/upds_by_tag`, and sending that draws "Неизвестная команда…" because it is not in `valid_commands` (src/bot/handlers/unknown_cmd_handler.py:9-17) | the hint names the registered command `/upds_by_tags` (src/bot/handlers/upds_by_tag_cmd_handler.py:53) | not executed | UpdsByTagCmdHandler.HintAsWrittenIsUnknown | UpdsByTagCmdHandler.HintNamesTagCommand |
| src/bot/handlers/notification_cmd_handler.py:13 | the digest pattern is `"* 20 * * *"` | choose "Дайджест (раз в сутки)"; the job then fires at 20:00, 20:01, …, 20:59, sixty times a day | `"0 20 * * *"`, once a day at 20:00, as the comment "Каждый день в 20:00" (:13) and the button "раз в сутки" (:29, :83) say | not executed | NotificationCmdHandler.DigestAsWrittenFiresAllHour | NotificationCmdHandler.DigestFiresOncePerDay |

Because of the first row, `UpdsByTagCmdHandler.TagsStep` replies with
`NeedTagText(UpdsCommand)`. Its hint therefore ends in `/upds_by_tags`, not in
the source's `/upds_by_tag`. Because of the second row, `PatternFor` and the
scheduler use `DigestPattern`, `"0 20 * * *"`; the source's string is kept as
`DigestPatternAsWritten`.

## Left out

- Network I/O is not modelled. The HTTP calls between bot and scrapper, and
  from the scrapper to GitHub and StackExchange, are function parameters
  from request to status or decoded answer.
- The database engines are not modelled: connection pools, sessions,
  `create_database`, `connect` and `close`. Neither is the `RuntimeError`
  raised before `connect()`. The tables are values and class fields.
- Stored rows are not ordered. The model takes the backends' query results
  in insertion order, which the queries do not promise.
- The notification-window check of `check_last_update` is not modelled. It
  reads the clock, so it is the parameter predicate `isNew`.
- Timestamp conversion to Moscow time and its formatting are not modelled;
  they are function parameters.
- The Redis, Kafka and Telegram clients are not modelled. The cache is a
  map from chat id to a cached value. It stands for the key
  "links:{user_id}".
- Published updates and dead letters are sequences, and a send is an
  appended message.
- `json.loads` and strict UTF-8 decoding are a parse parameter. A non-list
  "links" value, a non-string url (untrack_cmd_handler.py:73-75) and the
  default url "неизвестно" fall outside the typed model. An empty cached
  string is not read as absent either.
- `kafka_consumer.py:39-41` can fail after sending some of a batch's
  messages. The model treats a failing send as failing the whole payload,
  which is then dead-lettered.
- `asyncio.gather` is modelled as a sequential map that keeps order, so
  concurrency is not modelled.
- Telethon's handler registration and ordering are not modelled. The
  dispatch methods take the sender's state as given.
- `sender_id` and `chat_id` are the same integer in the model.
- Buttons, `parse_mode`, link previews and message editing are not
  modelled. Message text and the callback string are.
- Callback data is compared as a string, not as bytes.
- The `/notifications` prompt is not modelled
  (`notifications_cmd_handler`, notification_cmd_handler.py:19-32). It
  only sends two buttons.
- The aiocron timer is not modelled. A firing is a call of
  `SendNotificationsGlobal`, with the outcome of the notification service
  as a parameter.
- Text.ParseInt: `int()` also accepts underscores between digits and
  non-ASCII digits. The model accepts an optional sign and ASCII digits
  only.
- Text.Lower: lowers ASCII Latin capitals and the basic Cyrillic capitals
  (U+0400–U+042F) only. Every other character is kept unchanged, although
  Python's `str.lower()` also lowers À–Þ, Ґ, Ѣ, Greek and other capitals.
  The two confirmation words use basic Cyrillic letters only.
- Text.LeadingDigits: reads ASCII digits only. Python's `\d` also matches
  the other Unicode decimal digits, so a question id written in such digits
  is cut short in the model.
- ScrapperUtils.GithubUrlToApi: reads the issue or pull number of
  `(\d+)$` (utils_scrapper_api.py:22) as ASCII digits only. A number written
  in other Unicode decimal digits, as in `https://github.com/o/r/issues/١٢`,
  gets an issues endpoint in the source and no endpoint in the model.
- ScrapperUtils.GithubApiUrl: reads the issue or pull number
  (utils_scrapper_api.py:208,252) as ASCII digits only. A number in other
  Unicode decimal digits is an item in the source, and the model falls back
  to the repository branch.
- Schemas.GetStr: a key that holds a value of another JSON type reads as
  the default. In the source, `get` returns that value, and a later `len`
  or slice of it raises `TypeError`.
- Schemas.GetInt: a key that holds a non-integer value reads as the
  default. In the source, the comparison in `pick_latest` then raises
  `TypeError`, or compares the value as it is.
- Schemas.GetObj: a key that holds a non-object value reads as the empty
  object. In the source, the `.get` on it raises `AttributeError`.
- ScrapperApi.CheckUpdates: the exceptions that abort a sweep are not
  modelled. Where the source aborts the whole request, the model skips the
  row: the row resolves to no update, and `/updates` always answers 200. In
  the source, a `KeyError` gets 404 and a `ValueError` gets 400
  (scrapper_api.py:212-234). A `TypeError` reaches no handler of the route.
- ScrapperUtils.GithubLastLinkUpdate: where the source raises, the model
  gives no update or a default.
  - `data[0]` on a JSON object raises `KeyError` (utils_scrapper_api.py:270).
  - A malformed `created_at` makes `strptime` raise `ValueError`, and a
    missing one raises `TypeError` (utils_scrapper_api.py:277-279).
  - A comment with a null body makes `len(None)` raise `TypeError`
    (utils_scrapper_api.py:266,284).
- ScrapperUtils.StackOverflowLastLinkUpd: where the source raises, the
  model reads a default. The exceptions come from fields of an unexpected
  JSON type (utils_scrapper_api.py:183-189), as described for `GetStr`,
  `GetInt` and `GetObj`.
- ScrapperUtils.NetLoc: covers the `urlparse` steps the routing depends
  on: unsafe-byte removal, leading-control stripping, scheme and
  authority. IPv6 brackets and the validation of ports and credentials are
  not modelled.
- ScrapperUtils.StackOverflowLastLinkUpd, ScrapperUtils.GithubLastLinkUpdate:
  the contracts state when an update exists and bound its preview. The
  field-by-field assembly is in the function bodies, not in the ensures.
- ScrapperApi.CheckUpdatesByTags: states that the ORM backend reports a
  subset of the SQL answer, not equality. The SQL query ignores author
  filters (sql_database.py:268-298), and the ORM one applies them
  (orm_database.py:256-270).
- The source's logging calls are not modelled, except in the notification
  handler, where the log is the handler's only effect.
