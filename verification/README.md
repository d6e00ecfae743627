# MyBot backend in Dafny

This project models the backend of MyBot, a Telegram mini-app for writing posts and publishing them to channels. It is an Express server over MongoDB. The model covers:

- **Init-data check** (`InitData`): the signature check on the init data a Telegram client sends. Every `hash` entry is removed. The remaining entries are sorted by key and joined as `key=value` lines. The check then compares the hex HMAC-SHA256 of that text, keyed by SHA-256 of the bot token, with the received hash.
- **Telegram client** (`TelegramApi`): the bot's helpers `getBotId`, `verifyBotAdmin`, `fetchChannelInfo` and `publishToChannel`.
  - They are modelled as a class holding the write-once bot-id cache.
  - The class keeps a ghost log of the Bot API requests it sends.
  - The Bot API itself is an oracle (`Authority`) that answers each request with a result or an error description.
- **Collections**: the User, Channel and Post collections are the fields of `Backend.Server`.
  - `users` is a map keyed by `telegramId`.
  - `channels` is a map keyed by the compound unique index `(channelId, addedBy)`.
  - `posts` is an append-only sequence whose indices stand for the generated `_id`.
- **Gates** (`AuthGates`): `requireUser` (the `x-telegram-id` header) and `requireSuperAdmin`.
- **Route handlers**:
  - `POST /auth/telegram`, with the test-auth bypass, the signed path and role derivation;
  - `GET /channels` and `POST /channels/connect`;
  - `POST /publish`;
  - `GET /posts`;
  - `GET /stats`;
  - `POST /generate/text`, with the `generateText` template.

Each state-changing handler (login, connect, publish) is a method of `Backend.Server`. Its postcondition ties the new collections and the response to a pure plan function of the request (`PlanLogin`, `PlanConnect`, `PlanPublish`). The properties are proved as lemmas about those plan functions. The server keeps the invariant `Consistent`:

- users sit under their own ids, with roles derived from the configured super-admin id;
- channel bindings sit under their own keys, are verified, and are owned by stored users;
- posts have distinct ids and their required fields, and are all published by the configured super admin.

The read-only handlers for posts, stats and generation are functions of the request and the collections. The channel listing is the method `Server.ListChannels`, because it scans the channel map in a loop.

Inputs the code takes from the environment are parameters of the model:

- the clock (`now`);
- the configuration (`Env.Config`);
- SHA-256, HMAC-SHA256 and hex rendering (`InitData.Crypto`);
- the key order used by `localeCompare` (`keyLe`);
- `JSON.parse` of the signed `user` field (`AuthRoute.UserParser`);
- the Telegram Bot API (`TelegramApi.Authority`).

A JSON request field that the code passes through untyped is a `JsValues.Scalar`: missing, a string or an integer. JavaScript truthiness and `String(x)` are written out for it.

## Model

| member | source | states |
|---|---|---|
| `JsValues.IntToString` | backend/src/utils/telegram.js:55 | `String(n)` of an id is never empty, and starts with `-` exactly for a negative id |
| `JsValues.ToStr` | backend/src/routes/auth.js:45 | `String(v)` keeps a string as it is and is non-empty for every truthy field |
| `Sorting.Sort` | backend/src/utils/telegram.js:16-17 | sorting returns a permutation of its input |
| `Sorting.SortStable` | backend/src/utils/telegram.js:16-17 | the sort is stable: the elements equivalent to any value keep their input order |
| `Sorting.SortSorted` | backend/src/utils/telegram.js:16-17 | under a consistent comparator (a total preorder) the output is ordered |
| `Sorting.SortedUnique` | backend/src/utils/telegram.js:16-19 | two sorted orderings of the same values coincide when the values leave no tie |
| `InitData.FirstValue` | backend/src/utils/telegram.js:10 | `params.get` yields a value that is paired with the key in the payload, and yields nothing exactly when no entry has the key |
| `InitData.Without` | backend/src/utils/telegram.js:15 | after `params.delete("hash")` no entry has the `hash` key |
| `InitData.WithoutCount` | backend/src/utils/telegram.js:15 | the deletion keeps every non-hash entry with its multiplicity and drops every hash entry |
| `InitData.Lines` | backend/src/utils/telegram.js:18 | one `key=value` line per entry, in order |
| `InitData.MissingInputRejected` | backend/src/utils/telegram.js:5-7 | falsy init data or an empty token is rejected with "Missing init data or bot token", whatever the crypto |
| `InitData.MissingHashRejected` | backend/src/utils/telegram.js:10-13 | an absent or empty hash is rejected with "Missing hash", whatever the crypto |
| `InitData.VerdictCharacterised` | backend/src/utils/telegram.js:21-31 | accepted exactly when the signature of the data-check string equals the hash; otherwise "Invalid hash"; the data then holds every non-hash key and no `hash` key |
| `InitData.FromEntriesKeys` | backend/src/utils/telegram.js:31 | `Object.fromEntries` has exactly the entries' keys |
| `InitData.FromEntriesLastWins` | backend/src/utils/telegram.js:31 | a key's value is that of its last entry |
| `InitData.ByKeyPreorder` | backend/src/utils/telegram.js:17 | comparing entries by key is a total preorder when the key order is one |
| `InitData.DataCheckStringShape` | backend/src/utils/telegram.js:15-19 | the data-check string lists exactly the non-hash entries, sorted by key, none from a hash entry |
| `InitData.JoinShape` | backend/src/utils/telegram.js:19 | `join("\n")` puts one separator between neighbouring lines and none after the last |
| `InitData.FirstValueDistinct` | backend/src/utils/telegram.js:10 | with distinct keys `get` returns exactly the value paired with the key |
| `InitData.FromEntriesDistinct` | backend/src/utils/telegram.js:31 | with distinct keys the data object holds exactly the payload's entries |
| `InitData.PermutationInvariant` | backend/src/utils/telegram.js:16-19 | for distinct keys any reordering of the entries gives the same data-check string and the same verdict |
| `InitData.TamperedValueChangesString` | backend/src/utils/telegram.js:15-19 | with distinct keys, replacing the value of one signed entry changes the data-check string exactly when the value differs |
| `InitData.TamperedValueNeedsCollision` | backend/src/utils/telegram.js:15-31 | a payload with a changed signed value is accepted together with the original only if two different data-check strings have the same signature |
| `InitData.WithoutHashEntry` | backend/src/utils/telegram.js:15 | deleting the hash removes the hash entry wherever it sits, whatever its value |
| `InitData.TamperedHashRejected` | backend/src/utils/telegram.js:21-28 | changing only the hash value of an accepted payload makes it rejected |
| `TelegramApi.ChannelInfoOf` | backend/src/utils/telegram.js:68-75 | the channel id is the canonical `String(chat.id)`, never empty; absent title and username become `""` |
| `TelegramApi.CachedIdReused` | backend/src/utils/telegram.js:53 | a cached id is returned with no request and no change to the cache |
| `TelegramApi.LookupFillsCache` | backend/src/utils/telegram.js:52-57 | after a successful lookup the cache holds `String(result.id)` and later lookups return it without calling `getMe` |
| `TelegramApi.CacheWriteOnce` | backend/src/utils/telegram.js:52-57 | a filled cache never changes; an empty one changes only on a successful `getMe` |
| `TelegramApi.AdminCheckMeaning` | backend/src/utils/telegram.js:59-66 | the bot is admin exactly when its own id is known and its membership status is "administrator" or "creator"; a failed `getMe` is that error and sends nothing further; a failed `getChatMember` is an error, never a verdict |
| `TelegramApi.AdminCheckAfterFill` | backend/src/utils/telegram.js:52-66 | the filled cache gives the same admin verdict as a fresh lookup |
| `TelegramApi.TelegramClient.constructor` | backend/src/utils/telegram.js:34 | the cache starts empty and no request has been sent |
| `TelegramApi.TelegramClient.GetBotId` | backend/src/utils/telegram.js:52-57 | result, new cache and requests sent follow the cache rule |
| `TelegramApi.TelegramClient.VerifyBotAdmin` | backend/src/utils/telegram.js:59-66 | result and requests are those of the admin check on the bot's own id |
| `TelegramApi.TelegramClient.FetchChannelInfo` | backend/src/utils/telegram.js:68-75 | one `getChat` request; the normalised channel or the error |
| `TelegramApi.TelegramClient.PublishToChannel` | backend/src/utils/telegram.js:77-83 | one `sendMessage` request; its answer is the result |
| `UserModel.NewUser` | backend/src/models/User.js:5-11 | a new record has empty names, role "user" and both timestamps at insertion time |
| `UserModel.RoleFor` | backend/src/routes/auth.js:14 | the role is "super_admin" exactly when the id equals the configured id, else "user" |
| `UserModel.UpsertUser` | backend/src/routes/auth.js:49-61 | the upsert adds only the login's id and leaves every other record untouched |
| `UserModel.UpsertUserRecord` | backend/src/routes/auth.js:51-58 | names, role and `lastUsedAt` are rewritten; `firstUsedAt` is kept unless the record was inserted |
| `UserModel.UpsertUserValid` | backend/src/models/User.js:5-9 | records stay under their own ids with an enum role |
| `UserModel.UpsertUserSize` | backend/src/routes/auth.js:49-61 | a record is added exactly when the id is new |
| `UserModel.RepeatLoginSameSize` | backend/src/routes/auth.js:49-61 | a repeated login never adds a second record |
| `UserModel.UpsertUserRoles` | backend/src/routes/auth.js:46-58 | logging in keeps every stored role derived from its id |
| `UserModel.OnlyConfiguredIdIsSuperAdmin` | backend/src/routes/auth.js:46 | a stored record is a super admin exactly when it is the configured id's |
| `ChannelModel.NewChannel` | backend/src/models/Channel.js:5-10 | a new binding has empty title and username, `botIsAdmin` false and `createdAt` now |
| `ChannelModel.UpsertChannel` | backend/src/routes/channels.js:28-39 | the upsert adds only the `(channelId, addedBy)` key and leaves every other binding untouched |
| `ChannelModel.UpsertChannelRecord` | backend/src/routes/channels.js:30-37 | the stored binding has the looked-up title and username, the caller, `botIsAdmin` true and `createdAt` now |
| `ChannelModel.UpsertChannelValid` | backend/src/models/Channel.js:15 | bindings stay under their own compound keys and all verified |
| `ChannelModel.UpsertChannelSize` | backend/src/routes/channels.js:28-39 | a binding is added exactly when the pair is new |
| `ChannelModel.ReconnectSameSize` | backend/src/routes/channels.js:28-29 | connecting the same channel again for the same user keeps the table size |
| `ChannelModel.SameChannelTwoUsers` | backend/src/models/Channel.js:5-15 | two users connecting one channel give two bindings with the same channel id |
| `PostModel.Create` | backend/src/routes/publish.js:16-23 | the collection grows by exactly the new post, at the end, with the next id |
| `PostModel.CreateValid` | backend/src/models/Post.js:7-9 | a post with both required fields keeps ids distinct and fields present |
| `PostModel.CreateTwiceTwoPosts` | backend/src/models/Post.js:3-13 | with no unique index the same draft stored twice gives two posts that differ only in id and time |
| `AuthGates.RequireUser` | backend/src/utils/auth.js:3-16 | admits exactly a truthy header naming a stored record, as that record; 401 "Missing telegram id" or "User not found" otherwise |
| `AuthGates.RequireSuperAdmin` | backend/src/utils/auth.js:18-23 | admits exactly a "super_admin" role; 403 "Super admin only" otherwise |
| `AuthGates.AdmittedIsCaller` | backend/src/utils/auth.js:9-14 | the admitted record's `telegramId` is the header's id, with an enum role |
| `AuthGates.GateOrder` | backend/src/routes/stats.js:9 | an unknown caller gets the 401, never the 403; a known caller who is not a super admin gets exactly the 403 |
| `AuthGates.SuperAdminGateMeaning` | backend/src/utils/auth.js:18-23 | with derived roles both gates pass exactly for the configured id once it has logged in, and for nobody when it is unset |
| `AuthGates.HeaderIsIdentity` | backend/src/utils/auth.js:4-15 | any request carrying a stored id is admitted as that record |
| `AiService.TrimSlice` | backend/src/services/aiService.js:2 | `trim` returns the stretch between leading and trailing white space, which neither starts nor ends with white space |
| `AiService.TrimIdempotent` | backend/src/services/aiService.js:2 | trimming twice is trimming once |
| `AiService.TrimEmptyIffSpace` | backend/src/services/aiService.js:2 | a topic trims to `""` exactly when it is all white space |
| `AiService.SafeTopic` | backend/src/services/aiService.js:2 | a missing topic becomes "your topic"; a numeric topic throws; the result is never empty |
| `AiService.OrDefault` | backend/src/services/aiService.js:3-4 | a truthy language or content type is used in its `String` form, otherwise the default |
| `AiService.GenerateText` | backend/src/services/aiService.js:1-10 | the template fails exactly for a numeric topic |
| `AiService.GeneratedFrom` | backend/src/services/aiService.js:6-9 | a string topic always yields header, shown topic, blank line and the advice lines |
| `AiService.GeneratedLayout` | backend/src/services/aiService.js:6-9 | the text starts with the header, carries the shown topic after it and ends with the three advice lines |
| `AiService.PaddingIgnored` | backend/src/services/aiService.js:2 | padding a topic with white space does not change the text |
| `AiService.AllDefaults` | backend/src/services/aiService.js:2-9 | a blank topic with nothing else gives "Informational (English): your topic" and the advice |
| `AuthRoute.ProfileOf` | backend/src/routes/auth.js:13-24 | the profile is `String(id)`, names or `""`, and the role derived from that id |
| `AuthRoute.LoginResponse` | backend/src/routes/auth.js:63 | the answer is 200 with the stored record's role and id |
| `AuthRoute.TestAuthBypass` | backend/src/routes/auth.js:12-32 | with test auth on, a supplied user is accepted whatever the init data, token, crypto or parser |
| `AuthRoute.TestUserIgnoredWhenOff` | backend/src/routes/auth.js:12 | with test auth off, a supplied user object changes nothing |
| `AuthRoute.SignedLoginCharacterised` | backend/src/routes/auth.js:34-66 | outside the bypass a login upserts exactly when the signature verifies, the user field is present and it parses; otherwise 401 with the reason, 400 "Missing user data" or 500 "Auth failed" |
| `AuthRoute.LoginRoleDerived` | backend/src/routes/auth.js:12-61 | every upserted profile carries an enum role that is "super_admin" exactly for the configured id |
| `AuthRoute.MissingIdStoredAsUndefined` | backend/src/routes/auth.js:13 | a user object without `id` is stored under the text "undefined" |
| `AuthRoute.LoginKeepsUsersValid` | backend/src/routes/auth.js:49-63 | a login keeps the table well formed with derived roles and answers with the profile's own role and id |
| `ChannelsRoute.NewestFirstPreorder` | backend/src/routes/channels.js:10 | ordering by `createdAt` descending is a total preorder |
| `ChannelsRoute.ScanOwned` | backend/src/routes/channels.js:9 | the scan yields every binding the caller owns exactly once |
| `ChannelsRoute.ListOwned` | backend/src/routes/channels.js:8-13 | the listing holds exactly the caller's bindings, each once, newest first |
| `ChannelsRoute.ConnectSaveCharacterised` | backend/src/routes/channels.js:15-39 | a binding is saved exactly when the id is truthy, `getChat` succeeds and the admin check on the canonical chat answers true; the saved description is the normalised chat |
| `ChannelsRoute.ConnectRejections` | backend/src/routes/channels.js:17-44 | a falsy id is 400 "Channel id is required", with no request sent and the cache unchanged; a failed `getChat`, `getMe` or `getChatMember` is 500 "Channel connect failed"; an admin check answering false is 400 "Bot is not admin in channel" |
| `ChannelsRoute.AliasesShareBinding` | backend/src/routes/channels.js:22-29 | two references to the same chat save under one key, so the table does not grow |
| `PostsRoute.ByPublisher` | backend/src/routes/posts.js:10-12 | the publisher filter never lengthens the collection |
| `PostsRoute.ByPublisherCount` | backend/src/routes/posts.js:10-12 | the filter keeps every copy of a matching post and drops every other post |
| `PostsRoute.VisiblePostsCharacterised` | backend/src/routes/posts.js:8-13 | the listing is newest first and holds all posts for a super admin, exactly the caller's own otherwise |
| `PostsRoute.OthersPostsHidden` | backend/src/routes/posts.js:8-10 | a caller who is not a super admin sees only their own posts |
| `PostsRoute.NoOwnPostsEmptyListing` | backend/src/routes/posts.js:8-12 | a caller with no posts of their own gets an empty listing |
| `PostsRoute.HandleListPosts` | backend/src/routes/posts.js:7-14 | 200 exactly when `requireUser` admits, with the role-scoped listing |
| `StatsRoute.HandleStats` | backend/src/routes/stats.js:9-17 | 200 exactly when both gates admit, with the sizes of all three collections; the gate's answer otherwise |
| `StatsRoute.StatsOnlyForSuperAdmin` | backend/src/routes/stats.js:9 | the counts go to the configured id's requests only; every other request gets 401 or 403 |
| `GenerateRoute.HandleGenerate` | backend/src/routes/generate.js:15-27 | after the gate, a falsy topic is 400 "Topic is required", a numeric one 500 "Generation failed", a string one the generated text |
| `GenerateRoute.BlankTopicGetsDefault` | backend/src/routes/generate.js:18-23 | an all-white-space topic passes the check and is answered with the default topic |
| `PublishRoute.DraftOf` | backend/src/routes/publish.js:16-23 | the post records the given prompt or `""`, the text, `String(channelId)`, `String(message_id)` and the caller |
| `PublishRoute.PublishCharacterised` | backend/src/routes/publish.js:8-28 | a post is recorded exactly when both fields are truthy and the message was sent; a falsy field is 400 "Channel id and text are required"; a failed send is 500 "Publish failed" |
| `PublishRoute.PublishDraftValid` | backend/src/models/Post.js:7-9 | a recorded draft has both required fields |
| `PublishRoute.RepublishTwoPosts` | backend/src/routes/publish.js:15-23 | publishing the same request twice records two posts |
| `Backend.RegularUsersSeeNoPosts` | backend/src/routes/posts.js:8-10 | only the super admin publishes, so any other caller's post listing is empty |
| `Backend.LoginThenAdmitted` | backend/src/utils/auth.js:9-15 | after a login, the same id passes `requireUser` as the record just written |
| `Backend.Server.Login` | backend/src/routes/auth.js:8-67 | a rejected login changes no record; an accepted one upserts the profile and answers its role and id; consistency is kept |
| `Backend.Server.ListChannels` | backend/src/routes/channels.js:8-13 | the gate's answer, or 200 with exactly the caller's bindings, newest first |
| `Backend.Server.ConnectChannel` | backend/src/routes/channels.js:15-45 | nothing is written on any failure; on success the binding is upserted; the requests sent and the cache follow the plan |
| `Backend.Server.Publish` | backend/src/routes/publish.js:8-29 | no send and no post when a gate or the input check fails; no post when the send fails; otherwise one post is appended and the message id and post id are answered |

## Left out

- Form decoding: init data arrives as already-decoded key/value pairs. `URLSearchParams` percent-decoding is not modelled.
- Cryptography: SHA-256, HMAC-SHA256 and hex rendering are parameters. No property of them (such as collision resistance) is assumed. So tampering with a signed value is shown to need a signature collision (`InitData.TamperedValueNeedsCollision`), not to be rejected.
- Key order: the order `localeCompare` gives is a parameter. Permutation invariance is proved for key orders that are total, transitive and antisymmetric.
- `InitData.DataCheckStringShape` states that no line of the data-check string comes from a hash entry. A value that contains a newline can still put a line starting with `hash=` into the text; the model does not exclude this, and neither does the code.
- `JSON.parse` of the signed `user` field is a parameter (`UserParser`), with `None` for any throw. A parsed value whose name fields are not strings is not modelled.
- Network: the `fetch` call and the JSON handling inside `telegramApi` are replaced by the `Authority` oracle. An `ok` answer always carries a result of the expected shape, so a missing `member` is not modelled.
- JSON request fields are missing, strings or integers. Booleans, `null`, objects, arrays and fractional numbers are not modelled.
- `IntToString` renders every integer in decimal. The exponent notation that `String(n)` uses for very large numbers is not modelled.
- Database:
  - every write and query succeeds. The 500 answers a failing database would cause are not modelled. This includes a post that is sent to Telegram but then fails to save.
  - MongoDB atomicity and concurrent requests are not modelled. Requests are handled one at a time.
  - mongoose `runValidators` and casting are reduced to the `String` form of scalar fields.
  - `_id` is the post's index in the collection. Dates are integer timestamps taken from a `now` parameter.
- Ordering ties: the database leaves the order of equal `createdAt` values unspecified. `ChannelsRoute.ListOwned` and `PostsRoute.VisiblePostsCharacterised` promise only the descending order and the contents, not an order among ties.
- `ChannelsRoute.ScanOwned` is the collection scan behind `Channel.find`. It is written as a loop over the map's keys.
- `Backend.Consistent`, `Backend.RegularUsersSeeNoPosts` and `StatsRoute.StatsOnlyForSuperAdmin` hold for one server lifetime that starts from empty collections under a fixed configuration. The source keeps its collections in MongoDB across restarts, and `requireSuperAdmin` trusts the stored role. If the configured super-admin id changes, the old super admin keeps passing `/stats` and `/publish` until they log in again. After that, their earlier posts appear in their own listing as a regular user. The model does not capture this.
- `TelegramApi.Authority` answers each request as a fixed function of its arguments for the whole run. Answers that change over time are not modelled. Examples are a new `message_id` for each `sendMessage`, and a bot that is removed from a channel after it was connected.
- The rate limiter on `/generate/text` and the express wiring (`app.js`, `server.js`, `routes/index.js`, the health route, CORS and logging) are not part of this model.
- The React frontend (`frontend/src/App.jsx`) is not part of this model.
