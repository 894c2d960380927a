# A verified model of the VPN-provisioning bot's core

The system is a Telegram bot that hands out VLESS proxy keys. Behind it
sit one or more remote x-ui proxy panels, each reached over an HTTP API.
The bot:

- logs in to each panel and keeps the session cookie for 30 minutes;
- lists the panel's clients by joining each inbound's settings with its
  traffic statistics;
- places new users on the least-loaded server;
- creates and deletes clients, refuses them at capacity, and drops the
  matching cache keys;
- reads per-client traffic.

Around that core sit the user and admin handlers:

- a rate limiter with a captcha;
- a Telegram send loop that retries;
- a reminder-settings table and its synchronisation with the panels;
- parsing of the admin list and the server list;
- the pure decisions inside the handlers: pagination of the delete list,
  name checks, command parsing and broadcast tallies.

The model is written in Dafny, one module per source file:

| module | file | source |
|---|---|---|
| `Wrappers` | `wrappers.dfy` | `Option` and `Result` |
| `Text` | `text.dfy` | the Python `str` operations the code relies on |
| `PanelData` | `panel.dfy` | the panel's decoded JSON shapes, the add payload and the delete path |
| `ServerManager` | `server_manager.dfy` | `services/server_manager.py` |
| `Http` | `http.dfy` | `http.py` |
| `Core` | `core.dfy` | `services/core.py` |
| `RateLimit` | `rate_limit.dfy` | `rate_limit.py` |
| `TelegramUtils` | `telegram_utils.dfy` | `services/telegram_utils.py` |
| `Reminders` | `reminders.dfy` | `services/reminders.py` and `sync_reminders.py` |
| `Config` | `config.dfy` | `config.py` |
| `Admin` | `admin.dfy` | `admin.py` |
| `User` | `user.dfy` | `user.py` |
| `AdminBroadcast` | `admin_broadcast.dfy` | `admin_broadcast.py` |

Objects that the source updates in place are classes with `modifies`
clauses: the server manager, the `api_auth` cookie cache, the TTL
dictionaries, the middleware and the reminder table. Each of their
methods is proved against a pure step function, and the properties are
proved about those functions.

Outside effects are replaced by parameters:

- The remote panels are a value `world: string -> Panel`. It gives each
  server's login reply, listing and status codes.
- A sequence of per-call outcomes stands for:
  - the retried HTTP attempts;
  - the Telegram sends;
  - the listings that handlers scan across servers.
- Time is an integer clock: seconds for login sessions, milliseconds for
  the rate limiter.
- A random choice becomes a choice, made with `:|`, from the set the
  source chooses from.

## Model

| member | source | states |
|---|---|---|
| ServerManager.AuthStep | services/server_manager.py:14-38 | Without `force`, a usable cached session (truthy cookies, `expires > now`) is returned and no login is sent. Otherwise the login is sent. A success stores the cookies with `expires = now + 1800` for that server only. A non-2xx status or a reply without `success` fails and leaves the cache unchanged. |
| ServerManager.LoginThenCached | services/server_manager.py:19-37 | After a successful login at `now`, a call without `force` at any `now2` with `now <= now2 < now + 1800` sends no login and returns the stored cookies. From `now + 1800` on, the call behaves as with nothing cached. |
| ServerManager.SecondAuthAfterListing | services/server_manager.py:95-100 | After a successful listing, a second `_auth` at the listing's instant succeeds and stores nothing new, or stores the same session again. |
| ServerManager.NormalizeTraffic | services/server_manager.py:139-144 | `uplink` wins over `up` and `downlink` over `down`, with 0 as the default. |
| ServerManager.NormalizeStable | services/server_manager.py:139-144 | Normalising an already normalised record changes nothing. |
| ServerManager.ExtractObj | services/server_manager.py:40-47 | A dict yields its `obj`, or `{}` when `obj` is absent. A list whose head is a dict yields that head. Anything else yields `{}`. |
| ServerManager.UuidMapSpec | services/server_manager.py:65 | The email-to-uuid map holds exactly the settings clients' emails. For a repeated email, the id of the last entry wins. |
| ServerManager.DeriveClientsLength | services/server_manager.py:59-76 | There is exactly one row per `clientStats` entry of every inbound. |
| ServerManager.DeriveClientsAt | services/server_manager.py:59-76 | Row `k` is the `k`-th stat, ordered by inbound and then by stat, and carries its inbound's id. |
| ServerManager.EnrichedRow | services/server_manager.py:68-75 | A row's uuid is the settings id bound to its email, or `""` when there is none. Its byte counters follow the `uplink`/`up` and `downlink`/`down` precedence. |
| ServerManager.CreatedClientUuid | services/server_manager.py:99-113 | A client created by the bot, whose id equals its email, is listed with its email as its uuid. |
| ServerManager.CollectRows | services/server_manager.py:59-76 | The loop over inbounds and stats builds exactly the derived row list. |
| ServerManager.SweepLoads | services/server_manager.py:79-85 | The loads are exactly the servers whose listing succeeded, each paired with its row count. Failed servers are absent. |
| ServerManager.TiedIsLeastLoaded | services/server_manager.py:88-91 | When some server answered, the set `random.choice` picks from is non-empty. Each of its servers answered with the minimum count over all servers that answered. |
| ServerManager.KeysDistinct | services/server_manager.py:193-200 | Two different (kind, server) pairs never share a cache key. |
| ServerManager.KeyFor | services/server_manager.py:193-200 | `clients`, `inbounds_list` and `onlines` name their own key. Any other kind names none. |
| ServerManager.TrafficLookupAsWritten | services/server_manager.py:149-172 | It queries by id exactly when `inbound_id` is truthy, and by email exactly when the first object is falsy and the email is non-empty. It fails iff the object finally read is not a dict. A truthy by-id dict gives its normalised counters. Otherwise a by-email dict gives its normalised counters. With neither id nor email, it gives zero traffic and queries nothing. |
| ServerManager.TrafficNullObjFails | services/server_manager.py:162-171 | A panel reply of `{"obj": null}` makes the lookup as written fail instead of reporting zero. |
| ServerManager.TrafficLookup | services/server_manager.py:149-172 | The same queries as written: by id iff `inbound_id` is truthy, by email iff the first result is empty and the email is non-empty. Where the code as written succeeds, both agree. |
| ServerManager.TrafficFetch | services/server_manager.py:155-172 | A failed by-id GET ends the lookup with its failure. A failed by-email GET, when that query is made, ends it with its failure. Otherwise the result and queries are those of the intended lookup on the decoded bodies. Every failure is the failure of a query that was made. |
| ServerManager.NoDataIsZero | services/server_manager.py:155-172 | When neither lookup gives data, the traffic is zero both ways. |
| ServerManager.OnlinesFrom | services/server_manager.py:188-191 | A 404 is reported as missing support, any other non-2xx as an HTTP error, and a 2xx as its `obj`. |
| ServerManager.Manager.constructor | services/server_manager.py:9-12 | It starts with an empty login cache. |
| ServerManager.Manager.Auth | services/server_manager.py:14-38 | The result and the new cache are those of `AuthStep`. A login is sent iff `force` is set or no usable session is cached. |
| ServerManager.Manager.ListClients | services/server_manager.py:49-76 | It logs in, then on a 2xx listing returns the derived rows. The cache is updated as by the login. |
| ServerManager.Manager.PickLeastLoaded | services/server_manager.py:78-91 | It returns a tied least-loaded server among those that answered. It fails with no available server when none answered. |
| ServerManager.Manager.CreateClient | services/server_manager.py:93-124 | A failed listing fails. Without `skip_limit`, a server listing at least `MAX_CLIENTS` rows is refused and nothing is posted. A successful add posts the add-client payload and removes exactly the clients and inbounds keys. A failure leaves the cache unchanged. The second `_auth` runs at its own instant `now2`: its failure ends the call with nothing posted, and the login cache is the one both logins left. When `now2` is the listing's instant, it is the one the listing's login left. |
| ServerManager.Manager.DeleteClient | services/server_manager.py:126-137 | It posts the delete path. A success removes exactly the clients and inbounds keys. |
| ServerManager.Manager.GetTraffic | services/server_manager.py:149-172 | A failed login fails with no query. An unknown server fails with no query. Otherwise the result and queries are `TrafficFetch`'s, so a failing GET propagates its failure and a reply without data reads as zero. |
| ServerManager.Manager.GetOnlineClients | services/server_manager.py:181-191 | It logs in, then the onlines reply is decided by `OnlinesFrom`. |
| ServerManager.Manager.InvalidateCache | services/server_manager.py:193-200 | It removes only the key of the named kind. An unknown kind changes nothing. |
| ServerManager.Manager.IsFull | services/server_manager.py:202-203 | It holds iff the listing has at least `MAX_CLIENTS` rows. A failed listing fails. |
| ServerManager.Manager.IsAlive | services/server_manager.py:174-179 | It holds iff a login, or a usable cached session, succeeds. |
| ServerManager.Manager.RefreshRound | services/server_manager.py:205-213 | One round forces a login on every server. Each server whose login succeeds holds a fresh 30-minute session. Every other entry is unchanged, including those of servers whose forced login fails. |
| Http.RetryFrom | http.py:20 | Attempts continue while they fail with a transport or status error, up to the third. The result is the last attempt made. |
| Http.Retry | http.py:20 | At most 3 attempts are made. Every attempt before the last failed retryably. Fewer than 3 attempts means the last one was not a retryable failure. |
| Http.RetryStopsAtFirst | http.py:20 | The number of attempts is the first attempt that is not a retryable failure, or 3. |
| Http.ApiAuthKeyAsWritten | http.py:22 | The key `api_auth` caches under is the REALITY short id that every VLESS link built for the server carries as its `sid` field. |
| Http.ApiAuthStep | http.py:21-41 | A missing key starts as no cookies with an expired timestamp. Without `force`, truthy unexpired cookies are returned. A successful login stores `now + 1800`. A reply without `success` raises and leaves the entry as it was. Other keys are unchanged. |
| Http.SharedShortIdSharesCookies | http.py:22-27 | Keyed by the REALITY short id as written, a second server with the same short id gets the first server's cookies without logging in. |
| Http.ApiAuthIsolated | http.py:21-41 | Keyed by server id, a login on one server never changes what another server's lookup answers. |
| Http.AuthCache.ApiAuth | http.py:20-41 | For the cache key the caller passes, the result and the attempt count are those of the retry policy over the login attempts. The entry is the one the last attempt left. |
| Http.InboundsListAttempt | http.py:45-51 | It succeeds iff the status is 2xx. The result is then the inbound list. |
| Http.AllStatsLength | http.py:56-58 | The length of the flattened list is the sum of the per-inbound stat counts. |
| Http.AllStatsAreRowStats | http.py:56-58 | `api_clients` lists, in order, exactly the stats behind `list_clients`'s rows. |
| Http.ApiInboundsList | http.py:44-51 | At most 3 GETs. The first 2xx answers with the inbound list, and every earlier GET failed. A failure is a status error after 3 GETs. |
| Http.ApiInboundsListRetries | http.py:44-51 | The listing call is the retry policy around one listing GET. |
| Http.ListingFrom | http.py:54-55 | From outer attempt `j` on, each attempt is a whole listing call of up to 3 GETs. A success is the first 2xx GET, and all GETs since attempt `j` before it failed. A failure comes after GET 9. |
| Http.ListingFromRetries | http.py:54-55 | The written-out outer retries are the retry policy around the listing call. |
| Http.ApiClients | http.py:54-58 | The nested retries make at most 9 GETs. A success is the flattened stat list at the first 2xx GET, and every earlier GET failed. A failure means all 9 GETs failed. |
| Http.ApiClientsRetries | http.py:54-58 | The result is the retry policy around the listing call, flattened on success. |
| Http.ApiCreateClient | http.py:60-85 | A success posts exactly the add-client payload, with id and email both the email, limits zero and `enable` set. Earlier attempts failed. A failure uses all 3 attempts. |
| Http.ApiDeleteClient | http.py:87-97 | Each attempt posts to `/panel/api/inbounds/{inbound_id}/delClient/{client_id}`. A failure uses all 3 attempts. |
| PanelData.DeletePathRoundTrip | http.py:93 | The inbound id and the client id are read back out of the delete path unchanged. |
| PanelData.AddClientPayload | http.py:64-77 | The payload holds one client with id equal to the email, no IP limit, no quota, no expiry, enabled, with the server's flow and the user's `tgId`. `subId` and `sid` are empty and `reset` is 0. |
| Http.OnlinesAttempt | http.py:134-140 | A 2xx reply yields its `obj`, or `[]` when `obj` is absent. |
| Http.ObjOrZero | http.py:118 | A truthy `obj` is returned as is. A falsy or missing `obj` gives the zero record, which is truthy. |
| Http.TrafficAttempt | http.py:108-131 | A 2xx by-id reply gives its `obj` or zero. A non-404 status error propagates. A 404 falls through to the by-email lookup. There a 2xx reply gives its `obj` or zero, a transport error propagates, and any status error gives zero. |
| Http.ApiTraffic | http.py:107-131 | At most 3 attempts. The result is the last attempt's. Every earlier attempt failed with a transport or status error. Fewer than 3 attempts means the last one was not such a failure. A successful result is truthy. |
| Http.BuildVless | http.py:99-105 | The link starts with `vless://`, then the email, `@`, the server's domain, `:`, its port and `?`. It carries the short id as `&sid=...&spx=`. It ends with `#` + remark + `-` + email. |
| Http.VlessUserRoundTrip | http.py:99-105 | The email a link was built for is read back from the link when the email holds no `@`. |
| Core.LoadsSpec | services/core.py:20-31 | A `(sid, count)` pair is a load iff that server's login and listing succeeded with that count. |
| Core.PickServerByLoad | services/core.py:14-37 | With some load, it returns a tied least-loaded server. With none, it returns some configured server. With no servers at all, it fails. |
| Core.PickedIsLeastLoaded | services/core.py:35-37 | The server picked answered, with the minimum count over all servers that answered. |
| Core.FirstMatch | services/core.py:99 | None iff no listed email starts with the prefix. Otherwise it is a listed client with the prefix. |
| Core.Matches | services/core.py:59 | It keeps exactly the listed clients whose email starts with the prefix. |
| Core.MatchesConcat | services/core.py:59 | Filtering a concatenation is the concatenation of the filtered parts, so the matches keep the listing's order. |
| Core.MatchesCount | services/core.py:59 | A prefixed client occurs among the matches exactly as often as in the listing. Any other client does not occur. |
| Core.FirstMatchIsHead | services/core.py:47-49 | The first match is the head of the match list. |
| Core.FindUserSpec | services/core.py:96-102 | No match iff every server answered and none holds the prefix. A match is on the first server, in configuration order, that holds one, and it is that server's first such client. A failing listing before that ends the scan. |
| Core.FindUserServer | services/core.py:96-102 | The loop with early return computes `FindUser`. |
| Core.FirstInboundOf | services/core.py:92 | The first comma-separated `INBOUNDS` id is read back. |
| Core.NewProfile | services/core.py:91-93 | The created email is `"{tg_id}_" + name`, on the server's first inbound. An unparsable inbound setting fails. |
| Core.GetOrCreateUserKey | services/core.py:43-53 | A failed pick or listing propagates its failure and creates nothing. An existing prefixed email is returned and nothing is created. Otherwise the profile `"{tg_id}_" + name` is requested on the first inbound, and its creation's outcome is the result. An unparsable inbound setting fails without a request. Any returned email carries the owner prefix. |
| Core.EnsureUserProfile | services/core.py:78-94 | A found profile is returned without creating anything. Otherwise a failed pick or fullness check propagates, and a full picked server fails. A server that is not full gets the request for `"{tg_id}_" + name` on its first inbound, and the creation's outcome is the result. The returned email carries the prefix. |
| Core.EnsureFindsFirstOwner | services/core.py:84-87 | A returned existing profile is listed on the server it names. |
| Core.DeletedAreOwned | services/core.py:58-62 | Every delete path names the first inbound and a client whose email carries the prefix. |
| Core.FirstFailure | services/core.py:60-62 | It is the index of the first failing delete, or `n`. Every earlier delete succeeded. |
| Core.FirstFailureAt | services/core.py:60-62 | Any index before which all deletes succeeded, and at which one fails or the run ends, is the first failure. |
| Core.DeleteRun | services/core.py:58-63 | The deletes issued are a prefix of the delete paths of the matches, in order. On success the count returned is the number of matching clients, one delete each. On failure the deletes stop at the first failing one. |
| Core.DeleteEach | services/core.py:60-62 | The delete loop computes `DeleteRun`. |
| Core.DeleteUserProfile | services/core.py:55-63 | A failed pick or listing issues no delete. It deletes each prefixed client of the picked server on its first inbound and returns the count. |
| Core.GetUserTraffic | services/core.py:65-72 | No prefixed client gives `None`. Otherwise it gives the traffic of the first prefixed client. |
| RateLimit.Lookup | rate_limit.py:20-28 | A missing key or an entry past its expiry gives the default. Otherwise it gives the stored value. |
| RateLimit.AfterGet | rate_limit.py:24-27 | `get` drops only an expired entry for its key. |
| RateLimit.Cleaned | rate_limit.py:30-34 | It keeps exactly the entries with `expires >= now`, unchanged. |
| RateLimit.CleanupKeepsAnswers | rate_limit.py:20-34 | A cleanup does not change what `get` answers at the same instant. |
| RateLimit.SetThenGet | rate_limit.py:17-28 | After `set`, `get` answers the value until the expiry and the default after it. Other keys are unaffected. |
| RateLimit.TTLDict.Set | rate_limit.py:17-18 | It stores `(value, now + ttl)`, overwriting the entry. |
| RateLimit.TTLDict.Get | rate_limit.py:20-28 | It answers `Lookup` and leaves `AfterGet`'s entries. |
| RateLimit.TTLDict.Cleanup | rate_limit.py:30-34 | The loop leaves exactly `Cleaned`'s entries. |
| RateLimit.RateCheck | rate_limit.py:63-72 | A message less than 1000 ms after the last accepted one stores a captcha `a + b` and is not handled. Otherwise the time is recorded and the message is handled. |
| RateLimit.Step | rate_limit.py:42-72 | With a captcha pending, a non-number gives `EnterNumber` and a wrong number gives `Wrong`, both blocked. With none pending, or a right number (`Solved`, captcha cleared), the rate check decides. A message at least 1000 ms after the last is handled and its time recorded. One sooner is blocked and stores the captcha `a + b`. A new captcha answer lies in 2..18. |
| RateLimit.SolvedClearsCaptcha | rate_limit.py:57-72 | A solved captcha, outside the rate window, is handled and leaves no captcha pending. |
| RateLimit.Middleware.constructor | rate_limit.py:37-40 | It starts with two empty dictionaries with TTLs of 10 s and 60 s. |
| RateLimit.Middleware.Call | rate_limit.py:42-72 | The decision and the two new tables are those of `Step`, for the text read as an integer. |
| RateLimit.Middleware.Handle | rate_limit.py:46-72 | The same as `Call`, once the answer has been parsed. |
| TelegramUtils.SendFrom | services/telegram_utils.py:4-27 | At most 5 calls, and every call before the last failed retryably. Fewer than 5 calls means the last was not a retryable failure. A successful last call's result is returned. A last call failing with a non-retryable `BadRequest` or `Forbidden` gives `None` when silent and is raised otherwise. Any other non-retryable error is raised. `None` without a result happens only when silent. Giving up happens only when not silent, after 5 calls. |
| TelegramUtils.SendStopsAtFirst | services/telegram_utils.py:6-23 | When call `k` is the first that is not a retryable failure, exactly `k + 1` calls are made and call `k`'s outcome decides the result. |
| TelegramUtils.AllRetryableGivesUp | services/telegram_utils.py:24-27 | Five retryable failures give `None` when silent, and `RuntimeError` otherwise. |
| TelegramUtils.OtherErrorsPropagate | services/telegram_utils.py:21-23 | Another error class without retry info is raised after one call. |
| TelegramUtils.SafeSend | services/telegram_utils.py:4-27 | The attempt loop computes `SendFrom`, so it returns the first success, silences or raises request errors as `silent` says, and raises any other error. |
| Reminders.MarkedAsked | services/reminders.py:9-14 | The row exists and is asked. `enabled` and `last_msg_id` are kept. Other rows are unchanged. |
| Reminders.Toggled | services/reminders.py:16-23 | It returns the negated flag, and `True` for a new row. The row is asked. Other rows are unchanged. |
| Reminders.WithLastMsgId | services/reminders.py:32-37 | Only that row's `last_msg_id` changes. |
| Reminders.EnabledChatIds | services/reminders.py:25-30 | Exactly the chats whose row is enabled. |
| Reminders.ToggleListing | services/reminders.py:16-30 | After a toggle, the chat is listed as enabled iff the toggle returned true. |
| Reminders.ToggleTwice | services/reminders.py:16-23 | Two toggles restore the flag. |
| Reminders.TgIdOfSpec | services/reminders.py:58-61 | The owner is read as the source reads it: `"_"` in the email and digits before the first `"_"`. |
| Reminders.OwnerEmailParses | services/reminders.py:58-61 | An email `"{tg_id}_" + name` gives its owner `tg_id`, for `tg_id >= 0`. |
| Reminders.NoDigitsNoOwner | services/reminders.py:58-61 | Text before the first `"_"` that is not all digits gives no owner. |
| Reminders.RefsOfSpec | services/reminders.py:53-63 | A client is reported iff its email's owner is non-zero (and, for the active list, in the table). The reported chat id is that owner. |
| Reminders.ActiveIsRestrictedAll | services/reminders.py:66-87 | `list_active_clients` is `list_all_clients` restricted to chats with a row. |
| Reminders.CollectClients | services/reminders.py:50-64 | The loop over servers and rows computes `ClientsFrom`. |
| Reminders.ListAllClients | services/reminders.py:45-64 | It computes `ClientsFrom` with no restriction. |
| Reminders.OwnerIdsSpec | sync_reminders.py:19-26 | The owners are exactly the digit prefixes of the listed emails. |
| Reminders.SyncOneSpec | sync_reminders.py:19-31 | One client gives its owner a row, adds only that row with defaults, and counts 1 iff it was new. |
| Reminders.SyncedKeys | sync_reminders.py:19-31 | Afterwards the table's keys are the old keys plus every named owner. |
| Reminders.SyncedAddsFresh | sync_reminders.py:27-31 | Existing rows are untouched. Added rows carry `enabled=False`, `asked=False`. |
| Reminders.SyncedCount | sync_reminders.py:17-33 | The count returned is the number of rows added. |
| Reminders.SyncedKnown | sync_reminders.py:27-31 | Owners that already have rows change nothing and count 0. |
| Reminders.SyncedIdempotent | sync_reminders.py:15-33 | A second synchronisation adds nothing. |
| Reminders.SyncAll | sync_reminders.py:9-14 | A failure is the failure of some server. |
| Reminders.SyncAllAddsFresh | sync_reminders.py:9-33 | Over all servers, existing rows are untouched and added rows carry the defaults. |
| Reminders.SyncAllCount | sync_reminders.py:9-14 | The total is the number of rows added over all servers. |
| Reminders.SyncErrStays | sync_reminders.py:12-13 | Once a server fails, later servers are not synchronised. |
| Reminders.ReminderStore.MarkAsked | services/reminders.py:9-14 | The table becomes `MarkedAsked` of the old table. |
| Reminders.ReminderStore.ToggleEnabled | services/reminders.py:16-23 | The table and the result are `Toggled` of the old table. |
| Reminders.ReminderStore.SaveLastMsgId | services/reminders.py:32-37 | The table becomes `WithLastMsgId` of the old table. |
| Reminders.ReminderStore.ListEnabledChatIds | services/reminders.py:25-30 | Exactly the enabled chats. |
| Reminders.ReminderStore.ListAllChatIds | services/reminders.py:39-43 | Exactly the chats with a row, a superset of the enabled ones. |
| Reminders.ReminderStore.ListActiveClients | services/reminders.py:66-87 | The clients reported with the table's chats as the restriction. |
| Reminders.ReminderStore.SyncServer | sync_reminders.py:15-33 | The table and the count are `Synced` of the old table. |
| Reminders.ReminderStore.SyncReminders | sync_reminders.py:9-14 | The result and the table are `SyncAll` of the old table. |
| Config.NormalId | config.py:33-35 | The canonical form has no upper-case letter and no leading `@`. |
| Config.ParseAdminIds | config.py:26-38 | A set is kept, an int becomes `{str(v)}` and anything else becomes `{}`. Texts and lists give canonical ids. |
| Config.ParseAdminIdsText | config.py:33-35 | From a text, exactly the canonical forms of its non-blank comma-separated entries. |
| Config.ParseAdminIdsList | config.py:31-32 | From a list, exactly the canonical forms of `str()` of its non-blank elements. |
| Config.ListAndTextAgree | config.py:31-35 | A comma-separated text and the list of its entries configure the same ids. |
| Config.AdminById | config.py:42-46 | An `ADMIN_IDS` holding the user's id makes the user an admin. |
| Config.AdminByUsername | config.py:42-46 | `ADMIN_IDS` `@Name` makes an admin of every user whose username lower-cases to `name`. |
| Config.KeptSpec | config.py:66-67 | An id is kept iff it is the stripped form of a non-blank part. Kept ids are non-blank, comma-free and stripped. |
| Config.ServerIdsRoundTrip | config.py:66-67 | Stripped non-blank ids without commas survive joining with `,` and re-parsing. |
| Config.ConfigsSpec | config.py:68-72 | On success there is one config per id. A failure names the first id whose settings do not load. |
| Config.BuildAllServers | config.py:65-72 | An empty id list fails. Otherwise the result is the per-id configs. |
| Config.FillConfigs | config.py:68-71 | The loop computes `Configs`. |
| Admin.CardsOf | admin.py:265-270 | Card `i` carries row `i`'s uuid, email and inbound, on page `i / 5`. |
| Admin.Paginate | admin.py:271-273 | The `setdefault(...).append` loop computes `Group`. |
| Admin.GroupPaged | admin.py:265-273 | Each page holds at most 5 cards, in order, and the pages are numbered from 0. |
| Admin.PagesConcat | admin.py:265-273 | Pages 0 to `total - 1` all exist, and concatenating them reproduces the client order. |
| Admin.OnItsPage | admin.py:265-273 | A card found on page `k` carries page `k`. |
| Admin.NewPage | admin.py:336-337 | With pages left the result is a valid page index. A still valid page is kept. With none left it is 0. |
| Admin.NavRow | admin.py:394-399 | A prev button to `page - 1` iff `page > 0`. A next button to `page + 1` iff `page < total - 1`. The label is always `"{page+1}/{total}"`. |
| Admin.MakeDelKb | admin.py:392-402 | One row per card, with the email and `del_{uuid}`, then the navigation row, then the back row. |
| Admin.PrevCallbackRoundTrip | admin.py:279 | The page number is read back from a prev callback. |
| Admin.NextCallbackRoundTrip | admin.py:286 | The page number is read back from a next callback. |
| Admin.DelCallbackRoundTrip | admin.py:293 | The uuid is the text after the first `"_"`, whatever it contains. |
| Admin.NavTargets | admin.py:394-399 | The navigation buttons lead to valid pages. |
| Admin.FirstWithUuid | admin.py:297 | A card with that uuid, or none iff no card has it. |
| Admin.LocateCard | admin.py:310-318 | The search over the pages, in order, finds the first card with the uuid in the concatenated pages, together with its page. |
| Admin.DeleteTarget | admin.py:297-318 | A card on the current page wins. Otherwise it is the first card with the uuid in a fresh listing, on its own page, or none. |
| Admin.CheckNewClient | admin.py:237-247 | The name is the stripped, lower-cased text. It must be 3-20 letters a-z and differ, ignoring case, from every listed email. The inbound is the first listed client's, or 1. |
| Admin.AddedNameIsTaken | admin.py:240-245 | Once a name is added, adding it again in any case is refused. |
| Admin.AgeText | admin.py:358-366 | Under 1 min gives "только что". Under 60 gives "{mins} мин назад", so exactly 1 gives "1 мин назад". Otherwise it gives "{mins//60} ч назад". |
| Admin.AgeHours | admin.py:365-366 | The hour count is at least 1, and its hour spans the minute count. |
| Admin.HumanizeLastSeen | admin.py:352-366 | A falsy timestamp gives "никогда". Otherwise the age in minutes, in one clock, decides the text. |
| Admin.HumanizeLastSeenAsWritten | admin.py:352-366 | The code as written answers as the one-clock version would at an instant `utc_offset` seconds earlier. |
| Admin.HumanizeAgreesOnUtc | admin.py:352-366 | On a UTC host, the code as written and the corrected version agree. |
| Admin.TimeZoneSkew | admin.py:355-357 | On a host at UTC+3, a client seen two hours ago is shown as "только что". |
| User.AnyFreeSpec | user.py:41-49 | A free server is found iff some server reports not full and every earlier one reports full. All full means none is free. |
| User.HasFree | user.py:41-45 | The loop with `break` computes `AnyFree`. |
| User.Subscribed | user.py:56 | Subscribed iff the status is member, administrator or creator. A failing lookup is not subscribed. |
| User.NotSubscribed | user.py:56 | An illustration of `Subscribed`: restricted, left and kicked users are refused. |
| User.StartStep | user.py:24-78 | A failing lookup ends the handler with its failure. An existing client is shown its key, and only an existing client is. With none, a failing capacity check ends the handler with its failure. Otherwise all-full, subscribe-first or the name prompt, each in exactly its case. |
| User.ProcessName | user.py:83-89 | Accepted iff the normalised text is 3-20 letters a-z. The user is told of lower-casing iff the stripped text had an upper-case letter. |
| User.NormalisedIsLower | user.py:83-87 | Lowering only when needed equals always lowering the stripped text. |
| User.SameNameRuleAsAdmin | user.py:83-89 | The user's name rule and the admin's add rule accept the same texts and keep the same name. |
| User.ProcessNameIdempotent | user.py:83-89 | An accepted name is accepted again unchanged, with no notice. |
| User.UserTraffic | user.py:119-149 | It looks up the first server, and that server's first prefixed client. No client gives "profile not found". Failures are reported. A successful traffic read `(u, d)` gives the usage `u`, `d` with total `u + d`, and only such a read gives usage. |
| User.OwnedCallsSpec | user.py:190-194 | One delete per prefixed client of the server. There are calls iff there is such a client. |
| User.PlanGrows | user.py:188-196 | Scanning more servers only adds calls. A stopped scan stays stopped. |
| User.PlannedAreOwned | user.py:188-194 | Every planned delete targets a prefixed client of that server, on its first inbound. |
| User.PlanCoversOwned | user.py:188-194 | A scan that went through deletes every prefixed client on every server. |
| User.InvalidatedFromFirstOwner | user.py:187-197 | Calls are planned iff some server has a prefixed client. The dropped caches are those of the first such server and every later one, because `found` stays set. |
| User.DeleteOnServer | user.py:192-194 | It issues the server's calls in order and stops at the first failing one. |
| User.FirstInbounds | user.py:191 | Each server's delete inbound is `int(INBOUNDS.split(",")[0])`. |
| User.DeleteProfile | user.py:181-202 | The first failure is reported. Otherwise the reply is "deleted" iff at least one delete was issued. The dropped caches are the plan's. |
| User.DeleteLoop | user.py:186-200 | The loop over servers meets `DeleteProfile`'s contract for the given inbounds and prefix. |
| User.ServerStep | user.py:189-196 | One server either ends the handler with its failure or advances the plan by one server. |
| User.EndsEarly | user.py:186-202 | An early end is the first failure of the whole plan, or the scan's stop. |
| AdminBroadcast.ParseSend | admin_broadcast.py:25-27 | Usage iff fewer than three parts with `maxsplit=2`. |
| AdminBroadcast.CommandOf | admin_broadcast.py:26-41 | A target starting with `@` is looked up. Otherwise it must parse as an int, or the command is rejected. The text is the third part. |
| AdminBroadcast.SendToIdRoundTrip | admin_broadcast.py:25-41 | `/send 42 hi there` reaches user 42 with `hi there`. |
| AdminBroadcast.LookupRoundTrip | admin_broadcast.py:25-36 | `/send @name hi` looks up `@name` and keeps `hi`. |
| AdminBroadcast.CmdSend | admin_broadcast.py:19-47 | Nothing is sent for a non-admin, for usage, for a bad id or for an unknown user. The reply reflects the delivery. Only request errors are reported as "not delivered". |
| AdminBroadcast.Answer | admin_broadcast.py:43-47 | A delivery gives "sent". Bad-request and forbidden errors give "not delivered". Anything else propagates. |
| AdminBroadcast.TallyCounts | admin_broadcast.py:74-87 | `ok + err` equals the recipients done. `len(failed) == err`. The failures are exactly the failed chats with their class names. |
| AdminBroadcast.NothingFailed | admin_broadcast.py:80-87 | Nothing failed iff every send went through. |
| AdminBroadcast.ProgressExactly | admin_broadcast.py:89-95 | A progress edit follows recipient `i` exactly when `i % 5 == 0` or `i == total`, with the counters at that point. |
| AdminBroadcast.FinalProgress | admin_broadcast.py:89-95 | The last edit shows every recipient. |
| AdminBroadcast.PausesExactly | admin_broadcast.py:97-98 | A pause follows recipient `i` exactly when `i` is a multiple of 25. |
| AdminBroadcast.Broadcast | admin_broadcast.py:74-98 | The send loop computes `TallyOf`. |
| AdminBroadcast.DetailsLines | admin_broadcast.py:111 | The details text splits back into one line per failure. |
| AdminBroadcast.ReportOf | admin_broadcast.py:110-117 | No report iff nothing failed. Inline iff the details are shorter than `MAX_MSG_LEN - 100`, otherwise a document. |
| AdminBroadcast.ErrorLog | admin_broadcast.py:107 | One log row per failed chat, in order, with its class name and the given broadcast id. |
| AdminBroadcast.LogWithIdCommits | db.py:37 | Rows that all carry a broadcast id satisfy the table's NOT NULL `bc_id`, so their commit succeeds. |
| AdminBroadcast.BcEndAsWritten | admin_broadcast.py:104-117 | As written, the commit raises iff some delivery failed, so the report is never reached then. Without failures nothing is written or reported. |
| AdminBroadcast.FailedBroadcastNeverReported | admin_broadcast.py:105-108 | With a failed delivery, the list `ReportOf` would give exists, but the handler as written raises at the commit before sending it. |
| AdminBroadcast.CmdBc | admin_broadcast.py:60-117 | Ignored for a non-admin. Usage without text. Nothing is sent without recipients. Otherwise the tally over all recipients, an error log of one committed row per failure for this broadcast, and the report. |
| AdminBroadcast.BcTextRoundTrip | admin_broadcast.py:65-68 | `/bc hello world` broadcasts `hello world`. |

## Left out

- HTTP transport, cookies and JSON decoding are not modelled. A panel reply is an already decoded value, and a transport failure is a status of its own; the two traffic GETs of `get_traffic` answer either a decoded body or the failure their GET raised.
- The aiocache cache is a map from keys to entries, covering only the invalidations. `list_clients` itself does no caching, so read-after-invalidate freshness is not claimed.
- `get_online_clients`'s ten-second read-through cache is not modelled.
- The per-server `asyncio.Lock`, `asyncio.gather` and the endless refresh loop of `refresh_auth_cookies_forever` are not modelled, because they are concurrency. The calls run in sequence, and one refresh round is modelled.
- Sleep durations, backoff and jitter are not modelled.
- `random.choice` and `random.randint` become a pick from the stated set.
- Floating point is not modelled: `to_gb`, the GB formatting in user.py and admin.py, and `get_progress_bar`.
- `time.time()` and `datetime` become integer clocks.
- The session expiry is compared in whole seconds.
- The rate limiter runs in whole milliseconds.
- `humanize_last_seen` works in whole seconds, with an explicit UTC offset.
- The `broadcast_error_log` table is the list of rows one commit adds, with only the NOT NULL rule on `bc_id`; `created_at` and the row ids are not modelled. The `broadcast` table is not written by the source, and the model takes the broadcast id as a parameter.
- The database (db.py) is a map from chat id to row. Query results are sets because the source does not order them. `s.get` within a session sees the rows added earlier in that session.
- Telegram message texts, keyboards other than the delete keyboard, message edits, the FSM storage and `services/instructions.py` are not part of this model.
- `ask_support_reminder` and the duplicated toggle handlers of user.py only send messages, so they are not part of this model.
- main.py, scheduler.py, keyboards.py, settings.py and `__init__.py` are not part of this model.
- `str.isdigit` is ASCII digits only, and `int()` is an optional sign and ASCII digits around whitespace. Unicode digits and underscores are not modelled.
- `str.lower`/`isupper` are ASCII only.
- Whitespace is ASCII only: `Text.IsSpace` knows space, tab, newline, vertical tab, form feed, carriage return and the separators U+001C to U+001F, while Python's `str.strip()` and `str.split()` also treat Unicode spaces such as U+0085, U+00A0 and U+2003 as whitespace. So `process_name`, `CheckNewClient`, the `/send` split and the config parsing differ from the source on such input: `"\u00a0bob"` is accepted by user.py:83-89 and refused by the model.
- `list_all_clients` and `list_active_clients` report the stat's own `id` under the `uuid` key. This is modelled as written, not as the client uuid.
- Http.BuildVless: its contract states the scheme, user, host, port, the `sid` field and the trailing `#remark-email` tag; the round trip of the user is a separate lemma. The other query fields (`type`, `security`, `pbk`, `fp`, `sni`, `spx`, `flow`) are built but not stated field by field.
- ServerManager.Manager.GetOnlineClients: the ten-second cache is not modelled, so two calls within ten seconds may answer differently in the model.

## Findings

| source | as written | input that shows it | evidently intended | confidence | as-written member | corrected member |
|---|---|---|---|---|---|---|
| http.py:22-27 | The `api_auth` cookie cache is keyed by `server_cfg.SID`, which is the REALITY short id used in the share link, not the server id. | Two servers configured with the same short id: the second server's `api_auth` returns the first server's cookies without logging in. | One cache entry per server. | not executed | Http.SharedShortIdSharesCookies | Http.ApiAuthIsolated |
| services/server_manager.py:162-171 | `get_traffic` reads the counters with `obj.get(...)` on whatever `_extract_obj` returned, and `_extract_obj` passes `obj` through even when it is `null`. | A panel reply `{"obj": null}` for a client without traffic makes `obj.get` raise instead of reporting zero. | A reply without data reads as zero traffic. | not executed | ServerManager.TrafficNullObjFails | ServerManager.TrafficLookup |
| admin_broadcast.py:105-108 | `cmd_bc` adds one `BroadcastErrorLog(bc_id=None, …)` per failed chat and commits, but db.py:37 declares `bc_id` NOT NULL, and the default SQLite engine enforces it. | A broadcast where one delivery fails: the commit raises `IntegrityError`, and the "Не доставлено" report is never sent. | The log rows carry the broadcast's id, and the report follows. | not executed | AdminBroadcast.FailedBroadcastNeverReported | AdminBroadcast.CmdBc |
| admin.py:355-357 | `humanize_last_seen` builds a local time with `datetime.fromtimestamp` and subtracts it from `datetime.utcnow()`. | On a host at UTC+3, a client seen two hours ago is shown as "только что". | The age is measured in one clock. | not executed | Admin.TimeZoneSkew | Admin.HumanizeLastSeen |
