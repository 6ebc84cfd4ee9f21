# discord-archiver, modelled in Dafny

A model of the chat bot in `bot.py` that archives links. A user reacts to a
message with 🏛️. The bot extracts the message's URLs and asks the Internet
Archive's availability endpoint whether each one has a snapshot. If a
snapshot exists, it replies with that snapshot. If not, it asks the save
endpoint to capture the page and replies with the new snapshot's location.
Reacting with 🔁 forces a fresh capture of every URL. Replies go either to
the reacting user by direct message, or to the message's channel: at most
once per message for 🏛️, while a 🔁 reaction replies again even in a
channel already answered. The `!archivestatus` command sends an administrator a
report on the bot.

Modules, one concern each:

- `Results` (results.dfy): `Option` and `Result`.
- `JsonValues` (json.dfy): parsed JSON values and Python truthiness.
- `Text` (text.dfy): `str.split`, `", "`-joining and decimal rendering of counts, with their round trips.
- `DictQuery` (dict_query.dfy): the `/`-separated path lookup `DictQuery.get`.
  - The pure function `Query` specifies it.
  - The method `Get` is the loop as written.
  - A "typed" optional-chaining reference, `Follow`, is related to it by `QueryChain`.
- `Routing` (routing.dfy):
  - reply routing with de-duplication (`respond_to_user`);
  - classification of a save request's HTTP response (`handle_page_save_request`).
- `Workflows` (workflows.dfy):
  - the archive and repeat reaction workflows, as pure functions of the handled-message list they start from;
  - each run produces a trace of events: a lookup call, a save call, or a sent reply.
- `Status` (status.dfy): the `!archivestatus` report, including the counter loop that builds the guild list.
- `Dispatch` (dispatch.dfy): the `on_message` command gate and the `on_reaction_add` emoji dispatch.
- `Bot` (bot.dfy): class `BotState` holds `config` and the in-place list `handledMessages`.
  - Its methods are the handlers as the source runs them: loops, early `return`s, and the list appended in place.
  - Each method is proved equal to the specification function above.
- `Scenarios` (scenarios.dfy): single-URL runs against concrete service answers.

The archive service and the URL extractor become parameters:

- `lookup : Url -> Result<map<string, Json>>` is the availability endpoint. It gives the dict that `DictQuery(...)` builds from the parsed body with `dict()`, so an empty JSON array gives an empty dict (no snapshot, then a save). `Err` means the request failed, the body was not JSON, or `dict()` rejected it (a number, or an array that is not of key-value pairs).
- `save : Url -> Result<Response>` is the save endpoint. `Err` means a transport failure. A `Response` is its status code and its `Location` header, if any.
- `extractor : string -> seq<Url>` is the URL extractor.

All three are functions, so a URL that occurs twice in one message gets the same answers both times.

Behaviours of the code worth knowing, which the model keeps as they are:

- Failures are not isolated per URL in the archive workflow. A failed save `return`s from the whole handler (bot.py:134-138), so the remaining URLs are skipped and get no lookup.
- A failed lookup (bot.py:127-129) is not caught inside the loop either. It ends the handler, and the catch at bot.py:251-254 logs it.
- A channel reply appends the message id unconditionally (bot.py:105). A 🔁 reaction on a message already answered therefore adds the id a second time.
- The decline text for status 520/523 always goes by direct message (bot.py:166), whatever `messageTarget` says. It does not go through the reply router.

## Model

| member | source | states |
|---|---|---|
| Text.Split | bot.py:17 | `str.split` on one character: at least one piece, and no piece contains the separator |
| Text.JoinSplit | bot.py:17 | joining the pieces of a split with the separator gives back the string |
| Text.SplitJoin | bot.py:17 | splitting a join of separator-free keys gives back the keys |
| Text.JoinSnoc | bot.py:190-193 | appending one name to a joined list is the old list, `", "` and the name (the first name has no separator) |
| Text.Decimal | bot.py:201-203 | `str()` of a count is a non-empty digit string with no leading zero |
| Text.DecimalRoundTrip | bot.py:201-203 | the rendered count reads back as the count |
| DictQuery.DictGet | bot.py:25 | `.get` succeeds exactly on a dict: the value at the key, or `default` when the key is missing |
| DictQuery.FanOut | bot.py:23 | the list comprehension keeps the list's length, and raises exactly when some truthy element is not a dict |
| DictQuery.FanOutElements | bot.py:23 | each element of the comprehension's result is `v.get(key, default)` for a truthy element `v` and `None` for a falsy one |
| DictQuery.FanOutList | bot.py:23 | the element-by-element loop of the comprehension computes `FanOut` |
| DictQuery.Get | bot.py:16-32 | the loop over the split path (first key on the root dict, fan-out over lists, stop at the first falsy value) computes `Query` |
| DictQuery.WalkFansOut | bot.py:21-23 | once the walk reaches a non-empty list, every element is walked on its own over the remaining keys (a falsy element turns into `None` instead of stopping the walk); the walk raises exactly when some element's walk does, and otherwise gives the list of the elements' results |
| DictQuery.WalkFound | bot.py:20-32 | along a path whose keys are all present, the walk returns the value at its end |
| DictQuery.WalkChain | bot.py:20-32 | below the root, the walk agrees with optional chaining (value found, default for a missing key, a falsy value returned as is, a truthy scalar raises, a list walked element by element) |
| DictQuery.QueryChain | bot.py:16-32 | with a falsy default, `get` agrees with optional chaining from the root dict in every case |
| DictQuery.QueryFound | bot.py:16-32 | a path present in the document yields the value at its end, whatever the default |
| Workflows.SnapshotPathKeys | bot.py:129 | `'archived_snapshots/closest/url'` splits into its three keys |
| Bot.SnapshotOf | bot.py:129 | the lookup of the snapshot path in an availability answer is `Snapshot` |
| Routing.Respond | bot.py:88-107 | user mode or no channel: exactly one DM and the list unchanged; channel mode and unseen or forced: one channel reply and the id appended even if present; channel mode, seen and not forced: nothing sent, list unchanged |
| Routing.Classify | bot.py:163-173 | a redirect (301/302) with a location, a redirect without one, a decline (520/523) and anything else are told apart exactly by status and header |
| Routing.HandlePageSave | bot.py:159-179 | a redirect with a location is routed with that location and the given repeat flag; a decline is one DM with the fixed text whatever the mode; everything else sends nothing and changes nothing |
| Routing.RoutingAppendOnly | bot.py:159-179 | handling a save response only ever appends the message's own id, sends at most one reply, and sends to a channel only the message's channel |
| Workflows.ArchiveStepCalls | bot.py:126-140 | for one URL: exactly one lookup; a save exactly when the lookup found nothing; a found snapshot routed without a forced repeat; a save that went through handled without one; the step returns early exactly on a failed save and raises exactly on a failed lookup |
| Workflows.ArchiveCalls | bot.py:123-140 | a run looks URLs up once each, in order, up to where it stops; it saves exactly those whose lookup found nothing; a completed run looked up every URL; an early return is at a failed save; a raise is at a failed lookup |
| Workflows.ArchiveCompletes | bot.py:125-140 | the archive loop completes exactly when every URL's lookup and (if needed) save go through |
| Workflows.RespondChannelOnce | bot.py:100-107 | routing without a forced repeat grows the list, sends at most one reply, and replies in the channel only to an unseen message, which it marks |
| Workflows.PageSaveChannelOnce | bot.py:163-174 | the same holds for handling a save response without a forced repeat |
| Workflows.ArchiveStepOnce | bot.py:126-140 | in channel mode, one archive step sends at most one channel reply, none for a message already answered, and marks the message when it replies |
| Workflows.ArchiveAnswersOnce | bot.py:118-140 | in channel mode, a whole archive run answers a message in its channel at most once, and not at all if it was answered before |
| Workflows.ArchiveTwiceAnswersOnce | bot.py:118-140 | two archive reactions on one message, the second starting from the list the first left, post at most one channel reply together |
| Workflows.ArchiveUserMode | bot.py:94-98 | in user mode the handled list is untouched and plays no part: the same reaction gives the same calls and replies from any list |
| Workflows.RepeatHandleReplies | bot.py:154-157 | one forced repeat sends at most one reply, and in channel mode a channel reply exactly when the held response redirects to a new snapshot; the id is appended once per channel reply, even when already present |
| Workflows.RepeatHandleIgnoresHandled | bot.py:155 | a forced repeat sends the same replies whatever the handled list holds |
| Workflows.RepeatCalls | bot.py:147-157 | the repeat workflow as written never looks a URL up, saves every URL once in order, and always runs to the end |
| Workflows.RepeatIgnoresHandled | bot.py:147-157 | the loop as written makes the same calls and replies from any starting handled list: a 🔁 reply is never suppressed |
| Workflows.RepeatRunReplies | bot.py:147-157 | the loop as written sends at most one reply per URL; in channel mode it sends one channel reply for every pass whose held response (the last save that went through) redirects; the id is appended once per channel reply, duplicates included |
| Workflows.RepeatAgreesWhenSaved | bot.py:149-157 | when every save goes through, the loop as written and the corrected loop behave identically |
| Workflows.RepeatIntendedReplies | bot.py:147-157 | the intended repeat workflow makes no lookups and one save per URL in order; it sends at most one reply per save that went through; in channel mode it sends one channel reply per new snapshot, even for a message answered before |
| Workflows.StaleResponseResent | bot.py:149-157 | two URLs, the first saved and the second failing: as written the first snapshot is sent twice; as intended, once |
| Status.GuildList | bot.py:187-195 | the counter loop builds the guild names joined by `", "`, in order |
| Status.StatusReport | bot.py:181-206 | a non-administrator gets nothing; an administrator gets exactly one DM whose fields are the joined guild names (empty for none), and counts that read back as the cache sizes and the handled-list length |
| Dispatch.FirstPiece | bot.py:242 | the first piece of a split is the longest separator-free prefix |
| Dispatch.CommandToken | bot.py:242 | a message is the status command exactly when it is `!archivestatus` alone or followed by a space |
| Dispatch.MessageGate | bot.py:233-246 | the bot's own messages and non-administrators get no reply; an administrator's status command gets exactly one |
| Dispatch.NoUrlsNoEffects | bot.py:122-124 | a reaction on a message without URLs does nothing, with either emoji; 🔁 needs only the guild, 🏛️ also needs the channel its log line reads |
| Dispatch.OtherEmojiIgnored | bot.py:250-259 | any other emoji does nothing |
| Scenarios.SnapshotFound | bot.py:127-131 | an availability answer with a snapshot is replied with, and nothing is saved |
| Scenarios.SavedAndRedirected | bot.py:133-140 | an empty availability answer and a 302 redirect give the location as the reply |
| Scenarios.SaveDeclined | bot.py:164-166 | status 523 gives the fixed decline DM, in channel mode too, and leaves the list alone |
| Scenarios.SaveUnexpected | bot.py:167-170 | status 500 sends nothing and leaves the list alone |
| Bot.BotState.constructor | bot.py:55-56 | the bot starts with the loaded configuration and an empty handled list |
| Bot.BotState.RespondToUser | bot.py:88-107 | the in-place list and the replies become those `Respond` gives |
| Bot.BotState.HandlePageSaveRequest | bot.py:159-179 | the in-place list and the replies become those `HandlePageSave` gives |
| Bot.BotState.ArchiveOne | bot.py:126-140 | one pass of the archive loop does what `ArchiveStep` says |
| Bot.BotState.HandleArchiveReact | bot.py:118-140 | the handler, with its early `return`, does what `ArchiveReact` says |
| Bot.BotState.RepeatOne | bot.py:150-157 | one pass of the repeat loop keeps the last response that went through, and handles it as `RepeatHandle` says |
| Bot.BotState.RepeatLoop | bot.py:147-157 | the repeat loop, with `response` kept across passes, does what `RepeatRun` says |
| Bot.BotState.HandleRepeatReact | bot.py:142-157 | the handler does what `RepeatReact` says |
| Bot.BotState.StatusCommand | bot.py:181-206 | the report sent is `StatusReplies` for the current handled-list length |
| Bot.BotState.OnReactionAdd | bot.py:249-259 | the in-place list and the trace become those `ReactionRun` gives for the emoji |

## Left out

- The chat client is not modelled: the connection, its events, `update_activity` and the presence text (bot.py:208-229, 261-271) are library calls. Messages, the client's guild names, cache sizes and the bot's own id are plain values.
- `send_dm` and `send_to_channel` (bot.py:58-86) are recorded as `Reply` values. The model does not capture their internal guards: a missing user or channel, or an empty text, only logs. A send that fails is not modelled either.
- `respond_to_user`'s `embed` argument is never passed by any caller, so replies carry text only. The status embed goes straight to `send_dm`.
- HTTP via `requests` and `urllib.parse.quote` (bot.py:114, 127) becomes the `lookup` and `save` oracles. The model does not include `Response.content`, which is only logged. The `Location` header is taken as already looked up; `requests` looks it up case-insensitively.
- URL extraction (bot.py:10, 123, 147) is the `extractor` parameter.
- Configuration loading, logging, the token and process exit (bot.py:38-53, 216-224, 273-314) are left out. The `Config` value always has `messageTarget` and `administratorIds`.
- The asyncio event loop is left out, so the interleaving of reaction handlers and the race on the handled list are not modelled. Each handler is one sequential run.
- JSON numbers are reals. The `str()` rendering of a truthy non-string snapshot value is not modelled; it stays as `Stringified`.
- DictQuery.QueryChain: stated only for a falsy `default`. The bot always passes `None`, and with a truthy default a missing key can carry the walk further. For any default, QueryFound covers present paths.
- Routing.Respond and Routing.HandlePageSave require the message to have a guild, because both log `message.guild.id` first. Every caller has already read that expression, so a guild-less message raises in the handler before routing.
- The log line in the catch of `on_reaction_add` (bot.py:254, 259) reads `message.guild.id` again. For a guild-less message it raises out of the event handler; the model records such a run as `Raised` with no effects.
- Log contents are left out.

## Findings

| source | as written | input that shows it | evidently intended | confidence | as-written member | corrected member |
|---|---|---|---|---|---|---|
| bot.py:149-157 | `response` is only bound when `save_page` succeeds and is kept across passes; a failed save on a later URL handles the previous URL's response again (on the first URL the `NameError` is caught and logged) | URLs `a`, `b`; saving `a` answers 302 with location `L`, saving `b` fails: the user is sent `L` twice | a failed save is logged and that URL skipped, so each save that went through is answered once | high, not executed | Workflows.StaleResponseResent | Workflows.RepeatIntendedReplies |

`Workflows.RepeatRun` models the loop as written. `Bot.BotState.RepeatLoop` and the `on_reaction_add` dispatch run it.
`Workflows.RepeatRunIntended` is the corrected loop, and `Workflows.RepeatIntendedReplies` proves its reply budget.
