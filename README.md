# Match-tracking bot: a verified model of its polling engine

This project models the core of a Discord bot that watches League of Legends
players. The bot keeps a table of tracked players (`riot_id`, `puuid`,
`last_game_id`) and a set of subscribers. Once a minute it asks the Riot API
whether each tracked player is in a live game. It compares the answer with the
stored `last_game_id` and announces match starts and ends. Announcements go to
a `league-feed` channel and by direct message to every subscriber. Four chat
commands edit the table and the set.

The model is written in Dafny, file by file after the source:

- `database.dfy` (module `Database`): `src/database.py`. The class
  `TrackedStore` holds the `tracked_users` table as a
  `map<string, Row>` keyed by `riot_id`, and the `subscribers` table as a
  `set<string>`. Its methods are the INSERT/DELETE/UPDATE/SELECT functions, and
  each one states the whole new state.
- `tracker.dfy` (module `Tracker`): the per-player state machine of
  `check_active_games`. `Decide` compares the stored id with the probe and gives
  no-op, start or end. It also holds the history correlation of
  `cleanup_and_get_match`.
- `compose.dfy` (module `Compose`): `create_game_start_embed` and
  `create_game_end_embed`. They produce payload records rather than Discord
  embeds. The start path's loops (team search, the opponent loop with
  `continue`, the rank search with `break`) are methods. Each method is proved
  equal to a specification function.
- `dispatcher.dfy` (module `Dispatcher`): `notify_subscribers`. It composes the
  payload, posts to the channel, then sends a direct message to each subscriber
  inside its own `try`.
- `poller.dfy` (module `Poller`): the body of `check_active_games`. `Tick`
  snapshots the subscribers and the players, then processes each player. It is
  proved to advance every row by that row's own probe (`TickedUsers`), and to
  hand out exactly the notices `TickLog` lists.
- `commands.dfy` (module `Commands`): `track`, `untrack`, `subscribe` and
  `unsubscribe`, with their replies as datatypes.
- `text.dfy` (module `Text`): the Python string operations the bot relies on:
  `lower()`, substring `in`, and `split('#')` unpacked into two names.
- `gateway.dfy` and `common.dfy`: the shapes of the Riot API answers, and
  `Option`/`Answer`.

Everything outside the process is an input. That covers the Riot API, the
channel and direct-message delivery. A `World` value collects, for one tick,
the answer of each lookup (`Found`, `NotFound` for a 404, `Failed` for any
other error), whether the channel exists and accepts a send, and whether each
subscriber can be reached.

The model follows the code on these points:

- Only `!track` enforces uniqueness ignoring case. `add_user` compares keys
  exactly, and `!untrack` removes by the exact key.
- The channel send in `notify_subscribers` is outside the per-subscriber `try`.
  A channel that raises therefore stops the direct messages for that notice
  (`ChannelFailed`). Only failures of individual subscribers are isolated.
- The opponent list takes the first five opponents, bots included, and then
  skips the bots. So it holds at most five lines, and fewer when bots are among
  the first five.
- `!subscribe` rolls back only on `Forbidden`, and only after the apology
  has been posted. If that apology send raises too, or any other error comes
  out of the confirmation block, the error escapes the handler and the
  subscription stays.
- A failed probe writes nothing. An exception raised later in a player's step
  (a channel failure) comes after the store write and does not undo it.

## Model

| member | source | states |
|---|---|---|
| Database.TrackedStore.constructor | src/database.py:11-25 | a fresh database has no tracked players and no subscribers |
| Database.TrackedStore.AddUser | src/database.py:27-34 | succeeds exactly when the exact key is new; the new row has the given puuid and no `last_game_id`; a duplicate key changes nothing; subscribers untouched |
| Database.TrackedStore.RemoveUser | src/database.py:36-40 | reports whether a row with that key existed; afterwards no row has that key and every other row is unchanged |
| Database.TrackedStore.AddSubscriber | src/database.py:42-49 | set insertion: reports `False` for a present id and then changes nothing |
| Database.TrackedStore.RemoveSubscriber | src/database.py:51-55 | set removal: reports whether the id was present; the id is absent afterwards |
| Database.TrackedStore.UpdateLastGame | src/database.py:67-70 | changes only `last_game_id` of the row with that key (puuid and all other rows kept); a missing key is a no-op |
| Database.TrackedStore.GetSubscribers | src/database.py:57-60 | lists every subscriber exactly once and nothing else |
| Database.TrackedStore.GetAllUsers | src/database.py:62-65 | lists every row exactly once with its key, puuid and `last_game_id` |
| Database.ListsTableSize | src/database.py:15 | because the key is a primary key, a listing of the table has exactly as many entries as the table has rows |
| Database.RemoveAfterAddRestores | src/database.py:27-40 | deleting a key that was just inserted gives back the previous table |
| Text.LowerStr | src/bot.py:31 | `lower()` keeps the length and lower-cases each character |
| Text.Contains | src/bot.py:223 | `needle in hay` holds exactly when the needle occurs at some position of the haystack |
| Text.SplitOnce | src/bot.py:28 | the two-name unpacking succeeds exactly when there is one `#`; the parts joined around `#` give back the id and contain no `#` |
| Text.SplitOnceJoin | src/bot.py:28 | round trip: splitting `name#tag` (with `#`-free parts) gives back `name` and `tag` |
| Tracker.Decide | src/bot.py:98-110 | start exactly when a live game's id differs from the stored one (or none is stored); end exactly when there is no live game and a truthy id is stored, carrying the previous id; otherwise no-op |
| Tracker.DecideIdempotent | src/bot.py:98-105 | after the transition is persisted, deciding again on the same probe is a no-op |
| Tracker.StoredFollowsProbe | src/bot.py:98-105 | after persisting, the stored id equals the live game's id, or nothing truthy is stored when there is no live game |
| Tracker.CorrelateMatch | src/bot.py:218-227 | a match is returned exactly when the history lookup succeeded, is non-empty, its latest id contains the old game id as a substring, and the details lookup succeeded; it is those details |
| Compose.WinRate | src/bot.py:179-183 | the rate is 0 with no games, otherwise the floor of 100·wins/(wins+losses); always within [0,100] |
| Compose.SoloEntry | src/bot.py:173-187 | the first `RANKED_SOLO_5x5` entry wins; none exactly when no entry is for that queue |
| Compose.RankLine | src/bot.py:170-192 | "Unranked" (no win rate) exactly when there is no solo entry; otherwise tier, rank and win rate of the first solo entry |
| Compose.Describe | src/bot.py:160-196 | an opponent without a summoner id is "Unknown"; one whose league lookup raises is "(Error)"; one whose lookup succeeds gets the rank line of its entries; the name defaults to "Unknown" |
| Compose.UserTeam | src/bot.py:148-153 | exactly the `teamId` of the first participant with the tracked puuid; none when that puuid is absent |
| Compose.OpponentsOf | src/bot.py:156 | the opponents are exactly the participants whose `teamId` differs from the player's team |
| Compose.OpponentsOfCons | src/bot.py:156 | a leading participant is kept, in front, exactly when it is off the player's team |
| Compose.OpponentsOfAppend | src/bot.py:156 | the filter distributes over concatenation, so it keeps the participants' order and repetitions |
| Compose.Take | src/bot.py:159 | `s[:n]` is the prefix of length `n`, or all of `s` when it is shorter |
| Compose.NonBots | src/bot.py:164-166 | the non-bot opponents are exactly the opponents with `bot` false |
| Compose.NonBotsCons | src/bot.py:164-166 | a leading opponent is kept, in front, exactly when it is no bot |
| Compose.NonBotsAppend | src/bot.py:164-166 | skipping bots distributes over concatenation, so the remaining opponents keep their order |
| Compose.OpponentLines | src/bot.py:159-196 | no more lines than opponents looked at |
| Compose.OpponentLinesDescribeNonBots | src/bot.py:159-196 | line i describes the i-th non-bot opponent and depends on nothing else, so one failed lookup degrades only its own line |
| Compose.StartPayloadOf | src/bot.py:139-201 | mode defaults to "Unknown"; at most five opponent lines; none when the player's team is not found, so an "Opponents" field implies a known team |
| Compose.StartLinesFromOtherTeam | src/bot.py:155-199 | every opponent line comes from a non-bot participant whose team differs from the player's |
| Compose.FindTeam | src/bot.py:148-153 | the search loop with `break` finds the same team as the specification |
| Compose.FindRank | src/bot.py:170-187 | the entries loop with `break` yields the line of the first solo entry, or "Unranked" |
| Compose.DescribeOpponent | src/bot.py:160-196 | the `try` body for one opponent, with its "(Error)" fallback, yields that opponent's line |
| Compose.DescribeOpponents | src/bot.py:157-196 | the loop over `opponents[:5]` with `continue` on bots builds exactly the specified lines |
| Compose.ComposeStart | src/bot.py:139-201 | the start embed equals the start payload specification |
| Compose.FirstPlayer | src/bot.py:204 | the first match participant with the puuid; none exactly when no participant has it |
| Compose.ComposeEnd | src/bot.py:203-216 | no payload exactly when the puuid is not among the match participants; otherwise that participant's champion, K/D/A and win |
| Compose.ResultLabel | src/bot.py:214 | the result reads "Victory" exactly when the player won, "Defeat" otherwise |
| Dispatcher.Reached | src/bot.py:129-137 | a subscriber is listed as reached exactly when it is in the snapshot and its own message goes through |
| Dispatcher.Missed | src/bot.py:129-137 | a subscriber is listed as missed exactly when it is in the snapshot and its own message fails |
| Dispatcher.DeliveryIsolation | src/bot.py:129-137 | a subscriber is reached exactly when its own message goes through; the reached and missed lists together are the snapshot as a multiset, so every entry is attempted exactly once |
| Dispatcher.DeliveryOf | src/bot.py:125-137 | the channel gets the payload only if it exists; a channel that raises aborts the fan-out |
| Dispatcher.DispatchIsolation | src/bot.py:125-137 | unless the channel raises, each snapshot subscriber is reached exactly when its own delivery succeeds, and nobody outside the snapshot is messaged |
| Dispatcher.Dispatch | src/bot.py:125-137 | the sending loop delivers as the specification says |
| Dispatcher.PayloadOf | src/bot.py:116-123 | a start event always has the composed start payload; an end event has a payload exactly when the end embed can be composed, and it is that end payload |
| Dispatcher.NoticesOf | src/bot.py:115-137 | one call hands out at most one notice, and exactly one when a payload exists; that notice carries the player, the composed payload and the channel-then-per-subscriber delivery |
| Dispatcher.NotifySubscribers | src/bot.py:115-137 | composes, returns early without a payload, otherwise delivers, as specified |
| Poller.StepNotices | src/bot.py:95-113 | one player's step hands out at most one notice |
| Poller.TickedUsers | src/bot.py:88-113 | a tick keeps every key and puuid, and changes only `last_game_id` |
| Poller.CheckPlayer | src/bot.py:95-113 | one player's step changes only that player's row, to the state machine's next value, and hands out the specified notices |
| Poller.CheckPlayers | src/bot.py:90-113 | the loop over the snapshot advances every row by its own probe and logs the notices in snapshot order |
| Poller.Tick | src/bot.py:82-113 | the tick works from one snapshot of subscribers and players; the new table is the ticked table; subscribers are unchanged |
| Poller.ProbeErrorChangesNothing | src/bot.py:95-96 | a probe error leaves the player's row unchanged and sends nothing |
| Poller.StartPersistsAndAnnouncesOnce | src/bot.py:98-102 | a live game with a new id is persisted and announced by exactly one start notice |
| Poller.SameGameIsQuiet | src/bot.py:98-100 | the same live game again writes nothing and sends nothing |
| Poller.EndClearsThenMaybeAnnounces | src/bot.py:103-110 | no live game with a stored id clears it whatever happens next; an end notice goes out exactly when correlation succeeds and the player is in the match, and it is the one notice carrying the composed end payload and the delivery to the snapshot |
| Poller.IdleIsQuiet | src/bot.py:103-104 | no live game and nothing stored is a no-op |
| Poller.StepIdempotent | src/bot.py:98-110 | repeating a step with the same answers writes nothing and sends nothing |
| Poller.AtMostOneNoticePerPlayer | src/bot.py:90-113 | a tick hands out at most one notice per tracked player |
| Poller.EmptyTickIsQuiet | src/bot.py:84-86 | with no tracked players a tick changes nothing and sends nothing |
| Poller.RowDependsOnOwnProbe | src/bot.py:90-113 | a player's new row depends only on that player's own probe, so an error for one player does not disturb the others |
| Poller.SecondTickIsQuiet | src/bot.py:82-113 | a second tick with unchanged answers leaves the table as it is and sends no notification |
| Commands.TrackReplyOf | src/bot.py:21-47 | no `#` is rejected; several `#` escape as an error; with one `#`, "Already tracking" is the reply exactly for a case-insensitive duplicate, whatever the account lookup would say; otherwise a 404 gives "Could not find", another lookup error gives "Error tracking", and a found account is tracked; the insert never fails |
| Commands.InsertKeepsCaseUnique | src/bot.py:30-41 | inserting an id that matches no tracked id ignoring case keeps the table free of case duplicates |
| Commands.TrackIsCaseInsensitive | src/bot.py:24-44 | "Ana#NA1" then "ana#na1": the second is reported as already tracked |
| Commands.Track | src/bot.py:21-47 | the reply is the specified one; only a successful track inserts (with no `last_game_id`); case-uniqueness is preserved |
| Commands.Untrack | src/bot.py:49-55 | reports whether the exact key was tracked and removes it |
| Commands.Subscribe | src/bot.py:57-69 | a duplicate is reported; a `Forbidden` send rolls back to the previous set once the apology is posted; an apology that raises, or any other error, escapes and the id stays; success adds the id |
| Commands.Unsubscribe | src/bot.py:71-78 | reports whether the caller was subscribed and removes them |

## Left out

- Compose.WinRate: Python computes `int((wins / total) * 100)` in floating point, which can be one lower than the exact floor that the model uses (wins 29, total 100 gives 28); the model keeps the bound [0,100] and the zero case, not the float rounding.
- Text.LowerStr: lower-cases ASCII letters only; Python's `lower()` also folds non-ASCII letters.
- The Riot API client (`src/riot_client.py`): its answers are inputs (`World`); a 404 is `NotFound` for the active-game and account lookups and an error for the others, as the client does.
- The one-minute timer, the ten-second settle delay, start-up (`main.py`, `on_ready`), the health-check web server and configuration loading (`src/config.py`): I/O and scheduling only.
- Interleaving of commands with a tick at await points: the model runs a tick as one sequential step over its snapshot.
- Discord specifics: embed titles, colours, emoji, Markdown and the K/D/A text; payloads keep the values they show.
- Logging with `print`, and the text of replies that quote the caught exception.
- SQLite connections, commits, durability, and database errors.
- Malformed upstream documents (a missing key in a league entry makes that opponent's line "(Error)"; a missing key in a match raises inside the player's `try`); the model's documents are well-formed.
- Within one tick, each subscriber's delivery outcome and the channel's state are fixed inputs, the same for every notice of that tick.
- `local_active_games`: declared and never used.
