# Interserver relay bot — a Dafny model

This project models the message handling of a Discord bot (discord.js v14, MongoDB). The bot
relays chat from one designated channel to the designated channels of every other server it is
in. The model covers:

- the text commands `help`, `ping` and `setchannel <channel_id>`, behind a configurable prefix;
- the single process-wide relay channel id (`INTERSERVER_CHANNEL_ID`);
- the `config` collection (server id to channel id) and the append-only `messages` audit log;
- the relay of a message: the eligibility test, the audit insert that fails closed, and the
  fan-out to other guilds with failures isolated per guild;
- the startup loop that loads each guild's stored channel id into the global.

The Discord client and the database become plain data. Guilds are values (`Routing.Guild`: id,
name, set of channel ids) in the client cache's iteration order. The `config` collection is a
`map<string, string>` and the `messages` collection is a `seq<AuditRecord>`. Whatever the
database and the platform decide for one event arrives in a `Bot.Io` value: whether the upsert
and the audit insert succeed, which guilds' config lookups or sends fail, and the timestamp.

Layout:

- `text.dfy` (`Text`): JavaScript `trim` (with the full set of JavaScript whitespace code
  points), `split(/ +/)` and an ASCII `toLowerCase`.
- `commands.dfy` (`Commands`): the prefix default and command parsing.
- `routing.dfy` (`Routing`): the fan-out plan and its loop, and the startup-load function.
- `bot.dfy` (`Bot`): `Handle`, the pure step function for one `messageCreate` event, with its
  parts.
- `bot.dfy` also holds the class `InterserverBot`. Its fields are the global, the config and
  the log. Its methods run the handler and the load loop imperatively, and each is proved
  equal to the step function.
- `wrappers.dfy` (`Wrappers`): `Option`.

There is one global relay channel id, not one per server (index.js:10, 88, 111). A `setchannel`
from any server overwrites it. Relay eligibility on every server compares the message's channel
against that one value (index.js:111). Within the message handler, only the fan-out reads the
per-server `config` entries; the startup load also reads them, to set the global (index.js:45).
`Bot.LastSetChannelWins` states the consequence: after a second server sets its channel,
messages in the first server's channel are no longer relayed, although its `config` entry is
still there. A failed audit insert stops the relay and replies with an error
(index.js:125-129).

## Model

| member | source | states |
|---|---|---|
| `Commands.EffectivePrefix` | index.js:9 | An unset or empty `COMMAND_PREFIX` gives "!", any other value is used as is; the prefix is never empty |
| `Text.Trim` | index.js:70 | Neither end of the trimmed text is JavaScript whitespace, and it is no longer than the input |
| `Text.TrimSlice` | index.js:70 | Trimming only removes whitespace: the result is a contiguous slice of the input, with whitespace only before and after it |
| `Text.TrimIdempotent` | index.js:70 | Trimming twice is trimming once |
| `Text.SplitSpaces` | index.js:70 | `split(/ +/)` always yields at least one piece, and no piece contains a space |
| `Text.SplitStep` | index.js:70 | A space-free head followed by a run of one or more spaces splits off as one piece, whatever the run's length |
| `Text.SplitJoinRuns` | index.js:70 | Splitting is the inverse of joining space-free tokens with runs of one or more spaces, of any lengths: each run counts as one separator |
| `Text.SplitJoin` | index.js:70 | Splitting is the inverse of joining with single spaces, for space-free tokens whose inner tokens are non-empty |
| `Text.TrimPadded` | index.js:70 | Trimming a text padded on both sides with whitespace returns the text, when its own ends are not whitespace |
| `Text.SplitNonEmptyPieces` | index.js:70 | A text that neither starts nor ends with a space splits into non-empty pieces only |
| `Text.Lower` | index.js:71 | ASCII lowercasing keeps the length, maps A-Z to a-z and leaves every other character alone |
| `Text.LowerIdempotent` | index.js:71 | Lowercasing twice is lowercasing once |
| `Commands.Tokens` | index.js:70 | The tokens of a command body are at least one and space-free |
| `Commands.TokensOfWords` | index.js:70 | A body made of whitespace-free words separated by runs of spaces, with any whitespace before and after, tokenises to exactly those words |
| `Commands.SetChannelOneArgument` | index.js:70-78 | `setchannel` (in any ASCII case) followed by any run of spaces and one whitespace-free word parses as setchannel with that single argument |
| `Commands.ParseCommand` | index.js:70-104 | The lowercased first token selects help, ping or setchannel, and any other word is unknown; setchannel's arguments are the remaining tokens, each non-empty and space-free |
| `Routing.Plan` | index.js:132-158 | Every delivery goes to a guild other than the origin and not skipped, whose config value is non-empty, to that configured channel, carrying the payload |
| `Routing.PlanMembership` | index.js:132-144 | A delivery is made exactly when some guild is a target (not the origin, configured, channel present in that guild) and was not skipped; it goes to that guild's configured channel with the payload |
| `Routing.PlanOnePerGuild` | index.js:132-158 | When the guild cache is keyed by id (no two guilds share an id), no two deliveries go to the same guild |
| `Routing.PlanIsolation` | index.js:134-156 | A lookup or send failure on some guilds removes exactly their deliveries; the deliveries to the other targets remain |
| `Routing.SingleServerNoDeliveries` | index.js:132-133 | When every guild is the origin, the fan-out makes no delivery |
| `Routing.FanOut` | index.js:132-158 | The sequential fan-out loop returns exactly the planned deliveries, with the guilds whose lookup or send failed skipped |
| `Routing.Loaded` | index.js:43-51 | After the load, the global is either its old value or the configured value of some guild whose lookup succeeded |
| `Routing.LoadedLast` | index.js:43-54 | The last guild in iteration order whose lookup succeeds with a non-empty value determines the global, whatever failed before or after it |
| `Routing.LoadedNone` | index.js:43-51 | When no guild loads a value, the global keeps the value it had |
| `Bot.SetChannelStep` | index.js:78-103 | Wrong arity gives the usage reply and an unknown channel the rejection reply, both with the state unchanged. Otherwise the global becomes the channel, every other server's entry is unchanged, and a successful upsert stores the channel for the issuing guild. A failed upsert leaves the config unchanged and gives the failure reply |
| `Bot.RelayStep` | index.js:111-158 | A failed audit insert gives the error reply and no delivery. Otherwise the log grows by exactly the message's record and the deliveries are exactly the targets whose lookup and send succeed, at most one per guild when guild ids are unique. The global and the config are never changed |
| `Bot.Handle` | index.js:65-160 | Bot messages change nothing. A prefixed message always gets a reply, never relays and never touches the log. `help` and `ping` get their fixed replies and change nothing, and an unknown command gets the unknown-command reply and changes nothing. A setchannel command is answered by `Bot.SetChannelStep` with the parsed arguments, and only setchannel changes the global or the config. A plain message outside the global relay channel does nothing, and one inside it is relayed |
| `Bot.Startup` | index.js:43-55 | After a restart the collections are kept and the global is either "SET_WITH_COMMAND" or the stored value of a guild whose lookup succeeded |
| `Bot.SetChannelIdempotent` | index.js:88-96 | Issuing the same setchannel twice leaves the same state as issuing it once |
| `Bot.SetChannelSurvivesRestart` | index.js:88-96 | After a successful setchannel of a non-empty channel, a restart restores that channel as the global when the issuing guild is the last one in iteration order whose value loads |
| `Bot.LastSetChannelWins` | index.js:88-111 | Once a second guild sets another channel, a message in the first guild's channel is not relayed, although the first guild's config entry still holds it |
| `Bot.RelayReachesOtherGuild` | index.js:132-144 | A relayed message reaches every target guild whose lookup and send succeed, with the author tag and origin name in the text, and the origin gets no copy |
| `Bot.InterserverBot.constructor` | index.js:9-10 | A fresh process starts with the global at "SET_WITH_COMMAND" over the stored collections, and its prefix is the non-empty effective prefix of `COMMAND_PREFIX` |
| `Bot.InterserverBot.LoadConfig` | index.js:43-55 | The load loop leaves the global at `Routing.Loaded` of its old value and changes nothing else |
| `Bot.InterserverBot.SetChannel` | index.js:77-103 | The setchannel branch changes the state and replies exactly as `Bot.SetChannelStep` says |
| `Bot.InterserverBot.Relay` | index.js:111-158 | The relay branch appends the audit record and fans out exactly as `Bot.RelayStep` says |
| `Bot.InterserverBot.OnMessage` | index.js:65-160 | The handler's new state, reply and deliveries are exactly those of `Bot.Handle`, under the bot's own prefix |

## Left out

- Client construction, intents, login, presence and the `error`/`warn` listeners (index.js:13-20, 57-61, 163-167): platform plumbing with no decision in it.
- The database connection and the exit on connection failure (index.js:25-35): the collections are plain values, and a connected database is assumed.
- Concurrency: both `forEach(async ...)` loops dispatch their awaits without joining them, and other events may interleave with an event's awaits. The model runs each loop sequentially, one event at a time. `Routing.LoadedLast` therefore assumes the lookups complete in guild iteration order; in the running bot, the lookup that completes last wins.
- Direct messages: the handler does not guard against `message.guild` being null. The model gives every message a guild, since without the channel partial discord.js v14 does not deliver direct messages to `messageCreate`.
- The timestamp (`new Date()`) is an opaque integer supplied in `Io`.
- `Text.Lower`: does not model full Unicode `toLowerCase`; only A-Z are mapped.
- A stored `config` document whose `value` field is missing or null is modelled as an absent entry. An empty string is kept as a falsy value.
- Replies are tagged variants; `Bot.ReplyText` gives their wording but nothing is proved about it. Console logging is not modelled.
- Failed deliveries are not reported. `sent` lists only the successful sends; a lookup failure and a send failure have the same effect in the model, as in the code.
