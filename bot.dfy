/** The bot's message handler and startup load as a state machine (index.js:10, 43-55, 65-160).

    The state is the process-wide relay channel id (`INTERSERVER_CHANNEL_ID`), the `config`
    collection (server id to stored channel id) and the `messages` collection (the audit log).
    Everything the platform or the database decides (whether a write fails, which lookups and
    sends fail, the clock) arrives in an `Io` value. `Handle` is the specification of one
    `messageCreate` event; the class `InterserverBot` runs it step by step. */
module Bot {
  import opened Wrappers
  import opened Text
  import opened Commands
  import opened Routing

  /** The value of the global relay channel id before any command or load sets it. */
  const Unset: string := "SET_WITH_COMMAND"

  /** An incoming message, with the fields of the author, guild and channel the handler reads. */
  datatype Message = Message(
    authorIsBot: bool, authorId: string, authorTag: string, guild: Guild,
    channelId: string, channelName: string, messageId: string, content: string)

  /** A document of the `messages` collection. */
  datatype AuditRecord = AuditRecord(
    serverId: string, serverName: string, channelId: string, channelName: string,
    authorId: string, authorTag: string, messageId: string, content: string, timestamp: int)

  /** The replies the handler sends to the author of a message. */
  datatype Reply =
    | HelpText | Pong | SetChannelUsage | InvalidChannel | ChannelSet(channelId: string)
    | SaveFailed | UnknownCommand | RelayFailed

  /** What the environment decides for one event: whether the config upsert and the audit insert
      succeed, the guilds whose config lookup or send fails during fan-out, and the time. */
  datatype Io = Io(persistOk: bool, auditOk: bool, lookupFailed: set<string>, sendFailed: set<string>, now: int)

  datatype State = State(relayChannel: string, config: map<string, string>, log: seq<AuditRecord>)

  /** The effect of one event: the new state, the reply (if any) and the deliveries made. */
  datatype Outcome = Outcome(state: State, reply: Option<Reply>, sent: seq<Delivery>)

  /** The text of each reply; the help, usage and unknown-command texts mention the prefix. */
  function ReplyText(r: Reply, prefix: string): string
  {
    match r
    case HelpText =>
      "This bot facilitates cross-server chat. Use `" + prefix
        + "setchannel <channel_id>` to set the channel for interserver chat. Then type in that channel to chat across servers."
    case Pong => "Pong!"
    case SetChannelUsage => "Usage: `" + prefix + "setchannel <channel_id>`"
    case InvalidChannel => "Invalid channel ID. Make sure the channel exists in this server."
    case ChannelSet(c) => "Interserver channel set to <#" + c + "> on this server."
    case SaveFailed => "Failed to save channel ID. Interserver chat may not work after a restart."
    case UnknownCommand => "Unknown command. Use `" + prefix + "help` for a list of commands."
    case RelayFailed => "Failed to relay your message due to a database error."
  }

  /** The audit record stored for a relayed message. */
  function Record(msg: Message, now: int): AuditRecord
  {
    AuditRecord(msg.guild.id, msg.guild.name, msg.channelId, msg.channelName,
                msg.authorId, msg.authorTag, msg.messageId, msg.content, now)
  }

  /** The text sent to other guilds: `**tag** from **guild name**: content`. */
  function Payload(msg: Message): string
  {
    "**" + msg.authorTag + "** from **" + msg.guild.name + "**: " + msg.content
  }

  /** `setchannel` issued in `guild` with the given arguments. Wrong arity or an unknown channel
      leave the state alone. Otherwise the global is set first; the upsert of the guild's own
      entry then succeeds or fails, and on failure the global stays changed. */
  function SetChannelStep(s: State, guild: Guild, args: seq<string>, persistOk: bool): (o: Outcome)
    ensures o.sent == [] && o.state.log == s.log && o.reply.Some?
    ensures |args| != 1 ==> o == Outcome(s, Some(SetChannelUsage), [])
    ensures |args| == 1 && args[0] !in guild.channels ==> o == Outcome(s, Some(InvalidChannel), [])
    ensures |args| == 1 && args[0] in guild.channels ==>
      && o.state.relayChannel == args[0]
      && (forall id :: id != guild.id ==> (id in o.state.config <==> id in s.config))
      && (forall id :: id != guild.id && id in s.config ==> o.state.config[id] == s.config[id])
      && (persistOk ==> guild.id in o.state.config && o.state.config[guild.id] == args[0]
                        && o.reply == Some(ChannelSet(args[0])))
      && (!persistOk ==> o.state.config == s.config && o.reply == Some(SaveFailed))
  {
    if |args| != 1 then Outcome(s, Some(SetChannelUsage), [])
    else
      var channelId := args[0];
      if channelId !in guild.channels then Outcome(s, Some(InvalidChannel), [])
      else
        var s' := s.(relayChannel := channelId);
        if persistOk then Outcome(s'.(config := s.config[guild.id := channelId]), Some(ChannelSet(channelId)), [])
        else Outcome(s', Some(SaveFailed), [])
  }

  /** A prefixed message: parse the command and answer it. No command relays anything. */
  function CommandStep(s: State, msg: Message, prefix: string, persistOk: bool): Outcome
    requires IsCommand(msg.content, prefix)
  {
    match CommandOf(msg.content, prefix)
    case Help => Outcome(s, Some(HelpText), [])
    case Ping => Outcome(s, Some(Pong), [])
    case SetChannel(args) => SetChannelStep(s, msg.guild, args, persistOk)
    case Unknown(_) => Outcome(s, Some(UnknownCommand), [])
  }

  /** A message in the relay channel: audit first and stop with an error reply if that fails;
      otherwise fan out to the other guilds, skipping those whose lookup or send fails. */
  function RelayStep(s: State, msg: Message, guilds: seq<Guild>, io: Io): (o: Outcome)
    ensures o.state.relayChannel == s.relayChannel && o.state.config == s.config
    ensures !io.auditOk ==> o == Outcome(s, Some(RelayFailed), [])
    ensures io.auditOk ==> o.state.log == s.log + [Record(msg, io.now)] && o.reply == None
    ensures io.auditOk ==> forall d :: d in o.sent <==>
      d in Targets(guilds, msg.guild.id, s.config, Payload(msg))
      && d.guildId !in io.lookupFailed && d.guildId !in io.sendFailed
    ensures UniqueIds(guilds) ==> OnePerGuild(o.sent)
  {
    if !io.auditOk then Outcome(s, Some(RelayFailed), [])
    else
      var sent := Plan(guilds, msg.guild.id, s.config, Payload(msg), io.lookupFailed + io.sendFailed);
      assert UniqueIds(guilds) ==> OnePerGuild(sent) by {
        if UniqueIds(guilds) {
          PlanOnePerGuild(guilds, msg.guild.id, s.config, Payload(msg), io.lookupFailed + io.sendFailed);
        }
      }
      assert forall d :: d in sent <==>
        d in Targets(guilds, msg.guild.id, s.config, Payload(msg)) && d.guildId !in io.lookupFailed + io.sendFailed
      by {
        forall d ensures d in sent <==>
          d in Targets(guilds, msg.guild.id, s.config, Payload(msg)) && d.guildId !in io.lookupFailed + io.sendFailed
        {
          PlanIsolation(guilds, msg.guild.id, s.config, Payload(msg), io.lookupFailed + io.sendFailed, d);
        }
      }
      Outcome(s.(log := s.log + [Record(msg, io.now)]), None, sent)
  }

  /** Whether a non-command message is relayed: its channel is the one global relay channel
      (not a per-server lookup). */
  predicate Eligible(s: State, msg: Message, prefix: string)
  {
    !msg.authorIsBot && !IsCommand(msg.content, prefix) && msg.channelId == s.relayChannel
  }

  /** One `messageCreate` event. */
  function Handle(s: State, msg: Message, prefix: string, guilds: seq<Guild>, io: Io): (o: Outcome)
    // bots are ignored entirely
    ensures msg.authorIsBot ==> o == Outcome(s, None, [])
    // a command always gets a reply and never reaches the relay path
    ensures !msg.authorIsBot && IsCommand(msg.content, prefix) ==>
      o.sent == [] && o.state.log == s.log && o.reply.Some?
    ensures !msg.authorIsBot && IsCommand(msg.content, prefix) && CommandOf(msg.content, prefix).Unknown? ==>
      o == Outcome(s, Some(UnknownCommand), [])
    // help and ping get their fixed replies and change nothing
    ensures !msg.authorIsBot && IsCommand(msg.content, prefix) && CommandOf(msg.content, prefix) == Help ==>
      o == Outcome(s, Some(HelpText), [])
    ensures !msg.authorIsBot && IsCommand(msg.content, prefix) && CommandOf(msg.content, prefix) == Ping ==>
      o == Outcome(s, Some(Pong), [])
    // setchannel is answered by SetChannelStep with the parsed arguments
    ensures !msg.authorIsBot && IsCommand(msg.content, prefix) && CommandOf(msg.content, prefix).SetChannel? ==>
      o == SetChannelStep(s, msg.guild, CommandOf(msg.content, prefix).args, io.persistOk)
    // only setchannel changes the global or the config
    ensures (o.state.relayChannel != s.relayChannel || o.state.config != s.config) ==>
      !msg.authorIsBot && IsCommand(msg.content, prefix) && CommandOf(msg.content, prefix).SetChannel?
    // a plain message outside the relay channel does nothing
    ensures !msg.authorIsBot && !IsCommand(msg.content, prefix) && !Eligible(s, msg, prefix) ==>
      o == Outcome(s, None, [])
    // the audit log grows only by relaying
    ensures o.state.log != s.log ==> Eligible(s, msg, prefix) && io.auditOk
    ensures Eligible(s, msg, prefix) ==> o == RelayStep(s, msg, guilds, io)
  {
    if msg.authorIsBot then Outcome(s, None, [])
    else if IsCommand(msg.content, prefix) then CommandStep(s, msg, prefix, io.persistOk)
    else if msg.channelId == s.relayChannel then RelayStep(s, msg, guilds, io)
    else Outcome(s, None, [])
  }

  /** A process start: the global begins at `Unset`, then every guild's stored value is loaded in
      guild order. The collections persist across restarts. */
  function Startup(config: map<string, string>, log: seq<AuditRecord>, guilds: seq<Guild>,
                   lookupFailed: set<string>): (s: State)
    ensures s.config == config && s.log == log
    ensures s.relayChannel == Unset
      || exists i :: 0 <= i < |guilds| && Loads(guilds[i], config, lookupFailed) && s.relayChannel == config[guilds[i].id]
  {
    State(Loaded(guilds, config, lookupFailed, Unset), config, log)
  }

  /** Issuing the same `setchannel` twice leaves the state as issuing it once. */
  lemma SetChannelIdempotent(s: State, msg: Message, prefix: string, guilds: seq<Guild>, io: Io)
    requires !msg.authorIsBot && IsCommand(msg.content, prefix) && CommandOf(msg.content, prefix).SetChannel?
    ensures var once := Handle(s, msg, prefix, guilds, io).state;
      Handle(once, msg, prefix, guilds, io).state == once
  {
    var args := CommandOf(msg.content, prefix).args;
    if |args| == 1 && args[0] in msg.guild.channels && io.persistOk {
      var m := s.config[msg.guild.id := args[0]];
      assert m[msg.guild.id := args[0]] == m;
    }
  }

  /** A successful `setchannel c` survives a restart: if the issuing guild is the last guild in
      iteration order whose value loads, the global after startup is `c` again. (`c` is
      non-empty, as every argument `ParseCommand` yields is.) */
  lemma SetChannelSurvivesRestart(s: State, g: Guild, c: string, guilds: seq<Guild>,
                                  lookupFailed: set<string>, k: nat)
    requires c != [] && c in g.channels
    requires k < |guilds| && guilds[k].id == g.id && g.id !in lookupFailed
    requires forall j :: k < j < |guilds| ==> guilds[j].id != g.id && !Loads(guilds[j], s.config, lookupFailed)
    ensures var after := SetChannelStep(s, g, [c], true).state;
      Startup(after.config, after.log, guilds, lookupFailed).relayChannel == c
  {
    var after := SetChannelStep(s, g, [c], true).state;
    assert Loads(guilds[k], after.config, lookupFailed);
    forall j | k < j < |guilds| ensures !Loads(guilds[j], after.config, lookupFailed) {
      assert !Loads(guilds[j], s.config, lookupFailed);
    }
    LoadedLast(guilds, after.config, lookupFailed, Unset, k);
  }

  /** The relay channel is one global, not a per-server setting: once a second guild sets its
      channel, messages in the first guild's configured channel are no longer relayed, although
      the first guild's entry still names that channel. */
  lemma LastSetChannelWins(s: State, g1: Guild, c1: string, g2: Guild, c2: string,
                           m: Message, prefix: string, guilds: seq<Guild>, io: Io)
    requires c1 in g1.channels && c2 in g2.channels && c1 != c2 && g1.id != g2.id
    requires m.guild == g1 && m.channelId == c1 && !m.authorIsBot && !IsCommand(m.content, prefix)
    ensures var s1 := SetChannelStep(s, g1, [c1], true).state;
      var s2 := SetChannelStep(s1, g2, [c2], true).state;
      && g1.id in s2.config && s2.config[g1.id] == c1
      && Handle(s2, m, prefix, guilds, io) == Outcome(s2, None, [])
  {
    var s1 := SetChannelStep(s, g1, [c1], true).state;
    var s2 := SetChannelStep(s1, g2, [c2], true).state;
    assert s2.relayChannel == c2;
    assert !Eligible(s2, m, prefix);
  }

  /** Relay between two configured guilds: a message in the relay channel of guild A reaches
      every target guild B whose lookup and send succeed, with the author and A's name in the
      text, and A itself gets no copy. */
  lemma RelayReachesOtherGuild(s: State, msg: Message, prefix: string, guilds: seq<Guild>, io: Io, b: nat)
    requires Eligible(s, msg, prefix) && io.auditOk
    requires b < |guilds| && IsTarget(guilds[b], msg.guild.id, s.config)
    requires guilds[b].id !in io.lookupFailed && guilds[b].id !in io.sendFailed
    ensures var o := Handle(s, msg, prefix, guilds, io);
      && Delivery(guilds[b].id, s.config[guilds[b].id], Payload(msg)) in o.sent
      && (forall d :: d in o.sent ==> d.guildId != msg.guild.id && d.content == Payload(msg))
  {
    var d := Delivery(guilds[b].id, s.config[guilds[b].id], Payload(msg));
    PlanMembership(guilds, msg.guild.id, s.config, Payload(msg), io.lookupFailed + io.sendFailed, d);
  }

  /** The in-memory state of the running bot. */
  class InterserverBot {
    var relayChannel: string
    var config: map<string, string>
    var log: seq<AuditRecord>
    /** The command prefix, fixed at startup from `COMMAND_PREFIX`. */
    const prefix: string

    function Snapshot(): State
      reads this
    {
      State(relayChannel, config, log)
    }

    /** A fresh process over the stored collections, with the prefix taken from the environment. */
    constructor (env: Option<string>, storedConfig: map<string, string>, storedLog: seq<AuditRecord>)
      ensures Snapshot() == State(Unset, storedConfig, storedLog)
      ensures prefix == EffectivePrefix(env) && prefix != []
    {
      prefix := EffectivePrefix(env);
      relayChannel := Unset;
      config := storedConfig;
      log := storedLog;
    }

    /** The `ready` handler's load loop: each guild whose lookup succeeds with a configured value
        overwrites the global; a failed lookup skips that guild only. */
    method LoadConfig(guilds: seq<Guild>, lookupFailed: set<string>)
      modifies this
      ensures Snapshot() == old(Snapshot()).(relayChannel := Loaded(guilds, config, lookupFailed, old(relayChannel)))
    {
      ghost var start := relayChannel;
      var i := 0;
      while i < |guilds|
        invariant 0 <= i <= |guilds|
        invariant config == old(config) && log == old(log)
        invariant relayChannel == Loaded(guilds[..i], config, lookupFailed, start)
      {
        var g := guilds[i];
        if g.id !in lookupFailed {
          if g.id in config && config[g.id] != [] {
            relayChannel := config[g.id];
          }
        }
        assert guilds[..i + 1][..i] == guilds[..i];
        i := i + 1;
      }
      assert guilds[..|guilds|] == guilds;
    }

    /** The `setchannel` branch. */
    method SetChannel(guild: Guild, args: seq<string>, persistOk: bool) returns (reply: Reply)
      modifies this
      ensures Outcome(Snapshot(), Some(reply), []) == SetChannelStep(old(Snapshot()), guild, args, persistOk)
    {
      if |args| != 1 {
        return SetChannelUsage;
      }
      var channelId := args[0];
      if channelId !in guild.channels {
        return InvalidChannel;
      }
      relayChannel := channelId;
      if persistOk {
        config := config[guild.id := channelId];
        reply := ChannelSet(channelId);
      } else {
        reply := SaveFailed;
      }
    }

    /** The relay branch: audit, then fan out. */
    method Relay(msg: Message, guilds: seq<Guild>, io: Io) returns (reply: Option<Reply>, sent: seq<Delivery>)
      modifies this
      ensures Outcome(Snapshot(), reply, sent) == RelayStep(old(Snapshot()), msg, guilds, io)
    {
      if !io.auditOk {
        return Some(RelayFailed), [];
      }
      log := log + [Record(msg, io.now)];
      reply := None;
      sent := FanOut(guilds, msg.guild.id, config, Payload(msg), io.lookupFailed, io.sendFailed);
    }

    /** The `messageCreate` handler. */
    method OnMessage(msg: Message, guilds: seq<Guild>, io: Io) returns (reply: Option<Reply>, sent: seq<Delivery>)
      modifies this
      ensures Outcome(Snapshot(), reply, sent) == Handle(old(Snapshot()), msg, prefix, guilds, io)
    {
      if msg.authorIsBot {
        return None, [];
      }
      if IsCommand(msg.content, prefix) {
        var command := ParseCommand(msg.content[|prefix|..]);
        sent := [];
        match command {
          case Help => reply := Some(HelpText);
          case Ping => reply := Some(Pong);
          case SetChannel(args) =>
            var r := SetChannel(msg.guild, args, io.persistOk);
            reply := Some(r);
          case Unknown(_) => reply := Some(UnknownCommand);
        }
        return;
      }
      if msg.channelId == relayChannel {
        reply, sent := Relay(msg, guilds, io);
      } else {
        reply, sent := None, [];
      }
    }
  }
}
