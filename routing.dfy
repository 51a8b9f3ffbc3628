/** Relay routing over the guilds the bot is in: which guilds receive a relayed message
    (index.js:132-158) and which channel id the startup load leaves in effect (index.js:43-55).
    The `config` collection is a map from server id to the stored `value`. */
module Routing {

  /** A guild in the client's cache: its id, its name and the ids of its channels. */
  datatype Guild = Guild(id: string, name: string, channels: set<string>)

  /** One message sent to a channel of another guild. */
  datatype Delivery = Delivery(guildId: string, channelId: string, content: string)

  /** `config && config.value`: a stored entry exists for the server and its value is non-empty. */
  predicate Configured(config: map<string, string>, serverId: string)
  {
    serverId in config && config[serverId] != []
  }

  /** A guild receives a relayed message when it is not the origin, has a configured value, and
      that value names one of its own channels. */
  predicate IsTarget(g: Guild, originId: string, config: map<string, string>)
  {
    g.id != originId && Configured(config, g.id) && config[g.id] in g.channels
  }

  /** The deliveries of one fan-out, in guild iteration order. Guilds in `skipped` are those
      whose config lookup or send failed: each is left out on its own and the others keep
      their delivery. */
  function Plan(gs: seq<Guild>, originId: string, config: map<string, string>, text: string,
                skipped: set<string>): (ds: seq<Delivery>)
    ensures |ds| <= |gs|
    ensures forall d :: d in ds ==>
      && d.guildId != originId && d.guildId !in skipped && d.content == text
      && Configured(config, d.guildId) && d.channelId == config[d.guildId]
  {
    if gs == [] then []
    else
      var g := gs[|gs| - 1];
      Plan(gs[..|gs| - 1], originId, config, text, skipped)
        + (if IsTarget(g, originId, config) && g.id !in skipped
           then [Delivery(g.id, config[g.id], text)] else [])
  }

  /** The deliveries a fan-out would make if no lookup or send failed. */
  function Targets(gs: seq<Guild>, originId: string, config: map<string, string>, text: string): seq<Delivery>
  {
    Plan(gs, originId, config, text, {})
  }

  /** A delivery is made exactly when some target guild was not skipped; it goes to that guild's
      configured channel and carries the payload. */
  lemma {:induction false} PlanMembership(gs: seq<Guild>, originId: string, config: map<string, string>,
                                           text: string, skipped: set<string>, d: Delivery)
    ensures d in Plan(gs, originId, config, text, skipped) <==>
      exists i :: 0 <= i < |gs| && IsTarget(gs[i], originId, config) && gs[i].id !in skipped
        && d == Delivery(gs[i].id, config[gs[i].id], text)
  {
    if gs != [] {
      var n := |gs| - 1;
      var init := gs[..n];
      PlanMembership(init, originId, config, text, skipped, d);
      assert forall i :: 0 <= i < n ==> init[i] == gs[i];
      if d in Plan(gs, originId, config, text, skipped) && d !in Plan(init, originId, config, text, skipped) {
        assert IsTarget(gs[n], originId, config) && gs[n].id !in skipped;
      }
    }
  }

  /** The client's guild cache is keyed by id: no two guilds share one. */
  predicate UniqueIds(gs: seq<Guild>)
  {
    forall i, j :: 0 <= i < j < |gs| ==> gs[i].id != gs[j].id
  }

  /** No two deliveries go to the same guild. */
  predicate OnePerGuild(ds: seq<Delivery>)
  {
    forall i, j :: 0 <= i < j < |ds| ==> ds[i].guildId != ds[j].guildId
  }

  /** Over a cache keyed by id, each guild receives at most one delivery. */
  lemma {:induction false} PlanOnePerGuild(gs: seq<Guild>, originId: string, config: map<string, string>,
                                           text: string, skipped: set<string>)
    requires UniqueIds(gs)
    ensures OnePerGuild(Plan(gs, originId, config, text, skipped))
  {
    if gs != [] {
      var n := |gs| - 1;
      var init := gs[..n];
      var g := gs[n];
      assert forall i :: 0 <= i < n ==> init[i] == gs[i];
      PlanOnePerGuild(init, originId, config, text, skipped);
      var prev := Plan(init, originId, config, text, skipped);
      forall d | d in prev ensures d.guildId != g.id {
        PlanMembership(init, originId, config, text, skipped, d);
      }
      var ds := Plan(gs, originId, config, text, skipped);
      if IsTarget(g, originId, config) && g.id !in skipped {
        assert ds == prev + [Delivery(g.id, config[g.id], text)];
        forall i, j | 0 <= i < j < |ds| ensures ds[i].guildId != ds[j].guildId {
          if j == |prev| {
            assert ds[i] in prev;
          } else {
            assert ds[i] == prev[i] && ds[j] == prev[j];
          }
        }
      } else {
        assert ds == prev;
      }
    }
  }

  /** Failure isolation: with some guilds skipped, a delivery is made exactly when it is a
      target delivery to a guild that was not skipped. */
  lemma PlanIsolation(gs: seq<Guild>, originId: string, config: map<string, string>, text: string,
                      skipped: set<string>, d: Delivery)
    ensures d in Plan(gs, originId, config, text, skipped) <==>
      d in Targets(gs, originId, config, text) && d.guildId !in skipped
  {
    PlanMembership(gs, originId, config, text, skipped, d);
    PlanMembership(gs, originId, config, text, {}, d);
  }

  /** A deployment where every guild is the origin (a single server) makes no deliveries. */
  lemma {:induction false} SingleServerNoDeliveries(gs: seq<Guild>, originId: string,
                                                    config: map<string, string>, text: string, skipped: set<string>)
    requires forall i :: 0 <= i < |gs| ==> gs[i].id == originId
    ensures Plan(gs, originId, config, text, skipped) == []
  {
    var ds := Plan(gs, originId, config, text, skipped);
    if ds != [] {
      assert ds[0] in ds;
      PlanMembership(gs, originId, config, text, skipped, ds[0]);
    }
  }

  /** The fan-out loop of the relay handler, run sequentially: for each guild other than the
      origin, look up its config (which may fail), check the channel exists, and send (which may
      fail). The result is the list of successful sends. */
  method FanOut(guilds: seq<Guild>, originId: string, config: map<string, string>, text: string,
                lookupFailed: set<string>, sendFailed: set<string>) returns (sent: seq<Delivery>)
    ensures sent == Plan(guilds, originId, config, text, lookupFailed + sendFailed)
  {
    sent := [];
    var i := 0;
    while i < |guilds|
      invariant 0 <= i <= |guilds|
      invariant sent == Plan(guilds[..i], originId, config, text, lookupFailed + sendFailed)
    {
      var g := guilds[i];
      if g.id != originId {
        if g.id in lookupFailed {
          // the lookup threw: logged, this guild only is skipped
        } else if g.id in config && config[g.id] != [] {
          var target := config[g.id];
          if target in g.channels && g.id !in sendFailed {
            sent := sent + [Delivery(g.id, target, text)];
          }
        }
      }
      assert guilds[..i + 1][..i] == guilds[..i];
      i := i + 1;
    }
    assert guilds[..|guilds|] == guilds;
  }

  /** Whether the startup load takes its value from guild `g`: the lookup succeeded and found a
      configured value. */
  predicate Loads(g: Guild, config: map<string, string>, lookupFailed: set<string>)
  {
    g.id !in lookupFailed && Configured(config, g.id)
  }

  /** The global channel id after the startup load, starting from `current`: each guild that
      loads overwrites it, so the last one in iteration order wins. */
  function Loaded(gs: seq<Guild>, config: map<string, string>, lookupFailed: set<string>,
                  current: string): (r: string)
    ensures r == current || exists i :: 0 <= i < |gs| && Loads(gs[i], config, lookupFailed) && r == config[gs[i].id]
  {
    if gs == [] then current
    else
      var g := gs[|gs| - 1];
      if Loads(g, config, lookupFailed) then config[g.id]
      else
        var r := Loaded(gs[..|gs| - 1], config, lookupFailed, current);
        assert forall i :: 0 <= i < |gs| - 1 ==> gs[..|gs| - 1][i] == gs[i];
        r
  }

  /** The last guild that loads determines the result, whatever failed or was unconfigured
      before or after it. */
  lemma {:induction false} LoadedLast(gs: seq<Guild>, config: map<string, string>, lookupFailed: set<string>,
                                      current: string, k: nat)
    requires k < |gs| && Loads(gs[k], config, lookupFailed)
    requires forall j :: k < j < |gs| ==> !Loads(gs[j], config, lookupFailed)
    ensures Loaded(gs, config, lookupFailed, current) == config[gs[k].id]
  {
    var n := |gs| - 1;
    if k < n {
      assert gs[..n][k] == gs[k];
      assert forall j :: k < j < n ==> gs[..n][j] == gs[j];
      LoadedLast(gs[..n], config, lookupFailed, current, k);
    }
  }

  /** When no guild loads, the global keeps its value. */
  lemma {:induction false} LoadedNone(gs: seq<Guild>, config: map<string, string>, lookupFailed: set<string>,
                                      current: string)
    requires forall j :: 0 <= j < |gs| ==> !Loads(gs[j], config, lookupFailed)
    ensures Loaded(gs, config, lookupFailed, current) == current
  {
    if gs != [] {
      var n := |gs| - 1;
      assert forall j :: 0 <= j < n ==> gs[..n][j] == gs[j];
      LoadedNone(gs[..n], config, lookupFailed, current);
    }
  }
}
