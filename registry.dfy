/**
 * The player registry: a map from player id to a managed record (engine, configuration, running
 * flag, port), changed in place by its operations, and the process-wide state around it: the
 * registry created once with eight default players, and the id of the current player.
 */
module Registry {
  import opened Wrappers
  import opened Types
  import opened Seqs
  import opened JsText
  import opened Prompts
  import opened Engine

  /** One registered player. */
  class ManagedPlayer {
    const id: int
    var server: PlayerServer
    var config: PlayerConfig
    var isRunning: bool
    var port: Option<int>

    constructor (id: int, server: PlayerServer, config: PlayerConfig)
      ensures this.id == id && this.server == server && this.config == config
      ensures !isRunning && port.None?
    {
      this.id := id;
      this.server := server;
      this.config := config;
      isRunning := false;
      port := None;
    }
  }

  /** The values of `m` at `keys`, in the order of `keys`. */
  function Lookup(m: map<int, ManagedPlayer>, keys: seq<int>): (r: seq<ManagedPlayer>)
    requires forall i :: 0 <= i < |keys| ==> keys[i] in m
    ensures |r| == |keys|
    ensures forall i :: 0 <= i < |keys| ==> r[i] == m[keys[i]]
  {
    if keys == [] then [] else [m[keys[0]]] + Lookup(m, keys[1..])
  }

  class PlayerManager {
    var players: map<int, ManagedPlayer>
    /** The registered ids in insertion order, the order in which the registry lists its entries. */
    var order: seq<int>

    /** Every record is stored under its own id, and `order` lists each registered id once. */
    ghost predicate Valid()
      reads this
    {
      && (forall id :: id in players ==> players[id].id == id)
      && Distinct(order)
      && (forall i :: 0 <= i < |order| ==> order[i] in players)
      && (forall id :: id in players ==> id in order)
    }

    constructor ()
      ensures Valid() && players == map[] && order == []
    {
      players := map[];
      order := [];
    }

    /**
     * Registers a fresh, stopped record with a fresh engine for `config` under `id`, replacing
     * any earlier record for `id`; a replaced id keeps its place in the listing order.
     */
    method AddPlayer(id: int, config: PlayerConfig) returns (player: ManagedPlayer)
      requires Valid()
      modifies this
      ensures Valid()
      ensures fresh(player) && fresh(player.server)
      ensures players == old(players)[id := player]
      ensures order == if id in old(players) then old(order) else old(order) + [id]
      ensures player.id == id && player.config == config && !player.isRunning && player.port.None?
      ensures player.server.config == config && player.server.Identity() == Session(None, None, None, None)
    {
      var server := new PlayerServer(config);
      player := new ManagedPlayer(id, server, config);
      if id !in players {
        order := order + [id];
        forall i, j | 0 <= i < j < |order| ensures order[i] != order[j] {
          if j == |order| - 1 {
            assert order[i] in old(order);
          }
        }
      }
      players := players[id := player];
    }

    /** Unregisters `id`; true exactly when it was registered. */
    method RemovePlayer(id: int) returns (removed: bool)
      requires Valid()
      modifies this
      ensures Valid()
      ensures removed == (id in old(players))
      ensures players == old(players) - {id}
      ensures order == Exclude(old(order), {id})
    {
      removed := id in players;
      ExcludeDistinct(order, {id});
      players := players - {id};
      order := Exclude(order, {id});
      forall i | 0 <= i < |order| ensures order[i] in players {
        var x := order[i];
        assert x in old(order) && x != id;
        var j :| 0 <= j < |old(order)| && old(order)[j] == x;
      }
    }

    /** The record registered under `id`, if any. */
    function GetPlayer(id: int): (p: Option<ManagedPlayer>)
      reads this
      ensures p.Some? <==> id in players
      ensures p.Some? ==> p.value == players[id]
    {
      if id in players then Some(players[id]) else None
    }

    /** Every stored record exactly once, in insertion order. */
    function GetAllPlayers(): (ps: seq<ManagedPlayer>)
      reads this
      requires Valid()
      ensures |ps| == |players| == |order|
      ensures forall i :: 0 <= i < |ps| ==> ps[i] == players[order[i]] && ps[i].id == order[i]
      ensures forall id :: id in players ==> players[id] in ps
      ensures Distinct(ps)
    {
      var ps := Lookup(players, order);
      DistinctCard(order);
      var ids := set x | x in order;
      assert ids == players.Keys by {
        forall x ensures x in ids <==> x in players.Keys {
          if x in order {
            var i :| 0 <= i < |order| && order[i] == x;
          }
        }
      }
      forall k | k in players ensures players[k] in ps {
        var i :| 0 <= i < |order| && order[i] == k;
        assert ps[i] == players[k];
      }
      ps
    }

    /** Replaces the configuration of a registered player and gives it a fresh engine without a session. */
    method UpdatePlayerConfig(id: int, config: PlayerConfig) returns (updated: bool)
      requires Valid()
      modifies if id in players then {players[id]} else {}
      ensures Valid()
      ensures updated == (id in players)
      ensures updated ==> players[id].config == config && fresh(players[id].server)
      ensures updated ==> players[id].server.config == config
      ensures updated ==> players[id].server.Identity() == Session(None, None, None, None)
      ensures updated ==> players[id].isRunning == old(players[id].isRunning) && players[id].port == old(players[id].port)
    {
      var player := GetPlayer(id);
      if player.None? {
        return false;
      }
      player.value.config := config;
      player.value.server := new PlayerServer(config);
      return true;
    }

    /** Marks a registered player as running; changes nothing for an unknown id. */
    method StartPlayer(id: int) returns (started: bool)
      requires Valid()
      modifies (if id in players then {players[id]} else {})`isRunning
      ensures started == (id in players)
      ensures started ==> players[id].isRunning
    {
      var player := GetPlayer(id);
      if player.None? {
        return false;
      }
      player.value.isRunning := true;
      return true;
    }

    /** Marks a registered player as stopped; changes nothing for an unknown id. */
    method StopPlayer(id: int) returns (stopped: bool)
      requires Valid()
      modifies (if id in players then {players[id]} else {})`isRunning
      ensures stopped == (id in players)
      ensures stopped ==> !players[id].isRunning
    {
      var player := GetPlayer(id);
      if player.None? {
        return false;
      }
      player.value.isRunning := false;
      return true;
    }
  }

  /**
   * The configuration of the default player with id `id` (1 to 8): a name carrying the id, the
   * process-wide key (empty when it is unset), the free model, and a cunning personality with a
   * balanced strategy. DefaultNamesDistinct shows that the names tell the players apart.
   */
  function DefaultConfig(id: int, envApiKey: Option<string>): (r: PlayerConfig)
    ensures envApiKey.Some? ==> r.ai.apiKey == envApiKey.value
    ensures envApiKey.None? ==> r.ai.apiKey == ""
    ensures r.game.personality == "cunning" && r.game.strategy == "balanced"
  {
    PlayerConfig(
      DefaultNamePrefix + IntToString(id),
      AiConfig(envApiKey.GetOr(""), "deepseek/deepseek-r1-0528-qwen3-8b:free", 150, 0.8),
      GameConfig("cunning", "balanced", "casual", 5, 3, 7),
      LoggingConfig(true, "info"))
  }

  const DefaultNamePrefix: string := "智能分析师"

  /** The default players have pairwise different names. */
  lemma DefaultNamesDistinct(i: int, j: int, envApiKey: Option<string>)
    requires DefaultConfig(i, envApiKey).name == DefaultConfig(j, envApiKey).name
    ensures i == j
  {
    var n := DefaultConfig(i, envApiKey).name;
    assert n[|DefaultNamePrefix|..] == IntToString(i);
    assert n[|DefaultNamePrefix|..] == IntToString(j);
    ParseIntToString(i);
    ParseIntToString(j);
  }

  /**
   * A default player has a usable credential exactly when the process-wide key is set and not
   * blank, since its configured key is that key or empty.
   */
  lemma DefaultCredential(id: int, envApiKey: Option<string>)
    ensures CredentialMissing(DefaultConfig(id, envApiKey).ai.apiKey, envApiKey) <==>
      envApiKey.None? || forall i :: 0 <= i < |envApiKey.value| ==> IsJsWhitespace(envApiKey.value[i])
  {
    var key := DefaultConfig(id, envApiKey).ai.apiKey;
    if envApiKey.Some? && key != "" {
      assert key == envApiKey.value;
    }
  }

  /** The eight default configurations, for ids 1 to 8 in order. */
  function DefaultConfigs(envApiKey: Option<string>): (r: seq<PlayerConfig>)
    ensures |r| == 8
    ensures forall i :: 0 <= i < 8 ==> r[i] == DefaultConfig(i + 1, envApiKey)
  {
    seq(8, i => DefaultConfig(i + 1, envApiKey))
  }

  /** A stopped record without a port whose engine is new for `config` and holds no session. */
  ghost predicate Unstarted(p: ManagedPlayer, config: PlayerConfig)
    reads p, p.server
  {
    !p.isRunning && p.port.None? && p.config == config
    && p.server.config == config && p.server.Identity() == Session(None, None, None, None)
  }

  /** A new registry holding, for each configuration in turn, a stopped player under ids 1, 2, ... whose engine holds no session. */
  method RegisterAll(configs: seq<PlayerConfig>) returns (m: PlayerManager)
    ensures fresh(m) && m.Valid()
    ensures |m.order| == |configs| && forall k :: 0 <= k < |configs| ==> m.order[k] == k + 1
    ensures forall id :: id in m.players ==> 1 <= id <= |configs| && Unstarted(m.players[id], configs[id - 1])
  {
    m := new PlayerManager();
    var i := 0;
    while i < |configs|
      invariant 0 <= i <= |configs|
      invariant fresh(m) && m.Valid()
      invariant |m.order| == i && forall k :: 0 <= k < i ==> m.order[k] == k + 1
      invariant forall id :: id in m.players ==> 1 <= id <= i && Unstarted(m.players[id], configs[id - 1])
    {
      var _ := m.AddPlayer(i + 1, configs[i]);
      i := i + 1;
    }
  }

  /** The process-wide state: one registry and the id of the current player. */
  class Globals {
    const manager: PlayerManager
    var currentPlayerId: Option<int>

    /**
     * The one-time initialisation: a registry holding the eight default players under ids 1 to 8,
     * all stopped with their default configuration and an engine without a session, and no current player.
     */
    constructor Bootstrap(envApiKey: Option<string>)
      ensures fresh(manager) && manager.Valid()
      ensures |manager.order| == 8 && forall k :: 0 <= k < 8 ==> manager.order[k] == k + 1
      ensures forall id :: id in manager.players <==> 1 <= id <= 8
      ensures forall id :: id in manager.players ==>
        Unstarted(manager.players[id], DefaultConfig(id, envApiKey))
      ensures currentPlayerId.None?
    {
      var configs := DefaultConfigs(envApiKey);
      var m := RegisterAll(configs);
      forall id | 1 <= id <= 8 ensures id in m.players {
        assert m.order[id - 1] == id;
      }
      manager := m;
      currentPlayerId := None;
    }

    method SetCurrentPlayerId(id: int)
      modifies this`currentPlayerId
      ensures currentPlayerId == Some(id)
    {
      currentPlayerId := Some(id);
    }

    /** The id of the current player, as the last SetCurrentPlayerId left it; none after the bootstrap. */
    function GetCurrentPlayerId(): (r: Option<int>)
      reads this
      ensures r == currentPlayerId
    {
      currentPlayerId
    }

    /** The engine registered under `id`, if any. */
    function GetPlayerServer(id: int): (s: Option<PlayerServer>)
      reads manager, manager.players.Values
      ensures s.Some? <==> id in manager.players
      ensures s.Some? ==> s.value == manager.players[id].server
    {
      match manager.GetPlayer(id)
      case Some(p) => Some(p.server)
      case None => None
    }

    /** The engine of the current player: none without a current id, else the one registered under it, if any. */
    function GetCurrentPlayerServer(): (s: Option<PlayerServer>)
      reads this, manager, manager.players.Values
      ensures s.Some? <==> currentPlayerId.Some? && currentPlayerId.value in manager.players
      ensures s.Some? ==> s.value == manager.players[currentPlayerId.value].server
    {
      if currentPlayerId.None? then None else GetPlayerServer(currentPlayerId.value)
    }
  }
}
