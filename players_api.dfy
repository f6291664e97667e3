/**
 * The player listing and player creation of the players endpoint, on the shared registry:
 * the listing projects every registered record to a summary, and creation picks the id one
 * above the largest registered id (1 for an empty registry) and registers the new player there.
 */
module PlayersApi {
  import opened Wrappers
  import opened Types
  import opened Registry

  /** One entry of the listing. */
  datatype PlayerSummary = PlayerSummary(
    id: int, name: string, personality: string, strategy: string, isRunning: bool, port: Option<int>)

  /** The answer to a creation. */
  datatype CreatedPlayer = CreatedPlayer(id: int, name: string, personality: string, strategy: string, isRunning: bool)

  /** `Math.max(...xs, floor)`. */
  function MaxOr(xs: seq<int>, floor: int): (m: int)
    ensures m >= floor
    ensures forall i :: 0 <= i < |xs| ==> xs[i] <= m
    ensures m == floor || m in xs
  {
    if xs == [] then floor
    else
      var rest := MaxOr(xs[1..], floor);
      if xs[0] > rest then xs[0] else rest
  }

  /** The id a new player receives given the registered ids. */
  function NextId(ids: seq<int>): (r: int)
    ensures r >= 1
    ensures forall i :: 0 <= i < |ids| ==> ids[i] < r
    ensures ids == [] ==> r == 1
    ensures r == 1 || r - 1 in ids
  {
    MaxOr(ids, 0) + 1
  }

  /** `players.map(p => p.id)`. */
  function IdsOf(ps: seq<ManagedPlayer>): (r: seq<int>)
    ensures |r| == |ps|
    ensures forall i :: 0 <= i < |ps| ==> r[i] == ps[i].id
  {
    if ps == [] then [] else [ps[0].id] + IdsOf(ps[1..])
  }

  function Summary(p: ManagedPlayer): PlayerSummary
    reads p
  {
    PlayerSummary(p.id, p.config.name, p.config.game.personality, p.config.game.strategy, p.isRunning, p.port)
  }

  function Summaries(ps: seq<ManagedPlayer>): (r: seq<PlayerSummary>)
    reads set i | 0 <= i < |ps| :: ps[i]
    ensures |r| == |ps|
    ensures forall i :: 0 <= i < |ps| ==> r[i] == Summary(ps[i])
  {
    if ps == [] then [] else [Summary(ps[0])] + Summaries(ps[1..])
  }

  /**
   * The listing: one summary per registered player, in registration order, carrying the
   * record's id, name, personality, strategy, running flag and port.
   */
  function ListPlayers(m: PlayerManager): (r: seq<PlayerSummary>)
    reads m, m.players.Values
    requires m.Valid()
    ensures |r| == |m.players| == |m.order|
    ensures forall i :: 0 <= i < |r| ==> r[i] == Summary(m.players[m.order[i]]) && r[i].id == m.order[i]
    ensures forall id :: id in m.players <==> exists i :: 0 <= i < |r| && r[i].id == id
  {
    var ps := m.GetAllPlayers();
    var r := Summaries(ps);
    forall id | id in m.players ensures exists i :: 0 <= i < |r| && r[i].id == id {
      var i :| 0 <= i < |m.order| && m.order[i] == id;
      assert r[i].id == id;
    }
    r
  }

  /**
   * The creation: registers a fresh, stopped player for `config` under an id above every
   * registered id (1 when none is registered), leaves every existing record in place, and
   * answers with the new id, the configured name, personality and strategy, and a stopped flag.
   */
  method CreatePlayer(m: PlayerManager, config: PlayerConfig) returns (created: CreatedPlayer)
    requires m.Valid()
    modifies m
    ensures m.Valid()
    ensures created.id !in old(m.players)
    ensures created.id >= 1 && forall id :: id in old(m.players) ==> id < created.id
    ensures old(m.players) == map[] ==> created.id == 1
    ensures created.id in m.players && m.players == old(m.players)[created.id := m.players[created.id]]
    ensures m.order == old(m.order) + [created.id]
    ensures fresh(m.players[created.id]) && m.players[created.id].config == config
    ensures !m.players[created.id].isRunning && m.players[created.id].port.None?
    ensures created == CreatedPlayer(created.id, config.name, config.game.personality, config.game.strategy, false)
  {
    var ids := IdsOf(m.GetAllPlayers());
    assert ids == m.order;
    var nextId := NextId(ids);
    assert forall id :: id in m.players ==> id < nextId by {
      forall id | id in m.players ensures id < nextId {
        var i :| 0 <= i < |ids| && ids[i] == id;
      }
    }
    var player := m.AddPlayer(nextId, config);
    created := CreatedPlayer(player.id, player.config.name, player.config.game.personality,
                             player.config.game.strategy, player.isRunning);
  }
}
