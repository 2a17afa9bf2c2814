/**
 * Conversion between Player entities and PlayerDto values. The scalar
 * conversions copy the name and the position code; the list conversions walk
 * their input in order and append to a fresh list, a null input giving an
 * empty list.
 */
module PlayerMapper {
  import opened Wrappers
  import opened Dto
  import opened Entity
  import opened Validation

  /** mapPlayerDtoToPlayer: a new player with the DTO's fields, owned by `team`. */
  method MapPlayerDtoToPlayer(d: PlayerDto, team: Team?) returns (p: Player)
    ensures fresh(p)
    ensures p.name == d.name && p.position == d.position && p.team == team
  {
    p := new Player();
    p.name := d.name;
    p.position := d.position;
    p.team := team;
  }

  /** mapPlayerToPlayerDto: the DTO keeps the name and the position, and drops the team. */
  function MapPlayerToPlayerDto(p: Player): (r: PlayerDto)
    reads p`name, p`position
    ensures r.name == p.name && r.position == p.position
  {
    PlayerDto(p.name, p.position)
  }

  /**
   * mapPlayersToPlayerDtos: element i of the result is the DTO of player i;
   * a null list gives an empty one.
   */
  method MapPlayersToPlayerDtos(players: Option<seq<Player>>) returns (r: seq<PlayerDto>)
    ensures players.None? ==> r == []
    ensures |r| == |players.GetOr([])|
    ensures forall i :: 0 <= i < |r| ==> r[i] == MapPlayerToPlayerDto(players.value[i])
  {
    r := [];
    if players.None? {
      return;
    }
    var ps := players.value;
    for i := 0 to |ps|
      invariant |r| == i
      invariant forall k :: 0 <= k < i ==> r[k] == MapPlayerToPlayerDto(ps[k])
    {
      r := r + [MapPlayerToPlayerDto(ps[i])];
    }
  }

  /**
   * mapPlayersDtoToPlayers: one new player per DTO, in order, each with the
   * DTO's fields and owned by `team`; a null list gives an empty one.
   */
  method MapPlayersDtoToPlayers(dtos: Option<seq<PlayerDto>>, team: Team?) returns (r: seq<Player>)
    ensures dtos.None? ==> r == []
    ensures |r| == |dtos.GetOr([])|
    ensures forall i :: 0 <= i < |r| ==>
      fresh(r[i]) && r[i].name == dtos.value[i].name && r[i].position == dtos.value[i].position && r[i].team == team
    ensures forall i, j :: 0 <= i < j < |r| ==> r[i] != r[j]
  {
    r := [];
    if dtos.None? {
      return;
    }
    var ds := dtos.value;
    for i := 0 to |ds|
      invariant |r| == i
      invariant forall k :: 0 <= k < i ==>
        fresh(r[k]) && r[k].name == ds[k].name && r[k].position == ds[k].position && r[k].team == team
      invariant forall k, l :: 0 <= k < l < i ==> r[k] != r[l]
    {
      var p := MapPlayerDtoToPlayer(ds[i], team);
      r := r + [p];
    }
  }

  /** Round trip: converting a DTO to a player and back gives the same DTO, whatever the team. */
  method PlayerRoundTrip(d: PlayerDto, team: Team?) returns (back: PlayerDto)
    ensures back == d
  {
    var p := MapPlayerDtoToPlayer(d, team);
    back := MapPlayerToPlayerDto(p);
  }

  /** Round trip of the list conversions: the DTO list comes back unchanged, a null one as empty. */
  method PlayersRoundTrip(dtos: Option<seq<PlayerDto>>, team: Team?) returns (back: seq<PlayerDto>)
    ensures back == dtos.GetOr([])
  {
    var players := MapPlayersDtoToPlayers(dtos, team);
    back := MapPlayersToPlayerDtos(Some(players));
  }

  /** A player converted with a non-null team satisfies the team rule. */
  method MappedPlayerHasTeam(d: PlayerDto, team: Team) returns (p: Player)
    ensures Violation("team", TeamNull) !in PlayerViolations(p)
  {
    p := MapPlayerDtoToPlayer(d, team);
    PlayerTeamRule(p);
  }
}
