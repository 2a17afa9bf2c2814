/**
 * Conversion between Team entities and TeamDto values. Entity to DTO copies
 * the scalar fields and converts the roster without back-references; DTO to
 * entity builds a new Team whose new players all point back at it. None of
 * the conversions validates anything.
 */
module TeamMapper {
  import opened Wrappers
  import opened Validation
  import opened Dto
  import opened Entity
  import opened PlayerMapper

  /** The DTOs of a roster, element by element. */
  function PlayerDtosOf(ps: seq<Player>): (r: seq<PlayerDto>)
    reads ps
  {
    seq(|ps|, i requires 0 <= i < |ps| reads ps => MapPlayerToPlayerDto(ps[i]))
  }

  /** The DTO that mapTeamToTeamDto builds from a team, read off the heap. */
  function TeamDtoOf(t: Team): TeamDto
    reads t, PlayersOf(t)
  {
    TeamDto(t.name, t.acronym, Some(PlayerDtosOf(PlayersOf(t))), t.budget)
  }

  /**
   * `t` is what mapTeamDtoToTeam makes of `d`: the scalar fields of `d`, a
   * non-null roster with one player per DTO, in order, with that DTO's name
   * and position, and every player owned by `t` itself.
   */
  ghost predicate IsMappingOf(t: Team, d: TeamDto)
    reads t`name, t`acronym, t`budget, t`players, PlayersOf(t)
  {
    && t.name == d.name && t.acronym == d.acronym && t.budget == d.budget
    && t.players.Some?
    && |t.players.value| == |d.players.GetOr([])|
    && forall i :: 0 <= i < |t.players.value| ==>
         var p := t.players.value[i];
         p.name == d.players.value[i].name && p.position == d.players.value[i].position && p.team == t
  }

  /** mapTeamToTeamDto. */
  method MapTeamToTeamDto(t: Team) returns (d: TeamDto)
    ensures d.name == t.name && d.acronym == t.acronym && d.budget == t.budget
    ensures d.players.Some? && |d.players.value| == |PlayersOf(t)|
    ensures forall i :: 0 <= i < |PlayersOf(t)| ==> d.players.value[i] == MapPlayerToPlayerDto(PlayersOf(t)[i])
    ensures d == TeamDtoOf(t)
  {
    var players := MapPlayersToPlayerDtos(t.players);
    assert players == PlayerDtosOf(PlayersOf(t));
    d := TeamDto(t.name, t.acronym, Some(players), t.budget);
  }

  /** mapTeamDtoToTeam: a new team, not yet given an id, with a new roster owned by it. */
  method MapTeamDtoToTeam(d: TeamDto) returns (t: Team)
    ensures fresh(t) && t.id == None
    ensures IsMappingOf(t, d)
    ensures forall p :: p in PlayersOf(t) ==> fresh(p)
    ensures forall i, j :: 0 <= i < j < |PlayersOf(t)| ==> PlayersOf(t)[i] != PlayersOf(t)[j]
  {
    t := new Team();
    t.name := d.name;
    t.acronym := d.acronym;
    t.budget := d.budget;
    var players := MapPlayersDtoToPlayers(d.players, t);
    t.players := Some(players);
  }

  /** mapTeamsToTeamDtos: the DTO of every team, in order. */
  method MapTeamsToTeamDtos(teams: seq<Team>) returns (r: seq<TeamDto>)
    ensures |r| == |teams|
    ensures forall i :: 0 <= i < |r| ==> r[i] == TeamDtoOf(teams[i])
  {
    r := [];
    for i := 0 to |teams|
      invariant |r| == i
      invariant forall k :: 0 <= k < i ==> r[k] == TeamDtoOf(teams[k])
    {
      var d := MapTeamToTeamDto(teams[i]);
      r := r + [d];
    }
  }

  /** mapTeamDtosToTeams: one new team per DTO, in order, each built by mapTeamDtoToTeam. */
  method MapTeamDtosToTeams(dtos: seq<TeamDto>) returns (r: seq<Team>)
    ensures |r| == |dtos|
    ensures forall i :: 0 <= i < |r| ==> fresh(r[i]) && r[i].id == None
    ensures forall i :: 0 <= i < |r| ==> IsMappingOf(r[i], dtos[i])
    ensures forall i, j :: 0 <= i < j < |r| ==> r[i] != r[j]
  {
    r := [];
    for i := 0 to |dtos|
      invariant |r| == i
      invariant forall k :: 0 <= k < i ==> fresh(r[k]) && r[k].id == None
      invariant forall k :: 0 <= k < i ==> IsMappingOf(r[k], dtos[k])
      invariant forall k, l :: 0 <= k < l < i ==> r[k] != r[l]
    {
      var t := MapTeamDtoToTeam(dtos[i]);
      r := r + [t];
    }
  }

  /**
   * Round trip: converting a DTO to a team and back preserves name, acronym,
   * budget and every player's name and position in order; a null roster
   * comes back empty.
   */
  method TeamRoundTrip(d: TeamDto) returns (back: TeamDto)
    ensures back == d.(players := Some(d.players.GetOr([])))
  {
    var t := MapTeamDtoToTeam(d);
    back := MapTeamToTeamDto(t);
    assert back.players.value == d.players.GetOr([]);
  }

  /**
   * The team entity declares the same name, acronym and budget rules as the
   * DTO, so a team built from a DTO (IsMappingOf) has exactly the DTO's
   * violations.
   */
  lemma RulesAgree(t: Team, d: TeamDto)
    requires t.name == d.name && t.acronym == d.acronym && t.budget == d.budget
    ensures TeamViolations(t) == TeamDtoViolations(d)
  {
  }

  /** Mapping does not validate: the test's two-letter acronym is copied as it is. */
  method ShortAcronymCopied() returns (t: Team)
    ensures t.acronym == Some("TB") && TeamViolations(t) == [Violation("acronym", AcronymSize)]
  {
    var d := TeamDto(Some("TeamB"), Some("TB"), None, Some(1500000.0));
    t := MapTeamDtoToTeam(d);
    RulesAgree(t, d);
  }
}
