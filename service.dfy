/**
 * The team service over the store: adding maps the DTO to a new entity and
 * saves it, existence is delegated to the store, and a page of teams is the
 * store's page with every team mapped back to a DTO. `calls` records, as
 * ghost state, which service operations have been invoked and with what, so
 * that callers can state which operations a request reaches.
 */
module Service {
  import opened Wrappers
  import opened Exceptions
  import opened Dto
  import opened Entity
  import opened TeamMapper
  import opened Ordering
  import opened Paging
  import opened Repository

  datatype Call =
    | AddTeamCall(dto: TeamDto)
    | ExistsByNameCall(name: Option<string>)
    | GetTeamsCall(page: int, size: int, sortBy: string)

  class TeamServiceImpl {
    const repository: TeamRepository
    ghost var calls: seq<Call>

    ghost predicate Valid()
      reads this, repository, set t | t in repository.teams
    {
      repository.Valid()
    }

    constructor (repository: TeamRepository)
      requires repository.Valid()
      ensures this.repository == repository && calls == []
      ensures Valid()
    {
      this.repository := repository;
      calls := [];
    }

    /** addTeam: the DTO's new entity is saved, whatever its name; nothing else is stored. */
    method AddTeam(d: TeamDto)
      requires Valid()
      modifies this, repository
      ensures Valid()
      ensures calls == old(calls) + [AddTeamCall(d)]
      ensures |repository.teams| == |old(repository.teams)| + 1
      ensures repository.teams[..|old(repository.teams)|] == old(repository.teams)
      ensures var t := repository.teams[|old(repository.teams)|];
        && fresh(t) && t.id == Some(old(repository.nextId)) && IsMappingOf(t, d)
      ensures HasName(repository.teams, d.name)
    {
      var t := MapTeamDtoToTeam(d);
      repository.Save(t);
      calls := calls + [AddTeamCall(d)];
      assert repository.teams[|old(repository.teams)|] == t;
    }

    /** existsByName: the store's answer, the store unchanged. */
    method ExistsByName(name: Option<string>) returns (b: bool)
      modifies this
      ensures calls == old(calls) + [ExistsByNameCall(name)]
      ensures b == HasName(repository.teams, name)
    {
      b := repository.ExistsByName(name);
      calls := calls + [ExistsByNameCall(name)];
    }

    /**
     * getTeams: for a legal request, the DTOs of the requested page of teams
     * sorted by `sortBy`, with the page's number, size and total count; a
     * negative page or a size below one is refused by the page request.
     */
    method GetTeams(page: int, size: int, sortBy: string) returns (r: Outcome<Page<TeamDto>>)
      requires Valid() && sortBy in SortFields
      modifies this
      ensures calls == old(calls) + [GetTeamsCall(page, size, sortBy)]
      ensures r.Thrown? <==> page < 0 || size < 1
      ensures r.Thrown? ==> r.exception == PageRequestOf(page, size, SortFieldOf(sortBy).value).exception
      ensures r.Returned? ==>
        var rows := Slice(Sort(repository.collate, SortFieldOf(sortBy).value, repository.teams), page, size);
        && r.value.number == page && r.value.size == size && r.value.totalElements == |repository.teams|
        && |r.value.content| == |rows|
        && (forall i :: 0 <= i < |rows| ==> r.value.content[i] == TeamDtoOf(rows[i]))
        && Ascending(repository.collate, SortFieldOf(sortBy).value, rows)
    {
      calls := calls + [GetTeamsCall(page, size, sortBy)];
      var request := PageRequestOf(page, size, SortFieldOf(sortBy).value);
      if request.Thrown? {
        r := Thrown(request.exception);
      } else {
        var teams := repository.FindAll(request.value);
        var content := MapTeamsToTeamDtos(teams.content);
        r := Returned(Page(content, teams.number, teams.size, teams.totalElements));
      }
    }
  }
}
