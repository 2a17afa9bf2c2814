/**
 * The team endpoints. Registering a team checks, in this order, the
 * validation result of the request body, then whether the name is taken,
 * and only then stores the team and answers CREATED with the body echoed.
 * Listing teams accepts only the three sortable property names, exactly as
 * written, and otherwise answers BAD_REQUEST without reaching the service.
 */
module Controller {
  import opened Wrappers
  import opened Exceptions
  import opened Validation
  import opened Dto
  import opened Entity
  import opened TeamMapper
  import opened Ordering
  import opened Paging
  import opened Repository
  import opened Service
  import opened Http
  import opened ExceptionHandler

  /** The request-parameter defaults of the listing endpoint. */
  const DefaultPage := 0
  const DefaultSize := 10
  const DefaultSortBy := "name"

  const InvalidSortField := "field to sort with is invalid "

  class TeamController {
    const service: TeamServiceImpl

    ghost predicate Valid()
      reads this, service, service.repository, set t | t in service.repository.teams
    {
      service.Valid()
    }

    constructor (service: TeamServiceImpl)
      requires service.Valid()
      ensures this.service == service
      ensures Valid()
    {
      this.service := service;
    }

    /**
     * addTeam. The field errors are those of the body's validation, in
     * order. An invalid body is refused before the service is reached; a
     * taken name is refused after asking the service only whether it
     * exists; otherwise the service stores the body's team exactly once.
     */
    method AddTeam(d: TeamDto) returns (r: Outcome<Response>)
      requires Valid()
      modifies service, service.repository
      ensures Valid()
      ensures TeamDtoViolations(d) != [] ==>
        && r == Thrown(ValidationError(ValidationMessage, FieldsOf(TeamDtoViolations(d))))
        && service.calls == old(service.calls)
        && service.repository.teams == old(service.repository.teams)
      ensures TeamDtoViolations(d) == [] && HasName(old(service.repository.teams), d.name) ==>
        && r == Thrown(TeamAlreadyExists(AlreadyRegistered))
        && service.calls == old(service.calls) + [ExistsByNameCall(d.name)]
        && service.repository.teams == old(service.repository.teams)
      ensures TeamDtoViolations(d) == [] && !HasName(old(service.repository.teams), d.name) ==>
        && r == Returned(Response(Created, TeamBody(d)))
        && service.calls == old(service.calls) + [ExistsByNameCall(d.name), AddTeamCall(d)]
        && |service.repository.teams| == |old(service.repository.teams)| + 1
        && service.repository.teams[..|old(service.repository.teams)|] == old(service.repository.teams)
        && IsMappingOf(service.repository.teams[|old(service.repository.teams)|], d)
        && HasName(service.repository.teams, d.name)
    {
      var errors := TeamDtoViolations(d);
      if errors != [] {
        return Thrown(ValidationError(ValidationMessage, FieldsOf(errors)));
      }
      var taken := service.ExistsByName(d.name);
      if taken {
        return Thrown(TeamAlreadyExists(AlreadyRegistered));
      }
      service.AddTeam(d);
      r := Returned(Response(Created, TeamBody(d)));
    }

    /**
     * getTeams. An unknown sort property is answered with BAD_REQUEST and the
     * service is not called; otherwise the service's page is answered with
     * OK, and an illegal page number or size propagates as thrown.
     */
    method GetTeams(page: int, size: int, sortBy: string) returns (r: Outcome<Response>)
      requires Valid()
      modifies service
      ensures Valid()
      ensures service.repository.teams == old(service.repository.teams)
      ensures sortBy !in SortFields ==>
        && r == Returned(Response(BadRequest, MessageBody(InvalidSortField)))
        && service.calls == old(service.calls)
      ensures sortBy in SortFields ==>
        && service.calls == old(service.calls) + [GetTeamsCall(page, size, sortBy)]
        && (r.Thrown? <==> page < 0 || size < 1)
        && (r.Thrown? ==> r.exception.IllegalArgument?)
      ensures sortBy in SortFields && r.Returned? ==>
        var rows := Slice(Sort(service.repository.collate, SortFieldOf(sortBy).value, service.repository.teams), page, size);
        && r.value.status == Ok && r.value.body.PageBody?
        && r.value.body.page.number == page && r.value.body.page.size == size
        && r.value.body.page.totalElements == |service.repository.teams|
        && |r.value.body.page.content| == |rows|
        && (forall i :: 0 <= i < |rows| ==> r.value.body.page.content[i] == TeamDtoOf(rows[i]))
        && Ascending(service.repository.collate, SortFieldOf(sortBy).value, rows)
    {
      if sortBy != "name" && sortBy != "acronym" && sortBy != "budget" {
        return Returned(Response(BadRequest, MessageBody(InvalidSortField)));
      }
      var teams := service.GetTeams(page, size, sortBy);
      if teams.Thrown? {
        return Thrown(teams.exception);
      }
      r := Returned(Response(Ok, PageBody(teams.value)));
    }
  }

  /** The listing endpoint's defaults form a legal request. */
  lemma DefaultsAccepted()
    ensures DefaultSortBy in SortFields
    ensures PageRequestOf(DefaultPage, DefaultSize, SortFieldOf(DefaultSortBy).value)
            == Returned(PageRequest(0, 10, ByName))
  {
  }

  /**
   * Registering one valid team twice: the first request is answered CREATED,
   * the second, once the advice has handled its exception, FOUND with the
   * message that the team is already registered; one team is stored.
   */
  method RegisterTwice(controller: TeamController, d: TeamDto) returns (first: Option<Response>, second: Option<Response>)
    requires controller.Valid()
    requires TeamDtoViolations(d) == [] && !HasName(controller.service.repository.teams, d.name)
    modifies controller.service, controller.service.repository
    ensures first == Some(Response(Created, TeamBody(d)))
    ensures second == Some(Response(Found, MessageBody(AlreadyRegistered)))
    ensures |controller.service.repository.teams| == |old(controller.service.repository.teams)| + 1
  {
    var r1 := controller.AddTeam(d);
    first := Resolve(r1);
    var r2 := controller.AddTeam(d);
    second := Resolve(r2);
  }
}
