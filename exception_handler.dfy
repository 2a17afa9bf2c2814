/**
 * The application-wide exception advice: a validation failure answers with
 * the list of offending field names, an already-registered team with the
 * exception's message, both with status 302 FOUND. Any other exception is
 * not handled here and falls through to the framework.
 */
module ExceptionHandler {
  import opened Wrappers
  import opened Exceptions
  import opened Validation
  import opened Dto
  import opened Http

  /** handleValidationException: FOUND, with exactly the exception's field list. */
  function HandleValidationException(e: Exception): (r: Response)
    requires e.ValidationError?
    ensures Code(r.status) == 302
    ensures r.body.FieldsBody? && r.body.fields == e.errors
  {
    Response(Found, FieldsBody(e.errors))
  }

  /** handleTeamAlreadyExistsException: FOUND, with the exception's message. */
  function HandleTeamAlreadyExistsException(e: Exception): (r: Response)
    requires e.TeamAlreadyExists?
    ensures Code(r.status) == 302
    ensures r.body.MessageBody? && r.body.message == e.message
  {
    Response(Found, MessageBody(e.message))
  }

  /** The response the advice produces for an exception, if it handles it. */
  function Handle(e: Exception): (r: Option<Response>)
    ensures r.Some? <==> !e.IllegalArgument?
    ensures r.Some? ==> r.value.status == Found
  {
    match e
    case ValidationError(_, _) => Some(HandleValidationException(e))
    case TeamAlreadyExists(_) => Some(HandleTeamAlreadyExistsException(e))
    case IllegalArgument(_) => None
  }

  /** The response a client sees for an endpoint's outcome; None when no advice applies. */
  function Resolve(o: Outcome<Response>): Option<Response> {
    match o
    case Returned(response) => Some(response)
    case Thrown(e) => Handle(e)
  }

  /**
   * What a client receives when a team DTO fails validation: FOUND, and a
   * list of field names that names a property exactly when that property is
   * invalid, once per violated rule.
   */
  lemma InvalidTeamResponse(d: TeamDto)
    requires TeamDtoViolations(d) != []
    ensures var r := Handle(ValidationError(ValidationMessage, FieldsOf(TeamDtoViolations(d))));
      && r.Some? && r.value.status == Found && r.value.body.FieldsBody?
      && |r.value.body.fields| == |TeamDtoViolations(d)|
      && ("name" in r.value.body.fields <==> !ValidName(d.name))
      && ("acronym" in r.value.body.fields <==> !ValidAcronym(d.acronym))
      && ("budget" in r.value.body.fields <==> d.budget.None?)
      && "players" !in r.value.body.fields
  {
    TeamDtoValidity(d);
    TeamDtoFieldReports(d);
    FieldReported(TeamDtoViolations(d), "players");
  }
}
