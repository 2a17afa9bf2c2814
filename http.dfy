/** The parts of an HTTP response the application chooses: a status and a body. */
module Http {
  import opened Dto
  import opened Paging

  datatype HttpStatus = Ok | Created | Found | BadRequest

  /** The numeric status code sent for a status. */
  function Code(s: HttpStatus): int {
    match s
    case Ok => 200
    case Created => 201
    case Found => 302
    case BadRequest => 400
  }

  datatype Body =
    | TeamBody(team: TeamDto)
    | PageBody(page: Page<TeamDto>)
    | FieldsBody(fields: seq<string>)
    | MessageBody(message: string)

  datatype Response = Response(status: HttpStatus, body: Body)
}
