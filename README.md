# NiceFC team registry — a Dafny model

The application keeps a registry of football teams behind an HTTP API.
A client registers a team by sending a team DTO: a name, an acronym, a budget and an optional list of players.
It lists the stored teams one page at a time, sorted by name, acronym or budget.
This project models the core of that application in Dafny:

- the declarative validation rules of the team DTO and of the Team and Player entities (`validation.dfy`, `dto.dfy`, `entity.dfy`);
- the mappers between entities and DTOs (`player_mapper.dfy`, `team_mapper.dfy`).
  The direction from DTO to entity builds a new Team whose new players all point back at that same object;
- the team service over an in-memory store (`service.dfy`, `repository.dfy`), with ascending sorting (`ordering.dfy`) and offset paging (`paging.dfy`);
- the two endpoints of the team controller (`controller.dfy`) and the exception advice that turns their exceptions into responses (`exception_handler.dfy`, `exceptions.dfy`, `http.dfy`).

Modelling choices:

- A Java `null` is `None` of an `Option`. The player's back-reference is a nullable `Team?`.
- DTOs are datatypes. The entities are classes, because the mapper fills them through setters, the back-reference is object identity, and saving assigns the id in place.
- A budget is a `real`, since `BigDecimal` is an exact decimal.
- Bean Validation is an explicit rule table:
  - `@NotEmpty` fails on null or on the empty string;
  - `@Size` passes on null;
  - `@NotNull` fails on null;
  - every rule is evaluated, and violations are listed in declaration order.

  So an empty name is reported twice, once by each of its two rules.
- The store's string collation is not visible, so it is a parameter: any total preorder on strings. Null values sort last, as PostgreSQL does for an ascending sort.
- The service records which of its operations were called, as ghost state. This is how the controller's contracts say which operations a request reaches.

Where documentation and code disagree, the model follows the code:

- The advice's comment for validation errors promises status 400. The code answers 302 FOUND.
- The service interface says an unsupported sort property "defaults to name". The implementation does no such thing; instead, the controller refuses such a property before calling the service, and the model's service `GetTeams` requires a supported one.
- The interface says page or size "less than 0" is refused. The page request refuses a size below one.

The source of `PlayerDto` is not part of this model. Its rules are taken from its tests: name 3 to 30 characters, position 2 to 3 characters, with the same messages as the Player entity.

## Model

| member | source | states |
|---|---|---|
| Validation.Validate | src/main/java/com/matawan/nicefc/dto/TeamDto.java:19-39 | one violation per failing rule, at most one per rule; the result is empty exactly when every rule holds |
| Validation.ValidateSound | src/main/java/com/matawan/nicefc/dto/TeamDto.java:19-39 | every reported violation is the field and message of some failing rule |
| Validation.ValidateComplete | src/main/java/com/matawan/nicefc/dto/TeamDto.java:19-39 | every failing rule is reported: no rule stops the evaluation of the others |
| Validation.ValidateAppend | src/main/java/com/matawan/nicefc/dto/TeamDto.java:19-39 | validating two rule lists one after the other reports the two reports concatenated |
| Validation.TextViolations | src/main/java/com/matawan/nicefc/dto/TeamDto.java:19-20 | a not-empty plus size pair reports nothing exactly when the text is non-null with length in range; every violation is on that field |
| Validation.TextRulesReport | src/main/java/com/matawan/nicefc/dto/TeamDto.java:19-20 | the rule pair reports: null gives only the blank message, "" gives blank then size, out of range gives only size |
| Validation.NullViolations | src/main/java/com/matawan/nicefc/dto/TeamDto.java:38-39 | a not-null rule reports nothing exactly when the value is present |
| Validation.NullRuleReports | src/main/java/com/matawan/nicefc/dto/TeamDto.java:38-39 | the not-null rule reports its one message exactly on null |
| Validation.FieldsOf | src/main/java/com/matawan/nicefc/controller/TeamController.java:63-66 | the field names of the errors, one per error, in order |
| Validation.ViolationsOn | src/main/java/com/matawan/nicefc/dto/TeamDto.java:19-39 | specification helper, not a step of the source: the errors on one field are exactly those of the list with that field, used to state what each property's rules report |
| Dto.TeamDtoViolations | src/main/java/com/matawan/nicefc/dto/TeamDto.java:19-39 | the report is the name table, then the acronym table, then the budget check; players carry no rule |
| Dto.PlayerDtoViolations | src/test/java/com/matawan/nicefc/dto/PlayerDtoTest.java:56-98 | the report is the name table (3..30), then the position table (2..3) |
| Dto.TeamDtoFieldReports | src/main/java/com/matawan/nicefc/dto/TeamDto.java:19-39 | each property's errors are exactly its own case table whatever the others hold; "players" is never reported |
| Dto.TeamDtoValidity | src/main/java/com/matawan/nicefc/dto/TeamDto.java:19-39 | a property is among the error fields iff it is invalid (name 3..30, acronym 3..6, budget present); no error iff all three are valid |
| Dto.PlayerDtoFieldReports | src/test/java/com/matawan/nicefc/dto/PlayerDtoTest.java:56-98 | a player DTO property is among the error fields iff it is invalid, each reported by its own table |
| Dto.OnlyOwnField | src/main/java/com/matawan/nicefc/dto/TeamDto.java:19-39 | errors all about one field filter to themselves on it and to nothing on any other |
| Dto.FieldReported | src/main/java/com/matawan/nicefc/controller/TeamController.java:63-66 | a field is in the error field list iff some error is on it |
| Dto.NestedPlayersIgnored | src/main/java/com/matawan/nicefc/dto/TeamDto.java:30-33 | changing the nested players never changes the team DTO's report: no cascade |
| Dto.TeamDtoCases | src/test/java/com/matawan/nicefc/dto/TeamDtoTest.java:39-99 | the tested single-error cases give exactly the expected messages and nothing else |
| Dto.TeamDtoMultipleCases | src/test/java/com/matawan/nicefc/dto/TeamDtoTest.java:105-114 | null name and acronym are both reported as blank; an empty name yields the field "name" twice |
| Dto.PlayerDtoCases | src/test/java/com/matawan/nicefc/dto/PlayerDtoTest.java:56-98 | the tested player DTO cases give exactly the expected messages |
| Entity.TeamViolations | src/main/java/com/matawan/nicefc/entity/Team.java:40-61 | the entity's report is the same name, acronym and budget tables as the DTO's; the players list is not read |
| Entity.PlayerViolations | src/main/java/com/matawan/nicefc/entity/Player.java:37-54 | name table, position table (2..3), then the owning-team check |
| Entity.WhitespaceNamePasses | src/main/java/com/matawan/nicefc/entity/Team.java:40-41 | a name of three spaces passes: the rule is not-empty, not not-blank |
| Entity.PlayerTeamRule | src/main/java/com/matawan/nicefc/entity/Player.java:51-54 | the team message is reported iff the player has no team |
| Entity.PlayerEntityCases | src/test/java/com/matawan/nicefc/entity/PlayerEntityTest.java:38-113 | the tested player entities give exactly the expected messages, all of them when several rules fail |
| Entity.TeamEntityCases | src/test/java/com/matawan/nicefc/entity/TeamEntityTest.java:38-113 | the tested team entities give exactly the expected messages, all of them when several rules fail |
| PlayerMapper.MapPlayerDtoToPlayer | src/main/java/com/matawan/nicefc/utils/mapper/PlayerMapper.java:26-32 | a new player with the DTO's name and position whose team is exactly the given one |
| PlayerMapper.MapPlayerToPlayerDto | src/main/java/com/matawan/nicefc/utils/mapper/PlayerMapper.java:40-45 | the DTO carries the player's name and position; the team is dropped |
| PlayerMapper.MapPlayersToPlayerDtos | src/main/java/com/matawan/nicefc/utils/mapper/PlayerMapper.java:53-60 | null gives an empty list; same length; entry i is the DTO of player i |
| PlayerMapper.MapPlayersDtoToPlayers | src/main/java/com/matawan/nicefc/utils/mapper/PlayerMapper.java:69-77 | null gives an empty list; one new, distinct player per DTO, in order, its fields copied and its team the given one |
| PlayerMapper.PlayerRoundTrip | src/main/java/com/matawan/nicefc/utils/mapper/PlayerMapper.java:26-45 | DTO to player and back gives the same DTO, whatever the team |
| PlayerMapper.PlayersRoundTrip | src/main/java/com/matawan/nicefc/utils/mapper/PlayerMapper.java:53-77 | the list round trip gives the DTO list back, a null list as empty |
| PlayerMapper.MappedPlayerHasTeam | src/main/java/com/matawan/nicefc/utils/mapper/PlayerMapper.java:26-32 | a player mapped with a non-null team never fails the team rule |
| TeamMapper.MapTeamToTeamDto | src/main/java/com/matawan/nicefc/utils/mapper/TeamMapper.java:28-35 | name, acronym and budget copied; the roster is non-null, of equal length, entry i the DTO of player i |
| TeamMapper.MapTeamDtoToTeam | src/main/java/com/matawan/nicefc/utils/mapper/TeamMapper.java:43-51 | a new team without an id, the DTO's fields, a non-null roster of new distinct players, each owned by that very team |
| TeamMapper.MapTeamsToTeamDtos | src/main/java/com/matawan/nicefc/utils/mapper/TeamMapper.java:59-65 | same length; entry i is the DTO of team i |
| TeamMapper.MapTeamDtosToTeams | src/main/java/com/matawan/nicefc/utils/mapper/TeamMapper.java:73-80 | one new, distinct, id-less team per DTO, in order, each the mapping of its DTO |
| TeamMapper.TeamRoundTrip | src/main/java/com/matawan/nicefc/utils/mapper/TeamMapper.java:28-51 | DTO to team and back keeps name, acronym, budget and every player's name and position in order; a null roster comes back empty |
| TeamMapper.RulesAgree | src/main/java/com/matawan/nicefc/entity/Team.java:40-61 | a team with a DTO's name, acronym and budget has exactly the DTO's violations |
| TeamMapper.ShortAcronymCopied | src/test/java/com/matawan/nicefc/utils/mapper/TeamMapperTest.java:64-84 | mapping does not validate: the two-letter acronym is copied, and the entity then fails only the acronym size rule |
| Ordering.SortFieldOf | src/main/java/com/matawan/nicefc/controller/TeamController.java:95 | a property denotes a sort field iff it is exactly "name", "acronym" or "budget" |
| Ordering.KeyLeqTotal | src/main/java/com/matawan/nicefc/service/Impl/TeamServiceImpl.java:61 | the nulls-last key order is total when the collation is |
| Ordering.KeyLeqTransitive | src/main/java/com/matawan/nicefc/service/Impl/TeamServiceImpl.java:61 | the nulls-last key order is transitive when the collation is |
| Ordering.Insert | src/main/java/com/matawan/nicefc/service/Impl/TeamServiceImpl.java:61 | insertion adds exactly the one team |
| Ordering.Sort | src/main/java/com/matawan/nicefc/service/Impl/TeamServiceImpl.java:61 | the sorted teams are a permutation of the stored ones |
| Ordering.InsertAscending | src/main/java/com/matawan/nicefc/service/Impl/TeamServiceImpl.java:61 | inserting into an ascending list keeps it ascending |
| Ordering.SortAscending | src/main/java/com/matawan/nicefc/service/Impl/TeamServiceImpl.java:61 | the sort is ascending by the property and a permutation of its input |
| Ordering.AscendingRun | src/main/java/com/matawan/nicefc/service/Impl/TeamServiceImpl.java:61-62 | every contiguous run of an ascending list is ascending |
| Paging.PageRequestOf | src/main/java/com/matawan/nicefc/service/Impl/TeamServiceImpl.java:61 | a request is built iff page >= 0 and size >= 1; a negative page, then a size below one, is refused with its message |
| Paging.Slice | src/main/java/com/matawan/nicefc/service/Impl/TeamServiceImpl.java:62 | at most `size` rows; entry i is row page*size + i; the page is empty past the end |
| Paging.PagesCover | src/main/java/com/matawan/nicefc/service/Impl/TeamServiceImpl.java:62 | row k appears on page k / size at position k % size: paging loses no row |
| Paging.PagesDisjoint | src/main/java/com/matawan/nicefc/service/Impl/TeamServiceImpl.java:62 | rows of an earlier page come strictly before rows of a later one |
| Repository.HasName | src/main/java/com/matawan/nicefc/repository/TeamRepository.java:20 | true iff some stored team has exactly that name |
| Repository.PageOfSorted | src/main/java/com/matawan/nicefc/service/Impl/TeamServiceImpl.java:61-62 | a page of the sorted teams is ascending and holds only stored teams |
| Repository.TeamRepository.Save | src/main/java/com/matawan/nicefc/service/Impl/TeamServiceImpl.java:45 | the new team is appended, receives the next id, and the store stays valid (unique teams and ids) |
| Repository.TeamRepository.ExistsByName | src/main/java/com/matawan/nicefc/repository/TeamRepository.java:20 | true iff a stored team has the name |
| Repository.TeamRepository.FindAll | src/main/java/com/matawan/nicefc/service/Impl/TeamServiceImpl.java:61-62 | the requested slice of the sorted teams with the request's number and size and the total count; ascending, at most `size` teams, all stored |
| Service.TeamServiceImpl.AddTeam | src/main/java/com/matawan/nicefc/service/Impl/TeamServiceImpl.java:43-46 | exactly one team is appended, the mapping of the DTO, whatever its name; afterwards the name exists |
| Service.TeamServiceImpl.ExistsByName | src/main/java/com/matawan/nicefc/service/Impl/TeamServiceImpl.java:52-54 | the store's answer, nothing stored changes |
| Service.TeamServiceImpl.GetTeams | src/main/java/com/matawan/nicefc/service/Impl/TeamServiceImpl.java:60-65 | illegal page or size is thrown; otherwise entry i is the DTO of row i of the ascending page, and number, size and total carry over |
| ExceptionHandler.HandleValidationException | src/main/java/com/matawan/nicefc/exception/handler/customExceptionHandler.java:26-30 | status 302 with exactly the exception's field list |
| ExceptionHandler.HandleTeamAlreadyExistsException | src/main/java/com/matawan/nicefc/exception/handler/customExceptionHandler.java:38-42 | status 302 with the exception's message |
| ExceptionHandler.Handle | src/main/java/com/matawan/nicefc/exception/handler/customExceptionHandler.java:26-42 | both application exceptions are answered FOUND; an illegal-argument exception is not handled here |
| ExceptionHandler.InvalidTeamResponse | src/main/java/com/matawan/nicefc/controller/TeamController.java:62-68 | for an invalid DTO the client receives FOUND with one field name per violation, naming a property iff it is invalid, never "players" |
| Controller.TeamController.AddTeam | src/main/java/com/matawan/nicefc/controller/TeamController.java:59-80 | invalid: validation error with the fields, no service call; taken name: already-registered, only the existence query; else one stored team and CREATED echoing the DTO |
| Controller.TeamController.GetTeams | src/main/java/com/matawan/nicefc/controller/TeamController.java:91-102 | any other property than the three: BAD_REQUEST, service not called; else the service is called with the same arguments and OK carries its ascending page |
| Controller.DefaultsAccepted | src/main/java/com/matawan/nicefc/controller/TeamController.java:92-94 | the defaults page 0, size 10, sort "name" form a legal request |
| Controller.RegisterTwice | src/test/java/com/matawan/nicefc/controller/integrationTest/TeamControllerTestIntegration.java:50-66 | registering the same valid team twice: CREATED, then FOUND with "team already registered"; one team stored |

## Left out

- Logging, HTTP routing, content negotiation, JSON (de)serialisation and `@JsonIdentityInfo`: framework plumbing with no decision in it.
- Application bootstrap and the data-source configuration: configuration only.
- The player repository: nothing uses it.
- Repository.TeamRepository.Save: covers only the persist of a team without an id, the only way the service calls it. The merge of an entity that already has an id is not modelled.
- Repository.TeamRepository.Save: the entity validation that the persistence layer runs on persist is not modelled. A team DTO with invalid nested players therefore passes the controller and is stored here, while the database layer would raise an exception.
- Repository.TeamRepository.Save: players get no ids, and the player entity has no id field in the model. Cascade persist of the roster is not modelled, because nothing in the core reads a player's id.
- Repository.TeamRepository.ExistsByName: a null name matches teams whose name is unset, as a derived query translates null to IS NULL. The controller only asks for names that passed validation, so this case does not arise there.
- Repository.TeamRepository.FindAll: among teams with equal keys, the model keeps insertion order. The database promises no order for ties, so only the ascending order and the permutation are guaranteed properties.
- Ordering.Sort: string order is an abstract total preorder, because the database collation is not visible.
- Lengths: lengths are counted in Dafny characters. Java counts UTF-16 code units, so the two differ for characters outside the Basic Multilingual Plane.
- Validation.Validate: Java returns violations as an unordered set. The model lists them in declaration order; which field ordering a client sees is a modelling choice.
- Ids and paging arithmetic are unbounded integers. Java uses `long` ids and a `long` offset page*size.
- Paging.Slice: the data-access layer refuses a page whose offset page*size exceeds the largest 32-bit int (for example page 300000000 with size 10) with an exception, while the model answers such a request with an empty page.
- PlayerMapper.MapPlayersDtoToPlayers and Controller.TeamController.AddTeam: a roster element cannot be null in the model (`seq<PlayerDto>`). In the source a body such as `"players":[null]` passes validation, the name is found free, and the mapper then dereferences the null element and throws a NullPointerException before the save; nothing is stored and the advice does not handle it. The model's AddTeam cannot take that path, so it has no outcome for this input.
- TeamMapper.MapTeamToTeamDto: likewise a null element of a team's roster cannot be represented; the source would throw on it.
- Derived page metadata (total pages, first/last flags) is not modelled. Only content, number, size and total count are.
- Check-then-insert race: the existence check and the insert are not atomic in the source, and concurrent registrations of one name could both be stored. The model is sequential.
- Validation of the sort property by the data-access library: the controller admits only the three existing properties, so that validation never fails.
