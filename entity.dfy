/**
 * The persisted entities. Their properties are set one by one through
 * setters and a player points back at the very Team object that owns it, so
 * both are classes; `None` (or `null` for the back-reference) stands for a
 * property not set.
 */
module Entity {
  import opened Wrappers
  import opened Validation

  class Team {
    /** Assigned by the store when the team is first saved. */
    var id: Option<int>
    var name: Option<string>
    var acronym: Option<string>
    var players: Option<seq<Player>>
    var budget: Option<real>

    /** The no-argument constructor: every property starts out null. */
    constructor ()
      ensures id == None && name == None && acronym == None && players == None && budget == None
    {
      id, name, acronym, players, budget := None, None, None, None, None;
    }
  }

  class Player {
    var name: Option<string>
    var position: Option<string>
    /** The owning team; `null` until assigned. */
    var team: Team?

    constructor ()
      ensures name == None && position == None && team == null
    {
      name, position, team := None, None, null;
    }
  }

  /** The players of a team, an unset list read as empty. */
  function PlayersOf(t: Team): seq<Player>
    reads t`players
  {
    t.players.GetOr([])
  }

  /** The annotations of Team; `id` and `players` carry no constraint. */
  function TeamRules(t: Team): seq<Rule>
    reads t`name, t`acronym, t`budget
  {
    TextRules("name", t.name, 3, 30, NameBlank, NameSize)
    + TextRules("acronym", t.acronym, 3, 6, AcronymBlank, AcronymSize)
    + [Rule("budget", Decimal(t.budget), NotNull, BudgetNull)]
  }

  function TeamViolations(t: Team): (r: seq<Violation>)
    reads t`name, t`acronym, t`budget
    ensures r == TextViolations("name", t.name, 3, 30, NameBlank, NameSize)
               + TextViolations("acronym", t.acronym, 3, 6, AcronymBlank, AcronymSize)
               + NullViolations("budget", Decimal(t.budget), BudgetNull)
  {
    var name := TextRules("name", t.name, 3, 30, NameBlank, NameSize);
    var acronym := TextRules("acronym", t.acronym, 3, 6, AcronymBlank, AcronymSize);
    var budget := [Rule("budget", Decimal(t.budget), NotNull, BudgetNull)];
    ValidateAppend(name + acronym, budget);
    ValidateAppend(name, acronym);
    TextRulesReport("name", t.name, 3, 30, NameBlank, NameSize);
    TextRulesReport("acronym", t.acronym, 3, 6, AcronymBlank, AcronymSize);
    NullRuleReports("budget", Decimal(t.budget), BudgetNull);
    Validate(TeamRules(t))
  }

  /** The annotations of Player: name, position code, and a required owning team. */
  function PlayerRules(p: Player): seq<Rule>
    reads p
  {
    TextRules("name", p.name, 3, 30, NameBlank, NameSize)
    + TextRules("position", p.position, 2, 3, PositionBlank, PositionSize)
    + [Rule("team", Reference(p.team != null), NotNull, TeamNull)]
  }

  function PlayerViolations(p: Player): (r: seq<Violation>)
    reads p
    ensures r == TextViolations("name", p.name, 3, 30, NameBlank, NameSize)
               + TextViolations("position", p.position, 2, 3, PositionBlank, PositionSize)
               + NullViolations("team", Reference(p.team != null), TeamNull)
  {
    var name := TextRules("name", p.name, 3, 30, NameBlank, NameSize);
    var position := TextRules("position", p.position, 2, 3, PositionBlank, PositionSize);
    var team := [Rule("team", Reference(p.team != null), NotNull, TeamNull)];
    ValidateAppend(name + position, team);
    ValidateAppend(name, position);
    TextRulesReport("name", p.name, 3, 30, NameBlank, NameSize);
    TextRulesReport("position", p.position, 2, 3, PositionBlank, PositionSize);
    NullRuleReports("team", Reference(p.team != null), TeamNull);
    Validate(PlayerRules(p))
  }

  /**
   * The rules are not-empty rules, not not-blank ones: a name of three
   * spaces passes; and an unset players list is no violation.
   */
  lemma WhitespaceNamePasses(t: Team)
    requires t.name == Some("   ") && t.acronym == Some("NFC") && t.budget.Some?
    ensures TeamViolations(t) == []
  {
  }

  /** A player with an owning team never fails the team rule, and one without fails exactly it. */
  lemma PlayerTeamRule(p: Player)
    ensures p.team != null ==> Violation("team", TeamNull) !in PlayerViolations(p)
    ensures p.team == null ==> Violation("team", TeamNull) in PlayerViolations(p)
  {
    var r := PlayerViolations(p);
    var n := TextViolations("name", p.name, 3, 30, NameBlank, NameSize);
    var q := TextViolations("position", p.position, 2, 3, PositionBlank, PositionSize);
    assert forall v :: v in n ==> v.field == "name";
    assert forall v :: v in q ==> v.field == "position";
  }

  /** The entity cases the player tests exercise; every violated rule is reported. */
  lemma PlayerEntityCases(p: Player)
    ensures p.name == Some("younes") && p.position == Some("ST") && p.team != null
            ==> PlayerViolations(p) == []
    ensures p.name == Some("se") && p.position == Some("ST") && p.team != null
            ==> PlayerViolations(p) == [Violation("name", NameSize)]
    ensures p.name == Some("younes") && p.position == Some("S") && p.team != null
            ==> PlayerViolations(p) == [Violation("position", PositionSize)]
    ensures p.name == Some("younes") && p.position == Some("ST") && p.team == null
            ==> PlayerViolations(p) == [Violation("team", TeamNull)]
    ensures p.name == None && p.position == None && p.team != null
            ==> PlayerViolations(p) == [Violation("name", NameBlank), Violation("position", PositionBlank)]
  {
  }

  /** The entity cases the team tests exercise; the players list is never consulted. */
  lemma TeamEntityCases(t: Team)
    ensures t.name == Some("nice") && t.acronym == Some("NFC") && t.budget == Some(100000.0)
            ==> TeamViolations(t) == []
    ensures t.name == Some("ni") && t.acronym == Some("NFC") && t.budget == Some(100000.0)
            ==> TeamViolations(t) == [Violation("name", NameSize)]
    ensures t.name == Some("nice") && t.acronym == Some("NC") && t.budget == Some(100000.0)
            ==> TeamViolations(t) == [Violation("acronym", AcronymSize)]
    ensures t.name == Some("nice") && t.acronym == Some("NFC") && t.budget == None
            ==> TeamViolations(t) == [Violation("budget", BudgetNull)]
    ensures t.name == None && t.acronym == None && t.budget == Some(100000.0)
            ==> TeamViolations(t) == [Violation("name", NameBlank), Violation("acronym", AcronymBlank)]
  {
  }
}
