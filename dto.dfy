/**
 * The transfer objects exchanged at the HTTP boundary and the constraints
 * they declare. A DTO is a plain value carrier, so it is a datatype here;
 * `None` stands for a property left null.
 */
module Dto {
  import opened Wrappers
  import opened Validation

  datatype PlayerDto = PlayerDto(name: Option<string>, position: Option<string>)

  datatype TeamDto = TeamDto(
    name: Option<string>,
    acronym: Option<string>,
    players: Option<seq<PlayerDto>>,
    budget: Option<real>)

  /**
   * The annotations of TeamDto, in declaration order. `players` has neither a
   * constraint nor `@Valid`, so nested players are not validated.
   */
  function TeamDtoRules(d: TeamDto): seq<Rule> {
    TextRules("name", d.name, 3, 30, NameBlank, NameSize)
    + TextRules("acronym", d.acronym, 3, 6, AcronymBlank, AcronymSize)
    + [Rule("budget", Decimal(d.budget), NotNull, BudgetNull)]
  }

  /**
   * The violations of a team DTO: the name and acronym case tables and the
   * budget null check, all evaluated, in declaration order.
   */
  function TeamDtoViolations(d: TeamDto): (r: seq<Violation>)
    ensures r == TextViolations("name", d.name, 3, 30, NameBlank, NameSize)
               + TextViolations("acronym", d.acronym, 3, 6, AcronymBlank, AcronymSize)
               + NullViolations("budget", Decimal(d.budget), BudgetNull)
  {
    var name := TextRules("name", d.name, 3, 30, NameBlank, NameSize);
    var acronym := TextRules("acronym", d.acronym, 3, 6, AcronymBlank, AcronymSize);
    var budget := [Rule("budget", Decimal(d.budget), NotNull, BudgetNull)];
    ValidateAppend(name + acronym, budget);
    ValidateAppend(name, acronym);
    TextRulesReport("name", d.name, 3, 30, NameBlank, NameSize);
    TextRulesReport("acronym", d.acronym, 3, 6, AcronymBlank, AcronymSize);
    NullRuleReports("budget", Decimal(d.budget), BudgetNull);
    Validate(TeamDtoRules(d))
  }

  /** The annotations of PlayerDto: the same name rules as a team, and a 2..3 position code. */
  function PlayerDtoRules(p: PlayerDto): seq<Rule> {
    TextRules("name", p.name, 3, 30, NameBlank, NameSize)
    + TextRules("position", p.position, 2, 3, PositionBlank, PositionSize)
  }

  function PlayerDtoViolations(p: PlayerDto): (r: seq<Violation>)
    ensures r == TextViolations("name", p.name, 3, 30, NameBlank, NameSize)
               + TextViolations("position", p.position, 2, 3, PositionBlank, PositionSize)
  {
    ValidateAppend(TextRules("name", p.name, 3, 30, NameBlank, NameSize),
                   TextRules("position", p.position, 2, 3, PositionBlank, PositionSize));
    TextRulesReport("name", p.name, 3, 30, NameBlank, NameSize);
    TextRulesReport("position", p.position, 2, 3, PositionBlank, PositionSize);
    Validate(PlayerDtoRules(p))
  }

  /** Legal name length: non-null with 3 to 30 characters. */
  predicate ValidName(name: Option<string>) {
    name.Some? && 3 <= |name.value| <= 30
  }

  predicate ValidAcronym(acronym: Option<string>) {
    acronym.Some? && 3 <= |acronym.value| <= 6
  }

  predicate ValidPosition(position: Option<string>) {
    position.Some? && 2 <= |position.value| <= 3
  }

  /**
   * Each property of a team DTO is reported exactly by its own case table,
   * independently of the other properties; `players` is never reported.
   */
  lemma TeamDtoFieldReports(d: TeamDto)
    ensures ViolationsOn(TeamDtoViolations(d), "name") == TextViolations("name", d.name, 3, 30, NameBlank, NameSize)
    ensures ViolationsOn(TeamDtoViolations(d), "acronym") == TextViolations("acronym", d.acronym, 3, 6, AcronymBlank, AcronymSize)
    ensures ViolationsOn(TeamDtoViolations(d), "budget") == NullViolations("budget", Decimal(d.budget), BudgetNull)
    ensures ViolationsOn(TeamDtoViolations(d), "players") == []
  {
    var n := TextViolations("name", d.name, 3, 30, NameBlank, NameSize);
    var a := TextViolations("acronym", d.acronym, 3, 6, AcronymBlank, AcronymSize);
    var b := NullViolations("budget", Decimal(d.budget), BudgetNull);
    assert TeamDtoViolations(d) == n + a + b;
    SplitByField(n, a, b, "name", "acronym", "budget", "name");
    SplitByField(n, a, b, "name", "acronym", "budget", "acronym");
    SplitByField(n, a, b, "name", "acronym", "budget", "budget");
    SplitByField(n, a, b, "name", "acronym", "budget", "players");
  }

  /**
   * Of three lists, each about one property of its own, filtering on a
   * property keeps exactly the lists about it.
   */
  lemma SplitByField(a: seq<Violation>, b: seq<Violation>, c: seq<Violation>, fa: string, fb: string, fc: string, g: string)
    requires forall i :: 0 <= i < |a| ==> a[i].field == fa
    requires forall i :: 0 <= i < |b| ==> b[i].field == fb
    requires forall i :: 0 <= i < |c| ==> c[i].field == fc
    ensures ViolationsOn(a + b + c, g)
            == (if g == fa then a else []) + (if g == fb then b else []) + (if g == fc then c else [])
  {
    OnlyOwnField(a, fa);
    OnlyOwnField(b, fb);
    OnlyOwnField(c, fc);
    SplitOn3(a, b, c, g);
  }

  lemma SplitOn3(a: seq<Violation>, b: seq<Violation>, c: seq<Violation>, field: string)
    ensures ViolationsOn(a + b + c, field) == ViolationsOn(a, field) + ViolationsOn(b, field) + ViolationsOn(c, field)
  {
    ViolationsOnAppend(a + b, c, field);
    ViolationsOnAppend(a, b, field);
  }

  /**
   * Name, acronym and budget are each valid exactly when their rules say so:
   * a property is among the reported paths precisely when its value is out
   * of range or null, and the DTO is valid exactly when all three are.
   */
  lemma TeamDtoValidity(d: TeamDto)
    ensures "name" in FieldsOf(TeamDtoViolations(d)) <==> !ValidName(d.name)
    ensures "acronym" in FieldsOf(TeamDtoViolations(d)) <==> !ValidAcronym(d.acronym)
    ensures "budget" in FieldsOf(TeamDtoViolations(d)) <==> d.budget.None?
    ensures TeamDtoViolations(d) == [] <==> ValidName(d.name) && ValidAcronym(d.acronym) && d.budget.Some?
  {
    TeamDtoFieldReports(d);
    FieldReported(TeamDtoViolations(d), "name");
    FieldReported(TeamDtoViolations(d), "acronym");
    FieldReported(TeamDtoViolations(d), "budget");
  }

  /** The same for a player DTO. */
  lemma PlayerDtoFieldReports(p: PlayerDto)
    ensures ViolationsOn(PlayerDtoViolations(p), "name") == TextViolations("name", p.name, 3, 30, NameBlank, NameSize)
    ensures ViolationsOn(PlayerDtoViolations(p), "position") == TextViolations("position", p.position, 2, 3, PositionBlank, PositionSize)
    ensures "name" in FieldsOf(PlayerDtoViolations(p)) <==> !ValidName(p.name)
    ensures "position" in FieldsOf(PlayerDtoViolations(p)) <==> !ValidPosition(p.position)
  {
    var n := TextViolations("name", p.name, 3, 30, NameBlank, NameSize);
    var q := TextViolations("position", p.position, 2, 3, PositionBlank, PositionSize);
    ViolationsOnAppend(n, q, "name");
    ViolationsOnAppend(n, q, "position");
    OnlyOwnField(n, "name");
    OnlyOwnField(q, "position");
    FieldReported(PlayerDtoViolations(p), "name");
    FieldReported(PlayerDtoViolations(p), "position");
  }

  /** A list whose entries are all about `field` filters to itself, and to nothing on any other property. */
  lemma {:induction false} OnlyOwnField(vs: seq<Violation>, field: string)
    requires forall i :: 0 <= i < |vs| ==> vs[i].field == field
    ensures ViolationsOn(vs, field) == vs
    ensures forall other :: other != field ==> ViolationsOn(vs, other) == []
  {
    if vs != [] {
      OnlyOwnField(vs[1..], field);
    }
  }

  /** A property is among the reported paths exactly when some violation is on it. */
  lemma FieldReported(vs: seq<Violation>, field: string)
    ensures field in FieldsOf(vs) <==> ViolationsOn(vs, field) != []
  {
    if field in FieldsOf(vs) {
      var i :| 0 <= i < |vs| && FieldsOf(vs)[i] == field;
      assert vs[i] in ViolationsOn(vs, field);
    }
    if ViolationsOn(vs, field) != [] {
      var v := ViolationsOn(vs, field)[0];
      assert v in vs;
      var i :| 0 <= i < |vs| && vs[i] == v;
      assert FieldsOf(vs)[i] == field;
    }
  }

  /** Nested players never contribute a team-DTO violation: there is no cascade. */
  lemma NestedPlayersIgnored(d: TeamDto, players: Option<seq<PlayerDto>>)
    ensures TeamDtoViolations(d.(players := players)) == TeamDtoViolations(d)
  {
  }

  /** The cases the DTO tests exercise, with the exact messages they expect. */
  lemma TeamDtoCases()
    ensures TeamDtoViolations(TeamDto(Some("nice"), Some("NFC"), None, Some(100000.0))) == []
    ensures TeamDtoViolations(TeamDto(Some("ni"), Some("NFC"), None, Some(100000.0)))
            == [Violation("name", NameSize)]
    ensures TeamDtoViolations(TeamDto(Some("nice"), Some("NC"), None, Some(100000.0)))
            == [Violation("acronym", AcronymSize)]
    ensures TeamDtoViolations(TeamDto(Some("nice"), Some("NFC"), None, None))
            == [Violation("budget", BudgetNull)]
  {
  }

  /** The test cases with more than one violation: all are reported, in declaration order. */
  lemma TeamDtoMultipleCases()
    ensures TeamDtoViolations(TeamDto(None, None, None, Some(100000.0)))
            == [Violation("name", NameBlank), Violation("acronym", AcronymBlank)]
    ensures FieldsOf(TeamDtoViolations(TeamDto(Some(""), Some("NFC"), None, Some(100000.0))))
            == ["name", "name"]
  {
  }

  lemma PlayerDtoCases()
    ensures PlayerDtoViolations(PlayerDto(Some("younes"), Some("ST"))) == []
    ensures PlayerDtoViolations(PlayerDto(Some("se"), Some("ST"))) == [Violation("name", NameSize)]
    ensures PlayerDtoViolations(PlayerDto(Some("younes"), Some("S"))) == [Violation("position", PositionSize)]
    ensures PlayerDtoViolations(PlayerDto(None, None))
            == [Violation("name", NameBlank), Violation("position", PositionBlank)]
  {
  }
}
