/**
 * The Jakarta Bean Validation constraints that the team and player classes
 * declare as annotations, written out as an explicit rule table: every
 * annotated property contributes one rule per annotation, and validating an
 * object evaluates every rule of its table, in order, without stopping at the
 * first failure.
 */
module Validation {
  import opened Wrappers

  /** The value of a constrained property, as a constraint validator sees it. */
  datatype FieldValue =
    | Text(text: Option<string>)        // a String property; None is null
    | Decimal(amount: Option<real>)     // a BigDecimal property
    | Reference(present: bool)          // an association to another entity

  predicate IsNull(v: FieldValue) {
    match v
    case Text(t) => t.None?
    case Decimal(a) => a.None?
    case Reference(p) => !p
  }

  /** The three annotations the repository uses. */
  datatype Constraint =
    | NotEmpty                  // @NotEmpty: not null, and not of length 0
    | NotNull                   // @NotNull
    | Size(min: nat, max: nat)  // @Size: null is valid; otherwise min <= length <= max

  predicate Holds(c: Constraint, v: FieldValue) {
    match c
    case NotNull => !IsNull(v)
    case NotEmpty => !IsNull(v) && (v.Text? ==> |v.text.value| != 0)
    case Size(min, max) => IsNull(v) || !v.Text? || min <= |v.text.value| <= max
  }

  /** One annotation on one property, together with the property's current value. */
  datatype Rule = Rule(field: string, value: FieldValue, constraint: Constraint, message: string)

  /** A reported constraint violation: the property path and the annotation's message. */
  datatype Violation = Violation(field: string, message: string)

  predicate Fails(rule: Rule) {
    !Holds(rule.constraint, rule.value)
  }

  function ViolationOf(rule: Rule): Violation {
    Violation(rule.field, rule.message)
  }

  // Messages, as the annotations of the team and player classes spell them.
  const NameBlank := "name cannot be blank"
  const NameSize := "name size must be between 3 and 30 characters"
  const AcronymBlank := "acronym cannot be blank"
  const AcronymSize := "acronym size must be between 3 and 6 characters"
  const BudgetNull := "budget cannot be null"
  const PositionBlank := "position cannot be blank"
  const PositionSize := "position size must have 2 to 3 characters"
  const TeamNull := "player need to be assigned to a team"

  /**
   * Evaluates every rule of a table. The result is empty exactly when every
   * rule holds, and it never has more entries than the table has rules.
   */
  function Validate(rules: seq<Rule>): (r: seq<Violation>)
    ensures |r| <= |rules|
    ensures r == [] <==> forall i :: 0 <= i < |rules| ==> !Fails(rules[i])
  {
    if rules == [] then []
    else
      var rest := Validate(rules[1..]);
      assert forall i :: 1 <= i < |rules| ==> rules[i] == rules[1..][i - 1];
      if Fails(rules[0]) then [ViolationOf(rules[0])] + rest else rest
  }

  /** Every reported violation comes from a rule of the table that fails. */
  lemma {:induction false} ValidateSound(rules: seq<Rule>, k: nat)
    requires k < |Validate(rules)|
    ensures exists i :: 0 <= i < |rules| && Fails(rules[i]) && Validate(rules)[k] == ViolationOf(rules[i])
  {
    var rest := Validate(rules[1..]);
    if Fails(rules[0]) && k == 0 {
      assert Fails(rules[0]) && Validate(rules)[0] == ViolationOf(rules[0]);
    } else {
      var k' := if Fails(rules[0]) then k - 1 else k;
      assert Validate(rules)[k] == rest[k'];
      ValidateSound(rules[1..], k');
      var i :| 0 <= i < |rules[1..]| && Fails(rules[1..][i]) && rest[k'] == ViolationOf(rules[1..][i]);
      assert rules[1..][i] == rules[i + 1];
    }
  }

  /** Every failing rule of the table is reported, whatever the other rules do. */
  lemma {:induction false} ValidateComplete(rules: seq<Rule>, i: nat)
    requires i < |rules| && Fails(rules[i])
    ensures ViolationOf(rules[i]) in Validate(rules)
  {
    if i > 0 {
      assert rules[1..][i - 1] == rules[i];
      ValidateComplete(rules[1..], i - 1);
    }
  }

  /** No rule stops the others: validating two tables one after the other is validating their union. */
  lemma {:induction false} ValidateAppend(a: seq<Rule>, b: seq<Rule>)
    ensures Validate(a + b) == Validate(a) + Validate(b)
  {
    if a == [] {
      assert a + b == b;
    } else {
      assert (a + b)[0] == a[0];
      assert (a + b)[1..] == a[1..] + b;
      ValidateAppend(a[1..], b);
    }
  }

  /** The property paths of a list of violations, in order. */
  function FieldsOf(vs: seq<Violation>): (r: seq<string>)
    ensures |r| == |vs|
    ensures forall i :: 0 <= i < |vs| ==> r[i] == vs[i].field
  {
    if vs == [] then [] else [vs[0].field] + FieldsOf(vs[1..])
  }

  /** The violations reported on one property, in order. */
  function ViolationsOn(vs: seq<Violation>, field: string): (r: seq<Violation>)
    ensures forall v :: v in r <==> v in vs && v.field == field
    ensures |r| <= |vs|
  {
    if vs == [] then []
    else if vs[0].field == field then [vs[0]] + ViolationsOn(vs[1..], field)
    else ViolationsOn(vs[1..], field)
  }

  lemma {:induction false} ViolationsOnAppend(a: seq<Violation>, b: seq<Violation>, field: string)
    ensures ViolationsOn(a + b, field) == ViolationsOn(a, field) + ViolationsOn(b, field)
  {
    if a == [] {
      assert a + b == b;
    } else {
      assert (a + b)[0] == a[0];
      assert (a + b)[1..] == a[1..] + b;
      ViolationsOnAppend(a[1..], b, field);
    }
  }

  /** The two rules a string property gets from `@NotEmpty` and `@Size(min, max)`. */
  function TextRules(field: string, text: Option<string>, min: nat, max: nat, blank: string, size: string): seq<Rule> {
    [Rule(field, Text(text), NotEmpty, blank), Rule(field, Text(text), Size(min, max), size)]
  }

  /**
   * What `@NotEmpty` together with `@Size(min, max)` report, case by case: a
   * null string fails only the blank rule, an empty one fails both, and a
   * non-empty one fails the size rule exactly when its length is out of range.
   */
  function TextViolations(field: string, text: Option<string>, min: nat, max: nat, blank: string, size: string): (r: seq<Violation>)
    requires 1 <= min
    ensures r == [] <==> text.Some? && min <= |text.value| <= max
    ensures forall i :: 0 <= i < |r| ==> r[i].field == field
  {
    match text
    case None => [Violation(field, blank)]
    case Some(s) =>
      if s == "" then [Violation(field, blank), Violation(field, size)]
      else if min <= |s| <= max then []
      else [Violation(field, size)]
  }

  /** Evaluating the two rules of a string property gives the case table above. */
  lemma TextRulesReport(field: string, text: Option<string>, min: nat, max: nat, blank: string, size: string)
    requires 1 <= min
    ensures Validate(TextRules(field, text, min, max, blank, size)) == TextViolations(field, text, min, max, blank, size)
  {
    var rules := TextRules(field, text, min, max, blank, size);
    assert rules[1..][1..] == [];
  }

  /** What `@NotNull` reports. */
  function NullViolations(field: string, value: FieldValue, message: string): (r: seq<Violation>)
    ensures r == [] <==> !IsNull(value)
  {
    if IsNull(value) then [Violation(field, message)] else []
  }

  lemma NullRuleReports(field: string, value: FieldValue, message: string)
    ensures Validate([Rule(field, value, NotNull, message)]) == NullViolations(field, value, message)
  {
    assert [Rule(field, value, NotNull, message)][1..] == [];
  }
}
