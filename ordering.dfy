/**
 * The ascending sort a page request asks the store for. String properties
 * are compared by the database's collation, which is not visible here and
 * is therefore a parameter: any total preorder on strings. Budgets compare
 * as numbers. Null values sort after every non-null one, as PostgreSQL does
 * for an ascending sort.
 */
module Ordering {
  import opened Wrappers
  import opened Entity

  /** The Team properties a caller may sort by. */
  datatype SortField = ByName | ByAcronym | ByBudget

  const SortFields: set<string> := {"name", "acronym", "budget"}

  /** The sort field a property name denotes; exact, case-sensitive names only. */
  function SortFieldOf(property: string): (r: Option<SortField>)
    ensures r.Some? <==> property in SortFields
  {
    if property == "name" then Some(ByName)
    else if property == "acronym" then Some(ByAcronym)
    else if property == "budget" then Some(ByBudget)
    else None
  }

  /** A collation: total and transitive, ties allowed. */
  ghost predicate IsTotalPreorder(le: (string, string) -> bool) {
    && (forall a, b :: le(a, b) || le(b, a))
    && (forall a, b, c :: le(a, b) && le(b, c) ==> le(a, c))
  }

  datatype SortKey = TextKey(text: Option<string>) | AmountKey(amount: Option<real>)

  /** The value of the sort property of a team. */
  function KeyOf(t: Team, f: SortField): SortKey
    reads t`name, t`acronym, t`budget
  {
    match f
    case ByName => TextKey(t.name)
    case ByAcronym => TextKey(t.acronym)
    case ByBudget => AmountKey(t.budget)
  }

  /** Ascending order on sort keys, nulls last. Keys of one sort are all of one kind. */
  predicate KeyLeq(le: (string, string) -> bool, x: SortKey, y: SortKey) {
    match (x, y)
    case (TextKey(a), TextKey(b)) =>
      if a.None? then b.None? else b.None? || le(a.value, b.value)
    case (AmountKey(a), AmountKey(b)) =>
      if a.None? then b.None? else b.None? || a.value <= b.value
    case (TextKey(_), AmountKey(_)) => true
    case (AmountKey(_), TextKey(_)) => false
  }

  lemma KeyLeqTotal(le: (string, string) -> bool, x: SortKey, y: SortKey)
    requires IsTotalPreorder(le)
    ensures KeyLeq(le, x, y) || KeyLeq(le, y, x)
  {
  }

  lemma KeyLeqTransitive(le: (string, string) -> bool, x: SortKey, y: SortKey, z: SortKey)
    requires IsTotalPreorder(le)
    requires KeyLeq(le, x, y) && KeyLeq(le, y, z)
    ensures KeyLeq(le, x, z)
  {
  }

  /** Teams ascending by the sort property. */
  ghost predicate Ascending(le: (string, string) -> bool, f: SortField, s: seq<Team>)
    reads set x | x in s
  {
    forall i, j :: 0 <= i < j < |s| ==> KeyLeq(le, KeyOf(s[i], f), KeyOf(s[j], f))
  }

  /** Inserts `t` before the first team whose key is not below its own. */
  function Insert(le: (string, string) -> bool, f: SortField, t: Team, s: seq<Team>): (r: seq<Team>)
    reads t, set x | x in s
    ensures multiset(r) == multiset(s) + multiset{t}
  {
    if s == [] then [t]
    else if KeyLeq(le, KeyOf(t, f), KeyOf(s[0], f)) then [t] + s
    else
      assert s == [s[0]] + s[1..];
      [s[0]] + Insert(le, f, t, s[1..])
  }

  /** The stored teams in the order of the sort (insertion sort). */
  function Sort(le: (string, string) -> bool, f: SortField, s: seq<Team>): (r: seq<Team>)
    reads set x | x in s
    ensures multiset(r) == multiset(s)
  {
    if s == [] then []
    else
      var sorted := Sort(le, f, s[1..]);
      assert s == [s[0]] + s[1..];
      SameMembers(sorted, s[1..]);
      Insert(le, f, s[0], sorted)
  }

  lemma SameMembers(a: seq<Team>, b: seq<Team>)
    requires multiset(a) == multiset(b)
    ensures forall x :: x in a ==> x in b
  {
    forall x | x in a
      ensures x in b
    {
      assert x in multiset(a);
    }
  }

  lemma {:induction false} InsertAscending(le: (string, string) -> bool, f: SortField, t: Team, s: seq<Team>)
    requires IsTotalPreorder(le) && Ascending(le, f, s)
    ensures Ascending(le, f, Insert(le, f, t, s))
  {
    if s != [] && !KeyLeq(le, KeyOf(t, f), KeyOf(s[0], f)) {
      InsertAscending(le, f, t, s[1..]);
      InsertBehind(le, f, t, s);
    } else if s != [] {
      InsertInFront(le, f, t, s);
    }
  }

  /** Placing `t` in front of an ascending list whose head it does not exceed keeps it ascending. */
  lemma InsertInFront(le: (string, string) -> bool, f: SortField, t: Team, s: seq<Team>)
    requires IsTotalPreorder(le) && Ascending(le, f, s)
    requires s != [] && KeyLeq(le, KeyOf(t, f), KeyOf(s[0], f))
    ensures Ascending(le, f, [t] + s)
  {
    var r := [t] + s;
    forall i, j | 0 <= i < j < |r|
      ensures KeyLeq(le, KeyOf(r[i], f), KeyOf(r[j], f))
    {
      if i == 0 {
        assert r[j] == s[j - 1];
        if j > 1 {
          KeyLeqTransitive(le, KeyOf(t, f), KeyOf(s[0], f), KeyOf(s[j - 1], f));
        }
      } else {
        assert r[i] == s[i - 1] && r[j] == s[j - 1];
      }
    }
  }

  /**
   * When `t` goes behind the head, the head stays first: it is not above `t`
   * nor above any other team of the list.
   */
  lemma InsertBehind(le: (string, string) -> bool, f: SortField, t: Team, s: seq<Team>)
    requires IsTotalPreorder(le) && Ascending(le, f, s)
    requires s != [] && !KeyLeq(le, KeyOf(t, f), KeyOf(s[0], f))
    requires Ascending(le, f, Insert(le, f, t, s[1..]))
    ensures Ascending(le, f, [s[0]] + Insert(le, f, t, s[1..]))
  {
    var rest := Insert(le, f, t, s[1..]);
    KeyLeqTotal(le, KeyOf(t, f), KeyOf(s[0], f));
    forall x | x in rest
      ensures KeyLeq(le, KeyOf(s[0], f), KeyOf(x, f))
    {
      assert x in multiset(rest);
      if x != t {
        assert x in multiset(s[1..]);
        var j :| 0 <= j < |s[1..]| && s[1..][j] == x;
        assert s[j + 1] == x;
      }
    }
    HeadFirst(le, f, s[0], rest);
  }

  /** A team not above any member of an ascending list may head it. */
  lemma HeadFirst(le: (string, string) -> bool, f: SortField, h: Team, rest: seq<Team>)
    requires Ascending(le, f, rest)
    requires forall x :: x in rest ==> KeyLeq(le, KeyOf(h, f), KeyOf(x, f))
    ensures Ascending(le, f, [h] + rest)
  {
    var r := [h] + rest;
    forall i, j | 0 <= i < j < |r|
      ensures KeyLeq(le, KeyOf(r[i], f), KeyOf(r[j], f))
    {
      if i == 0 {
        assert r[j] == rest[j - 1];
      } else {
        assert r[i] == rest[i - 1] && r[j] == rest[j - 1];
      }
    }
  }

  /** The sort yields an ascending permutation of the stored teams. */
  lemma {:induction false} SortAscending(le: (string, string) -> bool, f: SortField, s: seq<Team>)
    requires IsTotalPreorder(le)
    ensures Ascending(le, f, Sort(le, f, s))
    ensures multiset(Sort(le, f, s)) == multiset(s)
  {
    if s != [] {
      SortAscending(le, f, s[1..]);
      InsertAscending(le, f, s[0], Sort(le, f, s[1..]));
    }
  }

  /** Any contiguous run of an ascending sequence is ascending. */
  lemma AscendingRun(le: (string, string) -> bool, f: SortField, s: seq<Team>, lo: int, hi: int)
    requires 0 <= lo <= hi <= |s| && Ascending(le, f, s)
    ensures Ascending(le, f, s[lo..hi])
  {
    var run := s[lo..hi];
    forall i, j | 0 <= i < j < |run|
      ensures KeyLeq(le, KeyOf(run[i], f), KeyOf(run[j], f))
    {
      assert run[i] == s[lo + i] && run[j] == s[lo + j];
    }
  }
}
