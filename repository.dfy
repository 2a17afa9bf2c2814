/**
 * The team store behind the repository interface, as an in-memory sequence
 * of the persisted Team objects in insertion order. Saving a new team
 * appends it and assigns the next id; existsByName is membership by name;
 * findAll returns one page of the teams sorted ascending by one property.
 * The database collation for strings is the constant `collate`.
 */
module Repository {
  import opened Wrappers
  import opened Entity
  import opened Ordering
  import opened Paging

  /** Some stored team has exactly this name; a null name matches an unset one. */
  function HasName(ts: seq<Team>, name: Option<string>): (b: bool)
    reads set t | t in ts
    ensures b <==> exists i :: 0 <= i < |ts| && ts[i].name == name
  {
    if ts == [] then false
    else
      assert forall i :: 1 <= i < |ts| ==> ts[1..][i - 1] == ts[i];
      ts[0].name == name || HasName(ts[1..], name)
  }

  /**
   * A page of the sorted teams is itself ascending and holds only stored
   * teams.
   */
  lemma PageOfSorted(le: (string, string) -> bool, f: SortField, ts: seq<Team>, page: nat, size: nat)
    requires IsTotalPreorder(le)
    ensures Ascending(le, f, Slice(Sort(le, f, ts), page, size))
    ensures forall x :: x in Slice(Sort(le, f, ts), page, size) ==> x in ts
  {
    var sorted := Sort(le, f, ts);
    SortAscending(le, f, ts);
    SliceIsRun(sorted, page, size);
    if page * size < |sorted| {
      AscendingRun(le, f, sorted, page * size, Min((page + 1) * size, |sorted|));
    }
    forall x | x in Slice(sorted, page, size)
      ensures x in ts
    {
      assert x in multiset(sorted);
    }
  }

  class TeamRepository {
    const collate: (string, string) -> bool
    var teams: seq<Team>
    /** The id the next new team receives. */
    var nextId: int

    /**
     * The collation orders strings; every stored team is stored once, has an
     * id, the ids are pairwise different and all below the next one.
     */
    ghost predicate Valid()
      reads this, set t | t in teams
    {
      && IsTotalPreorder(collate)
      && (forall i, j :: 0 <= i < j < |teams| ==> teams[i] != teams[j])
      && (forall i :: 0 <= i < |teams| ==> teams[i].id.Some? && teams[i].id.value < nextId)
      && (forall i, j :: 0 <= i < j < |teams| ==> teams[i].id != teams[j].id)
    }

    constructor (collate: (string, string) -> bool)
      requires IsTotalPreorder(collate)
      ensures Valid() && this.collate == collate && teams == [] && nextId == 1
    {
      this.collate := collate;
      teams := [];
      nextId := 1;
    }

    /** save on a team not yet persisted: stored last, with the next id. */
    method Save(t: Team)
      requires Valid() && t.id == None
      modifies this, t`id
      ensures Valid()
      ensures teams == old(teams) + [t]
      ensures t.id == Some(old(nextId)) && nextId == old(nextId) + 1
    {
      assert t !in teams;
      t.id := Some(nextId);
      teams := teams + [t];
      nextId := nextId + 1;
    }

    /** existsByName: whether a stored team has exactly this name. */
    method ExistsByName(name: Option<string>) returns (b: bool)
      ensures b <==> exists i :: 0 <= i < |teams| && teams[i].name == name
    {
      b := HasName(teams, name);
    }

    /**
     * findAll(pageable): the requested page of the teams sorted ascending by
     * the request's property, with the request's number and size and the
     * number of stored teams.
     */
    method FindAll(request: PageRequest) returns (p: Page<Team>)
      requires Valid()
      ensures p == Page(Slice(Sort(collate, request.sort, teams), request.page, request.size),
                        request.page, request.size, |teams|)
      ensures Ascending(collate, request.sort, p.content)
      ensures |p.content| <= request.size
      ensures forall i :: 0 <= i < |p.content| ==> p.content[i] in teams
    {
      var sorted := Sort(collate, request.sort, teams);
      SortAscending(collate, request.sort, teams);
      var content := Slice(sorted, request.page, request.size);
      PageOfSorted(collate, request.sort, teams, request.page, request.size);
      p := Page(content, request.page, request.size, |teams|);
    }
  }
}
