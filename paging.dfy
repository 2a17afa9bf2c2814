/**
 * Offset paging as the data-access library does it: a page request is a
 * zero-based page number, a page size and a sort field; a page is the slice
 * of the sorted rows that request selects, with the request's number and
 * size and the total number of rows.
 */
module Paging {
  import opened Exceptions
  import opened Ordering

  datatype PageRequest = PageRequest(page: nat, size: nat, sort: SortField)

  datatype Page<T> = Page(content: seq<T>, number: nat, size: nat, totalElements: nat)

  /**
   * PageRequest.of: a negative page number is refused first, then a size
   * below one, each with its own IllegalArgumentException message.
   */
  function PageRequestOf(page: int, size: int, sort: SortField): (r: Outcome<PageRequest>)
    ensures r.Returned? <==> 0 <= page && 1 <= size
    ensures r.Returned? ==> r.value == PageRequest(page, size, sort)
    ensures page < 0 ==> r == Thrown(IllegalArgument(PageIndexNegative))
    ensures 0 <= page && size < 1 ==> r == Thrown(IllegalArgument(PageSizeTooSmall))
  {
    if page < 0 then Thrown(IllegalArgument(PageIndexNegative))
    else if size < 1 then Thrown(IllegalArgument(PageSizeTooSmall))
    else Returned(PageRequest(page, size, sort))
  }

  function Min(a: int, b: int): int {
    if a <= b then a else b
  }

  /** The rows of page `page`: indices page*size up to, not including, min((page+1)*size, |s|). */
  function Slice<T>(s: seq<T>, page: nat, size: nat): (r: seq<T>)
    ensures |r| <= size
    ensures |r| == if page * size < |s| then Min(size, |s| - page * size) else 0
    ensures forall i :: 0 <= i < |r| ==> page * size + i < |s| && r[i] == s[page * size + i]
  {
    if page * size < |s| then s[page * size .. Min((page + 1) * size, |s|)] else []
  }

  /** A non-empty page is the run of rows from its offset, and an empty page lies past the end. */
  lemma SliceIsRun<T>(s: seq<T>, page: nat, size: nat)
    ensures 0 <= page * size
    ensures page * size < |s| ==>
      && page * size <= Min((page + 1) * size, |s|)
      && Slice(s, page, size) == s[page * size .. Min((page + 1) * size, |s|)]
    ensures page * size >= |s| ==> Slice(s, page, size) == []
  {
    assert (page + 1) * size == page * size + size;
  }

  /** Paging loses no row: row k of the sorted rows is entry k % size of page k / size. */
  lemma PagesCover<T>(s: seq<T>, size: nat, k: nat)
    requires 1 <= size && k < |s|
    ensures k % size < |Slice(s, k / size, size)|
    ensures Slice(s, k / size, size)[k % size] == s[k]
  {
    var p := k / size;
    assert p * size + k % size == k;
    assert p * size <= k;
  }

  /** Two different pages of one request share no row position. */
  lemma PagesDisjoint<T>(s: seq<T>, size: nat, p: nat, q: nat, i: nat, j: nat)
    requires p < q
    requires i < |Slice(s, p, size)| && j < |Slice(s, q, size)|
    ensures p * size + i < q * size + j
  {
    MulMonotone(p + 1, q, size);
    assert (p + 1) * size == p * size + size;
  }

  lemma MulMonotone(a: nat, b: nat, c: nat)
    requires a <= b
    ensures a * c <= b * c
  {
    assert b * c == a * c + (b - a) * c;
  }
}
