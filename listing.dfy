/** The paginated listing shared by rooms and cameras: matching rows ordered
    by name, `skip: page > 0 ? (page - 1) * pageSize : 0`, `take: pageSize`,
    and a 404 whenever the page comes back empty. The envelope is thrown,
    success included. */
module Listing {
  import opened Optional
  import opened Text
  import opened Envelope
  import opened Sorting
  import opened Pagination

  /** The page the query asks for, of the rows ordered by `key`. */
  function GuardedPage<T>(rows: seq<T>, q: Query, key: T -> string): seq<T>
    requires ValidQuery(q)
  {
    Slice(SortBy(rows, key, LexLess), GuardedSkip(q.page, q.pageSize), q.pageSize)
  }

  /** The page is ordered, holds at most `pageSize` of the rows, and is empty
      exactly when it lies past the last page. */
  lemma GuardedPageFacts<T>(rows: seq<T>, q: Query, key: T -> string)
    requires ValidQuery(q)
    ensures var page := GuardedPage(rows, q, key);
      && |page| <= q.pageSize
      && SortedBy(page, key, LexLess)
      && (forall v :: v in page ==> v in rows)
      && (page == [] <==> q.page > TotalPages(|rows|, q.pageSize))
  {
    LexLessStrictTotal();
    SortByCorrect(rows, key, LexLess);
    var ordered := SortBy(rows, key, LexLess);
    SliceKeepsOrder(ordered, GuardedSkip(q.page, q.pageSize), q.pageSize, key, LexLess);
    forall v | v in ordered ensures v in rows {
      assert v in multiset(ordered);
    }
    SkipFormsAgree(q);
    PageEmptyIffPastEnd(ordered, q.page, q.pageSize);
  }

  /** The listing's response: 404 NO_DATA_FOUND on an empty page, otherwise
      a thrown 200 with the page and `{page, pageSize, totalPages, total, search}`. */
  function GuardedListing<T>(rows: seq<T>, q: Query, key: T -> string): (r: Response<T>)
    requires ValidQuery(q)
    ensures r.Thrown? && r.code == r.body.status
    ensures r.IsError(NOT_FOUND) <==> q.page > TotalPages(|rows|, q.pageSize)
    ensures !r.IsError(NOT_FOUND) ==>
      && r.code == OK && r.body.ok
      && r.body.data == Some(GuardedPage(rows, q, key))
      && 0 < |GuardedPage(rows, q, key)| <= q.pageSize
      && SortedBy(GuardedPage(rows, q, key), key, LexLess)
      && (forall v :: v in GuardedPage(rows, q, key) ==> v in rows)
      && r.body.meta == Some(Meta(q.page, q.pageSize, TotalPages(|rows|, q.pageSize), |rows|, q.search))
  {
    GuardedPageFacts(rows, q, key);
    var page := GuardedPage(rows, q, key);
    var total := |rows|;
    var totalPages := TotalPages(total, q.pageSize);
    if page == [] || total == 0 || totalPages == 0 then Fail(NOT_FOUND, Key(NoDataFound))
    else Success(OK, None, Some(page), Some(Meta(q.page, q.pageSize, totalPages, total, q.search)), HttpException)
  }
}
