/** The public review listing: build a filter from the query, sort the matching
    reviews, skip and limit them, and count the reviews of the queried owner.
    It only reads the collection, given here as its documents in natural order. */
module ReviewQueries {
  import opened JsValues
  import opened ErrorHandling
  import opened ReviewModel

  datatype Direction = Ascending | Descending

  /** The query string of a listing request. An empty string parameter is the
      same as an absent one; `reviewId` is the `r_id` parameter after the cast,
      an empty `r_id` being `Malformed("")`. */
  datatype ListQuery = ListQuery(
    userId: Option<string>,
    title: Option<string>,
    author: Option<string>,
    reviewId: Option<IdArg>,
    searchTerm: Option<string>,
    startIndex: Option<string>,
    pageSize: Option<string>,
    sortField: Option<SortField>,
    sortDirection: Option<string>)

  /** The response data: one page of reviews and the owner's review count. */
  datatype Listing = Listing(reviews: seq<Review>, totalReviews: nat)

  const DefaultStartIndex := 0
  const DefaultPageSize := 10
  const ReviewsFetched := "Reviews fetched successfully"

  // ---------------------------------------------------------------------------
  // The query's parameters and their defaults.
  // ---------------------------------------------------------------------------

  /** `Number.parseInt(startIndex) || 0` */
  function StartIndexOf(q: ListQuery): (n: int)
    ensures ParseParam(q.startIndex).None? ==> n == DefaultStartIndex
  {
    match ParseParam(q.startIndex)
    case None => DefaultStartIndex
    case Some(v) => if v != 0 then v else DefaultStartIndex
  }

  /** `Number.parseInt(pageSize) || 10`: zero, like NaN, falls back to 10. */
  function PageSizeOf(q: ListQuery): (n: int)
    ensures n != 0
    ensures ParseParam(q.pageSize) in {None, Some(0)} ==> n == DefaultPageSize
  {
    match ParseParam(q.pageSize)
    case None => DefaultPageSize
    case Some(v) => if v != 0 then v else DefaultPageSize
  }

  /** The number of documents `limit` lets through: a negative limit asks for
      one batch of that many documents. */
  function LimitOf(q: ListQuery): (n: nat)
    ensures n > 0
    ensures PageSizeOf(q) > 0 ==> n == PageSizeOf(q)
    ensures PageSizeOf(q) < 0 ==> n == -PageSizeOf(q)
  {
    var size := PageSizeOf(q);
    if size < 0 then -size else size
  }

  function SortFieldOf(q: ListQuery): SortField
  {
    if q.sortField.Some? then q.sortField.value else ByCreatedAt
  }

  function DirectionOf(q: ListQuery): Direction
  {
    if q.sortDirection == Some("asc") then Ascending else Descending
  }

  /** A well-formed number in the paging parameters is read as written; an
      absent or unreadable page size or a zero one is 10, the start 0; the sort
      is on the creation time, descending unless the direction is exactly "asc". */
  lemma QueryDefaults(q: ListQuery, start: int, size: int)
    requires q.startIndex == Some(Decimal(start)) && q.pageSize == Some(Decimal(size))
    ensures StartIndexOf(q) == start
    ensures PageSizeOf(q) == if size == 0 then DefaultPageSize else size
    ensures size > 0 ==> LimitOf(q) == size
    ensures q.sortField.None? ==> SortFieldOf(q) == ByCreatedAt
    ensures DirectionOf(q) == Ascending <==> q.sortDirection == Some("asc")
  {
    ParseIntOfDecimal(start, "");
    ParseIntOfDecimal(size, "");
    assert Decimal(start) + "" == Decimal(start);
    assert Decimal(size) + "" == Decimal(size);
  }

  // ---------------------------------------------------------------------------
  // The filter.
  // ---------------------------------------------------------------------------

  /** `r_id` is truthy: given and not the empty text, which adds no filter. */
  predicate IdGiven(q: ListQuery)
  {
    q.reviewId.Some? && q.reviewId.value != Malformed("")
  }

  /** Whether a review satisfies every filter the query supplies: exact matches
      on the owner, the title, the author and the id, and, for a search term, the
      term in the title or the author whatever the letter case. */
  predicate Matches(r: Review, q: ListQuery)
  {
    && (Truthy(q.userId) ==> r.userId == q.userId.value)
    && (Truthy(q.title) ==> r.title == q.title.value)
    && (Truthy(q.author) ==> r.author == q.author.value)
    && (IdGiven(q) ==> q.reviewId.value.Wellformed? && r.id == q.reviewId.value.id)
    && (Truthy(q.searchTerm) ==>
          ContainsIgnoringCase(r.title, q.searchTerm.value)
          || ContainsIgnoringCase(r.author, q.searchTerm.value))
  }

  /** The matching reviews, in the order of `docs`: each matching document as
      often as `docs` holds it, and nothing else. */
  function Filter(docs: seq<Review>, q: ListQuery): (r: seq<Review>)
    ensures forall x :: x in r <==> x in docs && Matches(x, q)
    ensures forall x :: multiset(r)[x] == if Matches(x, q) then multiset(docs)[x] else 0
    ensures |r| <= |docs|
  {
    if docs == [] then []
    else
      assert docs == [docs[0]] + docs[1..];
      (if Matches(docs[0], q) then [docs[0]] else []) + Filter(docs[1..], q)
  }

  /** Whether a review counts towards `totalReviews`: only the owner filter applies. */
  predicate Counted(r: Review, userId: Option<string>)
  {
    Truthy(userId) ==> r.userId == userId.value
  }

  function CountOwned(docs: seq<Review>, userId: Option<string>): (n: nat)
    ensures n <= |docs|
    ensures !Truthy(userId) ==> n == |docs|
  {
    if docs == [] then 0
    else (if Counted(docs[0], userId) then 1 else 0) + CountOwned(docs[1..], userId)
  }

  /** A query that filters on the owner only, or on nothing. */
  function OwnerQuery(userId: Option<string>): ListQuery
  {
    ListQuery(userId, None, None, None, None, None, None, None, None)
  }

  /** `totalReviews` is the number of reviews the owner filter alone keeps. */
  lemma {:induction false} CountOwnedIsOwnerFilter(docs: seq<Review>, userId: Option<string>)
    ensures CountOwned(docs, userId) == |Filter(docs, OwnerQuery(userId))|
  {
    if docs != [] {
      CountOwnedIsOwnerFilter(docs[1..], userId);
    }
  }

  /** The count is never below the number of reviews the listing's filter keeps,
      so it bounds the pages a client can ask for. */
  lemma {:induction false} CountBoundsMatches(docs: seq<Review>, q: ListQuery)
    ensures |Filter(docs, q)| <= CountOwned(docs, q.userId)
  {
    if docs != [] {
      CountBoundsMatches(docs[1..], q);
    }
  }

  // ---------------------------------------------------------------------------
  // The sort.
  // ---------------------------------------------------------------------------

  /** The position key of a review: its sort key, negated for a descending sort. */
  function Rank(r: Review, field: SortField, dir: Direction): int
  {
    match dir
    case Ascending => SortKey(r, field)
    case Descending => -SortKey(r, field)
  }

  predicate Sorted(s: seq<Review>, field: SortField, dir: Direction)
  {
    forall i, j :: 0 <= i < j < |s| ==> Rank(s[i], field, dir) <= Rank(s[j], field, dir)
  }

  function Insert(x: Review, s: seq<Review>, field: SortField, dir: Direction): (r: seq<Review>)
    requires Sorted(s, field, dir)
    ensures Sorted(r, field, dir)
    ensures multiset(r) == multiset(s) + multiset{x}
  {
    if s == [] || Rank(x, field, dir) <= Rank(s[0], field, dir) then [x] + s
    else
      var rest := Insert(x, s[1..], field, dir);
      assert s == [s[0]] + s[1..];
      assert forall y :: y in rest ==> Rank(s[0], field, dir) <= Rank(y, field, dir) by {
        forall y | y in rest
          ensures Rank(s[0], field, dir) <= Rank(y, field, dir)
        {
          assert y in multiset(s[1..]) + multiset{x};
        }
      }
      [s[0]] + rest
  }

  /** A stable sort of the reviews on a field in a direction. */
  function SortReviews(s: seq<Review>, field: SortField, dir: Direction): (r: seq<Review>)
    ensures Sorted(r, field, dir)
    ensures multiset(r) == multiset(s)
  {
    if s == [] then []
    else
      assert s == [s[0]] + s[1..];
      Insert(s[0], SortReviews(s[1..], field, dir), field, dir)
  }

  // ---------------------------------------------------------------------------
  // Skip and limit.
  // ---------------------------------------------------------------------------

  function Min(a: int, b: int): int { if a <= b then a else b }

  /** The window of `limit` elements that starts at `skip`. */
  function Page(s: seq<Review>, skip: nat, limit: nat): (r: seq<Review>)
    ensures |r| == if skip >= |s| then 0 else Min(limit, |s| - skip)
    ensures forall i :: 0 <= i < |r| ==> r[i] == s[skip + i]
    ensures multiset(r) <= multiset(s)
  {
    if skip >= |s| then []
    else
      var end := Min(skip + limit, |s|);
      assert s == s[..skip] + s[skip..end] + s[end..];
      s[skip..end]
  }

  /** A window of a sorted sequence is sorted and holds only its elements. */
  lemma PageOfSorted(s: seq<Review>, skip: nat, limit: nat, field: SortField, dir: Direction)
    requires Sorted(s, field, dir)
    ensures Sorted(Page(s, skip, limit), field, dir)
    ensures forall x :: x in Page(s, skip, limit) ==> x in s
  {
  }

  /** Consecutive pages join up: the page of `n` at `skip` followed by the page
      of `m` right after it is the page of `n + m` at `skip`. */
  lemma PagesJoin(s: seq<Review>, skip: nat, n: nat, m: nat)
    ensures Page(s, skip, n) + Page(s, skip + n, m) == Page(s, skip, n + m)
  {
    var joined := Page(s, skip, n) + Page(s, skip + n, m);
    var whole := Page(s, skip, n + m);
    assert |joined| == |whole|;
    forall i | 0 <= i < |joined|
      ensures joined[i] == whole[i]
    {
      if i >= |Page(s, skip, n)| {
        assert joined[i] == Page(s, skip + n, m)[i - |Page(s, skip, n)|];
      }
    }
  }

  // ---------------------------------------------------------------------------
  // The handler.
  // ---------------------------------------------------------------------------

  /** The reviews the query's filter keeps, in the query's sort order. */
  function Ranked(docs: seq<Review>, q: ListQuery): seq<Review>
  {
    SortReviews(Filter(docs, q), SortFieldOf(q), DirectionOf(q))
  }

  /** The page of the ranked reviews that starts at `skip`. */
  function PageOf(docs: seq<Review>, q: ListQuery, skip: nat): (page: seq<Review>)
    ensures |page| == if skip >= |Ranked(docs, q)| then 0 else Min(LimitOf(q), |Ranked(docs, q)| - skip)
    ensures forall i :: 0 <= i < |page| ==> page[i] == Ranked(docs, q)[skip + i]
    ensures forall x :: x in page ==> x in docs && Matches(x, q)
    ensures multiset(page) <= multiset(Filter(docs, q))
    ensures Sorted(page, SortFieldOf(q), DirectionOf(q))
  {
    var ranked := Ranked(docs, q);
    PageOfSorted(ranked, skip, LimitOf(q), SortFieldOf(q), DirectionOf(q));
    assert forall x :: x in ranked ==> x in multiset(Filter(docs, q));
    Page(ranked, skip, LimitOf(q))
  }

  /** getReviews. An `r_id` that is not an id fails to cast, and a negative
      start is refused by the store; both reach the error middleware without a
      status code. */
  function GetReviews(docs: seq<Review>, q: ListQuery): (r: Outcome<Listing>)
    ensures r.Raised? <==> (IdGiven(q) && q.reviewId.value.Malformed?) || StartIndexOf(q) < 0
    ensures r.Raised? ==> StatusCode(r) == 500
    ensures r.Done? ==> r.status == 200 && r.message == ReviewsFetched
    ensures r.Done? ==> |r.data.reviews| <= LimitOf(q)
    ensures r.Done? ==> r.data.reviews == [] || StartIndexOf(q) + |r.data.reviews| <= |Ranked(docs, q)|
    ensures r.Done? ==> |r.data.reviews| == LimitOf(q) || StartIndexOf(q) + |r.data.reviews| >= |Ranked(docs, q)|
    ensures r.Done? ==> forall i :: 0 <= i < |r.data.reviews| ==>
              r.data.reviews[i] == Ranked(docs, q)[StartIndexOf(q) + i]
    ensures r.Done? ==> forall x :: x in r.data.reviews ==> x in docs && Matches(x, q)
    ensures r.Done? ==> multiset(r.data.reviews) <= multiset(Filter(docs, q))
    ensures r.Done? ==> Sorted(r.data.reviews, SortFieldOf(q), DirectionOf(q))
    ensures r.Done? ==> r.data.totalReviews == CountOwned(docs, q.userId)
  {
    if IdGiven(q) && q.reviewId.value.Malformed? then
      Raised(Unexpected("Cast to ObjectId failed for value of path \"_id\""))
    else if StartIndexOf(q) < 0 then
      Raised(Unexpected("Skip value must be non-negative"))
    else
      Done(200, ReviewsFetched, Listing(PageOf(docs, q, StartIndexOf(q)), CountOwned(docs, q.userId)))
  }

  /** The count ignores every filter but the owner's, and the paging. */
  lemma CountIgnoresOtherFilters(docs: seq<Review>, q1: ListQuery, q2: ListQuery)
    requires q1.userId == q2.userId
    ensures GetReviews(docs, q1).Done? && GetReviews(docs, q2).Done? ==>
              GetReviews(docs, q1).data.totalReviews == GetReviews(docs, q2).data.totalReviews
  {
  }
}
