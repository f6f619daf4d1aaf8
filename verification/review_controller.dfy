/** The review collection and the handlers that change it. Each handler checks,
    in a fixed order, that the request is complete, that the review exists and
    that the caller owns it; every failure leaves the collection as it was and
    every success touches exactly one review. The caller's id is the one the
    token check put on the request. */
module ReviewController {
  import opened JsValues
  import opened ErrorHandling
  import opened ReviewModel
  import opened ReviewQueries

  /** The body of a create or update request. */
  datatype ReviewInput = ReviewInput(
    title: Option<string>,
    author: Option<string>,
    rating: Option<int>,
    reviewText: Option<string>)

  /** `title && author && rating && reviewText`: a rating of 0 is missing too. */
  predicate Complete(input: ReviewInput)
  {
    Truthy(input.title) && Truthy(input.author) && TruthyNumber(input.rating) && Truthy(input.reviewText)
  }

  const ReviewCreated := "Review created successfully"
  const ReviewDeleted := "Review deleted successfully"
  const ReviewUpdated := "Review updated successfully"
  const ReviewNotFound := "Review not found"
  const NotAllowedToDelete := "You're not allowed to delete this review"
  const NotAllowedToUpdate := "You're not allowed to update this review"

  /** The document a create request builds, owned by the caller. */
  function Draft(input: ReviewInput, caller: string, id: ReviewId, now: nat): Review
    requires Complete(input)
  {
    Review(id, input.title.value, input.author.value, input.rating.value, input.reviewText.value,
           caller, now, now)
  }

  /** The document after an update: the four fields replaced, the update time
      refreshed, the id, the owner and the creation time kept. */
  function Revised(r: Review, input: ReviewInput, now: nat): Review
    requires Complete(input)
  {
    r.(title := input.title.value, author := input.author.value, rating := input.rating.value,
       reviewText := input.reviewText.value, updatedAt := now)
  }

  /** An update stores the rating it is given: a review the schema accepted can
      end up with a rating outside 1..5, since no validator runs on update. */
  lemma UpdateKeepsGivenRating(r: Review, input: ReviewInput, now: nat)
    requires Complete(input)
    ensures Revised(r, input, now).rating == input.rating.value
    ensures input.rating.value > MaxRating ==> !SchemaValid(Revised(r, input, now))
  {
  }

  predicate Distinct(s: seq<ReviewId>)
  {
    forall i, j :: 0 <= i < j < |s| ==> s[i] != s[j]
  }

  lemma DistinctTail(s: seq<ReviewId>)
    requires s != [] && Distinct(s)
    ensures Distinct(s[1..]) && s[0] !in s[1..]
  {
    forall k | 0 <= k < |s| - 1
      ensures s[1..][k] != s[0]
    {
      assert s[1..][k] == s[k + 1];
    }
  }

  /** The sequence with every occurrence of `x` taken out. */
  function Without(s: seq<ReviewId>, x: ReviewId): (r: seq<ReviewId>)
    ensures forall y :: y in r <==> y in s && y != x
    ensures Distinct(s) ==> Distinct(r)
  {
    if s == [] then []
    else
      var rest := Without(s[1..], x);
      DistinctCons(s, rest);
      if s[0] == x then rest else [s[0]] + rest
  }

  /** Putting the head of a repetition-free sequence in front of a
      repetition-free selection of its tail keeps it free of repetitions. */
  lemma DistinctCons(s: seq<ReviewId>, rest: seq<ReviewId>)
    requires s != []
    requires forall y :: y in rest ==> y in s[1..]
    requires Distinct(s) ==> Distinct(rest)
    ensures Distinct(s) ==> Distinct([s[0]] + rest)
  {
    if Distinct(s) {
      DistinctTail(s);
    }
  }

  function Elements(s: seq<ReviewId>): set<ReviewId>
  {
    set x | x in s
  }

  /** A sequence without repetitions has as many elements as its set. */
  lemma {:induction false} DistinctCardinality(s: seq<ReviewId>)
    requires Distinct(s)
    ensures |Elements(s)| == |s|
  {
    if s != [] {
      DistinctTail(s);
      DistinctCardinality(s[1..]);
      assert Elements(s) == {s[0]} + Elements(s[1..]);
    }
  }

  /** The documents of `docs` in the order `ids` lists them. */
  function Listed(docs: map<ReviewId, Review>, ids: seq<ReviewId>): (s: seq<Review>)
    requires forall id :: id in ids ==> id in docs
    ensures |s| == |ids|
    ensures forall i :: 0 <= i < |ids| ==> s[i] == docs[ids[i]]
  {
    if ids == [] then [] else [docs[ids[0]]] + Listed(docs, ids[1..])
  }

  class ReviewCollection {
    var docs: map<ReviewId, Review>
    var order: seq<ReviewId>  // natural order of the collection
    var nextId: ReviewId      // the id the next saved review receives
    var clock: nat            // the next timestamp

    ghost predicate Valid()
      reads this
    {
      && Distinct(order)
      && (forall id :: id in order <==> id in docs)
      && (forall id :: id in docs ==>
            docs[id].id == id && id < nextId && docs[id].createdAt <= docs[id].updatedAt < clock)
    }

    constructor ()
      ensures Valid() && docs == map[] && order == []
    {
      docs, order, nextId, clock := map[], [], 0, 0;
    }

    /** The documents in natural order, as the listing reads them: every stored
        review exactly once. */
    function Documents(): (s: seq<Review>)
      reads this
      requires Valid()
      ensures |s| == |docs|
      ensures forall r :: r in s <==> r in docs.Values
    {
      DistinctCardinality(order);
      assert Elements(order) == docs.Keys;
      Listed(docs, order)
    }

    /** createReview */
    method CreateReview(input: ReviewInput, caller: string) returns (r: Outcome<Review>)
      requires Valid()
      modifies this
      ensures Valid()
      ensures !Complete(input) ==> r == Raised(HttpError(400, AllFieldsRequired)) && unchanged(this)
      ensures Complete(input) && !SchemaValid(Draft(input, caller, old(nextId), old(clock))) ==>
                r.Raised? && StatusCode(r) == 500 && unchanged(this)
      ensures Complete(input) && SchemaValid(Draft(input, caller, old(nextId), old(clock))) ==>
                && r == Done(201, ReviewCreated, Draft(input, caller, old(nextId), old(clock)))
                && old(nextId) !in old(docs)
                && docs == old(docs)[old(nextId) := r.data]
                && order == old(order) + [old(nextId)]
    {
      if !Complete(input) {
        return Raised(HttpError(400, AllFieldsRequired));
      }
      var review := Draft(input, caller, nextId, clock);
      if Violations(review) != {} {
        // save() runs the schema's validators; their error carries no status code
        return Raised(Unexpected("Review validation failed"));
      }
      assert nextId !in order;
      docs := docs[nextId := review];
      order := order + [nextId];
      nextId := nextId + 1;
      clock := clock + 1;
      r := Done(201, ReviewCreated, review);
    }

    /** deleteReview: existence is checked before ownership. */
    method DeleteReview(rid: IdArg, caller: string) returns (r: Outcome<()>)
      requires Valid()
      modifies this
      ensures Valid()
      ensures rid.Malformed? ==> r.Raised? && StatusCode(r) == 500 && unchanged(this)
      ensures rid.Wellformed? && rid.id !in old(docs) ==>
                r == Raised(HttpError(404, ReviewNotFound)) && unchanged(this)
      ensures rid.Wellformed? && rid.id in old(docs) && caller != old(docs)[rid.id].userId ==>
                r == Raised(HttpError(403, NotAllowedToDelete)) && unchanged(this)
      ensures rid.Wellformed? && rid.id in old(docs) && caller == old(docs)[rid.id].userId ==>
                && r == Done(200, ReviewDeleted, ())
                && docs == old(docs) - {rid.id}
                && order == Without(old(order), rid.id)
                && nextId == old(nextId) && clock == old(clock)
    {
      if rid.Malformed? {
        return Raised(Unexpected("Cast to ObjectId failed for value of path \"_id\""));
      }
      if rid.id !in docs {
        return Raised(HttpError(404, ReviewNotFound));
      }
      if caller != docs[rid.id].userId {
        return Raised(HttpError(403, NotAllowedToDelete));
      }
      docs := docs - {rid.id};
      order := Without(order, rid.id);
      r := Done(200, ReviewDeleted, ());
    }

    /** updateReview: the body is checked before the id is even looked at. The
        update runs no validators, so the rating is stored as given. */
    method UpdateReview(rid: IdArg, input: ReviewInput, caller: string) returns (r: Outcome<Review>)
      requires Valid()
      modifies this
      ensures Valid()
      ensures !Complete(input) ==> r == Raised(HttpError(400, AllFieldsRequired)) && unchanged(this)
      ensures Complete(input) && rid.Malformed? ==> r.Raised? && StatusCode(r) == 500 && unchanged(this)
      ensures Complete(input) && rid.Wellformed? && rid.id !in old(docs) ==>
                r == Raised(HttpError(404, ReviewNotFound)) && unchanged(this)
      ensures Complete(input) && rid.Wellformed? && rid.id in old(docs) && caller != old(docs)[rid.id].userId ==>
                r == Raised(HttpError(403, NotAllowedToUpdate)) && unchanged(this)
      ensures Complete(input) && rid.Wellformed? && rid.id in old(docs) && caller == old(docs)[rid.id].userId ==>
                && r == Done(200, ReviewUpdated, Revised(old(docs)[rid.id], input, old(clock)))
                && docs == old(docs)[rid.id := r.data]
                && order == old(order) && nextId == old(nextId) && clock == old(clock) + 1
    {
      if !Complete(input) {
        return Raised(HttpError(400, AllFieldsRequired));
      }
      if rid.Malformed? {
        return Raised(Unexpected("Cast to ObjectId failed for value of path \"_id\""));
      }
      if rid.id !in docs {
        return Raised(HttpError(404, ReviewNotFound));
      }
      if caller != docs[rid.id].userId {
        return Raised(HttpError(403, NotAllowedToUpdate));
      }
      var updated := Revised(docs[rid.id], input, clock);
      docs := docs[rid.id := updated];
      clock := clock + 1;
      r := Done(200, ReviewUpdated, updated);
    }
  }

  /** Listing the collection without an owner filter reports every stored
      review in `totalReviews`, whatever the other filters and the paging. */
  lemma TotalCountsEveryReview(store: ReviewCollection, q: ListQuery)
    requires store.Valid() && !Truthy(q.userId)
    ensures GetReviews(store.Documents(), q).Done? ==>
              GetReviews(store.Documents(), q).data.totalReviews == |store.docs|
  {
  }
}
