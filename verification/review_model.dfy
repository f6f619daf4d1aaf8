/** The review record and the rules its schema enforces when a new document is
    saved: title, author and review text are required strings, the rating is a
    required number between 1 and 5, the owner id is a required string, and the
    store stamps every document with creation and update times. */
module ReviewModel {

  type ReviewId = nat

  /** A stored review. The timestamps are readings of the store's clock. */
  datatype Review = Review(
    id: ReviewId,
    title: string,
    author: string,
    rating: int,
    reviewText: string,
    userId: string,
    createdAt: nat,
    updatedAt: nat)

  /** A review id as it arrives in a route parameter or query: it either casts to
      an id or the cast fails. */
  datatype IdArg = Wellformed(id: ReviewId) | Malformed(text: string)

  const MinRating := 1
  const MaxRating := 5

  /** The schema's rules. A required string may not be empty. */
  predicate SchemaValid(r: Review)
  {
    && r.title != ""
    && r.author != ""
    && MinRating <= r.rating <= MaxRating
    && r.reviewText != ""
    && r.userId != ""
  }

  /** The paths whose validators fail when a document is saved. */
  function Violations(r: Review): (paths: set<string>)
    ensures paths == {} <==> SchemaValid(r)
    ensures paths <= {"title", "author", "rating", "reviewText", "userId"}
    ensures "rating" in paths <==> r.rating < MinRating || MaxRating < r.rating
  {
    (if r.title == "" then {"title"} else {})
    + (if r.author == "" then {"author"} else {})
    + (if r.rating < MinRating || MaxRating < r.rating then {"rating"} else {})
    + (if r.reviewText == "" then {"reviewText"} else {})
    + (if r.userId == "" then {"userId"} else {})
  }

  /** The fields a listing can be sorted on, all of them numeric. */
  datatype SortField = ByCreatedAt | ByUpdatedAt | ByRating | ById

  function SortKey(r: Review, field: SortField): int
  {
    match field
    case ByCreatedAt => r.createdAt
    case ByUpdatedAt => r.updatedAt
    case ByRating => r.rating
    case ById => r.id
  }
}
