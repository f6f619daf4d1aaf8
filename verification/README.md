# ReviewMe backend — a Dafny model of its request handlers

ReviewMe is a small Express/Mongoose backend. Users sign up and sign in, and
signed-in users create, update and delete book reviews. Anyone can list reviews
with filters, a search term, a sort and offset paging. This project models the
handlers' decision logic over the two collections and proves what they promise:

- the order in which each handler checks its request;
- the status code of every failure;
- that every failure leaves the collections unchanged;
- what exactly a success changes.

Modules, one per source concern:

- `JsValues`: optional request fields and JavaScript truthiness (`""` and `0`
  are missing). Also `Number.parseInt`, and the case-insensitive search match.
- `ErrorHandling`: the errors a handler passes to `next`, and the terminal
  middleware that answers with the error's status code, or 500 when it has none.
- `ReviewModel`: the review record and its schema rules.
- `ReviewQueries`: `getReviews` as pure functions over the documents in natural
  order. It builds the filter, sorts, skips, limits and counts.
- `ReviewController`: the review collection as a class. It holds a map from
  review id to review plus the natural order of the ids. `CreateReview`,
  `DeleteReview` and `UpdateReview` are methods that change it.
- `AuthController`: the user collection as a class with the `SignUp` method.
  `SignIn` and `SignOut` are functions: they read the users and only write
  cookies. bcrypt is given as a `Hasher` (hash, compare) with the property
  `Sound`. The token generator is given as a function.

The caller's id on create, update and delete is the one the token middleware
attached to the request (Routes/review.route.js:12-15). Here it is a parameter.

Behaviour of the code that the model keeps, though a reader might expect
otherwise:

- A duplicate email on sign-up is answered with 400 "Email already exists",
  not a 409 conflict.
- Sign-in with an unknown email is answered with 404, not with the 401 of a
  wrong password.
- Creating a review whose rating is outside 1..5 (for example 7 or -1) passes
  the handler's own check. The schema's validator then rejects it on save. That
  error has no status code, so the client sees 500, not a 400 validation error.
- Updating a review runs no validators, so any non-zero rating is stored as
  given. The 1..5 bound holds only for reviews as created.
- `totalReviews` counts the reviews of the queried owner, or all reviews. It
  ignores every other filter.

## Model

| member | source | states |
|---|---|---|
| `JsValues.ParseInt` | Controllers/review.controller.js:33-34 | a text that does not start (after white space) with a sign or a digit parses as NaN |
| `JsValues.DigitRun` | Controllers/review.controller.js:33-34 | parseInt reads the longest prefix of digits: all of it are digits and the next character is not |
| `JsValues.ParseIntOfDecimal` | Controllers/review.controller.js:33-34 | parseInt reads back the decimal numeral of every integer, also when non-numeric text follows it ("12px" and "12x" are 12; only "0" followed by x is read as hexadecimal) |
| `JsValues.MatchIgnoringCase` | Controllers/review.controller.js:43-48 | a search term matches a text it occurs in, and a text that differs from it only in letter case ("dune" finds "Dune") |
| `ErrorHandling.StatusOf` | index.js:26-27 | an error built with a non-zero status code is answered with that code; any other error, status code 0 included, with 500; never 0 |
| `ErrorHandling.Envelope` | index.js:26-34 | the error body has success false, the status code, and the error's message when it is non-empty, otherwise exactly "Internal Server Error" |
| `ReviewModel.Violations` | Modals/review.modal.js:3-26 | a review saves without a validation error exactly when title, author, review text and owner are non-empty and 1 <= rating <= 5; "rating" fails exactly outside that range |
| `ReviewQueries.StartIndexOf` | Controllers/review.controller.js:33 | an absent or unparsable start index is 0 |
| `ReviewQueries.PageSizeOf` | Controllers/review.controller.js:34 | the page size is never 0: absent, unparsable or 0 all become 10 |
| `ReviewQueries.LimitOf` | Controllers/review.controller.js:52 | the limit applied is positive: the page size, or its magnitude when negative |
| `ReviewQueries.QueryDefaults` | Controllers/review.controller.js:33-36 | well-formed numbers are used as given, a page size of 0 becomes 10 and a positive one is the limit applied; the sort field defaults to the creation time; the direction is ascending exactly when it is "asc" |
| `ReviewQueries.Filter` | Controllers/review.controller.js:38-49 | a review is kept exactly when it is a document and satisfies every supplied filter (owner, title, author, non-empty id, search term in title or author), and as many times as the documents hold it |
| `ReviewQueries.CountOwned` | Controllers/review.controller.js:54-56 | the count is at most the number of documents, and is all of them when no owner is given |
| `ReviewQueries.CountOwnedIsOwnerFilter` | Controllers/review.controller.js:54-56 | `totalReviews` is the number of reviews a listing filtered on the owner alone keeps |
| `ReviewQueries.CountBoundsMatches` | Controllers/review.controller.js:38-56 | the number of reviews matching the listing's filter never exceeds `totalReviews` |
| `ReviewQueries.Insert` | Controllers/review.controller.js:50 | inserting into a sorted sequence keeps it sorted and adds exactly that review |
| `ReviewQueries.SortReviews` | Controllers/review.controller.js:50 | the result is sorted on the field in the direction and is a permutation of the input |
| `ReviewQueries.Page` | Controllers/review.controller.js:51-52 | skip then limit: the window has min(limit, remaining) elements, the i-th being element skip + i, none taken more often than the sequence holds it |
| `ReviewQueries.PageOfSorted` | Controllers/review.controller.js:50-52 | a page of a sorted sequence is sorted and holds only its elements |
| `ReviewQueries.PagesJoin` | Controllers/review.controller.js:51-52 | consecutive pages of n and m join into the page of n + m: offset paging neither skips nor repeats a review |
| `ReviewQueries.PageOf` | Controllers/review.controller.js:38-52 | the page holds matching documents only, no more often than the filter keeps them, in sort order, the i-th being the (skip + i)-th matching review |
| `ReviewQueries.GetReviews` | Controllers/review.controller.js:31-67 | fails with 500 exactly for a non-empty `r_id` that does not cast or a negative start; otherwise 200 with at most `limit` reviews: the window at the start index of the matching reviews in sort order, each one a stored review that passes every filter, none repeated, and `totalReviews` as the owner-only count |
| `ReviewQueries.CountIgnoresOtherFilters` | Controllers/review.controller.js:54-56 | two listings with the same owner filter report the same `totalReviews`, whatever their other filters and paging |
| `ReviewController.Without` | Controllers/review.controller.js:83 | removing an id keeps exactly the other ids and keeps them free of repetitions |
| `ReviewController.ReviewCollection.Documents` | Controllers/review.controller.js:38 | the documents the listing reads are every stored review, each once |
| `ReviewController.ReviewCollection.CreateReview` | Controllers/review.controller.js:4-29 | a missing or falsy field (rating 0 included) gives 400; a draft the schema rejects gives 500; both leave the store unchanged. Otherwise 201 with one new review under a fresh id, its fields the inputs and its owner the caller, all other reviews untouched |
| `ReviewController.ReviewCollection.DeleteReview` | Controllers/review.controller.js:69-91 | an id that does not cast gives 500, a missing review 404, another owner's review 403, all leaving the store unchanged. Otherwise 200, and exactly that id is removed |
| `ReviewController.ReviewCollection.UpdateReview` | Controllers/review.controller.js:93-135 | a missing field gives 400 before any lookup; then 500, 404, 403 as for delete, all leaving the store unchanged. Otherwise 200 with exactly the four fields replaced; the id, owner and creation time are kept and other reviews untouched |
| `ReviewController.UpdateKeepsGivenRating` | Controllers/review.controller.js:113-126 | an update stores the given rating, so a rating above 5 leaves a review the schema would reject |
| `ReviewController.TotalCountsEveryReview` | Controllers/review.controller.js:54-56 | with no owner filter, `totalReviews` is the size of the collection |
| `AuthController.SessionCookie` | Controllers/auth.controller.js:68-73 | the session cookie is named reviewMe_token, carries the token, lasts 86,400,000 ms, is HTTP only and same-site strict, and is secure exactly in production |
| `AuthController.FindByEmail` | Controllers/auth.controller.js:16 | the lookup finds nothing exactly when no user has the email, and otherwise a stored user with that email |
| `AuthController.FindByEmailUnique` | Controllers/auth.controller.js:52 | with unique emails, the lookup finds the one user with the email |
| `AuthController.AppendKeepsEmailsUnique` | Controllers/auth.controller.js:16-33 | adding a user whose email no one has keeps every email unique |
| `AuthController.FindAppended` | Controllers/auth.controller.js:16-33 | a user added with an email no one else has is found by it |
| `AuthController.SignIn` | Controllers/auth.controller.js:43-85 | a missing field gives 400 whatever the store holds; an unknown email 404; a password compare rejects 401; no cookie on failure. Success returns the found user without its password and sets the session cookie |
| `AuthController.SignInKnownUser` | Controllers/auth.controller.js:52-63 | for a stored user, sign-in succeeds exactly when compare accepts the password and otherwise fails with 401 |
| `AuthController.SignInAfterSignUp` | Controllers/auth.controller.js:22-75 | signing in with the credentials a sign-up stored succeeds and returns the new user without its password |
| `AuthController.SignOut` | Controllers/auth.controller.js:86-95 | sign-out always answers 200 and clears the reviewMe_token cookie |
| `AuthController.UserCollection.SignUp` | Controllers/auth.controller.js:7-40 | a missing field gives 400 and a taken email gives 400 "Email already exists", both adding no user. Otherwise 201 and exactly one user is appended, its password the hash of the given password with a cost-10 salt. Emails stay unique |

## Left out

- Process wiring: the server bootstrap, environment loading, the store connection, cookie parsing and routing. Only the error middleware's mapping to a status code is modelled.
- Tokens: `lib/generateToken.js` and `lib/verifyToken.js` are not part of this model. A token is whatever the `issue` function returns for a user; the caller id arrives already verified.
- `Modals/user.modal.js` is not part of this model. The user fields are those the auth handlers read and write, and the user schema's validators and indexes are not modelled.
- bcrypt: the salt's random part is a parameter and the hash and compare functions are given. The model does not prove that a hash hides the password.
- `ReviewQueries.Matches`: the search term is read as a literal text, not as a regular expression. Case folding covers ASCII letters only.
- `ReviewModel.SortKey`: sorting covers the numeric fields createdAt, updatedAt, rating and the id. Sorting on a string field or an unknown field name is not modelled. Reviews with equal keys keep their natural order; the store leaves that order unspecified.
- `ReviewQueries.LimitOf`: a negative limit is modelled as a limit of its magnitude. The store's single-batch size cap is not modelled.
- `JsValues.ParseInt`: leading white space is limited to space, tab, line feed and carriage return. Precision loss above 2^53 and repeated query parameters (arrays) are not modelled.
- Request bodies and queries hold only strings and integers. Fractional ratings, numeric strings, arrays and objects are not modelled; objects would pass Mongo query operators into the lookups.
- Ids and clocks: ids come from a counter, where the store uses ObjectIds. Timestamps are readings of a counter that advances on each write.
- Store failures: the store going down, and errors thrown by bcrypt or the response, all end in the 500 fallback. The model produces 500 only for a failed id cast, a negative skip and a schema rejection on create. The error messages of those three are not the store's exact texts.
- Concurrency: the handlers run one at a time. A race between an update and a delete of the same review is not modelled.
- Cookie clearing and the rest of the response are modelled as data; headers and JSON serialisation are not.
