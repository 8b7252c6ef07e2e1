# bloglist: list statistics and request middleware, modelled in Dafny

The repository is a small Express/Mongoose blog service. This model covers
the two parts of it that are self-contained logic:

- **List statistics** (`utils/list_helper.js`): `dummy`, `totalLikes` and
  `favoriteBlog`, pure `reduce` folds over a list of blog records. They are
  modelled as left folds (`FoldLikes`, `Pick`). They are proved against
  independent reference definitions: a right-recursive `Sum`, a `MaxLikes`,
  and the predicate `IsFirstMax` ("the first record that holds the largest
  likes"). The concrete cases of `tests/list_helper.test.js` are proved as
  lemmas in `ListHelperTests`.
- **Request middleware** (`utils/middleware.js`):
  - `errorHandler` is a total classifier. It maps an error `(name, message)` to
    `Respond(status, body)` or `Forward(error)`, which stands for `next(error)`.
  - `unknownEndpoint` always answers 404.
  - `tokenExtractor` is a method on a `Request` class. It assigns only
    `req.token` and then passes control on (`Next`, which stands for `next()`).
  - `userExtractor` is modelled through its header gate only.

  The header gate is written as the source writes it: JavaScript truthiness,
  then `startsWith("Bearer ")`, then `replace("Bearer ", "")`. The replace
  removes the first occurrence only (`JsStrings.ReplaceFirst`). The gate is
  proved equal to slicing off the prefix (`TokenOf`). It is also proved to
  round-trip with the way clients build the header, `"Bearer " + token`.

Modules: `Wrappers` (Option), `JsStrings`, `ListHelper`, `ListHelperTests`,
`Middleware`.

Points of the code worth knowing:
- utils/list_helper.js:29-33 exports only `dummy`, `totalLikes` and
  `favoriteBlog`.
- `tokenExtractor` keeps an earlier `req.token` when the header does not
  qualify. It does not reset the token to absent.
- An unrecognised error is passed on with `next(error)` and left to Express's
  default handler.

## Model

| member | source | states |
|---|---|---|
| `ListHelper.Dummy` | utils/list_helper.js:1-3 | `dummy` answers 1 for every list, the empty one included |
| `ListHelper.FoldLikes` | utils/list_helper.js:6-8 | the `reduce` fold of `acc + curr.likes` from any accumulator equals that accumulator plus the arithmetic sum of the likes |
| `ListHelper.TotalLikes` | utils/list_helper.js:5-11 | `totalLikes` is the arithmetic sum of all `likes` fields; it is 0 for the empty list |
| `ListHelper.ZeroGuardIsIdentity` | utils/list_helper.js:10 | the final `t === 0 ? 0 : t` returns the fold's result unchanged for every list |
| `ListHelper.TotalLikesSingle` | utils/list_helper.js:5-11 | the total of a one-record list is that record's likes |
| `ListHelper.TotalLikesAppend` | utils/list_helper.js:5-11 | the total of two lists put one after the other is the sum of their totals |
| `ListHelper.SumOfPermutation` | utils/list_helper.js:6-8 | the sum the fold computes depends only on the multiset of records, each counted as often as it occurs, not on their order |
| `ListHelper.TotalLikesNonNegative` | utils/list_helper.js:5-11 | when no record has negative likes, the total is not negative |
| `ListHelper.Pick` | utils/list_helper.js:18-20 | the reduce step keeps the first record seen or takes one from the list; the result has at least as many likes as every record and as the start; if no record beats the start strictly, the start is kept |
| `ListHelper.FavoriteBlog` | utils/list_helper.js:13-27 | the result is `{}` exactly for the empty list; otherwise it is the `{title, author, likes}` of some record of the list, and its likes are at least those of every record |
| `ListHelper.PickIndex` | utils/list_helper.js:18-20 | the fold either keeps the start value, which no record beats, or returns the first record holding the largest likes, which beats the start |
| `ListHelper.FavoriteBlogIsFirstMax` | utils/list_helper.js:18-26 | for a non-empty list, the favourite is the projection of the first record that holds the largest likes |
| `ListHelper.FavoriteBlogAtFirstMax` | utils/list_helper.js:19 | whichever index is the first maximum, the favourite is that record's projection, because replacement needs strictly more likes |
| `ListHelper.FavoriteBlogLikesIsMax` | utils/list_helper.js:18-26 | the favourite's likes equal the largest likes in the list |
| `ListHelperTests.DummyOfEmpty` | tests/list_helper.test.js:3-8 | `dummy([])` is 1 |
| `ListHelperTests.TotalLikesExamples` | tests/list_helper.test.js:10-37 | total likes are 0 for `[]`, 7 for the single "React patterns" record and 36 for the six-record fixture |
| `ListHelperTests.FavoriteBlogExamples` | tests/list_helper.test.js:40-75 | the favourite of `[]` is `{}`; of the single record, that record; of the fixture, "Canonical string reduction" by Edsger W. Dijkstra with 12 likes |
| `JsStrings.IndexFrom` | utils/middleware.js:31 | the search behind `replace` finds the first occurrence at or after the start index, or reports that there is none |
| `JsStrings.FirstOccurrenceOfPrefix` | utils/middleware.js:30-31 | in a string that starts with the pattern, the first occurrence is at index 0 |
| `JsStrings.ReplacePrefixDropsIt` | utils/middleware.js:30-31 | replacing a leading pattern with "" removes exactly that prefix |
| `JsStrings.ReplaceFirst` | utils/middleware.js:31 | `replace` with a string pattern leaves a string with no occurrence unchanged; otherwise it replaces the first occurrence only and keeps everything before and after it |
| `Middleware.ErrorHandler` | utils/middleware.js:5-21 | the handler never just passes control on; it forwards exactly the unrecognised names, with the error unchanged; it answers the others with the status of their kind; validation and invalid-token bodies carry the message; `CastError` gives 400 "malformatted id" and `TokenExpiredError` gives 401 "token expired" |
| `Middleware.ErrorHandlerStatusClasses` | utils/middleware.js:8-17 | the answer is 400 exactly for `CastError` and `ValidationError`, and 401 exactly for `JsonWebTokenError` and `TokenExpiredError` |
| `Middleware.ErrorHandlerMessageDependence` | utils/middleware.js:8-17 | the malformed-id and expired-token answers ignore the message; the validation and invalid-token answers differ whenever the messages differ |
| `Middleware.ErrorNamesAreCaseSensitive` | utils/middleware.js:8-20 | a name spelled differently from the four known ones is forwarded |
| `Middleware.UnknownEndpoint` | utils/middleware.js:23-25 | every request reaching it is answered 404 with body "unknown endpoint" |
| `Middleware.Candidate` | utils/middleware.js:30-31 | the truthiness, `startsWith` and `replace` sequence yields exactly the header minus its "Bearer " prefix, and nothing when the prefix is missing |
| `Middleware.CandidateExistsIff` | utils/middleware.js:30 | a token is taken exactly when the header is present and starts with the case-sensitive "Bearer " |
| `Middleware.BearerRoundTrip` | tests/test_helper.js:40 | a header built as `"Bearer " + token` gives back exactly `token` |
| `Middleware.HeaderRoundTrip` | utils/middleware.js:30-31 | an accepted header is exactly "Bearer " followed by the extracted token |
| `Middleware.RejectedHeaders` | utils/middleware.js:30 | no header, "", "bearer …", "Bearer" with no space, and another scheme give no token |
| `Middleware.OnlyFirstOccurrenceStripped` | utils/middleware.js:31 | a token that itself begins with "Bearer " keeps it; only the leading prefix is removed |
| `Middleware.Request.TokenExtractor` | utils/middleware.js:27-37 | with a "Bearer " header, `req.token` becomes the rest of the header; otherwise it keeps its old value; no other field changes; control always passes on with `next()` |
| `Middleware.Request.UserExtractor` | utils/middleware.js:39-52 | verification is attempted exactly when the header passes the same gate as in `tokenExtractor`, on the same stripped string; `req.user` becomes what that resolves to, otherwise it is unchanged; no other field changes; control passes on with `next()` |

## Left out

- `jwt.verify` and `User.findById` in `userExtractor` (utils/middleware.js:44-48) are one parameter, `resolve`. They are calls into a signing library and the database. Their failure is not modelled: a thrown verification error escapes the async middleware.
- Middleware.Request.UserExtractor: does not model a verification failure, only a successful or empty lookup, for the reason above.
- `logger.error` in `errorHandler` (utils/middleware.js:6) is left out because it is only logging. The choice between `send` and `json` for the body is not modelled; both send the same `{error: …}` object.
- `req.get` is left out. Its case-insensitive lookup of the header name is the framework's job. The header's value is a field of `Request`.
- controllers/blog.js is not part of this model. Its handlers are chains of database and token-library calls.
- app.js and index.js (Express wiring, CORS, database connection, listening) are not part of this model. Neither are the HTTP fixtures in tests/blog_api.test.js and tests/test_helper.js, apart from the header format at tests/test_helper.js:40.
- `likes` is an unbounded integer. A JavaScript number loses precision above 2^53, and a record without `likes` would give NaN; neither is modelled. Because likes are integers, `-0` does not exist here, so the `=== 0` guard is the identity.
- Neither list function changes its input. That holds by construction, since they are functions over values.
- Strings are sequences of Unicode scalar values, while JavaScript strings are UTF-16 code units. Stripping the ASCII prefix "Bearer " gives the same result either way, but a header holding a lone surrogate cannot be represented.
