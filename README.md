# Bookmark router, modelled in Dafny

This project models the in-memory bookmark router of the bookmarks server
(`bookmark/bookmark-router.js`). The router keeps every bookmark in one shared
array and serves four routes over it:

- `GET /bookmark` answers 200 with the whole array.
- `POST /bookmark` validates the request body. Any failure gets a 400. On
  success it pushes a new record `{id, title, url, description}` under a fresh
  uuid and answers 201 with a `Location` header and the record.
- `GET /bookmark/:id` answers with the first record that has the id, or 404.
- `DELETE /bookmark/:id` splices out the first record that has the id and
  answers 204, or answers 404.

The model has three modules:

- `JsValues` (`js_values.dfy`) holds the JSON values a request body can carry.
  It gives JavaScript truthiness, which `!title` tests, and `Number.isInteger`.
- `Validation` (`validation.dfy`) holds the create request and the five checks
  in the order the handler runs them. The first failing check decides the
  verdict.
- `Router` (`router.dfy`) holds the stored record, the responses, `find` and
  `findIndex` as loops, and `splice(i, 1)`. The class `BookmarkStore` owns the
  `bookmarks` array as a `seq` field, and its methods are the four handlers.

The model follows the router code where other parts of the repository differ
from it:

- The router reads `url` and `description`. The tests and fixtures use `weburl`
  and `body`, and they exercise a different, database-backed app.
- The stored record has no rating. The rating is validated and then dropped.
- No field is sanitized.
- The error texts are the router's own. This includes the misspelt
  `url nmust be a valid URL`, `Bookmark not found` for GET and `Not found` for
  DELETE.

Request fields are modelled as JSON values, not strings. That way an empty
string, `0`, `false` or `null` counts as missing, and a numeric string is not
an integer rating, as in JavaScript. A title or description that is a number or
an object passes the presence check and is stored as it came.

## Model

| member | source | states |
|---|---|---|
| `JsValues.FalsyValues` | bookmark/bookmark-router.js:17-36 | the presence tests `!title`, `!url` and `!description` refuse exactly a missing field, `null`, `false`, `0` and the empty string |
| `JsValues.IsIntegerIff` | bookmark/bookmark-router.js:38 | `Number.isInteger` holds exactly of the numbers that equal some integer |
| `Validation.RatingOkIff` | bookmark/bookmark-router.js:38 | a rating passes iff it is one of the numbers 0, 1, 2, 3, 4, 5; both bounds are accepted, and 6, negatives, fractions and numeric strings are refused |
| `Validation.Checks` | bookmark/bookmark-router.js:17-50 | there are five checks in a fixed order, and each has its own rejection |
| `Validation.FirstFailure` | bookmark/bookmark-router.js:17-50 | a chain of early returns accepts iff every check passes |
| `Validation.FirstFailureAt` | bookmark/bookmark-router.js:17-50 | the first failing check decides the rejection, whatever the later checks say |
| `Validation.LaterChecksIgnored` | bookmark/bookmark-router.js:17-50 | checks after the first failing one are not consulted: chains that agree up to it give the same verdict |
| `Validation.Validate` | bookmark/bookmark-router.js:17-50 | a create request is accepted iff title, url and description are present, the rating is an integer in [0, 5] and the url is a web URI |
| `Validation.ValidationOrder` | bookmark/bookmark-router.js:17-50 | each rejection, in both directions: title, then url, then description, then rating, then URL format; acceptance iff all five pass |
| `Validation.UrlFormatCheckedLast` | bookmark/bookmark-router.js:45-50 | `isWebUri` is consulted only when the four earlier checks pass |
| `Router.Message` | bookmark/bookmark-router.js:17-50 | the three missing-field rejections share the text "Invalid data"; the rating and URL rejections have their own texts |
| `Router.NewRecord` | bookmark/bookmark-router.js:54-59 | the created record carries the generated id and the request's title, url and description unchanged |
| `Router.RatingNotStored` | bookmark/bookmark-router.js:54-59 | the rating has no part in the stored record |
| `Router.Location` | bookmark/bookmark-router.js:67 | the `Location` header is the route prefix `http://localhost:8000/bookmark/` followed by the id |
| `Router.FirstIndexOf` | bookmark/bookmark-router.js:87 | the index is -1 iff no record has the id; otherwise it is a record with the id and no earlier record has it |
| `Router.FirstIndexOfAppend` | bookmark/bookmark-router.js:61 | after a push, an earlier match stays where it was; otherwise the pushed record is found iff it has the id |
| `Router.RemoveAt` | bookmark/bookmark-router.js:96 | `splice(i, 1)` shortens the array by one, keeps the elements before and after `i` in order, and removes exactly the element at `i` from the multiset |
| `Router.CreateFreshId` | bookmark/bookmark-router.js:52-61 | creating under an unused id keeps the ids distinct, and a lookup of that id then finds the new last record |
| `Router.DeleteLeavesNoMatch` | bookmark/bookmark-router.js:87-96 | if the ids are distinct, deleting an id leaves no record with it and keeps the ids distinct |
| `Router.FindIndex` | bookmark/bookmark-router.js:87 | the linear search returns the index of the first record with the id, or -1 |
| `Router.Find` | bookmark/bookmark-router.js:75 | the linear search returns the first record with the id, or nothing iff none has it |
| `Router.BookmarkStore.constructor` | bookmark/bookmark-router.js:4 | the store starts with the records the store module holds |
| `Router.BookmarkStore.List` | bookmark/bookmark-router.js:11-13 | the answer is 200 with the array as it is, also when it is empty |
| `Router.BookmarkStore.Create` | bookmark/bookmark-router.js:14-69 | a rejection gives 400 with its text and leaves the array unchanged; an acceptance appends exactly the new record and gives 201 with its location and the record |
| `Router.BookmarkStore.Get` | bookmark/bookmark-router.js:73-84 | the answer is 200 with the first record that has the id, or 404 "Bookmark not found" when none has it; the array is not changed |
| `Router.BookmarkStore.Delete` | bookmark/bookmark-router.js:85-102 | if a record has the id, the first such record is removed and the answer is 204; otherwise the answer is 404 "Not found" and the array is unchanged |

## Left out

- Express routing, the JSON body parser and building responses with
  `res.status/send/json/location/end`: each handler returns a `Response` value
  instead.
- The `logger` calls: they are output only.
- `uuid()`: the id is a parameter of `Create`. The router does not check that
  the id is unused. The lemmas about distinct ids take it as a hypothesis.
- `isWebUri` from the `valid-url` library: it is a predicate parameter of
  `Create`. What that library does with a URL that is not a string is not
  modelled.
- JavaScript's loose `==` in the id comparisons: route ids are strings, and
  the stored ids are modelled as strings, so the comparison is string
  equality. A numeric id preloaded by the store module is not modelled.
- `src/store.js` is not part of this model. The initial contents of
  `bookmarks` are a constructor parameter.
- JSON number parsing is modelled as exact reals. Rounding to double
  precision is not modelled. That includes overflow and underflow: `JSON.parse`
  reads `1e400` as `Infinity` and `1e-400` as `0`, so a title of `1e-400` is
  refused by the router but counts as present in the model.
- JSON arrays and objects are one case, `Structured`. They are truthy and can
  be stored as a title, url or description, but their contents are not
  modelled.
- `res.json(bookmarks)` serialises the live shared array. The model answers
  with the `seq` value at that moment, and there is no aliasing to model.
- The database-backed app, the bearer-token middleware and the HTML
  sanitization that the tests in `test/` expect are not part of this router.
