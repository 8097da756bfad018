# Item-request tracker: request handlers and schema

A model of the backend that tracks item requests. A requester submits a
name and an item. An administrator then moves each request through the
statuses pending, approved, completed and rejected.

The model has two modules:

- `RequestModel` (`request_model.dfy`) is the `Request` schema. It holds the
  `Status` enum and its strings, the `Record` datatype, and `ValidRecord`,
  which states the schema's length bounds. It also has `WithDefaults`, which
  fills fields left out with the schema's defaults.
- `RequestRoute` (`request_route.dfy`) holds the three handlers. The
  collection is a class, `RequestStore`, with one field `records`, a map from
  document id to record. `Get` lists one page of requests. It checks `page`
  and `status`, keeps the records that match, orders them newest first,
  skips `(page - 1) * 10` of them and takes at most 10. It reports the page,
  the page count `ceil(total / 10)` and the total. `Put` checks
  `requestorName` and then `itemRequested`, and saves a new record whose
  status is always pending. `Patch` checks `id` and then `status`, and
  updates one record's status and last-edit time, or answers `NotFound`.

Each handler returns an abstract `Outcome`: `InvalidInput`, `Created`,
`Success`, `NotFound` or `UnknownError`. Only `NotFound` has a literal HTTP
code in the route file (404). The other codes come from a response table that
is not part of this model.

Inputs from outside the model become parameters. The clock reading is `now`.
The id of a new document is `newId`, because the database driver generates
it on the client. A JSON body field is a `JsonValue`: missing, a string, or
any other value. The `page` query parameter arrives already parsed as
`PageParam`: absent or empty, an integer, or not a number.

The listing is specified as a relation, not as one fixed order. MongoDB
leaves the order of records with equal `createdDate` unspecified. So `Get`
also returns a ghost `listing`: a newest-first arrangement of exactly the
matching documents, each once. The page it answers is cut from that
arrangement.

Two details follow the code as written:

- `Put` sets `lastEditedDate` to the creation time
  (src/app/api/mock/request/route.ts:116). The schema's default for that
  field is null (src/models/Request.ts:7). That default applies only through
  `WithDefaults` when the field is left out.
- The route imports the model as `./models/Request`
  (src/app/api/mock/request/route.ts:9). This model takes that to be the
  schema in src/models/Request.ts.

## Model

| member | source | states |
|---|---|---|
| `RequestModel.StatusName` | src/models/Request.ts:11 | every status is stored as one of the enum's four strings |
| `RequestModel.ParseStatus` | src/models/Request.ts:8-13 | a string is a status exactly when it is one of the enum's strings, and then it names that status |
| `RequestModel.StatusNameRoundTrip` | src/models/Request.ts:11 | reading back a status's name yields the same status |
| `RequestModel.WithDefaults` | src/models/Request.ts:3-14 | a constructed document keeps the given fields; a missing `createdDate` becomes the current time, a missing `lastEditedDate` becomes null, a missing `status` becomes pending |
| `RequestModel.BareDraftDefaults` | src/models/Request.ts:4-13 | a document given only its two strings is created now, unedited and pending, and is valid exactly when name length is in 3..30 and item length in 2..100 |
| `RequestRoute.RequestedPage` | src/app/api/mock/request/route.ts:19-29 | a page that is not a number or is below 1 is rejected; an absent or empty page is 1; any other page is served as given and is at least 1 |
| `RequestRoute.ParseStatusQuery` | src/app/api/mock/request/route.ts:31-43 | a non-empty status outside the enum is rejected; an absent or empty status applies no filter; otherwise the filter is the status the string names |
| `RequestRoute.MatchingDocs` | src/app/api/mock/request/route.ts:42-47 | a document is selected exactly when it is stored under its id and its status equals the filter (any status when there is none) |
| `RequestRoute.InsertByDate` | src/app/api/mock/request/route.ts:47-48 | inserting into a newest-first sequence gives a newest-first sequence with exactly one more occurrence of the inserted document |
| `RequestRoute.Window` | src/app/api/mock/request/route.ts:45-50 | skipping `skip` documents and taking at most 10 gives the documents at positions `skip`, `skip + 1`, ... in order, empty when `skip` is past the end |
| `RequestRoute.TotalPages` | src/app/api/mock/request/route.ts:58 | the page count is the least number of pages of 10 that hold all documents (the ceiling of total / 10), so 0 documents give 0 pages |
| `RequestRoute.RequestedStatus` | src/app/api/mock/request/route.ts:150-162 | the PATCH status is accepted exactly when it is a string in the enum, and it then names the status applied |
| `RequestRoute.NewRequest` | src/app/api/mock/request/route.ts:112-118 | the record PUT saves keeps both strings, is pending whatever the caller sent, and has created and last-edited time both `now` |
| `RequestRoute.EditStatus` | src/app/api/mock/request/route.ts:164-169 | a status edit sets the status and `lastEditedDate := now`, keeps name, item and creation time, and keeps the record valid under the schema exactly when it was |
| `RequestRoute.RequestStore.Get` | src/app/api/mock/request/route.ts:14-66 | GET rejects a bad page or status with InvalidInput and otherwise succeeds; on success its data is page `page` of a newest-first listing of exactly the matching documents, `currentPage` is the page, `totalRequests` the number of matches and `totalPages` their page count; it changes nothing |
| `RequestRoute.RequestStore.Put` | src/app/api/mock/request/route.ts:76-124 | PUT answers InvalidInput unless the name is a string of length 3..30, then unless the item is a string of length 2..100, without changing the store; otherwise it adds exactly one pending record under the new id, returns it as Created and leaves all other records alone; a taken id fails with UnknownError and changes nothing; it keeps every stored record valid |
| `RequestRoute.RequestStore.Patch` | src/app/api/mock/request/route.ts:134-186 | PATCH answers InvalidInput when the id is missing, empty or not a string, then when the status is not in the enum; an unknown id answers NotFound; both leave the store unchanged; otherwise only that record's status and last-edit time change and the updated record is returned; it keeps every stored record valid |
| `RequestRoute.PageOfListing` | src/app/api/mock/request/route.ts:45-60 | a served page holds at most 10 selected documents newest first, is non-empty exactly when the page is at most the page count, and is empty with 0 pages when nothing matches |
| `RequestRoute.PagesCoverListing` | src/app/api/mock/request/route.ts:45-58 | pages 1 to `totalPages` cut from one listing, read in turn, give back that listing, so each matching request is on exactly one of the pages of one listing |
| `RequestRoute.SelectedIsOnSomePage` | src/app/api/mock/request/route.ts:45-58 | every matching document appears on some page between 1 and the page count of a given listing |
| `RequestRoute.RouteChecksMatchSchema` | src/app/api/mock/request/route.ts:82-118 | PUT's two field checks accept exactly the strings for which the new record satisfies the schema's length bounds (src/models/Request.ts:4-5) |
| `RequestRoute.CreatedRequestIsListed` | src/app/api/mock/request/route.ts:112-124 | a record PUT has just created is on some page of any one listing of a GET without a filter or filtering on pending |
| `RequestRoute.ListingUnique` | src/app/api/mock/request/route.ts:47-50 | when no two matching records share a `createdDate`, the newest-first listing is unique, so every GET cuts its pages from the same order |
| `RequestRoute.TiedListingsDiffer` | src/app/api/mock/request/route.ts:47-50 | two records with the same `createdDate` may be listed in either order, and the first page differs between the two orders |

## Left out

- Database connection (src/lib/db.ts): the model assumes the store is available. Process exit on a failed connection is not modelled.
- JSON body parsing, building `Response` objects, the `Content-Type` header and error logging: these are HTTP plumbing.
- Numeric response codes other than 404: they come from a response table that is not part of this model.
- The catch-all `UnknownError` paths for failures inside the database library: the model produces `UnknownError` only for a PUT whose new id is already taken.
- `RequestRoute.RequestStore.Patch`: an id string that is not a well-formed ObjectId makes the real lookup throw, which answers 500. The model treats every non-empty string as a lookup key, so such an id answers `NotFound`. Ids are also compared as exact strings: the real lookup converts a 24-digit hexadecimal id to an ObjectId, so an upper-case spelling of a stored id finds that record, while the model answers `NotFound` for it.
- `RequestRoute.RequestStore.Put`: the source reads the clock twice, once for `createdDate` and once for `lastEditedDate`. The model uses one reading, `now`, for both.
- `RequestRoute.RequestStore.Get`: the exact prefix parsing of `parseInt` is not modelled; `page` arrives already parsed. Floating-point loss of precision for page numbers beyond 2^53 is not modelled.
- `RequestRoute.RequestStore.Get`: the source sorts on `createdDate` alone, and MongoDB fixes no order among equal dates. Each GET may therefore cut its page from a different order, so paging through separate GETs can repeat or skip records that share a `createdDate`. The model promises a stable order across GETs only when dates are distinct (`ListingUnique`); `TiedListingsDiffer` shows the tie.
- String lengths are counted in characters of `seq<char>`, not in UTF-16 code units.
- Concurrent PATCHes on the same id: the handlers run one at a time in the model.
- The mock-server helper functions the route imports but never calls.
