# restfull-java: the REST session, modelled in Dafny

This project models the core of the `REST` class of restfull-java, a small
HTTP client session.

A session holds:

- a host, a scheme (`useSsl`) and a port;
- the state left by the last calls: `responseCode`, `responseBody`, `responseList`, `responseData` and `pagedTotal`;
- six classification settings: a half-open success range and four special codes.

The model covers five parts of it:

- **`validate()`** (module `StatusCodes`, method `Client.Session.Validate`). A decision chain turns the stored code into exactly one outcome: passed, or one of six exception kinds. Its outcome is proved to be the first rule whose guard holds.
- **The URL builders** (module `Urls`). `buildUrl` and `pagedEndpoint` strip leading slashes from the endpoint. `pagedEndpoint` always adds the page parameter. It adds the per-page parameter only for a non-null tag and a positive size.
  - A URL is a value: origin, path string and ordered query pairs.
  - `Integer.toString` is modelled together with its inverse, so query values can be read back.
- **The paged fetch** (module `Pagination` for the specification, `Client.Session.GetPagedEndpoint` for the method):
  - read page 1's data array;
  - walk to the pagination record (root, then `cursor`, then `category`);
  - read the page count and, optionally, the total;
  - request pages 2..pages;
  - append each later page's array when its callback runs.
- **The sticky response code.** Every reply of an asynchronous fetch whose body is read and parses sets the stored code unless an error code (>= 400) is already stored. This is a fold, `Sticky`, over the codes in arrival order.
- **The session class** (`Client.Session`):
  - the constructors;
  - the setters;
  - the synchronous `get` and `waitForCode` (without its pauses);
  - `getPage` and `getPaged` with their overload defaults.

JSON documents are values of a small datatype, `Json`. `JsonNode.get` gives `None` for a Java null, and `asInt` is a 32-bit narrowing.

The transport is a parameter of each operation:

- `Url -> Reply` for asynchronous calls. A reply is a transport failure or a status code and body.
- `Url -> SyncReply` for the synchronous GET. A reply is an exception before any response, a response whose body could not be read after its code was, or a status code and body.
- `(Url, nat) -> SyncReply` for the k-th GET of `waitForCode`.

The concurrent fan-out of `getPagedEndpoint` is linearised as follows:

- Requests for pages 2..pages are issued in page order.
- Their callbacks then run in the order `schedule(pages)`. The only assumption about it is that it is a permutation of 2..pages (`IsCompletionOrder`).

Where one might expect otherwise, the model follows the code:

- **Order.** The accumulated records follow the callbacks' completion order, not page order. `Pagination.CompletionOrderShowsInResult` exhibits the difference. `Pagination.ManyPagesResult` proves that the result is a permutation of the page-ordered one, and equals it when the pages complete in order.
- **Missing data field.** A later page without the data field (or with a non-array one) makes the whole fetch fail. It does not contribute zero records, because `response.get(dataKey).deepCopy()` dereferences null.
- **Per-page tag.** The per-page parameter is guarded by `perPageTag != null && perPage > 0`, with no emptiness check on the tag.
- **Exception messages.** The exception kinds carry no message, because the exception classes discard the one they are given.
- **Category without cursor.** `category` is applied even when `cursor` is null, so it is looked up in the root.

## Model

Source paths are relative to the repository root.

| member | source | states |
|---|---|---|
| Json.Field | src/main/java/com/us/unix/restfull/REST.java:339-349 | `JsonNode.get(key)`: a value exactly when the node is an object holding the key, a Java null otherwise |
| Json.AsInt | src/main/java/com/us/unix/restfull/REST.java:347-349 | `asInt()`: always a Java int; a number already in range is read unchanged, true and false read as 1 and 0; a string node reads as 0, where Jackson parses numeric text (see "## Left out"); any other node reads as 0 |
| Json.ToInt32 | src/main/java/com/us/unix/restfull/REST.java:347-349 | `asInt` narrows a number to a Java int: the result lies in [-2^31, 2^31), is congruent to the input modulo 2^32, and equals it when it is already in range |
| StatusCodes.Classify | src/main/java/com/us/unix/restfull/REST.java:239-255 | the decision chain of validate: Passed exactly when the code lies in the success range; Retryable only for codes in [400, 500) (the full characterisation is `StatusCodes.ClassifyIsFirstMatchingRule`) |
| StatusCodes.ClassifyIsFirstMatchingRule | src/main/java/com/us/unix/restfull/REST.java:239-255 | validate yields exactly one outcome for every code, and it is the first rule of the chain whose guard holds (an independent guard/rank reading of the chain; both directions) |
| StatusCodes.SuccessRangeWins | src/main/java/com/us/unix/restfull/REST.java:240-241 | a code in the half-open success range passes, even when it also equals a special code |
| StatusCodes.SpecialCodeOrder | src/main/java/com/us/unix/restfull/REST.java:242-253 | outside the range the special codes are tested in the order permission-denied, not-found, ... (an earlier equal code wins); Retryable iff the code is no special code and in [400, 500); NonRetryable iff no special code and outside [400, 500) |
| StatusCodes.DefaultClassification | src/main/java/com/us/unix/restfull/REST.java:49-54 | with the default settings 200, 204 and 298 pass, 299 is NonRetryable (half-open range), 403/404/429/500 get their own kinds, 418 is Retryable, 501 and 302 are NonRetryable |
| StatusCodes.ValidateAsWritten | src/main/java/com/us/unix/restfull/REST.java:239-255 | validate exactly as written: the null dereference (None) occurs exactly when the code is outside the success range and no body is stored; any outcome it does report is the chain's |
| StatusCodes.ValidateAsWrittenLosesKind | src/main/java/com/us/unix/restfull/REST.java:239-255 | validate as written agrees with the chain when a body is stored; with no stored body it raises the null dereference exactly when the chain does not say Passed |
| StatusCodes.NotFoundAfterGetPage | src/main/java/com/us/unix/restfull/REST.java:244-245 | a stored 404 without a stored body makes validate as written fail with the null dereference, while the chain says NotFound |
| Urls.StripLeadingSlashes | src/main/java/com/us/unix/restfull/REST.java:295 | `endpoint.replaceAll("^/+", "")`; what it removes and keeps is stated by `Urls.StripRemovesLeadingSlashes` |
| Urls.StripRemovesLeadingSlashes | src/main/java/com/us/unix/restfull/REST.java:295 | the path is a suffix of the endpoint, everything removed is '/', and the path does not start with '/' |
| Urls.DigitsWellFormed | src/main/java/com/us/unix/restfull/REST.java:448 | the decimal rendering of a page number's magnitude is one or more digits with no leading zero (except 0 itself) |
| Urls.DigitsRoundTrip | src/main/java/com/us/unix/restfull/REST.java:448 | reading the rendered digits back gives the number |
| Urls.Decimal | src/main/java/com/us/unix/restfull/REST.java:448 | `Integer.toString(n)`: a '-' for negative values, then the digits of the magnitude; read back by `Urls.DecimalRoundTrip` |
| Urls.DecimalRoundTrip | src/main/java/com/us/unix/restfull/REST.java:448-450 | every int, negative ones included, is read back from its `Integer.toString` rendering |
| Urls.BuildUrl | src/main/java/com/us/unix/restfull/REST.java:290-297 | `buildUrl(endpoint)`: the session's scheme, host and port, the stripped endpoint as path, no query |
| Urls.PagedEndpoint | src/main/java/com/us/unix/restfull/REST.java:442-452 | `pagedEndpoint(...)`: the stripped endpoint as path, the page pair, and the per-page pair only for a non-null tag and a positive size; its properties are `Urls.PagedEndpointQuery` |
| Urls.PagedEndpointQuery | src/main/java/com/us/unix/restfull/REST.java:442-451 | a paged URL has the same origin and path as buildUrl, its first query pair is the page tag with the page read back exactly, and it has a second pair (the per-page tag with the size read back) iff the tag is non-null and the size positive; never more than two pairs |
| Urls.PagedEndpointInjective | src/main/java/com/us/unix/restfull/REST.java:442-451 | distinct pages of one endpoint give distinct URLs |
| Pagination.Received | src/main/java/com/us/unix/restfull/REST.java:428-439 | what getDataAsync completes with: a document exactly when the call was answered with a readable body (a missing body reads as `{}`), carrying the reply's own status code; a transport failure, or a body that cannot be read or parsed, fails the future |
| Pagination.Observe | src/main/java/com/us/unix/restfull/REST.java:432 | the stored code after one reply: the reply's code or the stored one, and the stored one whenever it is already an error (>= 400) |
| Pagination.Sticky | src/main/java/com/us/unix/restfull/REST.java:432 | `Observe` folded over the codes of the replies in arrival order; its properties are the four `Sticky...` lemmas below |
| Pagination.StickyWithoutErrorIsLast | src/main/java/com/us/unix/restfull/REST.java:432 | when neither the prior code nor any arriving code is an error, the stored code ends as the last code |
| Pagination.StickyIsFirstError | src/main/java/com/us/unix/restfull/REST.java:432 | otherwise it ends as the first arriving error code |
| Pagination.StickyKeepsError | src/main/java/com/us/unix/restfull/REST.java:432 | once an error code is stored no later reply changes it |
| Pagination.StickyAppend | src/main/java/com/us/unix/restfull/REST.java:432 | the fold over two runs of replies is the fold over the second run started from the result of the first |
| Pagination.DataArray | src/main/java/com/us/unix/restfull/REST.java:339-356 | `get(dataKey).deepCopy()` as an array: the items exactly when the field is there and is an array; a null dereference when it is absent, a ClassCastException when it is not an array |
| Pagination.ResolveRecord | src/main/java/com/us/unix/restfull/REST.java:340-346 | the pagination record: the root, then its cursor field, then that node's category field, failing at the first missing one (`Pagination.ResolveRecordIsWalk`) |
| Pagination.ReadFirstPage | src/main/java/com/us/unix/restfull/REST.java:339-349 | what getPagedEndpoint reads from page 1, in its order (data array, record, page count, total); its properties are `Pagination.ReadFirstPageFields` |
| Pagination.ResolveRecordIsWalk | src/main/java/com/us/unix/restfull/REST.java:340-346 | the pagination record is reached by walking the given keys (cursor, then category) from the root, failing at the first missing one |
| Pagination.FirstPageOf | src/main/java/com/us/unix/restfull/REST.java:339-349 | reading page 1 step by step (the record variable reassigned by each lookup) gives the same result as the specification `ReadFirstPage` |
| Pagination.ReadFirstPageFields | src/main/java/com/us/unix/restfull/REST.java:339-349 | page 1 is read iff the data array, the record, the page count and (for a non-null total tag) the total are all there; then the result holds exactly those values, with a total iff a total tag is given; a missing data array is the error reported first |
| Pagination.NestedMetadata | src/main/java/com/us/unix/restfull/REST.java:340-349 | metadata nested under cursor "meta" and category "pagination" is found: 3 pages, total 25 |
| Pagination.PageRange | src/main/java/com/us/unix/restfull/REST.java:353 | the later pages are 2..pages in order, none when pages <= 1 |
| Pagination.IssueRequests | src/main/java/com/us/unix/restfull/REST.java:337-354 | the requests issued are page 1 and then one per page 2..pages, ascending: entry i is page i + 1 |
| Pagination.PageRangeCounts | src/main/java/com/us/unix/restfull/REST.java:353 | each page in 2..pages is requested once and no other page is |
| Pagination.CompletionOrderVisitsEachPageOnce | src/main/java/com/us/unix/restfull/REST.java:352-358 | any completion order runs one callback per page 2..pages, each exactly once |
| Pagination.Gather | src/main/java/com/us/unix/restfull/REST.java:354-357 | `data.addAll(newData)` in each later page's callback: the page arrays concatenated in the order the callbacks run; its properties are the `Gather...` lemmas below and `Pagination.ManyPagesResult` |
| Pagination.GatherAppend | src/main/java/com/us/unix/restfull/REST.java:355-358 | appending in callback order distributes over consecutive runs of callbacks |
| Pagination.GatherLength | src/main/java/com/us/unix/restfull/REST.java:355-358 | the accumulated length is the sum of the appended arrays' lengths |
| Pagination.GatherBlock | src/main/java/com/us/unix/restfull/REST.java:355-358 | each page's array appears whole and contiguous, after the arrays of the pages that completed before it |
| Pagination.GatherPermutation | src/main/java/com/us/unix/restfull/REST.java:355-358 | two completion orders of the same pages accumulate the same records, each as often |
| Pagination.CompletionOrderShowsInResult | src/main/java/com/us/unix/restfull/REST.java:355-358 | pages 2 and 3 completing in reverse give their records in reverse |
| Pagination.PageUrl | src/main/java/com/us/unix/restfull/REST.java:419-422 | the URL `getByPage` builds for a page: `pagedEndpoint` with the locator's page tag, per-page tag and size (`Urls.PagedEndpointQuery`) |
| Pagination.Fetch | src/main/java/com/us/unix/restfull/REST.java:419-422 | `getByPage`: what `getDataAsync` completes with for that page's URL (`Pagination.Received`) |
| Pagination.PageData | src/main/java/com/us/unix/restfull/REST.java:355 | a later page's `response.get(dataKey).deepCopy()`: its data array, or a failure when its future fails or the field is missing or not an array (`Pagination.DataArray`) |
| Pagination.Paged | src/main/java/com/us/unix/restfull/REST.java:336-367 | the whole joined paged fetch: result, requested pages, final code and total; its properties are `Pagination.PageOneRequestFailure`, `Pagination.SinglePageResult`, `Pagination.FirstPageFailureStopsFanOut`, `Pagination.PagedTotalFollowsTotalTag` and `Pagination.ManyPagesResult` |
| Pagination.PageOneRequestFailure | src/main/java/com/us/unix/restfull/REST.java:336-338 | when page 1's own future fails (transport failure, unreadable or unparsable body), join() rethrows RequestFailed, only page 1 was requested, and the code and page total are unchanged |
| Pagination.SinglePageResult | src/main/java/com/us/unix/restfull/REST.java:351-365 | with a page count <= 1 only page 1 is requested, the result is exactly page 1's data array and the code is page 1's observed by the sticky update |
| Pagination.FirstPageFailureStopsFanOut | src/main/java/com/us/unix/restfull/REST.java:337-349 | a missing field on page 1 aborts with that error before any other page is requested; the total is untouched and only page 1's code was recorded |
| Pagination.PagedTotalFollowsTotalTag | src/main/java/com/us/unix/restfull/REST.java:348-349 | after a successful page-1 read the page total is replaced only when a total tag is given, then by the total read from the pagination record; without a tag it keeps its old value |
| Pagination.ManyPagesResult | src/main/java/com/us/unix/restfull/REST.java:336-367 | with several pages, pages 1..pages are each requested once; the fetch succeeds iff every later page delivers its array; the result is then a permutation of page 1's data followed by pages 2..pages in page order, of the summed length, and equal to it when callbacks complete in page order; the final code is the sticky fold over page 1's code and the later codes in completion order |
| Pagination.LocatorOf | src/main/java/com/us/unix/restfull/REST.java:389-417 | the locator each getPaged overload passes to getPagedEndpoint (`Pagination.OverloadDefaults`) |
| Pagination.OverloadDefaults | src/main/java/com/us/unix/restfull/REST.java:389-417 | each shorter getPaged overload is the next longer one with the default total tag "total", 10 per page, data key "data", no cursor, no category |
| Pagination.PageRequest | src/main/java/com/us/unix/restfull/REST.java:369-387 | the getByPage arguments each getPage overload passes (`Pagination.PageOverloadDefaults`) |
| Pagination.PageOverloadDefaults | src/main/java/com/us/unix/restfull/REST.java:369-387 | each shorter getPage overload is the next longer one with page tag "page", per-page tag "per_page", 10 per page |
| Client.Session.constructor | src/main/java/com/us/unix/restfull/REST.java:56-83 | a new session keeps its host and scheme, uses port 443 with TLS and 80 without, and starts with code 200, nothing stored, total 0 and the default classification settings |
| Client.Session.WithPort | src/main/java/com/us/unix/restfull/REST.java:66-74 | the same with the given port |
| Client.Session.SetSuccessRange | src/main/java/com/us/unix/restfull/REST.java:142-145 | sets the success range and leaves every other setting and field unchanged |
| Client.Session.SetPermissionDeniedCode | src/main/java/com/us/unix/restfull/REST.java:147-149 | sets only that code |
| Client.Session.SetNotFoundCode | src/main/java/com/us/unix/restfull/REST.java:151-153 | sets only that code |
| Client.Session.SetRateLimitCode | src/main/java/com/us/unix/restfull/REST.java:155-157 | sets only that code |
| Client.Session.SetServerErrorCode | src/main/java/com/us/unix/restfull/REST.java:159-161 | sets only that code |
| Client.Session.Validate | src/main/java/com/us/unix/restfull/REST.java:239-255 | the outcome is the chain's classification of the stored code under the current settings, Passed iff the code is in the success range; the session is unchanged |
| Client.Session.Exec | src/main/java/com/us/unix/restfull/REST.java:163-173 | a response stores its code and its body (a missing body as no bytes); a body that cannot be read throws after the code is stored, keeping the old body; a failed call throws and stores nothing |
| Client.Session.Get | src/main/java/com/us/unix/restfull/REST.java:175-178 | one synchronous GET of buildUrl(endpoint), with Exec's effect in each of the three cases |
| Client.Session.WaitForCode | src/main/java/com/us/unix/restfull/REST.java:274-288 | at most retryCount GETs; true iff the last GET answered with the awaited code, an exception iff the last GET threw (before a response or while reading its body), false only after retryCount GETs none of which was decisive; the stored code and body are what Exec leaves after each GET in turn (`Client.AfterGets`), so the code is the last responding GET's and the body the last one read (`Client.StoredAfterStop`) |
| Client.AfterExec | src/main/java/com/us/unix/restfull/REST.java:163-173 | the stored code and body after execHttpCall handles one reply, as `Client.Session.Exec` changes them; `Client.AfterGets` folds it over the GETs of waitForCode |
| Client.AfterGets | src/main/java/com/us/unix/restfull/REST.java:274-288 | the stored code and body after waitForCode's GETs 1..n, `Client.AfterExec` applied to each reply in turn; what it yields at a stop is `Client.StoredAfterStop` |
| Client.StoredAfterStop | src/main/java/com/us/unix/restfull/REST.java:274-288 | when waitForCode stops after n GETs, the stored code is the n-th GET's unless it threw before responding (then the previous one's), and the stored body the n-th's only when it was read (else the previous one's) |
| Client.Session.ObserveCode | src/main/java/com/us/unix/restfull/REST.java:432 | the stored code becomes the reply's code unless an error code is stored |
| Client.Session.GetPage | src/main/java/com/us/unix/restfull/REST.java:369-387 | fetches the paged URL of the overload's arguments; a received document is stored as responseData with the sticky code update; a failed future changes nothing |
| Client.Session.Callback | src/main/java/com/us/unix/restfull/REST.java:355-358 | one later page's callback: hands back that page's data array (or fails) and records its code stickily |
| Client.Session.RunCallbacks | src/main/java/com/us/unix/restfull/REST.java:352-362 | running the callbacks in a completion order appends the pages' arrays in that order and fails iff some page failed; the stored code is the sticky fold over their codes |
| Client.Session.GetPagedEndpoint | src/main/java/com/us/unix/restfull/REST.java:336-367 | the step-by-step fetch has exactly the result, requested pages, final code and total of the specification `Paged` |
| Client.Session.GetPaged | src/main/java/com/us/unix/restfull/REST.java:389-417 | stores the joined result as responseList on success, keeps the old list when join() rethrows, with GetPagedEndpoint's code and total |

## Left out

- TLS trust-all setup, hostname verification, timeouts, credentials and `enableDebug` in the constructors and `init`: library configuration with nothing to state.
- `post`, `delete` and `jsonBody`, and the request builders `basicRequest`, `buildGetRequest`, `buildPostRequest` and `buildDeleteRequest`: they only assemble OkHttp requests. `delete`, and `post` once `jsonBody` has set a request body, change the session exactly as `Client.Session.Exec` does; `post` with no request body set passes a null body to the request builder (REST.java:180-182, 316-324), which throws before any call and changes nothing. `get` is the synchronous call modelled.
- `waitForJsonValue`: it compares Jackson's `toString` rendering of a node, which is not modelled.
- The pauses and interrupt handling in `waitForCode`: timing only. The retry count of `waitForCode` and the page loop of `getPagedEndpoint` use unbounded integers, so a loop bound of `Integer.MAX_VALUE` (whose Java counter would overflow) is not modelled.
- Jackson parsing: a body is given already parsed, or as unusable (unreadable or unparsable). A number node is integral; floating-point nodes are not modelled.
- Json.AsInt: reads a string node as 0, whereas Jackson's `TextNode.asInt()` parses numeric text (with its own rules for signs, whitespace and non-integral text), so a page count or total given as a JSON string such as `"3"` reads as 0 here and the fetch stops after page 1. Jackson's text-to-number rules are not modelled.
- OkHttp's URL builder (REST.java:290-297, 442-452): the URL is kept as the strings given. Not modelled: percent-encoding of path segments and query values; `addPathSegments` splitting the path on `\` as well as `/` and resolving `.` and `..` segments; `host(...)` rejecting an invalid host name and `port(...)` rejecting a port outside 1..65535 with an IllegalArgumentException.
- Concurrency: the fan-out runs as one linearisation. The requests are issued first, then the callbacks run in a given completion order, each doing its code update and its append together. Interleavings where one callback's update and another's append overlap are not modelled, nor is the unsynchronised `addAll` on a shared array. Nor is the race in the unsynchronised read-modify-write of the stored code (REST.java:432): two callbacks may both read a code below 400 and the later write wins, so `Pagination.StickyKeepsError` and `Pagination.StickyIsFirstError` hold for the linearised run only.
- Which cause `allOf(...).join()` rethrows when several later pages fail: the model reports the single failure kind `LaterPageFailed`.
- The accessors `code()`, `pageCount()`, `jsonList()` and `jsonData()`, which return a field unchanged. Also `json()`, `jsonArray()`, `jsonSearch()` and the keyed `jsonList(key)`/`jsonData(key)`, which parse or search through Jackson.
- `enableDebug`: it only sets a logging flag.
- A null page tag, pages tag or data key (Java would throw on them). These are plain strings in the model; only the tags the code tests for null are optional.
- `OkHttpResponseFuture`: completing a future with a response or an exception is the `Reply` datatype.

## Findings

| source | as written | input that shows it | evidently intended | confidence | as-written member | corrected member |
|---|---|---|---|---|---|---|
| src/main/java/com/us/unix/restfull/REST.java:239-255 | every throwing branch of `validate()` builds its message with `new String(responseBody)`; `responseBody` is null until a synchronous call has run, and `getPage`/`getPaged` never set it | a new session, then `getPage(endpoint, 1)` whose reply is 404 with body `{}`: the page is stored, the code is 404, the body is still null, and `validate()` throws a NullPointerException instead of NotFoundError (`StatusCodes.NotFoundAfterGetPage`); the test at src/test/java/com/us/unix/restfull/RESTTest.java:181-196 expects NotFoundError after a paged fetch | the typed exception for the stored code, whatever the body | high, not executed | StatusCodes.ValidateAsWritten | Client.Session.Validate |
