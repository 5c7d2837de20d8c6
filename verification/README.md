# Paginated fetch helper — Dafny model

`terraform/scripts/fetch_paginated_data.py` is a Terraform external data
source. It reads a JSON object (`api_url_base`, `api_token`, optional
`page_size`) from standard input, calls a paginated HTTP API that follows the
`nextPageToken` convention for at most 20 pages, concatenates the `list`
arrays of the pages, and prints `{"combined_list": "<JSON array>"}`, or
`{"error": ...}` with exit status 1.

This project models `main()` with the HTTP layer replaced by a response
oracle: `replies[i]` is what the server answers to request number `i`. The
oracle always has an answer for each of the 20 possible requests
(`MaxPages <= |replies|`). A run is observed as the list of requests the script
issues (page size and optional page token) together with its outcome:
`Success(items)`, `Failure(error)` or `Crash`. `Crash` is an exception the
script does not catch, so nothing is printed and the exit status is 1.

Modules, one file each:

- `json.dfy` — `Json`: decoded JSON values, Python truthiness and `dict.get`.
- `outcomes.dfy` — `Outcomes`: `Option`, the error kinds, the run outcome and its exit status.
- `page_size.dfy` — `PageSize`: Python's `int()` on the `page_size` value, decimal parsing and rendering, and the normalisation to a size in [10, 100].
- `pagination.dfy` — `Pagination`: how one response is classified, the loop as a recursive function (`Loop`, `Paginate`), a reference definition of the gathered items (`Gathered`), and the `while` loop as the script writes it (`FetchPages`), proved equal to `Paginate`.
- `fetch.dfy` — `Fetch`: the input checks in their source order, and `Main`, which composes the checks, the normalisation and the loop. It also holds three example runs stated as lemmas: a two-page fetch, a 403 on the first request, and a page size below the range.

## Model

| member | source | states |
|---|---|---|
| Outcomes.ExitCode | terraform/scripts/fetch_paginated_data.py:20-163 | the exit status is 0 exactly for a successful outcome and 1 for an error or an uncaught exception |
| PageSize.ParseRenderRoundTrip | terraform/scripts/fetch_paginated_data.py:56-57 | the page-size parser reads back every integer's decimal spelling: `int(str(n)) == n` |
| PageSize.DefaultIsAcceptable | terraform/scripts/fetch_paginated_data.py:42 | the default page size "100" converts to 100 and lies inside [10, 100] |
| PageSize.Normalise | terraform/scripts/fetch_paginated_data.py:55-63 | the effective page size always converts to an integer in [10, 100]; it equals the input exactly when the input converts to such an integer; any other convertible input becomes "100"; an input `int()` rejects with a TypeError (null, array, object) ends in a crash |
| PageSize.NormaliseIdempotent | terraform/scripts/fetch_paginated_data.py:56-63 | normalising an effective page size again changes nothing |
| PageSize.PaddedSizeKept | terraform/scripts/fetch_paginated_data.py:56-60 | "050" converts to 50 and is kept as the string "050", not re-rendered as "50" |
| PageSize.SmallSizeReplaced | terraform/scripts/fetch_paginated_data.py:58-60 | a page size of "5" is below the range and becomes "100" |
| Pagination.Classify | terraform/scripts/fetch_paginated_data.py:96-153 | a response is a page exactly when its status is in [200, 300) and its body decodes to a JSON object; a non-2xx status aborts with that status, a network error and malformed JSON abort with their own errors, and an unreadable body or a body that is not an object aborts as unexpected; a page contributes its `list` array, or nothing when `list` is missing or not an array; its token is the `nextPageToken` value, or null when that field is missing |
| Pagination.LoopRequests | terraform/scripts/fetch_paginated_data.py:76-117 | from any loop state, the requests already issued are kept, each new request uses the page size, the first new one carries the current token when it is truthy, and each later one carries the previous reply's token |
| Pagination.LoopStops | terraform/scripts/fetch_paginated_data.py:76-123 | from any loop state, the loop stays within 20 requests, every reply but the last it consumes announces a further page, and it stops before the cap only on a reply that does not |
| Pagination.LoopOutcome | terraform/scripts/fetch_paginated_data.py:108-163 | from any loop state, the run fails with the error of the last reply when that reply fails, and otherwise succeeds with the items gathered so far followed by the items of the consumed replies, in order |
| Pagination.Paginate | terraform/scripts/fetch_paginated_data.py:65-123 | a run issues between 1 and 20 requests, all with the same page size; the first has no token and request k+1 carries reply k's `nextPageToken`; every reply but the last announced a further page, and below the cap the last one did not |
| Pagination.PaginateOutcome | terraform/scripts/fetch_paginated_data.py:96-163 | the run fails exactly when the last reply fails, with that reply's error and no further request; otherwise it succeeds with the in-order concatenation of the fetched pages' `list` arrays, duplicates kept |
| Pagination.CapIsSoftFailure | terraform/scripts/fetch_paginated_data.py:155-163 | when all 20 replies announce a further page, exactly 20 requests are issued and the run still succeeds with the items of those 20 pages |
| Pagination.FetchPages | terraform/scripts/fetch_paginated_data.py:65-163 | the `while` loop with its early exits issues the same requests and ends in the same outcome as `Paginate`; at the top of each iteration the accumulator holds the items of the pages fetched so far, the token is the last reply's `nextPageToken`, and every reply so far announced a further page |
| Fetch.CheckInput | terraform/scripts/fetch_paginated_data.py:21-53 | the checks run in source order: empty input succeeds with an empty list before decoding; undecodable input is an error; a decoded non-object crashes; a falsy `api_url_base` succeeds with an empty list whatever the token; a truthy URL with a falsy `api_token` is an error; the run proceeds exactly when URL and token are truthy, with `page_size` defaulting to "100" |
| Fetch.Main | terraform/scripts/fetch_paginated_data.py:20-163 | a request is issued only when every input check passed and the page size converts; an input check that stops the run issues no request; every request carries the same page size in [10, 100]; at most 20 requests; for every input the model can represent, a crash issues no request; a run that passes every check is the pagination loop at the effective page size |
| Fetch.ExitStatus | terraform/scripts/fetch_paginated_data.py:20-163 | a run exits with status 1 exactly when an input check ends the run with an error or a crash (standard input that decodes to something other than an object), the page size raises a TypeError, or the last reply fetched failed; every other run exits with 0 |
| Fetch.CapRunExitsZero | terraform/scripts/fetch_paginated_data.py:155-163 | a run that passes every input check and meets 20 replies each announcing a further page issues exactly 20 requests, exits with status 0 and prints the items of those 20 pages |
| Fetch.TwoPageScenario | terraform/scripts/fetch_paginated_data.py:76-123 | pages `[1, 2]` with token "t", then `[3]` with a null token: two requests, the second carrying "t", and the result `[1, 2, 3]` |
| Fetch.ForbiddenScenario | terraform/scripts/fetch_paginated_data.py:93-139 | a 403 on the first request ends the run after that one request with an error carrying status 403 |
| Fetch.SmallPageSizeScenario | terraform/scripts/fetch_paginated_data.py:55-63 | an input page size of "5" makes the first request ask for "100" |

## Left out

- HTTP itself: URL building and query encoding, the `Authorization` and `Accept` headers, the SSL context and the 30-second timeout. Each request is the pair (page size, optional token); the server is the `replies` oracle.
- JSON text: decoding standard input and response bodies is an oracle (`Stdin.decoded`, `Body`), and the printed envelope, with its doubly encoded `combined_list`, is the `Outcome` value. Error message texts are not modelled; an HTTP error keeps its status code.
- Logging to standard error: it is a side channel with no effect on the outcome.
- PageSize.ParseInt: accepts only an optional sign followed by ASCII digits. Python's `int()` also accepts surrounding whitespace, underscores between digits and non-ASCII digits, so such strings that denote an integer in [10, 100] (`" 50 "`, `"5_0"`) are kept by the script but replaced by "100" in the model. Conversely, Python 3.11 and later raise ValueError for a string of more than 4300 digits, leading zeros included, so a zero-padded in-range string of that length (`"000…050"`) is replaced by "100" in the script but kept by the model.
- Fetch.Main: strings are sequences of Unicode scalar values, so a JSON string holding a lone surrogate (`"\ud800"`, which `json.loads` accepts) cannot be represented. A reply whose `nextPageToken` is such a string is a page with a truthy token in the script; on the next pass `urllib.parse.urlencode` (line 83, outside the `try`) raises UnicodeEncodeError, so the script crashes with exit status 1 after it has already issued requests. The model's "a crash issues no request" holds only for representable inputs.
- JSON numbers are integers in the model. Floating-point values, and Python's truthiness and `int()` truncation for them, are not modelled.
- The error printed when an HTTP error body cannot be read (lines 137-138) differs from the main one only in its text, which is not modelled.
