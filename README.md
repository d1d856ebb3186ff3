# geddit client core in Dafny

A model of the logic of a small Go client for the Reddit JSON API
(c0rner/geddit): the listing paginator and its single cursor, the extraction of
comments and links from a Listing page by kind, the API error model with its
rate-limit deadline, the session's credential and rate-limit state with the
headers every request carries, and the small string helpers (API URLs, creation
timestamps). The two package snapshots of the repository (`geddit` and `rego`)
are modelled as one client.

Everything outside the client's own logic is an input. The HTTP round trip,
`url.Values.Encode` and `encoding/json` come in an `Env`: `client` maps a
`Request` to a transport error or a `Response`, `encode` maps parameters to a
query or form string, and `json` is a record of partial decoders, one per
record shape (`None` is a decode error). The wall clock is a `now` parameter
in integer nanoseconds. Go's `int` is `Strconv.Int`, the 64-bit range.

Modules, one per source file (plus the library models):

- `Wrappers`: `Option` and `Result`.
- `Strconv`: Go's `strconv.Atoi` (syntax errors give 0, values beyond the
  int64 range saturate), `fmt`'s `%d`, and `strings.Split` on one character.
- `Types`: kind constants, the Thing/Listing envelopes, opaque records, decoders.
- `ApiError`: `APIError`, `newAPIError`, `Error`, `IsRatelimited`, `Duration`,
  and the client's failure kinds.
- `Util`: `BuildURL`/`buildURL`, `timeFromNumber`, `getJSON`.
- `Lister`: `Listing.Comments`, `Listing.Links`, `Listing.Items`.
- `Sessions`: the `Session` class: `httpHeaders`, `get`, `post`, `Me`,
  `Comment`, `Login`.
- `Pagination`: the `Paginator` class: `SetLimit`, `values`, `list`, `Next`,
  `Previous`, and `Session.Listing` as its constructor.

Where the code does something other than its comments, names or tests suggest,
the model follows the code:

- The code keeps ONE cursor (`name`) for both directions, not separate
  after/before tokens, although `Next` and `Previous` read like two independent
  directions. `Previous` after `Next` asks for what precedes the last
  link of the forward page (`Pagination.SharedCursor`).
- A malformed comment or link child is not dropped. The code dereferences the
  nil result of its decoder, so each `Lister` method requires the children of
  the kinds it extracts to decode: t1 for `Comments`, t3 for `Links`, both for
  `Items`. A child of any other kind is never decoded and may hold anything
  (`Lister.OtherKindsNotDecoded`).
- `Comment` with an empty `things` list does not fail cleanly. The code
  indexes `Things[0]` unchecked and reads the status of a failed post, so
  both are preconditions (`Session.CommentReplyUsable`).
- `list` never checks the listing's kind and `Me` never checks the thing's
  kind (both are empty TODOs), and neither checks the HTTP status.
- The comment at session.go:140 says a bad counter header gives 0. That holds
  for a missing header and for any malformed value of at most 20 characters.
  Go's Atoi saturates out-of-range values to the int64 bounds instead
  (`Strconv.AtoiClampsLarge`). A value saturates only when its leading digits
  already exceed MaxUint64 before any bad character, which takes at least 20
  digits; otherwise the bad character is reached and the value reads as 0.
- The comment at session.go:26 says the rate-limit counters are updated on each
  API request. The code updates them only in `Login`, on a 200 reply
  (session.go:139-145). `Me`, `Comment`, `get`, `post` and the paginator leave
  them alone, and so does the model.
- `timeFromNumber` takes the digits after the dot as a nanosecond count as
  written ("12345.6789" is 12345 s + 6789 ns), as its tests expect.

## Model

| member | source | states |
|---|---|---|
| `Strconv.Atoi` | session.go:140-144 | Atoi with its error dropped: a string without any digit, and any string of at most 20 characters that is not an optional sign followed by digits, reads as 0; the result is always a 64-bit int |
| `Strconv.AtoiFormatInt` | paginator.go:96-101 | every 64-bit int printed with `%d` parses back to itself |
| `Strconv.AtoiClampsLarge` | session.go:140-144 | every decimal above MaxInt64, unsigned or with '+', reads as MaxInt64, and every one below MinInt64 reads as MinInt64, not 0 |
| `Strconv.FormatInt` | paginator.go:97-100 | `%d` output is non-empty and starts with '-' exactly for negative numbers |
| `Strconv.Split` | util.go:36 | the pieces rejoin to the input, none holds the separator, there is at least one |
| `Strconv.SplitJoin` | util.go:36 | Split undoes Join of separator-free pieces (so Split is the unique such decomposition) |
| `Strconv.SplitAtFirst` | util.go:36-37 | the first piece ends at the first separator |
| `Strconv.SplitNoSeparator` | util.go:38-40 | a string without the separator is a single piece |
| `ApiError.NewAPIError` | apierror.go:15-29 | no error iff `errors` is empty; otherwise id and description of the first pair; the deadline is never before creation and lies after it iff `ratelimit` >= 1 s |
| `ApiError.RetryDelay` | apierror.go:25-26 | for a positive `ratelimit` the delay is its whole seconds (a multiple of one second, within one second below `ratelimit`); otherwise 0; positive iff `ratelimit` >= 1 |
| `ApiError.LaterErrorsIgnored` | apierror.go:19-24 | replies agreeing on the first pair and the rate limit give the same error |
| `ApiError.NewAPIErrorWait` | apierror.go:23-27 | the deadline is creation time plus the truncated rate-limit seconds |
| `ApiError.APIError.Error` | apierror.go:31-34 | the text is id, then ": ", then the description |
| `ApiError.APIError.IsRatelimited` | apierror.go:36-39 | rate-limited at `now` iff the remaining duration is positive, i.e. the deadline lies strictly after `now` |
| `ApiError.APIError.Duration` | apierror.go:41-44 | now plus the remaining duration is the deadline (negative once it passed) |
| `ApiError.RatelimitedUntilWait` | apierror.go:36-44 | rate-limited at `now` iff the remaining duration is positive |
| `ApiError.NoRatelimitNeverLimited` | apierror.go:23-39 | without a positive rate limit the error is never rate-limited from its creation on |
| `ApiError.SubsecondRatelimitIgnored` | apierror.go:25-26 | a positive rate limit under one second truncates to none |
| `ApiError.TruncSeconds` | apierror_test.go:39 | whole seconds truncated toward zero bracket the duration |
| `ApiError.RatelimitScenario` | apierror_test.go:15-42 | ratelimit 600 read within a second: rate-limited, 599 whole seconds left, text "RATELIMIT: Test" |
| `ApiError.WrongPasswordScenario` | apierror_test.go:16-42 | no ratelimit: not rate-limited, 0 seconds left, text "WRONG_PASSWORD: Test" |
| `Util.BuildURL` | main.go:44-51 | "https://www.reddit.com" or "http://www.reddit.com" by `secure`, then the method path verbatim |
| `Util.BuildURLInjective` | util.go:13-20 | the method path and the scheme choice are determined by the URL |
| `Util.BuildURLTable` | util_test.go:17-19 | the two tabled URLs |
| `Util.Unix` | util.go:41 | the nanosecond part is normalised into [0, 1e9) and the instant is unchanged |
| `Util.TimeFromNumber` | util.go:34-42 | a normalised instant; without a '.' it is Atoi of the whole text in seconds (the other cases are the lemmas below) |
| `Util.TimeFromNumberFraction` | util.go:34-42 | "S.F" is Unix(Atoi(S), Atoi(F)) |
| `Util.TimeFromNumberWhole` | util.go:38-40 | without a dot the fractional part is 0 |
| `Util.TimeFromNumberIgnoresRest` | util.go:36-40 | only the first two dot-separated parts are read |
| `Util.TimeFromNumberDigits` | util_test.go:80-81 | "12345.6789" and "12345" as tabled |
| `Util.TimeFromNumberMalformed` | util_test.go:82-83 | "123oops456.789" gives (0, 789) and "123oops456" gives (0, 0) |
| `Util.GetJSON` | util.go:22-32 | decode failure: no reply and an error; otherwise the reply, with an error iff its `errors` list is non-empty, and that error is NewAPIError's |
| `Util.GetJSONTable` | util_test.go:39-40 | an empty reply is no error, broken JSON is one |
| `Util.ApiReply` | session.go:147-150 | a caller proceeds iff the reply decodes with no errors, with that reply; otherwise it gets GetJSON's error unchanged: DecodeError for an undecodable body, else the APIError of the first pair (WRONG_PASSWORD, RATELIMIT) |
| `Lister.OfKinds` | lister.go:36-37 | the kept children are children of the page with a selected kind, no more of them than the page has |
| `Lister.OfKindsAppend` | lister.go:34-43 | filtering distributes over concatenation (original order is kept) |
| `Lister.OfKindsMember` | lister.go:47-60 | a child is kept iff its kind is selected |
| `Lister.OfKindsCount` | lister.go:47-60 | filtering for two disjoint kind sets keeps the sum of both filters |
| `Lister.OfKindsNested` | lister.go:47-72 | filtering a filtered page equals filtering for the common kinds |
| `Lister.OfKindsUnknown` | lister.go:10-14 | a child of an unselected kind is dropped without effect |
| `Lister.Comments` | lister.go:34-43 | exactly the decoded t1 children, in page order; only t1 children must decode |
| `Lister.Links` | lister.go:63-72 | exactly the decoded t3 children, in page order; only t3 children must decode |
| `Lister.OtherKindsNotDecoded` | lister.go:34-72 | a malformed link does not bar Comments, a malformed comment does not bar Links, and either bars Items |
| `Lister.Items` | lister.go:47-60 | exactly the t1 and t3 children decoded as comment or link items, in page order |
| `Lister.ItemsCount` | lister.go:34-72 | Items has as many elements as Comments and Links together |
| `Lister.ItemsProject` | lister.go:47-72 | the comments and links within Items are Comments and Links, in the same relative order |
| `Lister.MixedPage` | lister.go:47-60 | kinds t1, t3, t3, unknown give three items, the unknown one dropped |
| `Sessions.RateLimitOf` | session.go:140-144 | a missing counter header, or a malformed one of at most 20 characters, reads as 0 |
| `Sessions.RateLimitOfDecimal` | session.go:142-144 | counters written in decimal are read back exactly |
| `Sessions.LoginRequestCarriesNoCredentials` | session.go:123-130 | the login POST carries only User-Agent and the form Content-Type, never an old cookie or modhash |
| `Sessions.LoginAnswer` | session.go:147-160 | the login reply is available iff the API reply has no errors and its data decodes; otherwise the error of the first failing step: the API reply's own error (decode error or APIError) passed through unchanged, else DecodeError for data that does not decode |
| `Sessions.Session.constructor` | session.go:31-36 | a new session has no cookie, no modhash and zero counters |
| `Sessions.Session.HttpHeaders` | session.go:176-186 | User-Agent always; Cookie iff the cookie is set; X-Modhash iff the modhash is set; no other header |
| `Sessions.Session.Get` | session.go:188-199 | GET with the session headers; "?" and the encoded values only when values are given |
| `Sessions.Session.Post` | session.go:201-212 | no values: NoValues and nothing sent; otherwise a POST of the encoded form with the session headers plus the form Content-Type |
| `Sessions.Session.Me` | session.go:38-63 | the account decoded from the returned thing (kind unchecked); modhash adopted on success and kept on any error |
| `Sessions.Session.Comment` | session.go:76-116 | non-200: a status error with the status text; API errors pass through; success iff the first returned thing decodes as a comment result |
| `Sessions.Session.Login` | session.go:119-174 | missing credentials: error and nothing changed; otherwise cookie and modhash are cleared first, so every failure leaves both empty; counters overwritten only on a 200 reply; success sets the "reddit_session=" cookie and the reply's modhash |
| `Pagination.ClampLimit` | paginator.go:47-55 | the stored limit is in [0, 100]: 0 below, 100 above, unchanged between |
| `Pagination.ClampLimitIdempotent` | paginator.go:47-55 | clamping a clamped limit changes nothing |
| `Pagination.ClampLimitTable` | paginator.go:48-53 | -5 and 0 give 0, 500 gives 100 |
| `Pagination.Query` | paginator.go:87-104 | `after` or `before` (by direction) iff the cursor is set, holding the cursor; `count` iff positive; `limit` iff positive; no other key |
| `Pagination.QueryNumbersReadBack` | paginator.go:96-101 | the count and limit parameters parse back to the paginator's values |
| `Pagination.DecodeLinks` | paginator.go:74-84 | success iff every child decodes as a link, whatever its kind; then one link per child, in order |
| `Pagination.PageLength` | paginator.go:65-84 | a successful page has exactly as many links as the listing has children |
| `Pagination.AdvanceKeepsCursor` | paginator.go:24-31 | an error or an empty page leaves the cursor unchanged |
| `Pagination.NextResumesAfterLast` | paginator.go:28-30 | after a forward page the next forward request is `after` its last link |
| `Pagination.PreviousResumesBeforeFirst` | paginator.go:40-42 | after a backward page the next backward request is `before` its first link |
| `Pagination.SharedCursor` | paginator.go:17 | one cursor serves both directions: going back after a forward page starts from that page's last link |
| `Pagination.Paginator.constructor` | session.go:67-72 | a paginator over "https://www.reddit.com/r/<sub>.json" with no cursor, count 0, limit 0 |
| `Pagination.Paginator.SetLimit` | paginator.go:47-55 | the stored limit is the clamped argument |
| `Pagination.Paginator.Values` | paginator.go:87-104 | the parameters are the Query of the current state |
| `Pagination.Paginator.List` | paginator.go:57-85 | the page is the transport error, a decode error, or every child decoded as a link |
| `Pagination.Paginator.Next` | paginator.go:22-32 | the forward page; the cursor becomes its last link's name, unchanged on error or an empty page |
| `Pagination.Paginator.Previous` | paginator.go:34-44 | the backward page; the cursor becomes its first link's name, unchanged on error or an empty page |

## Left out

- HTTP transport, request construction and `url.Values.Encode`: the `Env` functions. One `Env` gives the same response to the same request. A failure of `http.NewRequest` counts as a transport error.
- JSON decoding: abstract partial decoders per record shape. Records keep only the fields the client reads (a link's fullname, an account's modhash); the rest stays opaque JSON. The `Comment` record is opaque (declared without fields; its Go definition is not part of this model), and the `Edited` field of a link is not modelled.
- The wall clock: `now` is a parameter, in nanoseconds. int64 overflow of instants and durations is not modelled. The float64 `ratelimit` is a `real`, truncated toward zero as Go converts it; rounding in `Duration().Seconds()` is not modelled.
- Concurrency: the code has no lock around the rate-limit counters. None is modelled.
- Crash paths are preconditions, not behaviour: the unchecked `Errors[0][1]`, the unchecked `Things[0]` and the ignored post error in `Comment`, and the nil dereference in the `Lister` methods.
- `authconfig.go` (credential file I/O), `types.go` and `api.go` beyond kind constants and record shapes, the example program and the Go test files (their tables appear as lemmas).
- The session has no operation for setting the cookie by hand or for fetching another user; the code defines none, so none is modelled.
- `Strconv.Atoi` models Go's Atoi on a 64-bit platform; a 32-bit `int` is not modelled.
