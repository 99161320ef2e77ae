# httpstub in Dafny

A model of httpstub, a small Go library for configurable stub HTTP servers
in tests. A `Server` keeps an ordered list of endpoints and a default
content type. `Path(p)` registers an endpoint for a path pattern. Each
`Endpoint` is configured with a status, a content type and a body. When a
request arrives, the server splits its URL path on `/` and compares it
segment by segment with each endpoint's pattern, in registration order. A
pattern segment `*` accepts any request segment. A pattern matches as a
prefix, so it may have fewer segments than the request. The first endpoint
whose pattern matches renders its response. If none matches, nothing is
written.

Files:

- `wrappers.dfy`: the `Option` datatype.
- `segments.dfy`: Go's `strings.Split` for a one-character separator
  (`Split`), its inverse `Join`, and the round trips between them.
- `matching.dfy`: the match predicate `Matches` and the first-match
  selection `FirstMatch`, with their properties.
- `endpoint.dfy`: the `Endpoint` class and its setters, and the
  `ResponseWriter` as a log of writes. Also the pure rendering function
  `Render` that `Endpoint.ServeHTTP` is proved against, and the client's
  view of a write log.
- `server.dfy`: the `Server` class (`Path`, `WithDefaultContentType`, and
  `ServeHTTP` as the labelled nested loop of the Go code), proved against
  the pure `Select`/`Dispatch` functions, and dispatch lemmas.
- `scenarios.dfy`: the repository's tests and package example, replayed on
  the model. Each one builds a server through the class methods and
  requests paths.

A request is its URL path, a `string`. A Go string is a byte sequence; here
it is a Dafny `string` with one character per byte, so `[]byte(b)` in
`WithBody` is the identity. The `http.ResponseWriter` is a `ResponseWriter`
object holding the sequence of calls made on it: `HeaderSet` for
`Header().Set("Content-Type", …)`, `StatusWritten` for `WriteHeader`, and
`BodyWritten` for `Write`. The model proves which calls the code makes and
in which order.

What a client then observes is net/http's behaviour, not this
repository's. The functions `ClientStatus`, `ClientBody` and
`ClientContentType` in `endpoint.dfy` state it as an explicit assumption,
following net/http's server as of Go 1.19:

- `WriteHeader` with an informational code (100-199 other than 101) sends
  an interim response and fixes nothing (`Informational`);
- any other `WriteHeader`, or the first `Write` (an implicit 200), commits
  the response: it fixes the status and sends the headers in force at that
  moment, so later status and header changes are lost; a handler that
  commits nothing gets 200 with its final headers;
- `Write` delivers bytes only when the committed status allows a body,
  that is, not for 1xx, 204 or 304 (`BodyAllowed`).

The lemmas about client-visible status, body and content type hold under
that assumption. In particular, an endpoint configured with
`WithStatus(204).WithBody("x")` delivers no body (`Endpoints.RenderedBody`),
and one configured with status 100 answers 200.

Notes on what the code does, which the model follows:

- An empty pattern splits to the single empty segment `[""]`. It therefore
  matches every path that starts with `/`
  (`Matching.EmptyPatternMatchesRootedPaths`).
- The pattern `/` splits to `["", ""]`. It matches `/` and paths starting
  with `//`, but not `/err` (`Matching.RootPatternMatches`).
- The status is written only when it is strictly positive. A negative
  status behaves like an unset one.
- Patterns are kept as strings and split at request time, not when they
  are registered.
- Per-method overrides (`WithMethod`) are used by one test and by the
  package example. They do not exist in the code and are not modelled.

## Model

| member | source | states |
|---|---|---|
| Segments.Split | httpstub.go:51 | Go's strings.Split never returns an empty slice, and no segment contains the separator |
| Segments.JoinSplit | httpstub.go:51 | splitting loses nothing: joining the segments with the separator gives the path back |
| Segments.SplitJoin | httpstub.go:55 | splitting undoes joining for any non-empty list of separator-free segments |
| Segments.FirstSegment | httpstub.go:51 | the first segment is empty exactly when the path is empty or starts with '/'; a leading '/' splits off that empty segment |
| Segments.SplitExamples | httpstub.go:51-55 | "" splits to [""], "/a" to ["", "a"], "/user/*/name" to ["", "user", "*", "name"] |
| Matching.Matches | httpstub.go:55-68 | the per-endpoint rule: a pattern matches when it has no more segments than the request and each of its segments is `*` or equal to the request segment at that position; its contract: a pattern matches every request it is a segment-wise prefix of, and none with fewer segments |
| Matching.FirstMatch | httpstub.go:53-73 | the selected index is in range and its pattern matches; no earlier pattern matches; None exactly when no pattern matches |
| Matching.LongerPatternNeverMatches | httpstub.go:56-58 | a pattern with more segments than the request never matches |
| Matching.WildcardAcceptsAnySegment | httpstub.go:60-63 | a `*` segment accepts any request segment at its own position: replacing that request segment keeps the match |
| Matching.LiteralPatternIsPrefix | httpstub.go:60-68 | a pattern without `*` matches exactly when its segments are a prefix of the request's |
| Matching.MatchesExtended | httpstub.go:55-68 | prefix matching: a pattern that matches a request also matches it with extra trailing segments |
| Matching.FirstMatchIsEarliest | httpstub.go:53-72 | if pattern i matches, the selection is some index no greater than i |
| Matching.FirstMatchAppend | httpstub.go:53-72 | appending a pattern does not change the selection for a request that already had a match, and otherwise the new pattern is chosen iff it matches |
| Matching.FirstMatchExtended | httpstub.go:53-72 | extending the request with trailing segments keeps a match and can only move the selection to an earlier endpoint |
| Matching.EmptyPatternMatchesRootedPaths | httpstub.go:51-68 | the empty pattern matches a request path iff the path is empty or starts with '/' |
| Matching.RootPatternMatches | httpstub.go:51-68 | the pattern "/" matches a request path "/t" iff t is empty or starts with '/': it serves "/" and paths starting with "//", never "/err" |
| Matching.TwoEmptySegmentsAfterSeparator | httpstub.go:51-68 | a request "/t" has the two empty leading segments of the pattern "/" iff t is empty or starts with '/' |
| Endpoints.Render | endpoint.go:32-44 | the Content-Type header is set iff the content type is non-empty, the status is written iff it is positive, and the body is written iff it is non-empty; every write carries the endpoint's own value; the writes come in the order header, status, body, each at most once |
| Endpoints.ClientStatusSkips | endpoint.go:32-44 | under the net/http assumption, header writes and interim (informational) statuses leave the client's status to the writes after them |
| Endpoints.WrittenConcat | endpoint.go:41-43 | the bytes handed to Write by consecutive write logs are the concatenation of their bytes |
| Endpoints.HeaderKept | endpoint.go:33-35 | under the net/http assumption, writes that set no header keep the Content-Type in force |
| Endpoints.HeaderAfterCommitIgnored | endpoint.go:33-39 | under the net/http assumption, a header set after a final WriteHeader does not reach the client, which reads the value in force before it |
| Endpoints.RenderedContentType | endpoint.go:33-35 | under the net/http assumption, the client reads exactly the endpoint's content type, or none when it is empty |
| Endpoints.RenderedStatus | endpoint.go:37-39 | under the net/http assumption, the client sees the endpoint's status when it is positive and not informational, and 200 otherwise |
| Endpoints.RenderedBody | endpoint.go:41-43 | under the net/http assumption, the client receives exactly the endpoint's body (empty when none is set), except under status 101, 204 or 304, where net/http refuses the body and the client receives none |
| Endpoints.ResponseWriter.SetContentType | endpoint.go:34 | setting the Content-Type header appends exactly one header event |
| Endpoints.ResponseWriter.WriteHeader | endpoint.go:38 | writing the status appends exactly one status event with that code |
| Endpoints.ResponseWriter.Write | endpoint.go:42 | writing the body appends exactly one body event with those bytes |
| Endpoints.Endpoint.constructor | httpstub.go:34-37 | a new endpoint has the given path and content type, status 0 and an empty body |
| Endpoints.Endpoint.WithStatus | endpoint.go:14-17 | sets the status, leaves path, content type and body unchanged, and returns the same endpoint, so the last call wins |
| Endpoints.Endpoint.WithContentType | endpoint.go:20-23 | sets only the content type, overriding the server default it started with, and returns the same endpoint |
| Endpoints.Endpoint.WithBody | endpoint.go:26-29 | sets only the body, to its argument, and returns the same endpoint, so the last call wins |
| Endpoints.Endpoint.ServeHTTP | endpoint.go:32-44 | appends to the writer exactly the writes of Render for the endpoint's current configuration; the endpoint itself is not modified |
| Stub.Patterns | httpstub.go:55 | one segment list per registered endpoint, in registration order, each Go's split of that endpoint's pattern on '/' |
| Stub.PatternsRejoin | httpstub.go:55 | splitting the patterns loses nothing: each segment list is non-empty, free of '/', and rejoins to the registered pattern |
| Stub.Select | httpstub.go:49-73 | the endpoint chosen for a request path, if any, is a registered one |
| Stub.Dispatch | httpstub.go:53-74 | whatever the server writes for a request is the rendering of one registered endpoint, and nothing at all otherwise |
| Stub.DispatchFirstMatch | httpstub.go:53-72 | when endpoint i matches and no earlier one does, endpoint i is selected and exactly its rendering is written |
| Stub.Recipes | httpstub.go:14 | the registry lists exactly the endpoints' current configurations, one per endpoint, in registration order |
| Stub.Served | httpstub.go:49-74 | under the net/http assumption, a matched request gets the selected endpoint's content type, its status when positive and not informational (200 otherwise), and its body unless the status is 101, 204 or 304; an unmatched one gets 200, an empty body and no content type |
| Stub.UnmatchedRequest | httpstub.go:53-74 | when no pattern matches, the server makes no write at all, and a client sees 200 with an empty body |
| Stub.EarlierEndpointWins | httpstub.go:53-72 | when endpoint i matches, no later endpoint j is chosen, and some endpoint no later than i is |
| Stub.RegisterKeepsEarlierMatches | httpstub.go:53-72 | registering one more endpoint does not change which endpoint serves, or what is written for, a request that already had a match |
| Stub.Server.constructor | httpstub.go:20 | the zero server has no endpoints and no default content type |
| Stub.Server.Path | httpstub.go:33-40 | appends exactly one fresh endpoint at the end, keeping the earlier ones and their order, and returns it; the new endpoint has path p, status 0, an empty body and the default content type current at the call |
| Stub.Server.WithDefaultContentType | httpstub.go:43-46 | changes only the default content type and returns the same server; registered endpoints keep theirs |
| Stub.Server.ServeHTTP | httpstub.go:49-74 | the labelled nested scan writes exactly what Dispatch prescribes for the registry at call time: the first matching endpoint's rendering, or nothing; only the writer changes |
| Scenarios.StatusScenario | httpstub_test.go:26-44 | a "/" endpoint with status code, requested at "/", answers with that code when it is positive and not informational, and 200 otherwise; the test's 200, 204, 404 and 500 are instances |
| Scenarios.ContentTypeScenario | httpstub_test.go:79-99 | a "/" endpoint with content type t, requested at "/", answers with Content-Type t |
| Scenarios.BodyScenario | httpstub_test.go:101-126 | a "/" endpoint with body b, requested at "/", answers with body b, including the empty body |
| Scenarios.PathMatchingRegistryPatterns | httpstub_test.go:50-53 | the four registered patterns split into their segment lists, and the endpoints carry the test's status codes |
| Scenarios.PathMatchingSingleSegment | httpstub_test.go:59-61 | a one-segment request "/x" selects "/nocontent" when x is nocontent, "/err" when x is err, and nothing otherwise, "/" included; the longer user patterns never match |
| Scenarios.PathMatchingUser | httpstub_test.go:62 | for any user id, "/user/id" skips the longer name pattern and falls to "/user/*" |
| Scenarios.PathMatchingUserName | httpstub_test.go:63-64 | for any user id, "/user/id/name" selects the name pattern registered before the user wildcard pattern |
| Scenarios.PathMatchingLiteralStatuses | httpstub_test.go:59-61 | "/", "/err" and "/nocontent" answer 200, 500 and 204 |
| Scenarios.PathMatchingUserStatuses | httpstub_test.go:62-64 | for any user id, "/user/id" answers 404 and "/user/id/name" answers 200 |
| Scenarios.PathMatchingServer | httpstub_test.go:47-53 | the server built by the test holds exactly the four endpoints, in order, with the test's paths and status codes and no content type or body |
| Scenarios.PathMatchingLiteralScenario | httpstub_test.go:46-77 | requesting "/", "/err" and "/nocontent" on that server yields 200, 500 and 204 |
| Scenarios.PathMatchingUserScenario | httpstub_test.go:46-77 | requesting "/user/id" and "/user/id/name" on that server yields 404 and 200 for any id, such as 1 or hello |
| Scenarios.ExampleRegistryPatterns | httpstub_example_test.go:20-26 | the example's three patterns split into their segment lists |
| Scenarios.ExampleSelection | httpstub_example_test.go:26-46 | a three-segment request under a user other than name or xml is served by "/user", the first matching prefix |
| Scenarios.ExampleResponse | httpstub_example_test.go:26-46 | on the example's registry, any "/user/id/leaf" other than name or xml answers with the JSON content type, status 200 and the "/user" body |
| Scenarios.ExampleServer | httpstub_example_test.go:15-26 | the example server holds exactly three endpoints: the name pattern with 204 and the JSON default, the xml pattern with its own content type and body, and "/user" with the JSON default and body |
| Scenarios.ExampleScenario | httpstub_example_test.go:15-48 | a request such as "/user/a1/meep" answers with the JSON content type, status 200 and the "/user" body with gender "f" |

## Left out

- `New` and `Close` (httpstub.go:19-30) start and stop an `httptest.Server` on a loopback socket. That is I/O. The `URL` and `srv` fields go with them. `Stub.Server.constructor` models only the zero `Server{}` that `New` creates.
- TestIsAnHTTPServer only exercises `New`, `Close` and a client round trip, so it has no counterpart.
- The `*http.Request` is reduced to its URL path. How net/http parses, decodes or cleans the path is not modelled. `Endpoint.ServeHTTP` ignores the request in the code, and the model drops it.
- net/http itself is not modelled; only the client view above is, as an assumption. Outside that view: Content-Type sniffing, `Content-Length`, the panic on status codes outside 100-999, and Go releases before 1.19, whose `WriteHeader` fixed a 1xx status like any other.
- `WithMethod`, TestEndpointWithMethods (httpstub_test.go:128-178) and line 23 of the package example are left out. endpoint.go defines no such method and no per-method storage. `Scenarios.ExampleServer` omits that line; the example's checks do not depend on it.
- Requests served concurrently by the HTTP server are not modelled. The code has no locking; each call is modelled as running alone.
- Go's `int` status is an unbounded `int` here. The code only compares it with 0 and passes it on, so its width plays no role.
- Go's byte strings are `string` values with one character per byte. UTF-8 encoding is not modelled.
