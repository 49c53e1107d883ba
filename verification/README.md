# gitlab.nvim backend: verified model of the request pipeline core

The Go backend of gitlab.nvim sits between the editor plugin and the GitLab
API. Most of it is HTTP plumbing. This project models the sequential decision
logic under that plumbing in Dafny and proves properties of it:

- **`withMr`**: lazy resolution of the current merge request. The shared
  `ProjectInfo.MergeId` is resolved once and then reused by all three `/mr/`
  routes (`WithMr`, `Router.Serve`).
- **`CreateRouter`**: option functions applied in order to a fresh `data`
  record, where the first error panics; the static route table; and
  dispatching a sequence of requests against the one shared session (`Router`).
- **`checkServer` / `StartServer`**: the readiness probe, bounded at ten
  attempts, and the rule that the port is announced only after a probe
  succeeds (`Lifecycle`).
- **`Client.init`**: startup argument checks in their fixed order, the
  partial update of the client record, the API client options, the lookup of
  the branch's merge request through `strconv.Itoa`/`Atoi`, and the token
  masking of the request log hook (`ClientSetup`, `Strconv`).
- **The response envelope and the three-way classification of upstream
  outcomes** (transport error, non-2xx, success). One generic classifier
  (`Upstream.Classify`) is parameterised by each endpoint's wording. It is
  used by the create-MR service (`CreateMr`) and by the legacy info handler
  (`Info`), and each uses its own generation's strings.

Go panics (an explicit `panic`, a nil dereference, an index out of range)
appear as `Wrappers.Crashable.Panicked`. The following collaborators are
parameters: the JSON decoder, the GitLab client's constructor and lister, the emoji
loader, `httputil.DumpRequest`, the listener's bind result, and the outcome
of each `http.Get` of `/ping`.

In these details the code does something other than its names or messages
suggest, and the model follows the code:
- the merge-request filter also carries scope `all`;
- a lookup whose first IID is 0 leaves the session unresolved, so the next
  request looks it up again;
- the port argument is never validated;
- the legacy info handler puts "Expected GET" in the message and "Invalid
  request type" in the details.

## Model

| member | source | states |
|---|---|---|
| `WithMr.Resolve` | cmd/app/server.go:160-189 | A resolved session passes through with no lookup and the next handler runs. An unresolved one makes exactly one lookup with scope "all", state "opened", the session's project and branch. A lister error halts with 500 "Failed to list merge requests" and details "Failed to list merge requests: <err>". An empty list halts with 400 "No merge requests found" and details naming the branch. In both failure cases MergeId stays 0. Otherwise MergeId becomes the first IID and the handler runs. |
| `Gitlab.OpenOnBranch` | cmd/app/server.go:164-168 | The lookup filter is scope "all", state "opened", source branch and project id as given. |
| `Router.NoLookupOnceResolved` | cmd/app/server.go:162-163 | Once MergeId is non-zero, any sequence of requests to any routes makes no lookup, leaves the session unchanged and is never refused. |
| `Router.ResolvedOnce` | cmd/app/server.go:163-187 | If the first wrapped request, after any number of direct ones, resolves a non-zero IID, the whole run makes exactly one lookup and ends with that IID, whichever routes later requests use. |
| `Router.ServeAppend` | cmd/app/server.go:72-76 | Serving two request sequences one after the other is serving the second from the session the first left, with lookups and replies concatenated in order. |
| `Router.ZeroIidLooksAgain` | cmd/app/server.go:182-183 | A first lookup whose first IID is 0 leaves the session unresolved, so a second wrapped request looks up again. |
| `Router.RefusedLookupRetries` | cmd/app/server.go:170-180 | A lookup that errors or finds nothing refuses the request and leaves the session unresolved, so the next wrapped request looks up again. |
| `Router.TwoRequests` | cmd/app/server.go:163-187 | For two wrapped requests, the second looks up exactly when the first left MergeId at 0, and the first is refused exactly when its resolution halted. |
| `Router.DirectRoutesNeverLookUp` | cmd/app/server.go:113-123 | Requests that never reach a wrapped route make no lookup and leave the session unchanged. |
| `Router.Serve` | cmd/app/server.go:72-76 | Requests are handled in order against one shared session. There is one reply per request and at most one lookup per request. Every lookup uses the same project and branch filter, and the project id never changes. |
| `Router.Handle` | cmd/app/server.go:109-123 | A request is refused exactly when the `withMr` resolution halted, and the refusal carries that resolution's envelope. |
| `Router.ApplyOptions` | cmd/app/server.go:89-94 | No options leave the fresh record as it is, and a failure can only come from an option. |
| `Router.FailingOption` | cmd/app/server.go:89-94 | A failed run names its failing option: every option before it succeeded, and that option's error on their result is the run's error. |
| `Router.ApplySplit` | cmd/app/server.go:89-94 | Applying options `a + b` is applying `a`, then `b` to its result. An error in `a` is the overall result. |
| `Router.FirstErrorAborts` | cmd/app/server.go:89-94 | If the options before position k succeed and option k fails, the whole run fails with option k's error. |
| `Router.CreateRouter` | cmd/app/server.go:80-125 | The router panics exactly when applying the options to the fresh record fails, and the panic carries that error. Otherwise it holds the resulting record and the route table. |
| `Router.StartupRouter` | cmd/app/server.go:26-34 | With `StartServer`'s four options, the router panics exactly when the emojis fail to load. Otherwise it holds the caller's session and git record, with the remote-commit lookup installed into the record that option two set. |
| `Router.StartupRouterServesSession` | cmd/app/server.go:26-34 | The router that `StartServer` builds looks up only the caller's project on the caller's branch. A session that already names a merge request is never looked up or changed. |
| `Router.PatternsDistinct` | cmd/app/server.go:109-123 | No pattern is registered twice. |
| `Router.WrappedRoutes` | cmd/app/server.go:109-123 | A route goes through `withMr` exactly when its pattern starts with `/mr/`. |
| `Router.WrappedPatterns` | cmd/app/server.go:109-111 | The wrapped patterns are exactly `/mr/awardable/note/`, `/mr/draft_notes/` and `/mr/draft_notes/publish`, and each is dispatched as wrapped. |
| `Lifecycle.CheckServer` | cmd/app/server.go:135-145 | Makes between 1 and 10 probes. Returns nil at the first ready probe (no error and status 200), and only then. If no probe within ten is ready, it returns "Could not start server!" after exactly ten probes. |
| `Lifecycle.RefusedConnectionPanics` | cmd/app/server.go:137-138 | As written, a probe with no response (a refused connection) dereferences nil instead of being retried. |
| `Lifecycle.AsWrittenWithResponses` | cmd/app/server.go:135-145 | As written, when every probe returns a response, the code never panics and returns nil exactly when some probe within ten is ready. |
| `Lifecycle.StartServer` | cmd/app/server.go:35-63 | A bind failure prints the error and exits 1 before serving. Otherwise the server starts serving. The port line is printed exactly when a probe succeeded, after serving began and before waiting for shutdown. When no probe succeeds, "Server did not respond" is printed and the process exits 1. |
| `Lifecycle.AnnouncedPortParses` | cmd/app/server.go:59-60 | The announcement line starts with "Server started on port:  ", and the text after it, up to the newline, parses back to the port. |
| `ClientSetup.Init` | cmd/client.go:68-137 | Fewer than six arguments fail with the argument message and change nothing. A settings decode failure comes first and changes nothing. Then the project id, instance and token checks run in that order, and the first failure wins with its own message and no change. No field is written before all of these pass. After that, the instance, project id, token and last argument are written even if a later step fails. The constructor and lister errors carry their prefixes, an empty list gives "No merge requests found", and the merge id and client change only on success. |
| `ClientSetup.ClientOptions` | cmd/client.go:104-116 | The base URL is the instance followed by "/api/v4". The request hook is included exactly when request logging is on, and the response hook exactly when response logging is on. |
| `ClientSetup.PortNeverRead` | cmd/client.go:74-77 | Replacing the port argument (index 3) with any text leaves the result of `init` unchanged, so the port is never validated. |
| `ClientSetup.InitResolvesFirstIid` | cmd/client.go:124-148 | When the checks, the constructor and the lookup all succeed, `init` succeeds. The merge id is then the first listed IID and the client is the constructed one, because printing and re-parsing the IID cannot fail. |
| `ClientSetup.FiveArgumentsPanic` | cmd/client.go:70-77 | As written, exactly five arguments pass the guard, and reading the settings argument at index 5 then panics. |
| `ClientSetup.AsWrittenAgreesOffFive` | cmd/client.go:70-77 | For every argument count other than five, the code as written and the corrected guard give the same result. |
| `ClientSetup.RequestLog` | cmd/client.go:41-48 | The dump sees the token header as "xxxx" and every other header unchanged. Afterwards the header holds its original value again, or an empty value if it was absent. The log entry frames the dump. |
| `Strconv.AtoiItoa` | cmd/client.go:139-143 | Parsing the decimal text of any 64-bit integer gives that integer back, so the error return after the round trip is unreachable. |
| `Strconv.Itoa` | cmd/client.go:139 | The text starts with a minus sign exactly for negative numbers, and the rest is digits. |
| `Strconv.Atoi` | cmd/client.go:140 | A successful parse means an optional sign followed by at least one digit, with the result's sign matching the text. Any failure is a syntax or range error. |
| `Strconv.AtoiOverflowBeforeBadChar` | cmd/client.go:140 | Digits are scanned left to right and the unsigned 64-bit bound is checked at each digit, so digits that pass the bound give a range error even when a non-digit follows them. |
| `Envelope.HandleError` | cmd/client.go:151-159 | The header status and the body's status are both the given status. The body is a failure with the given message and the error text as details. |
| `Upstream.Classify` | cmd/app/create_mr_test.go:41-61 | The envelope is a success exactly for a 2xx answer, and then it is a 200 carrying the success message and the answered data. A transport error gives a 500 with the endpoint's failure message and the error text. A non-2xx answer is forwarded with its own status and the endpoint's fixed message and detail. The header status always equals the body's status. |
| `Upstream.ClassificationIsUniform` | cmd/app/create_mr_test.go:52-61 | Any two endpoints that see the same upstream outcome answer with the same status and the same variant, whatever their wording. |
| `Upstream.StatusRevealsKind` | cmd/info_test.go:29-47 | When upstream never answers 500 itself, a 500 envelope means a transport error and a 200 means an accepted call. |
| `CreateMr.FakeCreate` | cmd/app/create_mr_test.go:14-20 | The fake returns an error together with a nil merge request and a nil response exactly when its test base errors. Otherwise it returns a zero merge request with the configured status and no error. |
| `CreateMr.FakeIsReadable` | cmd/app/create_mr_test.go:14-20 | The fake's triple can always be read error-first without a nil dereference. It reads back as the test base's decision. |
| `CreateMr.CreateMrService` | cmd/app/create_mr_test.go:22-91 | Every failure says "Could not create MR". An empty title gives 400 "Title cannot be empty", and that check comes first. An empty target branch gives 400 "Target branch cannot be empty". The result is a success exactly when both fields are present and upstream answered 2xx, and then the message is "MR '<title>' created". A transport error gives 500 with the error text, and a non-2xx answer is forwarded with the /create_mr detail. |
| `CreateMr.FieldChecksPrecedeUpstream` | cmd/app/create_mr_test.go:63-91 | A payload that fails a field check gets the same answer whatever upstream would have returned. |
| `CreateMr.TestedCases` | cmd/app/create_mr_test.go:30-91 | The five test cases (success, client error, 303, missing title, missing target branch) give the envelopes the tests assert. |
| `Info.FakeHandlerClient` | cmd/info_test.go:9-47 | A non-empty error text is a transport error. Otherwise the fake answers with its title and its status, where an unset status counts as 200. |
| `Info.InfoHandler` | cmd/info_test.go:8-47 | A non-GET request gives 405 with message "Expected GET" and details "Invalid request type". A GET succeeds exactly when upstream answered 2xx, with message "Merge requests retrieved" and the upstream data unchanged. A transport error gives 500 "Could not get project info and initialize gitlab.nvim plugin" with the error text. A non-2xx answer is forwarded with "Gitlab returned non-200 status" and "An error occured on the /info endpoint", spelled as in the source. |
| `Info.TestedCases` | cmd/info_test.go:9-47 | The four test cases give the exact statuses and strings the tests assert. |

## Findings

| source | as written | input that shows it | evidently intended | confidence | as-written member | corrected member |
|---|---|---|---|---|---|---|
| cmd/client.go:70-77 | The guard `len(os.Args) < 5` lets five arguments through, and the code then reads `os.Args[5]`. | Five arguments: program, project id, instance, port, token. | Reject any argument list shorter than six. `< 6` is the smallest guard under which every fixed index read (1, 2, 4 and 5) is in range. The message at cmd/client.go:71 names only four values, so the bound is assumed from the reads at lines 74-77, not from the message. | High; not executed | `ClientSetup.InitAsWritten` (shown by `ClientSetup.FiveArgumentsPanic`) | `ClientSetup.Init` |
| cmd/app/server.go:137-138 | The code reads `resp.StatusCode` before checking `err`. `http.Get` returns a nil response along with its error. | A first probe whose connection is refused. | Check the error first, then retry. | High; not executed | `Lifecycle.CheckServerAsWritten` (shown by `Lifecycle.RefusedConnectionPanics`) | `Lifecycle.CheckServer` |

With exactly six arguments, the corrected `Init` reads the settings argument as the log path too, because the log path is the last argument.

## Left out

- Concurrency: `withMr` takes no lock around its check-then-set (cmd/app/server.go:163-183). Only sequential semantics are modelled, and single-flight resolution is not implemented by the code either.
- Listener binding, `http.Server.Serve`, the serving goroutine, `os.Exit`, and stdout and stderr. These appear only as the abstract event trace of `Lifecycle.StartServer`. The `time.Sleep` between probes is not modelled.
- The shutdown handler and `WatchForShutdown`: their source is not part of this model.
- `http.ServeMux` pattern matching: dispatch is by exact pattern. Subtree patterns ending in `/`, such as `/mr/draft_notes/12`, are not modelled.
- The app generation's method and payload validators (`validateMethods`, `validatePayloads`): their source is not part of this model. `CreateMr.CreateMrService` starts from a bound payload.
- The service code behind `/create_mr` and `/info` is not part of this model. Their behaviour is taken from the test assertions.
- The non-2xx detail "An error occurred on the /create_mr endpoint": the helper `checkNon200` that asserts it is not part of this model. The text is assumed: it follows the shape of the /info handler's detail, asserted at cmd/info_test.go:46.
- Lifecycle.StartServer: uses the corrected `CheckServer`. As written, a probe with no response panics at cmd/app/server.go:53 (through line 137) instead of printing "Server did not respond".
- CreateMr.CreateMrService: the title check coming first when both the title and the target branch are empty is inferred from the order the tests list the cases. Each test leaves the other field set, so this order is not tested.
- Info.InfoHandler: success on any 2xx answer is inferred from the shared classification. The tests use only 200 and a failing status, and the wording "Gitlab returned non-200 status" may instead mean a check for exactly 200.
- Upstream.Classify: treats 200-299 as success. The code that draws this line is not part of this model, and the tests only use 200 and 303.
- Info.FakeHandlerClient: the fake's own body is not part of this model. An unset status is read as 200, as the success test requires.
- CreateMr.FakeCreate: the shared test base's `handleGitlabError` is not part of this model. Its verdict, an error or a response status, is a parameter.
- JSON decoding, the go-gitlab and retryablehttp clients, and `httputil.DumpRequest` are function parameters.
- `responseLogger` and the log-file writes: these are file I/O only.
- ClientSetup.RequestLog: each header holds a single value. Go's multi-valued headers are not modelled.
- ClientSetup.ClientOptions: joins the instance and "/api/v4" by concatenation. The source passes the instance to `fmt.Sprintf` as a format string, so a `%` in the URL would be rewritten there, and this model does not capture that.
- Strconv.Atoi: the error text quotes the input as it is. `strconv.Quote` escaping is not modelled. The `ParseInt` sign handling and `ParseUint`'s digit loop are modelled, but its underscore and base-prefix rules are not, because `Atoi` passes base 10 and no underscores are accepted there.
- `FileMiddleware` and `ClientMiddleware` (cmd/middleware.go) are file reads and a trivial wrapper. The file-read error path there writes an error but has no `return` (cmd/middleware.go:60-63), and the second `err != nil` check (cmd/middleware.go:49-52) is dead code.
- Emoji loading and `git.GetLatestCommitOnRemote` are represented only by the loader's verdict and by a marker that the lookup is installed.
