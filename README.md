# Memtime client core in Dafny

This project models the decision logic of the Memtime time-tracking client
and of its serverless proxy, and proves properties about it:

- **The three loader composables, as classes.**
  - the paginated list loader (`usePagination`);
  - the lazily loading tree node (`useExpandableNode`);
  - the delete-with-confirmation flow (`useDeleteTimeEntry`).

  Every `await` is split into the call that starts the asynchronous work and
  the events that settle it. `Load` returns a request number, and
  `Resolve`/`Reject` come back with that number. The caller chooses the order
  of events, so stale and out-of-order answers can be stated and proved
  about. A ghost set of requests still in flight keeps the events honest.
- **Duration text and the `datetime-local` value.** `formatDuration` works
  over optional millisecond time values. `toLocalDatetime` works over a
  date's local calendar fields.
- **The query string and the URLs of the service functions.** This includes
  the `application/x-www-form-urlencoded` serialisation of `URLSearchParams`,
  together with a parser to read it back.
- **The proxy handler.** It covers the path and configuration checks, the URL
  join, the forwarding of the query, the method and body rules, and the reply
  table. The handler is a method with the source's loop over the query.
  `fetch` and the URL parser are parameters of the handler.
- **Errors and configuration.**
  - the `ApiError` record and its factories;
  - the status-to-message table and the error predicates;
  - the response interceptor's message priority and the proxy-mode request
    rewrite;
  - the validation of the client configuration and its lazily filled cache.

Modules:

| Module | File |
|---|---|
| `Wrappers` | `Option` and `Result` |
| `Strings` | `String(n)`, `join`, `split` and `padStart` |
| `FormUrl` | form encoding and `URLSearchParams` |
| `Domain` | records and constants |
| `Errors` | the `ApiError` record and the thrown-value type |
| `ErrorMessages` | the status table and error predicates |
| `ApiConfig` | configuration validation and its cache |
| `ApiClient` | client set-up and the two interceptors |
| `Services` | query strings and service requests |
| `DateUtils` | duration text and `datetime-local` values |
| `Proxy` | the serverless proxy handler |
| `UsePagination` | the paginated list loader |
| `UseExpandableNode` | the lazily loading tree node |
| `UseDeleteTimeEntry` | the delete-with-confirmation flow |

How the model represents values the source takes from outside:

- A thrown value is `Thrown`. It is either an `Error` instance, with its
  message and its `isApiError`/`isRateLimited` flags, or any value that is
  not an `Error`.
- A parsed `Date` is its time value in milliseconds. `None` stands for an
  invalid date. A value is valid when its magnitude is at most
  8.64 × 10^15 ms, the ECMAScript time range.
- Calendar fields are given, not computed.
- The environment (`import.meta.env`, `process.env`) is an argument. An unset
  variable is `None`.

Points of the code's behaviour the model records as written:

- The proxy tests the incoming `req.method` for the body before defaulting
  the method to `GET`. A request without a method but with a body is sent as
  a `GET` with a body, which `fetch` refuses, so the proxy replies 502
  (`AbsentMethodWithBody`).
- A non-JSON upstream body becomes a truncated message only for a failed
  status. For a 2xx status the message is "Unexpected response format".
- The proxy parses the upstream text and re-serialises it. The model records
  the text (`Forwarded`) and leaves the re-serialisation out.
- `toggleExpand` awaits the load and only then flips the expansion. The flip
  happens even when the load failed (`FailedLoadRetries`).

## Model

| member | source | states |
|---|---|---|
| Strings.NatToString | src/utils/date.ts:138-140 | `String(n)` of a natural number: at least one digit, all decimal digits, no leading zero, one character exactly below 10 |
| Strings.IntToString | src/api/services.ts:10-11 | `String(i)` of an integer is all digits exactly when `i` is non-negative, and is never empty |
| Strings.DigitsValueOfNatToString | src/utils/date.ts:138-140 | reading the decimal rendering back gives the number |
| Strings.IntToStringInjective | src/api/services.ts:27 | different integers render differently |
| Strings.JoinNonEmpty | src/utils/date.ts:142 | joining a non-empty list of non-empty parts gives a non-empty text |
| Strings.SplitJoin | src/utils/date.ts:142 | splitting a join at its separator gives the parts back when no part contains the separator |
| Strings.PadStart | src/utils/date.ts:158-161 | `padStart`: the result has the target width (or the original length), ends with the original, and is filled with the pad character |
| Strings.PadTwoDigits | src/utils/date.ts:158-161 | a number below 100 padded to two is its tens digit then its units digit, and reads back as the number |
| FormUrl.FormEncode | src/api/services.ts:9-15 | form encoding yields only unreserved characters, '+' and '%' |
| FormUrl.FormEncodeSafe | src/api/services.ts:10-13 | form encoding leaves a text of unreserved characters unchanged |
| FormUrl.EncodePairs | src/api/services.ts:15 | each pair is encoded on its own, in order |
| FormUrl.SerializeEmpty | src/api/services.ts:15-16 | the serialisation is empty exactly when there are no pairs |
| FormUrl.SearchParams.Append | src/api/services.ts:10-13 | `append` adds the pair at the end and keeps earlier pairs |
| FormUrl.ParseSerialize | src/api/services.ts:15 | parsing the serialisation gives the encoded pairs back, in order |
| FormUrl.ParseSerializeSafe | src/api/services.ts:15 | for unreserved keys and values, parsing the serialisation gives the pairs exactly |
| Errors.NewApiError | src/api/errors.ts:6-21 | every `ApiError` has `isApiError` and the name "ApiError", and keeps its message, status and flags |
| Errors.ConstructorDefaults | src/api/errors.ts:14-15 | both flags default to false |
| Errors.FromResponse | src/api/errors.ts:32-34 | status and message are kept, rate-limited exactly for 429, never a network error |
| Errors.NetworkError | src/api/errors.ts:39-41 | status 0, a network error, not rate-limited |
| Errors.Throw | src/api/errors.ts:5 | an `ApiError` caught is an `Error` carrying its message |
| ErrorMessages.StatusMessage | src/config/error-messages.ts:33-38 | a dedicated message exactly for 400, 404, 429 and 500, each the listed text, never empty |
| ErrorMessages.GetErrorMessage | src/config/error-messages.ts:44-49 | the message of an `Error`, the fallback for any other value |
| ErrorMessages.IsApiError | src/config/error-messages.ts:54-56 | an `Error` whose `isApiError` flag is set; `ApiErrorRecognised` states which values pass |
| ErrorMessages.IsRateLimitError | src/config/error-messages.ts:61-63 | an API error whose `isRateLimited` flag is set; `RateLimitErrorIffResponse429` states which values pass |
| ErrorMessages.RateLimitErrorIsApiError | src/config/error-messages.ts:61-63 | a rate-limit error is an API error |
| ErrorMessages.ApiErrorRecognised | src/config/error-messages.ts:54-56 | every constructed `ApiError` is recognised; a plain `Error` and a non-`Error` are not |
| ErrorMessages.RateLimitErrorIffResponse429 | src/config/error-messages.ts:61-63 | of the errors the factories build, exactly those from a 429 response are rate-limit errors |
| ErrorMessages.MessageOfApiError | src/config/error-messages.ts:44-49 | a caught `ApiError` always shows its own message, never the fallback |
| ApiConfig.MissingVariables | src/config/api.config.ts:38-40 | the base-URL variable is listed exactly when the base URL is empty, the key variable exactly when the key is empty, in that order, nothing else |
| ApiConfig.GetApiConfig | src/config/api.config.ts:27-49 | proxy mode gives empty values and no error; direct mode fails exactly when a variable is empty, names the missing ones in the message, and otherwise returns both unchanged |
| ApiConfig.BothMissingMessage | src/config/api.config.ts:42-45 | with both variables missing (unset or empty) the message lists them comma-separated, in order |
| ApiConfig.ConfigCache.Resolve | src/config/api.config.ts:52-62 | the first successful read fills the cache; later reads answer from it; a failed validation leaves it empty |
| ApiConfig.ConfigCache.BaseUrl | src/config/api.config.ts:55-58 | the base URL from the cache, filling it on first access |
| ApiConfig.ConfigCache.ApiKey | src/config/api.config.ts:59-62 | the key from the cache, filling it on first access |
| ApiConfig.CachedAnswerScenario | src/config/api.config.ts:52-62 | once filled, the cache answers even when the variables would no longer validate |
| ApiClient.CreateApiClient | src/api/client.ts:26-35 | proxy mode uses `/api/proxy` and no credential and leaves the cache alone; direct mode uses the configured base URL and a bearer token, or fails with the configuration error, and the cache is filled on the first successful read |
| ApiClient.RewriteForProxy | src/api/client.ts:39-48 | `params.path` becomes the original URL (or ""), overriding an earlier `path`; every other parameter is kept; the URL becomes "" |
| ApiClient.ResponseMessage | src/api/client.ts:58-60 | the mapped status message first, then a truthy `data.error`, then the generic text; never empty |
| ApiClient.Rejection | src/api/client.ts:56-66 | a response becomes `fromResponse(status, message)`, no response a network error with the network message |
| ApiClient.RejectionClassified | src/api/client.ts:56-66 | the status is kept (0 without a response), only 429 is rate-limited, only a missing response is a network error, the message is never empty |
| ApiClient.MappedStatusIgnoresServerText | src/api/client.ts:58-59 | for a mapped status the server's `error` text makes no difference |
| ApiClient.LoaderShowsRejectionMessage | src/api/client.ts:56-66 | a loader catching the rejection shows the interceptor's message, and sees a rate-limit error exactly for 429 |
| Services.QueryEntriesContents | src/api/services.ts:10-13 | limit and offset whenever given (0 included), sortBy only when non-empty, order whenever given; nothing else; keys in the order limit, offset, sortBy, order |
| Services.QueryString | src/api/services.ts:6-17 | "" without parameters or when nothing is appended, otherwise '?' followed by the serialised pairs |
| Services.BuildQueryString | src/api/services.ts:6-17 | the builder loop produces the query string of the parameters |
| Services.QueryStringRoundTrip | src/api/services.ts:9-16 | for a `sortBy` of unreserved characters, reading the query back gives the appended pairs, in order |
| Services.IntToStringSafe | src/api/services.ts:10-11 | a rendered number needs no encoding |
| Services.GetClients | src/api/services.ts:20-23 | a GET of the clients endpoint followed by the query string; `RequestKinds` states its verb and payload, `ListUrlCarriesQuery` its URL |
| Services.GetClientProjects | src/api/services.ts:26-29 | a GET of the client's projects followed by the query string; `RequestKinds` and `ListPathsDistinct` |
| Services.GetProjectTasks | src/api/services.ts:32-35 | a GET of the project's tasks followed by the query string; `RequestKinds` and `ListPathsDistinct` |
| Services.GetTimeEntries | src/api/services.ts:38-41 | a GET of the time-entries endpoint followed by the query string; `ListUrlCarriesQuery` |
| Services.GetTimeEntry | src/api/services.ts:43-46 | a GET of the entry's URL; `SingleEntryTargets` |
| Services.CreateTimeEntry | src/api/services.ts:48-51 | a POST of the payload to the collection; `RequestKinds` |
| Services.UpdateTimeEntry | src/api/services.ts:53-56 | a PUT of the payload to the entry's URL; `RequestKinds` |
| Services.DeleteTimeEntry | src/api/services.ts:58-60 | a DELETE of the entry's URL without payload; `RequestKinds` |
| Services.RequestKinds | src/api/services.ts:20-60 | the reads carry no payload; creation posts to the collection; update puts and delete sends to the entry's URL |
| Services.ListUrlCarriesQuery | src/api/services.ts:20-41 | for a `sortBy` of unreserved characters, each of the four list URLs (clients, a client's projects, a project's tasks, time entries) is its endpoint, '?', and a query that reads back as the parameters |
| Services.SingleEntryTargets | src/api/services.ts:43-60 | get, update and delete by id target one URL with no query string, and different ids give different URLs |
| Services.ListPathsDistinct | src/api/services.ts:26-35 | different clients' project lists and different projects' task lists have different URLs |
| DateUtils.Components | src/utils/date.ts:132-135 | days, hours below 24 and minutes below 60 whose total is at most the difference and less than a minute short of it |
| DateUtils.ComponentsUnique | src/utils/date.ts:132-135 | that decomposition is the only one |
| DateUtils.FormatDuration | src/utils/date.ts:119-143 | the push-based builder yields the duration text: fallback for an invalid date, "Invalid range" for a negative difference, "0m" for zero, the joined non-zero parts otherwise |
| DateUtils.DisplayedParts | src/utils/date.ts:137-140 | the parts pushed for a decomposition; its shape is stated by `DisplayedPartsShape` and its numbers by `DisplayedPartsValues` |
| DateUtils.DurationText | src/utils/date.ts:119-143 | the text `formatDuration` returns; `FormatDuration` is proved equal to it, `DurationTextSplits` recovers its parts |
| DateUtils.DisplayedPartsValues | src/utils/date.ts:137-140 | every non-zero component is shown, and each shown part carries the component of its unit |
| DateUtils.DisplayedPartsShape | src/utils/date.ts:137-140 | one to three parts, each a number and one of d, h, m; units in the order d, h, m; a zero only as the lone "0m" |
| DateUtils.DurationTextSplits | src/utils/date.ts:142 | the text splits at single spaces into exactly its parts |
| DateUtils.DurationTextNonEmpty | src/utils/date.ts:119-143 | the text is never empty |
| DateUtils.DurationExamples | src/utils/date.ts:123-142 | equal times give "0m", reversed "Invalid range", 45 s "0m", 2.5 h "2h 30m", one day "1d", an invalid date "—" |
| DateUtils.ToLocalDatetime | src/utils/date.ts:153-163 | "" exactly for an invalid date |
| DateUtils.RenderedFields | src/utils/date.ts:156-162 | for every valid date and any year, the value is `String(year)` then '-', the one-based month, '-', day, 'T', hour, ':', minute, each field two digits spelling that field; for a non-negative year, `String(year)` is digits spelling the year |
| DateUtils.ParseRendered | src/utils/date.ts:158-162 | year digits followed by any well-formed `-MM-DDTHH:MM` tail read back as the values of those fields |
| DateUtils.LocalDatetimeRoundTrip | src/utils/date.ts:153-163 | reading the value back gives the same fields, month included |
| DateUtils.LocalDatetimeLength | src/utils/date.ts:157-162 | a four-digit year gives the 16-character `YYYY-MM-DDTHH:MM` form |
| Proxy.QueryLookup | api/proxy.ts:23 | the value of the first entry named by the key, present exactly when such an entry exists |
| Proxy.TrimTrailingSlash | api/proxy.ts:40 | exactly one trailing slash is removed, if there is one |
| Proxy.EnsureLeadingSlash | api/proxy.ts:41 | the path starts with a slash, unchanged when it already did |
| Proxy.FullUrlSingleSlash | api/proxy.ts:40-42 | exactly one slash separates base and path when neither doubles it |
| Proxy.ForwardedQueryMembers | api/proxy.ts:47-51 | a pair is forwarded exactly when the query holds it as a single string under a key other than `path` |
| Proxy.ForwardedQueryLength | api/proxy.ts:47-51 | nothing beyond the query is forwarded, and never `path` |
| Proxy.AsciiUpper | api/proxy.ts:57 | ASCII upper case, letter by letter |
| Proxy.OutgoingBody | api/proxy.ts:63-65 | a body goes unless the incoming method is exactly GET or HEAD, and only a body that is there |
| Proxy.ReplyFor | api/proxy.ts:69-98 | a transport failure gives 502; every answered status is passed on |
| Proxy.ReplyTable | api/proxy.ts:69-93 | 429 gives the friendly message; empty text `{}`; JSON forwarded; non-JSON "Unexpected response format" for 2xx, the first 100 characters otherwise |
| Proxy.NonJsonErrorShowsPrefix | api/proxy.ts:86-88 | a failed non-JSON reply carries a non-empty prefix of at most 100 characters of the text (the "Server error" fallback is never reached) |
| Proxy.FullUrl | api/proxy.ts:40-42 | the base without its trailing slash, then the path with a leading slash; `FullUrlSingleSlash` |
| Proxy.ForwardedQuery | api/proxy.ts:47-51 | the forwarded query pairs in order; `ForwardedQueryMembers` and `ForwardedQueryLength` |
| Proxy.Outcome | api/proxy.ts:21-100 | the reference reply and upstream call of the handler; `Handler` is proved equal to it and the lemmas below state its cases |
| Proxy.Handler | api/proxy.ts:21-100 | the handler with its forwarding loop yields the reference outcome |
| Proxy.MissingPathRejected | api/proxy.ts:23-27 | 400 without an upstream call exactly when `path` is absent or empty, whatever the configuration |
| Proxy.MissingConfigurationRejected | api/proxy.ts:30-36 | with a path, 500 without an upstream call exactly when the base URL or key is missing |
| Proxy.UpstreamRequestShape | api/proxy.ts:40-66 | the upstream call gets the joined URL, the forwarded query, the bearer key, the defaulted method and a permitted body only |
| Proxy.StatusForwarded | api/proxy.ts:69-98 | after an upstream call the reply has the upstream status, or 502 for a transport failure |
| Proxy.AbsentMethodWithBody | api/proxy.ts:57-65 | no method but a body: the request is refused before the upstream call and the reply is 502 |
| Proxy.RefusedMethodRejected | api/proxy.ts:55-66 | a method `fetch` refuses (not a token, or CONNECT, TRACE, TRACK in any case) is never sent and gives the 502 reply |
| Proxy.ForbiddenMethodExamples | api/proxy.ts:57 | `trace` and `Connect` are forbidden methods |
| Proxy.MethodTokenExamples | api/proxy.ts:57 | `GET ME` is not a method; `PATCH` is one and is allowed |
| Proxy.UpperCaseMethodBody | api/proxy.ts:63-65 | with an upper-case method, a body is sent exactly for methods other than GET and HEAD |
| UsePagination.PagesTile | src/composables/usePagination.ts:49-67 | page one starts at 0, each page where the previous ends, each request asks for `pageSize + 1`, sortBy only when non-empty |
| UsePagination.ExtraItemDetectsNextPage | src/composables/usePagination.ts:59-78 | the extra item tells exactly whether items lie beyond the page; keeping `pageSize` of the answer gives the page |
| UsePagination.Take | src/composables/usePagination.ts:78 | a prefix of the answer: all of it when short, exactly `pageSize` items otherwise |
| UsePagination.Pagination.constructor | src/composables/usePagination.ts:32-43 | default page size 10 and fallback "Failed to load items"; empty items, page 1, more pages assumed, loading, no error |
| UsePagination.Pagination.Load | src/composables/usePagination.ts:51-69 | a new request number, loading on, error cleared, parameters `pageSize + 1` at the current offset with the set sort options |
| UsePagination.Pagination.Resolve | src/composables/usePagination.ts:69-88 | the current request sets the page to the first `pageSize` items and `hasMore` to "more came back", and stops loading; a stale or post-unmount answer changes nothing |
| UsePagination.Pagination.Reject | src/composables/usePagination.ts:79-88 | the current request shows the thrown message or the fallback, keeps items and `hasMore`, stops loading; stale failures change nothing |
| UsePagination.Pagination.GoToPage | src/composables/usePagination.ts:91-99 | nothing while loading, below page one or forward past the last page; otherwise the page changes and a load starts |
| UsePagination.Pagination.NextPage | src/composables/usePagination.ts:101-105 | exactly when more pages exist and nothing is loading: one page forward, a new request id, the parameters of that page, loading on and the error cleared; otherwise nothing changes |
| UsePagination.Pagination.PreviousPage | src/composables/usePagination.ts:107-111 | exactly when past page one and nothing is loading: one page back, a new request id, the parameters of that page, loading on and the error cleared; otherwise nothing changes |
| UsePagination.Pagination.Refresh | src/composables/usePagination.ts:113-115 | reloads the current page, even while loading |
| UsePagination.Pagination.Unmount | src/composables/usePagination.ts:118-120 | sets the latch and nothing else |
| UsePagination.OutOfOrderAnswers | src/composables/usePagination.ts:53-85 | when an older answer arrives after a newer one, the list shows the newer answer and stops loading |
| UsePagination.AnswerAfterUnmount | src/composables/usePagination.ts:47-120 | a failure after unmount leaves the list as it was |
| UseExpandableNode.ExpandableNode.constructor | src/composables/useExpandableNode.ts:16-29 | fallback "Failed to load items", cache on by default; collapsed, not loading, empty, no error, not loaded |
| UseExpandableNode.ExpandableNode.Load | src/composables/useExpandableNode.ts:41-48 | a new request number, loading on, error cleared |
| UseExpandableNode.ExpandableNode.ToggleExpand | src/composables/useExpandableNode.ts:31-39 | loads exactly when nothing is loaded or caching is off, and nothing is loading; otherwise flips the expansion at once when mounted |
| UseExpandableNode.ExpandableNode.Resolve | src/composables/useExpandableNode.ts:36-61 | the current request stores the items and marks the node loaded (never unmarked); a waiting toggle then flips the expansion |
| UseExpandableNode.ExpandableNode.Reject | src/composables/useExpandableNode.ts:36-61 | the current request shows the message or fallback and keeps items and `hasLoaded`; a waiting toggle still flips |
| UseExpandableNode.ExpandableNode.Unmount | src/composables/useExpandableNode.ts:66-68 | sets the latch and nothing else |
| UseExpandableNode.CachedReexpand | src/composables/useExpandableNode.ts:19-35 | with the cache on, of expand, collapse, expand only the first toggle starts a request, and the node ends expanded with the answer |
| UseExpandableNode.UncachedReload | src/composables/useExpandableNode.ts:33-53 | with the cache off, each toggle starts its own request, with a new id, and the newest answer is shown |
| UseExpandableNode.FailedLoadRetries | src/composables/useExpandableNode.ts:36-57 | a failed first load still expands the node, shows the error and lets the next toggle retry |
| UseDeleteTimeEntry.DeleteTimeEntryFlow.constructor | src/composables/useDeleteTimeEntry.ts:17-21 | modal closed, nothing selected, not deleting, no error |
| UseDeleteTimeEntry.DeleteTimeEntryFlow.ConfirmDelete | src/composables/useDeleteTimeEntry.ts:26-32 | selects the entry and its id, opens the modal, clears the error |
| UseDeleteTimeEntry.DeleteTimeEntryFlow.ConfirmDeleteById | src/composables/useDeleteTimeEntry.ts:37-42 | selects the id with no entry, opens the modal, clears the error |
| UseDeleteTimeEntry.DeleteTimeEntryFlow.CancelDelete | src/composables/useDeleteTimeEntry.ts:47-51 | closes the modal and clears the selection, keeping the error |
| UseDeleteTimeEntry.DeleteTimeEntryFlow.HandleDelete | src/composables/useDeleteTimeEntry.ts:56-63 | nothing without an id or while deleting; otherwise the delete request for the selected id, deleting on, error cleared |
| UseDeleteTimeEntry.DeleteTimeEntryFlow.DeleteResolved | src/composables/useDeleteTimeEntry.ts:64-67 | closes the modal and clears the selection before the success callback |
| UseDeleteTimeEntry.DeleteTimeEntryFlow.DeleteRejected | src/composables/useDeleteTimeEntry.ts:68-72 | shows the thrown message or "Failed to delete time entry", keeps the modal and selection, stops deleting |
| UseDeleteTimeEntry.DeleteTimeEntryFlow.SuccessCallbackSettled | src/composables/useDeleteTimeEntry.ts:67-72 | deleting ends; a failing callback is reported like a failing delete |
| UseDeleteTimeEntry.DeleteTimeEntryFlow.ClearError | src/composables/useDeleteTimeEntry.ts:78-80 | clears the error and nothing else |
| UseDeleteTimeEntry.DeleteConfirmedEntry | src/composables/useDeleteTimeEntry.ts:26-72 | confirming and deleting an entry sends the delete for its id and ends closed, with nothing selected and no error |
| UseDeleteTimeEntry.DoubleSubmitThenFailure | src/composables/useDeleteTimeEntry.ts:57-70 | a second submit while deleting sends nothing; a failure keeps the modal open on the same id with the message |

## Left out

- **Vue reactivity.** `ref`, `computed` and `onUnmounted` become plain
  fields, the `Offset` function and an explicit `Unmount` method.
- **Promise scheduling.** Each `await` becomes a pair of events whose order
  the caller picks.
- UseExpandableNode.ExpandableNode.Resolve, UseExpandableNode.ExpandableNode.Reject:
  the flip that `toggleExpand` performs after `await load()` is folded into
  the settlement of the same request. The microtask gap between the two is
  not modelled.
- **Transport.** Axios, `fetch`, the Vercel request and response objects and
  `console` logging are abstract.
  - `fetch` is a parameter function of `Proxy.Handler`, and `new URL` is a
    parameter predicate.
  - The exception `new URL` throws for an unparseable URL is the `Crashed`
    outcome. So is the one `startsWith` throws when `path` is an array.
- Proxy.Handler does not model the serialisation of the URL by the `URL`
  class. The upstream request records the joined URL and the appended
  parameters separately.
- **JSON.** `JSON.parse` of the upstream text is a flag of the answer.
  `JSON.stringify` of the request body is taken as given text. The reply
  body records which branch was taken, not the bytes `res.json` writes.
- Proxy.ReplyFor cuts the text at 100 `char`s, Unicode scalar values. The
  source's `substring(0, 100)` counts UTF-16 code units, so a text with
  characters outside the Basic Multilingual Plane is cut shorter there and
  can end in half a surrogate pair.
- ApiClient.AxiosFailure: `data.error` is a string or absent. The source
  takes any JSON value there, and a truthy number or object would become the
  message; the model cannot represent that.
- DateUtils.DurationText, DateUtils.FormatDuration: the model subtracts the
  two time values exactly. The source subtracts doubles, which round once
  the difference passes 2^53 ms (about 285,000 years), so a range that long
  can come out a minute different. One example is start -8640000000000000,
  end 367199279999999.
- Strings.NatToString renders every natural number in plain digits.
  JavaScript's `String(n)` switches to exponent notation from 10^21 and
  loses precision beyond 2^53. Identifiers, offsets and limits in the model
  are unbounded integers.
- Proxy.ProxyRequest: the order of `Object.entries`, which lists
  integer-like keys first, is not modelled. The query entries are taken in
  the order given.
- **JavaScript `Date`.**
  - Parsing, time zones and locale formatting are not modelled. This leaves
    out `formatDate`, `formatTime`, `formatDateTime`, `toISOString`,
    `isISODateString`, `toISODateString` and `getUserLocale`.
  - `toLocalDatetime` is given the date's local fields.
  - DateUtils.LocalDatetimeRoundTrip is stated for non-negative years, the
    only ones whose rendering is all digits. A year below 1000 renders with
    fewer than four digits, as the source does.
- UsePagination.Pagination.constructor takes a natural page size. The
  source's `number` could also be negative or fractional.
- Page numbers are integers. `goToPage` with a fractional number is not
  modelled.
- FormUrl.Utf8Bytes encodes each `char` as one code point. Surrogate pairs
  and lone surrogates in UTF-16 strings are not modelled.
- `src/config/ui-strings.ts`, `src/config/validation-messages.ts` and
  `src/router/index.ts` are not part of this model. They are text tables and
  route registration without logic.
- The types file and `src/config/constants.ts` appear only as `Domain`
  datatypes and constants.
