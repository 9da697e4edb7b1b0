# dendrite-echo front-end core, modelled in Dafny

This project models the logic of the dendrite-echo dashboard front-end. It
covers three parts:

- **Theme preferences** (`src/lib/theme.ts`, `src/stores/useUiStore.ts`).
  A stored string is normalised to `light`, `dark` or `auto`. A preference
  resolves to light or dark, and `auto` follows the OS dark-mode signal.
  Applying a preference stores the raw preference under
  `dendrite-echo-theme` and sets the root `dark` class. The UI store keeps
  the current preference and a dashboard-open counter.
- **The API client** (`src/lib/api.ts`, `src/types/api.ts`). This covers URL
  building, the default/caller header merge and the two interceptor
  registries (push, and `indexOf` + `splice` on unsubscribe). Each request
  runs its interceptors as a left fold in registration order. The final
  response becomes a value, an empty result, an `ApiError` built from a
  JSON:API error document or the body text, or a JSON parse rejection. The
  code as written has a fifth outcome: a non-ok response labelled JSON whose
  non-null body does not parse rejects because its body was read twice (see
  Findings). `Api.SettleAsWritten` models that; `Api.Settle`, the request
  methods and `useApi`'s error lemma use the corrected reading.
- **The `useApi` composable** (`src/composables/useApi.ts`). It holds the
  `data`/`error`/`isLoading` state and has `execute`, `reset` and the
  `immediate` option.

Files: `wrappers.dfy` (Option), `theme.dfy` (module `Theme`, with the
`Host` class for the browser capabilities), `ui_store.dfy` (`UiStore`),
`api_types.dfy` (`ApiTypes`), `api.dfy` (`Api`, with the `Client` class
that holds the registries) and `use_api.dfy` (`UseApi`).

How the browser and library are represented:

- Local storage is a `map<string, string>`.
- `matchMedia('(prefers-color-scheme: dark)').matches` is an
  `Option<bool>`. It is None when `matchMedia` is not a function.
- The root `dark` class is a `bool` field.
- `isBrowser` is a constant of the `Host`.
- `JSON.stringify`, `fetch` and calling an interceptor are function-typed
  fields of `Api.Runtime`. Interceptors are opaque identities, given by the
  type parameters of `Api.Client`.
- A response is a record whose body is already parsed. It holds two
  readings of `response.json()`: `errorBody`, the body read as a JSON:API
  error document, and `payload`, the body read as the caller's type. Each
  is None when the body is not valid JSON. `hasBody` is false for a null
  body (a 204 or 304, or `new Response(null, …)` from an interceptor),
  which by the Fetch rules is never marked as read.
- The unsubscribe closure returned by `onRequest`/`onResponse` is the method
  `UnsubscribeRequest`/`UnsubscribeResponse`, called with the same
  interceptor.
- `execute` is split at its one `await`. `Begin` is the part that runs
  synchronously and `Complete` is the rest; `Execute` is both. With
  `immediate`, `useApi` returns once `Begin` has run, so `isLoading` is
  already true at that point. The exception is a fetcher that throws when
  called instead of returning a promise: the constructor is given that
  throw, and the `catch` and `finally` have then run as well.

The declared type of `JsonApiErrorResponse.errors` is a required list. The
client code reads it with `?.`, so the model follows the code: a parsed error
body may lack `errors`, and the message then falls back to the status text.

## Model

| member | source | states |
|---|---|---|
| Theme.IsValidTheme | src/lib/theme.ts:7-9 | a stored value is valid exactly when it is the name of one of the three preferences; null and every other string are rejected |
| Theme.GetStoredTheme | src/lib/theme.ts:11-16 | outside a browser the result is `auto`; in a browser a valid stored value is returned as is, and an invalid or missing one gives `auto` |
| Theme.ResolveTheme | src/lib/theme.ts:18-28 | never `auto`; identity on `light` and `dark`; `auto` resolves to dark exactly when the OS signal is present and reports dark, else light |
| Theme.ResolveIdempotent | src/lib/theme.ts:18-21 | resolving an already resolved theme returns it unchanged, whatever the OS signal |
| Theme.StoredRoundTrip | src/lib/theme.ts:14-15 | in a browser, storing a preference's name under the theme key and then reading the stored theme gives that preference back |
| Theme.EmptyStorageIsAuto | src/lib/theme.ts:12-15 | with nothing stored, the stored theme is `auto` |
| Theme.StartupIsStable | src/main.ts:10 | applying the stored theme at start-up stores a value that reads back as the same preference |
| Theme.Host.OsSignal | src/lib/theme.ts:23-24 | the OS signal is absent outside a browser and is the `matchMedia` result inside one |
| Theme.Host.ApplyTheme | src/lib/theme.ts:30-36 | outside a browser nothing changes; otherwise storage becomes the old storage with only the theme key set to the raw preference (not the resolved one), the dark class is set exactly when the preference resolves to dark, and the stored theme then reads back as the preference |
| UiStore.UiStore.constructor | src/stores/useUiStore.ts:6-8 | the preference starts as the stored theme (so `auto` with empty storage) and the dashboard token starts at 0 |
| UiStore.UiStore.ResolvedTheme | src/stores/useUiStore.ts:7 | the resolved theme is never `auto`; it equals the preference when that is not `auto`, and otherwise is dark exactly when the OS reports dark |
| UiStore.UiStore.SetTheme | src/stores/useUiStore.ts:10-13 | the preference becomes exactly p and is applied (stored under the theme key, dark class in step with the resolved theme); the token is unchanged |
| UiStore.UiStore.MarkDashboardOpen | src/stores/useUiStore.ts:15-17 | the token goes up by exactly 1 and the preference is unchanged |
| ApiTypes.NewApiError | src/types/api.ts:47-56 | an ApiError keeps the given message, status and error list unchanged (absent when none is given) and its name is "ApiError" |
| Api.Contains | src/lib/api.ts:82 | `includes` holds exactly when the substring occurs at some index |
| Api.StripTrailingSlash | src/lib/api.ts:71 | at most one trailing '/' is removed, and one is removed exactly when the string ends in '/' |
| Api.BuildUrl | src/lib/api.ts:70-74 | the URL is the base without its trailing slash followed by a part that starts with '/'; that part is the path itself exactly when the path starts with '/', and is '/' + path otherwise |
| Api.BuildUrlPing | tests/unit/HomeView.spec.ts:37-38 | both `/ping` and `ping` give `/api/v1/ping` |
| Api.BuildUrlLeadingSlash | src/lib/api.ts:72 | adding a missing leading '/' to the path yourself gives the same URL |
| Api.MergeHeaders | src/lib/api.ts:109-112 | the merged headers have every key of either map; on a shared key the caller's value wins, and elsewhere the default's value is kept |
| Api.InitialFetchOptions | src/lib/api.ts:104-118 | before any interceptor runs, the options keep the caller's method and hold the merged headers; a body is present exactly when the caller gave one, and it is then its JSON serialisation |
| Api.DefaultHeadersReachRequest | src/lib/api.ts:31-37 | each default header (`Content-Type`, `Accept`) is in the request with value `application/json` unless the caller sets that key, in which case it has the caller's value |
| Api.WithMethod | src/lib/api.ts:151-153 | `get`/`del` always set their own method over `options.method` and keep the caller's headers and `options.body` |
| Api.WithMethodAndBody | src/lib/api.ts:158-160 | `post`/`put`/`patch` set their own method and use their `body` argument over `options.body`, even when that argument is absent |
| Api.IndexOf | src/lib/api.ts:50 | `indexOf` gives -1 exactly when the item is absent, and otherwise an index holding the item with no earlier occurrence |
| Api.RemoveFirstIsSplice | src/lib/api.ts:49-52 | `indexOf` followed by `splice(index, 1)` removes exactly the first occurrence and keeps the rest in order |
| Api.RemoveFirstAbsent | src/lib/api.ts:51 | unsubscribing an interceptor that is not registered leaves the registry unchanged |
| Api.RemoveFirstCounts | src/lib/api.ts:49-52 | unsubscribing a registered interceptor removes exactly one copy of it and keeps every other entry |
| Api.RegisterThenUnsubscribe | src/lib/api.ts:47-52 | registering an interceptor that was not already registered and then unsubscribing it restores the registry |
| Api.FoldSnoc | src/lib/api.ts:121-123 | an interceptor registered last runs last, on the output of all the interceptors before it |
| Api.FoldAppend | src/lib/api.ts:129-131 | running the interceptors of `a + b` equals running those of `b` on the output of those of `a` |
| Api.TwoInterceptorsInOrder | src/lib/api.ts:44-46 | two interceptors run in registration order, and the second receives the first's output |
| Api.RequestInterceptorsRunInOrder | src/lib/api.ts:120-126 | with request interceptors a then b registered, `fetch` receives b's output on a's output on the initial options |
| Api.FirstError | src/lib/api.ts:85 | the first error exists exactly when `errors` is present and non-empty, and it is then element 0 |
| Api.ErrorMessage | src/lib/api.ts:86 | the message is the first error's detail when it has one (an empty detail is kept), else its title, else the status text |
| Api.ParseErrorResponse | src/lib/api.ts:79-95 | the ApiError always has the response's status. With a JSON content type and a body that parses, the message follows the detail/title/status-text chain and the whole error list is attached. Otherwise the message is the text, or the status text when the text is empty, and no list is attached (this is the corrected reading, see Findings) |
| Api.InternalServerErrorExample | src/lib/api.ts:84-87 | a 500 whose JSON body has one error with only the title "Internal Server Error" gives that message and status 500 |
| Api.Settle | src/lib/api.ts:133-145 | a non-ok final response always fails with an ApiError carrying its status and never gives a value; an ok response with status 204 or `Content-Length: 0` resolves empty without parsing; any other ok response resolves with its parsed JSON, or rejects when that does not parse (error body read once, the corrected reading, see Findings) |
| Api.PingExample | src/lib/api.ts:144-145 | a 200 JSON response resolves with its parsed body unchanged |
| Api.NoContentExample | src/lib/api.ts:139-142 | a 204 resolves empty whatever its body would parse to, null or not |
| Api.ParseErrorResponseAsWritten | src/lib/api.ts:82-94 | as written: a JSON content type with a non-null body that does not parse ends in a rejection because the body was already read; in every other case, a null body included, the result is the same ApiError as the corrected reading |
| Api.SettleAsWritten | src/lib/api.ts:82-94 | as written: a non-ok response labelled JSON whose non-null body does not parse rejects with the body-used TypeError; every other response settles exactly as in `Api.Settle` |
| Api.NullBodyAsWrittenExample | src/lib/api.ts:84-94 | as written, a 304 labelled `application/json` with a null body still fails with ApiError("Not Modified", 304), since `text()` on a null body gives "" |
| Api.BodyReadTwiceCounterexample | src/lib/api.ts:88-93 | for a 502 labelled `application/json` with an HTML body, the code as written yields no ApiError, while reading the body once yields ApiError("<html>Bad Gateway</html>", 502) |
| Api.Client.constructor | src/lib/api.ts:40-41 | both registries start empty |
| Api.Client.OnRequest | src/lib/api.ts:47-48 | the interceptor is appended at the end of the request registry |
| Api.Client.UnsubscribeRequest | src/lib/api.ts:49-52 | the request registry loses the first occurrence of the interceptor only (unchanged if it is absent) |
| Api.Client.OnResponse | src/lib/api.ts:59-60 | the interceptor is appended at the end of the response registry |
| Api.Client.UnsubscribeResponse | src/lib/api.ts:61-64 | the response registry loses the first occurrence of the interceptor only (unchanged if it is absent) |
| Api.Client.Request | src/lib/api.ts:100-146 | the outcome is the settlement of the response interceptors' left fold over `fetch(buildUrl(path), o)`, where o is the request interceptors' left fold over the initial options; each interceptor runs once, in registration order (settled with the error body read once, the corrected reading) |
| Api.Client.Get | src/lib/api.ts:151-153 | `get` is `request` with method GET |
| Api.Client.Post | src/lib/api.ts:158-160 | `post` is `request` with method POST and the `body` argument |
| Api.Client.Put | src/lib/api.ts:165-167 | `put` is `request` with method PUT and the `body` argument |
| Api.Client.Patch | src/lib/api.ts:172-174 | `patch` is `request` with method PATCH and the `body` argument |
| Api.Client.Del | src/lib/api.ts:179-181 | `del` is `request` with method DELETE |
| UseApi.ErrorText | src/composables/useApi.ts:68-75 | a thrown ApiError or other Error gives its message; anything else gives exactly "An unexpected error occurred" |
| UseApi.RequestSettlement | src/composables/useApi.ts:65 | a fetcher that makes one request rejects exactly when the request fails, its body is not JSON or its body is read twice; a failure rejects with the request's ApiError, the other two with their `Error`'s message, data resolves with the parsed body, and an empty result resolves with `undefined` |
| UseApi.NonOkResponseShowsApiErrorMessage | src/composables/useApi.ts:69-70 | with the error body read once (the corrected reading), when the request's final response is not ok, the error `execute` records is the message of that response's ApiError |
| UseApi.NonOkResponseAsWritten | src/composables/useApi.ts:69-72 | as written, a non-ok response always makes `execute` record an error: the body-used TypeError's message when the response claims JSON and its non-null body does not parse, and otherwise that response's ApiError message |
| UseApi.UseApi.constructor | src/composables/useApi.ts:56-91 | data starts as null; without `immediate` the state is the initial one; with it one `execute` has started, so loading is on and the error null, unless the fetcher threw when called, in which case loading is already off and the error is that throw's message |
| UseApi.UseApi.Begin | src/composables/useApi.ts:61-62 | at the start of `execute`, loading is on and the error is cleared, while the data keeps its previous value |
| UseApi.UseApi.Complete | src/composables/useApi.ts:64-80 | on success the data is the result, which is also returned, and the error stays null; on a rejection the data is cleared, the error is its message and null is returned; loading ends either way |
| UseApi.UseApi.Execute | src/composables/useApi.ts:60-81 | after `execute`, nothing is loading and there is an error exactly when the fetcher rejected; data and return value are the result on success and null on failure |
| UseApi.UseApi.Reset | src/composables/useApi.ts:83-87 | `reset` restores the initial state from any state, so a second `reset` changes nothing |

## Left out

- Network and transport failures of `fetch` are not modelled. They propagate unwrapped and carry no logic of the client's own.
- Asynchronous scheduling is not modelled. Each interceptor call and `fetch` is atomic, and `execute` is atomic apart from its split at the one `await`.
- Interceptors that register or unregister interceptors while a request runs are not modelled. `for ... of` would then see the changed array, but an interceptor here is a pure function of its input.
- Headers given as a `Headers` object or as an array of pairs are not modelled; caller headers are a plain record. Header names are compared exactly, as the object spread compares them, so `content-type` does not replace `Content-Type`.
- `RequestOptions` members other than method, headers and body (credentials, signal and so on) are not modelled. They are passed through untouched.
- `response.json()` on an error body that parses to `null` throws in the source when `errors` is read. The model counts such a body as one that does not parse.
- Vue reactivity (`ref`, `computed`) and Pinia's `defineStore` become plain fields and a function. The single shared store instance is not modelled.
- Theme.Host: the OS dark-mode signal is a constant of the host, while the source queries `matchMedia` on each call. A change of the OS setting during a session, and the `computed` cache of `resolvedTheme` that would then go stale, are not captured.
- Api.Runtime: `stringify` is a total function, so a `JSON.stringify` that throws (on a `BigInt` or a cyclic body) is not modelled.
- Api.Settle: settles a non-ok response with the error body read once (the corrected reading); the code as written is `Api.SettleAsWritten`.
- Api.Client.Request: settles through `Api.Settle`, the corrected reading, not through `Api.SettleAsWritten`; so do `Api.Client.Get`, `Post`, `Put`, `Patch` and `Del`.
- UseApi.NonOkResponseShowsApiErrorMessage: states the corrected reading; `UseApi.NonOkResponseAsWritten` states the code as written.
- UiStore.UiStore.MarkDashboardOpen: the token is an unbounded `nat`. The JavaScript number loses precision above 2^53, which the model does not capture.
- The JSON:API success types (`JsonApiResource`, `JsonApiResponse`, `PingResponse`) are type declarations only. The caller's payload type is the type parameter `P`.
- The route table (`src/router/index.ts`), the bootstrap in `src/main.ts` (apart from the property `Theme.StartupIsStable`), the views and the test harness are not part of this model.

## Findings

| source | as written | input that shows it | evidently intended | confidence | as-written member | corrected member |
|---|---|---|---|---|---|---|
| src/lib/api.ts:84-93 | When the content type says JSON but a non-null body does not parse, the `catch` falls through to `response.text()`. `response.json()` has already read the body, and under the Fetch body rules a body can be read only once, so `text()` rejects with a TypeError. The caller gets that TypeError, not an ApiError. | status 502, `Content-Type: application/json`, body `<html>Bad Gateway</html>` | the comment says "fall through to text handling": an ApiError with the body text and status 502 (read the text once, then parse it). `Api.SettleAsWritten` and `UseApi.NonOkResponseAsWritten` carry the as-written behaviour further; `Api.Settle`, `Api.Client.Request` and its wrappers, and `UseApi.NonOkResponseShowsApiErrorMessage` use the corrected reading | high; not executed | Api.ParseErrorResponseAsWritten | Api.ParseErrorResponse |
