/**
  The HTTP client (src/lib/api.ts): URL building, default-header merging, the
  two interceptor registries, the request pipeline (request interceptors,
  fetch, response interceptors) and the mapping of the final response to a
  value, an empty result or an `ApiError`.

  The runtime and library calls the client depends on (`JSON.stringify`, `fetch`
  and calling an interceptor) are the function-typed fields of `Runtime`. A
  response is a record whose body is given already parsed; interceptors are
  opaque identities whose behaviour is `Runtime.callRequestInterceptor` and
  `Runtime.callResponseInterceptor`.
*/
module Api {
  import opened Wrappers
  import opened ApiTypes

  // ---------------------------------------------------------------------
  // Configuration and strings
  // ---------------------------------------------------------------------

  /** `config.baseUrl`. */
  const BaseUrl: string := "/api/v1"

  const JsonMediaType: string := "application/json"

  /** `config.defaultHeaders`. */
  const DefaultHeaders: map<string, string> :=
    map["Content-Type" := JsonMediaType, "Accept" := JsonMediaType]

  /** `s.startsWith(prefix)`. */
  predicate StartsWith(s: string, prefix: string)
  {
    |prefix| <= |s| && s[..|prefix|] == prefix
  }

  /** `sub` occurs in `s` at index `i`. */
  predicate OccursAt(s: string, sub: string, i: int)
  {
    0 <= i && i + |sub| <= |s| && s[i..i + |sub|] == sub
  }

  /** `s.includes(sub)`: `sub` occurs somewhere in `s`. */
  function Contains(s: string, sub: string): (b: bool)
    ensures b <==> exists i :: OccursAt(s, sub, i)
    decreases |s|
  {
    if StartsWith(s, sub) then
      assert OccursAt(s, sub, 0);
      true
    else if |s| == 0 then
      false
    else
      var rest := Contains(s[1..], sub);
      assert forall i :: OccursAt(s[1..], sub, i) ==> OccursAt(s, sub, i + 1) by {
        forall i | OccursAt(s[1..], sub, i) ensures OccursAt(s, sub, i + 1) {
          assert s[1..][i..i + |sub|] == s[i + 1..i + 1 + |sub|];
        }
      }
      assert forall j :: OccursAt(s, sub, j) ==> OccursAt(s[1..], sub, j - 1) by {
        forall j | OccursAt(s, sub, j) ensures OccursAt(s[1..], sub, j - 1) {
          assert j != 0;
          assert s[1..][j - 1..j - 1 + |sub|] == s[j..j + |sub|];
        }
      }
      rest
  }

  // ---------------------------------------------------------------------
  // URL construction (buildUrl)
  // ---------------------------------------------------------------------

  /** `s.replace(/\/$/, '')`: drops one trailing '/', if there is one. */
  function StripTrailingSlash(s: string): (r: string)
    ensures r == s || r + "/" == s
    ensures r + "/" == s <==> |s| > 0 && s[|s| - 1] == '/'
  {
    if |s| > 0 && s[|s| - 1] == '/' then s[..|s| - 1] else s
  }

  /**
    `buildUrl`: the base without its trailing '/', then the path; a '/' is put
    in between exactly when the path does not already start with one.
  */
  function BuildUrl(path: string): (url: string)
    ensures var base := StripTrailingSlash(BaseUrl);
      && StartsWith(url, base)
      && StartsWith(url[|base|..], "/")
      && (StartsWith(path, "/") <==> url[|base|..] == path)
      && (!StartsWith(path, "/") ==> url[|base|..] == "/" + path)
  {
    var base := StripTrailingSlash(BaseUrl);
    var cleanPath := if StartsWith(path, "/") then path else "/" + path;
    assert (base + cleanPath)[|base|..] == cleanPath;
    base + cleanPath
  }

  /** `/ping` and `ping` both address `/api/v1/ping`. */
  lemma BuildUrlPing()
    ensures BuildUrl("/ping") == "/api/v1/ping"
    ensures BuildUrl("ping") == "/api/v1/ping"
  {
    assert StripTrailingSlash(BaseUrl) == BaseUrl;
    assert "ping"[..1] == "p";
    assert StartsWith("/ping", "/") && !StartsWith("ping", "/");
  }

  /** Adding the missing leading '/' oneself makes no difference. */
  lemma BuildUrlLeadingSlash(path: string)
    ensures BuildUrl(path) == BuildUrl(if StartsWith(path, "/") then path else "/" + path)
  {
    assert StartsWith("/" + path, "/");
  }

  // ---------------------------------------------------------------------
  // Request options and header merging
  // ---------------------------------------------------------------------

  /**
    The members of `RequestOptions` the client itself reads: the method, the
    headers as a plain record, and a body that is not yet serialised.
    Omitted `options` are `NoOptions()`.
  */
  datatype RequestOptions<B> = RequestOptions(httpMethod: Option<string>, headers: map<string, string>, body: Option<B>)

  /** The `RequestInit` handed to interceptors and `fetch`; the body is JSON text. */
  datatype RequestInit = RequestInit(httpMethod: Option<string>, headers: map<string, string>, body: Option<string>)

  function NoOptions<B>(): RequestOptions<B>
  {
    RequestOptions(None, map[], None)
  }

  /**
    `{...defaults, ...caller}`: every header of either, and on a key both
    have, the caller's value.
  */
  function MergeHeaders(defaults: map<string, string>, caller: map<string, string>): (h: map<string, string>)
    ensures h.Keys == defaults.Keys + caller.Keys
    ensures forall k :: k in caller ==> h[k] == caller[k]
    ensures forall k :: k in defaults && k !in caller ==> h[k] == defaults[k]
  {
    defaults + caller
  }

  /**
    The options `request` builds before any interceptor runs: the caller's
    method, the merged headers, and the body serialised only when defined.
  */
  function InitialFetchOptions<B>(options: RequestOptions<B>, stringify: B -> string): (init: RequestInit)
    ensures init.httpMethod == options.httpMethod
    ensures init.body.Some? <==> options.body.Some?
    ensures options.body.Some? ==> init.body.value == stringify(options.body.value)
    ensures init.headers == MergeHeaders(DefaultHeaders, options.headers)
  {
    RequestInit(
      options.httpMethod,
      MergeHeaders(DefaultHeaders, options.headers),
      if options.body.Some? then Some(stringify(options.body.value)) else None)
  }

  /**
    Each default header reaches the request; the caller's value wins when the
    caller sets the same key.
  */
  lemma DefaultHeadersReachRequest<B>(options: RequestOptions<B>, stringify: B -> string, key: string)
    requires key in DefaultHeaders
    ensures var h := InitialFetchOptions(options, stringify).headers;
      && key in h
      && h[key] == (if key in options.headers then options.headers[key] else JsonMediaType)
  {
  }

  /** `{...options, method}`, as `get` and `del` pass it on (an `options.body` stays). */
  function WithMethod<B>(options: RequestOptions<B>, verb: string): (o: RequestOptions<B>)
    ensures o.httpMethod == Some(verb)
    ensures o.headers == options.headers && o.body == options.body
  {
    options.(httpMethod := Some(verb))
  }

  /** `{...options, method, body}`, as `post`, `put` and `patch` pass it on. */
  function WithMethodAndBody<B>(options: RequestOptions<B>, verb: string, body: Option<B>): (o: RequestOptions<B>)
    ensures o.httpMethod == Some(verb) && o.body == body
    ensures o.headers == options.headers
  {
    options.(httpMethod := Some(verb), body := body)
  }

  // ---------------------------------------------------------------------
  // Interceptor registries: push, indexOf and splice
  // ---------------------------------------------------------------------

  /** `s.indexOf(x)`: the first index holding `x`, or -1. */
  function IndexOf<T(==)>(s: seq<T>, x: T): (i: int)
    ensures -1 <= i < |s|
    ensures i == -1 <==> x !in s
    ensures 0 <= i ==> s[i] == x && forall k :: 0 <= k < i ==> s[k] != x
  {
    if |s| == 0 then -1
    else if s[0] == x then 0
    else
      var j := IndexOf(s[1..], x);
      if j == -1 then -1 else j + 1
  }

  /**
    What an unsubscribe leaves: `s` without the first occurrence of `x`, the
    rest in order; `s` itself when `x` is absent.
  */
  function RemoveFirst<T(==)>(s: seq<T>, x: T): seq<T>
  {
    if |s| == 0 then []
    else if s[0] == x then s[1..]
    else [s[0]] + RemoveFirst(s[1..], x)
  }

  /** `indexOf` followed by `splice(index, 1)` removes the first occurrence. */
  lemma {:induction false} RemoveFirstIsSplice<T>(s: seq<T>, x: T)
    requires x in s
    ensures var i := IndexOf(s, x); RemoveFirst(s, x) == s[..i] + s[i + 1..]
  {
    if s[0] != x {
      var t := s[1..];
      assert x in t;
      RemoveFirstIsSplice(t, x);
      var j := IndexOf(t, x);
      assert IndexOf(s, x) == j + 1;
      assert s[..j + 1] == [s[0]] + t[..j];
      assert s[j + 2..] == t[j + 1..];
      calc {
        RemoveFirst(s, x);
        [s[0]] + RemoveFirst(t, x);
        [s[0]] + (t[..j] + t[j + 1..]);
        ([s[0]] + t[..j]) + t[j + 1..];
      }
    }
  }

  /** Unsubscribing an interceptor that is not registered changes nothing. */
  lemma {:induction false} RemoveFirstAbsent<T>(s: seq<T>, x: T)
    requires x !in s
    ensures RemoveFirst(s, x) == s
  {
    if |s| > 0 {
      RemoveFirstAbsent(s[1..], x);
    }
  }

  /** Unsubscribing removes exactly one copy of a registered interceptor and keeps all others. */
  lemma {:induction false} RemoveFirstCounts<T>(s: seq<T>, x: T)
    requires x in s
    ensures |RemoveFirst(s, x)| == |s| - 1
    ensures multiset(RemoveFirst(s, x)) == multiset(s) - multiset{x}
  {
    if s[0] != x {
      RemoveFirstCounts(s[1..], x);
      assert s == [s[0]] + s[1..];
    } else {
      assert s == [x] + s[1..];
    }
  }

  /** Registering a fresh interceptor and unsubscribing it restores the registry. */
  lemma {:induction false} RegisterThenUnsubscribe<T>(s: seq<T>, x: T)
    requires x !in s
    ensures RemoveFirst(s + [x], x) == s
  {
    if |s| > 0 {
      assert (s + [x])[1..] == s[1..] + [x];
      RegisterThenUnsubscribe(s[1..], x);
    }
  }

  // ---------------------------------------------------------------------
  // Running the interceptors: a left fold in registration order
  // ---------------------------------------------------------------------

  /** Each item in order receives the previous output: `step(items[n-1], ... step(items[0], x))`. */
  function Fold<I, X>(items: seq<I>, step: (I, X) -> X, x: X): X
    decreases |items|
  {
    if |items| == 0 then x else Fold(items[1..], step, step(items[0], x))
  }

  /** One more interceptor at the end runs last, on the output of all before it. */
  lemma {:induction false} FoldSnoc<I, X>(items: seq<I>, i: I, step: (I, X) -> X, x: X)
    ensures Fold(items + [i], step, x) == step(i, Fold(items, step, x))
    decreases |items|
  {
    if |items| > 0 {
      assert (items + [i])[1..] == items[1..] + [i];
      FoldSnoc(items[1..], i, step, step(items[0], x));
    }
  }

  /** Running two registries one after the other is running their concatenation. */
  lemma {:induction false} FoldAppend<I, X>(a: seq<I>, b: seq<I>, step: (I, X) -> X, x: X)
    ensures Fold(a + b, step, x) == Fold(b, step, Fold(a, step, x))
    decreases |a|
  {
    if |a| > 0 {
      assert (a + b)[1..] == a[1..] + b;
      FoldAppend(a[1..], b, step, step(a[0], x));
    } else {
      assert a + b == b;
    }
  }

  /** Two interceptors run in registration order, the second on the first's output. */
  lemma TwoInterceptorsInOrder<I, X>(first: I, second: I, step: (I, X) -> X, x: X)
    ensures Fold([first, second], step, x) == step(second, step(first, x))
  {
    assert [first, second][1..] == [second];
    assert [second][1..] == [];
    assert Fold([second], step, step(first, x)) == Fold([], step, step(second, step(first, x)));
  }

  // ---------------------------------------------------------------------
  // Responses and errors
  // ---------------------------------------------------------------------

  /**
    A `Response` after `fetch` and the response interceptors. `errorBody` and
    `payload` are the two readings of `response.json()` (as a JSON:API error
    document and as the caller's type); None when the body is not valid JSON.
    `hasBody` is false for a null body (a 204 or 304, or one an interceptor
    built with `new Response(null, …)`), which reads as "", so does not parse.
    `text` is what `response.text()` gives.
  */
  datatype Response<P> = Response(
    status: int,
    statusText: string,
    contentType: Option<string>,
    contentLength: Option<string>,
    errorBody: Option<JsonApiErrorResponse>,
    payload: Option<P>,
    hasBody: bool,
    text: string)
  {
    /** `response.ok`: the Fetch "ok status", 200 to 299 inclusive. */
    predicate Ok()
    {
      200 <= status <= 299
    }
  }

  /** The content-type header names JSON (`includes('application/json')`, absent read as ""). */
  predicate IsJson<P>(r: Response<P>)
  {
    Contains(r.contentType.GetOr(""), JsonMediaType)
  }

  /** The error body is read as JSON: JSON content type and a body that parses. */
  predicate JsonErrorPath<P>(r: Response<P>)
  {
    IsJson(r) && r.errorBody.Some?
  }

  /** `body.errors?.[0]`. */
  function FirstError(errors: Option<seq<JsonApiError>>): (e: Option<JsonApiError>)
    ensures e.Some? <==> errors.Some? && |errors.value| > 0
    ensures e.Some? ==> e.value == errors.value[0]
  {
    if errors.Some? && |errors.value| > 0 then Some(errors.value[0]) else None
  }

  /**
    `firstError?.detail ?? firstError?.title ?? statusText`: the first error's
    detail when it has one (even ""), else its title, else the status text.
  */
  function ErrorMessage(errors: Option<seq<JsonApiError>>, statusText: string): (m: string)
    ensures var first := FirstError(errors);
      && (first.Some? && first.value.detail.Some? ==> m == first.value.detail.value)
      && (first.Some? && first.value.detail.None? && first.value.title.Some? ==> m == first.value.title.value)
      && (first.None? || (first.value.detail.None? && first.value.title.None?) ==> m == statusText)
  {
    match FirstError(errors)
    case None => statusText
    case Some(e) => e.detail.GetOr(e.title.GetOr(statusText))
  }

  /**
    `parseErrorResponse`, with the body read once: on the JSON path the
    message comes from the first JSON:API error and the whole list is
    attached; otherwise the message is the text, or the status text when the
    text is empty, and no list is attached. The status is always the response's.
  */
  function ParseErrorResponse<P>(r: Response<P>): (e: ApiError)
    ensures e.status == r.status && e.name == ApiErrorName
    ensures JsonErrorPath(r) ==> e.errors == r.errorBody.value.errors
    ensures JsonErrorPath(r) ==> e.message == ErrorMessage(r.errorBody.value.errors, r.statusText)
    ensures !JsonErrorPath(r) ==> e.errors == None
    ensures !JsonErrorPath(r) ==> e.message == (if r.text != "" then r.text else r.statusText)
  {
    if JsonErrorPath(r) then
      var errors := r.errorBody.value.errors;
      NewApiError(ErrorMessage(errors, r.statusText), r.status, errors)
    else
      NewApiError(if r.text != "" then r.text else r.statusText, r.status, None)
  }

  /** A 500 whose JSON body has one error with only a title fails with that title. */
  lemma InternalServerErrorExample<P>(text: string)
    ensures var r: Response<P> := Response(500, "Internal Server Error", Some(JsonMediaType), None,
        Some(JsonApiErrorResponse(Some([JsonApiError(None, None, Some("Internal Server Error"), None)]))), None, true, text);
      ParseErrorResponse(r).message == "Internal Server Error" && ParseErrorResponse(r).status == 500
  {
    assert OccursAt(JsonMediaType, JsonMediaType, 0);
  }

  /** How a request settles for its caller. */
  datatype Outcome<P> =
    | Data(value: P)          // resolves with the parsed JSON body
    | NoContent               // resolves with `undefined`
    | Failed(error: ApiError) // rejects with an ApiError
    | InvalidJson             // rejects with the SyntaxError of `response.json()`
    | BodyUsed                // rejects with the TypeError of reading a body already read

  /** The empty-body rule: 204 No Content, or `Content-Length: 0` exactly. */
  predicate HasNoBody<P>(r: Response<P>)
  {
    r.status == 204 || r.contentLength == Some("0")
  }

  /**
    What `request` does with the final response, with the error body read
    once (see `SettleAsWritten` for the code as written): a non-ok response
    always fails with an ApiError carrying its status; an ok one with no body
    resolves empty without parsing; any other ok one resolves with its parsed
    JSON, or rejects when that does not parse.
  */
  function Settle<P>(r: Response<P>): (o: Outcome<P>)
    ensures o.Failed? <==> !r.Ok()
    ensures o.Failed? ==> o.error == ParseErrorResponse(r) && o.error.status == r.status
    ensures o.NoContent? <==> r.Ok() && HasNoBody(r)
    ensures o.Data? <==> r.Ok() && !HasNoBody(r) && r.payload.Some?
    ensures o.Data? ==> r.payload == Some(o.value)
    ensures o.InvalidJson? <==> r.Ok() && !HasNoBody(r) && r.payload.None?
  {
    if !r.Ok() then Failed(ParseErrorResponse(r))
    else if HasNoBody(r) then NoContent
    else if r.payload.Some? then Data(r.payload.value)
    else InvalidJson
  }

  /** A 200 JSON response resolves with its parsed body unchanged. */
  lemma PingExample<P>(body: P, text: string)
    ensures Settle(Response(200, "OK", Some(JsonMediaType), None, None, Some(body), true, text)) == Data(body)
  {
  }

  /** A 204 resolves empty whatever its body would parse to. */
  lemma NoContentExample<P>(contentType: Option<string>, payload: Option<P>, hasBody: bool, text: string)
    ensures Settle(Response(204, "No Content", contentType, None, None, payload, hasBody, text)) == NoContent
  {
  }

  // ---------------------------------------------------------------------
  // The error path as written: the body is read twice
  // ---------------------------------------------------------------------

  /** What `parseErrorResponse` hands back: the ApiError it builds, or a rejection of its own. */
  datatype ErrorPath = BuildsApiError(error: ApiError) | RejectsBodyUsed

  /**
    `response.text()`: the text, unless the body was already read (then a
    TypeError). Only a non-null body can have been read.
  */
  function ReadText<P>(r: Response<P>, bodyUsed: bool): Option<string>
  {
    if bodyUsed then None else Some(r.text)
  }

  /**
    `parseErrorResponse` as written. `response.json()` reads a non-null body
    even when it fails to parse, and by the Fetch body rules a body can be
    read once, so the fallback's `response.text()` then rejects with a
    TypeError instead of producing an ApiError. A null body is never marked
    as read, so there the fallback gives "" and the status text is used.
  */
  function ParseErrorResponseAsWritten<P>(r: Response<P>): (e: ErrorPath)
    ensures JsonErrorPath(r) ==> e == BuildsApiError(ParseErrorResponse(r))
    ensures !(IsJson(r) && r.hasBody) ==> e == BuildsApiError(ParseErrorResponse(r))
    ensures IsJson(r) && r.hasBody && r.errorBody.None? ==> e == RejectsBodyUsed
  {
    var bodyUsed := IsJson(r) && r.hasBody;
    if IsJson(r) && r.errorBody.Some? then
      var errors := r.errorBody.value.errors;
      BuildsApiError(NewApiError(ErrorMessage(errors, r.statusText), r.status, errors))
    else
      match ReadText(r, bodyUsed)
      case None => RejectsBodyUsed
      case Some(text) => BuildsApiError(NewApiError(if text != "" then text else r.statusText, r.status, None))
  }

  /**
    A 502 from a proxy that labels its HTML error page as JSON: as written no
    ApiError comes out, while reading the body once gives an ApiError with
    the page text and status 502.
  */
  lemma BodyReadTwiceCounterexample<P>()
    ensures var r: Response<P> := Response(502, "Bad Gateway", Some(JsonMediaType), None, None, None, true, "<html>Bad Gateway</html>");
      && ParseErrorResponseAsWritten(r) == RejectsBodyUsed
      && ParseErrorResponse(r) == NewApiError("<html>Bad Gateway</html>", 502, None)
  {
    assert OccursAt(JsonMediaType, JsonMediaType, 0);
  }

  /**
    What `request` does with the final response as written: a non-ok
    response whose content type says JSON and whose non-null body does not
    parse rejects with the body-used TypeError; every other response settles
    as in `Settle`.
  */
  function SettleAsWritten<P>(r: Response<P>): (o: Outcome<P>)
    ensures !(!r.Ok() && IsJson(r) && r.hasBody && r.errorBody.None?) ==> o == Settle(r)
    ensures !r.Ok() && IsJson(r) && r.hasBody && r.errorBody.None? ==> o == BodyUsed
  {
    if r.Ok() then Settle(r)
    else
      match ParseErrorResponseAsWritten(r)
      case BuildsApiError(e) => Failed(e)
      case RejectsBodyUsed => BodyUsed
  }

  /**
    A 304 labelled `application/json` has a null body: as written it still
    fails with an ApiError, whose message is the status text.
  */
  lemma NullBodyAsWrittenExample<P>()
    ensures var r: Response<P> := Response(304, "Not Modified", Some(JsonMediaType), None, None, None, false, "");
      SettleAsWritten(r) == Failed(NewApiError("Not Modified", 304, None))
  {
    assert OccursAt(JsonMediaType, JsonMediaType, 0);
  }

  // ---------------------------------------------------------------------
  // The request pipeline
  // ---------------------------------------------------------------------

  /**
    The calls `request` makes into code it does not define: `JSON.stringify`,
    calling a request or response interceptor, and `fetch`.
  */
  datatype Runtime<!B, !P, !RI, !SI> = Runtime(
    stringify: B -> string,
    callRequestInterceptor: (RI, string, RequestInit) -> RequestInit,
    fetch: (string, RequestInit) -> Response<P>,
    callResponseInterceptor: (SI, Response<P>) -> Response<P>)

  /** One request interceptor step for `url`. */
  function RequestStep<B, P, RI, SI>(runtime: Runtime<B, P, RI, SI>, url: string): (RI, RequestInit) -> RequestInit
  {
    (i: RI, o: RequestInit) => runtime.callRequestInterceptor(i, url, o)
  }

  /** The options `fetch` receives: the initial options folded through the request interceptors. */
  function SentOptions<B, P, RI, SI>(requestInterceptors: seq<RI>, path: string, options: RequestOptions<B>,
                                     runtime: Runtime<B, P, RI, SI>): RequestInit
  {
    Fold(requestInterceptors, RequestStep(runtime, BuildUrl(path)), InitialFetchOptions(options, runtime.stringify))
  }

  /** The response `request` settles on: fetch's response folded through the response interceptors. */
  function FinalResponse<B, P, RI, SI>(requestInterceptors: seq<RI>, responseInterceptors: seq<SI>, path: string,
                                       options: RequestOptions<B>, runtime: Runtime<B, P, RI, SI>): Response<P>
  {
    Fold(responseInterceptors, runtime.callResponseInterceptor,
      runtime.fetch(BuildUrl(path), SentOptions(requestInterceptors, path, options, runtime)))
  }

  /** The whole of `request` for given registries. */
  function Perform<B, P, RI, SI>(requestInterceptors: seq<RI>, responseInterceptors: seq<SI>, path: string,
                                 options: RequestOptions<B>, runtime: Runtime<B, P, RI, SI>): Outcome<P>
  {
    Settle(FinalResponse(requestInterceptors, responseInterceptors, path, options, runtime))
  }

  /**
    With two request interceptors registered, `fetch` gets the second's
    output on the first's output on the initial options.
  */
  lemma RequestInterceptorsRunInOrder<B, P, RI, SI>(a: RI, b: RI, path: string, options: RequestOptions<B>,
                                                     runtime: Runtime<B, P, RI, SI>)
    ensures var url := BuildUrl(path);
      SentOptions([a, b], path, options, runtime)
        == runtime.callRequestInterceptor(b, url, runtime.callRequestInterceptor(a, url, InitialFetchOptions(options, runtime.stringify)))
  {
    TwoInterceptorsInOrder(a, b, RequestStep(runtime, BuildUrl(path)), InitialFetchOptions(options, runtime.stringify));
  }

  /**
    The client: the two interceptor registries (module-level arrays in the
    source) and the operations over them.
  */
  class Client<RI(==), SI(==)> {
    var requestInterceptors: seq<RI>
    var responseInterceptors: seq<SI>

    constructor ()
      ensures requestInterceptors == [] && responseInterceptors == []
    {
      requestInterceptors := [];
      responseInterceptors := [];
    }

    /** `onRequest`: the interceptor goes at the end of the registry. */
    method OnRequest(interceptor: RI)
      modifies this`requestInterceptors
      ensures requestInterceptors == old(requestInterceptors) + [interceptor]
    {
      requestInterceptors := requestInterceptors + [interceptor];
    }

    /**
      The unsubscribe function `onRequest` returns: removes the first
      occurrence of the interceptor, if any, keeping the others in order.
    */
    method UnsubscribeRequest(interceptor: RI)
      modifies this`requestInterceptors
      ensures requestInterceptors == RemoveFirst(old(requestInterceptors), interceptor)
    {
      var index := IndexOf(requestInterceptors, interceptor);
      if index > -1 {
        RemoveFirstIsSplice(requestInterceptors, interceptor);
        requestInterceptors := requestInterceptors[..index] + requestInterceptors[index + 1..];
      } else {
        RemoveFirstAbsent(requestInterceptors, interceptor);
      }
    }

    /** `onResponse`: the interceptor goes at the end of the registry. */
    method OnResponse(interceptor: SI)
      modifies this`responseInterceptors
      ensures responseInterceptors == old(responseInterceptors) + [interceptor]
    {
      responseInterceptors := responseInterceptors + [interceptor];
    }

    /** The unsubscribe function `onResponse` returns. */
    method UnsubscribeResponse(interceptor: SI)
      modifies this`responseInterceptors
      ensures responseInterceptors == RemoveFirst(old(responseInterceptors), interceptor)
    {
      var index := IndexOf(responseInterceptors, interceptor);
      if index > -1 {
        RemoveFirstIsSplice(responseInterceptors, interceptor);
        responseInterceptors := responseInterceptors[..index] + responseInterceptors[index + 1..];
      } else {
        RemoveFirstAbsent(responseInterceptors, interceptor);
      }
    }

    /**
      `request`: builds the URL and initial options, runs every request
      interceptor once in registration order on the previous one's output,
      fetches, runs the response interceptors likewise, and settles on the
      final response.
    */
    method Request<B, P>(path: string, options: RequestOptions<B>, runtime: Runtime<B, P, RI, SI>) returns (outcome: Outcome<P>)
      ensures outcome == Settle(FinalResponse(requestInterceptors, responseInterceptors, path, options, runtime))
    {
      var url := BuildUrl(path);
      var fetchOptions := InitialFetchOptions(options, runtime.stringify);
      ghost var initial := fetchOptions;
      var step := RequestStep(runtime, url);

      for k := 0 to |requestInterceptors|
        invariant fetchOptions == Fold(requestInterceptors[..k], step, initial)
      {
        FoldSnoc(requestInterceptors[..k], requestInterceptors[k], step, initial);
        assert requestInterceptors[..k + 1] == requestInterceptors[..k] + [requestInterceptors[k]];
        fetchOptions := runtime.callRequestInterceptor(requestInterceptors[k], url, fetchOptions);
      }
      assert requestInterceptors[..|requestInterceptors|] == requestInterceptors;

      var response := runtime.fetch(url, fetchOptions);
      ghost var fetched := response;

      for k := 0 to |responseInterceptors|
        invariant response == Fold(responseInterceptors[..k], runtime.callResponseInterceptor, fetched)
      {
        FoldSnoc(responseInterceptors[..k], responseInterceptors[k], runtime.callResponseInterceptor, fetched);
        assert responseInterceptors[..k + 1] == responseInterceptors[..k] + [responseInterceptors[k]];
        response := runtime.callResponseInterceptor(responseInterceptors[k], response);
      }
      assert responseInterceptors[..|responseInterceptors|] == responseInterceptors;

      if !response.Ok() {
        return Failed(ParseErrorResponse(response));
      }
      if response.status == 204 || response.contentLength == Some("0") {
        return NoContent;
      }
      match response.payload
      case Some(v) => outcome := Data(v);
      case None => outcome := InvalidJson;
    }

    /** `get`: a request with method GET, whatever `options.method` says. */
    method Get<B, P>(path: string, options: RequestOptions<B>, runtime: Runtime<B, P, RI, SI>) returns (outcome: Outcome<P>)
      ensures outcome == Perform(requestInterceptors, responseInterceptors, path, WithMethod(options, "GET"), runtime)
    {
      outcome := Request(path, WithMethod(options, "GET"), runtime);
    }

    /** `post`: method POST and the `body` argument in place of `options.body`. */
    method Post<B, P>(path: string, body: Option<B>, options: RequestOptions<B>, runtime: Runtime<B, P, RI, SI>)
      returns (outcome: Outcome<P>)
      ensures outcome == Perform(requestInterceptors, responseInterceptors, path, WithMethodAndBody(options, "POST", body), runtime)
    {
      outcome := Request(path, WithMethodAndBody(options, "POST", body), runtime);
    }

    /** `put`: method PUT and the `body` argument in place of `options.body`. */
    method Put<B, P>(path: string, body: Option<B>, options: RequestOptions<B>, runtime: Runtime<B, P, RI, SI>)
      returns (outcome: Outcome<P>)
      ensures outcome == Perform(requestInterceptors, responseInterceptors, path, WithMethodAndBody(options, "PUT", body), runtime)
    {
      outcome := Request(path, WithMethodAndBody(options, "PUT", body), runtime);
    }

    /** `patch`: method PATCH and the `body` argument in place of `options.body`. */
    method Patch<B, P>(path: string, body: Option<B>, options: RequestOptions<B>, runtime: Runtime<B, P, RI, SI>)
      returns (outcome: Outcome<P>)
      ensures outcome == Perform(requestInterceptors, responseInterceptors, path, WithMethodAndBody(options, "PATCH", body), runtime)
    {
      outcome := Request(path, WithMethodAndBody(options, "PATCH", body), runtime);
    }

    /** `del`: a request with method DELETE. */
    method Del<B, P>(path: string, options: RequestOptions<B>, runtime: Runtime<B, P, RI, SI>) returns (outcome: Outcome<P>)
      ensures outcome == Perform(requestInterceptors, responseInterceptors, path, WithMethod(options, "DELETE"), runtime)
    {
      outcome := Request(path, WithMethod(options, "DELETE"), runtime);
    }
  }
}
