/**
  The `useApi` composable (src/composables/useApi.ts): reactive `data`,
  `error` and `isLoading` around one fetcher, with `execute` and `reset`.

  The fetcher is code this model does not see; each call of `execute` is
  given how the fetcher's promise settles. `execute` is split at its one
  `await`: `Begin` is the part that runs synchronously when it is called,
  `Complete` the part that runs once the promise has settled, so the state a
  view sees while a request is pending is the state after `Begin`.
*/
module UseApi {
  import opened Wrappers
  import opened ApiTypes
  import Api

  /** The message shown for a rejection that is not an `Error`. */
  const UnexpectedErrorMessage: string := "An unexpected error occurred"

  /** What the fetcher's promise can reject with. */
  datatype Thrown =
    | ThrownApiError(apiError: ApiError) // `err instanceof ApiError`
    | ThrownError(message: string)       // any other `Error`
    | ThrownNonError                     // anything that is not an `Error`

  /** How the fetcher's promise settles. */
  datatype Settlement<T> = Resolved(value: T) | Rejected(reason: Thrown)

  /**
    The error message `execute` records: the message of an `ApiError` or any
    other `Error`, and a fixed text for anything else.
  */
  function ErrorText(t: Thrown): (m: string)
    ensures t.ThrownApiError? ==> m == t.apiError.message
    ensures t.ThrownError? ==> m == t.message
    ensures t.ThrownNonError? ==> m == UnexpectedErrorMessage
  {
    match t
    case ThrownApiError(e) => e.message
    case ThrownError(message) => message
    case ThrownNonError => UnexpectedErrorMessage
  }

  /**
    How a fetcher that makes one request (`() => api.get(path)`) settles: an
    empty result resolves with `undefined` (None), a failed response rejects
    with its ApiError, a body that is not JSON rejects with the SyntaxError
    of `response.json()`, and a second read of a body rejects with the
    TypeError of `response.text()`; both are `Error`s with the given messages.
  */
  function RequestSettlement<P>(o: Api.Outcome<P>, syntaxErrorMessage: string, typeErrorMessage: string)
    : (s: Settlement<Option<P>>)
    ensures s.Rejected? <==> o.Failed? || o.InvalidJson? || o.BodyUsed?
    ensures o.Failed? ==> s == Rejected(ThrownApiError(o.error))
    ensures o.InvalidJson? ==> s == Rejected(ThrownError(syntaxErrorMessage))
    ensures o.BodyUsed? ==> s == Rejected(ThrownError(typeErrorMessage))
    ensures o.Data? ==> s == Resolved(Some(o.value))
    ensures o.NoContent? ==> s == Resolved(None)
  {
    match o
    case Data(v) => Resolved(Some(v))
    case NoContent => Resolved(None)
    case Failed(e) => Rejected(ThrownApiError(e))
    case InvalidJson => Rejected(ThrownError(syntaxErrorMessage))
    case BodyUsed => Rejected(ThrownError(typeErrorMessage))
  }

  /**
    With the error body read once, when the final response of such a fetcher
    is not ok, `execute` records that response's ApiError message as the
    error.
  */
  lemma NonOkResponseShowsApiErrorMessage<P>(r: Api.Response<P>, syntaxErrorMessage: string, typeErrorMessage: string)
    requires !r.Ok()
    ensures var s := RequestSettlement(Api.Settle(r), syntaxErrorMessage, typeErrorMessage);
      s.Rejected? && ErrorText(s.reason) == Api.ParseErrorResponse(r).message
  {
  }

  /**
    As written, a non-ok response also rejects, but when it claims JSON and
    its non-null body does not parse, `execute` records the body-used
    TypeError's message instead of anything from the response.
  */
  lemma NonOkResponseAsWritten<P>(r: Api.Response<P>, syntaxErrorMessage: string, typeErrorMessage: string)
    requires !r.Ok()
    ensures var s := RequestSettlement(Api.SettleAsWritten(r), syntaxErrorMessage, typeErrorMessage);
      && s.Rejected?
      && (Api.IsJson(r) && r.hasBody && r.errorBody.None? ==> ErrorText(s.reason) == typeErrorMessage)
      && (!(Api.IsJson(r) && r.hasBody && r.errorBody.None?) ==> ErrorText(s.reason) == Api.ParseErrorResponse(r).message)
  {
  }

  class UseApi<T> {
    /** The last result; None before any and after a failure or `reset`. */
    var data: Option<T>
    /** The last error message, None when there is none. */
    var error: Option<string>
    var isLoading: bool

    /** The state `useApi` starts in and `reset` returns to. */
    predicate IsInitial()
      reads this
    {
      data == None && error == None && !isLoading
    }

    /**
      `useApi(fetcher, { immediate })`: the initial state, and with
      `immediate` one `execute` started, whose synchronous part has run by
      the time `useApi` returns. `thrownAtCall` is what calling the fetcher
      throws before it returns a promise (None when it returns one): the
      request is then pending, while a synchronous throw has already run the
      `catch` and `finally`.
    */
    constructor (immediate: bool, thrownAtCall: Option<Thrown>)
      ensures data == None
      ensures isLoading <==> immediate && thrownAtCall.None?
      ensures immediate && thrownAtCall.Some? ==> error == Some(ErrorText(thrownAtCall.value))
      ensures !(immediate && thrownAtCall.Some?) ==> error == None
      ensures !immediate ==> IsInitial()
    {
      data := None;
      error := None;
      isLoading := false;
      new;
      if immediate {
        Begin();
        if thrownAtCall.Some? {
          var ignored := Complete(Rejected(thrownAtCall.value));
        }
      }
    }

    /** The start of `execute`: loading, no error, the previous data kept until the outcome. */
    method Begin()
      modifies this
      ensures isLoading && error == None
      ensures data == old(data)
    {
      isLoading := true;
      error := None;
    }

    /**
      The rest of `execute`, once the fetcher's promise settles: on success
      the data is the result and is returned; on a rejection the data is
      cleared, the error is the rejection's message and None is returned.
      Loading ends either way (the `finally`).
    */
    method Complete(s: Settlement<T>) returns (result: Option<T>)
      modifies this
      ensures !isLoading
      ensures s.Resolved? ==> data == Some(s.value) && result == Some(s.value) && error == old(error)
      ensures s.Rejected? ==> data == None && result == None && error == Some(ErrorText(s.reason))
    {
      match s {
        case Resolved(v) =>
          data := Some(v);
          result := Some(v);
        case Rejected(reason) =>
          error := Some(ErrorText(reason));
          data := None;
          result := None;
      }
      isLoading := false;
    }

    /**
      `execute` run to completion: afterwards nothing is loading, there is an
      error exactly when the fetcher rejected, and the data and the returned
      value are the result on success and None on failure.
    */
    method Execute(s: Settlement<T>) returns (result: Option<T>)
      modifies this
      ensures !isLoading
      ensures error.None? <==> s.Resolved?
      ensures s.Resolved? ==> data == Some(s.value) && result == Some(s.value)
      ensures s.Rejected? ==> data == None && result == None && error == Some(ErrorText(s.reason))
    {
      Begin();
      result := Complete(s);
    }

    /** `reset`: back to the initial state, from any state (so twice is once). */
    method Reset()
      modifies this
      ensures IsInitial()
    {
      data := None;
      error := None;
      isLoading := false;
    }
  }
}
