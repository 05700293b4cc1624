/**
  How a handler turns what the composed endpoint did into a response, how
  BindBody words its 400 error, and what the default not-found handler
  answers. translateError, jsonErrorDetails, the HTTP error type and
  unknownError are defined elsewhere in the package: they enter here as
  function parameters, type parameters and symbolic terms, never with
  invented behaviour.
*/
module Render {
  import opened Wrappers

  /** What a call of the composed endpoint did: it returned a result and a
      possibly nil error, or it panicked. */
  datatype Outcome<V, E> = Returned(result: V, err: Option<E>) | Panicked

  /** A response body: the endpoint's result as is, the translated error, or
      the package's unknownError value. */
  datatype Body<V, H> = ResultBody(value: V) | ErrorBody(error: H) | UnknownErrorBody

  datatype Response<V, H> = Response(status: int, body: Body<V, H>)

  const StatusOK := 200
  const StatusInternalServerError := 500

  /** endpointToHandler's choice of response. `translate` is translateError
      and `statusOf` reads the Status of the error it returns. */
  function Respond<V, E, H>(o: Outcome<V, E>, dumpErrors: bool,
                            translate: (E, bool) -> H, statusOf: H -> int): (r: Response<V, H>)
    ensures r.body.ResultBody? <==> o.Returned? && o.err.None?
    ensures r.body.ErrorBody? <==> o.Returned? && o.err.Some?
    ensures r.body.UnknownErrorBody? <==> o.Panicked?
    ensures r.body.ResultBody? ==> r.status == StatusOK && r.body.value == o.result
    ensures r.body.ErrorBody? ==>
              r.body.error == translate(o.err.value, dumpErrors) && r.status == statusOf(r.body.error)
    ensures r.body.UnknownErrorBody? ==> r.status == StatusInternalServerError
  {
    match o
    case Panicked => Response(StatusInternalServerError, UnknownErrorBody)
    case Returned(result, err) =>
      if err.Some? then
        var httpErr := translate(err.value, dumpErrors);
        Response(statusOf(httpErr), ErrorBody(httpErr))
      else
        Response(StatusOK, ResultBody(result))
  }

  /** DumpErrors reaches the response only through translateError: a
      successful call and a panic are answered the same either way. */
  lemma DumpErrorsOnlyAffectsErrors<V, E, H>(o: Outcome<V, E>, translate: (E, bool) -> H, statusOf: H -> int)
    requires !(o.Returned? && o.err.Some?)
    ensures Respond(o, true, translate, statusOf) == Respond(o, false, translate, statusOf)
  {
  }

  /** When the endpoint returns an error, its result is discarded. */
  lemma ResultIgnoredOnError<V, E, H>(v1: V, v2: V, err: E, dumpErrors: bool,
                                      translate: (E, bool) -> H, statusOf: H -> int)
    ensures Respond(Returned(v1, Some(err)), dumpErrors, translate, statusOf)
         == Respond(Returned(v2, Some(err)), dumpErrors, translate, statusOf)
  {
  }

  const MalformedJson := "malformed or unexpected json"

  /** The symbolic value of `BadRequest(message).Wrap(cause)`. */
  datatype BadRequestError<E> = BadRequestWrapping(message: string, cause: E)

  /** BindBody's message for a decoding failure whose details are `details`. */
  function BindMessage(details: string): (msg: string)
    ensures |msg| >= |MalformedJson| && msg[..|MalformedJson|] == MalformedJson
    ensures msg == MalformedJson <==> details == []
    ensures details != [] ==>
      |msg| >= |MalformedJson| + 2 && msg[|MalformedJson|..|MalformedJson| + 2] == ": "
  {
    if details != [] then MalformedJson + ": " + details else MalformedJson
  }

  /** Reads the details back out of a BindBody message. */
  function DetailsOf(msg: string): string {
    if |msg| <= |MalformedJson| + 2 then [] else msg[|MalformedJson| + 2..]
  }

  /** The message loses nothing: the details can be read back from it, so
      two different details never give the same message. */
  lemma DetailsRoundTrip(details: string)
    ensures DetailsOf(BindMessage(details)) == details
  {
    if details != [] {
      var msg := MalformedJson + ": " + details;
      assert |msg| == |MalformedJson| + 2 + |details|;
      assert msg[|MalformedJson| + 2..] == details;
    }
  }

  /** Request.BindBody: `bindErr` is what the gin binding returned and
      `jsonErrorDetails` the package's detail extractor. A nil error is
      passed on; any other error becomes a 400 wrapping it. */
  function BindBody<E>(bindErr: Option<E>, jsonErrorDetails: E -> string): (r: Option<BadRequestError<E>>)
    ensures r.None? <==> bindErr.None?
    ensures r.Some? ==> r.value.cause == bindErr.value
    ensures r.Some? ==> DetailsOf(r.value.message) == jsonErrorDetails(bindErr.value)
    ensures r.Some? ==> r.value.message == BindMessage(jsonErrorDetails(bindErr.value))
  {
    match bindErr
    case None => None
    case Some(err) =>
      DetailsRoundTrip(jsonErrorDetails(err));
      Some(BadRequestWrapping(BindMessage(jsonErrorDetails(err)), err))
  }

  /** The invalid-JSON request body of the package's own test: the
      decoder's details follow the fixed text and a colon. */
  lemma BindBodyOfBadJson<E>(err: E, jsonErrorDetails: E -> string)
    requires jsonErrorDetails(err) == "offset 8: invalid character '|' looking for beginning of value"
    ensures BindBody(Some(err), jsonErrorDetails)
         == Some(BadRequestWrapping("malformed or unexpected json: "
                                    + "offset 8: invalid character '|' looking for beginning of value", err))
  {
    assert MalformedJson + ": " == "malformed or unexpected json: ";
  }

  /** The symbolic value of `Error(status, code, message)`. */
  datatype ErrorValue = ErrorValue(status: int, code: string, message: string)

  /** The default not-found handler: status 404 with
      Error(404, "not_found", "url not found"). */
  function DefaultNotFoundReply(): (r: (int, ErrorValue))
    ensures r.0 == 404 && r.1.status == r.0
    ensures r.1.code == "not_found" && r.1.message == "url not found"
  {
    (404, ErrorValue(404, "not_found", "url not found"))
  }
}
