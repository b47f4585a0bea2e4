/** Exceptions thrown by remote calls and the outcome of a completed call. */
module Failures {
  import opened Wrappers
  import opened Numbers

  /**
   * An exception thrown by a remote call. `Http` is Retrofit's `HttpException`
   * (status code, status message and the optional error body); `Other` is any
   * other exception, with its possibly-null `message`.
   */
  datatype Error =
    | Http(code: nat, status: string, body: Option<string>)
    | Other(message: Option<string>)

  /** A completed remote call: its value, or the exception it threw. */
  datatype Result<+T> = Ok(value: T) | Err(error: Error)

  /** `isNotFoundException`: an HTTP error whose status code is 404. */
  function IsNotFound(e: Error): (r: bool)
    ensures e.Other? ==> !r
  {
    e.Http? && e.code == 404
  }

  /** A not-found error's message is "HTTP 404 " followed by its status text. */
  lemma NotFoundMessage(e: Error)
    requires IsNotFound(e)
    ensures Message(e) == Some("HTTP 404 " + e.status)
  {
    assert NatToString(4) == "4";
    assert NatToString(40) == "4" + "0";
    assert NatToString(404) == "404";
    assert "HTTP " + NatToString(404) + " " + e.status == "HTTP 404 " + e.status;
  }

  /** `Throwable.message`; Retrofit renders an `HttpException` as "HTTP <code> <status>". */
  function Message(e: Error): (r: Option<string>)
    ensures e.Http? ==> r.Some? && |r.value| > 5 && r.value[..5] == "HTTP "
    ensures e.Other? ==> r == e.message
  {
    match e
    case Http(code, status, _) => Some("HTTP " + NatToString(code) + " " + status)
    case Other(m) => m
  }

  /**
   * How a call declared to return Retrofit's `Response<Unit>` ended: it
   * answered with an HTTP status (such a call never throws for one), or it
   * threw before any answer, with the exception's message.
   */
  datatype UnitReply = Status(code: nat) | Thrown(message: Option<string>)

  /**
   * `if (!response.isSuccessful) throw Exception(prefix + response.code())`:
   * a 2xx status succeeds; any other status becomes a plain exception whose
   * message is `prefix` followed by the code; an exception thrown by the call
   * propagates. It is never an HTTP error.
   */
  function UnitCallFailure(reply: UnitReply, prefix: string): (r: Option<Error>)
    ensures r.None? <==> reply.Status? && 200 <= reply.code <= 299
    ensures r.Some? ==> r.value.Other?
    ensures reply.Status? && r.Some? ==> r.value.message == Some(prefix + NatToString(reply.code))
    ensures reply.Thrown? ==> r == Some(Other(reply.message))
  {
    match reply
    case Status(code) => if 200 <= code <= 299 then None else Some(Other(Some(prefix + NatToString(code))))
    case Thrown(message) => Some(Other(message))
  }
}
