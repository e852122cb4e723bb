/** The pure parts of the response-error interceptor: how an error is classified,
    how a non-refresh error is turned into a rejection, and what ejecting the
    interceptor does to the client's list of response handlers. */
module Interceptor {
  import opened Http

  const TokenExpired: string := "token.expired"
  const TokenInvalid: string := "token.invalid"

  /** `response.data?.message`: absent when there is no response, no body or no message. */
  function MessageOf(e: ResponseError): Option<string>
  {
    match e.response
    case Some(Response(_, Some(body))) => body.message
    case _ => None
  }

  predicate IsUnauthorized(e: ResponseError)
  {
    e.response.Some? && e.response.value.status == 401
  }

  /** An auth failure: a 401 whose body names an expired or an invalid token. */
  predicate IsAuthFailure(e: ResponseError)
  {
    IsUnauthorized(e) && (MessageOf(e) == Some(TokenExpired) || MessageOf(e) == Some(TokenInvalid))
  }

  /** The stored token is usable: `!oldToken` holds for a missing and for an empty token. */
  predicate HasToken(stored: Option<string>)
  {
    stored.Some? && stored.value != ""
  }

  predicate HasBody(e: ResponseError)
  {
    e.response.Some? && e.response.value.data.Some?
  }

  /** The rejection of an error that does not go through a refresh: an AppError with the
      server's message when the response has a body, otherwise the error itself. */
  function Rejection(e: ResponseError): (f: Failure)
    ensures f.AppError? <==> e.response.Some? && e.response.value.data.Some?
    ensures f.AppError? ==> f.message == e.response.value.data.value.message
    ensures !f.AppError? ==> f == Raw(e)
  {
    if HasBody(e) then AppError(MessageOf(e)) else Raw(e)
  }

  /** What the interceptor decides for one failing request. */
  datatype Action =
    | Refresh(token: string)                  // refresh with the stored token, or wait for the refresh in flight
    | SignOutAndReject                        // auth failure with nothing to refresh from
    | Reject(signOut: bool, reason: Failure)  // any other error, after a sign-out for a plain 401

  function Classify(e: ResponseError, stored: Option<string>): (a: Action)
    // the refresh path is taken exactly for a 401 carrying one of the two expiry markers
    ensures (a.Refresh? || a.SignOutAndReject?) <==>
              e.response.Some? && e.response.value.status == 401 && e.response.value.data.Some? &&
              e.response.value.data.value.message in {Some("token.expired"), Some("token.invalid")}
    ensures a.Refresh? <==> IsAuthFailure(e) && HasToken(stored)
    ensures a.Refresh? ==> stored == Some(a.token) && a.token != ""
    ensures a.SignOutAndReject? <==> IsAuthFailure(e) && !HasToken(stored)
    // every other error: sign-out exactly when it is a 401, then the mapped rejection
    ensures a.Reject? ==> a.signOut == IsUnauthorized(e) && a.reason == Rejection(e)
  {
    if IsUnauthorized(e) then
      if MessageOf(e) == Some(TokenExpired) || MessageOf(e) == Some(TokenInvalid) then
        if !HasToken(stored) then SignOutAndReject else Refresh(stored.value)
      else
        Reject(true, Rejection(e))
    else
      Reject(false, Rejection(e))
  }

  /** The client's response handlers, `true` while registered; ejecting a handle clears its
      slot when it is registered and leaves everything else as it is. */
  function Ejected(handlers: seq<bool>, id: nat): (r: seq<bool>)
    ensures |r| == |handlers|
    ensures id < |r| ==> !r[id]
    ensures forall i :: 0 <= i < |handlers| && i != id ==> r[i] == handlers[i]
  {
    if id < |handlers| && handlers[id] then handlers[id := false] else handlers
  }

  /** Calling the unsubscribe closure a second time changes nothing. */
  lemma EjectTwice(handlers: seq<bool>, id: nat)
    ensures Ejected(Ejected(handlers, id), id) == Ejected(handlers, id)
  {
  }
}
