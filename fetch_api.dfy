/**
 * `fetchAPI` in src/api.ts: the headers of every non-streaming request and the
 * mapping of a response status or a thrown error to the error the caller sees.
 */
module FetchApi {
  import opened Wrappers
  import opened Text

  const RATE_LIMIT_MESSAGE: string := "You are sending requests too quickly. Please wait a moment."
  const TIMEOUT_MESSAGE: string := "Request timed out. Please try again."

  /**
   * Request headers: JSON content type, then the caller's own headers, then a
   * bearer token when the session has a non-empty access token.
   */
  function Headers(extra: map<string, string>, accessToken: Option<string>): (h: map<string, string>)
    ensures "Content-Type" in h
    ensures "Content-Type" !in extra ==> h["Content-Type"] == "application/json"
    ensures accessToken.Some? && accessToken.value != [] ==> "Authorization" in h && h["Authorization"] == "Bearer " + accessToken.value
    ensures "Authorization" in h <==> (accessToken.Some? && accessToken.value != []) || "Authorization" in extra
    ensures forall k :: k in extra && k != "Authorization" ==> k in h && h[k] == extra[k]
  {
    var base := map["Content-Type" := "application/json"] + extra;
    if accessToken.Some? && accessToken.value != [] then base["Authorization" := "Bearer " + accessToken.value]
    else base
  }

  /** An error as JavaScript sees it: an `AbortError` or any other error with its message. */
  datatype Thrown = AbortError | Error(message: string)

  /** How `fetch` settled: a response with its status, or a rejection. */
  datatype Attempt = Responded(status: nat) | Rejected(thrown: Thrown)

  /** The status checks inside the `try`: 429 first, then any non-2xx status. */
  function CheckStatus(status: nat): (r: Option<Thrown>)
    ensures r.None? <==> 200 <= status <= 299
    ensures r.Some? ==> r.value.Error?
  {
    if status == 429 then Some(Error(RATE_LIMIT_MESSAGE))
    else if !(200 <= status <= 299) then Some(Error("API error: " + NatToString(status)))
    else None
  }

  /** The `catch`: an `AbortError` (the 90-second timer fired) becomes the timeout message; anything else is rethrown. */
  function Caught(t: Thrown): (message: string)
    ensures t.Error? ==> message == t.message
  {
    match t
    case AbortError => TIMEOUT_MESSAGE
    case Error(m) => m
  }

  /** The outcome of `fetchAPI`: success, or the message of the error the caller receives. */
  function Outcome(a: Attempt): (r: Result<(), string>)
  {
    match a
    case Rejected(t) => Err(Caught(t))
    case Responded(status) =>
      match CheckStatus(status)
      case None => Ok(())
      case Some(t) => Err(Caught(t))
  }

  /**
   * The mapping a caller observes: 429 is the rate-limit message (the generic
   * check never sees it), other non-2xx statuses name their status, 2xx
   * succeeds, and only an abort reads as a timeout.
   */
  lemma OutcomeMapping(a: Attempt)
    ensures a == Responded(429) ==> Outcome(a) == Err(RATE_LIMIT_MESSAGE)
    ensures a.Responded? && a.status != 429 && !(200 <= a.status <= 299) ==>
      Outcome(a) == Err("API error: " + NatToString(a.status))
    ensures a.Responded? ==> (Outcome(a).Ok? <==> 200 <= a.status <= 299)
    ensures a == Rejected(AbortError) ==> Outcome(a) == Err(TIMEOUT_MESSAGE)
    ensures a.Rejected? && a.thrown.Error? ==> Outcome(a) == Err(a.thrown.message)
  {
  }

  /** A status never reads as a timeout: the status errors are not aborts, so the `catch` passes them on. */
  lemma {:induction false} StatusNeverTimesOut(status: nat)
    ensures Outcome(Responded(status)) != Err(TIMEOUT_MESSAGE)
  {
    if status != 429 && !(200 <= status <= 299) {
      var m := "API error: " + NatToString(status);
      assert m[0] == 'A' && TIMEOUT_MESSAGE[0] == 'R';
    }
  }
}
