/**
 * Classification of an error raised while a chat request is processed into
 * the HTTP status and caller-safe message of a plain error response.
 */
module Errors {
  import opened Wrappers

  /** What the handler reads off a thrown error: its `status` and its `message`, either possibly absent. */
  datatype Thrown = Thrown(status: Option<int>, message: Option<string>)

  /** A plain (non-streamed) error response. */
  datatype Rejection = Rejection(status: int, error: string)

  const GenericMessage: string := "An error occurred while processing your request"
  const AuthMessage: string := "Invalid API key. Please check your Groq API key."
  const RateLimitMessage: string := "Rate limit exceeded. Please try again later."
  const NetworkMessage: string := "Network error. Please check your connection."

  /** `sub` occurs in `s` starting at position `i`. */
  predicate OccursAt(s: string, sub: string, i: nat) {
    i + |sub| <= |s| && s[i..i + |sub|] == sub
  }

  /** `String.prototype.includes`: `sub` occurs somewhere in `s`. */
  function Contains(s: string, sub: string): (r: bool)
    ensures r <==> exists i: nat :: OccursAt(s, sub, i)
    decreases |s|
  {
    if |s| < |sub| then
      assert forall i: nat :: !OccursAt(s, sub, i);
      false
    else if s[..|sub|] == sub then
      assert OccursAt(s, sub, 0);
      true
    else
      var rest := Contains(s[1..], sub);
      assert forall i: nat :: OccursAt(s[1..], sub, i) <==> OccursAt(s, sub, i + 1) by {
        forall i: nat ensures OccursAt(s[1..], sub, i) <==> OccursAt(s, sub, i + 1) {
          if i + 1 + |sub| <= |s| {
            assert s[1..][i..i + |sub|] == s[i + 1..i + 1 + |sub|];
          }
        }
      }
      assert !OccursAt(s, sub, 0);
      assert (exists i: nat :: OccursAt(s, sub, i)) ==> exists i: nat :: OccursAt(s[1..], sub, i) by {
        if exists i: nat :: OccursAt(s, sub, i) {
          var i: nat :| OccursAt(s, sub, i);
          assert i != 0;
          assert OccursAt(s[1..], sub, i - 1);
        }
      }
      rest
  }

  /** The status of the response: the error's own status when it has a truthy one, 500 otherwise. */
  function StatusOf(e: Thrown): (r: int)
    ensures e.status.Some? && e.status.value != 0 ==> r == e.status.value
    ensures e.status.None? || e.status.value == 0 ==> r == 500
  {
    match e.status
    case Some(s) => if s != 0 then s else 500
    case None => 500
  }

  /**
   * The message for a thrown error: 401 is an authentication failure, 429 a
   * rate limit, a message mentioning "network" a network failure, checked in
   * that order; anything else gets the generic message.
   */
  function ClassifyError(e: Thrown): (r: Rejection)
    ensures r.error == AuthMessage <==> e.status == Some(401)
    ensures r.error == RateLimitMessage <==> e.status == Some(429)
    ensures r.error == NetworkMessage <==>
              e.status != Some(401) && e.status != Some(429) &&
              e.message.Some? && exists i: nat :: OccursAt(e.message.value, "network", i)
    ensures r.error in {GenericMessage, AuthMessage, RateLimitMessage, NetworkMessage}
    ensures r.status == StatusOf(e)
  {
    var message :=
      if e.status == Some(401) then AuthMessage
      else if e.status == Some(429) then RateLimitMessage
      else if e.message.Some? && Contains(e.message.value, "network") then NetworkMessage
      else GenericMessage;
    Rejection(StatusOf(e), message)
  }
}
