/**
 * The classification of queue errors shared by the routes: errors that say the
 * Redis/Valkey broker is unreachable become 503 responses, all others 500.
 */
module QueueErrors {
  import opened Wrappers
  import opened Text

  /** A thrown value; `message` is `None` when the property is missing. */
  datatype Thrown = Thrown(message: Option<string>)

  /** An HTTP status and the JSON body sent with it. */
  datatype ErrorResponse = ErrorResponse(
    status: int, error: string, message: string, suggestion: Option<string>, details: Option<string>)

  const DefaultOperation: string := "Background job processing"
  const DefaultMessage: string := "An internal error occurred while queuing the job"
  const UnavailableError: string := "Queue service (Redis) unavailable"
  const UnavailableReason: string := " is currently unavailable because the Redis/Valkey service is not running."
  const UnavailableSuggestion: string :=
    "Please ensure Redis/Valkey is running on your system, or set \"useQueue\": false in your request body for direct (non-queued) processing."
  const RedisTokens: seq<string> := ["Redis", "ECONNREFUSED", "Connection refused", "Stream isn't writeable", "enableOfflineQueue"]

  /** The message, when it is present and not empty (what `!error.message` tests). */
  function MessageOf(e: Option<Thrown>): Option<string> {
    if e.None? || e.value.message.None? || e.value.message.value == "" then None else e.value.message
  }

  /** `isRedisError`: a present, non-empty message mentioning one of the broker's failure words. */
  predicate IsRedisError(e: Option<Thrown>) {
    var m := MessageOf(e);
    m.Some? && (Contains(m.value, "Redis") || Contains(m.value, "ECONNREFUSED")
      || Contains(m.value, "Connection refused") || Contains(m.value, "Stream isn't writeable")
      || Contains(m.value, "enableOfflineQueue"))
  }

  /** A missing error, or one without a (non-empty) message, is never a Redis error. */
  lemma RedisErrorNeedsMessage(e: Option<Thrown>)
    requires e.None? || e.value.message.None? || e.value.message == Some("")
    ensures !IsRedisError(e)
  {
  }

  /** An error whose message embeds any of the five words, anywhere, is a Redis error. */
  lemma RedisTokenAnywhere(before: string, k: nat, after: string)
    requires k < |RedisTokens|
    ensures IsRedisError(Some(Thrown(Some(before + RedisTokens[k] + after))))
  {
    var t := RedisTokens[k];
    assert Contains(t, t) by {
      assert t[0..|t|] == t;
      ContainsAt(t, t, 0);
    }
    ContainsInContext(before, t, after, t);
    var m := before + t + after;
    assert MessageOf(Some(Thrown(Some(m)))) == Some(m) by {
      assert |m| >= |t| > 0;
    }
    if k == 0 { assert t == "Redis"; }
    else if k == 1 { assert t == "ECONNREFUSED"; }
    else if k == 2 { assert t == "Connection refused"; }
    else if k == 3 { assert t == "Stream isn't writeable"; }
    else { assert t == "enableOfflineQueue"; }
  }

  /** Conversely, a Redis error is one whose message embeds one of the five words. */
  lemma RedisErrorHasToken(e: Option<Thrown>)
    requires IsRedisError(e)
    ensures MessageOf(e).Some? && exists t :: t in RedisTokens && Contains(MessageOf(e).value, t)
  {
    var v := MessageOf(e).value;
    if Contains(v, "Redis") { assert RedisTokens[0] == "Redis"; }
    else if Contains(v, "ECONNREFUSED") { assert RedisTokens[1] == "ECONNREFUSED"; }
    else if Contains(v, "Connection refused") { assert RedisTokens[2] == "Connection refused"; }
    else if Contains(v, "Stream isn't writeable") { assert RedisTokens[3] == "Stream isn't writeable"; }
    else { assert RedisTokens[4] == "enableOfflineQueue"; }
  }

  /**
   * `handleQueueError(res, error, operation)`; `operation` is `None` when the
   * caller leaves it out. The error must be a value (its message is logged first).
   */
  function HandleQueueError(error: Thrown, operation: Option<string>): (r: ErrorResponse)
    ensures r.status == 503 <==> IsRedisError(Some(error))
    ensures r.status == 503 || r.status == 500
  {
    var op := operation.GetOr(DefaultOperation);
    if IsRedisError(Some(error)) then
      ErrorResponse(503, UnavailableError, op + UnavailableReason, Some(UnavailableSuggestion),
        error.message)
    else
      ErrorResponse(500, op + " failed", MessageOf(Some(error)).GetOr(DefaultMessage), None, None)
  }

  /**
   * A Redis error answers 503 with the original, non-empty message as `details`
   * and a message naming the operation (by default `Background job processing`).
   */
  lemma RedisErrorIs503(error: Thrown, operation: Option<string>)
    requires IsRedisError(Some(error))
    ensures var r := HandleQueueError(error, operation);
      var op := if operation.Some? then operation.value else DefaultOperation;
      r.details == error.message && r.details.Some? && r.details.value != "" && StartsWith(r.message, op)
  {
    var op := operation.GetOr(DefaultOperation);
    var r := HandleQueueError(error, operation);
    assert r.message[..|op|] == op;
  }

  /**
   * Any other error answers 500 with `"<operation> failed"` and its own
   * message, or the stock message when it has none.
   */
  lemma OtherErrorIs500(error: Thrown, operation: Option<string>)
    requires !IsRedisError(Some(error))
    ensures var r := HandleQueueError(error, operation);
      var op := if operation.Some? then operation.value else DefaultOperation;
      && r.error == op + " failed" && r.details.None? && r.suggestion.None?
      && (error.message.None? || error.message == Some("") ==> r.message == DefaultMessage)
      && (error.message.Some? && error.message.value != "" ==> r.message == error.message.value)
  {
  }
}
