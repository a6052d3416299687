/** The request path of `ApiClient` (lib/api.ts) as pure decisions: the
    headers a request carries, how one fetch outcome becomes the uniform
    `ApiResponse`, when the degraded-mode latch goes up, and when canned data
    replaces an error. */
module Http {
  import opened Parking

  type FieldErrors = map<string, seq<string>>

  /** `ApiResponse<T>`: status "success" with `data`, or status "error" with
      a message and, possibly, per-field messages. */
  datatype ApiResponse<T> =
    | Success(data: T)
    | Error(message: string, errors: Option<FieldErrors>)

  /** What `fetch` followed by `response.json()` yields. `NetworkFailure`:
      `fetch` rejected. `DecodeFailure`: a response arrived but its body is not
      JSON. `Response`: the decoded body, with its `message` and `errors`
      members as the client reads them. */
  datatype FetchOutcome<T> =
    | NetworkFailure
    | DecodeFailure
    | Response(ok: bool, body: T, message: Option<string>, errors: Option<FieldErrors>)

  /** The request handed to `fetch`: url, HTTP method, headers and the JSON
      body before serialisation. */
  datatype HttpRequest = HttpRequest(url: string, verb: string, headers: map<string, string>, body: Option<Json>)

  const DefaultApiBase := "http://localhost:3000/api/v1"
  const GenericErrorMessage := "An error occurred"
  const NetworkErrorMessage := "Network error occurred"
  const OfflineErrorMessage := "Backend server not available (offline mode)"
  const BearerPrefix := "Bearer "

  /** `process.env.NEXT_PUBLIC_API_BASE || default`; an unset variable reads as "". */
  function ApiBase(configured: string): (base: string)
    ensures base != ""
    ensures configured != "" ==> base == configured
    ensures configured == "" ==> base == DefaultApiBase
  {
    if configured != "" then configured else DefaultApiBase
  }

  /** The outcomes that make the `try` block of `request` throw. */
  predicate Threw<T>(outcome: FetchOutcome<T>)
  {
    outcome.NetworkFailure? || outcome.DecodeFailure?
  }

  /** The headers of every request: the JSON content type and, when the token
      is truthy (present and not empty), a Bearer credential in the form of
      section 2.1 of RFC 6750. */
  function AuthHeaders(token: Option<string>): (h: map<string, string>)
    ensures "Content-Type" in h && h["Content-Type"] == "application/json"
    ensures "Authorization" in h <==> token.Some? && token.value != ""
    ensures "Authorization" in h ==> h["Authorization"] == BearerPrefix + token.value
    ensures h.Keys <= {"Content-Type", "Authorization"}
  {
    var base := map["Content-Type" := "application/json"];
    if token.Some? && token.value != "" then base["Authorization" := BearerPrefix + token.value] else base
  }

  /** The credential a server reads back from an Authorization header. */
  function BearerCredential(h: map<string, string>): Option<string>
  {
    if "Authorization" in h && |h["Authorization"]| > |BearerPrefix|
       && h["Authorization"][..|BearerPrefix|] == BearerPrefix
    then Some(h["Authorization"][|BearerPrefix|..])
    else None
  }

  /** The server gets back exactly the token the client holds, and no
      credential at all when that token is missing or empty. */
  lemma BearerRoundTrip(token: Option<string>)
    ensures BearerCredential(AuthHeaders(token)) == if token.Some? && token.value != "" then token else None
  {
    var h := AuthHeaders(token);
    if token.Some? && token.value != "" {
      var a := h["Authorization"];
      assert a[..|BearerPrefix|] == BearerPrefix;
      assert a[|BearerPrefix|..] == token.value;
    }
  }

  /** The degraded-mode latch after one request: raised only by a thrown
      fetch or decode, only in a development build, and never lowered. */
  function LatchAfter<T>(latch: bool, developmentMode: bool, outcome: FetchOutcome<T>): (r: bool)
    ensures latch ==> r
    ensures r && !latch ==> developmentMode && Threw(outcome)
    ensures developmentMode && Threw(outcome) ==> r
  {
    if developmentMode && !latch && Threw(outcome) then true else latch
  }

  /** The degraded-mode latch after a series of requests. */
  function LatchAfterAll<T>(latch: bool, developmentMode: bool, outcomes: seq<FetchOutcome<T>>): bool
    decreases |outcomes|
  {
    if outcomes == [] then latch
    else LatchAfterAll(LatchAfter(latch, developmentMode, outcomes[0]), developmentMode, outcomes[1..])
  }

  /** Over any series of requests the latch is up at the end exactly when it
      was up at the start or some request threw in a development build: it
      is never reset and never raised by a response, even a failed one. */
  lemma {:induction false} LatchHistory<T>(latch: bool, developmentMode: bool, outcomes: seq<FetchOutcome<T>>)
    ensures LatchAfterAll(latch, developmentMode, outcomes)
            <==> latch || (developmentMode && exists k :: 0 <= k < |outcomes| && Threw(outcomes[k]))
    decreases |outcomes|
  {
    if outcomes != [] {
      var next := LatchAfter(latch, developmentMode, outcomes[0]);
      LatchHistory(next, developmentMode, outcomes[1..]);
      if developmentMode && exists k :: 0 <= k < |outcomes[1..]| && Threw(outcomes[1..][k]) {
        var k :| 0 <= k < |outcomes[1..]| && Threw(outcomes[1..][k]);
        assert Threw(outcomes[k + 1]);
      }
      if developmentMode && exists k :: 0 <= k < |outcomes| && Threw(outcomes[k]) {
        var k :| 0 <= k < |outcomes| && Threw(outcomes[k]);
        if k > 0 { assert Threw(outcomes[1..][k - 1]); }
      }
    }
  }

  /** `data.message || "An error occurred"`: an absent or empty message falls
      back to the generic one. */
  function ServerMessage(message: Option<string>): (m: string)
    ensures m != ""
    ensures message.Some? && message.value != "" ==> m == message.value
    ensures message.None? || message.value == "" ==> m == GenericErrorMessage
  {
    if message.Some? && message.value != "" then message.value else GenericErrorMessage
  }

  /** The `ApiResponse` that `request` returns for one outcome, given the latch
      as it stands once the outcome has been handled. */
  function Classify<T>(outcome: FetchOutcome<T>, offline: bool): (r: ApiResponse<T>)
    ensures r.Success? <==> outcome.Response? && outcome.ok
    ensures r.Success? ==> r.data == outcome.body
    ensures outcome.Response? && !outcome.ok ==> r == Error(ServerMessage(outcome.message), outcome.errors)
    ensures Threw(outcome) ==> r == Error(if offline then OfflineErrorMessage else NetworkErrorMessage, None)
  {
    match outcome
    case Response(ok, body, message, errors) =>
      if ok then Success(body) else Error(ServerMessage(message), errors)
    case _ =>
      Error(if offline then OfflineErrorMessage else NetworkErrorMessage, None)
  }

  /** Every error `request` returns carries a non-empty message, and a thrown
      request reports the offline message exactly when the latch is up after
      it: from the very first failure in a development build, never in a
      production build that has not been latched. */
  lemma RequestErrorMessages<T>(latch: bool, developmentMode: bool, outcome: FetchOutcome<T>)
    ensures var r := Classify(outcome, LatchAfter(latch, developmentMode, outcome));
            && (r.Error? ==> r.message != "")
            && (Threw(outcome) ==> (r.message == OfflineErrorMessage <==> latch || developmentMode))
  {
  }

  /** `requestWithFallback`: the canned value replaces the result exactly when
      the result is an error of any kind, the latch is up and a fallback was
      supplied; otherwise the result passes through. */
  function WithFallback<T>(inner: ApiResponse<T>, offline: bool, fallback: Option<T>): (r: ApiResponse<T>)
    ensures inner.Error? && offline && fallback.Some? ==> r == Success(fallback.value)
    ensures !(inner.Error? && offline && fallback.Some?) ==> r == inner
  {
    if inner.Error? && offline && fallback.Some? then Success(fallback.value) else inner
  }

  /** Once degraded, a call with a fallback always answers with success, and
      with the fallback unless the server itself answered with success. */
  lemma FallbackAlwaysAnswers<T>(outcome: FetchOutcome<T>, latch: bool, developmentMode: bool, fallback: T)
    requires latch
    ensures var r := WithFallback(Classify(outcome, LatchAfter(latch, developmentMode, outcome)), true, Some(fallback));
            && r.Success?
            && (r.data == fallback || (outcome.Response? && outcome.ok && r.data == outcome.body))
  {
  }

  /** `if (response.status === "success" && response.data) setList(response.data)`:
      a list held by a screen is replaced only by a successful response that
      carries one (`null` data leaves it as it was). */
  function Replaced<T>(current: seq<T>, response: ApiResponse<Option<seq<T>>>): (r: seq<T>)
    ensures response.Success? && response.data.Some? ==> r == response.data.value
    ensures !(response.Success? && response.data.Some?) ==> r == current
  {
    if response.Success? && response.data.Some? then response.data.value else current
  }
}
