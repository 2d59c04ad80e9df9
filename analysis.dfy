/**
 * How one drain of the analysis queue ends (frontend/src/App.js, lines 52-163):
 * the health probe fails, the analysis call throws, or a reply is parsed.
 */
module Analysis {
  import Smoother

  /** A thrown JavaScript error: only its `name` and `message` are inspected. */
  datatype JsError = JsError(name: string, message: string)

  /**
   * The outcome delivered when the awaited work of one job is over.
   * `HealthFailed` comes after the 10-second grace period that follows a failed or
   * aborted `GET /health` or a non-2xx answer to it. `Threw` covers everything the
   * outer `catch` sees: the 15-second abort, the `HTTP <status>` error raised for a
   * non-2xx reply, a network error, a body that is not JSON.
   */
  datatype Outcome = HealthFailed | Threw(err: JsError) | Replied(body: Smoother.Response)

  /** The three branches of the outer `catch`. */
  datatype Failure = Timeout | HttpFailure | OtherFailure

  const AbortErrorName: string := "AbortError"
  const HttpTag: string := "HTTP"

  /** `p` occurs in `s` starting at index `k`. */
  predicate OccursAt(s: string, p: string, k: nat) {
    k + |p| <= |s| && s[k..k + |p|] == p
  }

  /** `s.includes(p)`: `p` occurs in `s` at some offset. */
  function Includes(s: string, p: string): (b: bool)
    ensures b <==> exists k: nat :: OccursAt(s, p, k)
    decreases |s|
  {
    if |p| <= |s| && s[..|p|] == p then
      assert OccursAt(s, p, 0);
      true
    else if s == [] then
      false
    else
      assert !OccursAt(s, p, 0);
      forall k: nat | OccursAt(s[1..], p, k) ensures OccursAt(s, p, k + 1) {
        assert s[k + 1..k + 1 + |p|] == s[1..][k..k + |p|];
      }
      forall k: nat | 1 <= k && OccursAt(s, p, k) ensures OccursAt(s[1..], p, k - 1) {
        assert s[k..k + |p|] == s[1..][k - 1..k - 1 + |p|];
      }
      Includes(s[1..], p)
  }

  /** `err.name === "AbortError"` first, then `err.message.includes('HTTP')`, else the generic branch. */
  function Classify(e: JsError): (f: Failure)
    ensures f == Timeout <==> e.name == AbortErrorName
    ensures f == HttpFailure <==> e.name != AbortErrorName && Includes(e.message, HttpTag)
  {
    if e.name == AbortErrorName then Timeout
    else if Includes(e.message, HttpTag) then HttpFailure
    else OtherFailure
  }

  /** The error raised for a reply that is not ok: `new Error(`HTTP ${response.status}`)`. */
  function StatusError(status: string): (e: JsError)
    ensures e.name == "Error" && e.name != AbortErrorName
    ensures |e.message| >= |HttpTag| && e.message[..|HttpTag|] == HttpTag
    ensures e.message[|HttpTag|..] == " " + status
  {
    JsError("Error", "HTTP " + status)
  }

  /** A non-2xx reply always takes the recoverable HTTP branch, whatever its status text. */
  lemma StatusErrorIsHttp(status: string)
    ensures Classify(StatusError(status)) == HttpFailure
  {
    var m := StatusError(status).message;
    assert m[..|HttpTag|] == HttpTag;
  }

  /** Whether an outcome ends the session: a failed probe or the 15-second abort. */
  function IsFatal(o: Outcome): (b: bool)
    ensures b <==> o.HealthFailed? || (o.Threw? && o.err.name == AbortErrorName)
    ensures o.Replied? ==> !b
  {
    o.HealthFailed? || (o.Threw? && Classify(o.err) == Timeout)
  }
}
