/**
 * Network calls as abstract outcomes.  Nothing is fetched: each call the
 * dashboard makes is represented by the outcome it had, and a failed outcome
 * by the value the awaited promise throws.
 */
module Http {
  import opened Text

  /**
   * How one request ended: a parsed JSON body, a response whose status is not
   * 2xx, an abort by the request's timer (AbortError), a rejection with no
   * response (TypeError), or a body that is not JSON (SyntaxError).  The last
   * three carry the message the browser gives, which varies between browsers.
   */
  datatype Fetch<+T> =
    | Ok(body: T)
    | HttpError(status: nat)
    | Aborted(message: string)
    | NetworkFailure(message: string)
    | MalformedBody(message: string)

  /** What a `catch` clause receives: an `Error` instance with its name and message, or any other value. */
  datatype Thrown = ErrorValue(name: string, message: string) | OtherValue

  const HttpErrorPrefix: string := "HTTP error! status: "

  /** The message `fetchWithTimeout` throws for a response that is not ok. */
  function HttpErrorMessage(status: nat): string {
    HttpErrorPrefix + NatToString(status)
  }

  /**
   * The value `fetchWithTimeout` throws for a failed outcome: its own `Error`
   * for a non-ok status, otherwise the rejection of `fetch` or `response.json()`
   * passed through unchanged.
   */
  function TimedFetchThrown<T>(f: Fetch<T>): (t: Thrown)
    requires !f.Ok?
    ensures t.ErrorValue?
    ensures t.name == "AbortError" <==> f.Aborted?
    ensures f.HttpError? ==> t.message == HttpErrorMessage(f.status)
    ensures !f.HttpError? ==> t.message == f.message
  {
    match f
    case HttpError(status) => ErrorValue("Error", HttpErrorMessage(status))
    case Aborted(m) => ErrorValue("AbortError", m)
    case NetworkFailure(m) => ErrorValue("TypeError", m)
    case MalformedBody(m) => ErrorValue("SyntaxError", m)
  }

  /** The status message never reads like a browser's network failure. */
  lemma HttpMessageNotFailedToFetch(status: nat)
    ensures !Contains(HttpErrorMessage(status), "Failed to fetch")
  {
    var msg := HttpErrorMessage(status);
    var digits := NatToString(status);
    ContainsIffOccurs(msg, "Failed to fetch");
    assert 'F' !in HttpErrorPrefix;
    forall i | 0 <= i <= |msg| - 15
      ensures !OccursAt(msg, "Failed to fetch", i)
    {
      assert msg[i..i + 15][0] == msg[i];
      if i >= 20 {
        assert msg[i] == digits[i - 20];
      }
    }
  }

  /**
   * For every status a response can carry (three digits), the thrown message
   * mentions "404" exactly when the status is 404: the fixed prefix holds no
   * '4', so the only place "404" can start is the status itself.
   */
  lemma HttpMessageMentions404(status: nat)
    requires 100 <= status <= 999
    ensures Contains(HttpErrorMessage(status), "404") <==> status == 404
  {
    ContainsIffOccurs(HttpErrorMessage(status), "404");
    if status == 404 {
      NotFoundStatusOccurs();
    } else {
      OtherStatusLacks404(status);
    }
  }

  lemma NotFoundStatusOccurs()
    ensures OccursAt(HttpErrorMessage(404), "404", 20)
  {
    assert NatToString(40) == "40";
    assert NatToString(404) == "404";
  }

  lemma OtherStatusLacks404(status: nat)
    requires 100 <= status <= 999 && status != 404
    ensures forall i :: !OccursAt(HttpErrorMessage(status), "404", i)
  {
    var msg := HttpErrorMessage(status);
    var digits := NatToString(status);
    ThreeDigits(status);
    assert '4' !in HttpErrorPrefix;
    forall i | 0 <= i <= 20
      ensures !OccursAt(msg, "404", i)
    {
      if i < 20 {
        assert msg[i..i + 3][0] == HttpErrorPrefix[i];
      } else {
        assert msg[20..23] == digits;
        assert DigitsValue("404") == 404;
      }
    }
  }
}
