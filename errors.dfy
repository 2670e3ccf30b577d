/**
 * Exceptions as the adapter sees them, and `_is_transient_error`, the
 * classifier that decides whether a failed attempt may be retried once.
 */
module Errors {
  import opened Text

  /**
   * The built-in exception families the adapter tells apart. `TimeoutErr` is
   * Python's `TimeoutError`, itself an `OSError`; `Other` is every exception
   * outside `ValueError`, `OSError` and `RuntimeError` (SDK and httpx errors).
   */
  datatype Kind = ValueErr | OSErr | TimeoutErr | RuntimeErr | Other

  /**
   * A raised exception: its family, whether it is one of httpx's transport
   * errors (`ConnectError`, `ConnectTimeout`, `ReadTimeout`, `TransportError`),
   * its class name and `str(exc)`.
   */
  datatype Exception = Exception(kind: Kind, structuredTransport: bool, className: string, message: string)

  /** A value, or the exception raised instead of returning it. */
  datatype Result<+T> = Ok(value: T) | Raised(exc: Exception)

  const NameKeywords: seq<string> := ["timeout", "connect", "network", "transport"]

  const MessageKeywords: seq<string> :=
    ["timeout", "timed out", "connection", "transport", "temporarily unavailable", "try again"]

  /** Some keyword occurs in `text`. */
  predicate MentionsAny(keywords: seq<string>, text: string) {
    exists j :: 0 <= j < |keywords| && IsSubstring(keywords[j], text)
  }

  /** `any(k in text for k in keywords)`, scanning the keywords in order. */
  function AnyIn(keywords: seq<string>, text: string): (r: bool)
    ensures r <==> MentionsAny(keywords, text)
  {
    if keywords == [] then false
    else
      var rest := AnyIn(keywords[1..], text);
      assert forall j :: 1 <= j < |keywords| ==> keywords[j] == keywords[1..][j - 1];
      Contains(text, keywords[0]) || rest
  }

  /**
   * `_is_transient_error`: true for an httpx transport error, or when the
   * lower-cased class name or message contains one of the keywords. It is
   * total: it never raises.
   */
  function IsTransientError(e: Exception): (r: bool)
    ensures r <==> e.structuredTransport
                   || MentionsAny(NameKeywords, Lower(e.className))
                   || MentionsAny(MessageKeywords, Lower(e.message))
  {
    if e.structuredTransport then true
    else
      var name := Lower(e.className);
      var msg := Lower(e.message);
      if AnyIn(NameKeywords, name) then true
      else if AnyIn(MessageKeywords, msg) then true
      else false
  }

  /** More text around a message never makes a transient exception look permanent. */
  lemma TransientMessagePadded(e: Exception, p: string, q: string)
    requires IsTransientError(e)
    ensures IsTransientError(e.(message := p + e.message + q))
  {
    var e' := e.(message := p + e.message + q);
    if !e.structuredTransport && !MentionsAny(NameKeywords, Lower(e.className)) {
      var j :| 0 <= j < |MessageKeywords| && IsSubstring(MessageKeywords[j], Lower(e.message));
      LowerConcat(p, e.message);
      LowerConcat(p + e.message, q);
      SubstringPadded(MessageKeywords[j], Lower(e.message), Lower(p), Lower(q));
      assert IsSubstring(MessageKeywords[j], Lower(e'.message));
    }
  }

  /**
   * The exception `_TimeoutController.run` raises; `ms` is the decimal
   * rendering of the configured timeout in milliseconds.
   */
  function ControllerTimeout(ms: string): (e: Exception)
    ensures e.kind == TimeoutErr && !e.structuredTransport && e.className == "TimeoutError"
    ensures "Perplexity search timed out after " <= e.message && e.message[|e.message| - 2..] == "ms"
  {
    Exception(TimeoutErr, false, "TimeoutError", "Perplexity search timed out after " + ms + "ms")
  }

  /**
   * The controller's timeout passes the keyword heuristic (its class name
   * contains "timeout"), so only the exception-family check keeps it from
   * being retried.
   */
  lemma ControllerTimeoutLooksTransient(ms: string)
    ensures IsTransientError(ControllerTimeout(ms))
  {
  }
}
