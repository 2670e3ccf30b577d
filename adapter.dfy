/**
 * `search_perplexity`: validate, create the client once, make one attempt
 * and, on a transient failure only, exactly one more.
 *
 * The provider call run under the timeout controller is an oracle: the
 * sequence `outcomes` gives what the n-th attempt returns or raises,
 * including the controller's `TimeoutError`.
 */
module Adapter {
  import opened Wrappers
  import opened Text
  import opened Errors
  import opened Requests
  import opened Normalizer

  /** What calling the client factory does: hand back a client, or raise. */
  datatype Factory = Client | Fails(exc: Exception)

  /** One attempt under the timeout controller: a provider response, or an exception. */
  datatype Attempt = Returned(response: ProviderResponse) | Threw(exc: Exception)

  /** The arguments of one `client.search.create` call; no domain filter is ever passed. */
  datatype ProviderCall = ProviderCall(query: string, maxResults: int)

  const MissingKeyMessage := "PERPLEXITY_API_KEY is required but missing or empty"
  const RetryPrefix := "perplexity_search failed after retry: "

  /**
   * `_create_client`, given the value of PERPLEXITY_API_KEY ("" when unset):
   * a blank key raises `OSError`, anything else yields a client.
   */
  function CreateClient(apiKey: string): (f: Factory)
    ensures f.Fails? <==> AllSpace(apiKey)
    ensures f.Fails? ==> f.exc == Exception(OSErr, false, "OSError", MissingKeyMessage)
  {
    StripEmptyIffAllSpace(apiKey);
    if Strip(apiKey) == [] then Fails(Exception(OSErr, false, "OSError", MissingKeyMessage))
    else Client
  }

  /** `isinstance(exc, (ValueError, EnvironmentError, RuntimeError))`. */
  predicate IsValidationOrEnvironment(e: Exception): (r: bool)
    ensures r <==> e.kind != Other
  {
    e.kind == ValueErr || e.kind == OSErr || e.kind == TimeoutErr || e.kind == RuntimeErr
  }

  /**
   * A first-attempt failure that earns the single retry: outside the
   * ValueError/OSError/RuntimeError families and transient by the heuristic.
   * The controller's `TimeoutError` never qualifies.
   */
  predicate Retryable(e: Exception): (r: bool)
    ensures r <==> e.kind == Other && IsTransientError(e)
    ensures e.kind == TimeoutErr ==> !r
  {
    !IsValidationOrEnvironment(e) && IsTransientError(e)
  }

  /** The generic `Exception` raised when the retry fails too. */
  function AfterRetry(e: Exception): (r: Exception)
    ensures r.kind == Other && !r.structuredTransport && r.className == "Exception"
    ensures RetryPrefix <= r.message
  {
    Exception(Other, false, "Exception", RetryPrefix + e.className + ": " + e.message)
  }

  /**
   * The wrapped message still identifies the failure: class names carry no
   * ':', so two retry failures with the same message had the same class
   * name and the same message.
   */
  lemma AfterRetryIdentifiesCause(e1: Exception, e2: Exception)
    requires ':' !in e1.className && ':' !in e2.className
    requires AfterRetry(e1).message == AfterRetry(e2).message
    ensures e1.className == e2.className && e1.message == e2.message
  {
    var n := |RetryPrefix|;
    var s1 := e1.className + ": " + e1.message;
    var s2 := e2.className + ": " + e2.message;
    assert s1 == AfterRetry(e1).message[n..];
    assert s2 == AfterRetry(e2).message[n..];
    var c1, c2 := e1.className, e2.className;
    assert s1 == s2;
    // The first ':' of the shared text sits right after each class name.
    assert forall k :: 0 <= k < |c1| ==> s1[k] == c1[k] != ':';
    assert forall k :: 0 <= k < |c2| ==> s2[k] == c2[k] != ':';
    assert s1[|c1|] == ':' && s2[|c2|] == ':';
    assert |c1| == |c2|;
    assert c1 == s1[..|c1|] == s2[..|c2|] == c2;
    assert e1.message == s1[|c1| + 2..] == s2[|c2| + 2..] == e2.message;
  }

  /** What one request ends in, how often the factory ran, and the provider calls made. */
  datatype Search = Search(result: Result<seq<SearchResult>>, factoryCalls: nat, calls: seq<ProviderCall>)

  /** The records an attempt returned, or what it raised (wrapped when it was the retry). */
  function AttemptResult(outcome: Attempt, retried: bool): Result<seq<SearchResult>> {
    match outcome
    case Returned(response) => Ok(NormalizedResults(response))
    case Threw(e) => if retried then Raised(AfterRetry(e)) else Raised(e)
  }

  /**
   * The specification of `search_perplexity`: an invalid request raises its
   * `ValueError` before any client exists; otherwise the factory runs once,
   * and with a client the provider is called once, or twice when the first
   * failure is retryable, and the last attempt decides the result.
   */
  function SearchOutcome(query: string, numResults: Option<NumArg>, factory: Factory, outcomes: seq<Attempt>): (s: Search)
    requires |outcomes| >= 2
    ensures s.factoryCalls <= 1 && |s.calls| <= 2
    ensures s.factoryCalls == 0 <==> ValidateQuery(query).Raised? || ClampNumResults(numResults).Raised?
    ensures s.calls != [] ==> s.factoryCalls == 1 && factory.Client?
  {
    match (ValidateQuery(query), ClampNumResults(numResults))
    case (Raised(e), _) => Search(Raised(e), 0, [])
    case (Ok(_), Raised(e)) => Search(Raised(e), 0, [])
    case (Ok(q), Ok(n)) =>
      match factory
      case Fails(e) => Search(Raised(e), 1, [])
      case Client =>
        var retried := outcomes[0].Threw? && Retryable(outcomes[0].exc);
        var attempts := if retried then 2 else 1;
        Search(AttemptResult(outcomes[attempts - 1], retried), 1, seq(attempts, _ => ProviderCall(q, n)))
  }

  /** Validation and clamping run first: a bad request raises their error and never creates a client. */
  lemma ValidationBeforeClient(query: string, numResults: Option<NumArg>, factory: Factory, outcomes: seq<Attempt>)
    requires |outcomes| >= 2
    ensures var s := SearchOutcome(query, numResults, factory, outcomes);
            && (ValidateQuery(query).Raised? ==> s == Search(Raised(ValidateQuery(query).exc), 0, []))
            && (ValidateQuery(query).Ok? && ClampNumResults(numResults).Raised? ==>
                  s == Search(Raised(ClampNumResults(numResults).exc), 0, []))
  {
  }

  /**
   * A valid request calls the factory exactly once, outside the retry; when
   * it raises (a missing API key) that exception propagates and no attempt is made.
   */
  lemma ClientCreatedOnce(query: string, numResults: Option<NumArg>, factory: Factory, outcomes: seq<Attempt>)
    requires |outcomes| >= 2
    requires ValidateQuery(query).Ok? && ClampNumResults(numResults).Ok?
    ensures var s := SearchOutcome(query, numResults, factory, outcomes);
            && s.factoryCalls == 1
            && (factory.Fails? ==> s.result == Raised(factory.exc) && s.calls == [])
            && (factory.Client? ==> s.calls != [])
  {
  }

  /** At most two attempts, each with the stripped query and the clamped count. */
  lemma AtMostTwoAttempts(query: string, numResults: Option<NumArg>, factory: Factory, outcomes: seq<Attempt>)
    requires |outcomes| >= 2
    ensures var s := SearchOutcome(query, numResults, factory, outcomes);
            && |s.calls| <= 2
            && forall k :: 0 <= k < |s.calls| ==>
                 s.calls[k] == ProviderCall(Strip(query), ClampNumResults(numResults).value)
  {
  }

  /**
   * A first success is returned normalized after one attempt; a first
   * failure that is a ValueError, OSError (TimeoutError included) or
   * RuntimeError, or that the classifier rejects, is re-raised unchanged
   * after one attempt.
   */
  lemma NoRetry(query: string, numResults: Option<NumArg>, outcomes: seq<Attempt>)
    requires |outcomes| >= 2
    requires ValidateQuery(query).Ok? && ClampNumResults(numResults).Ok?
    requires outcomes[0].Returned? || !Retryable(outcomes[0].exc)
    ensures var s := SearchOutcome(query, numResults, Client, outcomes);
            && |s.calls| == 1
            && s.result == match outcomes[0]
                           case Returned(response) => Ok(NormalizedResults(response))
                           case Threw(e) => Raised(e)
  {
  }

  /** The controller's timeout on the first attempt is re-raised as it is, although its text looks transient. */
  lemma TimeoutNotRetried(query: string, numResults: Option<NumArg>, ms: string, second: Attempt)
    requires ValidateQuery(query).Ok? && ClampNumResults(numResults).Ok?
    ensures IsTransientError(ControllerTimeout(ms))
    ensures var s := SearchOutcome(query, numResults, Client, [Threw(ControllerTimeout(ms)), second]);
            |s.calls| == 1 && s.result == Raised(ControllerTimeout(ms))
  {
  }

  /**
   * A retryable first failure leads to exactly one more attempt: its
   * success is returned, and any failure of it, a timeout included, is
   * wrapped as "failed after retry".
   */
  lemma RetryOnce(query: string, numResults: Option<NumArg>, outcomes: seq<Attempt>)
    requires |outcomes| >= 2
    requires ValidateQuery(query).Ok? && ClampNumResults(numResults).Ok?
    requires outcomes[0].Threw? && Retryable(outcomes[0].exc)
    ensures var s := SearchOutcome(query, numResults, Client, outcomes);
            && |s.calls| == 2
            && s.result == match outcomes[1]
                           case Returned(response) => Ok(NormalizedResults(response))
                           case Threw(e) => Raised(AfterRetry(e))
  {
  }

  /** `search_perplexity`, with the factory's behaviour and the attempts' outcomes given. */
  method SearchPerplexity(query: string, numResults: Option<NumArg>, factory: Factory, outcomes: seq<Attempt>)
    returns (r: Result<seq<SearchResult>>, factoryCalls: nat, calls: seq<ProviderCall>)
    requires |outcomes| >= 2
    ensures Search(r, factoryCalls, calls) == SearchOutcome(query, numResults, factory, outcomes)
  {
    factoryCalls, calls := 0, [];
    var q := ValidateQuery(query);
    if q.Raised? {
      return Raised(q.exc), factoryCalls, calls;
    }
    var maxResults := ClampNumResults(numResults);
    if maxResults.Raised? {
      return Raised(maxResults.exc), factoryCalls, calls;
    }
    factoryCalls := factoryCalls + 1;
    if factory.Fails? {
      return Raised(factory.exc), factoryCalls, calls;
    }
    var call := ProviderCall(q.value, maxResults.value);

    // First attempt
    calls := calls + [call];
    var first := outcomes[0];
    if first.Returned? {
      var records := NormalizeResults(first.response);
      return Ok(records), factoryCalls, calls;
    }
    var exc := first.exc;
    if IsValidationOrEnvironment(exc) {
      return Raised(exc), factoryCalls, calls;
    }
    if !IsTransientError(exc) {
      return Raised(exc), factoryCalls, calls;
    }

    // Single retry
    calls := calls + [call];
    var second := outcomes[1];
    if second.Returned? {
      var records := NormalizeResults(second.response);
      return Ok(records), factoryCalls, calls;
    }
    r := Raised(AfterRetry(second.exc));
  }
}
