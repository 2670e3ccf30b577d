/**
 * Concrete cases of the model, each verified, that mirror the adapter's unit
 * tests: each method calls `SearchPerplexity` on fixed inputs and states the outcome.
 */
module Scenarios {
  import opened Wrappers
  import opened Text
  import opened Errors
  import opened Requests
  import opened Normalizer
  import opened Adapter

  function Item(title: string, url: string, date: Option<string>, snippet: Option<string>): ProviderItem {
    ProviderItem(Some(title), Some(url), date, snippet)
  }

  /** A blank query is refused before the client factory is touched. */
  method BlankQueryRefused() returns (r: Result<seq<SearchResult>>, factoryCalls: nat)
    ensures r == Raised(ValueError(EmptyQueryMessage)) && factoryCalls == 0
  {
    var none := Returned(ProviderResponse(None));
    var calls;
    r, factoryCalls, calls := SearchPerplexity("   ", None, Client, [none, none]);
  }

  /** An absent count asks the provider for 10 results, 0 for 1 and 99 for 30. */
  method CountDefaultAndClamping() returns (caps: seq<int>)
    ensures caps == [10, 1, 30]
  {
    var reply := Returned(ProviderResponse(Some([Item("t", "u", None, None)])));
    var outcomes := [reply, reply];
    var r, n, calls := SearchPerplexity("hello", None, Client, outcomes);
    var r0, n0, calls0 := SearchPerplexity("hello", Some(Integral(0)), Client, outcomes);
    var r99, n99, calls99 := SearchPerplexity("hello", Some(Integral(99)), Client, outcomes);
    caps := [calls[0].maxResults, calls0[0].maxResults, calls99[0].maxResults];
  }

  /** An httpx `ConnectError` on the first call is retried once and the second answer returned. */
  method ConnectErrorRetried() returns (r: Result<seq<SearchResult>>, attempts: nat)
    ensures attempts == 2
    ensures r == Ok([SearchResult("ok", "https://x", None, "", "")])
  {
    var connect := Threw(Exception(Other, true, "ConnectError", "boom"));
    var item := Item("ok", "https://x", None, None);
    var reply := Returned(ProviderResponse(Some([item])));
    assert NormalizeAll([item]) == [NormalizeItem(item)];
    var n, calls;
    r, n, calls := SearchPerplexity("retry me", Some(Integral(3)), Client, [connect, reply]);
    attempts := |calls|;
  }

  /** The controller's `TimeoutError` is raised as it is, after a single attempt. */
  method SlowProviderTimesOut() returns (r: Result<seq<SearchResult>>, attempts: nat)
    ensures attempts == 1 && r == Raised(ControllerTimeout("50"))
  {
    var late := Returned(ProviderResponse(Some([Item("late", "https://z", None, None)])));
    var n, calls;
    r, n, calls := SearchPerplexity("slow", Some(Integral(3)), Client, [Threw(ControllerTimeout("50")), late]);
    attempts := |calls|;
  }

  /** A missing API key raises `OSError` from the factory and no attempt is made. */
  method MissingKeyNoAttempt() returns (r: Result<seq<SearchResult>>, attempts: nat)
    ensures attempts == 0
    ensures r == Raised(Exception(OSErr, false, "OSError", MissingKeyMessage))
  {
    var reply := Returned(ProviderResponse(None));
    var n, calls;
    var factory := CreateClient("");
    assert AllSpace("");
    r, n, calls := SearchPerplexity("hello", None, factory, [reply, reply]);
    attempts := |calls|;
  }

  /** A date becomes both `date` and `last_update`; without one, `date` is absent and the rest empty. */
  lemma OutputShape()
    ensures NormalizedResults(ProviderResponse(Some([
              Item("Title A", "https://a", Some("2024-01-01"), Some("Alpha snippet")),
              Item("Title B", "https://b", None, None)])))
            == [SearchResult("Title A", "https://a", Some("2024-01-01"), "2024-01-01", "Alpha snippet"),
                SearchResult("Title B", "https://b", None, "", "")]
  {
  }
}
