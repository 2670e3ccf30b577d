# Perplexity search adapter, modelled in Dafny

This project models the search adapter of the Perplexity search MCP server
(`search_mcp/perplexity_adapter.py`). The adapter turns one tool call
(`query`, optional `num_results`) into a list of normalized result records:

- it strips the query and refuses a blank one or one over 4096 characters;
- it defaults the result count to 10, refuses a non-integer and clamps into [1, 30];
- it creates the SDK client once, after validation;
- it makes one provider attempt under a timeout;
- on a failure it re-raises `ValueError`, `OSError` (which includes `TimeoutError`) and `RuntimeError` unchanged;
- other failures go through `_is_transient_error`, and only a transient one earns exactly one more attempt;
- a failed retry is wrapped as `perplexity_search failed after retry: <Class>: <message>`;
- provider items become records with `title`, `url`, `last_update`, `snippet` and, only when the provider gave a date, `date`.

Modules (all files are verified together):

- `text.dfy`: `Wrappers` (an `Option` type) and `Text`, the string primitives the adapter uses. These are `strip()` (proved to remove exactly the surrounding whitespace), ASCII `lower()` and the substring test `k in s` (a search proved equal to a positional definition).
- `errors.dfy`: `Errors`, which holds exceptions (a family, an httpx-transport flag, a class name, a message), `Result`, and the transient classifier.
- `requests.dfy`: `Requests`, which holds `_validate_query` and `_clamp_num_results`.
- `normalizer.dfy`: `Normalizer`, which holds `_normalize_results`. An imperative loop is proved equal to a recursive specification whose shape properties are proved.
- `adapter.dfy`: `Adapter`, which holds `_create_client` and `search_perplexity`. The latter is a method over a client-factory outcome and a sequence of attempt outcomes. It returns the result, the number of factory calls and the provider calls made.
- `scenarios.dfy`: `Scenarios`, concrete cases, each verified, that mirror `tests/test_perplexity_adapter.py`.

A timeout on the retry is wrapped like any other second failure, as `Exception("perplexity_search failed after retry: TimeoutError: …")` (`search_mcp/perplexity_adapter.py:197-202`); only a timeout on the first attempt is re-raised as it is.

`tests/test_perplexity_adapter.py:80-95` passes a domain-filter list as a third positional argument. `search_perplexity` (lines 158-164) has no such parameter and `_call_search` (lines 124-130) never passes a filter, so the model has none either.

## Model

| member | source | states |
|---|---|---|
| `Text.TrimStartIsSuffix` | search_mcp/perplexity_adapter.py:91 | trimming the front keeps a suffix that does not start with whitespace, and everything dropped is whitespace |
| `Text.TrimEndIsPrefix` | search_mcp/perplexity_adapter.py:91 | trimming the back keeps a prefix that does not end with whitespace, and everything dropped is whitespace |
| `Text.Strip` | search_mcp/perplexity_adapter.py:91 | `strip()` never lengthens its input (its full characterization is `Text.StripIsPiece`) |
| `Text.StripIsPiece` | search_mcp/perplexity_adapter.py:91 | `strip()` returns a contiguous piece of the input that has no whitespace at either end, with only whitespace before and after it |
| `Text.StripPadded` | search_mcp/perplexity_adapter.py:91 | any whitespace padding around a piece with no edge whitespace is exactly what `strip()` removes |
| `Text.StripEmptyIffAllSpace` | search_mcp/perplexity_adapter.py:91-93 | the stripped query is empty exactly when the input is whitespace only |
| `Text.StripIdempotent` | search_mcp/perplexity_adapter.py:91 | stripping twice is stripping once |
| `Text.Lower` | search_mcp/perplexity_adapter.py:70-71 | lower-casing keeps the length, turns each upper-case letter into the lower-case letter at the same place in the alphabet, leaves no upper-case letter and keeps every other character |
| `Text.LowerConcat` | search_mcp/perplexity_adapter.py:70-71 | lower-casing distributes over concatenation |
| `Text.Contains` | search_mcp/perplexity_adapter.py:73-85 | the `k in text` search is true exactly when `k` occurs at some position of `text` |
| `Text.SubstringPadded` | search_mcp/perplexity_adapter.py:75-85 | an occurrence of a keyword survives any text added around it |
| `Errors.AnyIn` | search_mcp/perplexity_adapter.py:73-85 | `any(k in text for k in keywords)` is true exactly when some keyword occurs in the text |
| `Errors.IsTransientError` | search_mcp/perplexity_adapter.py:57-87 | total. True exactly when the httpx transport flag is set, or the lower-cased class name contains timeout/connect/network/transport, or the lower-cased message contains timeout/timed out/connection/transport/temporarily unavailable/try again |
| `Errors.TransientMessagePadded` | search_mcp/perplexity_adapter.py:71-86 | adding text around a transient exception's message keeps it transient |
| `Errors.ControllerTimeout` | search_mcp/perplexity_adapter.py:52-54 | the controller's timeout is a `TimeoutError` (an `OSError`), not an httpx error, whose message reads "Perplexity search timed out after …ms" |
| `Errors.ControllerTimeoutLooksTransient` | search_mcp/perplexity_adapter.py:52-73 | the controller's `TimeoutError` passes the keyword heuristic, so only the exception-family check keeps it from being retried |
| `Requests.ValidateQuery` | search_mcp/perplexity_adapter.py:90-96 | accepted exactly when the input is not blank and its stripped form has at most 4096 characters. The result is then the stripped form. Otherwise the result is the matching `ValueError`: the "non-empty" message for a blank input, the length message for an overlong one |
| `Requests.ValidateQueryPadded` | search_mcp/perplexity_adapter.py:90-96 | for any padding: blank content is refused as empty, content over 4096 characters as too long, and anything else returns exactly the content |
| `Requests.ClampNumResults` | search_mcp/perplexity_adapter.py:99-110 | absent gives 10 and a non-integer gives a `ValueError`. An integer gives the value in [1, 30] nearest to it, so in-range values are unchanged |
| `Normalizer.NormalizeItem` | search_mcp/perplexity_adapter.py:140-153 | title/url/snippet are the given string when truthy, else "". The `date` key is present iff the date is truthy and then equals it. `last_update` equals the date, else "" |
| `Normalizer.NormalizeItemFixedPoint` | search_mcp/perplexity_adapter.py:140-153 | every well-shaped record is reproduced exactly by normalizing it as an item: nothing is lost or invented |
| `Normalizer.NormalizeItemIdempotent` | search_mcp/perplexity_adapter.py:140-153 | normalizing an already normalized record changes nothing |
| `Normalizer.NormalizeAll` | search_mcp/perplexity_adapter.py:139-154 | exactly one record per provider item, in the items' order |
| `Normalizer.NormalizedResults` | search_mcp/perplexity_adapter.py:133-155 | a missing `results` gives the empty list. Otherwise record k is the normalization of item k, for every item and in order, and every record is well shaped |
| `Normalizer.NormalizeResults` | search_mcp/perplexity_adapter.py:133-155 | the loop that appends one entry per item returns exactly the specified list |
| `Adapter.CreateClient` | search_mcp/perplexity_adapter.py:113-121 | a blank or missing API key raises `OSError` with the missing-key message. Any other key yields a client |
| `Adapter.IsValidationOrEnvironment` | search_mcp/perplexity_adapter.py:192 | true exactly for an exception in the `ValueError`, `OSError` (with `TimeoutError`) or `RuntimeError` families, false for every other exception |
| `Adapter.Retryable` | search_mcp/perplexity_adapter.py:192-195 | a first failure is retried exactly when it is outside those families and the transient heuristic accepts it; a `TimeoutError` never is |
| `Adapter.AfterRetry` | search_mcp/perplexity_adapter.py:199-202 | a failed retry becomes a plain `Exception`, not an httpx error, whose message starts with "perplexity_search failed after retry: " |
| `Adapter.AfterRetryIdentifiesCause` | search_mcp/perplexity_adapter.py:200-202 | the wrapped message determines the underlying class name and message |
| `Adapter.SearchOutcome` | search_mcp/perplexity_adapter.py:158-202 | the declarative account of a request: the factory runs at most once and the provider at most twice; the factory is not called exactly when the query or the count is refused; a provider call happens only after the factory returned a client |
| `Adapter.ValidationBeforeClient` | search_mcp/perplexity_adapter.py:176-179 | an invalid query or a non-integer count raises its `ValueError` with no factory call and no attempt |
| `Adapter.ClientCreatedOnce` | search_mcp/perplexity_adapter.py:179-189 | a valid request calls the factory exactly once, before and outside the attempts. If the factory raises (missing key), that exception propagates with no attempt. With a client at least one attempt is made |
| `Adapter.AtMostTwoAttempts` | search_mcp/perplexity_adapter.py:181-198 | never more than two attempts, each with the stripped query and the clamped count |
| `Adapter.NoRetry` | search_mcp/perplexity_adapter.py:187-195 | a first success is returned normalized after one attempt. A first failure that is a ValueError/OSError/TimeoutError/RuntimeError, or that the classifier rejects, is re-raised unchanged after one attempt |
| `Adapter.TimeoutNotRetried` | search_mcp/perplexity_adapter.py:187-193 | the controller's first-attempt `TimeoutError` is re-raised unchanged after one attempt, although the keyword heuristic calls it transient |
| `Adapter.RetryOnce` | search_mcp/perplexity_adapter.py:194-202 | a retryable first failure leads to exactly two attempts. The retry's success is returned normalized; any failure of it, including a second timeout, is wrapped as "failed after retry" |
| `Adapter.SearchPerplexity` | search_mcp/perplexity_adapter.py:158-202 | the step-by-step control flow (validate, clamp, create the client, first attempt, classify, retry) returns exactly the result, factory-call count and provider calls of the declarative specification `SearchOutcome`. The lemmas above state that specification's properties |
| `Scenarios.BlankQueryRefused` | tests/test_perplexity_adapter.py:48-54 | "   " raises the "non-empty" `ValueError` and the factory is never called |
| `Scenarios.CountDefaultAndClamping` | tests/test_perplexity_adapter.py:62-77 | the provider is asked for 10, 1 and 30 results for an absent count, 0 and 99 |
| `Scenarios.ConnectErrorRetried` | tests/test_perplexity_adapter.py:98-121 | an httpx `ConnectError` then a success gives two attempts and the second response's records |
| `Scenarios.SlowProviderTimesOut` | tests/test_perplexity_adapter.py:124-136 | the controller's `TimeoutError` is raised unchanged after one attempt |
| `Scenarios.MissingKeyNoAttempt` | search_mcp/perplexity_adapter.py:176-179 | with no API key the factory's `OSError` is raised and no attempt is made |
| `Scenarios.OutputShape` | tests/test_perplexity_adapter.py:139-151 | the two sample items give the two expected records, the second without a `date` key |

## Left out

- `_TimeoutController` (threads, the wall-clock wait, best-effort cancel): each attempt's outcome is an oracle value, which may be the controller's `TimeoutError`. The milliseconds in its message come from float arithmetic, so `ControllerTimeout` takes that rendering as a parameter.
- `_call_search` and the Perplexity SDK: the provider is the attempt oracle. `ProviderCall` records the arguments of each call.
- `Adapter.SearchPerplexity` requires at least two oracle outcomes, one per possible attempt. This is a property of the oracle, not a demand the source makes.
- `Adapter.CreateClient`: the SDK import and the client object itself are not modelled. The environment variable's value is a parameter, "" when unset.
- Python's exception hierarchy becomes an explicit family (`Kind`). `ConnectionError` and `socket.timeout` are `OSErr`; `KeyboardInterrupt` and other non-`Exception` `BaseException`s are `Other`. Exception chaining (`from exc`) is not modelled.
- `int(num_results)` is abstracted as `NumArg`, which is either the integer it yields or a conversion error. Python's parsing of strings, floats and bools is not modelled.
- `str()` coercion of non-string attributes: item attributes are optional strings, so falsy non-string values such as `0` are not represented.
- `Text.Strip`: whitespace is a fixed set, the ASCII characters for which `str.isspace()` is true plus U+0085 and U+00A0. Other Unicode space separators are not stripped.
- `Text.Lower`: lower-cases ASCII letters only. Python's Unicode case mapping is not modelled.
- Whether httpx is installed: when it is missing the transport check is skipped, which corresponds to `structuredTransport` being false.
- `search_mcp/server.py` (tool registration, logging, request ids, timing) and the networked integration test are outside the adapter.
