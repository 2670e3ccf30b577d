/**
 * Request normalization: `_validate_query` and `_clamp_num_results`.
 */
module Requests {
  import opened Wrappers
  import opened Text
  import opened Errors

  const MaxQueryLength := 4096
  const MinResults := 1
  const MaxResults := 30
  const DefaultResults := 10

  const EmptyQueryMessage := "query must be a non-empty string after trimming whitespace"
  const LongQueryMessage := "query exceeds maximum length of 4096 characters"
  const NotIntegerMessage := "num_results must be an integer"

  function ValueError(message: string): Exception {
    Exception(ValueErr, false, "ValueError", message)
  }

  /**
   * `_validate_query`: the stripped query when it is non-empty and at most
   * 4096 characters long, a `ValueError` otherwise.
   */
  function ValidateQuery(query: string): (r: Result<string>)
    ensures r.Ok? <==> !AllSpace(query) && |Strip(query)| <= MaxQueryLength
    ensures r.Ok? ==> r.value == Strip(query) && 0 < |r.value| <= MaxQueryLength
    ensures AllSpace(query) ==> r == Raised(ValueError(EmptyQueryMessage))
    ensures !AllSpace(query) && |Strip(query)| > MaxQueryLength ==> r == Raised(ValueError(LongQueryMessage))
  {
    var q := Strip(query);
    StripEmptyIffAllSpace(query);
    if q == [] then Raised(ValueError(EmptyQueryMessage))
    else if |q| > MaxQueryLength then Raised(ValueError(LongQueryMessage))
    else Ok(q)
  }

  /**
   * A query is accepted exactly for its content: whitespace padding is
   * removed, blank content is refused as empty and content over 4096
   * characters as too long, whatever the padding.
   */
  lemma ValidateQueryPadded(p: string, c: string, q: string)
    requires AllSpace(p) && AllSpace(q) && NoEdgeSpace(c)
    ensures ValidateQuery(p + c + q) ==
              if c == [] then Raised(ValueError(EmptyQueryMessage))
              else if |c| > MaxQueryLength then Raised(ValueError(LongQueryMessage))
              else Ok(c)
  {
    StripPadded(p, c, q);
    StripEmptyIffAllSpace(p + c + q);
  }

  /** What `int(n)` makes of a supplied `num_results`: an integer, or an error. */
  datatype NumArg = Integral(v: int) | NotIntegral

  function Distance(a: int, b: int): nat {
    if a <= b then b - a else a - b
  }

  /**
   * `_clamp_num_results`: 10 when absent, a `ValueError` when not an integer,
   * otherwise the value of [1, 30] nearest to the given one.
   */
  function ClampNumResults(n: Option<NumArg>): (r: Result<int>)
    ensures n == None ==> r == Ok(DefaultResults)
    ensures n == Some(NotIntegral) ==> r == Raised(ValueError(NotIntegerMessage))
    ensures r.Ok? ==> MinResults <= r.value <= MaxResults
    ensures n.Some? && n.value.Integral? ==>
              && r.Ok?
              && (MinResults <= n.value.v <= MaxResults ==> r.value == n.value.v)
              && forall m :: MinResults <= m <= MaxResults ==>
                   Distance(r.value, n.value.v) <= Distance(m, n.value.v)
  {
    match n
    case None => Ok(DefaultResults)
    case Some(NotIntegral) => Raised(ValueError(NotIntegerMessage))
    case Some(Integral(v)) =>
      if v < MinResults then Ok(MinResults)
      else if v > MaxResults then Ok(MaxResults)
      else Ok(v)
  }
}
