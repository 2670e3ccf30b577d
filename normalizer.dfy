/**
 * `_normalize_results`: provider result items become records with a fixed
 * shape (`title`, `url`, `last_update`, `snippet`, and `date` only when the
 * provider gave one).
 */
module Normalizer {
  import opened Wrappers

  /** A provider item; each attribute may be missing or `None` (both are `None` here). */
  datatype ProviderItem = ProviderItem(title: Option<string>, url: Option<string>,
                                       date: Option<string>, snippet: Option<string>)

  /** A provider response, whose `results` attribute may be missing. */
  datatype ProviderResponse = ProviderResponse(results: Option<seq<ProviderItem>>)

  /** An output record; `date == None` means the `date` key is absent. */
  datatype SearchResult = SearchResult(title: string, url: string, date: Option<string>,
                                       lastUpdate: string, snippet: string)

  /** Python truthiness of an optional string attribute. */
  predicate Truthy(v: Option<string>) {
    v.Some? && v.value != ""
  }

  /** `str(v) if v else ""`, which is also `str(v or "")`. */
  function TextOrEmpty(v: Option<string>): string {
    if Truthy(v) then v.value else ""
  }

  /**
   * The output shape: a `date` key holds a non-empty date and `last_update`
   * repeats it; without a `date` key, `last_update` is empty.
   */
  predicate WellShaped(r: SearchResult) {
    match r.date
    case Some(d) => d != "" && r.lastUpdate == d
    case None => r.lastUpdate == ""
  }

  /** The record built for one provider item. */
  function NormalizeItem(item: ProviderItem): (r: SearchResult)
    ensures WellShaped(r)
    ensures r.date.Some? <==> Truthy(item.date)
    ensures Truthy(item.date) ==> r.date == item.date
    ensures Truthy(item.title) ==> r.title == item.title.value
    ensures Truthy(item.url) ==> r.url == item.url.value
    ensures Truthy(item.snippet) ==> r.snippet == item.snippet.value
    ensures !Truthy(item.title) ==> r.title == ""
    ensures !Truthy(item.url) ==> r.url == ""
    ensures !Truthy(item.snippet) ==> r.snippet == ""
  {
    SearchResult(TextOrEmpty(item.title), TextOrEmpty(item.url),
                 if Truthy(item.date) then item.date else None,
                 TextOrEmpty(item.date), TextOrEmpty(item.snippet))
  }

  /** The provider item a record would have come from unchanged. */
  function AsItem(r: SearchResult): ProviderItem {
    ProviderItem(Some(r.title), Some(r.url), r.date, Some(r.snippet))
  }

  /** Every well-shaped record is its own normalization: nothing is lost or invented. */
  lemma NormalizeItemFixedPoint(r: SearchResult)
    requires WellShaped(r)
    ensures NormalizeItem(AsItem(r)) == r
  {
  }

  /** Normalizing a normalized record changes nothing. */
  lemma NormalizeItemIdempotent(item: ProviderItem)
    ensures NormalizeItem(AsItem(NormalizeItem(item))) == NormalizeItem(item)
  {
    NormalizeItemFixedPoint(NormalizeItem(item));
  }

  /** One record per item, in the items' order. */
  function NormalizeAll(items: seq<ProviderItem>): (r: seq<SearchResult>)
    ensures |r| == |items|
    ensures forall k :: 0 <= k < |items| ==> r[k] == NormalizeItem(items[k])
  {
    if items == [] then []
    else NormalizeAll(items[..|items| - 1]) + [NormalizeItem(items[|items| - 1])]
  }

  /** The list `_normalize_results` returns: empty when `results` is missing or empty. */
  function NormalizedResults(response: ProviderResponse): (r: seq<SearchResult>)
    ensures response.results.None? ==> r == []
    ensures response.results.Some? ==> |r| == |response.results.value|
    ensures response.results.Some? ==> forall k :: 0 <= k < |r| ==> r[k] == NormalizeItem(response.results.value[k])
    ensures forall k :: 0 <= k < |r| ==> WellShaped(r[k])
  {
    match response.results
    case None => []
    case Some(items) => NormalizeAll(items)
  }

  /** `_normalize_results`: builds the list one record at a time. */
  method NormalizeResults(response: ProviderResponse) returns (out: seq<SearchResult>)
    ensures out == NormalizedResults(response)
  {
    out := [];
    if response.results.None? || response.results.value == [] {
      return;
    }
    var items := response.results.value;
    for i := 0 to |items|
      invariant out == NormalizeAll(items[..i])
    {
      var item := items[i];
      var title := TextOrEmpty(item.title);
      var url := TextOrEmpty(item.url);
      var lastUpdate := if Truthy(item.date) then item.date.value else "";
      var entry := SearchResult(title, url, None, lastUpdate, TextOrEmpty(item.snippet));
      if Truthy(item.date) {
        entry := entry.(date := Some(item.date.value));
      }
      assert items[..i + 1][..i] == items[..i];
      out := out + [entry];
    }
    assert items[..|items|] == items;
  }
}
