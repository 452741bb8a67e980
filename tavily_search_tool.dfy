/** The web-search tool: one provider request, formatted into a single string that is returned
    on every path, including provider failure. */
module TavilySearchTool {
  import opened Wrappers
  import opened PyText

  const Name := "tavily_search_tool"
  /** Results requested per query. */
  const MaxResults: nat := 3
  const Separator := "\n\n"
  const NoResults := "No web results found."
  const FailurePrefix := "Web search failed: "
  /** `str(e)` for the `KeyError` raised by `r["content"]` on a result without that field. */
  const MissingContent := "'content'"

  /** One provider result, a JSON object of string fields. */
  type SearchResult = map<string, string>

  /** What `tavily.search(query, max_results)` does: return a response whose "results" field
      may be absent (`None`), or raise with a message. */
  datatype SearchOutcome = Returned(results: Option<seq<SearchResult>>) | Raised(message: string)

  type Provider = (string, nat) -> SearchOutcome

  predicate AllHaveContent(rs: seq<SearchResult>) {
    forall i :: 0 <= i < |rs| ==> "content" in rs[i]
  }

  /** `[r["content"] for r in results]`. */
  function Contents(rs: seq<SearchResult>): (cs: seq<string>)
    requires AllHaveContent(rs)
    ensures |cs| == |rs|
    ensures forall i :: 0 <= i < |rs| ==> cs[i] == rs[i]["content"]
  {
    seq(|rs|, i requires 0 <= i < |rs| => rs[i]["content"])
  }

  /** `tavily_search_tool(query)`; the provider is the external search service. */
  function TavilySearchTool(query: string, provider: Provider): (out: string)
    ensures provider(query, MaxResults).Raised? ==>
      out == FailurePrefix + provider(query, MaxResults).message
    ensures provider(query, MaxResults).Returned? ==>
      var rs := provider(query, MaxResults).results.GetOr([]);
      && (!AllHaveContent(rs) ==> out == FailurePrefix + MissingContent)
      && (rs == [] ==> out == NoResults)
      && (rs != [] && AllHaveContent(rs) ==> out == Join(Separator, Contents(rs)))
  {
    match provider(query, MaxResults)
    case Raised(message) => FailurePrefix + message
    case Returned(results) =>
      var rs := results.GetOr([]);
      if !AllHaveContent(rs) then FailurePrefix + MissingContent
      else
        var cs := Contents(rs);
        if cs != [] then Join(Separator, cs) else NoResults
  }

  /** The tool's output is the empty string only when the provider answered with exactly one
      result whose content is empty: neither failure nor "no results" yields "". */
  lemma {:induction false} EmptyOutputOnlyFromOneEmptyResult(query: string, provider: Provider)
    requires TavilySearchTool(query, provider) == ""
    ensures provider(query, MaxResults).Returned?
    ensures var rs := provider(query, MaxResults).results.GetOr([]);
      |rs| == 1 && "content" in rs[0] && rs[0]["content"] == ""
  {
    var o := provider(query, MaxResults);
    if o.Raised? {
      assert |FailurePrefix + o.message| > 0;
    } else {
      var rs := o.results.GetOr([]);
      if !AllHaveContent(rs) {
        assert |FailurePrefix + MissingContent| > 0;
      } else if rs == [] {
        assert |NoResults| > 0;
      } else {
        var cs := Contents(rs);
        assert |Join(Separator, cs)| == TotalLength(cs) + 2 * (|cs| - 1);
        assert |cs| == 1;
        assert Join(Separator, cs) == cs[0];
      }
    }
  }
}
