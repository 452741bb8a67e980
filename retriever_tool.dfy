/** The knowledge-base tool: the passages the vector-store retriever returns for a query,
    joined into one string. */
module RetrieverTool {
  import opened PyText

  const Name := "retriever_tool"
  /** Passages the retriever returns per query (`search_kwargs={"k": 5}`). */
  const K: nat := 5
  const Separator := "\n\n"

  /** The vector store's similarity ranking of the corpus passages for a query. */
  type Index = string -> seq<string>

  /** The retriever's answer: the best `K` passages of the ranking, best first. */
  function TopK(ranked: seq<string>): (docs: seq<string>)
    ensures |docs| == if |ranked| < K then |ranked| else K
    ensures docs == ranked[..|docs|]
  {
    if |ranked| < K then ranked else ranked[..K]
  }

  /** `retriever_tool(query)`. */
  function RetrieverTool(query: string, index: Index): (out: string)
    ensures index(query) == [] ==> out == ""
    ensures out == Join(Separator, TopK(index(query)))
    ensures index(query) != [] ==>
      var docs := TopK(index(query));
      && 1 <= |docs| <= K
      && |out| == TotalLength(docs) + |Separator| * (|docs| - 1)
      && out[..|docs[0]|] == index(query)[0]
  {
    Join(Separator, TopK(index(query)))
  }
}
