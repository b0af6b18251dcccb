// `retrieve_hierarchical` (utils/helper_functions.py): the free-function
// copy of `HierarchicalRetriever.retrieve`, taking both stores as arguments.

module HelperFunctions {
  import opened Documents
  import opened VectorStores
  import opened Retrieval

  /** `retrieve_hierarchical`: returns the retrieval result and the searches it issued. */
  method RetrieveHierarchical(query: string, summaryVectorstore: VectorStore, detailedVectorstore: VectorStore,
                              kSummaries: nat, kChunks: nat)
    returns (r: Result<seq<Document>>, calls: seq<SearchCall>)
    ensures r == Hierarchical(summaryVectorstore, detailedVectorstore, query, kSummaries, kChunks)
    ensures SearchLog(summaryVectorstore, query, kSummaries, kChunks, r, calls)
  {
    var topSummaries := summaryVectorstore.search(query, kSummaries, NoFilter);
    calls := [SearchCall(SummaryStore, query, kSummaries, NoFilter)];
    var relevantChunks: seq<Document> := [];
    ghost var pages: seq<MetaValue> := [];
    for i := 0 to |topSummaries|
      invariant |pages| == i && |calls| == i + 1
      invariant forall j :: 0 <= j < i ==> HasPage(topSummaries[j]) && pages[j] == topSummaries[j].metadata[PageKey]
      invariant relevantChunks == ChunksForPages(detailedVectorstore, query, kChunks, pages)
      invariant calls[0] == SearchCall(SummaryStore, query, kSummaries, NoFilter)
      invariant forall j :: 1 <= j <= i ==>
        calls[j] == SearchCall(DetailedStore, query, kChunks, PageEquals(pages[j - 1]))
    {
      var summary := topSummaries[i];
      if PageKey !in summary.metadata {
        r := Err(KeyError(PageKey));  // summary.metadata["page"] raises
        return;
      }
      var pageNumber := summary.metadata[PageKey];
      var pageChunks := detailedVectorstore.search(query, kChunks, PageEquals(pageNumber));
      calls := calls + [SearchCall(DetailedStore, query, kChunks, PageEquals(pageNumber))];
      relevantChunks := relevantChunks + pageChunks;
      assert (pages + [pageNumber])[..i] == pages;
      pages := pages + [pageNumber];
    }
    assert pages == PagesOf(topSummaries);
    r := Ok(relevantChunks);
  }

  /** For the same stores and arguments, the free function and the retriever
      class return the same list (or raise the same error) after issuing the
      same searches. */
  method CopiesAgree(summaryVectorstore: VectorStore, detailedVectorstore: VectorStore,
                     query: string, kSummaries: nat, kChunks: nat)
    returns (viaClass: Result<seq<Document>>, viaFunction: Result<seq<Document>>,
             classCalls: seq<SearchCall>, functionCalls: seq<SearchCall>)
    ensures viaClass == viaFunction
    ensures classCalls == functionCalls
  {
    var retriever := new HierarchicalRetriever(summaryVectorstore, detailedVectorstore);
    viaClass, classCalls := retriever.Retrieve(query, kSummaries, kChunks);
    viaFunction, functionCalls := RetrieveHierarchical(query, summaryVectorstore, detailedVectorstore, kSummaries, kChunks);
    SearchLogUnique(summaryVectorstore, query, kSummaries, kChunks, viaClass, classCalls, functionCalls);
  }
}
