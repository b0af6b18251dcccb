// Hierarchical retrieval (core/hierarchical_retriever.py): search the
// summary store for the top pages, then, page by page, search the chunk
// store restricted to that page, and concatenate the answers.

module Retrieval {
  import opened Documents
  import opened VectorStores

  const DefaultKSummaries := 3
  const DefaultKChunks := 5

  /** Which store a `similarity_search` went to. */
  datatype StoreName = SummaryStore | DetailedStore

  /** One `similarity_search` call, as the retrieval code issued it. */
  datatype SearchCall = SearchCall(store: StoreName, query: string, k: nat, filter: Filter)

  /** The page numbers of the top summaries, in their order. */
  function PagesOf(tops: seq<Document>): (pages: seq<MetaValue>)
    requires forall j :: 0 <= j < |tops| ==> HasPage(tops[j])
    ensures |pages| == |tops|
    ensures forall j :: 0 <= j < |tops| ==> HasPage(tops[j]) && pages[j] == tops[j].metadata[PageKey]
  {
    seq(|tops|, j requires 0 <= j < |tops| && HasPage(tops[j]) => tops[j].metadata[PageKey])
  }

  /** The per-page chunk searches, concatenated in page order. */
  function ChunksForPages(detailed: VectorStore, query: string, kChunks: nat, pages: seq<MetaValue>)
    : seq<Document>
  {
    if pages == [] then []
    else ChunksForPages(detailed, query, kChunks, pages[..|pages| - 1])
         + detailed.search(query, kChunks, PageEquals(pages[|pages| - 1]))
  }

  /** What hierarchical retrieval returns for the given stores and arguments:
      a KeyError when a top summary has no page number, otherwise the chunks
      found for each top summary's page, summary order first. */
  function Hierarchical(summary: VectorStore, detailed: VectorStore, query: string, kSummaries: nat, kChunks: nat)
    : Result<seq<Document>>
  {
    var tops := summary.search(query, kSummaries, NoFilter);
    if forall j :: 0 <= j < |tops| ==> HasPage(tops[j]) then
      Ok(ChunksForPages(detailed, query, kChunks, PagesOf(tops)))
    else
      Err(KeyError(PageKey))
  }

  /** The searches a retrieval issued: the summary store exactly once, first,
      with k = kSummaries and no filter; then one chunk search per top summary,
      in their order, with k = kChunks and that summary's page as filter; on a
      KeyError, the searches stop at the summary without a page. */
  ghost predicate SearchLog(summary: VectorStore, query: string, kSummaries: nat, kChunks: nat,
                            r: Result<seq<Document>>, calls: seq<SearchCall>)
  {
    var tops := summary.search(query, kSummaries, NoFilter);
    && 1 <= |calls| <= |tops| + 1
    && calls[0] == SearchCall(SummaryStore, query, kSummaries, NoFilter)
    && (forall j :: 0 <= j < |calls| - 1 ==>
          HasPage(tops[j]) &&
          calls[j + 1] == SearchCall(DetailedStore, query, kChunks, PageEquals(tops[j].metadata[PageKey])))
    && (r.Ok? ==> |calls| == |tops| + 1)
    && (r.Err? ==> |calls| <= |tops| && !HasPage(tops[|calls| - 1]))
  }

  /** The search log is determined by the stores, the arguments and the
      outcome: the chunk searches stop exactly at the first summary without
      a page number. */
  lemma SearchLogUnique(summary: VectorStore, query: string, kSummaries: nat, kChunks: nat,
                        r: Result<seq<Document>>, c1: seq<SearchCall>, c2: seq<SearchCall>)
    requires SearchLog(summary, query, kSummaries, kChunks, r, c1)
    requires SearchLog(summary, query, kSummaries, kChunks, r, c2)
    ensures c1 == c2
  {
    var tops := summary.search(query, kSummaries, NoFilter);
    if |c1| < |c2| {
      assert false;
    } else if |c2| < |c1| {
      assert false;
    }
    assert |c1| == |c2|;
    forall j | 0 <= j < |c1| ensures c1[j] == c2[j] {
      if j > 0 {
        assert HasPage(tops[j - 1]);
      }
    }
  }

  class HierarchicalRetriever {
    const summaryVectorstore: VectorStore
    const detailedVectorstore: VectorStore

    constructor (summaryVectorstore: VectorStore, detailedVectorstore: VectorStore)
      ensures this.summaryVectorstore == summaryVectorstore
      ensures this.detailedVectorstore == detailedVectorstore
    {
      this.summaryVectorstore := summaryVectorstore;
      this.detailedVectorstore := detailedVectorstore;
    }

    /** `retrieve`: returns the retrieval result and the searches it issued. */
    method Retrieve(query: string, kSummaries: nat, kChunks: nat)
      returns (r: Result<seq<Document>>, calls: seq<SearchCall>)
      ensures r == Hierarchical(summaryVectorstore, detailedVectorstore, query, kSummaries, kChunks)
      ensures SearchLog(summaryVectorstore, query, kSummaries, kChunks, r, calls)
    {
      var topSummaries := summaryVectorstore.search(query, kSummaries, NoFilter);
      calls := [SearchCall(SummaryStore, query, kSummaries, NoFilter)];
      var relevantChunks: seq<Document> := [];
      ghost var pages: seq<MetaValue> := [];
      for i := 0 to |topSummaries|
        invariant |pages| == i && |calls| == i + 1
        invariant forall j :: 0 <= j < i ==> HasPage(topSummaries[j]) && pages[j] == topSummaries[j].metadata[PageKey]
        invariant relevantChunks == ChunksForPages(detailedVectorstore, query, kChunks, pages)
        invariant calls[0] == SearchCall(SummaryStore, query, kSummaries, NoFilter)
        invariant forall j :: 1 <= j <= i ==>
          calls[j] == SearchCall(DetailedStore, query, kChunks, PageEquals(pages[j - 1]))
      {
        var summaryDoc := topSummaries[i];
        if PageKey !in summaryDoc.metadata {
          r := Err(KeyError(PageKey));  // summary.metadata["page"] raises
          return;
        }
        var pageNumber := summaryDoc.metadata[PageKey];
        var pageChunks := detailedVectorstore.search(query, kChunks, PageEquals(pageNumber));
        calls := calls + [SearchCall(DetailedStore, query, kChunks, PageEquals(pageNumber))];
        relevantChunks := relevantChunks + pageChunks;
        assert (pages + [pageNumber])[..i] == pages;
        pages := pages + [pageNumber];
      }
      assert pages == PagesOf(topSummaries);
      r := Ok(relevantChunks);
    }
  }

  // ---------------------------------------------------------------------
  // Properties of hierarchical retrieval

  /** Order is kept across page lists: the chunks for `a + b` are those for
      `a` followed by those for `b`. */
  lemma {:induction false} ChunksForPagesAppend(detailed: VectorStore, query: string, kChunks: nat, a: seq<MetaValue>, b: seq<MetaValue>)
    ensures ChunksForPages(detailed, query, kChunks, a + b) ==
            ChunksForPages(detailed, query, kChunks, a) + ChunksForPages(detailed, query, kChunks, b)
    decreases |b|
  {
    if b == [] {
      assert a + b == a;
    } else {
      var b' := b[..|b| - 1];
      assert (a + b)[..|a + b| - 1] == a + b';
      ChunksForPagesAppend(detailed, query, kChunks, a, b');
    }
  }

  /** No deduplication, and summary order first: the j-th page's search
      answer appears whole, in its own order, right after the answers of the
      pages before it. A page with no chunks contributes nothing, and a
      page listed twice contributes its chunks twice. */
  lemma PageAnswerInPlace(detailed: VectorStore, query: string, kChunks: nat, pages: seq<MetaValue>, j: nat)
    requires j < |pages|
    ensures var all := ChunksForPages(detailed, query, kChunks, pages);
            var before := |ChunksForPages(detailed, query, kChunks, pages[..j])|;
            var hits := detailed.search(query, kChunks, PageEquals(pages[j]));
            before + |hits| <= |all| && all[before..before + |hits|] == hits
  {
    assert pages == pages[..j + 1] + pages[j + 1..];
    ChunksForPagesAppend(detailed, query, kChunks, pages[..j + 1], pages[j + 1..]);
    assert pages[..j + 1][..j] == pages[..j];
  }

  /** The length of the answer is the sum of the per-page answer lengths. */
  function TotalHits(detailed: VectorStore, query: string, kChunks: nat, pages: seq<MetaValue>): nat {
    if pages == [] then 0
    else TotalHits(detailed, query, kChunks, pages[1..]) + |detailed.search(query, kChunks, PageEquals(pages[0]))|
  }

  lemma {:induction false} ChunksForPagesLength(detailed: VectorStore, query: string, kChunks: nat, pages: seq<MetaValue>)
    ensures |ChunksForPages(detailed, query, kChunks, pages)| == TotalHits(detailed, query, kChunks, pages)
    decreases |pages|
  {
    if pages != [] {
      assert pages == [pages[0]] + pages[1..];
      ChunksForPagesAppend(detailed, query, kChunks, [pages[0]], pages[1..]);
      ChunksForPagesLength(detailed, query, kChunks, pages[1..]);
      assert [pages[0]][..0] == [];
    }
  }

  /** If the chunk store answers at most k items, each page adds at most kChunks. */
  lemma {:induction false} ChunksForPagesBound(detailed: VectorStore, query: string, kChunks: nat, pages: seq<MetaValue>)
    requires AtMostK(detailed)
    ensures |ChunksForPages(detailed, query, kChunks, pages)| <= |pages| * kChunks
    decreases |pages|
  {
    if pages != [] {
      ChunksForPagesBound(detailed, query, kChunks, pages[..|pages| - 1]);
      assert |pages| * kChunks == (|pages| - 1) * kChunks + kChunks;
    }
  }

  /** If the chunk store honours the filter, every chunk returned carries one
      of the listed page numbers. */
  lemma {:induction false} ChunksForPagesMembers(detailed: VectorStore, query: string, kChunks: nat, pages: seq<MetaValue>)
    requires HonoursFilter(detailed)
    ensures forall c :: c in ChunksForPages(detailed, query, kChunks, pages) ==>
              HasPage(c) && c.metadata[PageKey] in pages
    decreases |pages|
  {
    if pages != [] {
      var init := pages[..|pages| - 1];
      var last := pages[|pages| - 1];
      ChunksForPagesMembers(detailed, query, kChunks, init);
      forall c | c in ChunksForPages(detailed, query, kChunks, pages)
        ensures HasPage(c) && c.metadata[PageKey] in pages
      {
        if c in ChunksForPages(detailed, query, kChunks, init) {
          assert c.metadata[PageKey] in init;
        } else {
          assert c in detailed.search(query, kChunks, PageEquals(last));
          assert Accepts(PageEquals(last), c.metadata);
        }
      }
    }
  }

  /** With stores that answer at most k items, retrieval returns at most
      kSummaries * kChunks chunks. */
  lemma RetrievalBound(summary: VectorStore, detailed: VectorStore, query: string, kSummaries: nat, kChunks: nat)
    requires AtMostK(summary) && AtMostK(detailed)
    requires Hierarchical(summary, detailed, query, kSummaries, kChunks).Ok?
    ensures |Hierarchical(summary, detailed, query, kSummaries, kChunks).value| <= kSummaries * kChunks
  {
    var tops := summary.search(query, kSummaries, NoFilter);
    ChunksForPagesBound(detailed, query, kChunks, PagesOf(tops));
    assert |tops| <= kSummaries;
    assert |tops| * kChunks <= kSummaries * kChunks;
  }

  /** With a chunk store that honours the filter, every returned chunk's page
      is the page of one of the top summaries. */
  lemma RetrievalPages(summary: VectorStore, detailed: VectorStore, query: string, kSummaries: nat, kChunks: nat)
    requires HonoursFilter(detailed)
    requires Hierarchical(summary, detailed, query, kSummaries, kChunks).Ok?
    ensures var tops := summary.search(query, kSummaries, NoFilter);
            forall c :: c in Hierarchical(summary, detailed, query, kSummaries, kChunks).value ==>
              HasPage(c) && exists j :: 0 <= j < |tops| && tops[j].metadata[PageKey] == c.metadata[PageKey]
  {
    var tops := summary.search(query, kSummaries, NoFilter);
    var pages := PagesOf(tops);
    ChunksForPagesMembers(detailed, query, kChunks, pages);
    forall c | c in ChunksForPages(detailed, query, kChunks, pages)
      ensures HasPage(c) && exists j :: 0 <= j < |tops| && tops[j].metadata[PageKey] == c.metadata[PageKey]
    {
      var j :| 0 <= j < |pages| && pages[j] == c.metadata[PageKey];
      assert tops[j].metadata[PageKey] == c.metadata[PageKey];
    }
  }

  /** No top summaries, no chunks. */
  lemma NoSummariesNoChunks(summary: VectorStore, detailed: VectorStore, query: string, kSummaries: nat, kChunks: nat)
    requires summary.search(query, kSummaries, NoFilter) == []
    ensures Hierarchical(summary, detailed, query, kSummaries, kChunks) == Ok([])
  {
  }
}
