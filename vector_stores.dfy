// A vector store seen only through `similarity_search`. The embedding and
// distance computation is an oracle; what the retrieval code relies on is
// stated as two contracts a store may honour.

module VectorStores {
  import opened Documents

  /** The metadata filter of a search: none, or "metadata["page"] == page". */
  datatype Filter = NoFilter | PageEquals(page: MetaValue)

  predicate Accepts(f: Filter, md: Metadata) {
    match f
    case NoFilter => true
    case PageEquals(p) => PageKey in md && md[PageKey] == p
  }

  /** `search(query, k, filter)` is the store's ordered answer, most similar first. */
  datatype VectorStore = VectorStore(search: (string, nat, Filter) -> seq<Document>)

  /** The store never returns more than `k` documents. */
  ghost predicate AtMostK(s: VectorStore) {
    forall q, k, f :: |s.search(q, k, f)| <= k
  }

  /** Every document the store returns is accepted by the filter of the search. */
  ghost predicate HonoursFilter(s: VectorStore) {
    forall q, k, f, d :: d in s.search(q, k, f) ==> Accepts(f, d.metadata)
  }

  /** The entries of `docs` that the filter accepts, in their order. */
  function Select(docs: seq<Document>, f: Filter): (r: seq<Document>)
    ensures forall d :: d in r <==> d in docs && Accepts(f, d.metadata)
    ensures |r| <= |docs|
  {
    if docs == [] then []
    else if Accepts(f, docs[0].metadata) then [docs[0]] + Select(docs[1..], f)
    else Select(docs[1..], f)
  }

  /** Filtering keeps the input order: filtering two consecutive parts and
      joining the answers is filtering the whole. */
  lemma {:induction false} SelectAppend(a: seq<Document>, b: seq<Document>, f: Filter)
    ensures Select(a + b, f) == Select(a, f) + Select(b, f)
  {
    if a == [] {
      assert a + b == b;
    } else {
      assert (a + b)[0] == a[0];
      assert (a + b)[1..] == a[1..] + b;
      SelectAppend(a[1..], b, f);
    }
  }

  function Take(docs: seq<Document>, k: nat): seq<Document> {
    if |docs| <= k then docs else docs[..k]
  }

  /** A reference store: for each query it ranks its entries, applies the
      filter before the top-k cut, and keeps the ranking order. */
  function RankedStore(ranking: string -> seq<Document>): VectorStore {
    VectorStore((q: string, k: nat, f: Filter) => Take(Select(ranking(q), f), k))
  }

  /** The two contracts are consistent: the reference store honours both. */
  lemma RankedStoreHonoursContracts(ranking: string -> seq<Document>)
    ensures AtMostK(RankedStore(ranking))
    ensures HonoursFilter(RankedStore(ranking))
  {
    var s := RankedStore(ranking);
    forall q: string, k: nat, f: Filter
      ensures |s.search(q, k, f)| <= k
      ensures forall d :: d in s.search(q, k, f) ==> Accepts(f, d.metadata)
    {
      var sel := Select(ranking(q), f);
      assert s.search(q, k, f) == Take(sel, k);
      forall d | d in Take(sel, k) ensures d in sel {
        if |sel| > k {
          var i :| 0 <= i < k && sel[..k][i] == d;
          assert sel[i] == d;
        }
      }
    }
  }
}
