// Ingestion of one document (core/document_processor.py): load it into
// pages, summarise the pages in batches of five with a pause after each
// batch, and split the same pages into chunks.
//
// The PDF loader, the text splitter and the summarisation chain are
// collaborators whose algorithms are not part of this model; each is an
// oracle that returns a value or raises.

module DocumentProcessor {
  import opened Documents

  const BatchSize := 5
  const DefaultChunkSize := 1000
  const DefaultChunkOverlap := 200

  /** The collaborators of the processor.
      - `loadPdf(path)`: the pages of the PDF at `path`;
      - `createDocuments(text, chunkSize, chunkOverlap)`: the texts a splitter cuts a raw string into;
      - `summarize(doc)`: the `output_text` of the (retried) summarisation chain on one page;
      - `splitDocuments(docs, chunkSize, chunkOverlap)`: the chunks of the pages. */
  datatype Collaborators = Collaborators(
    loadPdf: string -> Result<seq<Document>>,
    createDocuments: (string, int, int) -> Result<seq<string>>,
    summarize: Document -> Result<string>,
    splitDocuments: (seq<Document>, int, int) -> Result<seq<Document>>)

  function Min(a: int, b: int): int {
    if a <= b then a else b
  }

  // ---------------------------------------------------------------------
  // Loading

  /** `_load_documents`: a PDF is loaded page by page; a raw string is cut by
      the splitter into documents that carry no metadata at all. */
  function LoadDocuments(path: string, chunkSize: int, chunkOverlap: int, isString: bool, c: Collaborators)
    : (r: Result<seq<Document>>)
    ensures !isString ==> r == c.loadPdf(path)
    ensures isString ==> (r.Ok? <==> c.createDocuments(path, chunkSize, chunkOverlap).Ok?)
    ensures isString && r.Ok? ==>
      && |r.value| == |c.createDocuments(path, chunkSize, chunkOverlap).value|
      && (forall j :: 0 <= j < |r.value| ==> r.value[j].content == c.createDocuments(path, chunkSize, chunkOverlap).value[j])
      && (forall d :: d in r.value ==> !HasPage(d))
  {
    if !isString then c.loadPdf(path)
    else
      match c.createDocuments(path, chunkSize, chunkOverlap)
      case Err(e) => Err(e)
      case Ok(texts) => Ok(seq(|texts|, j requires 0 <= j < |texts| => Document(texts[j], map[])))
  }

  // ---------------------------------------------------------------------
  // Summarising

  function SummaryMetadata(path: string, page: MetaValue): Metadata {
    map[SourceKey := Str(path), PageKey := page, SummaryKey := Bool(true)]
  }

  /** `_summarize_doc`: call the chain first, then copy the page number, which
      raises KeyError when the page has none. */
  function SummarizeDoc(doc: Document, path: string, summarize: Document -> Result<string>): Result<Document> {
    match summarize(doc)
    case Err(e) => Err(e)
    case Ok(text) =>
      if HasPage(doc) then Ok(Document(text, SummaryMetadata(path, doc.metadata[PageKey])))
      else Err(KeyError(PageKey))
  }

  /** Summaries of `docs` in argument order, as `asyncio.gather` returns them;
      the first failure in argument order is what is raised. */
  function SummarizeAll(docs: seq<Document>, path: string, summarize: Document -> Result<string>)
    : Result<seq<Document>>
  {
    if docs == [] then Ok([])
    else
      match SummarizeDoc(docs[0], path, summarize)
      case Err(e) => Err(e)
      case Ok(s) =>
        match SummarizeAll(docs[1..], path, summarize)
        case Err(e) => Err(e)
        case Ok(rest) => Ok([s] + rest)
  }

  /** Combining the summaries of two consecutive parts. */
  function Join(a: Result<seq<Document>>, b: Result<seq<Document>>): Result<seq<Document>> {
    match a
    case Err(e) => Err(e)
    case Ok(x) =>
      match b
      case Err(e) => Err(e)
      case Ok(y) => Ok(x + y)
  }

  /** Summarising a list part by part gives the same result (and the same
      error) as summarising it whole. */
  lemma {:induction false} SummarizeAllAppend(a: seq<Document>, b: seq<Document>, path: string, summarize: Document -> Result<string>)
    ensures SummarizeAll(a + b, path, summarize) == Join(SummarizeAll(a, path, summarize), SummarizeAll(b, path, summarize))
  {
    if a == [] {
      assert a + b == b;
      var rb := SummarizeAll(b, path, summarize);
      if rb.Ok? {
        assert [] + rb.value == rb.value;
      }
    } else {
      assert (a + b)[0] == a[0];
      assert (a + b)[1..] == a[1..] + b;
      SummarizeAllAppend(a[1..], b, path, summarize);
      var ra, rb := SummarizeAll(a[1..], path, summarize), SummarizeAll(b, path, summarize);
      match SummarizeDoc(a[0], path, summarize)
      case Err(_) =>
      case Ok(s) =>
        if ra.Ok? && rb.Ok? {
          assert [s] + (ra.value + rb.value) == ([s] + ra.value) + rb.value;
        }
    }
  }

  /** One summary per page, in page order: the summarisation succeeds exactly
      when every page's does, and then the j-th summary holds the chain's
      output for the j-th page with metadata {source, page, summary: true}. */
  lemma {:induction false} SummarizeAllPerPage(docs: seq<Document>, path: string, summarize: Document -> Result<string>)
    ensures SummarizeAll(docs, path, summarize).Ok? <==>
      forall j :: 0 <= j < |docs| ==> summarize(docs[j]).Ok? && HasPage(docs[j])
    ensures SummarizeAll(docs, path, summarize).Ok? ==>
      var sums := SummarizeAll(docs, path, summarize).value;
      && |sums| == |docs|
      && forall j :: 0 <= j < |docs| ==>
           && sums[j].content == summarize(docs[j]).value
           && sums[j].metadata == SummaryMetadata(path, docs[j].metadata[PageKey])
  {
    if docs != [] {
      SummarizeAllPerPage(docs[1..], path, summarize);
      if SummarizeAll(docs, path, summarize).Ok? {
        var sums := SummarizeAll(docs, path, summarize).value;
        forall j | 0 <= j < |docs|
          ensures summarize(docs[j]).Ok? && HasPage(docs[j])
          ensures sums[j].content == summarize(docs[j]).value
          ensures sums[j].metadata == SummaryMetadata(path, docs[j].metadata[PageKey])
        {
          if j > 0 {
            assert docs[j] == docs[1..][j - 1];
          }
        }
      } else if forall j :: 0 <= j < |docs| ==> summarize(docs[j]).Ok? && HasPage(docs[j]) {
        forall j | 0 <= j < |docs| - 1
          ensures summarize(docs[1..][j]).Ok? && HasPage(docs[1..][j])
        {
          assert docs[1..][j] == docs[j + 1];
        }
      }
    }
  }

  /** Fail-closed: when summarising fails, the error raised is that of the
      first page, in page order, whose summary failed; no partial list exists. */
  lemma {:induction false} SummarizeAllFirstFailure(docs: seq<Document>, path: string, summarize: Document -> Result<string>)
    requires SummarizeAll(docs, path, summarize).Err?
    ensures exists j :: (0 <= j < |docs| &&
      (forall i :: 0 <= i < j ==> SummarizeDoc(docs[i], path, summarize).Ok?) &&
      SummarizeDoc(docs[j], path, summarize) == Err(SummarizeAll(docs, path, summarize).error))
  {
    if SummarizeDoc(docs[0], path, summarize).Ok? {
      SummarizeAllFirstFailure(docs[1..], path, summarize);
      var j :| 0 <= j < |docs[1..]| &&
        (forall i :: 0 <= i < j ==> SummarizeDoc(docs[1..][i], path, summarize).Ok?) &&
        SummarizeDoc(docs[1..][j], path, summarize) == Err(SummarizeAll(docs[1..], path, summarize).error);
      assert docs[j + 1] == docs[1..][j];
      forall i | 0 <= i < j + 1 ensures SummarizeDoc(docs[i], path, summarize).Ok? {
        if i > 0 {
          assert docs[i] == docs[1..][i - 1];
        }
      }
    }
  }

  // ---------------------------------------------------------------------
  // Batching

  /** The batches `docs[i : i + 5]` for i = from, from + 5, ... below |docs|. */
  function BatchesFrom(docs: seq<Document>, from: nat): seq<seq<Document>>
    decreases |docs| - from
  {
    if from >= |docs| then []
    else [docs[from..Min(from + BatchSize, |docs|)]] + BatchesFrom(docs, from + BatchSize)
  }

  function Batches(docs: seq<Document>): seq<seq<Document>> {
    BatchesFrom(docs, 0)
  }

  /** `total_batches` of the progress display. */
  function TotalBatches(n: nat): nat {
    n / BatchSize + (if n % BatchSize != 0 then 1 else 0)
  }

  function Flatten(bs: seq<seq<Document>>): seq<Document> {
    if bs == [] then [] else bs[0] + Flatten(bs[1..])
  }

  /** `total_batches` is the ceiling of n / 5: the fewest batches of five that hold n pages. */
  lemma TotalBatchesIsCeiling(n: nat)
    ensures TotalBatches(n) * BatchSize >= n
    ensures TotalBatches(n) == 0 || (TotalBatches(n) - 1) * BatchSize < n
  {
  }

  /** The batches from offset `from` are consecutive slices: there are
      ceil((n - from) / 5) of them, each non-empty and of at most five pages,
      all but the last of exactly five, and together they are `docs[from..]`. */
  lemma {:induction false} BatchesFromShape(docs: seq<Document>, from: nat)
    requires from <= |docs|
    ensures |BatchesFrom(docs, from)| == TotalBatches(|docs| - from)
    ensures forall b :: b in BatchesFrom(docs, from) ==> 1 <= |b| <= BatchSize
    ensures forall k :: 0 <= k < |BatchesFrom(docs, from)| - 1 ==> |BatchesFrom(docs, from)[k]| == BatchSize
    ensures Flatten(BatchesFrom(docs, from)) == docs[from..]
    decreases |docs| - from
  {
    var bs := BatchesFrom(docs, from);
    if from < |docs| {
      var end := Min(from + BatchSize, |docs|);
      if end < |docs| {
        BatchesFromShape(docs, end);
        assert bs[1..] == BatchesFrom(docs, end);
        assert docs[from..] == docs[from..end] + docs[end..];
      } else {
        assert BatchesFrom(docs, from + BatchSize) == [];
        assert docs[from..end] == docs[from..];
        assert bs == [docs[from..]];
        assert Flatten(bs) == docs[from..] + Flatten([]);
      }
    }
  }

  /** The batching of `_create_document_summaries`, stated for a whole list. */
  lemma BatchesShape(docs: seq<Document>)
    ensures |Batches(docs)| == TotalBatches(|docs|)
    ensures forall b :: b in Batches(docs) ==> 1 <= |b| <= BatchSize
    ensures forall k :: 0 <= k < |Batches(docs)| - 1 ==> |Batches(docs)[k]| == BatchSize
    ensures Flatten(Batches(docs)) == docs
  {
    BatchesFromShape(docs, 0);
  }

  /** One more batch: the batches still to come from offset i start with `docs[i : i + 5]`,
      and the summaries up to the batch's end join those before it with the batch's. */
  lemma BatchStep(docs: seq<Document>, i: nat, path: string, summarize: Document -> Result<string>)
    requires i < |docs|
    ensures var end := Min(i + BatchSize, |docs|);
      && BatchesFrom(docs, i) == [docs[i..end]] + BatchesFrom(docs, i + BatchSize)
      && SummarizeAll(docs[..end], path, summarize) ==
         Join(SummarizeAll(docs[..i], path, summarize), SummarizeAll(docs[i..end], path, summarize))
  {
    var end := Min(i + BatchSize, |docs|);
    assert docs[..end] == docs[..i] + docs[i..end];
    SummarizeAllAppend(docs[..i], docs[i..end], path, summarize);
  }

  /** Every batch in `bs` was summarised without error. */
  predicate AllSummarized(bs: seq<seq<Document>>, path: string, summarize: Document -> Result<string>) {
    forall k :: 0 <= k < |bs| ==> SummarizeAll(bs[k], path, summarize).Ok?
  }

  /** A failure in a prefix is the failure of the whole list. */
  lemma PrefixFailure(docs: seq<Document>, end: nat, path: string, summarize: Document -> Result<string>)
    requires end <= |docs|
    requires SummarizeAll(docs[..end], path, summarize).Err?
    ensures SummarizeAll(docs, path, summarize) == SummarizeAll(docs[..end], path, summarize)
  {
    assert docs == docs[..end] + docs[end..];
    SummarizeAllAppend(docs[..end], docs[end..], path, summarize);
  }

  /** One iteration of the batch loop, from offset i with the batches
      `started` behind it: the next batch is the next of `Batches`; if it
      summarises, the summaries so far grow by its own; if it fails, its error
      is the error of the whole list. */
  lemma NextBatch(documents: seq<Document>, i: nat, started: seq<seq<Document>>, summaries: seq<Document>,
                  path: string, summarize: Document -> Result<string>)
    requires i < |documents|
    requires started + BatchesFrom(documents, i) == Batches(documents)
    requires AllSummarized(started, path, summarize)
    requires SummarizeAll(documents[..i], path, summarize) == Ok(summaries)
    ensures var end := Min(i + BatchSize, |documents|);
            var batch := documents[i..end];
            var next := started + [batch];
            && next + BatchesFrom(documents, i + BatchSize) == Batches(documents)
            && next <= Batches(documents)
            && next[..|started|] == started
            && (SummarizeAll(batch, path, summarize).Ok? ==>
                  && AllSummarized(next, path, summarize)
                  && SummarizeAll(documents[..end], path, summarize) == Ok(summaries + SummarizeAll(batch, path, summarize).value))
            && (SummarizeAll(batch, path, summarize).Err? ==>
                  SummarizeAll(documents, path, summarize) == SummarizeAll(batch, path, summarize))
  {
    var end := Min(i + BatchSize, |documents|);
    var batch := documents[i..end];
    var next := started + [batch];
    BatchStep(documents, i, path, summarize);
    assert next + BatchesFrom(documents, i + BatchSize) == started + BatchesFrom(documents, i);
    assert next[..|started|] == started;
    assert next[|started|] == batch;
    if SummarizeAll(batch, path, summarize).Err? {
      PrefixFailure(documents, end, path, summarize);
    }
  }

  /** `_create_document_summaries`: for each batch in turn, summarise its
      pages (gathered in argument order), append the summaries, then pause.
      Returned besides the result: the batches started, in order, and the
      number of pauses taken. */
  method CreateDocumentSummaries(documents: seq<Document>, path: string, summarize: Document -> Result<string>)
    returns (r: Result<seq<Document>>, started: seq<seq<Document>>, pauses: nat)
    ensures r == SummarizeAll(documents, path, summarize)
    ensures started <= Batches(documents)
    ensures r.Ok? ==> started == Batches(documents) && pauses == |started|
    ensures r.Err? ==>
      && |started| >= 1 && pauses == |started| - 1
      && AllSummarized(started[..|started| - 1], path, summarize)
      && SummarizeAll(started[|started| - 1], path, summarize) == Err(r.error)
  {
    var summaries: seq<Document> := [];
    var n := |documents|;
    started, pauses := [], 0;
    var i := 0;
    while i < n
      invariant i == BatchSize * |started|
      invariant started + BatchesFrom(documents, i) == Batches(documents)
      invariant pauses == |started|
      invariant AllSummarized(started, path, summarize)
      invariant SummarizeAll(documents[..Min(i, n)], path, summarize) == Ok(summaries)
      decreases n - i
    {
      var end := Min(i + BatchSize, n);
      var batch := documents[i..end];
      NextBatch(documents, i, started, summaries, path, summarize);
      var batchSummaries := SummarizeAll(batch, path, summarize);  // asyncio.gather over the batch
      started := started + [batch];
      if batchSummaries.Err? {
        return Err(batchSummaries.error), started, pauses;
      }
      summaries := summaries + batchSummaries.value;
      pauses := pauses + 1;  // asyncio.sleep(1), after every batch including the last
      i := i + BatchSize;
    }
    assert documents[..Min(i, n)] == documents;
    r := Ok(summaries);
  }

  // ---------------------------------------------------------------------
  // The whole ingestion

  /** What `load_and_process_document` returns: (summaries, chunks), both
      derived from the one loaded page list; the first stage to fail decides
      the error. */
  function ProcessDocument(path: string, chunkSize: int, chunkOverlap: int, isString: bool, c: Collaborators)
    : Result<(seq<Document>, seq<Document>)>
  {
    match LoadDocuments(path, chunkSize, chunkOverlap, isString, c)
    case Err(e) => Err(e)
    case Ok(docs) =>
      match SummarizeAll(docs, path, c.summarize)
      case Err(e) => Err(e)
      case Ok(sums) =>
        match c.splitDocuments(docs, chunkSize, chunkOverlap)
        case Err(e) => Err(e)
        case Ok(chunks) => Ok((sums, chunks))
  }

  /** `load_and_process_document`: load, summarise batch by batch, split. */
  method LoadAndProcessDocument(path: string, chunkSize: int, chunkOverlap: int, isString: bool, c: Collaborators)
    returns (r: Result<(seq<Document>, seq<Document>)>)
    ensures r == ProcessDocument(path, chunkSize, chunkOverlap, isString, c)
  {
    var loaded := LoadDocuments(path, chunkSize, chunkOverlap, isString, c);
    if loaded.Err? {
      return Err(loaded.error);
    }
    var documents := loaded.value;
    var summaries, _, _ := CreateDocumentSummaries(documents, path, c.summarize);
    if summaries.Err? {
      return Err(summaries.error);
    }
    var chunks := c.splitDocuments(documents, chunkSize, chunkOverlap);
    if chunks.Err? {
      return Err(chunks.error);
    }
    r := Ok((summaries.value, chunks.value));
  }

  /** A successful ingestion returns one summary per loaded page, page by
      page, and the splitter's chunks of those same pages. */
  lemma ProcessDocumentCounts(path: string, chunkSize: int, chunkOverlap: int, isString: bool, c: Collaborators)
    requires ProcessDocument(path, chunkSize, chunkOverlap, isString, c).Ok?
    ensures var docs := LoadDocuments(path, chunkSize, chunkOverlap, isString, c).value;
            var (sums, chunks) := ProcessDocument(path, chunkSize, chunkOverlap, isString, c).value;
            && |sums| == |docs|
            && (forall j :: 0 <= j < |docs| ==> HasPage(docs[j]) && sums[j].metadata == SummaryMetadata(path, docs[j].metadata[PageKey]))
            && chunks == c.splitDocuments(docs, chunkSize, chunkOverlap).value
  {
    var docs := LoadDocuments(path, chunkSize, chunkOverlap, isString, c).value;
    SummarizeAllPerPage(docs, path, c.summarize);
  }

  /** A raw string that the splitter cuts into at least one document can never
      be ingested: those documents have no page number. */
  lemma StringInputFails(path: string, chunkSize: int, chunkOverlap: int, c: Collaborators)
    requires c.createDocuments(path, chunkSize, chunkOverlap).Ok?
    requires c.createDocuments(path, chunkSize, chunkOverlap).value != []
    ensures ProcessDocument(path, chunkSize, chunkOverlap, true, c).Err?
  {
    var docs := LoadDocuments(path, chunkSize, chunkOverlap, true, c).value;
    assert !HasPage(docs[0]);
    SummarizeAllPerPage(docs, path, c.summarize);
  }

  /** Batch pacing for twelve pages: three batches of 5, 5 and 2 pages. */
  lemma TwelvePagesMakeThreeBatches(docs: seq<Document>)
    requires |docs| == 12
    ensures Batches(docs) == [docs[..5], docs[5..10], docs[10..]]
  {
    assert BatchesFrom(docs, 15) == [];
    assert BatchesFrom(docs, 10) == [docs[10..12]];
    assert BatchesFrom(docs, 5) == [docs[5..10], docs[10..12]];
    assert docs[10..12] == docs[10..];
  }
}
