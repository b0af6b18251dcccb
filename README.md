# Hierarchical indexing: a Dafny model of the ingestion and retrieval core

This project models the core of a question-answering system over one large
document. The system builds two vector stores and queries them in two stages:
- a summary store with one summary per page;
- a chunk store holding overlapping chunks of the pages.

The model covers:

- **Ingestion** (`DocumentProcessor`, `document_processor.dfy`).
  - The document is loaded into pages.
  - The pages are summarised in consecutive batches of five, with one pause after every batch.
  - Each summary carries the metadata `{source, page, summary: true}`.
  - The same pages are also split into chunks.
- **Hierarchical retrieval** (`Retrieval.HierarchicalRetriever.Retrieve` and `HelperFunctions.RetrieveHierarchical`).
  - One unfiltered top-k search runs over the summary store.
  - Then one chunk search runs per top summary, restricted to that summary's page.
  - The answers are concatenated in summary order, without deduplication.
- **Retry with exponential backoff**, in two variants.
  - `ServicesBackoff` calls a coroutine factory afresh on every attempt.
  - `UtilsBackoff` awaits one coroutine object on every attempt.
  - Both catch only the rate-limit error and re-raise it on the last attempt.
  - Otherwise they back off with `2^attempt` seconds plus jitter.
- **The get-or-create store cache** (`VectorStoreManagement.VectorStoreManager`).
  - The file system is a map field from existing paths to what is stored there.
  - The manager loads both stores when both fixed paths exist. Otherwise it ingests the document and saves both stores.

The libraries behind the core are oracles:
- The similarity search of a store is a function field `search(query, k, filter)`.
  - The lemmas that need them assume two contracts: `AtMostK` (at most k answers) and `HonoursFilter` (every answer passes the filter).
  - `VectorStores.RankedStore` shows both contracts can hold together. It filters a per-query ranking and then cuts it to k.
- The PDF loader, the text splitter, the summarisation chain and the store builder are function fields of `DocumentProcessor.Collaborators` and of the manager. Each returns a value or raises.
- Each retry run also returns a trace of what it did:
  - the number of attempts (factory calls, or awaits of the one coroutine);
  - the attempt numbers passed to the backoff.
- A retrieval returns the list of `similarity_search` calls it issued.
- Ingestion returns the batches it started and the number of pauses.

Behaviours of the code worth noting:
- Twelve pages give three batches of 5, 5 and 2. The code then pauses three times, because `asyncio.sleep(1)` runs after every batch, the last included (`core/document_processor.py:90-96`). See `DocumentProcessor.CreateDocumentSummaries` and `DocumentProcessor.TwelvePagesMakeThreeBatches`.
- A persisted store that exists but cannot be read is not rebuilt. The existence check looks only at the two paths, and the load error propagates (`core/vector_store_manager.py:32-33, 44-46`).
- Only the `services` retry variant calls a factory on every attempt. The `utils` variant reuses one coroutine; see Findings.

## Model

| member | source | states |
|---|---|---|
| `ServicesBackoff.BackoffWait` | services/exponential_backoff.py:17 | the wait for attempt a is 2^a plus a jitter in [0, 1], so it lies between 2^a and 2^a + 1 (the same formula is at utils/exponential_backoff.py:16) |
| `ServicesBackoff.BackoffWaitGrows` | services/exponential_backoff.py:17 | for a later attempt the wait is never shorter, whatever the jitters; from attempt 1 on it is strictly longer |
| `ServicesBackoff.RetryWithExponentialBackoff` | services/exponential_backoff.py:22-44 | the factory loop meets `RetryOutcome`. With max_retries <= 0 the factory is never called and "Max retries reached" is raised. Otherwise: 1 to max_retries calls, every call but the last rate-limited, early stop only on another outcome, the last call's outcome returned or raised, and backoffs 0, 1, …, calls-2 |
| `ServicesBackoff.RetryOutcomeUnique` | services/exponential_backoff.py:36-44 | `RetryOutcome` admits one run only, so the retry behaviour is fully determined by the factory's outcomes and the bound |
| `ServicesBackoff.FirstOtherOutcomeIsFinal` | services/exponential_backoff.py:36-43 | if attempts 0..i-1 are rate-limited and attempt i < max_retries is not, the caller gets attempt i's value or exception after exactly i+1 calls and backoffs 0..i-1; any other exception propagates with no further attempt |
| `ServicesBackoff.AllRateLimitedReraises` | services/exponential_backoff.py:40-42 | if every attempt is rate-limited, the rate-limit error is re-raised after exactly max_retries calls and max_retries-1 backoffs |
| `ServicesBackoff.BackoffsPerCall` | services/exponential_backoff.py:40-43 | there is never a backoff after the final attempt (one fewer backoff than calls), and the total base wait is 2^(calls-1) - 1 seconds |
| `ServicesBackoff.BaseWaitOfCountup` | services/exponential_backoff.py:17 | backoffs for attempts 0..n-1 wait 2^n - 1 seconds in total, not counting jitter |
| `UtilsBackoff.Coroutine.Await` | utils/exponential_backoff.py:37 | awaiting a coroutine runs its body the first time; every later await fails with the reused-coroutine error |
| `UtilsBackoff.RetryWithExponentialBackoff` | utils/exponential_backoff.py:21-42 | the loop over one coroutine object meets `RetryOutcome` for the factory whose calls after the first fail as reused, and marks the coroutine awaited exactly when an attempt ran |
| `UtilsBackoff.SingleCoroutineRetry` | utils/exponential_backoff.py:35-41 | with a fresh coroutine the operation runs at most once. An outcome other than a rate limit is final. With one allowed attempt a rate limit is re-raised. Otherwise one backoff (attempt 0) is taken, then the second await fails as reused and that error propagates |
| `UtilsBackoff.RateLimitThenSuccess` | utils/exponential_backoff.py:35-41 | an operation rate-limited once and then successful: the factory retry returns its value after one backoff, the coroutine retry raises the reused-coroutine error |
| `DocumentProcessor.LoadDocuments` | core/document_processor.py:47-70 | a PDF path gives the loader's pages. A raw string loads iff the splitter succeeds, and then gives one document per splitter text, carrying that text, and none of these documents has a page number, so none can be summarised (see `StringInputFails`) |
| `DocumentProcessor.SummarizeAllAppend` | core/document_processor.py:91-95 | summarising a list in consecutive parts and joining the results equals summarising it whole, including which error is raised |
| `DocumentProcessor.SummarizeAllPerPage` | core/document_processor.py:92-95 | summarising succeeds iff every page's chain call succeeds and every page has a page number. The result then has one summary per page, in page order, with content = the chain output and metadata exactly {source: path, page: that page's number, summary: true} (lines 112-118) |
| `DocumentProcessor.SummarizeAllFirstFailure` | core/document_processor.py:92-94 | on failure, the error raised is that of the first failing page in page order; no partial summary list is returned |
| `DocumentProcessor.TotalBatchesIsCeiling` | core/document_processor.py:88 | `total_batches = n // 5 + (1 if n % 5 else 0)` is the ceiling of n / 5 |
| `DocumentProcessor.BatchesFromShape` | core/document_processor.py:90-91 | the slices `documents[i:i+5]` from any offset: ceil of the remaining length / 5 of them, each non-empty and at most 5 long, all but the last exactly 5, together the remaining pages in order |
| `DocumentProcessor.BatchesShape` | core/document_processor.py:87-91 | the batches of the whole list: there are `total_batches` of them, each holds 1 to 5 pages, only the last may be shorter, and their concatenation is the page list |
| `DocumentProcessor.BatchStep` | core/document_processor.py:91-95 | the next batch is `documents[i:i+5]`, and the summaries up to its end join those before it with the batch's own |
| `DocumentProcessor.PrefixFailure` | core/document_processor.py:92-95 | a failing batch makes the whole summarisation fail with that batch's error |
| `DocumentProcessor.NextBatch` | core/document_processor.py:90-96 | one pass of the batch loop: the batch it starts is the next of the batches, in order; when that batch summarises, the summaries so far are those of every page up to the batch's end; when it fails, its error is the error of the whole summarisation |
| `DocumentProcessor.CreateDocumentSummaries` | core/document_processor.py:72-98 | the batch loop returns exactly the one-per-page summaries, or the first error. On success it started every batch in order and paused once per batch, the last included (empty input: no batch, no pause). On failure it stopped at the first failing batch: every earlier started batch summarised, the last started one raised the error returned, and one pause was taken per earlier batch |
| `DocumentProcessor.TwelvePagesMakeThreeBatches` | core/document_processor.py:87-91 | twelve pages make the batches [0:5], [5:10] and [10:12] |
| `DocumentProcessor.LoadAndProcessDocument` | core/document_processor.py:25-44 | ingestion loads the pages, summarises them batch by batch and splits them. It returns (summaries, chunks) from the same page list, or the error of the first stage that fails |
| `DocumentProcessor.ProcessDocumentCounts` | core/document_processor.py:41-44 | a successful ingestion returns one summary per loaded page with that page's number, and the splitter's chunks of those same pages |
| `DocumentProcessor.StringInputFails` | core/document_processor.py:64-70 | a raw-string input that the splitter cuts into at least one document always fails: those documents have no page number (line 117) |
| `VectorStores.Select` | core/hierarchical_retriever.py:40-42 | a document is in the answer iff it is in the input and the filter accepts it; the answer is no longer than the input |
| `VectorStores.SelectAppend` | core/hierarchical_retriever.py:40-42 | filtering keeps input order: the filtered concatenation of two lists is the concatenation of their filtered lists |
| `VectorStores.RankedStoreHonoursContracts` | core/hierarchical_retriever.py:41-43 | a store that filters a ranking before cutting it to k meets both assumptions on `similarity_search`: at most k answers, each accepted by the filter |
| `Retrieval.SearchLogUnique` | core/hierarchical_retriever.py:35-44 | the sequence of searches is fully determined by the stores, the arguments and whether a summary lacked a page number |
| `Retrieval.HierarchicalRetriever.constructor` | core/hierarchical_retriever.py:11-20 | the retriever keeps the two stores it is given |
| `Retrieval.HierarchicalRetriever.Retrieve` | core/hierarchical_retriever.py:22-46 | returns `Hierarchical`: the page-filtered chunk answers of the top summaries, concatenated in summary order, or a KeyError if a top summary has no page. The summary store is searched once, first, with k_summaries and no filter. Then the chunk store is searched once per summary, in order, with k_chunks and that summary's page |
| `Retrieval.ChunksForPagesAppend` | core/hierarchical_retriever.py:37-46 | summary order comes first: the chunks for pages a + b are the chunks for a followed by the chunks for b |
| `Retrieval.PageAnswerInPlace` | core/hierarchical_retriever.py:44 | no dedup: each page's whole search answer appears, in its own order, right after the answers of the earlier pages. A page with no chunks adds nothing; a repeated page adds its chunks again |
| `Retrieval.ChunksForPagesLength` | core/hierarchical_retriever.py:44-46 | the result length is the sum of the per-summary answer lengths |
| `Retrieval.ChunksForPagesBound` | core/hierarchical_retriever.py:41-44 | if the chunk store returns at most k items, the pages contribute at most (number of pages) × k_chunks chunks |
| `Retrieval.ChunksForPagesMembers` | core/hierarchical_retriever.py:39-43 | if the chunk store honours the filter, every returned chunk has a page number that is one of the searched pages |
| `Retrieval.RetrievalBound` | core/hierarchical_retriever.py:35-44 | with stores that return at most k items, retrieval returns at most k_summaries × k_chunks chunks |
| `Retrieval.RetrievalPages` | core/hierarchical_retriever.py:39-43 | with a chunk store that honours the filter, every returned chunk's page equals the page of one of the top summaries |
| `Retrieval.NoSummariesNoChunks` | core/hierarchical_retriever.py:37-46 | no top summaries give an empty result, not an error |
| `HelperFunctions.RetrieveHierarchical` | utils/helper_functions.py:1-30 | the free function has the same contract as `retrieve`: the same result `Hierarchical` and the same search log |
| `HelperFunctions.CopiesAgree` | utils/helper_functions.py:17-30 | for the same stores and arguments, `retrieve_hierarchical` and `HierarchicalRetriever.retrieve` return the same list (or error) after the same searches |
| `VectorStoreManagement.LoadStore` | core/vector_store_manager.py:55-64 | loading a path succeeds iff a saved store is there, and yields that store |
| `VectorStoreManagement.VectorStoreManager.LoadVectorStores` | core/vector_store_manager.py:48-65 | loads the summary store, then the detailed store, from the two fixed paths. Returns them in (summary, detailed) order, or the first load error |
| `VectorStoreManagement.VectorStoreManager.CreateVectorStores` | core/vector_store_manager.py:67-87 | ingests the document, builds both stores and saves them under exactly the two checked paths, returned in (summary, detailed) order. When ingestion or either `FAISS.from_documents` build fails, that error is returned and nothing is written |
| `VectorStoreManagement.VectorStoreManager.GetOrCreateVectorStores` | core/vector_store_manager.py:22-46 | ingests iff one of the two fixed paths is missing. With both present it loads them whatever `path` is, and changes nothing. A create writes only the two store paths, and only on success; every other path is left alone. After any success the cache exists and loads back to the returned pair |
| `VectorStoreManagement.SecondCallLoadsCache` | core/vector_store_manager.py:32-35 | after one successful call, a second call for any path takes the load branch, ingests nothing and returns the same stores |

## Left out

- The PDF loader, `RecursiveCharacterTextSplitter`, the summarisation chain, OpenAI embeddings and FAISS index building are oracles. Chunk boundaries and overlap are therefore not modelled, and neither is summary quality.
- Similarity scores and their floating-point ranking are not modelled. A store is its `search` function, and the two assumptions about it are stated as predicates, not proved of FAISS. FAISS pre-fetching `fetch_k` candidates before filtering is not modelled.
- The page filter is a typed value `PageEquals(p)`, not a closure. A chunk without a `page` key is treated as rejected. In the source the lambda would raise a KeyError inside the store.
- Python equality between `True` and `1` is not modelled. Metadata values of different kinds never compare equal here.
- asyncio concurrency is not modelled.
  - A batch is summarised as calls in argument order.
  - When several pages of one batch fail, the model reports the first in page order; `gather` reports whichever failure comes first in time.
  - The other page summaries of a failed batch keep running in the source (`gather` does not cancel them); that is not modelled.
  - Sleeps are counted, not timed.
- `random.uniform` jitter is a parameter in [0, 1] of `BackoffWait`. The retry loops record only the attempt numbers passed to the backoff.
- `summarize_document` in services/openai_service.py is not part of this model. It is the `summarize` collaborator, which stands for the retried chain call.
- `save_local`/`load_local` serialisation is modelled as exact. Save failures and the `allow_dangerous_deserialization` flag are not modelled.
- Printing, the tqdm progress bar, app.py, main.py and credential loading are presentation and environment set-up, not part of this model.
- The source's default arguments are named constants: `DefaultMaxRetries`, `DefaultKSummaries`, `DefaultKChunks`, `DefaultChunkSize`, `DefaultChunkOverlap`.
- `Retrieval.HierarchicalRetriever.Retrieve`: k_summaries and k_chunks are natural numbers. What a store does with a negative k is not modelled.
- `HelperFunctions.RetrieveHierarchical`: the same restriction of k to natural numbers.

## Findings

| source | as written | input that shows it | evidently intended | confidence | as-written member | corrected member |
|---|---|---|---|---|---|---|
| utils/exponential_backoff.py:35-41 | every attempt awaits the same coroutine object. After a first `RateLimitError` the loop backs off once, then the second await raises Python's "cannot reuse already awaited coroutine" error, and that error propagates. The operation is never retried | an operation whose first run raises `RateLimitError` and whose second run would succeed, with max_retries = 5 | retry the operation after the backoff by creating a fresh call on every attempt, as services/exponential_backoff.py:39 does with a factory (the caller at services/openai_service.py:42-43 relies on that variant) | high; not executed | `UtilsBackoff.RateLimitThenSuccess` (with `UtilsBackoff.SingleCoroutineRetry`) | `ServicesBackoff.RetryWithExponentialBackoff` (with `ServicesBackoff.FirstOtherOutcomeIsFinal`) |
