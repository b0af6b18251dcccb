// The get-or-create cache of the two vector stores
// (core/vector_store_manager.py). The file system is a field of the
// manager: a map from the paths that exist to what is stored there.

module VectorStoreManagement {
  import opened Documents
  import opened VectorStores
  import opened DocumentProcessor

  const SummaryStorePath := "./vector_stores/summary_store"
  const DetailedStorePath := "./vector_stores/detailed_store"

  /** What exists at a path: a store saved by `save_local`, or anything else
      that `load_local` cannot read. */
  datatype DiskEntry = SavedStore(store: VectorStore) | OtherFile

  type StorePair = (VectorStore, VectorStore)

  /** `FAISS.load_local(path, ...)` against the file system `disk`. */
  function LoadStore(disk: map<string, DiskEntry>, path: string): (r: Result<VectorStore>)
    ensures r.Ok? <==> path in disk && disk[path].SavedStore?
    ensures r.Ok? ==> r.value == disk[path].store
  {
    if path !in disk then Err(StoreNotFound(path))
    else
      match disk[path]
      case SavedStore(s) => Ok(s)
      case OtherFile => Err(UnreadableStore(path))
  }

  /** `_load_vector_stores` against `disk`: the summary store, then the detailed one. */
  function LoadPair(disk: map<string, DiskEntry>): Result<StorePair> {
    match LoadStore(disk, SummaryStorePath)
    case Err(e) => Err(e)
    case Ok(summary) =>
      match LoadStore(disk, DetailedStorePath)
      case Err(e) => Err(e)
      case Ok(detailed) => Ok((summary, detailed))
  }

  class VectorStoreManager {
    var disk: map<string, DiskEntry>
    const collaborators: Collaborators
    /** `FAISS.from_documents(docs, embeddings)`: the store built from a
        document list, or the error the embedding call raises. */
    const fromDocuments: seq<Document> -> Result<VectorStore>

    constructor (disk: map<string, DiskEntry>, collaborators: Collaborators, fromDocuments: seq<Document> -> Result<VectorStore>)
      ensures this.disk == disk
      ensures this.collaborators == collaborators && this.fromDocuments == fromDocuments
    {
      this.disk := disk;
      this.collaborators := collaborators;
      this.fromDocuments := fromDocuments;
    }

    /** `_vector_stores_exist`: both store paths exist; one alone does not count. */
    predicate VectorStoresExist()
      reads this
    {
      SummaryStorePath in disk && DetailedStorePath in disk
    }

    /** The stores a fresh ingestion of `path` builds (with the default chunk
        size and overlap, from a PDF), or the error of the first step that
        fails: ingestion, then the summary store build, then the detailed one. */
    function Created(path: string): Result<StorePair>
      reads this
    {
      match ProcessDocument(path, DefaultChunkSize, DefaultChunkOverlap, false, collaborators)
      case Err(e) => Err(e)
      case Ok((summaries, chunks)) =>
        match fromDocuments(summaries)
        case Err(e) => Err(e)
        case Ok(summaryStore) =>
          match fromDocuments(chunks)
          case Err(e) => Err(e)
          case Ok(detailedStore) => Ok((summaryStore, detailedStore))
    }

    /** `_load_vector_stores`: loads both stores from their fixed paths. */
    method LoadVectorStores() returns (r: Result<StorePair>)
      ensures r.Ok? <==> LoadStore(disk, SummaryStorePath).Ok? && LoadStore(disk, DetailedStorePath).Ok?
      ensures r.Ok? ==> r.value == (disk[SummaryStorePath].store, disk[DetailedStorePath].store)
      ensures r.Err? ==> r.error == (if LoadStore(disk, SummaryStorePath).Err? then LoadStore(disk, SummaryStorePath)
                                     else LoadStore(disk, DetailedStorePath)).error
    {
      var summaryStore := LoadStore(disk, SummaryStorePath);
      if summaryStore.Err? {
        return Err(summaryStore.error);
      }
      var detailedStore := LoadStore(disk, DetailedStorePath);
      if detailedStore.Err? {
        return Err(detailedStore.error);
      }
      r := Ok((summaryStore.value, detailedStore.value));
    }

    /** `_create_vector_stores`: ingest the document, build both stores, save
        them under the two fixed paths (summary first). Nothing is written when
        ingestion or either build fails. */
    method CreateVectorStores(path: string) returns (r: Result<StorePair>)
      modifies this
      ensures r == old(Created(path))
      ensures r.Err? ==> disk == old(disk)
      ensures r.Ok? ==> disk == old(disk)[SummaryStorePath := SavedStore(r.value.0)]
                                         [DetailedStorePath := SavedStore(r.value.1)]
    {
      var processed := LoadAndProcessDocument(path, DefaultChunkSize, DefaultChunkOverlap, false, collaborators);
      if processed.Err? {
        return Err(processed.error);
      }
      var (summaries, detailedChunks) := processed.value;
      var summaryStore := fromDocuments(summaries);
      if summaryStore.Err? {
        return Err(summaryStore.error);
      }
      var detailedStore := fromDocuments(detailedChunks);
      if detailedStore.Err? {
        return Err(detailedStore.error);
      }
      disk := disk[SummaryStorePath := SavedStore(summaryStore.value)];    // summary_store.save_local
      disk := disk[DetailedStorePath := SavedStore(detailedStore.value)];  // detailed_store.save_local
      r := Ok((summaryStore.value, detailedStore.value));
    }

    /** `get_or_create_vector_stores`: load when both paths exist, whatever
        `path` is; otherwise ingest `path`. `ingested` tells which branch ran.
        A successful call always leaves a cache that loads back to the pair
        it returned. */
    method GetOrCreateVectorStores(path: string) returns (r: Result<StorePair>, ingested: bool)
      modifies this
      ensures ingested == !old(VectorStoresExist())
      ensures !ingested ==> disk == old(disk) && r == LoadPair(disk)
      ensures ingested ==> r == old(Created(path))
      ensures ingested && r.Err? ==> disk == old(disk)
      ensures ingested && r.Ok? ==> disk == old(disk)[SummaryStorePath := SavedStore(r.value.0)]
                                                     [DetailedStorePath := SavedStore(r.value.1)]
      ensures r.Ok? ==> VectorStoresExist() && LoadPair(disk) == r
    {
      if VectorStoresExist() {
        r := LoadVectorStores();
        ingested := false;
      } else {
        r := CreateVectorStores(path);
        ingested := true;
      }
    }
  }

  /** Once a call has succeeded, a second call (for any path) takes the load
      branch, ingests nothing and returns the same pair of stores. */
  method SecondCallLoadsCache(manager: VectorStoreManager, path: string, otherPath: string)
    returns (first: Result<StorePair>, second: Result<StorePair>, ingestedAgain: bool)
    modifies manager
    ensures first.Ok? ==> !ingestedAgain && second == first
  {
    var ingestedFirst;
    first, ingestedFirst := manager.GetOrCreateVectorStores(path);
    second, ingestedAgain := manager.GetOrCreateVectorStores(otherPath);
  }
}
