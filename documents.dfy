// Documents as the pipeline sees them: a text plus a metadata dictionary,
// and the exceptions the core raises or lets through.

module Documents {

  /** A value stored in a metadata dictionary (the pipeline stores paths,
      page numbers and the summary flag). */
  datatype MetaValue = Str(s: string) | Int(i: int) | Bool(b: bool)

  type Metadata = map<string, MetaValue>

  /** A page, a summary or a chunk: `page_content` plus `metadata`. */
  datatype Document = Document(content: string, metadata: Metadata)

  /** The exceptions that the modelled code raises or propagates. */
  datatype Error =
    | RateLimitError                 // the provider's rate-limit signal
    | OtherException(name: string)   // any other failure of a collaborator
    | ReusedCoroutine                // awaiting a coroutine that has already finished
    | MaxRetriesReached              // the generic "Max retries reached" exception
    | KeyError(key: string)          // a missing metadata key
    | StoreNotFound(path: string)    // loading a store from a path that does not exist
    | UnreadableStore(path: string)  // loading a store from a path holding something else

  /** A call either returns a value or raises. */
  datatype Result<T> = Ok(value: T) | Err(error: Error)

  const PageKey := "page"
  const SourceKey := "source"
  const SummaryKey := "summary"

  predicate HasPage(d: Document) {
    PageKey in d.metadata
  }
}
