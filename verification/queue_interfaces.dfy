/** What travels through the indexing queue: the job payload and progress events. */
module QueueInterfaces {
  import opened Schemas

  /** The queue the indexing worker consumes. */
  const KnowledgeIndexingQueue: string := "knowledge-indexing"

  /** The one job name enqueued on it. */
  const IndexDocumentJob: string := "index-document"

  /** Denormalised document fields that enrich vector payloads without a lookup. */
  datatype JobMetadata = JobMetadata(tenantSlug: string, category: Category, title: string)

  /** The job payload: the document reference and its metadata, never its content. */
  datatype IndexingJobData = IndexingJobData(documentId: DocId, metadata: JobMetadata)

  /** A job as it sits in the queue. */
  datatype QueuedJob = QueuedJob(name: string, data: IndexingJobData)

  /** `upserting` is part of the declared vocabulary but no code emits it. */
  datatype Stage = Chunking | Embedding | Upserting | Completed

  datatype IndexingProgress = IndexingProgress(
    stage: Stage,
    totalChunks: nat,
    chunksProcessed: nat,
    progress: int)

  /** A progress event is a percentage in 0..100 over at most all chunks. */
  predicate ProgressWellFormed(p: IndexingProgress) {
    0 <= p.progress <= 100 && p.chunksProcessed <= p.totalChunks
  }

  /**
   * The job both enqueue sites build for a document: its id and its tenant,
   * category and title, under the `index-document` name.
   */
  function IndexJobFor(doc: KnowledgeDocument): (j: QueuedJob)
    ensures j.name == "index-document"
    ensures j.data.documentId == doc.id
    ensures j.data.metadata.tenantSlug == doc.tenantSlug
    ensures j.data.metadata.category == doc.category
    ensures j.data.metadata.title == doc.title
  {
    QueuedJob(IndexDocumentJob, IndexingJobData(doc.id, JobMetadata(doc.tenantSlug, doc.category, doc.title)))
  }
}
