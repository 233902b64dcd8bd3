/**
 * The two persisted records of the knowledge base, a document and one of its
 * chunks, with the enumerations, defaults and `required` checks their
 * schemas declare.
 */
module Schemas {
  import opened Wrappers

  /** A document's database identifier, in its string form. */
  type DocId = string

  /** An instant; the model never reads a clock, callers pass instants in. */
  type Time = nat

  /** A vector-store point identifier; the source draws a fresh random UUID. */
  datatype PointId = PointId(serial: nat)

  datatype Category = Pricing | Technical | General | Faq

  function CategoryName(c: Category): string {
    match c
    case Pricing => "pricing"
    case Technical => "technical"
    case General => "general"
    case Faq => "faq"
  }

  /** The schema's `enum` check on a category string. */
  function ParseCategory(s: string): (r: Option<Category>)
    ensures r.Some? ==> CategoryName(r.value) == s
    ensures r.None? ==> forall c: Category :: CategoryName(c) != s
  {
    if s == "pricing" then Some(Pricing)
    else if s == "technical" then Some(Technical)
    else if s == "general" then Some(General)
    else if s == "faq" then Some(Faq)
    else None
  }

  datatype Status = Pending | Indexing | Indexed | Failed

  function StatusName(s: Status): string {
    match s
    case Pending => "pending"
    case Indexing => "indexing"
    case Indexed => "indexed"
    case Failed => "failed"
  }

  /** The schema's `enum` check on a status string. */
  function ParseStatus(s: string): (r: Option<Status>)
    ensures r.Some? ==> StatusName(r.value) == s
    ensures r.None? ==> forall st: Status :: StatusName(st) != s
  {
    if s == "pending" then Some(Pending)
    else if s == "indexing" then Some(Indexing)
    else if s == "indexed" then Some(Indexed)
    else if s == "failed" then Some(Failed)
    else None
  }

  datatype Language = Vi | En

  datatype DocMetadata = DocMetadata(
    source: Option<string>,
    author: Option<string>,
    tags: seq<string>,
    language: Language)

  /** Metadata with every sub-field at its schema default. */
  const DefaultMetadata := DocMetadata(None, None, [], Vi)

  datatype KnowledgeDocument = KnowledgeDocument(
    id: DocId,
    tenantSlug: string,
    title: string,
    category: Category,
    content: Option<string>,
    filePath: Option<string>,
    fileType: Option<string>,
    status: Status,
    chunkCount: int,
    indexedAt: Option<Time>,
    errorMessage: Option<string>,
    metadata: DocMetadata,
    createdAt: Time)

  /** The fields a creator supplies; all others take their schema defaults. */
  datatype DocumentInput = DocumentInput(
    tenantSlug: string,
    title: string,
    category: string,
    content: Option<string>,
    filePath: Option<string>,
    fileType: Option<string>,
    status: Status,
    metadata: DocMetadata)

  /**
   * Building a document record: a `required` string must be present and
   * non-empty, the category must be one of the enumeration, and the counters,
   * timestamp and error message start at their defaults.
   */
  function NewDocumentRecord(id: DocId, input: DocumentInput, now: Time): (r: Result<KnowledgeDocument, string>)
    ensures r.Success? <==> input.tenantSlug != [] && input.title != [] && ParseCategory(input.category).Some?
    ensures r.Success? ==>
      && r.value.id == id && r.value.createdAt == now
      && r.value.tenantSlug == input.tenantSlug && r.value.title == input.title
      && CategoryName(r.value.category) == input.category
      && r.value.content == input.content && r.value.filePath == input.filePath
      && r.value.fileType == input.fileType && r.value.status == input.status
      && r.value.chunkCount == 0 && r.value.indexedAt.None? && r.value.errorMessage.None?
      && r.value.metadata == input.metadata
  {
    if input.tenantSlug == [] then Failure("Path `tenantSlug` is required.")
    else if input.title == [] then Failure("Path `title` is required.")
    else
      match ParseCategory(input.category)
      case None => Failure("`" + input.category + "` is not a valid enum value for path `category`.")
      case Some(c) =>
        Success(KnowledgeDocument(
          id, input.tenantSlug, input.title, c, input.content, input.filePath, input.fileType,
          input.status, 0, None, None, input.metadata, now))
  }

  datatype ChunkType = Title | List | Code | Paragraph

  function ChunkTypeName(t: ChunkType): string {
    match t
    case Title => "title"
    case List => "list"
    case Code => "code"
    case Paragraph => "paragraph"
  }

  datatype ChunkMetadata = ChunkMetadata(
    chunkType: ChunkType,
    category: Option<Category>,
    documentTitle: Option<string>)

  /** Chunk metadata with every sub-field at its schema default. */
  const DefaultChunkMetadata := ChunkMetadata(Paragraph, None, None)

  datatype KnowledgeChunk = KnowledgeChunk(
    tenantSlug: string,
    documentId: DocId,
    chunkIndex: int,
    content: string,
    qdrantPointId: Option<PointId>,
    metadata: ChunkMetadata,
    indexedAt: Option<Time>)

  /**
   * The `required` checks of a chunk record: a required string must be
   * non-empty (the document reference and the index always have a value).
   */
  predicate ChunkRecordValid(c: KnowledgeChunk) {
    c.tenantSlug != [] && c.content != []
  }

  /**
   * A chunk record with only its required fields given: no vector-store
   * link yet, default metadata, not yet indexed.
   */
  function BareChunkRecord(tenantSlug: string, documentId: DocId, chunkIndex: int, content: string): (r: KnowledgeChunk)
    ensures r.qdrantPointId.None? && r.indexedAt.None?
    ensures r.metadata.chunkType == Paragraph && r.metadata.category.None? && r.metadata.documentTitle.None?
    ensures ChunkRecordValid(r) <==> tenantSlug != [] && content != []
  {
    KnowledgeChunk(tenantSlug, documentId, chunkIndex, content, None, DefaultChunkMetadata, None)
  }
}
