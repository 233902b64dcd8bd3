/**
 * The knowledge-base service: creating a document (its text taken from the
 * request or extracted from the uploaded file) and enqueueing its indexing,
 * listing and reading documents, deleting a document with its records and
 * points, and re-queueing a document for indexing.
 */
module KnowledgeService {
  import opened Wrappers
  import opened Schemas
  import opened QueueInterfaces
  import opened VectorDb
  import opened Store
  import Extraction

  /** A missing document is a `404`; anything else that throws passes through. */
  datatype ServiceError = NotFound(message: string) | Thrown(error: Error)

  function NotFoundMessage(id: DocId): string {
    "Tài liệu " + id + " không tồn tại"
  }

  /** The error of the document collection's unique index on `_id`. */
  const DuplicateKeyMessage: string := "E11000 duplicate key error collection: documents index: _id_"

  /** The service's collaborators: file readers, the fault sites and the clock. */
  datatype Env = Env(read: Extraction.Reader, faults: Faults, now: Time)

  /** What an operation leaves behind and what it answers. */
  datatype Outcome<T> = Outcome(world: World, result: Result<T, ServiceError>)

  /** JavaScript truthiness of an optional string. */
  predicate Given(s: Option<string>) {
    s.Some? && s.value != []
  }

  // ---------------------------------------------------------------------------
  // createDocument
  // ---------------------------------------------------------------------------

  datatype CreateParams = CreateParams(
    tenantSlug: string,
    title: string,
    category: string,
    content: Option<string>,
    filePath: Option<string>,
    fileType: Option<string>,
    metadata: Option<DocMetadata>)

  /**
   * The content stored on creation: the request's text when non-empty;
   * otherwise the file's extracted text when both its path and type are
   * given; otherwise none. A failed extraction fails the creation.
   */
  function InitialContent(p: CreateParams, read: Extraction.Reader): (r: Result<Option<string>, Error>)
    ensures Given(p.content) ==> r == Success(p.content)
    ensures !Given(p.content) && !(Given(p.filePath) && Given(p.fileType)) ==> r == Success(None)
    ensures !Given(p.content) && Given(p.filePath) && Given(p.fileType) ==>
      match Extraction.ExtractText(p.filePath.value, p.fileType.value, read)
      case Success(t) => r == Success(Some(t))
      case Failure(e) => r == Failure(e)
  {
    if Given(p.content) then Success(p.content)
    else if Given(p.filePath) && Given(p.fileType) then
      match Extraction.ExtractText(p.filePath.value, p.fileType.value, read)
      case Success(t) => Success(Some(t))
      case Failure(e) => Failure(e)
    else Success(None)
  }

  /** `x || null`: an empty string is stored as nothing. */
  function OrNull(s: Option<string>): (r: Option<string>)
    ensures Given(s) ==> r == s
    ensures !Given(s) ==> r.None?
  {
    if Given(s) then s else None
  }

  /** The fields handed to the document model: `pending`, and Vietnamese metadata by default. */
  function CreateInput(p: CreateParams, content: Option<string>): DocumentInput {
    DocumentInput(p.tenantSlug, p.title, p.category, content, OrNull(p.filePath), OrNull(p.fileType),
                  Pending, p.metadata.GetOr(DefaultMetadata))
  }

  /**
   * `createDocument`: the document is created `pending` under the fresh
   * identifier `newId` and then its indexing job is enqueued. A failed
   * extraction or a rejected record leaves everything as it was; a failed
   * enqueue leaves the document created without a job.
   */
  function Create(w: World, p: CreateParams, newId: DocId, env: Env): (r: Outcome<KnowledgeDocument>)
    ensures r.world.chunks == w.chunks && r.world.points == w.points && r.world.nextPoint == w.nextPoint
    ensures r.result.Success? ==>
      && newId !in w.docs
      && r.world.docs == w.docs[newId := r.result.value]
      && r.world.jobs == w.jobs + [IndexJobFor(r.result.value)]
    ensures r.result.Failure? ==> r.world.jobs == w.jobs && (r.world.docs == w.docs || r.world.docs.Keys == w.docs.Keys + {newId})
  {
    match InitialContent(p, env.read)
    case Failure(e) => Outcome(w, Failure(Thrown(e)))
    case Success(content) =>
      match env.faults(CreateDocument)
      case Some(e) => Outcome(w, Failure(Thrown(e)))
      case None =>
        match NewDocumentRecord(newId, CreateInput(p, content), env.now)
        case Failure(message) => Outcome(w, Failure(Thrown(Error(message))))
        case Success(doc) =>
          if newId in w.docs then Outcome(w, Failure(Thrown(Error(DuplicateKeyMessage))))
          else
            var w1 := w.(docs := w.docs[newId := doc]);
            match env.faults(Enqueue)
            case Some(e) => Outcome(w1, Failure(Thrown(e)))
            case None => Outcome(w1.(jobs := w.jobs + [IndexJobFor(doc)]), Success(doc))
  }

  /**
   * A created document is `pending`, has no chunks or error yet, carries
   * the request's fields and the content rule's text, and the job enqueued
   * for it names it and carries its tenant, category and title.
   */
  lemma CreatedDocument(w: World, p: CreateParams, newId: DocId, env: Env)
    requires Create(w, p, newId, env).result.Success?
    ensures var doc := Create(w, p, newId, env).result.value;
      && doc.id == newId && doc.status == Pending && doc.createdAt == env.now
      && doc.chunkCount == 0 && doc.indexedAt.None? && doc.errorMessage.None?
      && doc.tenantSlug == p.tenantSlug && doc.title == p.title && CategoryName(doc.category) == p.category
      && doc.filePath == OrNull(p.filePath) && doc.fileType == OrNull(p.fileType)
      && doc.metadata == (if p.metadata.Some? then p.metadata.value else DefaultMetadata)
      && InitialContent(p, env.read) == Success(doc.content)
    ensures var doc := Create(w, p, newId, env).result.value;
      var job := Create(w, p, newId, env).world.jobs[|w.jobs|];
      && job.name == IndexDocumentJob && job.data.documentId == newId
      && job.data.metadata == JobMetadata(doc.tenantSlug, doc.category, doc.title)
  {
  }

  /**
   * Creation succeeds exactly when the text can be had, the store accepts
   * the call, the record is valid, the identifier is new, and the queue
   * accepts the job.
   */
  lemma CreateSucceedsWhen(w: World, p: CreateParams, newId: DocId, env: Env)
    ensures Create(w, p, newId, env).result.Success? <==>
      && InitialContent(p, env.read).Success?
      && env.faults(CreateDocument).None?
      && p.tenantSlug != [] && p.title != [] && ParseCategory(p.category).Some?
      && newId !in w.docs
      && env.faults(Enqueue).None?
  {
  }

  /**
   * When the queue refuses the job, the document stays created and
   * `pending` with no job to index it.
   */
  lemma EnqueueFailureStrandsDocument(w: World, p: CreateParams, newId: DocId, env: Env, e: Error)
    requires InitialContent(p, env.read).Success? && env.faults(CreateDocument).None?
    requires NewDocumentRecord(newId, CreateInput(p, InitialContent(p, env.read).value), env.now).Success?
    requires newId !in w.docs && env.faults(Enqueue) == Some(e)
    ensures Create(w, p, newId, env).result == Failure(Thrown(e))
    ensures newId in Create(w, p, newId, env).world.docs
    ensures Create(w, p, newId, env).world.docs[newId].status == Pending
    ensures Create(w, p, newId, env).world.jobs == w.jobs
  {
  }

  // ---------------------------------------------------------------------------
  // getDocuments
  // ---------------------------------------------------------------------------

  /** The listing's filters; an absent or empty one does not filter. */
  datatype DocumentQuery = DocumentQuery(tenantSlug: Option<string>, status: Option<string>, category: Option<string>)

  predicate Matches(doc: KnowledgeDocument, q: DocumentQuery) {
    && (Given(q.tenantSlug) ==> doc.tenantSlug == q.tenantSlug.value)
    && (Given(q.status) ==> StatusName(doc.status) == q.status.value)
    && (Given(q.category) ==> CategoryName(doc.category) == q.category.value)
  }

  /** Newest first: every identifier's document is at least as recent as those after it. */
  ghost predicate NewestFirst(ids: seq<DocId>, docs: map<DocId, KnowledgeDocument>) {
    forall i, j :: 0 <= i < j < |ids| && ids[i] in docs && ids[j] in docs ==> docs[ids[i]].createdAt >= docs[ids[j]].createdAt
  }

  ghost predicate Distinct(ids: seq<DocId>) {
    forall i, j :: 0 <= i < j < |ids| ==> ids[i] != ids[j]
  }

  /** Inserting an identifier into a newest-first list at the first place its document is at least as recent. */
  function InsertByDate(ids: seq<DocId>, id: DocId, docs: map<DocId, KnowledgeDocument>): (r: seq<DocId>)
    requires id in docs && forall k :: 0 <= k < |ids| ==> ids[k] in docs
    ensures |r| == |ids| + 1
    ensures forall x :: x in r <==> x == id || x in ids
  {
    if |ids| == 0 then [id]
    else if docs[id].createdAt >= docs[ids[0]].createdAt then [id] + ids
    else
      var rest := InsertByDate(ids[1..], id, docs);
      assert forall x :: x in ids[1..] ==> x in ids;
      assert forall x :: x in ids ==> x == ids[0] || x in ids[1..];
      [ids[0]] + rest
  }

  /** Insertion keeps a newest-first list newest first. */
  lemma {:induction false} InsertKeepsOrder(ids: seq<DocId>, id: DocId, docs: map<DocId, KnowledgeDocument>)
    requires id in docs && forall k :: 0 <= k < |ids| ==> ids[k] in docs
    requires NewestFirst(ids, docs)
    ensures NewestFirst(InsertByDate(ids, id, docs), docs)
  {
    var r := InsertByDate(ids, id, docs);
    if |ids| > 0 {
      if docs[id].createdAt >= docs[ids[0]].createdAt {
        forall i, j | 0 <= i < j < |r|
          ensures docs[r[i]].createdAt >= docs[r[j]].createdAt
        {
          if i == 0 && j > 1 {
            assert docs[ids[0]].createdAt >= docs[ids[j - 1]].createdAt;
          }
        }
      } else {
        var rest := InsertByDate(ids[1..], id, docs);
        InsertKeepsOrder(ids[1..], id, docs);
        forall j | 0 <= j < |rest|
          ensures rest[j] in docs && docs[ids[0]].createdAt >= docs[rest[j]].createdAt
        {
          assert rest[j] in rest;
          if rest[j] != id {
            var k :| 0 <= k < |ids[1..]| && ids[1..][k] == rest[j];
            assert ids[k + 1] == rest[j];
          }
        }
        assert r == [ids[0]] + rest;
      }
    }
  }

  /** Inserting a new identifier keeps a list free of repeats. */
  lemma {:induction false} InsertKeepsDistinct(ids: seq<DocId>, id: DocId, docs: map<DocId, KnowledgeDocument>)
    requires id in docs && forall k :: 0 <= k < |ids| ==> ids[k] in docs
    requires Distinct(ids) && id !in ids
    ensures Distinct(InsertByDate(ids, id, docs))
  {
    if |ids| > 0 && docs[id].createdAt < docs[ids[0]].createdAt {
      var rest := InsertByDate(ids[1..], id, docs);
      assert ids[0] !in ids[1..];
      InsertKeepsDistinct(ids[1..], id, docs);
      assert InsertByDate(ids, id, docs) == [ids[0]] + rest;
    }
  }

  /**
   * The identifiers of the matching documents, each once, newest first.
   * Documents created at the same instant come in an unspecified order.
   */
  method MatchingIds(docs: map<DocId, KnowledgeDocument>, q: DocumentQuery) returns (ids: seq<DocId>)
    ensures forall k :: 0 <= k < |ids| ==> ids[k] in docs && Matches(docs[ids[k]], q)
    ensures forall id :: id in docs && Matches(docs[id], q) ==> id in ids
    ensures Distinct(ids) && NewestFirst(ids, docs)
  {
    var remaining := docs.Keys;
    ids := [];
    while remaining != {}
      invariant remaining <= docs.Keys
      invariant forall x :: x in ids ==> x in docs && x !in remaining && Matches(docs[x], q)
      invariant forall id :: id in docs && id !in remaining && Matches(docs[id], q) ==> id in ids
      invariant Distinct(ids) && NewestFirst(ids, docs)
      decreases |remaining|
    {
      var id :| id in remaining;
      if Matches(docs[id], q) {
        InsertKeepsOrder(ids, id, docs);
        InsertKeepsDistinct(ids, id, docs);
        ids := InsertByDate(ids, id, docs);
      }
      remaining := remaining - {id};
    }
  }

  /** `getDocuments`: the matching documents, newest first. */
  method List(w: World, q: DocumentQuery) returns (r: seq<KnowledgeDocument>)
    ensures forall k :: 0 <= k < |r| ==> r[k] in w.docs.Values && Matches(r[k], q)
    ensures forall id :: id in w.docs && Matches(w.docs[id], q) ==> w.docs[id] in r
    ensures forall i, j :: 0 <= i < j < |r| ==> r[i].createdAt >= r[j].createdAt
    ensures |r| == |set id | id in w.docs && Matches(w.docs[id], q)|
  {
    var ids := MatchingIds(w.docs, q);
    r := seq(|ids|, k requires 0 <= k < |ids| => w.docs[ids[k]]);
    forall id | id in w.docs && Matches(w.docs[id], q)
      ensures w.docs[id] in r
    {
      var k :| 0 <= k < |ids| && ids[k] == id;
      assert r[k] == w.docs[id];
    }
    DistinctCount(ids, set id | id in w.docs && Matches(w.docs[id], q));
  }

  /** A list of distinct elements is as long as the set of its elements. */
  lemma {:induction false} DistinctCount(ids: seq<DocId>, s: set<DocId>)
    requires Distinct(ids)
    requires forall x :: x in s <==> x in ids
    ensures |ids| == |s|
  {
    if |ids| > 0 {
      assert Distinct(ids[1..]);
      assert forall x :: x in s - {ids[0]} <==> x in ids[1..];
      DistinctCount(ids[1..], s - {ids[0]});
    } else {
      assert forall x :: x !in s;
    }
  }

  // ---------------------------------------------------------------------------
  // getDocumentById, deleteDocument, reindexDocument
  // ---------------------------------------------------------------------------

  /** `getDocumentById`: the document, or a `404` naming the identifier. */
  function GetById(w: World, id: DocId): (r: Result<KnowledgeDocument, ServiceError>)
    ensures id in w.docs <==> r.Success?
    ensures r.Success? ==> r.value == w.docs[id]
    ensures r.Failure? ==> r.error == NotFound(NotFoundMessage(id))
  {
    if id in w.docs then Success(w.docs[id]) else Failure(NotFound(NotFoundMessage(id)))
  }

  /** The document's points, whatever tenant they carry. */
  ghost predicate PointOf(c: Collection, pid: PointId, id: DocId) {
    pid in c && PayloadDocument(c[pid].payload) == Some(id)
  }

  /**
   * `deleteDocument`: after the existence check, the document's points are
   * deleted, then its records, then the document itself; the first call
   * that throws stops the sequence with what was already deleted gone.
   */
  function Delete(w: World, id: DocId, faults: Faults): (r: Outcome<()>)
    ensures id !in w.docs ==> r == Outcome(w, Failure(NotFound(NotFoundMessage(id))))
    ensures r.world.jobs == w.jobs && r.world.nextPoint == w.nextPoint
    ensures r.world.docs == w.docs || r.world.docs == w.docs - {id}
    ensures r.world.chunks == w.chunks || r.world.chunks == ChunksWithout(w.chunks, id)
    ensures r.world.points == w.points || r.world.points == DeleteByDocumentId(w.points, id)
    ensures r.result.Success? <==>
      id in w.docs && faults(DeletePoints).None? && faults(DeleteChunks).None? && faults(DeleteDocument).None?
    ensures r.result.Success? ==>
      r.world == w.(docs := w.docs - {id}, chunks := ChunksWithout(w.chunks, id), points := DeleteByDocumentId(w.points, id))
  {
    if id !in w.docs then Outcome(w, Failure(NotFound(NotFoundMessage(id))))
    else
      match faults(DeletePoints)
      case Some(e) => Outcome(w, Failure(Thrown(e)))
      case None =>
        var w1 := w.(points := DeleteByDocumentId(w.points, id));
        match faults(DeleteChunks)
        case Some(e) => Outcome(w1, Failure(Thrown(e)))
        case None =>
          var w2 := w1.(chunks := ChunksWithout(w.chunks, id));
          match faults(DeleteDocument)
          case Some(e) => Outcome(w2, Failure(Thrown(e)))
          case None => Outcome(w2.(docs := w.docs - {id}), Success(()))
  }

  /**
   * After a successful delete nothing of the document is left: no record,
   * no point naming it, whatever its tenant; every other document, record
   * and point is kept.
   */
  lemma DeleteRemovesEverything(w: World, id: DocId, faults: Faults, other: DocId, pid: PointId)
    requires Delete(w, id, faults).result.Success?
    ensures var w' := Delete(w, id, faults).world;
      && id !in w'.docs
      && ChunksOf(w'.chunks, id) == []
      && !PointOf(w'.points, pid, id)
      && (other != id ==> ChunksOf(w'.chunks, other) == ChunksOf(w.chunks, other))
      && (other != id && other in w.docs ==> other in w'.docs && w'.docs[other] == w.docs[other])
      && (pid in w.points && PayloadDocument(w.points[pid].payload) != Some(id) ==> pid in w'.points && w'.points[pid] == w.points[pid])
  {
    ChunksOfWithout(w.chunks, id);
    if other != id {
      ChunksWithoutKeepsOthers(w.chunks, id, other);
    }
  }

  /**
   * A delete whose record deletion throws has already removed the
   * document's points while the document and its records remain.
   */
  lemma DeleteStopsHalfway(w: World, id: DocId, faults: Faults, e: Error)
    requires id in w.docs && faults(DeletePoints).None? && faults(DeleteChunks) == Some(e)
    ensures Delete(w, id, faults) ==
      Outcome(w.(points := DeleteByDocumentId(w.points, id)), Failure(Thrown(e)))
  {
  }

  /** The job a reindex enqueues: the requested identifier with the document's tenant, category and title. */
  function ReindexJob(id: DocId, doc: KnowledgeDocument): (j: QueuedJob)
    ensures doc.id == id ==> j == IndexJobFor(doc)
  {
    QueuedJob(IndexDocumentJob, IndexingJobData(id, JobMetadata(doc.tenantSlug, doc.category, doc.title)))
  }

  /**
   * `reindexDocument`: after the existence check, the document's points are
   * deleted, the document is saved `pending`, and a job is enqueued. Its
   * records are left for the worker to replace, and its status is not
   * checked, so a document being indexed can be re-queued.
   */
  function Reindex(w: World, id: DocId, faults: Faults): (r: Outcome<()>)
    ensures id !in w.docs ==> r == Outcome(w, Failure(NotFound(NotFoundMessage(id))))
    ensures r.world.chunks == w.chunks && r.world.nextPoint == w.nextPoint && r.world.docs.Keys == w.docs.Keys
    ensures r.world.points == w.points || r.world.points == DeleteByDocumentId(w.points, id)
    ensures r.result.Success? <==>
      id in w.docs && faults(DeletePoints).None? && faults(SavePending).None? && faults(Enqueue).None?
    ensures r.result.Success? ==>
      r.world == w.(docs := w.docs[id := w.docs[id].(status := Pending)],
                    points := DeleteByDocumentId(w.points, id),
                    jobs := w.jobs + [ReindexJob(id, w.docs[id])])
  {
    if id !in w.docs then Outcome(w, Failure(NotFound(NotFoundMessage(id))))
    else
      var doc := w.docs[id];
      match faults(DeletePoints)
      case Some(e) => Outcome(w, Failure(Thrown(e)))
      case None =>
        var w1 := w.(points := DeleteByDocumentId(w.points, id));
        match faults(SavePending)
        case Some(e) => Outcome(w1, Failure(Thrown(e)))
        case None =>
          var w2 := w1.(docs := w.docs[id := doc.(status := Pending)]);
          match faults(Enqueue)
          case Some(e) => Outcome(w2, Failure(Thrown(e)))
          case None => Outcome(w2.(jobs := w.jobs + [ReindexJob(id, doc)]), Success(()))
  }

  /**
   * Between a successful reindex and the worker's run, the document's
   * records are still there while no point names the document any more:
   * each record's link dangles.
   */
  lemma ReindexLeavesRecords(w: World, id: DocId, faults: Faults, pid: PointId)
    requires Reindex(w, id, faults).result.Success?
    ensures var w' := Reindex(w, id, faults).world;
      && ChunksOf(w'.chunks, id) == ChunksOf(w.chunks, id)
      && !PointOf(w'.points, pid, id)
      && w'.docs[id].status == Pending
  {
  }
}
