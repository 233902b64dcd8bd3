/**
 * The indexing worker: one job takes a document from `pending` through
 * `indexing` to `indexed` or `failed`. It loads the text (stored, or
 * extracted from the file and saved back), segments it, replaces the
 * document's chunk records, and then, 15 chunks at a time, embeds the
 * batch, upserts one vector point per chunk and inserts one chunk record
 * per chunk linked to its point, reporting progress after every batch.
 */
module IndexingProcessor {
  import opened Wrappers
  import opened Json
  import opened Seqs
  import opened Schemas
  import opened QueueInterfaces
  import opened VectorDb
  import opened Store
  import Extraction
  import Embedder
  import Chunking

  /** Chunks per embed/upsert/insert round. */
  const BatchSize: nat := 15

  const NoContentMessage: string := "Document has no content or file"

  /** The error the chunk collection raises when a record misses a required field. */
  const ChunkValidationMessage: string := "KnowledgeChunk validation failed"

  function NotFoundMessage(documentId: DocId): string {
    "Document " + documentId + " not found"
  }

  /** The worker's collaborators: file readers, the embedding provider, the fault sites and the clock. */
  datatype Collaborators = Collaborators(
    read: Extraction.Reader,
    embed: seq<string> -> Result<seq<Embedder.Vector>, Error>,
    faults: Faults,
    now: Time)

  /** What one job leaves behind: the stores, the progress reported, and the error it ends with. */
  datatype Run = Run(world: World, events: seq<IndexingProgress>, error: Option<Error>)

  /** JavaScript truthiness of an optional string. */
  predicate Given(s: Option<string>) {
    s.Some? && s.value != []
  }

  /** Where the text to index comes from. */
  datatype Source = Stored(text: string) | Extracted(text: string)

  /**
   * The content rule: the stored content when non-empty; otherwise the text
   * extracted from the file when both its path and type are given;
   * otherwise an error.
   */
  function ContentSource(doc: KnowledgeDocument, read: Extraction.Reader): (r: Result<Source, Error>)
    ensures Given(doc.content) ==> r == Success(Stored(doc.content.value))
    ensures !Given(doc.content) && !(Given(doc.filePath) && Given(doc.fileType)) ==>
      r == Failure(Error(NoContentMessage))
    ensures !Given(doc.content) && Given(doc.filePath) && Given(doc.fileType) ==>
      match Extraction.ExtractText(doc.filePath.value, doc.fileType.value, read)
      case Success(t) => r == Success(Extracted(t))
      case Failure(e) => r == Failure(e)
  {
    if Given(doc.content) then Success(Stored(doc.content.value))
    else if Given(doc.filePath) && Given(doc.fileType) then
      match Extraction.ExtractText(doc.filePath.value, doc.fileType.value, read)
      case Success(t) => Success(Extracted(t))
      case Failure(e) => Failure(e)
    else Failure(Error(NoContentMessage))
  }

  /** `floor(processed / total * 100)`, over exact numbers. */
  function Percent(processed: nat, total: nat): nat
    requires 0 < total
  {
    (100 * processed) / total
  }

  /** Multiplying by the same factor keeps the order. */
  lemma MulMono(x: nat, y: nat, t: nat)
    requires x <= y
    ensures x * t <= y * t
  {
  }

  /** A larger factor adds at least one more multiple. */
  lemma MulStep(x: nat, y: nat, t: nat)
    ensures x < y ==> x * t + t <= y * t
  {
    if x < y {
      MulMono(x + 1, y, t);
      MulSucc(x, t);
    }
  }

  /** The percentage lies in 0..100 and is 100 exactly when every chunk is processed. */
  lemma PercentBounds(processed: nat, total: nat)
    requires 0 < total && processed <= total
    ensures Percent(processed, total) <= 100
    ensures Percent(processed, total) == 100 <==> processed == total
  {
    var q, m := (100 * processed) / total, (100 * processed) % total;
    assert q * total + m == 100 * processed && 0 <= m < total;
    if q > 100 {
      MulMono(101, q, total);
    }
    if processed == total && q < 100 {
      MulMono(q, 99, total);
    }
  }

  /** Percentages never fall as more chunks are processed. */
  lemma PercentMonotone(a: nat, b: nat, total: nat)
    requires 0 < total && a <= b
    ensures Percent(a, total) <= Percent(b, total)
  {
    DivMono(100 * a, 100 * b, total);
  }

  /** Division by a positive number keeps the order. */
  lemma DivMono(x: nat, y: nat, t: nat)
    requires 0 < t && x <= y
    ensures x / t <= y / t
  {
    var qx, qy := x / t, y / t;
    assert qx * t <= x;
    assert y < qy * t + t;
    MulStep(qy, qx, t);
  }

  /** The report after a batch: the chunks processed so far out of the total. */
  function BatchReport(processed: nat, total: nat): (ev: IndexingProgress)
    requires 0 < total && processed <= total
    ensures ProgressWellFormed(ev) && ev.stage == Embedding
    ensures ev.totalChunks == total && ev.chunksProcessed == processed
    ensures ev.progress == 100 <==> processed == total
  {
    PercentBounds(processed, total);
    IndexingProgress(Embedding, total, processed, Percent(processed, total))
  }

  /** The payload of a chunk's point: the job's denormalised document fields, the text and its index. */
  function Payload(job: IndexingJobData, c: Chunking.ChunkResult): (p: map<string, Json>)
    ensures PayloadDocument(p) == Some(job.documentId)
    ensures "content" in p && p["content"] == JStr(c.content)
    ensures "tenantSlug" in p && p["tenantSlug"] == JStr(job.metadata.tenantSlug)
    ensures "category" in p && p["category"] == JStr(CategoryName(job.metadata.category))
    ensures "documentTitle" in p && p["documentTitle"] == JStr(job.metadata.title)
    ensures "chunkIndex" in p && p["chunkIndex"] == JNum(c.chunkIndex as real)
  {
    map[
      "tenantSlug" := JStr(job.metadata.tenantSlug),
      "documentId" := JStr(job.documentId),
      "category" := JStr(CategoryName(job.metadata.category)),
      "documentTitle" := JStr(job.metadata.title),
      "content" := JStr(c.content),
      "chunkIndex" := JNum(c.chunkIndex as real)]
  }

  /** `embeddings[idx]`, which is undefined (modelled as no coordinates) past the end. */
  function VectorAt(embeddings: seq<Embedder.Vector>, idx: nat): Embedder.Vector {
    if idx < |embeddings| then embeddings[idx] else []
  }

  /** One point per chunk of the batch, with consecutive fresh ids from `next`. */
  function BatchPoints(job: IndexingJobData, b: seq<Chunking.ChunkResult>, embeddings: seq<Embedder.Vector>, next: nat): (r: seq<Point>)
    ensures |r| == |b|
    ensures forall idx :: 0 <= idx < |b| ==>
      r[idx] == Point(PointId(next + idx), VectorAt(embeddings, idx), Payload(job, b[idx]))
  {
    seq(|b|, idx requires 0 <= idx < |b| => Point(PointId(next + idx), VectorAt(embeddings, idx), Payload(job, b[idx])))
  }

  /** The chunk record of a chunk, linked to the point stored for it. */
  function ChunkRecord(job: IndexingJobData, c: Chunking.ChunkResult, id: PointId, now: Time): KnowledgeChunk {
    KnowledgeChunk(
      job.metadata.tenantSlug, job.documentId, c.chunkIndex, c.content, Some(id),
      ChunkMetadata(c.chunkType, Some(job.metadata.category), Some(job.metadata.title)),
      Some(now))
  }

  /** The records of consecutive chunks whose points have consecutive serials from `next`. */
  function Records(job: IndexingJobData, cs: seq<Chunking.ChunkResult>, next: nat, now: Time): (r: seq<KnowledgeChunk>)
    ensures |r| == |cs|
    ensures forall idx :: 0 <= idx < |cs| ==> r[idx] == ChunkRecord(job, cs[idx], PointId(next + idx), now)
  {
    seq(|cs|, idx requires 0 <= idx < |cs| => ChunkRecord(job, cs[idx], PointId(next + idx), now))
  }

  lemma RecordsAppend(job: IndexingJobData, a: seq<Chunking.ChunkResult>, b: seq<Chunking.ChunkResult>,
                      ab: seq<Chunking.ChunkResult>, next: nat, mid: nat, now: Time)
    requires ab == a + b && mid == next + |a|
    ensures Records(job, ab, next, now) == Records(job, a, next, now) + Records(job, b, mid, now)
  {
    var l, r := Records(job, ab, next, now), Records(job, a, next, now) + Records(job, b, mid, now);
    forall idx | 0 <= idx < |l|
      ensures l[idx] == r[idx]
    {
      if idx >= |a| {
        assert ab[idx] == b[idx - |a|];
      }
    }
  }

  /** Mongoose validates every record of an `insertMany` before writing any. */
  predicate AllValid(records: seq<KnowledgeChunk>) {
    forall k :: 0 <= k < |records| ==> ChunkRecordValid(records[k])
  }

  function Contents(b: seq<Chunking.ChunkResult>): (r: seq<string>)
    ensures |r| == |b| && forall k :: 0 <= k < |b| ==> r[k] == b[k].content
  {
    seq(|b|, k requires 0 <= k < |b| => b[k].content)
  }

  /** The batch loop's state: the stores, the reports made, the batches taken, and the error if one was thrown. */
  datatype BatchState = BatchState(
    world: World,
    events: seq<IndexingProgress>,
    batches: seq<seq<Chunking.ChunkResult>>,
    error: Option<Error>)

  /** The points a step keeps: every point whose serial is below `next` stays as it was. */
  ghost predicate KeepsBelow(before: Collection, after: Collection, next: nat) {
    forall id :: id in before && id.serial < next ==> id in after && after[id] == before[id]
  }

  /** The collection holds, under consecutive serials from `next`, one point per chunk with that chunk's payload. */
  ghost predicate PointsStored(points: Collection, job: IndexingJobData, cs: seq<Chunking.ChunkResult>, next: nat) {
    forall idx :: 0 <= idx < |cs| ==> StoredAt(points, job, cs, next, idx)
  }

  /** The point for the chunk at position `idx` is stored under serial `next + idx` with that chunk's payload. */
  ghost predicate StoredAt(points: Collection, job: IndexingJobData, cs: seq<Chunking.ChunkResult>, next: nat, idx: nat)
    requires idx < |cs|
  {
    PointId(next + idx) in points && points[PointId(next + idx)].payload == Payload(job, cs[idx])
  }

  /** Points stored for a first run of chunks survive a later store that keeps everything below its serials. */
  lemma PointsStoredJoin(p1: Collection, p2: Collection, job: IndexingJobData,
                         a: seq<Chunking.ChunkResult>, b: seq<Chunking.ChunkResult>, next: nat)
    requires PointsStored(p1, job, a, next)
    requires KeepsBelow(p1, p2, next + |a|)
    requires PointsStored(p2, job, b, next + |a|)
    ensures PointsStored(p2, job, a + b, next)
  {
    forall idx | 0 <= idx < |a + b|
      ensures StoredAt(p2, job, a + b, next, idx)
    {
      var id := PointId(next + idx);
      if idx < |a| {
        assert StoredAt(p1, job, a, next, idx);
        assert id.serial < next + |a|;
        assert (a + b)[idx] == a[idx];
      } else {
        var k := idx - |a|;
        assert StoredAt(p2, job, b, next + |a|, k);
        assert (a + b)[idx] == b[k];
      }
    }
  }

  /** The points of a batch carry consecutive serials from `next`. */
  ghost predicate SerialsFrom(points: seq<Point>, next: nat) {
    forall idx :: 0 <= idx < |points| ==> points[idx].id == PointId(next + idx)
  }

  /**
   * Upserting points with fresh consecutive serials keeps every point below
   * them and stores each of them as given.
   */
  lemma UpsertFresh(c: Collection, points: seq<Point>, next: nat)
    requires SerialsFrom(points, next)
    ensures KeepsBelow(c, Upsert(c, points), next)
    ensures forall idx :: 0 <= idx < |points| ==>
      points[idx].id in Upsert(c, points) && Upsert(c, points)[points[idx].id] == points[idx]
  {
    forall idx | 0 <= idx < |points|
      ensures points[idx].id in Upsert(c, points) && Upsert(c, points)[points[idx].id] == points[idx]
    {
      UpsertLastWins(c, points, idx);
    }
    forall id | id in c && id.serial < next
      ensures id !in Ids(points)
    {
    }
  }

  /** Upserting a batch's points keeps every earlier point and stores each chunk's payload under its serial. */
  lemma BatchPointsStored(c: Collection, job: IndexingJobData, b: seq<Chunking.ChunkResult>,
                          embeddings: seq<Embedder.Vector>, next: nat)
    ensures KeepsBelow(c, Upsert(c, BatchPoints(job, b, embeddings, next)), next)
    ensures PointsStored(Upsert(c, BatchPoints(job, b, embeddings, next)), job, b, next)
  {
    var points := BatchPoints(job, b, embeddings, next);
    UpsertFresh(c, points, next);
    forall idx | 0 <= idx < |b|
      ensures StoredAt(Upsert(c, points), job, b, next, idx)
    {
      assert points[idx].id == PointId(next + idx);
      assert points[idx].payload == Payload(job, b[idx]);
    }
  }

  /**
   * The store half of a round, once the batch is embedded: upsert the
   * points under fresh serials, then insert the records and report.
   */
  function StoreBatch(st: BatchState, job: IndexingJobData, b: seq<Chunking.ChunkResult>, i: nat, n: nat,
                      embeddings: seq<Embedder.Vector>, coll: Collaborators): (r: BatchState)
    requires st.error.None? && 0 < n
    ensures r.batches == st.batches
    ensures r.world.docs == st.world.docs && r.world.jobs == st.world.jobs
    ensures r.world.nextPoint >= st.world.nextPoint
    ensures r.error.Some? ==> r.events == st.events
    ensures r.error.None? ==>
      && r.events == st.events + [BatchReport(Min(i + |b|, n), n)]
      && r.world.nextPoint == st.world.nextPoint + |b|
  {
    var w := st.world;
    match coll.faults(UpsertPoints(i))
    case Some(e) => st.(error := Some(e))
    case None =>
      var w1 := w.(points := Upsert(w.points, BatchPoints(job, b, embeddings, w.nextPoint)), nextPoint := w.nextPoint + |b|);
      InsertBatch(st.(world := w1), job, b, i, n, w.nextPoint, coll)
  }

  /**
   * The rest of a round once the points are stored: validate the records
   * numbered from `first`, insert them, report progress. Only the records
   * and the reports change.
   */
  function InsertBatch(st: BatchState, job: IndexingJobData, b: seq<Chunking.ChunkResult>, i: nat, n: nat,
                       first: nat, coll: Collaborators): (r: BatchState)
    requires st.error.None? && 0 < n
    ensures r.batches == st.batches
    ensures r.world.docs == st.world.docs && r.world.jobs == st.world.jobs
    ensures r.world.points == st.world.points && r.world.nextPoint == st.world.nextPoint
    ensures r.world.chunks == st.world.chunks || r.world.chunks == st.world.chunks + Records(job, b, first, coll.now)
    ensures r.error.Some? ==> r.events == st.events
    ensures r.error.None? ==>
      && r.events == st.events + [BatchReport(Min(i + |b|, n), n)]
      && r.world.chunks == st.world.chunks + Records(job, b, first, coll.now)
  {
    var records := Records(job, b, first, coll.now);
    if !AllValid(records) then st.(error := Some(Error(ChunkValidationMessage)))
    else
      match coll.faults(InsertChunks(i))
      case Some(e) => st.(error := Some(e))
      case None =>
        var st2 := st.(world := st.world.(chunks := st.world.chunks + records));
        match coll.faults(ReportProgress(|st.events|))
        case Some(e) => st2.(error := Some(e))
        case None => st2.(events := st.events + [BatchReport(Min(i + |b|, n), n)])
  }

  /**
   * What the store half of a round does to the store: earlier points stay,
   * only records of the job's document are appended, and without error the
   * batch's records are appended and its points stored.
   */
  lemma StoreBatchStores(st: BatchState, job: IndexingJobData, b: seq<Chunking.ChunkResult>, i: nat, n: nat,
                         embeddings: seq<Embedder.Vector>, coll: Collaborators)
    requires st.error.None? && 0 < n
    ensures var r := StoreBatch(st, job, b, i, n, embeddings, coll);
      && KeepsBelow(st.world.points, r.world.points, st.world.nextPoint)
      && AppendsOnly(st.world.chunks, r.world.chunks, job.documentId)
      && (r.error.None? ==>
        && r.world.chunks == st.world.chunks + Records(job, b, st.world.nextPoint, coll.now)
        && PointsStored(r.world.points, job, b, st.world.nextPoint))
  {
    StoreBatchPoints(st, job, b, i, n, embeddings, coll);
    StoreBatchChunks(st, job, b, i, n, embeddings, coll);
  }

  /** The points after the store half of a round: the earlier ones, plus the batch's when the upsert went through. */
  lemma StoreBatchPoints(st: BatchState, job: IndexingJobData, b: seq<Chunking.ChunkResult>, i: nat, n: nat,
                         embeddings: seq<Embedder.Vector>, coll: Collaborators)
    requires st.error.None? && 0 < n
    ensures var r := StoreBatch(st, job, b, i, n, embeddings, coll);
      && KeepsBelow(st.world.points, r.world.points, st.world.nextPoint)
      && (r.error.None? ==> PointsStored(r.world.points, job, b, st.world.nextPoint))
  {
    var w := st.world;
    match coll.faults(UpsertPoints(i))
    case Some(e) =>
    case None =>
      BatchPointsStored(w.points, job, b, embeddings, w.nextPoint);
  }

  /** The records after the store half of a round: the earlier ones, plus the batch's when the insert went through. */
  lemma StoreBatchChunks(st: BatchState, job: IndexingJobData, b: seq<Chunking.ChunkResult>, i: nat, n: nat,
                         embeddings: seq<Embedder.Vector>, coll: Collaborators)
    requires st.error.None? && 0 < n
    ensures var r := StoreBatch(st, job, b, i, n, embeddings, coll);
      && AppendsOnly(st.world.chunks, r.world.chunks, job.documentId)
      && (r.error.None? ==> r.world.chunks == st.world.chunks + Records(job, b, st.world.nextPoint, coll.now))
  {
    var r := StoreBatch(st, job, b, i, n, embeddings, coll);
    var w := st.world;
    var records := Records(job, b, w.nextPoint, coll.now);
    assert r.world.chunks == w.chunks || r.world.chunks == w.chunks + records;
    assert (w.chunks + records)[..|w.chunks|] == w.chunks;
  }

  /**
   * One round of the loop at offset `i`: the slice up to `min(i + 15, n)`
   * is embedded, its points upserted, its records inserted, and the
   * progress reported; the first call that throws ends the round.
   */
  function Step(st: BatchState, job: IndexingJobData, chunks: seq<Chunking.ChunkResult>, i: nat, coll: Collaborators): (r: BatchState)
    requires st.error.None? && i < |chunks|
    ensures r.world.docs == st.world.docs && r.world.jobs == st.world.jobs
    ensures r.world.nextPoint >= st.world.nextPoint
    ensures r.error.Some? ==> r.events == st.events
    ensures r.error.None? ==>
      && r.events == st.events + [BatchReport(Min(i + BatchSize, |chunks|), |chunks|)]
      && r.world.nextPoint == st.world.nextPoint + (Min(i + BatchSize, |chunks|) - i)
  {
    var end := Min(i + BatchSize, |chunks|);
    var b := chunks[i..end];
    assert i + |b| == end && Min(i + |b|, |chunks|) == end;
    var taken := st.(batches := st.batches + [b]);
    match Embedder.EmbedBatch(Contents(b), coll.embed).result
    case Failure(e) => taken.(error := Some(e))
    case Success(embeddings) =>
      StoreBatch(taken, job, b, i, |chunks|, embeddings, coll)
  }

  /**
   * What one round does to the store: earlier points stay, only records of
   * the job's document are appended, and a round without error appends the
   * slice's records and stores its points.
   */
  lemma StepStores(st: BatchState, job: IndexingJobData, chunks: seq<Chunking.ChunkResult>, i: nat, coll: Collaborators)
    requires st.error.None? && i < |chunks|
    ensures var r := Step(st, job, chunks, i, coll);
      && KeepsBelow(st.world.points, r.world.points, st.world.nextPoint)
      && AppendsOnly(st.world.chunks, r.world.chunks, job.documentId)
      && (r.error.None? ==>
        && r.world.chunks == st.world.chunks + Records(job, chunks[i..Min(i + BatchSize, |chunks|)], st.world.nextPoint, coll.now)
        && PointsStored(r.world.points, job, chunks[i..Min(i + BatchSize, |chunks|)], st.world.nextPoint))
  {
    var end := Min(i + BatchSize, |chunks|);
    var b := chunks[i..end];
    assert i + |b| == end && Min(i + |b|, |chunks|) == end;
    var taken := st.(batches := st.batches + [b]);
    match Embedder.EmbedBatch(Contents(b), coll.embed).result
    case Failure(e) =>
      assert taken.world.chunks[..|st.world.chunks|] == st.world.chunks;
    case Success(embeddings) =>
      StoreBatchStores(taken, job, b, i, |chunks|, embeddings, coll);
  }

  /** A round takes the slice from `i` up to `min(i + 15, n)`, whatever comes of it. */
  lemma StepTakes(st: BatchState, job: IndexingJobData, chunks: seq<Chunking.ChunkResult>, i: nat, coll: Collaborators)
    requires st.error.None? && i < |chunks|
    ensures Step(st, job, chunks, i, coll).batches == st.batches + [chunks[i..Min(i + BatchSize, |chunks|)]]
  {
  }

  /** The loop `for (i = 0; i < n; i += 15)`, from offset `i`, stopping at the first error. */
  function RunFrom(st: BatchState, job: IndexingJobData, chunks: seq<Chunking.ChunkResult>, i: nat, coll: Collaborators): BatchState
    decreases |chunks| - i
  {
    if i >= |chunks| || st.error.Some? then st
    else RunFrom(Step(st, job, chunks, i, coll), job, chunks, i + BatchSize, coll)
  }

  /** The batch loop as the worker runs it, one slice at a time. */
  method IndexBatches(st0: BatchState, job: IndexingJobData, chunks: seq<Chunking.ChunkResult>, coll: Collaborators)
    returns (st: BatchState)
    ensures st == RunFrom(st0, job, chunks, 0, coll)
    ensures st0.error.None? && st.error.None? ==> st.batches == st0.batches + Batches(chunks, BatchSize)
  {
    st := st0;
    var i := 0;
    while i < |chunks| && st.error.None?
      invariant RunFrom(st, job, chunks, i, coll) == RunFrom(st0, job, chunks, 0, coll)
      decreases |chunks| - i
    {
      st := Step(st, job, chunks, i, coll);
      i := i + BatchSize;
    }
    if st0.error.None? && st.error.None? {
      assert chunks[0..] == chunks;
      RunFromBatches(st0, job, chunks, 0, coll, st);
    }
  }

  /** The reports of one round, on states, in the shape the loop lemmas need. */
  lemma EventsStep(st: BatchState, st1: BatchState, r: BatchState, i: nat, n: nat)
    requires 0 < n
    requires st1.error.Some? ==> st1.events == st.events && r == st1
    requires st1.error.None? ==> st1.events == st.events + [BatchReport(Min(i + BatchSize, n), n)]
    requires |st1.events| <= |r.events| && r.events[..|st1.events|] == st1.events
    requires forall k :: |st1.events| <= k < |r.events| && 0 < n ==>
      r.events[k] == BatchReport(Min(i + BatchSize + BatchSize * (k - |st1.events| + 1), n), n)
    ensures |st.events| <= |r.events| && r.events[..|st.events|] == st.events
    ensures forall k :: |st.events| <= k < |r.events| && 0 < n ==>
      r.events[k] == BatchReport(Min(i + BatchSize * (k - |st.events| + 1), n), n)
  {
    ReportsStep(st.events, st1.events, r.events, i, n);
  }

  /** A loop whose state already holds an error does nothing. */
  lemma RunFromStops(st: BatchState, job: IndexingJobData, chunks: seq<Chunking.ChunkResult>, i: nat, coll: Collaborators)
    requires st.error.Some?
    ensures RunFrom(st, job, chunks, i, coll) == st
  {
  }

  /** The reports of one round followed by those of the rounds after it follow the same pattern from the earlier offset. */
  lemma ReportsStep(e0: seq<IndexingProgress>, e1: seq<IndexingProgress>, e2: seq<IndexingProgress>, i: nat, n: nat)
    requires 0 < n
    requires e1 == e0 || e1 == e0 + [BatchReport(Min(i + BatchSize, n), n)]
    requires e1 == e0 ==> e2 == e1
    requires |e1| <= |e2| && e2[..|e1|] == e1
    requires forall k :: |e1| <= k < |e2| ==> e2[k] == BatchReport(Min(i + BatchSize + BatchSize * (k - |e1| + 1), n), n)
    ensures |e0| <= |e2| && e2[..|e0|] == e0
    ensures forall k :: |e0| <= k < |e2| ==> e2[k] == BatchReport(Min(i + BatchSize * (k - |e0| + 1), n), n)
  {
    assert e2[..|e0|] == e1[..|e0|];
    if e1 != e0 {
      assert e2[|e0|] == e1[|e0|];
    }
  }

  /**
   * Whatever happens, the loop leaves the documents and jobs alone, keeps
   * every point it did not create, and reports, after its k-th round from
   * offset `i`, `min(i + 15k, n)` chunks processed.
   */
  lemma RunFromKeeps(st: BatchState, job: IndexingJobData, chunks: seq<Chunking.ChunkResult>, i: nat,
                     coll: Collaborators, r: BatchState)
    requires r == RunFrom(st, job, chunks, i, coll)
    ensures r.world.docs == st.world.docs && r.world.jobs == st.world.jobs
    ensures r.world.nextPoint >= st.world.nextPoint
    ensures KeepsBelow(st.world.points, r.world.points, st.world.nextPoint)
    ensures |st.events| <= |r.events| && r.events[..|st.events|] == st.events
    ensures forall k :: |st.events| <= k < |r.events| && 0 < |chunks| ==>
      r.events[k] == BatchReport(Min(i + BatchSize * (k - |st.events| + 1), |chunks|), |chunks|)
  {
    RunFromKeepsWorld(st, job, chunks, i, coll, r);
    RunFromEvents(st, job, chunks, i, coll, r);
  }

  /** The loop touches neither the documents nor the queue, and only adds points above the next serial. */
  lemma {:induction false} RunFromKeepsWorld(st: BatchState, job: IndexingJobData, chunks: seq<Chunking.ChunkResult>, i: nat,
                                             coll: Collaborators, r: BatchState)
    requires r == RunFrom(st, job, chunks, i, coll)
    decreases |chunks| - i
    ensures r.world.docs == st.world.docs && r.world.jobs == st.world.jobs
    ensures r.world.nextPoint >= st.world.nextPoint
    ensures KeepsBelow(st.world.points, r.world.points, st.world.nextPoint)
  {
    if i < |chunks| && st.error.None? {
      var st1 := Step(st, job, chunks, i, coll);
      StepStores(st, job, chunks, i, coll);
      RunFromUnroll(st, job, chunks, i, coll);
      RunFromKeepsWorld(st1, job, chunks, i + BatchSize, coll, r);
    }
  }

  /** The loop appends one progress report per stored batch to the events it was given. */
  lemma {:induction false} RunFromEvents(st: BatchState, job: IndexingJobData, chunks: seq<Chunking.ChunkResult>, i: nat,
                                         coll: Collaborators, r: BatchState)
    requires r == RunFrom(st, job, chunks, i, coll)
    decreases |chunks| - i
    ensures |st.events| <= |r.events| && r.events[..|st.events|] == st.events
    ensures forall k :: |st.events| <= k < |r.events| && 0 < |chunks| ==>
      r.events[k] == BatchReport(Min(i + BatchSize * (k - |st.events| + 1), |chunks|), |chunks|)
  {
    if i < |chunks| && st.error.None? {
      var st1 := Step(st, job, chunks, i, coll);
      RunFromUnroll(st, job, chunks, i, coll);
      RunFromEvents(st1, job, chunks, i + BatchSize, coll, r);
      if st1.error.Some? {
        RunFromStops(st1, job, chunks, i + BatchSize, coll);
      }
      EventsStep(st, st1, r, i, |chunks|);
    }
  }

  lemma RunFromUnroll(st: BatchState, job: IndexingJobData, chunks: seq<Chunking.ChunkResult>, i: nat, coll: Collaborators)
    requires st.error.None? && i < |chunks|
    ensures RunFrom(st, job, chunks, i, coll) == RunFrom(Step(st, job, chunks, i, coll), job, chunks, i + BatchSize, coll)
  {
  }

  /**
   * A loop that ends without error from offset `i` has taken exactly the
   * batches of 15 of the remaining chunks, reported once per batch, and
   * handed out one point serial per chunk.
   */
  lemma {:induction false} RunFromBatches(st: BatchState, job: IndexingJobData, chunks: seq<Chunking.ChunkResult>, i: nat,
                                          coll: Collaborators, r: BatchState)
    requires r == RunFrom(st, job, chunks, i, coll)
    requires st.error.None? && r.error.None? && i <= |chunks|
    decreases |chunks| - i
    ensures r.world.nextPoint == st.world.nextPoint + (|chunks| - i)
    ensures r.batches == st.batches + Batches(chunks[i..], BatchSize)
    ensures |r.events| == |st.events| + |Batches(chunks[i..], BatchSize)|
  {
    if i < |chunks| {
      var st1 := Step(st, job, chunks, i, coll);
      var end := Min(i + BatchSize, |chunks|);
      StepTakes(st, job, chunks, i, coll);
      RunFromUnroll(st, job, chunks, i, coll);
      BatchesStep(chunks, BatchSize, i);
      if i + BatchSize < |chunks| {
        RunFromBatches(st1, job, chunks, i + BatchSize, coll, r);
      } else {
        assert chunks[end..] == [];
        assert r == st1;
      }
      AppendStep(st.batches, st1.batches, r.batches, [chunks[i..end]], Batches(chunks[end..], BatchSize),
                 Batches(chunks[i..], BatchSize));
    }
  }

  /** Records for a first slice followed by records for the rest are the records for both. */
  lemma RecordsStep(before: seq<KnowledgeChunk>, mid: seq<KnowledgeChunk>, after: seq<KnowledgeChunk>, job: IndexingJobData,
                    chunks: seq<Chunking.ChunkResult>, i: nat, end: nat, n0: nat, n1: nat, now: Time)
    requires i <= end <= |chunks| && n1 == n0 + (end - i)
    requires mid == before + Records(job, chunks[i..end], n0, now)
    requires after == mid + Records(job, chunks[end..], n1, now)
    ensures after == before + Records(job, chunks[i..], n0, now)
  {
    var head, tail := chunks[i..end], chunks[end..];
    var r1, r2 := Records(job, head, n0, now), Records(job, tail, n1, now);
    SliceSplit(chunks, i, end);
    RecordsAppend(job, head, tail, chunks[i..], n0, n1, now);
    AppendStep(before, mid, after, r1, r2, Records(job, chunks[i..], n0, now));
  }

  /** Points stored for a first slice and kept while the rest are stored are the points for both. */
  lemma PointsStep(p1: Collection, p2: Collection, job: IndexingJobData,
                   chunks: seq<Chunking.ChunkResult>, i: nat, end: nat, n0: nat, n1: nat)
    requires i <= end <= |chunks| && n1 == n0 + (end - i)
    requires PointsStored(p1, job, chunks[i..end], n0)
    requires KeepsBelow(p1, p2, n1)
    requires PointsStored(p2, job, chunks[end..], n1)
    ensures PointsStored(p2, job, chunks[i..], n0)
  {
    SliceSplit(chunks, i, end);
    PointsStoredJoin(p1, p2, job, chunks[i..end], chunks[end..], n0);
  }

  /** A loop that ends without error stores one record per remaining chunk, linked to consecutive serials. */
  lemma {:induction false} RunFromRecords(st: BatchState, job: IndexingJobData, chunks: seq<Chunking.ChunkResult>, i: nat,
                                          coll: Collaborators, r: BatchState)
    requires r == RunFrom(st, job, chunks, i, coll)
    requires st.error.None? && r.error.None? && i <= |chunks|
    decreases |chunks| - i
    ensures r.world.chunks == st.world.chunks + Records(job, chunks[i..], st.world.nextPoint, coll.now)
  {
    if i == |chunks| {
      assert chunks[i..] == [];
    } else {
      var st1 := Step(st, job, chunks, i, coll);
      var end := Min(i + BatchSize, |chunks|);
      StepStores(st, job, chunks, i, coll);
      RunFromUnroll(st, job, chunks, i, coll);
      if end < |chunks| {
        RunFromRecords(st1, job, chunks, end, coll, r);
      } else {
        assert chunks[end..] == [];
      }
      RecordsStep(st.world.chunks, st1.world.chunks, r.world.chunks, job, chunks, i, end,
                  st.world.nextPoint, st1.world.nextPoint, coll.now);
    }
  }

  /** A loop that ends without error stores each remaining chunk's point, with its payload, under consecutive serials. */
  lemma {:induction false} RunFromPoints(st: BatchState, job: IndexingJobData, chunks: seq<Chunking.ChunkResult>, i: nat,
                                         coll: Collaborators, r: BatchState)
    requires r == RunFrom(st, job, chunks, i, coll)
    requires st.error.None? && r.error.None? && i <= |chunks|
    decreases |chunks| - i
    ensures PointsStored(r.world.points, job, chunks[i..], st.world.nextPoint)
  {
    if i < |chunks| {
      var st1 := Step(st, job, chunks, i, coll);
      var end := Min(i + BatchSize, |chunks|);
      StepStores(st, job, chunks, i, coll);
      RunFromUnroll(st, job, chunks, i, coll);
      if end < |chunks| {
        RunFromPoints(st1, job, chunks, end, coll, r);
        RunFromKeeps(st1, job, chunks, end, coll, r);
      } else {
        assert chunks[end..] == [];
      }
      PointsStep(st1.world.points, r.world.points, job, chunks, i, end, st.world.nextPoint, st1.world.nextPoint);
    }
  }

  /** Whatever happens, the loop only appends records of the job's document. */
  lemma {:induction false} RunFromChunks(st: BatchState, job: IndexingJobData, chunks: seq<Chunking.ChunkResult>, i: nat,
                                         coll: Collaborators, r: BatchState)
    requires r == RunFrom(st, job, chunks, i, coll)
    decreases |chunks| - i
    ensures AppendsOnly(st.world.chunks, r.world.chunks, job.documentId)
  {
    if i < |chunks| && st.error.None? {
      var st1 := Step(st, job, chunks, i, coll);
      StepStores(st, job, chunks, i, coll);
      RunFromUnroll(st, job, chunks, i, coll);
      RunFromChunks(st1, job, chunks, i + BatchSize, coll, r);
      AppendsOnlyTrans(st.world.chunks, st1.world.chunks, r.world.chunks, job.documentId);
    } else {
      assert r.world.chunks[..|st.world.chunks|] == st.world.chunks;
    }
  }

  // ---------------------------------------------------------------------------
  // The job from start to end
  // ---------------------------------------------------------------------------

  /** The first report: the text is segmented and nothing is processed yet. */
  function ChunkingReport(total: nat): (ev: IndexingProgress)
    ensures ProgressWellFormed(ev) && ev.stage == Chunking
  {
    IndexingProgress(Chunking, total, 0, 0)
  }

  /** The last report: every chunk processed. */
  function CompletedReport(total: nat): (ev: IndexingProgress)
    ensures ProgressWellFormed(ev) && ev.stage == Completed
  {
    IndexingProgress(Completed, total, total, 100)
  }

  /**
   * Loading the text: the stored content, or the file's text, which is then
   * saved back on the document so that a retry does not extract it again.
   * Either way the document ends up holding the text as its content.
   */
  function LoadText(doc: KnowledgeDocument, coll: Collaborators): (r: Result<string, Error>)
    ensures ContentSource(doc, coll.read).Failure? ==> r == Failure(ContentSource(doc, coll.read).error)
    ensures r.Success? ==> ContentSource(doc, coll.read).Success? && r.value == ContentSource(doc, coll.read).value.text
    ensures ContentSource(doc, coll.read).Success? && ContentSource(doc, coll.read).value.Stored? ==>
      r.Success? && doc.content == Some(r.value)
    ensures ContentSource(doc, coll.read).Success? && ContentSource(doc, coll.read).value.Extracted? ==>
      (r.Failure? <==> coll.faults(SaveContent).Some?)
  {
    match ContentSource(doc, coll.read)
    case Failure(e) => Failure(e)
    case Success(Stored(text)) => Success(text)
    case Success(Extracted(text)) =>
      match coll.faults(SaveContent)
      case Some(e) => Failure(e)
      case None => Success(text)
  }

  /** The chunks a job makes of a text, with the segmenter's default options. */
  function Segments(text: string): (r: seq<Chunking.ChunkResult>)
    ensures |r| >= 1
    ensures forall k :: 0 <= k < |r| ==> r[k].chunkIndex == k
  {
    Chunking.Chunk(text, None)
  }

  /**
   * After the loop: mark the document indexed with its chunk count, clear
   * its error, and report completion. An update naming a missing document
   * changes nothing.
   */
  function Finish(w: World, events: seq<IndexingProgress>, documentId: DocId, total: nat, coll: Collaborators): (r: Run)
    ensures r.world.chunks == w.chunks && r.world.points == w.points && r.world.nextPoint == w.nextPoint
    ensures r.world.jobs == w.jobs && r.world.docs.Keys == w.docs.Keys
    ensures forall d :: d in w.docs && d != documentId ==> r.world.docs[d] == w.docs[d]
    ensures r.error.None? ==> r.events == events + [CompletedReport(total)]
    ensures r.error.Some? ==> r.events == events
    ensures documentId in w.docs && coll.faults(MarkIndexed).None? ==>
      r.world.docs[documentId] == w.docs[documentId].(status := Indexed, chunkCount := total,
                                                      indexedAt := Some(coll.now), errorMessage := None)
  {
    match coll.faults(MarkIndexed)
    case Some(e) => Run(w, events, Some(e))
    case None =>
      var w1 :=
        if documentId in w.docs then
          var doc := w.docs[documentId];
          w.(docs := w.docs[documentId := doc.(status := Indexed, chunkCount := total,
                                              indexedAt := Some(coll.now), errorMessage := None)])
        else w;
      match coll.faults(ReportProgress(|events|))
      case Some(e) => Run(w1, events, Some(e))
      case None => Run(w1, events + [CompletedReport(total)], None)
  }

  /**
   * The body of the `try`, from the document marked `indexing`: load the
   * text, then segment and store it.
   */
  function Attempt(w: World, doc: KnowledgeDocument, job: IndexingJobData, coll: Collaborators): (r: Run)
    requires job.documentId in w.docs
    ensures r.world.jobs == w.jobs && r.world.docs.Keys == w.docs.Keys
    ensures forall d :: d in w.docs && d != job.documentId ==> r.world.docs[d] == w.docs[d]
    ensures r.world.nextPoint >= w.nextPoint && KeepsBelow(w.points, r.world.points, w.nextPoint)
  {
    match LoadText(doc, coll)
    case Failure(e) => Run(w, [], Some(e))
    case Success(text) =>
      var w1 := w.(docs := w.docs[job.documentId := doc.(content := Some(text))]);
      Process(w1, job, Segments(text), coll)
  }

  /**
   * The rest of the `try`, once the text is segmented: report, delete the
   * document's old records, run the batch loop, and finish.
   */
  function Process(w: World, job: IndexingJobData, chunks: seq<Chunking.ChunkResult>, coll: Collaborators): (r: Run)
    requires job.documentId in w.docs
    ensures r.world.jobs == w.jobs && r.world.docs.Keys == w.docs.Keys
    ensures forall d :: d in w.docs && d != job.documentId ==> r.world.docs[d] == w.docs[d]
    ensures r.world.nextPoint >= w.nextPoint && KeepsBelow(w.points, r.world.points, w.nextPoint)
  {
    match coll.faults(ReportProgress(0))
    case Some(e) => Run(w, [], Some(e))
    case None =>
      var events := [ChunkingReport(|chunks|)];
      match coll.faults(DeleteChunks)
      case Some(e) => Run(w, events, Some(e))
      case None =>
        var w1 := w.(chunks := ChunksWithout(w.chunks, job.documentId));
        var st := RunFrom(BatchState(w1, events, [], None), job, chunks, 0, coll);
        RunFromKeeps(BatchState(w1, events, [], None), job, chunks, 0, coll, st);
        if st.error.Some? then Run(st.world, st.events, st.error)
        else Finish(st.world, st.events, job.documentId, |chunks|, coll)
  }

  /**
   * The `catch`: record the failure and its message on the document. When
   * that update throws too, its error replaces the first one.
   */
  function MarkFailedRun(a: Run, documentId: DocId, coll: Collaborators): (r: Run)
    requires a.error.Some?
    ensures r.error.Some? && r.events == a.events
    ensures r.world.chunks == a.world.chunks && r.world.points == a.world.points
    ensures r.world.nextPoint == a.world.nextPoint && r.world.jobs == a.world.jobs
    ensures r.world.docs.Keys == a.world.docs.Keys
    ensures forall d :: d in a.world.docs && d != documentId ==> r.world.docs[d] == a.world.docs[d]
    ensures coll.faults(MarkFailed).Some? ==> r.error == coll.faults(MarkFailed) && r.world == a.world
    ensures coll.faults(MarkFailed).None? ==> r.error == a.error
    ensures coll.faults(MarkFailed).None? && documentId in a.world.docs ==>
      r.world.docs[documentId] == a.world.docs[documentId].(status := Failed, errorMessage := Some(a.error.value.message))
  {
    match coll.faults(MarkFailed)
    case Some(e) => a.(error := Some(e))
    case None =>
      var w := a.world;
      if documentId in w.docs then
        var doc := w.docs[documentId];
        a.(world := w.(docs := w.docs[documentId := doc.(status := Failed, errorMessage := Some(a.error.value.message))]))
      else a
  }

  /**
   * `process`: a job for a missing document throws before touching
   * anything; otherwise the document is saved as `indexing` and the attempt
   * runs, a failure marking the document `failed` before it is rethrown.
   * Nothing but the job's document and its records and points changes, and
   * every point stored before the job is kept.
   */
  function Index(w: World, job: IndexingJobData, coll: Collaborators): (r: Run)
    ensures job.documentId !in w.docs ==> r == Run(w, [], Some(Error(NotFoundMessage(job.documentId))))
    ensures job.documentId in w.docs && coll.faults(SaveIndexing).Some? ==> r == Run(w, [], coll.faults(SaveIndexing))
    ensures r.world.jobs == w.jobs && r.world.docs.Keys == w.docs.Keys
    ensures forall d :: d in w.docs && d != job.documentId ==> r.world.docs[d] == w.docs[d]
    ensures r.world.nextPoint >= w.nextPoint && KeepsBelow(w.points, r.world.points, w.nextPoint)
  {
    var id := job.documentId;
    if id !in w.docs then Run(w, [], Some(Error(NotFoundMessage(id))))
    else
      match coll.faults(SaveIndexing)
      case Some(e) => Run(w, [], Some(e))
      case None =>
        var doc := w.docs[id].(status := Indexing);
        var w1 := w.(docs := w.docs[id := doc]);
        var a := Attempt(w1, doc, job, coll);
        if a.error.None? then a else MarkFailedRun(a, id, coll)
  }

  // ---------------------------------------------------------------------------
  // What a job guarantees
  // ---------------------------------------------------------------------------

  /**
   * A successful run over the segmented chunks marks the document indexed
   * with the chunk count, replaces its records by one record per chunk
   * linked to consecutive fresh points, and stores each chunk's point.
   */
  lemma ProcessStores(w: World, job: IndexingJobData, chunks: seq<Chunking.ChunkResult>, coll: Collaborators, r: Run)
    requires job.documentId in w.docs
    requires r == Process(w, job, chunks, coll) && r.error.None?
    ensures r.world.docs[job.documentId] == w.docs[job.documentId].(status := Indexed, chunkCount := |chunks|,
                                                                    indexedAt := Some(coll.now), errorMessage := None)
    ensures r.world.chunks == ChunksWithout(w.chunks, job.documentId) + Records(job, chunks, w.nextPoint, coll.now)
    ensures PointsStored(r.world.points, job, chunks, w.nextPoint)
    ensures r.world.nextPoint == w.nextPoint + |chunks|
  {
    var events := [ChunkingReport(|chunks|)];
    var w1 := w.(chunks := ChunksWithout(w.chunks, job.documentId));
    var st0 := BatchState(w1, events, [], None);
    var st := RunFrom(st0, job, chunks, 0, coll);
    assert chunks[0..] == chunks;
    RunFromKeeps(st0, job, chunks, 0, coll, st);
    RunFromRecords(st0, job, chunks, 0, coll, st);
    RunFromPoints(st0, job, chunks, 0, coll, st);
    RunFromBatches(st0, job, chunks, 0, coll, st);
  }

  /**
   * A successful run reports the segmentation first, then once per batch of
   * 15 the chunks processed so far, and completion last.
   */
  lemma ProcessReports(w: World, job: IndexingJobData, chunks: seq<Chunking.ChunkResult>, coll: Collaborators, r: Run)
    requires job.documentId in w.docs && 0 < |chunks|
    requires r == Process(w, job, chunks, coll) && r.error.None?
    ensures |r.events| == |Batches(chunks, BatchSize)| + 2
    ensures ReportsPattern(r.events, |chunks|)
  {
    var n := |chunks|;
    var st0, st := ProcessLoop(w, job, chunks, coll, r);
    assert chunks[0..] == chunks;
    RunFromKeeps(st0, job, chunks, 0, coll, st);
    RunFromBatches(st0, job, chunks, 0, coll, st);
    ReportsFromLoop(st.events, r.events, n);
  }

  /** A run that succeeds went through the batch loop and then reported completion. */
  lemma ProcessLoop(w: World, job: IndexingJobData, chunks: seq<Chunking.ChunkResult>, coll: Collaborators, r: Run)
    returns (st0: BatchState, st: BatchState)
    requires job.documentId in w.docs
    requires r == Process(w, job, chunks, coll) && r.error.None?
    ensures st0 == BatchState(w.(chunks := ChunksWithout(w.chunks, job.documentId)), [ChunkingReport(|chunks|)], [], None)
    ensures st == RunFrom(st0, job, chunks, 0, coll) && st.error.None?
    ensures r.events == st.events + [CompletedReport(|chunks|)]
  {
    st0 := BatchState(w.(chunks := ChunksWithout(w.chunks, job.documentId)), [ChunkingReport(|chunks|)], [], None);
    st := RunFrom(st0, job, chunks, 0, coll);
  }

  /** The loop's reports after the segmentation report, followed by the completion report, form the pattern. */
  lemma ReportsFromLoop(loop: seq<IndexingProgress>, events: seq<IndexingProgress>, n: nat)
    requires 0 < n && 1 <= |loop| && loop[..1] == [ChunkingReport(n)]
    requires forall k :: 1 <= k < |loop| ==> loop[k] == BatchReport(Min(0 + BatchSize * (k - 1 + 1), n), n)
    requires events == loop + [CompletedReport(n)]
    ensures ReportsPattern(events, n)
  {
    assert events[0] == loop[..1][0];
    forall k | 1 <= k < |events| - 1
      ensures events[k] == BatchReport(Min(BatchSize * k, n), n)
    {
      assert events[k] == loop[k];
    }
  }

  /**
   * The reports of a successful job over `n` chunks: the segmentation
   * report, the k-th batch report at `min(15k, n)` chunks, and the
   * completion report.
   */
  ghost predicate ReportsPattern(events: seq<IndexingProgress>, n: nat)
    requires 0 < n
  {
    && 2 <= |events|
    && events[0] == ChunkingReport(n)
    && events[|events| - 1] == CompletedReport(n)
    && forall k :: 1 <= k < |events| - 1 ==> events[k] == BatchReport(Min(BatchSize * k, n), n)
  }

  /** Reports in that pattern are well formed and their percentages never fall. */
  lemma ReportsOrdered(events: seq<IndexingProgress>, n: nat)
    requires 0 < n && ReportsPattern(events, n)
    ensures forall k :: 0 <= k < |events| ==> ProgressWellFormed(events[k])
    ensures forall j, k :: 0 <= j <= k < |events| ==> events[j].progress <= events[k].progress
  {
    forall j, k | 0 <= j <= k < |events|
      ensures events[j].progress <= events[k].progress
    {
      if 1 <= j && k < |events| - 1 {
        PercentMonotone(Min(BatchSize * j, n), Min(BatchSize * k, n), n);
      }
    }
  }

  /** The text a job indexes for a document: its loaded content, if it can be loaded. */
  function JobText(doc: KnowledgeDocument, read: Extraction.Reader): string {
    match ContentSource(doc, read)
    case Success(src) => src.text
    case Failure(_) => []
  }

  /** Every record links to a stored point whose payload names the record's document and holds its text. */
  ghost predicate Linked(records: seq<KnowledgeChunk>, points: Collection) {
    forall k :: 0 <= k < |records| ==>
      && records[k].qdrantPointId.Some?
      && records[k].qdrantPointId.value in points
      && PayloadDocument(points[records[k].qdrantPointId.value].payload) == Some(records[k].documentId)
      && "content" in points[records[k].qdrantPointId.value].payload
      && points[records[k].qdrantPointId.value].payload["content"] == JStr(records[k].content)
  }

  /** The records of chunks whose points are stored are linked to them. */
  lemma RecordsLinked(points: Collection, job: IndexingJobData, cs: seq<Chunking.ChunkResult>, next: nat, now: Time)
    requires PointsStored(points, job, cs, next)
    ensures Linked(Records(job, cs, next, now), points)
  {
    var records := Records(job, cs, next, now);
    forall k | 0 <= k < |records|
      ensures records[k].qdrantPointId == Some(PointId(next + k))
      ensures StoredAt(points, job, cs, next, k)
    {
    }
  }

  /** The world once the document is marked `indexing` and holds its loaded text. */
  function LoadedWorld(w: World, documentId: DocId, text: string): (r: World)
    requires documentId in w.docs
    ensures r.docs.Keys == w.docs.Keys
  {
    w.(docs := w.docs[documentId := w.docs[documentId].(status := Indexing, content := Some(text))])
  }

  /** A job that ends without error ran its attempt on the document marked `indexing`. */
  lemma IndexAttempt(w: World, job: IndexingJobData, coll: Collaborators, r: Run)
    requires r == Index(w, job, coll) && r.error.None?
    ensures job.documentId in w.docs
    ensures r == Attempt(w.(docs := w.docs[job.documentId := w.docs[job.documentId].(status := Indexing)]),
                         w.docs[job.documentId].(status := Indexing), job, coll)
  {
  }

  /** An attempt that ends without error loaded the text and processed its segments. */
  lemma AttemptLoaded(w: World, doc: KnowledgeDocument, job: IndexingJobData, coll: Collaborators, r: Run)
    requires job.documentId in w.docs
    requires r == Attempt(w, doc, job, coll) && r.error.None?
    ensures LoadText(doc, coll).Success?
    ensures r == Process(w.(docs := w.docs[job.documentId := doc.(content := Some(LoadText(doc, coll).value))]), job,
                         Segments(LoadText(doc, coll).value), coll)
  {
  }

  /** A job that ends without error has loaded the text and processed its segments. */
  lemma IndexLoaded(w: World, job: IndexingJobData, coll: Collaborators, r: Run)
    requires r == Index(w, job, coll) && r.error.None?
    ensures job.documentId in w.docs && ContentSource(w.docs[job.documentId], coll.read).Success?
    ensures r == Process(LoadedWorld(w, job.documentId, JobText(w.docs[job.documentId], coll.read)), job,
                         Segments(JobText(w.docs[job.documentId], coll.read)), coll)
  {
    IndexAttempt(w, job, coll, r);
    AttemptIsProcess(w, job, coll, r);
  }

  /** An attempt on the document marked `indexing` that ends without error processed the segments of its text. */
  lemma AttemptIsProcess(w: World, job: IndexingJobData, coll: Collaborators, r: Run)
    requires job.documentId in w.docs
    requires r == Attempt(w.(docs := w.docs[job.documentId := w.docs[job.documentId].(status := Indexing)]),
                          w.docs[job.documentId].(status := Indexing), job, coll)
    requires r.error.None?
    ensures ContentSource(w.docs[job.documentId], coll.read).Success?
    ensures r == Process(LoadedWorld(w, job.documentId, JobText(w.docs[job.documentId], coll.read)), job,
                         Segments(JobText(w.docs[job.documentId], coll.read)), coll)
  {
    var id := job.documentId;
    var doc := w.docs[id].(status := Indexing);
    var w1 := w.(docs := w.docs[id := doc]);
    AttemptLoaded(w1, doc, job, coll, r);
    assert ContentSource(doc, coll.read) == ContentSource(w.docs[id], coll.read);
    var text := LoadText(doc, coll).value;
    assert text == JobText(w.docs[id], coll.read);
    LoadedWorldIs(w, id, text);
  }

  /** Marking the document `indexing` and then giving it its text is one update. */
  lemma LoadedWorldIs(w: World, documentId: DocId, text: string)
    requires documentId in w.docs
    ensures var doc := w.docs[documentId].(status := Indexing);
            var w1 := w.(docs := w.docs[documentId := doc]);
            w1.(docs := w1.docs[documentId := doc.(content := Some(text))]) == LoadedWorld(w, documentId, text)
  {
    var doc := w.docs[documentId].(status := Indexing);
    var m := w.docs[documentId := doc][documentId := doc.(content := Some(text))];
    assert m == w.docs[documentId := w.docs[documentId].(status := Indexing, content := Some(text))];
  }

  /**
   * A job that ends without error found the document, loaded its text, and
   * left it `indexed` with that text and its chunk count, and no error;
   * the document's records are then exactly one record per chunk, in
   * order, each linked to a fresh point holding the chunk's text.
   */
  lemma IndexSucceeds(w: World, job: IndexingJobData, coll: Collaborators, r: Run)
    requires r == Index(w, job, coll) && r.error.None?
    ensures job.documentId in w.docs && ContentSource(w.docs[job.documentId], coll.read).Success?
    ensures r.world.docs[job.documentId] ==
      w.docs[job.documentId].(status := Indexed, content := Some(JobText(w.docs[job.documentId], coll.read)),
                              chunkCount := |Segments(JobText(w.docs[job.documentId], coll.read))|,
                              indexedAt := Some(coll.now), errorMessage := None)
    ensures ChunksOf(r.world.chunks, job.documentId) ==
      Records(job, Segments(JobText(w.docs[job.documentId], coll.read)), w.nextPoint, coll.now)
    ensures PointsStored(r.world.points, job, Segments(JobText(w.docs[job.documentId], coll.read)), w.nextPoint)
    ensures Linked(ChunksOf(r.world.chunks, job.documentId), r.world.points)
    ensures r.world.nextPoint == w.nextPoint + |Segments(JobText(w.docs[job.documentId], coll.read))|
  {
    IndexLoaded(w, job, coll, r);
    var id := job.documentId;
    var text := JobText(w.docs[id], coll.read);
    var chunks := Segments(text);
    var w2 := LoadedWorld(w, id, text);
    ProcessStores(w2, job, chunks, coll, r);
    ChunksOfReplaced(w.chunks, Records(job, chunks, w.nextPoint, coll.now), id);
    RecordsLinked(r.world.points, job, chunks, w.nextPoint, coll.now);
  }

  /**
   * A job that ends without error reports segmentation first, then after
   * each batch of 15 the chunks processed so far, and completion last;
   * every report is well formed and the percentages never fall.
   */
  lemma IndexReportsProgress(w: World, job: IndexingJobData, coll: Collaborators, r: Run)
    requires r == Index(w, job, coll) && r.error.None?
    ensures job.documentId in w.docs
    ensures |r.events| == |Batches(Segments(JobText(w.docs[job.documentId], coll.read)), BatchSize)| + 2
    ensures ReportsPattern(r.events, |Segments(JobText(w.docs[job.documentId], coll.read))|)
    ensures forall k :: 0 <= k < |r.events| ==> ProgressWellFormed(r.events[k])
    ensures forall j, k :: 0 <= j <= k < |r.events| ==> r.events[j].progress <= r.events[k].progress
  {
    IndexLoaded(w, job, coll, r);
    var id := job.documentId;
    var text := JobText(w.docs[id], coll.read);
    var chunks := Segments(text);
    ProcessReports(LoadedWorld(w, id, text), job, chunks, coll, r);
    ReportsOrdered(r.events, |chunks|);
  }

  /**
   * A job that fails after the document was marked `indexing` leaves it
   * `failed` with the error's message, unless recording the failure throws.
   */
  lemma IndexFails(w: World, job: IndexingJobData, coll: Collaborators, r: Run)
    requires r == Index(w, job, coll) && r.error.Some?
    requires job.documentId in w.docs && coll.faults(SaveIndexing).None? && coll.faults(MarkFailed).None?
    ensures r.world.docs[job.documentId].status == Failed
    ensures r.world.docs[job.documentId].errorMessage == Some(r.error.value.message)
  {
    var id := job.documentId;
    var doc := w.docs[id].(status := Indexing);
    var w1 := w.(docs := w.docs[id := doc]);
    var a := Attempt(w1, doc, job, coll);
    assert r == MarkFailedRun(a, id, coll);
  }

  /**
   * A job whose document has no text to load (no content and no file, an
   * unsupported file type, or a failing reader) fails with that error
   * before reporting anything, and changes nothing but the document's
   * status and error message.
   */
  lemma IndexLoadFails(w: World, job: IndexingJobData, coll: Collaborators, r: Run, e: Error)
    requires r == Index(w, job, coll)
    requires job.documentId in w.docs && coll.faults(SaveIndexing).None? && coll.faults(MarkFailed).None?
    requires ContentSource(w.docs[job.documentId], coll.read) == Failure(e)
    ensures r.error == Some(e) && r.events == []
    ensures r.world == w.(docs := w.docs[job.documentId := w.docs[job.documentId].(status := Failed, errorMessage := Some(e.message))])
  {
    var id := job.documentId;
    var doc := w.docs[id].(status := Indexing);
    var w1 := w.(docs := w.docs[id := doc]);
    assert ContentSource(doc, coll.read) == ContentSource(w.docs[id], coll.read);
    assert Attempt(w1, doc, job, coll) == Run(w1, [], Some(e));
  }

  /** Whatever happens, the rest of a job leaves the records of every other document as they were. */
  lemma ProcessKeepsOtherChunks(w: World, job: IndexingJobData, chunks: seq<Chunking.ChunkResult>, coll: Collaborators,
                                r: Run, other: DocId)
    requires job.documentId in w.docs && other != job.documentId
    requires r == Process(w, job, chunks, coll)
    ensures ChunksOf(r.world.chunks, other) == ChunksOf(w.chunks, other)
  {
    if coll.faults(ReportProgress(0)).None? && coll.faults(DeleteChunks).None? {
      var w1 := w.(chunks := ChunksWithout(w.chunks, job.documentId));
      var st0 := BatchState(w1, [ChunkingReport(|chunks|)], [], None);
      var st := RunFrom(st0, job, chunks, 0, coll);
      RunFromChunks(st0, job, chunks, 0, coll, st);
      AppendsOnlyKeepsOthers(w1.chunks, st.world.chunks, job.documentId, other);
      ChunksWithoutKeepsOthers(w.chunks, job.documentId, other);
    }
  }

  /** Whatever happens, an attempt leaves the records of every other document as they were. */
  lemma AttemptKeepsOtherChunks(w: World, doc: KnowledgeDocument, job: IndexingJobData, coll: Collaborators,
                                r: Run, other: DocId)
    requires job.documentId in w.docs && other != job.documentId
    requires r == Attempt(w, doc, job, coll)
    ensures ChunksOf(r.world.chunks, other) == ChunksOf(w.chunks, other)
  {
    if LoadText(doc, coll).Success? {
      var text := LoadText(doc, coll).value;
      var w1 := w.(docs := w.docs[job.documentId := doc.(content := Some(text))]);
      ProcessKeepsOtherChunks(w1, job, Segments(text), coll, r, other);
    }
  }

  /**
   * Whatever happens, a job leaves the records of every other document as
   * they were, alongside the documents, jobs and earlier points its
   * contract already keeps.
   */
  lemma IndexKeepsOtherChunks(w: World, job: IndexingJobData, coll: Collaborators, r: Run, other: DocId)
    requires r == Index(w, job, coll) && other != job.documentId
    ensures ChunksOf(r.world.chunks, other) == ChunksOf(w.chunks, other)
  {
    var id := job.documentId;
    if id in w.docs && coll.faults(SaveIndexing).None? {
      var doc := w.docs[id].(status := Indexing);
      var w1 := w.(docs := w.docs[id := doc]);
      var a := Attempt(w1, doc, job, coll);
      AttemptKeepsOtherChunks(w1, doc, job, coll, a, other);
    }
  }
}
