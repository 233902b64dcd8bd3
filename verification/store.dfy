/**
 * The persistent world the document lifecycle and the indexing worker act
 * on: the document and chunk collections, the vector collection, the
 * indexing queue, and the places where a call into one of them may throw.
 */
module Store {
  import opened Wrappers
  import opened Schemas
  import opened QueueInterfaces
  import opened VectorDb

  /** Every awaited store, queue or progress call that may throw. */
  datatype Site =
    | SaveIndexing
    | SaveContent
    | ReportProgress(event: nat)
    | DeleteChunks
    | UpsertPoints(offset: nat)
    | InsertChunks(offset: nat)
    | MarkIndexed
    | MarkFailed
    | CreateDocument
    | Enqueue
    | DeletePoints
    | DeleteDocument
    | SavePending

  /** Which calls throw, and with what error. */
  type Faults = Site -> Option<Error>

  /**
   * The stores: documents by id, chunk records in insertion order, vector
   * points by id, the next unused point serial (the model's fresh UUIDs),
   * and the jobs enqueued so far.
   */
  datatype World = World(
    docs: map<DocId, KnowledgeDocument>,
    chunks: seq<KnowledgeChunk>,
    points: Collection,
    nextPoint: nat,
    jobs: seq<QueuedJob>)

  /** Every stored point has a serial below the next one handed out. */
  predicate FreshPoints(w: World) {
    forall id :: id in w.points ==> id.serial < w.nextPoint
  }

  /** `deleteMany({ documentId })` on the chunk records, keeping the others in order. */
  function ChunksWithout(chunks: seq<KnowledgeChunk>, documentId: DocId): (r: seq<KnowledgeChunk>)
    ensures forall c :: c in r <==> c in chunks && c.documentId != documentId
    ensures |r| <= |chunks|
  {
    if |chunks| == 0 then []
    else
      var rest := ChunksWithout(chunks[1..], documentId);
      assert forall c :: c in chunks <==> c == chunks[0] || c in chunks[1..];
      if chunks[0].documentId == documentId then rest else [chunks[0]] + rest
  }

  /** The chunk records of one document, in order. */
  function ChunksOf(chunks: seq<KnowledgeChunk>, documentId: DocId): (r: seq<KnowledgeChunk>)
    ensures forall c :: c in r <==> c in chunks && c.documentId == documentId
    ensures |r| <= |chunks|
  {
    if |chunks| == 0 then []
    else
      var rest := ChunksOf(chunks[1..], documentId);
      assert forall c :: c in chunks <==> c == chunks[0] || c in chunks[1..];
      if chunks[0].documentId == documentId then [chunks[0]] + rest else rest
  }

  /** Appending records of other documents leaves a document's records as they were. */
  lemma {:induction false} ChunksOfAppend(a: seq<KnowledgeChunk>, b: seq<KnowledgeChunk>, documentId: DocId)
    ensures ChunksOf(a + b, documentId) == ChunksOf(a, documentId) + ChunksOf(b, documentId)
  {
    if |a| > 0 {
      assert (a + b)[1..] == a[1..] + b;
      ChunksOfAppend(a[1..], b, documentId);
    } else {
      assert a + b == b;
    }
  }

  /** After deleting a document's records, none of them are left. */
  lemma {:induction false} ChunksOfWithout(chunks: seq<KnowledgeChunk>, documentId: DocId)
    ensures ChunksOf(ChunksWithout(chunks, documentId), documentId) == []
  {
    if |chunks| > 0 {
      ChunksOfWithout(chunks[1..], documentId);
      if chunks[0].documentId != documentId {
        assert ([chunks[0]] + ChunksWithout(chunks[1..], documentId))[1..] == ChunksWithout(chunks[1..], documentId);
      }
    }
  }

  /** When every record belongs to the document, its records are all of them. */
  lemma {:induction false} ChunksOfAll(chunks: seq<KnowledgeChunk>, documentId: DocId)
    requires forall k :: 0 <= k < |chunks| ==> chunks[k].documentId == documentId
    ensures ChunksOf(chunks, documentId) == chunks
  {
    if |chunks| > 0 {
      ChunksOfAll(chunks[1..], documentId);
    }
  }

  /**
   * The records after a change that keeps the earlier ones in place and only
   * appends records of one document.
   */
  ghost predicate AppendsOnly(before: seq<KnowledgeChunk>, after: seq<KnowledgeChunk>, documentId: DocId) {
    && |before| <= |after|
    && after[..|before|] == before
    && forall k :: |before| <= k < |after| ==> after[k].documentId == documentId
  }

  lemma AppendsOnlyTrans(a: seq<KnowledgeChunk>, b: seq<KnowledgeChunk>, c: seq<KnowledgeChunk>, documentId: DocId)
    requires AppendsOnly(a, b, documentId) && AppendsOnly(b, c, documentId)
    ensures AppendsOnly(a, c, documentId)
  {
    assert c[..|a|] == c[..|b|][..|a|];
  }

  /** Appending records of one document leaves the records of every other document as they were. */
  lemma AppendsOnlyKeepsOthers(before: seq<KnowledgeChunk>, after: seq<KnowledgeChunk>, documentId: DocId, other: DocId)
    requires AppendsOnly(before, after, documentId) && other != documentId
    ensures ChunksOf(after, other) == ChunksOf(before, other)
  {
    var extra := after[|before|..];
    assert after == before + extra;
    ChunksOfAppend(before, extra, other);
    ChunksOfNone(extra, other);
    assert ChunksOf(before, other) + [] == ChunksOf(before, other);
  }

  /** A list holding no record of a document has none to give. */
  lemma {:induction false} ChunksOfNone(chunks: seq<KnowledgeChunk>, documentId: DocId)
    requires forall k :: 0 <= k < |chunks| ==> chunks[k].documentId != documentId
    ensures ChunksOf(chunks, documentId) == []
  {
    if |chunks| > 0 {
      ChunksOfNone(chunks[1..], documentId);
    }
  }

  /** Deleting one document's records leaves the records of every other document as they were. */
  lemma {:induction false} ChunksWithoutKeepsOthers(chunks: seq<KnowledgeChunk>, documentId: DocId, other: DocId)
    requires other != documentId
    ensures ChunksOf(ChunksWithout(chunks, documentId), other) == ChunksOf(chunks, other)
  {
    if |chunks| > 0 {
      ChunksWithoutKeepsOthers(chunks[1..], documentId, other);
      if chunks[0].documentId != documentId {
        assert ([chunks[0]] + ChunksWithout(chunks[1..], documentId))[1..] == ChunksWithout(chunks[1..], documentId);
      }
    }
  }

  /** Deleting a document's records and appending new ones of it leaves exactly the new ones as its records. */
  lemma ChunksOfReplaced(chunks: seq<KnowledgeChunk>, records: seq<KnowledgeChunk>, documentId: DocId)
    requires forall k :: 0 <= k < |records| ==> records[k].documentId == documentId
    ensures ChunksOf(ChunksWithout(chunks, documentId) + records, documentId) == records
  {
    var kept := ChunksWithout(chunks, documentId);
    ChunksOfAppend(kept, records, documentId);
    ChunksOfWithout(chunks, documentId);
    ChunksOfAll(records, documentId);
    EmptyAppend(ChunksOf(kept, documentId), ChunksOf(records, documentId));
  }

  lemma EmptyAppend(a: seq<KnowledgeChunk>, b: seq<KnowledgeChunk>)
    requires a == []
    ensures a + b == b
  {
  }
}
