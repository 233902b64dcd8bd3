/**
 * The vector-store client: the collection of points, upserts, deletion by
 * document, and the filtered similarity search with its result mapping.
 * The store's ranking is not modelled: a search answer is a parameter, and
 * `HonoursRequest` states what a correct store may return.
 */
module VectorDb {
  import opened Wrappers
  import opened Json
  import opened Schemas

  /** The collection's vector size and distance, fixed at creation. */
  const VectorSize: nat := 768

  datatype Distance = Cosine

  datatype CollectionSpec = CollectionSpec(name: string, size: nat, distance: Distance)

  datatype Point = Point(id: PointId, vector: seq<real>, payload: map<string, Json>)

  /** The points of the collection by id. */
  type Collection = map<PointId, Point>

  /** Every point is filed under its own id. */
  predicate WellKeyed(c: Collection) {
    forall id :: id in c ==> c[id].id == id
  }

  /** A `must` clause: the payload key holds exactly this string. */
  datatype Condition = MatchValue(key: string, value: string)

  datatype Filter = Filter(must: seq<Condition>)

  /** A payload satisfies a filter when it satisfies every `must` clause. */
  predicate Satisfies(payload: map<string, Json>, f: Filter) {
    forall i :: 0 <= i < |f.must| ==> f.must[i].key in payload && payload[f.must[i].key] == JStr(f.must[i].value)
  }

  /** The ids of a list of points. */
  function Ids(points: seq<Point>): (r: set<PointId>)
    ensures forall i :: 0 <= i < |points| ==> points[i].id in r
    ensures forall id :: id in r ==> exists i :: 0 <= i < |points| && points[i].id == id
  {
    if |points| == 0 then {}
    else
      assert forall i :: 1 <= i < |points| ==> points[i] == points[1..][i - 1];
      {points[0].id} + Ids(points[1..])
  }

  /**
   * Upserting a list of points: each point replaces whatever had its id, a
   * later point of the list replacing an earlier one.
   */
  function Upsert(c: Collection, points: seq<Point>): (r: Collection)
    decreases |points|
    ensures r.Keys == c.Keys + Ids(points)
    ensures forall id :: id in c && id !in Ids(points) ==> r[id] == c[id]
    ensures WellKeyed(c) ==> WellKeyed(r)
  {
    if |points| == 0 then c
    else Upsert(c[points[0].id := points[0]], points[1..])
  }

  /** After an upsert, the last point of the list with a given id is what the collection holds. */
  lemma {:induction false} UpsertLastWins(c: Collection, points: seq<Point>, i: nat)
    requires i < |points|
    requires forall j :: i < j < |points| ==> points[j].id != points[i].id
    decreases |points|
    ensures points[i].id in Upsert(c, points)
    ensures Upsert(c, points)[points[i].id] == points[i]
  {
    if i > 0 {
      assert forall j :: i - 1 < j < |points| - 1 ==> points[1..][j] == points[j + 1];
      UpsertLastWins(c[points[0].id := points[0]], points[1..], i - 1);
    } else {
      var c' := c[points[0].id := points[0]];
      assert forall j :: 0 <= j < |points| - 1 ==> points[1..][j].id != points[0].id;
      assert Upsert(c, points) == Upsert(c', points[1..]);
    }
  }

  /** Deleting every point whose payload satisfies a filter. */
  function DeleteWhere(c: Collection, f: Filter): (r: Collection)
    ensures r.Keys <= c.Keys
    ensures forall id :: id in r ==> r[id] == c[id]
    ensures forall id :: id in c ==> (id in r <==> !Satisfies(c[id].payload, f))
  {
    map id | id in c && !Satisfies(c[id].payload, f) :: c[id]
  }

  /** `deleteByDocumentId`: the filter names the document and nothing else, not even the tenant. */
  function DocumentFilter(documentId: DocId): (f: Filter)
    ensures Satisfies(map["documentId" := JStr(documentId)], f)
  {
    Filter([MatchValue("documentId", documentId)])
  }

  function DeleteByDocumentId(c: Collection, documentId: DocId): (r: Collection)
    ensures forall id :: id in c ==>
      (id in r <==> !("documentId" in c[id].payload && c[id].payload["documentId"] == JStr(documentId)))
    ensures forall id :: id in r ==> id in c && r[id] == c[id]
  {
    var f := DocumentFilter(documentId);
    forall id | id in c
      ensures Satisfies(c[id].payload, f) <==>
        "documentId" in c[id].payload && c[id].payload["documentId"] == JStr(documentId)
    {
      assert f.must[0] == MatchValue("documentId", documentId);
    }
    DeleteWhere(c, f)
  }

  /** Deleting a document's points removes them whatever tenant they carry, and only them. */
  lemma DeleteIgnoresTenant(c: Collection, documentId: DocId, id: PointId)
    requires id in c
    ensures id in DeleteByDocumentId(c, documentId) <==> PayloadDocument(c[id].payload) != Some(documentId)
  {
  }

  /** The document a payload names, if it names one by a string. */
  function PayloadDocument(payload: map<string, Json>): Option<string> {
    if "documentId" in payload && payload["documentId"].JStr? then Some(payload["documentId"].s) else None
  }

  /** The search filter: always the tenant, and the category exactly when one is given and non-empty. */
  function SearchFilter(tenantSlug: string, category: Option<string>): (f: Filter)
    ensures |f.must| >= 1 && f.must[0] == MatchValue("tenantSlug", tenantSlug)
    ensures |f.must| == 2 <==> category.Some? && category.value != []
    ensures |f.must| <= 2
    ensures |f.must| == 2 ==> f.must[1] == MatchValue("category", category.value)
  {
    var tenant := MatchValue("tenantSlug", tenantSlug);
    if category.Some? && category.value != [] then Filter([tenant, MatchValue("category", category.value)])
    else Filter([tenant])
  }

  /** `topK || 5`: a missing or zero count falls back to five. */
  function LimitOr5(topK: Option<int>): (n: int)
    ensures topK.Some? && topK.value != 0 ==> n == topK.value
    ensures topK.None? || topK.value == 0 ==> n == 5
  {
    if topK.None? || topK.value == 0 then 5 else topK.value
  }

  datatype SearchRequest = SearchRequest(vector: seq<real>, filter: Filter, limit: int, withPayload: bool)

  function SearchRequestFor(vector: seq<real>, tenantSlug: string, category: Option<string>, topK: Option<int>): SearchRequest {
    SearchRequest(vector, SearchFilter(tenantSlug, category), LimitOr5(topK), true)
  }

  /** A point as the store returns it from a search. */
  datatype ScoredPoint = ScoredPoint(id: PointId, score: real, payload: Option<map<string, Json>>)

  datatype SearchResult = SearchResult(id: PointId, score: real, content: string, metadata: map<string, Json>)

  /** One result: the payload's content text (or ''), and the whole payload (or {}) as metadata. */
  function ToSearchResult(p: ScoredPoint): (r: SearchResult)
    ensures r.id == p.id && r.score == p.score
    ensures p.payload.None? ==> r.content == [] && r.metadata == map[]
    ensures p.payload.Some? ==> r.metadata == p.payload.value && r.content == StringFieldOr(p.payload.value, "content", "")
  {
    var payload := if p.payload.Some? then p.payload.value else map[];
    SearchResult(p.id, p.score, StringFieldOr(payload, "content", ""), payload)
  }

  /** `search`: the store's answer mapped one to one and in order. */
  function MapResults(hits: seq<ScoredPoint>): (r: seq<SearchResult>)
    ensures |r| == |hits|
    ensures forall i :: 0 <= i < |hits| ==> r[i] == ToSearchResult(hits[i])
  {
    seq(|hits|, i requires 0 <= i < |hits| => ToSearchResult(hits[i]))
  }

  /**
   * A correct store answers a search with at most `limit` points of the
   * collection, each satisfying the filter and carrying its stored payload.
   */
  ghost predicate HonoursRequest(c: Collection, req: SearchRequest, hits: seq<ScoredPoint>) {
    && |hits| <= req.limit
    && forall i :: 0 <= i < |hits| ==>
      && hits[i].id in c
      && Satisfies(c[hits[i].id].payload, req.filter)
      && hits[i].payload == Some(c[hits[i].id].payload)
  }

  /**
   * Tenant isolation: every result of a search a correct store answers
   * belongs to the requesting tenant, and to the requested category when
   * one is given.
   */
  lemma SearchStaysInTenant(c: Collection, vector: seq<real>, tenantSlug: string, category: Option<string>,
                            topK: Option<int>, hits: seq<ScoredPoint>, i: nat)
    requires HonoursRequest(c, SearchRequestFor(vector, tenantSlug, category, topK), hits)
    requires i < |hits|
    ensures "tenantSlug" in MapResults(hits)[i].metadata
    ensures MapResults(hits)[i].metadata["tenantSlug"] == JStr(tenantSlug)
    ensures category.Some? && category.value != [] ==>
      "category" in MapResults(hits)[i].metadata && MapResults(hits)[i].metadata["category"] == JStr(category.value)
  {
    var f := SearchFilter(tenantSlug, category);
    assert Satisfies(c[hits[i].id].payload, f);
    assert f.must[0] == MatchValue("tenantSlug", tenantSlug);
    if category.Some? && category.value != [] {
      assert f.must[1] == MatchValue("category", category.value);
    }
  }

  /**
   * Creating the collection at start-up: only when the listing succeeded and
   * does not hold the name; a failed listing is logged and swallowed.
   */
  function EnsureCollection(listing: Result<seq<string>, Error>, name: string): (r: Option<CollectionSpec>)
    ensures r.Some? <==> listing.Success? && name !in listing.value
    ensures r.Some? ==> r.value == CollectionSpec(name, 768, Cosine)
  {
    if listing.Success? && name !in listing.value then Some(CollectionSpec(name, VectorSize, Cosine)) else None
  }

  /** The store is healthy exactly when listing its collections succeeds. */
  function HealthCheck(listing: Result<seq<string>, Error>): (r: bool)
    ensures r <==> listing.Success?
  {
    listing.Success?
  }
}
