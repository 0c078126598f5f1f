/** The Qdrant vector store wrapper (rag_pipeline/vector_store.py).
    The Qdrant server is abstract: a client object that records which
    collections exist with which vector parameters, and the mutating calls
    made on it, in order.  What the server does with an upserted point or how
    it ranks a search is not part of this model. */
module VectorStore {
  import opened Values
  import opened Seqs

  /** A formatted search hit: `{"id", "score", "text", "metadata"}`. */
  datatype Hit = Hit(id: string, score: real, text: string, metadata: Metadata)

  /** An element of the list given to `add_documents`; `id` is `None` when
      the dictionary has no "id" key, and a missing "metadata" key is the
      empty dictionary. */
  datatype EmbeddedDoc = EmbeddedDoc(id: Option<string>, text: string, embedding: seq<real>, metadata: Metadata)

  /** A `PointStruct`. */
  datatype Point = Point(id: string, vector: seq<real>, payload: Metadata)

  datatype Distance = Cosine

  /** `VectorParams(size, distance)`. */
  datatype VectorParams = VectorParams(size: nat, distance: Distance)

  /** `FieldCondition(key=key, match=MatchValue(value=value))`. */
  datatype Condition = FieldMatch(key: string, value: Value)

  /** `Filter(must=conditions)`: every condition must hold. */
  datatype QueryFilter = Must(conditions: seq<Condition>)

  /** What `client.search` is asked for. */
  datatype SearchRequest = SearchRequest(collection: string, vector: seq<real>, limit: nat, filter: Option<QueryFilter>)

  /** One element of what `client.search` returns. */
  datatype ScoredPoint = ScoredPoint(id: string, score: real, payload: Metadata)

  /** The server's answer to `client.get_collection`. */
  datatype ServerInfo = ServerInfo(vectorsCount: Option<nat>, pointsCount: Option<nat>, status: string)

  /** The dictionary `get_collection_info` returns. */
  datatype CollectionInfo = CollectionInfo(
    name: string, vectorsCount: Option<nat>, pointsCount: Option<nat>, status: string,
    dimension: nat, distance: string)

  /** The calls that change the server, as the client receives them. */
  datatype ClientCall =
    | DropCall(name: string)
    | CreateCall(name: string, params: VectorParams)
    | UpsertCall(name: string, points: seq<Point>)

  const DefaultUrl := "http://localhost:6333"
  const DefaultCollection := "fridge_manuals"

  /** The Qdrant client: the collections the server holds and the log of
      mutating calls. */
  class QdrantClient {
    var collections: map<string, VectorParams>
    var calls: seq<ClientCall>

    constructor (existing: map<string, VectorParams>)
      ensures collections == existing && calls == []
    {
      collections := existing;
      calls := [];
    }

    method Delete(name: string)
      modifies this
      ensures collections == old(collections) - {name}
      ensures calls == old(calls) + [DropCall(name)]
    {
      collections := collections - {name};
      calls := calls + [DropCall(name)];
    }

    method Create(name: string, params: VectorParams)
      modifies this
      ensures collections == old(collections)[name := params]
      ensures calls == old(calls) + [CreateCall(name, params)]
    {
      collections := collections[name := params];
      calls := calls + [CreateCall(name, params)];
    }

    method UpsertPoints(name: string, points: seq<Point>)
      modifies this
      ensures collections == old(collections)
      ensures calls == old(calls) + [UpsertCall(name, points)]
    {
      calls := calls + [UpsertCall(name, points)];
    }
  }

  /** The payload `{"text": text, **metadata}`: a metadata key "text"
      replaces the chunk text. */
  function PayloadOf(doc: EmbeddedDoc): (p: Metadata)
    ensures p.Keys == doc.metadata.Keys + {"text"}
    ensures forall k :: k in doc.metadata ==> p[k] == doc.metadata[k]
    ensures "text" !in doc.metadata ==> p["text"] == Str(doc.text)
  {
    map["text" := Str(doc.text)] + doc.metadata
  }

  /** The point built for one document; `newId` is the UUID string generated
      for it (Python evaluates the default of `doc.get("id", ...)` whether or
      not the document has an id). */
  function PointFor(doc: EmbeddedDoc, newId: string): (p: Point)
    ensures p.id == (if doc.id.Some? then doc.id.value else newId)
    ensures p.vector == doc.embedding
  {
    Point(if doc.id.Some? then doc.id.value else newId, doc.embedding, PayloadOf(doc))
  }

  /** The points of `add_documents`, one per document, in order. */
  function PointsFor(docs: seq<EmbeddedDoc>, uuids: seq<string>): (ps: seq<Point>)
    requires |uuids| == |docs|
    ensures |ps| == |docs|
  {
    seq(|docs|, i requires 0 <= i < |docs| => PointFor(docs[i], uuids[i]))
  }

  function UpsertCalls(name: string, batches: seq<seq<Point>>): (cs: seq<ClientCall>)
    ensures |cs| == |batches|
  {
    seq(|batches|, k requires 0 <= k < |batches| => UpsertCall(name, batches[k]))
  }

  /** The conditions of a filter dictionary: one exact-match condition per
      key/value pair, each key once. */
  ghost predicate ConditionsFor(f: Metadata, cs: seq<Condition>) {
    && |cs| == |f.Keys|
    && (forall i :: 0 <= i < |cs| ==> cs[i].key in f && f[cs[i].key] == cs[i].value)
    && (forall i, j :: 0 <= i < j < |cs| ==> cs[i].key != cs[j].key)
    && (forall k :: k in f ==> exists i :: 0 <= i < |cs| && cs[i].key == k)
  }

  /** The hit formatted from one returned point: the payload's "text" (or
      "") and the rest of the payload as metadata. */
  function FormatHit(p: ScoredPoint): (h: Hit)
    requires "text" in p.payload ==> p.payload["text"].Str?
    ensures h.id == p.id && h.score == p.score
    ensures h.text == GetStr(p.payload, "text", "")
    ensures h.metadata.Keys == p.payload.Keys - {"text"}
    ensures forall k :: k in h.metadata ==> h.metadata[k] == p.payload[k]
  {
    Hit(p.id, p.score, GetStr(p.payload, "text", ""), p.payload - {"text"})
  }

  /** Every payload's "text", when present, is a string (what the model
      reads into `Hit.text`). */
  predicate TextIsString(raw: seq<ScoredPoint>) {
    forall i :: 0 <= i < |raw| ==> ("text" in raw[i].payload ==> raw[i].payload["text"].Str?)
  }

  class QdrantStore {
    const url: string
    const apiKey: Option<string>
    const collectionName: string
    const embeddingDim: nat
    const client: QdrantClient

    /** `url`, `api_key` and `collection_name` fall back to the environment
        and then to the defaults; the client is handed in. */
    constructor (url: Option<string>, apiKey: Option<string>, collectionName: Option<string>,
                 embeddingDim: nat, env: map<string, string>, client: QdrantClient)
      ensures this.url == ArgOrEnv(url, env, "QDRANT_URL", DefaultUrl)
      ensures this.apiKey == (if Truthy(apiKey) then apiKey else Getenv(env, "QDRANT_API_KEY"))
      ensures this.collectionName == ArgOrEnv(collectionName, env, "QDRANT_COLLECTION_NAME", DefaultCollection)
      ensures this.embeddingDim == embeddingDim && this.client == client
    {
      this.url := ArgOrEnv(url, env, "QDRANT_URL", DefaultUrl);
      this.apiKey := if Truthy(apiKey) then apiKey else Getenv(env, "QDRANT_API_KEY");
      this.collectionName := ArgOrEnv(collectionName, env, "QDRANT_COLLECTION_NAME", DefaultCollection);
      this.embeddingDim := embeddingDim;
      this.client := client;
    }

    /** Creates the collection with the configured dimension and cosine
        distance; an existing one is deleted first only when
        `forceRecreate` is set, and is otherwise left untouched. */
    method Create(forceRecreate: bool := false)
      modifies client
      ensures var params := VectorParams(embeddingDim, Cosine);
        && (collectionName in old(client.collections) && forceRecreate ==>
              client.calls == old(client.calls) + [DropCall(collectionName), CreateCall(collectionName, params)])
        && (collectionName !in old(client.collections) ==>
              client.calls == old(client.calls) + [CreateCall(collectionName, params)])
        && (collectionName in old(client.collections) && !forceRecreate ==>
              client.calls == old(client.calls))
        && client.collections ==
             if collectionName in old(client.collections) && !forceRecreate then old(client.collections)
             else old(client.collections)[collectionName := params]
    {
      var present := collectionName in client.collections;
      if present && forceRecreate {
        client.Delete(collectionName);
        present := false;
      }
      if !present {
        client.Create(collectionName, VectorParams(embeddingDim, Cosine));
      }
    }

    /** Builds one point per document and upserts them in consecutive
        batches of `batchSize`; returns the number of documents. */
    method AddDocuments(documents: seq<EmbeddedDoc>, uuids: seq<string>, batchSize: nat := 100)
      returns (added: nat)
      requires |uuids| == |documents| && batchSize > 0
      modifies client
      ensures added == |documents|
      ensures client.collections == old(client.collections)
      ensures client.calls ==
        old(client.calls) + UpsertCalls(collectionName, Batches(PointsFor(documents, uuids), batchSize))
    {
      var points: seq<Point> := [];
      for i := 0 to |documents|
        invariant points == PointsFor(documents[..i], uuids[..i])
      {
        points := points + [PointFor(documents[i], uuids[i])];
      }
      assert documents[..|documents|] == documents && uuids[..|uuids|] == uuids;

      var i := 0;
      ghost var sent: seq<seq<Point>> := [];
      while i < |points|
        invariant i <= |points|
        invariant i < |points| ==> sent + Batches(points[i..], batchSize) == Batches(points, batchSize)
        invariant i == |points| ==> sent == Batches(points, batchSize)
        invariant client.collections == old(client.collections)
        invariant client.calls == old(client.calls) + UpsertCalls(collectionName, sent)
        decreases |points| - i
      {
        var batch := points[i..if i + batchSize < |points| then i + batchSize else |points|];
        assert batch == Batches(points[i..], batchSize)[0];
        client.UpsertPoints(collectionName, batch);
        ghost var rest := Batches(points[i..], batchSize)[1..];
        if i + batchSize < |points| {
          assert points[i..][batchSize..] == points[i + batchSize..];
          assert rest == Batches(points[i + batchSize..], batchSize);
        }
        sent := sent + [batch];
        i := if i + batchSize < |points| then i + batchSize else |points|;
      }
      added := |points|;
    }

    /** The query filter built from a filter dictionary: none for `None` or
        an empty dictionary, otherwise one condition per entry under `must`. */
    static method BuildFilter(filters: Option<Metadata>) returns (qf: Option<QueryFilter>)
      ensures qf.None? <==> (filters.None? || filters.value == map[])
      ensures qf.Some? ==> ConditionsFor(filters.value, qf.value.conditions)
    {
      qf := None;
      if filters.Some? && filters.value != map[] {
        var f := filters.value;
        var conditions: seq<Condition> := [];
        var remaining := f.Keys;
        while remaining != {}
          invariant remaining <= f.Keys
          invariant |conditions| + |remaining| == |f.Keys|
          invariant forall i :: 0 <= i < |conditions| ==>
            conditions[i].key in f && conditions[i].key !in remaining && f[conditions[i].key] == conditions[i].value
          invariant forall i, j :: 0 <= i < j < |conditions| ==> conditions[i].key != conditions[j].key
          invariant forall k :: k in f && k !in remaining ==> exists i :: 0 <= i < |conditions| && conditions[i].key == k
          decreases |remaining|
        {
          var k :| k in remaining;
          ghost var before := conditions;
          conditions := conditions + [FieldMatch(k, f[k])];
          remaining := remaining - {k};
          forall k' | k' in f && k' !in remaining
            ensures exists i :: 0 <= i < |conditions| && conditions[i].key == k'
          {
            if k' == k {
              assert conditions[|before|].key == k';
            } else {
              var i :| 0 <= i < |before| && before[i].key == k';
              assert conditions[i].key == k';
            }
          }
        }
        qf := Some(Must(conditions));
      }
    }

    /** Searches the collection: `raw` is what the server returns for the
        request.  Hits keep the server's order and count. */
    method Search(queryEmbedding: seq<real>, topK: nat, filters: Option<Metadata>, raw: seq<ScoredPoint>)
      returns (request: SearchRequest, results: seq<Hit>)
      requires TextIsString(raw)
      ensures request.collection == collectionName && request.vector == queryEmbedding && request.limit == topK
      ensures request.filter.None? <==> (filters.None? || filters.value == map[])
      ensures request.filter.Some? ==> ConditionsFor(filters.value, request.filter.value.conditions)
      ensures |results| == |raw|
      ensures forall i :: 0 <= i < |raw| ==> results[i] == FormatHit(raw[i])
    {
      var qf := BuildFilter(filters);
      request := SearchRequest(collectionName, queryEmbedding, topK, qf);
      results := [];
      for i := 0 to |raw|
        invariant |results| == i
        invariant forall j :: 0 <= j < i ==> results[j] == FormatHit(raw[j])
      {
        results := results + [FormatHit(raw[i])];
      }
    }

    method DeleteCollection()
      modifies client
      ensures client.collections == old(client.collections) - {collectionName}
      ensures client.calls == old(client.calls) + [DropCall(collectionName)]
    {
      client.Delete(collectionName);
    }

    /** The collection report: counts and status as the server gives them,
        but the dimension and distance are the configured ones. */
    method GetCollectionInfo(server: ServerInfo) returns (info: CollectionInfo)
      ensures info.name == collectionName
      ensures info.vectorsCount == server.vectorsCount && info.pointsCount == server.pointsCount
      ensures info.status == server.status
      ensures info.dimension == embeddingDim && info.distance == "cosine"
    {
      info := CollectionInfo(collectionName, server.vectorsCount, server.pointsCount, server.status,
                             embeddingDim, "cosine");
    }
  }

  /** The upserted batches, concatenated, are exactly the points built, one
      per document in order; each batch holds at most `batchSize` points. */
  lemma UploadCoversAllPoints(documents: seq<EmbeddedDoc>, uuids: seq<string>, batchSize: nat)
    requires |uuids| == |documents| && batchSize > 0
    ensures Flatten(Batches(PointsFor(documents, uuids), batchSize)) == PointsFor(documents, uuids)
    ensures |Batches(PointsFor(documents, uuids), batchSize)| == (|documents| + batchSize - 1) / batchSize
    ensures forall k :: 0 <= k < |Batches(PointsFor(documents, uuids), batchSize)| ==>
      |Batches(PointsFor(documents, uuids), batchSize)[k]| <= batchSize
  {
    FlattenBatches(PointsFor(documents, uuids), batchSize);
    BatchShape(PointsFor(documents, uuids), batchSize);
  }

  /** A metadata key "text" overwrites the chunk text in the payload, and a
      hit formatted from that payload reports the metadata's text. */
  lemma MetadataTextOverridesChunkText(doc: EmbeddedDoc, newId: string, score: real)
    requires "text" in doc.metadata && doc.metadata["text"].Str?
    ensures var p := PointFor(doc, newId);
      FormatHit(ScoredPoint(p.id, score, p.payload)).text == doc.metadata["text"].s
  {
  }
}
