/** The RAG retriever (rag_pipeline/retriever.py): a score threshold over
    the vector store's hits, the numbered context string handed to the
    agent, and the mapping of filter arguments to metadata keys. */
module Retriever {
  import opened Values
  import opened Text
  import opened Seqs
  import Numeric
  import opened VectorStore

  /** The context returned when no hit clears the threshold. */
  const NoResults := "No relevant information found."

  /** The dictionary `retrieve` returns. */
  datatype Response = Response(query: string, topK: nat, totalResults: nat, results: seq<Hit>, context: string)

  /** The dictionary `search_manuals_rag` returns to the agent. */
  datatype AgentAnswer = AgentAnswer(
    status: string, query: string, foundInformation: bool, context: string,
    results: seq<Hit>, source: string, numResults: nat)

  function AtLeast(minScore: real): Hit -> bool {
    (h: Hit) => h.score >= minScore
  }

  /** `result["metadata"].get("source", "Unknown")`, as the f-string prints it. */
  function SourceOf(h: Hit): string {
    if "source" in h.metadata then Show(h.metadata["source"]) else "Unknown"
  }

  /** The block for the `n`-th hit (numbered from 1). */
  function Block(n: nat, h: Hit): string {
    BlockHeader(n, h) + h.text + "\n"
  }

  /** The header line of the `n`-th block: number, source and relevance. */
  function BlockHeader(n: nat, h: Hit): string {
    "[" + Numeric.IntToString(n) + "] (Source: " + SourceOf(h) + ", Relevance: "
      + Numeric.Fixed2(h.score) + ")\n"
  }

  function Blocks(results: seq<Hit>): (bs: seq<string>)
    ensures |bs| == |results|
  {
    seq(|results|, i requires 0 <= i < |results| => Block(i + 1, results[i]))
  }

  /** The context string: the sentinel for no hits, otherwise the blocks in
      hit order joined by newlines. */
  function ContextOf(results: seq<Hit>): string {
    if results == [] then NoResults else Join("\n", Blocks(results))
  }

  /** The sentinel is returned exactly when there are no hits: every block
      starts with `[`, the sentinel does not. */
  lemma ContextIsSentinelIffEmpty(results: seq<Hit>)
    ensures ContextOf(results) == NoResults <==> results == []
  {
    if results != [] {
      var bs := Blocks(results);
      JoinStartsWithFirst("\n", bs);
      assert bs[0][0] == '[';
      assert ContextOf(results)[0] == '[';
    }
  }

  /** Every retrieved chunk's text appears in the context. */
  lemma ContextHoldsEveryText(results: seq<Hit>, i: nat)
    requires i < |results|
    ensures Contains(ContextOf(results), results[i].text)
  {
    var bs := Blocks(results);
    JoinContainsEach("\n", bs, i);
    var b := bs[i];
    ContainsMiddle(BlockHeader(i + 1, results[i]), results[i].text, "\n");
    ContainsTransitive(ContextOf(results), b, results[i].text);
  }

  /** Containment is transitive. */
  lemma ContainsTransitive(s: string, t: string, u: string)
    requires Contains(s, t) && Contains(t, u)
    ensures Contains(s, u)
  {
    var i :| 0 <= i <= |s| && t <= s[i..];
    var j :| 0 <= j <= |t| && u <= t[j..];
    assert s[i..][j..] == s[i + j..];
    assert u <= s[i + j..];
  }

  /** `_build_context`: one block per hit, appended in order, then joined. */
  method BuildContext(results: seq<Hit>) returns (context: string)
    ensures context == ContextOf(results)
  {
    if results == [] {
      return NoResults;
    }
    var parts: seq<string> := [];
    ghost var blocks := Blocks(results);
    for i := 0 to |results|
      invariant parts == blocks[..i]
    {
      assert blocks[..i + 1] == blocks[..i] + [blocks[i]];
      parts := parts + [Block(i + 1, results[i])];
    }
    assert blocks[..|results|] == blocks;
    context := Join("\n", parts);
  }

  /** The filter dictionary of `retrieve_with_metadata`: each truthy
      argument under its metadata key, `product_type` under
      "appliance_type" and `model` under "model_number". */
  function WantedFilters(brand: Option<string>, productType: Option<string>, model: Option<string>): (m: Metadata)
    ensures m.Keys <= {"brand", "appliance_type", "model_number"}
    ensures "brand" in m <==> Truthy(brand)
    ensures "appliance_type" in m <==> Truthy(productType)
    ensures "model_number" in m <==> Truthy(model)
    ensures "brand" in m ==> m["brand"] == Str(brand.value)
    ensures "appliance_type" in m ==> m["appliance_type"] == Str(productType.value)
    ensures "model_number" in m ==> m["model_number"] == Str(model.value)
  {
    (if Truthy(brand) then map["brand" := Str(brand.value)] else map[])
    + (if Truthy(productType) then map["appliance_type" := Str(productType.value)] else map[])
    + (if Truthy(model) then map["model_number" := Str(model.value)] else map[])
  }

  /** Fills the filter dictionary key by key; an empty one is passed as
      `None`. */
  method BuildFilters(brand: Option<string>, productType: Option<string>, model: Option<string>)
    returns (filters: Option<Metadata>)
    ensures filters.None? <==> !Truthy(brand) && !Truthy(productType) && !Truthy(model)
    ensures filters.Some? ==> filters.value == WantedFilters(brand, productType, model)
  {
    var m: Metadata := map[];
    if Truthy(brand) {
      m := m["brand" := Str(brand.value)];
    }
    if Truthy(productType) {
      m := m["appliance_type" := Str(productType.value)];
    }
    if Truthy(model) {
      m := m["model_number" := Str(model.value)];
    }
    if Truthy(brand) {
      assert "brand" in m;
    } else if Truthy(productType) {
      assert "appliance_type" in m;
    } else if Truthy(model) {
      assert "model_number" in m;
    }
    filters := if m != map[] then Some(m) else None;
  }

  /** The hits `QdrantStore.search` formats from the server's points. */
  function Formatted(raw: seq<ScoredPoint>): (hs: seq<Hit>)
    requires TextIsString(raw)
    ensures |hs| == |raw|
  {
    seq(|raw|, i requires 0 <= i < |raw| => FormatHit(raw[i]))
  }

  class RAGRetriever {
    const store: QdrantStore

    constructor (store: QdrantStore)
      ensures this.store == store
    {
      this.store := store;
    }

    /** `retrieve`: `queryEmbedding` is what the embedder returns for
        `query` and `raw` what the server returns for the search.  Keeps
        exactly the hits scoring at least `minScore`, in order. */
    method Retrieve(query: string, queryEmbedding: seq<real>, raw: seq<ScoredPoint>,
                    topK: nat := 5, filters: Option<Metadata> := None, minScore: real := 0.0)
      returns (request: SearchRequest, response: Response)
      requires TextIsString(raw)
      ensures request.collection == store.collectionName && request.vector == queryEmbedding
      ensures request.limit == topK
      ensures request.filter.None? <==> (filters.None? || filters.value == map[])
      ensures request.filter.Some? ==> ConditionsFor(filters.value, request.filter.value.conditions)
      ensures response.results == Filter(Formatted(raw), AtLeast(minScore))
      ensures forall i :: 0 <= i < |response.results| ==> response.results[i].score >= minScore
      ensures forall i :: 0 <= i < |raw| && raw[i].score >= minScore ==> FormatHit(raw[i]) in response.results
      ensures response.query == query && response.topK == topK
      ensures response.totalResults == |response.results|
      ensures response.context == ContextOf(response.results)
    {
      var hits;
      request, hits := store.Search(queryEmbedding, topK, filters, raw);
      assert hits == Formatted(raw);
      var kept := Filter(hits, AtLeast(minScore));
      assert forall i :: 0 <= i < |kept| ==> AtLeast(minScore)(kept[i]);
      assert forall i :: 0 <= i < |raw| && raw[i].score >= minScore ==> AtLeast(minScore)(hits[i]);
      var context := BuildContext(kept);
      response := Response(query, topK, |kept|, kept, context);
    }

    /** `retrieve_with_metadata`: the filters built from the arguments and
        the default threshold 0.0. */
    method RetrieveWithMetadata(query: string, queryEmbedding: seq<real>, raw: seq<ScoredPoint>,
                                topK: nat := 5, brand: Option<string> := None,
                                productType: Option<string> := None, model: Option<string> := None)
      returns (request: SearchRequest, response: Response)
      requires TextIsString(raw)
      ensures request.limit == topK
      ensures request.filter.None? <==> !Truthy(brand) && !Truthy(productType) && !Truthy(model)
      ensures request.filter.Some? ==>
        ConditionsFor(WantedFilters(brand, productType, model), request.filter.value.conditions)
      ensures response.results == Filter(Formatted(raw), AtLeast(0.0))
      ensures response.totalResults == |response.results|
      ensures response.context == ContextOf(response.results)
    {
      var filters := BuildFilters(brand, productType, model);
      request, response := Retrieve(query, queryEmbedding, raw, topK, filters, 0.0);
    }
  }

  /** `search_manuals_rag`, with `retriever` the freshly built default
      retriever. */
  method SearchManualsRag(retriever: RAGRetriever, query: string, queryEmbedding: seq<real>,
                          raw: seq<ScoredPoint>, topK: nat := 5,
                          brand: Option<string> := Some("Samsung"),
                          productType: Option<string> := Some("refrigerator"))
    returns (request: SearchRequest, answer: AgentAnswer)
    requires TextIsString(raw)
    ensures request.limit == topK
    ensures answer.status == "success" && answer.query == query
    ensures answer.source == "RAG System (Qdrant + OpenAI)"
    ensures answer.foundInformation <==> answer.numResults > 0
    ensures answer.numResults == |answer.results|
    ensures answer.results == Filter(Formatted(raw), AtLeast(0.0))
    ensures answer.context == ContextOf(answer.results)
    ensures request.filter.None? <==> !Truthy(brand) && !Truthy(productType)
    ensures request.filter.Some? ==>
      ConditionsFor(WantedFilters(brand, productType, None), request.filter.value.conditions)
  {
    var response;
    request, response := retriever.RetrieveWithMetadata(query, queryEmbedding, raw, topK, brand, productType, None);
    answer := AgentAnswer("success", query, response.totalResults > 0, response.context,
                          response.results, "RAG System (Qdrant + OpenAI)", response.totalResults);
  }

  /** With the default arguments the agent filters on brand "Samsung" and
      appliance type "refrigerator", and never on a model number. */
  lemma DefaultAgentFilters()
    ensures WantedFilters(Some("Samsung"), Some("refrigerator"), None)
      == map["brand" := Str("Samsung"), "appliance_type" := Str("refrigerator")]
  {
  }

  /** When every hit clears the threshold, `retrieve` keeps all of them. */
  lemma {:induction false} NothingDroppedAboveThreshold(hits: seq<Hit>, minScore: real)
    requires forall i :: 0 <= i < |hits| ==> hits[i].score >= minScore
    ensures Filter(hits, AtLeast(minScore)) == hits
  {
    if hits != [] {
      NothingDroppedAboveThreshold(hits[1..], minScore);
    }
  }
}
