/** The embedder `OpenAIEmbedder` (rag_pipeline/embedding.py): texts are
    sent to the embedding service in consecutive batches; a batch whose
    call fails contributes one `None` per text so later positions stay
    aligned. The service's answers are parameters: one per batch, `None`
    when the call raised, otherwise the vectors it returned. */
module Embedding {
  import opened Values
  import opened Text
  import opened Seqs
  import opened VectorStore

  type Vector = seq<real>

  /** What the service answered for one batch. */
  type Reply = Option<seq<Vector>>

  /** A chunk node: its id, text and metadata. */
  datatype TextNode = TextNode(nodeId: string, text: string, metadata: Metadata)

  datatype EmbeddingStats = EmbeddingStats(total: nat, valid: nat, failed: nat, dimension: nat, model: string)

  const DefaultModel := "text-embedding-3-small"

  /** The embedding dimension assumed for a model name. */
  function EmbeddingDim(model: string): (d: nat)
    ensures d == 1536 || d == 3072
    ensures d == 1536 <==> Contains(model, "small")
  {
    if Contains(model, "small") then 1536 else 3072
  }

  /** The output for one batch: a placeholder per text when the call
      failed, otherwise the vectors returned, in order. */
  function BatchOutput(batch: seq<string>, reply: Reply): (out: seq<Option<Vector>>)
    ensures reply.None? ==> |out| == |batch| && forall j :: 0 <= j < |out| ==> out[j].None?
    ensures reply.Some? ==> |out| == |reply.value| && forall j :: 0 <= j < |out| ==> out[j] == Some(reply.value[j])
  {
    if reply.None? then seq(|batch|, j => None)
    else seq(|reply.value|, j requires 0 <= j < |reply.value| => Some(reply.value[j]))
  }

  /** The length of the first batch of `texts`. */
  function FirstBatchLength(texts: seq<string>, size: nat): nat {
    if |texts| <= size then |texts| else size
  }

  /** The output of `embed_texts` for `replies`, one per batch. */
  function Embedded(texts: seq<string>, size: nat, replies: seq<Reply>): seq<Option<Vector>>
    requires size > 0 && |replies| == |Batches(texts, size)|
    decreases |texts|
  {
    if texts == [] then []
    else
      var n := FirstBatchLength(texts, size);
      BatchOutput(texts[..n], replies[0]) + Embedded(texts[n..], size, replies[1..])
  }

  /** One unfolding of `Embedded`: the first batch's output, then the rest. */
  lemma EmbeddedStep(texts: seq<string>, size: nat, replies: seq<Reply>)
    requires size > 0 && |replies| == |Batches(texts, size)| && texts != []
    ensures |replies[1..]| == |Batches(texts[FirstBatchLength(texts, size)..], size)|
    ensures Embedded(texts, size, replies)
            == BatchOutput(texts[..FirstBatchLength(texts, size)], replies[0])
               + Embedded(texts[FirstBatchLength(texts, size)..], size, replies[1..])
  {
  }

  /** The embeddings kept as documents: nodes paired with embeddings,
      position by position, keeping those whose embedding is present. */
  function KeptDocs(nodes: seq<TextNode>, embeddings: seq<Option<Vector>>): seq<EmbeddedDoc> {
    if nodes == [] || embeddings == [] then []
    else
      (if embeddings[0].Some?
       then [EmbeddedDoc(Some(nodes[0].nodeId), nodes[0].text, embeddings[0].value, nodes[0].metadata)]
       else [])
      + KeptDocs(nodes[1..], embeddings[1..])
  }

  /** One unfolding of `KeptDocs`. */
  lemma KeptDocsStep(nodes: seq<TextNode>, embeddings: seq<Option<Vector>>)
    requires nodes != [] && embeddings != []
    ensures KeptDocs(nodes, embeddings)
            == (if embeddings[0].Some?
                then [EmbeddedDoc(Some(nodes[0].nodeId), nodes[0].text, embeddings[0].value, nodes[0].metadata)]
                else [])
               + KeptDocs(nodes[1..], embeddings[1..])
  {
  }

  /** The pass pairing nodes with their embeddings. */
  method Keep(nodes: seq<TextNode>, embeddings: seq<Option<Vector>>) returns (docs: seq<EmbeddedDoc>)
    ensures docs == KeptDocs(nodes, embeddings)
  {
    docs := [];
    var m := if |nodes| < |embeddings| then |nodes| else |embeddings|;
    ghost var restNodes, restEmbeddings := nodes, embeddings;
    for i := 0 to m
      invariant restNodes == nodes[i..] && restEmbeddings == embeddings[i..]
      invariant docs + KeptDocs(restNodes, restEmbeddings) == KeptDocs(nodes, embeddings)
    {
      KeptDocsStep(restNodes, restEmbeddings);
      if embeddings[i].Some? {
        docs := docs + [EmbeddedDoc(Some(nodes[i].nodeId), nodes[i].text, embeddings[i].value, nodes[i].metadata)];
      }
      restNodes, restEmbeddings := restNodes[1..], restEmbeddings[1..];
    }
    assert restNodes == [] || restEmbeddings == [];
  }

  /** The nodes' texts, in order. */
  function Texts(nodes: seq<TextNode>): (ts: seq<string>)
    ensures |ts| == |nodes| && forall i :: 0 <= i < |nodes| ==> ts[i] == nodes[i].text
  {
    seq(|nodes|, i requires 0 <= i < |nodes| => nodes[i].text)
  }

  predicate Present(e: Option<Vector>) {
    e.Some?
  }

  /** `get_embedding_stats`. */
  function StatsOf(embeddings: seq<Option<Vector>>, model: string): EmbeddingStats {
    var valid := Filter(embeddings, Present);
    EmbeddingStats(|embeddings|, |valid|, |embeddings| - |valid|,
                   if valid != [] then |valid[0].value| else 0, model)
  }

  class OpenAIEmbedder {
    const apiKey: Option<string>
    const model: string
    const batchSize: nat
    const embeddingDim: nat

    /** `apiKey or $OPENAI_API_KEY`; `model or $OPENAI_EMBEDDING_MODEL`,
        defaulting to text-embedding-3-small; the dimension follows the
        model name. */
    constructor (apiKey: Option<string>, model: Option<string>, env: map<string, string>, batchSize: nat := 100)
      ensures this.apiKey == (if Truthy(apiKey) then apiKey else Getenv(env, "OPENAI_API_KEY"))
      ensures this.model == ArgOrEnv(model, env, "OPENAI_EMBEDDING_MODEL", DefaultModel)
      ensures this.batchSize == batchSize
      ensures this.embeddingDim == EmbeddingDim(this.model)
    {
      this.apiKey := if Truthy(apiKey) then apiKey else Getenv(env, "OPENAI_API_KEY");
      this.model := ArgOrEnv(model, env, "OPENAI_EMBEDDING_MODEL", DefaultModel);
      this.batchSize := batchSize;
      this.embeddingDim := EmbeddingDim(ArgOrEnv(model, env, "OPENAI_EMBEDDING_MODEL", DefaultModel));
    }

    /** `embed_texts`: one service call per batch, in order. */
    method EmbedTexts(texts: seq<string>, replies: seq<Reply>) returns (all: seq<Option<Vector>>)
      requires batchSize > 0 && |replies| == |Batches(texts, batchSize)|
      ensures all == Embedded(texts, batchSize, replies)
    {
      all := [];
      var i := 0;
      var k := 0;
      ghost var rest, restReplies := texts, replies;
      while i < |texts|
        invariant i <= |texts| && k <= |replies|
        invariant rest == texts[i..] && restReplies == replies[k..]
        invariant |restReplies| == |Batches(rest, batchSize)|
        invariant all + Embedded(rest, batchSize, restReplies) == Embedded(texts, batchSize, replies)
        decreases |texts| - i
      {
        var n := FirstBatchLength(texts[i..], batchSize);
        var batch := texts[i..i + n];
        EmbeddedStep(rest, batchSize, restReplies);
        assert batch == rest[..n];
        var out := EmbedBatch(batch, replies[k]);
        all := all + out;
        rest, restReplies := rest[n..], restReplies[1..];
        i := i + n;
        k := k + 1;
      }
    }

    /** One batch's call: its vectors, or one `None` per text when the
        call raised. */
    method EmbedBatch(batch: seq<string>, reply: Reply) returns (out: seq<Option<Vector>>)
      ensures out == BatchOutput(batch, reply)
    {
      if reply.Some? {
        out := seq(|reply.value|, j requires 0 <= j < |reply.value| => Some(reply.value[j]));
      } else {
        out := seq(|batch|, j => None);
      }
    }

    /** `embed_nodes`: the nodes' texts are embedded, and each node whose
        embedding is present becomes a document. */
    method EmbedNodes(nodes: seq<TextNode>, replies: seq<Reply>) returns (docs: seq<EmbeddedDoc>)
      requires batchSize > 0 && |replies| == |Batches(Texts(nodes), batchSize)|
      ensures docs == KeptDocs(nodes, Embedded(Texts(nodes), batchSize, replies))
    {
      var embeddings := EmbedTexts(Texts(nodes), replies);
      docs := Keep(nodes, embeddings);
    }

    /** `get_embedding_stats`. */
    function GetEmbeddingStats(embeddings: seq<Option<Vector>>): (s: EmbeddingStats)
      reads this
      ensures s.total == |embeddings| && s.valid + s.failed == s.total && s.model == model
      ensures s.valid == Count(embeddings, Present)
      ensures s.dimension == (match FirstIndex(embeddings, Present)
                              case Some(k) => |embeddings[k].value|
                              case None => 0)
    {
      FirstPresentIsFirstValid(embeddings);
      StatsOf(embeddings, model)
    }
  }

  // ---------------------------------------------------------------- properties

  /** The first kept embedding is the first present one. */
  lemma {:induction false} FirstPresentIsFirstValid(embeddings: seq<Option<Vector>>)
    ensures var valid := Filter(embeddings, Present);
      match FirstIndex(embeddings, Present)
      case Some(k) => valid != [] && valid[0] == embeddings[k]
      case None => valid == []
  {
    if embeddings != [] {
      FirstPresentIsFirstValid(embeddings[1..]);
    }
  }

  /** What the reply for the batch holding position `j` says for it:
      its vector at `j`'s place in the batch, or `None` when the call
      failed. */
  function SlotAt(replies: seq<Reply>, j: nat, size: nat): Option<Vector>
    requires size > 0
  {
    var q := j / size;
    if q < |replies| && replies[q].Some? && j % size < |replies[q].value|
    then Some(replies[q].value[j % size]) else None
  }

  /** The batches of `texts`: the first `FirstBatchLength` texts, then the
      batches of the rest. */
  lemma BatchesStep(texts: seq<string>, size: nat)
    requires size > 0 && texts != []
    ensures var n := FirstBatchLength(texts, size);
      var bs := Batches(texts, size);
      bs != [] && bs[0] == texts[..n] && bs[1..] == Batches(texts[n..], size)
  {
    var n := FirstBatchLength(texts, size);
    if |texts| <= size {
      assert texts[n..] == [];
    }
  }

  /** When every successful call returns one vector per text, the output
      has one entry per text and entry `j` is what the call for `j`'s batch
      returned for it (`None` when that call failed). */
  lemma {:induction false} EmbeddedAligned(texts: seq<string>, size: nat, replies: seq<Reply>)
    requires size > 0 && |replies| == |Batches(texts, size)|
    requires forall k :: 0 <= k < |replies| && replies[k].Some? ==> |replies[k].value| == |Batches(texts, size)[k]|
    ensures |Embedded(texts, size, replies)| == |texts|
    ensures forall j :: 0 <= j < |texts| ==> Embedded(texts, size, replies)[j] == SlotAt(replies, j, size)
    decreases |texts|
  {
    if texts != [] {
      var n := FirstBatchLength(texts, size);
      var rest := texts[n..];
      BatchesStep(texts, size);
      var bs := Batches(texts, size);
      assert forall k :: 0 <= k < |replies| - 1 ==> replies[1..][k] == replies[k + 1] && Batches(rest, size)[k] == bs[k + 1];
      EmbeddedAligned(rest, size, replies[1..]);
      var head := BatchOutput(texts[..n], replies[0]);
      var tail := Embedded(rest, size, replies[1..]);
      assert |head| == n;
      ConcatAligned(head, tail, replies, size, n == |texts|);
    }
  }

  /** The first batch's output followed by the aligned output of the rest
      is aligned. */
  lemma ConcatAligned(head: seq<Option<Vector>>, tail: seq<Option<Vector>>, replies: seq<Reply>, size: nat, last: bool)
    requires size > 0 && replies != []
    requires |head| == size || (last && |head| <= size && tail == [])
    requires replies[0].None? ==> forall j :: 0 <= j < |head| ==> head[j].None?
    requires replies[0].Some? ==> |replies[0].value| == |head| && forall j :: 0 <= j < |head| ==> head[j] == Some(replies[0].value[j])
    requires forall j :: 0 <= j < |tail| ==> tail[j] == SlotAt(replies[1..], j, size)
    ensures forall j :: 0 <= j < |head + tail| ==> (head + tail)[j] == SlotAt(replies, j, size)
  {
    forall j | 0 <= j < |head + tail|
      ensures (head + tail)[j] == SlotAt(replies, j, size)
    {
      if j < |head| {
        SlotHead(replies, j, size);
      } else {
        SlotShift(replies, j, size);
        assert (head + tail)[j] == tail[j - size];
      }
    }
  }

  /** A position inside the first batch reads the first reply. */
  lemma SlotHead(replies: seq<Reply>, j: nat, size: nat)
    requires size > 0 && replies != [] && j < size
    ensures SlotAt(replies, j, size) ==
      if replies[0].Some? && j < |replies[0].value| then Some(replies[0].value[j]) else None
  {
    assert j / size == 0 && j % size == j;
  }

  /** A position past the first batch reads the remaining replies, one
      batch earlier. */
  lemma SlotShift(replies: seq<Reply>, j: nat, size: nat)
    requires size > 0 && replies != [] && j >= size
    ensures SlotAt(replies, j, size) == SlotAt(replies[1..], j - size, size)
  {
    ShiftByBatch(j - size, size);
    var q := (j - size) / size;
    assert j / size == q + 1;
    if q < |replies[1..]| {
      assert replies[1..][q] == replies[q + 1];
    }
  }

  lemma ShiftByBatch(a: nat, b: nat)
    requires b > 0
    ensures (a + b) / b == a / b + 1 && (a + b) % b == a % b
  {
    DivShift(a, b);
  }

  /** Each document comes from a node whose embedding is present, at the
      same position; each node with a present embedding (within the
      shorter list) yields its document. */
  lemma {:induction false} KeptDocsExactly(nodes: seq<TextNode>, embeddings: seq<Option<Vector>>)
    ensures forall d :: d in KeptDocs(nodes, embeddings) ==>
      exists i :: 0 <= i < |nodes| && i < |embeddings| && embeddings[i].Some?
        && d == EmbeddedDoc(Some(nodes[i].nodeId), nodes[i].text, embeddings[i].value, nodes[i].metadata)
    ensures forall i :: 0 <= i < |nodes| && i < |embeddings| && embeddings[i].Some? ==>
      EmbeddedDoc(Some(nodes[i].nodeId), nodes[i].text, embeddings[i].value, nodes[i].metadata) in KeptDocs(nodes, embeddings)
  {
    if nodes != [] && embeddings != [] {
      KeptDocsExactly(nodes[1..], embeddings[1..]);
      assert forall i :: 1 <= i < |nodes| ==> nodes[1..][i - 1] == nodes[i];
      assert forall i :: 1 <= i < |embeddings| ==> embeddings[1..][i - 1] == embeddings[i];
    }
  }

  /** With aligned replies, one document per successfully embedded text. */
  lemma {:induction false} KeptDocsCount(nodes: seq<TextNode>, embeddings: seq<Option<Vector>>)
    requires |nodes| == |embeddings|
    ensures |KeptDocs(nodes, embeddings)| == Count(embeddings, Present)
  {
    if nodes != [] {
      KeptDocsCount(nodes[1..], embeddings[1..]);
    }
  }
}
