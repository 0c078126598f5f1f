/** The chunker `LlamaIndexChunker` (rag_pipeline/chunking.py): each
    document's text is handed, with its metadata, to a sentence splitter
    from a library; the chunker records where the document came from and
    concatenates the chunks. The splitter is a parameter. */
module Chunking {
  import opened Values
  import opened Seqs
  import opened Numeric
  import opened Embedding

  /** The sentence splitter: chunk size, overlap, separator, text and
      metadata to the chunk nodes it produces. */
  type Splitter = (int, int, string, string, Metadata) -> seq<TextNode>

  /** A document's metadata dictionary, an object the chunker updates in
      place. */
  class MetadataDict {
    var entries: Metadata

    constructor (entries: Metadata)
      ensures this.entries == entries
    {
      this.entries := entries;
    }
  }

  /** A document as the chunker receives it: its text, its metadata
      dictionary and the locations it may carry (absent keys are `None`). */
  datatype SourceDoc = SourceDoc(text: Option<string>, metadata: Option<MetadataDict>,
                                 gcsUri: Option<string>, filePath: Option<string>)

  datatype ChunkStats = ChunkStats(totalChunks: nat, avgChunkLength: real, minChunkLength: real,
                                   maxChunkLength: real, totalCharacters: real)

  /** What `chunk_documents` is given: a string, a list of documents, or
      anything else. */
  datatype ChunkInput = TextInput(text: string) | DocsInput(docs: seq<SourceDoc>) | OtherInput

  function TextOf(d: SourceDoc): string {
    if d.text.Some? then d.text.value else ""
  }

  /** The metadata after the source is recorded: the GCS URI when the
      document has one, otherwise its file path, otherwise unchanged. */
  function WithSource(m: Metadata, d: SourceDoc): (r: Metadata)
    ensures d.gcsUri.Some? ==> r == m["source" := Str(d.gcsUri.value)]
    ensures d.gcsUri.None? && d.filePath.Some? ==> r == m["source" := Str(d.filePath.value)]
    ensures d.gcsUri.None? && d.filePath.None? ==> r == m
  {
    if d.gcsUri.Some? then m["source" := Str(d.gcsUri.value)]
    else if d.filePath.Some? then m["source" := Str(d.filePath.value)]
    else m
  }

  /** The metadata dictionaries of the documents. */
  function Dicts(docs: seq<SourceDoc>): set<MetadataDict> {
    set i | 0 <= i < |docs| && docs[i].metadata.Some? :: docs[i].metadata.value
  }

  /** No two documents share a metadata dictionary. */
  predicate OwnDicts(docs: seq<SourceDoc>) {
    forall i, j :: 0 <= i < j < |docs| && docs[i].metadata.Some? && docs[j].metadata.Some? ==>
      docs[i].metadata.value != docs[j].metadata.value
  }

  /** Each document's metadata (an absent dictionary reads as `{}`). */
  function Snapshot(docs: seq<SourceDoc>): (ms: seq<Metadata>)
    reads Dicts(docs)
    ensures |ms| == |docs|
  {
    seq(|docs|, i requires 0 <= i < |docs| reads Dicts(docs) =>
      if docs[i].metadata.Some? then docs[i].metadata.value.entries else map[])
  }

  /** Each document's chunks, given the documents' metadata beforehand. */
  function ChunkLists(split: Splitter, size: int, overlap: int, sep: string,
                      docs: seq<SourceDoc>, before: seq<Metadata>): (ls: seq<seq<TextNode>>)
    requires |before| == |docs|
    ensures |ls| == |docs|
    ensures forall i :: 0 <= i < |docs| ==> ls[i] == split(size, overlap, sep, TextOf(docs[i]), WithSource(before[i], docs[i]))
  {
    seq(|docs|, i requires 0 <= i < |docs| => split(size, overlap, sep, TextOf(docs[i]), WithSource(before[i], docs[i])))
  }

  class LlamaIndexChunker {
    const chunkSize: int
    const chunkOverlap: int
    const separator: string
    const split: Splitter

    constructor (split: Splitter, chunkSize: int := 512, chunkOverlap: int := 50, separator: string := " ")
      ensures this.split == split && this.chunkSize == chunkSize
      ensures this.chunkOverlap == chunkOverlap && this.separator == separator
    {
      this.split := split;
      this.chunkSize := chunkSize;
      this.chunkOverlap := chunkOverlap;
      this.separator := separator;
    }

    /** `chunk_text`: the splitter's nodes for the text with `metadata or {}`. */
    function ChunkText(text: string, metadata: Option<Metadata>): seq<TextNode>
    {
      split(chunkSize, chunkOverlap, separator, text, if metadata.Some? then metadata.value else map[])
    }

    /** `chunk_documents`: records each document's source in its own
        metadata dictionary and returns every document's chunks, in
        document order. */
    method ChunkDocuments(docs: seq<SourceDoc>) returns (nodes: seq<TextNode>)
      requires OwnDicts(docs)
      modifies Dicts(docs)
      ensures forall i :: 0 <= i < |docs| && docs[i].metadata.Some? ==>
        docs[i].metadata.value.entries == WithSource(old(docs[i].metadata.value.entries), docs[i])
      ensures nodes == Flatten(ChunkLists(split, chunkSize, chunkOverlap, separator, docs, old(Snapshot(docs))))
    {
      ghost var before := Snapshot(docs);
      ghost var lists := ChunkLists(split, chunkSize, chunkOverlap, separator, docs, before);
      nodes := [];
      for i := 0 to |docs|
        invariant forall j :: 0 <= j < |docs| && docs[j].metadata.Some? ==>
          docs[j].metadata.value.entries == (if j < i then WithSource(before[j], docs[j]) else before[j])
        invariant nodes == Flatten(lists[..i])
      {
        var doc := docs[i];
        var metadata: Metadata := map[];
        if doc.metadata.Some? {
          if doc.gcsUri.Some? {
            doc.metadata.value.entries := doc.metadata.value.entries["source" := Str(doc.gcsUri.value)];
          } else if doc.filePath.Some? {
            doc.metadata.value.entries := doc.metadata.value.entries["source" := Str(doc.filePath.value)];
          }
          metadata := doc.metadata.value.entries;
        } else {
          metadata := WithSource(map[], doc);
        }
        var chunks := ChunkText(TextOf(doc), Some(metadata));
        assert chunks == lists[i];
        FlattenAppend(lists[..i], [lists[i]]);
        assert lists[..i + 1] == lists[..i] + [lists[i]];
        nodes := nodes + chunks;
      }
      assert lists[..|docs|] == lists;
    }

    /** `get_chunk_stats`: count, mean, least and greatest length, and
        total characters; all zero for no chunks. */
    static function GetChunkStats(nodes: seq<TextNode>): (s: ChunkStats)
      ensures s.totalChunks == |nodes|
      ensures nodes == [] ==> s == ChunkStats(0, 0.0, 0.0, 0.0, 0.0)
      ensures nodes != [] ==> s.minChunkLength <= s.avgChunkLength <= s.maxChunkLength
      ensures s.totalCharacters == Sum(Lengths(nodes))
    {
      var ls := Lengths(nodes);
      if ls == [] then ChunkStats(0, 0.0, 0.0, 0.0, 0.0)
      else
        MeanBetweenMinAndMax(ls);
        ChunkStats(|nodes|, Sum(ls) / |ls| as real, Min(ls), Max(ls), Sum(ls))
    }
  }

  /** The character counts of the chunks. */
  function Lengths(nodes: seq<TextNode>): (ls: seq<real>)
    ensures |ls| == |nodes| && forall i :: 0 <= i < |nodes| ==> ls[i] == |nodes[i].text| as real
  {
    seq(|nodes|, i requires 0 <= i < |nodes| => |nodes[i].text| as real)
  }

  /** The module-level `chunk_documents`: a string is split with the given
      metadata, a list of documents goes through `chunk_documents`, and
      anything else is refused. */
  method ChunkInputWith(input: ChunkInput, split: Splitter, chunkSize: int := 512, chunkOverlap: int := 50,
                        metadata: Option<Metadata> := None)
    returns (r: Result<seq<TextNode>>)
    requires input.DocsInput? ==> OwnDicts(input.docs)
    modifies if input.DocsInput? then Dicts(input.docs) else {}
    ensures input.OtherInput? <==> r.Err?
    ensures r.Err? ==> r.message == "Input must be string or list of document dicts"
    ensures input.TextInput? ==> r == Ok(split(chunkSize, chunkOverlap, " ", input.text,
                                                if metadata.Some? then metadata.value else map[]))
    ensures input.DocsInput? ==>
      r == Ok(Flatten(ChunkLists(split, chunkSize, chunkOverlap, " ", input.docs, old(Snapshot(input.docs)))))
  {
    var chunker := new LlamaIndexChunker(split, chunkSize, chunkOverlap);
    match input
    case TextInput(text) =>
      r := Ok(chunker.ChunkText(text, metadata));
    case DocsInput(docs) =>
      var nodes := chunker.ChunkDocuments(docs);
      r := Ok(nodes);
    case OtherInput =>
      r := Err("Input must be string or list of document dicts");
  }

  // ---------------------------------------------------------------- properties

  /** A chunk is produced exactly when the splitter produced it for some
      document. */
  lemma ChunkCameFromADocument(split: Splitter, size: int, overlap: int, sep: string,
                               docs: seq<SourceDoc>, before: seq<Metadata>, node: TextNode)
    requires |before| == |docs|
    ensures node in Flatten(ChunkLists(split, size, overlap, sep, docs, before)) <==>
      exists i :: 0 <= i < |docs| && node in split(size, overlap, sep, TextOf(docs[i]), WithSource(before[i], docs[i]))
  {
    var ls := ChunkLists(split, size, overlap, sep, docs, before);
    InFlatten(ls, node);
    if node in Flatten(ls) {
      var i :| 0 <= i < |ls| && node in ls[i];
      assert node in split(size, overlap, sep, TextOf(docs[i]), WithSource(before[i], docs[i]));
    }
  }

  /** The total is the sum of the lengths; every chunk's length lies
      between the reported minimum and maximum. */
  lemma StatsBoundEveryChunk(nodes: seq<TextNode>, k: nat)
    requires k < |nodes|
    ensures LlamaIndexChunker.GetChunkStats(nodes).minChunkLength <= |nodes[k].text| as real <= LlamaIndexChunker.GetChunkStats(nodes).maxChunkLength
  {
    var ls := Lengths(nodes);
    assert ls[k] == |nodes[k].text| as real;
  }
}
