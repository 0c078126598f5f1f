/** The hybrid document processor `DocumentProcessor`
    (rag_pipeline/document_processor.py): a PDF smaller than a size
    threshold is converted with Docling, a larger one read with PyMuPDF;
    either way the text, the page count and metadata tagged with the route
    taken are returned. Each converter is created on first use. What the
    file system, the two libraries, the hash functions and the storage
    service report are parameters. */
module DocumentProcessing {
  import opened Values
  import opened Text
  import opened Seqs

  /** A hash function by name (`hashlib`), applied to a file's bytes. */
  type Digest = (string, seq<bv8>) -> string

  /** What Docling reports: the markdown export and the page count when
      the document has pages. */
  datatype DoclingResult = DoclingResult(markdown: string, pageCount: Option<nat>)

  /** What the file system and the two libraries report for one file: its
      size, its bytes, Docling's result and PyMuPDF's per-page texts. */
  datatype FileView = FileView(size: nat, contents: seq<bv8>, docling: DoclingResult, pages: seq<string>)

  /** A processed document; `gcsUri` is set when it came from storage. */
  datatype ProcessedDoc = ProcessedDoc(text: string, pages: nat, filePath: string, metadata: Metadata,
                                       gcsUri: Option<string>)

  /** One attempt in a batch: it raised (download or extraction failed),
      or the file was fetched and can be read. */
  datatype Attempt = Raised(error: string) | Fetched(file: FileView)

  /** One batch entry: the processed document, or the URI with the error
      and no text. */
  datatype BatchEntry = Processed(doc: ProcessedDoc) | Failed(uri: string, error: string)

  /** The bucket and object name a download asks for, and where it goes. */
  datatype Download = Download(bucket: string, blob: string, localPath: string)

  datatype BatchSummary = BatchSummary(total: nat, success: nat, failed: nat)

  /** The Docling converter and the PyMuPDF reader: library objects. */
  class DoclingConverter {
    constructor ()
    {
    }
  }

  class PyMuPDFReader {
    constructor ()
    {
    }
  }

  /** `os.path.basename`. */
  function Basename(path: string): string {
    LastSegment(path, '/')
  }

  /** `os.path.join(dir, name)` for a name holding no `'/'`. */
  function PathJoin(dir: string, name: string): string {
    if dir == [] || dir[|dir| - 1] == '/' then dir + name else dir + "/" + name
  }

  /** The metadata both routes record. */
  function FileMetadata(pages: nat, filePath: string, size: nat, hash: string, processor: string): (m: Metadata)
    ensures m.Keys == {"page_count", "source", "file_name", "file_size", "file_hash", "processor"}
  {
    map["page_count" := Int(pages), "source" := Str(filePath), "file_name" := Str(Basename(filePath)),
        "file_size" := Int(size), "file_hash" := Str(hash), "processor" := Str(processor)]
  }

  /** The Docling route's result. */
  function DoclingDoc(filePath: string, file: FileView, digest: Digest): ProcessedDoc {
    var pages := if file.docling.pageCount.Some? then file.docling.pageCount.value else 0;
    ProcessedDoc(file.docling.markdown, pages, filePath,
                 FileMetadata(pages, filePath, file.size, digest("md5", file.contents), "docling"), None)
  }

  /** The PyMuPDF route's result: the page texts joined by blank lines. */
  function PyMuPDFDoc(filePath: string, file: FileView, digest: Digest): ProcessedDoc {
    var pages := |file.pages|;
    ProcessedDoc(Join("\n\n", file.pages), pages, filePath,
                 FileMetadata(pages, filePath, file.size, digest("md5", file.contents), "pymupdf"), None)
  }

  /** Where `download_from_gcs` looks: `"gs://"` removed everywhere, then
      split at the first `'/'` into bucket and object name (`""` when
      there is no `'/'`). */
  function GcsLocation(gcsUri: string): (loc: (string, string))
    ensures '/' !in loc.0
    ensures var stripped := RemoveAll(gcsUri, "gs://");
      if '/' in stripped then stripped == loc.0 + "/" + loc.1 else stripped == loc.0 && loc.1 == ""
  {
    var parts := SplitOnce(RemoveAll(gcsUri, "gs://"), '/');
    (parts[0], if |parts| > 1 then parts[1] else "")
  }

  /** `download_from_gcs`: the request made and the local path returned. */
  function DownloadFromGcs(gcsUri: string, localPath: string): Download {
    var loc := GcsLocation(gcsUri);
    Download(loc.0, loc.1, localPath)
  }

  /** Where `process_gcs_document` caches a URI's file: the last `'/'`
      segment of the URI inside the cache directory. */
  function CachePath(gcsUri: string, cacheDir: string): string {
    PathJoin(cacheDir, LastSegment(gcsUri, '/'))
  }

  /** An entry counts as a success when its text is non-empty. */
  predicate Succeeded(e: BatchEntry) {
    e.Processed? && e.doc.text != []
  }

  predicate NotSucceeded(e: BatchEntry) {
    !Succeeded(e)
  }

  /** The totals printed after a batch. */
  function Summary(results: seq<BatchEntry>): (s: BatchSummary)
    ensures s.total == |results| && s.success + s.failed == s.total
    ensures s.success == Count(results, Succeeded)
  {
    CountComplement(results, Succeeded, NotSucceeded);
    BatchSummary(|results|, Count(results, Succeeded), Count(results, NotSucceeded))
  }

  class DocumentProcessor {
    var doclingConverter: Option<DoclingConverter>
    var pymupdfReader: Option<PyMuPDFReader>
    const sizeThresholdBytes: real
    const sizeThresholdMb: real

    /** Both converters start unloaded; the threshold in bytes is the one
        in megabytes times 1024 * 1024. */
    constructor (sizeThresholdMb: real := 20.0)
      ensures doclingConverter.None? && pymupdfReader.None?
      ensures this.sizeThresholdMb == sizeThresholdMb
      ensures sizeThresholdBytes == sizeThresholdMb * 1024.0 * 1024.0
    {
      doclingConverter := None;
      pymupdfReader := None;
      sizeThresholdBytes := sizeThresholdMb * 1024.0 * 1024.0;
      this.sizeThresholdMb := sizeThresholdMb;
    }

    /** The Docling converter, created on the first call only. */
    method GetDoclingConverter() returns (c: DoclingConverter)
      modifies this
      ensures old(doclingConverter).Some? ==> c == old(doclingConverter).value && doclingConverter == old(doclingConverter)
      ensures old(doclingConverter).None? ==> fresh(c) && doclingConverter == Some(c)
      ensures pymupdfReader == old(pymupdfReader)
    {
      if doclingConverter.None? {
        var created := new DoclingConverter();
        doclingConverter := Some(created);
      }
      c := doclingConverter.value;
    }

    /** The PyMuPDF reader, created on the first call only. */
    method GetPyMuPDFReader() returns (r: PyMuPDFReader)
      modifies this
      ensures old(pymupdfReader).Some? ==> r == old(pymupdfReader).value && pymupdfReader == old(pymupdfReader)
      ensures old(pymupdfReader).None? ==> fresh(r) && pymupdfReader == Some(r)
      ensures doclingConverter == old(doclingConverter)
    {
      if pymupdfReader.None? {
        var created := new PyMuPDFReader();
        pymupdfReader := Some(created);
      }
      r := pymupdfReader.value;
    }

    /** `_should_use_docling`: strictly below the threshold. */
    predicate ShouldUseDocling(fileSize: nat) {
      (fileSize as real) < sizeThresholdBytes
    }

    /** `get_file_hash`: md5 or sha256 of the bytes; any other algorithm
        name is refused. */
    static function GetFileHash(contents: seq<bv8>, digest: Digest, algorithm: string := "md5"): (r: Result<string>)
      ensures r.Ok? <==> algorithm == "md5" || algorithm == "sha256"
      ensures r.Ok? ==> r.value == digest(algorithm, contents)
      ensures r.Err? ==> r.message == "Unsupported algorithm: " + algorithm
    {
      if algorithm == "md5" || algorithm == "sha256" then Ok(digest(algorithm, contents))
      else Err("Unsupported algorithm: " + algorithm)
    }

    /** The document `process_local_document` returns for a file. */
    function Extracted(filePath: string, file: FileView, digest: Digest): ProcessedDoc {
      if ShouldUseDocling(file.size) then DoclingDoc(filePath, file, digest) else PyMuPDFDoc(filePath, file, digest)
    }

    /** `process_local_document`: routes by size; only the converter of
        the route taken is loaded. */
    method ProcessLocalDocument(filePath: string, file: FileView, digest: Digest) returns (doc: ProcessedDoc)
      modifies this
      ensures doc == Extracted(filePath, file, digest)
      ensures ShouldUseDocling(file.size) ==> doclingConverter.Some? && pymupdfReader == old(pymupdfReader)
      ensures !ShouldUseDocling(file.size) ==> pymupdfReader.Some? && doclingConverter == old(doclingConverter)
    {
      if ShouldUseDocling(file.size) {
        var converter := GetDoclingConverter();
        var hash := GetFileHash(file.contents, digest);
        var pages := if file.docling.pageCount.Some? then file.docling.pageCount.value else 0;
        doc := ProcessedDoc(file.docling.markdown, pages, filePath,
                            FileMetadata(pages, filePath, file.size, hash.value, "docling"), None);
      } else {
        var reader := GetPyMuPDFReader();
        var hash := GetFileHash(file.contents, digest);
        var text := Join("\n\n", file.pages);
        doc := ProcessedDoc(text, |file.pages|, filePath,
                            FileMetadata(|file.pages|, filePath, file.size, hash.value, "pymupdf"), None);
      }
    }

    /** `process_gcs_document`: downloads into the cache under the URI's
        last segment, processes the local copy and records the URI. */
    method ProcessGcsDocument(gcsUri: string, file: FileView, digest: Digest, cacheDir: string := "./data/cache")
      returns (download: Download, doc: ProcessedDoc)
      modifies this
      ensures download == DownloadFromGcs(gcsUri, CachePath(gcsUri, cacheDir))
      ensures doc == Extracted(CachePath(gcsUri, cacheDir), file, digest).(gcsUri := Some(gcsUri))
    {
      var filename := LastSegment(gcsUri, '/');
      var localPath := PathJoin(cacheDir, filename);
      download := DownloadFromGcs(gcsUri, localPath);
      doc := ProcessLocalDocument(localPath, file, digest);
      doc := doc.(gcsUri := Some(gcsUri));
    }

    /** `batch_process_documents`: one entry per URI, in order; a failed
        attempt is recorded and the batch goes on. */
    method BatchProcessDocuments(gcsUris: seq<string>, attempts: seq<Attempt>, digest: Digest,
                                 cacheDir: string := "./data/cache")
      returns (results: seq<BatchEntry>)
      requires |attempts| == |gcsUris|
      modifies this
      ensures |results| == |gcsUris|
      ensures forall i :: 0 <= i < |gcsUris| ==> results[i] == EntryFor(gcsUris[i], attempts[i], digest, cacheDir)
    {
      results := [];
      for i := 0 to |gcsUris|
        invariant |results| == i
        invariant forall j :: 0 <= j < i ==> results[j] == EntryFor(gcsUris[j], attempts[j], digest, cacheDir)
      {
        match attempts[i]
        case Raised(error) =>
          results := results + [Failed(gcsUris[i], error)];
        case Fetched(file) =>
          var download, doc := ProcessGcsDocument(gcsUris[i], file, digest, cacheDir);
          results := results + [Processed(doc)];
      }
    }

    /** The entry a batch records for one URI. */
    function EntryFor(gcsUri: string, attempt: Attempt, digest: Digest, cacheDir: string): BatchEntry {
      match attempt
      case Raised(error) => Failed(gcsUri, error)
      case Fetched(file) => Processed(Extracted(CachePath(gcsUri, cacheDir), file, digest).(gcsUri := Some(gcsUri)))
    }
  }

  // ---------------------------------------------------------------- properties

  /** The route is chosen strictly below the threshold (a file of exactly
      the threshold size goes to PyMuPDF), and the metadata names the
      route taken. */
  lemma ProcessorTagFollowsSize(p: DocumentProcessor, filePath: string, file: FileView, digest: Digest)
    ensures var doc := p.Extracted(filePath, file, digest);
      doc.metadata["processor"] == Str(if (file.size as real) < p.sizeThresholdBytes then "docling" else "pymupdf")
    ensures (file.size as real) == p.sizeThresholdBytes ==> p.Extracted(filePath, file, digest).metadata["processor"] == Str("pymupdf")
  {
  }

  /** On the PyMuPDF route the text is the page texts joined by blank
      lines and the page count is the number of pages read; the hash is
      stored but nothing compares it. */
  lemma PyMuPDFJoinsPages(p: DocumentProcessor, filePath: string, file: FileView, digest: Digest)
    requires !p.ShouldUseDocling(file.size)
    ensures var doc := p.Extracted(filePath, file, digest);
      doc.text == Join("\n\n", file.pages) && doc.pages == |file.pages|
      && doc.metadata["file_hash"] == Str(digest("md5", file.contents))
      && forall k :: 0 <= k < |file.pages| ==> Contains(doc.text, file.pages[k])
  {
    forall k | 0 <= k < |file.pages|
      ensures Contains(Join("\n\n", file.pages), file.pages[k])
    {
      JoinContainsEach("\n\n", file.pages, k);
    }
  }

  /** The cached file keeps the URI's last segment as its name, and that
      is the `file_name` recorded. */
  lemma CachedUnderLastSegment(p: DocumentProcessor, gcsUri: string, cacheDir: string, file: FileView, digest: Digest)
    requires cacheDir != [] && cacheDir[|cacheDir| - 1] != '/'
    ensures var doc := p.Extracted(CachePath(gcsUri, cacheDir), file, digest);
      doc.metadata["file_name"] == Str(LastSegment(gcsUri, '/'))
  {
    var name := LastSegment(gcsUri, '/');
    assert CachePath(gcsUri, cacheDir) == cacheDir + ['/'] + name;
    LastSegmentAfter(cacheDir, name, '/');
  }

  /** A failed attempt is never counted as a success; neither is a
      processed document whose extracted text is empty. */
  lemma FailuresNotCounted(p: DocumentProcessor, gcsUri: string, attempt: Attempt, digest: Digest, cacheDir: string)
    ensures Succeeded(p.EntryFor(gcsUri, attempt, digest, cacheDir)) <==>
      attempt.Fetched? && p.Extracted(CachePath(gcsUri, cacheDir), attempt.file, digest).text != []
  {
  }
}
