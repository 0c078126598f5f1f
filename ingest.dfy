/** The ingestion script (scripts/ingest_manuals.py): each manual named by
    a storage URI is extracted, its file name is parsed into brand, model
    and product type, and the manuals that could be read are handed on to
    chunking, embedding and storage. The command line either lists the
    URIs or names a storage prefix whose PDF objects are listed. The
    storage listing is a parameter. */
module Ingestion {
  import opened Values
  import opened Text
  import DocumentProcessing

  /** A manual ready for chunking: its text, the metadata parsed from its
      URI and the URI itself. */
  datatype ManualDoc = ManualDoc(text: string, metadata: Metadata, gcsUri: string)

  /** The command-line options `main` reads. */
  datatype Args = Args(gcsUris: Option<seq<string>>, gcsPrefix: Option<string>,
                       chunkSize: int, chunkOverlap: int, batchSize: int)

  /** The object listing of a bucket under a prefix: bucket and prefix to
      object names. */
  type Listing = (string, string) -> seq<string>

  /** Where the processor caches downloads unless told otherwise. */
  const CacheDir := "./data/cache"

  /** The file name: the URI's last `'/'` segment with every `".pdf"`
      removed. */
  function Filename(gcsUri: string): string {
    RemoveAll(LastSegment(gcsUri, '/'), ".pdf")
  }

  /** The metadata recorded for a manual: the URI as source, the file
      name, the page count, and brand, model and product type from the
      `'_'`-separated pieces of the file name, with `"Unknown"` and
      `"appliance"` when the pieces run out. */
  function ManualMetadata(gcsUri: string, pages: nat): (m: Metadata)
    ensures m.Keys == {"source", "filename", "pages", "brand", "product_type", "model"}
    ensures m["source"] == Str(gcsUri) && m["pages"] == Int(pages)
    ensures var parts := SplitOn(Filename(gcsUri), '_');
      m["brand"] == Str(parts[0])
      && m["model"] == Str(if |parts| > 1 then parts[1] else "Unknown")
      && m["product_type"] == Str(if |parts| > 2 then Lower(parts[2]) else "appliance")
  {
    var filename := Filename(gcsUri);
    var parts := SplitOn(filename, '_');
    map["source" := Str(gcsUri),
        "filename" := Str(filename),
        "pages" := Int(pages),
        "brand" := Str(if |parts| > 0 then parts[0] else "Unknown"),
        "product_type" := Str(if |parts| > 2 then Lower(parts[2]) else "appliance"),
        "model" := Str(if |parts| > 1 then parts[1] else "Unknown")]
  }

  /** The manual recorded for a URI whose file was fetched; the
      processor's own metadata (hash, processor, file name) is dropped. */
  function DocFor(p: DocumentProcessing.DocumentProcessor, gcsUri: string, file: DocumentProcessing.FileView,
                  digest: DocumentProcessing.Digest): (d: ManualDoc)
    ensures d.gcsUri == gcsUri && "source" in d.metadata && d.metadata["source"] == Str(gcsUri)
  {
    var doc := p.Extracted(DocumentProcessing.CachePath(gcsUri, CacheDir), file, digest);
    ManualDoc(doc.text, ManualMetadata(gcsUri, doc.pages), gcsUri)
  }

  /** The present values, in order. */
  function Kept<T>(xs: seq<Option<T>>): (ys: seq<T>)
    ensures |ys| <= |xs|
  {
    if xs == [] then []
    else
      var n := |xs| - 1;
      Kept(xs[..n]) + (if xs[n].Some? then [xs[n].value] else [])
  }

  /** What each URI's attempt contributes: its manual, or nothing when the
      attempt failed. */
  function Outcomes(p: DocumentProcessing.DocumentProcessor, gcsUris: seq<string>,
                    attempts: seq<DocumentProcessing.Attempt>, digest: DocumentProcessing.Digest)
    : (os: seq<Option<ManualDoc>>)
    requires |attempts| == |gcsUris|
    ensures |os| == |gcsUris|
    ensures forall i :: 0 <= i < |gcsUris| ==>
      os[i] == if attempts[i].Fetched? then Some(DocFor(p, gcsUris[i], attempts[i].file, digest)) else None
  {
    seq(|gcsUris|, i requires 0 <= i < |gcsUris| =>
      if attempts[i].Fetched? then Some(DocFor(p, gcsUris[i], attempts[i].file, digest)) else None)
  }

  /** The manuals the extraction step keeps, in URI order: failed
      attempts are skipped. */
  function ManualDocs(p: DocumentProcessing.DocumentProcessor, gcsUris: seq<string>,
                      attempts: seq<DocumentProcessing.Attempt>, digest: DocumentProcessing.Digest): seq<ManualDoc>
    requires |attempts| == |gcsUris|
  {
    Kept(Outcomes(p, gcsUris, attempts, digest))
  }

  /** The extraction step of `ingest_manuals_from_gcs`: each URI is
      processed in turn; a failure is reported and skipped. */
  method ExtractManuals(p: DocumentProcessing.DocumentProcessor, gcsUris: seq<string>,
                        attempts: seq<DocumentProcessing.Attempt>, digest: DocumentProcessing.Digest)
    returns (documents: seq<ManualDoc>)
    requires |attempts| == |gcsUris|
    modifies p
    ensures documents == ManualDocs(p, gcsUris, attempts, digest)
  {
    ghost var outcomes := Outcomes(p, gcsUris, attempts, digest);
    documents := [];
    for i := 0 to |gcsUris|
      invariant documents == Kept(outcomes[..i])
    {
      assert outcomes[..i + 1][..i] == outcomes[..i];
      match attempts[i]
      case Raised(error) =>
      case Fetched(file) =>
        var download, result := p.ProcessGcsDocument(gcsUris[i], file, digest);
        var metadata := ManualMetadata(gcsUris[i], result.pages);
        documents := documents + [ManualDoc(result.text, metadata, gcsUris[i])];
    }
    assert outcomes[..|gcsUris|] == outcomes;
  }

  /** `--gcs-prefix` parsed: the bucket is the first `'/'` piece after
      `"gs://"` is removed, the object prefix the remaining pieces joined
      by `'/'`. */
  function PrefixLocation(gcsPrefix: string): (string, string) {
    var parts := SplitOn(RemoveAll(gcsPrefix, "gs://"), '/');
    (parts[0], Join("/", parts[1..]))
  }

  /** The URIs of the listed objects that end in `".pdf"`, in listing
      order. */
  function PdfUris(bucket: string, names: seq<string>): seq<string> {
    if names == [] then []
    else
      var n := |names| - 1;
      PdfUris(bucket, names[..n]) + (if EndsWith(names[n], ".pdf") then ["gs://" + bucket + "/" + names[n]] else [])
  }

  /** The loop in `main` over the listed objects. */
  method CollectPdfUris(bucket: string, names: seq<string>) returns (gcsUris: seq<string>)
    ensures gcsUris == PdfUris(bucket, names)
  {
    gcsUris := [];
    for i := 0 to |names|
      invariant gcsUris == PdfUris(bucket, names[..i])
    {
      assert names[..i + 1][..i] == names[..i];
      if EndsWith(names[i], ".pdf") {
        gcsUris := gcsUris + ["gs://" + bucket + "/" + names[i]];
      }
    }
    assert names[..|names|] == names;
  }

  /** URI selection in `main`: a non-empty `--gcs-uris` wins, then a
      non-empty `--gcs-prefix` is listed; with neither, nothing is
      ingested (`None`). */
  method SelectUris(args: Args, listBlobs: Listing) returns (r: Option<seq<string>>)
    ensures args.gcsUris.Some? && args.gcsUris.value != [] ==> r == Some(args.gcsUris.value)
    ensures !(args.gcsUris.Some? && args.gcsUris.value != []) && Truthy(args.gcsPrefix) ==>
      var loc := PrefixLocation(args.gcsPrefix.value);
      r == Some(PdfUris(loc.0, listBlobs(loc.0, loc.1)))
    ensures r.None? <==> !(args.gcsUris.Some? && args.gcsUris.value != []) && !Truthy(args.gcsPrefix)
  {
    if args.gcsUris.Some? && args.gcsUris.value != [] {
      r := Some(args.gcsUris.value);
    } else if args.gcsPrefix.Some? && args.gcsPrefix.value != "" {
      var stripped := RemoveAll(args.gcsPrefix.value, "gs://");
      var bucketName := SplitOn(stripped, '/')[0];
      var prefix := Join("/", SplitOn(stripped, '/')[1..]);
      var uris := CollectPdfUris(bucketName, listBlobs(bucketName, prefix));
      r := Some(uris);
    } else {
      r := None;
    }
  }

  // ---------------------------------------------------------------- properties

  /** A value is kept exactly when some entry holds it. */
  lemma {:induction false} KeptExactly<T>(xs: seq<Option<T>>, y: T)
    ensures y in Kept(xs) <==> exists i :: 0 <= i < |xs| && xs[i] == Some(y)
  {
    if xs != [] {
      var n := |xs| - 1;
      KeptExactly(xs[..n], y);
      assert forall i :: 0 <= i < n ==> xs[..n][i] == xs[i];
    }
  }

  /** With every entry present, nothing is dropped and the order is kept. */
  lemma {:induction false} KeptAllInOrder<T>(xs: seq<Option<T>>)
    requires forall i :: 0 <= i < |xs| ==> xs[i].Some?
    ensures |Kept(xs)| == |xs|
    ensures forall i :: 0 <= i < |xs| ==> Kept(xs)[i] == xs[i].value
  {
    if xs != [] {
      KeptAllInOrder(xs[..|xs| - 1]);
    }
  }

  /** A manual is kept exactly for each URI whose attempt succeeded. */
  lemma KeptExactlyTheFetched(p: DocumentProcessing.DocumentProcessor, gcsUris: seq<string>,
                              attempts: seq<DocumentProcessing.Attempt>, digest: DocumentProcessing.Digest, d: ManualDoc)
    requires |attempts| == |gcsUris|
    ensures d in ManualDocs(p, gcsUris, attempts, digest) <==>
      exists i :: 0 <= i < |gcsUris| && attempts[i].Fetched? && d == DocFor(p, gcsUris[i], attempts[i].file, digest)
  {
    KeptExactly(Outcomes(p, gcsUris, attempts, digest), d);
  }

  /** When every attempt succeeds, every URI yields one manual, in URI
      order. */
  lemma AllFetchedKeepsOrder(p: DocumentProcessing.DocumentProcessor, gcsUris: seq<string>,
                             attempts: seq<DocumentProcessing.Attempt>, digest: DocumentProcessing.Digest)
    requires |attempts| == |gcsUris|
    requires forall i :: 0 <= i < |attempts| ==> attempts[i].Fetched?
    ensures |ManualDocs(p, gcsUris, attempts, digest)| == |gcsUris|
    ensures forall i :: 0 <= i < |gcsUris| ==>
      ManualDocs(p, gcsUris, attempts, digest)[i] == DocFor(p, gcsUris[i], attempts[i].file, digest)
  {
    KeptAllInOrder(Outcomes(p, gcsUris, attempts, digest));
  }

  /** A manual stored as `<dir>/<name>` takes its file name from `name`
      alone. */
  lemma UriFilename(dir: string, name: string)
    requires '/' !in name
    ensures Filename(dir + "/" + name) == RemoveAll(name, ".pdf")
  {
    LastSegmentAfter(dir, name, '/');
  }

  /** A file name written `<brand>_<model>_<type>` (pieces free of `'_'`)
      is read back as that brand, that model and the lower-cased type. */
  lemma NamedPartsReadBack(gcsUri: string, pages: nat, brand: string, model: string, kind: string)
    requires '_' !in brand && '_' !in model && '_' !in kind
    requires Filename(gcsUri) == brand + "_" + model + "_" + kind
    ensures var m := ManualMetadata(gcsUri, pages);
      m["brand"] == Str(brand) && m["model"] == Str(model) && m["product_type"] == Str(Lower(kind))
  {
    var parts := [brand, model, kind];
    var f := Filename(gcsUri);
    assert parts[1..] == [model, kind];
    assert [model, kind][1..] == [kind];
    assert Join(['_'], [model, kind]) == model + ['_'] + kind;
    assert Join(['_'], parts) == brand + ['_'] + (model + ['_'] + kind);
    assert f == brand + ['_'] + (model + ['_'] + kind);
    SplitOnJoin(parts, '_');
    assert SplitOn(f, '_') == parts;
  }

  /** A file name without `'_'` gives the whole name as brand and the
      defaults for model and type. */
  lemma UnseparatedNameDefaults(gcsUri: string, pages: nat)
    requires '_' !in Filename(gcsUri)
    ensures var m := ManualMetadata(gcsUri, pages);
      m["brand"] == Str(Filename(gcsUri)) && m["model"] == Str("Unknown") && m["product_type"] == Str("appliance")
  {
    SplitOnAbsent(Filename(gcsUri), '_');
  }

  /** The prefix parse loses nothing: the bucket holds no `'/'`, and the
      bucket, a `'/'` and the object prefix give back the prefix without
      `"gs://"` (the object prefix is empty when there is no `'/'`). */
  lemma PrefixLocationSplits(gcsPrefix: string)
    ensures var loc := PrefixLocation(gcsPrefix);
      var stripped := RemoveAll(gcsPrefix, "gs://");
      '/' !in loc.0
      && ('/' in stripped ==> stripped == loc.0 + "/" + loc.1)
      && ('/' !in stripped ==> stripped == loc.0 && loc.1 == "")
  {
    var stripped := RemoveAll(gcsPrefix, "gs://");
    var parts := SplitOn(stripped, '/');
    JoinSplitOn(stripped, '/');
    SplitOnSingle(stripped, '/');
    assert "/" == ['/'];
  }

  /** Every selected URI is a `.pdf` object of the bucket, and every
      listed `.pdf` object is selected. */
  lemma {:induction false} PdfUrisExactly(bucket: string, names: seq<string>, u: string)
    ensures u in PdfUris(bucket, names) <==>
      exists i :: 0 <= i < |names| && EndsWith(names[i], ".pdf") && u == "gs://" + bucket + "/" + names[i]
  {
    if names != [] {
      var n := |names| - 1;
      PdfUrisExactly(bucket, names[..n], u);
      assert forall i :: 0 <= i < n ==> names[..n][i] == names[i];
    }
  }
}
