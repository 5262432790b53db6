/** DocumentIngestionService around the chunker: the metadata every chunk document
    carries, the per-chunk numbering loop, the missing-store check, and the store
    contents that ingestSingleDocument and ingestDocumentsByType extend. */
module Ingestion {
  import opened Common
  import opened JavaStrings
  import opened DocumentTypes
  import opened Chunking

  /** The metadata shared by all chunks of one document (the ingestion timestamp is
      left out). */
  datatype BaseMetadata = BaseMetadata(source: string, filename: string, documentType: string, contentLength: int)

  /** A Document handed to the vector store: the chunk text, the base metadata and the
      three per-chunk entries chunk_index, total_chunks and chunk_size. */
  datatype ChunkDocument = ChunkDocument(text: string, base: BaseMetadata, chunkIndex: nat, totalChunks: nat, chunkSize: nat)

  /** A resource found on the classpath, as the ingestion loop sees it: its toString()
      rendering, its file name, the text extracted from it (or the message of the
      exception extraction raised) and its contentLength() (None when that raised). */
  datatype Resource = Resource(description: string, filename: string, content: Result<string>, contentLength: Option<int>)

  /** The documents the numbering loop has built after looking at the first `n`
      chunks: chunk `i` becomes a document numbered `i` unless it is blank. */
  function Numbered(chunks: seq<string>, base: BaseMetadata, n: nat): seq<ChunkDocument>
    requires n <= |chunks|
  {
    if n == 0 then []
    else
      var chunk := chunks[n - 1];
      Numbered(chunks, base, n - 1)
      + (if Trim(chunk) == [] then [] else [ChunkDocument(chunk, base, n - 1, |chunks|, |chunk|)])
  }

  /** The per-chunk loop of ingestSingleDocument (and of ingestDocumentsByType). */
  method NumberChunks(chunks: seq<string>, base: BaseMetadata) returns (documents: seq<ChunkDocument>)
    ensures documents == Numbered(chunks, base, |chunks|)
  {
    documents := [];
    for i := 0 to |chunks|
      invariant documents == Numbered(chunks, base, i)
    {
      var chunk := chunks[i];
      if Trim(chunk) != [] {
        documents := documents + [ChunkDocument(chunk, base, i, |chunks|, |chunk|)];
      }
    }
  }

  /** Every document is a non-blank chunk with its own index, the list's size as
      total_chunks and its length as chunk_size; indices strictly increase. */
  lemma {:induction false} NumberedSound(chunks: seq<string>, base: BaseMetadata, n: nat)
    requires n <= |chunks|
    ensures var docs := Numbered(chunks, base, n);
      && |docs| <= n
      && (forall k :: 0 <= k < |docs| ==>
            && docs[k].chunkIndex < n
            && docs[k].text == chunks[docs[k].chunkIndex]
            && Trim(docs[k].text) != []
            && docs[k].base == base
            && docs[k].totalChunks == |chunks|
            && docs[k].chunkSize == |docs[k].text|)
      && (forall i, j :: 0 <= i < j < |docs| ==> docs[i].chunkIndex < docs[j].chunkIndex)
  {
    if n > 0 {
      NumberedSound(chunks, base, n - 1);
    }
  }

  /** No non-blank chunk is skipped: each one has a document carrying its index. */
  lemma {:induction false} NumberedComplete(chunks: seq<string>, base: BaseMetadata, n: nat, i: nat)
    requires i < n <= |chunks| && Trim(chunks[i]) != []
    ensures exists k :: 0 <= k < |Numbered(chunks, base, n)| && Numbered(chunks, base, n)[k].chunkIndex == i
  {
    var docs := Numbered(chunks, base, n);
    if i == n - 1 {
      assert docs[|docs| - 1].chunkIndex == i;
    } else {
      NumberedComplete(chunks, base, n - 1, i);
      var k :| 0 <= k < |Numbered(chunks, base, n - 1)| && Numbered(chunks, base, n - 1)[k].chunkIndex == i;
      assert docs[k] == Numbered(chunks, base, n - 1)[k];
    }
  }

  /** When no chunk is blank the filter drops nothing: document `k` is chunk `k`,
      numbered `k`. */
  lemma {:induction false} NumberedExact(chunks: seq<string>, base: BaseMetadata, n: nat)
    requires n <= |chunks|
    requires forall i :: 0 <= i < |chunks| ==> Trim(chunks[i]) != []
    ensures var docs := Numbered(chunks, base, n);
      && |docs| == n
      && forall k :: 0 <= k < n ==> docs[k] == ChunkDocument(chunks[k], base, k, |chunks|, |chunks[k]|)
  {
    if n > 0 {
      NumberedExact(chunks, base, n - 1);
    }
  }

  /** chunkContent never returns a blank chunk, so the documents built from its
      chunks are numbered exactly 0 .. n-1, one per chunk. */
  lemma ChunkDocumentsExact(content: string, maxChunkSize: nat, overlap: nat, base: BaseMetadata)
    ensures var chunks := Chunks(content, maxChunkSize, overlap);
      var docs := Numbered(chunks, base, |chunks|);
      && |docs| == |chunks|
      && forall k :: 0 <= k < |chunks| ==> docs[k] == ChunkDocument(chunks[k], base, k, |chunks|, |chunks[k]|)
  {
    var chunks := Chunks(content, maxChunkSize, overlap);
    forall i | 0 <= i < |chunks| ensures Trim(chunks[i]) != [] {
      ChunkBounds(content, maxChunkSize, overlap, chunks[i]);
      TrimSpec(chunks[i]);
    }
    NumberedExact(chunks, base, |chunks|);
  }

  /** The message of the IllegalArgumentException (and of the warning) for a type
      without a vector store; string concatenation renders the type by its name. */
  function MissingStoreMessage(t: DocumentType): string
  {
    "Vector store for type " + Name(t) + " not found!"
  }

  /** The base metadata of a manual upload. */
  function UploadMetadata(t: DocumentType, filename: string, content: string): BaseMetadata
  {
    BaseMetadata("manual-upload", filename, LowerName(t), |content|)
  }

  /** createMetadata: the base metadata of a classpath resource; a contentLength()
      that raised is recorded as -1. */
  function ResourceMetadata(t: DocumentType, r: Resource): BaseMetadata
  {
    BaseMetadata(r.description, r.filename, LowerName(t),
      match r.contentLength case Some(n) => n case None => -1)
  }

  /** The documents one resource contributes: none when extraction raised or the
      text is blank, otherwise its numbered chunks. */
  function ResourceDocuments(t: DocumentType, r: Resource): seq<ChunkDocument>
  {
    match r.content
    case Failure(_) => []
    case Success(content) =>
      if Trim(content) == [] then []
      else
        var chunks := Chunks(content, MAX_CHUNK_SIZE, CHUNK_OVERLAP);
        Numbered(chunks, ResourceMetadata(t, r), |chunks|)
  }

  /** The documents of the first `n` resources, in order. */
  function ResourcesDocuments(t: DocumentType, rs: seq<Resource>, n: nat): seq<ChunkDocument>
    requires n <= |rs|
  {
    if n == 0 then [] else ResourcesDocuments(t, rs, n - 1) + ResourceDocuments(t, rs[n - 1])
  }

  /** Every document of a resource carries that resource's metadata and the type
      tag, and is a non-blank chunk of at most MAX_CHUNK_SIZE + 1 characters. */
  lemma ResourceDocumentsShape(t: DocumentType, r: Resource)
    ensures forall d :: d in ResourceDocuments(t, r) ==>
      && d.base == ResourceMetadata(t, r)
      && d.base.documentType == LowerName(t)
      && Trim(d.text) != []
      && |d.text| <= MAX_CHUNK_SIZE + 1
  {
    if r.content.Success? && Trim(r.content.value) != [] {
      var chunks := Chunks(r.content.value, MAX_CHUNK_SIZE, CHUNK_OVERLAP);
      var docs := Numbered(chunks, ResourceMetadata(t, r), |chunks|);
      NumberedSound(chunks, ResourceMetadata(t, r), |chunks|);
      forall d | d in docs ensures |d.text| <= MAX_CHUNK_SIZE + 1 {
        var k :| 0 <= k < |docs| && docs[k] == d;
        ChunkBounds(r.content.value, MAX_CHUNK_SIZE, CHUNK_OVERLAP, chunks[d.chunkIndex]);
      }
    }
  }

  /** getPatternForType: a classpath pattern under "documents/"; the default branch
      is unreachable for the four variants. */
  function PatternForType(t: DocumentType): (r: string)
    ensures |r| > 20 && r[..20] == "classpath:documents/"
  {
    match t
    case PDF => "classpath:documents/pdf/**/*.pdf"
    case MARKDOWN => "classpath:documents/markdown/**/*.md"
    case JSON => "classpath:documents/json/**/*.json"
    case TEXT => "classpath:documents/text/**/*.txt"
  }

  /** The file extension of the type's pattern. */
  function Extension(t: DocumentType): string
  {
    match t
    case PDF => "pdf"
    case MARKDOWN => "md"
    case JSON => "json"
    case TEXT => "txt"
  }

  /** Each type's pattern matches every file, at any depth, under the directory named
      by the type's lower-case name, with the type's extension. */
  lemma PatternInTypeDirectory(t: DocumentType)
    ensures PatternForType(t) == "classpath:documents/" + LowerName(t) + "/**/*." + Extension(t)
  {
    PatternLiterals();
    match t
    case PDF => assert LowerName(t) == "pdf";
    case MARKDOWN => assert LowerName(t) == "markdown";
    case JSON => assert LowerName(t) == "json";
    case TEXT => assert LowerName(t) == "text";
  }

  /** The four pattern literals, taken apart. */
  lemma PatternLiterals()
    ensures "classpath:documents/pdf/**/*.pdf" == "classpath:documents/" + "pdf" + "/**/*." + "pdf"
    ensures "classpath:documents/markdown/**/*.md" == "classpath:documents/" + "markdown" + "/**/*." + "md"
    ensures "classpath:documents/json/**/*.json" == "classpath:documents/" + "json" + "/**/*." + "json"
    ensures "classpath:documents/text/**/*.txt" == "classpath:documents/" + "text" + "/**/*." + "txt"
  {
  }

  /** Two types never share a pattern. */
  lemma PatternsDistinct(a: DocumentType, b: DocumentType)
    requires a != b
    ensures PatternForType(a) != PatternForType(b)
  {
    assert PatternForType(a)[20] != PatternForType(b)[20];
  }

  /** The documents one resource contributes, as the body of the loop over the
      resources computes them. */
  method DocumentsOfResource(t: DocumentType, resource: Resource) returns (documents: seq<ChunkDocument>)
    ensures documents == ResourceDocuments(t, resource)
  {
    documents := [];
    match resource.content {
      case Failure(_) =>
      case Success(content) =>
        if Trim(content) != [] {
          var baseMetadata := ResourceMetadata(t, resource);
          var chunks := ChunkContent(content, MAX_CHUNK_SIZE, CHUNK_OVERLAP);
          documents := NumberChunks(chunks, baseMetadata);
        }
    }
  }

  /** The loop of ingestDocumentsByType over the resources the pattern resolved to. */
  method CollectDocuments(t: DocumentType, resources: seq<Resource>) returns (documents: seq<ChunkDocument>)
    ensures documents == ResourcesDocuments(t, resources, |resources|)
  {
    documents := [];
    for n := 0 to |resources|
      invariant documents == ResourcesDocuments(t, resources, n)
    {
      var numbered := DocumentsOfResource(t, resources[n]);
      documents := documents + numbered;
    }
  }

  /** The vector stores of the service. A store is modelled by the documents added to
      it, so adding documents appends them. */
  class IngestionService {
    var stores: map<DocumentType, seq<ChunkDocument>>

    constructor(stores: map<DocumentType, seq<ChunkDocument>>)
      ensures this.stores == stores
    {
      this.stores := stores;
    }

    /** ingestSingleDocument: fails before chunking when the type has no store;
        otherwise chunks the content, numbers the chunks and adds them to the store. */
    method IngestSingleDocument(t: DocumentType, filename: string, content: string)
      returns (r: Result<seq<ChunkDocument>>)
      modifies this
      ensures t !in old(stores) ==> r == Failure(MissingStoreMessage(t)) && stores == old(stores)
      ensures t in old(stores) ==>
        var chunks := Chunks(content, MAX_CHUNK_SIZE, CHUNK_OVERLAP);
        var docs := Numbered(chunks, UploadMetadata(t, filename, content), |chunks|);
        r == Success(docs) && stores == old(stores)[t := old(stores)[t] + docs]
    {
      if t !in stores {
        return Failure(MissingStoreMessage(t));
      }
      var baseMetadata := UploadMetadata(t, filename, content);
      var chunks := ChunkContent(content, MAX_CHUNK_SIZE, CHUNK_OVERLAP);
      var documents := NumberChunks(chunks, baseMetadata);
      stores := stores[t := stores[t] + documents];
      r := Success(documents);
    }

    /** ingestDocumentsByType over the resources the pattern resolved to: a missing
        store ends it with a warning and no change; a resource whose extraction raised
        or whose text is blank is skipped; the documents of all other resources are
        added to the store together, in resource order. */
    method IngestDocumentsByType(t: DocumentType, resources: seq<Resource>)
      returns (r: Result<seq<ChunkDocument>>)
      modifies this
      ensures t !in old(stores) ==> r == Failure(MissingStoreMessage(t)) && stores == old(stores)
      ensures t in old(stores) ==>
        var docs := ResourcesDocuments(t, resources, |resources|);
        r == Success(docs) && stores == old(stores)[t := old(stores)[t] + docs]
    {
      if t !in stores {
        return Failure(MissingStoreMessage(t));
      }
      var documents := CollectDocuments(t, resources);
      if documents != [] {
        stores := stores[t := stores[t] + documents];
      } else {
        assert stores[t] + documents == stores[t];
      }
      r := Success(documents);
    }
  }
}
