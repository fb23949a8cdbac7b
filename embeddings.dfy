/** `EmbeddingsService` (backend/services/embeddings_service.py): the input
    truncation and error classification around the OpenAI embedding call,
    and the records `process_documents` prepares for the vector index.  The
    OpenAI client is a function that may fail. */
module Embeddings {
  import opened Common
  import opened Text
  import opened Documents

  /** `embeddings.create` for one input. */
  type EmbedFn = string -> Result<Embedding>
  /** `embeddings.create` for a list of inputs: one embedding per datum of
      the response, which the service does not check against the input. */
  type EmbedBatchFn = seq<string> -> Result<seq<Embedding>>

  /** `8000 * 4`: the character budget for roughly 8000 tokens. */
  const MaxChars := 32000
  const TruncationMarker := "\n\n[Text truncated to fit token limit]"
  const TokenLimitMessage := "Text exceeds token limit - " + "please split into smaller chunks"
  /** The dimension of text-embedding-ada-002, the fallback answer. */
  const DefaultDimension := 1536

  /** The source's test `len(text) / 4 > 8000`, on exact reals, is the
      integer test used below. */
  lemma TokenEstimateTest(n: nat)
    ensures (n as real) / 4.0 > 8000.0 <==> n > MaxChars
  {
  }

  /** The text actually sent to the model. */
  function Truncate(text: string): string {
    if |text| > MaxChars then text[..MaxChars] + TruncationMarker else text
  }

  /** A long text keeps exactly its first 32000 characters and gains the
      marker; a short one is untouched. */
  lemma TruncateShape(text: string)
    ensures |text| <= MaxChars ==> Truncate(text) == text
    ensures |text| > MaxChars ==>
      |Truncate(text)| == MaxChars + |TruncationMarker|
      && Truncate(text)[..MaxChars] == text[..MaxChars]
      && EndsWith(Truncate(text), TruncationMarker)
  {
    if |text| > MaxChars {
      var t := Truncate(text);
      assert t[MaxChars..] == TruncationMarker;
      assert t[|t| - |TruncationMarker|..] == TruncationMarker;
    }
  }

  /** Truncating twice is truncating once. */
  lemma TruncateIdempotent(text: string)
    ensures Truncate(Truncate(text)) == Truncate(text)
  {
    TruncateShape(text);
    if |text| > MaxChars {
      TruncateShape(Truncate(text));
    }
  }

  /** The exception `generate_embedding` raises for an OpenAI error. */
  function ClassifyError(errorMsg: string): string {
    var lowered := Lower(errorMsg);
    if Contains(lowered, "maximum context length") || Contains(lowered, "token") then TokenLimitMessage
    else "Failed to generate embedding: " + errorMsg
  }

  /** An error is reported as the token-limit error exactly when its message
      mentions "maximum context length" or "token" in any letter case;
      every other error keeps its message behind a fixed prefix. */
  lemma ClassifyErrorSpec(errorMsg: string)
    ensures ClassifyError(errorMsg) == TokenLimitMessage <==>
      Contains(Lower(errorMsg), "maximum context length") || Contains(Lower(errorMsg), "token")
    ensures ClassifyError(errorMsg) != TokenLimitMessage ==>
      ClassifyError(errorMsg) == "Failed to generate embedding: " + errorMsg
  {
    var other := "Failed to generate embedding: " + errorMsg;
    assert TokenLimitMessage[0] == 'T' && other[0] == 'F';
  }

  /** `generate_embedding`. */
  function GenerateEmbedding(text: string, embed: EmbedFn): (r: Result<Embedding>)
    ensures r.Ok? <==> embed(Truncate(text)).Ok?
    ensures r.Ok? ==> r.value == embed(Truncate(text)).value
    ensures r.Err? ==> r.message == ClassifyError(embed(Truncate(text)).message)
  {
    match embed(Truncate(text))
    case Ok(embedding) => Ok(embedding)
    case Err(e) => Err(ClassifyError(e))
  }

  /** `generate_embeddings_batch`. */
  function GenerateEmbeddingsBatch(texts: seq<string>, embedBatch: EmbedBatchFn): (r: Result<seq<Embedding>>)
    ensures r.Ok? <==> embedBatch(texts).Ok?
    ensures r.Ok? ==> r.value == embedBatch(texts).value
    ensures r.Err? ==> r.message == "Failed to generate batch embeddings: " + embedBatch(texts).message
  {
    match embedBatch(texts)
    case Ok(embeddings) => Ok(embeddings)
    case Err(e) => Err("Failed to generate batch embeddings: " + e)
  }

  /** `doc.metadata.get('file_id', 'unknown')`, as formatted into an id. */
  function FileIdLabel(metadata: Metadata): string {
    if "file_id" in metadata then Str(metadata["file_id"]) else "unknown"
  }

  /** The id of the `i`-th record of a batch. */
  function RecordId(metadata: Metadata, i: nat): string {
    FileIdLabel(metadata) + "_" + NatToString(i)
  }

  /** Within one batch whose documents share a file id, record ids are
      distinct: the position after the last "_" is the decimal index. */
  lemma RecordIdsDistinct(m1: Metadata, m2: Metadata, i: nat, j: nat)
    requires FileIdLabel(m1) == FileIdLabel(m2) && i != j
    ensures RecordId(m1, i) != RecordId(m2, j)
  {
    var prefix := FileIdLabel(m1) + "_";
    if RecordId(m1, i) == RecordId(m2, j) {
      assert prefix + NatToString(i) == prefix + NatToString(j);
      assert NatToString(i) == (prefix + NatToString(i))[|prefix|..];
      assert NatToString(j) == (prefix + NatToString(j))[|prefix|..];
      DigitsOfNat(i);
      DigitsOfNat(j);
    }
  }

  /** The record for the `i`-th document and its embedding. */
  function EmbeddedOf(doc: Document, embedding: Embedding, i: nat): EmbeddedDoc {
    EmbeddedDoc(RecordId(doc.metadata, i), doc.pageContent, embedding, doc.metadata)
  }

  function Min(a: nat, b: nat): nat {
    if a <= b then a else b
  }

  /** The texts sent to the batch call, in document order. */
  function Texts(documents: seq<Document>): seq<string> {
    seq(|documents|, k requires 0 <= k < |documents| => documents[k].pageContent)
  }

  /** One record per (document, embedding) pair, pairing by position and
      stopping at the shorter list, as `zip` does. */
  function Records(documents: seq<Document>, embeddings: seq<Embedding>): seq<EmbeddedDoc> {
    seq(Min(|documents|, |embeddings|), i requires 0 <= i < Min(|documents|, |embeddings|) =>
      EmbeddedOf(documents[i], embeddings[i], i))
  }

  /** What `process_documents` returns for a list of documents. */
  function EmbedDocuments(documents: seq<Document>, embedBatch: EmbedBatchFn): Result<seq<EmbeddedDoc>> {
    match embedBatch(Texts(documents))
    case Err(e) => Err("Failed to process documents: " + ("Failed to generate batch embeddings: " + e))
    case Ok(embeddings) => Ok(Records(documents, embeddings))
  }

  /** When the batch call returns one embedding per text, every document
      gets a record: record `i` has id `{file_id}_{i}` (`unknown_{i}` when
      the document has no file_id), the document's text and metadata, and
      the `i`-th embedding. */
  lemma EmbedDocumentsSpec(documents: seq<Document>, embedBatch: EmbedBatchFn)
    requires embedBatch(Texts(documents)).Ok?
    ensures var embeddings := embedBatch(Texts(documents)).value;
      var records := EmbedDocuments(documents, embedBatch).value;
      && (|embeddings| == |documents| ==> |records| == |documents|)
      && |records| <= |documents|
      && forall i :: 0 <= i < |records| ==>
           && records[i].id == FileIdLabel(documents[i].metadata) + "_" + NatToString(i)
           && records[i].text == documents[i].pageContent
           && records[i].metadata == documents[i].metadata
           && records[i].embedding == embeddings[i]
  {
  }

  /** `process_documents`: one batch call over the documents' texts, then
      a loop that builds one record per (document, embedding) pair. */
  method ProcessDocuments(documents: seq<Document>, embedBatch: EmbedBatchFn)
    returns (r: Result<seq<EmbeddedDoc>>)
    ensures r == EmbedDocuments(documents, embedBatch)
  {
    var texts: seq<string> := [];
    for k := 0 to |documents|
      invariant |texts| == k
      invariant forall j :: 0 <= j < k ==> texts[j] == documents[j].pageContent
    {
      texts := texts + [documents[k].pageContent];
    }
    assert texts == Texts(documents);
    var batch := GenerateEmbeddingsBatch(texts, embedBatch);
    if batch.Err? {
      return Err("Failed to process documents: " + batch.message);
    }
    var embeddings := batch.value;
    var n := Min(|documents|, |embeddings|);
    var processed: seq<EmbeddedDoc> := [];
    for i := 0 to n
      invariant |processed| == i
      invariant forall j :: 0 <= j < i ==> processed[j] == EmbeddedOf(documents[j], embeddings[j], j)
    {
      var doc := documents[i];
      var record := EmbeddedDoc(FileIdLabel(doc.metadata) + "_" + NatToString(i),
                                doc.pageContent, embeddings[i], doc.metadata);
      processed := processed + [record];
    }
    assert processed == Records(documents, embeddings);
    r := Ok(processed);
  }

  /** A one-document batch always produces the id `{file_id}_0`. */
  lemma SingleDocumentId(doc: Document, embedding: Embedding)
    ensures EmbeddedOf(doc, embedding, 0).id == FileIdLabel(doc.metadata) + "_0"
  {
    assert NatToString(0) == "0";
  }

  /** `get_embedding_dimension`: the length of the embedding of "test", or
      1536 when that call fails. */
  function GetEmbeddingDimension(embed: EmbedFn): (r: nat)
    ensures embed("test").Err? ==> r == DefaultDimension
    ensures embed("test").Ok? ==> r == |embed("test").value|
  {
    assert Truncate("test") == "test";
    match GenerateEmbedding("test", embed)
    case Ok(embedding) => |embedding|
    case Err(_) => DefaultDimension
  }
}
