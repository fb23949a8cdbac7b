/** `RAGService` (backend/services/rag_service.py): the two-node query graph
    (retrieve, then generate) over a mutable state, and the document
    lifecycle (add, delete, update) on top of the vector index.  The
    LangGraph graph runs its two nodes in sequence; the external services
    are the functions the service is built with. */
module Rag {
  import opened Common
  import opened Text
  import opened Documents
  import opened VectorDb
  import opened Ingestion
  import opened Embeddings
  import opened Llm

  const NoContextAnswer := "I don't have enough information to answer this question."
  const GenerationErrorAnswer := "I encountered an error while generating the answer."
  const QueryErrorAnswer := "I encountered an error while processing your query."
  const AddedMessage := "Document successfully added to the system"
  const DeletedMessage := "Document successfully deleted from the system"
  const UpdatedMessage := "Document successfully updated in the system"

  /** The dictionary returned by `process_query`; `error` is present only
      when the graph raised. */
  datatype QueryResponse = QueryResponse(
    answer: string, query: string, contextCount: nat,
    contextDocuments: seq<SearchResult>, error: Option<string>)

  /** The dictionary returned by `add_document` and `update_document`. */
  datatype AddResult = AddResult(fileId: string, message: string, totalChunks: nat, textLength: nat)

  datatype DeleteResult = DeleteResult(fileId: string, message: string)

  datatype HealthStatus = HealthStatus(vectordb: bool, llm: bool, overall: bool)

  /** A search result as `_prepare_context` reads it: the text is always
      there, and a metadata value of None prints as "None". */
  function FieldOf(v: Option<MetaValue>): Field {
    match v
    case None => NoneValue
    case Some(x) => Present(x)
  }

  function ContextDocOf(r: SearchResult): ContextDoc {
    ContextDoc(Present(MStr(r.text)), FieldOf(r.metadata.fileId), FieldOf(r.metadata.chunkIndex))
  }

  function ContextDocs(rs: seq<SearchResult>): seq<ContextDoc> {
    seq(|rs|, i requires 0 <= i < |rs| => ContextDocOf(rs[i]))
  }

  /** The answer the generate node leaves for a query and its context. */
  function Answer(query: string, docs: seq<SearchResult>, chat: ChatFn): string {
    if docs == [] then NoContextAnswer
    else match ResponseFor(query, ContextDocs(docs), chat)
      case Ok(answer) => answer
      case Err(_) => GenerationErrorAnswer
  }

  /** With no context the answer is fixed, whatever the model would say: the
      model is not consulted. */
  lemma EmptyContextSkipsLlm(query: string, chat1: ChatFn, chat2: ChatFn)
    ensures Answer(query, [], chat1) == NoContextAnswer
    ensures Answer(query, [], chat1) == Answer(query, [], chat2)
  {
  }

  /** With some context, the answer is the model's reply to the prompt
      holding it, or the fixed error answer when the model fails. */
  lemma AnswerWithContext(query: string, docs: seq<SearchResult>, chat: ChatFn)
    requires docs != []
    ensures var reply := chat(Messages(query, ContextDocs(docs)));
      && (reply.Ok? ==> Answer(query, docs, chat) == reply.value)
      && (reply.Err? ==> Answer(query, docs, chat) == GenerationErrorAnswer)
  {
  }

  /** What ingesting a PDF under a file id yields: the processed file and
      its embedded records. */
  datatype Ingested = Ingested(processed: Processed, records: seq<EmbeddedDoc>)

  function Ingest(pdf: PdfSource, fileId: string, split: Splitter, embedBatch: EmbedBatchFn): Result<Ingested> {
    match PdfResult(pdf, fileId, split)
    case Err(e) => Err(e)
    case Ok(p) =>
      match EmbedDocuments(p.documents, embedBatch)
      case Err(e) => Err(e)
      case Ok(records) => Ok(Ingested(p, records))
  }

  /** The records of a file ingested under `fileId`: record `i` has id
      `{fileId}_{i}` and metadata file_id `fileId`, the ids are distinct,
      and so an upsert stores every one of them. */
  lemma IngestedRecords(pdf: PdfSource, fileId: string, split: Splitter, embedBatch: EmbedBatchFn, store: Store)
    requires Ingest(pdf, fileId, split, embedBatch).Ok?
    ensures var records := Ingest(pdf, fileId, split, embedBatch).value.records;
      forall i :: 0 <= i < |records| ==>
        && records[i].id == fileId + "_" + NatToString(i)
        && records[i].metadata["file_id"] == MStr(fileId)
        && records[i].id in UpsertAll(store, records)
        && UpsertAll(store, records)[records[i].id] == RecordOf(records[i])
  {
    var ing := Ingest(pdf, fileId, split, embedBatch).value;
    var docs := ing.processed.documents;
    var records := ing.records;
    EmbedDocumentsSpec(docs, embedBatch);
    forall i | 0 <= i < |records|
      ensures records[i].id == fileId + "_" + NatToString(i)
      ensures records[i].metadata["file_id"] == MStr(fileId)
    {
      assert FileIdLabel(docs[i].metadata) == fileId;
    }
    forall i | 0 <= i < |records| ensures LastWithId(records, i) {
      forall j | i < j < |records| ensures records[j].id != records[i].id {
        RecordIdsDistinct(docs[i].metadata, docs[j].metadata, i, j);
      }
    }
    UpsertAllSpec(store, records);
  }

  /** The loop of `update_document` that gives every new chunk the updated
      file's id. */
  function Relabel(docs: seq<Document>, fileId: string): seq<Document> {
    seq(|docs|, i requires 0 <= i < |docs| =>
      Document(docs[i].pageContent, docs[i].metadata["file_id" := MStr(fileId)]))
  }

  /** Relabelling the chunks of a file processed under a fresh id gives the
      chunks it would have had under the updated id. */
  lemma RelabelChunks(pieces: seq<string>, freshId: string, fileId: string)
    ensures Relabel(ChunkDocs(pieces, freshId), fileId) == ChunkDocs(pieces, fileId)
  {
    var a := Relabel(ChunkDocs(pieces, freshId), fileId);
    var b := ChunkDocs(pieces, fileId);
    forall i | 0 <= i < |pieces| ensures a[i] == b[i] {
      assert a[i].metadata == b[i].metadata;
    }
  }

  /** The loop of `update_document` that rewrites record ids and metadata. */
  function RewriteIds(records: seq<EmbeddedDoc>, fileId: string): seq<EmbeddedDoc> {
    seq(|records|, i requires 0 <= i < |records| =>
      records[i].(id := fileId + "_" + NatToString(i), metadata := records[i].metadata["file_id" := MStr(fileId)]))
  }

  /** Once the chunks carry the updated id, the id rewrite changes nothing:
      `process_documents` has already named record `i` `{fileId}_{i}`. */
  lemma RewriteIdsNoOp(docs: seq<Document>, fileId: string, embeddings: seq<Embedding>)
    requires forall i :: 0 <= i < |docs| ==> "file_id" in docs[i].metadata && docs[i].metadata["file_id"] == MStr(fileId)
    ensures RewriteIds(Records(docs, embeddings), fileId) == Records(docs, embeddings)
  {
    var records := Records(docs, embeddings);
    var rewritten := RewriteIds(records, fileId);
    forall i | 0 <= i < |records| ensures rewritten[i] == records[i] {
      assert FileIdLabel(docs[i].metadata) == fileId;
      assert records[i].metadata["file_id" := MStr(fileId)] == records[i].metadata;
    }
  }

  /** The graph state (`RAGState`), changed in place by the two nodes. */
  /** The first loop of `update_document`: every chunk's metadata file_id
      set, in place, to the updated id. */
  method SetFileIds(original: seq<Document>, fileId: string) returns (documents: seq<Document>)
    ensures documents == Relabel(original, fileId)
  {
    documents := original;
    for i := 0 to |documents|
      invariant |documents| == |original|
      invariant forall j :: 0 <= j < i ==>
        documents[j] == Document(original[j].pageContent, original[j].metadata["file_id" := MStr(fileId)])
      invariant forall j :: i <= j < |documents| ==> documents[j] == original[j]
    {
      documents := documents[i := Document(documents[i].pageContent,
                                           documents[i].metadata["file_id" := MStr(fileId)])];
    }
  }

  /** The second loop of `update_document`: record `i` renamed
      `{fileId}_{i}` and its metadata file_id set, in place. */
  method RewriteRecordIds(processed: seq<EmbeddedDoc>, fileId: string) returns (records: seq<EmbeddedDoc>)
    ensures records == RewriteIds(processed, fileId)
  {
    records := processed;
    for i := 0 to |records|
      invariant |records| == |processed|
      invariant forall j :: 0 <= j < i ==>
        records[j] == processed[j].(id := fileId + "_" + NatToString(j),
                                    metadata := processed[j].metadata["file_id" := MStr(fileId)])
      invariant forall j :: i <= j < |records| ==> records[j] == processed[j]
    {
      records := records[i := records[i].(id := fileId + "_" + NatToString(i),
                                          metadata := records[i].metadata["file_id" := MStr(fileId)])];
    }
  }

  class RagState {
    var query: string
    var contextDocuments: seq<SearchResult>
    var answer: string

    /** The initial state `process_query` builds. */
    constructor (query: string)
      ensures this.query == query && contextDocuments == [] && answer == ""
    {
      this.query := query;
      contextDocuments := [];
      answer := "";
    }
  }

  class RagService {
    const index: VectorIndex
    const embed: EmbedFn
    const embedBatch: EmbedBatchFn
    const chat: ChatFn
    const queryIndex: QueryFn
    const split: Splitter

    constructor (index: VectorIndex, embed: EmbedFn, embedBatch: EmbedBatchFn, chat: ChatFn,
                 queryIndex: QueryFn, split: Splitter)
      ensures this.index == index && this.embed == embed && this.embedBatch == embedBatch
      ensures this.chat == chat && this.queryIndex == queryIndex && this.split == split
    {
      this.index := index;
      this.embed := embed;
      this.embedBatch := embedBatch;
      this.chat := chat;
      this.queryIndex := queryIndex;
      this.split := split;
    }

    /** The documents the retrieve node finds for a query: the search
      results for its embedding, or none when either call fails. */
    function Retrieved(query: string): seq<SearchResult>
      reads index
    {
      match GenerateEmbedding(query, embed)
      case Err(_) => []
      case Ok(e) =>
        match queryIndex(index.store, e, index.maxRetrievalResults)
        case Err(_) => []
        case Ok(ms) => Results(ms)
    }

    /** The retrieve node: a failure leaves an empty context and is not
        raised. */
    method Retrieve(state: RagState)
      modifies state
      ensures state.contextDocuments == Retrieved(old(state.query))
      ensures state.query == old(state.query) && state.answer == old(state.answer)
    {
      var queryEmbedding := GenerateEmbedding(state.query, embed);
      if queryEmbedding.Err? {
        state.contextDocuments := [];
        return;
      }
      var found := index.SearchSimilar(queryEmbedding.value, None, queryIndex);
      if found.Err? {
        state.contextDocuments := [];
        return;
      }
      state.contextDocuments := found.value;
    }

    /** The generate node: the fixed answer for an empty context, else the
        model's answer, or the fixed error answer when the model fails. */
    method Generate(state: RagState)
      modifies state
      ensures state.answer == Answer(old(state.query), old(state.contextDocuments), chat)
      ensures state.query == old(state.query) && state.contextDocuments == old(state.contextDocuments)
    {
      if state.contextDocuments == [] {
        state.answer := NoContextAnswer;
        return;
      }
      var context := ContextDocs(state.contextDocuments);
      var response := GenerateResponse(state.query, context, chat);
      if response.Err? {
        state.answer := GenerationErrorAnswer;
        return;
      }
      state.answer := response.value;
    }

    /** `process_query`: run retrieve then generate on a fresh state.  The
        reported count is the number of context documents; when the graph
        itself raises, the fixed error answer with no documents. */
    method ProcessQuery(query: string, invokeFault: Option<string>) returns (resp: QueryResponse)
      ensures resp.contextCount == |resp.contextDocuments|
      ensures invokeFault.Some? ==> resp == QueryResponse(QueryErrorAnswer, query, 0, [], Some(invokeFault.value))
      ensures invokeFault.None? ==>
        resp == QueryResponse(Answer(query, Retrieved(query), chat), query,
                              |Retrieved(query)|, Retrieved(query), None)
    {
      if invokeFault.Some? {
        return QueryResponse(QueryErrorAnswer, query, 0, [], Some(invokeFault.value));
      }
      var state := new RagState(query);
      Retrieve(state);
      Generate(state);
      resp := QueryResponse(state.answer, query, |state.contextDocuments|, state.contextDocuments, None);
    }

    /** `add_document`: process the PDF under `fileId` (the uuid it mints),
        embed the chunks and upsert them.  The index changes only when every
        step succeeds. */
    method AddDocument(pdf: PdfSource, fileId: string, upsertFault: Option<string>) returns (r: Result<AddResult>)
      modifies index
      ensures match Ingest(pdf, fileId, split, embedBatch)
        case Err(e) => r == Err("Failed to add document: " + e) && index.store == old(index.store)
        case Ok(ing) =>
          if upsertFault.Some? then
            r == Err("Failed to add document: " + ("Failed to upsert documents: " + upsertFault.value))
            && index.store == old(index.store)
          else
            r == Ok(AddResult(fileId, AddedMessage, |ing.records|, ing.processed.textLength))
            && index.store == UpsertAll(old(index.store), ing.records)
    {
      var processing := ProcessPdfFile(pdf, fileId, split);
      if processing.Err? {
        return Err("Failed to add document: " + processing.message);
      }
      var processed := ProcessDocuments(processing.value.documents, embedBatch);
      if processed.Err? {
        return Err("Failed to add document: " + processed.message);
      }
      var upserted := index.UpsertDocuments(processed.value, upsertFault);
      if upserted.Fail? {
        return Err("Failed to add document: " + upserted.message);
      }
      r := Ok(AddResult(fileId, AddedMessage, |processed.value|, processing.value.textLength));
    }

    /** `delete_document`. */
    method DeleteDocument(fileId: string, fault: Option<string>) returns (r: Result<DeleteResult>)
      modifies index
      ensures fault.Some? ==>
        r == Err("Failed to delete document: " + ("Failed to delete vectors: " + fault.value))
        && index.store == old(index.store)
      ensures fault.None? ==>
        r == Ok(DeleteResult(fileId, DeletedMessage)) && DeleteEffect(old(index.store), index.store, fileId)
    {
      var deleted := index.DeleteByFileId(fileId, fault);
      if deleted.Fail? {
        return Err("Failed to delete document: " + deleted.message);
      }
      r := Ok(DeleteResult(fileId, DeletedMessage));
    }

    /** `update_document`: delete every vector of `fileId`, then ingest the
        new PDF (processed under the fresh uuid `freshId`) with its chunks
        and records relabelled to `fileId`.  The records written are exactly
        those `add_document` would write for the PDF under `fileId`.  The
        update is not atomic: once the delete succeeded, a later failure
        leaves the file's old vectors deleted.  `cleared` is the index just
        after the delete. */
    method UpdateDocument(fileId: string, pdf: PdfSource, freshId: string,
                          deleteFault: Option<string>, upsertFault: Option<string>)
      returns (r: Result<AddResult>, ghost cleared: Store)
      modifies index
      ensures deleteFault.Some? ==>
        r == Err("Failed to update document: "
                 + ("Failed to delete document: " + ("Failed to delete vectors: " + deleteFault.value)))
        && index.store == old(index.store)
      ensures deleteFault.None? ==> DeleteEffect(old(index.store), cleared, fileId)
      ensures deleteFault.None? ==>
        match Ingest(pdf, fileId, split, embedBatch)
        case Err(e) => r == Err("Failed to update document: " + e) && index.store == cleared
        case Ok(ing) =>
          if upsertFault.Some? then
            r == Err("Failed to update document: " + ("Failed to upsert documents: " + upsertFault.value))
            && index.store == cleared
          else
            r == Ok(AddResult(fileId, UpdatedMessage, |ing.records|, ing.processed.textLength))
            && index.store == UpsertAll(cleared, ing.records)
    {
      cleared := index.store;
      var deleted := DeleteDocument(fileId, deleteFault);
      if deleted.Err? {
        r := Err("Failed to update document: " + deleted.message);
        return;
      }
      cleared := index.store;
      var processing := ProcessPdfFile(pdf, freshId, split);
      if processing.Err? {
        r := Err("Failed to update document: " + processing.message);
        return;
      }
      ghost var pieces := split(ConcatPages(pdf.pages));
      var documents := SetFileIds(processing.value.documents, fileId);
      RelabelChunks(pieces, freshId, fileId);
      var processed := ProcessDocuments(documents, embedBatch);
      if processed.Err? {
        r := Err("Failed to update document: " + processed.message);
        return;
      }
      var records := RewriteRecordIds(processed.value, fileId);
      RewriteIdsNoOp(documents, fileId, embedBatch(Texts(documents)).value);
      var upserted := index.UpsertDocuments(records, upsertFault);
      if upserted.Fail? {
        r := Err("Failed to update document: " + upserted.message);
        return;
      }
      r := Ok(AddResult(fileId, UpdatedMessage, |records|, processing.value.textLength));
    }

    /** `health_check`: overall health is the conjunction of the index's
        and the model's. */
    method HealthCheck(statsFault: Option<string>) returns (h: HealthStatus)
      ensures h.vectordb <==> statsFault.None?
      ensures h.llm <==> LlmHealthCheck(chat)
      ensures h.overall <==> h.vectordb && h.llm
    {
      var vectordb := index.HealthCheck(statsFault);
      var llm := LlmHealthCheck(chat);
      h := HealthStatus(vectordb, llm, true);
      if !(vectordb && llm) {
        h := h.(overall := false);
      }
    }
  }
}
