/** The file endpoints of backend/api/routes_files.py: the upload checks of
    `add_file`, `delete_file` and `update_file`, the CSV ingestion loop of
    `process_csv_file`, and the size flags of `get_csv_info`.  An
    `HTTPException` is a value; routing, temporary files and logging are not
    modelled.  The services are those of the other modules: the index of a
    `RagService`, its embedding call and its splitter. */
module FileRoutes {
  import opened Common
  import opened Text
  import opened Documents
  import opened VectorDb
  import opened Ingestion
  import opened Embeddings
  import opened Rag
  import opened CsvProcessor
  import opened CsvDocuments
  import opened CsvPipeline

  /** An `HTTPException`: status code and detail. */
  datatype HttpError = HttpError(status: nat, detail: string)

  /** What an endpoint answers: its response body, or an HTTP error. */
  datatype Reply<+T> = Success(body: T) | Failure(error: HttpError)

  /** `FileResponse` and `UpdateFileResponse`. */
  datatype FileResponse = FileResponse(fileId: string, message: string, totalChunks: nat, textLength: nat)

  const UnsupportedUploadDetail := "Only PDF and CSV files are supported"
  const InvalidPdfDetail := "Invalid PDF file or file is corrupted"
  const InvalidCsvDetail := "Invalid CSV file or file cannot be read"
  const EmptyIdDetail := "File ID cannot be empty"
  const PdfOnlyDetail := "Only PDF files are supported"
  const CsvOnlyDetail := "Only CSV files are supported for this endpoint"

  /* ---------------------------------------------------------------------
     process_csv_file
     --------------------------------------------------------------------- */

  /** The LangChain document made from a CSV document: its text and
      metadata; the CSV document's id is not carried over. */
  function LangchainDoc(d: CsvDoc): Document {
    Document(d.text, d.metadata)
  }

  /** The summed length of the documents' texts. */
  function TextLength(docs: seq<CsvDoc>): nat
    decreases |docs|
  {
    if docs == [] then 0 else TextLength(docs[..|docs| - 1]) + |docs[|docs| - 1].text|
  }

  lemma {:induction false} TextLengthConcat(a: seq<CsvDoc>, b: seq<CsvDoc>)
    ensures TextLength(a + b) == TextLength(a) + TextLength(b)
    decreases |b|
  {
    if b == [] {
      assert a + b == a;
    } else {
      var init := b[..|b| - 1];
      TextLengthConcat(a, init);
      assert (a + b)[..|a + b| - 1] == a + init;
    }
  }

  /** Every document's text counts towards the total. */
  lemma TextLengthBounds(docs: seq<CsvDoc>, i: nat)
    requires i < |docs|
    ensures |docs[i].text| <= TextLength(docs)
    ensures TextLength(docs) == TextLength(docs[..i]) + |docs[i].text| + TextLength(docs[i + 1..])
  {
    assert docs == docs[..i] + [docs[i]] + docs[i + 1..];
    TextLengthConcat(docs[..i] + [docs[i]], docs[i + 1..]);
    TextLengthConcat(docs[..i], [docs[i]]);
    assert ([] + [docs[i]])[..0] == [];
    assert [docs[i]][..0] == [];
  }

  function CsvMessage(n: nat): string {
    "Successfully processed CSV file with " + NatToString(n) + " documents"
  }

  /** Whether the embedding and the upsert of one CSV document succeed: the
      single-text batch call returns an embedding and the upsert has no
      fault. */
  predicate Stored(d: CsvDoc, embedBatch: EmbedBatchFn, fault: Option<string>) {
    fault.None? && embedBatch([d.text]).Ok? && |embedBatch([d.text]).value| > 0
  }

  lemma SingleText(d: CsvDoc)
    ensures Texts([LangchainDoc(d)]) == [d.text]
  {
  }

  /** One step of the loop as the source writes it: the document is
      embedded alone by `process_documents([doc])` and upserted under the id
      that call gives it; a failing embedding or upsert is skipped. */
  function UpsertAlone(store: Store, d: CsvDoc, embedBatch: EmbedBatchFn, fault: Option<string>): Store {
    match EmbedDocuments([LangchainDoc(d)], embedBatch)
    case Err(_) => store
    case Ok(records) => if fault.Some? then store else UpsertAll(store, records)
  }

  /** The whole loop as the source writes it, document `k` meeting upsert
      fault `faults(k)`. */
  function UpsertEachAlone(store: Store, docs: seq<CsvDoc>, embedBatch: EmbedBatchFn, faults: nat -> Option<string>): Store
    decreases |docs|
  {
    if docs == [] then store
    else UpsertAlone(UpsertEachAlone(store, docs[..|docs| - 1], embedBatch, faults), docs[|docs| - 1], embedBatch, faults(|docs| - 1))
  }

  lemma UpsertEachAloneStep(store: Store, docs: seq<CsvDoc>, j: nat, embedBatch: EmbedBatchFn, faults: nat -> Option<string>)
    requires j < |docs|
    ensures UpsertEachAlone(store, docs[..j + 1], embedBatch, faults)
      == UpsertAlone(UpsertEachAlone(store, docs[..j], embedBatch, faults), docs[j], embedBatch, faults(j))
  {
    assert docs[..j + 1][..j] == docs[..j];
  }

  /** A document tagged with `fileId` is written under `{fileId}_0`, the id
      of the first record of a one-document batch, whatever its own id. */
  lemma UpsertAloneEffect(store: Store, d: CsvDoc, fileId: string, embedBatch: EmbedBatchFn, fault: Option<string>)
    requires Tagged(d, fileId)
    ensures !Stored(d, embedBatch, fault) ==> UpsertAlone(store, d, embedBatch, fault) == store
    ensures Stored(d, embedBatch, fault) ==>
      UpsertAlone(store, d, embedBatch, fault)
        == store[fileId + "_0" := RecordOf(EmbeddedOf(LangchainDoc(d), embedBatch([d.text]).value[0], 0))]
  {
    SingleText(d);
    var ld := LangchainDoc(d);
    assert FileIdLabel(ld.metadata) == fileId;
    if embedBatch([d.text]).Ok? {
      var embeddings := embedBatch([d.text]).value;
      var records := Records([ld], embeddings);
      assert EmbedDocuments([ld], embedBatch) == Ok(records);
      if |embeddings| > 0 {
        var rec := EmbeddedOf(ld, embeddings[0], 0);
        SingleDocumentId(ld, embeddings[0]);
        assert records == [rec];
        assert UpsertAll(store, [rec]) == UpsertAll(store[rec.id := RecordOf(rec)], []);
      } else {
        assert records == [];
      }
    }
  }

  /** As written, the loop writes nothing but `{fileId}_0`: every document
      of the file lands on the same vector, and all other vectors keep
      their values. */
  lemma {:induction false} AloneUsesOneId(store: Store, docs: seq<CsvDoc>, fileId: string,
                                          embedBatch: EmbedBatchFn, faults: nat -> Option<string>)
    requires forall i :: 0 <= i < |docs| ==> Tagged(docs[i], fileId)
    ensures UpsertEachAlone(store, docs, embedBatch, faults).Keys <= store.Keys + {fileId + "_0"}
    ensures forall k :: k in store && k != fileId + "_0" ==>
      k in UpsertEachAlone(store, docs, embedBatch, faults) && UpsertEachAlone(store, docs, embedBatch, faults)[k] == store[k]
    decreases |docs|
  {
    if docs != [] {
      var init := docs[..|docs| - 1];
      AloneUsesOneId(store, init, fileId, embedBatch, faults);
      UpsertAloneEffect(UpsertEachAlone(store, init, embedBatch, faults), docs[|docs| - 1], fileId, embedBatch, faults(|docs| - 1));
    }
  }

  /** Two documents of one file that both embed and upsert leave a single
      new vector, holding the second document's text: the first is lost. */
  lemma TwoDocumentsCollide(store: Store, d1: CsvDoc, d2: CsvDoc, fileId: string,
                            embedBatch: EmbedBatchFn, faults: nat -> Option<string>)
    requires Tagged(d1, fileId) && Tagged(d2, fileId)
    requires Stored(d1, embedBatch, faults(0)) && Stored(d2, embedBatch, faults(1))
    ensures UpsertEachAlone(store, [d1, d2], embedBatch, faults).Keys == store.Keys + {fileId + "_0"}
    ensures UpsertEachAlone(store, [d1, d2], embedBatch, faults)[fileId + "_0"].metadata.text == d2.text
  {
    assert [d1, d2][..1] == [d1];
    assert [d1][..0] == [];
    StoredAlone(store, d1, fileId, embedBatch, faults(0));
    var s1 := UpsertAlone(store, d1, embedBatch, faults(0));
    assert UpsertEachAlone(store, [d1], embedBatch, faults) == s1;
    assert UpsertEachAlone(store, [d1, d2], embedBatch, faults) == UpsertAlone(s1, d2, embedBatch, faults(1));
    StoredAlone(s1, d2, fileId, embedBatch, faults(1));
  }

  /** A stored document occupies `{fileId}_0` with its own text. */
  lemma StoredAlone(store: Store, d: CsvDoc, fileId: string, embedBatch: EmbedBatchFn, fault: Option<string>)
    requires Tagged(d, fileId) && Stored(d, embedBatch, fault)
    ensures UpsertAlone(store, d, embedBatch, fault).Keys == store.Keys + {fileId + "_0"}
    ensures UpsertAlone(store, d, embedBatch, fault)[fileId + "_0"].metadata.text == d.text
  {
    UpsertAloneEffect(store, d, fileId, embedBatch, fault);
  }

  /** The documents processing makes for a file all carry its id, so the
      loop as written keeps at most one of them. */
  lemma CsvFileKeepsOneVector(store: Store, read: CsvRead, fileId: string, scrub: string -> string, sample: Sampler,
                              embedBatch: EmbedBatchFn, faults: nat -> Option<string>)
    requires ProcessCsv(read, fileId, scrub, sample).Ok?
    ensures UpsertEachAlone(store, ProcessCsv(read, fileId, scrub, sample).value, embedBatch, faults).Keys
      <= store.Keys + {fileId + "_0"}
  {
    var info := Detect(read.frame).value;
    DocumentsTagged(read.frame, info, fileId, scrub, sample);
    AloneUsesOneId(store, ProcessCsv(read, fileId, scrub, sample).value, fileId, embedBatch, faults);
  }

  /** The records of a batch, relabelled with one id. */
  function Rekey(records: seq<EmbeddedDoc>, id: string): (r: seq<EmbeddedDoc>)
    ensures |r| == |records|
  {
    seq(|records|, i requires 0 <= i < |records| => records[i].(id := id))
  }

  /** One step of the loop as intended: the document's embedding is
      upserted under the document's own id (`{file_id}_row_{i}`,
      `{file_id}_batch_{b}`, `{file_id}_column_{name}` or
      `{file_id}_summary`). */
  function UpsertOwnId(store: Store, d: CsvDoc, embedBatch: EmbedBatchFn, fault: Option<string>): Store {
    match EmbedDocuments([LangchainDoc(d)], embedBatch)
    case Err(_) => store
    case Ok(records) => if fault.Some? then store else UpsertAll(store, Rekey(records, d.id))
  }

  function UpsertEachOwnId(store: Store, docs: seq<CsvDoc>, embedBatch: EmbedBatchFn, faults: nat -> Option<string>): Store
    decreases |docs|
  {
    if docs == [] then store
    else UpsertOwnId(UpsertEachOwnId(store, docs[..|docs| - 1], embedBatch, faults), docs[|docs| - 1], embedBatch, faults(|docs| - 1))
  }

  /** A document whose embedding and upsert succeed is written under its
      own id, with its text; otherwise nothing changes. */
  lemma UpsertOwnIdEffect(store: Store, d: CsvDoc, embedBatch: EmbedBatchFn, fault: Option<string>)
    ensures !Stored(d, embedBatch, fault) ==> UpsertOwnId(store, d, embedBatch, fault) == store
    ensures Stored(d, embedBatch, fault) ==>
      && UpsertOwnId(store, d, embedBatch, fault).Keys == store.Keys + {d.id}
      && UpsertOwnId(store, d, embedBatch, fault)[d.id].metadata.text == d.text
      && forall k :: k in store && k != d.id ==> UpsertOwnId(store, d, embedBatch, fault)[k] == store[k]
  {
    SingleText(d);
    var ld := LangchainDoc(d);
    if embedBatch([d.text]).Ok? {
      var embeddings := embedBatch([d.text]).value;
      var records := Records([ld], embeddings);
      assert EmbedDocuments([ld], embedBatch) == Ok(records);
      if |embeddings| > 0 {
        var rec := EmbeddedOf(ld, embeddings[0], 0);
        assert records == [rec];
        assert Rekey(records, d.id) == [rec.(id := d.id)];
        assert UpsertAll(store, [rec.(id := d.id)]) == UpsertAll(store[d.id := RecordOf(rec.(id := d.id))], []);
      } else {
        assert records == [];
      }
    }
  }

  /** The set of ids the loop stores: those of the documents that embed and
      upsert. */
  function StoredIds(docs: seq<CsvDoc>, embedBatch: EmbedBatchFn, faults: nat -> Option<string>): set<string> {
    set i | 0 <= i < |docs| && Stored(docs[i], embedBatch, faults(i)) :: docs[i].id
  }

  lemma StoredIdsSnoc(docs: seq<CsvDoc>, embedBatch: EmbedBatchFn, faults: nat -> Option<string>)
    requires |docs| > 0
    ensures var n := |docs| - 1;
      StoredIds(docs, embedBatch, faults)
        == StoredIds(docs[..n], embedBatch, faults) + (if Stored(docs[n], embedBatch, faults(n)) then {docs[n].id} else {})
  {
    var n := |docs| - 1;
    var init := docs[..n];
    var tail: set<string> := if Stored(docs[n], embedBatch, faults(n)) then {docs[n].id} else {};
    forall k | k in StoredIds(docs, embedBatch, faults) ensures k in StoredIds(init, embedBatch, faults) + tail {
      var i :| 0 <= i < |docs| && Stored(docs[i], embedBatch, faults(i)) && docs[i].id == k;
      if i < n {
        assert init[i] == docs[i];
      }
    }
    forall k | k in StoredIds(init, embedBatch, faults) ensures k in StoredIds(docs, embedBatch, faults) {
      var i :| 0 <= i < |init| && Stored(init[i], embedBatch, faults(i)) && init[i].id == k;
      assert docs[i] == init[i];
    }
  }

  /** As intended, the loop stores exactly the ids of the documents that
      embed and upsert, and the vectors of other ids keep their values. */
  lemma {:induction false} OwnIdKeys(store: Store, docs: seq<CsvDoc>, embedBatch: EmbedBatchFn, faults: nat -> Option<string>)
    ensures UpsertEachOwnId(store, docs, embedBatch, faults).Keys == store.Keys + StoredIds(docs, embedBatch, faults)
    ensures forall k :: k in store && (forall i :: 0 <= i < |docs| ==> docs[i].id != k) ==>
      (k in UpsertEachOwnId(store, docs, embedBatch, faults) && UpsertEachOwnId(store, docs, embedBatch, faults)[k] == store[k])
    decreases |docs|
  {
    if docs != [] {
      var n := |docs| - 1;
      var init := docs[..n];
      OwnIdKeys(store, init, embedBatch, faults);
      UpsertOwnIdEffect(UpsertEachOwnId(store, init, embedBatch, faults), docs[n], embedBatch, faults(n));
      StoredIdsSnoc(docs, embedBatch, faults);
      forall k | k in store && (forall i :: 0 <= i < |docs| ==> docs[i].id != k)
        ensures forall i :: 0 <= i < |init| ==> init[i].id != k
      {
        forall i | 0 <= i < |init| ensures init[i].id != k {
          assert init[i] == docs[i];
        }
      }
    }
  }

  /** As intended, each document that embeds and upserts is stored under its
      own id, with its text, unless a later document reuses the id. */
  lemma {:induction false} OwnIdKeepsEveryDocument(store: Store, docs: seq<CsvDoc>,
                                                   embedBatch: EmbedBatchFn, faults: nat -> Option<string>)
    ensures forall i ::
      (0 <= i < |docs| && Stored(docs[i], embedBatch, faults(i)) && forall j :: i < j < |docs| ==> docs[j].id != docs[i].id)
      ==> (docs[i].id in UpsertEachOwnId(store, docs, embedBatch, faults)
       && UpsertEachOwnId(store, docs, embedBatch, faults)[docs[i].id].metadata.text == docs[i].text)
    decreases |docs|
  {
    if docs != [] {
      var n := |docs| - 1;
      var init := docs[..n];
      OwnIdKeepsEveryDocument(store, init, embedBatch, faults);
      OwnIdKeys(store, init, embedBatch, faults);
      UpsertOwnIdEffect(UpsertEachOwnId(store, init, embedBatch, faults), docs[n], embedBatch, faults(n));
      forall i | 0 <= i < |docs| && Stored(docs[i], embedBatch, faults(i))
          && (forall j :: i < j < |docs| ==> docs[j].id != docs[i].id)
        ensures docs[i].id in UpsertEachOwnId(store, docs, embedBatch, faults)
        ensures UpsertEachOwnId(store, docs, embedBatch, faults)[docs[i].id].metadata.text == docs[i].text
      {
        if i < n {
          assert init[i] == docs[i];
          forall j | i < j < |init| ensures init[j].id != init[i].id {
            assert init[j] == docs[j];
          }
        }
      }
    }
  }

  /** The first loop of `process_csv_file`: the LangChain documents, and
      the two counters. */
  method CountDocuments(docs: seq<CsvDoc>) returns (langchainDocs: seq<Document>, totalChunks: nat, totalTextLength: nat)
    ensures |langchainDocs| == |docs| && forall j :: 0 <= j < |docs| ==> langchainDocs[j] == LangchainDoc(docs[j])
    ensures totalChunks == |docs| && totalTextLength == TextLength(docs)
  {
    totalChunks := 0;
    totalTextLength := 0;
    langchainDocs := [];
    for k := 0 to |docs|
      invariant |langchainDocs| == k
      invariant forall j :: 0 <= j < k ==> langchainDocs[j] == LangchainDoc(docs[j])
      invariant totalChunks == k && totalTextLength == TextLength(docs[..k])
    {
      langchainDocs := langchainDocs + [LangchainDoc(docs[k])];
      totalChunks := totalChunks + 1;
      assert docs[..k + 1][..k] == docs[..k];
      totalTextLength := totalTextLength + |docs[k].text|;
    }
    assert docs[..|docs|] == docs;
  }

  /** The second loop of `process_csv_file`: each document embedded alone
      by `process_documents([doc])` and upserted as that call returns it, a
      failure skipping that document. */
  method UpsertEach(index: VectorIndex, docs: seq<CsvDoc>, langchainDocs: seq<Document>,
                    embedBatch: EmbedBatchFn, faults: nat -> Option<string>)
    requires |langchainDocs| == |docs| && forall j :: 0 <= j < |docs| ==> langchainDocs[j] == LangchainDoc(docs[j])
    modifies index
    ensures index.store == UpsertEachAlone(old(index.store), docs, embedBatch, faults)
  {
    for idx := 0 to |langchainDocs|
      invariant index.store == UpsertEachAlone(old(index.store), docs[..idx], embedBatch, faults)
    {
      UpsertEachAloneStep(old(index.store), docs, idx, embedBatch, faults);
      var embeddingDocs := ProcessDocuments([langchainDocs[idx]], embedBatch);
      if embeddingDocs.Err? {
        continue;
      }
      var _ := index.UpsertDocuments(embeddingDocs.value, faults(idx));
    }
    assert docs[..|docs|] == docs;
  }

  /** `process_csv_file`: process the table under the minted `fileId`,
      count the documents and their text, then embed and upsert each
      document alone, skipping any that fails.  The counters do not depend
      on those failures. */
  method ProcessCsvFile(index: VectorIndex, embedBatch: EmbedBatchFn, read: CsvRead, fileId: string,
                        scrub: string -> string, sample: Sampler, faults: nat -> Option<string>)
    returns (r: Result<FileResponse>)
    modifies index
    ensures ProcessCsv(read, fileId, scrub, sample).Err? ==>
      r == Err(ProcessCsv(read, fileId, scrub, sample).message) && index.store == old(index.store)
    ensures ProcessCsv(read, fileId, scrub, sample).Ok? ==>
      var docs := ProcessCsv(read, fileId, scrub, sample).value;
      && r == Ok(FileResponse(fileId, CsvMessage(|docs|), |docs|, TextLength(docs)))
      && index.store == UpsertEachAlone(old(index.store), docs, embedBatch, faults)
    ensures index.store.Keys <= old(index.store).Keys + {fileId + "_0"}
  {
    var documents := ProcessCsvToDocuments(read, fileId, scrub, sample);
    if documents.Err? {
      return Err(documents.message);
    }
    var docs := documents.value;
    var langchainDocs, totalChunks, totalTextLength := CountDocuments(docs);
    if |langchainDocs| > 0 {
      UpsertEach(index, docs, langchainDocs, embedBatch, faults);
    }
    CsvFileKeepsOneVector(old(index.store), read, fileId, scrub, sample, embedBatch, faults);
    r := Ok(FileResponse(fileId, CsvMessage(totalChunks), totalChunks, totalTextLength));
  }

  /* ---------------------------------------------------------------------
     add_file
     --------------------------------------------------------------------- */

  const AllowedExtensions := [".pdf", ".csv"]

  /** The first allowed extension the lowercased name ends with. */
  function UploadExtension(filename: string): Option<string> {
    var lowered := Lower(filename);
    if EndsWith(lowered, ".pdf") then Some(".pdf")
    else if EndsWith(lowered, ".csv") then Some(".csv")
    else None
  }

  /** The extension scan of `add_file`, which stops at the first match. */
  method SelectExtension(filename: string) returns (fileExt: Option<string>)
    ensures fileExt == UploadExtension(filename)
  {
    var lowered := Lower(filename);
    fileExt := None;
    for i := 0 to |AllowedExtensions|
      invariant fileExt.None? ==> forall j :: 0 <= j < i ==> !EndsWith(lowered, AllowedExtensions[j])
      invariant fileExt.Some? ==> fileExt == UploadExtension(filename)
    {
      if EndsWith(lowered, AllowedExtensions[i]) {
        fileExt := Some(AllowedExtensions[i]);
        break;
      }
    }
    assert AllowedExtensions[0] == ".pdf" && AllowedExtensions[1] == ".csv";
  }

  /** A name is accepted exactly when, lowercased, it ends with ".pdf" or
      ".csv", and the extension chosen is the one it ends with. */
  lemma UploadExtensionSpec(filename: string)
    ensures UploadExtension(filename).Some?
      <==> exists ext :: ext in AllowedExtensions && EndsWith(Lower(filename), ext)
    ensures UploadExtension(filename) == Some(".pdf") <==> EndsWith(Lower(filename), ".pdf")
    ensures UploadExtension(filename) == Some(".csv") <==> EndsWith(Lower(filename), ".csv")
  {
    var lowered := Lower(filename);
    if EndsWith(lowered, ".pdf") {
      assert ".pdf" in AllowedExtensions;
    }
    if EndsWith(lowered, ".csv") {
      assert ".csv" in AllowedExtensions;
    }
  }

  /** `validate_csv_file`: the file reads under some encoding and the table
      is not empty. */
  predicate ValidateCsvFile(read: CsvRead) {
    read.Parsed? && read.frame.nrows > 0 && |read.frame.columns| > 0
  }

  /** A CSV file that passes validation is always processed. */
  lemma ValidCsvProcesses(read: CsvRead, fileId: string, scrub: string -> string, sample: Sampler)
    requires ValidateCsvFile(read)
    ensures ProcessCsv(read, fileId, scrub, sample).Ok?
  {
    ProcessFailures(read, fileId, scrub, sample);
  }

  /** `add_file`: choose the extension, validate, and ingest the PDF through
      the RAG service or the CSV through `process_csv_file`.  `pdf` and
      `csv` are the uploaded bytes read as either kind; `fileId` is the uuid
      the chosen path mints.  A 400 passes through unchanged, any other
      failure becomes a 500, and a rejected upload leaves the index
      untouched. */
  method AddFile(rag: RagService, filename: string, pdf: PdfSource, csv: CsvRead, fileId: string,
                 scrub: string -> string, sample: Sampler, upsertFault: Option<string>,
                 csvFaults: nat -> Option<string>)
    returns (r: Reply<FileResponse>)
    modifies rag.index
    ensures UploadExtension(filename).None? ==>
      r == Failure(HttpError(400, UnsupportedUploadDetail)) && rag.index.store == old(rag.index.store)
    ensures UploadExtension(filename) == Some(".pdf") && !ValidatePdfFile(pdf) ==>
      r == Failure(HttpError(400, InvalidPdfDetail)) && rag.index.store == old(rag.index.store)
    ensures UploadExtension(filename) == Some(".pdf") && ValidatePdfFile(pdf) ==>
      match Ingest(pdf, fileId, rag.split, rag.embedBatch)
      case Err(e) =>
        r == Failure(HttpError(500, "Failed to process file: " + ("Failed to add document: " + e)))
        && rag.index.store == old(rag.index.store)
      case Ok(ing) =>
        if upsertFault.Some? then
          r == Failure(HttpError(500, "Failed to process file: "
                                      + ("Failed to add document: " + ("Failed to upsert documents: " + upsertFault.value))))
          && rag.index.store == old(rag.index.store)
        else
          r == Success(FileResponse(fileId, AddedMessage, |ing.records|, ing.processed.textLength))
          && rag.index.store == UpsertAll(old(rag.index.store), ing.records)
    ensures UploadExtension(filename) == Some(".csv") && !ValidateCsvFile(csv) ==>
      r == Failure(HttpError(400, InvalidCsvDetail)) && rag.index.store == old(rag.index.store)
    ensures UploadExtension(filename) == Some(".csv") && ValidateCsvFile(csv) ==>
      && ProcessCsv(csv, fileId, scrub, sample).Ok?
      && var docs := ProcessCsv(csv, fileId, scrub, sample).value;
      && r == Success(FileResponse(fileId, CsvMessage(|docs|), |docs|, TextLength(docs)))
      && rag.index.store == UpsertEachAlone(old(rag.index.store), docs, rag.embedBatch, csvFaults)
  {
    var fileExt := SelectExtension(filename);
    if fileExt.None? {
      return Failure(HttpError(400, UnsupportedUploadDetail));
    }
    if fileExt.value == ".pdf" {
      if !ValidatePdfFile(pdf) {
        return Failure(HttpError(400, InvalidPdfDetail));
      }
      var result := rag.AddDocument(pdf, fileId, upsertFault);
      if result.Err? {
        return Failure(HttpError(500, "Failed to process file: " + result.message));
      }
      r := Success(FileResponse(result.value.fileId, result.value.message, result.value.totalChunks, result.value.textLength));
    } else {
      if !ValidateCsvFile(csv) {
        return Failure(HttpError(400, InvalidCsvDetail));
      }
      ValidCsvProcesses(csv, fileId, scrub, sample);
      // Validation has ruled out every failure of processing, so the
      // source's 500 for a processing exception cannot arise here.
      var result := ProcessCsvFile(rag.index, rag.embedBatch, csv, fileId, scrub, sample, csvFaults);
      r := Success(result.value);
    }
  }

  /* ---------------------------------------------------------------------
     delete_file and update_file
     --------------------------------------------------------------------- */

  /** `delete_file`: a whitespace-only id is refused with 400; otherwise the
      file's vectors are deleted, and a failure becomes a 500. */
  method DeleteFile(rag: RagService, fileId: string, fault: Option<string>) returns (r: Reply<DeleteResult>)
    modifies rag.index
    ensures IsBlank(fileId) ==>
      r == Failure(HttpError(400, EmptyIdDetail)) && rag.index.store == old(rag.index.store)
    ensures !IsBlank(fileId) && fault.Some? ==>
      r == Failure(HttpError(500, "Failed to delete file: "
                                  + ("Failed to delete document: " + ("Failed to delete vectors: " + fault.value))))
      && rag.index.store == old(rag.index.store)
    ensures !IsBlank(fileId) && fault.None? ==>
      r == Success(DeleteResult(fileId, DeletedMessage)) && DeleteEffect(old(rag.index.store), rag.index.store, fileId)
  {
    StripEmptyIffBlank(fileId);
    if Strip(fileId) == "" {
      return Failure(HttpError(400, EmptyIdDetail));
    }
    var result := rag.DeleteDocument(fileId, fault);
    if result.Err? {
      return Failure(HttpError(500, "Failed to delete file: " + result.message));
    }
    r := Success(DeleteResult(result.value.fileId, result.value.message));
  }

  /** `update_file`: a whitespace-only id, a name not ending in ".pdf" and an
      invalid PDF are refused with 400 and change nothing; otherwise the
      file's vectors are replaced through the RAG service (`freshId` is the
      uuid it mints while processing), and a failure becomes a 500.
      `cleared` is the index just after the delete. */
  method UpdateFile(rag: RagService, fileId: string, filename: string, pdf: PdfSource, freshId: string,
                    deleteFault: Option<string>, upsertFault: Option<string>)
    returns (r: Reply<FileResponse>, ghost cleared: Store)
    modifies rag.index
    ensures IsBlank(fileId) ==>
      r == Failure(HttpError(400, EmptyIdDetail)) && rag.index.store == old(rag.index.store)
    ensures !IsBlank(fileId) && !EndsWith(Lower(filename), ".pdf") ==>
      r == Failure(HttpError(400, PdfOnlyDetail)) && rag.index.store == old(rag.index.store)
    ensures !IsBlank(fileId) && EndsWith(Lower(filename), ".pdf") && !ValidatePdfFile(pdf) ==>
      r == Failure(HttpError(400, InvalidPdfDetail)) && rag.index.store == old(rag.index.store)
    ensures !IsBlank(fileId) && EndsWith(Lower(filename), ".pdf") && ValidatePdfFile(pdf) && deleteFault.Some? ==>
      r == Failure(HttpError(500, "Failed to update file: " + ("Failed to update document: "
        + ("Failed to delete document: " + ("Failed to delete vectors: " + deleteFault.value)))))
      && rag.index.store == old(rag.index.store)
    ensures !IsBlank(fileId) && EndsWith(Lower(filename), ".pdf") && ValidatePdfFile(pdf) && deleteFault.None? ==>
      && DeleteEffect(old(rag.index.store), cleared, fileId)
      && match Ingest(pdf, fileId, rag.split, rag.embedBatch)
         case Err(e) =>
           r == Failure(HttpError(500, "Failed to update file: " + ("Failed to update document: " + e)))
           && rag.index.store == cleared
         case Ok(ing) =>
           if upsertFault.Some? then
             r == Failure(HttpError(500, "Failed to update file: "
                                         + ("Failed to update document: " + ("Failed to upsert documents: " + upsertFault.value))))
             && rag.index.store == cleared
           else
             r == Success(FileResponse(fileId, UpdatedMessage, |ing.records|, ing.processed.textLength))
             && rag.index.store == UpsertAll(cleared, ing.records)
  {
    cleared := rag.index.store;
    StripEmptyIffBlank(fileId);
    if Strip(fileId) == "" {
      return Failure(HttpError(400, EmptyIdDetail)), cleared;
    }
    if !EndsWith(Lower(filename), ".pdf") {
      return Failure(HttpError(400, PdfOnlyDetail)), cleared;
    }
    if !ValidatePdfFile(pdf) {
      return Failure(HttpError(400, InvalidPdfDetail)), cleared;
    }
    var result;
    result, cleared := rag.UpdateDocument(fileId, pdf, freshId, deleteFault, upsertFault);
    if result.Err? {
      return Failure(HttpError(500, "Failed to update file: " + result.message)), cleared;
    }
    r := Success(FileResponse(result.value.fileId, result.value.message, result.value.totalChunks, result.value.textLength));
  }

  /* ---------------------------------------------------------------------
     get_csv_info
     --------------------------------------------------------------------- */

  /** Which warning the endpoint attaches; its text, which prints the time
      in minutes, is not modelled. */
  datatype Warning = NoWarning | LargeFile(documents: nat) | VeryLargeFile(documents: nat)

  datatype CsvInfoReply = CsvInfoReply(
    filename: string, csvInfo: Result<CsvInfo>, estimatedDocuments: nat, estimatedTimeSeconds: nat,
    isLarge: bool, isVeryLarge: bool, warning: Warning, supported: bool)

  const LargeThreshold := 100
  const VeryLargeThreshold := 500

  /** `csv_info.get('estimated_documents', 0)`: an error answer has none. */
  function EstimatedDocuments(info: Result<CsvInfo>): nat {
    if info.Ok? then info.value.estimatedDocuments else 0
  }

  /** The body of the answer for a CSV file: `int(docs * 1.5)` seconds and
      the two size flags, the very-large warning taking precedence. */
  function CsvInfoBody(filename: string, probe: CsvRead, full: Result<Frame>): CsvInfoReply {
    var info := GetCsvInfo(probe, full);
    var docs := EstimatedDocuments(info);
    var isLarge := docs > LargeThreshold;
    var isVeryLarge := docs > VeryLargeThreshold;
    var warning := if isVeryLarge then VeryLargeFile(docs) else if isLarge then LargeFile(docs) else NoWarning;
    CsvInfoReply(filename, info, docs, (3 * docs) / 2, isLarge, isVeryLarge, warning, true)
  }

  /** The endpoint as the source writes it: the 400 for a name not ending
      in ".csv" is raised inside the `try` whose `except Exception` turns
      it into a 500 carrying the text of the 400. */
  function CsvInfoEndpointAsWritten(filename: string, probe: CsvRead, full: Result<Frame>): Reply<CsvInfoReply> {
    if !EndsWith(Lower(filename), ".csv") then
      Failure(HttpError(500, "Failed to analyze CSV file: " + ("400: " + CsvOnlyDetail)))
    else Success(CsvInfoBody(filename, probe, full))
  }

  /** The endpoint as intended: a name not ending in ".csv" is a 400. */
  function CsvInfoEndpoint(filename: string, probe: CsvRead, full: Result<Frame>): Reply<CsvInfoReply> {
    if !EndsWith(Lower(filename), ".csv") then Failure(HttpError(400, CsvOnlyDetail))
    else Success(CsvInfoBody(filename, probe, full))
  }

  /** A text file sent to the endpoint as written gets a server error where
      a client error is meant. */
  lemma CsvInfoRejectsWithServerError(probe: CsvRead, full: Result<Frame>)
    ensures CsvInfoEndpointAsWritten("notes.txt", probe, full).Failure?
    ensures CsvInfoEndpointAsWritten("notes.txt", probe, full).error.status == 500
    ensures CsvInfoEndpoint("notes.txt", probe, full) == Failure(HttpError(400, CsvOnlyDetail))
  {
    assert Lower("notes.txt")[|"notes.txt"| - 1] == 't';
  }

  /** The intended endpoint refuses exactly the names not ending in ".csv",
      with 400.  On an accepted file the flags mean what they say about the
      estimate: large above 100 documents, very large above 500 (and then
      also large), the warning following the larger flag; the time is the
      whole part of 1.5 seconds per document.  For medical data, where the
      estimate is exact, large means processing will make more than 100
      documents. */
  lemma CsvInfoEndpointSpec(filename: string, probe: CsvRead, full: Result<Frame>,
                            fileId: string, scrub: string -> string, sample: Sampler)
    ensures CsvInfoEndpoint(filename, probe, full).Failure? <==> !EndsWith(Lower(filename), ".csv")
    ensures CsvInfoEndpoint(filename, probe, full).Failure? ==> CsvInfoEndpoint(filename, probe, full).error.status == 400
    ensures CsvInfoEndpoint(filename, probe, full).Success? ==>
      var b := CsvInfoEndpoint(filename, probe, full).body;
      && (b.isVeryLarge ==> b.isLarge)
      && (b.warning.VeryLargeFile? <==> b.isVeryLarge)
      && (b.warning.LargeFile? <==> b.isLarge && !b.isVeryLarge)
      && 2 * b.estimatedTimeSeconds <= 3 * b.estimatedDocuments < 2 * b.estimatedTimeSeconds + 2
      && (b.csvInfo.Err? ==> b.estimatedDocuments == 0 && b.warning == NoWarning)
      && (b.csvInfo.Ok? ==> probe.Parsed? && full.Ok?)
      && (b.csvInfo.Ok? && b.csvInfo.value.medicalInfo.isMedical ==>
            var docs := ProcessCsv(Parsed(full.value, probe.encoding), fileId, scrub, sample);
            docs.Ok? && (b.isLarge <==> |docs.value| > LargeThreshold))
  {
    if probe.Parsed? && full.Ok? {
      InfoAgreesWithProcessing(probe, full.value, probe.encoding, fileId, scrub, sample);
    }
  }
}
