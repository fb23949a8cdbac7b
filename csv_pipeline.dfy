/** The entry points of `CSVProcessor` (backend/services/csv_processor.py):
    turning a read table into documents, the information shown about a
    table before it is processed, and the estimate of how many documents
    processing will make. */
module CsvPipeline {
  import opened Common
  import opened Documents
  import opened CsvProcessor
  import opened CsvDocuments

  /** The outcome of `pd.read_csv` over the supported encodings: no
      encoding decoded the file, reading failed otherwise (with the
      exception's message), or the table and the first encoding that
      decoded it. */
  datatype CsvRead = Undecodable | ReadError(message: string) | Parsed(frame: Frame, encoding: string)

  const ProcessErrorPrefix := "Failed to process CSV file: "
  const NoEncodingMessage := "Could not read CSV file with any supported encoding"

  /** `_estimate_document_count`: rows plus the summary up to 1000 rows,
      batches of ten plus the summary beyond, and columns plus the summary
      for non-medical data. */
  function EstimateDocumentCount(frame: Frame, info: MedicalInfo): nat {
    if info.isMedical then
      if frame.nrows <= RowDocumentLimit then frame.nrows + 1 else TotalBatches(frame.nrows) + 1
    else |frame.columns| + 1
  }

  /** The documents of a table once its content is classified: the table
      is anonymized first, then split the medical or the general way. */
  function DocumentsFor(frame: Frame, info: MedicalInfo, fileId: string, scrub: string -> string, sample: Sampler): seq<CsvDoc> {
    var clean := Anonymize(frame, scrub);
    if info.isMedical then MedicalDocs(clean, fileId, info) else GeneralDocs(clean, fileId, sample)
  }

  /** `process_csv_to_documents`: every failure is re-raised behind the
      "Failed to process CSV file: " prefix. */
  function ProcessCsv(read: CsvRead, fileId: string, scrub: string -> string, sample: Sampler): Result<seq<CsvDoc>> {
    match read
    case Undecodable => Err(ProcessErrorPrefix + NoEncodingMessage)
    case ReadError(m) => Err(ProcessErrorPrefix + m)
    case Parsed(frame, _) =>
      match Detect(frame)
      case Err(e) => Err(ProcessErrorPrefix + e)
      case Ok(info) => Ok(DocumentsFor(frame, info, fileId, scrub, sample))
  }

  method ProcessCsvToDocuments(read: CsvRead, fileId: string, scrub: string -> string, sample: Sampler)
    returns (r: Result<seq<CsvDoc>>)
    ensures r == ProcessCsv(read, fileId, scrub, sample)
  {
    if read.Undecodable? {
      return Err(ProcessErrorPrefix + NoEncodingMessage);
    }
    if read.ReadError? {
      return Err(ProcessErrorPrefix + read.message);
    }
    var df := read.frame;
    var medicalInfo := DetectMedicalContent(df);
    if medicalInfo.Err? {
      return Err(ProcessErrorPrefix + medicalInfo.message);
    }
    var dfClean := AnonymizeData(df, scrub);
    var documents;
    if medicalInfo.value.isMedical {
      documents := CreateMedicalDocuments(dfClean, fileId, medicalInfo.value);
    } else {
      documents := CreateGeneralDocuments(dfClean, fileId, sample);
    }
    r := Ok(documents);
  }

  /** Processing fails exactly when the file cannot be read or the table has
      no columns, and every failure carries the prefix. */
  lemma ProcessFailures(read: CsvRead, fileId: string, scrub: string -> string, sample: Sampler)
    ensures ProcessCsv(read, fileId, scrub, sample).Err?
      <==> !read.Parsed? || |read.frame.columns| == 0
    ensures ProcessCsv(read, fileId, scrub, sample).Err? ==>
      ProcessCsv(read, fileId, scrub, sample).message[..|ProcessErrorPrefix|] == ProcessErrorPrefix
  {
  }

  /** An anonymized column that had a present value still has one. */
  lemma CleanKeepsValues(c: Column, scrub: string -> string)
    requires HasValues(c)
    ensures HasValues(CleanColumn(c, scrub))
  {
    ColumnValuesNonEmpty(c.cells);
    if IsObject(c) {
      var cells := CleanColumn(c, scrub).cells;
      assert cells[0].Value?;
      ColumnValuesNonEmpty(cells);
    }
  }

  /** For non-medical data the estimate is an upper bound, reached when no
      column is removed as PHI and every column has a present value. */
  lemma GeneralEstimate(frame: Frame, info: MedicalInfo, fileId: string, scrub: string -> string, sample: Sampler)
    requires !info.isMedical
    ensures |DocumentsFor(frame, info, fileId, scrub, sample)| <= EstimateDocumentCount(frame, info)
    ensures (forall j :: 0 <= j < |frame.columns| ==> !IsPhi(frame.columns[j]) && HasValues(frame.columns[j]))
      ==> |DocumentsFor(frame, info, fileId, scrub, sample)| == EstimateDocumentCount(frame, info)
  {
    var clean := Anonymize(frame, scrub);
    ColumnDocsCount(clean.columns, fileId, sample);
    if forall j :: 0 <= j < |frame.columns| ==> !IsPhi(frame.columns[j]) && HasValues(frame.columns[j]) {
      KeptAllWhenNoPhi(frame.columns);
      forall j | 0 <= j < |clean.columns| ensures HasValues(clean.columns[j]) {
        CleanKeepsValues(frame.columns[j], scrub);
      }
    }
  }

  /** The estimate is exact for medical data and an upper bound otherwise. */
  lemma EstimateAgreement(frame: Frame, info: MedicalInfo, fileId: string, scrub: string -> string, sample: Sampler)
    ensures info.isMedical ==> |DocumentsFor(frame, info, fileId, scrub, sample)| == EstimateDocumentCount(frame, info)
    ensures |DocumentsFor(frame, info, fileId, scrub, sample)| <= EstimateDocumentCount(frame, info)
  {
    if !info.isMedical {
      GeneralEstimate(frame, info, fileId, scrub, sample);
    }
  }

  /** What `get_csv_info` reports about a table. */
  datatype CsvInfo = CsvInfo(rows: nat, columns: nat, columnNames: seq<string>, encoding: string,
                             medicalInfo: MedicalInfo, estimatedDocuments: nat)

  /** `get_csv_info`: `probe` is the ten-row read over the supported
      encodings, `full` the whole file read again with the encoding the
      probe found and no fallback (a failure carries the exception's
      text).  The answer is the full table's shape, names, encoding,
      classification and estimate, or the error message. */
  function GetCsvInfo(probe: CsvRead, full: Result<Frame>): Result<CsvInfo> {
    match probe
    case Undecodable => Err("Could not read CSV file")
    case ReadError(m) => Err(m)
    case Parsed(_, encoding) =>
      match full
      case Err(m) => Err(m)
      case Ok(frame) =>
        match Detect(frame)
        case Err(e) => Err(e)
        case Ok(info) => Ok(CsvInfo(frame.nrows, |frame.columns|, Names(frame.columns), encoding, info,
                                    EstimateDocumentCount(frame, info)))
  }

  /** When the probe decodes and the full read yields the table processing
      reads, the information succeeds exactly when processing does; its
      estimate then bounds the documents processing makes, exactly for
      medical data; and on failure processing fails with the information's
      message behind the prefix. */
  lemma InfoAgreesWithProcessing(probe: CsvRead, frame: Frame, encoding: string,
                                 fileId: string, scrub: string -> string, sample: Sampler)
    requires probe.Parsed?
    ensures var info := GetCsvInfo(probe, Ok(frame));
      var docs := ProcessCsv(Parsed(frame, encoding), fileId, scrub, sample);
      && (info.Ok? <==> docs.Ok?)
      && (info.Ok? ==> |docs.value| <= info.value.estimatedDocuments)
      && (info.Ok? && info.value.medicalInfo.isMedical ==> |docs.value| == info.value.estimatedDocuments)
      && (info.Err? ==> docs == Err(ProcessErrorPrefix + info.message))
  {
    if Detect(frame).Ok? {
      EstimateAgreement(frame, Detect(frame).value, fileId, scrub, sample);
    }
  }

  /** The information and processing read the file separately: a file
      whose first ten rows decode under the first encoding but whose later
      rows do not makes the information fail with the decoding error,
      while processing falls back to the next encoding and succeeds. */
  lemma InfoMayFailWhereProcessingSucceeds(probe: CsvRead, decodeError: string, fallback: Frame, encoding: string,
                                            fileId: string, scrub: string -> string, sample: Sampler)
    requires probe.Parsed? && |fallback.columns| > 0
    ensures GetCsvInfo(probe, Err(decodeError)) == Err(decodeError)
    ensures ProcessCsv(Parsed(fallback, encoding), fileId, scrub, sample).Ok?
  {
    ProcessFailures(Parsed(fallback, encoding), fileId, scrub, sample);
  }

  /** The table is described by its own columns: as many names as columns,
      in order, and the encoding is the one the probe found. */
  lemma InfoDescribesTable(probe: CsvRead, frame: Frame)
    requires probe.Parsed? && |frame.columns| > 0
    ensures GetCsvInfo(probe, Ok(frame)).Ok?
    ensures var info := GetCsvInfo(probe, Ok(frame)).value;
      && info.rows == frame.nrows && info.columns == |info.columnNames|
      && (forall j :: 0 <= j < info.columns ==> info.columnNames[j] == frame.columns[j].name)
      && info.encoding == probe.encoding
  {
  }

  /** The document's metadata names the file it came from. */
  predicate Tagged(d: CsvDoc, fileId: string) {
    "file_id" in d.metadata && d.metadata["file_id"] == MStr(fileId)
  }

  lemma {:induction false} ColumnDocsTagged(columns: seq<Column>, fileId: string, sample: Sampler)
    ensures forall k :: 0 <= k < |ColumnDocs(columns, fileId, sample)| ==> Tagged(ColumnDocs(columns, fileId, sample)[k], fileId)
    decreases |columns|
  {
    if columns != [] {
      ColumnDocsTagged(columns[..|columns| - 1], fileId, sample);
    }
  }

  lemma RowDocsTagged(frame: Frame, fileId: string, info: MedicalInfo)
    ensures forall k :: 0 <= k < frame.nrows ==> Tagged(RowDocs(frame, fileId, info)[k], fileId)
  {
    forall k | 0 <= k < frame.nrows ensures Tagged(RowDocs(frame, fileId, info)[k], fileId) {
      assert RowDocs(frame, fileId, info)[k] == RowDoc(frame, fileId, info, k);
    }
  }

  lemma BatchDocsTagged(frame: Frame, fileId: string, info: MedicalInfo)
    ensures forall k :: 0 <= k < TotalBatches(frame.nrows) ==> Tagged(BatchDocs(frame, fileId, info)[k], fileId)
  {
    forall k | 0 <= k < TotalBatches(frame.nrows) ensures Tagged(BatchDocs(frame, fileId, info)[k], fileId) {
      assert BatchDocs(frame, fileId, info)[k] == BatchDoc(frame, fileId, info, k);
    }
  }

  lemma SummaryTagged(frame: Frame, fileId: string, contentType: string, isMedical: bool)
    ensures Tagged(SummaryDoc(frame, fileId, contentType, isMedical), fileId)
  {
  }

  lemma MedicalDocsTagged(frame: Frame, fileId: string, info: MedicalInfo)
    ensures forall k :: 0 <= k < |MedicalDocs(frame, fileId, info)| ==> Tagged(MedicalDocs(frame, fileId, info)[k], fileId)
  {
    SummaryTagged(frame, fileId, info.contentType, info.isMedical);
    if frame.nrows <= RowDocumentLimit {
      RowDocsTagged(frame, fileId, info);
    } else {
      BatchDocsTagged(frame, fileId, info);
    }
  }

  lemma GeneralDocsTagged(frame: Frame, fileId: string, sample: Sampler)
    ensures forall k :: 0 <= k < |GeneralDocs(frame, fileId, sample)| ==> Tagged(GeneralDocs(frame, fileId, sample)[k], fileId)
  {
    SummaryTagged(frame, fileId, "general_data", false);
    ColumnDocsTagged(frame.columns, fileId, sample);
  }

  /** Every document made from a table carries the file id processing was
      given, whichever way the table is split. */
  lemma DocumentsTagged(frame: Frame, info: MedicalInfo, fileId: string, scrub: string -> string, sample: Sampler)
    ensures forall k :: 0 <= k < |DocumentsFor(frame, info, fileId, scrub, sample)| ==>
      Tagged(DocumentsFor(frame, info, fileId, scrub, sample)[k], fileId)
  {
    var clean := Anonymize(frame, scrub);
    if info.isMedical {
      MedicalDocsTagged(clean, fileId, info);
    } else {
      GeneralDocsTagged(clean, fileId, sample);
    }
  }
}
