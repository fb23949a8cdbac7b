# A Dafny model of the Agentic RAG System

The system is a retrieval-augmented question-answering service for PDF and
CSV documents, with a medical flavour. An uploaded PDF is read page by page,
split into chunks and embedded with OpenAI, and the embeddings are stored in
a Pinecone index under ids `{file_id}_{i}`. A CSV file is classified as
medical or not, stripped of columns that may hold protected health
information, and cut into row, batch, column and summary documents. A
question is answered in two steps: the closest chunks are retrieved, then a
chat model answers from a prompt built around them. Three scripts prepare
data: one collects public datasets and reports on them, one sets up a
medical knowledge base and its PDFs, and two convert markdown or text files
into reportlab PDFs.

This project models the logic around those calls:

- the vector index, as a class holding a map from vector id to stored record
  (`VectorDb`);
- the RAG service's query graph and document lifecycle (`Rag`);
- PDF ingestion and chunk annotation (`Ingestion`);
- embedding truncation, error classification and record ids (`Embeddings`);
- context and prompt building (`Llm`);
- the CSV processor (`CsvProcessor`, `CsvDocuments`, `CsvPipeline`);
- the file endpoints (`FileRoutes`);
- medical query classification (`MedicalConfig`);
- the settings (`Settings`);
- the four scripts (`DatasetPdfs`, `MedicalSetup`, `TestPdfs`,
  `DatasetCollector`).

Shared helpers are `Common` (Option and Result), `Text` (Python string
operations), `Documents` (metadata values and documents), `Story` (reportlab
flowables) and `Grouping` (building a dict of lists in first-appearance
order).

OpenAI, Pinecone, PyPDF2, LangChain's splitter, pandas' reader,
`requests`, uuids and clocks are parameters. They are function values that
may fail, or inputs such as a fault, a fresh id or a time stamp. A Python
exception with a message is an `Err(message)`. Code that loops or updates
state is written as methods with loop invariants. Each method is proved
equal to a specification function, and the properties are proved as lemmas
about those functions.

## Model

| member | source | states |
|---|---|---|
| Settings.ParseDebug | backend/core/config.py:43 | debugging is on exactly when the lower-cased DEBUG variable is "true"; it is off when DEBUG is unset |
| Settings.Load | backend/core/config.py:26-43 | the load succeeds exactly when `int()` reads all four numeric texts (CHUNK_SIZE, CHUNK_OVERLAP, MAX_RETRIEVAL_RESULTS, API_PORT, or their defaults), and each numeric attribute is then that value; otherwise the first rejected text in class order raises its ValueError; every string attribute is its variable or default, and the debug flag is as ParseDebug reads it |
| Settings.LoadReadsPrintedNumbers | backend/core/config.py:36-42 | numbers set in the environment as `str()` prints them load as those numbers |
| Text.ParseIntAccepts | backend/core/config.py:36-42 | `int()` accepts exactly a text that, stripped of surrounding whitespace, is an optionally signed run of digits with single underscores between digits |
| Text.ParseIntIgnoresPadding | backend/core/config.py:36-42 | `int()` of a padded text succeeds exactly when it does on the stripped text, with the same value |
| Text.ParseIntOfLiteral | backend/core/config.py:36-42 | an unsigned literal reads as its digits' value |
| Text.UnderscoreSkipped | backend/core/config.py:36-42 | an underscore between digits adds nothing to the value ("1_000" reads as "1000") |
| Text.ParseIntToString | backend/core/config.py:36-42 | printing an integer with `str()` and reading it back with `int()` gives the same integer |
| Settings.DefaultSettings | backend/core/config.py:26-43 | with an empty environment the load succeeds with chunk size 1000, overlap 200, five results, index "rag-documents", port 8000, debugging off and empty credentials |
| Settings.Validate | backend/core/config.py:45-59 | validation fails exactly when one of the three credentials is empty, with the message naming the missing variables joined by ", " |
| Settings.MissingVarsExactly | backend/core/config.py:47-53 | the missing list holds exactly the empty variables, each once, in the order OPENAI_API_KEY, PINECONE_API_KEY, PINECONE_ENVIRONMENT |
| Ingestion.ExtractText | backend/services/data_injestion_service.py:25-54 | an unreadable file fails with "Failed to extract text from PDF: " and the reason; otherwise the text is each page's text followed by a newline, in page order |
| Ingestion.ConcatPagesSnoc | backend/services/data_injestion_service.py:45-47 | one more page appends its text and a newline to the text so far |
| Ingestion.ConcatPagesSplit | backend/services/data_injestion_service.py:45-47 | when no page text holds a newline, splitting the extracted text on newlines gives back the pages followed by one empty piece |
| Ingestion.ConcatPagesEmpty | backend/services/data_injestion_service.py:45-47 | the extracted text is empty exactly when the document has no page |
| Ingestion.ChunkDocs | backend/services/data_injestion_service.py:71-79 | there is one chunk document per splitter piece |
| Ingestion.ChunkIndicesDense | backend/services/data_injestion_service.py:71-79 | the chunk indices are exactly 0..n-1, every chunk carries the count n, the file id and source "pdf" |
| Ingestion.ChunkText | backend/services/data_injestion_service.py:56-82 | piece i of the splitter becomes a document with metadata {file_id, source "pdf", chunk_index i, total_chunks n}, in piece order |
| Ingestion.ProcessPdfFile | backend/services/data_injestion_service.py:88-122 | an unreadable file and a blank text each fail with their wrapped message; otherwise the result carries the given id, the chunk documents, their count and the text length, and the file passes validation |
| Ingestion.ValidIffTextNonEmpty | backend/services/data_injestion_service.py:124-142 | a file is valid exactly when extraction succeeds with a non-empty text |
| Embeddings.TokenEstimateTest | backend/services/embeddings_service.py:36-37 | the estimate `len(text) / 4 > 8000`, on exact reals, holds exactly when the text is longer than 32000 characters |
| Embeddings.TruncateShape | backend/services/embeddings_service.py:36-41 | a text of at most 32000 characters is sent unchanged; a longer one keeps exactly its first 32000 characters followed by the truncation marker |
| Embeddings.TruncateIdempotent | backend/services/embeddings_service.py:36-41 | truncating an already truncated text changes nothing |
| Embeddings.ClassifyErrorSpec | backend/services/embeddings_service.py:52-63 | an error becomes the token-limit error exactly when its lower-cased message holds "maximum context length" or "token"; any other error keeps its message behind "Failed to generate embedding: " |
| Embeddings.GenerateEmbedding | backend/services/embeddings_service.py:19-63 | the call succeeds exactly when the embedding call on the truncated text does, returning its vector; a failure carries the classified error |
| Embeddings.GenerateEmbeddingsBatch | backend/services/embeddings_service.py:65-92 | the batch succeeds exactly when the batch call does, returning its vectors; a failure carries the message behind "Failed to generate batch embeddings: " |
| Embeddings.RecordIdsDistinct | backend/services/embeddings_service.py:115-117 | two records of one batch whose documents share a file id never share an id |
| Embeddings.EmbedDocumentsSpec | backend/services/embeddings_service.py:104-125 | record i has id `{file_id}_{i}` (`unknown_{i}` without a file id), the document's text and metadata and the i-th embedding; there is one record per document when the batch returns one embedding per text, and never more records than documents |
| Embeddings.ProcessDocuments | backend/services/embeddings_service.py:94-129 | the loop over the documents and their embeddings builds exactly the records EmbedDocuments describes, and a batch failure is wrapped in "Failed to process documents: " |
| Embeddings.SingleDocumentId | backend/services/embeddings_service.py:115-117 | a batch of one document always yields the id `{file_id}_0` |
| Embeddings.GetEmbeddingDimension | backend/services/embeddings_service.py:131-145 | the dimension is the length of the embedding of "test", or 1536 when that call fails |
| Llm.ContextParts | backend/services/llm_service.py:87-95 | there is one context block per document |
| Llm.PrepareContext | backend/services/llm_service.py:77-97 | the loop builds the blocks "Document i (File: …, Chunk: …):" with the text, numbered from 1, and joins them with newlines, as ContextText describes |
| Llm.ContextAppend | backend/services/llm_service.py:87-97 | no documents give an empty context; one more document appends its block, numbered after the others, behind a newline, so the blocks follow the input order |
| Llm.ContextHoldsEveryDocument | backend/services/llm_service.py:87-97 | every document's block, and so its text, occurs in the context |
| Llm.BareDocumentPart | backend/services/llm_service.py:90-94 | a document without text, file_id or chunk_index is still listed, as "unknown" with empty text |
| Llm.PromptOrder | backend/services/llm_service.py:99-117 | the prompt opens with "Context:" and the context, states "Question: " and the query right after it, and ends with the fixed instruction |
| Llm.UserMessageCarriesContext | backend/services/llm_service.py:41-64 | the user message sent to the model holds every document's block and the question |
| Llm.GenerateResponse | backend/services/llm_service.py:19-75 | the model is asked with the fixed system prompt and the built user prompt; its answer is returned, and a failure is wrapped in "Failed to generate response: " |
| Llm.JoinSnoc | backend/services/llm_service.py:97 | joining one more part appends the separator and the part |
| VectorDb.OnlyFourKeysStored | rag_app/services/vectordb_service.py:70-81 | two documents that agree on text, embedding, file_id, chunk_index, total_chunks and source are stored identically, whatever else their metadata holds |
| VectorDb.SourceDefaultsToPdf | rag_app/services/vectordb_service.py:79 | a document without a "source" key is stored with source "pdf" |
| VectorDb.UpsertAllSpec | rag_app/services/vectordb_service.py:69-85 | after an upsert the index holds the old ids plus every document id, the last document with an id is what is stored under it, and every other vector is unchanged |
| VectorDb.RemoveFile | rag_app/services/vectordb_service.py:139-173 | removing a file leaves exactly the ids that do not carry that file_id |
| VectorDb.RemoveFileSpec | rag_app/services/vectordb_service.py:139-173 | after the removal no vector carries the file_id, and every vector of another file is kept as it was |
| VectorDb.RemoveUnknownFile | rag_app/services/vectordb_service.py:160-169 | deleting a file that has no vectors changes nothing |
| VectorDb.RemoveFileIdempotent | rag_app/services/vectordb_service.py:139-173 | a second delete of the same file changes nothing |
| VectorDb.RemoveFileCommutes | rag_app/services/vectordb_service.py:139-173 | deleting two files in either order leaves the same index |
| VectorDb.RemoveIds | rag_app/services/vectordb_service.py:166 | deleting by ids leaves the other ids with their vectors unchanged |
| VectorDb.RemoveMatchingIsRemoveFile | rag_app/services/vectordb_service.py:153-166 | deleting exactly the ids that carry a file_id is removing that file |
| VectorDb.Results | rag_app/services/vectordb_service.py:117-130 | there is one formatted result per match, in the order returned |
| VectorDb.TakeOneId | rag_app/services/vectordb_service.py:162 | collecting one more matching id grows the collected set by exactly that id |
| VectorDb.VectorIndex.constructor | rag_app/services/vectordb_service.py:13-53 | the service is connected to an index holding the given vectors, with the configured result count and dimension |
| VectorDb.VectorIndex.UpsertDocuments | rag_app/services/vectordb_service.py:55-90 | the loop projects each document to its id, embedding, text and the four metadata keys; on success the index is the batch upserted as UpsertAll describes; a failing call leaves the index unchanged and fails with "Failed to upsert documents: " |
| VectorDb.WriteProjected | rag_app/services/vectordb_service.py:69-85 | writing the projected vectors in order is the same as upserting the documents |
| VectorDb.VectorIndex.SearchSimilar | rag_app/services/vectordb_service.py:92-137 | the query uses top_k, or the configured default when none is given; each match becomes a result in the order returned; a failure is wrapped in "Failed to search similar documents: " |
| VectorDb.VectorIndex.QueryFileIds | rag_app/services/vectordb_service.py:153-162 | the query returns only ids of the file's vectors: all of them when there are at most 10000, and exactly 10000 otherwise |
| VectorDb.VectorIndex.DeleteByFileId | rag_app/services/vectordb_service.py:139-173 | the returned ids are deleted and nothing else changes; a file with at most 10000 vectors is removed completely; a failure leaves the index unchanged |
| VectorDb.VectorIndex.GetIndexStats | rag_app/services/vectordb_service.py:175-191 | the statistics report the number of stored vectors and the index dimension, or fail with "Failed to get index statistics: " |
| VectorDb.VectorIndex.HealthCheck | rag_app/services/vectordb_service.py:193-206 | the index is healthy exactly when the statistics call succeeds |
| Rag.EmptyContextSkipsLlm | backend/services/rag_service.py:66-67 | with no context the answer is the fixed "not enough information" text, whatever the model would say |
| Rag.AnswerWithContext | backend/services/rag_service.py:66-78 | with some context the answer is the model's reply to the prompt holding it, or the fixed error answer when the model fails |
| Rag.IngestedRecords | backend/services/rag_service.py:155-163 | every record of a file ingested under an id has id `{id}_{i}` and that file_id, and the upsert stores every one of them |
| Rag.RelabelChunks | backend/services/rag_service.py:223-228 | relabelling the chunks of a file processed under a fresh id gives exactly the chunks it would have had under the updated id |
| Rag.RewriteIdsNoOp | backend/services/rag_service.py:231-236 | once the chunks carry the updated id, the id rewrite changes nothing, since the records are already named `{file_id}_{i}` |
| Rag.SetFileIds | backend/services/rag_service.py:227-228 | the loop sets every chunk's metadata file_id to the updated id and changes nothing else |
| Rag.RewriteRecordIds | backend/services/rag_service.py:234-236 | the loop renames record i to `{file_id}_{i}` and sets its metadata file_id, changing nothing else |
| Rag.RagState.constructor | backend/services/rag_service.py:110-115 | the initial state holds the query, no context documents and an empty answer |
| Rag.RagService.constructor | backend/services/rag_service.py:27-33 | the service holds the index, the embedding, chat and query functions and the splitter it is given |
| Rag.RagService.Retrieve | backend/services/rag_service.py:38-57 | the context becomes the search results for the query's embedding, or empty when either call fails; the query and answer are untouched |
| Rag.RagService.Generate | backend/services/rag_service.py:59-78 | the answer becomes the fixed text for an empty context, else the model's answer, or the fixed error answer when the model fails |
| Rag.RagService.ProcessQuery | backend/services/rag_service.py:96-139 | the response carries the answer, the query, the context documents and their count; when the graph itself raises, the fixed error answer with no documents and the error text |
| Rag.RagService.AddDocument | backend/services/rag_service.py:141-176 | the index changes only when processing, embedding and the upsert all succeed, and then holds the file's records; each failure is wrapped in "Failed to add document: " |
| Rag.RagService.DeleteDocument | backend/services/rag_service.py:178-203 | on success the file's vectors are deleted as DeleteByFileId describes and the result names the file; a failure is wrapped in "Failed to delete document: " |
| Rag.RagService.UpdateDocument | backend/services/rag_service.py:205-252 | the file's vectors are deleted first; then the new PDF, processed under a fresh id and relabelled, is upserted as exactly the records adding it under the file id would write, with ids {file_id}_{i}; a failure after the delete leaves the old vectors deleted |
| Rag.RagService.HealthCheck | backend/services/rag_service.py:254-273 | overall health holds exactly when both the index and the model are healthy |
| CsvProcessor.FindAny | backend/services/csv_processor.py:73-78 | the keyword scan reports a match exactly when some keyword of the list occurs in the text |
| CsvProcessor.MedicalColumnsSpec | backend/services/csv_processor.py:73-78 | each column is counted at most once, and a lowercased name is listed exactly when it is a column name containing a medical keyword |
| CsvProcessor.ConfidenceTest | backend/services/csv_processor.py:91-93 | the test `min(total / columns, 1.0) > 0.3` on exact reals holds exactly when `10 * total > 3 * columns` |
| CsvProcessor.ContentTypePriority | backend/services/csv_processor.py:95-105 | a "diagnosis" column makes the data diagnostic whatever else holds; "general_medical" holds exactly when the data is medical and no name mentions diagnosis, medication, drug, symptom, lab or test; "unknown" implies not medical |
| CsvProcessor.DetectMedicalContent | backend/services/csv_processor.py:52-107 | the loops compute the detection function: the medical columns, the column and content scores, the confidence test and the content type; a table with no columns fails on the division |
| CsvProcessor.AnonymizeSpec | backend/services/csv_processor.py:109-140 | exactly the PHI columns are removed and the others keep their order and names; no PHI column survives; the row count is unchanged; non-object columns keep their values |
| CsvProcessor.AnonymizeData | backend/services/csv_processor.py:109-140 | the three loops (collect, drop, scrub object columns) compute the anonymized table |
| CsvProcessor.KeptAllWhenNoPhi | backend/services/csv_processor.py:119-129 | with no PHI column, every column is kept |
| CsvProcessor.PhiMatchesInsideWords | backend/services/csv_processor.py:114-126 | the patterns match anywhere in the name, so a "dosage" column is removed because it contains "age" |
| CsvProcessor.PhiMatchesShortPatterns | backend/services/csv_processor.py:114-126 | likewise a "side_effects" column is removed because it contains "id" |
| CsvDocuments.EntriesPartition | backend/services/csv_processor.py:262-277 | the medical and other entries split the row: every entry is in exactly one group, as often as in the row |
| CsvDocuments.FormatRowSpec | backend/services/csv_processor.py:257-279 | a row's text starts with its header, so it never strips to "" and no row is dropped; every shown value appears on its own labelled line |
| CsvDocuments.ShownLineInRow | backend/services/csv_processor.py:266-277 | the line of every shown entry appears in the row's text |
| CsvDocuments.FormatMedicalRow | backend/services/csv_processor.py:257-279 | the two loops (medical columns first, then the others) build exactly the row's text, from the row as `iterrows` yields it |
| CsvDocuments.RowOf | backend/services/csv_processor.py:190-191 | a row as `iterrows` yields it: each column's label with its cell, in column order; in a table of int64 and float64 columns with at least one float64, an integer cell becomes a float ("72" becomes "72.0"), and otherwise the cells are unchanged |
| CsvDocuments.IntegerShownAsFloat | backend/services/csv_processor.py:257-279 | in such a float row an integer value appears in the row text as a float, "Heart Rate: 72.0" |
| CsvDocuments.FloatTextShown | backend/services/csv_processor.py:267-270 | a float printed from an integer passes the row's filters and is shown as printed |
| CsvDocuments.BatchPartition | backend/services/csv_processor.py:213-219 | the batches partition the rows: each is a non-empty run of at most ten rows, each starts where the previous one ends, the first starts at row 0 and the last ends at the last row; row r is in batch r / 10 and in no other |
| CsvDocuments.RowDocsSpec | backend/services/csv_processor.py:189-209 | up to 1000 rows, document i is row i, with id {file_id}_row_{i}, row index and chunk index i of n chunks; the summary comes last |
| CsvDocuments.BatchDocsSpec | backend/services/csv_processor.py:212-253 | beyond 1000 rows, ceil(n / 10) batch documents then the summary; batch b has id {file_id}_batch_{b}, chunk index b of the batch count, and its size is the number of rows it covers |
| CsvDocuments.BatchDocHoldsRows | backend/services/csv_processor.py:222-229 | every row of a batch appears in the batch's text |
| CsvDocuments.BatchesCoverRows | backend/services/csv_processor.py:212-247 | beyond 1000 rows, the text of every row appears in batch r / 10 |
| CsvDocuments.BatchHeadVisible | backend/services/csv_processor.py:231 | a batch's text never strips to "", so no batch is dropped |
| CsvDocuments.AppendBatchRows | backend/services/csv_processor.py:225-229 | the inner loop appends each row's rule and text, for the batch's rows in order |
| CsvDocuments.RowDocuments | backend/services/csv_processor.py:189-209 | the row loop makes exactly the row documents |
| CsvDocuments.BatchDocuments | backend/services/csv_processor.py:212-247 | the batch loop makes exactly the batch documents |
| CsvDocuments.CreateMedicalDocuments | backend/services/csv_processor.py:184-255 | the documents are the row documents (up to 1000 rows) or the batch documents, followed by the summary |
| CsvDocuments.SummarySpec | backend/services/csv_processor.py:321-357 | the summary has id {file_id}_summary and is chunk 0 of 1; its text opens with the counts and describes every column; a table with rows shows a record for each of its first three rows |
| CsvDocuments.SummaryShowsColumns | backend/services/csv_processor.py:329-333 | the summary has a line for every column with its dtype and non-null count |
| CsvDocuments.SummaryShowsSamples | backend/services/csv_processor.py:336-342 | the summary holds the record of each of the first three rows (fewer when the table is shorter) |
| CsvDocuments.CreateDatasetSummary | backend/services/csv_processor.py:321-357 | the loops build exactly the summary document |
| CsvDocuments.AppendColumnInfo | backend/services/csv_processor.py:330-333 | the loop appends one information line per column, in column order |
| CsvDocuments.AppendSampleRecords | backend/services/csv_processor.py:338-342 | the loop appends the record of each of the first three rows |
| CsvDocuments.RecordText | backend/services/csv_processor.py:339-342 | a record is its heading and a line per present value of the row as `iterrows` yields it, each value clipped to 100 characters with "..." when longer |
| CsvDocuments.ColumnValuesNonEmpty | backend/services/csv_processor.py:287-288 | a column has a present value exactly when some cell is not missing |
| CsvDocuments.ColumnDocsCount | backend/services/csv_processor.py:286-313 | there are as many column documents as columns with a present value, so one per column when every column has one |
| CsvDocuments.ColumnDocsMembers | backend/services/csv_processor.py:286-313 | a column gets a document exactly when it has a present value |
| CsvDocuments.ColumnTextListsValues | backend/services/csv_processor.py:295-297 | a column of at most 100 values lists every one of them as a bullet |
| CsvDocuments.CreateGeneralDocuments | backend/services/csv_processor.py:281-319 | the column loop makes exactly the column documents, followed by the summary |
| CsvDocuments.OtherColumns | backend/services/csv_processor.py:263 | the comprehension keeps exactly the row's entries whose lower-cased column is not a medical column, in row order |
| CsvDocuments.AppendMedicalLines | backend/services/csv_processor.py:266-270 | the loop over the row appends, in row order, the labelled line of each shown entry whose column is medical |
| CsvDocuments.AppendLines | backend/services/csv_processor.py:273-277 | the loop over the other columns appends each shown entry's labelled line, in column order |
| CsvDocuments.RowTextVisible | backend/services/csv_processor.py:194 | a row's text never strips to "", so the check never drops a row |
| CsvDocuments.RowDocument | backend/services/csv_processor.py:192-209 | the body of the row loop always yields the row's document |
| CsvDocuments.BatchDocument | backend/services/csv_processor.py:217-247 | the body of the batch loop always yields the batch's document |
| CsvDocuments.SeparatedRowText | backend/services/csv_processor.py:226-229 | a row inside a batch contributes a rule of 50 "=" and then its text |
| CsvPipeline.ProcessCsvToDocuments | backend/services/csv_processor.py:142-182 | processing reads, classifies, anonymizes and splits the table the medical or the general way; every failure is re-raised behind "Failed to process CSV file: " |
| CsvPipeline.ProcessFailures | backend/services/csv_processor.py:142-182 | processing fails exactly when the file cannot be read or the table has no columns (the confidence divides by the column count), and every failure carries the prefix |
| CsvPipeline.CleanKeepsValues | backend/services/csv_processor.py:131-137 | an anonymized column that had a present value still has one |
| CsvPipeline.GeneralEstimate | backend/services/csv_processor.py:395-405 | for non-medical data the estimate bounds the documents made, and is reached when no column is removed as PHI and every column has a present value |
| CsvPipeline.EstimateAgreement | backend/services/csv_processor.py:395-405 | the estimate is exact for medical data and an upper bound otherwise |
| CsvPipeline.InfoAgreesWithProcessing | backend/services/csv_processor.py:359-393 | when the ten-row probe decodes and the full re-read yields the table processing reads, the information succeeds exactly when processing does; its estimate then bounds the documents processing makes, exactly for medical data; otherwise processing fails with the information's message behind the prefix |
| CsvPipeline.InfoMayFailWhereProcessingSucceeds | backend/services/csv_processor.py:365-378 | the full re-read has no encoding fallback: when it fails after the probe decoded, the information is that error, while processing, which falls back to the next encoding, can still succeed |
| CsvPipeline.InfoDescribesTable | backend/services/csv_processor.py:381-389 | the information lists the full table's rows and as many column names as columns, in order, with the encoding the probe found |
| CsvPipeline.DocumentsTagged | backend/services/csv_processor.py:198-199 | every document made from a table carries in its metadata the file id processing was given, whichever way the table is split |
| FileRoutes.TextLengthBounds | backend/api/routes_files.py:69-76 | every document's text counts once towards the total text length |
| FileRoutes.UpsertAloneEffect | backend/api/routes_files.py:88-97 | a document tagged with the file id is written under {file_id}_0, the id a one-document batch gives its record, whatever its own id; a failing embedding or upsert changes nothing |
| FileRoutes.AloneUsesOneId | backend/api/routes_files.py:84-97 | as written, the loop writes no key but {file_id}_0, and every other vector keeps its value |
| FileRoutes.TwoDocumentsCollide | backend/api/routes_files.py:84-97 | two documents of one file that both embed and upsert leave a single new vector, holding the second document's text |
| FileRoutes.StoredAlone | backend/api/routes_files.py:88-93 | a stored document occupies {file_id}_0 with its own text |
| FileRoutes.CsvFileKeepsOneVector | backend/api/routes_files.py:40-97 | the documents processing makes for a file all carry its id, so the loop as written adds at most the one key {file_id}_0 |
| FileRoutes.UpsertOwnIdEffect | backend/api/routes_files.py:88-97 | as intended, a document whose embedding and upsert succeed is written under its own id, with its text; otherwise nothing changes |
| FileRoutes.OwnIdKeys | backend/api/routes_files.py:84-97 | as intended, the loop adds exactly the ids of the documents that embed and upsert, and the vectors of other ids keep their values |
| FileRoutes.OwnIdKeepsEveryDocument | backend/api/routes_files.py:84-97 | as intended, each document that embeds and upserts is stored under its own id with its text, unless a later document reuses the id |
| FileRoutes.CountDocuments | backend/api/routes_files.py:68-76 | the first loop makes one LangChain document per CSV document, with its text and metadata, and counts the documents and their total text length |
| FileRoutes.UpsertEach | backend/api/routes_files.py:84-97 | the second loop leaves the index as the as-written per-document upsert: each document embedded alone and upserted under the id `process_documents([doc])` gives it (`{file_id}_0`), the documents that fail skipped |
| FileRoutes.ProcessCsvFile | backend/api/routes_files.py:40-108 | a processing failure leaves the index unchanged; otherwise the reply carries the file id, the document count and the total text length, independent of the per-document failures, and the index becomes the as-written per-document upsert, in which every stored document lands on `{file_id}_0` |
| FileRoutes.SelectExtension | backend/api/routes_files.py:145-150 | the scan picks the first allowed extension the lowercased name ends with |
| FileRoutes.UploadExtensionSpec | backend/api/routes_files.py:145-156 | a name is accepted exactly when, lowercased, it ends with ".pdf" or ".csv", and the extension chosen is the one it ends with |
| FileRoutes.ValidCsvProcesses | backend/api/routes_files.py:179-189 | a CSV file that passes validation is always processed without error |
| FileRoutes.AddFile | backend/api/routes_files.py:127-218 | an unsupported name, an invalid PDF and an invalid CSV are 400s that change nothing; a PDF is ingested through the RAG service and a CSV through the as-written CSV loop, and other failures become 500s with "Failed to process file: " |
| FileRoutes.DeleteFile | backend/api/routes_files.py:221-263 | a whitespace-only id is a 400 that changes nothing; otherwise the file's vectors are deleted, and a failure becomes a 500 with "Failed to delete file: " |
| FileRoutes.UpdateFile | backend/api/routes_files.py:266-341 | a whitespace-only id, a name not ending in ".pdf" and an invalid PDF are 400s that change nothing; otherwise the file's vectors are replaced through the RAG service, and a failure becomes a 500 with "Failed to update file: " |
| FileRoutes.CsvInfoRejectsWithServerError | backend/api/routes_files.py:355-409 | as written, a "notes.txt" upload gets a 500, since the 400 raised inside the try is caught by its except Exception, where the intended endpoint answers 400 |
| FileRoutes.CsvInfoEndpointSpec | backend/api/routes_files.py:344-409 | the intended endpoint refuses exactly the names not ending in ".csv", with 400; otherwise very large implies large, the warning follows the larger flag, the time is the whole part of 1.5 s per document, an error answer estimates nothing, and for medical data, where the full re-read yields the table processing reads, large means processing makes more than 100 documents |
| MedicalConfig.ValidateMedicalQuery | backend/medical_config.py:117-148 | the loop that stops at the first match computes the query's classification: emergency and drug flags, specialty, disclaimer and complexity |
| MedicalConfig.MatchIsFirst | backend/medical_config.py:131-136 | the search returns the first specialty whose spaced form occurs, or "general" exactly when none occurs |
| MedicalConfig.SpecialtyIsFirstMatch | backend/medical_config.py:14-23 | the specialty is "general" exactly when no supported specialty, underscores read as spaces, occurs in the lowercased query; otherwise it is the first one in list order that occurs |
| MedicalConfig.ClassFlags | backend/medical_config.py:120-148 | every query needs the disclaimer; complexity is "high" exactly for emergencies and "medium" otherwise; the emergency and drug flags are the keyword tests on the lowercased query |
| MedicalConfig.CaseInsensitive | backend/medical_config.py:120 | a query and its lowercased form are classified alike |
| MedicalConfig.MatchOccurs | backend/medical_config.py:133-136 | a specialty other than "general" is reported only when it occurs in the query |
| MedicalConfig.EmergencyMedicineIsEmergency | backend/medical_config.py:123-136 | a query about emergency medicine always counts as an emergency, since "emergency medicine" holds the keyword "emergency" |
| MedicalConfig.TemplateLayout | backend/medical_config.py:88-99 | the template opens with the system prompt and holds "{context}" and, after it, "{query}"; it ends with the instruction to include disclaimers |
| MedicalConfig.TemplatePlaceholders | backend/medical_config.py:26-44 | the medical template starts with the medical system prompt, then "{context}", then "{query}" |
| DatasetPdfs.CreatePdfFromMarkdown | scripts/create_dataset_pdfs.py:622-691 | the loop builds the story line by line by the first matching rule and appends the dated footer; a failing build is logged with its message and nothing is raised |
| DatasetPdfs.NumberedIff | scripts/create_dataset_pdfs.py:669 | a line counts as numbered exactly when it starts with a single digit 1-9, a dot and a space, so "10. " does not |
| DatasetPdfs.TwoDigitNumberIsPlain | scripts/create_dataset_pdfs.py:669-677 | a line numbered 10 or more is a plain paragraph whose text goes through the bold replacement |
| DatasetPdfs.OpenLeavesNoDoubleStar | scripts/create_dataset_pdfs.py:676 | after "**" is replaced by "<b>", no "**" is left |
| DatasetPdfs.ReplaceWithoutMatch | scripts/create_dataset_pdfs.py:676 | replacing "**" in a text that holds none changes nothing |
| DatasetPdfs.BoldNeverCloses | scripts/create_dataset_pdfs.py:676 | the second replacement never fires, so bold text is opened with "<b>" and never closed with "</b>" |
| DatasetPdfs.StoryEndsWithFooter | scripts/create_dataset_pdfs.py:679-684 | the story always ends with the 30-point spacer and the "Generated on" paragraph |
| MedicalSetup.MedicalRagSetup.constructor | scripts/medical_rag_setup.py:37-40 | a fresh setup has its base directory, no sources, the given disk, no PDFs and no configuration |
| MedicalSetup.MedicalRagSetup.CreateMedicalKnowledgeBase | scripts/medical_rag_setup.py:42-79 | one source per supported specialty is appended and each specialty's text is written to its knowledge path; PDFs and configuration are untouched |
| MedicalSetup.MedicalRagSetup.WriteKnowledgeTexts | scripts/medical_rag_setup.py:59-77 | the loop writes each specialty's text and appends its source, in order |
| MedicalSetup.MedicalRagSetup.StoryOfText | scripts/medical_rag_setup.py:1485-1499 | the loop builds the story of a knowledge text line by line |
| MedicalSetup.MedicalRagSetup.CreateMedicalPdfs | scripts/medical_rag_setup.py:1458-1502 | each source whose text file exists gets the PDF of its specialty, built from the story of that text; sources, files and configuration are untouched |
| MedicalSetup.MedicalRagSetup.BuildPdfs | scripts/medical_rag_setup.py:1471-1502 | the conversion loop builds exactly the PDFs of the converted sources |
| MedicalSetup.MedicalRagSetup.CreateMedicalConfig | scripts/medical_rag_setup.py:1504-1535 | the configuration lists the specialty and the data-source entry of every source |
| MedicalSetup.MedicalRagSetup.GenerateMedicalReport | scripts/medical_rag_setup.py:1537-1603 | the report is returned and written to the report path, and nothing else changes |
| MedicalSetup.MedicalRagSetup.ReportText | scripts/medical_rag_setup.py:1539-1596 | the report is the overview, a section per specialty filled from the grouping dict, and the closing sections |
| MedicalSetup.MedicalRagSetup.AppendSections | scripts/medical_rag_setup.py:1558-1561 | the loop appends, per specialty in dict order, its heading and a bullet per source name in its group |
| MedicalSetup.MedicalRagSetup.AppendBullets | scripts/medical_rag_setup.py:1560-1561 | the inner loop appends one bullet per source name of a group |
| MedicalSetup.KnowledgePathInjective | scripts/medical_rag_setup.py:60-63 | two specialties never share a knowledge path |
| MedicalSetup.PdfPathInjective | scripts/medical_rag_setup.py:1466-1479 | two specialties never share a PDF path |
| MedicalSetup.KnowledgeSourcesShape | scripts/medical_rag_setup.py:67-77 | one source per specialty, in list order, each naming its specialty and its knowledge text |
| MedicalSetup.WrittenFilesHold | scripts/medical_rag_setup.py:59-65 | after the writes, each specialty's path holds its text, other paths keep their contents, and no other path appears |
| MedicalSetup.BuiltPdfsStep | scripts/medical_rag_setup.py:1471-1502 | one more source writes its PDF exactly when its text file exists |
| MedicalSetup.BuiltPdfsLast | scripts/medical_rag_setup.py:1471-1502 | a converted source whose specialty no later source shares leaves the story of its text as its specialty's PDF |
| MedicalSetup.BuiltPdfsKeep | scripts/medical_rag_setup.py:1471-1502 | converting the last source leaves every other PDF as it was |
| MedicalSetup.BuiltPdfsOnlyConverted | scripts/medical_rag_setup.py:1471-1472 | every PDF built belongs to a converted source's specialty or was there before |
| MedicalSetup.KnowledgeSpecialtiesDistinct | scripts/medical_rag_setup.py:47-56 | the knowledge base lists each specialty once |
| MedicalSetup.PdfsAfterWrites | scripts/medical_rag_setup.py:1471-1502 | writing one text per distinct specialty and then converting every source gives each of those specialties a PDF whose story is that of its text |
| MedicalSetup.PdfsAfterKnowledgeBase | scripts/medical_rag_setup.py:42-79 | running the knowledge base and then the conversion, whatever sources came before, gives every specialty a PDF whose story is that of its knowledge text |
| MedicalSetup.MedicalLineShape | scripts/medical_rag_setup.py:1487-1499 | a blank line adds nothing; any other line adds a paragraph followed by a spacer |
| MedicalSetup.PlainLineIsNormal | scripts/medical_rag_setup.py:1497-1499 | a non-blank line that does not start with "#" is a Normal paragraph of the whole stripped line |
| MedicalSetup.StoryLength | scripts/medical_rag_setup.py:1486-1499 | each non-blank line adds exactly two story elements and blank lines add none |
| MedicalSetup.ConfigListsSources | scripts/medical_rag_setup.py:1506-1529 | the configuration has one specialty and one data-source entry per source, in source order |
| MedicalSetup.ConfigAfterKnowledgeBase | scripts/medical_rag_setup.py:1504-1529 | after the knowledge base on a fresh setup, the configuration lists exactly the supported specialties, in order |
| MedicalSetup.CoveredIsSectionCount | scripts/medical_rag_setup.py:1544 | "Specialties Covered" equals the number of specialty sections |
| MedicalSetup.BulletListed | scripts/medical_rag_setup.py:1560-1561 | every member of a group has its bullet in the group's list |
| MedicalSetup.SectionListed | scripts/medical_rag_setup.py:1558-1561 | each listed specialty's section holds its group's bullets |
| MedicalSetup.ReportListsEverySource | scripts/medical_rag_setup.py:1552-1561 | every source's name is listed in the report, under its specialty's section |
| TestPdfs.CreatePdfFromText | rag_app/create_test_pdfs.py:13-82 | the loop builds the story of the text line by line, by the first matching rule |
| TestPdfs.ConvertDocuments | rag_app/create_test_pdfs.py:99-103 | each pair whose text file exists writes the PDF of its text; each missing text file is reported |
| TestPdfs.CreateTestPdfs | rag_app/create_test_pdfs.py:85-103 | main converts the two sample documents |
| TestPdfs.TestLineSize | rag_app/create_test_pdfs.py:53-79 | every line adds one story element, or two for a heading |
| TestPdfs.StoryBounds | rag_app/create_test_pdfs.py:53-79 | the story has at least one and at most two elements per line |
| TestPdfs.TestStoryBounds | rag_app/create_test_pdfs.py:51-79 | a text of n newlines gives at least n + 1 elements |
| TestPdfs.StarredLine | rag_app/create_test_pdfs.py:72-75 | a line of two stars, some text and two stars is a bold paragraph of the slice between the star pairs |
| TestPdfs.BoldRoundTrip | rag_app/create_test_pdfs.py:72-75 | a line that is some text between two pairs of stars becomes a bold paragraph of exactly that text |
| TestPdfs.ShortBoldIsEmpty | rag_app/create_test_pdfs.py:72-75 | "**" alone, or "***", is an empty bold paragraph |
| TestPdfs.ConvertedWhenPresent | rag_app/create_test_pdfs.py:99-101 | a document whose text file exists gets its PDF, built from that text, unless a later pair writes the same PDF path |
| TestPdfs.ReportedIffMissing | rag_app/create_test_pdfs.py:99-103 | a document's text file is reported exactly when it does not exist |
| TestPdfs.SampleDocuments | rag_app/create_test_pdfs.py:92-103 | on the two sample documents, each PDF holds the story of its text when the text exists, and each missing text is reported |
| TestPdfs.MissingHasOnlyMissing | rag_app/create_test_pdfs.py:102-103 | only names of missing files are reported, each from some pair |
| DatasetCollector.DataSource.constructor | scripts/dataset_collector.py:22-33 | a new source has the given descriptive fields, no update time, and zero files and bytes |
| DatasetCollector.LastSegmentNoSlash | scripts/dataset_collector.py:246 | the text after the URL's last "/" holds no "/" |
| DatasetCollector.LastSegmentSuffix | scripts/dataset_collector.py:246 | that text ends the URL, and is the whole URL or comes right after a "/" |
| DatasetCollector.LastSegmentWithoutSlash | scripts/dataset_collector.py:246 | a URL without "/" is its own last segment |
| DatasetCollector.DownloadFilenameShape | scripts/dataset_collector.py:245-248 | the file name is the URL's last segment, extended by ".pdf" exactly when that segment has none of the four known extensions; the name always has a known extension and no "/" |
| DatasetCollector.DownloadFilenameIdempotent | scripts/dataset_collector.py:245-248 | deriving the file name from a saved file's name gives the same name |
| DatasetCollector.DownloadCounts | scripts/dataset_collector.py:240-280 | one download never rewrites a file on disk; the file counter rises by one exactly when a new file appears, the byte counter by that file's size, and the update time is set; an existing file or a failed request changes nothing |
| DatasetCollector.DownloadAllCounts | scripts/dataset_collector.py:94-95 | over a list of URLs, every file already on disk keeps its bytes, the file counter rises by the number of new files, the byte counter never falls, and nothing changes when no file is added |
| DatasetCollector.ExistingFileSkipped | scripts/dataset_collector.py:252-255 | a download whose file already exists changes nothing, whatever the server would answer |
| DatasetCollector.RecordsShape | scripts/dataset_collector.py:398-411 | the metadata records follow the sources one for one |
| DatasetCollector.MetadataListsSources | scripts/dataset_collector.py:393-412 | the metadata counts the sources and holds one entry per source, in order, with all nine of its fields |
| DatasetCollector.GroupSumOther | scripts/dataset_collector.py:436-440 | a new source leaves the sums of the other categories' groups alone |
| DatasetCollector.GroupSumAddOne | scripts/dataset_collector.py:436-440 | a new source adds its measure to the one group of its category |
| DatasetCollector.NewCategoryStep | scripts/dataset_collector.py:436-440 | a source of a category not seen before opens a group of its own holding just that source |
| DatasetCollector.GroupsSumToTotal | scripts/dataset_collector.py:421-422 | summing per category over the report's sections gives the overall total: each source is counted in exactly one section |
| DatasetCollector.TotalsByCategory | scripts/dataset_collector.py:421-445 | the report's total files and total bytes are the sums, over the category sections, of the sources listed in each |
| DatasetCollector.Sum | scripts/dataset_collector.py:421-422 | the loop computes the sum of the measure over the sources |
| DatasetCollector.ReportText | scripts/dataset_collector.py:424-445 | the report is the summary with the source count, both totals and the date, then a section per category in first-appearance order |
| DatasetCollector.AppendSections | scripts/dataset_collector.py:442-445 | the loop appends, per category in dict order, its heading and one line per source of its group |
| DatasetCollector.AppendLines | scripts/dataset_collector.py:444-445 | the inner loop appends one line per source of a group |
| DatasetCollector.LineListed | scripts/dataset_collector.py:444-445 | every member of a group has its line in the group's lines |
| DatasetCollector.SectionListed | scripts/dataset_collector.py:442-445 | each listed category's section holds its group's lines |
| DatasetCollector.ReportListsEverySource | scripts/dataset_collector.py:436-445 | every source has its line, with its file count and license, in the report, inside its category's section |
| DatasetCollector.Collector.constructor | scripts/dataset_collector.py:38-42 | a fresh collector has no sources, the given disk as its files, no metadata and no report |
| DatasetCollector.Collector.AddSource | scripts/dataset_collector.py:44-47 | the list grows by the source at its end, and both totals grow by the source's counters |
| DatasetCollector.Collector.DownloadFile | scripts/dataset_collector.py:240-280 | the files and the source's counters become what one download gives |
| DatasetCollector.Collector.CollectSource | scripts/dataset_collector.py:81-97 | a new PDF source with no URL of its own downloads each of its URLs in turn into its category directory, then is added |
| DatasetCollector.Collector.SaveMetadata | scripts/dataset_collector.py:393-417 | the saved metadata lists the current sources with the collection time |
| DatasetCollector.Collector.GenerateReport | scripts/dataset_collector.py:419-452 | the report of the current sources is returned and written to the report path |
| Grouping.GroupBy | scripts/medical_rag_setup.py:1552-1556 | the loop fills the dict so that its keys are the distinct keys in first-appearance order and each key's list holds the items with that key, in order |
| Grouping.KeysDistinct | scripts/medical_rag_setup.py:1552-1556 | no key is listed twice |
| Grouping.KeysComplete | scripts/dataset_collector.py:436-440 | a key is listed exactly when some item has it |
| Grouping.KeysOfPrefix | scripts/dataset_collector.py:436-440 | the keys of a prefix of the items come first, in the same order |
| Grouping.MembersPartition | scripts/medical_rag_setup.py:1552-1556 | each group holds only items with its key, and every item is in the group of its own key |
| Grouping.DistinctKeysCount | scripts/medical_rag_setup.py:1544 | the number of distinct keys, as `len(set(...))` counts them, is the number of groups |

## Left out

- The OpenAI, Pinecone, PyPDF2, LangChain, pandas and reportlab libraries are not modelled. Each call is a parameter: a function that may fail, a page list, a chunk list, a parsed table, or a `build` outcome.
- LangGraph's compile and invoke are the two nodes run in sequence. A failure of the graph itself is the `invokeFault` parameter of `Rag.RagService.ProcessQuery`.
- Pinecone failures are a `fault: Option<string>` parameter per call. `FileRoutes.ProcessCsvFile` takes one fault per document index.
- Pinecone's query is the `queryIndex` parameter. Its 10000-match limit is modelled, but similarity ranking is not.
- `uuid.uuid4()` and `datetime.now()` are parameters: the file id, the fresh id of an update, and the date strings.
- Logging, `time.sleep`, `print` and the warning texts are not modelled.
- Temporary files, `mkdir` and the FastAPI routing and response models are not modelled. The health route is not modelled because it only forwards to `Rag.RagService.HealthCheck`.
- The encoding fallback of `pd.read_csv` is the `CsvRead` outcome. `validate_csv_file` reads five rows and processing reads the whole file; the model gives both the same read, so a file valid for the first five rows but unreadable later is not distinguished. `get_csv_info` is given its own two reads, the ten-row probe with the fallback and the full re-read under the probed encoding without it; how each read turns the same bytes into a table is not modelled.
- The table model assumes pandas' default RangeIndex (row labels 0..n-1) and distinct column names.
- CsvDocuments.RowOf: the float rows of `iterrows` are modelled for int64 and float64 columns only, and an integer becomes "v.0", which is exact below 2**53; other numeric widths, and larger integers, which print in rounded or exponent form, are not modelled.
- The file size in `get_csv_info` is not modelled, and neither is the minutes figure of the CSV time estimate. Both are floating point.
- The detection confidence is a float in the source. The model keeps only the test `confidence > 0.3`, proved equal to an integer inequality; the confidence value itself is not returned.
- The regex that replaces capitalised name pairs in `anonymize_data` is the `scrub` parameter. The random sample of columns with more than 100 values is the `sample` parameter.
- Python's `str.lower()` and `str.title()` are modelled for ASCII letters only; other characters pass through unchanged.
- Settings.Load: `int()` is modelled for ASCII digits only; the other Unicode decimal digits Python also accepts are read as errors.
- `str()` of an `HTTPException` is written out as "status: detail".
- `get_medical_metadata`, `MEDICAL_SAMPLE_QUESTIONS`, `MEDICAL_RESPONSE_TEMPLATES`, `MEDICAL_FILE_SETTINGS` and the HIPAA and feature dictionaries are constant data. They are not modelled.
- The `_create_*_content` methods of scripts/medical_rag_setup.py and the markdown texts of scripts/create_dataset_pdfs.py return fixed literal texts. They are the `content` parameter.
- The `collect_*_dataset` methods differ only in their URL lists. `DatasetCollector.Collector.CollectSource` models one entry of those lists. `create_sample_documents` writes fixed texts and is not modelled.
- JSON serialisation of the metadata and configuration files is not modelled: the written value is kept as a datatype. The MB figure of the collection report is the `formatMb` parameter. Write failures are not modelled.
- In `_prepare_context`, search results always carry the keys file_id, chunk_index and text, possibly holding None. Such a value renders as "None", and "unknown" appears only when a key is absent. The model keeps this distinction.
- backend/services/data_injestion_service.py and rag_app/services/data_injestion_service.py are the same file, so one module, `Ingestion`, models both.
- The rag_app copies of the API routes, `main.py`, `demo.py` and the loggers are not modelled. They are application wiring.
- `DatasetCollector.LastSegment` is defined directly as the text after the last "/". It is not derived from a model of `str.split`.

## Findings

| source | as written | input that shows it | evidently intended | confidence | as-written member | corrected member |
|---|---|---|---|---|---|---|
| backend/api/routes_files.py:84-93 | each CSV document is embedded alone with `process_documents([doc])`, which names the record `{file_id}_0`, so every document of a file is upserted under the same id | a CSV whose processing yields two documents that both embed and upsert: one vector is left, holding the second text | each document stored under its own id (`{file_id}_row_{i}`, `_batch_{b}`, `_column_{c}`, `_summary`) | not executed | FileRoutes.TwoDocumentsCollide | FileRoutes.OwnIdKeepsEveryDocument |
| backend/api/routes_files.py:355-409 | the 400 for a name not ending in ".csv" is raised inside `try`, and `except Exception` turns it into a 500 | an upload named "notes.txt" to `/csv_info` | a 400 with "Only CSV files are supported for this endpoint" | not executed | FileRoutes.CsvInfoRejectsWithServerError | FileRoutes.CsvInfoEndpointSpec |
